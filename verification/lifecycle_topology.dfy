/** Topology before traffic: the exact calls a run has made on the broker by the time it is ready. */
module LifecycleTopology {
  import opened Wrappers
  import opened Subscriptions
  import opened Components
  import opened Lifecycle
  import opened LifecycleFrames
  import opened LifecycleRegistration

  /** The calls one actor has made, in order. */
  function Mine(log: seq<Entry>, actor: Actor): seq<Op> {
    if log == [] then []
    else
      var last := log[|log| - 1];
      Mine(log[..|log| - 1], actor) + if last.actor == actor then [last.op] else []
  }

  lemma MineSnoc(log: seq<Entry>, entry: Entry, actor: Actor)
    ensures Mine(log + [entry], actor) == Mine(log, actor) + if entry.actor == actor then [entry.op] else []
  {
    assert (log + [entry])[..|log|] == log;
  }

  /** Declaring a list of exchanges in order, and binding a list of subscriptions in order. */
  function ExchangeOps(exchanges: seq<Exchange>): seq<Op> {
    seq(|exchanges|, k requires 0 <= k < |exchanges| => DeclareExchange(exchanges[k]))
  }

  function SubOps(subs: seq<Subscription>): seq<Op> {
    if subs == [] then [] else SubOps(subs[..|subs| - 1]) + Ops(SubItem(subs[|subs| - 1]))
  }

  /** Binding a list of subscriptions, with `i` of them done and `k` calls into the next one. */
  function Progress(subs: seq<Subscription>, i: nat, k: nat): seq<Op> {
    if i < |subs| && k <= |Ops(SubItem(subs[i]))| then SubOps(subs[..i]) + Ops(SubItem(subs[i]))[..k] else SubOps(subs)
  }

  function StartOps(s: State): seq<Op> {
    match s.pc
    case Declaring => if s.exch.Some? && s.i <= |s.exch.value| then ExchangeOps(s.exch.value[..s.i]) else []
    case Snapped => if s.exch.Some? then ExchangeOps(s.exch.value) else []
    case Binding =>
      if s.exch.Some? && s.snap.Some? then ExchangeOps(s.exch.value) + Progress(s.snap.value, s.i, s.k) else []
    case Serving =>
      if s.exch.Some? && s.snap.Some? then ExchangeOps(s.exch.value) + SubOps(s.snap.value) else []
    case _ => []
  }

  predicate Shaped(s: State) {
    && (s.pc.Declaring? || s.pc.Snapped? || s.pc.Binding? || s.pc.Serving? ==> s.exch.Some?)
    && (s.pc.Snapped? || s.pc.Binding? || s.pc.Serving? ==> s.snap.Some?)
    && (s.pc.Declaring? ==> s.i <= |s.exch.value|)
    && (s.pc.Snapped? ==> s.i == 0 && s.k == 0)
    && (s.pc.Binding? ==> s.i <= |s.snap.value|)
    && (s.pc.Binding? && s.i < |s.snap.value| ==> s.k < |Ops(SubItem(s.snap.value[s.i]))|)
    && (s.pc.Binding? && s.i == |s.snap.value| ==> s.k == 0)
  }

  /** The pcs in which Start's calls so far are known exactly. */
  predicate Building(pc: Pc) {
    pc.Dialing? || pc.Stored? || pc.Declaring? || pc.Snapped? || pc.Binding? || pc.Serving?
  }

  ghost predicate StartLogged(s: State) {
    && Shaped(s)
    && (Building(s.pc) ==> Mine(s.log, Starter(s.run)) == StartOps(s))
    && (forall r | r > s.run :: Mine(s.log, Starter(r)) == [])
  }

  /** What one registration call has asked of the broker so far. */
  predicate CallerLogged(s: State, c: nat)
    requires c < |s.callers|
  {
    var mine := Mine(s.log, Registrar(c));
    match s.callers[c].pc
    case Appended => mine == []
    case Read(_, _) => mine == []
    case Working(_, _, done) => done < |Ops(s.callers[c].item)| && mine == Ops(s.callers[c].item)[..done]
    case Returned(ok) => if ok then mine == [] || mine == Ops(s.callers[c].item) else mine <= Ops(s.callers[c].item)
  }

  ghost predicate CallersLogged(s: State) {
    && (forall c | 0 <= c < |s.callers| :: CallerLogged(s, c))
    && (forall c | c >= |s.callers| :: Mine(s.log, Registrar(c)) == [])
  }

  lemma OpsNotEmpty(item: Item)
    ensures |Ops(item)| > 0
  {
  }

  lemma SubOpsSnoc(subs: seq<Subscription>, i: nat)
    requires i < |subs|
    ensures SubOps(subs[..i + 1]) == SubOps(subs[..i]) + Ops(SubItem(subs[i]))
  {
    assert subs[..i + 1][..i] == subs[..i];
  }

  lemma StartLoggedDeclare(s: State)
    requires StartLogged(s) && Enabled(s, DeclareOk)
    ensures StartLogged(NextStart(s, DeclareOk))
  {
    var entry := Entry(Starter(s.run), s.run, DeclareExchange(s.exch.value[s.i]));
    forall r: nat
      ensures Mine(s.log + [entry], Starter(r)) == Mine(s.log, Starter(r)) + if r == s.run then [entry.op] else []
    {
      MineSnoc(s.log, entry, Starter(r));
    }
    assert ExchangeOps(s.exch.value[..s.i + 1]) == ExchangeOps(s.exch.value[..s.i]) + [entry.op];
  }

  /** One more successful call, and where that leaves the binding. */
  lemma ProgressStep(subs: seq<Subscription>, i: nat, k: nat)
    requires i < |subs| && k < |Ops(SubItem(subs[i]))|
    ensures var ops := Ops(SubItem(subs[i]));
      Progress(subs, i, k) + [ops[k]] == if k + 1 < |ops| then Progress(subs, i, k + 1) else Progress(subs, i + 1, 0)
  {
    var done, ops := SubOps(subs[..i]), Ops(SubItem(subs[i]));
    OneMoreOp(ops, k);
    Assoc(done, ops[..k], [ops[k]]);
    if k + 1 == |ops| {
      SubOpsSnoc(subs, i);
      NothingOfTheNext(subs, i + 1);
    }
  }

  lemma NothingOfTheNext(subs: seq<Subscription>, i: nat)
    requires i <= |subs|
    ensures Progress(subs, i, 0) == SubOps(subs[..i])
  {
    assert subs[..|subs|] == subs;
    if i < |subs| {
      assert SubOps(subs[..i]) + Ops(SubItem(subs[i]))[..0] == SubOps(subs[..i]);
    }
  }

  lemma BindOkFrame(s: State)
    requires Enabled(s, BindOk)
    ensures var s' := NextStart(s, BindOk);
      var ops := Ops(SubItem(s.snap.value[s.i]));
      && s'.pc == s.pc && s'.exch == s.exch && s'.snap == s.snap && s'.run == s.run
      && s'.log == s.log + [Entry(Starter(s.run), s.run, ops[s.k])]
      && s'.i == (if s.k + 1 < |ops| then s.i else s.i + 1)
      && s'.k == (if s.k + 1 < |ops| then s.k + 1 else 0)
  {
  }

  lemma StartLoggedBind(s: State)
    requires StartLogged(s) && Enabled(s, BindOk)
    ensures StartLogged(NextStart(s, BindOk))
  {
    BindOkFrame(s);
    StartBound(s, NextStart(s, BindOk), Ops(SubItem(s.snap.value[s.i]))[s.k]);
  }

  /** The state after a successful call of a binding, as far as the books go. */
  ghost predicate OneCallOn(s: State, s': State, op: Op) {
    && s.pc.Binding? && s.exch.Some? && s.snap.Some? && s.i < |s.snap.value|
    && s.k < |Ops(SubItem(s.snap.value[s.i]))| && op == Ops(SubItem(s.snap.value[s.i]))[s.k]
    && s'.pc == s.pc && s'.exch == s.exch && s'.snap == s.snap && s'.run == s.run
    && s'.log == s.log + [Entry(Starter(s.run), s.run, op)]
    && (if s.k + 1 < |Ops(SubItem(s.snap.value[s.i]))| then s'.i == s.i && s'.k == s.k + 1
        else s'.i == s.i + 1 && s'.k == 0)
  }

  lemma StartOpsGrow(s: State, s': State, op: Op)
    requires OneCallOn(s, s', op)
    ensures StartOps(s') == StartOps(s) + [op]
  {
    ProgressStep(s.snap.value, s.i, s.k);
    Assoc(ExchangeOps(s.exch.value), Progress(s.snap.value, s.i, s.k), [op]);
  }

  lemma StaysShaped(s: State, s': State, op: Op)
    requires Shaped(s) && OneCallOn(s, s', op)
    ensures Shaped(s')
  {
    if s'.i < |s.snap.value| {
      OpsNotEmpty(SubItem(s.snap.value[s'.i]));
    }
  }

  lemma StartBound(s: State, s': State, op: Op)
    requires StartLogged(s) && OneCallOn(s, s', op)
    ensures StartLogged(s')
  {
    StaysShaped(s, s', op);
    StartOpsGrow(s, s', op);
    MineSnoc(s.log, Entry(Starter(s.run), s.run, op), Starter(s.run));
    LaterRunsSilent(s, s', Entry(Starter(s.run), s.run, op));
  }

  lemma Assoc<T>(a: seq<T>, b: seq<T>, c: seq<T>)
    ensures a + b + c == a + (b + c)
  {
  }

  lemma LaterRunsSilent(s: State, s': State, entry: Entry)
    requires StartLogged(s) && entry.actor == Starter(s.run) && s'.log == s.log + [entry]
    ensures forall r | r > s.run :: Mine(s'.log, Starter(r)) == []
  {
    forall r | r > s.run ensures Mine(s'.log, Starter(r)) == [] {
      MineSnoc(s.log, entry, Starter(r));
    }
  }

  lemma StartLoggedSnap(s: State, e: Event)
    requires StartLogged(s) && Enabled(s, e) && (e.SnapExchanges? || e.SnapSubs? || e.ResetDead? || e.Ready?)
    ensures StartLogged(NextStart(s, e))
  {
    if e.SnapExchanges? {
      assert ExchangeOps(s.f.exchanges[..0]) == [];
    } else if e.SnapSubs? {
      assert s.exch.value[..s.i] == s.exch.value;
    } else if e.ResetDead? {
      StartLoggedReset(s);
    } else {
      assert s.snap.value[..s.i] == s.snap.value;
    }
  }

  lemma StartLoggedReset(s: State)
    requires StartLogged(s) && Enabled(s, ResetDead)
    ensures StartLogged(NextStart(s, ResetDead))
  {
    if s.snap.value != [] {
      OpsNotEmpty(SubItem(s.snap.value[0]));
    }
    NothingOfTheNext(s.snap.value, 0);
    assert StartOps(NextStart(s, ResetDead)) == StartOps(s);
  }

  lemma StartLoggedElsewhere(s: State, e: Event)
    requires StartLogged(s) && Enabled(s, e) && OfStart(e) && !e.DeclareOk? && !e.BindOk?
    ensures StartLogged(NextStart(s, e))
  {
    if e.SnapExchanges? || e.SnapSubs? || e.ResetDead? || e.Ready? {
      StartLoggedSnap(s, e);
    }
  }

  /** Where a registration is after one more successful call. */
  function AfterCall(w: Caller): CallerPc
    requires w.pc.Working?
  {
    if w.pc.done + 1 < |Ops(w.item)| then w.pc.(done := w.pc.done + 1) else Returned(true)
  }

  /** The log and the callers after a successful call of a registration. */
  lemma OpOkFrame(s: State, c: nat)
    requires Enabled(s, OpOk(c))
    ensures var s' := NextCaller(s, OpOk(c));
      var w := s.callers[c];
      && s'.pc == s.pc && s'.exch == s.exch && s'.snap == s.snap && s'.run == s.run && s'.i == s.i && s'.k == s.k
      && s'.log == s.log + [Entry(Registrar(c), w.pc.on, Ops(w.item)[w.pc.done])]
      && s'.callers == s.callers[c := w.(pc := AfterCall(w))]
  {
  }

  lemma StartLoggedCaller(s: State, e: Event)
    requires StartLogged(s) && Enabled(s, e) && OfCaller(e)
    ensures StartLogged(NextCaller(s, e))
  {
    if e.OpOk? {
      OpOkFrame(s, e.caller);
      var w := s.callers[e.caller];
      StartLoggedKept(s, NextCaller(s, e), Entry(Registrar(e.caller), w.pc.on, Ops(w.item)[w.pc.done]));
    }
  }

  lemma StartLoggedKept(s: State, s': State, entry: Entry)
    requires StartLogged(s) && entry.actor.Registrar? && s'.log == s.log + [entry]
    requires s'.pc == s.pc && s'.exch == s.exch && s'.snap == s.snap && s'.run == s.run && s'.i == s.i && s'.k == s.k
    ensures StartLogged(s')
  {
    forall r: nat ensures Mine(s'.log, Starter(r)) == Mine(s.log, Starter(r)) {
      MineSnoc(s.log, entry, Starter(r));
    }
  }

  lemma CallersLoggedOp(s: State, c: nat)
    requires CallersLogged(s) && Enabled(s, OpOk(c))
    ensures CallersLogged(NextCaller(s, OpOk(c)))
  {
    OpOkFrame(s, c);
    CallerAdvanced(s, NextCaller(s, OpOk(c)), c);
  }

  lemma CallerAdvanced(s: State, s': State, c: nat)
    requires CallersLogged(s) && c < |s.callers| && s.callers[c].pc.Working?
    requires var w := s.callers[c];
      && w.pc.done < |Ops(w.item)|
      && s'.log == s.log + [Entry(Registrar(c), w.pc.on, Ops(w.item)[w.pc.done])]
      && s'.callers == s.callers[c := w.(pc := AfterCall(w))]
    ensures CallersLogged(s')
  {
    var w := s.callers[c];
    var entry := Entry(Registrar(c), w.pc.on, Ops(w.item)[w.pc.done]);
    assert CallerLogged(s, c);
    OneMoreOp(Ops(w.item), w.pc.done);
    forall d: nat ensures Mine(s'.log, Registrar(d)) == Mine(s.log, Registrar(d)) + if d == c then [entry.op] else [] {
      MineSnoc(s.log, entry, Registrar(d));
    }
    forall d | 0 <= d < |s'.callers| && d != c ensures CallerLogged(s', d) {
      assert CallerLogged(s, d);
    }
    assert CallerLogged(s', c);
  }

  lemma OneMoreOp(ops: seq<Op>, k: nat)
    requires k < |ops|
    ensures ops[..k] + [ops[k]] == ops[..k + 1]
    ensures ops[..|ops|] == ops
  {
  }

  lemma CallersLoggedElsewhere(s: State, e: Event)
    requires CallersLogged(s) && Enabled(s, e) && OfCaller(e) && !e.OpOk?
    ensures CallersLogged(NextCaller(s, e))
  {
    var s' := NextCaller(s, e);
    forall d | 0 <= d < |s'.callers| ensures CallerLogged(s', d) {
      if d < |s.callers| {
        assert CallerLogged(s, d);
        OpsNotEmpty(s.callers[d].item);
      }
    }
  }

  /** Start's steps touch no caller, and log at most one call, of Start's. */
  lemma StartLogs(s: State, e: Event) returns (made: seq<Entry>)
    requires Enabled(s, e) && OfStart(e)
    ensures NextStart(s, e).callers == s.callers && NextStart(s, e).log == s.log + made
    ensures |made| <= 1 && forall entry <- made :: entry.actor.Starter?
  {
    if e.DeclareOk? {
      made := [Entry(Starter(s.run), s.run, DeclareExchange(s.exch.value[s.i]))];
    } else if e.BindOk? {
      BindOkFrame(s);
      made := [Entry(Starter(s.run), s.run, Ops(SubItem(s.snap.value[s.i]))[s.k])];
    } else {
      made := [];
    }
  }

  /** A step that adds only Start's calls, or none, to the log leaves the callers' books alone. */
  lemma CallersLoggedKept(s: State, s': State, made: seq<Entry>)
    requires CallersLogged(s) && s'.callers == s.callers && s'.log == s.log + made
    requires |made| <= 1 && forall entry <- made :: entry.actor.Starter?
    ensures CallersLogged(s')
  {
    forall d: nat ensures Mine(s'.log, Registrar(d)) == Mine(s.log, Registrar(d)) {
      if made == [] {
        assert s'.log == s.log;
      } else {
        assert made == [made[0]];
        MineSnoc(s.log, made[0], Registrar(d));
      }
    }
    forall d | 0 <= d < |s'.callers| ensures CallerLogged(s', d) {
      assert CallerLogged(s, d);
    }
  }

  lemma CallersLoggedStart(s: State, e: Event)
    requires CallersLogged(s) && Enabled(s, e) && OfStart(e)
    ensures CallersLogged(NextStart(s, e))
  {
    var made := StartLogs(s, e);
    CallersLoggedKept(s, NextStart(s, e), made);
  }

  ghost predicate Logged(s: State) {
    StartLogged(s) && CallersLogged(s)
  }

  /** What the books are about. */
  predicate SameBooks(s: State, s': State) {
    && s'.log == s.log && s'.callers == s.callers
    && s'.pc == s.pc && s'.exch == s.exch && s'.snap == s.snap && s'.run == s.run && s'.i == s.i && s'.k == s.k
  }

  lemma SameBooksStop(s: State, e: Event)
    requires Enabled(s, e) && OfStop(e)
    ensures SameBooks(s, NextStop(s, e))
  {
  }

  lemma SameBooksOther(s: State, e: Event)
    requires Enabled(s, e) && !OfStart(e) && !OfCaller(e) && !OfStop(e)
    ensures SameBooks(s, NextOther(s, e))
  {
  }

  lemma LoggedKept(s: State, s': State)
    requires Logged(s) && SameBooks(s, s')
    ensures Logged(s')
  {
    forall d | 0 <= d < |s'.callers| ensures CallerLogged(s', d) {
      assert CallerLogged(s, d);
    }
  }

  lemma LoggedStep(s: State, e: Event)
    requires Logged(s)
    ensures Logged(Step(s, e))
  {
    if Enabled(s, e) {
      if e.DeclareOk? {
        StartLoggedDeclare(s);
        CallersLoggedStart(s, e);
      } else if e.BindOk? {
        StartLoggedBind(s);
        CallersLoggedStart(s, e);
      } else if OfStart(e) {
        StartLoggedElsewhere(s, e);
        CallersLoggedStart(s, e);
      } else if OfCaller(e) {
        StartLoggedCaller(s, e);
        if e.OpOk? {
          CallersLoggedOp(s, e.caller);
        } else {
          CallersLoggedElsewhere(s, e);
        }
      } else if OfStop(e) {
        SameBooksStop(s, e);
        LoggedKept(s, NextStop(s, e));
      } else {
        SameBooksOther(s, e);
        LoggedKept(s, NextOther(s, e));
      }
    }
  }

  lemma {:induction false} LoggedHolds(es: seq<Event>)
    ensures Logged(Run(es))
  {
    if es != [] {
      LoggedHolds(es[..|es| - 1]);
      LoggedStep(Run(es[..|es| - 1]), es[|es| - 1]);
    }
  }

  // ----- Whose calls are on which channel -----

  /** Start works on its own run's channel, and a registration on the one it found. */
  predicate EntryOk(s: State, entry: Entry) {
    match entry.actor
    case Starter(r) => entry.ch == r
    case Registrar(c) =>
      && c < |s.callers|
      && (s.callers[c].pc.Returned? || (s.callers[c].pc.Working? && entry.ch == s.callers[c].pc.on))
  }

  ghost predicate ChannelsOk(s: State) {
    forall p | 0 <= p < |s.log| :: EntryOk(s, s.log[p])
  }

  /** A step makes at most one call, by Start or by a registration at work, which stays on its channel. */
  ghost predicate OneCallAtMost(s: State, s': State) {
    && (s'.log == s.log || exists entry :: s'.log == s.log + [entry] && EntryOk(s', entry))
    && |s.callers| <= |s'.callers|
    && forall c | 0 <= c < |s.callers| && (s.callers[c].pc.Working? || s.callers[c].pc.Returned?) ::
         || s'.callers[c].pc.Returned?
         || (s.callers[c].pc.Working? && s'.callers[c].pc.Working? && s'.callers[c].pc.on == s.callers[c].pc.on)
  }

  lemma ChannelsStart(s: State, e: Event)
    requires Enabled(s, e) && OfStart(e)
    ensures OneCallAtMost(s, NextStart(s, e))
  {
    var s' := NextStart(s, e);
    if e.DeclareOk? || e.BindOk? {
      assert s'.log == s.log + [s'.log[|s.log|]] && EntryOk(s', s'.log[|s.log|]);
    }
  }

  lemma ChannelsOp(s: State, c: nat)
    requires Enabled(s, OpOk(c))
    ensures OneCallAtMost(s, CalledOne(s, c))
  {
    OpOkFrame(s, c);
    var s' := CalledOne(s, c);
    assert s'.log == s.log + [s'.log[|s.log|]] && EntryOk(s', s'.log[|s.log|]);
  }

  lemma ChannelsCaller(s: State, e: Event)
    requires Enabled(s, e) && OfCaller(e) && !e.OpOk?
    ensures OneCallAtMost(s, NextCaller(s, e))
  {
  }

  lemma ChannelsKept(s: State, s': State)
    requires ChannelsOk(s) && OneCallAtMost(s, s')
    ensures ChannelsOk(s')
  {
    forall p | 0 <= p < |s'.log| ensures EntryOk(s', s'.log[p]) {
      if p < |s.log| {
        assert s'.log[p] == s.log[p] && EntryOk(s, s.log[p]);
      }
    }
  }

  lemma {:induction false} ChannelsHold(es: seq<Event>)
    ensures ChannelsOk(Run(es))
  {
    if es != [] {
      var s, e := Run(es[..|es| - 1]), es[|es| - 1];
      ChannelsHold(es[..|es| - 1]);
      if Enabled(s, e) {
        if OfStart(e) {
          ChannelsStart(s, e);
        } else if e.OpOk? {
          ChannelsOp(s, e.caller);
        } else if OfCaller(e) {
          ChannelsCaller(s, e);
        } else if OfStop(e) {
          SameBooksStop(s, e);
        } else {
          SameBooksOther(s, e);
        }
      }
      ChannelsKept(s, Run(es));
    }
  }

  /** All calls of an actor went to one channel. */
  ghost predicate AllOn(log: seq<Entry>, actor: Actor, ch: nat) {
    forall p | 0 <= p < |log| :: log[p].actor == actor ==> log[p].ch == ch
  }

  // ----- Where in the log the calls are -----

  /** Positions in a log, one after the other. */
  predicate Rising(at: seq<nat>, bound: nat) {
    && (forall i | 0 <= i < |at| :: at[i] < bound)
    && forall i, j | 0 <= i < j < |at| :: at[i] < at[j]
  }

  /** Those positions hold these calls of an actor, in order. */
  ghost predicate CallsAt(log: seq<Entry>, at: seq<nat>, actor: Actor, ops: seq<Op>) {
    && |at| == |ops| && Rising(at, |log|)
    && forall i | 0 <= i < |at| :: log[at[i]].actor == actor && log[at[i]].op == ops[i]
  }

  /** No call of the actor from position `lo` on is anywhere else. */
  ghost predicate NoOtherCall(log: seq<Entry>, lo: nat, at: seq<nat>, actor: Actor) {
    forall p | lo <= p < |log| && log[p].actor == actor :: p in at
  }

  lemma {:induction false} MinePositions(log: seq<Entry>, actor: Actor) returns (at: seq<nat>)
    ensures CallsAt(log, at, actor, Mine(log, actor))
    ensures NoOtherCall(log, 0, at, actor)
  {
    at := [];
    if log != [] {
      var last := |log| - 1;
      at := MinePositions(log[..last], actor);
      CallsStay(log, at, actor, Mine(log[..last], actor));
      if log[last].actor == actor {
        CallAdded(log, at, actor, Mine(log[..last], actor));
        at := at + [last];
      }
    }
  }

  /** Calls found before the last entry are still found with it, ... */
  lemma CallsStay(log: seq<Entry>, at: seq<nat>, actor: Actor, ops: seq<Op>)
    requires log != [] && CallsAt(log[..|log| - 1], at, actor, ops) && NoOtherCall(log[..|log| - 1], 0, at, actor)
    ensures CallsAt(log, at, actor, ops) && Rising(at, |log| - 1)
    ensures forall p | 0 <= p < |log| - 1 && log[p].actor == actor :: p in at
  {
    var before := log[..|log| - 1];
    forall i | 0 <= i < |at| ensures log[at[i]] == before[at[i]] {
    }
    forall p | 0 <= p < |log| - 1 && log[p].actor == actor ensures p in at {
      assert before[p] == log[p];
    }
  }

  /** ... and that one comes after them. */
  lemma CallAdded(log: seq<Entry>, at: seq<nat>, actor: Actor, ops: seq<Op>)
    requires log != [] && CallsAt(log, at, actor, ops) && Rising(at, |log| - 1) && log[|log| - 1].actor == actor
    requires forall p | 0 <= p < |log| - 1 && log[p].actor == actor :: p in at
    ensures CallsAt(log, at + [|log| - 1], actor, ops + [log[|log| - 1].op])
    ensures NoOtherCall(log, 0, at + [|log| - 1], actor)
  {
    var last, more := |log| - 1, at + [|log| - 1];
    forall p | 0 <= p < |log| && log[p].actor == actor ensures p in more {
      if p < last {
        assert p in at;
      } else {
        assert more[|at|] == p;
      }
    }
  }

  lemma CallsPart(log: seq<Entry>, at: seq<nat>, actor: Actor, ops: seq<Op>, lo: nat, hi: nat)
    requires CallsAt(log, at, actor, ops) && lo <= hi <= |at|
    ensures CallsAt(log, at[lo..hi], actor, ops[lo..hi])
  {
  }

  /** From call number `lo` to before `hi` are the calls that set up a subscription, spelled out. */
  predicate SetsUp(calls: seq<Op>, lo: nat, hi: nat, sub: Subscription) {
    && lo <= hi <= |calls|
    && hi == lo + (if sub.retry.Some? then 5 else 3)
    && (sub.retry.Some? ==>
        && calls[lo] == DeclareDelayQueue(sub.retry.value.RetryQueueFor(sub.queue), sub.queue)
        && calls[lo + 1] == DeclareDlq(sub.retry.value.DlqFor(sub.queue)))
    && calls[hi - 3] == DeclareWork(sub.queue, sub.queueArgs)
    && calls[hi - 2] == Bind(sub.queue, sub.routingKey, sub.exchange)
    && calls[hi - 1] == Consume(sub.queue)
  }

  lemma OpsSetUp(before: seq<Op>, sub: Subscription)
    ensures SetsUp(before + Ops(SubItem(sub)), |before|, |before + Ops(SubItem(sub))|, sub)
  {
    var ops := Ops(SubItem(sub));
    forall i | 0 <= i < |ops| ensures (before + ops)[|before| + i] == ops[i] {
    }
  }

  /** Calls that come after, or before, change nothing about a part of a list of calls. */
  lemma SetUpExtended(calls: seq<Op>, after: seq<Op>, lo: nat, hi: nat, sub: Subscription)
    requires SetsUp(calls, lo, hi, sub)
    ensures SetsUp(calls + after, lo, hi, sub)
  {
  }

  lemma SetUpShifted(before: seq<Op>, calls: seq<Op>, lo: nat, hi: nat, sub: Subscription)
    requires SetsUp(calls, lo, hi, sub)
    ensures SetsUp(before + calls, |before| + lo, |before| + hi, sub)
  {
    forall i | 0 <= i < |calls| ensures (before + calls)[|before| + i] == calls[i] {
    }
  }

  /** A list of calls sets up subscriptions one after the other, each beginning where the last one ended. */
  ghost predicate SetUpInOrder(calls: seq<Op>, begin: seq<nat>, subs: seq<Subscription>) {
    && |begin| == |subs| + 1 && begin[|subs|] == |calls|
    && forall i {:trigger subs[i]} | 0 <= i < |subs| :: SetsUp(calls, begin[i], begin[i + 1], subs[i])
  }

  lemma {:induction false} SubLayout(subs: seq<Subscription>) returns (begin: seq<nat>)
    ensures SetUpInOrder(SubOps(subs), begin, subs) && begin[0] == 0
  {
    begin := [0];
    if subs != [] {
      var before, sub := subs[..|subs| - 1], subs[|subs| - 1];
      begin := SubLayout(before);
      NextSetUp(SubOps(before), begin, before, sub, SubOps(subs), subs);
      begin := begin + [|SubOps(subs)|];
    }
  }

  lemma NextSetUp(calls: seq<Op>, begin: seq<nat>, subs: seq<Subscription>, sub: Subscription,
                  more: seq<Op>, all: seq<Subscription>)
    requires SetUpInOrder(calls, begin, subs)
    requires more == calls + Ops(SubItem(sub)) && all == subs + [sub]
    ensures SetUpInOrder(more, begin + [|more|], all)
  {
    var ends := begin + [|more|];
    forall i | 0 <= i < |all| ensures SetsUp(more, ends[i], ends[i + 1], all[i]) {
      if i < |subs| {
        assert all[i] == subs[i];
        SetUpExtended(calls, Ops(SubItem(sub)), begin[i], begin[i + 1], subs[i]);
      } else {
        OpsSetUp(calls, sub);
      }
    }
  }

  /** The layout of a list of calls that comes after others. */
  lemma Shifted(before: seq<Op>, calls: seq<Op>, inner: seq<nat>, subs: seq<Subscription>) returns (begin: seq<nat>)
    requires SetUpInOrder(calls, inner, subs) && inner[0] == 0
    ensures SetUpInOrder(before + calls, begin, subs) && begin[0] == |before|
  {
    begin := seq(|inner|, i requires 0 <= i < |inner| => |before| + inner[i]);
    forall i | 0 <= i < |subs| ensures SetsUp(before + calls, begin[i], begin[i + 1], subs[i]) {
      SetUpShifted(before, calls, inner[i], inner[i + 1], subs[i]);
    }
  }

  /**
   * When Start has called ready(), its calls on the broker in this run are, at the positions `at` of
   * the log and nowhere else, exactly: each exchange of its snapshot in registration order, then each
   * subscription of its snapshot in registration order, from call number `begin[i]` on: its delay
   * queue, dead-lettering back to its work queue, and its DLQ if it has a retry policy; then its work
   * queue, the binding, and the consumer. All of them were made on this run's channel.
   */
  lemma ReadyAfterTopology(es: seq<Event>, s: State) returns (at: seq<nat>, calls: seq<Op>, begin: seq<nat>)
    requires s == Run(es) && s.pc.Serving?
    ensures s.exch.Some? && s.snap.Some?
    ensures |at| == |calls| && Rising(at, |s.log|)
    ensures forall i | 0 <= i < |at| :: s.log[at[i]] == Entry(Starter(s.run), s.run, calls[i])
    ensures forall p | 0 <= p < |s.log| && s.log[p].actor == Starter(s.run) :: p in at
    ensures |begin| == |s.snap.value| + 1 && begin[0] == |s.exch.value| && begin[|s.snap.value|] == |calls|
    ensures |s.exch.value| <= |calls|
    ensures forall i | 0 <= i < |s.exch.value| :: calls[i] == DeclareExchange(s.exch.value[i])
    ensures forall i {:trigger s.snap.value[i]} | 0 <= i < |s.snap.value| ::
      SetsUp(calls, begin[i], begin[i + 1], s.snap.value[i])
  {
    LoggedHolds(es);
    ChannelsHold(es);
    at := MinePositions(s.log, Starter(s.run));
    calls := Mine(s.log, Starter(s.run));
    var inner := SubLayout(s.snap.value);
    begin := Shifted(ExchangeOps(s.exch.value), SubOps(s.snap.value), inner, s.snap.value);
    OnOwnChannel(s, at, calls);
  }

  lemma OnOwnChannel(s: State, at: seq<nat>, calls: seq<Op>)
    requires ChannelsOk(s) && CallsAt(s.log, at, Starter(s.run), calls)
    ensures forall i | 0 <= i < |at| :: s.log[at[i]] == Entry(Starter(s.run), s.run, calls[i])
  {
    forall i | 0 <= i < |at| ensures s.log[at[i]] == Entry(Starter(s.run), s.run, calls[i]) {
      assert EntryOk(s, s.log[at[i]]);
    }
  }

  predicate EndsWith(ops: seq<Op>, tail: seq<Op>) {
    |tail| <= |ops| && ops[|ops| - |tail|..] == tail
  }

  /**
   * Whoever starts a consumer, Start or a live Subscribe, has just completed the calls of a registered
   * subscription to its queue, in order and on the consumer's channel, the last of them just now and
   * no other call of its own in between: delay queue and DLQ if there is a retry policy, then work
   * queue, binding, consume.
   */
  lemma ConsumerAfterTopology(es: seq<Event>, e: Event, s: State)
    returns (actor: Actor, sub: Subscription, at: seq<nat>, calls: seq<Op>)
    requires s == Step(Run(es), e) && |s.consumers| > |Run(es).consumers|
    ensures s.consumers != [] && sub in s.f.subs && sub.queue == s.consumers[|s.consumers| - 1].queue
    ensures JustSetUp(s.log, at, calls, actor, s.consumers[|s.consumers| - 1].ch, sub)
  {
    actor, sub := SpawnerAndSub(es, e, s);
    at, calls := PlannedCalls(s, actor, sub);
  }

  /** The actor's last calls, at the end of the log and all on this channel, set up the subscription. */
  ghost predicate JustSetUp(log: seq<Entry>, at: seq<nat>, calls: seq<Op>, actor: Actor, ch: nat, sub: Subscription) {
    && |at| == |calls| > 0 && Rising(at, |log|) && SetsUp(calls, 0, |calls|, sub)
    && (forall i | 0 <= i < |at| :: log[at[i]] == Entry(actor, ch, calls[i]))
    && at[|at| - 1] == |log| - 1
    && NoOtherCall(log, at[0], at, actor)
  }

  lemma PlannedCalls(s: State, actor: Actor, sub: Subscription) returns (at: seq<nat>, calls: seq<Op>)
    requires ConsumesAsPlanned(s, actor, sub)
    ensures JustSetUp(s.log, at, calls, actor, s.consumers[|s.consumers| - 1].ch, sub)
  {
    calls := Ops(SubItem(sub));
    OpsSetUp([], sub);
    assert [] + calls == calls;
    at := TailCalls(s.log, actor, calls);
  }

  lemma SpawnerAndSub(es: seq<Event>, e: Event, s: State) returns (actor: Actor, sub: Subscription)
    requires s == Step(Run(es), e) && |s.consumers| > |Run(es).consumers|
    ensures ConsumesAsPlanned(s, actor, sub)
  {
    LoggedHolds(es);
    RegistrationHolds(es);
    ChannelsHold(es);
    ChannelsHold(es + [e]);
    assert (es + [e])[..|es|] == es;
    WhoSpawns(Run(es), e);
    if e.BindOk? {
      actor, sub := StartConsumes(Run(es));
    } else {
      actor, sub := CallerConsumes(Run(es), e.caller);
    }
  }

  /** An actor's last calls, when the very last entry of the log is its own. */
  lemma TailCalls(log: seq<Entry>, actor: Actor, ops: seq<Op>) returns (at: seq<nat>)
    requires ops != [] && EndsWith(Mine(log, actor), ops) && log != [] && log[|log| - 1].actor == actor
    ensures CallsAt(log, at, actor, ops) && at[|at| - 1] == |log| - 1
    ensures NoOtherCall(log, at[0], at, actor)
  {
    var all := MinePositions(log, actor);
    var k := |all| - |ops|;
    CallsPart(log, all, actor, Mine(log, actor), k, |all|);
    at := all[k..];
    assert Mine(log, actor)[k..|all|] == ops && all[k..|all|] == at;
    LastIsLast(log, all, actor);
    NoneInBetween(log, all, k, actor);
  }

  lemma LastIsLast(log: seq<Entry>, all: seq<nat>, actor: Actor)
    requires Rising(all, |log|) && NoOtherCall(log, 0, all, actor)
    requires log != [] && log[|log| - 1].actor == actor
    ensures all != [] && all[|all| - 1] == |log| - 1
  {
    var i :| 0 <= i < |all| && all[i] == |log| - 1;
  }

  lemma NoneInBetween(log: seq<Entry>, all: seq<nat>, k: nat, actor: Actor)
    requires Rising(all, |log|) && NoOtherCall(log, 0, all, actor) && k < |all|
    ensures NoOtherCall(log, all[k], all[k..], actor)
  {
    forall p | all[k] <= p < |log| && log[p].actor == actor ensures p in all[k..] {
      var i :| 0 <= i < |all| && all[i] == p;
      assert all[k..][i - k] == p;
    }
  }

  /** The newest consumer's queue is the subscription's, all of whose calls the actor has just made. */
  ghost predicate ConsumesAsPlanned(s: State, actor: Actor, sub: Subscription) {
    && s.consumers != [] && sub in s.f.subs
    && s.log != [] && s.log[|s.log| - 1].actor == actor
    && sub.queue == s.consumers[|s.consumers| - 1].queue
    && EndsWith(Mine(s.log, actor), Ops(SubItem(sub)))
    && AllOn(s.log, actor, s.consumers[|s.consumers| - 1].ch)
  }

  lemma SpawnsInStart(s: State, e: Event)
    requires Enabled(s, e) && OfStart(e) && !e.BindOk?
    ensures |NextStart(s, e).consumers| == |s.consumers|
  {
  }

  lemma SpawnsInCaller(s: State, e: Event)
    requires Enabled(s, e) && OfCaller(e) && !e.OpOk?
    ensures |NextCaller(s, e).consumers| == |s.consumers|
  {
  }

  lemma WhoSpawns(s: State, e: Event)
    requires |Step(s, e).consumers| > |s.consumers|
    ensures Enabled(s, e) && (e.BindOk? || e.OpOk?)
    ensures Step(s, e) == if e.BindOk? then NextStart(s, e) else NextCaller(s, e)
  {
    if OfStart(e) && !e.BindOk? {
      SpawnsInStart(s, e);
    } else if OfCaller(e) && !e.OpOk? {
      SpawnsInCaller(s, e);
    }
  }

  lemma StartConsumes(s: State) returns (actor: Actor, sub: Subscription)
    requires Logged(s) && SnapshotsOk(s) && Enabled(s, BindOk) && |NextStart(s, BindOk).consumers| > |s.consumers|
    requires ChannelsOk(NextStart(s, BindOk))
    ensures ConsumesAsPlanned(NextStart(s, BindOk), actor, sub)
  {
    actor := Starter(s.run);
    sub := s.snap.value[s.i];
    BindOkFrame(s);
    LastOp(s.log, actor, s.run, ExchangeOps(s.exch.value), SubOps(s.snap.value[..s.i]), Ops(SubItem(sub)), s.k);
    var s' := NextStart(s, BindOk);
    forall p | 0 <= p < |s'.log| ensures s'.log[p].actor == actor ==> s'.log[p].ch == s.run {
      assert EntryOk(s', s'.log[p]);
    }
  }

  /** An actor's last call of a sequence of calls completes that sequence. */
  lemma LastOp(log: seq<Entry>, actor: Actor, ch: nat, a: seq<Op>, b: seq<Op>, ops: seq<Op>, k: nat)
    requires k + 1 == |ops| && Mine(log, actor) == a + (b + ops[..k])
    ensures EndsWith(Mine(log + [Entry(actor, ch, ops[k])], actor), ops)
  {
    MineSnoc(log, Entry(actor, ch, ops[k]), actor);
    assert ops[..k] + [ops[k]] == ops;
    assert a + (b + ops[..k]) + [ops[k]] == (a + b) + ops;
  }

  lemma OpOkSpawns(s: State, c: nat)
    requires Enabled(s, OpOk(c)) && |NextCaller(s, OpOk(c)).consumers| > |s.consumers|
    ensures var s' := NextCaller(s, OpOk(c));
      var item := s.callers[c].item;
      && s.callers[c].pc.done + 1 == |Ops(item)|
      && item.SubItem? && s'.consumers != [] && s'.consumers[|s'.consumers| - 1].queue == item.sub.queue
      && s'.consumers[|s'.consumers| - 1].ch == s.callers[c].pc.on
  {
  }

  lemma CallerConsumes(s: State, c: nat) returns (actor: Actor, sub: Subscription)
    requires CallersLogged(s) && ChannelsOk(s) && CallersOk(s) && Enabled(s, OpOk(c)) && |NextCaller(s, OpOk(c)).consumers| > |s.consumers|
    ensures ConsumesAsPlanned(NextCaller(s, OpOk(c)), actor, sub)
  {
    OpOkSpawns(s, c);
    OpOkFrame(s, c);
    actor := Registrar(c);
    sub := s.callers[c].item.sub;
    assert CallerLogged(s, c) && InSlice(s, s.callers[c]);
    var k := s.callers[c].pc.done;
    assert Ops(SubItem(sub))[..k] == [] + ([] + Ops(SubItem(sub))[..k]);
    LastOp(s.log, actor, s.callers[c].pc.on, [], [], Ops(SubItem(sub)), k);
    CallsOnOneChannel(s, NextCaller(s, OpOk(c)).log, c, Ops(SubItem(sub))[k]);
  }

  lemma CallsOnOneChannel(s: State, log: seq<Entry>, c: nat, op: Op)
    requires ChannelsOk(s) && c < |s.callers| && s.callers[c].pc.Working?
    requires log == s.log + [Entry(Registrar(c), s.callers[c].pc.on, op)]
    ensures AllOn(log, Registrar(c), s.callers[c].pc.on)
  {
    forall p | 0 <= p < |log| ensures log[p].actor == Registrar(c) ==> log[p].ch == s.callers[c].pc.on {
      if p < |s.log| {
        assert EntryOk(s, s.log[p]);
      }
    }
  }
}
