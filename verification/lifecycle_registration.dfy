/**
 * No registration is lost in the race with Start: append-then-read-channel on one side against
 * store-channel-then-snapshot on the other. Whoever comes second sees the other.
 */
module LifecycleRegistration {
  import opened Wrappers
  import opened Subscriptions
  import opened Components
  import opened Lifecycle
  import opened LifecycleFrames
  import opened LifecycleContexts

  /** A caller's item is in the slice it was appended to, for good. */
  predicate InSlice(s: State, c: Caller) {
    match c.item
    case ExchangeItem(e) => c.index < |s.f.exchanges| && s.f.exchanges[c.index] == e
    case SubItem(sub) => c.index < |s.f.subs| && s.f.subs[c.index] == sub
  }

  /** Start's snapshots are prefixes of the slices, held while the run needs them. */
  ghost predicate SnapshotsOk(s: State) {
    && (s.exch.Some? ==> s.exch.value <= s.f.exchanges)
    && (s.snap.Some? ==> s.snap.value <= s.f.subs)
    && (s.pc.Declaring? || s.pc.Snapped? || s.pc.Binding? || s.pc.Serving? ==> s.exch.Some?)
    && (s.pc.Snapped? || s.pc.Binding? || s.pc.Serving? ==> s.snap.Some?)
    && (s.pc.Dialing? || s.pc.Stored? ==> s.exch.None? && s.snap.None?)
    && (s.pc.Declaring? ==> s.snap.None? && s.i <= |s.exch.value|)
    && (s.pc.Binding? ==> s.i <= |s.snap.value|)
    && (s.pc.Serving? ==> s.i == |s.snap.value|)
    && (s.pc.Snapped? ==> s.i == 0)
  }

  /** How much of each snapshot Start has put into effect on this run's channel. */
  function ExchangesDone(s: State): nat {
    if s.pc.Declaring? then s.i
    else if (s.pc.Snapped? || s.pc.Binding? || s.pc.Serving?) && s.exch.Some? then |s.exch.value|
    else 0
  }

  function SubsDone(s: State): nat {
    if s.pc.Binding? || s.pc.Serving? then s.i else 0
  }

  ghost predicate SnapshotApplied(s: State) {
    && (forall k | 0 <= k < ExchangesDone(s) :: Applied(true, k, s.run) in s.applied)
    && (forall k | 0 <= k < SubsDone(s) :: Applied(false, k, s.run) in s.applied)
  }

  /** The caller came after the snapshot Start took of its slice in this run. */
  predicate MissedSnapshot(s: State, c: Caller) {
    if c.item.ExchangeItem? then s.exch.Some? && |s.exch.value| <= c.index
    else s.snap.Some? && |s.snap.value| <= c.index
  }

  predicate UpAndRunning(s: State) {
    (s.pc.Declaring? || s.pc.Snapped? || s.pc.Binding? || s.pc.Serving?) && s.f.ch == Some(s.run)
  }

  /** A caller that missed the snapshot works on this run's channel itself. */
  predicate OnItsOwn(s: State, c: Caller) {
    MissedSnapshot(s, c) && UpAndRunning(s) ==>
      match c.pc
      case Appended => true
      case Read(ch, ctx) => ch == Some(s.run) && ctx == Some(s.run)
      case Working(on, _, _) => on == s.run
      case Returned(ok) => ok && s.run !in s.closed ==> Applied(c.item.ExchangeItem?, c.index, s.run) in s.applied
  }

  ghost predicate CallersOk(s: State) {
    forall c | 0 <= c < |s.callers| :: InSlice(s, s.callers[c]) && OnItsOwn(s, s.callers[c])
  }

  ghost predicate RegistrationOk(s: State) {
    SnapshotsOk(s) && SnapshotApplied(s) && CallersOk(s)
  }

  lemma RegistrationOpening(s: State, e: Event)
    requires FieldsOk(s) && RegistrationOk(s) && Enabled(s, e) && Opening(e)
    ensures SnapshotsOk(NextStart(s, e)) && SnapshotApplied(NextStart(s, e))
  {
  }

  lemma RegistrationBinding(s: State, e: Event)
    requires FieldsOk(s) && RegistrationOk(s) && Enabled(s, e) && OfStart(e) && !Opening(e) && !e.BindOk?
    ensures SnapshotsOk(NextStart(s, e)) && SnapshotApplied(NextStart(s, e))
  {
  }

  lemma RegistrationBound(s: State, s': State)
    requires RegistrationOk(s) && Enabled(s, BindOk) && BoundKeeps(s, s')
    ensures RegistrationOk(s')
  {
    forall c | 0 <= c < |s'.callers| ensures InSlice(s', s'.callers[c]) && OnItsOwn(s', s'.callers[c]) {
      assert InSlice(s, s.callers[c]) && OnItsOwn(s, s.callers[c]);
    }
  }

  lemma CallersOpening(s: State, e: Event)
    requires FieldsOk(s) && RegistrationOk(s) && Enabled(s, e) && Opening(e)
    ensures CallersOk(NextStart(s, e))
  {
    var s' := NextStart(s, e);
    forall c | 0 <= c < |s'.callers| ensures InSlice(s', s'.callers[c]) && OnItsOwn(s', s'.callers[c]) {
      assert InSlice(s, s.callers[c]) && OnItsOwn(s, s.callers[c]);
    }
  }

  lemma CallersBinding(s: State, e: Event)
    requires FieldsOk(s) && RegistrationOk(s) && Enabled(s, e) && OfStart(e) && !Opening(e) && !e.BindOk?
    ensures CallersOk(NextStart(s, e))
  {
    var s' := NextStart(s, e);
    forall c | 0 <= c < |s'.callers| ensures InSlice(s', s'.callers[c]) && OnItsOwn(s', s'.callers[c]) {
      assert InSlice(s, s.callers[c]) && OnItsOwn(s, s.callers[c]);
    }
  }

  /** Whatever happens outside Start, the snapshots stand and nothing in effect is undone. */
  ghost predicate SameRun(s: State, s': State) {
    && s'.exch == s.exch && s'.snap == s.snap && s'.pc == s.pc && s'.i == s.i && s'.run == s.run
    && s.f.exchanges <= s'.f.exchanges && s.f.subs <= s'.f.subs
    && s.applied <= s'.applied
    && (s.run in s.closed ==> s.run in s'.closed)
    && (s'.f.ch == s.f.ch || s'.f.ch.None?)
  }

  predicate SameCaller(s: State, s': State, c: nat) {
    c < |s.callers| && c < |s'.callers| && s'.callers[c] == s.callers[c]
  }

  /** Then it is enough to look at the one caller that moved, if any. */
  lemma RegistrationKept(s: State, s': State, moved: nat)
    requires RegistrationOk(s) && SameRun(s, s')
    requires forall c | 0 <= c < |s'.callers| && c != moved :: SameCaller(s, s', c)
    requires moved < |s'.callers| ==> InSlice(s', s'.callers[moved]) && OnItsOwn(s', s'.callers[moved])
    ensures RegistrationOk(s')
  {
    forall c | 0 <= c < |s'.callers| ensures InSlice(s', s'.callers[c]) && OnItsOwn(s', s'.callers[c]) {
      if c != moved {
        assert SameCaller(s, s', c);
        assert InSlice(s, s.callers[c]) && OnItsOwn(s, s.callers[c]);
      }
    }
  }


  lemma SameRunStop(s: State, e: Event)
    requires Enabled(s, e) && OfStop(e)
    ensures SameRun(s, NextStop(s, e)) && NextStop(s, e).callers == s.callers
  {
  }

  lemma SameRunOther(s: State, e: Event)
    requires Enabled(s, e) && !OfStart(e) && !OfCaller(e) && !OfStop(e)
    ensures SameRun(s, NextOther(s, e)) && NextOther(s, e).callers == s.callers
  {
  }

  lemma CallersRegister(s: State, e: Event)
    requires RegistrationOk(s) && e.Register?
    ensures RegistrationOk(NextCaller(s, e))
  {
    RegistrationKept(s, NextCaller(s, e), |s.callers|);
  }

  lemma CallersMove(s: State, c: nat, pc: CallerPc)
    requires RegistrationOk(s) && c < |s.callers| && OnItsOwn(s, s.callers[c].(pc := pc))
    ensures RegistrationOk(SetCaller(s, c, pc))
  {
    assert InSlice(s, s.callers[c]);
    RegistrationKept(s, SetCaller(s, c, pc), c);
  }

  lemma CallersCaller(s: State, e: Event)
    requires FieldsOk(s) && RegistrationOk(s) && Enabled(s, e)
    requires e.ReadHandles? || e.CheckHandles? || e.OpFails?
    ensures RegistrationOk(NextCaller(s, e))
  {
    var c := e.caller;
    assert OnItsOwn(s, s.callers[c]);
    match e
    case ReadHandles(_) => CallersMove(s, c, Read(s.f.ch, s.f.runCtx));
    case CheckHandles(_) => CallersMove(s, c, Checked(s, c));
    case OpFails(_) => CallersMove(s, c, Returned(false));
  }

  lemma CallersOp(s: State, c: nat)
    requires RegistrationOk(s) && Enabled(s, OpOk(c))
    ensures RegistrationOk(CalledOne(s, c))
  {
    var s' := CalledOne(s, c);
    OpFrame(s, c);
    assert InSlice(s, s.callers[c]) && OnItsOwn(s, s.callers[c]);
    assert s'.callers == s.callers[c := s'.callers[c]];
    RegistrationKept(s, s', c);
  }

  lemma {:induction false} RegistrationHolds(es: seq<Event>)
    ensures RegistrationOk(Run(es))
  {
    if es != [] {
      var s, e := Run(es[..|es| - 1]), es[|es| - 1];
      RegistrationHolds(es[..|es| - 1]);
      ContextsHold(es[..|es| - 1]);
      if Enabled(s, e) {
        if OfStart(e) {
          if Opening(e) {
            RegistrationOpening(s, e);
            CallersOpening(s, e);
          } else if e.BindOk? {
            BoundFrame(s);
            RegistrationBound(s, BoundOne(s));
          } else {
            RegistrationBinding(s, e);
            CallersBinding(s, e);
          }
        } else if e.Register? {
          CallersRegister(s, e);
        } else if e.OpOk? {
          CallersOp(s, e.caller);
        } else if OfCaller(e) {
          CallersCaller(s, e);
        } else if OfStop(e) {
          SameRunStop(s, e);
          RegistrationKept(s, NextStop(s, e), |s.callers|);
        } else {
          SameRunOther(s, e);
          RegistrationKept(s, NextOther(s, e), |s.callers|);
        }
      }
    }
  }

  /**
   * Once Start has called ready(), and as long as no Stop has taken its channel and the channel is
   * open, every Subscribe and DeclareExchange that returned nil is in effect on that channel, through
   * Start's snapshot, through the live path, or both: the queue of the subscription has a consumer
   * there, and the exchange was declared there.
   */
  lemma NoRegistrationLost(es: seq<Event>, s: State, c: nat)
    requires s == Run(es) && s.pc.Serving? && s.f.ch == Some(s.run) && s.run !in s.closed
    requires c < |s.callers| && s.callers[c].pc == Returned(true)
    ensures s.callers[c].item.SubItem? ==>
      exists i | 0 <= i < |s.consumers| :: s.consumers[i].queue == s.callers[c].item.sub.queue && s.consumers[i].ch == s.run
    ensures s.callers[c].item.ExchangeItem? ==>
      exists p | 0 <= p < |s.log| :: s.log[p].op == DeclareExchange(s.callers[c].item.e) && s.log[p].ch == s.run
    ensures Applied(s.callers[c].item.ExchangeItem?, s.callers[c].index, s.run) in s.applied
  {
    RegistrationHolds(es);
    assert InSlice(s, s.callers[c]) && OnItsOwn(s, s.callers[c]);
    if s.callers[c].item.SubItem? {
      AppliedHasConsumer(es, s.callers[c].index, s.run);
    } else {
      AppliedWasDeclared(es, s.callers[c].index, s.run);
    }
  }

  /**
   * What a registration does with the handles it read: without an open channel, or for a subscription
   * without a run context, it returns nil and leaves it to the next Start; else it goes to work on
   * that channel under that context.
   */
  lemma RegistrationDecides(s: State, c: nat)
    requires Enabled(s, CheckHandles(c))
    ensures var ch, ctx := s.callers[c].pc.ch, s.callers[c].pc.ctx;
      var idle := ch.None? || ch.value in s.closed || (s.callers[c].item.SubItem? && ctx.None?);
      && (idle <==> Step(s, CheckHandles(c)).callers[c].pc == Returned(true))
      && (!idle ==> Step(s, CheckHandles(c)).callers[c].pc == Working(ch.value, ctx, 0))
      && Step(s, CheckHandles(c)).log == s.log && Step(s, CheckHandles(c)).consumers == s.consumers
  {
  }

  /** A subscription is recorded as in effect only with a consumer for its queue on that channel. */
  ghost predicate HasConsumer(s: State, index: nat, ch: nat) {
    && index < |s.f.subs|
    && exists i | 0 <= i < |s.consumers| :: s.consumers[i].queue == s.f.subs[index].queue && s.consumers[i].ch == ch
  }

  lemma {:induction false} AppliedHasConsumer(es: seq<Event>, index: nat, ch: nat)
    requires Applied(false, index, ch) in Run(es).applied
    ensures HasConsumer(Run(es), index, ch)
  {
    var before := es[..|es| - 1];
    var s, e, s' := Run(before), es[|es| - 1], Run(es);
    RegistrationHolds(before);
    ConsumersPersist(s, e);
    if Applied(false, index, ch) in s.applied {
      AppliedHasConsumer(before, index, ch);
      var i :| 0 <= i < |s.consumers| && s.consumers[i].queue == s.f.subs[index].queue && s.consumers[i].ch == ch;
      assert s'.consumers[i].queue == s.consumers[i].queue && s'.consumers[i].ch == ch;
    } else {
      NewlyApplied(s, e, index, ch);
      assert s'.consumers[|s.consumers|].ch == ch;
    }
  }

  ghost predicate Persist(s: State, s': State) {
    && |s.consumers| <= |s'.consumers|
    && (forall i | 0 <= i < |s.consumers| ::
          s'.consumers[i].queue == s.consumers[i].queue && s'.consumers[i].ch == s.consumers[i].ch)
    && s.f.subs <= s'.f.subs
  }

  lemma PersistStart(s: State, e: Event)
    requires Enabled(s, e) && OfStart(e)
    ensures Persist(s, NextStart(s, e))
  {
  }

  lemma PersistOther(s: State, e: Event)
    requires Enabled(s, e) && !OfStart(e) && !OfCaller(e) && !OfStop(e)
    ensures Persist(s, NextOther(s, e))
  {
  }

  lemma ConsumersPersist(s: State, e: Event)
    ensures Persist(s, Step(s, e))
  {
    if Enabled(s, e) {
      if OfStart(e) {
        PersistStart(s, e);
      } else if !OfCaller(e) && !OfStop(e) {
        PersistOther(s, e);
      }
    }
  }

  /** The consumer a step adds belongs to the subscription it puts into effect. */
  ghost predicate AddsConsumer(s: State, s': State, index: nat, ch: nat) {
    && |s'.consumers| == |s.consumers| + 1 && index < |s'.f.subs|
    && s'.consumers[|s.consumers|].queue == s'.f.subs[index].queue
    && s'.consumers[|s.consumers|].ch == ch
  }

  /** Of Start's steps only a completed binding puts a subscription into effect. */
  lemma NewlyAppliedStart(s: State, e: Event, index: nat, ch: nat)
    requires SnapshotsOk(s) && Enabled(s, e) && OfStart(e)
    requires Applied(false, index, ch) !in s.applied && Applied(false, index, ch) in NextStart(s, e).applied
    ensures AddsConsumer(s, NextStart(s, e), index, ch)
  {
    if e.BindOk? {
      NewlyBound(s, index, ch);
    }
  }

  lemma NewlyBound(s: State, index: nat, ch: nat)
    requires SnapshotsOk(s) && Enabled(s, BindOk)
    requires Applied(false, index, ch) !in s.applied && Applied(false, index, ch) in BoundOne(s).applied
    ensures AddsConsumer(s, BoundOne(s), index, ch)
  {
  }

  lemma NewlyAppliedCaller(s: State, e: Event, index: nat, ch: nat)
    requires CallersOk(s) && Enabled(s, e) && OfCaller(e)
    requires Applied(false, index, ch) !in s.applied && Applied(false, index, ch) in NextCaller(s, e).applied
    ensures AddsConsumer(s, NextCaller(s, e), index, ch)
  {
    if e.OpOk? {
      assert InSlice(s, s.callers[e.caller]);
    }
  }

  lemma NewlyApplied(s: State, e: Event, index: nat, ch: nat)
    requires RegistrationOk(s) && Applied(false, index, ch) !in s.applied && Applied(false, index, ch) in Step(s, e).applied
    ensures AddsConsumer(s, Step(s, e), index, ch)
  {
    if OfStart(e) {
      NewlyAppliedStart(s, e, index, ch);
    } else if OfCaller(e) {
      NewlyAppliedCaller(s, e, index, ch);
    } else if OfStop(e) {
      SameRunStop(s, e);
    }
  }

  /** An exchange is recorded as in effect on a channel only after a successful call on that channel to declare it. */
  ghost predicate Declared(s: State, index: nat, ch: nat) {
    && index < |s.f.exchanges|
    && exists p | 0 <= p < |s.log| :: s.log[p].op == DeclareExchange(s.f.exchanges[index]) && s.log[p].ch == ch
  }

  /** The slice and the log only grow. */
  ghost predicate Grows(s: State, s': State) {
    s.f.exchanges <= s'.f.exchanges && s.log <= s'.log
  }

  lemma GrowsInStep(s: State, e: Event)
    ensures Grows(s, Step(s, e))
  {
    if Enabled(s, e) {
      if OfStart(e) {
        GrowsInStart(s, e);
      } else if OfCaller(e) {
        CallerFrame(s, e);
      }
    }
  }

  lemma GrowsInStart(s: State, e: Event)
    requires Enabled(s, e) && OfStart(e)
    ensures Grows(s, NextStart(s, e))
  {
  }

  lemma NewlyDeclaredStart(s: State, e: Event, index: nat, ch: nat)
    requires SnapshotsOk(s) && Enabled(s, e) && OfStart(e)
    requires Applied(true, index, ch) !in s.applied && Applied(true, index, ch) in NextStart(s, e).applied
    ensures Declared(NextStart(s, e), index, ch)
  {
    var s' := NextStart(s, e);
    assert s'.log[|s.log|].op == DeclareExchange(s'.f.exchanges[index]) && s'.log[|s.log|].ch == ch;
  }

  lemma NewlyDeclaredCaller(s: State, e: Event, index: nat, ch: nat)
    requires CallersOk(s) && Enabled(s, e) && OfCaller(e)
    requires Applied(true, index, ch) !in s.applied && Applied(true, index, ch) in NextCaller(s, e).applied
    ensures Declared(NextCaller(s, e), index, ch)
  {
    var s' := NextCaller(s, e);
    assert InSlice(s, s.callers[e.caller]);
    assert s'.log[|s.log|].op == DeclareExchange(s'.f.exchanges[index]) && s'.log[|s.log|].ch == ch;
  }

  lemma {:induction false} AppliedWasDeclared(es: seq<Event>, index: nat, ch: nat)
    requires Applied(true, index, ch) in Run(es).applied
    ensures Declared(Run(es), index, ch)
  {
    var before := es[..|es| - 1];
    var s, e := Run(before), es[|es| - 1];
    RegistrationHolds(before);
    if Applied(true, index, ch) in s.applied {
      AppliedWasDeclared(before, index, ch);
      GrowsInStep(s, e);
      var p :| 0 <= p < |s.log| && s.log[p].op == DeclareExchange(s.f.exchanges[index]) && s.log[p].ch == ch;
      assert Run(es).log[p] == s.log[p];
    } else if OfStart(e) {
      NewlyDeclaredStart(s, e, index, ch);
    } else if OfCaller(e) {
      NewlyDeclaredCaller(s, e, index, ch);
    } else if OfStop(e) {
      SameRunStop(s, e);
    }
  }
}
