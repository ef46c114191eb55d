/**
 * The stop-channel and handle protocol shared by the pool-like components: Start allocates a stop
 * channel, opens and stores a handle, then waits; any number of Stops swap both out under the lock
 * and then, outside it, close them. One Start at a time; every other interleaving is possible.
 * An event that is not enabled leaves the state alone, so any sequence of events is a run.
 */
module StopHandshake {
  import opened Wrappers
  import opened Counts

  /** The fields guarded by the lock; stop channels and handles are identified by number. */
  datatype Fields = Fields(stopCh: nat, pool: Option<nat>) {
    function Begin(stop: nat): Fields {
      this.(stopCh := stop)
    }

    function Publish(handle: nat): Fields {
      this.(pool := Some(handle))
    }

    function SwapOut(placeholder: nat): Fields {
      Fields(placeholder, None)
    }
  }

  const NEW := Fields(0, None)

  /** The handle-owning object and its lock-protected sections, one method each. */
  class Component {
    var stopCh: nat
    var pool: Option<nat>

    function View(): Fields
      reads this
    {
      Fields(stopCh, pool)
    }

    constructor ()
      ensures View() == NEW
    {
      stopCh, pool := 0, None;
    }

    method BeginRun(stop: nat) returns (local: nat)
      modifies this
      ensures View() == old(View()).Begin(stop) && local == stop
    {
      stopCh := stop;
      local := stopCh;
    }

    method Publish(handle: nat)
      modifies this
      ensures View() == old(View()).Publish(handle)
    {
      pool := Some(handle);
    }

    method TakeDown(placeholder: nat) returns (signal: nat, taken: Option<nat>)
      modifies this
      ensures View() == old(View()).SwapOut(placeholder)
      ensures signal == old(stopCh) && taken == old(pool)
      ensures stopCh == placeholder && pool.None?
    {
      signal := stopCh;
      stopCh := placeholder;
      taken := pool;
      pool := None;
    }

    method GetPool() returns (p: Option<nat>)
      ensures p == View().pool
    {
      p := pool;
    }

    /** Health asks the pool in the field, if there is one, to ping the database. */
    method CheckHealth(pingOk: bool) returns (ok: bool)
      ensures ok <==> pool.Some? && pingOk
    {
      var p := GetPool();
      if p.None? {
        return false;
      }
      ok := pingOk;
    }
  }

  /** A Stop: after its locked section it checks the stop channel, may close it, then closes the handle. */
  datatype StopPc = Took | SawOpen | Signalled | Finished

  datatype Stopper = Stopper(signal: nat, handle: Option<nat>, pc: StopPc)

  datatype StartPc = Idle | Connecting | Opened(handle: nat) | Waiting

  datatype State = State(
    f: Fields,
    closes: seq<nat>,     // how often each stop channel was closed
    handles: seq<nat>,    // how often each opened handle was closed
    takes: seq<nat>,      // how often each opened handle was taken out by a Stop
    pc: StartPc,
    local: nat,           // the running Start's own stop channel
    stops: seq<Stopper>)

  const INIT := State(NEW, [0], [], [], Idle, 0, [])

  datatype Event =
    | BeginStart
    | OpenFails
    | OpenOk
    | PingFails
    | Store
    | StartReturns(parentDone: bool)
    | StopLock
    | StopCheck(stop: nat)
    | StopClose(stop: nat)
    | StopRelease(stop: nat)

  predicate StopAt(s: State, j: nat, pc: StopPc) {
    j < |s.stops| && s.stops[j].pc == pc && s.stops[j].signal < |s.closes|
  }

  predicate Enabled(s: State, e: Event) {
    match e
    case BeginStart => s.pc.Idle?
    case OpenFails => s.pc.Connecting?
    case OpenOk => s.pc.Connecting?
    case PingFails => s.pc.Opened? && s.pc.handle < |s.handles|
    case Store => s.pc.Opened?
    case StartReturns(parentDone) => s.pc.Waiting? && (parentDone || (s.local < |s.closes| && s.closes[s.local] > 0))
    case StopLock => true
    case StopCheck(j) => StopAt(s, j, Took)
    case StopClose(j) => StopAt(s, j, SawOpen)
    case StopRelease(j) => StopAt(s, j, Signalled) && (s.stops[j].handle.Some? ==> s.stops[j].handle.value < |s.handles|)
  }

  function SetStop(s: State, j: nat, pc: StopPc): State
    requires j < |s.stops|
  {
    s.(stops := s.stops[j := s.stops[j].(pc := pc)])
  }

  function Next(s: State, e: Event): State
    requires Enabled(s, e)
  {
    match e
    case BeginStart => s.(f := s.f.Begin(|s.closes|), local := |s.closes|, closes := s.closes + [0], pc := Connecting)
    case OpenFails => s.(pc := Idle)
    case OpenOk => s.(pc := Opened(|s.handles|), handles := s.handles + [0], takes := s.takes + [0])
    case PingFails => s.(pc := Idle, handles := Bump(s.handles, s.pc.handle))
    case Store => s.(pc := Waiting, f := s.f.Publish(s.pc.handle))
    case StartReturns(_) => s.(pc := Idle)
    case StopLock =>
      s.(f := s.f.SwapOut(|s.closes|), closes := s.closes + [1], takes := BumpIfAny(s.takes, s.f.pool),
         stops := s.stops + [Stopper(s.f.stopCh, s.f.pool, Took)])
    case StopCheck(j) => SetStop(s, j, if s.closes[s.stops[j].signal] > 0 then Signalled else SawOpen)
    case StopClose(j) => SetStop(s, j, Signalled).(closes := Bump(s.closes, s.stops[j].signal))
    case StopRelease(j) => SetStop(s, j, Finished).(handles := BumpIfAny(s.handles, s.stops[j].handle))
  }

  function Step(s: State, e: Event): State {
    if Enabled(s, e) then Next(s, e) else s
  }

  function Run(es: seq<Event>): State {
    if es == [] then INIT else Step(Run(es[..|es| - 1]), es[|es| - 1])
  }

  predicate Fires(es: seq<Event>, i: nat) {
    i < |es| && Enabled(Run(es[..i]), es[i])
  }

  // ----- Stop channels -----

  /** This Stop still owes its stop channel a close, or knows it closed. */
  predicate Holding(stop: Stopper) {
    stop.pc.Took? || stop.pc.SawOpen?
  }

  /** Every stop channel was swapped out of the field at most once, and only its holder may close it. */
  ghost predicate ChannelsOk(s: State) {
    && s.f.stopCh < |s.closes| && s.local < |s.closes|
    && (s.f.stopCh == s.local || s.closes[s.f.stopCh] == 1)
    && (forall c | 0 <= c < |s.closes| :: s.closes[c] <= 1)
    && (forall j | 0 <= j < |s.stops| :: s.stops[j].signal < |s.closes| && s.stops[j].signal != s.f.stopCh)
    && (forall j, k | 0 <= j < k < |s.stops| :: s.stops[j].signal != s.stops[k].signal)
    && (forall j | 0 <= j < |s.stops| :: s.stops[j].pc.SawOpen? ==> s.closes[s.stops[j].signal] == 0)
    && (forall j | 0 <= j < |s.stops| :: !Holding(s.stops[j]) ==> s.closes[s.stops[j].signal] == 1)
  }

  ghost predicate HeldBySome(s: State, c: nat) {
    exists j | 0 <= j < |s.stops| :: s.stops[j].signal == c && Holding(s.stops[j])
  }

  /** A channel out of the field is either closed or held by a Stop in flight, and not both. */
  ghost predicate Settling(s: State, c: nat) {
    && c < |s.closes| && c != s.f.stopCh
    && (s.closes[c] == 1 <==> !HeldBySome(s, c))
  }

  /** A channel still in the field is open, and no Stop has it. */
  ghost predicate InField(s: State, c: nat) {
    c < |s.closes| && c == s.f.stopCh && s.closes[c] == 0 && !HeldBySome(s, c)
  }

  lemma ChannelsStart(s: State, e: Event)
    requires ChannelsOk(s) && Enabled(s, e) && !e.StopLock? && !e.StopCheck? && !e.StopClose? && !e.StopRelease?
    ensures ChannelsOk(Next(s, e))
  {
  }

  lemma ChannelsLock(s: State)
    requires ChannelsOk(s)
    ensures ChannelsOk(Next(s, StopLock))
  {
  }

  lemma ChannelsStop(s: State, e: Event)
    requires ChannelsOk(s) && Enabled(s, e) && (e.StopCheck? || e.StopRelease?)
    ensures ChannelsOk(Next(s, e))
  {
  }

  lemma ChannelsClose(s: State, j: nat)
    requires ChannelsOk(s) && Enabled(s, StopClose(j))
    ensures ChannelsOk(Next(s, StopClose(j)))
  {
  }

  lemma ChannelsStep(s: State, e: Event)
    requires ChannelsOk(s)
    ensures ChannelsOk(Step(s, e))
  {
    if Enabled(s, e) {
      if e.StopLock? {
        ChannelsLock(s);
      } else if e.StopClose? {
        ChannelsClose(s, e.stop);
      } else if e.StopCheck? || e.StopRelease? {
        ChannelsStop(s, e);
      } else {
        ChannelsStart(s, e);
      }
    }
  }

  /** Only its holder can close a channel, and by closing it stops holding it. */
  lemma SettlingStep(s: State, e: Event, c: nat)
    requires ChannelsOk(s) && Settling(s, c)
    ensures Settling(Step(s, e), c)
  {
    var s' := Step(s, e);
    StopsPersist(s, e);
    if HeldBySome(s, c) {
      var j :| 0 <= j < |s.stops| && s.stops[j].signal == c && Holding(s.stops[j]);
      assert s'.stops[j].signal == c;
      assert s'.closes[c] == 1 <==> !Holding(s'.stops[j]);
    }
  }

  /** What happens to a channel in the field: a Stop takes it, or the next Start replaces it. */
  lemma InFieldStep(s: State, e: Event, c: nat)
    requires ChannelsOk(s) && InField(s, c)
    ensures var s' := Step(s, e);
      if e == StopLock then Settling(s', c)
      else if e == BeginStart && Enabled(s, e) then Abandoned(s', c)
      else InField(s', c)
  {
    var s' := Step(s, e);
    if e == StopLock {
      assert s'.stops[|s.stops|].signal == c && Holding(s'.stops[|s.stops|]);
    } else {
      StopsPersist(s, e);
    }
  }

  /** A channel replaced before any Stop came: open for ever, and nobody has it. */
  ghost predicate Abandoned(s: State, c: nat) {
    && c < |s.closes| && c != s.f.stopCh && c != s.local && s.closes[c] == 0
    && forall j | 0 <= j < |s.stops| :: s.stops[j].signal != c
  }

  lemma AbandonedStep(s: State, e: Event, c: nat)
    requires ChannelsOk(s) && Abandoned(s, c)
    ensures Abandoned(Step(s, e), c)
  {
  }

  lemma LocalStep(s: State, e: Event)
    requires ChannelsOk(s) && (InField(s, s.local) || Settling(s, s.local))
    ensures ChannelsOk(Step(s, e)) && (InField(Step(s, e), Step(s, e).local) || Settling(Step(s, e), Step(s, e).local))
  {
    ChannelsStep(s, e);
    if e == BeginStart && Enabled(s, e) {
      StopsPersist(s, e);
    } else if InField(s, s.local) {
      InFieldStep(s, e, s.local);
    } else {
      SettlingStep(s, e, s.local);
    }
  }

  lemma {:induction false} ChannelsHold(es: seq<Event>)
    ensures ChannelsOk(Run(es)) && (InField(Run(es), Run(es).local) || Settling(Run(es), Run(es).local))
  {
    if es != [] {
      ChannelsHold(es[..|es| - 1]);
      LocalStep(Run(es[..|es| - 1]), es[|es| - 1]);
    }
  }

  /** No stop channel is ever closed twice, whatever the number and interleaving of Stops. */
  lemma NoDoubleClose(es: seq<Event>, c: nat)
    requires c < |Run(es).closes|
    ensures Run(es).closes[c] <= 1
  {
    ChannelsHold(es);
  }

  /** A Stop that found its channel open and goes on to close it still finds it open. */
  lemma CheckStillHoldsAtClose(es: seq<Event>, j: nat)
    requires Enabled(Run(es), StopClose(j))
    ensures Run(es).closes[Run(es).stops[j].signal] == 0
  {
    ChannelsHold(es);
  }

  /**
   * The handshake: the latest run's stop channel is either in the field, open and in no one's hands,
   * or out of it and then either closed or held by exactly one Stop in flight, never both; what is in
   * the field instead is already closed.
   */
  lemma Handshake(es: seq<Event>)
    ensures var s := Run(es);
      && (s.local == s.f.stopCh ==> InField(s, s.local))
      && (s.local != s.f.stopCh ==>
          && s.local < |s.closes| && s.f.stopCh < |s.closes|
          && s.closes[s.f.stopCh] == 1
          && (s.closes[s.local] == 1 <==>
                !exists j | 0 <= j < |s.stops| :: s.stops[j].signal == s.local && (s.stops[j].pc.Took? || s.stops[j].pc.SawOpen?)))
      && (forall j, k | 0 <= j < |s.stops| && 0 <= k < |s.stops| ::
            s.stops[j].signal == s.stops[k].signal ==> j == k)
  {
    ChannelsHold(es);
  }

  /** Which channel a Stop took never changes, and its progress never goes back. */
  lemma StopsPersist(s: State, e: Event)
    ensures var s' := Step(s, e);
      && |s.stops| <= |s'.stops| && |s.closes| <= |s'.closes|
      && (forall j | 0 <= j < |s.stops| :: s'.stops[j].signal == s.stops[j].signal && s'.stops[j].handle == s.stops[j].handle)
      && ((e == BeginStart && Enabled(s, e)) || s'.local == s.local)
  {
  }

  lemma FiresInPrefix(es: seq<Event>, n: nat, i: nat)
    requires i < n <= |es|
    ensures Fires(es, i) == Fires(es[..n], i)
  {
    assert es[..n][..i] == es[..i];
  }

  /** The Stop that holds Start's channel needs no one's help to let Start return. */
  lemma HolderWakesStart(es: seq<Event>, j: nat)
    requires var s := Run(es);
      s.pc.Waiting? && j < |s.stops| && s.stops[j].signal == s.local && Holding(s.stops[j])
    ensures var s := Run(es);
      var checked := Step(s, StopCheck(j));
      Enabled(checked, StartReturns(false)) || Enabled(Step(checked, StopClose(j)), StartReturns(false))
  {
    ChannelsHold(es);
  }

  /** A waiting Start whose parent is not done returns only once a Stop has taken its channel and closed it. */
  lemma StartReturnsOnlyWhenStopped(es: seq<Event>)
    requires Enabled(Run(es), StartReturns(false))
    ensures var s := Run(es);
      && s.local != s.f.stopCh && s.local < |s.closes| && s.closes[s.local] == 1
      && !HeldBySome(s, s.local)
  {
    ChannelsHold(es);
  }

  /** The stop channel of the Start that began at position `n` of a run. */
  function AllocatedAt(es: seq<Event>, n: nat): nat
    requires n <= |es|
  {
    |Run(es[..n]).closes|
  }

  /** Event number `k` is `what`; it fires after position `n`, before any Stop's locked section does. */
  ghost predicate Displaces(es: seq<Event>, n: nat, k: nat, what: Event) {
    n < k < |es| && Fires(es, k) && es[k] == what && NoStopBetween(es, n, k)
  }

  ghost predicate DisplacedSince(es: seq<Event>, n: nat, what: Event) {
    exists k: nat :: Displaces(es, n, k, what)
  }

  predicate NoStopBetween(es: seq<Event>, n: nat, k: nat)
    requires k <= |es|
  {
    forall i | n < i < k :: es[i] != StopLock
  }

  lemma StopsSnoc(es: seq<Event>, n: nat)
    requires n < |es| - 1
    ensures NoStopBetween(es, n, |es|) <==> NoStopBetween(es[..|es| - 1], n, |es| - 1) && es[|es| - 1] != StopLock
  {
  }

  lemma NoStopInPrefix(es: seq<Event>, n: nat, k: nat)
    requires n < k < |es|
    ensures NoStopBetween(es, n, k) == NoStopBetween(es[..|es| - 1], n, k)
  {
    var before := es[..|es| - 1];
    assert forall i | n < i < k :: before[i] == es[i];
  }

  lemma DisplacesInPrefix(es: seq<Event>, n: nat, k: nat, what: Event)
    requires n < k < |es| - 1
    ensures Displaces(es, n, k, what) == Displaces(es[..|es| - 1], n, k, what)
  {
    FiresInPrefix(es, |es| - 1, k);
    NoStopInPrefix(es, n, k);
    assert es[..|es| - 1][k] == es[k];
  }

  lemma DisplacedSnoc(es: seq<Event>, n: nat, what: Event)
    requires n < |es| - 1
    ensures DisplacedSince(es, n, what) <==> DisplacedSince(es[..|es| - 1], n, what) || Displaces(es, n, |es| - 1, what)
  {
    var last := |es| - 1;
    if DisplacedSince(es, n, what) {
      var k: nat :| Displaces(es, n, k, what);
      if k < last {
        DisplacesInPrefix(es, n, k, what);
      }
    }
    if DisplacedSince(es[..last], n, what) {
      var k: nat :| Displaces(es[..last], n, k, what);
      DisplacesInPrefix(es, n, k, what);
    }
  }

  /** What has become of a run's channel, given whether it was abandoned and whether a Stop came since. */
  ghost predicate ChannelFate(s: State, c: nat, abandoned: bool, stopped: bool) {
    ChannelsOk(s) && if abandoned then Abandoned(s, c) else if stopped then Settling(s, c) else InField(s, c)
  }

  lemma ChannelFateStep(s: State, e: Event, c: nat, abandoned: bool, stopped: bool)
    requires ChannelFate(s, c, abandoned, stopped)
    ensures ChannelFate(Step(s, e), c, abandoned || (Enabled(s, e) && e == BeginStart && !stopped), stopped || e == StopLock)
  {
    ChannelsStep(s, e);
    if abandoned {
      AbandonedStep(s, e, c);
    } else if stopped {
      SettlingStep(s, e, c);
    } else {
      InFieldStep(s, e, c);
    }
  }

  /**
   * The fate of every run's stop channel, over every run: if the first thing to follow its allocation
   * is a Stop's locked section, it is from then on either closed or held by a Stop in flight, and
   * not both; if that is the next Start, it stays open and no Stop ever has it; until then it is
   * open and in the field.
   */
  lemma {:induction false} RunChannelFate(es: seq<Event>, n: nat)
    requires Fires(es, n) && es[n] == BeginStart
    ensures ChannelFate(Run(es), AllocatedAt(es, n), DisplacedSince(es, n, BeginStart), !NoStopBetween(es, n, |es|))
    decreases |es|
  {
    var last := |es| - 1;
    var before := es[..last];
    if n < last {
      AllocatedBefore(es, n);
      RunChannelFate(before, n);
      ChannelFateSnoc(es, n, AllocatedAt(es, n));
    } else {
      AllocationBegins(es);
    }
  }

  lemma AllocatedBefore(es: seq<Event>, n: nat)
    requires n < |es| - 1 && Fires(es, n)
    ensures var before := es[..|es| - 1];
      Fires(before, n) && before[n] == es[n] && AllocatedAt(before, n) == AllocatedAt(es, n)
  {
    FiresInPrefix(es, |es| - 1, n);
    assert es[..|es| - 1][..n] == es[..n];
  }

  lemma AllocationBegins(es: seq<Event>)
    requires es != [] && Fires(es, |es| - 1) && es[|es| - 1] == BeginStart
    ensures var n := |es| - 1;
      ChannelFate(Run(es), AllocatedAt(es, n), DisplacedSince(es, n, BeginStart), !NoStopBetween(es, n, |es|))
  {
    ChannelsHold(es[..|es| - 1]);
    ChannelBegins(Run(es[..|es| - 1]));
    assert !DisplacedSince(es, |es| - 1, BeginStart);
  }

  lemma ChannelFateSnoc(es: seq<Event>, n: nat, c: nat)
    requires n < |es| - 1
    requires var before := es[..|es| - 1];
      ChannelFate(Run(before), c, DisplacedSince(before, n, BeginStart), !NoStopBetween(before, n, |before|))
    ensures ChannelFate(Run(es), c, DisplacedSince(es, n, BeginStart), !NoStopBetween(es, n, |es|))
  {
    var before, e := es[..|es| - 1], es[|es| - 1];
    ChannelFateStep(Run(before), e, c, DisplacedSince(before, n, BeginStart), !NoStopBetween(before, n, |before|));
    DisplacedSnoc(es, n, BeginStart);
    NoStopInPrefix(es, n, |es| - 1);
    StopsSnoc(es, n);
  }

  lemma ChannelBegins(s: State)
    requires ChannelsOk(s) && Enabled(s, BeginStart)
    ensures ChannelsOk(Step(s, BeginStart)) && InField(Step(s, BeginStart), |s.closes|)
  {
    ChannelsStep(s, BeginStart);
  }

  /**
   * A Stop is never lost: if its locked section follows a Start's allocation before the next Start's,
   * that Start's channel is in every continuation either closed or held by a Stop in flight.
   */
  lemma NoLostStop(es: seq<Event>, n: nat, m: nat)
    requires n < m < |es| && Fires(es, n) && es[n] == BeginStart && es[m] == StopLock
    requires forall i | n < i < m :: Fires(es, i) ==> es[i] != BeginStart
    ensures Settling(Run(es), AllocatedAt(es, n))
  {
    RunChannelFate(es, n);
    assert !NoStopBetween(es, n, |es|);
    if DisplacedSince(es, n, BeginStart) {
      NotDisplaced(es, n, m);
    }
  }

  lemma NotDisplaced(es: seq<Event>, n: nat, m: nat)
    requires n < m < |es| && es[m] == StopLock
    requires forall i | n < i < m :: Fires(es, i) ==> es[i] != BeginStart
    ensures !DisplacedSince(es, n, BeginStart)
  {
    forall k: nat ensures !Displaces(es, n, k, BeginStart) {
      if m < k < |es| {
        assert !NoStopBetween(es, n, k);
      }
    }
  }

  /** A Stop whose locked section precedes a Start's allocation holds an older channel, and never gets the new one. */
  lemma {:induction false} EarlierStopHarmless(es: seq<Event>, n: nat, j: nat)
    requires n <= |es| && j < |Run(es[..n]).stops|
    ensures j < |Run(es).stops| && Run(es).stops[j].signal < AllocatedAt(es, n)
    decreases |es|
  {
    if n < |es| {
      var before := es[..|es| - 1];
      assert before[..n] == es[..n];
      EarlierStopHarmless(before, n, j);
      StopsPersist(Run(before), es[|es| - 1]);
    } else {
      assert es[..n] == es;
      ChannelsHold(es);
    }
  }

  // ----- Handles -----

  /** A handle is in one hand at a time: Start's, the field's, or that of the one Stop that took it. */
  ghost predicate HandlesOk(s: State) {
    && |s.takes| == |s.handles|
    && (forall h | 0 <= h < |s.handles| :: s.handles[h] <= 1 && s.takes[h] <= 1)
    && (s.f.pool.Some? ==> s.f.pool.value < |s.handles| && s.handles[s.f.pool.value] == 0 && s.takes[s.f.pool.value] == 0)
    && (s.pc.Opened? ==>
        && s.pc.handle < |s.handles| && s.handles[s.pc.handle] == 0 && s.takes[s.pc.handle] == 0
        && s.f.pool != Some(s.pc.handle))
    && (forall j | 0 <= j < |s.stops| :: StopHandleOk(s, s.stops[j]))
    && (forall j, k | 0 <= j < k < |s.stops| :: s.stops[j].handle.Some? ==> s.stops[j].handle != s.stops[k].handle)
    && (forall h | 0 <= h < |s.handles| :: s.takes[h] == 1 ==> TakenBySome(s, h))
  }

  predicate StopHandleOk(s: State, stop: Stopper)
    requires |s.takes| == |s.handles|
  {
    stop.handle.Some? ==>
      && stop.handle.value < |s.handles|
      && s.takes[stop.handle.value] == 1
      && s.handles[stop.handle.value] == if stop.pc.Finished? then 1 else 0
  }

  ghost predicate TakenBySome(s: State, h: nat) {
    exists j | 0 <= j < |s.stops| :: s.stops[j].handle == Some(h)
  }

  lemma TakenStays(s: State, e: Event, h: nat)
    requires TakenBySome(s, h)
    ensures TakenBySome(Step(s, e), h)
  {
    StopsPersist(s, e);
    var j :| 0 <= j < |s.stops| && s.stops[j].handle == Some(h);
    assert Step(s, e).stops[j].handle == Some(h);
  }

  lemma StopHandlesStep(s: State, e: Event)
    requires HandlesOk(s) && Enabled(s, e)
    ensures var s' := Next(s, e);
      |s'.takes| == |s'.handles| && forall j | 0 <= j < |s'.stops| :: StopHandleOk(s', s'.stops[j])
  {
    var s' := Next(s, e);
    if e.StopRelease? {
      assert StopHandleOk(s, s.stops[e.stop]);
    }
    forall j | 0 <= j < |s'.stops| ensures StopHandleOk(s', s'.stops[j]) {
      if j < |s.stops| {
        assert StopHandleOk(s, s.stops[j]);
      }
    }
  }

  lemma HandleCountsStep(s: State, e: Event)
    requires HandlesOk(s) && Enabled(s, e)
    ensures var s' := Next(s, e);
      |s'.takes| == |s'.handles| && forall h | 0 <= h < |s'.handles| :: s'.handles[h] <= 1 && s'.takes[h] <= 1
  {
    if e.StopRelease? {
      assert StopHandleOk(s, s.stops[e.stop]);
    }
  }

  lemma TakersStep(s: State, e: Event)
    requires HandlesOk(s) && Enabled(s, e)
    ensures var s' := Next(s, e);
      |s'.takes| == |s'.handles| && forall h | 0 <= h < |s'.handles| :: s'.takes[h] == 1 ==> TakenBySome(s', h)
  {
    var s' := Next(s, e);
    forall h | 0 <= h < |s'.handles| && s'.takes[h] == 1 ensures TakenBySome(s', h) {
      if h < |s.handles| && s.takes[h] == 1 {
        TakenStays(s, e, h);
      } else {
        assert s'.stops[|s.stops|].handle == Some(h);
      }
    }
  }

  lemma HandlesStep(s: State, e: Event)
    requires HandlesOk(s)
    ensures HandlesOk(Step(s, e))
  {
    if Enabled(s, e) {
      StopHandlesStep(s, e);
      HandleCountsStep(s, e);
      TakersStep(s, e);
      SoleHolder(s, e);
      if e.StopRelease? {
        assert StopHandleOk(s, s.stops[e.stop]);
      }
    }
  }

  /** Nobody else acquires a handle that a Stop, the field or Start already has. */
  lemma SoleHolder(s: State, e: Event)
    requires HandlesOk(s)
    ensures var s' := Step(s, e);
      forall j, k | 0 <= j < k < |s'.stops| :: s'.stops[j].handle.Some? ==> s'.stops[j].handle != s'.stops[k].handle
  {
    StopsPersist(s, e);
    forall j | 0 <= j < |s.stops| ensures s.stops[j].handle.Some? ==> s.stops[j].handle != s.f.pool {
      assert StopHandleOk(s, s.stops[j]);
    }
  }

  lemma {:induction false} HandlesHold(es: seq<Event>)
    ensures HandlesOk(Run(es))
  {
    if es != [] {
      HandlesHold(es[..|es| - 1]);
      HandlesStep(Run(es[..|es| - 1]), es[|es| - 1]);
    }
  }

  /**
   * Every handle Start opens is closed at most once, and taken for closing by at most one Stop; that
   * Stop has closed it exactly when it is finished.
   */
  lemma ClosedAtMostOnce(es: seq<Event>, h: nat)
    requires h < |Run(es).handles|
    ensures var s := Run(es);
      && |s.takes| == |s.handles|
      && s.handles[h] <= 1 && s.takes[h] <= 1
      && (s.takes[h] == 1 <==> TakenBySome(s, h))
      && (forall j, k | 0 <= j < |s.stops| && 0 <= k < |s.stops| ::
            s.stops[j].handle == Some(h) && s.stops[k].handle == Some(h) ==> j == k)
      && (forall j | 0 <= j < |s.stops| && s.stops[j].handle == Some(h) ::
            s.handles[h] == 1 <==> s.stops[j].pc.Finished?)
  {
    HandlesHold(es);
    var s := Run(es);
    forall j | 0 <= j < |s.stops| && s.stops[j].handle == Some(h)
      ensures s.takes[h] == 1 && (s.handles[h] == 1 <==> s.stops[j].pc.Finished?)
    {
      assert StopHandleOk(s, s.stops[j]);
    }
  }

  /** A handle whose ping failed is closed, by Start, and nobody else ever gets hold of it. */
  lemma {:induction false} PingFailureCloses(es: seq<Event>, n: nat)
    requires Fires(es, n) && es[n] == PingFails
    ensures var s := Run(es);
      var h := Run(es[..n]).pc.handle;
      h < |s.handles| == |s.takes| && s.handles[h] == 1 && s.takes[h] == 0 && s.f.pool != Some(h)
    decreases |es|
  {
    var before := es[..|es| - 1];
    HandlesHold(before);
    HandlesHold(es);
    if n < |before| {
      FiresInPrefix(es, |before|, n);
      assert before[..n] == es[..n];
      PingFailureCloses(before, n);
      ClosedByStartStays(Run(before), es[|es| - 1], Run(es[..n]).pc.handle);
    }
  }

  lemma ClosedByStartStays(s: State, e: Event, h: nat)
    requires HandlesOk(s) && h < |s.handles| && s.handles[h] == 1 && s.takes[h] == 0
    ensures var s' := Step(s, e); HandlesOk(s') && h < |s'.handles| && s'.handles[h] == 1 && s'.takes[h] == 0
  {
    HandlesStep(s, e);
    if Enabled(s, e) && e.StopRelease? {
      assert StopHandleOk(s, s.stops[e.stop]);
    }
  }

  /** The handle stored by the Store at position `n` of a run. */
  function StoredAt(es: seq<Event>, n: nat): nat
    requires Fires(es, n) && es[n] == Store
  {
    Run(es[..n]).pc.handle
  }

  /** The stored handle is neither in the field nor taken: nobody will ever close it. */
  predicate Lost(s: State, h: nat) {
    h < |s.handles| == |s.takes| && s.f.pool != Some(h) && s.takes[h] == 0 && s.handles[h] == 0
  }

  /** What has become of a stored handle, given whether it was overwritten and whether a Stop came since. */
  ghost predicate Fate(s: State, h: nat, overwritten: bool, stopped: bool) {
    && HandlesOk(s) && h < |s.handles| && s.pc != Opened(h)
    && (if overwritten then Lost(s, h) else if stopped then s.takes[h] == 1 else s.f.pool == Some(h))
  }

  lemma FateStep(s: State, e: Event, h: nat, overwritten: bool, stopped: bool)
    requires Fate(s, h, overwritten, stopped)
    ensures Fate(Step(s, e), h, overwritten || (Enabled(s, e) && e == Store && !stopped), stopped || e == StopLock)
  {
    HandlesStep(s, e);
    if Enabled(s, e) && e.StopRelease? {
      assert StopHandleOk(s, s.stops[e.stop]);
    }
  }

  /**
   * The fate of a stored handle, over every run: the first Stop whose locked section follows the
   * store takes it, so it is lost if and only if a later Start stores another handle before that.
   */
  lemma {:induction false} StoredHandleFate(es: seq<Event>, n: nat)
    requires Fires(es, n) && es[n] == Store
    ensures Fate(Run(es), StoredAt(es, n), DisplacedSince(es, n, Store), !NoStopBetween(es, n, |es|))
    decreases |es|
  {
    if n < |es| - 1 {
      StoredBefore(es, n);
      StoredHandleFate(es[..|es| - 1], n);
      FateSnoc(es, n, StoredAt(es, n));
    } else {
      StoreBegins(es);
    }
  }

  lemma StoredBefore(es: seq<Event>, n: nat)
    requires n < |es| - 1 && Fires(es, n) && es[n] == Store
    ensures var before := es[..|es| - 1];
      Fires(before, n) && before[n] == Store && StoredAt(before, n) == StoredAt(es, n)
  {
    FiresInPrefix(es, |es| - 1, n);
    assert es[..|es| - 1][..n] == es[..n];
  }

  lemma StoreBegins(es: seq<Event>)
    requires es != [] && Fires(es, |es| - 1) && es[|es| - 1] == Store
    ensures Fate(Run(es), StoredAt(es, |es| - 1), DisplacedSince(es, |es| - 1, Store), !NoStopBetween(es, |es| - 1, |es|))
  {
    HandlesHold(es[..|es| - 1]);
    JustStored(Run(es[..|es| - 1]));
  }

  lemma FateSnoc(es: seq<Event>, n: nat, h: nat)
    requires n < |es| - 1
    requires var before := es[..|es| - 1];
      Fate(Run(before), h, DisplacedSince(before, n, Store), !NoStopBetween(before, n, |before|))
    ensures Fate(Run(es), h, DisplacedSince(es, n, Store), !NoStopBetween(es, n, |es|))
  {
    var before, e := es[..|es| - 1], es[|es| - 1];
    FateStep(Run(before), e, h, DisplacedSince(before, n, Store), !NoStopBetween(before, n, |before|));
    DisplacedSnoc(es, n, Store);
    NoStopInPrefix(es, n, |es| - 1);
    StopsSnoc(es, n);
  }

  lemma JustStored(s: State)
    requires HandlesOk(s) && Enabled(s, Store)
    ensures var s' := Step(s, Store);
      HandlesOk(s') && s'.f.pool == Some(s.pc.handle) && s.pc.handle < |s'.handles| && s'.pc == Waiting
  {
    HandlesStep(s, Store);
  }

  /** After a Stop's locked section the accessor yields nil until the next store. */
  lemma {:induction false} NilUntilNextStore(es: seq<Event>, m: nat)
    requires m < |es| && es[m] == StopLock
    requires forall i | m < i < |es| :: Fires(es, i) ==> es[i] != Store
    ensures Run(es).f.pool == None
    decreases |es|
  {
    var last := |es| - 1;
    var before := es[..last];
    if m < last {
      forall i | m < i < |before| ensures Fires(before, i) ==> before[i] != Store {
        FiresInPrefix(es, last, i);
      }
      assert before[m] == es[m];
      NilUntilNextStore(before, m);
      assert Fires(es, last) == Enabled(Run(before), es[last]);
    }
  }
}
