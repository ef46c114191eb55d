/**
 * The gRPC component's shutdown: a server is handed over to at most one of the Stops and context
 * watchers, and a Serve error counts as a failure exactly when nobody has taken the server.
 * Waits on the stop channel may end at any time, and watchers of earlier runs may still be around.
 * An event that is not enabled leaves the state alone, so any sequence of events is a run.
 */
module GrpcServers {
  import opened Wrappers
  import opened Counts

  /** The fields guarded by the lock; servers are numbered in the order they are published. */
  datatype Fields = Fields(server: Option<nat>, serving: bool) {
    function Publish(srv: nat): Fields {
      Fields(Some(srv), true)
    }

    function TakeDown(): Fields {
      Fields(None, false)
    }
  }

  const NEW := Fields(None, false)

  class Component {
    var server: Option<nat>
    var serving: bool

    function View(): Fields
      reads this
    {
      Fields(server, serving)
    }

    constructor ()
      ensures View() == NEW
    {
      server, serving := None, false;
    }

    method Publish(srv: nat)
      modifies this
      ensures View() == old(View()).Publish(srv)
      ensures server == Some(srv) && serving
    {
      server := Some(srv);
      serving := true;
    }

    /** The section Stop and the context watcher share. */
    method TakeDown() returns (taken: Option<nat>)
      modifies this
      ensures View() == old(View()).TakeDown() && taken == old(server)
      ensures server.None? && !serving
    {
      taken := server;
      server := None;
      serving := false;
    }

    /** The end of Start, once Serve has returned: only an error while still serving is a failure. */
    method FinishServe(err: bool) returns (failure: bool)
      ensures failure <==> err && serving
    {
      if !err {
        return false;
      }
      failure := serving;
    }
  }

  /** A party that may shut a server down: a Stop, or the watcher a run starts. */
  datatype PartyPc = Watching | Took(server: Option<nat>) | Finished

  datatype StartPc = Idle | Preparing | Serving(mine: nat) | Erred(mine: nat) | Ending(mine: nat)

  datatype State = State(
    f: Fields,
    pc: StartPc,
    takes: seq<nat>,      // how often each published server was taken out of the field
    graceful: seq<nat>,   // how often GracefulStop was issued for it
    failed: set<nat>,     // servers whose Start returned a failure
    parties: seq<PartyPc>)

  const INIT := State(NEW, Idle, [], [], {}, [])

  datatype Event =
    | BeginStart
    | SetupFails
    | Publish
    | ServeReturns(err: bool)
    | ReadServing
    | StartReturns
    | StopLock
    | WatcherFires(party: nat)
    | WatcherQuits(party: nat)
    | Drain(party: nat)

  predicate Enabled(s: State, e: Event) {
    match e
    case BeginStart => s.pc.Idle?
    case SetupFails => s.pc.Preparing?
    case Publish => s.pc.Preparing?
    case ServeReturns(_) => s.pc.Serving?
    case ReadServing => s.pc.Erred?
    case StartReturns => s.pc.Ending?
    case StopLock => true
    case WatcherFires(j) => j < |s.parties| && s.parties[j].Watching?
    case WatcherQuits(j) => j < |s.parties| && s.parties[j].Watching?
    case Drain(j) => j < |s.parties| && s.parties[j].Took?
  }

  /** The locked section of a party; whatever it finds in the field is now its own. */
  function TakeOver(s: State): State {
    s.(f := s.f.TakeDown(), takes := BumpIfAny(s.takes, s.f.server))
  }

  function Next(s: State, e: Event): State
    requires Enabled(s, e)
  {
    match e
    case BeginStart => s.(pc := Preparing)
    case SetupFails => s.(pc := Idle)
    case Publish =>
      s.(f := s.f.Publish(|s.takes|), pc := Serving(|s.takes|), takes := s.takes + [0], graceful := s.graceful + [0],
         parties := s.parties + [Watching])
    case ServeReturns(err) => s.(pc := if err then Erred(s.pc.mine) else Ending(s.pc.mine))
    case ReadServing =>
      if s.f.serving then s.(pc := Idle, failed := s.failed + {s.pc.mine}) else s.(pc := Ending(s.pc.mine))
    case StartReturns => s.(pc := Idle)
    case StopLock => TakeOver(s).(parties := s.parties + [Took(s.f.server)])
    case WatcherFires(j) => TakeOver(s).(parties := s.parties[j := Took(s.f.server)])
    case WatcherQuits(j) => s.(parties := s.parties[j := Finished])
    case Drain(j) => s.(parties := s.parties[j := Finished], graceful := BumpIfAny(s.graceful, s.parties[j].server))
  }

  function Step(s: State, e: Event): State {
    if Enabled(s, e) then Next(s, e) else s
  }

  function Run(es: seq<Event>): State {
    if es == [] then INIT else Step(Run(es[..|es| - 1]), es[|es| - 1])
  }

  /** Event number i of a run, when it takes effect. */
  predicate Fires(es: seq<Event>, i: nat) {
    i < |es| && Enabled(Run(es[..i]), es[i])
  }

  predicate Holds(p: PartyPc, srv: nat) {
    p == Took(Some(srv))
  }

  /** The field, the flag and the holders agree. */
  ghost predicate HandOverOk(s: State) {
    && |s.takes| == |s.graceful|
    && (s.f.serving <==> s.f.server.Some?)
    && (s.f.server.Some? ==> s.f.server.value < |s.takes| && s.takes[s.f.server.value] == 0)
    && (forall v | 0 <= v < |s.takes| :: s.takes[v] <= 1 && s.graceful[v] <= s.takes[v])
    && (forall j | 0 <= j < |s.parties| :: PartyOk(s, s.parties[j]))
    && (forall j, k | 0 <= j < k < |s.parties| ::
          s.parties[j].Took? && s.parties[j].server.Some? ==> s.parties[k] != s.parties[j])
    && (forall v | 0 <= v < |s.takes| && s.takes[v] == 1 :: s.graceful[v] == 1 || HeldBySome(s, v))
  }

  ghost predicate HeldBySome(s: State, v: nat) {
    exists j | 0 <= j < |s.parties| :: Holds(s.parties[j], v)
  }

  predicate PartyOk(s: State, p: PartyPc)
    requires |s.takes| == |s.graceful|
  {
    p.Took? && p.server.Some? ==>
      p.server.value < |s.takes| && s.takes[p.server.value] == 1 && s.graceful[p.server.value] == 0
  }

  /** While Start has a server out, the field holds that server or somebody has taken it. */
  predicate MineOk(s: State) {
    s.pc.Serving? || s.pc.Erred? || s.pc.Ending? ==>
      && s.pc.mine + 1 == |s.takes|
      && (s.f.server.Some? ==> s.f.server.value == s.pc.mine)
      && (s.f.server.None? ==> s.takes[s.pc.mine] == 1)
  }

  lemma HandOverStep(s: State, e: Event)
    requires HandOverOk(s)
    ensures HandOverOk(Step(s, e))
  {
    var s' := Step(s, e);
    forall j | 0 <= j < |s'.parties| ensures PartyOk(s', s'.parties[j]) {
      if j < |s.parties| {
        assert PartyOk(s, s.parties[j]);
      }
      if Enabled(s, e) && e.Drain? {
        assert PartyOk(s, s.parties[e.party]);
      }
    }
    forall v | 0 <= v < |s'.takes| ensures s'.takes[v] <= 1 && s'.graceful[v] <= s'.takes[v] {
      if Enabled(s, e) && e.Drain? {
        assert PartyOk(s, s.parties[e.party]);
      }
    }
    NewHolderAlone(s, e);
    forall v | 0 <= v < |s'.takes| && s'.takes[v] == 1 ensures s'.graceful[v] == 1 || HeldBySome(s', v) {
      StillHeld(s, e, v);
    }
  }

  /** A server that was taken is held until its GracefulStop is issued. */
  lemma StillHeld(s: State, e: Event, v: nat)
    requires HandOverOk(s) && v < |Step(s, e).takes| && Step(s, e).takes[v] == 1
    ensures v < |Step(s, e).graceful| && (Step(s, e).graceful[v] == 1 || HeldBySome(Step(s, e), v))
  {
    var s' := Step(s, e);
    if v < |s.takes| && s.takes[v] == 1 {
      if s.graceful[v] != 1 {
        var j :| 0 <= j < |s.parties| && Holds(s.parties[j], v);
        assert PartyOk(s, s.parties[j]);
        assert s'.graceful[v] == 1 || Holds(s'.parties[j], v);
      }
    } else if e.StopLock? {
      assert Holds(s'.parties[|s.parties|], v);
    } else {
      assert Holds(s'.parties[e.party], v);
    }
  }

  lemma NewHolderAlone(s: State, e: Event)
    requires HandOverOk(s)
    ensures var s' := Step(s, e);
      forall j, k | 0 <= j < k < |s'.parties| ::
        s'.parties[j].Took? && s'.parties[j].server.Some? ==> s'.parties[k] != s'.parties[j]
  {
    forall j | 0 <= j < |s.parties| ensures s.f.server.Some? ==> !Holds(s.parties[j], s.f.server.value) {
      assert PartyOk(s, s.parties[j]);
    }
  }

  lemma MineStep(s: State, e: Event)
    requires HandOverOk(s) && MineOk(s)
    ensures MineOk(Step(s, e))
  {
  }

  lemma {:induction false} HandOverHolds(es: seq<Event>)
    ensures HandOverOk(Run(es)) && MineOk(Run(es))
  {
    if es != [] {
      HandOverHolds(es[..|es| - 1]);
      HandOverStep(Run(es[..|es| - 1]), es[|es| - 1]);
      MineStep(Run(es[..|es| - 1]), es[|es| - 1]);
    }
  }

  /**
   * At most one party ever obtains a given server; GracefulStop is issued at most once for it, and has
   * been exactly when somebody had obtained it and no longer holds it.
   */
  lemma SingleHandOver(es: seq<Event>, v: nat)
    requires v < |Run(es).takes|
    ensures var s := Run(es);
      && |s.graceful| == |s.takes|
      && s.graceful[v] <= s.takes[v] <= 1
      && (s.graceful[v] == 1 <==> s.takes[v] == 1 && !(exists j | 0 <= j < |s.parties| :: Holds(s.parties[j], v)))
      && (forall j, k | 0 <= j < |s.parties| && 0 <= k < |s.parties| ::
            Holds(s.parties[j], v) && Holds(s.parties[k], v) ==> j == k)
      && (forall j | 0 <= j < |s.parties| :: Holds(s.parties[j], v) ==> s.takes[v] == 1 && s.graceful[v] == 0)
  {
    HandOverHolds(es);
    var s := Run(es);
    forall j | 0 <= j < |s.parties| && Holds(s.parties[j], v) ensures s.takes[v] == 1 && s.graceful[v] == 0 {
      assert PartyOk(s, s.parties[j]);
    }
  }

  /** Start returns a Serve error as a failure if and only if nobody had obtained its server. */
  lemma ServeErrorIsFailureIff(es: seq<Event>)
    requires Enabled(Run(es), ReadServing)
    ensures var s := Run(es);
      && s.pc.mine < |s.takes|
      && (Step(s, ReadServing).pc.Idle? <==> s.takes[s.pc.mine] == 0)
      && (Step(s, ReadServing).failed == if s.takes[s.pc.mine] == 0 then s.failed + {s.pc.mine} else s.failed)
  {
    HandOverHolds(es);
  }

  lemma FiresInPrefix(es: seq<Event>, n: nat, i: nat)
    requires i < n <= |es|
    ensures Fires(es, i) == Fires(es[..n], i)
  {
    assert es[..n][..i] == es[..i];
  }

  /**
   * Event `i` is Serve returning an error to the Start of server `v`; event `j` is that Start looking
   * at its flag, when nobody has obtained the server.
   */
  ghost predicate FailsAt(es: seq<Event>, i: nat, j: nat, v: nat) {
    && i < j && Fires(es, i) && Fires(es, j)
    && es[i] == ServeReturns(true) && Run(es[..i]).pc == Serving(v)
    && es[j] == ReadServing && Run(es[..j]).pc == Erred(v)
    && v < |Run(es[..j]).takes| && Run(es[..j]).takes[v] == 0
  }

  lemma FailsInPrefix(es: seq<Event>, n: nat, i: nat, j: nat, v: nat)
    requires j < n <= |es|
    ensures FailsAt(es, i, j, v) == FailsAt(es[..n], i, j, v)
  {
    if i < j {
      FiresInPrefix(es, n, i);
      FiresInPrefix(es, n, j);
      assert es[..n][..i] == es[..i] && es[..n][..j] == es[..j];
    }
  }

  /** A Start that is about to look at its flag was told of an error by Serve. */
  lemma {:induction false} ErredWasTold(es: seq<Event>, v: nat) returns (i: nat)
    requires Run(es).pc == Erred(v)
    ensures Fires(es, i) && es[i] == ServeReturns(true) && Run(es[..i]).pc == Serving(v)
  {
    var last := |es| - 1;
    if Run(es[..last]).pc == Erred(v) {
      i := ErredWasTold(es[..last], v);
      FiresInPrefix(es, last, i);
      assert es[..last][..i] == es[..i];
    } else {
      i := last;
    }
  }

  lemma FailureStep(s: State, e: Event, v: nat)
    requires HandOverOk(s) && MineOk(s)
    ensures v in Step(s, e).failed <==>
      || v in s.failed
      || (Enabled(s, e) && e == ReadServing && s.pc == Erred(v) && v < |s.takes| && s.takes[v] == 0)
  {
  }

  /** What the last event of a run adds to the failed servers. */
  lemma LastFailure(es: seq<Event>, v: nat)
    requires es != []
    ensures var last := |es| - 1;
      v in Run(es).failed <==>
        || v in Run(es[..last]).failed
        || (Fires(es, last) && es[last] == ReadServing && Run(es[..last]).pc == Erred(v)
            && v < |Run(es[..last]).takes| && Run(es[..last]).takes[v] == 0)
  {
    HandOverHolds(es[..|es| - 1]);
    FailureStep(Run(es[..|es| - 1]), es[|es| - 1], v);
  }

  /**
   * A Start fails exactly when Serve returned it an error and, at the moment it looked, nobody had
   * obtained its server.
   */
  lemma {:induction false} FailedIff(es: seq<Event>, v: nat)
    ensures v in Run(es).failed <==> exists i: nat, j: nat :: FailsAt(es, i, j, v)
  {
    if es == [] {
      assert forall i: nat, j: nat :: !FailsAt(es, i, j, v);
    } else {
      var last := |es| - 1;
      FailedIff(es[..last], v);
      LastFailure(es, v);
      if v in Run(es[..last]).failed {
        var i: nat, j: nat :| FailsAt(es[..last], i, j, v);
        FailsInPrefix(es, last, i, j, v);
      } else if v in Run(es).failed {
        var i := ErredWasTold(es[..last], v);
        FiresInPrefix(es, last, i);
        assert es[..last][..i] == es[..i];
        assert FailsAt(es, i, last, v);
      } else if i: nat, j: nat :| FailsAt(es, i, j, v) {
        if j < last {
          FailsInPrefix(es, last, i, j, v);
        }
      }
    }
  }

  /** The Start of this server is past Serve and past looking at its flag, and did not fail. */
  predicate EndedWell(s: State, v: nat) {
    v < |s.takes| && v !in s.failed && s.pc != Serving(v) && s.pc != Erred(v)
  }

  /** The failed servers are of Starts that are over. */
  ghost predicate FailedOver(s: State) {
    forall v <- s.failed :: v < |s.takes| && s.pc != Serving(v) && s.pc != Erred(v)
  }

  lemma {:induction false} FailedAreOver(es: seq<Event>)
    ensures FailedOver(Run(es))
  {
    if es != [] {
      FailedAreOver(es[..|es| - 1]);
      HandOverHolds(es[..|es| - 1]);
    }
  }

  /** A Start whose Serve returned without an error never fails, in any continuation. */
  lemma {:induction false} QuietServeNeverFails(es: seq<Event>, n: nat, v: nat)
    requires Fires(es, n) && es[n] == ServeReturns(false) && Run(es[..n]).pc == Serving(v)
    ensures EndedWell(Run(es), v)
    decreases |es|
  {
    var last := |es| - 1;
    var before := es[..last];
    HandOverHolds(before);
    if n < last {
      FiresInPrefix(es, last, n);
      assert before[..n] == es[..n];
      QuietServeNeverFails(before, n, v);
    } else {
      FailedAreOver(before);
    }
  }

  /** While Start serves, Health passes exactly as long as nobody has taken the server. */
  lemma HealthyIffNotTaken(es: seq<Event>)
    requires Run(es).pc.Serving?
    ensures var s := Run(es);
      s.pc.mine < |s.takes| && (s.f.serving <==> s.takes[s.pc.mine] == 0)
  {
    HandOverHolds(es);
  }

  lemma TakesPersist(s: State, e: Event, v: nat)
    requires HandOverOk(s) && v < |s.takes| && s.takes[v] == 1
    ensures v < |Step(s, e).takes| && Step(s, e).takes[v] == 1
  {
  }

  /** Once a server has been handed over, no continuation of the run makes its Start a failure. */
  lemma {:induction false} HandedOverNeverFails(es: seq<Event>, n: nat, v: nat)
    requires n <= |es| && v < |Run(es[..n]).takes| && Run(es[..n]).takes[v] == 1 && v !in Run(es[..n]).failed
    ensures v !in Run(es).failed && v < |Run(es).takes| && Run(es).takes[v] == 1
    decreases |es|
  {
    if n < |es| {
      var before := es[..|es| - 1];
      assert before[..n] == es[..n];
      HandedOverNeverFails(before, n, v);
      HandOverHolds(before);
      TakesPersist(Run(before), es[|es| - 1], v);
    } else {
      assert es[..n] == es;
    }
  }
}
