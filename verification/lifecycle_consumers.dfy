/** Consumers over the component's life: what is reported dead, for how long, and whose context they hold. */
module LifecycleConsumers {
  import opened Wrappers
  import opened Subscriptions
  import opened Components
  import opened Lifecycle
  import opened LifecycleFrames
  import opened LifecycleContexts

  /** The delivery stream was closed by someone other than Stop. */
  predicate BrokenFromOutside(s: State, c: Consumer) {
    c.revoked || (c.ch in s.closed && s.closed[c.ch] != ByStop)
  }

  predicate ConsumerOk(s: State, c: Consumer) {
    match c.pc
    case Waiting => true
    case SawClose => StreamClosed(s, c)
    case Marking => BrokenFromOutside(s, c)
    case Exited(marked) => if marked then BrokenFromOutside(s, c) else c.ctx in s.cancelled
  }

  ghost predicate Reported(s: State, queue: string) {
    exists i | 0 <= i < |s.consumers| :: s.consumers[i].queue == queue && s.consumers[i].pc == Exited(true)
  }

  /** Stop cancels a run's context before it closes the run's channel. */
  ghost predicate CancelledBeforeClosed(s: State) {
    forall r <- s.closed :: s.closed[r] == ByStop ==> r in s.cancelled
  }

  ghost predicate ConsumersOk(s: State) {
    forall i | 0 <= i < |s.consumers| :: ConsumerOk(s, s.consumers[i])
  }

  ghost predicate ReportsOk(s: State) {
    forall queue <- s.f.dead :: Reported(s, queue)
  }

  /** Causes of closing are settled once, cancellations are final, and consumers do not go back. */
  ghost predicate Onward(s: State, s': State) {
    && s.cancelled <= s'.cancelled
    && (forall r <- s.closed :: r in s'.closed && s'.closed[r] == s.closed[r])
  }

  lemma OnwardStart(s: State, e: Event)
    requires Enabled(s, e) && OfStart(e)
    ensures Onward(s, NextStart(s, e)) && AddsConsumers(s, NextStart(s, e))
    ensures forall q <- NextStart(s, e).f.dead :: q in s.f.dead
  {
    if e.BindOk? {
      OnwardBound(s);
    }
  }

  lemma OnwardBound(s: State)
    requires Enabled(s, BindOk)
    ensures Onward(s, BoundOne(s)) && AddsConsumers(s, BoundOne(s)) && BoundOne(s).f == s.f
  {
    BoundFrame(s);
  }

  lemma OnwardCaller(s: State, e: Event)
    requires Enabled(s, e) && OfCaller(e)
    ensures Onward(s, NextCaller(s, e)) && AddsConsumers(s, NextCaller(s, e)) && NextCaller(s, e).f.dead == s.f.dead
  {
    CallerFrame(s, e);
    OnwardKept(s, NextCaller(s, e));
  }

  lemma OnwardKept(s: State, s': State)
    requires CallerKeeps(s, s')
    ensures Onward(s, s') && AddsConsumers(s, s') && s'.f.dead == s.f.dead
  {
  }

  lemma OnwardStop(s: State, e: Event)
    requires Enabled(s, e) && OfStop(e)
    ensures Onward(s, NextStop(s, e)) && NextStop(s, e).consumers == s.consumers && NextStop(s, e).f.dead == s.f.dead
  {
  }

  lemma OnwardOther(s: State, e: Event)
    requires Enabled(s, e) && !OfStart(e) && !OfCaller(e) && !OfStop(e)
    ensures Onward(s, NextOther(s, e))
  {
  }

  /** Only Stop closes a channel in Stop's name. */
  ghost predicate NoNewStopClose(s: State, s': State) {
    forall r <- s'.closed :: s'.closed[r] == ByStop ==> r in s.closed && s.closed[r] == ByStop
  }

  lemma NoStopCloseStart(s: State, e: Event)
    requires Enabled(s, e) && OfStart(e)
    ensures NoNewStopClose(s, NextStart(s, e))
  {
  }

  lemma NoStopCloseElsewhere(s: State, e: Event)
    requires Enabled(s, e) && !OfStart(e) && !e.StopClose?
    ensures NoNewStopClose(s, Step(s, e))
  {
  }

  lemma CancelledBeforeClosedStep(s: State, e: Event)
    requires Paired(s) && CancelledBeforeClosed(s) && Onward(s, Step(s, e))
    ensures CancelledBeforeClosed(Step(s, e))
  {
    if Enabled(s, e) {
      if OfStart(e) {
        NoStopCloseStart(s, e);
      } else if e.StopClose? {
        assert StopPaired(s, s.stops[e.stop]);
      } else {
        NoStopCloseElsewhere(s, e);
      }
    }
  }

  /** The part of the invariant that survives any step of Start, callers and Stop. */
  lemma ConsumersKept(s: State, s': State)
    requires ConsumersOk(s) && ReportsOk(s) && Onward(s, s')
    requires AddsConsumers(s, s')
    requires forall q <- s'.f.dead :: q in s.f.dead
    ensures ConsumersOk(s') && ReportsOk(s')
  {
    forall i | 0 <= i < |s'.consumers| ensures ConsumerOk(s', s'.consumers[i]) {
      if i < |s.consumers| {
        assert s'.consumers[i] == s.consumers[i] && ConsumerOk(s, s.consumers[i]);
      }
    }
    forall q <- s'.f.dead ensures Reported(s', q) {
      assert Reported(s, q);
      var i :| 0 <= i < |s.consumers| && s.consumers[i].queue == q && s.consumers[i].pc == Exited(true);
      assert s'.consumers[i] == s.consumers[i];
    }
  }

  lemma ConsumersOther(s: State, e: Event)
    requires Paired(s) && CancelledBeforeClosed(s) && ConsumersOk(s)
    requires Enabled(s, e) && !OfStart(e) && !OfCaller(e) && !OfStop(e)
    ensures ConsumersOk(NextOther(s, e))
  {
    var s' := NextOther(s, e);
    forall i | 0 <= i < |s'.consumers| ensures ConsumerOk(s', s'.consumers[i]) {
      assert ConsumerOk(s, s.consumers[i]) && ConsumerPaired(s, s.consumers[i]);
    }
  }

  lemma ReportsOther(s: State, e: Event)
    requires ReportsOk(s) && Enabled(s, e) && !OfStart(e) && !OfCaller(e) && !OfStop(e)
    ensures ReportsOk(NextOther(s, e))
  {
    var s' := NextOther(s, e);
    forall q <- s'.f.dead ensures Reported(s', q) {
      if q in s.f.dead {
        assert Reported(s, q);
        var i :| 0 <= i < |s.consumers| && s.consumers[i].queue == q && s.consumers[i].pc == Exited(true);
        assert s'.consumers[i].queue == q && s'.consumers[i].pc == Exited(true);
      } else {
        assert s'.consumers[e.consumer].queue == q && s'.consumers[e.consumer].pc == Exited(true);
      }
    }
  }

  ghost predicate DetectionOk(s: State) {
    CancelledBeforeClosed(s) && ConsumersOk(s) && ReportsOk(s)
  }

  lemma {:induction false} DetectionHolds(es: seq<Event>)
    ensures DetectionOk(Run(es))
  {
    if es != [] {
      var s, e := Run(es[..|es| - 1]), es[|es| - 1];
      DetectionHolds(es[..|es| - 1]);
      ContextsHold(es[..|es| - 1]);
      if Enabled(s, e) {
        if OfStart(e) {
          OnwardStart(s, e);
          ConsumersKept(s, NextStart(s, e));
        } else if OfCaller(e) {
          OnwardCaller(s, e);
          ConsumersKept(s, NextCaller(s, e));
        } else if OfStop(e) {
          OnwardStop(s, e);
          ConsumersKept(s, NextStop(s, e));
        } else {
          OnwardOther(s, e);
          ConsumersOther(s, e);
          ReportsOther(s, e);
        }
      }
      CancelledBeforeClosedStep(s, e);
    }
  }

  // ----- Dead-consumer detection -----

  /**
   * Soundness: a queue is reported dead only for a consumer whose stream someone other than Stop
   * closed; a consumer that saw its stream close because Stop closed the channel never reports.
   */
  lemma OnlyBrokenConsumersReported(es: seq<Event>, s: State, i: nat)
    requires s == Run(es) && i < |s.consumers|
    ensures var c := s.consumers[i];
      && (c.pc == Exited(true) || c.pc.Marking? ==> BrokenFromOutside(s, c))
      && (!c.revoked && c.ch in s.closed && s.closed[c.ch] == ByStop ==>
          c.ctx in s.cancelled && c.pc != Exited(true) && !c.pc.Marking?)
  {
    DetectionHolds(es);
    ContextsHold(es);
    assert ConsumerOk(s, s.consumers[i]) && ConsumerPaired(s, s.consumers[i]);
  }

  /** No reset of the dead consumers takes effect in the part of the run after position `n`. */
  ghost predicate NoResetSince(es: seq<Event>, n: nat) {
    forall j | n <= j < |es| :: Fires(es, j) ==> !es[j].ResetDead?
  }

  lemma FiresInPrefix(es: seq<Event>, n: nat, i: nat)
    requires i < n <= |es|
    ensures Fires(es, i) == Fires(es[..n], i)
  {
    assert es[..n][..i] == es[..i];
  }

  lemma NoResetInPrefix(es: seq<Event>, n: nat)
    requires NoResetSince(es, n) && es != []
    ensures NoResetSince(es[..|es| - 1], n)
  {
    var before := es[..|es| - 1];
    forall j | n <= j < |before| ensures Fires(before, j) ==> !before[j].ResetDead? {
      FiresInPrefix(es, |es| - 1, j);
    }
  }

  lemma DeadKeptByStart(s: State, e: Event)
    requires Enabled(s, e) && OfStart(e) && !e.ResetDead?
    ensures NextStart(s, e).f.dead == s.f.dead
  {
    if e.BindOk? {
      BoundFrame(s);
    }
  }

  lemma DeadKeptByOthers(s: State, e: Event, queue: string)
    requires queue in s.f.dead && Enabled(s, e) && !OfStart(e) && !OfCaller(e) && !OfStop(e)
    ensures queue in NextOther(s, e).f.dead
  {
  }

  lemma DeadKept(s: State, e: Event, queue: string)
    requires queue in s.f.dead && (Enabled(s, e) ==> !e.ResetDead?)
    ensures queue in Step(s, e).f.dead
  {
    if Enabled(s, e) {
      if OfStart(e) {
        DeadKeptByStart(s, e);
      } else if OfCaller(e) {
        OnwardCaller(s, e);
      } else if OfStop(e) {
        OnwardStop(s, e);
      } else {
        DeadKeptByOthers(s, e, queue);
      }
    }
  }

  /** A report is sticky: Health fails from then on, until the next Start resets it. */
  lemma {:induction false} ReportIsSticky(es: seq<Event>, n: nat, queue: string, connClosed: bool, chClosed: bool)
    requires n <= |es| && queue in Run(es[..n]).f.dead && NoResetSince(es, n)
    ensures queue in Run(es).f.dead && !Run(es).f.Healthy(connClosed, chClosed)
    decreases |es|
  {
    if n < |es| {
      var before := es[..|es| - 1];
      NoResetInPrefix(es, n);
      assert before[..n] == es[..n];
      ReportIsSticky(before, n, queue, connClosed, chClosed);
      assert Fires(es, |es| - 1) == Enabled(Run(before), es[|es| - 1]);
      DeadKept(Run(before), es[|es| - 1], queue);
    } else {
      assert es[..n] == es;
    }
  }

  /** Event j reports a consumer of this queue dead. */
  ghost predicate ReportsQueue(es: seq<Event>, j: nat, queue: string) {
    && Fires(es, j) && es[j].MarksDead?
    && es[j].consumer < |Run(es[..j]).consumers| && Run(es[..j]).consumers[es[j].consumer].queue == queue
  }

  lemma ReportInPrefix(es: seq<Event>, n: nat, j: nat, queue: string)
    requires j < n <= |es|
    ensures ReportsQueue(es, j, queue) == ReportsQueue(es[..n], j, queue)
  {
    FiresInPrefix(es, n, j);
    assert es[..n][..j] == es[..j];
  }

  /** A reset that takes effect forgets every report. */
  lemma ResetClears(s: State)
    requires Enabled(s, ResetDead)
    ensures Step(s, ResetDead).f.dead == map[]
  {
  }

  /** How the dead consumers can change in one step. */
  lemma DeadStep(s: State, e: Event, queue: string)
    ensures queue in Step(s, e).f.dead <==>
      || (Enabled(s, e) && e.MarksDead? && s.consumers[e.consumer].queue == queue)
      || (queue in s.f.dead && !(Enabled(s, e) && e.ResetDead?))
  {
    if Enabled(s, e) {
      if OfStart(e) {
        if e.ResetDead? {
          ResetClears(s);
        } else {
          DeadKeptByStart(s, e);
        }
      } else if OfCaller(e) {
        OnwardCaller(s, e);
      } else if OfStop(e) {
        OnwardStop(s, e);
      }
    }
  }

  /** Which events of a run report the queue, and which reset all reports. */
  ghost function Reports(es: seq<Event>, queue: string): (marks: seq<bool>)
    ensures |marks| == |es|
  {
    seq(|es|, j requires 0 <= j < |es| => ReportsQueue(es, j, queue))
  }

  ghost function Resets(es: seq<Event>): (marks: seq<bool>)
    ensures |marks| == |es|
  {
    seq(|es|, j requires 0 <= j < |es| => Fires(es, j) && es[j].ResetDead?)
  }

  lemma MarksSnoc(es: seq<Event>, queue: string)
    requires es != []
    ensures Reports(es, queue)[..|es| - 1] == Reports(es[..|es| - 1], queue)
    ensures Resets(es)[..|es| - 1] == Resets(es[..|es| - 1])
  {
    forall j: nat | j < |es| - 1
      ensures ReportsQueue(es, j, queue) == ReportsQueue(es[..|es| - 1], j, queue)
      ensures Fires(es, j) == Fires(es[..|es| - 1], j)
    {
      ReportInPrefix(es, |es| - 1, j, queue);
      FiresInPrefix(es, |es| - 1, j);
    }
  }

  /** A switch that `on` turns on and `off` turns off, one position after the other. */
  predicate Lit(on: seq<bool>, off: seq<bool>)
    requires |on| == |off|
  {
    on != [] && (on[|on| - 1] || (Lit(on[..|on| - 1], off[..|on| - 1]) && !off[|on| - 1]))
  }

  predicate LitFrom(on: seq<bool>, off: seq<bool>, j: nat) {
    j < |on| && on[j] && forall k | j < k < |off| :: !off[k]
  }

  lemma {:induction false} LitIff(on: seq<bool>, off: seq<bool>)
    requires |on| == |off|
    ensures Lit(on, off) <==> exists j :: LitFrom(on, off, j)
  {
    if on != [] {
      var last := |on| - 1;
      LitIff(on[..last], off[..last]);
      if on[last] {
        assert LitFrom(on, off, last);
      } else if Lit(on, off) {
        var j :| LitFrom(on[..last], off[..last], j);
        assert LitFrom(on, off, j);
      } else if j :| LitFrom(on, off, j) {
        assert LitFrom(on[..last], off[..last], j);
      }
    }
  }

  lemma {:induction false} DeadIsLit(es: seq<Event>, queue: string)
    ensures queue in Run(es).f.dead <==> Lit(Reports(es, queue), Resets(es))
  {
    if es != [] {
      var last := |es| - 1;
      DeadIsLit(es[..last], queue);
      MarksSnoc(es, queue);
      DeadStep(Run(es[..last]), es[last], queue);
    }
  }

  /** A report that no reset has wiped out. */
  ghost predicate Stands(es: seq<Event>, j: nat, queue: string) {
    ReportsQueue(es, j, queue) && NoResetSince(es, j)
  }

  lemma StandsIsLit(es: seq<Event>, j: nat, queue: string)
    ensures Stands(es, j, queue) <==> LitFrom(Reports(es, queue), Resets(es), j)
  {
    if LitFrom(Reports(es, queue), Resets(es), j) {
      forall k | j <= k < |es| ensures Fires(es, k) ==> !es[k].ResetDead? {
        assert k > j ==> !Resets(es)[k];
      }
    } else if Stands(es, j, queue) {
      forall k | j < k < |es| ensures !Resets(es)[k] {
        assert Fires(es, k) ==> !es[k].ResetDead?;
      }
    }
  }

  /** A queue is on record as dead exactly when one of its consumers was reported and no reset has come since. */
  lemma DeadIff(es: seq<Event>, queue: string)
    ensures queue in Run(es).f.dead <==> exists j :: Stands(es, j, queue)
  {
    DeadIsLit(es, queue);
    LitIff(Reports(es, queue), Resets(es));
    forall j: nat ensures Stands(es, j, queue) <==> LitFrom(Reports(es, queue), Resets(es), j) {
      StandsIsLit(es, j, queue);
    }
  }

  /**
   * From ready() on, a consumer that is gone while its run context is live has been reported:
   * if it was waiting when Start was serving and no reset happened since, Health fails.
   */
  lemma {:induction false} GoneMeansReported(es: seq<Event>, n: nat, i: nat)
    requires n <= |es| && NoResetSince(es, n)
    requires i < |Run(es[..n]).consumers| && !Run(es[..n]).consumers[i].pc.Exited?
    ensures var s := Run(es);
      && i < |s.consumers|
      && s.consumers[i].queue == Run(es[..n]).consumers[i].queue
      && (s.consumers[i].pc.Exited? ==> s.consumers[i].ctx in s.cancelled || s.consumers[i].queue in s.f.dead)
    decreases |es|
  {
    if n < |es| {
      var before := es[..|es| - 1];
      var s, e := Run(before), es[|es| - 1];
      NoResetInPrefix(es, n);
      assert before[..n] == es[..n];
      GoneMeansReported(before, n, i);
      assert Fires(es, |es| - 1) == Enabled(s, e);
      StepOfConsumer(s, e, i);
      DetectionHolds(es);
      assert ConsumerOk(Run(es), Run(es).consumers[i]);
      if s.consumers[i].queue in s.f.dead {
        DeadKept(s, e, s.consumers[i].queue);
      }
    } else {
      assert es[..n] == es;
    }
  }

  /** How one consumer can change in one step. */
  lemma StepOfConsumer(s: State, e: Event, i: nat)
    requires i < |s.consumers|
    ensures var s' := Step(s, e);
      && i < |s'.consumers|
      && s'.consumers[i].queue == s.consumers[i].queue
      && s'.consumers[i].ctx == s.consumers[i].ctx
      && s.cancelled <= s'.cancelled
      && (s'.consumers[i].pc != s.consumers[i].pc && s'.consumers[i].pc == Exited(true) ==>
          s.consumers[i].queue in s'.f.dead)
  {
    if Enabled(s, e) {
      if OfStart(e) {
        OnwardStart(s, e);
        assert NextStart(s, e).consumers[i] == s.consumers[i];
      } else if OfCaller(e) {
        OnwardCaller(s, e);
        assert NextCaller(s, e).consumers[i] == s.consumers[i];
      } else if OfStop(e) {
        OnwardStop(s, e);
      }
    }
  }

  /** The next step of a consumer on its way out. */
  function NextOf(pc: ConsumerPc, i: nat): Event {
    match pc
    case Waiting => SeesClose(i)
    case SawClose => ChecksContext(i)
    case _ => MarksDead(i)
  }

  /** The consumer can go on, only towards its report, and the last of its steps files that report. */
  ghost predicate OnItsWay(s: State, i: nat) {
    && i < |s.consumers| && !s.consumers[i].pc.Exited?
    && !Enabled(s, SeesDone(i))
    && Enabled(s, NextOf(s.consumers[i].pc, i))
    && match s.consumers[i].pc
       case Waiting => Step(s, SeesClose(i)) == SetConsumer(s, i, SawClose)
       case SawClose => Step(s, ChecksContext(i)) == SetConsumer(s, i, Marking)
       case _ => s.consumers[i].queue in Step(s, MarksDead(i)).f.dead
  }

  lemma BrokenIsOnItsWay(s: State, i: nat)
    requires i < |s.consumers| && StreamClosed(s, s.consumers[i]) && !s.consumers[i].pc.Exited?
    requires s.consumers[i].ctx !in s.cancelled
    ensures OnItsWay(s, i)
  {
  }

  /** A broken consumer under a live context only moves by its own steps, the last of which is its report. */
  lemma StepOfBroken(s: State, e: Event, i: nat)
    requires i < |s.consumers| && StreamClosed(s, s.consumers[i]) && s.consumers[i].ctx !in Step(s, e).cancelled
    ensures var s' := Step(s, e);
      && i < |s'.consumers| && StreamClosed(s', s'.consumers[i])
      && s'.consumers[i].ctx == s.consumers[i].ctx && s'.consumers[i].queue == s.consumers[i].queue
      && s.cancelled <= s'.cancelled
      && (!s.consumers[i].pc.Exited? && s'.consumers[i].pc.Exited? ==> Enabled(s, e) && e == MarksDead(i))
      && (s.consumers[i].pc.Exited? ==> s'.consumers[i].pc == s.consumers[i].pc)
  {
    if Enabled(s, e) {
      if OfStart(e) {
        OnwardStart(s, e);
        assert NextStart(s, e).consumers[i] == s.consumers[i];
      } else if OfCaller(e) {
        OnwardCaller(s, e);
        assert NextCaller(s, e).consumers[i] == s.consumers[i];
      } else if OfStop(e) {
        OnwardStop(s, e);
      } else {
        StepOfBrokenElsewhere(s, e, i);
      }
    }
  }

  lemma StepOfBrokenElsewhere(s: State, e: Event, i: nat)
    requires Enabled(s, e) && !OfStart(e) && !OfCaller(e) && !OfStop(e)
    requires i < |s.consumers| && StreamClosed(s, s.consumers[i]) && s.consumers[i].ctx !in NextOther(s, e).cancelled
    ensures var s' := NextOther(s, e);
      && |s'.consumers| == |s.consumers| && StreamClosed(s', s'.consumers[i])
      && s'.consumers[i].ctx == s.consumers[i].ctx && s'.consumers[i].queue == s.consumers[i].queue
      && s.cancelled <= s'.cancelled
      && (!s.consumers[i].pc.Exited? && s'.consumers[i].pc.Exited? ==> e == MarksDead(i))
      && (s.consumers[i].pc.Exited? ==> s'.consumers[i].pc == s.consumers[i].pc)
  {
  }

  /** Event j files the report of consumer i. */
  ghost predicate Files(es: seq<Event>, j: nat, i: nat) {
    Fires(es, j) && es[j] == MarksDead(i)
  }

  lemma FilesInPrefix(es: seq<Event>, n: nat, j: nat, i: nat)
    requires j < n <= |es|
    ensures Files(es, j, i) == Files(es[..n], j, i)
  {
    FiresInPrefix(es, n, j);
  }

  /** The same consumer as in an earlier state, still broken. */
  ghost predicate StillBroken(was: State, s: State, i: nat) {
    && i < |was.consumers| && i < |s.consumers| && StreamClosed(s, s.consumers[i])
    && s.consumers[i].ctx == was.consumers[i].ctx && s.consumers[i].queue == was.consumers[i].queue
  }

  lemma {:induction false} BrokenStays(es: seq<Event>, n: nat, i: nat)
    requires n <= |es| && StillBroken(Run(es[..n]), Run(es[..n]), i) && !Run(es[..n]).consumers[i].pc.Exited?
    requires Run(es[..n]).consumers[i].ctx !in Run(es).cancelled
    ensures StillBroken(Run(es[..n]), Run(es), i)
    ensures Run(es).consumers[i].pc.Exited? ==> exists j | n <= j < |es| :: Files(es, j, i)
    decreases |es|
  {
    if n == |es| {
      assert es[..n] == es;
    } else {
      var last := |es| - 1;
      var before := es[..last];
      assert before[..n] == es[..n];
      CancelledGrows(Run(before), es[last]);
      BrokenStays(before, n, i);
      StepOfBroken(Run(before), es[last], i);
      if Run(before).consumers[i].pc.Exited? {
        var j :| n <= j < |before| && Files(before, j, i);
        FilesInPrefix(es, last, j, i);
      } else if Run(es).consumers[i].pc.Exited? {
        assert Files(es, last, i);
      }
    }
  }

  /**
   * Completeness: over any run, a consumer whose stream was closed while it was there, and whose run
   * context is still live, has either reported in the meantime or is on its way to reporting.
   */
  lemma BrokenConsumerReports(es: seq<Event>, n: nat, i: nat)
    requires n <= |es| && i < |Run(es[..n]).consumers|
    requires StreamClosed(Run(es[..n]), Run(es[..n]).consumers[i]) && !Run(es[..n]).consumers[i].pc.Exited?
    requires Run(es[..n]).consumers[i].ctx !in Run(es).cancelled
    ensures StillBroken(Run(es[..n]), Run(es), i)
    ensures OnItsWay(Run(es), i) || exists j | n <= j < |es| :: Files(es, j, i)
  {
    BrokenStays(es, n, i);
    if !Run(es).consumers[i].pc.Exited? {
      BrokenIsOnItsWay(Run(es), i);
    }
  }

  lemma CancelledGrows(s: State, e: Event)
    ensures s.cancelled <= Step(s, e).cancelled
  {
    if Enabled(s, e) {
      if OfStart(e) {
        OnwardStart(s, e);
      } else if OfCaller(e) {
        OnwardCaller(s, e);
      } else if OfStop(e) {
        OnwardStop(s, e);
      }
    }
  }

  /**
   * A consumer whose context is cancelled has one more step to take, which it can take at once, and
   * then it is gone: without a report, unless it had decided to make one before.
   */
  lemma CancelledConsumerLeaves(s: State, i: nat) returns (e: Event)
    requires i < |s.consumers| && s.consumers[i].ctx in s.cancelled && !s.consumers[i].pc.Exited?
    ensures Enabled(s, e) && i < |Step(s, e).consumers|
    ensures Step(s, e).consumers[i].pc == Exited(s.consumers[i].pc.Marking?)
    ensures !s.consumers[i].pc.Marking? ==> Step(s, e).f.dead == s.f.dead
  {
    e := match s.consumers[i].pc
      case Waiting => SeesDone(i)
      case SawClose => ChecksContext(i)
      case _ => MarksDead(i);
  }

  // ----- Containment -----

  /** A run that reached ready(), or failed to bind, does not end with its context live. */
  ghost predicate EndsOk(s: State) {
    && s.f.conn == s.f.ch
    && s.readied !! s.bindFailed
    && (forall r <- s.readied :: 0 < r <= s.run)
    && (forall r <- s.bindFailed :: 0 < r <= s.run)
    && (s.run in s.readied ==>
        && (s.pc.Serving? || s.pc.Leaving? || s.pc.Left? || s.pc.Idle?)
        && (s.pc.Left? || s.pc.Idle? ==> s.run in s.cancelled))
    && (s.run in s.bindFailed ==>
        && (s.pc.BindFailed? || s.pc.FailCancelled? || s.pc.FailCleared? || s.pc.Idle?)
        && (s.pc.FailCleared? || s.pc.Idle? ==> s.run in s.cancelled && s.f.ch.None? && s.f.runCtx.None?))
    && (s.pc.Serving? || s.pc.Leaving? || s.pc.Left? ==> s.run in s.readied)
    && (s.pc.BindFailed? || s.pc.FailCancelled? || s.pc.FailCleared? ==> s.run in s.bindFailed)
  }

  lemma EndsOpening(s: State, e: Event)
    requires FieldsOk(s) && EndsOk(s) && Enabled(s, e) && Opening(e)
    ensures EndsOk(NextStart(s, e))
  {
  }

  lemma EndsBinding(s: State, e: Event)
    requires FieldsOk(s) && EndsOk(s) && Enabled(s, e) && OfStart(e) && !Opening(e) && !e.BindOk?
    ensures EndsOk(NextStart(s, e))
  {
  }

  lemma EndsBound(s: State, s': State)
    requires EndsOk(s) && BoundKeeps(s, s')
    ensures EndsOk(s')
  {
  }

  lemma EndsCaller(s: State, e: Event)
    requires EndsOk(s) && Enabled(s, e) && OfCaller(e)
    ensures EndsOk(NextCaller(s, e))
  {
    CallerFrame(s, e);
    EndsKept(s, NextCaller(s, e));
  }

  lemma EndsKept(s: State, s': State)
    requires EndsOk(s) && (CallerKeeps(s, s') || OtherKeeps(s, s'))
    ensures EndsOk(s')
  {
  }

  lemma EndsStop(s: State, e: Event)
    requires EndsOk(s) && Enabled(s, e) && OfStop(e)
    ensures EndsOk(NextStop(s, e))
  {
  }

  lemma EndsOther(s: State, e: Event)
    requires EndsOk(s) && Enabled(s, e) && !OfStart(e) && !OfCaller(e) && !OfStop(e)
    ensures EndsOk(NextOther(s, e))
  {
    OtherFrame(s, e);
    EndsKept(s, NextOther(s, e));
  }

  lemma EndsStep(s: State, e: Event)
    requires FieldsOk(s) && EndsOk(s)
    ensures EndsOk(Step(s, e))
  {
    if Enabled(s, e) {
      if Opening(e) {
        EndsOpening(s, e);
      } else if e.BindOk? {
        BoundFrame(s);
        EndsBound(s, BoundOne(s));
      } else if OfStart(e) {
        EndsBinding(s, e);
      } else if OfCaller(e) {
        EndsCaller(s, e);
      } else if OfStop(e) {
        EndsStop(s, e);
      } else {
        EndsOther(s, e);
      }
    }
  }

  lemma {:induction false} EndsHold(es: seq<Event>)
    ensures EndsOk(Run(es))
  {
    if es != [] {
      EndsHold(es[..|es| - 1]);
      ContextsHold(es[..|es| - 1]);
      EndsStep(Run(es[..|es| - 1]), es[|es| - 1]);
    }
  }

  /** Who cancelled a run's context: its own Start on the way out, its parent, or a Stop. */
  ghost predicate CancelCause(s: State, r: nat) {
    || r in s.readied || r in s.bindFailed || r in s.parentDone
    || exists j | 0 <= j < |s.stops| :: s.stops[j].cancel == Some(r) && !s.stops[j].pc.Locked?
  }

  ghost predicate CausesOk(s: State) {
    && (forall r <- s.cancelled :: CancelCause(s, r))
    && s.parentDone <= s.cancelled
    && (forall j | 0 <= j < |s.stops| ::
          s.stops[j].cancel.Some? && !s.stops[j].pc.Locked? ==> s.stops[j].cancel.value in s.cancelled)
  }

  /** What a step can do to the causes: the cancelling steps of Start come from its two ways out. */
  ghost predicate CausesGrow(s: State, s': State) {
    && s'.stops == s.stops && s.parentDone <= s'.parentDone
    && s.readied <= s'.readied && s.bindFailed <= s'.bindFailed
    && s.cancelled <= s'.cancelled
    && (forall r <- s'.cancelled :: r in s.cancelled || r in s'.parentDone || r in s'.readied || r in s'.bindFailed)
    && (forall r <- s'.parentDone :: r in s.parentDone || r in s'.cancelled)
  }

  lemma CausesKept(s: State, s': State)
    requires CausesOk(s) && CausesGrow(s, s')
    ensures CausesOk(s')
  {
    forall r <- s'.cancelled ensures CancelCause(s', r) {
      assert r in s.cancelled ==> CancelCause(s, r);
    }
  }

  lemma CausesStart(s: State, e: Event)
    requires EndsOk(s) && Enabled(s, e) && OfStart(e) && !e.BindOk?
    ensures CausesGrow(s, NextStart(s, e))
  {
  }

  lemma CausesOther(s: State, e: Event)
    requires Enabled(s, e) && !OfStart(e) && !OfCaller(e) && !OfStop(e)
    ensures CausesGrow(s, NextOther(s, e))
  {
  }

  lemma CausesStop(s: State, e: Event)
    requires CausesOk(s) && Enabled(s, e) && OfStop(e)
    ensures CausesOk(NextStop(s, e))
  {
    var s' := NextStop(s, e);
    forall r <- s'.cancelled ensures CancelCause(s', r) {
      if r in s.cancelled {
        assert CancelCause(s, r);
        if j :| 0 <= j < |s.stops| && s.stops[j].cancel == Some(r) && !s.stops[j].pc.Locked? {
          assert s'.stops[j].cancel == Some(r) && !s'.stops[j].pc.Locked?;
        }
      } else {
        assert s'.stops[e.stop].cancel == Some(r) && !s'.stops[e.stop].pc.Locked?;
      }
    }
  }

  lemma {:induction false} CausesHold(es: seq<Event>)
    ensures CausesOk(Run(es))
  {
    if es != [] {
      var s, e := Run(es[..|es| - 1]), es[|es| - 1];
      CausesHold(es[..|es| - 1]);
      EndsHold(es[..|es| - 1]);
      if Enabled(s, e) {
        if e.BindOk? {
          BoundFrame(s);
          CausesKept(s, BoundOne(s));
        } else if OfStart(e) {
          CausesStart(s, e);
          CausesKept(s, NextStart(s, e));
        } else if OfCaller(e) {
          CallerFrame(s, e);
          CausesKept(s, NextCaller(s, e));
        } else if OfStop(e) {
          CausesStop(s, e);
        } else {
          CausesOther(s, e);
          CausesKept(s, NextOther(s, e));
        }
      }
    }
  }

  /** What a Stop has done by the time it is this far: cancelled, then signalled, then closed what it took. */
  predicate StopWorked(s: State, stop: Stopper) {
    && (!stop.pc.Locked? && stop.cancel.Some? ==> stop.cancel.value in s.cancelled)
    && (stop.pc.Signalled? || stop.pc.Closed? ==> stop.signal in s.closedStops)
    && (stop.pc.Closed? && stop.ch.Some? ==> stop.ch.value in s.closed)
  }

  ghost predicate WorkOk(s: State) {
    forall j | 0 <= j < |s.stops| :: StopWorked(s, s.stops[j])
  }

  /** Nothing that Stops have done is undone. */
  ghost predicate StopsStand(s: State, s': State) {
    && s'.stops == s.stops && s.cancelled <= s'.cancelled
    && s.closedStops <= s'.closedStops && s.closed.Keys <= s'.closed.Keys
  }

  lemma WorkKept(s: State, s': State)
    requires WorkOk(s) && StopsStand(s, s')
    ensures WorkOk(s')
  {
    forall j | 0 <= j < |s'.stops| ensures StopWorked(s', s'.stops[j]) {
      assert StopWorked(s, s.stops[j]);
    }
  }

  lemma WorkStart(s: State, e: Event)
    requires Enabled(s, e) && OfStart(e) && !e.BindOk?
    ensures StopsStand(s, NextStart(s, e))
  {
  }

  lemma WorkStop(s: State, e: Event)
    requires WorkOk(s) && Enabled(s, e) && OfStop(e)
    ensures WorkOk(NextStop(s, e))
  {
    var s' := NextStop(s, e);
    forall j | 0 <= j < |s'.stops| ensures StopWorked(s', s'.stops[j]) {
      if j < |s.stops| {
        assert StopWorked(s, s.stops[j]);
      }
    }
  }

  lemma {:induction false} WorkHolds(es: seq<Event>)
    ensures WorkOk(Run(es))
  {
    if es != [] {
      var s, e := Run(es[..|es| - 1]), es[|es| - 1];
      WorkHolds(es[..|es| - 1]);
      if Enabled(s, e) {
        if e.BindOk? {
          BoundFrame(s);
          WorkKept(s, BoundOne(s));
        } else if OfStart(e) {
          WorkStart(s, e);
          WorkKept(s, NextStart(s, e));
        } else if OfCaller(e) {
          CallerFrame(s, e);
          WorkKept(s, NextCaller(s, e));
        } else if OfStop(e) {
          WorkStop(s, e);
        } else {
          OtherFrame(s, e);
          WorkKept(s, NextOther(s, e));
        }
      }
    }
  }

  /**
   * In every run a Stop has cancelled the context it took before it signals, signalled the stop channel
   * it took before it closes, and closed the channel it took once it is done; a Start that waits on
   * the stop channel a Stop has signalled can wake up.
   */
  lemma StopDoesItsWork(es: seq<Event>, s: State, j: nat)
    requires s == Run(es) && j < |s.stops|
    ensures var stop := s.stops[j];
      && (!stop.pc.Locked? && stop.cancel.Some? ==> stop.cancel.value in s.cancelled)
      && (stop.pc.Signalled? || stop.pc.Closed? ==> stop.signal in s.closedStops)
      && (stop.pc.Closed? && stop.ch.Some? ==> stop.ch.value in s.closed)
      && ((stop.pc.Signalled? || stop.pc.Closed?) && s.pc.Serving? && stop.signal == s.stopLocal ==> Enabled(s, Wake))
  {
    WorkHolds(es);
    assert StopWorked(s, s.stops[j]);
  }

  /**
   * Which Starts leave a live context behind when they return: exactly those that neither reached
   * ready() nor failed to bind, whose parent is not cancelled, and whose cancel no Stop has called.
   * These are the Starts that failed to dial, to open a channel or to declare an exchange.
   */
  lemma ReturnedCancelledIff(es: seq<Event>, s: State, r: nat)
    requires s == Run(es) && 0 < r <= s.run && (r == s.run ==> s.pc.Idle?)
    ensures r in s.cancelled <==> CancelCause(s, r)
  {
    CausesHold(es);
    EndsHold(es);
    ContextsHold(es);
  }

  /**
   * Containment: every consumer carries the context of the run whose channel it consumes from.
   * That context is cancelled by the time a Start that reached ready() has returned, and no
   * consumer of an earlier run holds a live context once the next run begins.
   */
  lemma ConsumersContained(es: seq<Event>, s: State, i: nat)
    requires s == Run(es) && i < |s.consumers|
    ensures var c := s.consumers[i];
      && c.ctx == c.ch && 0 < c.ctx <= s.run
      && (c.ctx < s.run ==> c.ctx in s.cancelled)
      && (c.ctx == s.run && s.pc.Idle? && c.ctx in s.readied + s.bindFailed ==> c.ctx in s.cancelled)
      && (Enabled(s, BeginStart) ==> c.ctx in s.cancelled)
  {
    ContextsHold(es);
    EndsHold(es);
    assert ConsumerPaired(s, s.consumers[i]);
  }

  /** A Start that failed on an open channel has closed it by the time it returns. */
  predicate FailuresClosed(s: State) {
    s.pc.Idle? && s.run > 0 && s.run !in s.readied && (s.run in s.bindFailed || s.f.ch.Some?) ==> s.run in s.closed
  }

  lemma ClosedStart(s: State, e: Event)
    requires FieldsOk(s) && EndsOk(s) && FailuresClosed(s) && Enabled(s, e) && OfStart(e) && !e.BindOk?
    ensures FailuresClosed(NextStart(s, e))
  {
  }

  lemma ClosedStop(s: State, e: Event)
    requires FailuresClosed(s) && Enabled(s, e) && OfStop(e)
    ensures FailuresClosed(NextStop(s, e))
  {
  }

  lemma {:induction false} FailedStartCloses(es: seq<Event>)
    ensures FailuresClosed(Run(es))
  {
    if es != [] {
      var s, e := Run(es[..|es| - 1]), es[|es| - 1];
      FailedStartCloses(es[..|es| - 1]);
      EndsHold(es[..|es| - 1]);
      ContextsHold(es[..|es| - 1]);
      if Enabled(s, e) {
        if e.BindOk? {
          BoundFrame(s);
        } else if OfStart(e) {
          ClosedStart(s, e);
        } else if OfCaller(e) {
          CallerFrame(s, e);
        } else if OfStop(e) {
          ClosedStop(s, e);
        } else {
          OtherFrame(s, e);
        }
      }
    }
  }

  /** A failed bind means ready() is never called for that run, its context is cancelled and its handles are gone. */
  lemma BindFailureCleansUp(es: seq<Event>, r: nat)
    requires r in Run(es).bindFailed
    ensures var s := Run(es);
      && r !in s.readied
      && (r < s.run || s.pc.Idle? ==> r in s.cancelled)
      && (r == s.run && s.pc.Idle? ==> s.f.ch.None? && s.f.conn.None? && s.f.runCtx.None? && s.f.runCancel.None?)
      && (r == s.run && s.pc.Idle? ==> r in s.closed)
  {
    FailedStartCloses(es);
    ContextsHold(es);
    EndsHold(es);
  }
}
