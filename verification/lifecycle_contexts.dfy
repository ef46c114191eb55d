/** Run contexts and handles: which run the fields belong to, and which contexts are cancelled when. */
module LifecycleContexts {
  import opened Wrappers
  import opened Components
  import opened Lifecycle
  import opened LifecycleFrames

  /** The pcs of a Start that still owns a stored run context. */
  predicate Running(pc: Pc) {
    pc.Dialing? || pc.Stored? || pc.Declaring? || pc.Snapped? || pc.Binding? || pc.Serving? || pc.Leaving?
    || pc.BindFailed?
  }

  /** The fields belong to the latest run, and an empty context field means a cancelled context. */
  ghost predicate FieldsOk(s: State) {
    && s.f.runCancel == s.f.runCtx
    && (s.f.ch.Some? ==> s.f.ch.value == s.run > 0 && !s.pc.Dialing?)
    && (s.f.runCtx.Some? ==> s.f.runCtx.value == s.run > 0)
    && (s.f.runCtx.None? && s.run > 0 ==> s.run in s.cancelled)
    && (Running(s.pc) ==> s.f.runCtx == Some(s.run))
    && (s.pc.Left? || s.pc.FailCancelled? || s.pc.FailCleared? ==> s.run in s.cancelled)
    && (s.pc.FailCleared? ==> s.f.ch.None?)
    && (s.run == 0 ==> s.pc.Idle?)
  }

  /** Whoever pairs a channel with a context pairs the two of one run. */
  predicate CallerPaired(s: State, c: Caller) {
    match c.pc
    case Read(ch, ctx) => (ch.Some? ==> 0 < ch.value <= s.run) && (ch.Some? && ctx.Some? ==> ch == ctx)
    case Working(ch, ctx, _) => 0 < ch <= s.run && (c.item.SubItem? ==> ctx == Some(ch))
    case _ => true
  }

  predicate ConsumerPaired(s: State, c: Consumer) {
    c.ctx == c.ch && 0 < c.ch <= s.run
  }

  /** A Stop that holds a channel will have cancelled its context by the time it closes it. */
  predicate StopPaired(s: State, stop: Stopper) {
    stop.ch.Some? ==>
      && 0 < stop.ch.value <= s.run
      && (stop.ch.value in s.cancelled || (stop.pc.Locked? && stop.cancel == stop.ch))
  }

  ghost predicate Paired(s: State) {
    && (forall c | 0 <= c < |s.callers| :: CallerPaired(s, s.callers[c]))
    && (forall i | 0 <= i < |s.consumers| :: ConsumerPaired(s, s.consumers[i]))
    && (forall j | 0 <= j < |s.stops| :: StopPaired(s, s.stops[j]))
  }

  /** A late Stop of this run found no handles to come, and holds or has spent this run's cancel. */
  predicate StopSweeps(s: State, stop: Stopper) {
    stop.late && stop.run == s.run && s.run > 0 ==>
      && s.f.ch.None? && !s.pc.Dialing?
      && (s.run in s.cancelled || (stop.pc.Locked? && stop.cancel == Some(s.run)))
  }

  /** Contexts of earlier runs are cancelled, and the current one too once a late Stop swept it. */
  ghost predicate SweepOk(s: State) {
    && (forall r | 0 < r < s.run :: r in s.cancelled)
    && (s.swept && s.run > 0 ==> s.run in s.cancelled && s.f.ch.None? && !s.pc.Dialing?)
    && (forall j | 0 <= j < |s.stops| :: s.stops[j].run <= s.run && StopSweeps(s, s.stops[j]))
  }

  lemma FieldsOpening(s: State, e: Event)
    requires FieldsOk(s) && SweepOk(s) && Enabled(s, e) && Opening(e)
    ensures FieldsOk(NextStart(s, e))
  {
  }

  lemma FieldsBinding(s: State, e: Event)
    requires FieldsOk(s) && Enabled(s, e) && OfStart(e) && !Opening(e) && !e.BindOk?
    ensures FieldsOk(NextStart(s, e))
  {
  }

  lemma FieldsCaller(s: State, e: Event)
    requires FieldsOk(s) && Enabled(s, e) && OfCaller(e)
    ensures FieldsOk(NextCaller(s, e))
  {
    CallerFrame(s, e);
    FieldsKept(s, NextCaller(s, e));
  }

  lemma FieldsKept(s: State, s': State)
    requires FieldsOk(s) && (CallerKeeps(s, s') || OtherKeeps(s, s') || BoundKeeps(s, s'))
    ensures FieldsOk(s')
  {
  }

  lemma FieldsStop(s: State, e: Event)
    requires FieldsOk(s) && Enabled(s, e) && OfStop(e)
    ensures FieldsOk(NextStop(s, e))
  {
  }

  lemma FieldsOther(s: State, e: Event)
    requires FieldsOk(s) && Enabled(s, e) && !OfStart(e) && !OfCaller(e) && !OfStop(e)
    ensures FieldsOk(NextOther(s, e))
  {
    OtherFrame(s, e);
    FieldsKept(s, NextOther(s, e));
  }

  lemma FieldsStep(s: State, e: Event)
    requires FieldsOk(s) && SweepOk(s)
    ensures FieldsOk(Step(s, e))
  {
    if Enabled(s, e) {
      if Opening(e) {
        FieldsOpening(s, e);
      } else if e.BindOk? {
        BoundFrame(s);
        FieldsKept(s, BoundOne(s));
      } else if OfStart(e) {
        FieldsBinding(s, e);
      } else if OfCaller(e) {
        FieldsCaller(s, e);
      } else if OfStop(e) {
        FieldsStop(s, e);
      } else {
        FieldsOther(s, e);
      }
    }
  }

  /** Start's steps add at most a consumer of its own run, and undo no cancellation. */
  lemma StartFrame(s: State, e: Event)
    requires Enabled(s, e) && OfStart(e)
    ensures var s' := NextStart(s, e);
      && s'.callers == s.callers && s'.stops == s.stops
      && s.run <= s'.run && s.cancelled <= s'.cancelled
      && (s'.consumers == s.consumers
          || (s.run == s'.run && exists q :: s'.consumers == s.consumers + [Consumer(q, s.run, s.run, false, Waiting)]))
  {
  }

  lemma PairedStart(s: State, e: Event)
    requires FieldsOk(s) && Paired(s) && Enabled(s, e) && OfStart(e)
    ensures Paired(NextStart(s, e))
  {
    StartFrame(s, e);
    PairedKept(s, NextStart(s, e), s.run);
  }

  lemma PairedKept(s: State, s': State, ctx: nat)
    requires Paired(s) && s.run <= s'.run && s.cancelled <= s'.cancelled
    requires s'.callers == s.callers && s'.stops == s.stops
    requires s'.consumers == s.consumers
      || (0 <= ctx <= s.run && exists q :: s'.consumers == s.consumers + [Consumer(q, ctx, ctx, false, Waiting)])
    requires s'.consumers == s.consumers || ctx > 0
    ensures Paired(s')
  {
    forall c | 0 <= c < |s'.callers| ensures CallerPaired(s', s'.callers[c]) {
      assert CallerPaired(s, s.callers[c]);
    }
    forall i | 0 <= i < |s'.consumers| ensures ConsumerPaired(s', s'.consumers[i]) {
      if i < |s.consumers| {
        assert ConsumerPaired(s, s.consumers[i]);
      }
    }
    forall j | 0 <= j < |s'.stops| ensures StopPaired(s', s'.stops[j]) {
      assert StopPaired(s, s.stops[j]);
    }
  }

  lemma PairedOp(s: State, c: nat)
    requires Paired(s) && Enabled(s, OpOk(c))
    ensures Paired(CalledOne(s, c))
  {
    var s' := CalledOne(s, c);
    assert CallerPaired(s, s.callers[c]);
    forall d | 0 <= d < |s'.callers| ensures CallerPaired(s', s'.callers[d]) {
      assert CallerPaired(s, s.callers[d]);
    }
    forall i | 0 <= i < |s'.consumers| ensures ConsumerPaired(s', s'.consumers[i]) {
      if i < |s.consumers| {
        assert ConsumerPaired(s, s.consumers[i]);
      }
    }
  }

  lemma PairedCaller(s: State, e: Event)
    requires FieldsOk(s) && Paired(s) && Enabled(s, e) && OfCaller(e) && !e.OpOk?
    ensures Paired(NextCaller(s, e))
  {
    var s' := NextCaller(s, e);
    if e.CheckHandles? {
      assert CallerPaired(s, s.callers[e.caller]);
    }
    forall c | 0 <= c < |s'.callers| ensures CallerPaired(s', s'.callers[c]) {
      if c < |s.callers| {
        assert CallerPaired(s, s.callers[c]);
      }
    }
  }

  lemma PairedStop(s: State, e: Event)
    requires FieldsOk(s) && Paired(s) && Enabled(s, e) && OfStop(e)
    ensures Paired(NextStop(s, e))
  {
    var s' := NextStop(s, e);
    forall j | 0 <= j < |s'.stops| ensures StopPaired(s', s'.stops[j]) {
      if j < |s.stops| {
        assert StopPaired(s, s.stops[j]);
      }
    }
  }

  lemma PairedStep(s: State, e: Event)
    requires FieldsOk(s) && Paired(s)
    ensures Paired(Step(s, e))
  {
    if Enabled(s, e) {
      if OfStart(e) {
        PairedStart(s, e);
      } else if e.OpOk? {
        PairedOp(s, e.caller);
      } else if OfCaller(e) {
        PairedCaller(s, e);
      } else if OfStop(e) {
        PairedStop(s, e);
      }
    }
  }

  lemma SweepStart(s: State, e: Event)
    requires FieldsOk(s) && SweepOk(s) && Enabled(s, e) && OfStart(e)
    ensures SweepOk(NextStart(s, e))
  {
    var s' := NextStart(s, e);
    forall j | 0 <= j < |s'.stops| ensures s'.stops[j].run <= s'.run && StopSweeps(s', s'.stops[j]) {
      if j < |s.stops| {
        assert StopSweeps(s, s.stops[j]);
      }
    }
  }

  lemma SweepCaller(s: State, e: Event)
    requires FieldsOk(s) && SweepOk(s) && Enabled(s, e) && OfCaller(e)
    ensures SweepOk(NextCaller(s, e))
  {
    CallerFrame(s, e);
    SweepKept(s, NextCaller(s, e));
  }

  lemma SweepKept(s: State, s': State)
    requires FieldsOk(s) && SweepOk(s) && (CallerKeeps(s, s') || OtherKeeps(s, s'))
    ensures SweepOk(s')
  {
    forall j | 0 <= j < |s'.stops| ensures s'.stops[j].run <= s'.run && StopSweeps(s', s'.stops[j]) {
      assert StopSweeps(s, s.stops[j]);
    }
  }

  lemma SweepStop(s: State, e: Event)
    requires FieldsOk(s) && SweepOk(s) && Enabled(s, e) && OfStop(e)
    ensures SweepOk(NextStop(s, e))
  {
    var s' := NextStop(s, e);
    forall j | 0 <= j < |s'.stops| ensures s'.stops[j].run <= s'.run && StopSweeps(s', s'.stops[j]) {
      if j < |s.stops| {
        assert StopSweeps(s, s.stops[j]);
      }
    }
  }

  lemma SweepOther(s: State, e: Event)
    requires FieldsOk(s) && SweepOk(s) && Enabled(s, e) && !OfStart(e) && !OfCaller(e) && !OfStop(e)
    ensures SweepOk(NextOther(s, e))
  {
    OtherFrame(s, e);
    SweepKept(s, NextOther(s, e));
  }

  lemma SweepStep(s: State, e: Event)
    requires FieldsOk(s) && SweepOk(s)
    ensures SweepOk(Step(s, e))
  {
    if Enabled(s, e) {
      if OfStart(e) {
        SweepStart(s, e);
      } else if OfCaller(e) {
        SweepCaller(s, e);
      } else if OfStop(e) {
        SweepStop(s, e);
      } else {
        SweepOther(s, e);
      }
    }
  }

  ghost predicate ContextsOk(s: State) {
    FieldsOk(s) && Paired(s) && SweepOk(s)
  }

  lemma {:induction false} ContextsHold(es: seq<Event>)
    ensures ContextsOk(Run(es))
  {
    if es != [] {
      var s, e := Run(es[..|es| - 1]), es[|es| - 1];
      ContextsHold(es[..|es| - 1]);
      FieldsStep(s, e);
      PairedStep(s, e);
      SweepStep(s, e);
    }
  }
}
