/** What the steps of the lifecycle's different parties leave alone. */
module LifecycleFrames {
  import opened Wrappers
  import opened Components
  import opened Lifecycle

  /** A registration appends to its slice, moves on, and may make one call that takes effect. */
  ghost predicate CallerKeeps(s: State, s': State) {
    && s' == s.(f := s'.f, callers := s'.callers, consumers := s'.consumers, applied := s'.applied, log := s'.log)
    && s'.f == s.f.(exchanges := s'.f.exchanges, subs := s'.f.subs)
    && s.f.exchanges <= s'.f.exchanges && s.f.subs <= s'.f.subs
    && s.applied <= s'.applied && s.log <= s'.log
    && AddsConsumers(s, s')
  }

  /** New consumers come last, and begin by waiting. */
  ghost predicate AddsConsumers(s: State, s': State) {
    && s.consumers <= s'.consumers
    && forall i | |s.consumers| <= i < |s'.consumers| :: s'.consumers[i].pc.Waiting?
  }

  lemma CallerFrame(s: State, e: Event)
    requires Enabled(s, e) && OfCaller(e)
    ensures CallerKeeps(s, NextCaller(s, e))
  {
    if e.OpOk? {
      OpFrame(s, e.caller);
    } else {
      MoveFrame(s, e);
    }
  }

  lemma OpFrame(s: State, c: nat)
    requires Enabled(s, OpOk(c))
    ensures CallerKeeps(s, CalledOne(s, c))
  {
  }

  lemma MoveFrame(s: State, e: Event)
    requires Enabled(s, e) && OfCaller(e) && !e.OpOk?
    ensures CallerKeeps(s, NextCaller(s, e))
  {
  }

  /** Consumers and the outside world touch no run, no registration and no Stop. */
  ghost predicate OtherKeeps(s: State, s': State) {
    && s' == s.(f := s'.f, consumers := s'.consumers, cancelled := s'.cancelled, parentDone := s'.parentDone,
                closed := s'.closed)
    && s'.f == s.f.(dead := s'.f.dead)
    && s.cancelled <= s'.cancelled && s.parentDone <= s'.parentDone
    && s.closed.Keys <= s'.closed.Keys
    && |s'.consumers| == |s.consumers|
  }

  lemma OtherFrame(s: State, e: Event)
    requires Enabled(s, e) && !OfStart(e) && !OfCaller(e) && !OfStop(e)
    ensures OtherKeeps(s, NextOther(s, e))
  {
  }

  /** One more call of Start's binding: it moves on, and the last call puts the subscription into effect. */
  ghost predicate BoundKeeps(s: State, s': State) {
    && s' == s.(i := s'.i, k := s'.k, log := s'.log, applied := s'.applied, consumers := s'.consumers)
    && (|| (s'.i == s.i && s'.applied == s.applied)
        || (s'.i == s.i + 1 && s'.applied == s.applied + {Applied(false, s.i, s.run)}))
    && s.log <= s'.log
    && AddsConsumers(s, s')
  }

  lemma BoundFrame(s: State)
    requires Enabled(s, BindOk)
    ensures BoundKeeps(s, BoundOne(s))
  {
  }
}
