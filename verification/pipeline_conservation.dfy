/** At-least-once conservation, and the discipline of settling deliveries, over every run. */
module PipelineConservation {
  import opened Wrappers
  import opened Subscriptions
  import opened Pipeline

  /** Some copy of message `m` is in the work queue, unacked, in the retry queue or in the DLQ. */
  ghost predicate HasLiveCopy(s: State, m: nat) {
    exists c | 0 <= c < |s.cells| :: s.cells[c].origin == m && !s.cells[c].place.Gone?
  }

  /** The handler accepted some delivery of message `m`. */
  ghost predicate Handled(s: State, m: nat) {
    exists t | 0 <= t < |s.deliveries| :: DeliveryOf(s, t, m) && s.deliveries[t].phase == Done(AckHandled)
  }

  /** Without a retry policy: some delivery of message `m` was rejected without requeueing. */
  ghost predicate Rejected(s: State, m: nat) {
    exists t | 0 <= t < |s.deliveries| :: DeliveryOf(s, t, m) && s.deliveries[t].phase == Done(Nack(false))
  }

  ghost predicate DeliveryOf(s: State, t: nat, m: nat) {
    t < |s.deliveries| && s.deliveries[t].copy < |s.cells| && s.cells[s.deliveries[t].copy].origin == m
  }

  /** Follow a chain of moved copies until one that still exists or was accepted. */
  lemma {:induction false} ChaseCopy(s: State, c: nat)
    requires BooksOk(s) && c < |s.cells|
    ensures var m := s.cells[c].origin; HasLiveCopy(s, m) || Handled(s, m) || Rejected(s, m)
    decreases |s.cells| - c
  {
    var cell := s.cells[c];
    assert CellOk(s, c);
    if cell.place.Gone? {
      var t := cell.place.tag;
      assert DeliveryOk(s, t) && DeliveryOf(s, t, cell.origin);
      match s.deliveries[t].phase.call
      case AckHandled =>
      case Nack(_) =>
      case AckMoved(clone) => ChaseCopy(s, clone);
    }
  }

  lemma {:induction false} OnlyRejectedWithoutPolicy(sub: Subscription, es: seq<Event>, t: nat)
    requires sub.retry.Some?
    ensures var s := Run(sub, EMPTY, es);
      t < |s.deliveries| ==> s.deliveries[t].phase !in {Due(Nack(false)), Done(Nack(false))}
  {
    if es != [] {
      OnlyRejectedWithoutPolicy(sub, es[..|es| - 1], t);
    }
  }

  /**
   * No message is lost: in every run, each message that entered the work queue still has a copy
   * somewhere unless its handler returned nil for one; without a retry policy a drop verdict
   * is the only other way out.
   */
  lemma Conservation(sub: Subscription, es: seq<Event>, c: nat)
    requires c < |Run(sub, EMPTY, es).cells|
    ensures var s := Run(sub, EMPTY, es);
      var m := s.cells[c].origin;
      HasLiveCopy(s, m) || Handled(s, m) || (sub.retry.None? && Rejected(s, m))
  {
    var s := Run(sub, EMPTY, es);
    BooksHold(sub, es);
    ChaseCopy(s, c);
    forall t | 0 <= t < |s.deliveries| ensures sub.retry.Some? ==> s.deliveries[t].phase != Done(Nack(false)) {
      if sub.retry.Some? {
        OnlyRejectedWithoutPolicy(sub, es, t);
      }
    }
  }

  /** Copies are never forgotten and never change their origin as a run goes on. */
  lemma {:induction false} CopiesPersist(sub: Subscription, s: State, es: seq<Event>, c: nat)
    requires c < |s.cells|
    ensures c < |Run(sub, s, es).cells| && Run(sub, s, es).cells[c].origin == s.cells[c].origin
  {
    if es != [] {
      CopiesPersist(sub, s, es[..|es| - 1], c);
    }
  }

  /** Conservation from the moment of publishing: the message is accounted for ever after. */
  lemma PublishedMessageSurvives(sub: Subscription, before: seq<Event>, e: Event, after: seq<Event>)
    requires e.Publish?
    ensures var s := Run(sub, EMPTY, before + [e] + after);
      var m := |Run(sub, EMPTY, before).cells|;
      HasLiveCopy(s, m) || Handled(s, m) || (sub.retry.None? && Rejected(s, m))
  {
    var s0 := Run(sub, EMPTY, before);
    var s1 := Run(sub, EMPTY, before + [e]);
    assert (before + [e])[..|before + [e]| - 1] == before;
    RunConcat(sub, EMPTY, before + [e], after);
    CopiesPersist(sub, s1, after, |s0.cells|);
    Conservation(sub, before + [e] + after, |s0.cells|);
  }

  /** The number of Ack and Nack calls a run has made for one delivery. */
  ghost function SettleCalls(sub: Subscription, es: seq<Event>, t: nat): nat {
    if es == [] then 0
    else
      var n := |es| - 1;
      SettleCalls(sub, es[..n], t) + if Fires(sub, es, n) && es[n].Settle? && es[n].tag == t then 1 else 0
  }

  /** Each delivery is settled by at most one call: exactly one once its consumer is done with it. */
  lemma {:induction false} SettledExactlyOnce(sub: Subscription, es: seq<Event>, t: nat)
    ensures var s := Run(sub, EMPTY, es);
      SettleCalls(sub, es, t) == if t < |s.deliveries| && s.deliveries[t].phase.Done? then 1 else 0
  {
    if es != [] {
      SettledExactlyOnce(sub, es[..|es| - 1], t);
      assert es[..|es| - 1] == es[..|es|][..|es| - 1];
    }
  }

  lemma FiresInPrefix(sub: Subscription, es: seq<Event>, n: nat, i: nat)
    requires i < n <= |es|
    ensures Fires(sub, es, i) == Fires(sub, es[..n], i)
  {
    assert es[..n][..i] == es[..i];
  }

  /**
   * A failed delivery is acked only after the publish of its clone returned nil: the ack at
   * position `i` is preceded by a successful republish of the same delivery, whose clone it names.
   */
  lemma {:induction false} AckFollowsPublish(sub: Subscription, es: seq<Event>, t: nat)
    requires var s := Run(sub, EMPTY, es);
      t < |s.deliveries| && (s.deliveries[t].phase.Due? || s.deliveries[t].phase.Done?) && s.deliveries[t].phase.call.AckMoved?
    ensures exists j | 0 <= j < |es| ::
      && Fires(sub, es, j) && es[j] == Republish(t, true, true)
      && Run(sub, EMPTY, es).deliveries[t].phase.call.clone == |Run(sub, EMPTY, es[..j]).cells|
  {
    var n := |es| - 1;
    var before := es[..n];
    var s0 := Run(sub, EMPTY, before);
    if t < |s0.deliveries| && (s0.deliveries[t].phase.Due? || s0.deliveries[t].phase.Done?) {
      AckFollowsPublish(sub, before, t);
      var j :| 0 <= j < |before| && Fires(sub, before, j) && before[j] == Republish(t, true, true)
        && s0.deliveries[t].phase.call.clone == |Run(sub, EMPTY, before[..j]).cells|;
      FiresInPrefix(sub, es, n, j);
      assert before[..j] == es[..j] && es[j] == before[j];
    } else {
      assert es[..n] == before && Fires(sub, es, n);
    }
  }

  /** A handler that fails is never answered with a plain ack, and one that succeeds never with anything else. */
  lemma {:induction false} VerdictDecidesCall(sub: Subscription, es: seq<Event>, t: nat)
    requires var s := Run(sub, EMPTY, es); t < |s.deliveries| && !s.deliveries[t].phase.Handling?
    ensures exists i | 0 <= i < |es| ::
      && Fires(sub, es, i) && es[i].HandlerReturns? && es[i].tag == t
      && PhaseMatches(sub, es[i].verdict, Run(sub, EMPTY, es).deliveries[t].phase)
  {
    var n := |es| - 1;
    var before := es[..n];
    var s0 := Run(sub, EMPTY, before);
    if t < |s0.deliveries| && !s0.deliveries[t].phase.Handling? {
      VerdictDecidesCall(sub, before, t);
      var i :| 0 <= i < |before| && Fires(sub, before, i) && before[i].HandlerReturns? && before[i].tag == t
        && PhaseMatches(sub, before[i].verdict, s0.deliveries[t].phase);
      FiresInPrefix(sub, es, n, i);
      assert es[i] == before[i];
    } else {
      assert Fires(sub, es, n) && es[n].HandlerReturns? && es[n].tag == t;
    }
  }

  /** The phases that can follow a verdict. */
  predicate PhaseMatches(sub: Subscription, v: Verdict, phase: Phase) {
    match phase
    case Handling => false
    case Failing(drop) => v == Error(drop)
    case Due(call) => CallMatches(sub, v, call)
    case Done(call) => CallMatches(sub, v, call)
  }

  predicate CallMatches(sub: Subscription, v: Verdict, call: Call) {
    match call
    case AckHandled => v.Nil?
    case AckMoved(_) => v.Error? && sub.retry.Some?
    case Nack(requeue) => v.Error? && (requeue <==> sub.retry.Some? || !v.drop)
  }
}
