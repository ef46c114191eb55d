/** The end of the line: a message whose handler keeps failing gets to the DLQ after exactly its retries. */
module PipelineProgress {
  import opened Wrappers
  import opened Amqp
  import opened RetryPolicies
  import opened Republishing
  import opened Subscriptions
  import opened Pipeline
  import opened PipelineRetries

  /** Deliver copy `c` as delivery `tag`, fail it without asking to drop it, with a cooperative broker. */
  function FailOnce(tag: nat, c: nat): seq<Event> {
    [Deliver(c), HandlerReturns(tag, Error(false))] + [Republish(tag, true, true), Settle(tag, true)]
  }

  lemma {:induction false} InvariantsKept(sub: Subscription, s: State, es: seq<Event>)
    requires sub.NamesDistinct() && BooksOk(s) && AllLawful(sub, s)
    ensures BooksOk(Run(sub, s, es)) && AllLawful(sub, Run(sub, s, es))
  {
    if es != [] {
      var s', e := Run(sub, s, es[..|es| - 1]), es[|es| - 1];
      InvariantsKept(sub, s, es[..|es| - 1]);
      if Enabled(sub, s', e) {
        BooksStep(sub, s', e);
        AllLawfulStep(sub, s', e);
      }
    }
  }

  lemma DeliverAndFail(sub: Subscription, s: State, c: nat)
    requires sub.retry.Some? && c < |s.cells| && s.cells[c].place.InWork?
    ensures var t := |s.deliveries|;
      var s' := Run(sub, s, [Deliver(c), HandlerReturns(t, Error(false))]);
      && s'.cells == s.cells[c := s.cells[c].(place := Unacked(t))]
      && s'.deliveries == s.deliveries + [Delivery(c, s.cells[c].lineage, Failing(false))]
  {
    RunTwo(sub, s, Deliver(c), HandlerReturns(|s.deliveries|, Error(false)));
  }

  lemma MoveAndAck(sub: Subscription, s: State, t: nat)
    requires Enabled(sub, s, Republish(t, true, true))
    ensures var s' := Run(sub, s, [Republish(t, true, true), Settle(t, true)]);
      && |s'.cells| == |s.cells| + 1
      && s'.cells[|s.cells|] == CloneCell(sub, s, t)
  {
    RunTwo(sub, s, Republish(t, true, true), Settle(t, true));
  }

  /** One failed delivery leaves a clone where the policy sends it. */
  lemma OneFailure(sub: Subscription, s: State, c: nat)
    requires sub.retry.Some? && c < |s.cells| && s.cells[c].place.InWork?
    ensures var s' := Run(sub, s, FailOnce(|s.deliveries|, c));
      var plan := PlanFor(sub.retry.value, sub.queue, s.cells[c].lineage.msg, false);
      && |s'.cells| == |s.cells| + 1
      && s'.cells[|s.cells|] == Cell(s.cells[c].origin, CloneLineage(s.cells[c].lineage, plan, false),
                                     Route(sub.retry.value, sub.queue, plan.key))
  {
    var t := |s.deliveries|;
    RunConcat(sub, s, [Deliver(c), HandlerReturns(t, Error(false))], [Republish(t, true, true), Settle(t, true)]);
    DeliverAndFail(sub, s, c);
    MoveAndAck(sub, Run(sub, s, [Deliver(c), HandlerReturns(t, Error(false))]), t);
  }

  /** Waiting out the delay brings the clone back to the work queue. */
  lemma Returns(sub: Subscription, s: State, c: nat)
    requires c < |s.cells| && s.cells[c].place.InRetry? && s.cells[c].lineage.msg.expiration.Some?
    ensures Run(sub, s, [Expire(c, map[])])
         == s.(cells := s.cells[c := s.cells[c].(lineage := ExpiredLineage(s.cells[c].lineage, map[]), place := InWork)])
  {
    RunOne(sub, s, Expire(c, map[]));
  }

  /** A copy that is delivered or delayed can always come back to the work queue, with its content. */
  lemma LiveCopyReturns(sub: Subscription, s: State, c: nat) returns (es: seq<Event>)
    requires BooksOk(s) && AllLawful(sub, s)
    requires c < |s.cells| && (s.cells[c].place.InWork? || s.cells[c].place.Unacked? || s.cells[c].place.InRetry?)
    ensures var s' := Run(sub, s, es);
      && |s'.cells| == |s.cells| && s'.cells[c].place.InWork? && s'.cells[c].origin == s.cells[c].origin
      && SameContent(s.cells[c].lineage.msg, s'.cells[c].lineage.msg)
      && Count(s'.cells[c].lineage) == Count(s.cells[c].lineage)
  {
    assert CellLawful(sub, s, c);
    match s.cells[c].place
    case Unacked(_) =>
      es := [Requeue(c)];
      RunOne(sub, s, Requeue(c));
    case InRetry =>
      es := [Expire(c, map[])];
      Returns(sub, s, c);
      ExpiryKeepsContent(s.cells[c].lineage, map[]);
    case _ =>
      es := [];
  }

  /** A copy in the work queue of a state whose books are in order. */
  ghost predicate AtWork(sub: Subscription, s: State, c: nat) {
    && BooksOk(s) && AllLawful(sub, s)
    && c < |s.cells| && s.cells[c].place.InWork? && CounterReadable(Root(s.cells[c].lineage))
  }

  /** A failure while retries are left: the message is back in the work queue, one retry hop further. */
  lemma OneRetry(sub: Subscription, s: State, c: nat) returns (es: seq<Event>, d: nat)
    requires sub.retry.Some? && sub.NamesDistinct() && sub.CounterFits() && AtWork(sub, s, c)
    requires RetriesLeft(sub.retry.value, s.cells[c].lineage) > 0
    ensures var s' := Run(sub, s, es);
      && AtWork(sub, s', d) && s'.cells[d].origin == s.cells[c].origin
      && Hops(s'.cells[d].lineage) == Hops(s.cells[c].lineage) + 1
      && RetriesLeft(sub.retry.value, s'.cells[d].lineage) == RetriesLeft(sub.retry.value, s.cells[c].lineage) - 1
  {
    var once := FailOnce(|s.deliveries|, c);
    var s1 := Run(sub, s, once);
    d := |s.cells|;
    OneFailure(sub, s, c);
    InvariantsKept(sub, s, once);
    assert CellLawful(sub, s, c) && CellLawful(sub, s1, d);
    var back := [Expire(d, map[])];
    Returns(sub, s1, d);
    InvariantsKept(sub, s1, back);
    ExpiryKeepsContent(s1.cells[d].lineage, map[]);
    CounterIsHops(sub.retry.value, s1.cells[d].lineage);
    CounterIsHops(sub.retry.value, s.cells[c].lineage);
    es := once + back;
    RunConcat(sub, s, once, back);
  }

  /**
   * From any copy in the work queue, if the handler keeps failing and the broker cooperates, the
   * message reaches the DLQ after exactly as many further retries as the policy has left for it.
   */
  lemma {:induction false} FailingMessageReachesDlq(sub: Subscription, s: State, c: nat) returns (es: seq<Event>, d: nat)
    requires sub.retry.Some? && sub.NamesDistinct() && sub.CounterFits() && AtWork(sub, s, c)
    ensures var s' := Run(sub, s, es);
      && d < |s'.cells| && s'.cells[d].place.InDlq? && s'.cells[d].origin == s.cells[c].origin
      && Hops(s'.cells[d].lineage) == Hops(s.cells[c].lineage) + RetriesLeft(sub.retry.value, s.cells[c].lineage)
    decreases RetriesLeft(sub.retry.value, s.cells[c].lineage)
  {
    if RetriesLeft(sub.retry.value, s.cells[c].lineage) == 0 {
      es, d := FailOnce(|s.deliveries|, c), |s.cells|;
      OneFailure(sub, s, c);
      assert CellLawful(sub, s, c);
    } else {
      var first, more;
      first, d := OneRetry(sub, s, c);
      more, d := FailingMessageReachesDlq(sub, Run(sub, s, first), d);
      es := first + more;
      RunConcat(sub, s, first, more);
    }
  }

  /** A freshly published message without a counter is dead-lettered after exactly the policy's limit of retries. */
  lemma FreshMessageGetsAllRetries(sub: Subscription, before: seq<Event>, msg: Message) returns (es: seq<Event>, d: nat)
    requires sub.retry.Some? && sub.NamesDistinct() && sub.CounterFits() && RETRY_HEADER !in msg.headers
    ensures var s' := Run(sub, EMPTY, before + [Publish(msg)] + es);
      && d < |s'.cells| && s'.cells[d].place.InDlq?
      && s'.cells[d].origin == |Run(sub, EMPTY, before).cells|
      && Hops(s'.cells[d].lineage) == sub.retry.value.MaxRetries()
  {
    var s0 := Run(sub, EMPTY, before);
    var s1 := Run(sub, EMPTY, before + [Publish(msg)]);
    assert (before + [Publish(msg)])[..|before|] == before;
    assert s1.cells == s0.cells + [Cell(|s0.cells|, Published(msg), InWork)];
    BooksHold(sub, before + [Publish(msg)]);
    AllLawfulHolds(sub, before + [Publish(msg)]);
    es, d := FailingMessageReachesDlq(sub, s1, |s0.cells|);
    RunConcat(sub, EMPTY, before + [Publish(msg)], es);
  }
}
