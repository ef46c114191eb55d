/** The consumer goroutine and its failure handling, statement by statement, as runs of the pipeline. */
module Consumers {
  import opened Wrappers
  import opened Amqp
  import opened RetryPolicies
  import opened Republishing
  import opened Subscriptions
  import opened Pipeline

  /** How the handler and the broker answer while one delivery is being worked on. */
  datatype Outcome = Outcome(verdict: Verdict, stored: bool, reported: bool, effective: bool)

  /** One round of the consumer loop: the copy the broker delivers, and what happens to it. */
  datatype Turn = Turn(copy: nat, outcome: Outcome)

  /** A publish that reports success has stored the message; publisher confirms are not used. */
  predicate Possible(o: Outcome) {
    o.reported ==> o.stored
  }

  /** The steps one delivery takes through the pipeline. */
  function HandlingEvents(sub: Subscription, tag: nat, o: Outcome): seq<Event> {
    if o.verdict.Error? && sub.retry.Some? then
      [HandlerReturns(tag, o.verdict), Republish(tag, o.stored, o.reported), Settle(tag, o.effective)]
    else
      [HandlerReturns(tag, o.verdict), Settle(tag, o.effective)]
  }

  class Consumer {
    const sub: Subscription
    var cells: seq<Cell>
    var deliveries: seq<Delivery>

    constructor (sub: Subscription)
      ensures this.sub == sub && View() == EMPTY
    {
      this.sub := sub;
      cells, deliveries := [], [];
    }

    function View(): State
      reads this
    {
      State(cells, deliveries)
    }

    /** The handler returns, and the code decides what is next for the delivery. */
    method NoteVerdict(tag: nat, v: Verdict, phase: Phase)
      requires tag < |deliveries| && deliveries[tag].phase.Handling? && deliveries[tag].copy < |cells|
      requires phase == AfterVerdict(sub, v)
      modifies this
      ensures View() == Step(sub, old(View()), HandlerReturns(tag, v))
      ensures cells == old(cells) && deliveries == old(deliveries)[tag := old(deliveries)[tag].(phase := phase)]
    {
      deliveries := deliveries[tag := deliveries[tag].(phase := phase)];
    }

    /** The broker's answer to an Ack or Nack; it means nothing once the delivery is no longer outstanding. */
    method SettleWith(tag: nat, call: Call, effective: bool)
      requires tag < |deliveries| && deliveries[tag].phase == Due(call) && deliveries[tag].copy < |cells|
      modifies this
      ensures View() == Step(sub, old(View()), Settle(tag, effective))
      ensures deliveries == old(deliveries)[tag := old(deliveries)[tag].(phase := Done(call))]
      ensures OneSettled(old(cells), cells, old(deliveries)[tag].copy, tag, effective, call)
    {
      var copy := deliveries[tag].copy;
      if effective && cells[copy].place == Unacked(tag) {
        if call == Nack(true) {
          cells := cells[copy := cells[copy].(place := InWork)];
        } else {
          cells := cells[copy := cells[copy].(place := Gone(tag))];
        }
      }
      deliveries := deliveries[tag := deliveries[tag].(phase := Done(call))];
    }

    /** Clone a failing delivery to the queue named `key`; the result is what the publish reports. */
    method PublishClone(tag: nat, key: string, retries: int, expiration: int, dead: bool, o: Outcome)
      returns (ok: bool)
      requires Possible(o) && sub.retry.Some?
      requires tag < |deliveries| && deliveries[tag].phase.Failing? && deliveries[tag].copy < |cells|
      requires Plan(key, retries, expiration, dead)
            == PlanFor(sub.retry.value, sub.queue, deliveries[tag].lineage.msg, deliveries[tag].phase.drop)
      modifies this
      ensures ok == o.reported
      ensures View() == Step(sub, old(View()), Republish(tag, o.stored, o.reported))
      ensures deliveries == old(deliveries)[tag := old(deliveries)[tag].(phase := Due(
        if ok then AckMoved(|old(cells)|) else Nack(true)))]
      ensures if o.stored
        then |cells| == |old(cells)| + 1 && old(cells) <= cells && cells[|old(cells)|] == CloneCell(sub, old(View()), tag)
        else cells == old(cells)
    {
      var d := deliveries[tag];
      var clone := BuildClone(d.lineage.msg, retries, expiration);
      var call := if o.reported then AckMoved(|cells|) else Nack(true);
      if o.stored {
        var place := InDlq;
        if key == sub.queue {
          place := InWork;
        } else if key == sub.retry.value.RetryQueueFor(sub.queue) {
          place := InRetry;
        }
        var lineage := if dead then DeadLettered(d.lineage, clone, d.phase.drop) else Retried(d.lineage, clone);
        cells := cells + [Cell(cells[d.copy].origin, lineage, place)];
      }
      deliveries := deliveries[tag := d.(phase := Due(call))];
      ok := o.reported;
    }

    /** Move a failing delivery's message on: to the DLQ when its retries are over, else to the delay queue. */
    method MoveOn(tag: nat, drop: bool, o: Outcome) returns (ok: bool)
      requires Possible(o) && sub.retry.Some?
      requires tag < |deliveries| && deliveries[tag].phase == Failing(drop) && deliveries[tag].copy < |cells|
      modifies this
      ensures ok == o.reported
      ensures View() == Step(sub, old(View()), Republish(tag, o.stored, o.reported))
      ensures deliveries == old(deliveries)[tag := old(deliveries)[tag].(phase := Due(
        if o.reported then AckMoved(|old(cells)|) else Nack(true)))]
      ensures |cells| == |old(cells)| + (if o.stored then 1 else 0) && old(cells) <= cells
      ensures o.stored ==>
        MovedOn(sub, old(cells)[old(deliveries)[tag].copy].origin, old(deliveries)[tag].lineage, drop, cells[|old(cells)|])
    {
      var policy := sub.retry.value;
      var attempt := RetryCount(deliveries[tag].lineage.msg.headers);
      CloneMovesOn(sub, View(), tag);
      if drop || attempt >= policy.MaxRetries() {
        ok := PublishClone(tag, policy.DlqFor(sub.queue), attempt, 0, true, o);
      } else {
        var delay := Backoff(policy, attempt + 1);
        ok := PublishClone(tag, policy.RetryQueueFor(sub.queue), attempt + 1, delay, false, o);
      }
    }

    /** A failed delivery under a retry policy: publish its message on first, then ack, or nack and requeue if that failed. */
    method HandleRetryable(tag: nat, drop: bool, o: Outcome)
      requires Possible(o) && o.verdict == Error(drop) && sub.retry.Some?
      requires tag < |deliveries| && deliveries[tag].phase.Handling? && deliveries[tag].copy < |cells|
      modifies this
      ensures View() == Step(sub, Step(sub, Step(sub, old(View()), HandlerReturns(tag, o.verdict)),
                                       Republish(tag, o.stored, o.reported)), Settle(tag, o.effective))
      ensures deliveries == old(deliveries)[tag := old(deliveries)[tag].(phase := Done(
        if o.reported then AckMoved(|old(cells)|) else Nack(true)))]
      ensures |cells| == |old(cells)| + if o.stored then 1 else 0
      ensures o.stored ==>
        MovedOn(sub, old(cells)[old(deliveries)[tag].copy].origin, old(deliveries)[tag].lineage, drop, cells[|old(cells)|])
      ensures OneSettled(old(cells), cells[..|old(cells)|], old(deliveries)[tag].copy, tag, o.effective,
                         deliveries[tag].phase.call)
    {
      NoteVerdict(tag, o.verdict, Failing(drop));
      var ok := MoveOn(tag, drop, o);
      if !ok {
        SettleWith(tag, Nack(true), o.effective);
        return;
      }
      SettleWith(tag, deliveries[tag].phase.call, o.effective);
    }

    /**
     * The failure policy for a delivery whose handler returned an error. Without a retry policy it is
     * nacked, and requeued unless the handler asked to drop it. With one its message is published on,
     * and only then acked; if that publish failed it is nacked and requeued.
     */
    method HandleFailure(tag: nat, drop: bool, o: Outcome)
      requires Possible(o) && o.verdict == Error(drop)
      requires tag < |deliveries| && deliveries[tag].phase.Handling? && deliveries[tag].copy < |cells|
      modifies this
      ensures View() == Run(sub, old(View()), HandlingEvents(sub, tag, o))
      ensures deliveries == old(deliveries)[tag := old(deliveries)[tag].(phase := Done(
        if sub.retry.None? then Nack(!drop) else if o.reported then AckMoved(|old(cells)|) else Nack(true)))]
      ensures |cells| == |old(cells)| + if sub.retry.Some? && o.stored then 1 else 0
      ensures sub.retry.Some? && o.stored ==>
        MovedOn(sub, old(cells)[old(deliveries)[tag].copy].origin, old(deliveries)[tag].lineage, drop, cells[|old(cells)|])
      ensures OneSettled(old(cells), cells[..|old(cells)|], old(deliveries)[tag].copy, tag, o.effective,
                         deliveries[tag].phase.call)
    {
      if sub.retry.None? {
        var requeue := !drop;
        RunTwo(sub, View(), HandlerReturns(tag, o.verdict), Settle(tag, o.effective));
        NoteVerdict(tag, o.verdict, Due(Nack(requeue)));
        SettleWith(tag, Nack(requeue), o.effective);
        assert cells[..|old(cells)|] == cells;
        return;
      }
      RunThree(sub, View(), HandlerReturns(tag, o.verdict), Republish(tag, o.stored, o.reported), Settle(tag, o.effective));
      HandleRetryable(tag, drop, o);
    }

    /**
     * The body of the consumer loop for one delivery: it ends settled by the call its verdict asks
     * for, no other delivery is touched, and a copy is added exactly when a failed message is stored
     * on: in the DLQ if it was dropped or out of retries, else in the retry queue.
     */
    method Handle(tag: nat, o: Outcome)
      requires Possible(o)
      requires tag < |deliveries| && deliveries[tag].phase.Handling? && deliveries[tag].copy < |cells|
      modifies this
      ensures View() == Run(sub, old(View()), HandlingEvents(sub, tag, o))
      ensures deliveries == old(deliveries)[tag := old(deliveries)[tag].(phase := Done(
        if o.verdict.Nil? then AckHandled
        else if sub.retry.None? then Nack(!o.verdict.drop)
        else if o.reported then AckMoved(|old(cells)|)
        else Nack(true)))]
      ensures |cells| == |old(cells)| + if o.verdict.Error? && sub.retry.Some? && o.stored then 1 else 0
      ensures |cells| > |old(cells)| ==>
        var was := old(deliveries)[tag].lineage;
        var now := cells[|old(cells)|];
        var count := RetryCount(was.msg.headers);
        var terminal := o.verdict.drop || count >= sub.retry.value.MaxRetries();
        && now.origin == old(cells)[old(deliveries)[tag].copy].origin
        && now.lineage == (if terminal then DeadLettered(was, now.lineage.msg, o.verdict.drop) else Retried(was, now.lineage.msg))
        && SameContent(was.msg, now.lineage.msg)
        && RetryCount(now.lineage.msg.headers) == ToInt32(if terminal then count else count + 1)
        && now.lineage.msg.expiration ==
             (if terminal then None else Some(sub.retry.value.Delay(count + 1) / 1_000_000))
        && (sub.NamesDistinct() ==> now.place == if terminal then InDlq else InRetry)
      ensures forall c | 0 <= c < |old(cells)| && c != old(deliveries)[tag].copy :: cells[c] == old(cells)[c]
      ensures cells[old(deliveries)[tag].copy].place ==
        if !o.effective || old(cells)[old(deliveries)[tag].copy].place != Unacked(tag)
        then old(cells)[old(deliveries)[tag].copy].place
        else if deliveries[tag].phase.call == Nack(true) then InWork
        else Gone(tag)
      ensures cells[old(deliveries)[tag].copy] ==
        old(cells)[old(deliveries)[tag].copy].(place := cells[old(deliveries)[tag].copy].place)
    {
      match o.verdict
      case Error(drop) =>
        HandleFailure(tag, drop, o);
      case Nil =>
        RunTwo(sub, View(), HandlerReturns(tag, o.verdict), Settle(tag, o.effective));
        NoteVerdict(tag, o.verdict, Due(AckHandled));
        SettleWith(tag, AckHandled, o.effective);
    }

    /**
     * The consumer loop. `before[k]` is the state in which turn k begins: a turn whose copy is in the
     * work queue then makes one delivery, which is answered as its outcome asks; any other turn does nothing.
     */
    method Consume(turns: seq<Turn>) returns (ghost before: seq<State>)
      requires forall k | 0 <= k < |turns| :: Possible(turns[k].outcome)
      modifies this
      ensures View() == Run(sub, old(View()), Rounds(sub, old(View()), turns))
      ensures |before| == |turns| + 1 && before[0] == old(View()) && before[|turns|] == View()
      ensures forall k | 0 <= k < |turns| :: TurnTaken(sub, before[k], turns[k], before[k + 1])
    {
      var k := 0;
      before := [View()];
      while k < |turns|
        invariant 0 <= k <= |turns|
        invariant View() == Run(sub, old(View()), Rounds(sub, old(View()), turns[..k]))
        invariant |before| == k + 1 && before[0] == old(View()) && before[k] == View()
        invariant forall i | 0 <= i < k :: TurnTaken(sub, before[i], turns[i], before[i + 1])
      {
        RoundsSnoc(sub, old(View()), turns, k);
        Take(turns[k]);
        before := before + [View()];
        k := k + 1;
      }
      assert turns[..k] == turns;
    }

    /** The broker delivers a copy from the work queue. */
    method Receive(copy: nat) returns (tag: nat)
      requires Ready(View(), copy)
      modifies this
      ensures tag == |old(deliveries)| && View() == Step(sub, old(View()), Deliver(copy))
      ensures deliveries == old(deliveries) + [Delivery(copy, old(cells)[copy].lineage, Handling)]
      ensures cells == old(cells)[copy := old(cells)[copy].(place := Unacked(tag))]
    {
      tag := |deliveries|;
      deliveries := deliveries + [Delivery(copy, cells[copy].lineage, Handling)];
      cells := cells[copy := cells[copy].(place := Unacked(tag))];
    }

    /** One round: take the delivery, if the broker has it to deliver, and work on it. */
    method Take(turn: Turn)
      requires Possible(turn.outcome)
      modifies this
      ensures View() == Run(sub, old(View()), Round(sub, old(View()), turn))
      ensures !Ready(old(View()), turn.copy) ==> View() == old(View())
      ensures Ready(old(View()), turn.copy) ==>
        && deliveries == old(deliveries) + [Delivery(
             turn.copy, old(cells)[turn.copy].lineage, Done(Answer(sub, turn.outcome, |old(cells)|)))]
        && TurnCells(sub, old(cells), cells, turn, |old(deliveries)|)
      ensures TurnTaken(sub, old(View()), turn, View())
    {
      var copy, o := turn.copy, turn.outcome;
      if copy >= |cells| || !cells[copy].place.InWork? {
        return;
      }
      ghost var s0 := View();
      var tag := Receive(copy);
      RunOne(sub, s0, Deliver(copy));
      Handle(tag, o);
      assert deliveries == s0.deliveries + [deliveries[tag]];
      RunConcat(sub, s0, [Deliver(copy)], HandlingEvents(sub, tag, o));
    }
  }

  /** What an Ack or Nack does to the copies: at most it moves or removes the one it answers for. */
  ghost predicate OneSettled(was: seq<Cell>, now: seq<Cell>, copy: nat, tag: nat, effective: bool, call: Call) {
    && |now| == |was|
    && forall c | 0 <= c < |was| :: now[c] ==
         if c != copy || !effective || was[c].place != Unacked(tag) then was[c]
         else was[c].(place := if call == Nack(true) then InWork else Gone(tag))
  }

  /** The copy stored when a failed message is published on. */
  ghost predicate MovedOn(sub: Subscription, origin: nat, was: Lineage, drop: bool, now: Cell)
    requires sub.retry.Some?
  {
    var count := RetryCount(was.msg.headers);
    var terminal := drop || count >= sub.retry.value.MaxRetries();
    && now.origin == origin
    && now.lineage == (if terminal then DeadLettered(was, now.lineage.msg, drop) else Retried(was, now.lineage.msg))
    && SameContent(was.msg, now.lineage.msg)
    && RetryCount(now.lineage.msg.headers) == ToInt32(if terminal then count else count + 1)
    && now.lineage.msg.expiration == (if terminal then None else Some(sub.retry.value.Delay(count + 1) / 1_000_000))
    && (sub.NamesDistinct() ==> now.place == if terminal then InDlq else InRetry)
  }

  lemma CloneMovesOn(sub: Subscription, s: State, tag: nat)
    requires Enabled(sub, s, Republish(tag, true, true))
    ensures var d := s.deliveries[tag];
      MovedOn(sub, s.cells[d.copy].origin, d.lineage, d.phase.drop, CloneCell(sub, s, tag))
  {
    var d := s.deliveries[tag];
    var plan := PlanFor(sub.retry.value, sub.queue, d.lineage.msg, d.phase.drop);
    CloneKeepsContent(d.lineage.msg, plan.retries, plan.delay);
    if !plan.dead {
      DelayInRange(sub.retry.value, plan.retries);
    }
  }

  /** The broker has this copy to deliver. */
  predicate Ready(s: State, copy: nat) {
    copy < |s.cells| && s.cells[copy].place.InWork?
  }

  /** The settling call for an outcome; `clone` is the number a copy stored meanwhile gets. */
  function Answer(sub: Subscription, o: Outcome, clone: nat): Call {
    match o.verdict
    case Nil => AckHandled
    case Error(drop) =>
      if sub.retry.None? then Nack(!drop) else if o.reported then AckMoved(clone) else Nack(true)
  }

  /** What a turn that delivers a copy, as delivery `tag`, does to the copies. */
  ghost predicate TurnCells(sub: Subscription, was: seq<Cell>, now: seq<Cell>, turn: Turn, tag: nat)
    requires turn.copy < |was|
  {
    var o := turn.outcome;
    && |now| == |was| + (if o.verdict.Error? && sub.retry.Some? && o.stored then 1 else 0)
    && (|now| > |was| ==>
         MovedOn(sub, was[turn.copy].origin, was[turn.copy].lineage, o.verdict.drop, now[|was|]))
    && (forall c | 0 <= c < |was| && c != turn.copy :: now[c] == was[c])
    && now[turn.copy] == was[turn.copy].(place :=
         if !o.effective then Unacked(tag) else if Answer(sub, o, |was|) == Nack(true) then InWork else Gone(tag))
  }

  /** What a turn does: nothing, or one delivery of its copy, answered as its outcome asks. */
  ghost predicate TurnTaken(sub: Subscription, s: State, turn: Turn, s': State) {
    if !Ready(s, turn.copy) then s' == s
    else
      && s'.deliveries == s.deliveries + [Delivery(
           turn.copy, s.cells[turn.copy].lineage, Done(Answer(sub, turn.outcome, |s.cells|)))]
      && TurnCells(sub, s.cells, s'.cells, turn, |s.deliveries|)
  }

  /** The events of one turn, in the state the loop finds. */
  function Round(sub: Subscription, s: State, turn: Turn): seq<Event> {
    if turn.copy < |s.cells| && s.cells[turn.copy].place.InWork? then
      [Deliver(turn.copy)] + HandlingEvents(sub, |s.deliveries|, turn.outcome)
    else []
  }

  /** The events of all turns, each in the state the ones before it leave. */
  function Rounds(sub: Subscription, s: State, turns: seq<Turn>): seq<Event> {
    if turns == [] then []
    else
      var before := Rounds(sub, s, turns[..|turns| - 1]);
      before + Round(sub, Run(sub, s, before), turns[|turns| - 1])
  }

  lemma RoundsSnoc(sub: Subscription, s: State, turns: seq<Turn>, k: nat)
    requires k < |turns|
    ensures var before := Rounds(sub, s, turns[..k]);
      Run(sub, s, Rounds(sub, s, turns[..k + 1])) == Run(sub, Run(sub, s, before), Round(sub, Run(sub, s, before), turns[k]))
  {
    var before := Rounds(sub, s, turns[..k]);
    assert turns[..k + 1][..k] == turns[..k];
    RunConcat(sub, s, before, Round(sub, Run(sub, s, before), turns[k]));
  }
}
