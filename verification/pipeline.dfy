/**
 * The delayed-retry pipeline of one subscription as a state machine: copies of messages in the
 * broker's queues, and the deliveries the consumers are working on. Every publish, ack and nack
 * may fail, channels may close at any time, and any number of deliveries may be in progress.
 * An event that is not enabled leaves the state alone, so any sequence of events is a run.
 */
module Pipeline {
  import opened Wrappers
  import opened Amqp
  import opened RetryPolicies
  import opened Republishing
  import opened Subscriptions

  /** How a copy came to be: the message at each stage, back to the one the producer published. */
  datatype Lineage =
    | Published(msg: Message)
    | Retried(from: Lineage, msg: Message)
    | Expired(from: Lineage, msg: Message)
    | DeadLettered(from: Lineage, msg: Message, drop: bool)

  /** Where a copy is: in a queue, delivered but not yet settled, or removed by an ack or nack. */
  datatype Place = InWork | Unacked(tag: nat) | InRetry | InDlq | Gone(tag: nat)

  /** A copy of a message; `origin` is the index of the copy its producer published. */
  datatype Cell = Cell(origin: nat, lineage: Lineage, place: Place)

  datatype Verdict = Nil | Error(drop: bool)

  /** The one settling call a consumer makes for a delivery. */
  datatype Call = AckHandled | AckMoved(clone: nat) | Nack(requeue: bool)

  datatype Phase = Handling | Failing(drop: bool) | Due(call: Call) | Done(call: Call)

  datatype Delivery = Delivery(copy: nat, lineage: Lineage, phase: Phase)

  datatype State = State(cells: seq<Cell>, deliveries: seq<Delivery>)

  datatype Event =
    | Publish(msg: Message)
    | Deliver(copy: nat)
    | HandlerReturns(tag: nat, verdict: Verdict)
    | Republish(tag: nat, stored: bool, reported: bool)
    | Settle(tag: nat, effective: bool)
    | Expire(copy: nat, added: Table)
    | Requeue(copy: nat)

  const EMPTY := State([], [])

  /** What handleFailure decides to publish, and where. */
  datatype Plan = Plan(key: string, retries: int, delay: int, dead: bool)

  function PlanFor(p: RetryPolicy, queue: string, m: Message, drop: bool): Plan {
    var attempt := RetryCount(m.headers);
    if drop || attempt >= p.MaxRetries() then
      Plan(p.DlqFor(queue), attempt, 0, true)
    else
      Plan(p.RetryQueueFor(queue), attempt + 1, p.Delay(attempt + 1), false)
  }

  /** The queue a publish to the default exchange reaches. */
  function Route(p: RetryPolicy, queue: string, key: string): Place {
    if key == queue then InWork
    else if key == p.RetryQueueFor(queue) then InRetry
    else InDlq
  }

  function CloneLineage(l: Lineage, plan: Plan, drop: bool): Lineage {
    var msg := Clone(l.msg, plan.retries, plan.delay);
    if plan.dead then DeadLettered(l, msg, drop) else Retried(l, msg)
  }

  /** The broker's dead-lettering of an expired message: its own headers in, the expiration out. */
  function ExpiredLineage(l: Lineage, added: Table): Lineage {
    Expired(l, l.msg.(headers := l.msg.headers + added, expiration := None))
  }

  predicate Enabled(sub: Subscription, s: State, e: Event) {
    match e
    case Publish(_) => true
    case Deliver(c) => c < |s.cells| && s.cells[c].place.InWork?
    case HandlerReturns(t, _) => t < |s.deliveries| && s.deliveries[t].phase.Handling?
    case Republish(t, stored, reported) =>
      && t < |s.deliveries| && s.deliveries[t].phase.Failing?
      && s.deliveries[t].copy < |s.cells|
      && sub.retry.Some?
      && (reported ==> stored)
    case Settle(t, _) =>
      && t < |s.deliveries| && s.deliveries[t].phase.Due?
      && s.deliveries[t].copy < |s.cells|
    case Expire(c, added) =>
      && c < |s.cells| && s.cells[c].place.InRetry?
      && s.cells[c].lineage.msg.expiration.Some?
      && added.Keys <= BROKER_HEADERS
    case Requeue(c) => c < |s.cells| && s.cells[c].place.Unacked?
  }

  function AfterVerdict(sub: Subscription, v: Verdict): Phase {
    match v
    case Nil => Due(AckHandled)
    case Error(drop) => if sub.retry.Some? then Failing(drop) else Due(Nack(!drop))
  }

  function SetPhase(s: State, t: nat, phase: Phase): State
    requires t < |s.deliveries|
  {
    s.(deliveries := s.deliveries[t := s.deliveries[t].(phase := phase)])
  }

  function SetPlace(s: State, c: nat, place: Place): State
    requires c < |s.cells|
  {
    s.(cells := s.cells[c := s.cells[c].(place := place)])
  }

  function Next(sub: Subscription, s: State, e: Event): State
    requires Enabled(sub, s, e)
  {
    match e
    case Publish(msg) =>
      s.(cells := s.cells + [Cell(|s.cells|, Published(msg), InWork)])
    case Deliver(c) =>
      SetPlace(s, c, Unacked(|s.deliveries|)).(deliveries := s.deliveries + [Delivery(c, s.cells[c].lineage, Handling)])
    case HandlerReturns(t, v) =>
      SetPhase(s, t, AfterVerdict(sub, v))
    case Republish(t, stored, reported) =>
      var s' := SetPhase(s, t, Due(if reported then AckMoved(|s.cells|) else Nack(true)));
      if stored then s'.(cells := s.cells + [CloneCell(sub, s, t)]) else s'
    case Settle(t, effective) =>
      var d := s.deliveries[t];
      var s' := SetPhase(s, t, Done(d.phase.call));
      if effective && s.cells[d.copy].place == Unacked(t) then SetPlace(s', d.copy, Settled(t, d.phase.call)) else s'
    case Expire(c, added) =>
      s.(cells := s.cells[c := s.cells[c].(lineage := ExpiredLineage(s.cells[c].lineage, added), place := InWork)])
    case Requeue(c) =>
      SetPlace(s, c, InWork)
  }

  function Settled(tag: nat, call: Call): Place {
    if call == Nack(true) then InWork else Gone(tag)
  }

  function CloneCell(sub: Subscription, s: State, t: nat): Cell
    requires Enabled(sub, s, Republish(t, true, true))
  {
    var d := s.deliveries[t];
    var plan := PlanFor(sub.retry.value, sub.queue, d.lineage.msg, d.phase.drop);
    Cell(s.cells[d.copy].origin, CloneLineage(d.lineage, plan, d.phase.drop), Route(sub.retry.value, sub.queue, plan.key))
  }

  function Step(sub: Subscription, s: State, e: Event): State {
    if Enabled(sub, s, e) then Next(sub, s, e) else s
  }

  function Run(sub: Subscription, s: State, es: seq<Event>): State {
    if es == [] then s else Step(sub, Run(sub, s, es[..|es| - 1]), es[|es| - 1])
  }

  lemma {:induction false} RunConcat(sub: Subscription, s: State, es: seq<Event>, fs: seq<Event>)
    ensures Run(sub, s, es + fs) == Run(sub, Run(sub, s, es), fs)
    decreases |fs|
  {
    if fs == [] {
      assert es + fs == es;
    } else {
      RunConcat(sub, s, es, fs[..|fs| - 1]);
      assert (es + fs)[..|es + fs| - 1] == es + fs[..|fs| - 1];
    }
  }

  lemma RunOne(sub: Subscription, s: State, a: Event)
    ensures Run(sub, s, [a]) == Step(sub, s, a)
  {
    assert [a][..0] == [];
    assert Run(sub, s, [a][..0]) == s;
  }

  lemma RunTwo(sub: Subscription, s: State, a: Event, b: Event)
    ensures Run(sub, s, [a, b]) == Step(sub, Step(sub, s, a), b)
  {
    RunOne(sub, s, a);
    assert [a, b][..1] == [a];
  }

  lemma RunThree(sub: Subscription, s: State, a: Event, b: Event, c: Event)
    ensures Run(sub, s, [a, b, c]) == Step(sub, Step(sub, Step(sub, s, a), b), c)
  {
    assert [a, b, c][..2] == [a, b];
    RunTwo(sub, s, a, b);
  }

  /** Event number i of a run from the empty state, when it takes effect. */
  predicate Fires(sub: Subscription, es: seq<Event>, i: nat) {
    i < |es| && Enabled(sub, Run(sub, EMPTY, es[..i]), es[i])
  }

  // ----- The inductive invariant -----

  /** The books of deliveries and copies agree. */
  ghost predicate DeliveryOk(s: State, t: nat)
    requires t < |s.deliveries|
  {
    var d := s.deliveries[t];
    && d.copy < |s.cells|
    && d.lineage == s.cells[d.copy].lineage
    && !s.cells[d.copy].place.InRetry? && !s.cells[d.copy].place.InDlq?
    && (d.phase.Due? || d.phase.Done? ==> d.phase.call.AckMoved? ==>
        && d.copy < d.phase.call.clone < |s.cells|
        && s.cells[d.phase.call.clone].origin == s.cells[d.copy].origin)
  }

  ghost predicate CellOk(s: State, c: nat)
    requires c < |s.cells|
  {
    var cell := s.cells[c];
    && (cell.place.Unacked? ==> cell.place.tag < |s.deliveries| && s.deliveries[cell.place.tag].copy == c)
    && (cell.place.Gone? ==>
        && cell.place.tag < |s.deliveries|
        && s.deliveries[cell.place.tag].copy == c
        && s.deliveries[cell.place.tag].phase.Done?
        && s.deliveries[cell.place.tag].phase.call != Nack(true))
    && cell.origin <= c
  }

  ghost predicate BooksOk(s: State) {
    && (forall t | 0 <= t < |s.deliveries| :: DeliveryOk(s, t))
    && (forall c | 0 <= c < |s.cells| :: CellOk(s, c))
  }

  lemma DeliveriesStep(sub: Subscription, s: State, e: Event, t: nat)
    requires BooksOk(s) && Enabled(sub, s, e) && t < |Next(sub, s, e).deliveries|
    ensures DeliveryOk(Next(sub, s, e), t)
  {
    if t < |s.deliveries| {
      assert DeliveryOk(s, t);
    }
  }

  lemma CellsStep(sub: Subscription, s: State, e: Event, c: nat)
    requires BooksOk(s) && Enabled(sub, s, e) && c < |Next(sub, s, e).cells|
    ensures CellOk(Next(sub, s, e), c)
  {
    if c < |s.cells| {
      assert CellOk(s, c);
    } else if e.Republish? {
      assert DeliveryOk(s, e.tag) && CellOk(s, s.deliveries[e.tag].copy);
    }
  }

  lemma BooksStep(sub: Subscription, s: State, e: Event)
    requires BooksOk(s) && Enabled(sub, s, e)
    ensures BooksOk(Next(sub, s, e))
  {
    var s' := Next(sub, s, e);
    forall t | 0 <= t < |s'.deliveries| ensures DeliveryOk(s', t) {
      DeliveriesStep(sub, s, e, t);
    }
    forall c | 0 <= c < |s'.cells| ensures CellOk(s', c) {
      CellsStep(sub, s, e, c);
    }
  }

  lemma {:induction false} BooksHold(sub: Subscription, es: seq<Event>)
    ensures BooksOk(Run(sub, EMPTY, es))
  {
    if es != [] {
      var s, e := Run(sub, EMPTY, es[..|es| - 1]), es[|es| - 1];
      BooksHold(sub, es[..|es| - 1]);
      if Enabled(sub, s, e) {
        BooksStep(sub, s, e);
      }
    }
  }
}
