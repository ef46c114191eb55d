/** What every copy in the pipeline carries: bounded retries, exact counters, scheduled delays, content. */
module PipelineRetries {
  import opened Wrappers
  import opened Amqp
  import opened RetryPolicies
  import opened Republishing
  import opened Subscriptions
  import opened Pipeline

  function Count(l: Lineage): Int64 {
    RetryCount(l.msg.headers)
  }

  /** The message the producer published. */
  function Root(l: Lineage): Message {
    if l.Published? then l.msg else Root(l.from)
  }

  /** Retry hops and DLQ hops on the way from the published message to this copy. */
  function Hops(l: Lineage): nat {
    if l.Published? then 0 else Hops(l.from) + if l.Retried? then 1 else 0
  }

  function DlqHops(l: Lineage): nat {
    if l.Published? then 0 else DlqHops(l.from) + if l.DeadLettered? then 1 else 0
  }

  /** The delays scheduled along the way, in milliseconds. */
  function ScheduledDelay(l: Lineage): nat {
    if l.Published? then 0
    else ScheduledDelay(l.from) + if l.Retried? && l.msg.expiration.Some? then l.msg.expiration.value else 0
  }

  /** Every hop is one the retry policy allows, and keeps the content of the message. */
  ghost predicate Lawful(p: RetryPolicy, l: Lineage) {
    match l
    case Published(_) => true
    case Retried(from, msg) =>
      && Lawful(p, from) && Deliverable(from) && SameContent(from.msg, msg)
      && Count(from) < p.MaxRetries()
      && Count(l) == ToInt32(Count(from) + 1)
      && msg.expiration == Some(p.Delay(Count(from) + 1) / MILLISECOND)
    case Expired(from, msg) =>
      && Lawful(p, from) && from.Retried? && SameContent(from.msg, msg)
      && Count(l) == Count(from)
      && msg.expiration == None
    case DeadLettered(from, msg, drop) =>
      && Lawful(p, from) && Deliverable(from) && SameContent(from.msg, msg)
      && (drop || Count(from) >= p.MaxRetries())
      && Count(l) == ToInt32(Count(from))
      && msg.expiration == None
  }

  /** Only a published or expired copy can be in the work queue. */
  predicate Deliverable(l: Lineage) {
    l.Published? || l.Expired?
  }

  /** A copy is in the retry queue exactly while it waits, and in the DLQ exactly when dead-lettered. */
  predicate InItsPlace(cell: Cell) {
    && (cell.place.InRetry? <==> cell.lineage.Retried?)
    && (cell.place.InDlq? <==> cell.lineage.DeadLettered?)
  }

  ghost predicate CellLawful(sub: Subscription, s: State, c: nat)
    requires c < |s.cells|
  {
    var cell := s.cells[c];
    && InItsPlace(cell)
    && (if sub.retry.Some? then Lawful(sub.retry.value, cell.lineage) else cell.lineage.Published?)
    && cell.origin < |s.cells|
    && s.cells[cell.origin].lineage == Published(Root(cell.lineage))
  }

  ghost predicate AllLawful(sub: Subscription, s: State) {
    forall c | 0 <= c < |s.cells| :: CellLawful(sub, s, c)
  }

  lemma ExpiryKeepsContent(l: Lineage, added: Table)
    requires added.Keys <= BROKER_HEADERS
    ensures SameContent(l.msg, ExpiredLineage(l, added).msg)
    ensures Count(ExpiredLineage(l, added)) == Count(l)
  {
    assert RETRY_HEADER !in added;
    assert UserHeaders(l.msg.headers) == UserHeaders(l.msg.headers + added);
  }

  lemma CloneLawful(p: RetryPolicy, queue: string, l: Lineage, drop: bool)
    requires Lawful(p, l) && Deliverable(l)
    ensures var plan := PlanFor(p, queue, l.msg, drop); Lawful(p, CloneLineage(l, plan, drop))
  {
    var plan := PlanFor(p, queue, l.msg, drop);
    CloneKeepsContent(l.msg, plan.retries, plan.delay);
    if !plan.dead {
      DelayInRange(p, plan.retries);
    }
  }

  lemma LawfulRepublish(sub: Subscription, s: State, e: Event)
    requires sub.NamesDistinct() && BooksOk(s) && AllLawful(sub, s)
    requires e.Republish? && Enabled(sub, s, e)
    ensures var cell := CloneCell(sub, s, e.tag);
      InItsPlace(cell) && Lawful(sub.retry.value, cell.lineage) && cell.origin < |s.cells|
      && s.cells[cell.origin].lineage == Published(Root(cell.lineage))
  {
    var d := s.deliveries[e.tag];
    assert DeliveryOk(s, e.tag) && CellLawful(sub, s, d.copy) && CellOk(s, d.copy);
    BeenDelivered(sub, s, e.tag);
    CloneLawful(sub.retry.value, sub.queue, d.lineage, d.phase.drop);
  }

  /** What a consumer holds is a published or expired message. */
  lemma BeenDelivered(sub: Subscription, s: State, t: nat)
    requires BooksOk(s) && AllLawful(sub, s) && t < |s.deliveries|
    ensures Deliverable(s.deliveries[t].lineage)
  {
    assert DeliveryOk(s, t) && CellLawful(sub, s, s.deliveries[t].copy);
  }

  /** A copy that was there before a step. */
  lemma LawfulKept(sub: Subscription, s: State, e: Event, c: nat)
    requires BooksOk(s) && AllLawful(sub, s) && Enabled(sub, s, e) && c < |s.cells|
    ensures CellLawful(sub, Next(sub, s, e), c)
  {
    assert CellLawful(sub, s, c) && CellLawful(sub, s, s.cells[c].origin);
    if e.Expire? {
      ExpiryKeepsContent(s.cells[e.copy].lineage, e.added);
    }
  }

  /** A copy that the step added. */
  lemma LawfulAdded(sub: Subscription, s: State, e: Event)
    requires sub.NamesDistinct() && BooksOk(s) && AllLawful(sub, s) && Enabled(sub, s, e)
    requires |Next(sub, s, e).cells| > |s.cells|
    ensures CellLawful(sub, Next(sub, s, e), |s.cells|)
  {
    if e.Republish? {
      LawfulRepublish(sub, s, e);
    }
  }

  lemma AllLawfulStep(sub: Subscription, s: State, e: Event)
    requires sub.NamesDistinct() && BooksOk(s) && AllLawful(sub, s) && Enabled(sub, s, e)
    ensures AllLawful(sub, Next(sub, s, e))
  {
    forall c | 0 <= c < |Next(sub, s, e).cells| ensures CellLawful(sub, Next(sub, s, e), c) {
      if c < |s.cells| {
        LawfulKept(sub, s, e, c);
      } else {
        LawfulAdded(sub, s, e);
      }
    }
  }

  lemma {:induction false} AllLawfulHolds(sub: Subscription, es: seq<Event>)
    requires sub.NamesDistinct()
    ensures AllLawful(sub, Run(sub, EMPTY, es))
  {
    if es != [] {
      var s, e := Run(sub, EMPTY, es[..|es| - 1]), es[|es| - 1];
      AllLawfulHolds(sub, es[..|es| - 1]);
      BooksHold(sub, es[..|es| - 1]);
      if Enabled(sub, s, e) {
        AllLawfulStep(sub, s, e);
      }
    }
  }

  // ----- What a lawful lineage implies -----

  lemma {:induction false} LawfulKeepsContent(p: RetryPolicy, l: Lineage)
    requires Lawful(p, l)
    ensures SameContent(Root(l), l.msg)
  {
    if !l.Published? {
      LawfulKeepsContent(p, l.from);
    }
  }

  /** A starting counter that int32 can represent; a message without the header starts at zero. */
  predicate CounterReadable(m: Message) {
    INT32_MIN <= RetryCount(m.headers) <= INT32_MAX
  }

  function AtLeastZero(n: int): nat {
    if n < 0 then 0 else n
  }

  lemma NarrowingIsIdentity(n: int)
    requires INT32_MIN <= n <= INT32_MAX
    ensures ToInt32(n) == n
  {
    if n < 0 {
      assert n % 0x1_0000_0000 == n + 0x1_0000_0000;
    }
  }

  /** The counter counts: it is the starting value plus the retry hops, which the policy bounds. */
  lemma {:induction false} CounterIsHops(p: RetryPolicy, l: Lineage)
    requires Lawful(p, l) && p.MaxRetries() <= INT32_MAX && CounterReadable(Root(l))
    ensures Count(l) == RetryCount(Root(l).headers) + Hops(l)
    ensures CounterReadable(l.msg)
    ensures Hops(l) <= AtLeastZero(p.MaxRetries() - RetryCount(Root(l).headers))
    ensures DlqHops(l) == if l.DeadLettered? then 1 else 0
  {
    if !l.Published? {
      CounterIsHops(p, l.from);
      NarrowingIsIdentity(Count(l.from));
      if l.Retried? {
        NarrowingIsIdentity(Count(l.from) + 1);
      }
    }
  }

  /** Which single hops count correctly: exactly those whose new counter fits in 32 bits. */
  lemma HopCounterExactIff(p: RetryPolicy, l: Lineage)
    requires Lawful(p, l)
    ensures l.Retried? ==>
      (Count(l) == Count(l.from) + 1 <==> INT32_MIN <= Count(l.from) + 1 <= INT32_MAX)
    ensures l.DeadLettered? ==>
      (Count(l) == Count(l.from) <==> CounterReadable(l.from.msg))
  {
    if l.Retried? {
      CounterRoundTrip(map[], Count(l.from) + 1);
    } else if l.DeadLettered? {
      CounterRoundTrip(map[], Count(l.from));
    }
  }

  /** How much of its way a copy still has ahead of it: retries left first, then its stage. */
  function RetriesLeft(p: RetryPolicy, l: Lineage): nat {
    AtLeastZero(p.MaxRetries() - Count(l))
  }

  function Stage(l: Lineage): nat {
    if l.DeadLettered? then 0 else 1
  }

  predicate Decreases(a0: nat, a1: nat, b0: nat, b1: nat) {
    b0 < a0 || (b0 == a0 && b1 < a1)
  }

  /** A hop that republishes brings the copy strictly closer to the end of its chain. */
  lemma RepublishDecreases(p: RetryPolicy, l: Lineage)
    requires Lawful(p, l) && (l.Retried? || l.DeadLettered?)
    requires p.MaxRetries() <= INT32_MAX && CounterReadable(Root(l))
    ensures Decreases(RetriesLeft(p, l.from), Stage(l.from), RetriesLeft(p, l), Stage(l))
  {
    CounterIsHops(p, l);
    CounterIsHops(p, l.from);
  }

  lemma OneMoreDelay(sum: nat, delay: int, hops: nat, cap: int)
    requires sum * MILLISECOND <= hops * cap && 0 < delay <= cap
    ensures (sum + delay / MILLISECOND) * MILLISECOND <= (hops + 1) * cap
  {
    assert (delay / MILLISECOND) * MILLISECOND <= delay;
    assert (hops + 1) * cap == hops * cap + cap;
  }

  /** The delays scheduled along a chain add up to no more than one capped delay per retry hop. */
  lemma {:induction false} ScheduledDelayBounded(p: RetryPolicy, l: Lineage)
    requires Lawful(p, l)
    ensures ScheduledDelay(l) * MILLISECOND <= Hops(l) * p.Cap()
  {
    if !l.Published? {
      ScheduledDelayBounded(p, l.from);
      if l.Retried? {
        var delay := p.Delay(Count(l.from) + 1);
        DelayInRange(p, Count(l.from) + 1);
        OneMoreDelay(ScheduledDelay(l.from), delay, Hops(l.from), p.Cap());
      }
    }
  }

  lemma HopsTimesCap(hops: nat, bound: nat, cap: int)
    requires hops <= bound && cap >= 0
    ensures hops * cap <= bound * cap
  {
  }

  // ----- The theorems, over every run -----

  /** Bounded retries, for one lawful chain. */
  ghost predicate Bounded(p: RetryPolicy, l: Lineage) {
    var start := RetryCount(Root(l).headers);
    && Count(l) == start + Hops(l)
    && Hops(l) <= AtLeastZero(p.MaxRetries() - start)
    && DlqHops(l) <= 1
    && (l.Retried? || l.DeadLettered? ==>
        Decreases(RetriesLeft(p, l.from), Stage(l.from), RetriesLeft(p, l), Stage(l)))
  }

  lemma LawfulIsBounded(p: RetryPolicy, l: Lineage)
    requires Lawful(p, l) && p.MaxRetries() <= INT32_MAX && CounterReadable(Root(l))
    ensures Bounded(p, l)
  {
    CounterIsHops(p, l);
    if l.Retried? || l.DeadLettered? {
      RepublishDecreases(p, l);
    }
  }

  /**
   * Bounded retries: along every chain the counter rises by one per retry hop, never exceeds
   * the policy's limit, and each republish decreases the (retries left, stage) measure.
   */
  lemma BoundedRetries(sub: Subscription, es: seq<Event>, c: nat)
    requires sub.retry.Some? && sub.NamesDistinct() && sub.CounterFits()
    requires c < |Run(sub, EMPTY, es).cells|
    requires CounterReadable(Root(Run(sub, EMPTY, es).cells[c].lineage))
    ensures Bounded(sub.retry.value, Run(sub, EMPTY, es).cells[c].lineage)
  {
    AllLawfulHolds(sub, es);
    assert CellLawful(sub, Run(sub, EMPTY, es), c);
    LawfulIsBounded(sub.retry.value, Run(sub, EMPTY, es).cells[c].lineage);
  }

  /** Every hop of every copy preserves the application content of the message its producer published. */
  lemma ContentPreserved(sub: Subscription, es: seq<Event>, c: nat)
    requires sub.NamesDistinct() && c < |Run(sub, EMPTY, es).cells|
    ensures var s := Run(sub, EMPTY, es);
      var cell := s.cells[c];
      && cell.origin < |s.cells| && s.cells[cell.origin].lineage.Published?
      && SameContent(s.cells[cell.origin].lineage.msg, cell.lineage.msg)
  {
    AllLawfulHolds(sub, es);
    var s := Run(sub, EMPTY, es);
    assert CellLawful(sub, s, c);
    if sub.retry.Some? {
      LawfulKeepsContent(sub.retry.value, s.cells[c].lineage);
    }
  }

  /**
   * Nothing parks in the delay queue: every copy there, whatever its counter, can expire after at
   * most the backoff it was given, and its chain has scheduled no more than one cap per retry hop.
   */
  lemma NothingParks(sub: Subscription, es: seq<Event>, c: nat)
    requires sub.retry.Some? && sub.NamesDistinct()
    requires c < |Run(sub, EMPTY, es).cells| && Run(sub, EMPTY, es).cells[c].place.InRetry?
    ensures var l := Run(sub, EMPTY, es).cells[c].lineage;
      var p := sub.retry.value;
      && l.Retried?
      && Enabled(sub, Run(sub, EMPTY, es), Expire(c, map[]))
      && l.msg.expiration == Some(p.Delay(Count(l.from) + 1) / 1_000_000)
      && l.msg.expiration.value * 1_000_000 <= p.Cap()
      && ScheduledDelay(l) * MILLISECOND <= Hops(l) * p.Cap()
  {
    AllLawfulHolds(sub, es);
    assert CellLawful(sub, Run(sub, EMPTY, es), c);
    var l := Run(sub, EMPTY, es).cells[c].lineage;
    var p := sub.retry.value;
    DelayInRange(p, Count(l.from) + 1);
    ScheduledDelayBounded(p, l);
  }

  /** With counters in the int32 range the bound is the policy's own: its limit times its cap. */
  lemma TotalDelayBounded(sub: Subscription, es: seq<Event>, c: nat)
    requires sub.retry.Some? && sub.NamesDistinct() && sub.CounterFits()
    requires c < |Run(sub, EMPTY, es).cells|
    requires CounterReadable(Root(Run(sub, EMPTY, es).cells[c].lineage))
    ensures var l := Run(sub, EMPTY, es).cells[c].lineage;
      var p := sub.retry.value;
      ScheduledDelay(l) * MILLISECOND <= AtLeastZero(p.MaxRetries() - RetryCount(Root(l).headers)) * p.Cap()
  {
    AllLawfulHolds(sub, es);
    assert CellLawful(sub, Run(sub, EMPTY, es), c);
    var l := Run(sub, EMPTY, es).cells[c].lineage;
    var p := sub.retry.value;
    CounterIsHops(p, l);
    ScheduledDelayBounded(p, l);
    HopsTimesCap(Hops(l), AtLeastZero(p.MaxRetries() - RetryCount(Root(l).headers)), p.Cap());
  }

  // ----- Where the 32-bit counter stops counting -----

  /** A retry of a message with these headers is read back one higher than before. */
  predicate Rises(h: Table) {
    RetryCount(Stamped(h, RetryCount(h) + 1)) == RetryCount(h) + 1
  }

  /** Per message, a retry raises the counter exactly when the new count is an int32. */
  lemma RetryRisesIff(h: Table)
    ensures Rises(h) <==> INT32_MIN - 1 <= RetryCount(h) < INT32_MAX
  {
    CounterRoundTrip(h, RetryCount(h) + 1);
  }

  /** The only retries a policy schedules that fail to count are those of counters below the int32 range. */
  ghost predicate OnlyLowCountersFail(p: RetryPolicy) {
    forall h: Table {:trigger Rises(h)} :: RetryCount(h) < p.MaxRetries() ==> (Rises(h) <==> RetryCount(h) >= INT32_MIN - 1)
  }

  /** Per policy, that is so exactly when the retry limit fits in 32 bits. */
  lemma CounterRisesIff(p: RetryPolicy)
    ensures OnlyLowCountersFail(p) <==> p.MaxRetries() <= INT32_MAX
  {
    if p.MaxRetries() <= INT32_MAX {
      forall h: Table | RetryCount(h) < p.MaxRetries()
        ensures Rises(h) <==> RetryCount(h) >= INT32_MIN - 1
      {
        RetryRisesIff(h);
      }
    } else {
      CounterWraps(p);
      assert !Rises(map[RETRY_HEADER := I32(INT32_MAX)]);
    }
  }

  /** Past that limit a message at the largest int32 count is retried with its counter wrapped negative. */
  lemma CounterWraps(p: RetryPolicy)
    requires p.MaxRetries() > INT32_MAX
    ensures var h: Table := map[RETRY_HEADER := I32(INT32_MAX)];
      && RetryCount(h) == INT32_MAX < p.MaxRetries()
      && RetryCount(Stamped(h, RetryCount(h) + 1)) == INT32_MIN
  {
  }

  /** Under every policy, a message whose producer counted far below the int32 range is retried and then counted as 1. */
  lemma LowCounterMisread(p: RetryPolicy)
    ensures var h: Table := map[RETRY_HEADER := I64(-0x2_0000_0000)];
      && RetryCount(h) < p.MaxRetries()
      && RetryCount(Stamped(h, RetryCount(h) + 1)) == 1
  {
  }
}
