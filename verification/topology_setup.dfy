/** Setting up topology call by call, as Start and bindAndConsume do it, stopping at the first failure. */
module TopologySetup {
  import opened Wrappers
  import opened Subscriptions
  import opened Components
  import opened Lifecycle
  import opened LifecycleTopology

  /** A broker channel: the calls that succeeded on it, and how it will answer the next ones. */
  class Channel {
    var log: seq<Op>
    var answers: seq<bool>

    constructor (answers: seq<bool>)
      ensures log == [] && this.answers == answers
    {
      log := [];
      this.answers := answers;
    }

    method Call(op: Op) returns (ok: bool)
      modifies this
      ensures log == if ok then old(log) + [op] else old(log)
    {
      ok := answers != [] && answers[0];
      if ok {
        log := log + [op];
      }
      if answers != [] {
        answers := answers[1..];
      }
    }
  }

  /** The calls made so far are a prefix of those wanted, and all of them just when nothing failed. */
  predicate MadeOf(before: seq<Op>, now: seq<Op>, wanted: seq<Op>, ok: bool) {
    && before <= now
    && now[|before|..] <= wanted
    && (ok <==> now[|before|..] == wanted)
  }

  lemma CutShort(before: seq<Op>, part: seq<Op>, wanted: seq<Op>)
    requires part <= wanted && part != wanted
    ensures MadeOf(before, before + part, wanted, false)
  {
    assert (before + part)[|before|..] == part;
  }

  /** The next of the calls wanted has been made. */
  lemma OneMore(before: seq<Op>, wanted: seq<Op>, k: nat)
    requires k < |wanted|
    ensures before + wanted[..k] + [wanted[k]] == before + wanted[..k + 1]
  {
  }

  /**
   * Declare a subscription's queues, bind its work queue and start consuming. It succeeds exactly when
   * all these calls did, in this order; a retry policy's delay queue dead-letters to the work queue.
   */
  method BindAndConsume(ch: Channel, sub: Subscription) returns (ok: bool)
    modifies ch
    ensures MadeOf(old(ch.log), ch.log, Ops(SubItem(sub)), ok)
    ensures sub.retry.Some? ==> (ok <==> ch.log == old(ch.log) + [
      DeclareDelayQueue(sub.retry.value.RetryQueueFor(sub.queue), sub.queue),
      DeclareDlq(sub.retry.value.DlqFor(sub.queue)),
      DeclareWork(sub.queue, sub.queueArgs), Bind(sub.queue, sub.routingKey, sub.exchange), Consume(sub.queue)])
    ensures sub.retry.None? ==> (ok <==> ch.log == old(ch.log) + [
      DeclareWork(sub.queue, sub.queueArgs), Bind(sub.queue, sub.routingKey, sub.exchange), Consume(sub.queue)])
  {
    ghost var before, wanted, k := ch.log, Ops(SubItem(sub)), 0;
    assert before == before + wanted[..0];
    if sub.retry.Some? {
      ok := ch.Call(DeclareDelayQueue(sub.retry.value.RetryQueueFor(sub.queue), sub.queue));
      if !ok {
        CutShort(before, wanted[..0], wanted);
        return;
      }
      OneMore(before, wanted, 0);
      ok := ch.Call(DeclareDlq(sub.retry.value.DlqFor(sub.queue)));
      if !ok {
        CutShort(before, wanted[..1], wanted);
        return;
      }
      OneMore(before, wanted, 1);
      k := 2;
    }
    ok := ConsumeFrom(ch, sub, before, k);
  }

  /** The part of bindAndConsume that every subscription goes through. */
  method ConsumeFrom(ch: Channel, sub: Subscription, ghost before: seq<Op>, ghost k: nat) returns (ok: bool)
    requires k + 3 == |Ops(SubItem(sub))| && ch.log == before + Ops(SubItem(sub))[..k]
    modifies ch
    ensures MadeOf(before, ch.log, Ops(SubItem(sub)), ok)
  {
    ghost var wanted := Ops(SubItem(sub));
    ok := ch.Call(DeclareWork(sub.queue, sub.queueArgs));
    if !ok {
      CutShort(before, wanted[..k], wanted);
      return;
    }
    OneMore(before, wanted, k);
    ok := ch.Call(Bind(sub.queue, sub.routingKey, sub.exchange));
    if !ok {
      CutShort(before, wanted[..k + 1], wanted);
      return;
    }
    OneMore(before, wanted, k + 1);
    ok := ch.Call(Consume(sub.queue));
    if !ok {
      CutShort(before, wanted[..k + 2], wanted);
      return;
    }
    OneMore(before, wanted, k + 2);
    assert wanted[..k + 3] == wanted && ch.log[|before|..] == wanted;
  }

  method DeclareExchanges(ch: Channel, exchanges: seq<Exchange>) returns (ok: bool)
    modifies ch
    ensures MadeOf(old(ch.log), ch.log, ExchangeOps(exchanges), ok)
  {
    var i := 0;
    while i < |exchanges|
      invariant 0 <= i <= |exchanges|
      invariant ch.log == old(ch.log) + ExchangeOps(exchanges[..i])
    {
      assert ExchangeOps(exchanges[..i + 1]) == ExchangeOps(exchanges[..i]) + [DeclareExchange(exchanges[i])];
      assert ExchangeOps(exchanges)[..i] == ExchangeOps(exchanges[..i]);
      ok := ch.Call(DeclareExchange(exchanges[i]));
      if !ok {
        return;
      }
      i := i + 1;
    }
    assert exchanges[..i] == exchanges;
    ok := true;
  }

  /** Two stretches of calls in a row make one. */
  lemma Chain(before: seq<Op>, first: seq<Op>, now: seq<Op>, second: seq<Op>, ok: bool)
    requires MadeOf(before + first, now, second, ok)
    ensures MadeOf(before, now, first + second, ok)
  {
    var part := now[|before + first|..];
    assert now == before + first + part;
    assert now[|before|..] == first + part;
  }

  /** Falling short of the first stretch is falling short of the whole. */
  lemma FallsShort(before: seq<Op>, now: seq<Op>, first: seq<Op>, second: seq<Op>)
    requires MadeOf(before, now, first, false)
    ensures MadeOf(before, now, first + second, false)
  {
  }

  /** What is still to do after the first subscriptions. */
  lemma {:induction false} SubOpsSplit(subs: seq<Subscription>, i: nat) returns (rest: seq<Op>)
    requires i <= |subs|
    ensures SubOps(subs) == SubOps(subs[..i]) + rest
    decreases |subs| - i
  {
    if i == |subs| {
      assert subs[..i] == subs;
      rest := [];
    } else {
      var more := SubOpsSplit(subs, i + 1);
      SubOpsSnoc(subs, i);
      rest := Ops(SubItem(subs[i])) + more;
      Assoc(SubOps(subs[..i]), Ops(SubItem(subs[i])), more);
    }
  }

  method BindSubscriptions(ch: Channel, subs: seq<Subscription>) returns (ok: bool)
    modifies ch
    ensures MadeOf(old(ch.log), ch.log, SubOps(subs), ok)
  {
    var i := 0;
    while i < |subs|
      invariant 0 <= i <= |subs|
      invariant ch.log == old(ch.log) + SubOps(subs[..i])
    {
      ok := BindAndConsume(ch, subs[i]);
      Chain(old(ch.log), SubOps(subs[..i]), ch.log, Ops(SubItem(subs[i])), ok);
      SubOpsSnoc(subs, i);
      if !ok {
        ghost var rest := SubOpsSplit(subs, i + 1);
        FallsShort(old(ch.log), ch.log, SubOps(subs[..i + 1]), rest);
        return;
      }
      i := i + 1;
    }
    assert subs[..i] == subs;
    ok := true;
  }

  /** How far Start gets on an open channel. */
  datatype Reached = StuckDeclaring | StuckBinding | Complete

  /**
   * The connected part of Start up to ready(): every exchange registered, then every subscription.
   * It goes on to call ready() exactly when every call was made in this order; the dead consumers
   * are reset exactly when the exchanges were declared; nothing else in the component changes.
   */
  method Connect(c: Component, ch: Channel) returns (reached: Reached)
    requires c.Valid()
    modifies c, ch
    ensures MadeOf(old(ch.log), ch.log, ExchangeOps(old(c.exchanges)) + SubOps(old(c.subs)), reached.Complete?)
    ensures reached.StuckDeclaring? <==> !(old(ch.log) + ExchangeOps(old(c.exchanges)) <= ch.log)
    ensures c.View() == if reached.StuckDeclaring? then old(c.View()) else old(c.View()).(dead := map[])
    ensures c.Valid()
  {
    var exchanges := c.exchanges;
    var ok := DeclareExchanges(ch, exchanges);
    if !ok {
      FallsShort(old(ch.log), ch.log, ExchangeOps(exchanges), SubOps(c.subs));
      return StuckDeclaring;
    }
    assert ch.log == old(ch.log) + ExchangeOps(exchanges);
    var subs := c.subs;
    c.ResetDead();
    ok := BindSubscriptions(ch, subs);
    Chain(old(ch.log), ExchangeOps(exchanges), ch.log, SubOps(subs), ok);
    reached := if ok then Complete else StuckBinding;
  }
}
