/** One Start and one Stop of the RabbitMQ component from beginning to end, undisturbed. */
module StartStop {
  import opened Wrappers
  import opened Components
  import opened Lifecycle
  import opened LifecycleTopology
  import opened TopologySetup

  /** How a Start ends: it could not connect, it got stuck on the way to ready(), or it served. */
  datatype Outcome = NotConnected | Connected(reached: Reached)

  /** Start cleans up after itself only on these two ways out. */
  predicate CleansUp(o: Outcome) {
    o.Connected? && !o.reached.StuckDeclaring?
  }

  /**
   * Start: allocate a run, connect, set up the topology, serve, clean up. It serves exactly when the
   * broker was reached and every call of the topology succeeded in order. It cancels its run context,
   * and empties the context fields, exactly when it served or failed to bind; it leaves its handles
   * in the fields exactly when it served or failed to declare an exchange.
   */
  method Start(c: Component, run: nat, stop: nat, connects: bool, ch: Channel) returns (o: Outcome, cancelled: bool)
    requires c.Valid()
    modifies c, ch
    ensures c.Valid() && (old(c.ch).None? || o.Connected? ==> c.OfOneRun())
    ensures o.Connected? <==> connects
    ensures if connects
      then MadeOf(old(ch.log), ch.log, ExchangeOps(old(c.exchanges)) + SubOps(old(c.subs)), o == Connected(Complete))
      else ch.log == old(ch.log)
    ensures cancelled <==> CleansUp(o)
    ensures c.runCtx == if CleansUp(o) then None else Some(run)
    ensures c.ch == if o.NotConnected? then old(c.ch) else if o.reached.StuckBinding? then None else Some(run)
    ensures c.deadConsumers == if CleansUp(o) then map[] else old(c.deadConsumers)
    ensures c.stopCh == stop && c.exchanges == old(c.exchanges) && c.subs == old(c.subs)
  {
    var local := c.BeginRun(run, stop);
    if !connects {
      return NotConnected, false;
    }
    c.Publish(run);
    var reached := Connect(c, ch);
    cancelled := !reached.StuckDeclaring?;
    if reached.StuckBinding? {
      c.AbandonRun();
    } else if reached.Complete? {
      c.EndRun();
    }
    o := Connected(reached);
  }

  /**
   * Stop: it takes the handles and the cancel out of the fields, and signals the stop channel it found.
   * The channel it closes belongs to the run whose context it cancels, if there is one left to cancel.
   */
  method Stop(c: Component, placeholder: nat) returns (signalled: nat, cancelled: Option<nat>, closed: Option<nat>)
    requires c.Valid()
    modifies c
    ensures c.Valid() && c.OfOneRun() && c.conn.None? && c.ch.None?
    ensures signalled == old(c.stopCh) && cancelled == old(c.runCtx) && closed == old(c.ch)
    ensures old(c.OfOneRun()) && cancelled.Some? && closed.Some? ==> cancelled == closed
    ensures c.exchanges == old(c.exchanges) && c.subs == old(c.subs) && c.deadConsumers == old(c.deadConsumers)
  {
    var conn;
    signalled, conn, closed, cancelled := c.TakeDown(placeholder);
  }

  /**
   * However a Start ends, a Stop after it leaves nothing behind: the run's context has been cancelled
   * by exactly one of the two, handles that Start left in the fields have gone to Stop to close, and
   * the component is fit for the next Start with the same exchanges and subscriptions.
   */
  method StartThenStop(c: Component, run: nat, stop: nat, placeholder: nat, connects: bool, ch: Channel)
    returns (o: Outcome, byStart: bool, byStop: bool, closed: Option<nat>)
    requires c.Valid() && c.ch.None?
    modifies c, ch
    ensures c.Valid() && c.OfOneRun() && c.conn.None? && c.ch.None?
    ensures byStart != byStop && (byStart <==> CleansUp(o))
    ensures closed == if o.Connected? && !o.reached.StuckBinding? then Some(run) else None
    ensures c.exchanges == old(c.exchanges) && c.subs == old(c.subs)
  {
    o, byStart := Start(c, run, stop, connects, ch);
    var signalled, cancelled;
    signalled, cancelled, closed := Stop(c, placeholder);
    byStop := cancelled == Some(run);
  }
}
