/** The RabbitMQ component's fields and its lock-protected sections, one method each. */
module Components {
  import opened Wrappers
  import opened Amqp
  import opened Subscriptions

  datatype Exchange = Exchange(name: string, kind: string, durable: bool)

  /**
   * The fields guarded by the component's locks. Connections, channels and run contexts are
   * identified by the run that made them; stop channels have identities of their own.
   */
  datatype Fields = Fields(
    conn: Option<nat>,
    ch: Option<nat>,
    stopCh: nat,
    runCtx: Option<nat>,
    runCancel: Option<nat>,
    exchanges: seq<Exchange>,
    subs: seq<Subscription>,
    dead: map<string, string>)
  {
    function AllocateRun(run: nat, stop: nat): Fields {
      this.(stopCh := stop, runCtx := Some(run), runCancel := Some(run))
    }

    function StoreHandles(run: nat): Fields {
      this.(conn := Some(run), ch := Some(run))
    }

    function ClearAfterBindFailure(): Fields {
      this.(conn := None, ch := None, runCtx := None, runCancel := None)
    }

    function ClearAfterRun(): Fields {
      this.(runCtx := None, runCancel := None)
    }

    function SwapOut(placeholder: nat): Fields {
      this.(stopCh := placeholder, conn := None, ch := None)
    }

    function MarkDead(queue: string, reason: string): Fields {
      this.(dead := dead[queue := reason])
    }

    predicate Healthy(connClosed: bool, chClosed: bool) {
      dead == map[] && conn.Some? && !connClosed && ch.Some? && !chClosed
    }
  }

  const NEW := Fields(None, None, 0, None, None, [], [], map[])

  const CLOSED_BY_BROKER := "delivery channel closed by broker"

  datatype Health = Up | ConsumerDead(queue: string, reason: string) | ConnectionClosed | ChannelClosed

  class Component {
    var conn: Option<nat>
    var ch: Option<nat>
    var stopCh: nat
    var runCtx: Option<nat>
    var runCancel: Option<nat>
    var exchanges: seq<Exchange>
    var subs: seq<Subscription>
    var deadConsumers: map<string, string>

    function View(): Fields
      reads this
    {
      Fields(conn, ch, stopCh, runCtx, runCancel, exchanges, subs, deadConsumers)
    }

    /** The two handles come and go together, and so do a run context and its cancel. */
    predicate Valid()
      reads this
    {
      conn == ch && runCancel == runCtx
    }

    /** The handles and the context in the fields are those of one run. */
    predicate OfOneRun()
      reads this
    {
      ch.Some? && runCtx.Some? ==> ch == runCtx
    }

    constructor ()
      ensures View() == NEW && Valid() && OfOneRun()
    {
      conn, ch, runCtx, runCancel := None, None, None, None;
      stopCh := 0;
      exchanges, subs, deadConsumers := [], [], map[];
    }

    /** Start, first section: a fresh stop channel and run context. */
    method BeginRun(run: nat, stop: nat) returns (local: nat)
      requires Valid()
      modifies this
      ensures Valid() && (old(ch).None? ==> OfOneRun())
      ensures View() == old(View()).AllocateRun(run, stop) && local == stop
    {
      stopCh := stop;
      local := stopCh;
      runCtx := Some(run);
      runCancel := Some(run);
    }

    /** Start, second section: publish the connection and channel. */
    method Publish(run: nat)
      requires Valid()
      modifies this
      ensures Valid() && (old(runCtx) == Some(run) ==> OfOneRun())
      ensures View() == old(View()).StoreHandles(run)
    {
      conn := Some(run);
      ch := Some(run);
    }

    /** Start, cleanup after a subscription failed to bind. */
    method AbandonRun()
      requires Valid()
      modifies this
      ensures Valid() && OfOneRun()
      ensures View() == old(View()).ClearAfterBindFailure()
    {
      conn := None;
      ch := None;
      runCtx := None;
      runCancel := None;
    }

    /** Start, last section. */
    method EndRun()
      requires Valid()
      modifies this
      ensures Valid() && OfOneRun()
      ensures View() == old(View()).ClearAfterRun()
    {
      runCtx := None;
      runCancel := None;
    }

    method ResetDead()
      requires Valid()
      modifies this
      ensures Valid() && (old(OfOneRun()) ==> OfOneRun())
      ensures View() == old(View()).(dead := map[])
    {
      deadConsumers := map[];
    }

    method MarkConsumerDead(queue: string, reason: string)
      requires Valid()
      modifies this
      ensures Valid() && (old(OfOneRun()) ==> OfOneRun())
      ensures View() == old(View()).MarkDead(queue, reason)
    {
      deadConsumers := deadConsumers[queue := reason];
    }

    /** Stop's section: take everything there is to shut down, and leave a closed stop channel behind. */
    method TakeDown(placeholder: nat) returns (signal: nat, c: Option<nat>, channel: Option<nat>, cancel: Option<nat>)
      requires Valid()
      modifies this
      ensures Valid() && OfOneRun() && c == channel
      ensures View() == old(View()).SwapOut(placeholder)
      ensures signal == old(stopCh) && c == old(conn) && channel == old(ch) && cancel == old(runCancel)
      ensures stopCh == placeholder && conn.None? && ch.None? && runCtx == old(runCtx) && runCancel == old(runCancel)
    {
      signal := stopCh;
      stopCh := placeholder;
      c := conn;
      channel := ch;
      cancel := runCancel;
      conn := None;
      ch := None;
    }

    method RegisterExchange(e: Exchange)
      requires Valid()
      modifies this
      ensures Valid() && (old(OfOneRun()) ==> OfOneRun())
      ensures View() == old(View()).(exchanges := old(exchanges) + [e])
    {
      exchanges := exchanges + [e];
    }

    method RegisterSubscription(sub: Subscription)
      requires Valid()
      modifies this
      ensures Valid() && (old(OfOneRun()) ==> OfOneRun())
      ensures View() == old(View()).(subs := old(subs) + [sub])
    {
      subs := subs + [sub];
    }

    /** Health fails exactly when a consumer is recorded dead or a handle is missing or closed. */
    method CheckHealth(connClosed: bool, chClosed: bool) returns (h: Health)
      ensures h.Up? <==> deadConsumers == map[] && conn.Some? && !connClosed && ch.Some? && !chClosed
      ensures h.Up? <==> View().Healthy(connClosed, chClosed)
      ensures h.ConnectionClosed? <==> deadConsumers == map[] && (conn.None? || connClosed)
      ensures h.ConsumerDead? ==> h.queue in deadConsumers && deadConsumers[h.queue] == h.reason
      ensures h.ConsumerDead? <==> deadConsumers != map[]
    {
      if deadConsumers.Keys != {} {
        var queue :| queue in deadConsumers;
        return ConsumerDead(queue, deadConsumers[queue]);
      }
      assert deadConsumers == map[];
      if conn.None? || connClosed {
        return ConnectionClosed;
      }
      if ch.None? || chClosed {
        return ChannelClosed;
      }
      return Up;
    }
  }
}
