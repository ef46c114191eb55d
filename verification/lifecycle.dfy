/**
 * The RabbitMQ component's concurrent lifecycle as a state machine. Each lock-protected section,
 * broker call and check is one atomic step; there is one Start at a time, with a Stop between
 * runs, and any number of Stops, registrations, consumers and broker failures around it. An
 * event that is not enabled leaves the state alone, so any sequence of events is a run.
 */
module Lifecycle {
  import opened Wrappers
  import opened Amqp
  import opened Subscriptions
  import opened Components

  /** A call to the broker that sets up topology. */
  datatype Op =
    | DeclareExchange(e: Exchange)
    | DeclareDelayQueue(name: string, deadLetterTo: string)
    | DeclareDlq(name: string)
    | DeclareWork(name: string, args: Table)
    | Bind(queue: string, key: string, exchange: string)
    | Consume(queue: string)

  datatype Item = ExchangeItem(e: Exchange) | SubItem(sub: Subscription)

  /** The calls made, in order, to put a registered item into effect on a channel. */
  function Ops(item: Item): seq<Op> {
    match item
    case ExchangeItem(e) => [DeclareExchange(e)]
    case SubItem(sub) =>
      (if sub.retry.Some? then
         [DeclareDelayQueue(sub.retry.value.RetryQueueFor(sub.queue), sub.queue),
          DeclareDlq(sub.retry.value.DlqFor(sub.queue))]
       else [])
      + [DeclareWork(sub.queue, sub.queueArgs), Bind(sub.queue, sub.routingKey, sub.exchange), Consume(sub.queue)]
  }

  /** Where the Start in progress is; Idle between Starts. */
  datatype Pc =
    | Idle
    | Dialing        // run allocated, no handles yet
    | Stored         // handles published
    | Declaring      // exchange snapshot taken, declaring its exchanges
    | Snapped        // subscription snapshot taken
    | Binding        // dead consumers reset, binding the snapshot
    | Serving        // ready() called, waiting
    | Leaving        // woken up, run context not yet cancelled
    | Left           // run context cancelled, fields not yet cleared
    | BindFailed     // a bind failed, run context not yet cancelled
    | FailCancelled  // run context cancelled, fields not yet cleared
    | FailCleared    // fields cleared, handles not yet closed

  /** A DeclareExchange or Subscribe call. */
  datatype CallerPc =
    | Appended
    | Read(ch: Option<nat>, ctx: Option<nat>)
    | Working(on: nat, under: Option<nat>, done: nat)
    | Returned(ok: bool)

  datatype Caller = Caller(item: Item, index: nat, pc: CallerPc)

  datatype ConsumerPc = Waiting | SawClose | Marking | Exited(marked: bool)

  /** A consumer goroutine; `revoked` when the broker closed its delivery stream alone. */
  datatype Consumer = Consumer(queue: string, ctx: nat, ch: nat, revoked: bool, pc: ConsumerPc)

  datatype StopPc = Locked | Cancelled | Signalled | Closed

  /** A Stop call; `late` when no handles can be stored any more in the run it interrupted. */
  datatype Stopper = Stopper(signal: nat, ch: Option<nat>, cancel: Option<nat>, run: nat, late: bool, pc: StopPc)

  /** Who closed a channel first. */
  datatype Cause = ByBroker | ByStop | ByStart

  /** An item in effect on the channel of a run. */
  datatype Applied = Applied(exchange: bool, index: nat, ch: nat)

  datatype Actor = Starter(run: nat) | Registrar(caller: nat)

  /** A successful call on the broker: who made it, on the channel of which run, and what it was. */
  datatype Entry = Entry(actor: Actor, ch: nat, op: Op)

  datatype State = State(
    f: Fields,
    run: nat,
    pc: Pc,
    stopLocal: nat,
    exch: Option<seq<Exchange>>,
    snap: Option<seq<Subscription>>,
    i: nat,
    k: nat,
    callers: seq<Caller>,
    consumers: seq<Consumer>,
    stops: seq<Stopper>,
    nextStop: nat,
    closedStops: set<nat>,
    cancelled: set<nat>,
    parentDone: set<nat>,
    closed: map<nat, Cause>,
    applied: set<Applied>,
    log: seq<Entry>,
    readied: set<nat>,
    bindFailed: set<nat>,
    swept: bool)

  const INIT := State(
    NEW, 0, Idle, 0, None, None, 0, 0, [], [], [], 1, {}, {}, {}, map[], {}, [], {}, {}, true)

  datatype Event =
    // the outside world
    | ParentCancelled(r: nat)
    | BrokerClosesChannel(r: nat)
    | BrokerRevokes(consumer: nat)
    // Start
    | BeginStart
    | ConnectFails
    | Store
    | SnapExchanges
    | DeclareOk
    | DeclareFails
    | SnapSubs
    | ResetDead
    | BindOk
    | BindFails
    | FailCancel
    | FailClear
    | FailClose
    | Ready
    | Wake
    | LeaveCancel
    | LeaveClear
    // DeclareExchange and Subscribe
    | Register(item: Item)
    | ReadHandles(caller: nat)
    | CheckHandles(caller: nat)
    | OpOk(caller: nat)
    | OpFails(caller: nat)
    // Stop
    | StopLock
    | StopCancel(stop: nat)
    | StopSignal(stop: nat)
    | StopClose(stop: nat)
    // consumers
    | SeesDone(consumer: nat)
    | SeesClose(consumer: nat)
    | ChecksContext(consumer: nat)
    | MarksDead(consumer: nat)

  predicate StreamClosed(s: State, c: Consumer) {
    c.revoked || c.ch in s.closed
  }

  predicate CallerAt(s: State, c: nat, working: bool) {
    c < |s.callers| && (if working then s.callers[c].pc.Working? else s.callers[c].pc.Read?)
  }

  predicate Enabled(s: State, e: Event) {
    match e
    case ParentCancelled(r) => 0 < r <= s.run
    case BrokerClosesChannel(r) => 0 < r <= s.run
    case BrokerRevokes(i) => i < |s.consumers|
    case BeginStart => s.pc.Idle? && s.swept
    case ConnectFails => s.pc.Dialing?
    case Store => s.pc.Dialing?
    case SnapExchanges => s.pc.Stored?
    case DeclareOk => s.pc.Declaring? && s.exch.Some? && s.i < |s.exch.value| && s.run !in s.closed
    case DeclareFails => s.pc.Declaring? && s.exch.Some? && s.i < |s.exch.value|
    case SnapSubs => s.pc.Declaring? && s.exch.Some? && s.i == |s.exch.value|
    case ResetDead => s.pc.Snapped?
    case BindOk => s.pc.Binding? && s.snap.Some? && s.i < |s.snap.value|
      && s.k < |Ops(SubItem(s.snap.value[s.i]))| && s.run !in s.closed
    case BindFails => s.pc.Binding? && s.snap.Some? && s.i < |s.snap.value|
    case FailCancel => s.pc.BindFailed?
    case FailClear => s.pc.FailCancelled?
    case FailClose => s.pc.FailCleared?
    case Ready => s.pc.Binding? && s.snap.Some? && s.i == |s.snap.value|
    case Wake => s.pc.Serving? && (s.stopLocal in s.closedStops || s.run in s.parentDone)
    case LeaveCancel => s.pc.Leaving?
    case LeaveClear => s.pc.Left?
    case Register(_) => true
    case ReadHandles(c) => c < |s.callers| && s.callers[c].pc.Appended?
    case CheckHandles(c) => CallerAt(s, c, false)
    case OpOk(c) => CallerAt(s, c, true) && s.callers[c].pc.done < |Ops(s.callers[c].item)|
      && s.callers[c].pc.on !in s.closed
    case OpFails(c) => CallerAt(s, c, true)
    case StopLock => true
    case StopCancel(j) => j < |s.stops| && s.stops[j].pc.Locked?
    case StopSignal(j) => j < |s.stops| && s.stops[j].pc.Cancelled?
    case StopClose(j) => j < |s.stops| && s.stops[j].pc.Signalled?
    case SeesDone(i) => i < |s.consumers| && s.consumers[i].pc.Waiting? && s.consumers[i].ctx in s.cancelled
    case SeesClose(i) => i < |s.consumers| && s.consumers[i].pc.Waiting? && StreamClosed(s, s.consumers[i])
    case ChecksContext(i) => i < |s.consumers| && s.consumers[i].pc.SawClose?
    case MarksDead(i) => i < |s.consumers| && s.consumers[i].pc.Marking?
  }

  function CloseChannel(s: State, r: nat, cause: Cause): State {
    if r in s.closed then s else s.(closed := s.closed[r := cause])
  }

  function SetCaller(s: State, c: nat, pc: CallerPc): State
    requires c < |s.callers|
  {
    s.(callers := s.callers[c := s.callers[c].(pc := pc)])
  }

  function SetConsumer(s: State, i: nat, pc: ConsumerPc): State
    requires i < |s.consumers|
  {
    s.(consumers := s.consumers[i := s.consumers[i].(pc := pc)])
  }

  function SetStop(s: State, j: nat, pc: StopPc): State
    requires j < |s.stops|
  {
    s.(stops := s.stops[j := s.stops[j].(pc := pc)])
  }

  /** Put an item into effect: its last call succeeded, and a subscription gets its consumer. */
  function Apply(s: State, item: Item, index: nat, ch: nat, ctx: nat): State {
    var s' := s.(applied := s.applied + {Applied(item.ExchangeItem?, index, ch)});
    if item.SubItem? then s'.(consumers := s.consumers + [Consumer(item.sub.queue, ctx, ch, false, Waiting)]) else s'
  }

  function Append(f: Fields, item: Item): Fields {
    match item
    case ExchangeItem(e) => f.(exchanges := f.exchanges + [e])
    case SubItem(sub) => f.(subs := f.subs + [sub])
  }

  function Registered(f: Fields, item: Item): nat {
    if item.ExchangeItem? then |f.exchanges| else |f.subs|
  }

  /** One more call of Start's binding has succeeded. */
  function BoundOne(s: State): State
    requires Enabled(s, BindOk)
  {
    var item := SubItem(s.snap.value[s.i]);
    var s' := s.(log := s.log + [Entry(Starter(s.run), s.run, Ops(item)[s.k])]);
    if s.k + 1 < |Ops(item)| then s'.(k := s.k + 1)
    else Apply(s'.(i := s.i + 1, k := 0), item, s.i, s.run, s.run)
  }

  /** One more call of a registration has succeeded. */
  function CalledOne(s: State, c: nat): State
    requires Enabled(s, OpOk(c))
  {
    var w := s.callers[c].pc;
    var item := s.callers[c].item;
    var s' := s.(log := s.log + [Entry(Registrar(c), w.on, Ops(item)[w.done])]);
    if w.done + 1 < |Ops(item)| then SetCaller(s', c, w.(done := w.done + 1))
    else SetCaller(Apply(s', item, s.callers[c].index, w.on, if w.under.Some? then w.under.value else 0), c, Returned(true))
  }

  /** A registration looks at the handles it read: nothing to do yet, or a channel to work on. */
  function Checked(s: State, c: nat): CallerPc
    requires Enabled(s, CheckHandles(c))
  {
    var r := s.callers[c].pc;
    if r.ch.None? || r.ch.value in s.closed || (s.callers[c].item.SubItem? && r.ctx.None?) then Returned(true)
    else Working(r.ch.value, r.ctx, 0)
  }

  /** The steps of Start. */
  function NextStart(s: State, e: Event): State
    requires Enabled(s, e)
  {
    match e
    case BeginStart =>
      s.(run := s.run + 1, pc := Dialing, f := s.f.AllocateRun(s.run + 1, s.nextStop), stopLocal := s.nextStop,
         nextStop := s.nextStop + 1, exch := None, snap := None, i := 0, k := 0, swept := false)
    case ConnectFails =>
      s.(pc := Idle)
    case Store =>
      s.(pc := Stored, f := s.f.StoreHandles(s.run))
    case SnapExchanges =>
      s.(pc := Declaring, exch := Some(s.f.exchanges), i := 0)
    case DeclareOk =>
      Apply(s.(i := s.i + 1, log := s.log + [Entry(Starter(s.run), s.run, DeclareExchange(s.exch.value[s.i]))]),
            ExchangeItem(s.exch.value[s.i]), s.i, s.run, s.run)
    case DeclareFails =>
      CloseChannel(s, s.run, ByStart).(pc := Idle)
    case SnapSubs =>
      s.(pc := Snapped, snap := Some(s.f.subs), i := 0, k := 0)
    case ResetDead =>
      s.(pc := Binding, f := s.f.(dead := map[]))
    case BindOk =>
      BoundOne(s)
    case BindFails =>
      s.(pc := BindFailed, bindFailed := s.bindFailed + {s.run})
    case FailCancel =>
      s.(pc := FailCancelled, cancelled := s.cancelled + {s.run})
    case FailClear =>
      s.(pc := FailCleared, f := s.f.ClearAfterBindFailure())
    case FailClose =>
      CloseChannel(s, s.run, ByStart).(pc := Idle)
    case Ready =>
      s.(pc := Serving, readied := s.readied + {s.run})
    case Wake =>
      s.(pc := Leaving)
    case LeaveCancel =>
      s.(pc := Left, cancelled := s.cancelled + {s.run})
    case LeaveClear =>
      s.(pc := Idle, f := s.f.ClearAfterRun())
    case _ => s
  }

  /** The steps of DeclareExchange and Subscribe. */
  function NextCaller(s: State, e: Event): State
    requires Enabled(s, e)
  {
    match e
    case Register(item) =>
      s.(f := Append(s.f, item), callers := s.callers + [Caller(item, Registered(s.f, item), Appended)])
    case ReadHandles(c) =>
      SetCaller(s, c, Read(s.f.ch, s.f.runCtx))
    case CheckHandles(c) =>
      SetCaller(s, c, Checked(s, c))
    case OpOk(c) =>
      CalledOne(s, c)
    case OpFails(c) =>
      SetCaller(s, c, Returned(false))
    case _ => s
  }

  /** The steps of Stop. */
  function NextStop(s: State, e: Event): State
    requires Enabled(s, e)
  {
    match e
    case StopLock =>
      s.(f := s.f.SwapOut(s.nextStop), nextStop := s.nextStop + 1, closedStops := s.closedStops + {s.nextStop},
         stops := s.stops + [Stopper(s.f.stopCh, s.f.ch, s.f.runCancel, s.run, !s.pc.Dialing?, Locked)])
    case StopCancel(j) =>
      var stop := s.stops[j];
      SetStop(s, j, Cancelled).(
        cancelled := if stop.cancel.Some? then s.cancelled + {stop.cancel.value} else s.cancelled,
        swept := s.swept || (stop.late && stop.run == s.run))
    case StopSignal(j) =>
      SetStop(s, j, Signalled).(closedStops := s.closedStops + {s.stops[j].signal})
    case StopClose(j) =>
      var s' := SetStop(s, j, Closed);
      if s.stops[j].ch.Some? then CloseChannel(s', s.stops[j].ch.value, ByStop) else s'
    case _ => s
  }

  /** The steps of the consumers, and of the world around the component. */
  function NextOther(s: State, e: Event): State
    requires Enabled(s, e)
  {
    match e
    case ParentCancelled(r) =>
      s.(cancelled := s.cancelled + {r}, parentDone := s.parentDone + {r})
    case BrokerClosesChannel(r) =>
      CloseChannel(s, r, ByBroker)
    case BrokerRevokes(i) =>
      s.(consumers := s.consumers[i := s.consumers[i].(revoked := true)])
    case SeesDone(i) =>
      SetConsumer(s, i, Exited(false))
    case SeesClose(i) =>
      SetConsumer(s, i, SawClose)
    case ChecksContext(i) =>
      SetConsumer(s, i, if s.consumers[i].ctx in s.cancelled then Exited(false) else Marking)
    case MarksDead(i) =>
      SetConsumer(s, i, Exited(true)).(f := s.f.MarkDead(s.consumers[i].queue, CLOSED_BY_BROKER))
    case _ => s
  }

  predicate OfStart(e: Event) {
    || e.BeginStart? || e.ConnectFails? || e.Store? || e.SnapExchanges? || e.DeclareOk? || e.DeclareFails?
    || e.SnapSubs? || e.ResetDead? || e.BindOk? || e.BindFails? || e.FailCancel? || e.FailClear? || e.FailClose?
    || e.Ready? || e.Wake? || e.LeaveCancel? || e.LeaveClear?
  }

  /** Start up to its subscription snapshot; the rest of Start binds, serves and cleans up. */
  predicate Opening(e: Event) {
    e.BeginStart? || e.ConnectFails? || e.Store? || e.SnapExchanges? || e.DeclareOk? || e.DeclareFails? || e.SnapSubs?
  }

  predicate OfCaller(e: Event) {
    e.Register? || e.ReadHandles? || e.CheckHandles? || e.OpOk? || e.OpFails?
  }

  predicate OfStop(e: Event) {
    e.StopLock? || e.StopCancel? || e.StopSignal? || e.StopClose?
  }

  function Step(s: State, e: Event): State {
    if !Enabled(s, e) then s
    else if OfStart(e) then NextStart(s, e)
    else if OfCaller(e) then NextCaller(s, e)
    else if OfStop(e) then NextStop(s, e)
    else NextOther(s, e)
  }

  function Run(es: seq<Event>): State {
    if es == [] then INIT else Step(Run(es[..|es| - 1]), es[|es| - 1])
  }

  /** Event number i of a run, when it takes effect. */
  predicate Fires(es: seq<Event>, i: nat) {
    i < |es| && Enabled(Run(es[..i]), es[i])
  }
}
