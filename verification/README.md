# Verified model of the samsara components

A Dafny model of the parts of samsara-components where ordering, partial failure and arithmetic
matter, with proofs of what those parts promise:

- the RabbitMQ delayed-retry pipeline (delay queue, terminal DLQ, `x-retry-count`) against a broker
  that may lose acks, refuse publishes, expire messages and close channels at any point;
- the RabbitMQ component's concurrent lifecycle: `Start`, any number of `Stop`, `Subscribe` and
  `DeclareExchange` calls, consumer goroutines and `Health`;
- the stop-channel and handle protocol that the pool-like components share, and the gRPC variant in
  which a context watcher is a second way to shut down;
- four smaller loops: backoff, content sniffing with replay, S3 listing, Redis scanning.

## How the model is laid out

A protocol is a state machine: `State`, `Event`, `Enabled`, a next-state function and `Run`. An event
that is not enabled changes nothing, so *every* sequence of events is a run and every theorem that
takes a sequence of events covers every interleaving. Each lock-protected section, broker call and
unlocked check of the source is one step. What a driver or the broker answers is part of the event.

Code that changes state step by step is also written that way, as methods proved against the
functions the state machines use: `Consumers.Consumer` (consumer loop and failure handling),
`Components.Component`, `StopHandshake.Component` and `GrpcServers.Component` (one method per
locked section), `TopologySetup` (the set-up calls of `Start` and `bindAndConsume`), `StartStop` (a
whole `Start` and a whole `Stop`, undisturbed), and the loops of `RetryPolicies`, `Republishing`, `Sniffing` and `Paging`.

| file | content |
|---|---|
| `amqp.dfy`, `subscription.dfy`, `counts.dfy` | message properties, int32 narrowing, subscriptions, counters |
| `retry_policy.dfy` | policy defaults, queue names, backoff |
| `republish.dfy` | cloning a delivery, the counter header |
| `pipeline.dfy` | the retry pipeline as a state machine, and its bookkeeping invariant |
| `pipeline_conservation.dfy` | nothing is lost; how deliveries are settled |
| `pipeline_retries.dfy` | bounded retries, content, delays, and where int32 wraps |
| `pipeline_dlq.dfy` | what is in the DLQ |
| `pipeline_progress.dfy` | a message that keeps failing reaches the DLQ |
| `consumer.dfy` | the consumer goroutine, as code that makes runs of the pipeline |
| `component.dfy`, `lifecycle.dfy` | fields and locked sections; the lifecycle state machine |
| `lifecycle_frames.dfy` | what each party's steps leave alone |
| `lifecycle_contexts.dfy` | whose handles and contexts the fields hold |
| `lifecycle_registration.dfy` | no subscription or exchange is lost in the race with Start |
| `lifecycle_consumers.dfy` | dead-consumer detection, context containment |
| `lifecycle_topology.dfy`, `topology_setup.dfy` | topology before traffic |
| `start_stop.dfy` | one Start and one Stop from beginning to end |
| `lifecycle_limits.dfy` | runs where a guarantee ends |
| `stop_handshake.dfy` | stop channels and handles, many Stops |
| `grpc_server.dfy` | hand-over of the gRPC server |
| `sniff.dfy`, `paging.dfy` | upload sniffing; S3 and Redis cursors |

## Assumptions

- A publish that returns nil has stored the message (the source uses no publisher confirms). One that
  returns an error may or may not have stored it.
- The work queue, retry queue and DLQ have different names where a lemma says `NamesDistinct`;
  `DefaultNamesDistinct` proves it for the default names. `QueueArgs` adds no TTL, limits or
  dead-lettering of its own, nobody else consumes from or deletes the companion queues, and handlers
  do not settle deliveries themselves.
- When the broker dead-letters an expired message it removes the expiration and writes only its own
  `x-death` family of headers.
- Go's `int` is 64 bits. Floating point is modelled by reals.
- There is one `Start` at a time. For RabbitMQ there is also a `Stop` between runs: the next Start
  begins after some Stop whose locked section came when no handles could be stored any more in the
  run before has cancelled what it took (`swept` in `lifecycle.dfy`).

## Results that differ from the documentation

- `x-retry-count` is stored as int32. A retry raises the counter exactly when the counter it starts
  from is in [-2^31 - 1, 2^31 - 2] (`RetryRisesIff`). A counter below that is retried under every
  policy and misread (`LowCounterMisread`); one above it is retried only if the policy's limit exceeds
  2^31 - 1, and then wraps negative (`CounterRisesIff`, `CounterWraps`).
- A republished message keeps its content and headers, but not its content encoding, priority,
  reply-to and user id; it is always persistent, and its TTL is the delay or none. It is the original
  with only the counter stamped exactly when these already agreed (`CloneIsCompleteIff`).
- The run context of a Start that has returned is live exactly when that Start neither reached ready()
  nor failed to bind, its parent is not cancelled, and no Stop has called its cancel
  (`ReturnedCancelledIff`). So a Start that cannot connect, or that fails to declare an exchange, leaves
  it live (`ConnectFailureLeavesContextLive`, `ExchangeFailureLeavesContextLive`), with whatever
  consumers a Subscribe has started under it, until the next Stop (`StartThenStop`).
- A queue is on record as dead exactly when one of its consumers was reported and no later reset took
  effect (`DeadIff`). A consumer that dies between Start's subscription snapshot and its reset of the
  dead consumers is thereby forgotten (`ReportBeforeResetIsLost`); from ready() on it is not
  (`GoneMeansReported`).
- Sniffing lets io.ErrUnexpectedEOF pass, and uses up the report of the end it runs into. A body cut
  short before byte 512 that reports this once and io.EOF afterwards is stored as if it were whole
  (`TruncatedBodyStored`; exactly when, in `BrokenBodyStoredIff`). A reader that repeats its error is
  stored only if it really ended (`RepeatedErrorNeverHidden`).
- A Stop is effective for a Start whose allocation its locked section follows before the next Start's.
  A stop channel that the next Start replaces before any Stop came stays open (`RunChannelFate`).
- A pool that a later Start overwrites before any Stop takes it is never closed; that is the only way
  to lose one (`StoredHandleFate`).

## Model

| member | source | states |
|---|---|---|
| RetryPolicies.Backoff | rabbitmq/messaging.go:123-148 | the loop with its early exit at the cap computes the policy's delay, which the next rows pin down, for every policy and attempt |
| RetryPolicies.ExponentialClosedForm | rabbitmq/messaging.go:140-147 | uncapped, the delay before attempt n is base * multiplier^(n-1), and the base for the first attempt |
| RetryPolicies.ExponentialSteps | rabbitmq/messaging.go:140-147 | attempt by attempt: the base first, then each one times the multiplier |
| RetryPolicies.DelayIsCut | rabbitmq/messaging.go:143-147 | the delay is the whole part of that below the cap, and the cap from there on |
| RetryPolicies.Defaults | rabbitmq/messaging.go:101-139 | what a policy's own fields stand for, defaults included: 3 retries, 1 s, doubled, up to 5 min, `.retry` and `.dlq` |
| RetryPolicies.DefaultSchedule | rabbitmq/messaging.go:123-148 | a default policy waits 1 s, 2 s and 4 s |
| RetryPolicies.DelayInRange | rabbitmq/messaging.go:123-148 | every delay is positive and at most the cap |
| RetryPolicies.DelayMonotone | rabbitmq/messaging.go:123-148 | later retries never wait less |
| RetryPolicies.CapIsAbsorbing | rabbitmq/messaging.go:141-146 | once a delay is at the cap all later ones are |
| RetryPolicies.DefaultNamesDistinct | rabbitmq/messaging.go:108-120 | the default names of work queue, retry queue and DLQ never coincide |
| Republishing.BuildClone | rabbitmq/messaging.go:558-576 | the header-copying loop builds the publishing that Clone describes |
| Republishing.CounterRoundTrip | rabbitmq/messaging.go:559-561 | the counter read back is the counter stamped, if and only if it is in the int32 range |
| Republishing.CloneKeepsContent | rabbitmq/messaging.go:563-573 | a clone has the original's body, types, ids, timestamp, app id and every header but the counter |
| Republishing.CloneIsCompleteIff | rabbitmq/messaging.go:558-576 | it is the original with only the counter stamped exactly when content encoding, priority, reply-to and user id were unset, the original was persistent, and its TTL was already the clone's |
| Consumers.Consumer.MoveOn | rabbitmq/messaging.go:514-549 | choosing DLQ or delayed retry and publishing the clone is the pipeline's Republish step |
| Consumers.Consumer.HandleFailure | rabbitmq/messaging.go:503-554 | without a policy the failed delivery is nacked, requeued unless dropped; with one its clone is published and it is acked exactly if that reported success, else nacked with requeue; these are steps of the pipeline |
| Consumers.Consumer.Handle | rabbitmq/messaging.go:478-484 | the delivery ends settled by the call its verdict asks for, no other delivery or copy is touched, and a copy is added exactly when a failed message was stored on: same content, counter up by one, backoff as TTL, in the retry queue, or unchanged counter, no TTL, in the DLQ if dropped or out of retries |
| Consumers.Consumer.Consume | rabbitmq/messaging.go:454-487 | every turn whose copy is in the work queue makes exactly one delivery, answered as above, and any other turn nothing; the whole is a run of the pipeline, so every theorem about runs applies to it |
| Pipeline.BooksHold | rabbitmq/messaging.go:476-554 | in every run deliveries and copies agree: who holds what, why a copy is gone, and which clone replaced it |
| PipelineConservation.Conservation | rabbitmq/messaging.go:503-554 | at-least-once: in every run each message has a copy in the work queue, unacked, in the retry queue or in the DLQ, unless its handler returned nil for some copy, or, without a policy, rejected it |
| PipelineConservation.PublishedMessageSurvives | rabbitmq/messaging.go:503-554 | the same from the moment of publishing, for every continuation |
| PipelineConservation.SettledExactlyOnce | rabbitmq/messaging.go:476-484 | over any run a delivery gets exactly one Ack or Nack call once its consumer is done with it, and none before |
| PipelineConservation.AckFollowsPublish | rabbitmq/messaging.go:541-553 | a failed delivery is acked only after the publish of its clone returned nil |
| PipelineConservation.VerdictDecidesCall | rabbitmq/messaging.go:478-553 | a plain ack only ever answers nil, an ack after moving and a nack only an error, and requeueing is decided by policy and drop request |
| PipelineRetries.AllLawfulHolds | rabbitmq/messaging.go:514-549 | in every run every copy's whole history consists of hops the policy allows, and it is in the queue its last hop leads to |
| PipelineRetries.BoundedRetries | rabbitmq/messaging.go:514-549 | the counter is the starting value plus the retry hops, which never exceed the limit; at most one DLQ hop; each republish decreases (retries left, stage) |
| PipelineRetries.HopCounterExactIff | rabbitmq/messaging.go:561-561 | a hop counts correctly exactly when its new counter fits in int32 |
| PipelineRetries.RetryRisesIff | rabbitmq/messaging.go:561-591 | per message, whatever its headers: a retry is read back one higher exactly when the new count is an int32 |
| PipelineRetries.CounterRisesIff | rabbitmq/messaging.go:516-561 | per policy: the only retries it schedules that fail to raise the counter are those of counters below the int32 range, if and only if its limit is at most 2^31-1 |
| PipelineRetries.CounterWraps | rabbitmq/messaging.go:561-561 | beyond that a message at 2^31-1 is retried with its counter at -2^31 |
| PipelineRetries.LowCounterMisread | rabbitmq/messaging.go:561-591 | under every policy a counter of -2^33 is retried and read back as 1 |
| PipelineRetries.ContentPreserved | rabbitmq/messaging.go:558-578 | over any number of hops every copy has the application content of the message its producer published |
| PipelineRetries.NothingParks | rabbitmq/messaging.go:534-576 | every copy in the retry queue, whatever its counter, can expire after the backoff it was given, at most the cap; a chain's delays sum to at most one cap per retry hop |
| PipelineRetries.TotalDelayBounded | rabbitmq/messaging.go:534-576 | with counters in the int32 range, to at most the retries the policy allows times the cap |
| PipelineDlq.DlqOnlyFromTerminalFailures | rabbitmq/messaging.go:516-533 | every copy in the DLQ was put there by a failure that asked to drop it or had no retries left, found in the run |
| PipelineDlq.FailureGoesWhereItShould | rabbitmq/messaging.go:518-549 | a failed delivery's clone goes to the DLQ if and only if the failure was terminal, else to the retry queue |
| PipelineDlq.DlqIsTerminal | rabbitmq/messaging.go:516-533 | a copy in the DLQ stays there unchanged through any continuation |
| PipelineDlq.DlqHeaderIsHops | rabbitmq/messaging.go:516-533 | its header is an int32 equal to its retry hops, which are all the policy allows unless it was dropped on request |
| PipelineProgress.FailingMessageReachesDlq | rabbitmq/messaging.go:503-554 | from any copy in the work queue, repeated failures lead to the DLQ after exactly the retries it has left |
| PipelineProgress.FreshMessageGetsAllRetries | rabbitmq/messaging.go:503-554 | a fresh message is dead-lettered after exactly the policy's limit of retries |
| PipelineProgress.LiveCopyReturns | rabbitmq/messaging.go:374-392 | a copy that is delivered or delayed can always come back to the work queue with its content and counter |
| Components.Component.TakeDown | rabbitmq/rabbitmq.go:426-436 | Stop's locked section: what it takes and what it leaves; both handles come together, and nothing of another run stays behind |
| Components.Component.CheckHealth | rabbitmq/rabbitmq.go:483-504 | Health passes exactly when no consumer is recorded dead and both handles are present and open; a dead consumer is reported first, with its reason |
| StartStop.Start | rabbitmq/rabbitmq.go:286-421 | an undisturbed Start serves exactly when it connected and every call of its topology succeeded in order; it cancels and forgets its run context exactly when it served or failed to bind, and leaves its handles in the fields exactly when it served or failed to declare an exchange |
| StartStop.Stop | rabbitmq/rabbitmq.go:425-470 | Stop empties the handles, and the channel it closes and the context it cancels are of one run |
| StartStop.StartThenStop | rabbitmq/rabbitmq.go:286-470 | however Start ends, a Stop after it leaves no handle in the fields, and exactly one of the two has cancelled the run's context |
| LifecycleContexts.ContextsHold | rabbitmq/rabbitmq.go:291-421 | in every run the fields belong to the latest run, whoever pairs a channel with a context pairs those of one run, and contexts of earlier runs are cancelled |
| LifecycleRegistration.NoRegistrationLost | rabbitmq/messaging.go:171-246 | once ready() was called and while the channel is still in the field and open, every Subscribe that returned nil has a consumer of its queue on this run's channel, and every DeclareExchange that did has its exchange declared there |
| LifecycleRegistration.AppliedHasConsumer | rabbitmq/messaging.go:441-487 | a subscription in effect on a channel has a consumer of its queue on that channel |
| LifecycleRegistration.AppliedWasDeclared | rabbitmq/messaging.go:171-188 | an exchange in effect on a channel was declared by a successful call on that channel |
| LifecycleConsumers.OnlyBrokenConsumersReported | rabbitmq/messaging.go:461-476 | a consumer is reported only if someone other than Stop closed its stream; one whose channel Stop closed has a cancelled context and never reports |
| LifecycleConsumers.BrokenConsumerReports | rabbitmq/messaging.go:454-476 | over any run, a consumer whose stream was closed has either reported or has only steps towards its report to take, the next of them enabled, for as long as its context is live |
| LifecycleConsumers.GoneMeansReported | rabbitmq/rabbitmq.go:376-380 | a consumer gone while its context is live is in the dead list, as long as no reset has happened since it was seen alive |
| LifecycleConsumers.ReportIsSticky | rabbitmq/rabbitmq.go:483-504 | a report keeps Health failing until the next Start's reset |
| LifecycleConsumers.DeadIff | rabbitmq/rabbitmq.go:376-515 | a queue is recorded dead exactly when one of its consumers was reported and no reset took effect since |
| LifecycleConsumers.ReturnedCancelledIff | rabbitmq/rabbitmq.go:286-444 | the context of a Start that returned is cancelled exactly when that Start reached ready() or failed to bind, its parent was cancelled, or a Stop that took its cancel has called it |
| LifecycleConsumers.ConsumersContained | rabbitmq/rabbitmq.go:411-420 | every consumer holds the context of its channel's run, cancelled once a Start that reached ready() or failed to bind has returned and before the next run begins |
| LifecycleConsumers.BindFailureCleansUp | rabbitmq/rabbitmq.go:382-401 | a failed bind means ready() is never called for that run, its context is cancelled, all four fields are cleared and its channel is closed |
| LifecycleConsumers.FailedStartCloses | rabbitmq/rabbitmq.go:358-401 | a Start that failed on an open channel has closed it by the time it returns |
| LifecycleConsumers.StopDoesItsWork | rabbitmq/rabbitmq.go:438-470 | every Stop cancels the context it took before it signals, signals before it closes, and in the end has closed the channel it took; a Start waiting on the stop channel it signalled can wake up |
| LifecycleConsumers.CancelledConsumerLeaves | rabbitmq/messaging.go:457-475 | a consumer whose context is cancelled can leave with its next step, without a report unless it had already decided to make one |
| LifecycleTopology.ReadyAfterTopology | rabbitmq/rabbitmq.go:352-404 | when ready() is called, the log shows at rising positions, on this run's channel and nowhere else, Start's calls: each exchange of its snapshot in order, then for each subscription in order the delay queue dead-lettering to the work queue and the DLQ if it has a policy, the work queue with its arguments, the binding, and consume |
| LifecycleTopology.ConsumerAfterTopology | rabbitmq/messaging.go:378-452 | whoever starts a consumer has just made, as its last calls and on the consumer's channel, those five or three calls in order for a registered subscription to its queue |
| TopologySetup.BindAndConsume | rabbitmq/messaging.go:378-452 | it succeeds exactly when delay queue and DLQ (with a policy), work queue, binding and consume were all made in this order, and otherwise stops at the first failure |
| TopologySetup.Connect | rabbitmq/rabbitmq.go:352-404 | Start goes on to ready() exactly when every exchange and subscription was set up in order, and resets the dead consumers exactly when the exchanges were |
| LifecycleLimits.ConnectFailureLeavesContextLive | rabbitmq/rabbitmq.go:318-345 | a run in which a Start that could not connect has returned with its context live and in the fields |
| LifecycleLimits.ExchangeFailureLeavesContextLive | rabbitmq/rabbitmq.go:358-366 | a run in which a failed exchange declaration leaves a consumer with a live context after Start returned |
| LifecycleLimits.ReportBeforeResetIsLost | rabbitmq/rabbitmq.go:371-380 | a run in which a report made before the reset is lost, and the component is healthy without a consumer |
| StopHandshake.Component.TakeDown | postgresql/postgresql.go:319-328 | Stop's locked section: what it takes and what it leaves |
| StopHandshake.NoDoubleClose | postgresql/postgresql.go:330-337 | no stop channel is ever closed twice, over any number of concurrent Stops |
| StopHandshake.CheckStillHoldsAtClose | rabbitmq/rabbitmq.go:447-451 | a Stop that found its channel open still finds it open when it closes it |
| StopHandshake.Handshake | rabbitmq/rabbitmq.go:425-451 | the latest run's stop channel is either in the field, open and held by no one, or out of it and either closed or held by exactly one Stop in flight, never both, and what replaced it is closed |
| StopHandshake.RunChannelFate | postgresql/postgresql.go:267-337 | over every run, each Start's channel: from the first Stop that follows its allocation on it is closed or held by a Stop in flight, and not both; if the next Start comes before any Stop it stays open and no Stop ever has it |
| StopHandshake.NoLostStop | postgresql/postgresql.go:267-337 | once a Stop's locked section follows a Start's allocation, before the next one's, that run's channel is in every continuation closed or held by a Stop in flight |
| StopHandshake.HolderWakesStart | postgresql/postgresql.go:308-337 | the holder's next steps are enough to let the waiting Start return |
| StopHandshake.StartReturnsOnlyWhenStopped | postgresql/postgresql.go:308-312 | without its parent being done, Start returns only after a Stop took its channel and closed it |
| StopHandshake.EarlierStopHarmless | postgresql/postgresql.go:267-270 | a Stop that came before an allocation holds an older channel, in every continuation, and never gets the new one |
| StopHandshake.ClosedAtMostOnce | postgresql/postgresql.go:318-351 | every handle is closed at most once and taken for closing by at most one Stop, which has closed it exactly when it is finished |
| StopHandshake.PingFailureCloses | postgresql/postgresql.go:295-298 | a handle whose ping failed was closed by Start and is never in the field or taken |
| StopHandshake.StoredHandleFate | postgresql/postgresql.go:300-352 | a stored handle is taken by the first Stop that follows; it is lost if and only if another Start stores over it before that |
| StopHandshake.NilUntilNextStore | postgresql/postgresql.go:224-228 | after a Stop's locked section the accessor yields nil until the next store |
| GrpcServers.Component.TakeDown | grpc/grpc.go:363-374 | the locked section that Stop and the context watcher share |
| GrpcServers.SingleHandOver | grpc/grpc.go:286-327 | at most one of any number of Stops and watchers obtains a server; GracefulStop is issued at most once for it, and has been exactly when it was obtained and is no longer held |
| GrpcServers.FailedIff | grpc/grpc.go:335-352 | over every run, a Start is a failure exactly when Serve returned it an error and nobody had obtained its server when it then looked at its flag |
| GrpcServers.QuietServeNeverFails | grpc/grpc.go:335-352 | a Start whose Serve returned nil is never a failure, in any continuation |
| GrpcServers.ServeErrorIsFailureIff | grpc/grpc.go:335-352 | Start returns a Serve error as a failure if and only if nobody had obtained its server |
| GrpcServers.HandedOverNeverFails | grpc/grpc.go:335-352 | once a server was handed over no continuation makes its Start a failure |
| GrpcServers.HealthyIffNotTaken | grpc/grpc.go:409-419 | while Start serves, Health passes exactly as long as nobody has taken the server |
| Sniffing.ReadFull | s3/upload.go:94-99 | for any chunking the head holds the first min(512, n) bytes; it fails with another error than a short body exactly when the reader's own error, before the buffer is full, is neither io.EOF nor io.ErrUnexpectedEOF |
| Sniffing.SniffContentType | s3/upload.go:93-108 | the returned body yields exactly the original bytes, at most 512 were read ahead, the type is SVG if the key or those bytes say so and else the detector's; it fails if and only if an error other than io.EOF and io.ErrUnexpectedEOF comes before byte 512, and uses up the report of an end it runs into |
| Sniffing.SvgKeyIff | s3/upload.go:102-102 | the key says so exactly when it ends in `.svg` in any mix of cases |
| Sniffing.SvgTagIff | s3/upload.go:103-103 | the bytes say so exactly when `<svg` occurs among them in any mix of cases |
| Sniffing.ReadAll | s3/upload.go:107-107 | reading the replaying body to its end, with any buffer size, gives all bytes in order |
| Sniffing.Upload | s3/upload.go:48-85 | an upload stores exactly the bytes the body delivers under the named or detected type and the default ACL; it succeeds exactly when its arguments are there, the engine does not fail and the body's end gets through as io.EOF; otherwise each error is the source's |
| Sniffing.BrokenBodyStoredIff | s3/upload.go:96-107 | when a body that did not end in io.EOF is stored as if it had: exactly when sniffing uses up that report without failing on it and the body reports io.EOF next |
| Sniffing.RepeatedErrorNeverHidden | s3/upload.go:96-107 | a body that repeats its error is accepted exactly when it ended in io.EOF |
| Sniffing.TruncatedBodyStored | s3/upload.go:96-96 | a body cut short after 10 bytes that says so once is stored when sniffed, and refused when the request names its type |
| Paging.ListKeys | s3/operations.go:161-195 | against any server whose pages end, even if it answers the same token differently from call to call: the keys of all pages, each asked for with the token of the one before, up to the first not marked truncated; a failing request fails the listing |
| Paging.AllKeysInOrder | s3/operations.go:183-187 | each key of a listing is that of its own object, in the order of pages and objects, and every object with a key is there |
| Paging.TokensNeverRepeat | s3/operations.go:188-192 | on an unchanging bucket, a listing that ends never has a truncated page without a token, nor with the token of an earlier page |
| Paging.FollowsUnique | s3/operations.go:174-193 | the replies of such a server determine the pages and the end, so those results are unambiguous |
| Paging.Scan | redis/client.go:225-244 | the keys of all batches, each asked for with the cursor of the one before, up to the first zero cursor; or an error and no keys |
| Paging.BatchKeysConcat | redis/client.go:236-236 | those are the keys of one batch after those of the other, each batch's in its own order |
| Paging.ScanFunc | redis/client.go:260-279 | an accepting callback sees exactly Scan's keys in order; one that first fails on call k saw exactly the first k keys and its error is returned unwrapped |
| Paging.AcceptsOrRejects | redis/client.go:268-272 | those two cases are all there is |
| Paging.ScanFuncRefinesScan | redis/client.go:225-279 | both forms run against the same replies give the same keys |

## Left out

- Dialling, TLS, the AWS, pgx, go-redis, Fiber and grpc-go internals, real time, logging and JSON: a driver call is an event that succeeds or fails.
- Handlers themselves, and what a panic in one does: a handler is its verdict. The lifecycle model does not repeat the deliveries that the pipeline model covers.
- Delivery order within a queue, prefetch and redelivery limits: a queue is a set of copies, any of which may be delivered or expire next.
- PipelineConservation.Conservation: without a retry policy a rejected message counts as accounted for, because what happens to it is up to the broker's dead-letter configuration.
- PipelineRetries.TotalDelayBounded: needs counters and limit in the int32 range, as BoundedRetries does; `NothingParks` bounds the delays by the hops without that.
- PipelineRetries.BoundedRetries: asks for a starting counter in the int32 range, which every message without the header has; `HopCounterExactIff` says which single hops go wrong otherwise.
- Republishing.BuildClone: header tables are values here, so that the delivery's own table is not changed holds by construction.
- Consumers.Consumer.Consume: one consumer working alone; interleavings with other consumers, expiry and channel closes are the state machine's.
- PipelineProgress.LiveCopyReturns: that the broker can requeue or expire a copy, not that it will.
- LifecycleConsumers.ConsumersContained: needs the Stop between runs for a run that ended before ready() for another reason than a failed bind.
- StartStop.Start: one Start and one Stop with nothing in between; interleavings are the lifecycle state machine's, and in which order Stop cancels and closes is `OnlyBrokenConsumersReported`'s.
- StopHandshake.Handshake: the RabbitMQ component's stop channel follows this protocol too; its own handles are in the lifecycle model, where closing twice is harmless and not counted.
- GrpcServers: the stop channel is not modelled (waits on it may end at any time), since two parties may check and close it outside the lock; so neither its closing once nor the absence of a lost Stop is claimed there.
- The RabbitMQ dial-timeout path, which leaves a late connection undrained.
- The sqlite, s3, redis and grpcclient repetitions of the handle protocol.
- Sniffing: the standard type detector is a parameter; lower-casing is ASCII, which is enough to find an `.svg` suffix or an `<svg` tag.
- Paging.ListKeys: a server whose pages never end makes the source loop for ever; the contract is for those that do.
- deleteByPrefix counts, presigning, configuration defaults, URI building, metrics, the Prometheus observer, transactions and Fiber routing: easy, or dependent on unseen frameworks.
- Elapsed delay in the retry queue, which depends on head-of-queue expiry; IEEE rounding and NaN in backoff.
