# KafkaFlow consumer session manager, modelled in Dafny

This project models `Consumer`, the class of KafkaFlow that owns one Confluent.Kafka
consumer client on behalf of a configured consumer. The class:

- builds the client lazily on the first consume and subscribes it to the configured topics;
- pulls records in a retry loop that rethrows cancellation, recreates the client after a
  fatal Kafka error (closing it, then waiting 5000 ms), and logs and retries every other error;
- reacts to the client's partitions-assigned, partitions-revoked, error and statistics
  callbacks by updating its `Assignment` and `FlowManager` and fanning out to four ordered
  handler lists;
- derives its `Status` on demand from the flow manager's paused partitions and the assignment.

Files:

- `kafka_types.dfy` (module `KafkaTypes`): partitions, errors, the outcome of one pull
  (`Pulled | Canceled | Failed`), the outcome of the recreate delay (`Elapsed | DelayCanceled`),
  the configuration and the handler entries.
- `status.dfy` (module `StatusRule`): the status rule as a function, and what its count
  comparison means in terms of sets of partitions.
- `events.dfy` (module `Events`): the observable side effects as a trace of events (client
  built, subscribed, closed, logged, delay started, flow manager created or disposed, handler
  invoked), and the fan-out every `List.ForEach` performs.
- `consume_loop.dfy` (module `ConsumeLoop`): the retry loop of `ConsumeAsync` as a function
  `Loop` of the attempts the environment plays, with lemmas on how it ends, what it logs,
  closes and subscribes.
- `consumer.dfy` (module `Consumers`): the classes `FlowManager` and `Consumer`. The
  consumer's mutable state is `transport` (the nullable client), `assignment`, `flowManager`
  and the four handler lists. Its methods change them in place and are proved against the
  functions above. Each method records its side effects in a ghost `trace`.

How the model stands in for what it cannot see:

- The broker client is a value `Transport(client, subscription)` that is present or absent.
  The identity a freshly built client reports (name, member id) comes in as a parameter.
- Each iteration of the consume loop is an `Attempt`. An attempt gives the identity the
  client gets if it is built in that iteration, the outcome of the pull, and how the delay
  ends if the pull fails fatally.
- A handler is an opaque identifier. An invocation is recorded together with the state the
  handler can observe while it runs (the assignment, and whether there is a flow manager).
  This is how the model states which state change happens before the handlers run.

Points where the code behaves in ways one might not expect, and which the model follows:

- The revoked callback disposes and clears the flow manager and empties the assignment
  *before* it invokes the revoked handlers (`src/KafkaFlow/Consumers/Consumer.cs:173-178`).
  The handlers therefore see no flow manager and an empty assignment.
- The flow manager and a non-empty assignment do not share a lifetime. An assignment of no
  partitions still creates a flow manager, and `Status` is then `Running`.
  `InvalidateConsumer` clears neither the flow manager nor the assignment. What does hold,
  as part of `Consumer.Valid`, is the one direction: no flow manager means an empty assignment.
- The assigned callback replaces the current flow manager without disposing it.
- The revoked callback dereferences the flow manager first, so without one it throws
  (`NullReferenceThrown`) before changing anything.

## Model

| member | source | states |
|---|---|---|
| `StatusRule.DeriveStatus` | src/KafkaFlow/Consumers/Consumer.cs:63-81 | Stopped exactly when there is no flow manager; Running exactly when nothing is paused (even with an empty assignment); Paused exactly when a non-zero paused count equals the assignment count; PartiallyRunning otherwise |
| `StatusRule.PausedCountReflectsPausedSet` | src/KafkaFlow/Consumers/Consumer.cs:72-79 | when the paused partitions are distinct assigned partitions, the count comparison says whether none (Running), all (Paused), or some but not all (PartiallyRunning) of the assigned partitions are paused |
| `Consumers.Consumer.Status` | src/KafkaFlow/Consumers/Consumer.cs:63-81 | Stopped exactly when there is no flow manager; with one, Running exactly when it has nothing paused, Paused exactly when it has paused as many partitions as are assigned (and at least one), PartiallyRunning exactly when it has paused some but not as many as are assigned |
| `Events.FanOut` | src/KafkaFlow/Consumers/Consumer.cs:168 | a fan-out invokes every handler of the list exactly once, in list order, each with the same payload and seeing the same state |
| `Events.Adapt` | src/KafkaFlow/Consumers/Consumer.cs:35-48 | the constructor's handler list holds one adapter per configuration-declared handler, in declaration order |
| `Events.ConfiguredHandlersRunFirst` | src/KafkaFlow/Consumers/Consumer.cs:35-48 | on a list whose configuration-declared handlers lead, a fan-out invokes all of those first, in declaration order, and the later-registered handlers after them |
| `Events.FanOutSnoc` | src/KafkaFlow/Consumers/Consumer.cs:83-84 | registering one more handler adds exactly one invocation, at the end of every later fan-out, and leaves the earlier invocations as they were |
| `Consumers.Consumer.constructor` | src/KafkaFlow/Consumers/Consumer.cs:26-49 | the statistics, assigned and revoked lists hold exactly the adapters of the configuration's handlers in configuration order; the error list is empty; there is no client, no flow manager and an empty assignment |
| `Consumers.Consumer.RegisterConfiguredHandlers` | src/KafkaFlow/Consumers/Consumer.cs:34-47 | the three `foreach` loops of the constructor leave each of the statistics, assigned and revoked lists holding exactly one adapter per configuration-declared handler, in declaration order, and touch no other state |
| `Consumers.Consumer.OnPartitionsAssigned` | src/KafkaFlow/Consumers/Consumer.cs:83-84 | appends the handler to the end of the assigned list and changes nothing else |
| `Consumers.Consumer.OnPartitionsRevoked` | src/KafkaFlow/Consumers/Consumer.cs:86-87 | appends the handler to the end of the revoked list and changes nothing else |
| `Consumers.Consumer.OnError` | src/KafkaFlow/Consumers/Consumer.cs:89-90 | appends the handler to the end of the error list and changes nothing else |
| `Consumers.Consumer.OnStatistics` | src/KafkaFlow/Consumers/Consumer.cs:92-93 | appends the handler to the end of the statistics list and changes nothing else |
| `Consumers.Consumer.Subscription` | src/KafkaFlow/Consumers/Consumer.cs:53 | absent exactly when there is no client; otherwise the configured topics |
| `Consumers.Consumer.MemberId` | src/KafkaFlow/Consumers/Consumer.cs:59 | absent exactly when there is no client |
| `Consumers.Consumer.ClientInstanceName` | src/KafkaFlow/Consumers/Consumer.cs:61 | absent exactly when there is no client |
| `Consumers.Consumer.Notify` | src/KafkaFlow/Consumers/Consumer.cs:168 | the loop of `List.ForEach` appends exactly the fan-out of the list to the trace |
| `Consumers.FlowManager.constructor` | src/KafkaFlow/Consumers/Consumer.cs:161-164 | a new flow manager is not disposed and has nothing paused |
| `Consumers.FlowManager.Dispose` | src/KafkaFlow/Consumers/Consumer.cs:173 | marks the flow manager disposed and counts one more disposal |
| `Consumers.Consumer.PartitionsAssigned` | src/KafkaFlow/Consumers/Consumer.cs:158-169 | a fresh flow manager is present and the assignment equals the given partitions; then every assigned handler is invoked once, in order, with those partitions, and sees that new state; the client and handler lists are untouched |
| `Consumers.Consumer.PartitionsRevoked` | src/KafkaFlow/Consumers/Consumer.cs:170-179 | with a flow manager: it is disposed exactly once and dropped, the assignment becomes empty, and only then is every revoked handler invoked once, in order, seeing no flow manager and no assignment; without one: the callback throws and nothing changes |
| `Consumers.Consumer.ErrorRaised` | src/KafkaFlow/Consumers/Consumer.cs:180 | every error handler is invoked once, in order, with the error; assignment, flow manager and client are unchanged |
| `Consumers.Consumer.StatisticsEmitted` | src/KafkaFlow/Consumers/Consumer.cs:181 | every statistics handler is invoked once, in order, with the statistics; assignment, flow manager and client are unchanged |
| `Consumers.Consumer.EnsureConsumer` | src/KafkaFlow/Consumers/Consumer.cs:145-185 | with a client present nothing happens; without one, a client is built and subscribed exactly once, to the configured topics |
| `Consumers.Consumer.InvalidateConsumer` | src/KafkaFlow/Consumers/Consumer.cs:187-191 | afterwards there is no client; it is closed only if there was one, so a second call closes nothing; assignment and flow manager are left as they are |
| `Consumers.Consumer.Dispose` | src/KafkaFlow/Consumers/Consumer.cs:143 | the same as `InvalidateConsumer`: no client afterwards, at most one close, and a repeated call changes nothing |
| `Consumers.Consumer.TryConsume` | src/KafkaFlow/Consumers/Consumer.cs:115-139 | one loop body: ensure a client, then stop with the record or with cancellation; on a fatal error log, close and start the delay, stopping if the delay is canceled; on any other error log and go on. The client left is none after a fatal error, otherwise the one that was there before, or the one built in this iteration if there was none |
| `Consumers.Consumer.ConsumeAsync` | src/KafkaFlow/Consumers/Consumer.cs:111-141 | the outcome, which client is left (its identity, or none), and the side effects in order are those of `Loop`; the assignment, the flow manager and the handler lists are never touched |
| `ConsumeLoop.IsFatal` | src/KafkaFlow/Consumers/Consumer.cs:125 | the exception filter: only a Kafka exception whose error the client marks fatal takes the recreate path; every other failure falls to the generic handler |
| `ConsumeLoop.BuildEvents` | src/KafkaFlow/Consumers/Consumer.cs:145-184 | the side effects of `EnsureConsumer`: nothing when a client exists, otherwise build, then subscribe to the configured topics |
| `ConsumeLoop.FailureEvents` | src/KafkaFlow/Consumers/Consumer.cs:125-139 | what a failed pull adds: for a fatal error the fatal-error log, the close and the 5000 ms delay, in that order; for any other failure the generic error log |
| `ConsumeLoop.StepEvents` | src/KafkaFlow/Consumers/Consumer.cs:115-139 | the side effects of one iteration: those of `EnsureConsumer`, then those of the failure if the pull failed; a record or a cancellation adds nothing |
| `ConsumeLoop.ClientAfter` | src/KafkaFlow/Consumers/Consumer.cs:117-132 | the client left after one iteration: none after a fatal failure, otherwise the client that was there, or the one built in this iteration |
| `ConsumeLoop.Loop` | src/KafkaFlow/Consumers/Consumer.cs:113-140 | the `while (true)` loop as a function of the attempts played: one iteration per attempt until one ends the loop; its properties are stated by the lemmas below |
| `ConsumeLoop.Processed` | src/KafkaFlow/Consumers/Consumer.cs:113-140 | every attempt before the last one played is retried, and the loop stops before the attempts run out only on one that ends it (a record, a canceled pull, or a fatal error followed by a canceled delay) |
| `ConsumeLoop.LoopOutcome` | src/KafkaFlow/Consumers/Consumer.cs:111-141 | the loop returns a record only from a successful pull and that pull's record; it ends canceled exactly on a canceled pull or a canceled delay; `Pending` only when every attempt was retried; a client is left unless the last attempt failed fatally |
| `ConsumeLoop.StepCounts` | src/KafkaFlow/Consumers/Consumer.cs:115-139 | one iteration logs once exactly when the pull failed, closes once exactly when the failure was fatal, and subscribes (to the configured topics) once exactly when it started without a client |
| `ConsumeLoop.LoopLogs` | src/KafkaFlow/Consumers/Consumer.cs:121-139 | the loop logs exactly as many times as the pulls it plays failed; a canceled pull is never logged |
| `ConsumeLoop.LoopCloses` | src/KafkaFlow/Consumers/Consumer.cs:125-135 | the loop closes the client exactly as many times as the pulls it plays failed fatally; a non-fatal error never closes it |
| `ConsumeLoop.LoopSubscribes` | src/KafkaFlow/Consumers/Consumer.cs:117 | the loop subscribes once if it started without a client, plus once after every fatal failure it goes round from, and at no other time |
| `ConsumeLoop.LoopSubscribesConfiguredTopics` | src/KafkaFlow/Consumers/Consumer.cs:184 | every subscription the loop makes is to the configured topics |
| `ConsumeLoop.LoopKeepsClient` | src/KafkaFlow/Consumers/Consumer.cs:145-150 | a loop that starts with a client and plays no fatal failure ends with that same client: `EnsureConsumer` returns early and nothing else replaces it |
| `ConsumeLoop.LoopBuildsFirstClient` | src/KafkaFlow/Consumers/Consumer.cs:152-184 | a loop that starts without a client and plays no fatal failure ends with the client built in its first iteration |
| `ConsumeLoop.ConsumedKeepsClient` | src/KafkaFlow/Consumers/Consumer.cs:145-150 | a call that returned a record leaves its client, so a following call whose pull succeeds neither builds nor subscribes and keeps that same client: consecutive successful consumes subscribe once |

## Left out

- `GetPosition`, `GetWatermarkOffsets`, `QueryWatermarkOffsets`, `OffsetsForTimes` and `Commit` (`src/KafkaFlow/Consumers/Consumer.cs:95-109`) only pass the call on to the Confluent.Kafka client, which is not part of this model.
- The Confluent.Kafka client itself (`Build`, `Subscribe`, `Consume`, `Close`) is a foreign library. The model keeps only whether a client is present, its identity, its subscription, and a trace of build, subscribe and close. Nothing the client does on its own is modelled, such as firing callbacks from `Close`.
- Consumers.Consumer.InvalidateConsumer, Consumers.Consumer.Dispose, Consumers.Consumer.ConsumeAsync: `Close` is taken never to throw. If it did, the client would stay set (`src/KafkaFlow/Consumers/Consumer.cs:189-190`), a second `Dispose` would call `Close` again, and inside the fatal-error handler (line 132) the exception would escape `ConsumeAsync`, since the sibling `catch (Exception)` does not catch it.
- Consumers.Consumer.EnsureConsumer: `Build` and `Subscribe` are taken never to throw. A `Subscribe` failure at line 184 would leave a built client that is not subscribed, and line 147 would then never subscribe it; `Consumer.Valid` excludes that state.
- The broker callbacks are separate atomic methods that the environment calls. When they fire during `Consume` is up to the client. Concurrency between them and readers of `Status` or `Assignment` is not modelled.
- Handlers are opaque. The model records each invocation, but not what a handler does. In the model a handler neither changes the consumer nor throws. The dependency resolver and the client argument passed to handlers are not modelled.
- `ConsumerFlowManager` is not part of this model. It is an object with its paused partitions and a disposed flag. `FlowManager.SetPausedPartitions` stands in for its pause and resume policy. A new flow manager is taken to start with nothing paused.
- `Configuration.GetKafkaConfig()` and the translation of the configuration into client settings are not part of this model. Neither is the configuration builder in `src/KafkaFlow.Abstractions/Configuration/IConsumerConfigurationBuilder.cs`, which declares methods and has no behaviour to check.
- Logging through `ILogHandler` is a `Logged(message, failure)` event in the trace, with the two messages the source uses.
- `Task.Delay(5000, …)` is a `DelayStarted(5000)` event followed by the attempt's delay outcome. No wall-clock time is modelled.
- ConsumeAsync: `while (true)` is played against a finite sequence of attempts. When they run out while the loop would still retry, the result is `Pending`. The model says nothing about what happens after that.
