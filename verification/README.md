# Verification model of the A2A SDK's event, task and Kafka machinery

A Dafny model of the stateful core of the SDK, with proofs about whole runs of it.
`dafny verify dfyconfig.toml` checks everything.

Four subsystems and two small ones are modelled, and linked where the code links them.

* **Kafka request and reply.** `KafkaHandlers.dfy` produces the replies to a request,
  `KafkaTransport.dfy` dispatches and parses them, `Correlation.dfy` is the table that hands
  them to callers (on values), `CorrelationManagers.dfy` the futures, streams and dictionaries
  that implement it in place. `CorrelationRuns.dfy` and `CorrelationCounts.dfy` are about all
  interleavings, `StreamingCalls.dfy` is the loop of a streaming caller, `EndToEnd.dfy` joins
  handler, topic, dispatcher and caller.
* **The event queue tree.** `EventQueues.dfy` works in place on a tree of bounded queues,
  `QueueRuns.dfy` is about all runs of such a tree, on the heap (`Execute`) and as values,
  `EventConsumers.dfy` drains its root.
* **A task as a fold over events.** `Artifacts.dfy`, `TaskFold.dfy` (the server's manager and
  its store), `ClientFold.dfy` (the client's), `TaskMeaning.dfy` (what the folded task is,
  without the fold), `Aggregator.dfy` (splitting the fold between caller and background),
  `Sessions.dfy` (the same turn by turn, interleaved with the agent and its queue),
  `SuspendingStore.dfy` (a disconnection inside a save), `Requests.dfy` (updater, guards, one
  request), `RequestRuns.dfy` (sequences of requests), `WithoutUpdater.dfy` (agents that bypass
  the updater), `Cancellations.dfy` (when a cancellation is answered) and `RequestHandlers.dfy`
  (the handler's methods).
* **Tree transformations.** `Integers.dfy` and `CleanEmpty.dfy` on the trees of `Json.dfy`.
* **The push configuration store.** `PushConfigStore.dfy`.

`Types.dfy` and `Streams.dfy` hold the shared events and the test for a final one.

## How it is built

Every class of the source that updates its fields is a class here. Each of its methods is
proved to have the effect of a function on values (`View()`, or the ghost `Tree`, is the
value of an object), and the promises are proved about those functions as lemmas over runs of
any length. A coroutine section between two suspensions is one step.

Main results: `CorrelationRuns.StreamProjection`, `CorrelationRuns.FutureProjection`,
`CorrelationCounts.CountConserved`, `StreamingCalls.DeliveredIff`, `EndToEnd.StreamEndToEnd`,
`QueueRuns.SubscriberSeesSlice`, `QueueRuns.CloseNowReleases`,
`EventConsumers.ConsumesThroughFirstFinal`, `EventConsumers.YieldsWhatWasPublished`,
`EventConsumers.AgentExceptionIsRaised`, `TaskMeaning.ServerTaskMeans`, `ClientFold.FoldsAgree`,
`Sessions.OutcomeOfAnyRun`, `Sessions.AnswerOfAnyRun`, `RequestRuns.EveryRunServes`,
`RequestRuns.TerminalIsForever`, `RequestRuns.ConversationOnlyGrows`,
`RequestRuns.RunsKeepWhatEnded`, `Cancellations.CancelIsAnsweredIff`,
`Integers.NormalizedPlace`, `Integers.RoundTrip`, `CleanEmpty.FixedPointIffNormal`,
`PushConfigStore.RunKeepsSurvivors`.

## Where the code differs from what one would expect

* A request registers after it was sent, so a reply dispatched earlier is dropped
  (`CorrelationRuns.UnregisteredReplyIsDropped`); stream results start at the registration.
* The caller's loop tests `is_done` before it drains the queue, so items may stay undelivered
  when the terminator arrives (`StreamingCalls.ReplyBeforeFirstTurnIsLost`). A prefix is what
  always holds; `StreamingCalls.DeliveredIff` says exactly when it is everything, and when a
  failure is raised in the caller rather than just ending its loop.
* A cancellation polls a queue of its own that nobody closes, so it is answered if and only if
  its agent publishes something final; one that publishes nothing is never answered, and one
  that publishes more than the queue holds never returns from `cancel`
  (`Cancellations.CancelIsAnsweredIff`, `Cancellations.SilentCancelIsNeverAnswered`).
* A push-config result is tagged with a type the client parses as a message, and never
  reaches its caller (`KafkaTransport.SingleReplyReachesCallerIff`). The list branch calls
  `on_list_task_push_notification_configs`, which no handler defines, so it always answers
  with an error. A `ServerError` made from a bare string cannot be printed, so for an unknown
  method the reply comes from the outer handler and has another text than the code suggests.
* The client never records the status message of the first `Task`, so the two histories agree
  if and only if there was none (`ClientFold.FoldsAgree`).
* A user message is added in memory and written only with the agent's first processed event
  (`RequestRuns.UserMessageIsStoredIff`).
* Terminal states are final because the updater flags them. An agent that goes without it
  keeps an ended state if and only if what is consumed never reports another one afterwards
  (`WithoutUpdater.EndedStateIsKeptIff`); a bare unflagged terminal status can be overwritten
  (`WithoutUpdater.UnflaggedTerminalStatusCanBeOverwritten`).
* A message that names its task and no context runs under a generated context id
  (`Requests.UnnamedContextIsReplaced`); `Requests.RunsUnderOwnContextIff` says exactly when the
  ids agree. The stored task keeps its own all the same (`RequestRuns.TerminalIsForever`).
* In a store whose `save` suspends, a client that disconnects inside it can lose the final
  status (`SuspendingStore.FinalStatusCanBeLost`); an update is made up for exactly when another
  one follows (`SuspendingStore.CancelledSaveIsMadeUpIff`).
* An agent that raises stays listed as running, because awaiting it for the cleanup raises again
  (`RequestHandlers.DefaultRequestHandler.OnMessageSend`).

## Assumptions

The reply topic is FIFO and sends succeed; each request is handled once; correlation and task
ids are fresh. The task store is a map of values, as the database-backed store is, and its
`get` and `save` do not suspend, as those of the in-memory store do not (`SuspendingStore.dfy` is
about one whose `save` does). Requests on the server run one after another. Clocks, id
generators, validation and what an agent does are parameters.

## Model

| member | source | states |
|---|---|---|
| `CorrelationManagers.StreamingFuture.Put` | src/a2a/client/transports/kafka_correlation.py:18-21 | An item is queued exactly when the stream is not done; queue and log grow by that item and nothing else. |
| `CorrelationManagers.StreamingFuture.Get` | src/a2a/client/transports/kafka_correlation.py:23-27 | A failed stream raises even when items are queued; otherwise the oldest item is removed and returned, or the caller has to wait. |
| `CorrelationManagers.StreamingFuture.Resume` | src/a2a/client/transports/kafka_correlation.py:27 | A get that had to wait takes the oldest item without looking at the exception again. |
| `CorrelationManagers.StreamingFuture.SetException` | src/a2a/client/transports/kafka_correlation.py:29-32 | The stream fails and is done; what was queued stays. |
| `CorrelationManagers.StreamingFuture.SetDone` | src/a2a/client/transports/kafka_correlation.py:34-36 | The stream is done; what was queued stays. |
| `CorrelationManagers.CorrelationManager.Register` | src/a2a/client/transports/kafka_correlation.py:59-66 | A fresh waiting future is entered under the id; every other registration and object is unchanged. |
| `CorrelationManagers.CorrelationManager.RegisterStreaming` | src/a2a/client/transports/kafka_correlation.py:68-73 | A fresh open stream is entered under the id; every other registration and object is unchanged. |
| `CorrelationManagers.CorrelationManager.ResolvePending` | src/a2a/client/transports/kafka_correlation.py:83-86 | The plain request is popped whatever its state, and its future resolved exactly if its caller still waits. |
| `CorrelationManagers.CorrelationManager.Complete` | src/a2a/client/transports/kafka_correlation.py:75-94 | The new table is the one the reply should give, over the real dictionaries and objects; true is returned exactly when somebody received the item. |
| `CorrelationManagers.CorrelationManager.CompleteStreaming` | src/a2a/client/transports/kafka_correlation.py:96-103 | The stream is removed and marked done, and found exactly when it was registered. |
| `CorrelationManagers.CorrelationManager.EndStreaming` | src/a2a/client/transports/kafka_correlation.py:114-118 | The stream is removed and failed, or finished, and no other stream is touched. |
| `CorrelationManagers.CorrelationManager.CompleteWithException` | src/a2a/client/transports/kafka_correlation.py:105-120 | A waiting plain request is failed with the error's text, otherwise the stream is removed and fails with that very error as a client error; true exactly when one of the two existed. |
| `CorrelationManagers.CorrelationManager.CancelAll` | src/a2a/client/transports/kafka_correlation.py:122-132 | Every registered waiting future is cancelled, every registered stream failed, both tables emptied, and everything already resolved or unregistered left alone. |
| `CorrelationManagers.CorrelationManager.CancelEach` | src/a2a/client/transports/kafka_correlation.py:125-127 | Walking the table in any order cancels exactly the registered futures that still wait. |
| `CorrelationManagers.CorrelationManager.FailEach` | src/a2a/client/transports/kafka_correlation.py:130-131 | Walking the table in any order fails exactly the registered streams. |
| `CorrelationManagers.CorrelationManager.GetPendingCount` | src/a2a/client/transports/kafka_correlation.py:134-136 | The number of plain and streaming registrations together. |
| `CorrelationManagers.CorrelationManager.Next` | src/a2a/client/transports/kafka.py:333-334 | A caller's read takes the head of its own stream and leaves the table and all other streams alone. |
| `CorrelationManagers.CorrelationManager.NextAfterWait` | src/a2a/client/transports/kafka_correlation.py:27 | The same for a read that had to wait, failed stream or not. |
| `CorrelationRuns.RunSound` | src/a2a/client/transports/kafka_correlation.py:59-132 | In every reachable table no registered stream is done, no future still pending was resolved by the manager, and each stream's queue is what was put minus what was taken. |
| `CorrelationRuns.OtherIdsUntouched` | src/a2a/client/transports/kafka_correlation.py:75-120 | An operation on one id changes neither the registration nor the future or stream of any other id. |
| `CorrelationRuns.UnregisteredReplyIsDropped` | src/a2a/client/transports/kafka_correlation.py:83-94 | A reply, stream end or error whose id is not registered (yet, or any more) changes nothing at all. |
| `CorrelationRuns.OpenStep` | src/a2a/client/transports/kafka_correlation.py:75-132 | One step of an open stream: an ending action closes it without touching what it holds; any other action adds exactly its own reply. |
| `CorrelationRuns.ClosedRun` | src/a2a/client/transports/kafka_correlation.py:18-21 | Once a stream is closed nothing is ever put into it again. |
| `CorrelationRuns.ReadHandsOver` | src/a2a/client/transports/kafka_correlation.py:23-27 | A read hands over the oldest item or nothing, and nothing at all from a failed stream; a read that had to wait hands over the oldest item all the same; neither loses an item or touches anything else. |
| `CorrelationRuns.StreamProjection` | src/a2a/client/transports/kafka_correlation.py:68-132 | For every interleaving over any number of ids: what was ever put in a stream is exactly the in-order projection of the replies for its id between its registration and its first terminator; the caller was handed a prefix, and all of it exactly when the queue is empty; it is registered exactly until that terminator, and holds the failure which that terminator brought: none for an end, the text of an error reply, or the cancellation. |
| `CorrelationRuns.FutureProjection` | src/a2a/client/transports/kafka_correlation.py:75-132 | For every interleaving: a plain request is decided by the first reply, error, cancellation or give-up that concerns it and by nothing later, and leaves the table exactly when a reply, error or cancel_all removes it. |
| `CorrelationCounts.CountConserved` | src/a2a/client/transports/kafka_correlation.py:59-136 | After any run with fresh ids the tables hold exactly the registrations that nothing has removed, and registrations equal the pending count plus removals. |
| `KafkaHandlers.KafkaHandler.GetHeader` | src/a2a/server/request_handlers/kafka_handler.py:39-44 | The value of the first header with the key, or nothing. |
| `KafkaHandlers.FirstHeaderCounts` | src/a2a/server/request_handlers/kafka_handler.py:39-44 | Of several headers with one key the first counts. |
| `KafkaHandlers.KafkaHandler.HandleRequest` | src/a2a/server/request_handlers/kafka_handler.py:98-160 | For every request the records sent are exactly the replies due to it, to its own reply topic; nothing without both headers, and no exception escapes. |
| `KafkaHandlers.KafkaHandler.HandleSingleRequest` | src/a2a/server/request_handlers/kafka_handler.py:162-214 | One reply, tagged by method and result, or an error when the business logic raises; an unknown method makes reporting itself raise, so the outer handler replies. |
| `KafkaHandlers.KafkaHandler.SendEvents` | src/a2a/server/request_handlers/kafka_handler.py:230-240 | Each event goes out in order under the tag of its own kind. |
| `KafkaHandlers.KafkaHandler.HandleStreamingRequest` | src/a2a/server/request_handlers/kafka_handler.py:216-250 | All events, then stream_complete or the error that ended the stream; any other method is refused before anything is sent. |
| `KafkaHandlers.ReplyGrammar` | src/a2a/server/request_handlers/kafka_handler.py:98-250 | Every request is answered; a plain one exactly once; a streaming one by correctly tagged events and then exactly one terminator, an error exactly when the stream failed; a missing or non-streaming method by a single error. All carry the request's id. |
| `KafkaHandlers.WireForms` | src/a2a/server/request_handlers/kafka_handler.py:230-285 | What is on the wire, literally: the only header is the correlation id, and each kind of event, the end of a stream and an error have their own tags. |
| `KafkaHandlers.SingleReplies` | src/a2a/server/request_handlers/kafka_handler.py:162-214 | The reply of each method, tag and content, and the two ways in which a request can only fail: listing configurations and an unknown method. |
| `KafkaTransport.KafkaClientTransport.FindCorrelationId` | src/a2a/client/transports/kafka.py:183-188 | The value of the first correlation header, found by search with early exit. |
| `KafkaTransport.KafkaClientTransport.ConsumeResponse` | src/a2a/client/transports/kafka.py:180-217 | Dispatching a record performs exactly the table action the record denotes, and none when it has no id or cannot be processed. |
| `KafkaTransport.KafkaClientTransport.Carry` | src/a2a/client/transports/kafka.py:199-214 | The three calls on the correlation manager each perform their table action on the real objects. |
| `StreamingCalls.StreamingCall.CheckDone` | src/a2a/client/transports/kafka.py:330 | The loop goes on exactly while the stream is not done, whatever is still queued. |
| `StreamingCalls.StreamingCall.Fetch` | src/a2a/client/transports/kafka.py:331-347 | A failed stream breaks the call, a client error being reported back to the manager and a cancellation not; otherwise an item is yielded or the call waits; what was yielded always equals what was taken. |
| `StreamingCalls.StreamingCall.Resume` | src/a2a/client/transports/kafka.py:333-334 | A waiting call yields the first item that arrives, even if the stream has failed meanwhile. |
| `StreamingCalls.StreamingCall.TimedOut` | src/a2a/client/transports/kafka.py:335-340 | After its timeout the call is back at the test of is_done, with nothing taken. |
| `StreamingCalls.LeftBehindIff` | src/a2a/client/transports/kafka.py:330-340 | When a call comes to its end after the terminator, nothing is left in its queue if and only if nothing was, or one item that it was still going to take. |
| `StreamingCalls.RaisesIff` | src/a2a/client/transports/kafka.py:342-347 | A failure is raised in the caller if and only if it comes between the test of is_done and the test of the exception, and no timeout comes first; what is raised is then that very failure, a client error with its text after "Streaming request failed: ". |
| `StreamingCalls.DeliveredIff` | src/a2a/client/transports/kafka.py:317-347 | Whole calls, from registration to their end, in every interleaving: everything put was handed over if and only if the queue was empty at the terminator, or held one item and the call was past its test of is_done and took it; and how the call ends: with the text of the error reply, the cancellation, or normally. |
| `StreamingCalls.ReplyBeforeFirstTurnIsLost` | src/a2a/client/transports/kafka.py:330 | The input that loses an item: a reply and the end of the stream before the caller's first turn. |
| `KafkaTransport.EventReplyParses` | src/a2a/client/transports/kafka.py:224-235 | The handler's type tag and the client's parser are inverse on all four kinds of event. |
| `KafkaTransport.TerminatorParses` | src/a2a/client/transports/kafka.py:198-210 | stream_complete and error replies of the handler are read back as the end and the failure of that id, with the text preserved. |
| `KafkaTransport.IrregularRecords` | src/a2a/client/transports/kafka.py:180-235 | Records no handler sends: without an id, not an object, or tagged with another kind they are dropped; an untagged result must be a message, and an error without a text is an unknown one. |
| `KafkaTransport.SingleReplyReachesCallerIff` | src/a2a/client/transports/kafka.py:224-235 | A single reply reaches its caller if and only if it is an error or answers message_send, task_get or task_cancel, and then arrives intact; push-config results never do. |
| `EndToEnd.TopicCarriesReplies` | src/a2a/server/request_handlers/kafka_handler.py:252-285 | However many handlers interleave on one FIFO topic, the records of one id are a prefix of the replies due to its request, in order. |
| `EndToEnd.DispatchedItems` | src/a2a/client/transports/kafka.py:180-214 | Dispatching one stream's replies amid everything else yields the agent's events again, in order and of the right kinds, with no other request's replies among them; all replies dispatched so far are there unless a caller ended the stream. |
| `EndToEnd.StreamEndToEnd` | src/a2a/client/transports/kafka.py:310-340 | Main result: concurrent handlers, one FIFO reply topic, one dispatcher and any callers, in any interleaving: a streaming caller registered before its first reply is handed a prefix of the events its own agent produced. |
| `EndToEnd.CallerMirrorsServer` | src/a2a/client/client_task_manager.py:69-134 | Folding the prefix it was handed, the caller's task agrees with the server's task after as many events. |
| `EventQueues.EventQueue.Make` | src/a2a/server/events/event_queue.py:32-44 | A size that is not positive is refused; otherwise a fresh, open, empty queue of that size. |
| `EventQueues.EventQueue.EnqueueEvent` | src/a2a/server/events/event_queue.py:46-62 | On the heap of queues, for any state of them: a queue has the event before its taps, and the taps in order, up to the first full one, where the put waits; it waits exactly when some queue on the way is full. |
| `EventQueues.DeliverIsPublish` | src/a2a/server/events/event_queue.py:60-62 | When none is full the event reaches every queue connected to this one through open queues, exactly once, and no other; a closed queue takes and passes on nothing. |
| `QueueRuns.DeliveredAt` | src/a2a/server/events/event_queue.py:46-62 | Queue by queue: those that the event gets to have it at the end of buffer and log, every other queue is as it was. |
| `QueueRuns.WaitsIff` | src/a2a/server/events/event_queue.py:46-62 | An enqueue has to wait if and only if some queue connected through open ones is full to its bound. |
| `EventQueues.EventQueue.DequeueEvent` | src/a2a/server/events/event_queue.py:64-113 | The oldest event is handed out, even from a closed queue; closed is reported only when empty. |
| `EventQueues.EventQueue.TaskDone` | src/a2a/server/events/event_queue.py:115-121 | One dequeued event is acknowledged, and the counter stays exact. |
| `EventQueues.EventQueue.Tap` | src/a2a/server/events/event_queue.py:123-133 | A fresh empty child is added that begins at the present end of the log; the queue itself is unchanged. |
| `EventQueues.EventQueue.Drain` | src/a2a/server/events/event_queue.py:205-219 | Draining empties the buffer and lowers the counter by exactly the number of discarded events. |
| `EventQueues.EventQueue.ClearEvents` | src/a2a/server/events/event_queue.py:193-244 | This queue, and on request its whole subtree, loses its buffered events and their share of the counters, and nothing else changes. |
| `EventQueues.EventQueue.Close` | src/a2a/server/events/event_queue.py:135-187 | An immediate close closes and empties the whole subtree and never waits; a graceful one closes it without losing an event and waits exactly when some newly closed queue has unfinished work. |
| `EventQueues.EventQueue.CloseImmediately` | src/a2a/server/events/event_queue.py:180-184 | Clearing everything first and then closing the children is the same as closing and emptying each queue. |
| `EventQueues.CloseAfterClear` | src/a2a/server/events/event_queue.py:165-172 | Clearing a subtree before closing it changes nothing about the result. |
| `QueueRuns.ClosedGentlyAt` | src/a2a/server/events/event_queue.py:135-187 | A graceful close keeps every buffered event and counter in the whole tree, and closes exactly the queues it reaches through open ones. |
| `QueueRuns.ClosedNowAt` | src/a2a/server/events/event_queue.py:158-187 | An immediate close closes and empties every queue at every depth, counts the discarded events as done, and keeps all records. |
| `QueueRuns.MustJoinIff` | src/a2a/server/events/event_queue.py:150-187 | A graceful close has to wait if and only if it reaches some open queue with unfinished events. |
| `QueueRuns.ClearedAt` | src/a2a/server/events/event_queue.py:193-244 | Clearing empties this queue, and all below only on request; it closes none and keeps all records. |
| `QueueRuns.Act` | src/a2a/server/events/event_queue.py:46-187 | On the heap: an operation on a queue at any depth of the real tree is that operation on its value and changes no other queue, and the tree stays consistent with its own reader at work. |
| `QueueRuns.Execute` | src/a2a/server/events/event_queue.py:46-187 | A run of the real objects is a run of the value, so every result about runs holds of them. |
| `QueueRuns.RunFine` | src/a2a/server/events/event_queue.py:23-244 | In every reachable tree, at every depth: no buffer exceeds its bound, the counter equals buffered plus unacknowledged events, reading is first in first out, and a tap's log is a contiguous slice of its parent's from the tap point, reaching its end while the tap is open. |
| `QueueRuns.SubscriberSeesSlice` | src/a2a/server/events/event_queue.py:46-62 | A subscriber at any depth has been handed an unbroken in-order stretch of what was published to the root, its buffer holds what comes next, and nothing is missing while the queues between them are open. |
| `QueueRuns.TapSeesTheFuture` | src/a2a/server/events/event_queue.py:123-133 | A queue tapped now receives exactly what its parent logs from now on, without a gap, until it is closed. |
| `QueueRuns.StepContinues` | src/a2a/server/events/event_queue.py:46-187 | No step ever shortens a log, takes back an event or an acknowledgement, reopens a closed queue or lets it log again. |
| `QueueRuns.CloseNowReleases` | src/a2a/server/events/event_queue.py:158-187 | After an immediate close the subtree is closed and empty, and every join in it is released if and only if every dequeued event was acknowledged. |
| `EventConsumers.EventConsumer.AgentTaskCallback` | src/a2a/server/events/event_consumer.py:151-162 | The exception of an agent that was not cancelled is recorded. |
| `EventConsumers.EventConsumer.PollOnce` | src/a2a/server/events/event_consumer.py:85-149 | One turn over the real queue: a recorded exception raises first, whatever is queued; a final event closes the tree before it is yielded; a closed empty queue stops; an open empty one polls again. |
| `EventConsumers.AgentExceptionIsRaised` | src/a2a/server/events/event_consumer.py:85-87 | Whatever comes before and after: an agent that raises while its consumer polls ends the yielding there and then, and the consumer raises, at its next turn. |
| `EventConsumers.FailureIsRaised` | src/a2a/server/events/event_consumer.py:85-87 | The same from the moment the exception is recorded: no queued event is yielded any more. |
| `EventConsumers.FinalIff` | src/a2a/server/events/event_consumer.py:105-120 | Which events are final: a message always, an artifact never, a status by its flag alone, a task unless it is still submitted, working or waiting for authorization. |
| `EventConsumers.ConsumesThroughFirstFinal` | src/a2a/server/events/event_consumer.py:85-142 | Under any interleaving of publication, taps and other readers: a stopped consumer has yielded the log exactly through its first final event (all of it if there is none), one still polling or raised a prefix without a final event, and nothing yielded is unacknowledged. |
| `EventConsumers.FinalEventClosesTheTree` | src/a2a/server/events/event_consumer.py:126-130 | At the turn that meets a final event the root and all its taps are closed and empty, and every join is released if and only if the tap readers have acknowledged what they took. |
| `EventConsumers.YieldsWhatWasPublished` | src/a2a/server/request_handlers/default_request_handler.py:187-197 | Agent and consumer together, in every interleaving with taps and readers: what was yielded is a prefix of what the agent publishes through its first final event, and exactly that when the consumer has stopped. |
| `Streams.ThroughFinal` | src/a2a/server/events/event_consumer.py:105-130 | The part through the first final event: a prefix that is everything when nothing is final, otherwise ends in a final event and has none before it. |
| `Streams.ThroughFinalIs` | src/a2a/server/events/event_consumer.py:105-130 | That description fits one prefix only. |
| `Artifacts.AppendArtifactToTask` | src/a2a/utils/helpers.py:54-112 | The search and the three branches (replace in place, add at the end, extend) compute the list update; an append to an absent id changes nothing; the rest of the task is untouched. |
| `Artifacts.LookupAfterApply` | src/a2a/utils/helpers.py:74-112 | One update changes what a lookup finds for its own id only, and how. |
| `Artifacts.FlagDecides` | src/a2a/utils/helpers.py:69-112 | The flag itself: absent or false, the artifact of that id is then exactly the one sent; true, it is the old one with the parts added, and nothing changes if there was none. |
| `Artifacts.StreamMeaning` | src/a2a/utils/helpers.py:54-112 | For any start and stream: each id ends with its last replacing update (or starting artifact) followed by all parts appended since; an id never created stays absent. |
| `Artifacts.StreamOrder` | src/a2a/utils/helpers.py:74-96 | Ids stay distinct and in the order of first creation. |
| `TaskFold.TaskManager.constructor` | src/a2a/server/tasks/task_manager.py:29-54 | The ids of the request are latched, nothing is loaded. |
| `TaskFold.TaskManager.GetTask` | src/a2a/server/tasks/task_manager.py:62-88 | The task in memory, else the stored one, which is then cached; nothing without a task id. |
| `TaskFold.TaskManager.CheckIds` | src/a2a/server/tasks/task_manager.py:107-126 | Ids are latched when absent and compared when present; the first mismatch is reported. |
| `TaskFold.TaskManager.EnsureTask` | src/a2a/server/tasks/task_manager.py:160-189 | The task in memory, else the stored one, else a new submitted task holding the initial message; store and manager change if and only if it is new, and then by writing it through. |
| `TaskFold.TaskManager.ApplyStatus` | src/a2a/server/tasks/task_manager.py:139-152 | The old status message is retired into the history, metadata merged, the status replaced. |
| `TaskFold.TaskManager.SaveTask` | src/a2a/server/tasks/task_manager.py:233-245 | Store and memory get the same task; ids are latched if none was. |
| `TaskFold.TaskManager.SaveTaskEvent` | src/a2a/server/tasks/task_manager.py:90-158 | Manager, store and error after the call are those of one fold step, on the real fields and store. |
| `TaskFold.TaskManager.Process` | src/a2a/server/tasks/task_manager.py:191-208 | A message passes through unchanged; every other event is saved. |
| `TaskFold.TaskManager.UpdateWithMessage` | src/a2a/server/tasks/task_manager.py:247-271 | The status message is retired into the history and cleared, the user's message follows it, in memory only. |
| `TaskFold.LatchRejectsIff` | src/a2a/server/tasks/task_manager.py:107-126 | An event is rejected if and only if it contradicts an id already latched, and for which one; latched ids never change. |
| `TaskFold.SaveEventKeeps` | src/a2a/server/tasks/task_manager.py:107-158 | After an accepted event the stored task under the latched id is the one in memory; no other key changes; a rejected event changes neither store nor current task. |
| `TaskFold.FoldKeeps` | src/a2a/server/tasks/task_manager.py:107-158 | The same over any run of events: write-through, at most one key written, ids latched for good. |
| `TaskFold.FoldConcat` | src/a2a/server/tasks/task_manager.py:90-158 | Processing a stream may be cut anywhere. |
| `TaskFold.UpdateLog` | src/a2a/server/tasks/task_manager.py:139-152 | A status update adds exactly its message to the conversation, an artifact update nothing; the client's history grows by the same. |
| `TaskFold.ServerLog` | src/a2a/server/tasks/task_manager.py:139-152 | Over any run the conversation (history, then status message) is what it was followed by every message, in order: none lost, repeated or moved. |
| `TaskFold.ClientLog` | src/a2a/client/client_task_manager.py:114-129 | The same for the client's history alone. |
| `TaskFold.UserMessageLog` | src/a2a/server/tasks/task_manager.py:247-271 | The history is then all that was said, followed by the user's message; the status keeps state and time and has no message; everything else is as it was. |
| `TaskFold.ServerFoldsTask` | src/a2a/server/tasks/task_manager.py:90-158 | A manager that starts from a task accepts every update for it, and stores the task folded over them under that task's key. |
| `TaskFold.FirstEventCreatesTask` | src/a2a/server/tasks/task_manager.py:168-189 | A first update for an unknown task stores a submitted task with the initial message as its history. |
| `TaskMeaning.ServerTaskMeans` | src/a2a/server/tasks/task_manager.py:139-158 | Read off the stream without the fold: the final status is the last reported, each metadata entry the last given, each artifact its last replacement plus later appends, the conversation everything said in order. |
| `TaskMeaning.ArtifactsAppear` | src/a2a/utils/helpers.py:60-63 | There is an artifact list exactly from the first artifact update on. |
| `ClientFold.TaskIsKnownIff` | src/a2a/client/client_task_manager.py:37-49 | A new client can get a task if and only if the stream has brought an event about one, and it is the task of the first such event, whatever follows. |
| `ClientFold.TaskIsRefusedIff` | src/a2a/client/client_task_manager.py:86-92 | A run is refused if and only if it brings a Task after an event about one. |
| `ClientFold.ClientTaskManager.ApplyStatus` | src/a2a/client/client_task_manager.py:114-129 | The new status message is appended at once. |
| `ClientFold.ClientTaskManager.SaveTaskEvent` | src/a2a/client/client_task_manager.py:69-134 | A second Task is refused; updates build on the current task or on an empty one of unknown state. |
| `ClientFold.FoldsAgree` | src/a2a/client/client_task_manager.py:86-134 | One Task, then any updates for it: both managers accept everything, status, artifacts and metadata agree, and the client's history equals the server's conversation if and only if the Task carried no status message. |
| `ClientFold.HeadlessFoldsAgree` | src/a2a/client/client_task_manager.py:107-134 | Without a Task event the histories differ by exactly the user's first message, and the statuses agree if and only if a status event was seen; until then one is submitted and the other unknown. |
| `Aggregator.ResultAggregator.CurrentResult` | src/a2a/server/tasks/result_aggregator.py:40-52 | The message if one ended the stream, otherwise the manager's task. |
| `Aggregator.BlockingBreaksIff` | src/a2a/server/tasks/result_aggregator.py:134-157 | A blocking call breaks off at the first task or status that asks for authorization and at nothing else. |
| `Aggregator.NonBlockingBreaksAtOnce` | src/a2a/server/tasks/result_aggregator.py:134-157 | Any other breaks off at the first event that is not a message. |
| `Aggregator.ResultAggregator.ConsumeAndEmit` | src/a2a/server/tasks/result_aggregator.py:54-71 | What is emitted is a prefix of the stream, each event processed before it is emitted. |
| `Aggregator.ResultAggregator.ConsumeAll` | src/a2a/server/tasks/result_aggregator.py:73-95 | Everything before the first message is processed; the result is that message, else the resulting task, else the mismatch that was raised. |
| `Aggregator.ResultAggregator.ConsumeAndBreakOnInterrupt` | src/a2a/server/tasks/result_aggregator.py:97-167 | Processing stops exactly at the first message or after the first interrupting event; an interrupted call returns the fold through that event and leaves exactly the rest to the background. |
| `Aggregator.ResultAggregator.ContinueConsuming` | src/a2a/server/tasks/result_aggregator.py:169-186 | The background task processes all of the rest. |
| `Aggregator.ResultAggregator.ConsumeSplit` | src/a2a/server/tasks/result_aggregator.py:97-186 | Foreground plus background leave the store of uninterrupted consumption, wherever the break falls. |
| `Aggregator.ResultAggregator.EmitSplit` | src/a2a/server/tasks/result_aggregator.py:54-95 | A stream whose client leaves after some events: what it was sent, and the store of uninterrupted consumption. |
| `Sessions.ConsumingSession.Turn` | src/a2a/server/tasks/result_aggregator.py:54-186 | One turn of the call or its background task over the real queue, manager and store: poll, process, and then return, break off, emit or go on as the kind of call demands. |
| `Sessions.OutcomeOfAnyRun` | src/a2a/server/tasks/result_aggregator.py:128-186 | Main result: for every interleaving of agent, queue readers and a consumption handed to the background by an interruption or a disconnection at any turn, the store is always the fold of what was yielded, and in the end the fold of what the agent published through its first final event; a streaming client has been sent a prefix of it, all of it if it stays. |
| `Sessions.AnswerOfAnyRun` | src/a2a/server/tasks/result_aggregator.py:128-167 | In every such run an interrupted call answers the fold through the first interrupting event, any other the result of the whole stream. |
| `Sessions.AnswerOfConsumeAll` | src/a2a/server/tasks/result_aggregator.py:73-95 | The answer of consume_all in every interleaving: the message if one came, otherwise the task folded over everything consumed. |
| `Sessions.FailedSessionAborts` | src/a2a/server/events/event_consumer.py:85-87 | Once the agent's exception is recorded, a session at work stores, sends and answers nothing more; its next turn meets the exception and the one after ends it. |
| `Sessions.OnlyItsOwnTaskIsSent` | src/a2a/server/request_handlers/default_request_handler.py:379-386 | A streaming client is never sent a task other than the one its call is about, in any run. |
| `Sessions.DisconnectedGetsNoMore` | src/a2a/server/request_handlers/default_request_handler.py:387-394 | A client that has disconnected is sent nothing more, whatever follows. |
| `SuspendingStore.CancelledSaveIsMadeUpIff` | src/a2a/server/tasks/database_task_store.py:123-131 | A client disconnects while an update is being saved in a store whose save suspends: the final store is that of an undisturbed run if and only if a later event is still saved, or the update changed nothing. |
| `SuspendingStore.FinalStatusCanBeLost` | src/a2a/server/tasks/database_task_store.py:123-131 | The case that loses something: the task's final status, after which the stored task has not ended. |
| `SuspendingStore.CancelledSaveOtherwise` | src/a2a/server/tasks/database_task_store.py:123-131 | A cancelled save for a task that is only stored, or of a Task event, leaves no trace; for a task it creates it stores the bare task. |
| `Sessions.PolledAnswersIff` | src/a2a/server/events/event_consumer.py:85-137 | Alone with a queue that nobody closes, consume_all comes to an answer if and only if something in the queue is final, and otherwise polls for ever. |
| `Sessions.PolledStore` | src/a2a/server/events/event_consumer.py:85-137 | After any number of polls the store has exactly that many events of the consumed part. |
| `Requests.TaskUpdater.Perform` | src/a2a/server/tasks/task_updater.py:65-152 | A status update raises exactly after a terminal one; a terminal one is flagged final; artifacts are always accepted. |
| `Requests.PublishedFields` | src/a2a/server/tasks/task_updater.py:65-152 | What a call publishes, field by field: ids, state, message, metadata, time, flag and artifact are those of the call or the defaults; nothing after a terminal status but artifacts. |
| `Requests.TerminalStatusIsLast` | src/a2a/server/tasks/task_updater.py:82-108 | Whatever the agent calls: a terminal status is flagged final and no status event follows it. |
| `Requests.ConsumedRun` | src/a2a/server/tasks/task_updater.py:82-108 | In the consumed part a terminal status can only be the last event. |
| `Requests.PlanIsSound` | src/a2a/server/request_handlers/default_request_handler.py:209-247 | An accepted request concerns a task that has not ended and starts from exactly the stored task, with the user's message added. |
| `Requests.RefusedIff` | src/a2a/server/request_handlers/default_request_handler.py:131-233 | A request is refused if and only if it names an empty, unknown or ended task or, for a send, a context other than its task's; a send that names no task never is. |
| `Requests.RefusalReasons` | src/a2a/server/request_handlers/default_request_handler.py:131-233 | Which refusal it is, in the order of the guards. |
| `Requests.AcceptedRunsOn` | src/a2a/server/request_handlers/default_request_handler.py:199-247 | What an accepted request runs on, in full: the stored task with the user's message added, or a new submitted task that holds it, under the ids named or generated. |
| `Requests.RunsUnderOwnContextIff` | src/a2a/server/request_handlers/default_request_handler.py:236-242 | An accepted send for a known task runs under that task's own context if and only if the message names a context, or the generated one happens to be equal. |
| `Requests.UnnamedContextIsReplaced` | src/a2a/server/request_handlers/default_request_handler.py:236-242 | The input at which it does not: a message that names its task and no context. |
| `Requests.EndedTaskRefusesRequests` | src/a2a/server/request_handlers/default_request_handler.py:511-516 | A send, cancel or resubscribe naming a task that has ended is refused as terminal and leaves the store alone. |
| `RequestRuns.TerminalIsForever` | src/a2a/server/request_handlers/default_request_handler.py:136-225 | Main result: over any sequence of requests, each cut short anywhere (an agent that raises, a cancellation never answered), with agents publishing through updaters, a stored task that is completed, canceled, failed or rejected never changes again, at any later store (section 6.3 of the A2A protocol specification 0.3.0); and no task ever disappears or changes its context. |
| `WithoutUpdater.EndedStateIsKeptIff` | src/a2a/server/events/event_consumer.py:105-107 | For arbitrary updates, without an updater: the stored task never leaves a terminal state if and only if, in the consumed part, every status after a terminal one reports that state again. |
| `WithoutUpdater.UnflaggedTerminalStatusCanBeOverwritten` | src/a2a/server/events/event_consumer.py:105-107 | Its witness: a bare completed status that is not flagged final is overwritten by the next status. |
| `RequestRuns.ServeOutcome` | src/a2a/server/request_handlers/default_request_handler.py:199-266 | A refused request leaves the store as it was; an accepted one writes the folded task under its own key, if the agent published anything. |
| `RequestRuns.AttemptOutcome` | src/a2a/server/request_handlers/default_request_handler.py:199-266 | The same for a request that is cut short: the task folded over what was processed. |
| `RequestRuns.ServeAddsMessages` | src/a2a/server/request_handlers/default_request_handler.py:199-266 | One request, cut short anywhere, adds the user's message and what the agent said to its own task's stored conversation, and nothing to any other. |
| `RequestRuns.ConversationOnlyGrows` | src/a2a/server/tasks/task_manager.py:247-271 | Over any sequence of requests, each cut short anywhere, every stored conversation is what it was, followed by everything added, in order. |
| `RequestRuns.UserMessageIsStoredIff` | src/a2a/server/request_handlers/default_request_handler.py:227 | The user's message reaches the store if and only if at least one event of the agent is processed. |
| `RequestRuns.UserMessageIsInTheHistory` | src/a2a/server/tasks/task_manager.py:265-269 | A send whose agent adds only artifacts: in the store the message is the last of the history, no status message is left, and state, time and metadata are those before. |
| `Requests.SendAnswer` | src/a2a/server/request_handlers/default_request_handler.py:322-356 | The answer is the task folded over exactly the events waited for, and the call returns early if and only if one of the agent's events interrupts it. |
| `RequestRuns.EveryRunServes` | src/a2a/server/request_handlers/default_request_handler.py:187-266 | In every interleaving, at every moment of it and whether or not the agent raises, the store is the one after as many events as were yielded; a session that has run to its end has stored them all. |
| `RequestRuns.RunsAreAttempts` | src/a2a/server/request_handlers/default_request_handler.py:187-266 | So a sequence of requests, each in an interleaving of its own, leaves the store of the sequence of attempts that the two results above speak of. |
| `RequestRuns.RunsKeepWhatEnded` | src/a2a/server/request_handlers/default_request_handler.py:187-266 | Over any such sequence of interleaved sessions ended tasks are as they were, no task disappears or changes context, and every conversation has only grown. |
| `RequestRuns.EveryRunAnswers` | src/a2a/server/request_handlers/default_request_handler.py:322-329 | And a synchronous call gets the fold of the events it waited for. |
| `Cancellations.CancelRuns` | src/a2a/server/request_handlers/default_request_handler.py:152-170 | A cancellation after any number of polls: its store, and whether it has its answer. |
| `Cancellations.CancelIsAnsweredIff` | src/a2a/server/request_handlers/default_request_handler.py:152-170 | An accepted cancellation is ever answered if and only if its agent published something final and no more than its queue holds. |
| `Cancellations.StuckIff` | src/a2a/server/events/event_queue.py:57 | A cancellation gets stuck if and only if one of its agent's events finds the queue full with those before it. |
| `Cancellations.SilentCancelIsNeverAnswered` | src/a2a/server/request_handlers/default_request_handler.py:152-170 | The input that shows it: an agent that publishes nothing when told to cancel. |
| `RequestHandlers.DefaultRequestHandler.SetupMessageExecution` | src/a2a/server/request_handlers/default_request_handler.py:199-266 | The guards, in the source's order, and the manager, task id and context id the agent runs under. |
| `RequestHandlers.DefaultRequestHandler.PublishAndPoll` | src/a2a/server/request_handlers/default_request_handler.py:187-197 | Agent, queue and consumer at work: what was yielded is the output through its first final event, or as far as the agent got, and the consumer raises exactly if the agent did and nothing final came before. |
| `RequestHandlers.DefaultRequestHandler.RunAgent` | src/a2a/server/request_handlers/default_request_handler.py:187-197 | The same for what an agent does through its updater. |
| `RequestHandlers.DefaultRequestHandler.ConsumeSend` | src/a2a/server/request_handlers/default_request_handler.py:307-342 | Answer and store of a send, interrupted or not. |
| `RequestHandlers.DefaultRequestHandler.EmitThenDrain` | src/a2a/server/request_handlers/default_request_handler.py:378-394 | A client that leaves after any number of events has seen exactly those, and the background still processes the rest. |
| `RequestHandlers.DefaultRequestHandler.ConsumeCancel` | src/a2a/server/request_handlers/default_request_handler.py:152-170 | Over a real queue and consumer, for any number of polls: the store so far, and an answer exactly when the cancellation is answered at all and has polled enough. |
| `RequestHandlers.DefaultRequestHandler.OnMessageSend` | src/a2a/server/request_handlers/default_request_handler.py:289-356 | Refusal, answer (an internal error if there is none), early return and final store of a send, with an agent that may raise after any number of events: its exception reaches the caller unless the call has returned before, and the agent then stays listed as running. |
| `RequestHandlers.DefaultRequestHandler.OnMessageSendStream` | src/a2a/server/request_handlers/default_request_handler.py:358-400 | Refusal, emitted prefix and final store of a stream, whenever the client disconnects and whenever the agent raises; the exception reaches a client that is still there unless the stream had ended. |
| `RequestHandlers.DefaultRequestHandler.OnCancelTask` | src/a2a/server/request_handlers/default_request_handler.py:124-185 | Refusals of missing and ended tasks; a cancel that raises is answered with its exception and stores nothing; otherwise an answer if and only if the agent published something final (and did not overfill the queue) and all of it was polled; success if and only if the folded task is canceled. |
| `Integers.DecimalLength` | src/a2a/utils/proto_utils.py:84-88 | A number has more than d decimal digits if and only if it exceeds 10^d - 1. |
| `Integers.DecimalValue` | src/a2a/utils/proto_utils.py:88 | Reading decimal notation gives back the number. |
| `Integers.TextParses` | src/a2a/utils/proto_utils.py:121-125 | The text of a large integer is recognised as one and reads back as it, sign included. |
| `Integers.NormalizedPlace` | src/a2a/utils/proto_utils.py:84-95 | Place by place, for every tree and limit: an integer with too many digits becomes its decimal text, sign included, and everything else, keys and order included, is the same (for d = 0, True becomes its name). |
| `Integers.NoLargeIntegerIsLeft` | src/a2a/utils/proto_utils.py:84-95 | No integer anywhere in the result exceeds 10^d - 1, and those left are the original ones. |
| `Integers.LooksLikeIntegerIff` | src/a2a/utils/proto_utils.py:121-124 | The strings taken for integers: dashes, then more than d digits, at least one, and nothing else. |
| `Integers.IntegersRead` | src/a2a/utils/proto_utils.py:125 | No dash reads as the number, one as its negative, two fail. |
| `Integers.ParseFailsIff` | src/a2a/utils/proto_utils.py:111-126 | Parsing fails if and only if some string in the tree is at least two dashes followed by too many digits. |
| `Integers.ParsedPlace` | src/a2a/utils/proto_utils.py:111-126 | Otherwise, place by place, exactly the strings that look like large integers become those integers, and everything else is the same. |
| `Integers.RoundTrip` | src/a2a/utils/proto_utils.py:69-126 | For every tree and digit limit: parsing the normalised tree gives back the original if and only if no string in it is dashes followed by more than d digits (and, for d = 0, no True is in it). |
| `CleanEmpty.CleanIsNormal` | src/a2a/utils/helpers.py:347-357 | No falsy value, False and 0 included, is left anywhere below the root. |
| `CleanEmpty.CleanedRoot` | src/a2a/utils/helpers.py:347-357 | At the root an empty string becomes None, a container stays a container of its kind, and any other value is itself. |
| `CleanEmpty.FixedPointIffNormal` | src/a2a/utils/helpers.py:347-357 | The values that pruning leaves alone are exactly the normal forms. |
| `CleanEmpty.CleanIsIdempotent` | src/a2a/utils/helpers.py:347-357 | Pruning twice is pruning once. |
| `CleanEmpty.CleanKeepsLeaves` | src/a2a/utils/helpers.py:347-357 | Every truthy scalar survives under the same keys and in the same order, and nothing is added. |
| `CleanEmpty.CleanItemsAreSurvivors` | src/a2a/utils/helpers.py:354-356 | A cleaned list is the list of the cleaned elements that hold a truthy scalar, each by itself and in their order. |
| `CleanEmpty.CleanFieldsAreSurvivors` | src/a2a/utils/helpers.py:349-353 | A cleaned dictionary has the cleaned values that hold a truthy scalar, under their own keys and in their order. |
| `CleanEmpty.TruthyIffLeaves` | src/a2a/utils/helpers.py:347-357 | A container survives if and only if it holds a truthy scalar somewhere. |
| `PushConfigStore.InMemoryPushNotificationConfigStore.RemoveById` | src/a2a/server/tasks/inmemory_push_notification_config_store.py:37-40 | Search by id and removal of the first equal entry drop the first entry of that id and keep the rest in order. |
| `PushConfigStore.InMemoryPushNotificationConfigStore.SetInfo` | src/a2a/server/tasks/inmemory_push_notification_config_store.py:26-42 | The configuration, under the task id if it has none, replaces any of its id and moves to the end; other tasks are unchanged. |
| `PushConfigStore.StoredAs` | src/a2a/server/tasks/inmemory_push_notification_config_store.py:34-42 | What is stored has the url and token given, under the configuration's id or else the task's. |
| `PushConfigStore.InMemoryPushNotificationConfigStore.DeleteInfo` | src/a2a/server/tasks/inmemory_push_notification_config_store.py:49-68 | The entry of the given id, or of the task id, is dropped, and an emptied task disappears. |
| `PushConfigStore.RunKeepsSurvivors` | src/a2a/server/tasks/inmemory_push_notification_config_store.py:26-68 | Over any run each list is the configurations set and not touched since, in order of their setting; ids are unique, a task is present exactly when one survives, other tasks never matter. |
| `PushConfigStore.LookupIsLastSet` | src/a2a/server/tasks/inmemory_push_notification_config_store.py:26-68 | What get_info returns: a configuration is in the list if and only if it is the last one set for its id and was not deleted since. |

## Left out

- EventQueues.EventQueue.EnqueueEvent: ends where a `put` has to wait; its going on later, and several producers blocked on full buffers (whose order may then differ between queues), are not modelled, and runs publish only when there is room.
- EventQueues.EventQueue.Close: a graceful close reports whether it must wait for a join instead of waiting; the two interpreter branches have the same effect and are one.
- EventQueues.EventQueue.TaskDone: acknowledging more than was dequeued, which asyncio refuses, is outside its contract.
- EventConsumers.ConsumesThroughFirstFinal: nobody else reads the root, acknowledges its events or closes it at once.
- Aggregator.ResultAggregator.ConsumeAndEmit: consumes a given stream; exceptions of the agent in the middle of one are in EventConsumers and Sessions.
- RequestHandlers.DefaultRequestHandler.OnMessageSend: agents publish through one TaskUpdater, so a plain Message answer, a Task event and the task-id check on a result do not occur; the consumer keeps up with the agent, event by event (one that lags behind when the agent raises yields fewer, as if it had raised earlier); RequestRuns.EveryRunServes and Sessions.FailedSessionAborts are about every interleaving.
- RequestHandlers.DefaultRequestHandler.OnMessageSendStream: the same, and the moment of disconnection is a number of events.
- RequestHandlers.DefaultRequestHandler.OnCancelTask: no execution of the task is running, so there is no queue with a publisher to tap and no producer to cancel.
- Requests.RefusedIff: after an agent that raised, the queue of its task stays registered, so a resubscription polls it for ever instead of being refused; the store is the same.
- Sessions.OutcomeOfAnyRun: the store's save does not suspend; a disconnection inside one that does is in SuspendingStore, for a task that is in memory.
- EndToEnd.StreamEndToEnd: claims a prefix; when it is everything is in StreamingCalls; that a stream ends in bounded time is not claimed.
- StreamingCalls.DeliveredIff: the caller keeps asking until its loop ends; one that abandons its generator is not modelled.
- WithoutUpdater.EndedStateIsKeptIff: speaks of the state; for the rest of the task (history, metadata, artifacts) the updater is needed, as in TerminalIsForever.
- Integers.RoundTrip: ASCII digits, lists and unbounded integer strings; tuples, other Unicode digits, the interpreter's limit on integer strings and a dictionary's Struct conversion are not modelled.
- CleanEmpty.Clean: floats are reals.
- Aliasing of tasks: the in-memory store shares task objects with the manager, so that changes show at once, and an artifact taken from an event is later extended in place; tasks, messages and artifacts are values here.
- The wait loops of plain Kafka requests: a timeout is the caller giving up its future and failing its own id.
- Two consumers of one task at the same time (resubscription or cancellation during a run), and two executions of one task.
- Taps on a queue that is already closed give an open child that nothing closes; no claim is made about it beyond its empty log.
- Artifact metadata and extensions, parts beyond their identity, and the last_chunk flag: carried along by the code and never inspected.
- Task and context ids inside a message: the handler fills them in on the user's message; messages here have an id and parts only.
- History-length trimming, push notification sending, and the queue manager's registry.
- Transport start and stop, the consumer on the server side, brokers, HTTP, gRPC, SSE, databases, encryption, telemetry and logging: foreign code.
- ToProto and FromProto, agent card conversion and canonical JSON output, auth interceptor and client factory: record mappings and library calls.
