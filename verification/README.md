# A verified model of the async_grpc event machinery

The server side of async_grpc is an event machine. gRPC completes an operation (NEW_CONNECTION, READ,
WRITE, FINISH, DONE); a completion queue thread marks the event and pushes it to an event queue; an
event thread pops it, clears its pending flag and lets the `Service` act on the `Rpc`; handlers and
`Writer`s put messages into the send queue of the `Rpc` and a WRITE_NEEDED event into an event queue.
This project models that machine, and the client side around it, and proves what every step keeps,
what every run guarantees, and exactly when it does.

## How the model is built

- `RpcModel` gives one `Rpc` as a value and one function for each of its operations; `ServerModel` puts
  any number of RPCs, the `ActiveRpcs` set, the FIFO event queues and the queue selector into one
  transition system; `ServiceObjects` is the same code as classes updated in place, and every method
  is proved to do what the functions say.
- `RpcMachine` is the life of one RPC. `Projection` proves that every server step is one step of that
  machine, or none, for every RPC, and that a cloned RPC starts as a fresh listener. `StepInvariant`
  proves the invariant once; `Lifetime`, `Delivery`, `Listeners`, `EventQueues` and `Shutdown` lift it
  to all runs of all configurations.
- `Trace` and `Fifo` tell from the steps of a run alone what was sent to an RPC, what gRPC read for it,
  which completions were good, what went through an event queue and of which type an RPC is, and prove
  that the state agrees.
- `SmallSteps` is the life of one RPC again, in the steps that its locks allow: Writers, handlers, gRPC
  and one or two event threads interleave freely. `Reduction` proves that with one event thread these
  steps add up to the steps of `RpcMachine`; `SerialSends` proves what the sends keep; `Threads` shows
  what goes wrong otherwise, and states for which numbers of threads and Writers nothing does.
- `FinishOnce` and `Witnesses` hold runs of the server that show that the conditions in the theorems
  are needed.
- `AsyncClientModel`, `AsyncClients`, `Retry`, `UnaryClient`, `BlockingQueues` and `MethodName` model the
  streaming async client, the retry strategies, the unary client, the queue and the method names.

What is taken from gRPC is written into the model: an operation completes only if it was requested and
at most once; DONE is never delivered before the connection, and never for a connection that failed
(`RpcMachine.CanComplete`, `RpcModel.Complete`). `ok`, the messages, what handlers send, the order of
deliveries and the moment of `StopServing` are arbitrary.

A run stops with a fault when the service would touch an RPC that `ActiveRpcs` has released, or one
without a handler.

## Where the code and its documentation differ

- README.md:131 says that all events of an RPC are processed by one event queue. The completion events
  keep the queue with which the RPC was constructed and WRITE_NEEDED uses the queue set afterwards, so
  this holds if and only if there is one event thread (`EventQueues.SameQueueIffOneThread`). README.md:98,
  that a handler stays on its thread, does hold (`Delivery.CallbacksOnHomeThread`).
- With two threads for one RPC, `HandleSendQueue` lets two sends go on at once, because it releases its
  lock before it raises a flag. Sends are serial, in order, and end with the Finish if and only if one
  thread handles all events of the RPC or the RPC does not stream responses
  (`Threads.SerialIffOneSender`, `Threads.Overtakes`).
- README.md:175 says that a Writer is always safe. A Writer that holds an RPC while it is removed fails
  the CHECK of `GetWeakPtr`; even with one event thread the CHECK never fails if and only if no Writer
  is used from another thread (`Threads.AbortFreeIffNoWriters`).
- An RPC should be registered exactly while it has something to do. In small steps, for connections that
  come up exactly while serving, this holds if and only if there is one event thread and no Writer
  (`Threads.LifetimeIffAlone`); with a second thread DONE can remove an RPC whose send is under way
  (`Threads.RemovedWhileSending`).
- With one event thread a connection that fails before `StopServing` is still removed and then cloned
  from, and one that came up before `StopServing` but is handled after it is removed while DONE is still
  to come. When handling an event counts as one step, the registry is exact if and only if neither
  happens (`Lifetime.ExactLifetime`, `Witnesses.EarlyFailure`, `Witnesses.LateConnection`); and so it is
  in small steps with one event thread, as long as no Writer holds an RPC while it is removed
  (`Reduction.OneThreadLifetime`).
- `HandleSendQueue` asks whether a FINISH is pending, not whether one has happened. An RPC finishes once
  and last, in every run, if and only if no item sent to it ends the call but possibly the last
  (`FinishOnce.FinishOnceIffEndsOnce`).
- The streaming async client reports how FINISH itself went, never the status the server sent
  (`AsyncClientModel.StatusNotReported`).

## Model

| member | source | states |
|---|---|---|
| `RpcMachine.StepInvariant` | async_grpc/service.cc:59-147 | every step of an RPC keeps the invariant (what is outstanding, pending flags, send order, callbacks, requests, wakeups); from an exact lifetime it leads without fault to an exact lifetime if and only if connections come up exactly while serving |
| `RpcMachine.HandleOps` | async_grpc/service.cc:80-147 | handling a completion event goes wrong exactly for a failed connection of a service that still serves |
| `RpcMachine.NewListenerInvariant` | async_grpc/rpc.h:112-148 | an RPC that has just asked for its next invocation satisfies the invariant and is registered exactly while outstanding |
| `RpcMachine.HandleSendQueueFrame` | async_grpc/rpc.h:169-191 | sending touches neither reads nor callbacks, and every FINISH it records is one that gRPC holds |
| `Projection.StepProjects` | async_grpc/server.cc:133-164 | every server step, seen from any RPC, is one step of the RPC's own machine or none, with the same fault |
| `Projection.StepSpawns` | async_grpc/service.cc:98-102 | the one RPC that a step may add starts as a fresh listener with its parent's method and completion queue |
| `Trace.TypesFollowMethods` | async_grpc/rpc.h:86-91 | in every reached state every RPC, a started listener or a clone, serves a method of the configuration on one of its completion queues and has the type of that method; the service is stopping exactly if StopServing was called |
| `ServerModel.NextWellFormed` | async_grpc/events.cc:29-37 | every queued event stays in the queue its RPC uses for it |
| `ServerModel.HandlingKeepsIdentity` | async_grpc/service.cc:59-103 | handling moves an RPC to no other queue, and clones it exactly for a connection while serving |
| `Lifetime.StepExact` | async_grpc/service.cc:80-147 | one server step from an exact lifetime is without fault and keeps it exact if and only if the connection it handles came up exactly while serving |
| `Lifetime.RunGood` | async_grpc/service.cc:59-147 | the invariant of every RPC holds after every run |
| `Lifetime.ExactLifetime` | async_grpc/service.cc:80-147 | throughout a run `ActiveRpcs` holds exactly the RPCs with something outstanding and no event reaches a removed RPC, if and only if every connection handled came up exactly while serving |
| `Lifetime.NothingLeftBehind` | async_grpc/rpc.h:435-440 | under that condition the registry is empty exactly if gRPC holds nothing and no completion event is queued |
| `Trace.SendsFollowRun` | async_grpc/rpc.h:169-203 | what was handed to gRPC, in order, followed by the send queue is what the steps of the run sent to the RPC, in their order and in the order of the sends of each callback; for a method with a single response every item is a Finish, for the others exactly an item without a message; the response slot holds the latest message handed over |
| `Trace.IssuesWhenFree` | async_grpc/service.cc:118-127 | an item is handed to gRPC exactly in a step that handles a WRITE or WRITE_NEEDED event of a registered RPC with a non-empty send queue and no other send outstanding, and it is the first item |
| `Delivery.SendsWillBeSeen` | async_grpc/rpc.h:193-203 | a non-empty send queue of an unfinished RPC has a send outstanding or a WRITE_NEEDED event queued |
| `Delivery.SingleOutstanding` | async_grpc/rpc.h:169-191 | no operation is outstanding twice, and WRITE and FINISH exclude each other |
| `Delivery.ResponseHeld` | async_grpc/rpc.h:290-337 | no step overwrites the response slot while gRPC holds a write or finish |
| `FinishOnce.FinishOnceIffEndsOnce` | async_grpc/rpc.h:169-191 | for every RPC of a started server and every sequence of items: it finishes once and last in all runs whose steps sent it these items, if and only if no item ends the call but possibly the last |
| `FinishOnce.AnySequence` | async_grpc/rpc.h:169-191 | every RPC of every started server can be made to issue any sequence of items one by one, also after the end of the call |
| `Delivery.CallbackProtocol` | async_grpc/rpc.h:93-110 | callbacks are Initialize, one OnRequest per message, OnReadsDone when reading is over, OnFinish once per completed FINISH, and none before the connection |
| `Trace.ConnectionFollowsType` | async_grpc/rpc.h:93-167 | a handled connection, by the constructors of the type: client and bidi streaming have one READ under way and only Initialize was called; unary and server streaming have no READ and saw Initialize, the message that came with the connection, and OnReadsDone; refused when stopping, a fault if it failed while serving |
| `Delivery.CallbacksOnHomeThread` | README.md:98-99 | throughout every run all callbacks of an RPC are made by one thread, that of the queue it was constructed with, and only while it is registered |
| `Trace.RequestsFollowRun` | async_grpc/rpc.h:150-167 | the handler sees the messages that gRPC read in the run, in order; all but at most the latest, and that too unless its READ waits to be handled |
| `Delivery.WriterAcceptedWhileOutstanding` | async_grpc/rpc_handler.h:45-75 | a Writer is accepted only by an RPC with something outstanding, and by every such RPC when connections come up exactly while serving |
| `Listeners.StepSlots` | async_grpc/service.cc:94-102 | a handled connection replaces the listener by a clone in the same slot, or drops it once stopping; no other step changes the listeners while serving |
| `Listeners.ListenerConservation` | README.md:154-156 | until StopServing exactly one RPC listens for each method and completion queue, N times M in all; afterwards listeners only disappear |
| `Listeners.StartedSlots` | async_grpc/service.cc:43-54 | the nested loops of StartServing fill every slot exactly once |
| `RoundRobin.PicksExactly` | async_grpc/server.cc:144-149 | the exact number of times each queue is picked in any number of selections |
| `RoundRobin.Balanced` | async_grpc/server.cc:144-149 | no queue is ever ahead of another by more than one selection |
| `RoundRobin.EveryRoundOnce` | async_grpc/server.cc:144-149 | any n consecutive selections pick each of n queues once |
| `EventQueues.QueuesBalanced` | async_grpc/server.cc:144-149 | after every run the numbers of RPCs bound to any two queues differ by at most one |
| `EventQueues.QueueLaw` | async_grpc/rpc.h:63-91 | an RPC keeps its two queues for life; a clone takes completions on its parent's WRITE_NEEDED queue and its own WRITE_NEEDED on the next queue |
| `Fifo.QueuesOfRpc` | async_grpc/service.cc:43-54 | in every run the r-th RPC uses the (r+1)-th selected queue for WRITE_NEEDED, and a started one the same queue for completions |
| `Fifo.FirstInFirstOut` | async_grpc/server.cc:133-164 | what event threads took from a queue in a run, followed by its contents, is what was pushed to it: each completion to its RPC's captured queue, and one WRITE_NEEDED event for each item sent; nothing lost, added or reordered |
| `EventQueues.FirstConnectionSplits` | async_grpc/service.cc:98-102 | with more than one event thread the first connection already makes an RPC with two queues |
| `EventQueues.SameQueueIffOneThread` | README.md:131-132 | all events of every RPC go through one queue in every run if and only if there is one event thread |
| `Shutdown.ShutdownDrains` | async_grpc/service.cc:80-86 | after StopServing every fault-free run of deliveries, handlings and sends is no longer than a measure of the work left plus five times the items sent |
| `Shutdown.DrainProgress` | async_grpc/server.cc:159-163 | while an RPC is registered or an event is queued, a delivery or a handling is possible |
| `Shutdown.DrainCompletes` | async_grpc/server.cc:211-235 | from a stopped server with an exact registry whose queued connections have failed, every drain is fault-free and bounded, whatever is still sent, and when it cannot go on the registry, the event queues and gRPC are empty |
| `Shutdown.DrainExactIffFailed` | async_grpc/service.cc:80-86 | from a stopped server with an exact registry, every drain keeps it exact and reaches no removed RPC if and only if the queued connections have failed |
| `Shutdown.QueueDrains` | async_grpc/server.cc:159-163 | handling the next event of such a queue never faults, whatever the handler sends, and leaves the registry exact |
| `Shutdown.QueueShrinks` | async_grpc/server.cc:159-163 | when stopping, each handled event costs the queue a completion event or else its length, whatever the handler sends, and other queues only get WRITE_NEEDED events |
| `SmallSteps.WakeupNeverLost` | async_grpc/rpc.h:169-203 | in all interleavings, with any number of threads and Writers, a queued item of a registered RPC has someone who will look at it |
| `SerialSends.OneSenderSerial` | async_grpc/rpc.h:169-191 | in all interleavings with one event thread, or with two on an RPC that does not stream responses: one send at a time, in the order of the sends in the run, the Finish last if the call ends once, and the response slot untouched while gRPC reads it |
| `Threads.SerialIffOneSender` | README.md:131-132 | each of these holds in all interleavings if and only if one thread handles all events of the RPC or the RPC does not stream responses |
| `Threads.Overtakes` | async_grpc/rpc.h:171-190 | with two threads the third of any three items can overtake the second: two sends at once, in the wrong order, a Write after the Finish |
| `Reduction.StepRefines` | async_grpc/service.cc:59-147 | with one event thread, and no Writer holding the RPC while it is removed, every small step of connecting, reading, sending, finishing and removing is one step of the RPC's machine or none, with the same fault |
| `Reduction.OneThreadLifetime` | async_grpc/service.cc:80-147 | in all such interleavings from the first listening on, the RPC is registered exactly while something is outstanding or being handled, and nothing fails, if and only if connections come up exactly while serving |
| `Threads.LifetimeIffAlone` | async_grpc/rpc.h:207-212 | for connections that come up exactly while serving, this holds in all interleavings if and only if there is one event thread and no Writer |
| `Threads.RemovedWhileSending` | async_grpc/service.cc:118-147 | with two threads, for every type of RPC and every item, DONE can remove the RPC while the item is being sent, and the completion of the send then fails |
| `Threads.WriterAborts` | async_grpc/rpc.h:468-473 | for every type of RPC, number of threads and item, a Writer that holds the RPC while it is removed fails the CHECK |
| `Threads.AbortFreeIffNoWriters` | README.md:175 | with one event thread the CHECK never fails in any interleaving if and only if no Writer is used from another thread |
| `Witnesses.EarlyFailure` | async_grpc/service.cc:89-100 | for every configuration and listener, a connection that fails while serving leads to the use of a removed RPC |
| `Witnesses.LateConnection` | async_grpc/service.cc:81-86 | for every configuration and listener, a connection refused after StopServing makes its DONE hit a removed RPC |
| `ServiceObjects.Service.StartServing` | async_grpc/service.cc:40-55 | the nested loops leave the start state from which all runs are taken |
| `ServiceObjects.Service.HandleNewConnection` | async_grpc/service.cc:80-103 | refuses when stopping, faults on a failed connection, otherwise connects and registers a clone: as the value model says |
| `ServiceObjects.Service.HandleEvent` | async_grpc/service.cc:59-147 | the dispatch to all handlers, with the new state of the whole service or the fault |
| `ServiceObjects.Service.HandleCompletionEvent` | async_grpc/events.cc:34-37 | the pending flag is cleared before the dispatch |
| `ServiceObjects.Service.OnCompletion` | async_grpc/server.cc:133-142 | the Deliver step: stores ok and pushes the event to the queue captured at construction, or faults if the RPC is gone |
| `ServiceObjects.Service.HandleNext` | async_grpc/server.cc:151-157 | the Handle step: pops and handles one event, or has the fault of that step |
| `ServiceObjects.Service.FinishEventQueue` | async_grpc/server.cc:159-163 | the drain loop ends whatever handlers send, with its queue empty or at a fault; without fault and with an exact registry if it began with one and only failed connections waited |
| `ServiceObjects.Service.WriterSend` | async_grpc/rpc_handler.h:45-75 | the WriterSend step; true exactly if the RPC is still registered, and otherwise nothing changes |
| `AsyncClientModel.CallbackTrace` | async_grpc/async_client.h:140-209 | in every run the callback is told each message read, in order, then once how the call ended, as the run tells it; outstanding is WRITE after the start, READ after a success, FINISH after a failed write or read, nothing after FINISH |
| `AsyncClientModel.CompleteCall` | async_grpc/async_client.h:166-209 | a call with nothing outstanding is WRITE, any number of READs and FINISH, and exactly the last completion before FINISH failed |
| `AsyncClientModel.StatusNotReported` | async_grpc/async_client.h:183-209 | two runs that differ only in the server's final status make the same reports |
| `AsyncClients.AsyncClient.HandleEvent` | async_grpc/async_client.h:150-209 | the object follows the model for every event |
| `Retry.RetryWithStrategy` | async_grpc/retry.cc:90-118 | observed up to any attempt: it has ended with the first attempt that is not retried, true exactly if that one succeeded, or is still retrying; one sleep and one reset between two attempts |
| `Retry.LimitedBackoffEnds` | async_grpc/retry.cc:38-42 | for every behaviour of the operation at most max(1, max_attempts) attempts, and exactly that many if none succeeds |
| `Retry.UnlimitedEnds` | async_grpc/retry.cc:44-54 | unlimited retries end if and only if some attempt succeeds or fails with an unrecoverable code |
| `Retry.SleepsAsTold` | async_grpc/retry.cc:90-118 | the sleeps of a run are the delays the strategy gives, in order |
| `Retry.UnlimitedSleeps` | async_grpc/retry.cc:67-69 | every run of unlimited retries sleeps exactly the given delay before each further attempt, and that many times it in total |
| `Retry.BackoffSleeps` | async_grpc/retry.cc:56-65 | the i-th sleep is min_delay times factor to the i-1 |
| `Retry.BackoffGrows` | async_grpc/retry.cc:56-65 | the first delay is min_delay, and each delay is the one before it times the factor |
| `Retry.GeometricTotal` | async_grpc/retry.cc:56-65 | the closed form of the total sleep, for every factor |
| `Retry.TotalSleepBounded` | async_grpc/retry.cc:71-77 | no behaviour of the operation makes limited backoff sleep longer than the whole series |
| `Retry.DocumentedExample` | README.md:206-211 | 100 ms, factor 2 and five attempts sleep 100, 200, 400 and 800 ms and give up |
| `UnaryClient.Client.Write` | async_grpc/client.h:71-104 | every attempt has a context of its own with the one deadline of the call; result, status and response are those of the last attempt |
| `BlockingQueues.BlockingQueue.Push` | async_grpc/common/blocking_queue.h:49-53 | appends, after a wait if full; what was popped followed by the contents is always what was pushed, and never more than the capacity |
| `BlockingQueues.BlockingQueue.PushWithTimeout` | async_grpc/common/blocking_queue.h:56-65 | accepted exactly if there is room or another thread makes room during the wait |
| `BlockingQueues.BlockingQueue.Pop` | async_grpc/common/blocking_queue.h:68-75 | removes the oldest element, or the one that arrives during the wait |
| `BlockingQueues.BlockingQueue.PopWithTimeout` | async_grpc/common/blocking_queue.h:78-88 | nothing exactly if the queue is empty and no element arrives during the wait |
| `BlockingQueues.BlockingQueue.Size` | async_grpc/common/blocking_queue.h:103-106 | the number of elements pushed and not yet popped |
| `MethodName.GetLine` | async_grpc/server.cc:85-87 | the text before the first slash, and what follows it |
| `MethodName.ParseMethodFullName` | async_grpc/server.cc:81-91 | rejected exactly if the text names no method; otherwise the two parts it names |
| `MethodName.RoundTrip` | async_grpc/server.cc:81-91 | a full name names exactly its own service and method, so parsing returns them |

## Left out

- Lifetime.StepExact: takes the handling of one event as one step; in small steps this is `Reduction.OneThreadLifetime` for one event thread, and fails for two (`Threads.RemovedWhileSending`).
- Lifetime.RunGood: takes the handling of one event as one step, as above.
- Lifetime.ExactLifetime: takes the handling of one event as one step, as above; and a Writer call as one step (`Threads.WriterAborts`).
- Lifetime.NothingLeftBehind: takes the handling of one event as one step, as above.
- Trace.SendsFollowRun: takes the handling of one event as one step; for small steps see `Threads.SerialIffOneSender` and `SerialSends.OneSenderSerial`.
- Delivery.SingleOutstanding: takes the handling of one event as one step; for small steps see `Threads.SerialIffOneSender`.
- Delivery.ResponseHeld: takes the handling of one event as one step; for small steps see `SerialSends.OneSenderSerial`.
- FinishOnce.FinishOnceIffEndsOnce: takes the handling of one event as one step; with two threads a Finish can overtake a Write (`Threads.Overtakes`).
- Delivery.WriterAcceptedWhileOutstanding: takes a Writer call as one step; in small steps a Writer may fail a CHECK (`Threads.AbortFreeIffNoWriters`).
- Shutdown.DrainCompletes: takes the handling of one event and a Writer call as one step each.
- Reduction.StepRefines: is about one RPC at a time and excludes a Writer that holds the RPC while it is removed; what happens then is `Threads.WriterAborts`. The four flags of IsAnyEventPending are read in one step.
- ServiceObjects.Service.WriterSend: the weak pointer is locked, the message enqueued and the RPC looked up in one step; removal in between, after which the look-up fails a CHECK and the process ends, is in `SmallSteps` and `Threads`.
- ServiceObjects.Service.HandleNext: after a fault, which in the code is undefined behaviour, the state is not described.
- Retry.RetryWithStrategy: delays are exact reals, so float rounding and clock ticks are not modelled.
- UnaryClient.Client.Write: time is a parameter, and the retry decisions are made from the given statuses before the attempts are carried out.
- BlockingQueues.BlockingQueue.Push: a wait that never ends is excluded; the lock, the condition variable and the length of timeouts are not modelled. The same holds for Pop.
- The short methods of `ServiceObjects.Rpc`, `ServiceObjects.Service` and `AsyncClients.AsyncClient` that have no row are proved to do what the function of the same name says.
- gRPC itself, flatbuffers messages and serialization: messages are strings, and gRPC is the set of operations it holds.
- Several services in one server: one service is modelled; all services share the queue selector and nothing else.
- Addresses: an RPC index is never reused, so a stale event never meets a new object at the old address.
- Event queues of the service are sequences, and the pending and ok flags of the five events are two sets, instead of separate queue and event objects.
- Zero event threads, for which the selector divides by zero.
- Server::Builder options, CompletionQueuePool, threads and their joining, and the deadline of the gRPC shutdown.
- The unary AsyncClient and the synchronous streaming clients, which add no state beyond the clients modelled.
- Tracing, logging, ExecutionContext, type traits and the testing headers.
