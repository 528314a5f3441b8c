# The bridge protocol of tokio-tquic, verified

tokio-tquic gives async tasks a Quinn-like API over TQUIC, a QUIC engine that must
live on one thread. Between the two stands the *bridge*: tasks put commands into a
FIFO queue and await one-shot replies; the bridge thread takes commands one by one,
calls the engine, and turns the engine's callbacks into stored permits, a waker slot,
a write-once close cell, accept queues and a connection counter. This project models
that protocol as step systems in which every shared access is a step of its own, so
that every interleaving is a run, and proves what holds in every state of every run.
The source's stateful types are classes whose methods take those steps, with any
steps of everybody else allowed between two of their own.

## The parts

- `Types`, `Sync`, `Engine`, `Commands`, `StreamIds`: error enumerations and integer
  widths; tokio's `Notify` and `watch`; the engine's answers and the replies made of
  them; the command set; stream ids.
- `Parking`: the wait protocol shared by `wait_readable` and `wait_writable`.
- `StreamPath`, `StreamTheorems`, `StreamHandles`: one stream from a `SendStream`
  through both bridges, both engines and the network to a `RecvStream`.
- `Streams`, `StreamsProof`, `StreamsTheorems`, `StreamsObjects`: accepting and opening
  the streams of one connection, with any number of callers and cancellations.
- `Lifecycle`, `LifecycleProof`, `LifecycleTheorems`, `EndpointObjects`,
  `BridgeObjects`: the connections of an endpoint, the callbacks split into their
  shared accesses, `Connecting`, `wait_idle`, `closed`, endpoint close.
- `CloseCells`: the close cell of one connection as all of these see it.
- `Schedules`, `Traces`: the turns that the handle objects log; where a fact of a run
  comes from.
- `Linearizability`, `BridgeLoop`: any number of tasks, one queue, any engine.
- `Wiring`: how the commands, the bridge's calls and the systems above fit together.

## What is assumed of the engine and of tokio

The engine is an environment that may do anything within these obligations, each of
which is a guard of a step:

- connection indices are fresh and fewer than 2^64 connections are open at once; the
  created callback precedes every other use of the connection; closed fires at most
  once (`Lifecycle.BridgeEnabled`); a successful connect returns a connection created
  for it; `conn.is_server()` is the `is_server` of the handler;
- stream-created fires at most once per stream; ids of locally opened streams are
  fresh, ours, and of the requested direction (`Streams.Enabled`,
  `Streams.FreshLocal`);
- a stream is a reliable ordered byte pipe (section 2.2 of RFC 9000): a write accepts a
  prefix within its capacity and nothing only when there is none, a read hands out the
  next bytes, at most as many as asked for, and the fin only with the last of them
  (`StreamPath.MayAnswerWrite`, `StreamPath.MayAnswerRead`); a zero-length fin write is
  accepted or fails, never half done;
- after an answer of "Done", the readable or writable callback runs once there is data
  or capacity, before the next command is processed (`owed` in `Parking`).

Answers with an error, lost commands and lost replies are allowed at any time.
Atomics are sequentially consistent. `Notify` holds at most one permit;
`notify_waiters` stores none but reaches every future already created. The async
mutex is fair. `closed_tx` and the accept senders live in the same object as their
receivers, so `changed()` does not fail and `recv()` does not end while a caller holds
the object.

Stream runs follow the commands of one stream only, as a log of issued commands and
the number processed. That a run of the shared bridge looks like this from one handle
is `Linearizability.SharedQueueProjects`; that the commands of other streams do not
act on this stream's bytes is part of the pipe obligation above. The endpoint,
the accept and open futures and the handles of a stream are separate step systems with
their own view of the close cell; `CloseCells` puts the views over the one cell.

## A promise the code does not keep

`wait_idle` is documented to wait for all connections to be shut down
(src/endpoint.rs:129). It loads the counter and creates its `notified()` future in two
separate steps, and the notification for zero stores no permit. If the last connection
closes in between, the caller sleeps although the endpoint is idle.
`LifecycleTheorems.WaitIdleCanSleepForever` reaches such a state,
`LifecycleTheorems.SleepsUntilANewConnection` shows that nothing but a new connection
ends it, and `LifecycleTheorems.AsleepAtZeroIffPassedBy` gives the exact condition, in
both directions, for every run.

## Model

| member | source | states |
|---|---|---|
| `StreamTheorems.ReadIsPrefixOfWritten` | src/recv_stream.rs:28-68 | in every state of every run without cancelled futures, bytes read are a prefix of bytes the engine accepted, and, as long as every earlier write call completed, these are a prefix of bytes passed to the write calls |
| `StreamTheorems.FinMeansEverything` | src/recv_stream.rs:84-99 | a reader that has seen the fin holds exactly the bytes accepted, exactly those reported as written, and, if the writes completed, exactly the bytes passed to them; the writer has finished |
| `StreamTheorems.ReadToEndReturnsTheRest` | src/recv_stream.rs:84-99 | what is read between any state and the fin is the rest of the stream, in order, each byte once |
| `StreamTheorems.RunsOnlyGrow` | src/send_stream.rs:64-97 | bytes and commands are only appended, a finished or fully read half issues nothing more, a published close stays |
| `StreamTheorems.NoLostReadable` | src/recv_stream.rs:123-143 | a read parked without notification: no permit is stored, it was answered with nothing at some step and no readable callback has run since, the engine holds nothing for it unless its callback is due first, and that callback wakes it |
| `StreamTheorems.NoLostWritable` | src/send_stream.rs:121-141 | the same for a write parked after a reply of zero, with free capacity in place of data |
| `StreamTheorems.ParkedSinceAnEmptyAnswer` | src/recv_stream.rs:43-48 | a read or write parked without notification was answered with nothing at some step of the run, and no callback for its half has run since |
| `StreamTheorems.RoundsArePaidFor` | src/recv_stream.rs:33-48 | between any two moments of a run, waits that end are paid for by the notification held at the first and the callbacks since; so from outside a call, a read or write goes through at most one round more than there are callbacks during it, however many ran before: a stale permit costs one extra round |
| `StreamTheorems.SendCommandsFollowGrammar` | src/send_stream.rs:26-113 | commands of a SendStream are data writes and priority changes, then at most one fin or write-shutdown, present exactly when finished and at the latest after drop |
| `StreamTheorems.RecvCommandsFollowGrammar` | src/recv_stream.rs:102-115 | commands of a RecvStream are reads, then at most one read-shutdown; a dropped one saw the fin or sent the shutdown, never both |
| `StreamTheorems.StepsIssue` | src/send_stream.rs:26-113 | along every run, exactly which command each call puts into the queue, with its bytes, flags and codes; in particular a handle dropped unfinished issues the fin write, one dropped unread a read-shutdown of code 0 |
| `StreamTheorems.FinishReachesTheEngine` | src/bridge.rs:812-836 | if nothing was lost or refused, a half that ended with a fin write and whose commands are all processed has told the engine of the fin |
| `StreamTheorems.ErrorsAreTrue` | src/bridge.rs:812-865 | in every run, the error that ended a write or a read says what the engine answered to that very command (a stop or reset with its code up to 32 bits, a failure, a connection that is gone), stands for that command having been lost, or is the published close reason |
| `StreamTheorems.StreamCloseWasGiven` | src/recv_stream.rs:129-140 | what a half finds in the close cell was put there by a close of that connection |
| `StreamPath.StepKeeps` | src/bridge.rs:812-865 | every step of tasks, bridges, engines and network keeps the stream invariant (accounting, wait protocol, grammar) |
| `StreamPath.RunKeeps` | src/bridge.rs:599-665 | hence every reachable state has it |
| `StreamPath.Clamp` | src/send_stream.rs:105 | the urgency sent is the priority if that lies in 0..255, and otherwise the end of the range it is beyond |
| `Parking.NoLostWakeup` | src/recv_stream.rs:129-141 | the wait protocol by itself: parked and not notified means no permit, a callback still owed, due at once if there is anything to do, and waking the task when it runs |
| `Parking.EngineKeeps` | src/bridge.rs:402-423 | Done answers, new data or capacity, and callbacks keep the wait invariant |
| `Parking.TaskKeeps` | src/recv_stream.rs:123-143 | so does each access of wait_readable and wait_writable |
| `Parking.CancelKeeps` | src/send_stream.rs:121-141 | so does dropping the future inside the wait, because an unobserved notification is handed back |
| `StreamHandles.SendStream.WaitWritable` | src/send_stream.rs:121-141 | both looks report the cell as it is: an error is the published close reason, Ok means the cell is empty after the wakeup; pending means parked without notification; nothing written or issued changes |
| `StreamHandles.SendStream.Write` | src/send_stream.rs:26-51 | Ok(n) has 0 < n and reports exactly the first n bytes; an error ended a command of this call and reports none; pending means stuck (command unanswered, or parked and not notified) after the others were given every chance of the schedule; on a finished stream nothing is sent |
| `StreamHandles.SendStream.WriteAll` | src/send_stream.rs:54-61 | Ok: the engine accepted exactly buf after what it had; error: exactly a prefix, the rest unwritten, and the error ended a command of this call; it stops before that only when stuck after the others were given every chance of the schedule |
| `StreamHandles.SendStream.Finish` | src/send_stream.rs:64-81 | one fin write the first time, ClosedStream and no command afterwards |
| `StreamHandles.SendStream.Reset` | src/send_stream.rs:84-97 | one write-shutdown with the code unless finished |
| `StreamHandles.SendStream.SetPriority` | src/send_stream.rs:100-113 | one clamped priority change unless finished |
| `StreamHandles.SendStream.Drop` | src/send_stream.rs:210-216 | exactly one fin write if the stream was not finished, nothing otherwise |
| `StreamHandles.RecvStream.WaitReadable` | src/recv_stream.rs:123-143 | as WaitWritable, for the reading half |
| `StreamHandles.RecvStream.Read` | src/recv_stream.rs:28-68 | Some(n) has n > 0 and puts exactly the next n bytes of the stream at the offset, touching nothing else; None means all data was read; an error ended a command of this call and consumes nothing; pending means stuck after every chance of the schedule |
| `StreamHandles.RecvStream.ReadExact` | src/recv_stream.rs:71-81 | Ok fills the buffer with the next bytes; FinishedEarly(k) means k bytes were all that remained; other errors ended a command of this call; pending means stuck after every chance of the schedule |
| `StreamHandles.RecvStream.ReadToEnd` | src/recv_stream.rs:84-99 | Ok is within the limit and is everything that remained; TooLong only past the limit, by at most 8192 bytes; other errors ended a command of this call; pending means stuck after every chance of the schedule |
| `StreamHandles.RecvStream.Stop` | src/recv_stream.rs:102-115 | one read-shutdown with the code unless all data was read |
| `StreamHandles.RecvStream.Drop` | src/recv_stream.rs:194-200 | exactly one read-shutdown with code 0 unless all data was read; afterwards exactly one of "fin seen" and "shutdown sent" holds |
| `StreamIds.BitTestsAgree` | src/bridge.rs:381-398 | the two bit tests are the classification of section 2.1 of RFC 9000, for all 64-bit ids |
| `StreamIds.FirstOfEachType` | src/bridge.rs:381-398 | ids 0 to 3 are the first streams of the four types of section 2.1 of RFC 9000 |
| `StreamsTheorems.AcceptConserves` | src/connection.rs:204-301 | ids delivered, then ids queued, are the peer's streams of that direction in creation order, each once; no two callers get the same |
| `StreamsTheorems.OneHandlePerHalf` | src/connection.rs:426-511 | at most one SendStream and one RecvStream per stream, ever |
| `StreamsTheorems.DeliveredMeansHandled` | src/connection.rs:224-242 | a stream of the peer has its handles if and only if it was delivered, the right halves for its direction; a resolved open has its own |
| `StreamsTheorems.HandlesAreLegal` | src/bridge.rs:381-398 | handles exist only for directions this side may use; only the peer's streams are queued for accepting |
| `StreamsTheorems.CloseErrorsAgree` | src/connection.rs:213-298 | every accept error, and every error of an open future that had not sent its command, is the published close reason, the same at any two moments of a run |
| `StreamsTheorems.ReasonWasPublished` | src/bridge.rs:358-360 | what the accept and open futures find in the close cell is what was published |
| `StreamsTheorems.OpenResultsAreTrue` | src/connection.rs:426-511 | an open future resolves with the close reason read before sending, or with what the bridge answered to its own command |
| `StreamsTheorems.OpenIsAskedOnce` | src/connection.rs:430-440 | in every run each open future sends its command at most once and the bridge processes it at most once |
| `StreamsTheorems.HolderCanMove` | src/connection.rs:220-253 | after close the lock holder can always move: its clone has not seen the published version |
| `StreamsTheorems.SomeoneCanMove` | src/connection.rs:213-253 | after close, while someone is unresolved, someone can move |
| `StreamsTheorems.StepsBringTheEndNearer` | src/connection.rs:213-253 | after close every step of an accept future lowers the distance to the end |
| `StreamsTheorems.EveryAcceptResolves` | src/connection.rs:213-298 | between any two moments of a run after the close, with callers arriving, being cancelled while queued or holding the lock, and streams created and opened meanwhile: the accept futures together take no more steps than they had left plus one per new caller; when none can move, every caller not dropped has resolved, errors being the published reason |
| `StreamsTheorems.NoStreamIsStranded` | src/connection.rs:218-245 | while a stream is queued and some caller of its direction is unresolved, one of them can move |
| `StreamsTheorems.SelectTakesTheFirst` | src/connection.rs:223-245 | a caller that selects while a stream is there resolves with the first of the queue, unless it sees the close first |
| `StreamsProof.RunKeeps` | src/bridge.rs:372-400 | lock, close, award and handle invariants hold in every reachable state |
| `StreamsProof.PeerStreamsAre` | src/bridge.rs:391-398 | the reference sequence holds exactly the peer's streams of the direction, without repetition |
| `StreamsObjects.Accept.AwaitLock` | src/connection.rs:220 | the lock is held, or the future stands in line and cannot move |
| `StreamsObjects.Accept.Select` | src/connection.rs:222-252 | an id, or the close branch, or parked with the unseen version and neither branch ready |
| `StreamsObjects.Accept.Run` | src/connection.rs:204-301 | Ok is an id delivered to this caller and no other; an error is the published reason; pending means that the future cannot move after the others were given every chance of the schedule |
| `StreamsObjects.Open.PollOnce` | src/connection.rs:426-511 | the command is sent by the first poll; the result is the close reason read before that or the bridge's answer to that command; Ok leaves the handles in place; on a closed connection the first poll opens nothing |
| `LifecycleTheorems.CounterIsExact` | src/bridge.rs:316-369 | open_connections is the number of entries with no published close reason, off inside a callback by exactly the access in progress; neither change wraps |
| `LifecycleTheorems.NoLostHandshakeWakeup` | src/connection.rs:132-159 | a pending Connecting whose connection is established or closed has had its latest waker woken, or the callback in progress takes exactly that waker next |
| `LifecycleTheorems.HandshakeResultsAreTrue` | src/connection.rs:100-160 | Ok means established; an error from the close cell is the published reason; any other is a dropped reply or the refusal of the connect: LocallyClosed for a stopping endpoint, CidsExhausted for that, and else a transport error of code 0 with the text of the refusal |
| `LifecycleTheorems.EstablishedHappened` | src/bridge.rs:330-340 | a connection counts as established only after the engine reported it, in every run |
| `LifecycleTheorems.EngineEstablishIsStored` | src/bridge.rs:335 | and always once it has |
| `LifecycleTheorems.ConnectionWasGiven` | src/connection.rs:107-110 | a Connecting future that succeeds yields the connection that the bridge gave to that very future, or that it was accepted for |
| `LifecycleTheorems.RefusalWasGiven` | src/connection.rs:111-116 | one that fails without reading the close cell reports what the bridge replied to its own connect, or that the reply was dropped |
| `LifecycleTheorems.WokenWasWoken` | src/bridge.rs:336-338 | a future counts as woken only if a callback took and woke the waker of its latest poll |
| `LifecycleTheorems.IdleReturnsAtZero` | src/endpoint.rs:130-140 | a wait_idle that returned did so in a step of its own that read zero |
| `LifecycleTheorems.AsleepAtZeroIffMissed` | src/endpoint.rs:130-140 | the same characterisation as the next row, by a flag kept along the run |
| `LifecycleTheorems.AsleepAtZeroIffPassedBy` | src/endpoint.rs:130-140 | asleep at zero with no notification due, if and only if the last notification fell between the nonzero load and notified() |
| `LifecycleTheorems.MissedMeansInTheWindow` | src/bridge.rs:366-369 | only a notification in the window raises the flag, only a new connection or the task's own wakeup lowers it |
| `LifecycleTheorems.NotifyWakesSleepers` | src/bridge.rs:367-369 | the notification wakes every future that exists |
| `LifecycleTheorems.WaitIdleCanSleepForever` | src/endpoint.rs:132-135 | a reachable idle state in which the waiter sleeps and nothing is pending |
| `LifecycleTheorems.StuckUntilANewConnection` | src/endpoint.rs:135 | it stays so under every step except the creation of a connection |
| `LifecycleTheorems.SleepsUntilANewConnection` | src/endpoint.rs:131-139 | hence along every stretch of a run in which no connection is created, however long |
| `LifecycleTheorems.PublishedStays` | src/bridge.rs:358-360 | entries are never removed; close reason, established flag and endpoint_closed never change back |
| `LifecycleTheorems.CloseReasonsAgree` | src/connection.rs:339-363 | at any two moments of a run, every answer taken from one close cell by closed(), by a Connecting future or by close_reason is the same reason |
| `LifecycleTheorems.CloseReasonStays` | src/connection.rs:359-363 | the answer of close_reason never changes once there is one |
| `LifecycleTheorems.ReasonIsTheEngines` | src/bridge.rs:346-360 | a published close reason is the one with which the engine closed that very connection |
| `LifecycleTheorems.EngineCloseIsPublished` | src/bridge.rs:358-360 | and every close by the engine is published with its reason by the next access |
| `CloseCells.AllCloseAnswersAgree` | src/bridge.rs:358-360 | over the one close cell of a connection: what closed(), close_reason and Connecting were told, what accept and open futures were told, and what wait_readable and wait_writable find in it are one reason, at whatever moments and in any interleaving |
| `LifecycleTheorems.ClosedNeverParks` | src/connection.rs:339-356 | no closed() caller is parked once the reason is published |
| `LifecycleTheorems.CloseEndpointCoversAll` | src/bridge.rs:755-769 | CloseEndpoint calls close with the given code and reason on every live connection and no other |
| `LifecycleTheorems.CloseReachesOne` | src/bridge.rs:782-790 | CloseConnection calls close on that connection alone, with its code and reason, and only if the engine still has it |
| `LifecycleTheorems.NobodyEntersAfterClose` | src/endpoint.rs:57-97 | once the endpoint is closed, connect, connect_with and accept are refused to everybody who looks; at most those who looked before get through |
| `LifecycleTheorems.IncomingConserved` | src/endpoint.rs:158-183 | in every state, connections accepted, then queued, then the one a created callback is about to queue, are the connections created on a server, in order, each once; none on a client |
| `LifecycleTheorems.AcceptedIsOwned` | src/endpoint.rs:174-179 | every connection taken from the accept queue has its Connecting future |
| `LifecycleTheorems.SidesAgree` | src/bridge.rs:316-318 | every connection knows which side this endpoint is on |
| `LifecycleProof.RunKeeps` | src/bridge.rs:307-370 | counting, wakers, idle waiters, close cells and the incoming queue are consistent in every reachable state |
| `EndpointObjects.Endpoint.WaitIdle` | src/endpoint.rs:130-140 | returns with the counter at zero; pending means asleep after the others were given every chance of the schedule, and at zero with nothing due exactly if the notification was missed |
| `EndpointObjects.Connecting.AwaitHandshake` | src/connection.rs:126-159 | check, register, check again: the result the future ends with, or waiting, with the waker of this poll in the slot or already woken |
| `EndpointObjects.Connecting.PollOnce` | src/connection.rs:100-160 | Ok means established; an error is the published reason or the reply to the connect; pending means the reply is not there, or the waker of this poll is in the slot or woken |
| `EndpointObjects.Connection.Closed` | src/connection.rs:339-356 | the published reason, or pending with none published after the others were given every chance of the schedule; LocallyClosed for an unknown connection |
| `EndpointObjects.Connection.CloseReason` | src/connection.rs:359-363 | the answer agrees with every answer anybody was given from this cell at any earlier moment of the run |
| `BridgeObjects.ConnNotify.GetOrCreateReadable` | src/bridge.rs:246-251 | the entry of the stream, never replaced, new only if there was none, and shared with no other half of any stream |
| `BridgeObjects.ConnNotify.GetOrCreateWritable` | src/bridge.rs:253-258 | the same for the writable entries |
| `BridgeObjects.ConnNotify.OnStreamCreated` | src/bridge.rs:372-400 | both entries exist; the id joins exactly the accept queue of its RFC 9000 type if the peer opened it, and none otherwise |
| `BridgeObjects.ConnNotify.OnStreamReadable` | src/bridge.rs:402-412 | one notification on the stream's own entry; no entry of another stream, and no writable entry, changes |
| `BridgeObjects.ConnNotify.OnStreamWritable` | src/bridge.rs:414-423 | one notification on the stream's own entry; no entry of another stream, and no readable entry, changes |
| `BridgeObjects.ConnNotify.OnStreamClosed` | src/bridge.rs:425-438 | one notification on each of the stream's own entries that exists; no entry of another stream changes |
| `BridgeObjects.BridgeHandle.OnConnCreated` | src/bridge.rs:307-328 | the shared objects show the state after the callback; other entries stay the same objects |
| `BridgeObjects.BridgeHandle.OnConnEstablished` | src/bridge.rs:330-340 | likewise, and the waker woken is the registered one |
| `BridgeObjects.BridgeHandle.OnConnClosed` | src/bridge.rs:342-370 | likewise: published, waker taken, uncounted, notified if last |
| `BridgeObjects.BridgeHandle.CloseEndpoint` | src/bridge.rs:755-769 | the loop makes exactly the close calls of the step system, one per connection |
| `BridgeObjects.CreateRunsThrough` | src/bridge.rs:316-327 | the callback is its three accesses run without interruption |
| `BridgeObjects.EstablishRunsThrough` | src/bridge.rs:334-339 | the callback is its two accesses |
| `BridgeObjects.CloseRunsThrough` | src/bridge.rs:358-369 | the callback is its five accesses |
| `Linearizability.EveryHistoryLinearizes` | src/bridge.rs:599-665 | for every engine and run, the history is explained by one sequential run of direct calls: each takes effect between its sending and its reply, replies are the ones that run gives, real-time and sending order are respected, fire-and-forget commands included |
| `Linearizability.StepKeeps` | src/bridge.rs:173-178 | sending, processing, engine moves, receiving and abandoning a reply keep the invariant behind it |
| `Linearizability.RepliesConserved` | src/bridge.rs:678-1001 | a processed command with a reply channel has its reply in exactly one place: waiting, received by its task, or dropped with its future; a fire-and-forget command never has one |
| `Linearizability.QueueIsFifo` | src/bridge.rs:639-651 | commands processed, then queued, are the commands sent, in order |
| `Linearizability.EachStreamHasItsOwnQueue` | src/bridge.rs:639-651 | the same for any class of commands by itself |
| `Linearizability.SharedQueueProjects` | src/bridge.rs:599-665 | every step of the shared bridge, watched through the commands of one handle, issues one of them at the end, processes the next of them, or is no step at all |
| `BridgeLoop.Bridge.SendCmd` | src/bridge.rs:173-178 | the command joins the end of the queue |
| `BridgeLoop.Bridge.ProcessConnect` | src/bridge.rs:688-743 | the engine is called unless the configuration fails to build, with the address, the name, and the own configuration before the default; success is reported exactly for a connection the engine made, and each kind of failure as its own error |
| `BridgeLoop.Bridge.ProcessStream` | src/bridge.rs:792-865 | one call that asks for exactly what the command does (direction, bytes, fin, length); the reply reports exactly what the engine answered, with stop and reset codes up to 32 bits |
| `BridgeLoop.Bridge.ProcessCommand` | src/bridge.rs:678-895 | a reply goes exactly to the commands that carry a channel; a call asks for exactly what the command does, down to codes, reasons and urgency; which commands do not touch the engine; only SetDefaultClientConfig replaces the default, only CloseEndpoint closes the endpoint |
| `BridgeLoop.Bridge.Dispatch` | src/bridge.rs:639-651 | one turn of the loop is one processing step of the linearizable system |
| `BridgeLoop.Bridge.RunBridge` | src/bridge.rs:599-665 | under any schedule, every step that can happen does; what the tasks have seen is explained by the operations processed; the calls made on the engine are exactly the calls of that explanation, in order; a closed endpoint stays closed |
| `BridgeLoop.Endpoint.Connect` | src/endpoint.rs:57-75 | refused exactly if the endpoint is closed; else one Connect without a configuration of its own |
| `BridgeLoop.Endpoint.ConnectWith` | src/endpoint.rs:78-97 | the same with the given configuration |
| `BridgeLoop.Endpoint.Close` | src/endpoint.rs:122-127 | one CloseEndpoint with the given code and reason |
| `Commands.CallsCarryTheirCommands` | src/bridge.rs:678-895 | every direct call asks for exactly what its command does; a command without one is internal or a connect that could not be built |
| `Linearizability.LatestDefaultWins` | src/bridge.rs:751-753 | the default configuration is the one set last |
| `Engine.ReplyToWrite` | src/bridge.rs:819-835 | the reply reports the answer: its kind, the count, the stop code up to 32 bits |
| `Engine.ReplyToRead` | src/bridge.rs:844-864 | the same for reads |
| `Wiring.WriteCallFillsThePipe` | src/bridge.rs:812-836 | the pipe takes in exactly what the bridge's call offers, as far as the engine accepted it, with the fin of the call; the task that awaits the command, and nobody else, is told the answer |
| `Wiring.ReadCallDrainsThePipe` | src/bridge.rs:838-865 | the call asks for as many bytes as the caller has room for; the awaiting task gets exactly the bytes that leave the pipe |
| `Wiring.EndsReachTheRightHalf` | src/bridge.rs:867-885 | fin, write-shutdown and read-shutdown reach the engine as that end of that half, with their codes |
| `Wiring.OpenCallFitsTheFuture` | src/bridge.rs:792-810 | the call asks for the direction of the open future, the stream it yields is of that direction, and the future is told what the engine answered |
| `Wiring.CloseCallsAreTheSame` | src/bridge.rs:755-790 | closing a connection or the endpoint is an application close with the given code and reason |
| `Wiring.RefusalIsReported` | src/error.rs:100-117 | a connect the engine refuses as InvalidConfig(text) resolves with a transport error of code 0 and that text, any other refusal with LocallyClosed |
| `Types.AsU32` | src/bridge.rs:823-826 | stop and reset codes are narrowed to 32 bits, and survive exactly if they are below 2^32 |
| `Types.FromConnectError` | src/error.rs:100-117 | LocallyClosed exactly for a stopping endpoint, CidsExhausted exactly for exhausted ids, else a transport error of code 0 with the text of the error |

## Left out

- `AsyncWrite::poll_write` and `AsyncRead::poll_read`: each poll issues a fresh command and drops its reply, so the byte and wakeup properties do not extend to them.
- Waking parked readers and writers when the connection closes: the closed callback does not touch the per-stream notifiers, so they wake only by a later stream callback.
- Liveness of `Endpoint::accept`: setting `endpoint_closed` wakes nobody and the receiver keeps only the last waker; delivery is covered.
- Shutdown of the bridge by closing the command channel: the bridge itself holds a sender.
- Outgoing connections on a server endpoint: they would also be queued as incoming.
- Carrying reset and stop codes through the network: only their narrowing at the bridge is modelled.
- `write(&[])` and `read` into an empty buffer: they depend on engine details that are not part of this model.
- Byte accounting across cancelled read and write futures: their replies are dropped; grammar and wakeup properties do cover them.
- The choice of the close reason from the engine's error state (src/bridge.rs:346-356): the reason is arbitrary here, so everything holds for each choice.
- Accept futures with an unknown connection id and stream waits without a `ConnNotify` entry: entries are never removed, so a handle always finds its own.
- Memory orderings weaker than sequential consistency.
- Sockets, packet sending, timers, TLS, thread start-up and the engine itself: I/O or foreign code.
- Round-trip-time and path commands, datagrams, 0-RTT, configuration builders and id newtypes: field copies, single mappings or unsupported features.
