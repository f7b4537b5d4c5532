# A verified model of the Redis proxy

Many client sessions share a few Redis connections. A session parses its input into frames, batches
the accepted ones and hands each batch to one backend channel; it stays with that channel while
replies are outstanding. A channel moves batches from a write queue to a queue of reply slots, writes
them to Redis and matches replies to slots by position. Sessions may half-close, abort or disappear,
and connections fail and are reopened, at any suspension point. All bytes travel in reference-counted
blocks that buffers and slices share. This project models that machinery and proves that every client
gets exactly its own replies, in order, on every run.

## How it is built

| files | content |
|---|---|
| `Resp`, `Framing`, `RoundTrip` | a slot-limited RESP2 parser and the encoder it inverts, the growing-arena `unpack`, `peekFrame`, and a client's whole stream read as a list of requests |
| `Grammar`, `Beginnings`, `Streams` | which bytes spell which RESP value, which are the beginning of one, and what requests a stream contains, said without the parser, and that the parser agrees |
| `Channels`, `Sessions`, `Proxy` | channels, sessions and Redis as one transition system: a step is the code between two suspension points, or less |
| `ProxyInv`, `ProxySteps`, `ProxyFrames` | its invariant, kept by every event |
| `Theorems`, `Connections` | what the invariant means for clients, channels and the worker, and what each connection carries, over whole runs |
| `ChannelCauses`, `SessionCauses`, `Exchanges` | over whole runs, the events on which a connection is opened, lost or stopped, a session fed, answered, drained, aborted or ended, and a batch, reply or failure passed on: those events, and no others |
| `OwnerCalls`, `Objects`, `Refinement` | `BackendChannel`, `BackendPool` and `ClientSession` as objects updated in place, proved to run that transition system |
| `Buffers`, `BufferRuns`, `Intake` | blocks, pool, slices, chains and `IoBuffer` on the heap; every sequence of operations on a pool's buffers and chains; frames cut from real buffers |
| `CoSockets`, `Delivery`, `Replies`, `Sending` | `writeAll`; a client's bytes on their way to Redis and Redis's bytes on their way back, without a copy; and the channel writing its batches |
| `Signals`, `Workers` | `CoroutineSignal`, and the two-thread hand-off of connections |

Every accepted command carries a tag: the session it belongs to, counted over the life of the worker,
and the number of the request within it. Tags stand for the bytes, so "the right reply" has a meaning.
Addresses of destroyed sessions are reused; a stale owner would be an address that no longer, or
wrongly, names a session.

## Assumptions

- `notify()` never switches coroutine (the order in `src/client_session.cpp:144-146` depends on it).
- Block size is positive; the limits checked in `src/config.cpp:140-142` are positive, and the
  per-read command budget is below 2^32 because of the cast in `src/client_session.cpp:74`.
- Counters are ideal integers; that none of them underflows is proved.
- Redis answers the commands of one connection in order, one reply each ("Request-Response model" and
  "Multiple commands and pipelining" in the RESP specification). A reply nobody asked for is possible
  once all slots are used.
- The command table is an arbitrary verdict for each name and argument count. Only commands with one
  reply each are accepted.
- `redis::UnpackOne` is third-party and not part of the repository. `Resp` follows the RESP
  specification instead: sections "Simple strings", "Simple errors", "Integers", "Bulk strings",
  "Null bulk strings", "Arrays" and "Null arrays". Nothing about it is assumed; what the proxy needs of it is proved of this definition.
- Coroutines run between suspension points without interruption. Some events of the model stop where
  the source carries straight on; that only adds interleavings.

## Results that are not what one might expect

- Turning "arena full" at the last size into "need more" never hides a complete frame, but it can hide
  a malformed one: a nine-element array header followed by garbage is reported as incomplete until
  enough bytes arrive. `UnpackRefinesUnbounded` says exactly when, `MalformedHiddenByArena` shows it.
- "ERR proxy out of memory" (`src/client_session.cpp:60`) is never produced by parsing: `unpack` reports
  no-memory only when an allocation fails (`Unpacked`).
- "Need more" does not mean that more can help: a line feed inside a simple string, or a length beyond
  the limit, is noticed only at the end of its line. `WaitingInVain` shows it, and `WaitingPaysIfOpen`
  says exactly when some continuation is a value: the unfinished line or payload has no byte out of place.
- The detach in `finishLoop` finds nothing to detach (`FinishDetachesNothing`).

## Model

| member | source | states |
|---|---|---|
| `Theorems.RepliesFollowRequests` | src/client_session.cpp:47-148 | on every run, replies queued and handed to a client are a prefix of the answers to the requests in its byte stream: one each, in order, its own commands' replies, rejections in place, a fatal error last |
| `Theorems.NothingHeldBack` | src/client_session.cpp:47-138 | a reader waiting for input has read every request received; a session that ends without abort has answered its whole stream |
| `Theorems.SameBytesSameRequests` | src/client_session.cpp:49-108 | on any two runs, with any reads, failures and per-read budgets, sessions that received the same bytes have read the same requests once caught up, and never contradict each other before |
| `Theorems.PipelineGetsItsAnswers` | src/client_session.cpp:47-148 | a client that sends any pipeline of commands and closes has, when its session ends without abort, been sent one reply per command, in order: Redis's for allowed commands, the table's complaint for others |
| `Theorems.EverySlotIsRight` | src/backend_channel.cpp:24-37 | on a live connection the k-th answer owed, or command yet to be sent, fills the k-th reply slot, which belongs to the session waiting for it or to nobody if that session left |
| `Theorems.DispatchIsRight` | src/backend_channel.cpp:50-61 | a dispatched reply always finds a slot; its owner is alive, not aborted, and receives it as the answer to its oldest unanswered request; no other session changes, and none does if the owner has left |
| `Theorems.CountersMatchQueues` | src/client_session.cpp:34-45 | `pending_replies_` is the number of the session's commands in `current_backend_`, zero in every other channel and exactly when that is null; a pinned channel is healthy; an address without a session has no commands |
| `Theorems.RefusedOnlyWithoutBackends` | src/backend_pool.cpp:35-52 | selection fails if and only if no channel is healthy and the session has nothing outstanding |
| `Theorems.LoadIsExact` | src/backend_channel.cpp:15-75 | `queued_commands_` is the sum over both queues and never negative; a channel that is not ready holds nothing; slots and unanswered commands agree in number |
| `Theorems.OwnersAreAlive` | src/client_session.cpp:20-32 | every owner in any queue is an unfinished session pinned to that channel; completion is reported once, exactly when both loops have exited |
| `Theorems.FinishedAreLeftAlone` | src/client_session.cpp:27-32 | no event touches a session after it has reported completion, except its removal |
| `Theorems.NoLostWakeUps` | src/coroutine_signal.cpp:5-18 | whoever sleeps unsignalled on `writer_signal_`, `output_signal_` or `reply_signal_` has a wait condition that is still false |
| `Theorems.ConnectionsStartClean` | src/backend_channel.cpp:93-115 | a channel becomes ready only by a successful connect, with empty queues, nothing owed on the wire, no reply or begun reply in its input, no reader left over, and a history of its own |
| `Theorems.StepFate` | src/client_session.cpp:34-45 | no event changes a settled fate, and only the reader of an open session adds commands |
| `Theorems.FatesAreFinal` | src/backend_channel.cpp:50-75 | over any run, a command answered, discarded or failed stays so, and none disappears |
| `Theorems.EveryCommandAccountedFor` | src/backend_channel.cpp:15-75 | a request accepted at any moment of a run has a fate at every later one, even after its session is gone: outstanding exactly while some queue holds it, which takes a living session; for a living session delivered exactly when its reply has been queued, and discarded or failed only if the session was aborted |
| `Theorems.OutstandingIffQueued` | src/backend_channel.cpp:15-37 | a command is outstanding if and only if it waits in some queue under some session's name |
| `Theorems.FateOfLiving` | src/client_session.cpp:140-170 | only accepted requests have a fate; a living session's is delivered exactly when its reply is queued, and lost only by an abort |
| `Theorems.FailureTellsOwnersOnce` | src/backend_channel.cpp:63-75 | a failing connection calls each distinct owner once and aborts it, leaves everybody else untouched, and fails exactly its commands |
| `Connections.WholeBatchesInOrder` | src/backend_channel.cpp:117-130 | on every run, the commands a connection has carried and what is left of the batch being written are the batches taken off the write queue, in order; once it is lost, all of them but the last have gone out whole, and of the last a prefix |
| `Connections.BatchesLeaveInOrder` | src/backend_channel.cpp:93-130 | a connection's history grows only by the head of its write queue, and starts anew only with a successful connect |
| `Connections.BatchesWereAsked` | src/client_session.cpp:34-45 | every batch queued or started is, request for request, a stretch of what its session had asked for when it submitted it |
| `Connections.StartedAreJudged` | src/client_session.cpp:49-76 | every batch a connection has started is made of well-formed frames, one for each command |
| `Connections.RedisReadsWhatIsCarried` | src/backend_channel.cpp:117-130 | on every run, Redis makes of the bytes written on a connection exactly the commands the connection has carried, in order; a command cut short shows nothing |
| `ChannelCauses.ConnectionLostIff` | src/backend_channel.cpp:63-153 | on every run, a ready channel gives up its connection if and only if it is stopped, a write fails, a read fails, or its input goes on with no reply; it is then left closing, with empty queues |
| `ChannelCauses.ReadyIffConnected` | src/backend_channel.cpp:95-101 | it becomes ready if and only if connecting succeeds and no stop has been requested |
| `ChannelCauses.StopsOrConnects` | src/backend_channel.cpp:95-114 | it stops if and only if `run` goes on between two connections and a stop was requested; without the request that step, and no other, asks for a connection |
| `ChannelCauses.StartAndStop` | src/backend_channel.cpp:77-91 | a stopped channel sets out again exactly when started; a stop is requested by `stop` alone and forgotten by that start alone |
| `ChannelCauses.RunGoesOn` | src/backend_channel.cpp:93-130 | the events on which `run` writes a batch, returns to its queue, waits for the reader, closes and backs off, each if and only if |
| `ChannelCauses.ReaderGoesOn` | src/backend_channel.cpp:132-153 | the events on which the input loop reads, parses and goes back to reading; it ends exactly when it finds the connection gone |
| `ChannelCauses.SleepsIff` | src/backend_channel.cpp:107-122 | the channel's coroutine falls asleep exactly at a wait whose condition fails and without a notification; every wait uses the notification up |
| `ChannelCauses.InputIff` | src/backend_channel.cpp:135-151 | what a read returns is added to the input in order; it leaves by one parser turn each, or with the connection |
| `ChannelCauses.OutputIff` | src/backend_channel.cpp:117-130 | what is taken off the write queue is what is sent, in order, and nothing else is |
| `SessionCauses.AbortedIff` | src/client_session.cpp:34-170 | on every run, a session is aborted if and only if a write to its client fails, a read fails while it is open, its reader has an accepted request, nothing outstanding and no ready channel, or a channel it waits on loses its connection |
| `SessionCauses.DrainsIff` | src/client_session.cpp:77-108 | it starts draining if and only if the client closes or the reader comes to a broken frame |
| `SessionCauses.OwnersAreTold` | src/backend_channel.cpp:63-75 | a session's failure count rises, by one, exactly when a channel it waits on loses its connection, and it is then aborted |
| `SessionCauses.ReaderTurnTakes` | src/client_session.cpp:47-109 | a reader turn takes the accepted requests at the head of the buffer, up to the budget, and what stops them; without a complete frame it ends in `readSome`, at the budget it carries on, a refused command awaits its turn, a broken one drains; without a channel it aborts |
| `SessionCauses.ReceivedIff` | src/client_session.cpp:98-107 | the bytes of a session are those its reads returned while it was open, in order, and its end of file the one they reported |
| `SessionCauses.WriterGoesOn` | src/client_session.cpp:111-138 | each turn of the output loop hands the socket up to 64 replies, or the final error once nothing else is left or due; it exits, sleeps and returns from a write exactly when it should |
| `SessionCauses.SessionReaderGoesOn` | src/client_session.cpp:47-109 | the input loop exits exactly when the session is no longer open, and sleeps exactly while a refused command waits for earlier replies |
| `SessionCauses.QueuedIff` | src/client_session.cpp:86-148 | every reply queued for a client is a channel's reply to it, the error of a refused command whose turn it is, or the final error; and each of those is queued |
| `SessionCauses.SessionsComeAndGo` | src/worker.cpp:50-68 | a session exists from a client's arrival, fresh and with a number never used, until it is reaped with both loops exited, and neither begins nor ends otherwise |
| `SessionCauses.NobodyIsStuck` | src/client_session.cpp:47-138 | every loop of every session and channel that has not ended and does not sleep can go on |
| `Exchanges.LossReachesOwners` | src/backend_channel.cpp:63-75 | when a connection is lost, every session with commands there is told once and aborted, and those commands have failed |
| `Exchanges.ReplyIsPassedOn` | src/backend_channel.cpp:50-61 | a parser turn with a reply at hand uses up that reply and the first slot, and hands it to the slot's session as the answer it has waited for longest |
| `Exchanges.BatchGoesToLeastLoaded` | src/backend_pool.cpp:35-52 | a reader's batch, exactly its accepted requests, goes whole to the channel its session waits on, or else to the first of the least loaded, and no other channel changes |
| `ProxySteps.StepInv` | src/backend_channel.cpp:93-153 | every event of every coroutine, socket and Redis keeps the invariant that couples sessions, channels and fates |
| `ProxySteps.RunInv` | src/client_session.cpp:47-170 | the invariant holds in every state of every run |
| `ProxySteps.ReaderTurnInv` | src/client_session.cpp:47-109 | a whole reader turn, submitting, rejecting or draining, keeps it |
| `ProxySteps.LeastLoadedReady` | src/backend_pool.cpp:35-45 | the channel chosen is healthy, carries the least load and is the first such; none is chosen only if none is healthy |
| `ProxySteps.ReapInv` | src/worker.cpp:65-68 | removing finished sessions, whose addresses may then be reused, keeps the invariant |
| `ProxyInv.AbortInv` | src/client_session.cpp:160-170 | aborting any set of sessions restores the coupling, also for sessions whose commands were lost but which had not been told |
| `ProxyInv.FailInv` | src/backend_channel.cpp:63-75 | emptying the queues first and telling the owners afterwards ends in a state that satisfies the invariant |
| `ProxyInv.DispatchInv` | src/backend_channel.cpp:50-61 | dispatching a reply keeps it |
| `ProxyInv.SubmitInv` | src/client_session.cpp:34-45 | submitting a batch keeps it |
| `ProxyInv.FinishDetachesNothing` | src/client_session.cpp:27-32 | a session with nothing outstanding appears in no queue |
| `Channels.SubmitKeeps` | src/backend_channel.cpp:15-22 | the channel's invariant, and every owner's commands in order, with the new ones last |
| `Channels.DetachKeeps` | src/backend_channel.cpp:24-37 | detaching removes the leaver's commands and nobody else's, and keeps slots and wire aligned |
| `Channels.DetachOrphans` | src/backend_channel.cpp:33-36 | a slot loses its owner only if that owner left |
| `Channels.TakeBatchKeeps` | src/backend_channel.cpp:117-130 | starting a batch keeps every owner's commands in order and reserves its slots behind those already owed |
| `Channels.PopReplyFront` | src/backend_channel.cpp:50-58 | the first reply in the input answers the first command of the first slot |
| `Channels.AnsweredQueue` | src/backend_channel.cpp:55-58 | using up a slot keeps slots, wire and load counter in step |
| `Channels.AnsweredOwned` | src/backend_channel.cpp:55-60 | only the front slot's owner loses a command, and it is its oldest |
| `Channels.TakeBatchHistory` | src/backend_channel.cpp:123-127 | taking a batch keeps the connection's history in step with what is unsent |
| `Channels.TransmittedHistory` | src/backend_channel.cpp:127-128 | so does every partial write |
| `Channels.ClearKeeps` | src/backend_channel.cpp:63-73 | a failed channel owes nothing to anybody |
| `Channels.WireOrder` | src/backend_channel.cpp:127-150 | partial writes, answers and reads never reorder what is owed |
| `Sessions.TakeKeeps` | src/client_session.cpp:73-76 | taking a scanned batch keeps request order, framing and loops consistent |
| `Sessions.RefuseKeeps` | src/client_session.cpp:77-82 | a rejected frame takes its place among the requests and is answered in turn |
| `Sessions.BrokenKeeps` | src/client_session.cpp:77-81 | after a malformed frame the requests are exactly those of the stream, and there will be no more |
| `Sessions.HangUpKeeps` | src/client_session.cpp:98-107 | so too when the client closes, in the middle of a frame or between frames |
| `Sessions.AwaitKeeps` | src/client_session.cpp:83-91 | a rejection is queued only once every earlier reply is |
| `Sessions.WriteTurnKeeps` | src/client_session.cpp:111-138 | batching output and appending the final error keep the reply order |
| `Sessions.OnBackendReplyKeeps` | src/client_session.cpp:140-148 | a reply extends the queued replies by the answer that is due |
| `Sessions.AbortKeeps` | src/client_session.cpp:160-170 | aborting leaves what was queued a valid prefix |
| `Sessions.OpenClassify` | src/client_session.cpp:49-108 | however the stream was cut into reads and batches, the requests taken are those of the stream, and the rest of the stream continues them |
| `OwnerCalls.AbortTwice` | src/client_session.cpp:160-170 | aborting in two rounds is aborting at once |
| `OwnerCalls.TellOneMore` | src/backend_channel.cpp:68-74 | telling owners one at a time, in any order, is telling them all |
| `Objects.BackendChannel.Submit` | src/backend_channel.cpp:15-22 | refused exactly for an unhealthy channel or an empty batch, and then without effect |
| `Objects.BackendChannel.DetachOwner` | src/backend_channel.cpp:24-37 | the two loops erase unstarted batches, return their load, and disown started ones |
| `Objects.BackendChannel.CollectOwners` | src/backend_channel.cpp:68-70 | exactly the owners named in either queue |
| `Objects.BackendChannel.WriterTurn` | src/backend_channel.cpp:117-130 | a turn of `writerLoop` is the transition system's |
| `Objects.BackendChannel.RunTurn` | src/backend_channel.cpp:93-115 | so is a turn of `run` |
| `Objects.BackendChannel.UseSlot` | src/backend_channel.cpp:55-58 | the front slot gives up one reply and names its owner |
| `Objects.ClientSession.OnBackendReply` | src/client_session.cpp:140-148 | the session-local effect of a reply |
| `Objects.ClientSession.WriterTurn` | src/client_session.cpp:111-138 | a turn of `writerLoop`: up to 64 replies, oldest first, and the final error only when nothing else is left or due |
| `Objects.ClientSession.TakeReplies` | src/client_session.cpp:126-132 | the batching loop takes the first 64 replies, or all, and leaves the rest |
| `Objects.ClientSession.AwaitTurn` | src/client_session.cpp:83-91 | a turn of the wait before a rejection is answered |
| `Objects.ClientSession.AfterScan` | src/client_session.cpp:77-98 | what follows the scan, by the reason it stopped |
| `Objects.ClientSession.Drain` | src/client_session.cpp:152-158 | only an open session starts draining, with its final error |
| `Objects.ProxyWorker.Select` | src/backend_pool.cpp:35-45 | the argmin loop computes the specified choice |
| `Objects.ProxyWorker.DetachOwner` | src/backend_pool.cpp:31-33 | every channel forgets the owner |
| `Objects.ProxyWorker.SubmitTo` | src/backend_pool.cpp:47-52 | only the selected channel changes, and nothing does if there is none |
| `Objects.ProxyWorker.SubmitBatch` | src/client_session.cpp:34-45 | the batch moves to the selected channel, which the session is bound to; without one the session is aborted |
| `Objects.ProxyWorker.Abort` | src/client_session.cpp:160-170 | through the objects, the effect on the whole worker |
| `Objects.ProxyWorker.FailConnection` | src/backend_channel.cpp:63-75 | the loop over the unordered owner set, whose callbacks detach from the same channels, has the specified effect whatever its order |
| `Objects.ProxyWorker.DispatchReply` | src/backend_channel.cpp:50-61 | the reply reaches the owner through its address, or the connection fails |
| `Objects.ProxyWorker.FinishLoop` | src/client_session.cpp:27-32 | the last loop to exit detaches the session and reports it |
| `Objects.ProxyWorker.ReaderTurn` | src/client_session.cpp:47-109 | a reader turn, from scan to suspension, on the objects |
| `Refinement.InvLinks` | src/backend_channel.cpp:60-74 | in every state that satisfies the invariant, each owner and channel address leads to a living object |
| `Refinement.SessionEvent` | src/client_session.cpp:47-138 | every event of a session's coroutines and socket |
| `Refinement.ChannelEvent` | src/backend_channel.cpp:77-153 | every event of a channel's coroutines and socket |
| `Refinement.Happen` | src/backend_channel.cpp:15-153 | whatever event comes, the objects end up where the transition system does |
| `Refinement.Continue` | src/client_session.cpp:20-170 | the states the objects pass through form a run, so every theorem about runs holds of the objects |
| `Refinement.Begin` | src/backend_pool.cpp:8-14 | a new pool and worker are at the start of a run |
| `Resp.ParseValueExtend` | src/resp_parser.cpp:30 | a verdict other than "need more" survives any further input |
| `Resp.ParseValueGrow` | src/resp_parser.cpp:30-35 | a verdict other than "no memory" survives any larger arena |
| `Resp.ParseValueEnough` | src/resp_parser.cpp:23-25 | an arena with the slots a frame uses parses it as an unbounded one does |
| `Grammar.SpelledIsParsed` | src/resp_parser.cpp:30 | every text of a value within the limits, in either form of null and with signed or padded numbers, is parsed as that value, whatever follows it |
| `Grammar.ParsedIsSpelled` | src/resp_parser.cpp:30 | whatever is parsed is a text of the value returned, within the limits, and uses exactly its slots |
| `Grammar.AcceptsWhatIsSpelled` | src/resp_parser.cpp:30 | the parser returns a value and a length if and only if those first bytes spell that value within the limits |
| `Beginnings.WaitsForWhatIsBegun` | src/resp_parser.cpp:30 | it asks for more if and only if the bytes stop inside a value within the limits |
| `Beginnings.RejectsTheRest` | src/resp_parser.cpp:30 | it calls malformed exactly what is neither spelled nor begun |
| `Beginnings.WaitingPaysIfOpen` | src/resp_parser.cpp:30 | where it asks for more, some continuation spells a value if and only if the unfinished line or payload has no byte out of place |
| `Beginnings.WaitingInVain` | src/resp_parser.cpp:30 | an input that no continuation completes, and for which it asks for more |
| `Streams.FrameIffSpelled` | src/resp_parser.cpp:21-47 | `unpack` finds a frame, with value and length, if and only if it is spelled within the first `max_frame_bytes_` bytes |
| `Streams.NoFrameYet` | src/resp_parser.cpp:31-42 | it asks for more if and only if there is room for more and the bytes stop inside a value or fill the largest arena |
| `Streams.CommandIffSpelled` | src/resp_parser.cpp:59-84 | `peekFrame` sees a command, with name, argument count and length, if and only if a non-empty array of bulk strings is spelled there |
| `Streams.BadIffNoCommand` | src/resp_parser.cpp:74-84 | any other complete value is refused, and nothing is refused while a value is underway |
| `Streams.StreamReadsAs` | src/client_session.cpp:49-108 | the requests made of a stream are those the grammar gives, one per command, a protocol error last if `unpack` gives up on what remains or the client has closed on it |
| `Streams.EncodedIsSpelled` | src/resp_parser.cpp:30 | what the encoder writes is one of the texts |
| `RoundTrip.ParsesEncoded` | src/resp_parser.cpp:30 | the reference parser inverts the encoding of every value within the limits, using exactly its number of slots, whatever follows |
| `RoundTrip.CommandRecognised` | src/resp_parser.cpp:59-84 | a command within the limits is recognised, with name, argument count and length, if and only if its frame fits the frame limit; a longer one is refused |
| `RoundTrip.PipelineIsItsCommands` | src/client_session.cpp:49-72 | a pipeline of commands is read as exactly those commands, in order, each judged by the command table |
| `Framing.UnpackRefinesUnbounded` | src/resp_parser.cpp:21-47 | `unpack` succeeds, with the same value and length, exactly when the first `max_frame_bytes_` bytes contain a frame; the only disagreement with an unbounded arena is malformed input reported as incomplete, exactly when the largest arena is full |
| `Framing.Unpacked` | src/resp_parser.cpp:21-47 | no input makes parsing report no-memory, and a frame found is not empty and lies within the input |
| `Framing.MalformedHiddenByArena` | src/resp_parser.cpp:31-37 | an input on which they disagree |
| `Framing.UnpackedExtend` | src/resp_parser.cpp:21-47 | with the growing window and arena, a verdict on a frame is still final |
| `Framing.RespParser.Unpack` | src/resp_parser.cpp:21-47 | the retry loop ends, its answer depends on the input alone, and the arena never exceeds the largest bound of any input seen |
| `Framing.PeekFrameAlone` | src/resp_parser.cpp:74-84 | a frame found in a longer input is the same frame standing alone |
| `Framing.ClassifyTaken` | src/client_session.cpp:49-76 | frames already cut off a stream stay what they are, whatever follows |
| `Framing.ClassifyExtend` | src/client_session.cpp:49-108 | more input only adds requests, and none after a malformed one |
| `Framing.FatalIsLast` | src/client_session.cpp:77-81 | a fatal error is the last request of a stream |
| `Framing.ScanSound` | src/client_session.cpp:55-72 | a scan takes whole accepted frames off the front, within its budget, and its reason for stopping holds of what is left |
| `Framing.CutBetweenFrames` | src/backend_channel.cpp:123-128 | a batch cut anywhere shows its reader a prefix of its commands and nothing else |
| `Intake.ExtractCommandInfo` | src/resp_parser.cpp:59-72 | finds exactly the non-empty arrays of bulk strings |
| `Intake.PeekFrame` | src/resp_parser.cpp:74-84 | the verdict on the buffered bytes from an offset on; the buffer's bytes stay |
| `Intake.NextReplyFrame` | src/resp_parser.cpp:86-93 | a complete reply leaves as a chain of exactly its bytes; otherwise the buffer keeps everything |
| `Intake.ScanBatch` | src/client_session.cpp:49-72 | the loop over `peekFrame` at increasing offsets computes the scan of the buffered bytes |
| `Intake.TakeBatch` | src/client_session.cpp:49-76 | the chain handed to the backend reads as exactly the accepted frames, and the buffer goes on right after them |
| `Intake.ChainOnTheWire` | src/co_socket.cpp:104-157 | a chain's slices, written one after another, are the chain's bytes |
| `Buffers.BlockPool.Acquire` | src/buffer.cpp:154-162 | a free block if there is one, empty, with one reference and no other holder |
| `Buffers.BlockPool.Release` | src/buffer.cpp:38-48 | paying one reference keeps counts equal to holders, and frees the block exactly with the last |
| `Buffers.BlockPool.Retain` | src/buffer.cpp:50-61 | one more holder, of bytes already written |
| `Buffers.BlockPool.CopySlice` | src/buffer.cpp:63-64 | a copy is one more holder, and reads as the original |
| `Buffers.BlockPool.CopyChain` | src/buffer.cpp:63-64 | so for a whole chain: fresh slices, the same bytes, nobody disturbed |
| `Buffers.BlockPool.CountsHolders` | src/buffer.cpp:36-48 | a block in use counts, exactly, the buffers that list it, the slices of it and the callers it was handed to |
| `Buffers.BlockPool.FreeIffUnheld` | src/buffer.cpp:38-48 | a block is in the free list, once, exactly when nothing lists or shares it |
| `Buffers.BlockPool.Drop` | src/buffer.cpp:97-105 | one holder less; nothing any other holder sees changes |
| `Buffers.BlockPool.DropChain` | src/buffer.cpp:97-122 | so for a whole chain |
| `Buffers.BlockPool.WrittenBehind` | src/buffer.cpp:200-209 | filling a block behind its committed end changes no slice and no readable byte |
| `Buffers.BlockPool.SlicesKept` | src/buffer.cpp:50-61 | what the operations' promise means: every slice alive before is alive after, with the same bytes |
| `Buffers.BlockPool.NothingLeaks` | src/buffer.cpp:154-167 | with no buffer and no slice left, every block ever made is in the free list, once |
| `Buffers.BufferChain.AppendChain` | src/buffer.cpp:124-135 | the other chain's bytes move behind this one's, lengths included, and it is left empty |
| `Buffers.IoBuffer.constructor` | src/buffer.cpp:173 | a new buffer is empty and disturbs nobody |
| `Buffers.IoBuffer.ReserveWritable` | src/buffer.cpp:185-191 | there is room, a block is added exactly when the last one is full, and nothing readable changes, not even by an empty block at the end |
| `Buffers.IoBuffer.CommitWrite` | src/buffer.cpp:193-198 | the queue gains exactly the filled bytes |
| `Buffers.IoBuffer.Append` | src/buffer.cpp:200-209 | the queue gains exactly the data; other buffers and all slices keep theirs |
| `Buffers.IoBuffer.Consume` | src/buffer.cpp:215-229 | the queue loses its first n bytes or all; slices of released blocks live on |
| `Buffers.IoBuffer.ReadableView` | src/buffer.cpp:231-245 | the view is the queue, by the one block or by the cached copy past its offset |
| `Buffers.IoBuffer.SlicePrefix` | src/buffer.cpp:247-261 | the chain reads as the first n bytes, the rest stays queued, the new slices are its own |
| `Buffers.IoBuffer.Clear` | src/buffer.cpp:177-183 | every block is let go and the queue is empty |
| `Buffers.IoBuffer.Destroy` | src/buffer.cpp:175 | a destroyed buffer holds nothing, and slices cut from it live on |
| `Buffers.MakeBufferChain` | src/buffer.cpp:263-267 | the chain reads as the literal, survives the buffer it came from, and no buffer is left behind |
| `Buffers.IoBuffer.FewBlocks` | src/buffer.cpp:185-229 | reserving, committing and consuming keep no useless block: a buffer lists at most one more block than it has bytes |
| `BufferRuns.BufferWorld.Do` | src/buffer.cpp:36-267 | with any number of buffers and chains on one pool, each operation (make, destroy, append, read and commit, reserve, consume, look, clear, slice, literal, copy, join, drop) does what it does to byte queues and cut-off pieces, and nothing else |
| `BufferRuns.BufferWorld.Play` | src/buffer.cpp:36-267 | after any sequence of them every buffer is its queue and every chain reads as the sequence says |
| `BufferRuns.CutStays` | src/buffer.cpp:50-105 | a chain nobody joins or drops reads, at the end of any sequence, as when it was cut, although its buffer may be gone and its neighbours' blocks recycled |
| `BufferRuns.BufferWorld.CountsAreExact` | src/buffer.cpp:36-48 | at every point of such a run the count of a block in use is the number of living buffers that list it and slices of living chains that share it |
| `BufferRuns.BufferWorld.AllReturned` | src/buffer.cpp:154-167 | when the last buffer and chain are gone, every block is in the free list, once |
| `CoSockets.CoSocket.BuildIov` | src/co_socket.cpp:110-126 | at most 64 non-empty pieces, contiguous from the cursor, all there are if fewer; none exactly when nothing is left |
| `CoSockets.CoSocket.Advance` | src/co_socket.cpp:128-141 | the cursor moves over exactly the bytes written |
| `CoSockets.CoSocket.WriteAll` | src/co_socket.cpp:104-157 | whatever the kernel does, a prefix of the chain is on the wire; on success all of it; failure needs a bad answer, and enough good ones always finish |
| `CoSockets.CoSocket.Turn` | src/co_socket.cpp:109-154 | one turn of the loop: done exactly when nothing is left, given up exactly on a bad answer, else the cursor moves over exactly the bytes that reached the wire |
| `CoSockets.CoSocket.WriteInTurn` | src/co_socket.cpp:104-157 | of any list of chains, written until one fails, all go out whole, one after the other, but the last one reached |
| `CoSockets.RedisSeesWholeCommands` | src/co_socket.cpp:104-157 | what a reader of such a list makes of it is all commands of the whole chains and a prefix of the last one's |
| `Delivery.OthersWork` | src/buffer.cpp:50-105 | whatever is done to the rest of the pool, the slices of a chain still point to the same bytes, piece by piece |
| `Delivery.WriteUnderway` | src/co_socket.cpp:104-157 | `writeAll` suspended again and again while others append, consume, slice, copy, drop and recycle: always a prefix of the chain's bytes on the wire, and all of them on success |
| `Delivery.TakeInto` | src/client_session.cpp:49-76 | with other buffers and chains on the pool, a reader's turn moves exactly the accepted frames from its input to a new chain |
| `Delivery.Deliver` | src/client_session.cpp:49-76 | end to end: cut, any operations in between, write under interference -- what reaches Redis's socket is the bytes of the frames accepted from the client, a prefix at every moment and all on success |
| `Replies.TakeReply` | src/backend_channel.cpp:142-150 | with other buffers and chains on the pool, a complete reply moves from the connection's input to a new chain, and an incomplete one stays |
| `Replies.JoinReplies` | src/client_session.cpp:126-132 | the batching loop gathers the bytes of the first 64 replies, or all, in order, in the first one's chain, and leaves the rest |
| `Replies.SendReplies` | src/client_session.cpp:126-137 | a writer's turn puts exactly those bytes on the client's socket, a prefix at every moment and all on success |
| `Replies.Relay` | src/client_session.cpp:111-148 | end to end: a reply cut off Redis's input and the replies waiting beside it reach the client's socket byte for byte, whatever is done to the pool before and meanwhile |
| `Sending.WriteBatch` | src/backend_channel.cpp:117-130 | the channel object takes the head of its write queue, reserves its slots and writes its bytes: the commands that have gone out whole are those its connection has carried, all of them on success |
| `Sending.ReadyToWrite` | src/backend_channel.cpp:117-130 | in every run a channel about to take a batch has carried everything it took before, and the batch has one well-formed frame per command |
| `Signals.CoroutineSignal.Notify` | src/coroutine_signal.cpp:5-8 | nobody is left asleep, and nobody sleeps while a notification is pending |
| `Signals.CoroutineSignal.Wait` | src/coroutine_signal.cpp:10-18 | it sleeps exactly if there was no notification, and leaves none |
| `Signals.CoroutineSignal.Resume` | src/coroutine_signal.cpp:16-18 | the notification is used up |
| `Workers.FdsBecomeSessionsInOrder` | src/worker.cpp:31-68 | for every interleaving, fds become sessions in dispatch order, one each, and each session is alive or has been erased once |
| `Workers.SleepingWorkerHasNothingToDo` | src/worker.cpp:31-83 | a worker asleep with nothing to wake it has no finished session, and every pending fd is one whose own dispatcher has yet to notify |
| `Workers.FinishedAreErased` | src/worker.cpp:58-68 | a session that has finished is, ever after, listed to be erased or erased; once the list is empty it is erased and gone |
| `Workers.OnlyFinishedAreErased` | src/worker.cpp:65-68 | only sessions that have finished are erased |
| `Workers.RoundServesAll` | src/worker.cpp:75-83 | by the end of a round every fd dispatched before it began is a session, no finished session is left, and the notifier is set only if somebody notified meanwhile |
| `Workers.RoundEnds` | src/worker.cpp:75-83 | each step of the loop brings it nearer to its next poll, whatever the dispatchers do |
| `Workers.WorkerObject.ReapSessions` | src/worker.cpp:65-68 | the loop erases exactly the finished sessions |
| `Workers.WorkerObject.LoopTurn` | src/worker.cpp:40-83 | the polling coroutine, between points where a dispatcher can interfere |
| `Workers.WorkerObject.Act` | src/worker.cpp:31-83 | whatever the two threads do next, the object does what the transition system does |

## Left out

- Socket creation, connect, poll, errno and timeouts: they appear as arbitrary outcomes (`ConnectReturns`, `ReadReturns`, `WriteReturns`, `Kernel`).
- Reads in the transition system: a channel's input is counted in complete replies, with a mark for a reply begun or bytes that are none; how bytes become replies is `Replies.TakeReply`, and how bytes become commands at Redis is `Connections.RedisReadsWhatIsCarried`.
- Objects.ClientSession.WriterTurn: the replies it joins are named by tag; joining the chains themselves and writing their bytes is `Replies.SendReplies`.
- Objects.ProxyWorker.ReaderTurn: it scans the buffered bytes by the specification function; the loop over the real buffer is `Intake.ScanBatch`, and the cut it ends with `Delivery.TakeInto`.
- CoSockets.CoSocket.WriteInTurn: the chains are an argument; that a connection writes the batches of its own write queue, in order, is `Sending.WriteBatch` with `Connections.WholeBatchesInOrder`.
- CoSockets.RedisSeesWholeCommands: so are the chains and the cut here; for the connections of a run it is `Connections.RedisReadsWhatIsCarried`.
- Sending.WriteBatch: it is called with the bytes of the batch in pieces; that the slices of the pool hold those bytes, and keep them while others work, is `Delivery.Deliver`.
- Intake.NextReplyFrame: the arena contents that `UnpackOne` fills are not modelled, only the arena's size and the value returned.
- Objects.ProxyWorker: `CoroutineSignal` sits in its owner as a value; as an object of its own it is in `Signals`.
- Buffers.BlockPool.CopySlice: slices are copied and dropped; moving one hands over the same object, so the moved-from slice that is left empty is not an object of the model.
- Buffers.IoBuffer.FewBlocks: each operation keeps it for the buffer it works on; it is not carried through the runs of `BufferRuns`.
- Buffers.IoBuffer.Clear: blocks leave the list as they are released, where the source releases all and then empties the list.
- libco, `FdNotifier` and `Endpoint`: third-party; an atomic-step scheduler and a level-triggered notifier stand for them.
- The command table in `src/command_rules.cpp`: a constant list with one lookup, replaced by an arbitrary verdict.
- `src/config.cpp`, `src/main.cpp`, `src/proxy_server.cpp`: start-up and parsing of options, which would add only easy members.
- Allocation failure: `bad_alloc` in `unpack` and elsewhere.
- Liveness: that a scheduled coroutine eventually runs is not stated; that nobody sleeps with work to do is.
