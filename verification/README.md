# A model of calf's asynchronous input and output

calf sends messages over Windows named pipes and bytes over TCP, both driven by a completion
port. This project models that part of the library in Dafny, with the task queues under it and
the singleton beside it, and proves what the parts do together, in every run.

| file | what it models |
|---|---|
| `Frames.dfy` | the message frame (8-byte head, payload), the reference parser, and streams of frames |
| `FileIo.dfy` | overlapped contexts, the pipe handle, the task queue that posts completion packets |
| `WorkerService.dfy` | `worker_service` as one thread sees it |
| `Pieces.dfy` | code as pieces between which other threads act; runs of pieces compose and are unique |
| `PipeChannel.dfy` | `pipe_message_channel`: the pieces, and the class whose methods are runs of them |
| `Endpoint.dfy` | one process: a channel, its worker, its loop thread, any number of callers, and the kernel |
| `PipeSystem.dfy` | two processes and the bytes between them: safety, nothing stranded, bounds |
| `PipeDelivery.dfy` | everything submitted arrives: a measure that every internal move decreases |
| `PipeService.dfy` | `pipe_message_service`: the list of channels and the law of its listeners |
| `Threads.dfy` | what the models of several threads share |
| `WorkerThreads.dfy` | `worker_service` and `io_completion_worker`, one access to shared state at a time |
| `WorkerLoop.dfy` | the worker of a loop thread: refined by the thread machine, and contained in `Endpoint` |
| `ReadAnswers.dfy` | the receiving side of a pipe under all answers that the kernel can give to a read |
| `WriteAnswers.dfy` | the sending side of a pipe under all answers that the kernel can give to a write |
| `SocketChannel.dfy` | `socket_channel`: coalesced sends, merged receives, conservation of bytes |
| `SocketLink.dfy` | two socket channels and the streams between them |
| `Singleton.dfy` | `singleton`: double-checked creation and release by any number of threads |

## How the parts fit

Each class has a value view. The pipe channel's methods are proved to be uninterrupted runs of
the pieces given by `PipeChannel.Exec`; `Endpoint` interleaves the same pieces with callers and
the kernel, so the theorems about the state machines speak about the methods' own steps. A piece
is one locked section, one handler call, or work on data that the loop thread alone uses.
`SocketChannel` and `Singleton` have classes whose methods equal the specification functions that
their runs are made of. In `PipeService` the methods equal the functions for creating, closing,
handling and completing; the connect task and the breaks are put together from these and have no
method of their own.

The worker inside `Endpoint` is a coarse one, a queue with posted packets. `WorkerThreads` has the
same queue down to the mutex and the condition variable, and `WorkerLoop` relates the two: with
one packet runner every run of the thread machine is matched by a run of the coarse worker that
pushes and pops the same tasks, and an endpoint's actions are that worker's actions.

Clients appear as what they call. What a handler does, what arrives while a task runs, what the
kernel answers and how it cuts the bytes are parameters, and every theorem holds for all of them.

## Assumptions

- One thread runs the completion loop of a process; any number call `send_message` and
  `receive_message`. Clients do not call `send`, `receive` or `connect` themselves.
- Each overlapped call is reported pending and yields exactly one packet; `WriteAnswers` and
  `ReadAnswers` drop the first half of this. A write that succeeds
  moved all the bytes it was asked for, which is the length cast to a 32-bit DWORD. Failures
  arrive as packets.
- `size_t` has 64 bits; the two head fields are little-endian.
- A pipe begins when both channels were created. What their processes do for other channels at
  that moment is free, and the end `a` or `b` may be either the server or the client. Packets
  for other channels or contexts of the same process may come at any time.
- On the TCP channel public calls and completions come one at a time. The completion of an accept
  runs the acceptor's handler first; that one concerns another channel.
- A channel's identity is not used twice. The code names a channel by its address, and a queued
  removal can outlive its channel (`PipeService.RemovalCanOutliveChannel`), so an address used
  again would be removed. Clients create and close channels between the events of the service.
- Atomics are sequentially consistent. The failing-check macros only write to the log, so the
  model goes on after them as the code does.

## What the code does at its limits

- A frame of 2^32 bytes or more is cut by the DWORD cast in `file::write`
  (`include/calf/platform/windows/file_io.hpp:262-267`), and then a later message can arrive
  without it. `PipeDelivery.PrefixDeliveredIff`, `PipeSystem.NothingStranded` and
  `PipeDelivery.EverythingIsDelivered` are equivalences that say when the promise is kept;
  `PipeDelivery.LongFrameBreaksPrefix` is a run that breaks it.
- The TCP channel hands lengths to the system as 32-bit numbers too
  (`include/calf/platform/windows/networking.hpp:190-196` and 213-215).
  `SocketChannel.ConservedIff` says for which data no run loses bytes, and
  `SocketLink.PrefixArrivesIff` for which data the other end gets nothing but a prefix;
  `SocketChannel.LongBufferIsLost` is a run that loses bytes.
- The pending mark is set for one of the kernel's answers only
  (`include/calf/platform/windows/file_io.hpp:269-275`), while packets follow two of them. A
  kernel that mixes answers can have the buffer of a pending write replaced, a frame lost, or a
  message left queued: `WriteAnswers` says exactly for which answers. Reading does not depend on
  the mark, but it ends with the first refused read (`ReadAnswers`).
- A release of the singleton compares addresses. If the allocator gives an address again, a late
  release deletes the newer object (`Singleton.ReusedAddressIsDeleted`).
- `file::io_broken` leaves the pending mark set
  (`include/calf/platform/windows/file_io.hpp:306-319`), so a context that broke is never
  used again; the invariants rely on it.
- When a pending connect breaks, `connect_completed` runs all the same and the handler sees a
  broken channel, so no new listener is created. A client can also close the listener, since
  `create_channel` returns it. `PipeService.ServerListens` counts both exactly.
- After `quit` at most one more queued task is taken, however many runners there are.
- `quit` sets the flag without the mutex, so a runner between its look at the predicate and its wait
  sleeps through it (`WorkerThreads.SleepsThroughQuit`); runners woken or at the loop test leave.

## Model

| member | source | states |
|---|---|---|
| `Frames.MakeMessageAccessors` | include/calf/platform/windows/system_services.hpp:193-216 | Every 32-bit id and every payload that fits come back from the constructed message; the head tells the true length if and only if the payload is shorter than 2^32 bytes |
| `Frames.MessageLayout` | include/calf/platform/windows/system_services.hpp:181-198 | Where the constructor puts id, size and payload, byte by byte, for every id and length |
| `Frames.ResendReproducesFrame` | include/calf/platform/windows/system_services.hpp:193-216 | A received frame taken apart by its accessors and built again has the same bytes, so encoding is onto the well-formed frames |
| `Frames.CarriesIff` | include/calf/platform/windows/system_services.hpp:193-216 | A received frame reads as a given id and payload exactly if it is the message constructed from them |
| `Frames.ParseIff` | include/calf/platform/windows/system_services.hpp:291-331 | Both directions: splitting a stream into messages and a remainder is what the parser returns exactly when the pieces join to the stream, every message is a whole frame, and the remainder starts with no whole frame |
| `Frames.ParseAppend` | include/calf/platform/windows/system_services.hpp:293-331 | Parsing a stream at once equals parsing a first part, then what was kept together with the second part |
| `Frames.ChunksParse` | include/calf/platform/windows/system_services.hpp:293-331 | Parsing chunk by chunk behind the kept bytes equals parsing all chunks joined, for every list of chunks |
| `Frames.ParsePrefix` | include/calf/platform/windows/system_services.hpp:293-313 | Any initial part of a stream gives an initial part of its messages |
| `Frames.StreamRoundTrip` | include/calf/platform/windows/system_services.hpp:188-216 | What the receiver parses from the bytes on the wire is the list sent, with nothing kept, if and only if every message is a whole frame shorter than 2^32 bytes |
| `Frames.LongFrameIsLost` | include/calf/platform/windows/file_io.hpp:262-267 | The other side of that limit: a well-formed frame of exactly 2^32 bytes puts nothing on the wire, because its length is cast to a DWORD |
| `Frames.LongFrameIsSkipped` | include/calf/platform/windows/system_services.hpp:188-216 | Two well-formed frames, the first of 2^32 bytes, of which the receiver parses only the second: not a prefix of what was sent |
| `Frames.FirstBadDecides` | include/calf/platform/windows/system_services.hpp:291-331 | Messages before the first one that does not fit always arrive; whether the rest spoils the order is decided by the rest alone |
| `Frames.BadFrameGuard` | include/calf/platform/windows/system_services.hpp:291-331 | The guard that decides it: behind a message that does not fit, no frame may start in the bytes that follow, unless they make up that very message again, which takes a well-formed one of 2^32 bytes or more |
| `Frames.RestBound` | include/calf/platform/windows/system_services.hpp:315-331 | Anywhere in a stream of frames of bounded length, less than one frame is kept back |
| `Frames.ChunkCount` | include/calf/platform/windows/system_services.hpp:293-313 | How many messages one chunk can complete at most |
| `WorkerService.Service.Dispatch` | include/calf/worker_service.hpp:64-68 | The new task goes to the back of the queue, one sleeper is notified, and nothing else changes |
| `WorkerService.Service.DoWork` | include/calf/worker_service.hpp:71-80 | Whatever other threads dispatch while the mutex is free, tasks run followed by tasks left are the old queue followed by the arrivals; it ends with an empty queue or the flag set, and no task starts after the flag is set |
| `WorkerService.ArrivedJoins` | include/calf/worker_service.hpp:71-80 | What arrives while tasks run adds up in order |
| `WorkerService.QuitArrivedIff` | include/calf/worker_service.hpp:42-45 | `quit` has arrived exactly when some arrival brought it |
| `WorkerService.Service.Quit` | include/calf/worker_service.hpp:42-45 | The flag is set and all sleepers are notified; the queue keeps its tasks |
| `FileIo.ReadAppendsChunk` | include/calf/platform/windows/file_io.hpp:214-238 | A read that is issued, filled by the kernel and completed, whether it was pending or done at once, leaves the kept bytes followed by exactly the chunk received, and nothing pending |
| `FileIo.SystemPipe.Connect` | include/calf/platform/windows/system_services.hpp:88-111 | The completion routine runs at once exactly if the pipe was connected or a client was there; a pending connect is marked, and after an error nothing is |
| `FileIo.SystemPipe.Read` | include/calf/platform/windows/file_io.hpp:214-238 | The context after issuing a read: one chunk of room behind the bytes held, and the pending mark for the pending answer only |
| `FileIo.SystemPipe.Write` | include/calf/platform/windows/file_io.hpp:256-276 | The context after issuing a write, the buffer that the kernel was handed, and the pending mark for the pending answer only |
| `FileIo.SystemPipe.IoCompleted` | include/calf/platform/windows/file_io.hpp:279-304 | The context after a completion, for each type of operation, and when the connected flag rises |
| `FileIo.SystemPipe.IoBroken` | include/calf/platform/windows/file_io.hpp:306-319 | The context after a failure, and that the handle's operations are cancelled; the pending mark stays set, as in the code |
| `FileIo.CompletionRecords` | include/calf/platform/windows/file_io.hpp:279-304 | What every completion records, which operations it ends, and what it leaves alone |
| `FileIo.LateCompletion` | include/calf/platform/windows/file_io.hpp:291-295 | A packet that comes after a failure finds an empty context and takes its pending mark away |
| `FileIo.CompletionWorker.Dispatch` | include/calf/platform/windows/file_io.hpp:342-345 | One task queued, one packet posted |
| `FileIo.CompletionWorker.IoCompleted` | include/calf/platform/windows/file_io.hpp:364-366 | One packet empties the queue: it runs all queued tasks and all that arrive meanwhile, in order of dispatch |
| `PipeChannel.CutAllRuns` | include/calf/platform/windows/system_services.hpp:283-331 | The parse loop run frame by frame, with other threads free to act in between, comes to what parsing the buffer once gives, and to nothing else |
| `PipeChannel.ReadIssuedFilledAndCut` | include/calf/platform/windows/system_services.hpp:283-331 | Issuing a read, receiving any chunk and cutting frames equals one parse of kept bytes and chunk |
| `PipeChannel.ChunkIndependence` | include/calf/platform/windows/system_services.hpp:283-340 | For every way of cutting the bytes into reads, messages queued and bytes kept are those of parsing all bytes once |
| `PipeChannel.OneReadQueuesFew` | include/calf/platform/windows/system_services.hpp:291-313 | One completion queues at most 512 messages |
| `PipeChannel.OneReadCanQueue512` | include/calf/platform/windows/file_io.hpp:187 | ... and one can queue that many |
| `PipeChannel.PipeMessageChannel.constructor` | include/calf/platform/windows/system_services.hpp:229-237 | A new channel has empty queues and fresh contexts, and is connected exactly if its pipe was opened as a client |
| `PipeChannel.PipeMessageChannel.SendMessage` | include/calf/platform/windows/system_services.hpp:240-245 | The message joins the back of the send queue and a send task with its packet is dispatched; the same state change is the step of the system |
| `PipeChannel.PipeMessageChannel.ReceiveMessage` | include/calf/platform/windows/system_services.hpp:247-255 | The oldest message leaves the queue, or none if there is none; the same state change is the step of the system |
| `PipeChannel.PipeMessageChannel.RunHandler` | include/calf/platform/windows/system_services.hpp:369-373 | Any calls of the client handler: messages sent join the send queue in order, each with one send task and packet; it gets the oldest messages, as many as it asked for and there are |
| `PipeChannel.CallsJoin` | include/calf/platform/windows/system_services.hpp:240-255 | Messages sent and messages asked for add up over calls, in order |
| `PipeChannel.PipeMessageChannel.Send` | include/calf/platform/windows/system_services.hpp:342-358 | The whole new state for any answer of the kernel; for a pending one the method is an uninterrupted run of the model's steps `Send` and `Write` |
| `PipeChannel.PipeMessageChannel.Receive` | include/calf/platform/windows/system_services.hpp:273-281 | The whole new state for any answer of the kernel; for a pending one the method is an uninterrupted run of the step `Receive` |
| `PipeChannel.GuardedCalls` | include/calf/platform/windows/system_services.hpp:273-276 | `send` and `receive` change nothing on an unconnected pipe or while their own operation is pending |
| `PipeChannel.PipeMessageChannel.QueueFrames` | include/calf/platform/windows/system_services.hpp:289-313 | The loop with its two counters queues exactly the messages of the reference parser and stops at its remainder |
| `PipeChannel.PipeMessageChannel.KeepRest` | include/calf/platform/windows/system_services.hpp:315-331 | The context keeps exactly the bytes from the given offset on |
| `PipeChannel.PipeMessageChannel.CutFrames` | include/calf/platform/windows/system_services.hpp:289-331 | Loop and leftover copy together are one parse of the buffer |
| `PipeChannel.PipeMessageChannel.ReceiveCompleted` | include/calf/platform/windows/system_services.hpp:283-340 | Cut, client handler with any calls, next read; after a break the handler alone; the worker gets one send task and packet for each message the handler sends, and nothing else |
| `PipeChannel.PipeMessageChannel.SendCompleted` | include/calf/platform/windows/system_services.hpp:360-367 | The next send, whatever its answer, after a write; after a break the handler alone |
| `PipeChannel.PipeMessageChannel.ConnectCompleted` | include/calf/platform/windows/system_services.hpp:265-271 | Client handler with any calls, then send, then receive, as a run of those steps |
| `PipeChannel.PipeMessageChannel.Connect` | include/calf/platform/windows/system_services.hpp:261-263 | The connect task as a run of the step `Connect`, with the completion routine run at once or later |
| `PipeChannel.PipeMessageChannel.TakeReadPacket` | include/calf/platform/windows/file_io.hpp:145-157 | A packet of the read context: update, then the bound routine, as the step machine has it |
| `PipeChannel.PipeMessageChannel.TakeWritePacket` | include/calf/platform/windows/file_io.hpp:145-157 | A packet of the write context, likewise |
| `Endpoint.StepKeepsInv` | include/calf/platform/windows/system_services.hpp:222-390 | Every step of any caller thread, the loop thread or the kernel keeps the invariant of one end: byte accounting of both directions, one driver of reading, nobody asleep |
| `Endpoint.CreatedInv` | include/calf/platform/windows/system_services.hpp:407-423 | The invariant holds when a channel was just created, by any thread, whatever its worker and loop thread are at |
| `Endpoint.OneWriteAtATime` | include/calf/platform/windows/system_services.hpp:342-358 | While a write is outstanding no step issues another or changes its buffer |
| `Endpoint.OneReadAtATime` | include/calf/platform/windows/system_services.hpp:273-281 | From issuing a read or a connect until its packet is taken no step issues another or touches the context, but for the kernel, which writes only behind the kept bytes |
| `Endpoint.EnvironmentIsFree` | include/calf/platform/windows/system_services.hpp:222-390 | Clients, other channels and the kernel are not held back in any state |
| `Endpoint.HandlersMayCall` | include/calf/platform/windows/system_services.hpp:265-271 | The loop thread may call the channel from every handler that it runs |
| `Endpoint.ReadFailureIsHandled` | include/calf/platform/windows/file_io.hpp:306-319 | A failed read or connect is found broken with its packet, the client's handler runs next, and nothing delivered is lost |
| `Endpoint.WriteFailureIsHandled` | include/calf/platform/windows/file_io.hpp:306-319 | The same for a failed write |
| `Endpoint.BrokenReadStays` | include/calf/platform/windows/system_services.hpp:273-276 | After a break nothing more is received and what was delivered stays |
| `Endpoint.BrokenWriteStays` | include/calf/platform/windows/system_services.hpp:342-345 | After a break nothing more is handed to the kernel |
| `PipeSystem.HistoriesRecordRun` | include/calf/platform/windows/system_services.hpp:240-255 | The histories of the laws hold exactly the messages submitted and the chunks read in the run |
| `PipeSystem.ReachableInv` | include/calf/platform/windows/system_services.hpp:222-390 | The invariant of both ends and of the bytes between them holds in every reachable state |
| `PipeSystem.DeliveredIsParsed` | include/calf/platform/windows/system_services.hpp:240-340 | In every run, with breaks anywhere, messages taken and queued are the first messages of parsing what was submitted |
| `PipeSystem.TakenIsPrefixOfSent` | include/calf/platform/windows/system_services.hpp:240-367 | While all messages sent are whole frames shorter than 2^32 bytes, in every interleaving and for every cut of the bytes, with breaks anywhere: messages taken are the first of those sent, none lost, repeated, reordered or merged; that they are taken is `EverythingIsTaken` |
| `PipeSystem.TakenHaveSentIdsAndPayloads` | include/calf/platform/windows/system_services.hpp:193-216 | The same in terms of the ids and payloads that the senders gave, for payloads shorter than 2^32 - 8 bytes |
| `PipeSystem.NothingStranded` | include/calf/platform/windows/system_services.hpp:240-367 | At quiescence of an unbroken pipe the send queue and the pipe are empty, and what was delivered is what was submitted, with no byte kept, if and only if all messages are frames that fit a DWORD |
| `PipeSystem.QueuedMessageIsDue` | include/calf/platform/windows/system_services.hpp:240-271 | In every reachable connected state with a message queued, a write is outstanding, a send is due or queued, or a caller is about to dispatch one |
| `PipeSystem.ReadBufferBounded` | include/calf/platform/windows/file_io.hpp:214-225 | While all messages sent fit, the buffer handed to a read is at most the largest frame, less one byte, and one chunk |
| `PipeSystem.ReadBufferAlwaysBounded` | include/calf/platform/windows/file_io.hpp:214-225 | Whoever sends whatever: a read is issued behind an incomplete frame only, so its buffer is at most 2^32 + 7 bytes and one chunk |
| `PipeSystem.OneCallAtATime` | include/calf/platform/windows/file_io.hpp:214-276 | In every run at most one read or connect and one write are outstanding at each end, from the call to the taking of its packet |
| `PipeSystem.NothingBeforeConnected` | include/calf/platform/windows/system_services.hpp:273-276 | In every run, before its end is connected a channel hands nothing to the kernel and receives nothing |
| `PipeDelivery.InternalDescends` | include/calf/platform/windows/system_services.hpp:240-367 | Every move of the program or the kernel leaves less to do, by one measure of both ends and the bytes between |
| `PipeDelivery.InternalMovesArePaid` | include/calf/platform/windows/system_services.hpp:240-367 | In every run, with new messages, other channels and breaks in between: the moves made without a client are at most what was to do at the start and what the others added, less what is left to do |
| `PipeDelivery.EverythingIsDelivered` | include/calf/platform/windows/system_services.hpp:240-367 | From every reachable unbroken state, the moves that need no client come to an end in whatever order, and then everything submitted is delivered, if and only if all messages are frames that fit a DWORD |
| `PipeDelivery.TakesTake` | include/calf/platform/windows/system_services.hpp:247-255 | In every state, n calls of `receive_message` take the next n messages delivered, or as many as there are |
| `PipeDelivery.EverythingIsTaken` | include/calf/platform/windows/system_services.hpp:240-367 | From every reachable unbroken state some run that submits nothing more ends with every parsed message taken, which are the messages submitted if and only if all are frames that fit a DWORD |
| `PipeDelivery.QuiescenceIsReached` | include/calf/platform/windows/system_services.hpp:240-367 | That end is reachable from every state that keeps the invariant |
| `PipeDelivery.AnyListComesToRest` | include/calf/platform/windows/system_services.hpp:240-367 | Wherever a server and a client begin and for every list of messages, some run submits the list and comes to rest, having delivered exactly that list if and only if all are frames that fit a DWORD |
| `PipeDelivery.PrefixDeliveredIff` | include/calf/platform/windows/system_services.hpp:240-367 | The end-to-end law, exactly: all runs that submit a list deliver only prefixes of it if and only if parsing its bytes on the wire gives a prefix of it |
| `PipeDelivery.IdsAndPayloadsIff` | include/calf/platform/windows/system_services.hpp:193-216 | The same law about ids and payloads, for payloads of any length |
| `PipeDelivery.LongFrameBreaksPrefix` | include/calf/platform/windows/system_services.hpp:342-358 | A run that breaks the law: a frame of 2^32 bytes and a short one are submitted, and only the short one is delivered |
| `PipeDelivery.PrefixCanBreak` | include/calf/platform/windows/system_services.hpp:342-358 | The same as a reachable state of a server and a client: all messages well-formed, and those delivered not a prefix of those submitted |
| `PipeDelivery.BothDirections` | include/calf/platform/windows/system_services.hpp:222-390 | The two ends can change places, so all of this holds from `b` to `a` as well |
| `PipeService.PipeMessageService.constructor` | include/calf/platform/windows/system_services.hpp:394-399 | A new service has no channels |
| `PipeService.PipeMessageService.CreateChannel` | include/calf/platform/windows/system_services.hpp:407-423 | A new channel at the back of the list, in the service's mode if it is the first instance, its connect queued; the caller gets its identity |
| `PipeService.PipeMessageService.CloseChannel` | include/calf/platform/windows/system_services.hpp:425-430 | Exactly the channels of that identity leave the list |
| `PipeService.PipeMessageService.MessageHandler` | include/calf/platform/windows/system_services.hpp:437-452 | The client's handler with the channels it creates, then removal queued for a broken channel, a new listener for a server's connected one, and otherwise nothing |
| `PipeService.PipeMessageService.ConnectCompleted` | include/calf/platform/windows/system_services.hpp:265-271 | The handler, then reading, unless the connect broke |
| `PipeService.ServerListens` | include/calf/platform/windows/system_services.hpp:407-452 | In every run of a server: listeners, broken pending connects and listeners closed by the client together are the channels the client created; so one created channel means exactly one listener if and only if no pending connect broke and no listener was closed |
| `PipeService.ListenerCanBeLost` | include/calf/platform/windows/system_services.hpp:437-452 | Two reachable servers with no listener: after the pending connect broke, and after the client closed the channel |
| `PipeService.LostForGood` | include/calf/platform/windows/system_services.hpp:437-452 | Listeners never become more unless the client creates a channel |
| `PipeService.RemovalCanOutliveChannel` | include/calf/platform/windows/system_services.hpp:444-447 | Reading and writing that both break queue two removals, and the second is still queued when the channel is gone |
| `PipeService.OthersAreConnected` | include/calf/platform/windows/system_services.hpp:437-452 | All other channels are connected, or broken with their removal queued |
| `PipeService.ClientsAddNothing` | include/calf/platform/windows/system_services.hpp:448-451 | In other modes the service adds no channel of its own |
| `PipeService.ClientsNeverWait` | include/calf/platform/windows/system_services.hpp:407-423 | In every run of a service with mode `open` whose channels are first instances, all channels are opened in that mode, none waits for a client, and each is connected once its connect task has run |
| `PipeService.FirstInstanceClaims` | include/calf/platform/windows/system_services.hpp:448-451 | The first instance of the pipe's name is claimed no more often than the client asks; listeners that the service adds are further instances |
| `PipeService.ConnectTaskConnects` | include/calf/platform/windows/system_services.hpp:88-111 | A connect task connects at once exactly if the channel was opened as a client or a client is there |
| `PipeService.HandledAccordingToKind` | include/calf/platform/windows/system_services.hpp:444-451 | What the service does after the client's handler, for every type of channel, closed ones included |
| `PipeService.EventsAreFree` | include/calf/platform/windows/system_services.hpp:407-452 | Clients and kernel are not held back: any create, close, completion or break that the state admits may come |
| `PipeService.WithoutJoins` | include/calf/platform/windows/system_services.hpp:425-430 | Closing a channel keeps the others in order |
| `PipeService.HandlerAddsAreEvents` | include/calf/platform/windows/system_services.hpp:437-452 | Channels created by a handler are events of a run, so the laws hold with such handlers |
| `WorkerThreads.StepKeepsInv` | include/calf/worker_service.hpp:27-80 | Every single access to shared state by any thread keeps mutual exclusion, accounting and both wake-up invariants |
| `WorkerThreads.TasksConserved` | include/calf/worker_service.hpp:63-80 | With any number of threads, also nested dispatches: tasks taken followed by the queue are the tasks dispatched, and none runs under the mutex |
| `WorkerThreads.RunnersWake` | include/calf/worker_service.hpp:27-35 | No lost wake-up: with work and runners, some runner is awake or is about to be notified |
| `WorkerThreads.SleepersSawEmptyQueue` | include/calf/worker_service.hpp:29-32 | A thread falls asleep only holding the mutex over an empty queue |
| `WorkerThreads.QueuedTaskIsDue` | include/calf/platform/windows/file_io.hpp:341-366 | While a task is queued there is a packet, a thread about to post one, or a drain that will look again |
| `WorkerThreads.IdlePortTookAll` | include/calf/platform/windows/file_io.hpp:341-366 | An idle port with no thread inside a call means that every task was taken |
| `WorkerThreads.AtMostOneTaskAfterQuit` | include/calf/worker_service.hpp:42-45 | After the flag is set, the tasks still taken are at most one: that of a thread past the loop test, which holds the mutex |
| `WorkerThreads.EachDispatchPushedOnce` | include/calf/worker_service.hpp:63-68 | In every run, however dispatchers interleave, each task was pushed as often as it was dispatched, but for calls that have not come to their push |
| `WorkerThreads.SomeoneGoesOn` | include/calf/worker_service.hpp:27-80 | While any thread is inside a call, some thread can make a step |
| `WorkerThreads.DispatchAlone` | include/calf/worker_service.hpp:63-68 | The steps of one uninterrupted dispatch come to: task queued, a sleeper woken, a packet posted if the queue posts, mutex free |
| `WorkerThreads.RunOneAlone` | include/calf/worker_service.hpp:37-40 | The steps of one uninterrupted `run_one` empty the queue in order |
| `WorkerThreads.RunLoopAlone` | include/calf/worker_service.hpp:27-35 | The steps of `run_loop` take every queued task and fall asleep over the empty queue, or leave if the flag is set |
| `WorkerThreads.QuitWakesAll` | include/calf/worker_service.hpp:42-45 | `quit` sets the flag and leaves no thread asleep that slept by then |
| `WorkerThreads.RunnerLeavesAfterQuit` | include/calf/worker_service.hpp:27-35 | Once the flag is set, a runner that is woken or at the loop test leaves `run_loop`, whatever is queued |
| `WorkerThreads.OnlyBlockersSleepAfterQuit` | include/calf/worker_service.hpp:27-45 | Threads that fall asleep after the flag is set were between their look at the predicate and their wait, where none comes any more |
| `WorkerThreads.SleepsThroughQuit` | include/calf/worker_service.hpp:42-45 | A runner in that place sleeps through `quit`, which sets the flag without the mutex |
| `WorkerLoop.ThreadsRefineWorker` | include/calf/platform/windows/file_io.hpp:341-366 | Refinement with traces: for every run of the threads, one access at a time and with one packet runner, there is a run of the coarse worker to the same queue, packets and phase that pushes and pops the same tasks in the same order |
| `WorkerLoop.RunIsFifo` | include/calf/worker_service.hpp:63-80 | The coarse worker is a queue: tasks popped and tasks left are the tasks there were and those pushed, in order |
| `WorkerLoop.EndStepMoves` | include/calf/platform/windows/file_io.hpp:341-366 | Every action of an endpoint is one action of that same worker, or none, with the same tasks pushed and popped |
| `WorkerLoop.EndOffersWorker` | include/calf/platform/windows/file_io.hpp:341-366 | An endpoint can post, take, pop and find the queue empty exactly when the worker can |
| `SocketChannel.Channel.Connect` | include/calf/platform/windows/networking.hpp:480-490 | The queued bytes go with the connect and the queue is empty |
| `SocketChannel.Channel.SendBufferCopy` | include/calf/platform/windows/networking.hpp:501-512 | The bytes join the queue, and a send starts if none is pending |
| `SocketChannel.Channel.SendBufferSwap` | include/calf/platform/windows/networking.hpp:520-535 | The same result by swap or by append, and when the caller's buffer is emptied |
| `SocketChannel.Channel.RecvBuffer` | include/calf/platform/windows/networking.hpp:537-542 | All waiting bytes leave, once |
| `SocketChannel.Channel.Send` | include/calf/platform/windows/networking.hpp:586-603 | Swapping the buffers hands over exactly the queued bytes |
| `SocketChannel.Channel.Recv` | include/calf/platform/windows/networking.hpp:613-619 | A pending receive with a full-size buffer, at most one at a time |
| `SocketChannel.Channel.ConnectCompleted` | include/calf/platform/windows/networking.hpp:570-584 | First bytes to the receive buffer, handler with any calls, then send and receive |
| `SocketChannel.Channel.SendCompleted` | include/calf/platform/windows/networking.hpp:605-611 | The next send; after a break the handler alone |
| `SocketChannel.Channel.RecvCompleted` | include/calf/platform/windows/networking.hpp:621-646 | The chunk joins the waiting bytes whichever branch is taken, handler, next receive; after a break the handler alone |
| `SocketChannel.Context.IoCompleted` | include/calf/platform/windows/networking.hpp:303-354 | Which completions end the pending mark and trim the buffer |
| `SocketChannel.HandleMeetsCalls` | include/calf/platform/windows/networking.hpp:501-542 | A handler submits the data of all its send calls of either form, in order, and drains all that waited if it drains at all |
| `SocketChannel.HistoriesRecordRun` | include/calf/platform/windows/networking.hpp:501-542 | The histories of the laws hold exactly the data of all calls and the bytes of all completions in the run |
| `SocketChannel.RunConserves` | include/calf/platform/windows/networking.hpp:480-646 | In every run, without histories: the data of all calls is what was handed over and what waits; the bytes that came are what was drained and what waits |
| `SocketChannel.EventsAreFree` | include/calf/platform/windows/networking.hpp:246-253 | Clients and kernel are not held back: calls at any time, chunks up to 4096 bytes, first bytes up to 4032 |
| `SocketChannel.CompletionTrims` | include/calf/platform/windows/networking.hpp:306-348 | What every completion leaves in the buffer, and that it ends the pending mark |
| `SocketChannel.BuffersChangePlaces` | include/calf/platform/windows/networking.hpp:573-576 | Swapping and appending lose no byte of either buffer |
| `SocketChannel.SendsConserved` | include/calf/platform/windows/networking.hpp:480-611 | In every run: bytes submitted, in order, are those sent, those in flight and those queued, if and only if every buffer handed to the kernel is shorter than 2^32 bytes |
| `SocketChannel.ShortSessionsConserve` | include/calf/platform/windows/networking.hpp:480-611 | A client that submits fewer than 2^32 bytes in all loses none |
| `SocketChannel.LongBufferIsLost` | include/calf/platform/windows/networking.hpp:180-205 | A run that loses bytes: 2^32 of them submitted before the connect go with it and none is sent |
| `SocketChannel.ConservedIff` | include/calf/platform/windows/networking.hpp:480-611 | The law for the client, exactly: all runs that submit given bytes conserve them if and only if these are fewer than 2^32 |
| `SocketChannel.ReceivesConserved` | include/calf/platform/windows/networking.hpp:537-646 | In every run: bytes that came with an accept and in chunks are those drained and those waiting |
| `SocketChannel.NothingIdle` | include/calf/platform/windows/networking.hpp:586-619 | A connected channel always has a receive pending, and bytes wait only behind a pending send |
| `SocketChannel.IdleMeansAllSent` | include/calf/platform/windows/networking.hpp:586-611 | With no send pending all that was submitted was sent, under that same exact condition |
| `SocketChannel.OneSendAtATime` | include/calf/platform/windows/networking.hpp:586-603 | A pending send keeps its buffer until it completes |
| `SocketChannel.OneReceiveAtATime` | include/calf/platform/windows/networking.hpp:613-619 | A pending receive or accept keeps its context until its completion |
| `SocketChannel.GuardedCalls` | include/calf/platform/windows/networking.hpp:586-619 | `send` and `recv` change nothing on an unconnected channel or while their own operation is pending, and start otherwise |
| `SocketLink.ReceivedIsStream` | include/calf/platform/windows/networking.hpp:480-646 | Two channels: in every run, bytes drained and waiting at one end are the first of those handed over at the other |
| `SocketLink.PrefixArrivesIff` | include/calf/platform/windows/networking.hpp:480-646 | The stream law, exactly: however `data` is submitted, what arrives is a prefix of `data` in every run, if and only if each byte from the 2^32nd on equals the one at its position modulo 2^32 |
| `SocketLink.DrainedIsPrefixOfSubmitted` | include/calf/platform/windows/networking.hpp:480-646 | So up to 2^32 bytes, the bytes drained are the first of those submitted at the other end and those waiting follow |
| `SocketLink.BothDirections` | include/calf/platform/windows/networking.hpp:470-664 | The two channels can change places |
| `WriteAnswers.BufferKeptIff` | include/calf/platform/windows/file_io.hpp:256-304 | Whatever set of answers to a write the kernel may give: the buffer of a pending write is never replaced if and only if the set does not hold both pending and done at once |
| `WriteAnswers.NoneLostIff` | include/calf/platform/windows/file_io.hpp:256-276 | No frame is lost on the way to the kernel if and only if no write can be refused |
| `WriteAnswers.AwakeIff` | include/calf/platform/windows/system_services.hpp:342-367 | A queued message always has somebody on the way to send it if and only if the set does not hold both pending and refused |
| `ReadAnswers.ReadsParseWhateverAnswers` | include/calf/platform/windows/system_services.hpp:273-340 | Whatever the kernel answers to reads: one read at a time, and messages queued and bytes kept are the parse of all bytes read |
| `ReadAnswers.KernelIsFree` | include/calf/platform/windows/file_io.hpp:214-238 | Every answer and every chunk up to the buffer size may come |
| `ReadAnswers.ReadingGoesOnIff` | include/calf/platform/windows/system_services.hpp:273-281 | Reading never comes to an end if and only if no read can be refused |
| `Singleton.AtMostOneObject` | include/calf/singleton.hpp:13-37 | In every run of any number of threads, with stale pointers and reused addresses: at most one object, a published pointer is that of the complete one, no delete of anything else, a new object only after the old one is deleted |
| `Singleton.ReturnsLiveObject` | include/calf/singleton.hpp:13-26 | A pointer returned is that of the one complete object at that moment |
| `Singleton.InstanceReturns` | include/calf/singleton.hpp:13-26 | No call of `instance` ends without a pointer |
| `Singleton.SameObjectUntilDeleted` | include/calf/singleton.hpp:13-37 | A pointer stays valid until a delete takes effect |
| `Singleton.ReleaseDeletesIff` | include/calf/singleton.hpp:28-37 | A release deletes what it loaded if and only if that is published when it holds the mutex; otherwise it changes nothing |
| `Singleton.DeletesWhatItLoaded` | include/calf/singleton.hpp:28-37 | In every run, a thread about to delete a pointer loaded it in that very call, when it was published |
| `Singleton.ReusedAddressIsDeleted` | include/calf/singleton.hpp:32 | A run in which the allocator gives an address again and a late release deletes the newer object |
| `Singleton.SomeoneGoesOn` | include/calf/singleton.hpp:13-37 | While any call is running, some thread can make a step |
| `Singleton.Holder.GetInstance` | include/calf/singleton.hpp:13-26 | The method run alone is the machine's steps for it, and returns the existing object if there is one |
| `Singleton.Holder.Release` | include/calf/singleton.hpp:28-37 | The method run alone is the machine's steps for it, and leaves no object published |

## Left out

- PipeService: a channel of the list has only its read context's type and whether it ever connected; its messages are the matter of PipeSystem.
- PipeService.PipeMessageService.CreateChannel: the pipe's name is not modelled.
- PipeChannel.PipeMessageChannel.TakeReadPacket: the wait on the port and the loop around it are the steps of Endpoint.
- PipeService.PipeMessageService.ConnectCompleted: sending and the guards of receiving are reduced to the change of the read context's type.
- PipeService.ServerListens: an address used again for a new channel is not modelled.
- FileIo.SystemPipe.IoBroken: that the other operation fails as well is an event of its own.
- FileIo.SystemPipe.Connect: what a channel does after a refused connect is not modelled; nothing is pending then and no routine runs.
- The offset of a fresh context has no defined value in the code (`include/calf/platform/windows/file_io.hpp:62-66`); the model starts it at 0, and nothing uses it before the first read sets it.
- Operating-system error texts and the logging of failed checks.
- `packaged_dispatch`, futures, exceptions thrown by tasks, and weak memory.
- The destructor of `worker_service`, which wakes sleepers as `quit` does (`include/calf/worker_service.hpp:22-25`) while they use what it destroys.
- `io_completion_service::quit` and closing the port under waiting threads.
- The lifetime of a channel that was removed while operations on it were outstanding.
- TCP after a broken completion; only the handler call that follows it is modelled, in the class.
- The overload of `recv_buffer` that swaps with the caller's buffer, since it would put the caller's old bytes among the received ones.
- `non_blocking_queue`: it reads an uninitialised pointer when pushing (`include/calf/non_blocking_queue.hpp:49`).
- `file_channel` and the log file target: their file is not opened for overlapped operation and not registered with the port.
- Events, processes, windows, menus, message routing, input, DirectX, COM, strings, logging and the Linux wrapper: interface code and thin wrappers.
