/** `pipe_message_channel`: the steps its code is made of, and its methods, proved to be
    uninterrupted runs of those steps. */
module PipeChannel {
  import opened Frames
  import opened FileIo
  import opened Pieces

  /** The channel's fields, the connected flag of its pipe, and the history of the buffers
      given to `WriteFile`. */
  datatype Channel = Channel(
    connected: bool,
    sendQueue: seq<Bytes>, receiveQueue: seq<Bytes>,
    read: Context, write: Context,
    handed: seq<Bytes>)

  /** Pieces of the channel's code between which other threads may act: a call of the client
      handler, one locked section, or work on data of the loop thread alone. */
  datatype Op =
    | Connect(clientWaiting: bool)
    | Handler
    | Send
    | Write(frame: Bytes)
    | Receive
    | Cut(from: nat)

  function Uncut(c: Channel, from: nat): Bytes {
    if from <= |c.read.buffer| then c.read.buffer[from..] else []
  }

  predicate StartsRead(c: Channel) { !c.read.isPending && c.connected }

  predicate StartsSend(c: Channel) { !c.write.isPending && c.connected && c.sendQueue != [] }

  /** What a piece does, and the pieces to run next before what was due anyway. */
  function Exec(c: Channel, op: Op): Outcome<Channel, Op> {
    match op
    case Connect(clientWaiting) =>
      var r := c.read.(routine := ConnectCompleted, kind := Create);
      if c.connected || clientWaiting then
        Outcome(c.(read := r, connected := true), [Handler, Send, Receive])
      else
        Outcome(c.(read := r.(isPending := true)), [])
    case Handler => Outcome(c, [])
    case Send =>
      if StartsSend(c) then Outcome(c.(sendQueue := c.sendQueue[1..]), [Op.Write(c.sendQueue[0])])
      else Outcome(c, [])
    case Write(frame) =>
      Outcome(c.(write := StartWrite(c.write.(buffer := frame), SendCompleted), handed := c.handed + [frame]), [])
    case Receive =>
      if StartsRead(c) then Outcome(c.(read := StartRead(c.read, ReceiveCompleted)), [])
      else Outcome(c, [])
    case Cut(from) =>
      var s := Uncut(c, from);
      if HasFrame(s) then
        Outcome(c.(receiveQueue := c.receiveQueue + [s[..FrameLength(s)]]), [Cut(from + FrameLength(s))])
      else if from != 0 then
        Outcome(c.(read := c.read.(buffer := s, offset := |s|)), [])
      else
        Outcome(c, [])
  }

  /** The code of a completion routine, after the context was updated. */
  function RoutineCode(c: Context): seq<Op> {
    match c.routine
    case NoRoutine => []
    case ConnectCompleted => [Handler, Send, Receive]
    case ReceiveCompleted => if c.kind == Read then [Cut(0), Handler, Receive] else [Handler]
    case SendCompleted => if c.kind == FileIo.IoType.Write then [Send] else [Handler]
  }

  // ---------- the parse loop ----------

  /** What `receive_completed` does to the channel before it calls the handler: queue every
      complete frame, keep the rest. */
  function CutAll(c: Channel): Channel {
    var p := Parse(c.read.buffer);
    if p.messages == [] then c
    else c.(receiveQueue := c.receiveQueue + p.messages,
            read := c.read.(buffer := p.rest, offset := |p.rest|))
  }

  /** The channel after the loop, from position `from` on. */
  function CutTo(c: Channel, from: nat, ms: seq<Bytes>, rest: Bytes): Channel {
    if from == 0 && ms == [] then c
    else c.(receiveQueue := c.receiveQueue + ms, read := c.read.(buffer := rest, offset := |rest|))
  }

  /** One piece of the loop cuts one frame ... */
  lemma CutExec(c: Channel, from: nat, frame: Bytes, later: Bytes)
    requires from <= |c.read.buffer| && c.read.buffer[from..] == frame + later && WellFormed(frame)
    ensures from + |frame| <= |c.read.buffer| && c.read.buffer[from + |frame|..] == later
    ensures Exec(c, Cut(from)) == Outcome(c.(receiveQueue := c.receiveQueue + [frame]), [Cut(from + |frame|)])
  {
    ParseStep(frame, later);
    assert (frame + later)[..|frame|] == frame && (frame + later)[|frame|..] == later;
    TailOf(c.read.buffer, from, |frame|);
  }

  /** ... and the last one keeps the rest. */
  lemma CutExecEnds(c: Channel, from: nat, rest: Bytes)
    requires from <= |c.read.buffer| && c.read.buffer[from..] == rest && !HasFrame(rest)
    ensures Exec(c, Cut(from)) == Outcome(CutTo(c, from, [], rest), [])
  {
    assert c.receiveQueue + [] == c.receiveQueue;
  }

  lemma CutToStep(c: Channel, from: nat, ms: seq<Bytes>, rest: Bytes)
    requires ms != [] && ms[0] != []
    ensures CutTo(c, from, ms, rest) ==
            CutTo(c.(receiveQueue := c.receiveQueue + [ms[0]]), from + |ms[0]|, ms[1..], rest)
  {
    assert (c.receiveQueue + [ms[0]]) + ms[1..] == c.receiveQueue + ms;
  }

  /** The loop, piece by piece, where `ms` are the frames still to cut. */
  lemma {:induction false} CutRuns(c: Channel, from: nat, ms: seq<Bytes>, rest: Bytes)
    requires from <= |c.read.buffer| && c.read.buffer[from..] == Concat(ms) + rest
    requires AllWellFormed(ms) && !HasFrame(rest)
    ensures Runs(Exec, c, [Cut(from)], CutTo(c, from, ms, rest))
    decreases |ms|
  {
    if ms == [] {
      assert Concat(ms) + rest == rest;
      CutExecEnds(c, from, rest);
      RunsLast(Exec, c, Cut(from));
    } else {
      ConcatSplit(ms, rest);
      CutExec(c, from, ms[0], Concat(ms[1..]) + rest);
      CutRuns(c.(receiveQueue := c.receiveQueue + [ms[0]]), from + |ms[0]|, ms[1..], rest);
      CutToStep(c, from, ms, rest);
      RunsOn(Exec, c, Cut(from), CutTo(c, from, ms, rest));
    }
  }

  lemma CutAllRuns(c: Channel)
    ensures forall d: Channel :: Runs(Exec, c, [Cut(0)], d) <==> d == CutAll(c)
  {
    var p := Parse(c.read.buffer);
    ParseSound(c.read.buffer);
    assert c.read.buffer[0..] == c.read.buffer;
    CutRuns(c, 0, p.messages, p.rest);
    forall d: Channel | Runs(Exec, c, [Cut(0)], d)
      ensures d == CutAll(c)
    {
      RunsUnique(Exec, c, [Cut(0)], d, CutAll(c));
    }
  }

  /** What a read that brings `chunk` does to the channel. */
  function OneRead(c: Channel, chunk: Bytes): Channel {
    var p := Parse(c.read.buffer + chunk);
    c.(receiveQueue := c.receiveQueue + p.messages,
       read := Context(p.rest, |p.rest|, Read, false, |chunk|, Routine.ReceiveCompleted))
  }

  /** It is what the code does: the read issued, filled by the kernel and completed, and the
      complete frames cut out. */
  lemma ReadIssuedFilledAndCut(c: Channel, chunk: Bytes)
    requires |chunk| <= BUFFER_SIZE
    ensures var issued := StartRead(c.read, Routine.ReceiveCompleted);
            && issued.offset + |chunk| <= |issued.buffer|
            && CutAll(c.(read := Completed(Filled(issued, chunk), |chunk|))) == OneRead(c, chunk)
  {
    ReadAppendsChunk(c.read, chunk, Routine.ReceiveCompleted, Pending);
    var issued := StartRead(c.read, Routine.ReceiveCompleted);
    assert Completed(Filled(issued, chunk), |chunk|).offset == |c.read.buffer + chunk|;
    CutAllIs(c.(read := Completed(Filled(issued, chunk), |chunk|)), c.read.buffer + chunk);
  }

  lemma CutAllIs(c: Channel, buffer: Bytes)
    requires c.read.buffer == buffer && c.read.offset == |buffer|
    ensures var p := Parse(buffer);
            CutAll(c) == c.(receiveQueue := c.receiveQueue + p.messages,
                            read := c.read.(buffer := p.rest, offset := |p.rest|))
  {
    assert c.receiveQueue + [] == c.receiveQueue;
  }

  function Reads(c: Channel, chunks: seq<Bytes>): Channel
    decreases |chunks|
  {
    if chunks == [] then c else Reads(OneRead(c, chunks[0]), chunks[1..])
  }

  lemma {:induction false} ReadsParse(c: Channel, chunks: seq<Bytes>)
    ensures Reads(c, chunks).receiveQueue == c.receiveQueue + ParseChunks(c.read.buffer, chunks).messages
    ensures Reads(c, chunks).read.buffer == ParseChunks(c.read.buffer, chunks).rest
    decreases |chunks|
  {
    if chunks == [] {
      assert c.receiveQueue + [] == c.receiveQueue;
    } else {
      ReadsParse(OneRead(c, chunks[0]), chunks[1..]);
    }
  }

  /** Chunk independence: however the bytes are cut into reads, the messages queued and the
      bytes kept are those of parsing the bytes at once. */
  lemma ChunkIndependence(c: Channel, chunks: seq<Bytes>)
    requires !HasFrame(c.read.buffer)
    ensures var p := Parse(c.read.buffer + Concat(chunks));
            && Reads(c, chunks).receiveQueue == c.receiveQueue + p.messages
            && Reads(c, chunks).read.buffer == p.rest
  {
    ReadsParse(c, chunks);
    ChunksParse(c.read.buffer, chunks);
  }

  /** One completion queues at most 512 messages. */
  lemma OneReadQueuesFew(c: Channel, chunk: Bytes)
    requires |chunk| <= BUFFER_SIZE && !HasFrame(c.read.buffer)
    ensures |OneRead(c, chunk).receiveQueue| <= |c.receiveQueue| + 512
  {
    if chunk == [] {
      assert c.read.buffer + chunk == c.read.buffer;
    } else {
      ChunkCount(c.read.buffer, chunk);
    }
  }

  lemma {:induction false} ShortFrames(n: nat)
    ensures var ms := seq(n, _ => MakeMessage(0, []));
            AllWellFormed(ms) && |Concat(ms)| == HEAD_SIZE * n
  {
    MakeMessageAccessors(0, []);
    if n > 0 {
      ShortFrames(n - 1);
      assert seq(n, _ => MakeMessage(0, []))[1..] == seq(n - 1, _ => MakeMessage(0, []));
    }
  }

  /** The bound is met: one read can bring 512 messages. */
  lemma OneReadCanQueue512(c: Channel)
    requires c.read.buffer == []
    ensures exists chunk: Bytes ::
              |chunk| <= BUFFER_SIZE && |OneRead(c, chunk).receiveQueue| == |c.receiveQueue| + 512
  {
    var ms := seq(512, _ => MakeMessage(0, []));
    ShortFrames(512);
    ParseComplete(ms, []);
    assert [] + Concat(ms) == Concat(ms) && Concat(ms) + [] == Concat(ms);
    assert |OneRead(c, Concat(ms)).receiveQueue| == |c.receiveQueue| + 512;
  }

  /** The frame at `offset` goes to those cut before it. */
  lemma FrameCut(buffer: Bytes, offset: nat, cut: seq<Bytes>)
    requires offset <= |buffer| && HasFrame(buffer[offset..])
    requires AllWellFormed(cut) && Concat(cut) + buffer[offset..] == buffer
    ensures var next := offset + FrameLength(buffer[offset..]);
            && next <= |buffer|
            && AllWellFormed(cut + [buffer[offset..next]])
            && Concat(cut + [buffer[offset..next]]) + buffer[next..] == buffer
  {
    var tail := buffer[offset..];
    var n := FrameLength(tail);
    FirstFrame(tail);
    FrameMoves(cut, tail[..n], tail[n..], buffer);
    TailOf(buffer, offset, n);
  }

  lemma TailOf(whole: Bytes, offset: nat, n: nat)
    requires offset + n <= |whole|
    ensures whole[offset..][..n] == whole[offset..offset + n] && whole[offset..][n..] == whole[offset + n..]
  {
  }

  /** `send` with any answer of the kernel; `Pending` gives the pieces `Send` and `Write`. */
  function SendAnswered(c: Channel, answer: Answer): Channel {
    if StartsSend(c) then
      var frame := c.sendQueue[0];
      c.(sendQueue := c.sendQueue[1..],
         write := WriteAnswered(c.write.(buffer := frame), SendCompleted, answer),
         handed := c.handed + [frame])
    else c
  }

  /** The same for `receive`. */
  function ReceiveAnswered(c: Channel, answer: Answer): Channel {
    if StartsRead(c) then c.(read := ReadAnswered(c.read, Routine.ReceiveCompleted, answer)) else c
  }

  lemma PendingSendRuns(c: Channel)
    ensures Runs(Exec, c, [Op.Send], SendAnswered(c, Pending))
  {
    if StartsSend(c) {
      var frame := c.sendQueue[0];
      RunsLast(Exec, c.(sendQueue := c.sendQueue[1..]), Op.Write(frame));
      RunsOn(Exec, c, Op.Send, SendAnswered(c, Pending));
    } else {
      RunsLast(Exec, c, Op.Send);
    }
  }

  /** `send` and `receive` do nothing on a pipe that is not connected, or while their own operation
      is pending; `send` does nothing without a message, either. */
  lemma GuardedCalls(c: Channel, answer: Answer)
    ensures !c.connected || c.write.isPending || c.sendQueue == [] ==>
              SendAnswered(c, answer) == c && Exec(c, Op.Send) == Outcome(c, [])
    ensures !c.connected || c.read.isPending ==>
              ReceiveAnswered(c, answer) == c && Exec(c, Op.Receive) == Outcome(c, [])
  {
  }

  /** `send_message` up to its dispatch, and `receive_message`. */
  function Pushed(c: Channel, m: Bytes): Channel { c.(sendQueue := c.sendQueue + [m]) }

  function Oldest(c: Channel): seq<Bytes> { if c.receiveQueue == [] then [] else [c.receiveQueue[0]] }

  function OldestTaken(c: Channel): Channel {
    if c.receiveQueue == [] then c else c.(receiveQueue := c.receiveQueue[1..])
  }

  // ---------- the class ----------

  /** Tasks on the worker: this channel's, or those of other channels that share it. */
  datatype ChannelTask = ConnectTask | SendTask | OtherTask

  /** A call that the client's handler makes. */
  datatype ClientCall = SendCall(message: Bytes) | ReceiveCall

  function SentBy(calls: seq<ClientCall>): seq<Bytes> {
    if calls == [] then []
    else
      var before := SentBy(calls[..|calls| - 1]);
      match calls[|calls| - 1]
      case SendCall(m) => before + [m]
      case ReceiveCall => before
  }

  /** How often the client asks for a message. */
  function Asked(calls: seq<ClientCall>): nat {
    if calls == [] then 0
    else Asked(calls[..|calls| - 1]) + if calls[|calls| - 1].ReceiveCall? then 1 else 0
  }

  /** Both add up over calls, in order. */
  lemma {:induction false} CallsJoin(a: seq<ClientCall>, b: seq<ClientCall>)
    ensures SentBy(a + b) == SentBy(a) + SentBy(b) && Asked(a + b) == Asked(a) + Asked(b)
    decreases |b|
  {
    if b == [] {
      assert a + b == a && SentBy(a) + SentBy(b) == SentBy(a);
    } else {
      assert (a + b)[..|a + b| - 1] == a + b[..|b| - 1];
      CallsJoin(a, b[..|b| - 1]);
    }
  }

  lemma OneCall(m: Bytes)
    ensures SentBy([SendCall(m)]) == [m] && Asked([SendCall(m)]) == 0
    ensures SentBy([ReceiveCall]) == [] && Asked([ReceiveCall]) == 1
  {
    assert [SendCall(m)][..0] == [] && [ReceiveCall][..0] == [];
    assert SentBy([]) == [] && Asked([]) == 0;
  }

  function Min(a: nat, b: nat): nat { if a < b then a else b }

  function SendTasks(n: nat): seq<ChannelTask> { seq(n, _ => SendTask) }

  lemma SendTasksJoin(tasks: seq<ChannelTask>, m: nat, n: nat)
    ensures (tasks + SendTasks(m)) + SendTasks(n) == tasks + SendTasks(m + n)
  {
  }

  /** `before`, then the client's handler, then `after`, take `c` to `d`.  In between, the
      handler has only queued messages to send and taken received ones, as many as it asked for
      and there were. */
  ghost predicate Handled(c: Channel, before: seq<Op>, calls: seq<ClientCall>, taken: seq<Bytes>,
                          after: seq<Op>, d: Channel)
  {
    exists mid: Channel, h: Channel ::
      && Runs(Exec, c, before, mid)
      && h == mid.(sendQueue := mid.sendQueue + SentBy(calls), receiveQueue := h.receiveQueue)
      && taken + h.receiveQueue == mid.receiveQueue && |taken| == Min(Asked(calls), |mid.receiveQueue|)
      && Runs(Exec, h, after, d)
  }

  /** The channel when the completion routine of its read context starts. */
  function ReadUpdated(c: Channel, ok: bool, n: nat): Channel {
    if ok then c.(read := Completed(c.read, n), connected := c.connected || c.read.kind == Create)
    else c.(read := BrokenOff(c.read, n))
  }

  function WriteUpdated(c: Channel, ok: bool, n: nat): Channel {
    c.(write := if ok then Completed(c.write, n) else BrokenOff(c.write, n))
  }

  class PipeMessageChannel {
    const ioWorker: CompletionWorker<ChannelTask>
    const pipe: SystemPipe
    const readContext: IoContext
    const writeContext: IoContext
    var sendQueue: seq<Bytes>
    var receiveQueue: seq<Bytes>

    ghost predicate Valid() { readContext != writeContext }

    ghost function View(): Channel
      reads this, pipe, readContext, writeContext
    {
      Channel(pipe.connected, sendQueue, receiveQueue, readContext.View(), writeContext.View(), pipe.handed)
    }

    /** The handler's calls, and nothing else, have added to the worker: one send task for each
        message sent, with a packet posted for it. */
    ghost predicate Dispatched(calls: seq<ClientCall>, tasks: seq<ChannelTask>, posted: nat)
      reads ioWorker, ioWorker.worker
    {
      && ioWorker.worker.taskQueue == tasks + SendTasks(|SentBy(calls)|)
      && ioWorker.posted == posted + |SentBy(calls)|
    }

    constructor (open: bool, ioWorker: CompletionWorker<ChannelTask>)
      ensures Valid() && this.ioWorker == ioWorker && fresh(pipe) && fresh(readContext) && fresh(writeContext)
      ensures View() == Channel(open, [], [], FRESH_CONTEXT, FRESH_CONTEXT, [])
    {
      this.ioWorker := ioWorker;
      pipe := new SystemPipe(open);
      readContext := new IoContext();
      writeContext := new IoContext();
      sendQueue, receiveQueue := [], [];
    }

    method SendMessage(message: Bytes)
      modifies this`sendQueue, ioWorker`posted, ioWorker.worker
      ensures sendQueue == old(sendQueue) + [message] && View() == Pushed(old(View()), message)
      ensures ioWorker.worker.taskQueue == old(ioWorker.worker.taskQueue) + [SendTask]
      ensures ioWorker.posted == old(ioWorker.posted) + 1
    {
      sendQueue := sendQueue + [message];
      ioWorker.Dispatch(SendTask);
    }

    /** No message is the null pointer of the source. */
    method ReceiveMessage() returns (message: seq<Bytes>)
      modifies this`receiveQueue
      ensures |message| == if old(receiveQueue) == [] then 0 else 1
      ensures message + receiveQueue == old(receiveQueue)
      ensures message == Oldest(old(View())) && View() == OldestTaken(old(View()))
    {
      message := [];
      if receiveQueue != [] {
        message := [receiveQueue[0]];
        receiveQueue := receiveQueue[1..];
      }
    }

    /** One call of the client's. */
    method RunCall(call: ClientCall) returns (one: seq<Bytes>)
      modifies this, ioWorker, ioWorker.worker
      ensures sendQueue == old(sendQueue) + SentBy([call])
      ensures one + receiveQueue == old(receiveQueue) && |one| == Min(Asked([call]), |old(receiveQueue)|)
      ensures Dispatched([call], old(ioWorker.worker.taskQueue), old(ioWorker.posted))
    {
      one := [];
      match call
      case SendCall(m) =>
        OneCall(m);
        SendMessage(m);
      case ReceiveCall =>
        OneCall([]);
        one := ReceiveMessage();
    }

    /** `handler_(*this)`: the client's calls are a parameter. */
    method RunHandler(calls: seq<ClientCall>) returns (taken: seq<Bytes>)
      modifies this, ioWorker, ioWorker.worker
      ensures sendQueue == old(sendQueue) + SentBy(calls)
      ensures taken + receiveQueue == old(receiveQueue) && |taken| == Min(Asked(calls), |old(receiveQueue)|)
      ensures Dispatched(calls, old(ioWorker.worker.taskQueue), old(ioWorker.posted))
    {
      taken := [];
      for i := 0 to |calls|
        invariant sendQueue == old(sendQueue) + SentBy(calls[..i])
        invariant taken + receiveQueue == old(receiveQueue)
        invariant |taken| == Min(Asked(calls[..i]), |old(receiveQueue)|)
        invariant Dispatched(calls[..i], old(ioWorker.worker.taskQueue), old(ioWorker.posted))
      {
        assert calls[..i + 1] == calls[..i] + [calls[i]];
        CallsJoin(calls[..i], [calls[i]]);
        var one := RunCall(calls[i]);
        Associates(taken, one, receiveQueue);
        Associates(old(sendQueue), SentBy(calls[..i]), SentBy([calls[i]]));
        SendTasksJoin(old(ioWorker.worker.taskQueue), |SentBy(calls[..i])|, |SentBy([calls[i]])|);
        taken := taken + one;
      }
      assert calls[..|calls|] == calls;
    }

    method Send(answer: Answer)
      requires Valid()
      modifies this`sendQueue, pipe, writeContext
      ensures View() == SendAnswered(old(View()), answer)
      ensures answer == Pending ==> Runs(Exec, old(View()), [Op.Send], View())
    {
      PendingSendRuns(View());
      if !writeContext.isPending && pipe.connected && sendQueue != [] {
        var message := sendQueue[0];
        sendQueue := sendQueue[1..];
        writeContext.buffer := message;
        pipe.Write(writeContext, Routine.SendCompleted, answer);
      }
    }

    method Receive(answer: Answer)
      requires Valid()
      modifies readContext
      ensures View() == ReceiveAnswered(old(View()), answer)
      ensures answer == Pending ==> Runs(Exec, old(View()), [Op.Receive], View())
    {
      ghost var c := View();
      if !readContext.isPending && pipe.connected {
        pipe.Read(readContext, Routine.ReceiveCompleted, answer);
      }
      RunsLast(Exec, c, Op.Receive);
    }

    /** The loop of `receive_completed`, with its two counters. */
    method QueueFrames() returns (offset: nat, bufferSize: nat)
      modifies this`receiveQueue
      ensures offset + bufferSize == |readContext.buffer|
      ensures receiveQueue == old(receiveQueue) + Parse(readContext.buffer).messages
      ensures Parse(readContext.buffer).rest == readContext.buffer[offset..]
      ensures offset != 0 <==> Parse(readContext.buffer).messages != []
    {
      var buffer, tail := readContext.buffer, readContext.buffer;
      ghost var cut: seq<Bytes> := [];
      offset, bufferSize := 0, |buffer|;
      while bufferSize >= HEAD_SIZE
        invariant offset + bufferSize == |buffer| && tail == buffer[offset..]
        invariant receiveQueue == old(receiveQueue) + cut
        invariant AllWellFormed(cut) && Concat(cut) + tail == buffer
        invariant offset != 0 <==> cut != []
        decreases bufferSize
      {
        var messageSize := FrameLength(tail);
        if bufferSize < messageSize {
          break;
        }
        FrameCut(buffer, offset, cut);
        var message := buffer[offset..offset + messageSize];
        receiveQueue := receiveQueue + [message];
        cut := cut + [message];
        offset := offset + messageSize;
        bufferSize := bufferSize - messageSize;
        tail := buffer[offset..];
      }
      ParseIff(buffer, cut, tail);
    }

    /** `receive_completed` up to the handler call. */
    method CutFrames()
      requires Valid()
      modifies this`receiveQueue, readContext
      ensures View() == CutAll(old(View()))
    {
      var offset, bufferSize := QueueFrames();
      if offset != 0 {
        KeepRest(offset, bufferSize);
      } else {
        assert receiveQueue == old(receiveQueue);
      }
    }

    /** The bytes that are not cut out move to the front, or the buffer is cleared. */
    method KeepRest(offset: nat, bufferSize: nat)
      requires offset + bufferSize == |readContext.buffer|
      modifies readContext
      ensures readContext.View() ==
              old(readContext.View()).(buffer := old(readContext.buffer)[offset..], offset := bufferSize)
    {
      if bufferSize > 0 {
        readContext.buffer := readContext.buffer[offset..];
        readContext.offset := bufferSize;
      } else {
        readContext.buffer := [];
        readContext.offset := 0;
      }
    }

    /** `closed`: the handler only. */
    method Closed(calls: seq<ClientCall>) returns (taken: seq<Bytes>)
      requires Valid()
      modifies this, ioWorker, ioWorker.worker
      ensures Handled(old(View()), [], calls, taken, [], View())
      ensures Dispatched(calls, old(ioWorker.worker.taskQueue), old(ioWorker.posted))
    {
      RunsNone(Exec, View());
      taken := RunHandler(calls);
      RunsNone(Exec, View());
    }

    method ReceiveCompleted(calls: seq<ClientCall>) returns (taken: seq<Bytes>)
      requires Valid()
      modifies this, readContext, ioWorker, ioWorker.worker
      ensures if old(readContext.kind) == Read
              then Handled(old(View()), [Cut(0)], calls, taken, [Op.Receive], View())
              else Handled(old(View()), [], calls, taken, [], View())
      ensures Dispatched(calls, old(ioWorker.worker.taskQueue), old(ioWorker.posted))
    {
      if readContext.kind != Read {
        taken := Closed(calls);
        return;
      }
      CutAllRuns(View());
      CutFrames();
      taken := RunHandler(calls);
      Receive(Pending);
    }

    method SendCompleted(answer: Answer, calls: seq<ClientCall>) returns (taken: seq<Bytes>)
      requires Valid()
      modifies this, pipe, writeContext, ioWorker, ioWorker.worker
      ensures if old(writeContext.kind) == IoType.Write
              then && taken == [] && View() == SendAnswered(old(View()), answer)
                   && (answer == Pending ==> Runs(Exec, old(View()), [Op.Send], View()))
              else Handled(old(View()), [], calls, taken, [], View())
      ensures Dispatched(if old(writeContext.kind) == IoType.Write then [] else calls,
                         old(ioWorker.worker.taskQueue), old(ioWorker.posted))
    {
      taken := [];
      if writeContext.kind != IoType.Write {
        taken := Closed(calls);
        return;
      }
      Send(answer);
    }

    method ConnectCompleted(calls: seq<ClientCall>) returns (taken: seq<Bytes>)
      requires Valid()
      modifies this, pipe, readContext, writeContext, ioWorker, ioWorker.worker
      ensures Handled(old(View()), [], calls, taken, [Op.Send, Op.Receive], View())
      ensures Dispatched(calls, old(ioWorker.worker.taskQueue), old(ioWorker.posted))
    {
      RunsNone(Exec, View());
      taken := RunHandler(calls);
      ghost var h := View();
      Send(Pending);
      ghost var mid := View();
      Receive(Pending);
      RunsThen(Exec, h, [Op.Send], mid, [Op.Receive], View());
      assert [Op.Send] + [Op.Receive] == [Op.Send, Op.Receive];
    }

    /** The connect task.  A connected pipe runs the routine at once, any other waits. */
    method Connect(clientWaiting: bool, calls: seq<ClientCall>) returns (taken: seq<Bytes>)
      requires Valid()
      modifies this, pipe, readContext, writeContext, ioWorker, ioWorker.worker
      ensures var e := Exec(old(View()), Op.Connect(clientWaiting));
              if e.next == [] then View() == e.state && taken == []
              else e.next[0] == Handler && Handled(e.state, [], calls, taken, e.next[1..], View())
      ensures Dispatched(if Exec(old(View()), Op.Connect(clientWaiting)).next == [] then [] else calls,
                         old(ioWorker.worker.taskQueue), old(ioWorker.posted))
    {
      ghost var e := Exec(View(), Op.Connect(clientWaiting));
      taken := [];
      var immediate := pipe.Connect(readContext, Routine.ConnectCompleted,
                                   if clientWaiting then ClientThere else NoClientYet);
      assert View() == e.state;
      if immediate {
        taken := ConnectCompleted(calls);
        assert e.next[1..] == [Op.Send, Op.Receive];
      }
    }

    /** `io_completed` or `io_broken`, up to the call of the routine. */
    method UpdateRead(ok: bool, n: nat)
      requires Valid()
      modifies pipe, readContext
      ensures View() == ReadUpdated(old(View()), ok, n)
    {
      if ok {
        pipe.IoCompleted(readContext, n);
      } else {
        pipe.IoBroken(readContext, n);
      }
    }

    method UpdateWrite(ok: bool, n: nat)
      requires Valid() && writeContext.kind != Create
      modifies pipe, writeContext
      ensures View() == WriteUpdated(old(View()), ok, n)
    {
      if ok {
        pipe.IoCompleted(writeContext, n);
      } else {
        pipe.IoBroken(writeContext, n);
      }
    }

    /** `run_loop` with a packet of the read context: update it, then run its routine. */
    method TakeReadPacket(ok: bool, n: nat, calls: seq<ClientCall>) returns (taken: seq<Bytes>)
      requires Valid()
      requires readContext.routine == Routine.ConnectCompleted || readContext.routine == Routine.ReceiveCompleted
      modifies this, pipe, readContext, writeContext, ioWorker, ioWorker.worker
      ensures var c := ReadUpdated(old(View()), ok, n);
              if CutCode(RoutineCode(c.read)) then Handled(c, [Cut(0)], calls, taken, [Op.Receive], View())
              else RoutineCode(c.read)[0] == Handler && Handled(c, [], calls, taken, RoutineCode(c.read)[1..], View())
      ensures Dispatched(calls, old(ioWorker.worker.taskQueue), old(ioWorker.posted))
    {
      ghost var c := ReadUpdated(View(), ok, n);
      UpdateRead(ok, n);
      if readContext.routine == Routine.ConnectCompleted {
        taken := ConnectCompleted(calls);
        assert RoutineCode(c.read)[1..] == [Op.Send, Op.Receive];
      } else {
        taken := ReceiveCompleted(calls);
        assert c.read.kind != Read ==> RoutineCode(c.read)[1..] == [];
      }
    }

    /** The same for the write context. */
    method TakeWritePacket(ok: bool, n: nat, answer: Answer, calls: seq<ClientCall>) returns (taken: seq<Bytes>)
      requires Valid() && writeContext.routine == Routine.SendCompleted && writeContext.kind != Create
      modifies this, pipe, writeContext, ioWorker, ioWorker.worker
      ensures var c := WriteUpdated(old(View()), ok, n);
              if RoutineCode(c.write) == [Op.Send]
              then && taken == [] && View() == SendAnswered(c, answer)
                   && (answer == Pending ==> Runs(Exec, c, [Op.Send], View()))
              else RoutineCode(c.write) == [Handler] && Handled(c, [], calls, taken, [], View())
      ensures Dispatched(if RoutineCode(WriteUpdated(old(View()), ok, n).write) == [Op.Send] then [] else calls,
                         old(ioWorker.worker.taskQueue), old(ioWorker.posted))
    {
      ghost var c := WriteUpdated(View(), ok, n);
      UpdateWrite(ok, n);
      taken := SendCompleted(answer, calls);
    }
  }

  /** The code starts by cutting out frames. */
  predicate CutCode(code: seq<Op>) { code != [] && code[0].Cut? }
}
