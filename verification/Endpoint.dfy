/** One process's end of a pipe: a `pipe_message_channel`, the worker it shares with other
    channels, the one thread that runs the completion loop, any number of threads that call
    `send_message` and `receive_message`, and the kernel's side of the two contexts. */
module Endpoint {
  import opened Frames
  import opened FileIo
  import opened PipeChannel
  import opened Threads

  /** The loop thread, when it calls the channel from inside a handler. */
  const LOOP: Thread := 0

  /** A caller has pushed its message but not dispatched `send`, or has pushed a task but not
      posted the packet for it. */
  datatype Caller = Submitted | Queued

  /** The kernel's side of a context: nothing outstanding, a call outstanding, or a completion
      packet waiting on the port. */
  datatype IoOp = Quiet | InFlight(moved: nat) | Done(count: nat) | Failed

  /** The loop thread waits on the port, runs a completion routine, or is in `run_one`, where
      empty code means that it looks at the queue next. */
  datatype Loop = Waiting | InCompletion(code: seq<Op>) | InWorker(code: seq<Op>)

  /** `submitted`, `taken`, `out` and `inn` are histories: messages pushed and taken, bytes
      put on the pipe and got from it. */
  datatype End = End(
    chan: Channel, readOp: IoOp, writeOp: IoOp,
    tasks: seq<ChannelTask>, packets: nat, callers: map<Thread, Caller>, loop: Loop,
    submitted: seq<Bytes>, taken: seq<Bytes>, out: Bytes, inn: Bytes)

  datatype Action =
    | Submit(t: Thread, message: Bytes)
    | Dispatch(t: Thread)
    | DispatchOther(t: Thread)
    | Post(t: Thread)
    | Take
    | Packet
    | OtherPacket
    | PopTask(clientWaiting: bool)
    | Drained
    | Run
    | Return
    | ReadPacket
    | WritePacket
    | KernelConnect
    | KernelRead(chunk: Bytes)
    | KernelWrite(count: nat)
    | KernelWrote
    | FailRead
    | FailWrite

  function Code(e: End): seq<Op> {
    if e.loop.Waiting? then [] else e.loop.code
  }

  function Resume(l: Loop, code: seq<Op>): Loop {
    match l
    case Waiting => Waiting
    case InCompletion(_) => InCompletion(code)
    case InWorker(_) => InWorker(code)
  }

  /** `create_channel` has pushed the connect task, and the thread that called it has still to
      post the packet.  The worker and the loop thread may be at any work for other channels,
      and the caller may be the loop thread itself, inside another channel's handler. */
  ghost predicate Created(e: End, open: bool) {
    && e.chan == Channel(open, [], [], FRESH_CONTEXT, FRESH_CONTEXT, []) && e.readOp == Quiet && e.writeOp == Quiet
    && e.submitted == [] && e.taken == [] && e.out == [] && e.inn == []
    && |e.tasks| > 0 && e.tasks[|e.tasks| - 1] == ConnectTask
    && (forall i :: 0 <= i < |e.tasks| - 1 ==> e.tasks[i] == OtherTask)
    && Calling(e, Queued) && (forall t :: t in e.callers ==> e.callers[t] == Queued)
    && (Code(e) == [] || Code(e) == [Handler])
    && (LOOP in e.callers ==> Code(e) == [Handler])
  }

  /** The first channel of a process, created by thread 1. */
  function FirstChannel(open: bool): End {
    End(Channel(open, [], [], FRESH_CONTEXT, FRESH_CONTEXT, []), Quiet, Quiet,
        [ConnectTask], 0, map[1 := Queued], Waiting, [], [], [], [])
  }

  predicate MayCall(e: End, t: Thread) {
    t !in e.callers && (t == LOOP ==> Code(e) != [] && Code(e)[0].Handler?)
  }

  predicate Enabled(e: End, a: Action) {
    match a
    case Submit(t, m) => MayCall(e, t)
    case Dispatch(t) => t in e.callers && e.callers[t] == Submitted
    case DispatchOther(t) => MayCall(e, t)
    case Post(t) => t in e.callers && e.callers[t] == Queued
    case Take => true
    case Packet => e.loop.Waiting? && e.packets > 0
    case OtherPacket => e.loop.Waiting?
    case PopTask(_) => e.loop == InWorker([]) && e.tasks != []
    case Drained => e.loop == InWorker([]) && e.tasks == []
    case Run => Code(e) != [] && (Code(e)[0].Handler? ==> LOOP !in e.callers)
    case Return => e.loop == InCompletion([])
    case ReadPacket => e.loop.Waiting? && (e.readOp.Done? || e.readOp.Failed?)
    case WritePacket => e.loop.Waiting? && (e.writeOp.Done? || e.writeOp.Failed?)
    case KernelConnect => e.readOp.InFlight? && e.chan.read.kind == Create
    case KernelRead(chunk) =>
      var r := e.chan.read;
      e.readOp.InFlight? && r.kind == Read && |chunk| <= BUFFER_SIZE && r.offset + |chunk| <= |r.buffer|
    case KernelWrite(n) => e.writeOp.InFlight? && 0 < n && e.writeOp.moved + n <= |Wire(e.chan.write.buffer)|
    case KernelWrote => e.writeOp.InFlight? && e.writeOp.moved == |Wire(e.chan.write.buffer)|
    case FailRead => e.readOp.InFlight?
    case FailWrite => e.writeOp.InFlight?
  }

  function TaskCode(t: ChannelTask, clientWaiting: bool): seq<Op> {
    match t
    case ConnectTask => [Op.Connect(clientWaiting)]
    case SendTask => [Op.Send]
    case OtherTask => [Op.Handler]
  }

  /** The bytes an action puts on the pipe. */
  function Emitted(e: End, a: Action): Bytes
    requires Enabled(e, a)
  {
    if a.KernelWrite? then Wire(e.chan.write.buffer)[e.writeOp.moved..e.writeOp.moved + a.count] else []
  }

  /** The next piece of the loop thread's code; a piece that issues an overlapped call makes
      it pending in the kernel. */
  function RunPiece(e: End): End
    requires Code(e) != []
  {
    var c, op := e.chan, Code(e)[0];
    var r := Exec(c, op);
    e.(chan := r.state,
       loop := Resume(e.loop, r.next + Code(e)[1..]),
       readOp := if (op.Receive? && StartsRead(c)) || (op.Connect? && r.next == []) then InFlight(0) else e.readOp,
       writeOp := if op.Write? then InFlight(0) else e.writeOp)
  }

  function Transferred(op: IoOp): nat {
    if op.Done? then op.count else 0
  }

  predicate ByClient(a: Action) { a.Submit? || a.Dispatch? || a.DispatchOther? || a.Post? || a.Take? }

  predicate ByKernel(a: Action) {
    a.KernelConnect? || a.KernelRead? || a.KernelWrite? || a.KernelWrote? || a.FailRead? || a.FailWrite?
  }

  /** The loop thread goes from one piece of work to the next. */
  predicate ByLoop(a: Action) { a.Packet? || a.OtherPacket? || a.PopTask? || a.Drained? || a.Return? }

  function ClientStep(e: End, a: Action): End
    requires Enabled(e, a) && ByClient(a)
  {
    var c := e.chan;
    match a
    case Submit(t, m) =>
      e.(chan := Pushed(c, m), submitted := e.submitted + [m], callers := e.callers[t := Submitted])
    case Dispatch(t) => e.(tasks := e.tasks + [SendTask], callers := e.callers[t := Queued])
    case DispatchOther(t) => e.(tasks := e.tasks + [OtherTask], callers := e.callers[t := Queued])
    case Post(t) => e.(packets := e.packets + 1, callers := e.callers - {t})
    case Take => e.(chan := OldestTaken(c), taken := e.taken + Oldest(c))
  }

  function KernelStep(e: End, a: Action): End
    requires Enabled(e, a) && ByKernel(a)
  {
    match a
    case KernelConnect => e.(readOp := Done(0))
    case KernelRead(chunk) =>
      e.(chan := e.chan.(read := Filled(e.chan.read, chunk)), inn := e.inn + chunk, readOp := Done(|chunk|))
    case KernelWrite(n) => e.(writeOp := InFlight(e.writeOp.moved + n), out := e.out + Emitted(e, a))
    case KernelWrote => e.(writeOp := Done(e.writeOp.moved))
    case FailRead => e.(readOp := Failed)
    case FailWrite => e.(writeOp := Failed)
  }

  /** The packet of a context is taken and its completion routine started. */
  function TakeReadPacket(e: End): End {
    var c := ReadUpdated(e.chan, e.readOp.Done?, Transferred(e.readOp));
    e.(chan := c, readOp := Quiet, loop := InCompletion(RoutineCode(c.read)))
  }

  function TakeWritePacket(e: End): End {
    var c := WriteUpdated(e.chan, e.writeOp.Done?, Transferred(e.writeOp));
    e.(chan := c, writeOp := Quiet, loop := InCompletion(RoutineCode(c.write)))
  }

  function LoopStep(e: End, a: Action): End
    requires Enabled(e, a) && ByLoop(a)
  {
    match a
    case Packet => e.(packets := e.packets - 1, loop := InWorker([]))
    case OtherPacket => e.(loop := InCompletion([Op.Handler]))
    case PopTask(clientWaiting) => e.(tasks := e.tasks[1..], loop := InWorker(TaskCode(e.tasks[0], clientWaiting)))
    case Drained => e.(loop := Waiting)
    case Return => e.(loop := Waiting)
  }

  function Step(e: End, a: Action): End
    requires Enabled(e, a)
  {
    if ByClient(a) then ClientStep(e, a)
    else if ByKernel(a) then KernelStep(e, a)
    else if ByLoop(a) then LoopStep(e, a)
    else if a.Run? then RunPiece(e)
    else if a.ReadPacket? then TakeReadPacket(e)
    else TakeWritePacket(e)
  }

  // ---------- what is due on the loop thread ----------

  predicate WriteDue(code: seq<Op>) { code != [] && code[0].Write? }

  predicate SendDue(code: seq<Op>) { (|code| > 0 && code[0].Send?) || (|code| > 1 && code[1].Send?) }

  predicate ConnectDue(code: seq<Op>) { code != [] && code[0].Connect? }

  predicate ReceiveDue(code: seq<Op>) { code != [] && code[|code| - 1].Receive? }

  predicate Shape(code: seq<Op>) {
    && |code| <= 3
    && (|code| == 1 ==> !code[0].Cut?)
    && (|code| >= 2 ==> code[|code| - 1].Receive?)
    && (|code| == 2 ==> code[0].Handler? || code[0].Send? || code[0].Write?)
    && (|code| == 3 ==> (code[0].Cut? && code[1].Handler?) || (code[0].Handler? && code[1].Send?))
  }

  // ---------- invariants ----------

  function Popped(e: End): seq<Bytes> {
    if WriteDue(Code(e)) then [Code(e)[0].frame] else []
  }

  /** Frames handed to the kernel, the one in the loop thread's hands, and those queued are the
      messages submitted; the bytes on the pipe are those of the frames handed. */
  ghost predicate WriteInv(e: End) {
    var w, handed := e.chan.write, e.chan.handed;
    && Shape(Code(e))
    && (w.kind == Broken ==> w.isPending && e.writeOp == Quiet)
    && (w.kind != Broken ==> (w.isPending <==> e.writeOp != Quiet))
    && (e.writeOp != Quiet ==> w.routine == Routine.SendCompleted && w.kind == IoType.Write)
    && (WriteDue(Code(e)) ==> !w.isPending)
    && e.submitted == handed + Popped(e) + e.chan.sendQueue
    && e.out <= Stream(handed)
    && (e.writeOp.InFlight? ==>
          && e.writeOp.moved <= |Wire(w.buffer)|
          && e.out + Wire(w.buffer)[e.writeOp.moved..] == Stream(handed))
    && (w.kind != Broken && (e.writeOp.Quiet? || e.writeOp.Done?) ==> e.out == Stream(handed))
  }

  function Delivered(e: End): seq<Bytes> { e.taken + e.chan.receiveQueue }

  /** The bytes received and not yet cut into messages. */
  function Kept(e: End): Bytes {
    var r := e.chan.read;
    if e.readOp != Quiet && r.kind == Read then
      Resize(r.buffer, r.offset + if e.readOp.Done? then e.readOp.count else 0)
    else if CutCode(Code(e)) then Uncut(e.chan, Code(e)[0].from)
    else r.buffer
  }

  /** Messages delivered and bytes kept make up the bytes received. */
  ghost predicate ReadInv(e: End) {
    var r := e.chan.read;
    && AllWellFormed(Delivered(e))
    && Concat(Delivered(e)) <= e.inn
    && (r.kind != Broken ==> Concat(Delivered(e)) + Kept(e) == e.inn)
    && (r.kind != Broken && !e.readOp.Done? && !CutCode(Code(e)) ==> !HasFrame(Kept(e)))
    && (r.kind == Create && e.readOp != Quiet ==> !HasFrame(r.buffer))
    && (r.kind == Read && (e.readOp.InFlight? || e.readOp.Failed?) ==> |r.buffer| == r.offset + BUFFER_SIZE)
    && (r.kind == Read && e.readOp.Done? ==> r.offset + e.readOp.count <= |r.buffer|)
    && (CutCode(Code(e)) ==> Code(e)[0].from <= |r.buffer|)
  }

  /** Reading is driven from one place at a time: the queued connect task, the code of the loop
      thread, or the kernel; from none only after a break. */
  ghost predicate TurnInv(e: End) {
    var r, code := e.chan.read, Code(e);
    && Shape(code)
    && (forall i, j :: 0 <= i < j < |e.tasks| && e.tasks[i] == ConnectTask ==> e.tasks[j] != ConnectTask)
    && (ConnectTask in e.tasks ==> !ReceiveDue(code) && !ConnectDue(code))
    && (e.readOp != Quiet ==>
          && ConnectTask !in e.tasks && !ReceiveDue(code) && !ConnectDue(code)
          && r.isPending && (r.kind == Create || r.kind == Read)
          && r.routine == if r.kind == Create then Routine.ConnectCompleted else Routine.ReceiveCompleted)
    && (ConnectTask in e.tasks || ConnectDue(code) ==> r.kind == Unknown && !r.isPending)
    && (r.kind == Broken ==> r.isPending)
    && (r.kind != Broken && ReceiveDue(code) ==> !r.isPending && e.chan.connected)
    && (r.kind == Read ==> e.chan.connected)
    && (CutCode(code) ==> r.kind == Read)
    && (r.kind != Broken ==> e.readOp != Quiet || ReceiveDue(code) || ConnectDue(code) || ConnectTask in e.tasks)
  }

  /** Some caller is at `stage`. */
  ghost predicate Calling(e: End, stage: Caller) {
    exists t :: t in e.callers && e.callers[t] == stage
  }

  /** While a connected channel has a message to send, somebody is on the way to send it. */
  ghost predicate SenderAwake(e: End) {
    e.chan.connected && e.chan.write.kind != Broken && e.chan.sendQueue != [] ==>
      || e.chan.write.isPending
      || SendDue(Code(e)) || WriteDue(Code(e))
      || SendTask in e.tasks
      || Calling(e, Submitted)
  }

  /** While a task is queued, somebody is on the way to run it. */
  ghost predicate WorkerAwake(e: End) {
    e.tasks != [] ==>
      || e.packets > 0
      || e.loop.InWorker?
      || Calling(e, Queued)
  }

  ghost predicate Inv(e: End) {
    WriteInv(e) && ReadInv(e) && TurnInv(e) && SenderAwake(e) && WorkerAwake(e)
  }

  lemma FirstChannelCreated(open: bool)
    ensures Created(FirstChannel(open), open)
  {
    assert FirstChannel(open).callers[1] == Queued;
  }

  lemma CreatedInv(e: End, open: bool)
    requires Created(e, open)
    ensures Inv(e)
  {
  }

  // ---------- steps of the loop thread's code ----------

  /** `next` in front of the code behind the first piece. */
  lemma CodeJoins(next: seq<Op>, code: seq<Op>)
    requires Shape(code) && code != []
    requires || next == []
             || (|next| == 1 && ((code[0].Send? && next[0].Write?) || (code[0].Cut? && next[0].Cut?)))
             || (|next| == 3 && code[0].Connect? && next[0].Handler? && next[1].Send? && next[2].Receive?)
    ensures var code' := next + code[1..];
            && Shape(code') && !ConnectDue(code')
            && (code' != [] && next != [] ==> code'[0] == next[0])
            && (WriteDue(code') <==> WriteDue(next)) && (CutCode(code') <==> CutCode(next))
            && (ReceiveDue(code') <==> if code[0].Connect? then next != [] else ReceiveDue(code) && !code[0].Receive?)
            && (SendDue(code') <==> if code[0].Connect? then next != [] else SendDue(code) && !code[0].Send?)
  {
    if next == [] {
      assert next + code[1..] == code[1..];
    }
  }

  /** What is due after one piece. */
  lemma CodeAfter(e: End)
    requires Shape(Code(e)) && Code(e) != []
    ensures var c, op, code, code' := e.chan, Code(e)[0], Code(e), Code(RunPiece(e));
            && Shape(code')
            && (WriteDue(code') <==> op.Send? && StartsSend(c))
            && (WriteDue(code') ==> code'[0].frame == c.sendQueue[0])
            && (CutCode(code') <==> op.Cut? && HasFrame(Uncut(c, op.from)))
            && (CutCode(code') ==> code'[0].from == op.from + FrameLength(Uncut(c, op.from)))
            && !ConnectDue(code')
            && (ReceiveDue(code') <==> if op.Connect? then Exec(c, op).next != [] else ReceiveDue(code) && !op.Receive?)
            && (SendDue(code') <==> if op.Connect? then Exec(c, op).next != [] else SendDue(code) && !op.Send?)
  {
    CodeJoins(Exec(e.chan, Code(e)[0]).next, Code(e));
  }

  // ---------- WriteInv ----------

  lemma WriteUntouched(e: End, e': End)
    requires WriteInv(e) && Shape(Code(e')) && Popped(e') == Popped(e)
    requires e'.chan.write == e.chan.write && e'.writeOp == e.writeOp && e'.out == e.out
    requires e'.chan.handed == e.chan.handed && e'.submitted == e.submitted && e'.chan.sendQueue == e.chan.sendQueue
    ensures WriteInv(e')
  {
    assert WriteDue(Code(e')) ==> |Popped(e')| == 1;
  }

  lemma WriteFrame(e: End, frame: Bytes)
    requires WriteInv(e) && Enabled(e, Run) && Code(e)[0] == Op.Write(frame)
    ensures WriteInv(RunPiece(e))
  {
    CodeAfter(e);
    StreamPush(e.chan.handed, frame);
    assert Wire(frame)[0..] == Wire(frame);
    assert e.chan.handed + [frame] + e.chan.sendQueue == (e.chan.handed + [frame]) + [] + e.chan.sendQueue;
  }

  lemma WritePop(e: End)
    requires WriteInv(e) && Enabled(e, Run) && Code(e)[0].Send? && StartsSend(e.chan)
    ensures WriteInv(RunPiece(e))
  {
    CodeAfter(e);
    var q := e.chan.sendQueue;
    assert Popped(RunPiece(e)) == [q[0]] && Popped(e) == [];
    assert e.chan.handed + [] + q == e.chan.handed + [q[0]] + q[1..];
  }

  lemma WriteRun(e: End)
    requires WriteInv(e) && Enabled(e, Run)
    ensures WriteInv(RunPiece(e))
  {
    var op := Code(e)[0];
    if op.Write? {
      WriteFrame(e, op.frame);
    } else if op.Send? && StartsSend(e.chan) {
      WritePop(e);
    } else {
      CodeAfter(e);
      WriteUntouched(e, RunPiece(e));
    }
  }

  lemma WriteTaken(e: End)
    requires WriteInv(e) && Enabled(e, WritePacket)
    ensures WriteInv(TakeWritePacket(e))
  {
  }

  lemma WriteReadTaken(e: End)
    requires WriteInv(e) && Enabled(e, ReadPacket)
    ensures WriteInv(TakeReadPacket(e))
  {
    WriteUntouched(e, TakeReadPacket(e));
  }

  lemma WriteLoop(e: End, a: Action)
    requires WriteInv(e) && Enabled(e, a) && ByLoop(a)
    ensures WriteInv(LoopStep(e, a))
  {
    WriteUntouched(e, LoopStep(e, a));
  }

  lemma SliceSplits(wire: Bytes, k: nat, n: nat, out: Bytes)
    requires k + n <= |wire|
    ensures (out + wire[k..k + n]) + wire[k + n..] == out + wire[k..]
  {
    assert wire[k..] == wire[k..k + n] + wire[k + n..];
  }

  lemma WriteMoves(e: End, n: nat)
    requires WriteInv(e) && Enabled(e, KernelWrite(n))
    ensures WriteInv(KernelStep(e, KernelWrite(n)))
  {
    SliceSplits(Wire(e.chan.write.buffer), e.writeOp.moved, n, e.out);
  }

  lemma WriteKernel(e: End, a: Action)
    requires WriteInv(e) && Enabled(e, a) && ByKernel(a)
    ensures WriteInv(KernelStep(e, a))
  {
    var e' := KernelStep(e, a);
    match a
    case KernelWrite(n) => WriteMoves(e, n);
    case KernelWrote => assert e.out + [] == e.out;
    case FailWrite =>
    case _ => WriteUntouched(e, e');
  }

  lemma WriteClient(e: End, a: Action)
    requires WriteInv(e) && Enabled(e, a) && ByClient(a)
    ensures WriteInv(ClientStep(e, a))
  {
    if a.Submit? {
      assert e.submitted + [a.message] == (e.chan.handed + Popped(e)) + (e.chan.sendQueue + [a.message]);
    } else {
      WriteUntouched(e, ClientStep(e, a));
    }
  }

  // ---------- ReadInv ----------

  lemma ReadUntouched(e: End, e': End)
    requires ReadInv(e) && Delivered(e') == Delivered(e) && e'.inn == e.inn
    requires e'.chan.read == e.chan.read && e'.readOp == e.readOp
    requires if CutCode(Code(e)) then Code(e') == Code(e) else !CutCode(Code(e'))
    ensures ReadInv(e')
  {
    assert Kept(e') == Kept(e);
  }

  /** A frame cut moves from the bytes kept to the messages delivered. */
  lemma ReadMoved(e: End, e': End, frame: Bytes, rest: Bytes)
    requires ReadInv(e) && e.chan.read.kind == Read && Kept(e) == frame + rest && WellFormed(frame)
    requires e'.chan.read == e.chan.read && e'.readOp == e.readOp && e'.readOp == Quiet && e'.inn == e.inn
    requires Delivered(e') == Delivered(e) + [frame] && Kept(e') == rest
    requires CutCode(Code(e')) && Code(e')[0].from <= |e'.chan.read.buffer|
    ensures ReadInv(e')
  {
    FrameMoves(Delivered(e), frame, rest, e.inn);
  }

  lemma ReadCut(e: End)
    requires ReadInv(e) && TurnInv(e) && CutCode(Code(e)) && HasFrame(Uncut(e.chan, Code(e)[0].from))
    ensures ReadInv(RunPiece(e))
  {
    CodeAfter(e);
    var e', s := RunPiece(e), Uncut(e.chan, Code(e)[0].from);
    var frame, rest := s[..FrameLength(s)], s[FrameLength(s)..];
    FirstFrame(s);
    assert Delivered(e') == Delivered(e) + [frame];
    assert CutCode(Code(e')) && Kept(e') == rest;
    ReadMoved(e, e', frame, rest);
  }

  lemma ReadCutEnds(e: End)
    requires ReadInv(e) && TurnInv(e) && CutCode(Code(e)) && !HasFrame(Uncut(e.chan, Code(e)[0].from))
    ensures ReadInv(RunPiece(e))
  {
    CodeAfter(e);
    assert Kept(RunPiece(e)) == Kept(e);
  }

  lemma ReadStarts(e: End)
    requires ReadInv(e) && TurnInv(e) && Enabled(e, Run) && (Code(e)[0].Receive? || Code(e)[0].Connect?)
    ensures ReadInv(RunPiece(e))
  {
    CodeAfter(e);
    assert Kept(RunPiece(e)) == Kept(e);
  }

  lemma ReadRun(e: End)
    requires ReadInv(e) && TurnInv(e) && Enabled(e, Run)
    ensures ReadInv(RunPiece(e))
  {
    match Code(e)[0]
    case Receive => ReadStarts(e);
    case Connect(_) => ReadStarts(e);
    case Cut(from) =>
      if HasFrame(Uncut(e.chan, from)) {
        ReadCut(e);
      } else {
        ReadCutEnds(e);
      }
    case _ =>
      CodeAfter(e);
      ReadUntouched(e, RunPiece(e));
  }

  lemma ReadTaken(e: End)
    requires ReadInv(e) && TurnInv(e) && Enabled(e, ReadPacket)
    ensures ReadInv(TakeReadPacket(e))
  {
    var e' := TakeReadPacket(e);
    if e.readOp.Done? && e.chan.read.kind == Read {
      assert Code(e')[0] == Op.Cut(0);
      assert Kept(e') == Kept(e);
    }
  }

  lemma ReadLoop(e: End, a: Action)
    requires ReadInv(e) && Enabled(e, a) && ByLoop(a)
    ensures ReadInv(LoopStep(e, a))
  {
    ReadUntouched(e, LoopStep(e, a));
  }

  lemma ReadWriteTaken(e: End)
    requires ReadInv(e) && WriteInv(e) && Enabled(e, WritePacket)
    ensures ReadInv(TakeWritePacket(e))
  {
    ReadUntouched(e, TakeWritePacket(e));
  }

  lemma ReadFilled(e: End, chunk: Bytes)
    requires ReadInv(e) && TurnInv(e) && Enabled(e, KernelRead(chunk))
    ensures ReadInv(KernelStep(e, KernelRead(chunk)))
  {
    var e' := KernelStep(e, KernelRead(chunk));
    assert Kept(e') == Kept(e) + chunk;
    assert (Concat(Delivered(e)) + Kept(e)) + chunk == Concat(Delivered(e)) + (Kept(e) + chunk);
  }

  lemma ReadKernel(e: End, a: Action)
    requires ReadInv(e) && TurnInv(e) && Enabled(e, a) && ByKernel(a)
    ensures ReadInv(KernelStep(e, a))
  {
    var e' := KernelStep(e, a);
    match a
    case KernelRead(chunk) => ReadFilled(e, chunk);
    case KernelConnect => assert Kept(e') == Kept(e);
    case FailRead => assert Kept(e') == Kept(e);
    case _ => ReadUntouched(e, e');
  }

  /** A call of `receive_message` takes the oldest message, if there is one. */
  lemma TakeMovesOldest(e: End)
    ensures var e', q := Step(e, Take), e.chan.receiveQueue;
            && Delivered(e') == Delivered(e)
            && |e'.taken| == |e.taken| + (if q == [] then 0 else 1)
            && (q != [] ==> e'.taken == e.taken + [q[0]] && e'.chan.receiveQueue == q[1..])
  {
    var q := e.chan.receiveQueue;
    if q == [] {
      assert e.taken + [] == e.taken;
    } else {
      assert (e.taken + [q[0]]) + q[1..] == e.taken + q;
    }
  }

  lemma ReadClient(e: End, a: Action)
    requires ReadInv(e) && Enabled(e, a) && ByClient(a)
    ensures ReadInv(ClientStep(e, a))
  {
    if a.Take? {
      TakeMovesOldest(e);
    }
    ReadUntouched(e, ClientStep(e, a));
  }

  // ---------- TurnInv ----------

  lemma TurnUntouched(e: End, e': End)
    requires TurnInv(e) && Shape(Code(e')) && e'.chan.read == e.chan.read && e'.readOp == e.readOp
    requires e'.chan.connected == e.chan.connected && e'.tasks == e.tasks
    requires || Code(e') == Code(e)
             || (!ReceiveDue(Code(e)) && !ConnectDue(Code(e)) && !ReceiveDue(Code(e')) && !ConnectDue(Code(e')))
    ensures TurnInv(e')
  {
  }

  lemma TurnTasks(e: End, e': End, t: ChannelTask)
    requires TurnInv(e) && e'.chan.read == e.chan.read && e'.readOp == e.readOp && Code(e') == Code(e)
    requires e'.chan.connected == e.chan.connected && e'.tasks == e.tasks + [t] && t != ConnectTask
    ensures TurnInv(e')
  {
  }

  lemma TurnRun(e: End)
    requires TurnInv(e) && Enabled(e, Run)
    ensures TurnInv(RunPiece(e))
  {
    CodeAfter(e);
  }

  lemma TurnPop(e: End, waiting: bool)
    requires TurnInv(e) && Enabled(e, PopTask(waiting))
    ensures TurnInv(LoopStep(e, PopTask(waiting)))
  {
    assert e.tasks == [e.tasks[0]] + e.tasks[1..];
    assert e.tasks[0] == ConnectTask ==> ConnectTask !in e.tasks[1..];
  }

  lemma TurnReadTaken(e: End)
    requires TurnInv(e) && Enabled(e, ReadPacket)
    ensures TurnInv(TakeReadPacket(e))
  {
  }

  lemma TurnWriteTaken(e: End)
    requires TurnInv(e) && WriteInv(e) && Enabled(e, WritePacket)
    ensures TurnInv(TakeWritePacket(e))
  {
    TurnUntouched(e, TakeWritePacket(e));
  }

  lemma TurnLoop(e: End, a: Action)
    requires TurnInv(e) && Enabled(e, a) && ByLoop(a)
    ensures TurnInv(LoopStep(e, a))
  {
    if a.PopTask? {
      TurnPop(e, a.clientWaiting);
    } else {
      TurnUntouched(e, LoopStep(e, a));
    }
  }

  lemma TurnKernel(e: End, a: Action)
    requires TurnInv(e) && Enabled(e, a) && ByKernel(a)
    ensures TurnInv(KernelStep(e, a))
  {
  }

  lemma TurnClient(e: End, a: Action)
    requires TurnInv(e) && Enabled(e, a) && ByClient(a)
    ensures TurnInv(ClientStep(e, a))
  {
    match a
    case Dispatch(_) => TurnTasks(e, ClientStep(e, a), SendTask);
    case DispatchOther(_) => TurnTasks(e, ClientStep(e, a), OtherTask);
    case _ => TurnUntouched(e, ClientStep(e, a));
  }

  // ---------- nobody sleeps ----------

  /** A caller leaves its stage only by doing what the stage stands for. */
  lemma CallersGoOn(e: End, a: Action)
    requires Enabled(e, a) && ByClient(a)
    ensures Calling(e, Submitted) ==> Calling(ClientStep(e, a), Submitted) || SendTask in ClientStep(e, a).tasks
    ensures Calling(e, Queued) ==> Calling(ClientStep(e, a), Queued) || ClientStep(e, a).packets > 0
    ensures a.Submit? ==> Calling(ClientStep(e, a), Submitted)
    ensures a.Dispatch? || a.DispatchOther? ==> Calling(ClientStep(e, a), Queued)
  {
    var e' := ClientStep(e, a);
    if a.Submit? || a.Dispatch? || a.DispatchOther? {
      assert a.t in e'.callers;
    }
    if t :| t in e.callers && e.callers[t] == Submitted {
      assert (t in e'.callers && e'.callers[t] == Submitted) || SendTask in e'.tasks;
    }
    if t :| t in e.callers && e.callers[t] == Queued {
      assert (t in e'.callers && e'.callers[t] == Queued) || e'.packets > 0;
    }
  }

  lemma AwakeClient(e: End, a: Action)
    requires SenderAwake(e) && WorkerAwake(e) && Enabled(e, a) && ByClient(a)
    ensures SenderAwake(ClientStep(e, a)) && WorkerAwake(ClientStep(e, a))
  {
    CallersGoOn(e, a);
  }

  lemma AwakeKernel(e: End, a: Action)
    requires SenderAwake(e) && WorkerAwake(e) && Enabled(e, a) && ByKernel(a)
    ensures SenderAwake(KernelStep(e, a)) && WorkerAwake(KernelStep(e, a))
  {
    SameCallers(e, KernelStep(e, a));
  }

  lemma SameCallers(e: End, e': End)
    requires e'.callers == e.callers
    ensures forall stage :: Calling(e', stage) <==> Calling(e, stage)
  {
  }

  lemma AwakeRun(e: End)
    requires WriteInv(e) && TurnInv(e) && SenderAwake(e) && WorkerAwake(e) && Enabled(e, Run)
    ensures SenderAwake(RunPiece(e)) && WorkerAwake(RunPiece(e))
  {
    CodeAfter(e);
    SameCallers(e, RunPiece(e));
  }

  lemma AwakePackets(e: End)
    requires WriteInv(e) && TurnInv(e) && SenderAwake(e) && WorkerAwake(e)
    ensures Enabled(e, ReadPacket) ==> SenderAwake(TakeReadPacket(e)) && WorkerAwake(TakeReadPacket(e))
    ensures Enabled(e, WritePacket) ==> SenderAwake(TakeWritePacket(e)) && WorkerAwake(TakeWritePacket(e))
  {
    SameCallers(e, TakeReadPacket(e));
    SameCallers(e, TakeWritePacket(e));
  }

  lemma AwakeLoop(e: End, a: Action)
    requires TurnInv(e) && SenderAwake(e) && WorkerAwake(e) && Enabled(e, a) && ByLoop(a)
    ensures SenderAwake(LoopStep(e, a)) && WorkerAwake(LoopStep(e, a))
  {
    SameCallers(e, LoopStep(e, a));
    if a.PopTask? {
      assert e.tasks == [e.tasks[0]] + e.tasks[1..];
    }
  }

  lemma PacketKeepsInv(e: End, a: Action)
    requires Inv(e) && Enabled(e, a) && (a.ReadPacket? || a.WritePacket?)
    ensures Inv(Step(e, a))
  {
    AwakePackets(e);
    if a.ReadPacket? {
      WriteReadTaken(e);
      ReadTaken(e);
      TurnReadTaken(e);
    } else {
      WriteTaken(e);
      ReadWriteTaken(e);
      TurnWriteTaken(e);
    }
  }

  lemma StepKeepsInv(e: End, a: Action)
    requires Inv(e) && Enabled(e, a)
    ensures Inv(Step(e, a))
  {
    if ByClient(a) {
      WriteClient(e, a);
      ReadClient(e, a);
      TurnClient(e, a);
      AwakeClient(e, a);
    } else if ByKernel(a) {
      WriteKernel(e, a);
      ReadKernel(e, a);
      TurnKernel(e, a);
      AwakeKernel(e, a);
    } else if ByLoop(a) {
      WriteLoop(e, a);
      ReadLoop(e, a);
      TurnLoop(e, a);
      AwakeLoop(e, a);
    } else if a.Run? {
      WriteRun(e);
      ReadRun(e);
      TurnRun(e);
      AwakeRun(e);
    } else {
      PacketKeepsInv(e, a);
    }
  }

  // ---------- one call at a time on each context ----------

  /** No second write is issued while one is outstanding, and the buffer given to the kernel
      stays as it is until the packet of the write is taken. */
  lemma OneWriteAtATime(e: End, a: Action)
    requires WriteInv(e) && Enabled(e, a) && e.writeOp != Quiet && !a.WritePacket?
    ensures Step(e, a).chan.write == e.chan.write && Step(e, a).chan.handed == e.chan.handed
    ensures Step(e, a).writeOp != Quiet
  {
    if a.Run? {
      CodeAfter(e);
    }
  }

  /** From the moment a read or a connect is issued until its packet is taken, no step issues
      another or touches the context, but for the kernel, which writes only behind the kept
      bytes of a read. */
  lemma OneReadAtATime(e: End, a: Action)
    requires ReadInv(e) && TurnInv(e) && Enabled(e, a) && e.readOp != Quiet && !a.ReadPacket?
    ensures var r, r' := e.chan.read, Step(e, a).chan.read;
            && Step(e, a).readOp != Quiet
            && (!a.KernelRead? ==> r' == r)
            && (a.KernelRead? ==>
                  && r.offset <= |r.buffer|
                  && r' == r.(buffer := r'.buffer) && |r'.buffer| == |r.buffer|
                  && r'.buffer[..r.offset] == r.buffer[..r.offset])
  {
    if a.Run? {
      CodeAfter(e);
      assert !CutCode(Code(e)) || e.chan.read.kind == Read;
    }
  }

  // ---------- nothing before the connection ----------

  /** An end that is not connected has handed nothing to the kernel and got nothing from it. */
  predicate SilentUntilConnected(e: End) {
    !e.chan.connected ==>
      && e.chan.handed == [] && e.out == [] && e.inn == [] && Delivered(e) == []
      && e.writeOp == Quiet && e.chan.write.kind == Unknown && !WriteDue(Code(e))
  }

  lemma SilentRun(e: End)
    requires WriteInv(e) && TurnInv(e) && SilentUntilConnected(e) && Enabled(e, Run)
    ensures SilentUntilConnected(RunPiece(e))
  {
    CodeAfter(e);
    GuardedCalls(e.chan, Pending);
  }

  lemma SilentClient(e: End, a: Action)
    requires SilentUntilConnected(e) && Enabled(e, a) && ByClient(a)
    ensures SilentUntilConnected(ClientStep(e, a))
  {
    if a.Take? {
      TakeMovesOldest(e);
    }
  }

  lemma SilentKernel(e: End, a: Action)
    requires TurnInv(e) && SilentUntilConnected(e) && Enabled(e, a) && ByKernel(a)
    ensures SilentUntilConnected(KernelStep(e, a))
  {
  }

  lemma SilentLoop(e: End, a: Action)
    requires SilentUntilConnected(e) && Enabled(e, a) && ByLoop(a)
    ensures SilentUntilConnected(LoopStep(e, a))
  {
  }

  lemma SilentPacket(e: End, a: Action)
    requires TurnInv(e) && SilentUntilConnected(e) && Enabled(e, a) && (a.ReadPacket? || a.WritePacket?)
    ensures SilentUntilConnected(Step(e, a))
  {
  }

  lemma SilentStep(e: End, a: Action)
    requires Inv(e) && SilentUntilConnected(e) && Enabled(e, a)
    ensures SilentUntilConnected(Step(e, a))
  {
    if ByClient(a) {
      SilentClient(e, a);
    } else if ByKernel(a) {
      SilentKernel(e, a);
    } else if ByLoop(a) {
      SilentLoop(e, a);
    } else if a.Run? {
      SilentRun(e);
    } else {
      SilentPacket(e, a);
    }
  }

  // ---------- what is free, and what a failure leads to ----------

  /** Clients and the kernel are not held back: any other thread may submit any message and
      dispatch, and anyone may take; other channels' packets may come; a pending read may get any
      chunk up to the buffer size, even none, and any pending operation may fail. */
  lemma EnvironmentIsFree(e: End, t: Thread, m: Bytes, chunk: Bytes)
    requires ReadInv(e)
    ensures t != LOOP && t !in e.callers ==> Enabled(e, Submit(t, m)) && Enabled(e, DispatchOther(t))
    ensures Enabled(e, Take)
    ensures e.loop.Waiting? ==> Enabled(e, OtherPacket)
    ensures e.readOp.InFlight? ==> Enabled(e, FailRead)
    ensures e.writeOp.InFlight? ==> Enabled(e, FailWrite)
    ensures e.readOp.InFlight? && e.chan.read.kind == Create ==> Enabled(e, KernelConnect)
    ensures e.writeOp.InFlight? ==>
              forall n: nat :: 0 < n <= |Wire(e.chan.write.buffer)| - e.writeOp.moved ==> Enabled(e, KernelWrite(n))
    ensures e.readOp.InFlight? && e.chan.read.kind == Read && |chunk| <= BUFFER_SIZE ==> Enabled(e, KernelRead(chunk))
  {
  }

  /** The loop thread may call the channel from the handlers it runs: for another context's packet,
      in another channel's task, and in this channel's completion routines. */
  lemma HandlersMayCall(e: End, clientWaiting: bool, m: Bytes)
    requires TurnInv(e) && LOOP !in e.callers
    ensures Enabled(e, OtherPacket) ==> Enabled(Step(e, OtherPacket), Submit(LOOP, m))
    ensures Enabled(e, PopTask(clientWaiting)) && e.tasks[0] == OtherTask ==>
              Enabled(Step(e, PopTask(clientWaiting)), Submit(LOOP, m))
    ensures Enabled(e, ReadPacket) ==>
              var code := Code(Step(e, ReadPacket));
              || Enabled(Step(e, ReadPacket), Submit(LOOP, m))
              || (code == [Op.Cut(0), Handler, Op.Receive] && e.readOp.Done? && e.chan.read.kind == Read)
  {
  }

  /** A read or a connect that fails is found broken when its packet is taken, and the client's
      handler runs next; what was delivered stays. */
  lemma ReadFailureIsHandled(e: End)
    requires TurnInv(e) && e.readOp.InFlight? && e.loop.Waiting?
    ensures var t := Step(Step(e, FailRead), ReadPacket);
            && t.chan.read.kind == Broken && Code(t) != [] && Code(t)[0] == Handler
            && Delivered(t) == Delivered(e)
  {
  }

  lemma WriteFailureIsHandled(e: End)
    requires WriteInv(e) && e.writeOp.InFlight? && e.loop.Waiting?
    ensures var t := Step(Step(e, FailWrite), WritePacket);
            t.chan.write.kind == Broken && Code(t) == [Handler] && t.chan.sendQueue == e.chan.sendQueue
  {
  }

  /** A broken side stays so: nothing more is received ... */
  lemma BrokenReadStays(e: End, a: Action)
    requires ReadInv(e) && TurnInv(e) && WriteInv(e) && Enabled(e, a) && e.chan.read.kind == Broken
    ensures Step(e, a).chan.read.kind == Broken
    ensures Step(e, a).inn == e.inn && Delivered(Step(e, a)) == Delivered(e)
  {
    TakeMovesOldest(e);
    if a.Run? {
      CodeAfter(e);
    }
  }

  /** ... and nothing more is handed to the kernel. */
  lemma BrokenWriteStays(e: End, a: Action)
    requires WriteInv(e) && Enabled(e, a) && e.chan.write.kind == Broken
    ensures Step(e, a).chan.write.kind == Broken
    ensures Step(e, a).chan.handed == e.chan.handed && Step(e, a).out == e.out
  {
    if a.Run? {
      CodeAfter(e);
    }
  }
}
