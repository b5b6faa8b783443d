/** Overlapped I/O contexts, the pipe handle that uses them, and the task queue driven by
    completion packets.

    The operating system appears through what it reports: each overlapped call is pending
    until one completion packet for its context is taken from the port. */
module FileIo {
  import opened Frames
  import opened WorkerService

  const BUFFER_SIZE := 4096

  datatype IoType = Unknown | Create | Open | Write | Read | Close | Broken

  /** The completion routine bound into a context. */
  datatype Routine = NoRoutine | ConnectCompleted | ReceiveCompleted | SendCompleted

  /** The fields of `io_context`. */
  datatype Context = Context(
    buffer: Bytes, offset: nat, kind: IoType, isPending: bool, transferred: nat, routine: Routine)

  const FRESH_CONTEXT := Context([], 0, Unknown, false, 0, NoRoutine)

  function Zeros(n: nat): Bytes { seq(n, _ => 0) }

  /** `std::vector::resize`. */
  function Resize(b: Bytes, size: nat): (r: Bytes)
    ensures |r| == size
    ensures forall i :: 0 <= i < size ==> r[i] == if i < |b| then b[i] else 0
  {
    if size <= |b| then b[..size] else b + Zeros(size - |b|)
  }

  /** `file::read`: room for one chunk behind what the buffer holds. */
  function StartRead(c: Context, routine: Routine): Context {
    c.(routine := routine, kind := Read, offset := |c.buffer|,
       buffer := Resize(c.buffer, |c.buffer| + BUFFER_SIZE), isPending := true)
  }

  /** `file::write` of the bytes in the context's buffer. */
  function StartWrite(c: Context, routine: Routine): Context {
    c.(routine := routine, kind := Write, isPending := true)
  }

  /** What `ReadFile` and `WriteFile` report: pending, success at once, or an error.  After the
      first two a packet comes; only the first sets the mark. */
  datatype Answer = Pending | AtOnce | Refused

  function ReadAnswered(c: Context, routine: Routine, answer: Answer): Context {
    var r := StartRead(c, routine);
    if answer == Pending then r else r.(isPending := c.isPending)
  }

  function WriteAnswered(c: Context, routine: Routine, answer: Answer): Context {
    var w := StartWrite(c, routine);
    if answer == Pending then w else w.(isPending := c.isPending)
  }

  /** What `ConnectNamedPipe` reports: pending, a client already there, or an error. */
  datatype ConnectAnswer = NoClientYet | ClientThere | ConnectRefused

  /** What the kernel does to the buffer of a pending read: `chunk` appears at the offset. */
  function Filled(c: Context, chunk: Bytes): Context
    requires c.offset + |chunk| <= |c.buffer|
  {
    c.(buffer := c.buffer[..c.offset] + chunk + c.buffer[c.offset + |chunk|..])
  }

  /** `io_completed` of the pipe and of the file below it, after `n` transferred bytes. */
  function Completed(c: Context, n: nat): Context {
    match c.kind
    case Create => c.(transferred := n, isPending := false)
    case Read =>
      c.(transferred := n, buffer := Resize(c.buffer, c.offset + n), offset := c.offset + n, isPending := false)
    case Write => c.(transferred := n, isPending := false)
    case Broken => c.(transferred := n, isPending := false, buffer := [], offset := 0)
    case _ => c.(transferred := n)
  }

  /** `io_broken`: note that the pending mark stays as it is. */
  function BrokenOff(c: Context, n: nat): Context {
    c.(transferred := n, kind := Broken, buffer := [], offset := 0)
  }

  /** A read that completes appends exactly its chunk to the bytes kept from before, whether it
      was pending or done at once; it sets the mark only if it is pending. */
  lemma ReadAppendsChunk(kept: Context, chunk: Bytes, routine: Routine, answer: Answer)
    requires |chunk| <= BUFFER_SIZE
    ensures var c := ReadAnswered(kept, routine, answer);
            && c.offset + |chunk| <= |c.buffer|
            && (c.isPending <==> kept.isPending || answer == Pending)
            && Completed(Filled(c, chunk), |chunk|)
               == Context(kept.buffer + chunk, |kept.buffer + chunk|, Read, false, |chunk|, routine)
  {
    var c := ReadAnswered(kept, routine, answer);
    assert c.buffer[..c.offset] == kept.buffer;
    assert (c.buffer[..c.offset] + chunk + c.buffer[c.offset + |chunk|..])[..c.offset + |chunk|] == kept.buffer + chunk;
  }

  /** A packet is recorded in the context and changes neither its routine nor what it waits for;
      it ends the pending mark of every operation but an unknown one. */
  lemma CompletionRecords(c: Context, n: nat)
    ensures var d := Completed(c, n);
            && d.transferred == n && d.routine == c.routine && d.kind == c.kind
            && (d.isPending <==> c.isPending && (c.kind == Unknown || c.kind == Open || c.kind == Close))
            && (c.kind != Read && c.kind != Broken ==> d.buffer == c.buffer && d.offset == c.offset)
  {
  }

  /** A failure empties the context for good and keeps its mark; a packet that comes after it finds
      nothing and takes the mark away. */
  lemma LateCompletion(c: Context, n: nat, k: nat)
    ensures var b := BrokenOff(c, n);
            && b.transferred == n && b.routine == c.routine && b.isPending == c.isPending
            && b.buffer == [] && b.offset == 0
            && Completed(b, k) == b.(transferred := k, isPending := false)
  {
  }

  class IoContext {
    var buffer: Bytes
    var offset: nat
    var kind: IoType
    var isPending: bool
    var transferred: nat
    var routine: Routine

    constructor ()
      ensures View() == FRESH_CONTEXT
    {
      buffer, offset, kind, isPending, transferred, routine := [], 0, Unknown, false, 0, NoRoutine;
    }

    ghost function View(): Context
      reads this
    {
      Context(buffer, offset, kind, isPending, transferred, routine)
    }

    /** The kernel fills the buffer of a pending read. */
    method Fill(chunk: Bytes)
      requires offset + |chunk| <= |buffer|
      modifies this`buffer
      ensures View() == Filled(old(View()), chunk)
    {
      buffer := buffer[..offset] + chunk + buffer[offset + |chunk|..];
    }
  }

  class SystemPipe {
    var connected: bool

    /** Buffers given to `WriteFile`, oldest first. */
    ghost var handed: seq<Bytes>

    /** How often all operations on the handle were cancelled. */
    ghost var cancels: nat

    /** A pipe opened by a client is connected from the start. */
    constructor (open: bool)
      ensures connected == open && handed == [] && cancels == 0
    {
      connected := open;
      handed, cancels := [], 0;
    }

    /** The caller runs the completion routine at once when `immediate` is returned; after an
        error nothing is pending and nothing runs. */
    method Connect(ctx: IoContext, routine: Routine, answer: ConnectAnswer) returns (immediate: bool)
      modifies this`connected, ctx
      ensures immediate == (old(connected) || answer == ClientThere) && connected == immediate
      ensures ctx.View() == old(ctx.View()).(
                routine := routine, kind := Create,
                isPending := old(ctx.isPending) || (!old(connected) && answer == NoClientYet))
    {
      ctx.routine := routine;
      ctx.kind := Create;
      immediate := true;
      if !connected {
        if answer == NoClientYet {
          ctx.isPending := true;
        } else if answer == ClientThere {
          connected := true;
        }
        immediate := connected;
      }
    }

    method Read(ctx: IoContext, routine: Routine, answer: Answer)
      modifies ctx
      ensures ctx.View() == ReadAnswered(old(ctx.View()), routine, answer)
    {
      ctx.routine := routine;
      ctx.kind := IoType.Read;
      ctx.offset := |ctx.buffer|;
      ctx.buffer := Resize(ctx.buffer, ctx.offset + BUFFER_SIZE);
      if answer == Pending {
        ctx.isPending := true;
      }
    }

    method Write(ctx: IoContext, routine: Routine, answer: Answer)
      modifies this`handed, ctx
      ensures ctx.View() == WriteAnswered(old(ctx.View()), routine, answer)
      ensures handed == old(handed) + [ctx.buffer]
    {
      ctx.routine := routine;
      ctx.kind := IoType.Write;
      handed := handed + [ctx.buffer];
      if answer == Pending {
        ctx.isPending := true;
      }
    }

    /** `io_completed`, up to the call of the completion routine. */
    method IoCompleted(ctx: IoContext, n: nat)
      modifies this`connected, ctx
      ensures ctx.View() == Completed(old(ctx.View()), n)
      ensures connected == (old(connected) || old(ctx.kind).Create?)
    {
      ctx.transferred := n;
      if ctx.kind == Create {
        ctx.isPending := false;
        connected := true;
      }
      match ctx.kind {
        case Read =>
          ctx.buffer := Resize(ctx.buffer, ctx.offset + n);
          ctx.offset := |ctx.buffer|;
          ctx.isPending := false;
        case Write =>
          ctx.isPending := false;
        case Broken =>
          ctx.isPending := false;
          ctx.buffer := [];
          ctx.offset := 0;
        case _ =>
      }
    }

    method IoBroken(ctx: IoContext, n: nat)
      modifies this`cancels, ctx
      ensures ctx.View() == BrokenOff(old(ctx.View()), n) && cancels == old(cancels) + 1
    {
      cancels := cancels + 1;
      ctx.transferred := n;
      ctx.kind := Broken;
      ctx.buffer := [];
      ctx.offset := 0;
    }
  }

  /** `io_completion_worker`: a task queue whose every dispatch posts a packet for itself. */
  class CompletionWorker<T> {
    const worker: Service<T>

    /** Packets posted so far. */
    var posted: nat

    constructor ()
      ensures fresh(worker) && worker.taskQueue == [] && !worker.quitFlag && posted == 0
    {
      worker := new Service();
      posted := 0;
    }

    method Dispatch(task: T)
      modifies this`posted, worker`taskQueue, worker`notifiedOne
      ensures worker.taskQueue == old(worker.taskQueue) + [task] && posted == old(posted) + 1
    {
      worker.Dispatch(task);
      posted := posted + 1;
    }

    /** One packet drains the whole queue, whatever arrives meanwhile, in dispatch order. */
    method IoCompleted(arrivals: seq<Arrival<T>>) returns (run: seq<T>)
      requires !worker.quitFlag && forall k :: 0 <= k < |arrivals| ==> !arrivals[k].quit
      modifies worker
      ensures worker.taskQueue == [] && !worker.quitFlag
      ensures run == old(worker.taskQueue) + Arrived(arrivals[..if |run| <= |arrivals| then |run| else |arrivals|])
    {
      run := worker.DoWork(arrivals);
      NoQuit(arrivals[..if |run| <= |arrivals| then |run| else |arrivals|]);
      assert arrivals[..|arrivals|] == arrivals;
      assert run + worker.taskQueue == run;
    }
  }

  lemma {:induction false} NoQuit<T>(arrivals: seq<Arrival<T>>)
    requires forall k :: 0 <= k < |arrivals| ==> !arrivals[k].quit
    ensures !QuitArrived(arrivals)
  {
    if arrivals != [] {
      NoQuit(arrivals[..|arrivals| - 1]);
    }
  }
}
