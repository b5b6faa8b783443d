/** Two ends of one pipe. */
module PipeSystem {
  import opened Frames
  import opened FileIo
  import opened PipeChannel
  import opened Endpoint
  import opened Threads

  /** `ab` holds the bytes on their way from `a` to `b`. */
  datatype System = System(a: End, b: End, ab: Bytes, ba: Bytes)

  datatype Move = OfA(action: Action) | OfB(action: Action)

  /** Both ends just created; a server's is not yet connected, a client's is. */
  ghost predicate Begins(s: System, openA: bool, openB: bool) {
    Created(s.a, openA) && Created(s.b, openB) && s.ab == [] && s.ba == []
  }

  /** A read gets bytes from the front of the pipe, of any number up to the buffer size. */
  predicate CanMove(s: System, m: Move) {
    match m
    case OfA(x) => Enabled(s.a, x) && (x.KernelRead? ==> x.chunk <= s.ba)
    case OfB(x) => Enabled(s.b, x) && (x.KernelRead? ==> x.chunk <= s.ab)
  }

  function Rest(wire: Bytes, x: Action): Bytes
    requires x.KernelRead? ==> x.chunk <= wire
  {
    if x.KernelRead? then wire[|x.chunk|..] else wire
  }

  function Next(s: System, m: Move): System
    requires CanMove(s, m)
  {
    match m
    case OfA(x) => System(Step(s.a, x), s.b, s.ab + Emitted(s.a, x), Rest(s.ba, x))
    case OfB(x) => System(s.a, Step(s.b, x), Rest(s.ab, x), s.ba + Emitted(s.b, x))
  }

  /** Every byte put on the pipe has been got from it, in order, or is still in it. */
  predicate Linked(s: System) {
    s.a.out == s.b.inn + s.ab && s.b.out == s.a.inn + s.ba
  }

  ghost predicate Inv(s: System) {
    Endpoint.Inv(s.a) && Endpoint.Inv(s.b) && Linked(s)
  }

  lemma Flow(e: End, x: Action)
    requires Enabled(e, x)
    ensures Step(e, x).out == e.out + Emitted(e, x)
    ensures Step(e, x).inn == e.inn + if x.KernelRead? then x.chunk else []
  {
    assert e.out + [] == e.out && e.inn + [] == e.inn;
  }

  /** What is got from a wire and what stays on it were there before. */
  lemma GetFrom(inn: Bytes, wire: Bytes, x: Action)
    requires x.KernelRead? ==> x.chunk <= wire
    ensures (inn + if x.KernelRead? then x.chunk else []) + Rest(wire, x) == inn + wire
  {
  }

  lemma LinkedStep(s: System, m: Move)
    requires Linked(s) && CanMove(s, m)
    ensures Linked(Next(s, m))
  {
    if m.OfA? {
      Flow(s.a, m.action);
      Associates(s.b.inn, s.ab, Emitted(s.a, m.action));
      GetFrom(s.a.inn, s.ba, m.action);
    } else {
      Flow(s.b, m.action);
      Associates(s.a.inn, s.ba, Emitted(s.b, m.action));
      GetFrom(s.b.inn, s.ab, m.action);
    }
  }

  lemma NextKeepsInv(s: System, m: Move)
    requires Inv(s) && CanMove(s, m)
    ensures Inv(Next(s, m))
  {
    LinkedStep(s, m);
    if m.OfA? {
      StepKeepsInv(s.a, m.action);
    } else {
      StepKeepsInv(s.b, m.action);
    }
  }

  // ---------- runs ----------

  predicate IsRun(s: System, moves: seq<Move>)
    decreases |moves|
  {
    moves == [] || (CanMove(s, moves[0]) && IsRun(Next(s, moves[0]), moves[1..]))
  }

  function After(s: System, moves: seq<Move>): System
    requires IsRun(s, moves)
    decreases |moves|
  {
    if moves == [] then s else After(Next(s, moves[0]), moves[1..])
  }

  lemma {:induction false} RunKeepsInv(s: System, moves: seq<Move>)
    requires Inv(s) && IsRun(s, moves)
    ensures Inv(After(s, moves))
    decreases |moves|
  {
    if moves != [] {
      NextKeepsInv(s, moves[0]);
      RunKeepsInv(Next(s, moves[0]), moves[1..]);
    }
  }

  ghost predicate ReachableFrom(begin: System, s: System) {
    exists moves: seq<Move> :: IsRun(begin, moves) && After(begin, moves) == s
  }

  /** Reachable from the creation of two channels, whatever their processes are at.  Of the two
      one is the server's and the other the client's, but nothing here depends on it. */
  ghost predicate Reachable(s: System) {
    exists begin: System, openA: bool, openB: bool :: Begins(begin, openA, openB) && ReachableFrom(begin, s)
  }

  lemma ReachableInv(s: System)
    requires Reachable(s)
    ensures Inv(s)
  {
    var begin: System, openA: bool, openB: bool :| Begins(begin, openA, openB) && ReachableFrom(begin, s);
    var moves: seq<Move> :| IsRun(begin, moves) && After(begin, moves) == s;
    CreatedInv(begin.a, openA);
    CreatedInv(begin.b, openB);
    RunKeepsInv(begin, moves);
  }

  /** The messages that a run submits at `a`, and the chunks that reads get at `b`. */
  function SubmitsIn(moves: seq<Move>): seq<Bytes> {
    if moves == [] then []
    else
      var m := moves[0];
      (if m.OfA? && m.action.Submit? then [m.action.message] else []) + SubmitsIn(moves[1..])
  }

  function ChunksIn(moves: seq<Move>): Bytes {
    if moves == [] then []
    else
      var m := moves[0];
      (if m.OfB? && m.action.KernelRead? then m.action.chunk else []) + ChunksIn(moves[1..])
  }

  lemma OneMoveRecords(s: System, m: Move)
    requires CanMove(s, m)
    ensures Next(s, m).a.submitted == s.a.submitted + if m.OfA? && m.action.Submit? then [m.action.message] else []
    ensures Next(s, m).b.inn == s.b.inn + if m.OfB? && m.action.KernelRead? then m.action.chunk else []
  {
    assert s.a.submitted + [] == s.a.submitted && s.b.inn + [] == s.b.inn;
  }

  /** The histories hold what the run did, no more and no less. */
  lemma {:induction false} HistoriesRecordRun(s: System, moves: seq<Move>)
    requires IsRun(s, moves)
    ensures After(s, moves).a.submitted == s.a.submitted + SubmitsIn(moves)
    ensures After(s, moves).b.inn == s.b.inn + ChunksIn(moves)
    decreases |moves|
  {
    if moves == [] {
      assert s.a.submitted + [] == s.a.submitted && s.b.inn + [] == s.b.inn;
    } else {
      var m, later := moves[0], moves[1..];
      var next := Next(s, m);
      OneMoveRecords(s, m);
      HistoriesRecordRun(next, later);
      Associates(s.a.submitted, if m.OfA? && m.action.Submit? then [m.action.message] else [], SubmitsIn(later));
      Associates(s.b.inn, if m.OfB? && m.action.KernelRead? then m.action.chunk else [], ChunksIn(later));
    }
  }

  // ---------- safety ----------

  lemma PrefixTrans(x: Bytes, y: Bytes, z: Bytes)
    requires x <= y && y <= z
    ensures x <= z
  {
  }

  lemma OutIsPrefix(e: End)
    requires WriteInv(e)
    ensures e.out <= Stream(e.submitted)
  {
    var handed, later := e.chan.handed, Popped(e) + e.chan.sendQueue;
    assert e.submitted == handed + later;
    StreamAppend(handed, later);
    PrefixTrans(e.out, Stream(handed), Stream(e.submitted));
  }

  /** What has arrived is a prefix of the stream of what was submitted. */
  lemma ArrivedPrefix(s: System)
    requires WriteInv(s.a) && ReadInv(s.b) && Linked(s)
    ensures s.b.inn <= s.a.out && s.a.out <= Stream(s.a.submitted)
    ensures Concat(Delivered(s.b)) <= Stream(s.a.submitted)
  {
    OutIsPrefix(s.a);
    PrefixTrans(s.b.inn, s.a.out, Stream(s.a.submitted));
    PrefixTrans(Concat(Delivered(s.b)), s.b.inn, Stream(s.a.submitted));
  }

  /** In every run, with breaks anywhere: the messages taken and queued at `b` are the first
      messages that parsing the submitted stream gives. */
  lemma DeliveredIsParsed(s: System)
    requires Reachable(s)
    ensures Delivered(s.b) <= Parse(Stream(s.a.submitted)).messages
  {
    ReachableInv(s);
    ArrivedPrefix(s);
    FramesOfPrefix(Delivered(s.b), Stream(s.a.submitted));
  }

  /** End-to-end: while all messages sent are frames that fit a DWORD, those taken at the other
      end are the first of those sent, byte for byte. */
  lemma TakenIsPrefixOfSent(s: System)
    requires Reachable(s) && AllSendable(s.a.submitted)
    ensures s.b.taken <= s.a.submitted && Delivered(s.b) <= s.a.submitted
  {
    DeliveredIsParsed(s);
    StreamRoundTrip(s.a.submitted);
    assert s.b.taken <= Delivered(s.b);
  }

  /** ... with equal ids and payloads. */
  lemma TakenHaveSentIdsAndPayloads(s: System, sent: seq<(int, Bytes)>)
    requires Reachable(s) && |sent| == |s.a.submitted|
    requires forall i :: 0 <= i < |sent| ==>
               && -0x8000_0000 <= sent[i].0 < 0x8000_0000
               && |sent[i].1| < TWO_32 - HEAD_SIZE
               && s.a.submitted[i] == MakeMessage(sent[i].0, sent[i].1)
    ensures |s.b.taken| <= |sent|
    ensures forall i :: 0 <= i < |s.b.taken| ==>
              var m := s.b.taken[i];
              WellFormed(m) && Id(m) == sent[i].0 && Payload(m) == sent[i].1
  {
    forall i | 0 <= i < |sent|
      ensures var m := s.a.submitted[i]; Sendable(m) && Id(m) == sent[i].0 && Payload(m) == sent[i].1
    {
      MakeMessageAccessors(sent[i].0, sent[i].1);
    }
    TakenIsPrefixOfSent(s);
  }

  lemma {:induction false} RunStaysSilent(s: System, moves: seq<Move>)
    requires Inv(s) && SilentUntilConnected(s.a) && SilentUntilConnected(s.b) && IsRun(s, moves)
    ensures SilentUntilConnected(After(s, moves).a) && SilentUntilConnected(After(s, moves).b)
    decreases |moves|
  {
    if moves != [] {
      var m := moves[0];
      NextKeepsInv(s, m);
      SilentStep(if m.OfA? then s.a else s.b, m.action);
      RunStaysSilent(Next(s, m), moves[1..]);
    }
  }

  /** In every run: before its end is connected, a channel writes nothing and receives nothing. */
  lemma NothingBeforeConnected(s: System)
    requires Reachable(s)
    ensures !s.a.chan.connected ==> s.a.chan.handed == [] && s.a.out == [] && s.a.inn == [] && Delivered(s.a) == []
    ensures !s.b.chan.connected ==> s.b.chan.handed == [] && s.b.out == [] && s.b.inn == [] && Delivered(s.b) == []
  {
    var begin: System, openA: bool, openB: bool :| Begins(begin, openA, openB) && ReachableFrom(begin, s);
    var moves: seq<Move> :| IsRun(begin, moves) && After(begin, moves) == s;
    CreatedInv(begin.a, openA);
    CreatedInv(begin.b, openB);
    RunStaysSilent(begin, moves);
  }

  // ---------- nothing is stranded ----------

  /** Moves of the program and the kernel, as opposed to new client calls, failures, and reads
      that bring nothing. */
  predicate Internal(x: Action) {
    match x
    case Submit(_, _) => false
    case DispatchOther(_) => false
    case Take => false
    case OtherPacket => false
    case FailRead => false
    case FailWrite => false
    case KernelRead(chunk) => chunk != []
    case _ => true
  }

  /** Nothing is left to happen by itself. */
  ghost predicate Quiescent(s: System) {
    forall m: Move :: Internal(m.action) ==> !CanMove(s, m)
  }

  predicate Unbroken(e: End) {
    e.chan.read.kind != Broken && e.chan.write.kind != Broken
  }

  /** A caller in the middle of a call can go on. */
  lemma CallerCanGoOn(e: End, t: Thread)
    requires t in e.callers
    ensures Enabled(e, Dispatch(t)) || Enabled(e, Post(t))
  {
  }

  /** So can the loop thread and a kernel operation. */
  lemma LoopCanGoOn(e: End)
    requires e.callers == map[]
    requires || !e.loop.Waiting? || e.packets > 0
             || e.readOp.Done? || e.readOp.Failed? || e.writeOp.Done? || e.writeOp.Failed?
    ensures || Enabled(e, Packet) || Enabled(e, ReadPacket) || Enabled(e, WritePacket) || Enabled(e, Return)
            || Enabled(e, Drained) || Enabled(e, PopTask(false)) || Enabled(e, Run)
  {
  }

  lemma WriteCanGoOn(e: End)
    requires WriteInv(e) && e.writeOp.InFlight?
    ensures Enabled(e, KernelWrote) || Enabled(e, KernelWrite(|Wire(e.chan.write.buffer)| - e.writeOp.moved))
  {
  }

  ghost predicate QuietSide(e: End) {
    forall x: Action :: Internal(x) && !x.KernelRead? ==> !Enabled(e, x)
  }

  lemma QuietSides(s: System)
    requires Quiescent(s)
    ensures QuietSide(s.a) && QuietSide(s.b)
  {
    forall x: Action | Internal(x) && !x.KernelRead?
      ensures !Enabled(s.a, x) && !Enabled(s.b, x)
    {
      assert !CanMove(s, OfA(x)) && !CanMove(s, OfB(x));
    }
  }

  /** At a quiet end the loop thread waits, the worker is empty and no packet is due. */
  lemma QuietEnd(e: End)
    requires QuietSide(e) && WorkerAwake(e)
    ensures e.callers == map[] && e.loop.Waiting? && e.packets == 0 && e.tasks == []
    ensures e.readOp.Quiet? || e.readOp.InFlight?
    ensures e.writeOp.Quiet? || e.writeOp.InFlight?
  {
    forall t: Thread
      ensures t !in e.callers
    {
      if t in e.callers {
        CallerCanGoOn(e, t);
      }
    }
    assert e.callers == map[];
    if !e.loop.Waiting? || e.packets > 0 || e.readOp.Done? || e.readOp.Failed? || e.writeOp.Done? || e.writeOp.Failed? {
      LoopCanGoOn(e);
    }
  }

  /** ... and unless its reading broke, it is connected and a read is pending. */
  lemma QuietReader(e: End)
    requires QuietSide(e) && WorkerAwake(e) && TurnInv(e) && e.chan.read.kind != Broken
    ensures e.chan.connected && e.readOp.InFlight? && e.chan.read.kind == Read
  {
    QuietEnd(e);
    assert !Enabled(e, KernelConnect);
  }

  lemma QuietWire(s: System)
    requires Inv(s) && Quiescent(s) && s.b.chan.read.kind != Broken
    ensures s.ab == []
  {
    QuietSides(s);
    QuietReader(s.b);
    if s.ab != [] {
      assert CanMove(s, OfB(KernelRead(s.ab[..1])));
    }
  }

  lemma QuietSender(e: End)
    requires QuietSide(e) && Endpoint.Inv(e) && Unbroken(e)
    ensures e.chan.sendQueue == [] && e.chan.handed == e.submitted && e.out == Stream(e.submitted)
  {
    QuietEnd(e);
    QuietReader(e);
    if e.writeOp.InFlight? {
      WriteCanGoOn(e);
    }
    assert !Calling(e, Submitted);
  }

  /** No message is stranded.  When nothing is left to happen and no end used is broken,
      everything submitted was written, everything written was parsed, and the parse gave back
      the messages submitted if and only if each of them is a frame that fits a DWORD. */
  lemma NothingStranded(s: System)
    requires Reachable(s) && Quiescent(s) && Unbroken(s.a) && s.b.chan.read.kind != Broken
    ensures s.a.chan.sendQueue == [] && s.ab == []
    ensures Parse(Stream(s.a.submitted)) == Parsed(Delivered(s.b), Kept(s.b))
    ensures Delivered(s.b) == s.a.submitted && Kept(s.b) == [] <==> AllSendable(s.a.submitted)
  {
    ReachableInv(s);
    QuietSides(s);
    QuietSender(s.a);
    QuietReader(s.b);
    QuietWire(s);
    assert s.b.inn + [] == s.b.inn;
    ParseIff(Stream(s.a.submitted), Delivered(s.b), Kept(s.b));
    StreamRoundTrip(s.a.submitted);
  }

  /** The same in between: while a connected, unbroken end has a message to send, the program
      is on its way to send it. */
  lemma QueuedMessageIsDue(s: System)
    requires Reachable(s) && s.a.chan.connected && s.a.chan.write.kind != Broken && s.a.chan.sendQueue != []
    ensures || (s.a.writeOp != Quiet && s.a.chan.write.isPending)
            || SendDue(Code(s.a)) || WriteDue(Code(s.a))
            || SendTask in s.a.tasks
            || exists t :: t in s.a.callers && s.a.callers[t] == Submitted
  {
    ReachableInv(s);
    if Calling(s.a, Submitted) {
    }
  }

  lemma ShortWithoutFrame(s: Bytes)
    requires !HasFrame(s)
    ensures |s| < HEAD_SIZE + TWO_32
  {
  }

  lemma KeptWhileReading(e: End)
    requires ReadInv(e) && TurnInv(e) && e.readOp.InFlight? && e.chan.read.kind == Read
    ensures !HasFrame(Kept(e)) && |e.chan.read.buffer| == |Kept(e)| + BUFFER_SIZE
  {
    assert !CutCode(Code(e));
    assert |Kept(e)| == e.chan.read.offset;
  }

  /** What is kept when a read is issued is an incomplete frame, whoever sends.  So the buffer
      handed to a read never exceeds the longest such and one chunk ... */
  lemma ReadBufferAlwaysBounded(s: System)
    requires Reachable(s) && s.b.readOp.InFlight? && s.b.chan.read.kind == Read
    ensures !HasFrame(Kept(s.b)) && |s.b.chan.read.buffer| == |Kept(s.b)| + BUFFER_SIZE
    ensures |s.b.chan.read.buffer| <= HEAD_SIZE + TWO_32 - 1 + BUFFER_SIZE
  {
    ReachableInv(s);
    KeptWhileReading(s.b);
    ShortWithoutFrame(Kept(s.b));
  }

  /** ... and while all messages fit a DWORD, the largest of them and one chunk. */
  lemma ReadBufferBounded(s: System, largest: nat)
    requires Reachable(s) && AllSendable(s.a.submitted) && largest > 0
    requires forall m :: m in s.a.submitted ==> |m| <= largest
    requires s.b.readOp.InFlight? && s.b.chan.read.kind == Read
    ensures |s.b.chan.read.buffer| <= largest - 1 + BUFFER_SIZE
  {
    ReachableInv(s);
    ArrivedPrefix(s);
    var ms := s.a.submitted;
    StreamRoundTrip(ms);
    StreamOfShort(ms);
    PrefixTrans(s.b.inn, s.a.out, Stream(ms));
    ParseIff(s.b.inn, Delivered(s.b), Kept(s.b));
    RestBound(s.b.inn, ms, largest);
  }

  /** At most one write and one read are outstanding at each end, in every run, from the call to
      the taking of its packet. */
  lemma OneCallAtATime(s: System, m: Move)
    requires Reachable(s) && CanMove(s, m)
    ensures var e, e' := if m.OfA? then s.a else s.b, if m.OfA? then Next(s, m).a else Next(s, m).b;
            && (e.writeOp != Quiet && !m.action.WritePacket? ==>
                  e'.writeOp != Quiet && e'.chan.write == e.chan.write && e'.chan.handed == e.chan.handed)
            && (e.readOp != Quiet && !m.action.ReadPacket? ==>
                  e'.readOp != Quiet && (!m.action.KernelRead? ==> e'.chan.read == e.chan.read))
  {
    ReachableInv(s);
    var e := if m.OfA? then s.a else s.b;
    if e.writeOp != Quiet && !m.action.WritePacket? {
      OneWriteAtATime(e, m.action);
    }
    if e.readOp != Quiet && !m.action.ReadPacket? {
      OneReadAtATime(e, m.action);
    }
  }
}
