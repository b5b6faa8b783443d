/** Every message sent over an unbroken pipe arrives: the moves that the program and the kernel
    make by themselves come to an end, and when they do, nothing is left to deliver. */
module PipeDelivery {
  import opened Frames
  import opened FileIo
  import opened PipeChannel
  import opened Endpoint
  import opened Threads
  import opened PipeSystem

  // ---------- how much is left to do ----------

  function OpWeight(op: Op): nat {
    match op
    case Connect(_) => 7
    case Write(frame) => 5 + 8 * |Wire(frame)|
    case _ => 1
  }

  function CodeWeight(code: seq<Op>): nat {
    if code == [] then 0 else OpWeight(code[0]) + CodeWeight(code[1..])
  }

  lemma {:induction false} CodeWeightAppend(a: seq<Op>, b: seq<Op>)
    ensures CodeWeight(a + b) == CodeWeight(a) + CodeWeight(b)
  {
    if a == [] {
      assert a + b == b;
    } else {
      assert (a + b)[1..] == a[1..] + b;
      CodeWeightAppend(a[1..], b);
    }
  }

  function QueueWeight(q: seq<Bytes>): nat {
    if q == [] then 0 else 5 + 8 * |Wire(q[0])| + QueueWeight(q[1..])
  }

  function LoopWeight(e: End): nat {
    if e.loop.Waiting? then 0 else 1 + CodeWeight(Code(e))
  }

  function ReadWeight(e: End): nat {
    match e.readOp
    case Quiet => 0
    case InFlight(_) => if e.chan.read.kind == Create then 6 else 0
    case Done(_) => 5
    case Failed => 5
  }

  function WriteWeight(e: End): nat {
    match e.writeOp
    case Quiet => 0
    case InFlight(k) => if k <= |Wire(e.chan.write.buffer)| then 4 + 8 * (|Wire(e.chan.write.buffer)| - k) else 4
    case Done(_) => 3
    case Failed => 3
  }

  function SubmittedIn(callers: map<Thread, Caller>): set<Thread> {
    set t | t in callers && callers[t] == Submitted
  }

  function SubmittedCallers(e: End): set<Thread> { SubmittedIn(e.callers) }

  function CallerWeight(e: End): nat {
    9 * |SubmittedCallers(e)| + 3 * |e.callers| + 8 * |e.tasks| + 2 * e.packets
  }

  function EndWeight(e: End): nat {
    CallerWeight(e) + LoopWeight(e) + ReadWeight(e) + |Kept(e)| + WriteWeight(e) + QueueWeight(e.chan.sendQueue)
  }

  function Weight(s: System): nat {
    EndWeight(s.a) + EndWeight(s.b) + 7 * |s.ab| + 7 * |s.ba|
  }

  // ---------- every internal move leaves less to do ----------

  lemma CallersDescend(e: End, a: Action)
    requires Enabled(e, a) && (a.Dispatch? || a.Post?)
    ensures CallerWeight(ClientStep(e, a)) < CallerWeight(e)
  {
    var e' := ClientStep(e, a);
    if a.Dispatch? {
      assert SubmittedCallers(e') == SubmittedCallers(e) - {a.t};
      assert e'.callers.Keys == e.callers.Keys;
    } else {
      assert SubmittedCallers(e') == SubmittedCallers(e);
      assert e'.callers.Keys == e.callers.Keys - {a.t};
    }
  }

  lemma ClientDescends(e: End, a: Action)
    requires Enabled(e, a) && (a.Dispatch? || a.Post?)
    ensures EndWeight(ClientStep(e, a)) < EndWeight(e)
  {
    CallersDescend(e, a);
    assert Kept(ClientStep(e, a)) == Kept(e);
  }

  lemma CodeWeights()
    ensures CodeWeight([Handler, Op.Send, Op.Receive]) == 3
    ensures CodeWeight([Cut(0), Handler, Op.Receive]) == 3
    ensures CodeWeight([]) == 0
    ensures forall op: Op :: CodeWeight([op]) == OpWeight(op)
  {
    assert [Handler, Op.Send, Op.Receive][1..] == [Op.Send, Op.Receive] && [Op.Send, Op.Receive][1..] == [Op.Receive];
    assert [Cut(0), Handler, Op.Receive][1..] == [Handler, Op.Receive] && [Handler, Op.Receive][1..] == [Op.Receive];
    forall op: Op
      ensures CodeWeight([op]) == OpWeight(op)
    {
      assert [op][1..] == [];
    }
  }

  /** The loop thread's code after a piece, weighed. */
  lemma CodeDescends(e: End)
    requires Enabled(e, Run)
    ensures var op, next := Code(e)[0], Exec(e.chan, Code(e)[0]).next;
            LoopWeight(RunPiece(e)) + OpWeight(op) == LoopWeight(e) + CodeWeight(next)
  {
    var op, next := Code(e)[0], Exec(e.chan, Code(e)[0]).next;
    CodeWeightAppend(next, Code(e)[1..]);
    assert CodeWeight(Code(e)) == OpWeight(op) + CodeWeight(Code(e)[1..]);
  }

  /** A frame cut out leaves fewer bytes; with no frame left the cutting ends. */
  lemma CutShortens(e: End)
    requires ReadInv(e) && TurnInv(e) && Enabled(e, Run) && Code(e)[0].Cut?
    ensures var s := Uncut(e.chan, Code(e)[0].from);
            |Kept(RunPiece(e))| + (if HasFrame(s) then FrameLength(s) else 0) == |Kept(e)|
  {
    CodeAfter(e);
    var s := Uncut(e.chan, Code(e)[0].from);
    assert Kept(e) == s;
    assert Kept(RunPiece(e)) == if HasFrame(s) then s[FrameLength(s)..] else s;
  }

  lemma CutDescends(e: End)
    requires ReadInv(e) && TurnInv(e) && Enabled(e, Run) && Code(e)[0].Cut?
    ensures EndWeight(RunPiece(e)) < EndWeight(e)
  {
    CutShortens(e);
    CodeDescends(e);
    CodeWeights();
    var e' := RunPiece(e);
    assert CallerWeight(e') == CallerWeight(e) && ReadWeight(e') == ReadWeight(e) && WriteWeight(e') == WriteWeight(e);
  }

  lemma SendKeepsRest(e: End)
    requires WriteInv(e) && Enabled(e, Run) && Code(e)[0].Send? && !CutCode(Code(RunPiece(e))) && !CutCode(Code(e))
    ensures var e' := RunPiece(e);
            CallerWeight(e') == CallerWeight(e) && ReadWeight(e') == ReadWeight(e) && WriteWeight(e') == WriteWeight(e)
    ensures Kept(RunPiece(e)) == Kept(e)
  {
  }

  lemma SendDescends(e: End)
    requires WriteInv(e) && Enabled(e, Run) && Code(e)[0].Send? && !CutCode(Code(RunPiece(e))) && !CutCode(Code(e))
    ensures EndWeight(RunPiece(e)) < EndWeight(e)
  {
    SendKeepsRest(e);
    CodeDescends(e);
    CodeWeights();
  }

  lemma WriteDescends(e: End)
    requires WriteInv(e) && Enabled(e, Run) && Code(e)[0].Write? && !CutCode(Code(RunPiece(e)))
    ensures EndWeight(RunPiece(e)) < EndWeight(e)
  {
    CodeDescends(e);
    CodeWeights();
    assert CallerWeight(RunPiece(e)) == CallerWeight(e);
    assert WriteWeight(e) == 0 && WriteWeight(RunPiece(e)) == 4 + 8 * |Wire(Code(e)[0].frame)|;
  }

  lemma ReceiveDescends(e: End)
    requires ReadInv(e) && TurnInv(e) && Enabled(e, Run) && Code(e)[0].Receive? && !CutCode(Code(RunPiece(e)))
    ensures EndWeight(RunPiece(e)) < EndWeight(e)
  {
    CodeDescends(e);
    CodeWeights();
    assert CallerWeight(RunPiece(e)) == CallerWeight(e);
    assert |Kept(RunPiece(e))| == |Kept(e)|;
  }

  lemma ConnectDescends(e: End)
    requires TurnInv(e) && Enabled(e, Run) && (Code(e)[0].Connect? || Code(e)[0].Handler?)
    requires !CutCode(Code(RunPiece(e))) && !CutCode(Code(e))
    ensures EndWeight(RunPiece(e)) < EndWeight(e)
  {
    CodeDescends(e);
    CodeWeights();
    assert CallerWeight(RunPiece(e)) == CallerWeight(e);
  }

  lemma RunDescends(e: End)
    requires Endpoint.Inv(e) && Enabled(e, Run)
    ensures EndWeight(RunPiece(e)) < EndWeight(e)
  {
    CodeAfter(e);
    match Code(e)[0]
    case Cut(_) => CutDescends(e);
    case Send => SendDescends(e);
    case Write(_) => WriteDescends(e);
    case Receive => ReceiveDescends(e);
    case Connect(_) => ConnectDescends(e);
    case Handler => ConnectDescends(e);
  }

  lemma LoopDescends(e: End, a: Action)
    requires Enabled(e, a) && ByLoop(a) && !a.OtherPacket?
    ensures EndWeight(LoopStep(e, a)) < EndWeight(e)
  {
    CodeWeights();
    assert Kept(LoopStep(e, a)) == Kept(e);
    assert SubmittedCallers(LoopStep(e, a)) == SubmittedCallers(e);
  }

  lemma ReadPacketDescends(e: End)
    requires ReadInv(e) && TurnInv(e) && Enabled(e, ReadPacket)
    ensures EndWeight(TakeReadPacket(e)) < EndWeight(e)
  {
    CodeWeights();
    assert CallerWeight(TakeReadPacket(e)) == CallerWeight(e);
    assert |Kept(TakeReadPacket(e))| <= |Kept(e)|;
  }

  lemma WritePacketDescends(e: End)
    requires WriteInv(e) && TurnInv(e) && Enabled(e, WritePacket)
    ensures EndWeight(TakeWritePacket(e)) < EndWeight(e)
  {
    CodeWeights();
    assert CallerWeight(TakeWritePacket(e)) == CallerWeight(e);
    assert Kept(TakeWritePacket(e)) == Kept(e);
  }

  lemma KernelDescends(e: End, a: Action)
    requires Endpoint.Inv(e) && Enabled(e, a) && (a.KernelConnect? || a.KernelWrote?)
    ensures EndWeight(Step(e, a)) < EndWeight(e)
  {
  }

  lemma ReadMovesBytes(e: End, chunk: Bytes)
    requires Endpoint.Inv(e) && Enabled(e, KernelRead(chunk))
    ensures EndWeight(KernelStep(e, KernelRead(chunk))) == EndWeight(e) + 5 + |chunk|
  {
    assert CallerWeight(KernelStep(e, KernelRead(chunk))) == CallerWeight(e);
  }

  lemma WriteMovesBytes(e: End, n: nat)
    requires Endpoint.Inv(e) && Enabled(e, KernelWrite(n))
    ensures EndWeight(KernelStep(e, KernelWrite(n))) + 8 * n == EndWeight(e)
  {
    assert CallerWeight(KernelStep(e, KernelWrite(n))) == CallerWeight(e);
  }

  lemma KernelMovesBytes(e: End, a: Action)
    requires Endpoint.Inv(e) && Enabled(e, a)
    ensures a.KernelRead? ==> EndWeight(Step(e, a)) == EndWeight(e) + 5 + |a.chunk|
    ensures a.KernelWrite? ==> EndWeight(Step(e, a)) + 8 * |Emitted(e, a)| == EndWeight(e) && Emitted(e, a) != []
  {
    if a.KernelRead? {
      ReadMovesBytes(e, a.chunk);
    } else if a.KernelWrite? {
      WriteMovesBytes(e, a.count);
    }
  }

  lemma PacketDescends(e: End, x: Action)
    requires Endpoint.Inv(e) && Enabled(e, x) && (x.ReadPacket? || x.WritePacket?)
    ensures EndWeight(Step(e, x)) < EndWeight(e)
  {
    if x.ReadPacket? {
      ReadPacketDescends(e);
    } else {
      WritePacketDescends(e);
    }
  }

  lemma EndDescends(e: End, x: Action)
    requires Endpoint.Inv(e) && Enabled(e, x) && Internal(x) && !x.KernelRead? && !x.KernelWrite?
    ensures EndWeight(Step(e, x)) < EndWeight(e)
  {
    if ByClient(x) {
      ClientDescends(e, x);
    } else if ByKernel(x) {
      KernelDescends(e, x);
    } else if ByLoop(x) {
      LoopDescends(e, x);
    } else if x.Run? {
      RunDescends(e);
    } else {
      PacketDescends(e, x);
    }
  }

  /** With the wires: bytes put on a wire weigh less than they did, bytes got from it too. */
  lemma EndAndWiresDescend(e: End, x: Action, wire: Bytes)
    requires Endpoint.Inv(e) && Enabled(e, x) && Internal(x) && (x.KernelRead? ==> x.chunk <= wire)
    ensures EndWeight(Step(e, x)) + 7 * |Rest(wire, x)| + 7 * |Emitted(e, x)| < EndWeight(e) + 7 * |wire|
  {
    if x.KernelRead? || x.KernelWrite? {
      KernelMovesBytes(e, x);
    } else {
      EndDescends(e, x);
    }
  }

  lemma InternalDescends(s: System, m: Move)
    requires PipeSystem.Inv(s) && CanMove(s, m) && Internal(m.action)
    ensures Weight(Next(s, m)) < Weight(s)
  {
    if m.OfA? {
      EndAndWiresDescend(s.a, m.action, s.ba);
    } else {
      EndAndWiresDescend(s.b, m.action, s.ab);
    }
  }

  // ---------- what other moves add ----------

  /** How much more there is to do after a move that is not internal. */
  function Cost(x: Action): nat {
    match x
    case Submit(_, m) => 17 + 8 * |Wire(m)|
    case DispatchOther(_) => 11
    case OtherPacket => 2
    case FailRead => 5
    case KernelRead(chunk) => if chunk == [] then 5 else 0
    case _ => 0
  }

  lemma {:induction false} QueueWeightAppend(q: seq<Bytes>, m: Bytes)
    ensures QueueWeight(q + [m]) == QueueWeight(q) + 5 + 8 * |Wire(m)|
  {
    if q != [] {
      assert (q + [m])[1..] == q[1..] + [m];
      QueueWeightAppend(q[1..], m);
    }
  }

  lemma OneKeyMore<V>(m: map<Thread, V>, t: Thread, v: V)
    requires t !in m
    ensures |m[t := v]| == |m| + 1
  {
    assert m[t := v].Keys == m.Keys + {t};
  }

  lemma OneSubmittedMore(callers: map<Thread, Caller>, t: Thread)
    requires t !in callers
    ensures |SubmittedIn(callers[t := Submitted])| == |SubmittedIn(callers)| + 1
  {
    assert SubmittedIn(callers[t := Submitted]) == SubmittedIn(callers) + {t};
  }

  lemma NoSubmittedMore(callers: map<Thread, Caller>, t: Thread)
    requires t !in callers
    ensures SubmittedIn(callers[t := Queued]) == SubmittedIn(callers)
  {
  }

  lemma CallPaid(e: End, x: Action)
    requires Enabled(e, x) && (x.Submit? || x.DispatchOther?)
    ensures CallerWeight(ClientStep(e, x)) == CallerWeight(e) + if x.Submit? then 12 else 11
  {
    OneKeyMore(e.callers, x.t, if x.Submit? then Submitted else Queued);
    if x.Submit? {
      OneSubmittedMore(e.callers, x.t);
    } else {
      NoSubmittedMore(e.callers, x.t);
    }
  }

  lemma SubmitPaid(e: End, t: Thread, m: Bytes)
    requires Enabled(e, Submit(t, m))
    ensures EndWeight(ClientStep(e, Submit(t, m))) == EndWeight(e) + Cost(Submit(t, m))
  {
    var e' := ClientStep(e, Submit(t, m));
    CallPaid(e, Submit(t, m));
    QueueWeightAppend(e.chan.sendQueue, m);
    assert Kept(e') == Kept(e) && LoopWeight(e') == LoopWeight(e) && WriteWeight(e') == WriteWeight(e);
  }

  lemma ClientPaid(e: End, x: Action)
    requires Enabled(e, x) && (x.Submit? || x.DispatchOther? || x.Take?)
    ensures EndWeight(ClientStep(e, x)) == EndWeight(e) + Cost(x)
  {
    match x
    case Submit(t, m) => SubmitPaid(e, t, m);
    case DispatchOther(_) =>
      CallPaid(e, x);
      assert Kept(ClientStep(e, x)) == Kept(e);
    case Take => assert Kept(ClientStep(e, x)) == Kept(e);
  }

  lemma OtherPacketPaid(e: End)
    requires Enabled(e, OtherPacket)
    ensures EndWeight(LoopStep(e, OtherPacket)) == EndWeight(e) + 2
  {
    var e' := LoopStep(e, OtherPacket);
    CodeWeights();
    assert Code(e') == [Op.Handler];
    assert CallerWeight(e') == CallerWeight(e) && WriteWeight(e') == WriteWeight(e) && Kept(e') == Kept(e);
  }

  lemma FailurePaid(e: End, x: Action)
    requires Endpoint.Inv(e) && Enabled(e, x) && (x.FailRead? || x.FailWrite?)
    ensures EndWeight(KernelStep(e, x)) <= EndWeight(e) + Cost(x)
  {
    var e' := KernelStep(e, x);
    assert CallerWeight(e') == CallerWeight(e) && LoopWeight(e') == LoopWeight(e) && Kept(e') == Kept(e);
  }

  lemma OtherPaid(e: End, x: Action)
    requires Endpoint.Inv(e) && Enabled(e, x) && (x.OtherPacket? || x.FailRead? || x.FailWrite?)
    ensures EndWeight(Step(e, x)) <= EndWeight(e) + Cost(x)
  {
    if x.OtherPacket? {
      OtherPacketPaid(e);
    } else {
      FailurePaid(e, x);
    }
  }

  /** Internal moves lower the measure, and any other raises it by its cost at most. */
  lemma EndAndWiresPaid(e: End, x: Action, wire: Bytes)
    requires Endpoint.Inv(e) && Enabled(e, x) && (x.KernelRead? ==> x.chunk <= wire)
    ensures EndWeight(Step(e, x)) + 7 * |Rest(wire, x)| + 7 * |Emitted(e, x)| + (if Internal(x) then 1 else 0)
         <= EndWeight(e) + 7 * |wire| + Cost(x)
  {
    if Internal(x) {
      EndAndWiresDescend(e, x, wire);
    } else if x.KernelRead? {
      KernelMovesBytes(e, x);
    } else if ByClient(x) {
      ClientPaid(e, x);
    } else {
      OtherPaid(e, x);
    }
  }

  lemma MovePaid(s: System, m: Move)
    requires PipeSystem.Inv(s) && CanMove(s, m)
    ensures Weight(Next(s, m)) + (if Internal(m.action) then 1 else 0) <= Weight(s) + Cost(m.action)
  {
    if m.OfA? {
      EndAndWiresPaid(s.a, m.action, s.ba);
    } else {
      EndAndWiresPaid(s.b, m.action, s.ab);
    }
  }

  function InternalMoves(moves: seq<Move>): nat {
    if moves == [] then 0 else (if Internal(moves[0].action) then 1 else 0) + InternalMoves(moves[1..])
  }

  function TotalCost(moves: seq<Move>): nat {
    if moves == [] then 0 else Cost(moves[0].action) + TotalCost(moves[1..])
  }

  /** In every run, with new messages, other channels' work and breaks in between: the moves that
      the program and the kernel make by themselves are paid for by what was to do at the start
      and by what clients, other channels and failures added. */
  lemma {:induction false} InternalMovesArePaid(s: System, moves: seq<Move>)
    requires PipeSystem.Inv(s) && IsRun(s, moves)
    ensures InternalMoves(moves) + Weight(After(s, moves)) <= Weight(s) + TotalCost(moves)
    decreases |moves|
  {
    if moves != [] {
      MovePaid(s, moves[0]);
      NextKeepsInv(s, moves[0]);
      InternalMovesArePaid(Next(s, moves[0]), moves[1..]);
    }
  }

  // ---------- delivery ----------

  /** Neither broken nor about to be found broken. */
  predicate Sound(e: End) {
    Unbroken(e) && !e.readOp.Failed? && !e.writeOp.Failed?
  }

  ghost predicate InternalRun(s: System, moves: seq<Move>) {
    IsRun(s, moves) && forall m :: m in moves ==> Internal(m.action)
  }

  lemma InternalKeeps(e: End, a: Action)
    requires Enabled(e, a) && Internal(a) && Sound(e)
    ensures Sound(Step(e, a)) && Step(e, a).submitted == e.submitted
  {
  }

  lemma {:induction false} InternalRunsEnd(s: System, moves: seq<Move>)
    requires PipeSystem.Inv(s) && Sound(s.a) && Sound(s.b) && InternalRun(s, moves)
    ensures |moves| + Weight(After(s, moves)) <= Weight(s)
    ensures var t := After(s, moves);
            && PipeSystem.Inv(t) && Sound(t.a) && Sound(t.b)
            && t.a.submitted == s.a.submitted && t.b.submitted == s.b.submitted
    decreases |moves|
  {
    if moves != [] {
      var m := moves[0];
      assert Internal(m.action);
      InternalDescends(s, m);
      NextKeepsInv(s, m);
      InternalKeeps(if m.OfA? then s.a else s.b, m.action);
      InternalRunsEnd(Next(s, m), moves[1..]);
    }
  }

  lemma MoveInFront(s: System, m: Move, rest: seq<Move>)
    requires CanMove(s, m) && IsRun(Next(s, m), rest)
    ensures IsRun(s, [m] + rest) && After(s, [m] + rest) == After(Next(s, m), rest)
  {
    assert ([m] + rest)[1..] == rest;
  }

  lemma {:induction false} RunsJoin(s: System, first: seq<Move>, second: seq<Move>)
    requires IsRun(s, first) && IsRun(After(s, first), second)
    ensures IsRun(s, first + second) && After(s, first + second) == After(After(s, first), second)
    decreases |first|
  {
    if first == [] {
      assert first + second == second;
    } else {
      var next, later := Next(s, first[0]), first[1..];
      assert IsRun(next, later) && After(s, first) == After(next, later);
      RunsJoin(next, later, second);
      MoveInFront(s, first[0], later + second);
      HeadTailAppend(first, second);
    }
  }

  lemma ReachableOn(begin: System, s: System, moves: seq<Move>)
    requires ReachableFrom(begin, s) && IsRun(s, moves)
    ensures ReachableFrom(begin, After(s, moves))
  {
    var first: seq<Move> :| IsRun(begin, first) && After(begin, first) == s;
    RunsJoin(begin, first, moves);
  }

  lemma ReachableStays(s: System, moves: seq<Move>)
    requires Reachable(s) && IsRun(s, moves)
    ensures Reachable(After(s, moves))
  {
    var begin: System, openA: bool, openB: bool :| Begins(begin, openA, openB) && ReachableFrom(begin, s);
    ReachableOn(begin, s, moves);
  }

  /** From every reachable state in which neither end is broken: the moves that need no client
      and no failure stop after at most `Weight(s)` of them, in whatever order they are made;
      and where they cannot go on, every message submitted is taken or ready to be taken, if
      and only if every one submitted is a frame that fits a DWORD. */
  lemma EverythingIsDelivered(s: System, moves: seq<Move>)
    requires Reachable(s) && Sound(s.a) && Sound(s.b) && InternalRun(s, moves)
    ensures |moves| <= Weight(s)
    ensures Quiescent(After(s, moves)) ==>
              var t := After(s, moves);
              Delivered(t.b) == s.a.submitted && Kept(t.b) == [] <==> AllSendable(s.a.submitted)
  {
    ReachableInv(s);
    InternalRunsEnd(s, moves);
    ReachableStays(s, moves);
    if Quiescent(After(s, moves)) {
      NothingStranded(After(s, moves));
    }
  }

  lemma QuietBefore(s: System, m: Move, rest: seq<Move>)
    requires CanMove(s, m) && Internal(m.action) && InternalRun(Next(s, m), rest) && Quiescent(After(Next(s, m), rest))
    ensures exists moves: seq<Move> :: InternalRun(s, moves) && Quiescent(After(s, moves))
  {
    MoveInFront(s, m, rest);
    assert InternalRun(s, [m] + rest);
  }

  /** And such a state is always within reach. */
  lemma {:induction false} QuiescenceIsReached(s: System)
    requires PipeSystem.Inv(s)
    ensures exists moves: seq<Move> :: InternalRun(s, moves) && Quiescent(After(s, moves))
    decreases Weight(s)
  {
    if Quiescent(s) {
      assert InternalRun(s, []) && After(s, []) == s;
    } else {
      var m: Move :| Internal(m.action) && CanMove(s, m);
      InternalDescends(s, m);
      NextKeepsInv(s, m);
      var next := Next(s, m);
      QuiescenceIsReached(next);
      var rest: seq<Move> :| InternalRun(next, rest) && Quiescent(After(next, rest));
      QuietBefore(s, m, rest);
    }
  }

  lemma OneMove(s: System, m: Move)
    requires CanMove(s, m)
    ensures IsRun(s, [m]) && After(s, [m]) == Next(s, m)
  {
    assert IsRun(Next(s, m), []) && After(Next(s, m), []) == Next(s, m);
    MoveInFront(s, m, []);
    assert [m] + [] == [m];
  }

  ghost predicate Below(threads: set<Thread>, b: Thread) {
    forall t :: t in threads ==> t < b
  }

  lemma {:induction false} ThreadsBounded(threads: set<Thread>)
    ensures exists b: Thread :: Below(threads, b)
  {
    if threads == {} {
      assert Below(threads, 0);
    } else {
      var u :| u in threads;
      ThreadsBounded(threads - {u});
      var b: Thread :| Below(threads - {u}, b);
      forall t | t in threads
        ensures t < b + u + 1
      {
        assert t == u || t in threads - {u};
      }
      assert Below(threads, b + u + 1);
    }
  }

  /** There is always a further thread to make a call. */
  lemma FreshCaller(e: End)
    ensures exists t: Thread :: MayCall(e, t)
  {
    ThreadsBounded(e.callers.Keys);
    var b: Thread :| Below(e.callers.Keys, b);
    assert MayCall(e, b + 1);
  }

  /** `ms` were submitted at `a` and nothing is broken. */
  ghost predicate Submitting(begin: System, s: System, ms: seq<Bytes>) {
    ReachableFrom(begin, s) && Sound(s.a) && Sound(s.b) && s.a.submitted == ms
  }

  lemma SubmitOne(begin: System, s: System, t: Thread, before: seq<Bytes>, m: Bytes)
    requires Submitting(begin, s, before) && MayCall(s.a, t)
    ensures Submitting(begin, Next(s, OfA(Submit(t, m))), before + [m])
  {
    var move := OfA(Submit(t, m));
    OneMove(s, move);
    ReachableOn(begin, s, [move]);
  }

  lemma SubmitFurther(begin: System, s: System, before: seq<Bytes>, m: Bytes)
    requires Submitting(begin, s, before)
    ensures exists s': System :: Submitting(begin, s', before + [m])
  {
    FreshCaller(s.a);
    var t: Thread :| MayCall(s.a, t);
    SubmitOne(begin, s, t, before, m);
  }

  lemma NothingSubmitted(begin: System, openA: bool, openB: bool)
    requires Begins(begin, openA, openB)
    ensures Submitting(begin, begin, [])
  {
    assert IsRun(begin, []) && After(begin, []) == begin;
  }

  /** Any messages can be submitted, each by a thread of its own. */
  lemma {:induction false} AnyListSubmitted(begin: System, openA: bool, openB: bool, ms: seq<Bytes>)
    requires Begins(begin, openA, openB)
    ensures exists s: System :: Submitting(begin, s, ms)
  {
    if ms == [] {
      NothingSubmitted(begin, openA, openB);
    } else {
      var before, last := ms[..|ms| - 1], ms[|ms| - 1];
      AnyListSubmitted(begin, openA, openB, before);
      var s: System :| Submitting(begin, s, before);
      SubmitFurther(begin, s, before, last);
      assert before + [last] == ms;
    }
  }

  /** At rest with `ms` submitted at `a` and all that reached `b` parsed. */
  ghost predicate Rests(begin: System, s: System, ms: seq<Bytes>) {
    && ReachableFrom(begin, s) && Quiescent(s) && s.a.submitted == ms
    && Parse(Stream(ms)) == Parsed(Delivered(s.b), Kept(s.b))
  }

  lemma AnyListRests(begin: System, openA: bool, openB: bool, ms: seq<Bytes>)
    requires Begins(begin, openA, openB)
    ensures exists s: System :: Rests(begin, s, ms)
  {
    AnyListSubmitted(begin, openA, openB, ms);
    var s: System :| Submitting(begin, s, ms);
    ReachableInv(s);
    QuiescenceIsReached(s);
    var moves: seq<Move> :| InternalRun(s, moves) && Quiescent(After(s, moves));
    InternalRunsEnd(s, moves);
    ReachableOn(begin, s, moves);
    NothingStranded(After(s, moves));
    assert Rests(begin, After(s, moves), ms);
  }

  /** Wherever a server and a client begin, and for any list of messages, there is a run that
      submits the list and comes to rest, and it has delivered exactly the list if and only if
      each message is a frame that fits a DWORD. */
  lemma AnyListComesToRest(begin: System, openA: bool, openB: bool, ms: seq<Bytes>)
    requires Begins(begin, openA, openB)
    ensures exists s: System ::
              && ReachableFrom(begin, s) && Quiescent(s) && s.a.submitted == ms
              && (Delivered(s.b) == ms && Kept(s.b) == [] <==> AllSendable(ms))
  {
    AnyListRests(begin, openA, openB, ms);
    var s: System :| Rests(begin, s, ms);
    StreamRoundTrip(ms);
  }

  // ---------- and is taken ----------

  function Takes(n: nat): seq<Move> { seq(n, _ => OfB(Take)) }

  lemma OneTake(s: System)
    ensures CanMove(s, OfB(Take)) && Next(s, OfB(Take)).a == s.a && Delivered(Next(s, OfB(Take)).b) == Delivered(s.b)
    ensures |Next(s, OfB(Take)).b.taken| == Min(|s.b.taken| + 1, |Delivered(s.b)|)
  {
    TakeMovesOldest(s.b);
  }

  /** In every state, `n` calls of `receive_message` take the next `n` messages delivered, or as
      many as there are. */
  lemma {:induction false} TakesTake(s: System, n: nat)
    ensures IsRun(s, Takes(n))
    ensures var t := After(s, Takes(n));
            && t.a == s.a && Delivered(t.b) == Delivered(s.b)
            && t.b.taken == Delivered(s.b)[..Min(|s.b.taken| + n, |Delivered(s.b)|)]
    decreases n
  {
    if n == 0 {
      assert Takes(0) == [];
      assert s.b.taken == Delivered(s.b)[..|s.b.taken|];
    } else {
      var next := Next(s, OfB(Take));
      OneTake(s);
      TakesTake(next, n - 1);
      MoveInFront(s, OfB(Take), Takes(n - 1));
      assert [OfB(Take)] + Takes(n - 1) == Takes(n);
    }
  }

  /** The run submits nothing and ends with all that was submitted parsed and taken. */
  ghost predicate TakesAll(s: System, moves: seq<Move>) {
    && IsRun(s, moves) && SubmitsIn(moves) == []
    && var t := After(s, moves);
       && t.a.submitted == s.a.submitted
       && t.b.taken == Parse(Stream(s.a.submitted)).messages
       && (t.b.taken == s.a.submitted && Kept(t.b) == [] <==> AllSendable(s.a.submitted))
  }

  lemma QuietThenTaken(s: System, moves: seq<Move>)
    requires Reachable(s) && Sound(s.a) && Sound(s.b) && InternalRun(s, moves) && Quiescent(After(s, moves))
    ensures TakesAll(s, moves + Takes(|Delivered(After(s, moves).b)|))
  {
    ReachableInv(s);
    InternalRunsEnd(s, moves);
    ReachableStays(s, moves);
    NothingStranded(After(s, moves));
    TakesFollow(s, moves, |Delivered(After(s, moves).b)|);
    InternalSubmitsNothing(moves);
  }

  /** From every reachable, unbroken state, some run with no further message submitted ends with
      everything taken: the messages of the parse of all that was submitted, and so the messages
      submitted if and only if each fits a DWORD. */
  lemma EverythingIsTaken(s: System)
    requires Reachable(s) && Sound(s.a) && Sound(s.b)
    ensures exists moves: seq<Move> :: TakesAll(s, moves)
  {
    ReachableInv(s);
    QuiescenceIsReached(s);
    var moves: seq<Move> :| InternalRun(s, moves) && Quiescent(After(s, moves));
    QuietThenTaken(s, moves);
  }

  /** A run followed by takes. */
  lemma TakesFollow(s: System, moves: seq<Move>, n: nat)
    requires IsRun(s, moves) && n == |Delivered(After(s, moves).b)|
    ensures IsRun(s, moves + Takes(n))
    ensures var t, quiet := After(s, moves + Takes(n)), After(s, moves);
            && t.a == quiet.a && t.b.taken == Delivered(quiet.b) && Delivered(t.b) == Delivered(quiet.b)
            && Kept(t.b) == Kept(quiet.b)
  {
    var quiet := After(s, moves);
    TakesTake(quiet, n);
    RunsJoin(s, moves, Takes(n));
    assert Delivered(quiet.b)[..n] == Delivered(quiet.b);
    TakesKeepBytes(quiet, n);
  }

  lemma {:induction false} TakesKeepBytes(s: System, n: nat)
    requires IsRun(s, Takes(n))
    ensures Kept(After(s, Takes(n)).b) == Kept(s.b)
    decreases n
  {
    if n == 0 {
      assert Takes(0) == [];
    } else {
      assert Takes(n)[1..] == Takes(n - 1) && Takes(n)[0] == OfB(Take);
      TakesKeepBytes(Next(s, OfB(Take)), n - 1);
    }
  }

  lemma {:induction false} InternalSubmitsNothing(moves: seq<Move>)
    requires forall m :: m in moves ==> Internal(m.action)
    ensures forall n: nat :: SubmitsIn(moves + Takes(n)) == []
    decreases |moves|
  {
    forall n: nat
      ensures SubmitsIn(moves + Takes(n)) == []
    {
      if moves == [] {
        assert moves + Takes(n) == Takes(n);
        TakesSubmitNothing(n);
      } else {
        InternalSubmitsNothing(moves[1..]);
        assert (moves + Takes(n))[1..] == moves[1..] + Takes(n);
        assert moves[0] in moves;
      }
    }
  }

  lemma {:induction false} TakesSubmitNothing(n: nat)
    ensures SubmitsIn(Takes(n)) == []
    decreases n
  {
    if n > 0 {
      assert Takes(n)[1..] == Takes(n - 1);
      TakesSubmitNothing(n - 1);
    }
  }

  // ---------- when exactly the receiver takes a prefix ----------

  /** The end-to-end law, exactly: every run that submits `ms` delivers only a prefix of `ms`
      if and only if parsing the bytes that `ms` puts on the wire gives a prefix of `ms`. */
  lemma PrefixDeliveredIff(begin: System, openA: bool, openB: bool, ms: seq<Bytes>)
    requires Begins(begin, openA, openB)
    ensures (forall s: System :: ReachableFrom(begin, s) && s.a.submitted == ms ==> Delivered(s.b) <= ms)
       <==> Parse(Stream(ms)).messages <= ms
    ensures AllSendable(ms) ==> Parse(Stream(ms)).messages <= ms
  {
    StreamRoundTrip(ms);
    if Parse(Stream(ms)).messages <= ms {
      forall s: System | ReachableFrom(begin, s) && s.a.submitted == ms
        ensures Delivered(s.b) <= ms
      {
        DeliveredIsParsed(s);
      }
    } else {
      AnyListRests(begin, openA, openB, ms);
      var s: System :| Rests(begin, s, ms);
    }
  }

  /** A run that breaks the law: two well-formed frames submitted, and only the second of them
      delivered. */
  lemma LongFrameBreaksPrefix(begin: System, openA: bool, openB: bool, payload: Bytes)
    requires Begins(begin, openA, openB) && |payload| == TWO_32 - HEAD_SIZE
    ensures var ms := [MakeMessage(0, payload), MakeMessage(1, [])];
            && AllWellFormed(ms)
            && exists s: System :: ReachableFrom(begin, s) && s.a.submitted == ms && Delivered(s.b) == [ms[1]]
  {
    var ms := [MakeMessage(0, payload), MakeMessage(1, [])];
    LongFrameIsSkipped(payload);
    AnyListRests(begin, openA, openB, ms);
    var s: System :| Rests(begin, s, ms);
  }

  /** Two processes that do nothing else can begin. */
  lemma FirstChannelsBegin(openA: bool, openB: bool)
    ensures Begins(System(FirstChannel(openA), FirstChannel(openB), [], []), openA, openB)
  {
    FirstChannelCreated(openA);
    FirstChannelCreated(openB);
  }

  /** So between a server and a client the law can indeed be broken. */
  lemma PrefixCanBreak(payload: Bytes)
    requires |payload| == TWO_32 - HEAD_SIZE
    ensures exists s: System ::
              Reachable(s) && AllWellFormed(s.a.submitted) && !(Delivered(s.b) <= s.a.submitted)
  {
    var begin := System(FirstChannel(false), FirstChannel(true), [], []);
    FirstChannelsBegin(false, true);
    LongFrameBreaksPrefix(begin, false, true, payload);
    var ms := [MakeMessage(0, payload), MakeMessage(1, [])];
    var s: System :| ReachableFrom(begin, s) && s.a.submitted == ms && Delivered(s.b) == [ms[1]];
    assert |ms[0]| != |ms[1]|;
    assert Reachable(s);
  }

  /** The messages that senders construct from ids and payloads. */
  function Made(sent: seq<(int, Bytes)>): (ms: seq<Bytes>)
    ensures |ms| == |sent|
  {
    seq(|sent|, i requires 0 <= i < |sent| => MakeMessage(sent[i].0, sent[i].1))
  }

  predicate IntIds(sent: seq<(int, Bytes)>) {
    forall i :: 0 <= i < |sent| ==> -0x8000_0000 <= sent[i].0 < 0x8000_0000
  }

  /** The receiver reads from `ms` the ids and payloads of the first messages sent. */
  ghost predicate ReadAs(ms: seq<Bytes>, sent: seq<(int, Bytes)>) {
    && |ms| <= |sent|
    && forall i :: 0 <= i < |ms| ==> WellFormed(ms[i]) && Id(ms[i]) == sent[i].0 && Payload(ms[i]) == sent[i].1
  }

  lemma ReadAsIff(ms: seq<Bytes>, sent: seq<(int, Bytes)>)
    requires IntIds(sent) && AllWellFormed(ms)
    ensures ReadAs(ms, sent) <==> ms <= Made(sent)
  {
    forall i | 0 <= i < |ms| && i < |sent|
      ensures WellFormed(ms[i])
      ensures Id(ms[i]) == sent[i].0 && Payload(ms[i]) == sent[i].1 <==> ms[i] == Made(sent)[i]
    {
      assert ms[i] in ms;
      CarriesIff(ms[i], sent[i].0, sent[i].1);
    }
  }

  lemma DeliveredWellFormed(begin: System, openA: bool, openB: bool, s: System)
    requires Begins(begin, openA, openB) && ReachableFrom(begin, s)
    ensures AllWellFormed(Delivered(s.b))
  {
    ReachableInv(s);
  }

  /** The same law about ids and payloads, for payloads of any length. */
  lemma IdsAndPayloadsIff(begin: System, openA: bool, openB: bool, sent: seq<(int, Bytes)>)
    requires Begins(begin, openA, openB) && IntIds(sent)
    ensures (forall s: System ::
               ReachableFrom(begin, s) && s.a.submitted == Made(sent) ==> ReadAs(Delivered(s.b), sent))
       <==> Parse(Stream(Made(sent))).messages <= Made(sent)
  {
    forall s: System | ReachableFrom(begin, s) && s.a.submitted == Made(sent)
      ensures ReadAs(Delivered(s.b), sent) <==> Delivered(s.b) <= Made(sent)
    {
      DeliveredWellFormed(begin, openA, openB, s);
      ReadAsIff(Delivered(s.b), sent);
    }
    PrefixDeliveredIff(begin, openA, openB, Made(sent));
  }

  // ---------- the other direction ----------

  function Swap(s: System): System { System(s.b, s.a, s.ba, s.ab) }

  function SwapMoves(moves: seq<Move>): (r: seq<Move>)
    ensures |r| == |moves|
  {
    seq(|moves|, i requires 0 <= i < |moves| => if moves[i].OfA? then OfB(moves[i].action) else OfA(moves[i].action))
  }

  lemma {:induction false} SwapRun(s: System, moves: seq<Move>)
    requires IsRun(s, moves)
    ensures IsRun(Swap(s), SwapMoves(moves)) && After(Swap(s), SwapMoves(moves)) == Swap(After(s, moves))
    decreases |moves|
  {
    if moves != [] {
      SwapRun(Next(s, moves[0]), moves[1..]);
      assert SwapMoves(moves)[1..] == SwapMoves(moves[1..]);
    }
  }

  /** The two ends are alike: what holds of messages from `a` to `b` in every reachable state
      holds of those from `b` to `a`. */
  lemma BothDirections(s: System)
    requires Reachable(s)
    ensures Reachable(Swap(s))
  {
    var begin: System, openA: bool, openB: bool :| Begins(begin, openA, openB) && ReachableFrom(begin, s);
    var moves: seq<Move> :| IsRun(begin, moves) && After(begin, moves) == s;
    SwapRun(begin, moves);
    assert Begins(Swap(begin), openB, openA);
  }
}
