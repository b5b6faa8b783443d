/** The receiving side of a connected, unbroken pipe when the kernel may answer `ReadFile` in any
    of its ways: pending, done at once, or refused.

    Reads are issued one after the other by the loop thread, so unlike writes they do not depend on
    the pending mark; but a refused read is never followed by another. */
module ReadAnswers {
  import opened Frames
  import opened FileIo
  import opened PipeChannel

  /** `due`: the loop thread is about to call `receive`; `flight`: a read is pending in the kernel;
      `packet`: one has come and its packet with so many bytes waits.  `got` are all bytes read. */
  datatype Receiver = Receiver(chan: Channel, due: bool, flight: bool, packet: seq<nat>, got: Bytes)

  /** A read that is done at once brings `chunk` with its answer. */
  datatype Action = RunReceive(answer: Answer, chunk: Bytes) | Arrive(chunk: Bytes) | TakePacket

  /** `connect_completed` receives first. */
  function Begin(): Receiver {
    Receiver(Channel(true, [], [], FRESH_CONTEXT, FRESH_CONTEXT, []), true, false, [], [])
  }

  predicate Enabled(s: Receiver, a: Action) {
    match a
    case RunReceive(answer, chunk) => s.due && |chunk| <= BUFFER_SIZE
    case Arrive(chunk) => s.flight && |chunk| <= BUFFER_SIZE && s.chan.read.offset + |chunk| <= |s.chan.read.buffer|
    case TakePacket => s.packet != []
  }

  /** The kernel puts the bytes of a read into its context and posts a packet. */
  function Bring(s: Receiver, chunk: Bytes): Receiver
    requires s.chan.read.offset + |chunk| <= |s.chan.read.buffer|
  {
    s.(chan := s.chan.(read := Filled(s.chan.read, chunk)), flight := false,
       packet := s.packet + [|chunk|], got := s.got + chunk)
  }

  /** A run of `receive`; nothing more is due after it. */
  function ReceiveWith(s: Receiver, answer: Answer, chunk: Bytes): Receiver
    requires |chunk| <= BUFFER_SIZE
  {
    var t := s.(chan := ReceiveAnswered(s.chan, answer), due := false);
    if !StartsRead(s.chan) then t
    else
      match answer
      case Pending => t.(flight := true)
      case AtOnce => Bring(t, chunk)
      case Refused => t
  }

  function Step(s: Receiver, a: Action): Receiver
    requires Enabled(s, a)
  {
    match a
    case RunReceive(answer, chunk) => ReceiveWith(s, answer, chunk)
    case Arrive(chunk) => Bring(s, chunk)
    case TakePacket =>
      s.(chan := CutAll(ReadUpdated(s.chan, true, s.packet[0])), packet := s.packet[1..], due := true)
  }

  predicate Allowed(a: Action, answers: set<Answer>) { a.RunReceive? ==> a.answer in answers }

  predicate IsRun(s: Receiver, actions: seq<Action>, answers: set<Answer>)
    decreases |actions|
  {
    actions == []
    || (Enabled(s, actions[0]) && Allowed(actions[0], answers) && IsRun(Step(s, actions[0]), actions[1..], answers))
  }

  function End(s: Receiver, actions: seq<Action>, answers: set<Answer>): Receiver
    requires IsRun(s, actions, answers)
    decreases |actions|
  {
    if actions == [] then s else End(Step(s, actions[0]), actions[1..], answers)
  }

  ghost predicate Reachable(s: Receiver, answers: set<Answer>) {
    exists actions: seq<Action> :: IsRun(Begin(), actions, answers) && End(Begin(), actions, answers) == s
  }

  // ---------- what every step keeps ----------

  /** The loop thread or the kernel drives reading, never both, and one read at a time. */
  predicate OneReader(s: Receiver) {
    (if s.due then 1 else 0) + (if s.flight then 1 else 0) + |s.packet| <= 1
  }

  predicate Alive(s: Receiver) { s.due || s.flight || s.packet != [] }

  /** The bytes kept, while a read is outstanding or its packet waits. */
  function Kept(s: Receiver): Bytes {
    var r := s.chan.read;
    if s.flight then Resize(r.buffer, r.offset)
    else if s.packet != [] then Resize(r.buffer, r.offset + s.packet[0])
    else r.buffer
  }

  predicate Outstanding(s: Receiver) {
    var r := s.chan.read;
    && (s.flight || s.packet != [] ==> r.kind == Read)
    && (s.flight ==> |r.buffer| == r.offset + BUFFER_SIZE)
    && (s.packet != [] ==> r.offset + s.packet[0] <= |r.buffer|)
  }

  /** A message is queued when it is complete: what is queued and kept is the parse of what came,
      but for a chunk whose packet still waits. */
  predicate Parsing(s: Receiver) {
    var p := Parse(s.got);
    if s.packet == [] then p == Parsed(s.chan.receiveQueue, Kept(s)) || !Alive(s)
    else p == Parsed(s.chan.receiveQueue + Parse(Kept(s)).messages, Parse(Kept(s)).rest)
  }

  predicate Inv(s: Receiver, answers: set<Answer>) {
    && s.chan.connected && OneReader(s) && Outstanding(s) && Parsing(s)
    && (s.due ==> !s.chan.read.isPending)
    && (Refused !in answers ==> Alive(s))
  }

  lemma ReceiveKeepsInv(s: Receiver, answer: Answer, chunk: Bytes, answers: set<Answer>)
    requires Inv(s, answers) && s.due && |chunk| <= BUFFER_SIZE && answer in answers
    ensures Inv(ReceiveWith(s, answer, chunk), answers)
  {
    var t := ReceiveWith(s, answer, chunk);
    var r := s.chan.read;
    ReadAppendsChunk(r, chunk, Routine.ReceiveCompleted, answer);
    match answer
    case Pending => assert Kept(t) == r.buffer;
    case AtOnce =>
      assert Kept(t) == r.buffer + chunk;
      ParseAppend(s.got, chunk);
    case Refused =>
  }

  lemma ArriveKeepsInv(s: Receiver, chunk: Bytes, answers: set<Answer>)
    requires Inv(s, answers) && Enabled(s, Arrive(chunk))
    ensures Inv(Step(s, Arrive(chunk)), answers)
  {
    var t := Step(s, Arrive(chunk));
    assert Kept(t) == Kept(s) + chunk;
    ParseAppend(s.got, chunk);
  }

  lemma TakeKeepsInv(s: Receiver, answers: set<Answer>)
    requires Inv(s, answers) && s.packet != []
    ensures Inv(Step(s, TakePacket), answers)
  {
    CutAllIs(ReadUpdated(s.chan, true, s.packet[0]), Kept(s));
  }

  lemma StepKeepsInv(s: Receiver, a: Action, answers: set<Answer>)
    requires Inv(s, answers) && Enabled(s, a) && Allowed(a, answers)
    ensures Inv(Step(s, a), answers)
  {
    match a
    case RunReceive(answer, chunk) => ReceiveKeepsInv(s, answer, chunk, answers);
    case Arrive(chunk) => ArriveKeepsInv(s, chunk, answers);
    case TakePacket => TakeKeepsInv(s, answers);
  }

  lemma {:induction false} RunKeepsInv(s: Receiver, actions: seq<Action>, answers: set<Answer>)
    requires Inv(s, answers) && IsRun(s, actions, answers)
    ensures Inv(End(s, actions, answers), answers)
    decreases |actions|
  {
    if actions != [] {
      StepKeepsInv(s, actions[0], answers);
      RunKeepsInv(Step(s, actions[0]), actions[1..], answers);
    }
  }

  lemma ReachableInv(s: Receiver, answers: set<Answer>)
    requires Reachable(s, answers)
    ensures Inv(s, answers)
  {
    var actions: seq<Action> :| IsRun(Begin(), actions, answers) && End(Begin(), actions, answers) == s;
    RunKeepsInv(Begin(), actions, answers);
  }

  /** The kernel is not held back: a read may be answered in any way, and a pending one may bring
      any chunk up to the buffer size. */
  lemma KernelIsFree(s: Receiver, answers: set<Answer>, answer: Answer, chunk: Bytes)
    requires Inv(s, answers) && |chunk| <= BUFFER_SIZE
    ensures s.due ==> Enabled(s, RunReceive(answer, chunk))
    ensures s.flight ==> Enabled(s, Arrive(chunk))
    ensures s.packet != [] ==> Enabled(s, TakePacket)
  {
  }

  // ---------- the promises ----------

  /** Whatever the answers: one read at a time, and whenever the loop thread is about to read again
      the messages queued and the bytes kept are the parse of all bytes read. */
  lemma ReadsParseWhateverAnswers(s: Receiver, answers: set<Answer>)
    requires Reachable(s, answers)
    ensures OneReader(s)
    ensures s.due ==> Parse(s.got) == Parsed(s.chan.receiveQueue, s.chan.read.buffer)
  {
    ReachableInv(s, answers);
  }

  /** Reading never comes to an end if and only if no read is refused. */
  lemma ReadingGoesOnIff(answers: set<Answer>)
    ensures (forall s: Receiver :: Reachable(s, answers) ==> Alive(s)) <==> Refused !in answers
  {
    if Refused in answers {
      var a := RunReceive(Refused, []);
      var s := Step(Begin(), a);
      assert [a][1..] == [];
      assert IsRun(s, [], answers) && End(s, [], answers) == s;
      assert IsRun(Begin(), [a], answers) && End(Begin(), [a], answers) == s;
      assert Reachable(s, answers) && !Alive(s);
    } else {
      forall s: Receiver | Reachable(s, answers)
        ensures Alive(s)
      {
        ReachableInv(s, answers);
      }
    }
  }
}
