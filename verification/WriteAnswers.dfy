/** The sending side of a connected, unbroken pipe when the kernel may answer `WriteFile` in any
    of its ways: pending, done at once, or refused.

    The pending mark is set only for the first answer, yet the first two are followed by a packet.
    Three promises of the sender are each shown to depend on which answers are possible. */
module WriteAnswers {
  import opened Frames
  import opened FileIo
  import opened PipeChannel

  /** `callers` have pushed a message and not yet dispatched `send`; `due` are runs of `send` to
      come; `flight` are frames whose write is pending in the kernel; `packets` wait on the port.
      `accepted` are the frames that the kernel took, `overwritten` tells that the buffer of a
      pending write was replaced. */
  datatype Sender = Sender(
    chan: Channel, callers: nat, due: nat, flight: seq<Bytes>, packets: nat,
    submitted: seq<Bytes>, accepted: seq<Bytes>, overwritten: bool)

  datatype Action =
    | Submit(message: Bytes)
    | Dispatch
    | RunSend(answer: Answer)
    | Finish(at: nat)
    | TakePacket(count: nat, answer: Answer)

  /** `connect_completed` sends first. */
  function Begin(): Sender {
    Sender(Channel(true, [], [], FRESH_CONTEXT, FRESH_CONTEXT, []), 0, 1, [], 0, [], [], false)
  }

  predicate Enabled(s: Sender, a: Action) {
    match a
    case Submit(_) => true
    case Dispatch => s.callers > 0
    case RunSend(_) => s.due > 0
    case Finish(at) => at < |s.flight|
    case TakePacket(_, _) => s.packets > 0
  }

  /** One run of `send`. */
  function SendWith(s: Sender, answer: Answer): Sender {
    if !StartsSend(s.chan) then s
    else
      var frame := s.chan.sendQueue[0];
      s.(chan := SendAnswered(s.chan, answer),
         flight := if answer == Pending then s.flight + [frame] else s.flight,
         packets := if answer == AtOnce then s.packets + 1 else s.packets,
         accepted := if answer == Refused then s.accepted else s.accepted + [frame],
         overwritten := s.overwritten || s.flight != [])
  }

  function Step(s: Sender, a: Action): Sender
    requires Enabled(s, a)
  {
    match a
    case Submit(m) =>
      s.(chan := s.chan.(sendQueue := s.chan.sendQueue + [m]), submitted := s.submitted + [m], callers := s.callers + 1)
    case Dispatch => s.(callers := s.callers - 1, due := s.due + 1)
    case RunSend(answer) => SendWith(s.(due := s.due - 1), answer)
    case Finish(at) => s.(flight := s.flight[..at] + s.flight[at + 1..], packets := s.packets + 1)
    case TakePacket(count, answer) =>
      SendWith(s.(packets := s.packets - 1, chan := WriteUpdated(s.chan, true, count)), answer)
  }

  /** The answers that a kernel may give. */
  predicate Allowed(a: Action, answers: set<Answer>) {
    (a.RunSend? ==> a.answer in answers) && (a.TakePacket? ==> a.answer in answers)
  }

  predicate IsRun(s: Sender, actions: seq<Action>, answers: set<Answer>)
    decreases |actions|
  {
    actions == []
    || (Enabled(s, actions[0]) && Allowed(actions[0], answers) && IsRun(Step(s, actions[0]), actions[1..], answers))
  }

  function End(s: Sender, actions: seq<Action>, answers: set<Answer>): Sender
    requires IsRun(s, actions, answers)
    decreases |actions|
  {
    if actions == [] then s else End(Step(s, actions[0]), actions[1..], answers)
  }

  ghost predicate Reachable(s: Sender, answers: set<Answer>) {
    exists actions: seq<Action> :: IsRun(Begin(), actions, answers) && End(Begin(), actions, answers) == s
  }

  lemma BeginReachable(answers: set<Answer>)
    ensures Reachable(Begin(), answers)
  {
    assert IsRun(Begin(), [], answers) && End(Begin(), [], answers) == Begin();
  }

  lemma {:induction false} RunThen(s: Sender, actions: seq<Action>, a: Action, answers: set<Answer>)
    requires IsRun(s, actions, answers) && Enabled(End(s, actions, answers), a) && Allowed(a, answers)
    ensures IsRun(s, actions + [a], answers)
    ensures End(s, actions + [a], answers) == Step(End(s, actions, answers), a)
    decreases |actions|
  {
    if actions == [] {
      var one := actions + [a];
      assert one[0] == a && one[1..] == [];
      assert IsRun(Step(s, a), one[1..], answers) && End(Step(s, a), one[1..], answers) == Step(s, a);
    } else {
      assert (actions + [a])[0] == actions[0] && (actions + [a])[1..] == actions[1..] + [a];
      RunThen(Step(s, actions[0]), actions[1..], a, answers);
    }
  }

  lemma ReachableOn(s: Sender, a: Action, answers: set<Answer>)
    requires Reachable(s, answers) && Enabled(s, a) && Allowed(a, answers)
    ensures Reachable(Step(s, a), answers)
  {
    var actions: seq<Action> :| IsRun(Begin(), actions, answers) && End(Begin(), actions, answers) == s;
    RunThen(Begin(), actions, a, answers);
  }

  // ---------- what every step keeps ----------

  predicate Writing(s: Sender) {
    var w := s.chan.write;
    s.chan.connected && (w.kind == IoType.Write || (w == FRESH_CONTEXT && s.packets == 0 && s.flight == []))
  }

  /** Every frame accepted or queued was submitted, in that order; none is missing unless some
      write was refused. */
  predicate NoneLost(s: Sender) { s.accepted + s.chan.sendQueue == s.submitted }

  /** Somebody is on the way to send. */
  predicate Awake(s: Sender) { s.callers > 0 || s.due > 0 || s.flight != [] || s.packets > 0 }

  predicate Marked(s: Sender) { s.chan.write.isPending ==> s.flight != [] || s.packets > 0 }

  /** What holds for each way in which answers may be restricted. */
  predicate Inv(s: Sender, answers: set<Answer>) {
    && Writing(s) && Marked(s)
    && (AtOnce !in answers ==> !s.overwritten && |s.flight| + s.packets == if s.chan.write.isPending then 1 else 0)
    && (Pending !in answers ==>
          && !s.overwritten && s.flight == [] && !s.chan.write.isPending
          && |s.chan.sendQueue| <= s.callers + s.due + s.packets)
    && (Refused !in answers ==> NoneLost(s) && (s.chan.sendQueue != [] ==> Awake(s)))
  }

  lemma SendKeepsInv(s: Sender, answer: Answer, answers: set<Answer>)
    requires answer in answers && Writing(s)
    requires AtOnce !in answers ==> !s.overwritten && |s.flight| + s.packets == if s.chan.write.isPending then 1 else 0
    requires Pending !in answers ==> !s.overwritten && s.flight == [] && !s.chan.write.isPending
    requires Pending !in answers ==> |s.chan.sendQueue| <= s.callers + s.due + s.packets + 1
    requires Refused !in answers ==> NoneLost(s)
    requires Marked(s)
    ensures Inv(SendWith(s, answer), answers)
  {
    var q := s.chan.sendQueue;
    if StartsSend(s.chan) {
      assert (s.accepted + [q[0]]) + q[1..] == s.accepted + q;
    }
  }

  lemma StepKeepsInv(s: Sender, a: Action, answers: set<Answer>)
    requires Inv(s, answers) && Enabled(s, a) && Allowed(a, answers)
    ensures Inv(Step(s, a), answers)
  {
    match a
    case Submit(m) => assert (s.accepted + s.chan.sendQueue) + [m] == s.accepted + (s.chan.sendQueue + [m]);
    case RunSend(answer) => SendKeepsInv(s.(due := s.due - 1), answer, answers);
    case TakePacket(count, answer) =>
      SendKeepsInv(s.(packets := s.packets - 1, chan := WriteUpdated(s.chan, true, count)), answer, answers);
    case _ =>
  }

  lemma {:induction false} RunKeepsInv(s: Sender, actions: seq<Action>, answers: set<Answer>)
    requires Inv(s, answers) && IsRun(s, actions, answers)
    ensures Inv(End(s, actions, answers), answers)
    decreases |actions|
  {
    if actions != [] {
      StepKeepsInv(s, actions[0], answers);
      RunKeepsInv(Step(s, actions[0]), actions[1..], answers);
    }
  }

  lemma ReachableInv(s: Sender, answers: set<Answer>)
    requires Reachable(s, answers)
    ensures Inv(s, answers)
  {
    var actions: seq<Action> :| IsRun(Begin(), actions, answers) && End(Begin(), actions, answers) == s;
    RunKeepsInv(Begin(), actions, answers);
  }

  // ---------- runs that break the promises ----------

  /** A message submitted three times, each caller's run of `send` still due. */
  function Three(m: Bytes): Sender {
    Begin().(chan := Begin().chan.(sendQueue := [m, m, m]), submitted := [m, m, m], due := 4)
  }

  lemma ThreeSubmitted(m: Bytes, answers: set<Answer>)
    ensures Reachable(Three(m), answers)
  {
    BeginReachable(answers);
    var s1 := Step(Begin(), Submit(m));
    assert [] + [m] == [m];
    ReachableOn(Begin(), Submit(m), answers);
    ReachableOn(s1, Dispatch, answers);
    var s2 := Step(s1, Dispatch);
    assert s2 == Begin().(chan := Begin().chan.(sendQueue := [m]), submitted := [m], due := 2);
    ReachableOn(s2, Submit(m), answers);
    var s3 := Step(s2, Submit(m));
    assert [m] + [m] == [m, m];
    ReachableOn(s3, Dispatch, answers);
    var s4 := Step(s3, Dispatch);
    assert s4 == Begin().(chan := Begin().chan.(sendQueue := [m, m]), submitted := [m, m], due := 3);
    ReachableOn(s4, Submit(m), answers);
    var s5 := Step(s4, Submit(m));
    assert [m, m] + [m] == [m, m, m];
    ReachableOn(s5, Dispatch, answers);
    assert Step(s5, Dispatch) == Three(m);
  }

  /** A write done at once, a second one pending; the packet of the first clears the mark of the
      second, and the third frame takes its buffer. */
  lemma BufferReplaced(m: Bytes, answers: set<Answer>)
    requires Pending in answers && AtOnce in answers
    ensures exists s: Sender :: Reachable(s, answers) && s.overwritten
  {
    ThreeSubmitted(m, answers);
    var s0 := Three(m);
    var s1 := Step(s0, RunSend(AtOnce));
    ReachableOn(s0, RunSend(AtOnce), answers);
    assert s1.chan.sendQueue == [m, m] && !s1.chan.write.isPending && s1.packets == 1;
    var s2 := Step(s1, RunSend(Pending));
    ReachableOn(s1, RunSend(Pending), answers);
    assert s2.chan.sendQueue == [m] && s2.flight == [m] && s2.packets == 1 && s2.chan.write.kind == IoType.Write;
    ReachableOn(s2, TakePacket(0, Pending), answers);
    assert Step(s2, TakePacket(0, Pending)).overwritten;
  }

  lemma FrameRefused(m: Bytes, answers: set<Answer>)
    requires Refused in answers
    ensures exists s: Sender :: Reachable(s, answers) && !NoneLost(s)
  {
    ThreeSubmitted(m, answers);
    var s0 := Three(m);
    var s1 := Step(s0, RunSend(Refused));
    ReachableOn(s0, RunSend(Refused), answers);
    assert s1.accepted + s1.chan.sendQueue == [m, m];
  }

  /** While a write is pending, runs of `send` come to nothing. */
  lemma {:induction false} IdleSends(s: Sender, answers: set<Answer>)
    requires Reachable(s, answers) && Pending in answers && s.chan.write.isPending
    ensures Reachable(s.(due := 0), answers)
    decreases s.due
  {
    if s.due == 0 {
      assert s.(due := 0) == s;
    } else {
      ReachableOn(s, RunSend(Pending), answers);
      assert Step(s, RunSend(Pending)) == s.(due := s.due - 1);
      IdleSends(s.(due := s.due - 1), answers);
    }
  }

  /** The packet of a write sends the next message, which is refused. */
  lemma NextRefused(s: Sender, m: Bytes, answers: set<Answer>)
    requires Reachable(s, answers) && Refused in answers
    requires s.chan.connected && s.chan.write.kind == IoType.Write && s.chan.sendQueue == [m, m]
    requires s.flight == [m] && s.packets == 0 && s.callers == 0 && s.due == 0
    ensures exists t: Sender :: Reachable(t, answers) && t.chan.sendQueue != [] && !Awake(t)
  {
    ReachableOn(s, Finish(0), answers);
    var done := s.(flight := [], packets := 1);
    assert Step(s, Finish(0)) == done;
    ReachableOn(done, TakePacket(0, Refused), answers);
    var t := Step(done, TakePacket(0, Refused));
    assert t.chan.sendQueue == [m] && !Awake(t);
  }

  /** While the first write is pending, the runs of `send` for the others find the mark set; the
      packet of the first sends the second, which is refused, and nobody sends the third. */
  lemma MessageStranded(m: Bytes, answers: set<Answer>)
    requires Pending in answers && Refused in answers
    ensures exists s: Sender :: Reachable(s, answers) && s.chan.sendQueue != [] && !Awake(s)
  {
    ThreeSubmitted(m, answers);
    ReachableOn(Three(m), RunSend(Pending), answers);
    var s := Step(Three(m), RunSend(Pending));
    assert s.chan.sendQueue == [m, m] && s.flight == [m] && s.chan.write.isPending;
    IdleSends(s, answers);
    NextRefused(s.(due := 0), m, answers);
  }

  // ---------- the promises, exactly ----------

  /** The buffer of a pending write stays in every run if and only if the kernel does not both
      leave writes pending and finish writes at once. */
  lemma BufferKeptIff(answers: set<Answer>)
    ensures (forall s: Sender :: Reachable(s, answers) ==> !s.overwritten)
       <==> !(Pending in answers && AtOnce in answers)
  {
    if Pending in answers && AtOnce in answers {
      BufferReplaced([], answers);
    } else {
      forall s: Sender | Reachable(s, answers)
        ensures !s.overwritten
      {
        ReachableInv(s, answers);
      }
    }
  }

  /** No frame is lost on the way to the kernel if and only if no write is refused. */
  lemma NoneLostIff(answers: set<Answer>)
    ensures (forall s: Sender :: Reachable(s, answers) ==> NoneLost(s)) <==> Refused !in answers
  {
    if Refused in answers {
      FrameRefused([], answers);
    } else {
      forall s: Sender | Reachable(s, answers)
        ensures NoneLost(s)
      {
        ReachableInv(s, answers);
      }
    }
  }

  /** While a message is queued somebody is on the way to send it, if and only if the kernel does
      not both leave writes pending and refuse writes. */
  lemma AwakeIff(answers: set<Answer>)
    ensures (forall s: Sender :: Reachable(s, answers) && s.chan.sendQueue != [] ==> Awake(s))
       <==> !(Pending in answers && Refused in answers)
  {
    if Pending in answers && Refused in answers {
      MessageStranded([], answers);
    } else {
      forall s: Sender | Reachable(s, answers) && s.chan.sendQueue != []
        ensures Awake(s)
      {
        ReachableInv(s, answers);
      }
    }
  }
}
