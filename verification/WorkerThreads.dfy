/** `worker_service` and `io_completion_worker` with any number of threads.

    One step is one access to shared state: taking or releasing the mutex, one use of the
    queue, of the flag, of the condition variable, or of the completion port.  Atomics are
    sequentially consistent. */
module WorkerThreads {
  import opened Threads

  /** A task, known by its number. */
  type Task = nat

  /** Where a thread is.  `back` is what a call made from inside a task returns to;
      `loop` tells `do_work` under `run_loop` from `do_work` under `run_one`. */
  datatype Pc =
    | Idle
    | DispatchLock(task: Task, back: Pc)
    | Pushing(task: Task, back: Pc)
    | Pushed(back: Pc)
    | Notified(back: Pc)
    | Posting(back: Pc)
    | QuitNotify(back: Pc)
    | LoopTest
    | LoopLock
    | LoopPredicate
    | LoopBlock
    | Asleep
    | Woken
    | OneLock
    | WorkTest(loop: bool)
    | WorkPop(loop: bool)
    | WorkRun(task: Task, loop: bool)
    | WorkLock(loop: bool)

  /** `posts`: the queue belongs to an `io_completion_worker`, so each dispatch also posts a
      packet.  `pushed` and `taken` are histories; `limit` is set when the flag is. */
  datatype State = State(
    posts: bool,
    queue: seq<Task>, quit: bool, owner: Option<Thread>, packets: nat,
    pcs: map<Thread, Pc>,
    pushed: seq<Task>, taken: seq<Task>, limit: nat)

  datatype Call = DispatchCall(task: Task) | RunLoopCall | RunOneCall | PacketCall | QuitCall

  /** `other` is the sleeper a `notify_one` picks, if there is one. */
  datatype Action = Begin(t: Thread, call: Call) | Advance(t: Thread, other: Thread)

  function Start(posts: bool): State {
    State(posts, [], false, None, 0, map[], [], [], 0)
  }

  function At(s: State, t: Thread): Pc {
    if t in s.pcs then s.pcs[t] else Idle
  }

  predicate Owns(pc: Pc) {
    pc.Pushing? || pc.Pushed? || pc.Notified? || pc.LoopPredicate? || pc.LoopBlock? || pc.WorkTest? || pc.WorkPop?
  }

  predicate WantsLock(pc: Pc) {
    pc.DispatchLock? || pc.LoopLock? || pc.Woken? || pc.OneLock? || pc.WorkLock?
  }

  /** One task is about to be popped by the thread that holds the mutex. */
  function PopsDue(s: State): nat {
    if s.owner.Some? && At(s, s.owner.value).WorkPop? then 1 else 0
  }

  // ---------- steps ----------

  ghost predicate Enabled(s: State, a: Action) {
    var pc := At(s, a.t);
    match a
    case Begin(t, call) =>
      if call.DispatchCall? || call.QuitCall? then pc.Idle? || pc.WorkRun?
      else pc.Idle? && (call.PacketCall? ==> s.packets > 0)
    case Advance(t, other) =>
      && !pc.Idle?
      && (WantsLock(pc) ==> s.owner.None?)
      && (pc.Pushed? && (exists u: Thread :: At(s, u).Asleep?) ==> At(s, other).Asleep?)
  }

  /** Where the acting thread goes. */
  function NextPc(s: State, a: Action): Pc {
    var pc := At(s, a.t);
    match a
    case Begin(t, call) =>
      (match call
       case DispatchCall(task) => DispatchLock(task, pc)
       case RunLoopCall => LoopTest
       case RunOneCall => OneLock
       case PacketCall => OneLock
       case QuitCall => QuitNotify(pc))
    case Advance(t, other) =>
      match pc
      case Idle => Idle
      case DispatchLock(task, back) => Pushing(task, back)
      case Pushing(task, back) => Pushed(back)
      case Pushed(back) => Notified(back)
      case Notified(back) => if s.posts then Posting(back) else back
      case Posting(back) => back
      case QuitNotify(back) => back
      case LoopTest => if s.quit then Idle else LoopLock
      case LoopLock => LoopPredicate
      case LoopPredicate => if s.queue != [] || s.quit then WorkTest(true) else LoopBlock
      case LoopBlock => Asleep
      case Asleep => Woken   // spurious
      case Woken => LoopPredicate
      case OneLock => WorkTest(false)
      case WorkTest(loop) =>
        if s.queue != [] && !s.quit then WorkPop(loop) else if loop then LoopTest else Idle
      case WorkPop(loop) => if s.queue == [] then pc else WorkRun(s.queue[0], loop)   // never empty: see Mutex
      case WorkRun(task, loop) => WorkLock(loop)
      case WorkLock(loop) => WorkTest(loop)
  }

  /** What happens to the mutex, the queue, the flag and the port. */
  function Effect(s: State, a: Action): State
    requires a.Begin? && a.call.PacketCall? ==> s.packets > 0
  {
    var pc := At(s, a.t);
    if a.Begin? then
      if a.call.PacketCall? then s.(packets := s.packets - 1)
      else if a.call.QuitCall? && !s.quit then s.(quit := true, limit := |s.taken| + PopsDue(s))
      else s
    else if WantsLock(pc) then s.(owner := Some(a.t))
    else if pc.Pushing? then s.(queue := s.queue + [pc.task], pushed := s.pushed + [pc.task])
    else if pc.Notified? || pc.LoopBlock? then s.(owner := None)
    else if pc.Posting? then s.(packets := s.packets + 1)
    else if pc.WorkTest? && (s.queue == [] || s.quit) then s.(owner := None)
    else if pc.WorkPop? && s.queue != [] then
      s.(owner := None, queue := s.queue[1..], taken := s.taken + [s.queue[0]])
    else s
  }

  /** `notify_one` wakes the chosen sleeper, `notify_all` wakes all. */
  function Wake(s: State, a: Action): map<Thread, Pc> {
    var pc := At(s, a.t);
    if a.Advance? && pc.Pushed? && At(s, a.other).Asleep? then s.pcs[a.other := Woken]
    else if a.Advance? && pc.QuitNotify? then map u | u in s.pcs :: if s.pcs[u].Asleep? then Woken else s.pcs[u]
    else s.pcs
  }

  ghost function Step(s: State, a: Action): State
    requires Enabled(s, a)
  {
    Effect(s, a).(pcs := Wake(s, a)[a.t := NextPc(s, a)])
  }

  // ---------- what every step keeps ----------

  /** The call returned to is a task or the idle thread, so a nested call never holds the mutex. */
  predicate BackOk(pc: Pc) {
    (pc.DispatchLock? || pc.Pushing? || pc.Pushed? || pc.Notified? || pc.Posting? || pc.QuitNotify?)
    ==> pc.back.Idle? || pc.back.WorkRun?
  }

  /** Inside `run_loop`, possibly in a call made by one of its tasks. */
  predicate InLoop(pc: Pc) {
    match pc
    case DispatchLock(_, back) => InLoop(back)
    case Pushing(_, back) => InLoop(back)
    case Pushed(back) => InLoop(back)
    case Notified(back) => InLoop(back)
    case Posting(back) => InLoop(back)
    case QuitNotify(back) => InLoop(back)
    case WorkTest(loop) => loop
    case WorkPop(loop) => loop
    case WorkRun(_, loop) => loop
    case WorkLock(loop) => loop
    case Idle => false
    case OneLock => false
    case _ => true
  }

  /** Inside `do_work` or about to enter it: will look at the queue under the mutex again. */
  predicate WillTest(pc: Pc) {
    match pc
    case DispatchLock(_, back) => WillTest(back)
    case Pushing(_, back) => WillTest(back)
    case Pushed(back) => WillTest(back)
    case Notified(back) => WillTest(back)
    case Posting(back) => WillTest(back)
    case QuitNotify(back) => WillTest(back)
    case OneLock => true
    case WorkTest(_) => true
    case WorkPop(_) => true
    case WorkRun(_, _) => true
    case WorkLock(_) => true
    case _ => false
  }

  predicate WillPost(pc: Pc) { pc.Pushed? || pc.Notified? || pc.Posting? }

  predicate AwakeRunner(pc: Pc) { InLoop(pc) && !pc.Asleep? }

  ghost predicate Mutex(s: State) {
    && (forall t: Thread :: BackOk(At(s, t)))
    && (forall t: Thread :: Owns(At(s, t)) <==> s.owner == Some(t))
  }

  /** What the mutex protects: the queue is as its holder last saw it. */
  ghost predicate Seen(s: State) {
    && (forall t: Thread :: At(s, t).LoopBlock? ==> s.queue == [])
    && (forall t: Thread :: At(s, t).WorkPop? ==> s.queue != [])
  }

  ghost predicate Accounts(s: State) {
    && s.taken + s.queue == s.pushed
    && (s.quit ==> |s.taken| + PopsDue(s) <= s.limit)
  }

  ghost predicate NoLostWakeup(s: State) {
    !s.quit && s.queue != [] && (exists t: Thread :: InLoop(At(s, t))) ==>
      || (exists t: Thread :: AwakeRunner(At(s, t)))
      || (exists t: Thread :: At(s, t).Pushed?)
  }

  ghost predicate NoLostTask(s: State) {
    s.posts && !s.quit && s.queue != [] ==>
      || s.packets > 0
      || (exists t: Thread :: WillPost(At(s, t)))
      || (exists t: Thread :: WillTest(At(s, t)))
  }

  ghost predicate Inv(s: State) {
    Mutex(s) && Seen(s) && Accounts(s) && NoLostWakeup(s) && NoLostTask(s)
  }

  /** Between the two states only `t` moved; other threads stayed, or were woken. */
  ghost predicate Moved(s: State, s': State, t: Thread) {
    forall u: Thread :: u != t ==> At(s', u) == At(s, u) || (At(s, u).Asleep? && At(s', u).Woken?)
  }

  lemma StepMoves(s: State, a: Action)
    requires Enabled(s, a)
    ensures At(Step(s, a), a.t) == NextPc(s, a) && Moved(s, Step(s, a), a.t)
  {
  }

  /** A thread holds the mutex exactly in the places marked by `Owns`. */
  lemma LockDiscipline(s: State, a: Action)
    requires Mutex(s) && Enabled(s, a)
    ensures BackOk(NextPc(s, a))
    ensures var before, now := s.owner, Effect(s, a).owner;
            && (Owns(NextPc(s, a)) <==> now == Some(a.t))
            && (now == before || (before == None && now == Some(a.t)) || (before == Some(a.t) && now == None))
  {
    assert BackOk(At(s, a.t)) && (Owns(At(s, a.t)) <==> s.owner == Some(a.t));
  }

  lemma MutexStep(s: State, a: Action)
    requires Mutex(s) && Enabled(s, a)
    ensures Mutex(Step(s, a))
  {
    LockDiscipline(s, a);
    StepMoves(s, a);
    MutexMoved(s, Step(s, a), a.t);
  }

  lemma MutexMoved(s: State, s': State, t: Thread)
    requires Mutex(s) && BackOk(At(s', t)) && (Owns(At(s', t)) <==> s'.owner == Some(t))
    requires s'.owner == s.owner || (s.owner == None && s'.owner == Some(t)) || (s.owner == Some(t) && s'.owner == None)
    requires Moved(s, s', t)
    ensures Mutex(s')
  {
  }

  lemma SeenStep(s: State, a: Action)
    requires Mutex(s) && Seen(s) && Enabled(s, a)
    ensures Seen(Step(s, a))
  {
    StepMoves(s, a);
  }

  /** The mutex lets at most one thread be past the loop test of `do_work`; the flag lets no
      further thread past it. */
  lemma PopsDueStep(s: State, a: Action)
    requires Mutex(s) && Seen(s) && Enabled(s, a) && s.quit
    ensures |Effect(s, a).taken| + PopsDue(Step(s, a)) <= |s.taken| + PopsDue(s)
  {
    var s' := Step(s, a);
    LockDiscipline(s, a);
    StepMoves(s, a);
    assert BackOk(At(s, a.t)) && !NextPc(s, a).WorkPop?;
    if PopsDue(s') == 1 {
      assert s.owner == s'.owner && !Owns(At(s, a.t));
    }
  }

  /** Tasks leave the queue in the order in which they entered it. */
  lemma ConservationStep(s: State, a: Action)
    requires Enabled(s, a) && s.taken + s.queue == s.pushed
    ensures Effect(s, a).taken + Effect(s, a).queue == Effect(s, a).pushed
  {
    if s.queue != [] {
      assert (s.taken + [s.queue[0]]) + s.queue[1..] == s.taken + s.queue;
    }
  }

  lemma LimitStep(s: State, a: Action)
    requires Mutex(s) && Seen(s) && Enabled(s, a)
    requires s.quit ==> |s.taken| + PopsDue(s) <= s.limit
    ensures Step(s, a).quit ==> |Step(s, a).taken| + PopsDue(Step(s, a)) <= Step(s, a).limit
  {
    if s.quit {
      PopsDueStep(s, a);
    } else {
      LimitSet(s, a);
    }
  }

  lemma AccountsStep(s: State, a: Action)
    requires Mutex(s) && Seen(s) && Accounts(s) && Enabled(s, a)
    ensures Accounts(Step(s, a))
  {
    ConservationStep(s, a);
    LimitStep(s, a);
  }

  lemma LimitSet(s: State, a: Action)
    requires Mutex(s) && Enabled(s, a) && !s.quit
    ensures Step(s, a).quit ==> |Step(s, a).taken| + PopsDue(Step(s, a)) == Step(s, a).limit
  {
    StepMoves(s, a);
    assert BackOk(At(s, a.t)) && (Owns(At(s, a.t)) <==> s.owner == Some(a.t));
  }

  /** A runner leaves `run_loop` only on the flag, and sleeps only on an empty queue. */
  lemma RunnerStays(s: State, a: Action)
    requires Mutex(s) && Seen(s) && Enabled(s, a) && !s.quit && InLoop(At(s, a.t))
    ensures InLoop(NextPc(s, a))
    ensures NextPc(s, a).Asleep? ==> s.queue == []
  {
  }

  /** `notify_one` leaves a runner awake, if there are runners. */
  lemma NotifyWakes(s: State, a: Action, r: Thread)
    requires Enabled(s, a) && a.Advance? && At(s, a.t).Pushed? && InLoop(At(Step(s, a), r))
    ensures AwakeRunner(At(Step(s, a), r)) || AwakeRunner(At(Step(s, a), a.other))
  {
    StepMoves(s, a);
  }

  lemma WakeupStep(s: State, a: Action)
    requires Mutex(s) && Seen(s) && NoLostWakeup(s) && Enabled(s, a)
    ensures NoLostWakeup(Step(s, a))
  {
    var s' := Step(s, a);
    StepMoves(s, a);
    if !s'.quit && s'.queue != [] && exists t: Thread :: InLoop(At(s', t)) {
      var r: Thread :| InLoop(At(s', r));
      if InLoop(At(s, a.t)) {
        RunnerStays(s, a);
        assert AwakeRunner(At(s', a.t));
      } else if At(s, a.t).Pushed? {
        NotifyWakes(s, a, r);
      } else if s.queue == [] || r == a.t {
        assert At(s', a.t).Pushed? || AwakeRunner(At(s', a.t));
      } else {
        WakeupMoved(s, s', a.t, r);
      }
    }
  }

  lemma WakeupMoved(s: State, s': State, t: Thread, r: Thread)
    requires NoLostWakeup(s) && Moved(s, s', t) && !s.quit && s.queue != [] && r != t && InLoop(At(s', r))
    requires !InLoop(At(s, t)) && !At(s, t).Pushed?
    ensures (exists q: Thread :: AwakeRunner(At(s', q))) || (exists q: Thread :: At(s', q).Pushed?)
  {
    assert InLoop(At(s, r));
    if p: Thread :| At(s, p).Pushed? {
      assert At(s', p).Pushed?;
    } else {
      var q: Thread :| AwakeRunner(At(s, q));
      assert AwakeRunner(At(s', q));
    }
  }

  /** A thread due to look at the queue leaves only when there is nothing to see. */
  lemma WorkerStays(s: State, a: Action)
    requires Mutex(s) && Seen(s) && Enabled(s, a) && !s.quit && s.posts
    requires WillTest(At(s, a.t)) || WillPost(At(s, a.t)) || (s.queue == [] && Effect(s, a).queue != [])
    ensures WillTest(NextPc(s, a)) || WillPost(NextPc(s, a)) || Effect(s, a).queue == [] || Effect(s, a).packets > 0
  {
  }

  lemma TaskStep(s: State, a: Action)
    requires Mutex(s) && Seen(s) && NoLostTask(s) && Enabled(s, a)
    ensures NoLostTask(Step(s, a))
  {
    var s' := Step(s, a);
    StepMoves(s, a);
    if s'.posts && !s'.quit && s'.queue != [] && s'.packets == 0 {
      if WillTest(At(s, a.t)) || WillPost(At(s, a.t)) || s.queue == [] {
        WorkerStays(s, a);
      } else if WillTest(NextPc(s, a)) {
        assert WillTest(At(s', a.t));
      } else {
        TaskMoved(s, s', a.t);
      }
    }
  }

  lemma TaskMoved(s: State, s': State, t: Thread)
    requires NoLostTask(s) && Moved(s, s', t) && s.posts && !s.quit && s.queue != [] && s.packets == 0
    requires !WillTest(At(s, t)) && !WillPost(At(s, t))
    ensures (exists q: Thread :: WillPost(At(s', q))) || (exists q: Thread :: WillTest(At(s', q)))
  {
    if p: Thread :| WillPost(At(s, p)) {
      assert WillPost(At(s', p));
    } else {
      var q: Thread :| WillTest(At(s, q));
      assert WillTest(At(s', q));
    }
  }

  // ---------- runs ----------

  ghost predicate IsRun(s: State, actions: seq<Action>)
    decreases |actions|
  {
    actions == [] || (Enabled(s, actions[0]) && IsRun(Step(s, actions[0]), actions[1..]))
  }

  ghost function End(s: State, actions: seq<Action>): State
    requires IsRun(s, actions)
    decreases |actions|
  {
    if actions == [] then s else End(Step(s, actions[0]), actions[1..])
  }

  lemma StepKeepsInv(s: State, a: Action)
    requires Inv(s) && Enabled(s, a)
    ensures Inv(Step(s, a))
    ensures s.quit ==> Step(s, a).quit && Step(s, a).limit == s.limit
    ensures Step(s, a).posts == s.posts
  {
    MutexStep(s, a);
    SeenStep(s, a);
    AccountsStep(s, a);
    WakeupStep(s, a);
    TaskStep(s, a);
  }

  lemma {:induction false} RunKeepsInv(s: State, actions: seq<Action>)
    requires Inv(s) && IsRun(s, actions)
    ensures Inv(End(s, actions))
    ensures s.quit ==> End(s, actions).quit && End(s, actions).limit == s.limit
    ensures End(s, actions).posts == s.posts
    decreases |actions|
  {
    if actions != [] {
      StepKeepsInv(s, actions[0]);
      RunKeepsInv(Step(s, actions[0]), actions[1..]);
    }
  }

  lemma FromStart(posts: bool, actions: seq<Action>, s: State)
    requires s == Start(posts) && IsRun(s, actions)
    ensures Inv(End(s, actions)) && End(s, actions).posts == posts
  {
    RunKeepsInv(s, actions);
  }

  /** In every run, with any number of threads: the tasks taken are, in order, the first of
      those pushed, the rest are queued; and no thread runs a task while it holds the mutex. */
  lemma TasksConserved(posts: bool, actions: seq<Action>)
    requires IsRun(Start(posts), actions)
    ensures var s := End(Start(posts), actions);
            && s.taken + s.queue == s.pushed
            && forall t: Thread :: At(s, t).WorkRun? ==> s.owner != Some(t)
  {
    FromStart(posts, actions, Start(posts));
  }

  /** No wakeup is lost: while there is a task and `quit` was not called, not all runners of
      `run_loop` sleep, unless the dispatcher holding the mutex is about to wake one. */
  lemma RunnersWake(posts: bool, actions: seq<Action>)
    requires IsRun(Start(posts), actions)
    ensures var s := End(Start(posts), actions);
            !s.quit && s.queue != [] && (exists t: Thread :: InLoop(At(s, t))) ==>
              || (exists t: Thread :: InLoop(At(s, t)) && !At(s, t).Asleep?)
              || (s.owner.Some? && At(s, s.owner.value).Pushed?)
  {
    FromStart(posts, actions, Start(posts));
    var s := End(Start(posts), actions);
    if p: Thread :| At(s, p).Pushed? {
      assert Owns(At(s, p));
    } else if q: Thread :| AwakeRunner(At(s, q)) {
      assert InLoop(At(s, q)) && !At(s, q).Asleep?;
    }
  }

  /** Whoever goes to sleep holds the mutex and sees an empty queue while falling asleep. */
  lemma SleepersSawEmptyQueue(posts: bool, actions: seq<Action>, a: Action)
    requires IsRun(Start(posts), actions) && Enabled(End(Start(posts), actions), a)
    ensures var s := End(Start(posts), actions);
            forall t: Thread :: !At(s, t).Asleep? && At(Step(s, a), t).Asleep? ==>
              s.queue == [] && s.owner == Some(t)
  {
    FromStart(posts, actions, Start(posts));
    FallingAsleep(End(Start(posts), actions), a);
  }

  lemma FallingAsleep(s: State, a: Action)
    requires Mutex(s) && Seen(s) && Enabled(s, a)
    ensures forall t: Thread :: !At(s, t).Asleep? && At(Step(s, a), t).Asleep? ==>
              s.queue == [] && s.owner == Some(t)
  {
    StepMoves(s, a);
    assert BackOk(At(s, a.t)) && (Owns(At(s, a.t)) <==> s.owner == Some(a.t));
  }

  /** With an idle port and no thread inside a call, every task dispatched to an
      `io_completion_worker` was taken. */
  lemma IdlePortTookAll(actions: seq<Action>)
    requires IsRun(Start(true), actions)
    ensures var s := End(Start(true), actions);
            !s.quit && s.packets == 0 && (forall t: Thread :: At(s, t).Idle?) ==> s.taken == s.pushed
  {
    FromStart(true, actions, Start(true));
    var s := End(Start(true), actions);
    assert s.queue == [] ==> s.taken + s.queue == s.taken;
  }

  /** Before that, a queued task is always on somebody's way. */
  lemma QueuedTaskIsDue(actions: seq<Action>)
    requires IsRun(Start(true), actions)
    ensures var s := End(Start(true), actions);
            !s.quit && s.queue != [] ==>
              || s.packets > 0
              || (exists t: Thread :: WillPost(At(s, t)))
              || (exists t: Thread :: WillTest(At(s, t)))
  {
    FromStart(true, actions, Start(true));
  }

  /** Once `quit` has set the flag, at most one more task is taken in all: the one that the
      holder of the mutex was about to pop. */
  lemma AtMostOneTaskAfterQuit(posts: bool, before: seq<Action>, after: seq<Action>)
    requires IsRun(Start(posts), before)
    requires !End(Start(posts), before).quit
    requires after != [] && IsRun(End(Start(posts), before), after)
    requires after[0].Begin? && after[0].call.QuitCall?
    ensures var s := End(Start(posts), before);
            |End(s, after).taken| <= |s.taken| + PopsDue(s)
  {
    var s := End(Start(posts), before);
    FromStart(posts, before, Start(posts));
    RunKeepsInv(s, [after[0]]);
    RunKeepsInv(Step(s, after[0]), after[1..]);
  }

  // ---------- progress ----------

  /** While some thread is inside a call, some thread can go on. */
  lemma SomeoneGoesOn(s: State, t: Thread)
    requires Mutex(s) && !At(s, t).Idle?
    ensures exists u: Thread, other: Thread :: Enabled(s, Advance(u, other))
  {
    var u := if s.owner.Some? then s.owner.value else t;
    assert s.owner.Some? ==> Owns(At(s, u));
    if At(s, u).Pushed? && exists v: Thread :: At(s, v).Asleep? {
      var v: Thread :| At(s, v).Asleep?;
      assert Enabled(s, Advance(u, v));
    } else {
      assert Enabled(s, Advance(u, u));
    }
  }

  /** `t` alone takes `s` to `s'`, making no call. */
  ghost predicate Leads(s: State, t: Thread, s': State) {
    exists actions: seq<Action> ::
      IsRun(s, actions) && End(s, actions) == s' && forall a :: a in actions ==> a.Advance? && a.t == t
  }

  lemma LeadsNowhere(s: State, t: Thread)
    ensures Leads(s, t, s)
  {
    assert IsRun(s, []) && End(s, []) == s;
  }

  lemma LeadsFirst(s: State, t: Thread, other: Thread, s': State)
    requires Enabled(s, Advance(t, other)) && Leads(Step(s, Advance(t, other)), t, s')
    ensures Leads(s, t, s')
  {
    var a := Advance(t, other);
    var actions: seq<Action> :|
      && IsRun(Step(s, a), actions) && End(Step(s, a), actions) == s'
      && forall b :: b in actions ==> b.Advance? && b.t == t;
    assert ([a] + actions)[1..] == actions;
    assert IsRun(s, [a] + actions) && End(s, [a] + actions) == s';
  }

  lemma LeadsOne(s: State, t: Thread, other: Thread)
    requires Enabled(s, Advance(t, other))
    ensures Leads(s, t, Step(s, Advance(t, other)))
  {
    LeadsNowhere(Step(s, Advance(t, other)), t);
    LeadsFirst(s, t, other, Step(s, Advance(t, other)));
  }

  lemma LeadsOn(s: State, t: Thread, v: State, s': State)
    requires Leads(s, t, v) && Leads(v, t, s')
    ensures Leads(s, t, s')
  {
    var first: seq<Action> :|
      IsRun(s, first) && End(s, first) == v && forall a :: a in first ==> a.Advance? && a.t == t;
    LeadsBehind(s, t, first, s');
  }

  lemma {:induction false} LeadsBehind(s: State, t: Thread, first: seq<Action>, s': State)
    requires IsRun(s, first) && Leads(End(s, first), t, s') && forall a :: a in first ==> a.Advance? && a.t == t
    ensures Leads(s, t, s')
    decreases |first|
  {
    if first != [] {
      LeadsBehind(Step(s, first[0]), t, first[1..], s');
      assert first[0] in first;
      LeadsFirst(s, t, first[0].other, s');
    }
  }

  /** One uninterrupted call of `dispatch`, and of `io_completion_worker::dispatch` if the queue
      posts: the task is queued, the chosen sleeper woken, a packet posted, the mutex free. */
  lemma DispatchAlone(s: State, t: Thread, task: Task, other: Thread)
    requires s.owner == None && (At(s, t).Idle? || At(s, t).WorkRun?)
    requires (exists u: Thread :: At(s, u).Asleep?) ==> At(s, other).Asleep?
    ensures var pcs := if At(s, other).Asleep? then s.pcs[other := Woken] else s.pcs;
            Leads(Step(s, Begin(t, DispatchCall(task))), t,
                  s.(queue := s.queue + [task], pushed := s.pushed + [task],
                     packets := s.packets + (if s.posts then 1 else 0), pcs := pcs[t := At(s, t)]))
  {
    var back := At(s, t);
    var s1 := Step(s, Begin(t, DispatchCall(task)));
    assert s1 == s.(pcs := s.pcs[t := DispatchLock(task, back)]);
    var s2 := s.(owner := Some(t), pcs := s.pcs[t := Pushing(task, back)]);
    assert Step(s1, Advance(t, other)) == s2;
    LeadsOne(s1, t, other);
    NotifyAlone(s, s2, t, task, other, back);
    var pcs := if At(s, other).Asleep? then s.pcs[other := Woken] else s.pcs;
    LeadsOn(s1, t, s2, s.(queue := s.queue + [task], pushed := s.pushed + [task],
                          packets := s.packets + (if s.posts then 1 else 0), pcs := pcs[t := back]));
  }

  lemma NotifyAlone(s: State, s2: State, t: Thread, task: Task, other: Thread, back: Pc)
    requires s.owner == None && back == At(s, t) && (back.Idle? || back.WorkRun?)
    requires (exists u: Thread :: At(s, u).Asleep?) ==> At(s, other).Asleep?
    requires s2 == s.(owner := Some(t), pcs := s.pcs[t := Pushing(task, back)])
    ensures var pcs := if At(s, other).Asleep? then s.pcs[other := Woken] else s.pcs;
            Leads(s2, t, s.(queue := s.queue + [task], pushed := s.pushed + [task],
                            packets := s.packets + (if s.posts then 1 else 0), pcs := pcs[t := back]))
  {
    var pushed := s.(queue := s.queue + [task], pushed := s.pushed + [task]);
    var pcs := if At(s, other).Asleep? then s.pcs[other := Woken] else s.pcs;
    var end := pushed.(packets := s.packets + (if s.posts then 1 else 0), pcs := pcs[t := back]);
    var s3 := pushed.(owner := Some(t), pcs := s.pcs[t := Pushed(back)]);
    assert Step(s2, Advance(t, other)) == s3;
    assert forall u: Thread :: At(pushed, u) == At(s, u);
    WakeAlone(pushed, s3, t, other, back);
    LeadsFirst(s2, t, other, end);
  }

  lemma WakeAlone(s: State, s3: State, t: Thread, other: Thread, back: Pc)
    requires s.owner == None && (At(s, t).Idle? || At(s, t).WorkRun?)
    requires (exists u: Thread :: At(s, u).Asleep?) ==> At(s, other).Asleep?
    requires s3 == s.(owner := Some(t), pcs := s.pcs[t := Pushed(back)])
    ensures var pcs := if At(s, other).Asleep? then s.pcs[other := Woken] else s.pcs;
            Leads(s3, t, s.(packets := s.packets + (if s.posts then 1 else 0), pcs := pcs[t := back]))
  {
    var pcs := if At(s, other).Asleep? then s.pcs[other := Woken] else s.pcs;
    assert forall u: Thread :: At(s3, u).Asleep? <==> At(s, u).Asleep?;
    var s4 := s.(owner := Some(t), pcs := pcs[t := Notified(back)]);
    assert Step(s3, Advance(t, other)) == s4;
    PostAlone(s.(pcs := pcs), s4, t, back);
    LeadsFirst(s3, t, other, s.(packets := s.packets + (if s.posts then 1 else 0), pcs := pcs[t := back]));
  }

  lemma PostAlone(s: State, s4: State, t: Thread, back: Pc)
    requires s.owner == None && s4 == s.(owner := Some(t), pcs := s.pcs[t := Notified(back)])
    ensures Leads(s4, t, s.(packets := s.packets + (if s.posts then 1 else 0), pcs := s.pcs[t := back]))
  {
    var s5 := s.(pcs := s.pcs[t := if s.posts then Posting(back) else back]);
    assert Step(s4, Advance(t, t)) == s5;
    LeadsOne(s4, t, t);
    if s.posts {
      assert Step(s5, Advance(t, t)) == s.(packets := s.packets + 1, pcs := s.pcs[t := back]);
      LeadsOne(s5, t, t);
      LeadsOn(s4, t, s5, s.(packets := s.packets + 1, pcs := s.pcs[t := back]));
    }
  }

  /** Inside `do_work`, holding the mutex: every queued task is taken, in order, and the thread
      leaves with the mutex free. */
  lemma {:induction false} DrainAlone(s: State, t: Thread, loop: bool)
    requires s.owner == Some(t) && At(s, t) == WorkTest(loop) && !s.quit
    ensures Leads(s, t, s.(owner := None, queue := [], taken := s.taken + s.queue,
                           pcs := s.pcs[t := if loop then LoopTest else Idle]))
    decreases |s.queue|
  {
    var end := s.(owner := None, queue := [], taken := s.taken + s.queue,
                  pcs := s.pcs[t := if loop then LoopTest else Idle]);
    if s.queue == [] {
      assert s.taken + [] == s.taken;
      assert Step(s, Advance(t, t)) == end;
      LeadsOne(s, t, t);
    } else {
      var next := s.(queue := s.queue[1..], taken := s.taken + [s.queue[0]]);
      TakeOneAlone(s, t, loop, next);
      DrainAlone(next, t, loop);
      assert next.taken + next.queue == s.taken + s.queue;
      LeadsOn(s, t, next, end);
    }
  }

  lemma TakeOneAlone(s: State, t: Thread, loop: bool, next: State)
    requires s.owner == Some(t) && At(s, t) == WorkTest(loop) && !s.quit && s.queue != []
    requires next == s.(queue := s.queue[1..], taken := s.taken + [s.queue[0]])
    ensures Leads(s, t, next)
  {
    var s1 := s.(pcs := s.pcs[t := WorkPop(loop)]);
    assert Step(s, Advance(t, t)) == s1;
    var s2 := next.(owner := None, pcs := s.pcs[t := WorkRun(s.queue[0], loop)]);
    assert Step(s1, Advance(t, t)) == s2;
    RunTaskAlone(next, s2, t, s.queue[0], loop);
    LeadsFirst(s1, t, t, next);
    LeadsFirst(s, t, t, next);
  }

  /** The task runs while the mutex is free. */
  lemma RunTaskAlone(s: State, s2: State, t: Thread, task: Task, loop: bool)
    requires s.owner == Some(t) && At(s, t) == WorkTest(loop)
    requires s2 == s.(owner := None, pcs := s.pcs[t := WorkRun(task, loop)])
    ensures Leads(s2, t, s)
  {
    var s3 := s.(owner := None, pcs := s.pcs[t := WorkLock(loop)]);
    assert Step(s2, Advance(t, t)) == s3;
    assert s.pcs[t := WorkTest(loop)] == s.pcs;
    assert Step(s3, Advance(t, t)) == s;
    LeadsOne(s3, t, t);
    LeadsFirst(s2, t, t, s);
  }

  /** One uninterrupted call of `run_one`, as for a packet: the queue is emptied. */
  lemma RunOneAlone(s: State, t: Thread, call: Call)
    requires At(s, t).Idle? && s.owner == None && !s.quit
    requires call == RunOneCall || (call == PacketCall && s.packets > 0)
    ensures Leads(Step(s, Begin(t, call)), t,
                  s.(queue := [], taken := s.taken + s.queue,
                     packets := s.packets - (if call == PacketCall then 1 else 0), pcs := s.pcs[t := Idle]))
  {
    var left := s.(packets := s.packets - (if call == PacketCall then 1 else 0));
    assert Step(s, Begin(t, call)) == left.(pcs := s.pcs[t := OneLock]);
    OneAlone(left, t);
  }

  lemma OneAlone(s: State, t: Thread)
    requires s.owner == None && !s.quit
    ensures Leads(s.(pcs := s.pcs[t := OneLock]), t,
                  s.(queue := [], taken := s.taken + s.queue, pcs := s.pcs[t := Idle]))
  {
    var s1 := s.(pcs := s.pcs[t := OneLock]);
    var s2 := s.(owner := Some(t), pcs := s.pcs[t := WorkTest(false)]);
    assert Step(s1, Advance(t, t)) == s2;
    DrainAlone(s2, t, false);
    LeadsFirst(s1, t, t, s.(queue := [], taken := s.taken + s.queue, pcs := s.pcs[t := Idle]));
  }

  /** `run_loop` alone: it takes every queued task and falls asleep over the empty queue with the
      mutex free, or leaves if the flag is set. */
  lemma RunLoopAlone(s: State, t: Thread)
    requires At(s, t).Idle? && s.owner == None
    ensures Leads(Step(s, Begin(t, RunLoopCall)), t,
                  if s.quit then s.(pcs := s.pcs[t := Idle])
                  else s.(queue := [], taken := s.taken + s.queue, pcs := s.pcs[t := Asleep]))
  {
    var s1 := s.(pcs := s.pcs[t := LoopTest]);
    assert Step(s, Begin(t, RunLoopCall)) == s1;
    if s.quit {
      assert Step(s1, Advance(t, t)) == s.(pcs := s.pcs[t := Idle]);
      LeadsOne(s1, t, t);
    } else {
      LoopAlone(s1, t);
    }
  }

  /** The same from the loop test. */
  lemma LoopAlone(s: State, t: Thread)
    requires At(s, t) == LoopTest && s.owner == None && !s.quit
    ensures Leads(s, t, s.(queue := [], taken := s.taken + s.queue, pcs := s.pcs[t := Asleep]))
  {
    if s.queue == [] {
      assert s.taken + [] == s.taken;
      EmptyAlone(s, t);
    } else {
      var empty := s.(queue := [], taken := s.taken + s.queue, pcs := s.pcs[t := LoopTest]);
      FullAlone(s, t, empty);
      EmptyAlone(empty, t);
      LeadsOn(s, t, empty, s.(queue := [], taken := s.taken + s.queue, pcs := s.pcs[t := Asleep]));
    }
  }

  lemma EmptyAlone(s: State, t: Thread)
    requires At(s, t) == LoopTest && s.owner == None && !s.quit && s.queue == []
    ensures Leads(s, t, s.(pcs := s.pcs[t := Asleep]))
  {
    var s3 := s.(owner := Some(t), pcs := s.pcs[t := LoopPredicate]);
    EnterAlone(s, t, s3);
    SleepAlone(s3, t);
    LeadsOn(s, t, s3, s.(pcs := s.pcs[t := Asleep]));
  }

  lemma FullAlone(s: State, t: Thread, empty: State)
    requires At(s, t) == LoopTest && s.owner == None && !s.quit && s.queue != []
    requires empty == s.(queue := [], taken := s.taken + s.queue, pcs := s.pcs[t := LoopTest])
    ensures Leads(s, t, empty)
  {
    var s3 := s.(owner := Some(t), pcs := s.pcs[t := LoopPredicate]);
    EnterAlone(s, t, s3);
    var s4 := s.(owner := Some(t), pcs := s.pcs[t := WorkTest(true)]);
    assert Step(s3, Advance(t, t)) == s4;
    DrainAlone(s4, t, true);
    LeadsFirst(s3, t, t, empty);
    LeadsOn(s, t, s3, empty);
  }

  lemma EnterAlone(s: State, t: Thread, s3: State)
    requires At(s, t) == LoopTest && s.owner == None && !s.quit
    requires s3 == s.(owner := Some(t), pcs := s.pcs[t := LoopPredicate])
    ensures Leads(s, t, s3)
  {
    var s2 := s.(pcs := s.pcs[t := LoopLock]);
    assert Step(s, Advance(t, t)) == s2;
    assert Step(s2, Advance(t, t)) == s3;
    LeadsOne(s2, t, t);
    LeadsFirst(s, t, t, s3);
  }

  lemma SleepAlone(s: State, t: Thread)
    requires At(s, t) == LoopPredicate && s.owner == Some(t) && s.queue == [] && !s.quit
    ensures Leads(s, t, s.(owner := None, pcs := s.pcs[t := Asleep]))
  {
    var s1 := s.(pcs := s.pcs[t := LoopBlock]);
    assert Step(s, Advance(t, t)) == s1;
    assert Step(s1, Advance(t, t)) == s.(owner := None, pcs := s.pcs[t := Asleep]);
    LeadsOne(s1, t, t);
    LeadsFirst(s, t, t, s.(owner := None, pcs := s.pcs[t := Asleep]));
  }

  /** A woken runner takes the mutex again and looks at the queue. */
  lemma WokenAlone(s: State, t: Thread)
    requires At(s, t) == Woken && s.owner == None
    ensures Leads(s, t, s.(owner := Some(t), pcs := s.pcs[t := LoopPredicate]))
  {
    assert Step(s, Advance(t, t)) == s.(owner := Some(t), pcs := s.pcs[t := LoopPredicate]);
    LeadsOne(s, t, t);
  }

  /** `quit` sets the flag and wakes every thread that sleeps by then. */
  lemma QuitWakesAll(s: State, t: Thread)
    requires At(s, t).Idle? || At(s, t).WorkRun?
    ensures var s1 := Step(s, Begin(t, QuitCall));
            && s1.quit && At(s1, t) == QuitNotify(At(s, t))
            && forall u: Thread :: !At(Step(s1, Advance(t, t)), u).Asleep?
  {
  }

  /** Once the flag is set, a runner that is woken or comes to the loop test leaves `run_loop`,
      whatever is queued. */
  lemma RunnerLeavesAfterQuit(s: State, t: Thread)
    requires s.quit && s.owner == None && (At(s, t) == Woken || At(s, t) == LoopTest)
    ensures Leads(s, t, s.(pcs := s.pcs[t := Idle]))
  {
    if At(s, t) == LoopTest {
      assert Step(s, Advance(t, t)) == s.(pcs := s.pcs[t := Idle]);
      LeadsOne(s, t, t);
    } else {
      var s1 := s.(owner := Some(t), pcs := s.pcs[t := LoopPredicate]);
      assert Step(s, Advance(t, t)) == s1;
      LeaveAlone(s, s1, t);
      LeadsFirst(s, t, t, s.(pcs := s.pcs[t := Idle]));
    }
  }

  lemma LeaveAlone(s: State, s1: State, t: Thread)
    requires s.quit && s.owner == None && s1 == s.(owner := Some(t), pcs := s.pcs[t := LoopPredicate])
    ensures Leads(s1, t, s.(pcs := s.pcs[t := Idle]))
  {
    var s2 := s.(owner := Some(t), pcs := s.pcs[t := WorkTest(true)]);
    assert Step(s1, Advance(t, t)) == s2;
    var s3 := s.(pcs := s.pcs[t := LoopTest]);
    assert Step(s2, Advance(t, t)) == s3;
    var end := s.(pcs := s.pcs[t := Idle]);
    assert Step(s3, Advance(t, t)) == end;
    LeadsOne(s3, t, t);
    LeadsFirst(s2, t, t, end);
    LeadsFirst(s1, t, t, end);
  }

  /** After the flag is set a thread falls asleep only from between its look at the predicate and
      its wait, and none comes to that place any more. */
  lemma OnlyBlockersSleepAfterQuit(s: State, a: Action, t: Thread)
    requires Mutex(s) && Enabled(s, a) && s.quit
    ensures At(Step(s, a), t).LoopBlock? ==> At(s, t).LoopBlock?
    ensures At(Step(s, a), t).Asleep? ==> At(s, t).Asleep? || At(s, t).LoopBlock?
  {
    StepMoves(s, a);
    assert BackOk(At(s, a.t));
  }

  /** A runner in that place sleeps through `quit`, which sets the flag without the mutex. */
  lemma SleepsThroughQuit(s: State, runner: Thread, quitter: Thread)
    requires runner != quitter && At(s, runner).LoopBlock? && At(s, quitter).Idle?
    requires s.owner == Some(runner)
    ensures var called := Step(s, Begin(quitter, QuitCall));
            var notified := Step(called, Advance(quitter, quitter));
            && Enabled(s, Begin(quitter, QuitCall)) && Enabled(called, Advance(quitter, quitter))
            && Enabled(notified, Advance(runner, runner))
            && var s' := Step(notified, Advance(runner, runner));
               s'.quit && At(s', quitter).Idle? && At(s', runner).Asleep?
  {
  }

  // ---------- every task dispatched gets into the queue once ----------

  predicate Holds(pc: Pc, x: Task) {
    (pc.DispatchLock? || pc.Pushing?) && pc.task == x
  }

  /** Threads between the call and the push of task `x`. */
  function InHand(s: State, x: Task): set<Thread> {
    set t | t in s.pcs && Holds(s.pcs[t], x)
  }

  function Dispatches(actions: seq<Action>, x: Task): nat {
    if actions == [] then 0
    else (if actions[0].Begin? && actions[0].call == DispatchCall(x) then 1 else 0) + Dispatches(actions[1..], x)
  }

  lemma InHandStep(s: State, a: Action, x: Task)
    requires Enabled(s, a)
    ensures InHand(Step(s, a), x) == if Holds(NextPc(s, a), x) then InHand(s, x) + {a.t} else InHand(s, x) - {a.t}
    ensures a.t in InHand(s, x) <==> Holds(At(s, a.t), x)
  {
    StepMoves(s, a);
    var s' := Step(s, a);
    forall t: Thread | t != a.t
      ensures t in InHand(s', x) <==> t in InHand(s, x)
    {
      assert At(s', t) == At(s, t) || (At(s, t).Asleep? && At(s', t).Woken?);
    }
  }

  lemma PushedStep(s: State, a: Action, x: Task)
    requires Enabled(s, a)
    ensures multiset(Step(s, a).pushed)[x] ==
            multiset(s.pushed)[x] + if a.Advance? && At(s, a.t).Pushing? && At(s, a.t).task == x then 1 else 0
  {
  }

  /** A task comes into hand with its call and leaves it with its push. */
  lemma HoldsStep(s: State, a: Action, x: Task)
    requires Enabled(s, a) && BackOk(At(s, a.t))
    ensures Holds(NextPc(s, a), x) <==>
            || (a.Begin? && a.call == DispatchCall(x))
            || (a.Advance? && Holds(At(s, a.t), x) && !At(s, a.t).Pushing?)
    ensures a.Begin? ==> !Holds(At(s, a.t), x)
  {
  }

  lemma SizeChange(threads: set<Thread>, t: Thread)
    ensures |threads + {t}| == |threads| + if t in threads then 0 else 1
    ensures |threads - {t}| == |threads| - if t in threads then 1 else 0
  {
    if t in threads {
      assert threads + {t} == threads;
    } else {
      assert threads - {t} == threads;
    }
  }

  lemma CountStep(s: State, a: Action, x: Task)
    requires Mutex(s) && Enabled(s, a)
    ensures |InHand(Step(s, a), x)| + multiset(Step(s, a).pushed)[x]
         == |InHand(s, x)| + multiset(s.pushed)[x] + if a.Begin? && a.call == DispatchCall(x) then 1 else 0
  {
    InHandStep(s, a, x);
    PushedStep(s, a, x);
    HoldsStep(s, a, x);
    SizeChange(InHand(s, x), a.t);
  }

  lemma {:induction false} CountRun(s: State, actions: seq<Action>, x: Task)
    requires Mutex(s) && IsRun(s, actions)
    ensures |InHand(End(s, actions), x)| + multiset(End(s, actions).pushed)[x]
         == |InHand(s, x)| + multiset(s.pushed)[x] + Dispatches(actions, x)
    decreases |actions|
  {
    if actions != [] {
      CountStep(s, actions[0], x);
      MutexStep(s, actions[0]);
      CountRun(Step(s, actions[0]), actions[1..], x);
    }
  }

  /** In every run, however dispatchers interleave: each task was pushed as often as it was
      dispatched, but for the calls that have not come to their push.  With `TasksConserved`, each
      is taken or queued that often, and no other task ever. */
  lemma EachDispatchPushedOnce(posts: bool, actions: seq<Action>, x: Task)
    requires IsRun(Start(posts), actions)
    ensures var s := End(Start(posts), actions);
            multiset(s.pushed)[x] + |InHand(s, x)| == Dispatches(actions, x)
  {
    CountRun(Start(posts), actions, x);
    assert InHand(Start(posts), x) == {};
  }
}
