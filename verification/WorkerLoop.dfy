/** The worker of a completion loop as its one runner and its dispatchers leave it between their
    locked sections, and why it may be taken so: the thread machine of `WorkerThreads` refines it
    step by step, and the worker inside `Endpoint` moves by just its actions. */
module WorkerLoop {
  import opened Threads
  import Fine = WorkerThreads
  import E = Endpoint
  import PipeChannel

  /** What the loop thread does: waits on the port, runs a completion routine, looks at the queue,
      or runs a task. */
  datatype Phase = Waiting | Elsewhere | Draining | Running

  /** `posting` are the threads between the push of a task and its packet. */
  datatype Worker<T> = Worker(tasks: seq<T>, packets: nat, posting: set<Thread>, phase: Phase)

  datatype Action<T> = Push(t: Thread, task: T) | Post(t: Thread) | Take | Pop | Finish | Drained | Leave | Back

  predicate Enabled<T>(w: Worker<T>, a: Action<T>) {
    match a
    case Push(t, _) => t !in w.posting
    case Post(t) => t in w.posting
    case Take => w.phase == Waiting && w.packets > 0
    case Pop => w.phase == Draining && |w.tasks| > 0
    case Finish => w.phase == Running
    case Drained => w.phase == Draining && |w.tasks| == 0
    case Leave => w.phase == Waiting
    case Back => w.phase == Elsewhere
  }

  function Step<T>(w: Worker<T>, a: Action<T>): Worker<T>
    requires Enabled(w, a)
  {
    match a
    case Push(t, task) => w.(tasks := w.tasks + [task], posting := w.posting + {t})
    case Post(t) => w.(packets := w.packets + 1, posting := w.posting - {t})
    case Take => w.(packets := w.packets - 1, phase := Draining)
    case Pop => w.(tasks := w.tasks[1..], phase := Running)
    case Finish => w.(phase := Draining)
    case Drained => w.(phase := Waiting)
    case Leave => w.(phase := Elsewhere)
    case Back => w.(phase := Waiting)
  }

  ghost predicate IsRun<T(!new)>(w: Worker<T>, actions: seq<Action<T>>)
    decreases |actions|
  {
    actions == [] || (Enabled(w, actions[0]) && IsRun(Step(w, actions[0]), actions[1..]))
  }

  ghost function After<T(!new)>(w: Worker<T>, actions: seq<Action<T>>): Worker<T>
    requires IsRun(w, actions)
    decreases |actions|
  {
    if actions == [] then w else After(Step(w, actions[0]), actions[1..])
  }

  /** The tasks that a run pushes, in order, and those that it pops. */
  function PushesOf<T>(actions: seq<Action<T>>): seq<T> {
    if actions == [] then []
    else (if actions[0].Push? then [actions[0].task] else []) + PushesOf(actions[1..])
  }

  ghost function PopsOf<T(!new)>(w: Worker<T>, actions: seq<Action<T>>): seq<T>
    requires IsRun(w, actions)
    decreases |actions|
  {
    if actions == [] then []
    else (if actions[0].Pop? then [w.tasks[0]] else []) + PopsOf(Step(w, actions[0]), actions[1..])
  }

  /** Some run leads from `w` to `w'` that pushes and pops just these tasks. */
  ghost predicate Reaches<T(!new)>(w: Worker<T>, w': Worker<T>, pushed: seq<T>, popped: seq<T>) {
    exists actions: seq<Action<T>> ::
      IsRun(w, actions) && After(w, actions) == w' && PushesOf(actions) == pushed && PopsOf(w, actions) == popped
  }

  /** What one action, or none, pushes and pops. */
  ghost predicate Moves<T(!new)>(w: Worker<T>, w': Worker<T>, pushed: seq<T>, popped: seq<T>) {
    || (w' == w && pushed == [] && popped == [])
    || exists a: Action<T> ::
         && Enabled(w, a) && w' == Step(w, a)
         && pushed == (if a.Push? then [a.task] else [])
         && popped == (if a.Pop? then [w.tasks[0]] else [])
  }

  lemma ReachesItself<T(!new)>(w: Worker<T>)
    ensures Reaches(w, w, [], [])
  {
    assert IsRun(w, []) && After(w, []) == w && PushesOf<T>([]) == [] && PopsOf(w, []) == [];
  }

  lemma ActionInFront<T(!new)>(w: Worker<T>, a: Action<T>, actions: seq<Action<T>>)
    requires Enabled(w, a) && IsRun(Step(w, a), actions)
    ensures IsRun(w, [a] + actions) && After(w, [a] + actions) == After(Step(w, a), actions)
    ensures PushesOf([a] + actions) == (if a.Push? then [a.task] else []) + PushesOf(actions)
    ensures PopsOf(w, [a] + actions) == (if a.Pop? then [w.tasks[0]] else []) + PopsOf(Step(w, a), actions)
  {
    assert ([a] + actions)[1..] == actions;
  }

  lemma MovesThenReaches<T(!new)>(w: Worker<T>, v: Worker<T>, w': Worker<T>,
                                  pushed: seq<T>, popped: seq<T>, pushedLater: seq<T>, poppedLater: seq<T>)
    requires Moves(w, v, pushed, popped) && Reaches(v, w', pushedLater, poppedLater)
    ensures Reaches(w, w', pushed + pushedLater, popped + poppedLater)
  {
    var actions: seq<Action<T>> :| IsRun(v, actions) && After(v, actions) == w'
      && PushesOf(actions) == pushedLater && PopsOf(v, actions) == poppedLater;
    if v == w && pushed == [] && popped == [] {
      assert pushed + pushedLater == pushedLater && popped + poppedLater == poppedLater;
    } else {
      var a: Action<T> :| Enabled(w, a) && v == Step(w, a)
        && pushed == (if a.Push? then [a.task] else [])
        && popped == (if a.Pop? then [w.tasks[0]] else []);
      ActionInFront(w, a, actions);
    }
  }

  /** The worker is a queue: what was popped and what is left are what was there and what was
      pushed. */
  lemma {:induction false} RunIsFifo<T(!new)>(w: Worker<T>, actions: seq<Action<T>>)
    requires IsRun(w, actions)
    ensures PopsOf(w, actions) + After(w, actions).tasks == w.tasks + PushesOf(actions)
    decreases |actions|
  {
    if actions != [] {
      var a, v := actions[0], Step(w, actions[0]);
      RunIsFifo(v, actions[1..]);
      var pushed, popped := if a.Push? then [a.task] else [], if a.Pop? then [w.tasks[0]] else [];
      assert popped + v.tasks == w.tasks + pushed;
      FifoJoins(popped, PopsOf(v, actions[1..]), After(v, actions[1..]).tasks,
                v.tasks, w.tasks, pushed, PushesOf(actions[1..]));
    }
  }

  lemma FifoJoins<T>(popped: seq<T>, poppedLater: seq<T>, end: seq<T>,
                     middle: seq<T>, begin: seq<T>, pushed: seq<T>, pushedLater: seq<T>)
    requires popped + middle == begin + pushed && poppedLater + end == middle + pushedLater
    ensures (popped + poppedLater) + end == begin + (pushed + pushedLater)
  {
    assert (popped + poppedLater) + end == popped + (middle + pushedLater);
    assert popped + (middle + pushedLater) == (begin + pushed) + pushedLater;
  }

  // ---------- the thread machine ----------

  function PhaseOf(pc: Fine.Pc): Phase {
    match pc
    case OneLock => Draining
    case WorkTest(_) => Draining
    case WorkPop(_) => Draining
    case WorkLock(_) => Draining
    case WorkRun(_, _) => Running
    case DispatchLock(_, back) => PhaseOf(back)
    case Pushing(_, back) => PhaseOf(back)
    case Pushed(back) => PhaseOf(back)
    case Notified(back) => PhaseOf(back)
    case Posting(back) => PhaseOf(back)
    case _ => Waiting
  }

  /** The places of a thread that neither sleeps nor quits. */
  predicate Plain(pc: Fine.Pc) {
    !Fine.InLoop(pc) && !pc.QuitNotify?
  }

  function Posters(s: Fine.State): set<Thread> {
    set t | t in s.pcs && Fine.WillPost(s.pcs[t])
  }

  function Abstract(s: Fine.State, runner: Thread): Worker<Fine.Task> {
    Worker(s.queue, s.packets, Posters(s), PhaseOf(Fine.At(s, runner)))
  }

  /** One thread takes packets, nobody runs `run_loop` or `quit`. */
  predicate OneRunner(a: Fine.Action, runner: Thread) {
    a.Begin? ==> a.call.DispatchCall? || (a.call.PacketCall? && a.t == runner)
  }

  ghost predicate FineInv(s: Fine.State, runner: Thread) {
    && Fine.Inv(s) && s.posts && !s.quit
    && forall t: Thread :: Plain(Fine.At(s, t)) && (t != runner ==> PhaseOf(Fine.At(s, t)) == Waiting)
  }

  lemma FineInvStep(s: Fine.State, a: Fine.Action, runner: Thread)
    requires FineInv(s, runner) && Fine.Enabled(s, a) && OneRunner(a, runner)
    ensures FineInv(Fine.Step(s, a), runner)
  {
    Fine.StepKeepsInv(s, a);
    Fine.StepMoves(s, a);
    assert Plain(Fine.At(s, a.t)) && Fine.BackOk(Fine.At(s, a.t));
  }

  lemma PostersStep(s: Fine.State, a: Fine.Action, runner: Thread)
    requires FineInv(s, runner) && Fine.Enabled(s, a) && OneRunner(a, runner)
    ensures Posters(Fine.Step(s, a)) ==
            if Fine.WillPost(Fine.NextPc(s, a)) then Posters(s) + {a.t} else Posters(s) - {a.t}
    ensures a.t in Posters(s) <==> Fine.WillPost(Fine.At(s, a.t))
  {
    Fine.StepMoves(s, a);
    var s' := Fine.Step(s, a);
    forall t: Thread | t != a.t
      ensures t in Posters(s') <==> t in Posters(s)
    {
      assert Plain(Fine.At(s, t));
      assert Fine.At(s', t) == Fine.At(s, t);
    }
  }

  /** What a step of the thread machine is to the worker. */
  function Meaning(s: Fine.State, a: Fine.Action): Action<Fine.Task> {
    var pc := Fine.At(s, a.t);
    if a.Begin? then Take
    else if pc.Pushing? then Push(a.t, pc.task)
    else if pc.Posting? then Post(a.t)
    else if pc.WorkPop? then Pop
    else if pc.WorkRun? then Finish
    else Drained
  }

  /** The tasks that one step pushes and takes. */
  function Pushes(s: Fine.State, a: Fine.Action): seq<Fine.Task> {
    if a.Advance? && Fine.At(s, a.t).Pushing? then [Fine.At(s, a.t).task] else []
  }

  function Pops(s: Fine.State, a: Fine.Action): seq<Fine.Task> {
    if a.Advance? && Fine.At(s, a.t).WorkPop? && s.queue != [] then [s.queue[0]] else []
  }

  lemma HistoriesGrow(s: Fine.State, a: Fine.Action)
    requires Fine.Enabled(s, a)
    ensures Fine.Step(s, a).pushed == s.pushed + Pushes(s, a) && Fine.Step(s, a).taken == s.taken + Pops(s, a)
  {
    assert s.pushed + [] == s.pushed && s.taken + [] == s.taken;
  }

  lemma PhaseStep(s: Fine.State, a: Fine.Action, runner: Thread)
    requires FineInv(s, runner) && Fine.Enabled(s, a) && OneRunner(a, runner)
    ensures Plain(Fine.At(s, a.t)) && Fine.BackOk(Fine.At(s, a.t))
    ensures a.t != runner ==> PhaseOf(Fine.At(s, a.t)) == Waiting
    ensures PhaseOf(Fine.At(Fine.Step(s, a), runner)) ==
            PhaseOf(if a.t == runner then Fine.NextPc(s, a) else Fine.At(s, runner))
  {
    Fine.StepMoves(s, a);
    assert Plain(Fine.At(s, runner));
  }

  /** Inside a call of `dispatch`. */
  predicate DispatchPlace(pc: Fine.Pc) {
    pc.DispatchLock? || pc.Pushing? || pc.Pushed? || pc.Notified? || pc.Posting?
  }

  ghost predicate Means(s: Fine.State, a: Fine.Action, runner: Thread)
    requires Fine.Enabled(s, a)
  {
    var w, w', x := Abstract(s, runner), Abstract(Fine.Step(s, a), runner), Meaning(s, a);
    || (w' == w && Pushes(s, a) == [] && Pops(s, a) == [])
    || (&& Enabled(w, x) && w' == Step(w, x)
        && Pushes(s, a) == (if x.Push? then [x.task] else [])
        && Pops(s, a) == (if x.Pop? then [w.tasks[0]] else []))
  }

  lemma BeginMeans(s: Fine.State, a: Fine.Action, runner: Thread)
    requires FineInv(s, runner) && Fine.Enabled(s, a) && OneRunner(a, runner) && a.Begin?
    ensures Means(s, a, runner)
  {
    PhaseStep(s, a, runner);
    PostersStep(s, a, runner);
  }

  lemma DispatchMeans(s: Fine.State, a: Fine.Action, runner: Thread)
    requires FineInv(s, runner) && Fine.Enabled(s, a) && OneRunner(a, runner)
    requires a.Advance? && DispatchPlace(Fine.At(s, a.t))
    ensures Means(s, a, runner)
  {
    PhaseStep(s, a, runner);
    PostersStep(s, a, runner);
  }

  lemma WorkMeans(s: Fine.State, a: Fine.Action, runner: Thread)
    requires FineInv(s, runner) && Fine.Enabled(s, a) && OneRunner(a, runner)
    requires a.Advance? && !DispatchPlace(Fine.At(s, a.t))
    ensures Means(s, a, runner)
  {
    PhaseStep(s, a, runner);
    PostersStep(s, a, runner);
  }

  lemma FineStepMeans(s: Fine.State, a: Fine.Action, runner: Thread)
    requires FineInv(s, runner) && Fine.Enabled(s, a) && OneRunner(a, runner)
    ensures Means(s, a, runner)
  {
    if a.Begin? {
      BeginMeans(s, a, runner);
    } else if DispatchPlace(Fine.At(s, a.t)) {
      DispatchMeans(s, a, runner);
    } else {
      WorkMeans(s, a, runner);
    }
  }

  lemma FineStepMoves(s: Fine.State, a: Fine.Action, runner: Thread)
    requires FineInv(s, runner) && Fine.Enabled(s, a) && OneRunner(a, runner)
    ensures Moves(Abstract(s, runner), Abstract(Fine.Step(s, a), runner), Pushes(s, a), Pops(s, a))
  {
    FineStepMeans(s, a, runner);
  }

  lemma {:induction false} FineRunReaches(s: Fine.State, actions: seq<Fine.Action>, runner: Thread,
                                          pushed: seq<Fine.Task>, taken: seq<Fine.Task>)
    requires FineInv(s, runner) && Fine.IsRun(s, actions) && forall a :: a in actions ==> OneRunner(a, runner)
    requires s.pushed + pushed == Fine.End(s, actions).pushed && s.taken + taken == Fine.End(s, actions).taken
    ensures Reaches(Abstract(s, runner), Abstract(Fine.End(s, actions), runner), pushed, taken)
    decreases |actions|
  {
    var w, end := Abstract(s, runner), Fine.End(s, actions);
    if actions == [] {
      assert pushed == [] && taken == [];
      ReachesItself(w);
    } else {
      var a, s' := actions[0], Fine.Step(s, actions[0]);
      FineInvStep(s, a, runner);
      HistoriesGrow(s, a);
      HistoriesOnlyGrow(s', actions[1..]);
      var pushedLater, takenLater := end.pushed[|s'.pushed|..], end.taken[|s'.taken|..];
      Behind(s.pushed, Pushes(s, a), pushed, pushedLater, end.pushed);
      Behind(s.taken, Pops(s, a), taken, takenLater, end.taken);
      FineRunReaches(s', actions[1..], runner, pushedLater, takenLater);
      FineStepMoves(s, a, runner);
      MovesThenReaches(w, Abstract(s', runner), Abstract(end, runner),
                       Pushes(s, a), Pops(s, a), pushedLater, takenLater);
    }
  }

  lemma Behind<T>(before: seq<T>, first: seq<T>, all: seq<T>, later: seq<T>, end: seq<T>)
    requires before + all == end && before + first <= end && later == end[|before + first|..]
    ensures (before + first) + later == end && all == first + later
  {
    assert all == end[|before|..];
  }

  lemma {:induction false} HistoriesOnlyGrow(s: Fine.State, actions: seq<Fine.Action>)
    requires Fine.IsRun(s, actions)
    ensures s.pushed <= Fine.End(s, actions).pushed && s.taken <= Fine.End(s, actions).taken
    decreases |actions|
  {
    if actions != [] {
      HistoriesGrow(s, actions[0]);
      HistoriesOnlyGrow(Fine.Step(s, actions[0]), actions[1..]);
    }
  }

  /** Refinement: for every run with any number of dispatchers, down to single accesses to the
      mutex, the queue, the condition variable and the port, there is a run of the worker that
      ends in the same queue, packets and phase, and that pushes and pops the same tasks in the
      same order. */
  lemma ThreadsRefineWorker(actions: seq<Fine.Action>, runner: Thread)
    requires Fine.IsRun(Fine.Start(true), actions) && forall a :: a in actions ==> OneRunner(a, runner)
    ensures var s := Fine.End(Fine.Start(true), actions);
            Reaches(Worker([], 0, {}, Waiting), Abstract(s, runner), s.pushed, s.taken)
  {
    var s := Fine.Start(true);
    Fine.FromStart(true, [], s);
    var end := Fine.End(s, actions);
    assert [] + end.pushed == end.pushed && [] + end.taken == end.taken;
    FineRunReaches(s, actions, runner, end.pushed, end.taken);
    assert Abstract(s, runner) == Worker([], 0, {}, Waiting);
  }

  // ---------- the worker of an endpoint ----------

  function EndPhase(l: E.Loop): Phase {
    match l
    case Waiting => Waiting
    case InCompletion(_) => Elsewhere
    case InWorker(code) => if code == [] then Draining else Running
  }

  function EndPosters(e: E.End): set<Thread> {
    set t | t in e.callers && e.callers[t] == E.Queued
  }

  function Project(e: E.End): Worker<PipeChannel.ChannelTask> {
    Worker(e.tasks, e.packets, EndPosters(e), EndPhase(e.loop))
  }

  /** What an action of an endpoint is to its worker. */
  function EndMeaning(e: E.End, a: E.Action): Action<PipeChannel.ChannelTask> {
    match a
    case Dispatch(t) => Push(t, PipeChannel.SendTask)
    case DispatchOther(t) => Push(t, PipeChannel.OtherTask)
    case Post(t) => Post(t)
    case Packet => Take
    case PopTask(_) => Pop
    case Drained => Drained
    case Run => Finish
    case Return => Back
    case _ => Leave
  }

  lemma EndPostersStep(e: E.End, a: E.Action)
    requires E.Enabled(e, a)
    ensures EndPosters(E.Step(e, a)) ==
            if a.Dispatch? || a.DispatchOther? then EndPosters(e) + {a.t}
            else if a.Post? then EndPosters(e) - {a.t}
            else EndPosters(e)
  {
  }

  function EndPushes(a: E.Action): seq<PipeChannel.ChannelTask> {
    if a.Dispatch? then [PipeChannel.SendTask] else if a.DispatchOther? then [PipeChannel.OtherTask] else []
  }

  lemma EndStepMoves(e: E.End, a: E.Action)
    requires E.Enabled(e, a)
    ensures Moves(Project(e), Project(E.Step(e, a)), EndPushes(a), if a.PopTask? then [e.tasks[0]] else [])
  {
    EndPostersStep(e, a);
    var w, w', x := Project(e), Project(E.Step(e, a)), EndMeaning(e, a);
    if w' != w {
      assert Enabled(w, x) && w' == Step(w, x);
    }
  }

  /** Nor does an endpoint leave out what its worker could do: dispatchers can post, and the loop
      thread can take, pop and find the queue empty, exactly when the worker can. */
  lemma EndOffersWorker(e: E.End, t: Thread)
    ensures E.Enabled(e, E.Post(t)) <==> Enabled(Project(e), Post(t))
    ensures E.Enabled(e, E.Packet) <==> Enabled(Project(e), Take)
    ensures forall waiting :: E.Enabled(e, E.PopTask(waiting)) <==> Enabled(Project(e), Pop)
    ensures E.Enabled(e, E.Drained) <==> Enabled(Project(e), Drained)
    ensures t != E.LOOP && t !in e.callers ==>
              E.Enabled(e, E.DispatchOther(t)) && Enabled(Project(e), Push(t, PipeChannel.OtherTask))
  {
  }
}
