/** The task queue of `worker_service`: one thread's view of its methods. */
module WorkerService {

  /** What other threads, or the running task itself, do to the service while one task runs
      and the mutex is free. */
  datatype Arrival<T> = Arrival(tasks: seq<T>, quit: bool)

  function Arrived<T>(arrivals: seq<Arrival<T>>): seq<T> {
    if arrivals == [] then []
    else Arrived(arrivals[..|arrivals| - 1]) + arrivals[|arrivals| - 1].tasks
  }

  predicate QuitArrived<T>(arrivals: seq<Arrival<T>>) {
    arrivals != [] && (QuitArrived(arrivals[..|arrivals| - 1]) || arrivals[|arrivals| - 1].quit)
  }

  /** Arrivals add up, in order ... */
  lemma {:induction false} ArrivedJoins<T>(a: seq<Arrival<T>>, b: seq<Arrival<T>>)
    ensures Arrived(a + b) == Arrived(a) + Arrived(b)
    decreases |b|
  {
    if b == [] {
      assert a + b == a && Arrived(a) + Arrived(b) == Arrived(a);
    } else {
      assert (a + b)[..|a + b| - 1] == a + b[..|b| - 1];
      ArrivedJoins(a, b[..|b| - 1]);
    }
  }

  lemma ArrivedOne<T>(a: Arrival<T>)
    ensures Arrived([a]) == a.tasks
  {
    assert Arrived([a]) == Arrived([a][..0]) + a.tasks;
  }

  /** ... and `quit` has arrived when one of them brought it. */
  lemma {:induction false} QuitArrivedIff<T>(arrivals: seq<Arrival<T>>)
    ensures QuitArrived(arrivals) <==> exists k :: 0 <= k < |arrivals| && arrivals[k].quit
  {
    if arrivals != [] {
      QuitArrivedIff(arrivals[..|arrivals| - 1]);
    }
  }

  lemma PopOne<T>(run: seq<T>, queue: seq<T>)
    requires queue != []
    ensures (run + [queue[0]]) + queue[1..] == run + queue
  {
  }

  lemma ArriveOne<T>(run: seq<T>, queue: seq<T>, seen: seq<Arrival<T>>, a: Arrival<T>)
    ensures run + (queue + a.tasks) == (run + queue) + a.tasks
    ensures Arrived(seen + [a]) == Arrived(seen) + a.tasks
    ensures QuitArrived(seen + [a]) == (QuitArrived(seen) || a.quit)
    ensures forall all: seq<T> :: all + (Arrived(seen) + a.tasks) == (all + Arrived(seen)) + a.tasks
  {
    assert (seen + [a])[..|seen|] == seen;
  }

  class Service<T> {
    var taskQueue: seq<T>
    var quitFlag: bool

    /** Calls of `notify_one` and `notify_all`. */
    ghost var notifiedOne: nat
    ghost var notifiedAll: nat

    constructor ()
      ensures taskQueue == [] && !quitFlag
    {
      taskQueue, quitFlag := [], false;
      notifiedOne, notifiedAll := 0, 0;
    }

    method Dispatch(task: T)
      modifies this`taskQueue, this`notifiedOne
      ensures taskQueue == old(taskQueue) + [task] && notifiedOne == old(notifiedOne) + 1
    {
      taskQueue := taskQueue + [task];
      notifiedOne := notifiedOne + 1;
    }

    method Quit()
      modifies this`quitFlag, this`notifiedAll
      ensures quitFlag && notifiedAll == old(notifiedAll) + 1
    {
      quitFlag := true;
      notifiedAll := notifiedAll + 1;
    }

    /** `do_work`: pop and run until the queue is empty or the flag is set.  The tasks run are,
        in order, the tasks dispatched, whatever arrives meanwhile. */
    method DoWork(arrivals: seq<Arrival<T>>) returns (run: seq<T>)
      modifies this`taskQueue, this`quitFlag
      ensures taskQueue == [] || quitFlag
      ensures var seen := if |run| <= |arrivals| then arrivals[..|run|] else arrivals;
              && run + taskQueue == old(taskQueue) + Arrived(seen)
              && (quitFlag <==> old(quitFlag) || QuitArrived(seen))
      ensures old(quitFlag) ==> run == []
      ensures forall k :: 0 <= k < |run| - 1 && k < |arrivals| ==> !arrivals[k].quit
    {
      run := [];
      ghost var seen: seq<Arrival<T>> := [];
      while taskQueue != [] && !quitFlag
        invariant |seen| == if |run| <= |arrivals| then |run| else |arrivals|
        invariant seen == arrivals[..|seen|]
        invariant run + taskQueue == old(taskQueue) + Arrived(seen)
        invariant quitFlag <==> old(quitFlag) || QuitArrived(seen)
        invariant old(quitFlag) ==> run == []
        invariant forall k :: 0 <= k < |run| - (if quitFlag then 1 else 0) && k < |arrivals| ==> !arrivals[k].quit
        decreases |arrivals| - |seen|, |taskQueue|
      {
        var task := taskQueue[0];
        PopOne(run, taskQueue);
        taskQueue := taskQueue[1..];
        run := run + [task];
        if |run| <= |arrivals| {
          var a := arrivals[|run| - 1];
          ArriveOne(run, taskQueue, seen, a);
          seen := seen + [a];
          taskQueue := taskQueue + a.tasks;
          quitFlag := quitFlag || a.quit;
        }
      }
      assert arrivals[..|arrivals|] == arrivals;
    }
  }
}
