/** `singleton`: double-checked creation with a release, called by any number of threads.

    One step is one atomic operation on the pointer, one use of the mutex, or one stage of
    building or deleting the object.  The allocator may reuse addresses. */
module Singleton {
  import opened Threads

  type Address = nat

  datatype Phase = UnderConstruction | Live

  /** Where a thread is in `instance` or `release`; the pointer it has loaded may be stale. */
  datatype Pc =
    | Idle
    | CreateLock
    | Recheck
    | Allocate
    | Construct(made: Address)
    | Publish(made: Address)
    | CreateUnlock(found: Address)
    | ReleaseLock(loaded: Address)
    | Exchange(loaded: Address)
    | Delete(loaded: Address)
    | ReleaseUnlock

  /** `objects` are those allocated and not yet freed; `built` and `deleted` count them, and
      `missed` counts deletes of what was no complete object. */
  datatype State = State(
    instance: Option<Address>, objects: map<Address, Phase>, owner: Option<Thread>,
    pcs: map<Thread, Pc>, built: nat, deleted: nat, missed: nat)

  /** `given` is the address the allocator returns, if the step allocates. */
  datatype Action = CallInstance(t: Thread) | CallRelease(t: Thread) | Advance(t: Thread, given: Address)

  function Start(): State { State(None, map[], None, map[], 0, 0, 0) }

  function At(s: State, t: Thread): Pc {
    if t in s.pcs then s.pcs[t] else Idle
  }

  predicate Owns(pc: Pc) {
    !pc.Idle? && !pc.CreateLock? && !pc.ReleaseLock?
  }

  predicate Enabled(s: State, a: Action) {
    var pc := At(s, a.t);
    if a.Advance? then
      && !pc.Idle?
      && (pc.CreateLock? || pc.ReleaseLock? ==> s.owner == None)
      && (pc.Allocate? ==> a.given !in s.objects)
    else pc.Idle?
  }

  /** Where the acting thread goes; a call starts with its unlocked load. */
  function NextPc(s: State, a: Action): Pc {
    match a
    case CallInstance(_) => if s.instance.Some? then Idle else CreateLock
    case CallRelease(_) => if s.instance.Some? then ReleaseLock(s.instance.value) else Idle
    case Advance(t, given) =>
      match At(s, t)
      case Idle => Idle
      case CreateLock => Recheck
      case Recheck => if s.instance.Some? then CreateUnlock(s.instance.value) else Allocate
      case Allocate => Construct(given)
      case Construct(made) => Publish(made)
      case Publish(made) => CreateUnlock(made)
      case CreateUnlock(_) => Idle
      case ReleaseLock(loaded) => Exchange(loaded)
      case Exchange(loaded) => if s.instance == Some(loaded) then Delete(loaded) else ReleaseUnlock
      case Delete(_) => ReleaseUnlock
      case ReleaseUnlock => Idle
  }

  function Effect(s: State, a: Action): State {
    if !a.Advance? then s
    else
      match At(s, a.t)
      case CreateLock => s.(owner := Some(a.t))
      case ReleaseLock(_) => s.(owner := Some(a.t))
      case Allocate => s.(objects := s.objects[a.given := UnderConstruction], built := s.built + 1)
      case Construct(made) => s.(objects := s.objects[made := Live])
      case Publish(made) => s.(instance := Some(made))
      case Exchange(loaded) => if s.instance == Some(loaded) then s.(instance := None) else s
      case Delete(loaded) =>
        s.(objects := s.objects - {loaded}, deleted := s.deleted + 1,
           missed := s.missed + if loaded in s.objects && s.objects[loaded] == Live then 0 else 1)
      case CreateUnlock(_) => s.(owner := None)
      case ReleaseUnlock => s.(owner := None)
      case _ => s
  }

  function Step(s: State, a: Action): State
    requires Enabled(s, a)
  {
    Effect(s, a).(pcs := s.pcs[a.t := NextPc(s, a)])
  }

  /** The pointer that a call of `instance` returns with this step. */
  function Returns(s: State, a: Action): Option<Address> {
    match a
    case CallInstance(_) => s.instance
    case CallRelease(_) => None
    case Advance(t, _) => if At(s, t).CreateUnlock? then Some(At(s, t).found) else None
  }

  // ---------- what every step keeps ----------

  ghost predicate Mutex(s: State) {
    forall t: Thread :: Owns(At(s, t)) <==> s.owner == Some(t)
  }

  function Published(s: State): map<Address, Phase> {
    if s.instance.Some? then map[s.instance.value := Live] else map[]
  }

  /** What exists, as the holder of the mutex has left it. */
  predicate HeapOk(s: State) {
    match if s.owner.Some? then At(s, s.owner.value) else Idle
    case Allocate => s.instance == None && s.objects == map[]
    case Construct(made) => s.instance == None && s.objects == map[made := UnderConstruction]
    case Publish(made) => s.instance == None && s.objects == map[made := Live]
    case CreateUnlock(found) => s.instance == Some(found) && s.objects == map[found := Live]
    case Delete(loaded) => s.instance == None && s.objects == map[loaded := Live]
    case _ => s.objects == Published(s)
  }

  ghost predicate Inv(s: State) {
    Mutex(s) && HeapOk(s) && s.missed == 0 && s.built == s.deleted + |s.objects|
  }

  lemma StepMoves(s: State, a: Action)
    requires Enabled(s, a)
    ensures At(Step(s, a), a.t) == NextPc(s, a)
    ensures forall u: Thread :: u != a.t ==> At(Step(s, a), u) == At(s, u)
  {
  }

  lemma MutexStep(s: State, a: Action)
    requires Mutex(s) && Enabled(s, a)
    ensures Mutex(Step(s, a))
  {
    StepMoves(s, a);
    assert Owns(At(s, a.t)) <==> s.owner == Some(a.t);
  }

  /** A thread that does not hold the mutex changes nothing but its own place. */
  lemma OutsiderStep(s: State, a: Action)
    requires Inv(s) && Enabled(s, a) && s.owner != Some(a.t)
    ensures Inv(Step(s, a)) && Step(s, a).instance == s.instance
  {
    StepMoves(s, a);
    MutexStep(s, a);
    assert !Owns(At(s, a.t));
    if s.owner.Some? {
      assert At(Step(s, a), s.owner.value) == At(s, s.owner.value);
    }
  }

  /** What exists, by the place of the holder; see `HeapOk`. */
  predicate Accounted(s: State) {
    HeapOk(s) && s.missed == 0 && s.built == s.deleted + |s.objects|
  }

  lemma AllocateHeap(s: State, a: Action)
    requires Accounted(s) && Enabled(s, a) && a.Advance? && s.owner == Some(a.t) && At(s, a.t) == Allocate
    ensures Accounted(Step(s, a))
  {
    assert At(Step(s, a), a.t) == Construct(a.given);
    assert s.objects[a.given := UnderConstruction] == map[a.given := UnderConstruction];
  }

  lemma ConstructHeap(s: State, a: Action)
    requires Accounted(s) && Enabled(s, a) && a.Advance? && s.owner == Some(a.t) && At(s, a.t).Construct?
    ensures Accounted(Step(s, a))
  {
    var made := At(s, a.t).made;
    assert At(Step(s, a), a.t) == Publish(made);
    assert s.objects[made := Live] == map[made := Live];
  }

  lemma DeleteHeap(s: State, a: Action)
    requires Accounted(s) && Enabled(s, a) && a.Advance? && s.owner == Some(a.t) && At(s, a.t).Delete?
    ensures Accounted(Step(s, a))
  {
    assert At(Step(s, a), a.t) == ReleaseUnlock;
    assert s.objects - {At(s, a.t).loaded} == map[];
  }

  lemma OtherHeap(s: State, a: Action)
    requires Accounted(s) && Enabled(s, a) && a.Advance? && s.owner == Some(a.t) && Owns(At(s, a.t))
    requires !At(s, a.t).Allocate? && !At(s, a.t).Construct? && !At(s, a.t).Delete?
    ensures Accounted(Step(s, a))
  {
    assert At(Step(s, a), a.t) == NextPc(s, a);
  }

  lemma HolderHeap(s: State, a: Action)
    requires Accounted(s) && Enabled(s, a) && s.owner == Some(a.t) && Owns(At(s, a.t))
    ensures Accounted(Step(s, a))
  {
    match At(s, a.t)
    case Allocate => AllocateHeap(s, a);
    case Construct(_) => ConstructHeap(s, a);
    case Delete(_) => DeleteHeap(s, a);
    case _ => OtherHeap(s, a);
  }

  lemma HolderStep(s: State, a: Action)
    requires Inv(s) && Enabled(s, a) && s.owner == Some(a.t)
    ensures Inv(Step(s, a))
    ensures Step(s, a).instance == s.instance || s.instance == None || Step(s, a).instance == None
  {
    StepMoves(s, a);
    MutexStep(s, a);
    HolderHeap(s, a);
  }

  lemma StepKeepsInv(s: State, a: Action)
    requires Inv(s) && Enabled(s, a)
    ensures Inv(Step(s, a))
  {
    if s.owner == Some(a.t) {
      HolderStep(s, a);
    } else {
      OutsiderStep(s, a);
    }
  }

  // ---------- runs ----------

  ghost predicate IsRun(s: State, actions: seq<Action>)
    decreases |actions|
  {
    actions == [] || (Enabled(s, actions[0]) && IsRun(Step(s, actions[0]), actions[1..]))
  }

  ghost function End(s: State, actions: seq<Action>): State
    requires IsRun(s, actions)
    decreases |actions|
  {
    if actions == [] then s else End(Step(s, actions[0]), actions[1..])
  }

  lemma StartInv()
    ensures Inv(Start())
  {
  }

  lemma {:induction false} RunKeepsInv(s: State, actions: seq<Action>)
    requires Inv(s) && IsRun(s, actions)
    ensures Inv(End(s, actions)) && End(s, actions).deleted >= s.deleted
    decreases |actions|
  {
    if actions != [] {
      StepKeepsInv(s, actions[0]);
      RunKeepsInv(Step(s, actions[0]), actions[1..]);
    }
  }

  lemma FromStart(actions: seq<Action>, s: State)
    requires s == Start() && IsRun(s, actions)
    ensures Inv(End(s, actions))
  {
    StartInv();
    RunKeepsInv(s, actions);
  }

  /** In every run: at most one object exists, a published pointer is that of the one complete
      object, every delete was of a complete object, so none happened twice, and each object
      was built after the one before it was deleted. */
  lemma AtMostOneObject(actions: seq<Action>)
    requires IsRun(Start(), actions)
    ensures var s := End(Start(), actions);
            && |s.objects| <= 1
            && (s.instance.Some? ==> s.objects == map[s.instance.value := Live])
            && s.missed == 0
            && s.built == s.deleted + |s.objects|
            && forall t: Thread :: At(s, t).Allocate? ==> s.objects == map[] && s.built == s.deleted
  {
    FromStart(actions, Start());
    var s := End(Start(), actions);
    forall t: Thread | At(s, t).Allocate?
      ensures s.owner == Some(t)
    {
      assert Owns(At(s, t));
    }
  }

  /** `instance` returns a pointer to the complete object, published at that moment. */
  lemma ReturnsLiveObject(actions: seq<Action>, a: Action)
    requires IsRun(Start(), actions) && Enabled(End(Start(), actions), a)
    requires Returns(End(Start(), actions), a).Some?
    ensures var s := End(Start(), actions); var p := Returns(s, a).value;
            s.instance == Some(p) && s.objects == map[p := Live]
  {
    FromStart(actions, Start());
    var s := End(Start(), actions);
    if a.Advance? {
      assert Owns(At(s, a.t));
    }
  }

  /** No call of `instance` ends without returning a pointer. */
  lemma InstanceReturns(s: State, a: Action)
    requires Enabled(s, a) && NextPc(s, a).Idle?
    requires a.CallInstance? || At(s, a.t).CreateUnlock?
    ensures Returns(s, a) == if a.CallInstance? then s.instance else Some(At(s, a.t).found)
    ensures Returns(s, a).Some?
  {
  }

  /** A pointer once returned stays the published one until a release takes effect. */
  lemma SameObjectUntilDeleted(before: seq<Action>, after: seq<Action>, p: Address)
    requires IsRun(Start(), before) && End(Start(), before).instance == Some(p)
    requires IsRun(End(Start(), before), after)
    ensures var s, t := End(Start(), before), End(End(Start(), before), after);
            || t.instance == Some(p)
            || t.deleted > s.deleted
            || (t.owner.Some? && At(t, t.owner.value).Delete?)
  {
    FromStart(before, Start());
    StaysPublished(End(Start(), before), after, p);
  }

  /** `p` is published, or its deletion is under way. */
  predicate Standing(s: State, p: Address) {
    s.instance == Some(p) || (s.owner.Some? && At(s, s.owner.value).Delete?)
  }

  lemma StandingStep(s: State, a: Action, p: Address)
    requires Inv(s) && Enabled(s, a) && Standing(s, p)
    ensures Standing(Step(s, a), p) || Step(s, a).deleted > s.deleted
    ensures Step(s, a).deleted >= s.deleted
  {
    StepMoves(s, a);
    assert Owns(At(s, a.t)) <==> s.owner == Some(a.t);
  }

  lemma {:induction false} StaysPublished(s: State, actions: seq<Action>, p: Address)
    requires Inv(s) && IsRun(s, actions) && Standing(s, p)
    ensures Standing(End(s, actions), p) || End(s, actions).deleted > s.deleted
    decreases |actions|
  {
    if actions != [] {
      var s' := Step(s, actions[0]);
      StepKeepsInv(s, actions[0]);
      StandingStep(s, actions[0], p);
      if s'.deleted > s.deleted {
        RunKeepsInv(s', actions[1..]);
      } else {
        StaysPublished(s', actions[1..], p);
      }
    }
  }

  /** The lock is never held by nobody who goes on: while a call is running, some thread can make
      a step. */
  lemma SomeoneGoesOn(s: State, t: Thread, free: Address)
    requires Mutex(s) && !At(s, t).Idle? && free !in s.objects
    ensures Enabled(s, Advance(if s.owner.Some? then s.owner.value else t, free))
  {
    assert s.owner.Some? ==> Owns(At(s, s.owner.value));
  }

  // ---------- releases that come late ----------

  /** The thread is past the load of a `release` that found `p`, and not done with `p`. */
  predicate Releasing(pc: Pc, p: Address) {
    (pc.ReleaseLock? || pc.Exchange? || pc.Delete?) && pc.loaded == p
  }

  /** A release unpublishes and deletes what it loaded if and only if that is published when it
      holds the mutex; otherwise it changes nothing but gives the mutex back. */
  lemma ReleaseDeletesIff(s: State, a: Action)
    requires Enabled(s, a) && a.Advance? && At(s, a.t).Exchange?
    ensures var s', p := Step(s, a), At(s, a.t).loaded;
            && s'.objects == s.objects
            && if s.instance == Some(p) then s'.instance == None && At(s', a.t) == Delete(p)
               else s'.instance == s.instance && At(s', a.t) == ReleaseUnlock
  {
  }

  predicate CallBy(a: Action, t: Thread) { !a.Advance? && a.t == t }

  /** The `k`th action of the run is the call in which `t` loaded `p`, and `t` made no other since. */
  ghost predicate LoadedAt(s: State, actions: seq<Action>, k: nat, t: Thread, p: Address)
    requires IsRun(s, actions)
  {
    && k < |actions| && actions[k] == CallRelease(t)
    && IsRun(s, actions[..k]) && End(s, actions[..k]).instance == Some(p)
    && forall j :: k < j < |actions| ==> !CallBy(actions[j], t)
  }

  lemma StillReleasing(s: State, a: Action, t: Thread, p: Address)
    requires Enabled(s, a) && Releasing(At(Step(s, a), t), p)
    ensures (a == CallRelease(t) && s.instance == Some(p)) || (Releasing(At(s, t), p) && !CallBy(a, t))
  {
    StepMoves(s, a);
  }

  lemma {:induction false} LoadedEarlier(s: State, actions: seq<Action>, t: Thread, p: Address)
    requires IsRun(s, actions) && Releasing(At(End(s, actions), t), p)
    ensures || (exists k: nat :: LoadedAt(s, actions, k, t, p))
            || (Releasing(At(s, t), p) && forall j :: 0 <= j < |actions| ==> !CallBy(actions[j], t))
    decreases |actions|
  {
    if actions != [] {
      var a, rest, s' := actions[0], actions[1..], Step(s, actions[0]);
      LoadedEarlier(s', rest, t, p);
      if k: nat :| LoadedAt(s', rest, k, t, p) {
        assert actions[..k + 1][0] == a && actions[..k + 1][1..] == rest[..k];
        assert LoadedAt(s, actions, k + 1, t, p);
      } else {
        StillReleasing(s, a, t, p);
        if a == CallRelease(t) && s.instance == Some(p) {
          assert actions[..0] == [];
          assert LoadedAt(s, actions, 0, t, p);
        }
      }
    }
  }

  /** In every run: a thread that is about to delete `p` loaded `p` in this very call of `release`,
      when `p` was published. */
  lemma DeletesWhatItLoaded(actions: seq<Action>, t: Thread, p: Address)
    requires IsRun(Start(), actions) && At(End(Start(), actions), t) == Delete(p)
    ensures exists k: nat :: LoadedAt(Start(), actions, k, t, p)
  {
    LoadedEarlier(Start(), actions, t, p);
  }

  // ---------- the class ----------

  function Go(s: State, t: Thread, given: Address): State
    requires Enabled(s, Advance(t, given))
  {
    Step(s, Advance(t, given))
  }

  /** The steps of one call of `instance` that nobody interrupts: the load, and if it finds
      nothing, the lock, the second load, allocation, construction, store and unlock. */
  function InstanceAlone(s: State, t: Thread, given: Address): State
    requires At(s, t).Idle? && s.owner == None && given !in s.objects
  {
    var loaded := Step(s, CallInstance(t));
    if s.instance.Some? then loaded
    else
      var rechecked := Go(Go(loaded, t, given), t, given);
      var stored := Go(Go(Go(rechecked, t, given), t, given), t, given);
      Go(stored, t, given)
  }

  /** ... and of one call of `release`. */
  function ReleaseAlone(s: State, t: Thread): State
    requires At(s, t).Idle? && s.owner == None
  {
    var loaded := Step(s, CallRelease(t));
    if s.instance == None then loaded
    else
      var exchanged := Go(Go(loaded, t, 0), t, 0);
      Go(Go(exchanged, t, 0), t, 0)
  }

  /** What they come to. */
  lemma InstanceAloneIs(s: State, t: Thread, given: Address)
    requires At(s, t).Idle? && s.owner == None && given !in s.objects
    ensures InstanceAlone(s, t, given) ==
            if s.instance.Some? then s.(pcs := s.pcs[t := Idle])
            else s.(instance := Some(given), objects := s.objects[given := UnderConstruction][given := Live],
                    built := s.built + 1, pcs := s.pcs[t := Idle])
  {
    if s.instance == None {
      var s2 := Go(Step(s, CallInstance(t)), t, given);
      assert s2 == s.(owner := Some(t), pcs := s.pcs[t := Recheck]);
      var s3 := Go(s2, t, given);
      assert s3 == s.(owner := Some(t), pcs := s.pcs[t := Allocate]);
      BuildIs(s, s3, t, given);
    }
  }

  /** From the allocation to the unlock. */
  lemma BuildIs(s: State, s3: State, t: Thread, given: Address)
    requires s.owner == None && given !in s.objects && s3 == s.(owner := Some(t), pcs := s.pcs[t := Allocate])
    ensures Go(Go(Go(Go(s3, t, given), t, given), t, given), t, given) ==
            s.(instance := Some(given), objects := s.objects[given := UnderConstruction][given := Live],
               built := s.built + 1, pcs := s.pcs[t := Idle])
  {
    var s4 := Go(s3, t, given);
    assert s4 == s.(owner := Some(t), objects := s.objects[given := UnderConstruction],
                    built := s.built + 1, pcs := s.pcs[t := Construct(given)]);
    var s5 := Go(s4, t, given);
    assert s5 == s.(owner := Some(t), objects := s.objects[given := UnderConstruction][given := Live],
                    built := s.built + 1, pcs := s.pcs[t := Publish(given)]);
  }

  lemma ReleaseAloneIs(s: State, t: Thread)
    requires At(s, t).Idle? && s.owner == None
    ensures ReleaseAlone(s, t) ==
            if s.instance == None then s.(pcs := s.pcs[t := Idle])
            else
              var p := s.instance.value;
              s.(instance := None, objects := s.objects - {p}, deleted := s.deleted + 1, pcs := s.pcs[t := Idle],
                 missed := s.missed + if p in s.objects && s.objects[p] == Live then 0 else 1)
  {
    if s.instance.Some? {
      var p := s.instance.value;
      var s2 := Go(Step(s, CallRelease(t)), t, 0);
      assert s2 == s.(owner := Some(t), pcs := s.pcs[t := Exchange(p)]);
      var s3 := Go(s2, t, 0);
      assert s3 == s.(owner := Some(t), instance := None, pcs := s.pcs[t := Delete(p)]);
    }
  }

  ghost predicate Reachable(s: State) {
    exists actions: seq<Action> :: IsRun(Start(), actions) && End(Start(), actions) == s
  }

  lemma {:induction false} RunThen(s: State, actions: seq<Action>, a: Action)
    requires IsRun(s, actions) && Enabled(End(s, actions), a)
    ensures IsRun(s, actions + [a]) && End(s, actions + [a]) == Step(End(s, actions), a)
    decreases |actions|
  {
    if actions == [] {
      var one := actions + [a];
      assert one[0] == a && one[1..] == [];
      assert IsRun(Step(s, a), one[1..]) && End(Step(s, a), one[1..]) == Step(s, a);
    } else {
      assert (actions + [a])[0] == actions[0] && (actions + [a])[1..] == actions[1..] + [a];
      RunThen(Step(s, actions[0]), actions[1..], a);
    }
  }

  lemma ReachableOn(s: State, a: Action)
    requires Reachable(s) && Enabled(s, a)
    ensures Reachable(Step(s, a))
  {
    var actions: seq<Action> :| IsRun(Start(), actions) && End(Start(), actions) == s;
    RunThen(Start(), actions, a);
  }

  /** Calls that nobody interrupts are runs. */
  lemma BuildReaches(s: State, t: Thread, given: Address)
    requires Reachable(s) && At(s, t) == Allocate && s.owner == Some(t) && given !in s.objects
    ensures Reachable(Go(Go(Go(Go(s, t, given), t, given), t, given), t, given))
  {
    ReachableOn(s, Advance(t, given));
    var s1 := Go(s, t, given);
    assert At(s1, t) == Construct(given);
    ReachableOn(s1, Advance(t, given));
    var s2 := Go(s1, t, given);
    assert At(s2, t) == Publish(given);
    ReachableOn(s2, Advance(t, given));
    ReachableOn(Go(s2, t, given), Advance(t, given));
  }

  lemma InstanceReaches(s: State, t: Thread, given: Address)
    requires Reachable(s) && At(s, t).Idle? && s.owner == None && given !in s.objects
    ensures Reachable(InstanceAlone(s, t, given))
  {
    ReachableOn(s, CallInstance(t));
    if s.instance == None {
      var s1 := Step(s, CallInstance(t));
      ReachableOn(s1, Advance(t, given));
      var s2 := Go(s1, t, given);
      assert At(s2, t) == Recheck;
      ReachableOn(s2, Advance(t, given));
      BuildReaches(Go(s2, t, given), t, given);
    }
  }

  lemma DeleteReaches(s: State, t: Thread)
    requires Reachable(s) && At(s, t).Exchange? && s.owner == Some(t) && s.instance == Some(At(s, t).loaded)
    ensures Reachable(Go(Go(Go(s, t, 0), t, 0), t, 0))
  {
    ReachableOn(s, Advance(t, 0));
    var s1 := Go(s, t, 0);
    assert At(s1, t).Delete?;
    ReachableOn(s1, Advance(t, 0));
    ReachableOn(Go(s1, t, 0), Advance(t, 0));
  }

  lemma ReleaseReaches(s: State, t: Thread)
    requires Reachable(s) && At(s, t).Idle? && s.owner == None
    ensures Reachable(ReleaseAlone(s, t))
  {
    ReachableOn(s, CallRelease(t));
    if s.instance.Some? {
      var s1 := Step(s, CallRelease(t));
      assert At(s1, t) == ReleaseLock(s.instance.value);
      ReachableOn(s1, Advance(t, 0));
      DeleteReaches(Go(s1, t, 0), t);
    }
  }

  /** One object was built at `p`, released and deleted, and another built at the same address;
      thread 1 still holds the pointer that it loaded before. */
  lemma PointerOutlivesObject(p: Address)
    ensures exists s: State ::
              Reachable(s) && s.owner == None && s.instance == Some(p) && s.built == 2 && s.deleted == 1
              && At(s, 1) == ReleaseLock(p)
  {
    assert IsRun(Start(), []) && End(Start(), []) == Start();
    var s1 := InstanceAlone(Start(), 0, p);
    InstanceReaches(Start(), 0, p);
    InstanceAloneIs(Start(), 0, p);
    var s2 := Step(s1, CallRelease(1));
    ReachableOn(s1, CallRelease(1));
    var s3 := ReleaseAlone(s2, 2);
    ReleaseReaches(s2, 2);
    ReleaseAloneIs(s2, 2);
    InstanceReaches(s3, 0, p);
    InstanceAloneIs(s3, 0, p);
  }

  /** The exchange compares addresses: if the allocator gives an address again, a release that
      loaded the pointer to an older object deletes the newer one. */
  lemma ReusedAddressIsDeleted(p: Address)
    ensures exists s: State, t: Thread ::
              Reachable(s) && s.built == 2 && s.deleted == 1 && s.instance == Some(p)
              && At(s, t) == Exchange(p) && At(Step(s, Advance(t, 0)), t) == Delete(p)
  {
    PointerOutlivesObject(p);
    var s: State :|
      Reachable(s) && s.owner == None && s.instance == Some(p) && s.built == 2 && s.deleted == 1
      && At(s, 1) == ReleaseLock(p);
    ReachableOn(s, Advance(1, 0));
    assert At(Step(s, Advance(1, 0)), 1) == Exchange(p);
  }

  class Holder {
    var instance: Option<Address>
    var objects: map<Address, Phase>
    var owner: Option<Thread>
    ghost var pcs: map<Thread, Pc>
    ghost var built: nat
    ghost var deleted: nat
    ghost var missed: nat

    ghost function View(): State
      reads this
    {
      State(instance, objects, owner, pcs, built, deleted, missed)
    }

    constructor ()
      ensures View() == Start()
    {
      instance, objects, owner := None, map[], None;
      pcs, built, deleted, missed := map[], 0, 0, 0;
    }

    /** `given` is the address that `new` returns. */
    method GetInstance(t: Thread, given: Address) returns (pt: Address)
      requires At(View(), t).Idle? && owner == None && given !in objects
      modifies this
      ensures View() == InstanceAlone(old(View()), t, given)
      ensures instance == Some(pt) && (old(instance).Some? ==> pt == old(instance).value)
    {
      InstanceAloneIs(View(), t, given);
      var loaded := instance;
      if loaded == None {
        owner := Some(t);
        loaded := instance;
        if loaded == None {
          objects := objects[given := UnderConstruction];
          built := built + 1;
          objects := objects[given := Live];
          loaded := Some(given);
          instance := loaded;
        }
        owner := None;
      }
      pcs := pcs[t := Idle];
      pt := loaded.value;
    }

    method Release(t: Thread)
      requires At(View(), t).Idle? && owner == None
      modifies this
      ensures View() == ReleaseAlone(old(View()), t)
      ensures instance == None
    {
      ReleaseAloneIs(View(), t);
      var loaded := instance;
      if loaded != None {
        owner := Some(t);
        if instance == loaded {
          instance := None;
          missed := missed + if loaded.value in objects && objects[loaded.value] == Live then 0 else 1;
          objects := objects - {loaded.value};
          deleted := deleted + 1;
        }
        owner := None;
      }
      pcs := pcs[t := Idle];
    }
  }
}
