/** `pipe_message_service`: the list of channels, and who listens for the next client. */
module PipeService {
  import opened FileIo
  import opened Frames

  datatype IoMode = CreateMode | OpenMode | CreateMultipleMode

  type ChannelId = nat

  /** A channel of the list: the type of its read context, and whether its `connect_completed`
      has run. */
  datatype Listed = Listed(id: ChannelId, mode: IoMode, kind: IoType, ran: bool)

  datatype Task = ConnectTask(id: ChannelId) | CloseTask(id: ChannelId)

  /** `created` counts the client's calls of `create_channel`, `failed` the pending connects that
      broke, `closed` the listeners that the client closed.  Channel identities are fresh. */
  datatype Service = Service(
    mode: IoMode, channels: seq<Listed>, tasks: seq<Task>, nextId: ChannelId, created: nat, failed: nat, closed: nat)

  /** What happens at the service, one task or completion at a time. */
  datatype Event =
    | ClientCreates(first: bool)
    | ClientCloses(id: ChannelId)
    | TaskRuns(clientWaiting: bool)
    | ConnectCompletes(at: nat)
    | ConnectBreaks(at: nat)
    | ReadCompletes(at: nat)
    | ReadBreaks(at: nat)
    | WriteBreaks(at: nat)

  function Start(mode: IoMode): Service { Service(mode, [], [], 0, 0, 0, 0) }

  // ---------- specification ----------

  /** Only the first instance of a pipe's name is opened in the service's own mode. */
  function NewChannel(s: Service, first: bool): Listed {
    Listed(s.nextId, if first then s.mode else CreateMultipleMode, Unknown, false)
  }

  function AddChannel(s: Service, first: bool): Service {
    s.(channels := s.channels + [NewChannel(s, first)],
       tasks := s.tasks + [ConnectTask(s.nextId)],
       nextId := s.nextId + 1)
  }

  function ClientAdds(s: Service, first: bool): Service { AddChannel(s, first).(created := s.created + 1) }

  /** The channels that a client's handler creates. */
  function ClientAddsAll(s: Service, firsts: seq<bool>): Service
    decreases |firsts|
  {
    if firsts == [] then s else ClientAdds(ClientAddsAll(s, firsts[..|firsts| - 1]), firsts[|firsts| - 1])
  }

  lemma {:induction false} AddsBehind(s: Service, firsts: seq<bool>)
    ensures var t := ClientAddsAll(s, firsts);
            t.mode == s.mode && |t.channels| >= |s.channels| && t.channels[..|s.channels|] == s.channels
    decreases |firsts|
  {
    if firsts != [] {
      AddsBehind(s, firsts[..|firsts| - 1]);
    }
  }

  function Without(cs: seq<Listed>, id: ChannelId): seq<Listed> {
    if cs == [] then []
    else (if cs[0].id == id then [] else [cs[0]]) + Without(cs[1..], id)
  }

  function SetKind(s: Service, at: nat, kind: IoType, ran: bool): Service
    requires at < |s.channels|
  {
    s.(channels := s.channels[at := s.channels[at].(kind := kind, ran := ran)])
  }

  /** `message_handler`, after the client's own handler. */
  function Handled(s: Service, at: nat): Service
    requires at < |s.channels|
  {
    var c := s.channels[at];
    if c.kind == Broken || c.kind == Close then s.(tasks := s.tasks + [CloseTask(c.id)])
    else if c.kind == Create && s.mode == CreateMode then AddChannel(s, false)
    else s
  }

  /** `connect_completed`: handler first, then, on a connected pipe, the first read. */
  function ConnectDone(s: Service, at: nat): Service
    requires at < |s.channels|
  {
    var c := s.channels[at];
    SetKind(Handled(s, at), at, if c.kind == Broken then Broken else Read, true)
  }

  function Find(cs: seq<Listed>, id: ChannelId): (at: nat)
    ensures at <= |cs|
    ensures at < |cs| ==> cs[at].id == id
    ensures forall i :: 0 <= i < at ==> cs[i].id != id
  {
    if cs == [] || cs[0].id == id then 0 else 1 + Find(cs[1..], id)
  }

  /** 1 if the channel with this identity still waits for a client. */
  function Listens(cs: seq<Listed>, id: ChannelId): nat {
    var at := Find(cs, id);
    if at < |cs| && !cs[at].ran then 1 else 0
  }

  /** The connect task of a channel: a pipe opened as a client is connected at once. */
  function ConnectRuns(s: Service, id: ChannelId, clientWaiting: bool): Service {
    var at := Find(s.channels, id);
    if at == |s.channels| then s
    else
      var t := SetKind(s, at, Create, s.channels[at].ran);
      if t.channels[at].mode == OpenMode || clientWaiting then ConnectDone(t, at) else t
  }

  predicate Enabled(s: Service, e: Event) {
    match e
    case ClientCreates(_) => true
    case ClientCloses(_) => true
    case TaskRuns(_) => s.tasks != []
    case ConnectCompletes(at) => at < |s.channels| && s.channels[at].kind == Create
    case ConnectBreaks(at) => at < |s.channels| && s.channels[at].kind == Create
    case ReadCompletes(at) => at < |s.channels| && s.channels[at].kind == Read
    case ReadBreaks(at) => at < |s.channels| && s.channels[at].kind == Read
    case WriteBreaks(at) => at < |s.channels| && s.channels[at].ran
  }

  function Apply(s: Service, e: Event): Service
    requires Enabled(s, e)
  {
    match e
    case ClientCreates(first) => ClientAdds(s, first)
    case ClientCloses(id) => s.(channels := Without(s.channels, id), closed := s.closed + Listens(s.channels, id))
    case TaskRuns(clientWaiting) =>
      var rest := s.(tasks := s.tasks[1..]);
      (match s.tasks[0]
       case ConnectTask(id) => ConnectRuns(rest, id, clientWaiting)
       case CloseTask(id) => rest.(channels := Without(s.channels, id)))
    case ConnectCompletes(at) => ConnectDone(s, at)
    case ConnectBreaks(at) => ConnectDone(SetKind(s, at, Broken, s.channels[at].ran), at).(failed := s.failed + 1)
    case ReadCompletes(at) => Handled(s, at)
    case ReadBreaks(at) => Handled(SetKind(s, at, Broken, s.channels[at].ran), at)
    case WriteBreaks(at) => Handled(s, at)
  }

  // ---------- the class ----------

  class PipeMessageService {
    const mode: IoMode
    var channels: seq<Listed>
    var tasks: seq<Task>
    var nextId: ChannelId
    ghost var created: nat
    ghost var failed: nat
    ghost var closed: nat

    ghost function View(): Service
      reads this
    {
      Service(mode, channels, tasks, nextId, created, failed, closed)
    }

    constructor (mode: IoMode)
      ensures View() == Start(mode)
    {
      this.mode := mode;
      channels, tasks, nextId := [], [], 0;
      created, failed, closed := 0, 0, 0;
    }

    method CreateChannel(first: bool) returns (id: ChannelId)
      modifies this`channels, this`tasks, this`nextId
      ensures View() == AddChannel(old(View()), first) && id == old(nextId)
    {
      id := nextId;
      channels := channels + [Listed(id, if first then mode else CreateMultipleMode, Unknown, false)];
      tasks := tasks + [ConnectTask(id)];
      nextId := nextId + 1;
    }

    /** `remove_if` by identity. */
    method CloseChannel(id: ChannelId)
      modifies this`channels
      ensures channels == Without(old(channels), id)
    {
      var kept: seq<Listed> := [];
      var all := channels;
      var i := |all|;
      while i > 0
        invariant 0 <= i <= |all| && kept == Without(all[i..], id)
      {
        i := i - 1;
        assert all[i..][1..] == all[i + 1..];
        if all[i].id != id {
          kept := [all[i]] + kept;
        }
      }
      channels := kept;
    }

    /** The client's own handler, here the channels it creates, comes first. */
    method RunHandler(firsts: seq<bool>)
      modifies this
      ensures View() == ClientAddsAll(old(View()), firsts)
    {
      for i := 0 to |firsts|
        invariant View() == ClientAddsAll(old(View()), firsts[..i])
      {
        assert firsts[..i + 1][..i] == firsts[..i];
        var id := CreateChannel(firsts[i]);
        created := created + 1;
      }
      assert firsts[..|firsts|] == firsts;
    }

    method MessageHandler(at: nat, firsts: seq<bool>)
      requires at < |channels|
      modifies this
      ensures at < |ClientAddsAll(old(View()), firsts).channels|
      ensures View() == Handled(ClientAddsAll(old(View()), firsts), at)
    {
      AddsBehind(View(), firsts);
      RunHandler(firsts);
      var c := channels[at];
      if c.kind == Broken || c.kind == Close {
        tasks := tasks + [CloseTask(c.id)];
      } else if c.kind == Create && mode == CreateMode {
        var id := CreateChannel(false);
      }
    }

    method ConnectCompleted(at: nat, firsts: seq<bool>)
      requires at < |channels| && (channels[at].kind == Create || channels[at].kind == Broken)
      modifies this
      ensures at < |ClientAddsAll(old(View()), firsts).channels|
      ensures View() == ConnectDone(ClientAddsAll(old(View()), firsts), at)
    {
      var broken := channels[at].kind == Broken;
      AddsBehind(View(), firsts);
      assert ClientAddsAll(View(), firsts).channels[at] == channels[at];
      MessageHandler(at, firsts);
      channels := channels[at := channels[at].(kind := if broken then Broken else Read, ran := true)];
    }
  }

  // ---------- the listener law ----------

  /** Channels whose `connect_completed` has not run: those that listen or are about to. */
  function Listeners(cs: seq<Listed>): nat {
    if cs == [] then 0 else (if cs[0].ran then 0 else 1) + Listeners(cs[1..])
  }

  lemma {:induction false} ListenersAppend(cs: seq<Listed>, c: Listed)
    ensures Listeners(cs + [c]) == Listeners(cs) + if c.ran then 0 else 1
  {
    if cs != [] {
      assert (cs + [c])[1..] == cs[1..] + [c];
      ListenersAppend(cs[1..], c);
    }
  }

  lemma {:induction false} ListenersUpdate(cs: seq<Listed>, at: nat, c: Listed)
    requires at < |cs|
    ensures Listeners(cs[at := c]) + (if cs[at].ran then 0 else 1) == Listeners(cs) + if c.ran then 0 else 1
  {
    if at == 0 {
      assert cs[at := c][1..] == cs[1..];
    } else {
      assert cs[at := c][1..] == cs[1..][at - 1 := c];
      ListenersUpdate(cs[1..], at - 1, c);
    }
  }

  lemma {:induction false} ListenersWithout(cs: seq<Listed>, id: ChannelId)
    requires forall c :: c in cs && c.id == id ==> c.ran
    ensures Listeners(Without(cs, id)) == Listeners(cs)
  {
    if cs != [] {
      ListenersWithout(cs[1..], id);
      var w := Without(cs[1..], id);
      assert ([cs[0]] + w)[1..] == w;
      assert Without(cs, id) == if cs[0].id == id then w else [cs[0]] + w;
    }
  }

  lemma {:induction false} ListenersRemoved(cs: seq<Listed>, id: ChannelId)
    requires DistinctIds(cs)
    ensures Listeners(Without(cs, id)) + Listens(cs, id) == Listeners(cs)
  {
    if cs != [] {
      var w := Without(cs[1..], id);
      assert ([cs[0]] + w)[1..] == w;
      if cs[0].id == id {
        ListenersWithout(cs[1..], id);
        assert Without(cs, id) == w;
      } else {
        ListenersRemoved(cs[1..], id);
        assert Without(cs, id) == [cs[0]] + w;
        assert Find(cs, id) == 1 + Find(cs[1..], id);
      }
    }
  }

  lemma {:induction false} WithoutMembers(cs: seq<Listed>, id: ChannelId)
    ensures forall c :: c in Without(cs, id) <==> c in cs && c.id != id
  {
    if cs != [] {
      WithoutMembers(cs[1..], id);
      assert forall c :: c in cs <==> c == cs[0] || c in cs[1..];
    }
  }

  lemma DistinctTail(cs: seq<Listed>)
    requires DistinctIds(cs) && cs != []
    ensures DistinctIds(cs[1..]) && forall c :: c in cs[1..] ==> c.id != cs[0].id
  {
    forall c | c in cs[1..]
      ensures c.id != cs[0].id
    {
      var i :| 0 <= i < |cs[1..]| && cs[1..][i] == c;
      assert cs[i + 1] == c;
    }
  }

  lemma DistinctCons(c: Listed, cs: seq<Listed>)
    requires DistinctIds(cs) && forall d :: d in cs ==> d.id != c.id
    ensures DistinctIds([c] + cs)
  {
  }

  lemma {:induction false} WithoutDistinct(cs: seq<Listed>, id: ChannelId)
    requires DistinctIds(cs)
    ensures DistinctIds(Without(cs, id))
  {
    if cs != [] {
      DistinctTail(cs);
      WithoutDistinct(cs[1..], id);
      WithoutMembers(cs[1..], id);
      if cs[0].id == id {
        assert Without(cs, id) == Without(cs[1..], id);
      } else {
        DistinctCons(cs[0], Without(cs[1..], id));
      }
    }
  }

  lemma WithoutKeeps(cs: seq<Listed>, id: ChannelId)
    requires DistinctIds(cs)
    ensures DistinctIds(Without(cs, id))
    ensures forall c :: c in Without(cs, id) <==> c in cs && c.id != id
  {
    WithoutDistinct(cs, id);
    WithoutMembers(cs, id);
  }

  // ---------- what every event keeps ----------

  ghost predicate DistinctIds(cs: seq<Listed>) {
    forall i, j :: 0 <= i < j < |cs| ==> cs[i].id != cs[j].id
  }

  ghost predicate OneConnectEach(ts: seq<Task>) {
    forall i, j :: 0 <= i < j < |ts| && ts[i].ConnectTask? ==> ts[j] != ts[i]
  }

  /** A channel still to connect waits for its task or for a client; any other is connected, or
      broken with its removal queued. */
  predicate Good(c: Listed, ts: seq<Task>) {
    && (c.kind == Unknown <==> ConnectTask(c.id) in ts)
    && (c.kind == Broken <==> CloseTask(c.id) in ts)
    && if c.ran then c.kind == Read || c.kind == Broken else c.kind == Unknown || c.kind == Create
  }

  ghost predicate ListInv(s: Service) {
    && DistinctIds(s.channels) && OneConnectEach(s.tasks)
    && (forall c :: c in s.channels ==> c.id < s.nextId && Good(c, s.tasks))
    && (forall t :: t in s.tasks ==> t.id < s.nextId)
  }

  /** One channel changes, and the queued tasks only as far as they name it. */
  lemma OneChanges(s: Service, at: nat, c: Listed, ts: seq<Task>)
    requires ListInv(s) && at < |s.channels| && c.id == s.channels[at].id
    requires OneConnectEach(ts) && Good(c, ts)
    requires forall t: Task :: t.id != c.id ==> (t in ts <==> t in s.tasks)
    ensures ListInv(s.(channels := s.channels[at := c], tasks := ts))
  {
    var cs := s.channels[at := c];
    forall d | d in cs
      ensures d.id < s.nextId && Good(d, ts)
    {
      var i :| 0 <= i < |cs| && cs[i] == d;
      assert i != at ==> d in s.channels && d.id != c.id;
      assert s.channels[at] in s.channels;
    }
    forall t | t in ts
      ensures t.id < s.nextId
    {
      assert s.channels[at] in s.channels;
    }
  }

  lemma AddKeeps(s: Service, first: bool)
    requires ListInv(s)
    ensures ListInv(AddChannel(s, first))
    ensures Listeners(AddChannel(s, first).channels) == Listeners(s.channels) + 1
  {
    ListenersAppend(s.channels, NewChannel(s, first));
    var t := AddChannel(s, first);
    forall c | c in t.channels
      ensures c.id < t.nextId && Good(c, t.tasks)
    {
    }
  }

  /** A client connects: its channel starts reading, and a server adds a listener for the next. */
  lemma ConnectKeeps(s: Service, at: nat)
    requires ListInv(s) && at < |s.channels| && s.channels[at].kind == Create
    ensures ListInv(ConnectDone(s, at))
    ensures Listeners(ConnectDone(s, at).channels) == Listeners(s.channels) - if s.mode == CreateMode then 0 else 1
  {
    var h := Handled(s, at);
    assert s.channels[at] in s.channels;
    if s.mode == CreateMode {
      AddKeeps(s, false);
    }
    var c := h.channels[at].(kind := Read, ran := true);
    assert h.channels[at] == s.channels[at] && h.channels[at] in h.channels;
    OneChanges(h, at, c, h.tasks);
    ListenersUpdate(h.channels, at, c);
  }

  /** A channel breaks: its removal is queued. */
  lemma BreakKeeps(s: Service, at: nat)
    requires ListInv(s) && at < |s.channels| && (s.channels[at].kind == Create || s.channels[at].kind == Read)
    ensures var c := s.channels[at].(kind := Broken, ran := true);
            var t := s.(channels := s.channels[at := c], tasks := s.tasks + [CloseTask(c.id)]);
            && ListInv(t)
            && Listeners(t.channels) == Listeners(s.channels) - if s.channels[at].ran then 0 else 1
  {
    assert s.channels[at] in s.channels;
    var c := s.channels[at].(kind := Broken, ran := true);
    OneChanges(s, at, c, s.tasks + [CloseTask(c.id)]);
    ListenersUpdate(s.channels, at, c);
  }

  lemma CloseKeeps(s: Service)
    requires ListInv(s) && s.tasks != [] && s.tasks[0].CloseTask?
    ensures var t := s.(tasks := s.tasks[1..], channels := Without(s.channels, s.tasks[0].id));
            ListInv(t) && Listeners(t.channels) == Listeners(s.channels)
  {
    var id := s.tasks[0].id;
    assert s.tasks == [s.tasks[0]] + s.tasks[1..];
    WithoutKeeps(s.channels, id);
    ListenersWithout(s.channels, id);
    forall c | c in Without(s.channels, id)
      ensures Good(c, s.tasks[1..])
    {
    }
  }

  /** The client closes a channel; the tasks queued for it stay queued. */
  lemma ClientCloseKeeps(s: Service, id: ChannelId)
    requires ListInv(s)
    ensures ListInv(s.(channels := Without(s.channels, id)))
    ensures Listeners(Without(s.channels, id)) + Listens(s.channels, id) == Listeners(s.channels)
  {
    WithoutKeeps(s.channels, id);
    ListenersRemoved(s.channels, id);
  }

  lemma ConnectTaskKeeps(s: Service, clientWaiting: bool)
    requires ListInv(s) && s.tasks != [] && s.tasks[0].ConnectTask?
    ensures var t := ConnectRuns(s.(tasks := s.tasks[1..]), s.tasks[0].id, clientWaiting);
            && ListInv(t)
            && (s.mode == CreateMode ==> Listeners(t.channels) == Listeners(s.channels))
            && Listeners(t.channels) <= Listeners(s.channels)
  {
    var id := s.tasks[0].id;
    var at := Find(s.channels, id);
    assert s.tasks == [s.tasks[0]] + s.tasks[1..];
    if at < |s.channels| {
      assert s.channels[at] in s.channels && Good(s.channels[at], s.tasks);
      var c := s.channels[at].(kind := Create);
      OneChanges(s, at, c, s.tasks[1..]);
      ListenersUpdate(s.channels, at, c);
      var t := SetKind(s.(tasks := s.tasks[1..]), at, Create, s.channels[at].ran);
      if t.channels[at].mode == OpenMode || clientWaiting {
        ConnectKeeps(t, at);
      }
    } else {
      forall c | c in s.channels
        ensures Good(c, s.tasks[1..])
      {
        assert c.id != id;
      }
    }
  }

  lemma WriteBreakKeeps(s: Service, at: nat)
    requires ListInv(s) && at < |s.channels| && s.channels[at].ran
    ensures ListInv(Handled(s, at)) && Handled(s, at).channels == s.channels
  {
    var c := s.channels[at];
    assert c in s.channels;
    if c.kind == Broken {
      OneChanges(s, at, c, s.tasks + [CloseTask(c.id)]);
      assert s.channels[at := c] == s.channels;
    }
  }

  lemma ConnectBreakKeeps(s: Service, at: nat)
    requires ListInv(s) && at < |s.channels| && s.channels[at].kind == Create
    ensures var t := ConnectDone(SetKind(s, at, Broken, s.channels[at].ran), at);
            ListInv(t) && Listeners(t.channels) == Listeners(s.channels) - 1
  {
    BreakKeeps(s, at);
    assert s.channels[at] in s.channels;
    var c := s.channels[at].(kind := Broken, ran := true);
    assert ConnectDone(SetKind(s, at, Broken, s.channels[at].ran), at).channels == s.channels[at := c];
  }

  ghost predicate Inv(s: Service) {
    && ListInv(s)
    && (s.mode == CreateMode ==> Listeners(s.channels) + s.failed + s.closed == s.created)
    && Listeners(s.channels) + s.failed + s.closed <= s.created
  }

  lemma TaskKeepsInv(s: Service, clientWaiting: bool)
    requires Inv(s) && s.tasks != []
    ensures Inv(Apply(s, TaskRuns(clientWaiting))) && Apply(s, TaskRuns(clientWaiting)).mode == s.mode
  {
    if s.tasks[0].ConnectTask? {
      ConnectTaskKeeps(s, clientWaiting);
    } else {
      CloseKeeps(s);
    }
  }

  lemma BreaksKeepInv(s: Service, e: Event)
    requires Inv(s) && Enabled(s, e) && (e.ConnectBreaks? || e.ReadBreaks? || e.WriteBreaks?)
    ensures Inv(Apply(s, e)) && Apply(s, e).mode == s.mode
  {
    assert s.channels[e.at] in s.channels;
    match e
    case ConnectBreaks(at) => ConnectBreakKeeps(s, at);
    case ReadBreaks(at) => BreakKeeps(s, at);
    case WriteBreaks(at) => WriteBreakKeeps(s, at);
  }

  lemma ApplyKeepsInv(s: Service, e: Event)
    requires Inv(s) && Enabled(s, e)
    ensures Inv(Apply(s, e)) && Apply(s, e).mode == s.mode
  {
    match e
    case ClientCreates(first) => AddKeeps(s, first);
    case ClientCloses(id) => ClientCloseKeeps(s, id);
    case TaskRuns(clientWaiting) => TaskKeepsInv(s, clientWaiting);
    case ConnectCompletes(at) => ConnectKeeps(s, at);
    case ReadCompletes(at) =>
    case _ => BreaksKeepInv(s, e);
  }

  ghost predicate IsRun(s: Service, events: seq<Event>)
    decreases |events|
  {
    events == [] || (Enabled(s, events[0]) && IsRun(Apply(s, events[0]), events[1..]))
  }

  ghost function After(s: Service, events: seq<Event>): Service
    requires IsRun(s, events)
    decreases |events|
  {
    if events == [] then s else After(Apply(s, events[0]), events[1..])
  }

  lemma {:induction false} RunKeepsInv(s: Service, events: seq<Event>)
    requires Inv(s) && IsRun(s, events)
    ensures Inv(After(s, events)) && After(s, events).mode == s.mode
    decreases |events|
  {
    if events != [] {
      ApplyKeepsInv(s, events[0]);
      RunKeepsInv(Apply(s, events[0]), events[1..]);
    }
  }

  lemma StartInv(mode: IoMode)
    ensures Inv(Start(mode))
  {
  }

  /** What a service of this mode can come to. */
  ghost predicate Reachable(mode: IoMode, s: Service) {
    exists events: seq<Event> :: IsRun(Start(mode), events) && After(Start(mode), events) == s
  }

  lemma ReachableInv(mode: IoMode, s: Service)
    requires Reachable(mode, s)
    ensures Inv(s) && s.mode == mode
  {
    var events: seq<Event> :| IsRun(Start(mode), events) && After(Start(mode), events) == s;
    StartInv(mode);
    RunKeepsInv(Start(mode), events);
  }

  /** The server always listens: in every run of a service with mode `create`, the channels that
      still wait for a client are as many as the client created, less the pending connects that
      broke and the listeners that the client itself closed.  So nothing the client created is
      missing, and a server that created one channel has exactly one listener, if and only if no
      pending connect broke and no listener was closed. */
  lemma ServerListens(s: Service)
    requires Reachable(CreateMode, s)
    ensures Listeners(s.channels) + s.failed + s.closed == s.created
    ensures Listeners(s.channels) == s.created <==> s.failed == 0 && s.closed == 0
    ensures s.created == 1 ==> (Listeners(s.channels) == 1 <==> s.failed == 0 && s.closed == 0)
  {
    ReachableInv(CreateMode, s);
  }

  /** A lost listener stays lost: without a new channel from the client, listeners never become
      more. */
  lemma {:induction false} LossesStay(s: Service, events: seq<Event>)
    requires IsRun(s, events)
    ensures After(s, events).failed >= s.failed && After(s, events).closed >= s.closed
    decreases |events|
  {
    if events != [] {
      LossesStay(Apply(s, events[0]), events[1..]);
    }
  }

  lemma LostForGood(s: Service, events: seq<Event>)
    requires Reachable(CreateMode, s) && IsRun(s, events) && After(s, events).created == s.created
    ensures Listeners(After(s, events).channels) <= Listeners(s.channels)
  {
    ReachableInv(CreateMode, s);
    RunKeepsInv(s, events);
    LossesStay(s, events);
  }

  lemma OneEvent(s: Service, e: Event, events: seq<Event>)
    requires Enabled(s, e) && IsRun(Apply(s, e), events)
    ensures IsRun(s, [e] + events) && After(s, [e] + events) == After(Apply(s, e), events)
  {
    assert ([e] + events)[1..] == events;
  }

  /** A server that created one channel, which now waits for a client. */
  function Waiting(): Service {
    Service(CreateMode, [Listed(0, CreateMode, Create, false)], [], 1, 1, 0, 0)
  }

  lemma AfterWaiting(e: Event)
    requires Enabled(Waiting(), e)
    ensures Reachable(CreateMode, Waiting()) && Reachable(CreateMode, Apply(Waiting(), e))
  {
    var s0, s1 := Start(CreateMode), Apply(Start(CreateMode), ClientCreates(true));
    assert s1.channels == [Listed(0, CreateMode, Unknown, false)] && s1.tasks == [ConnectTask(0)];
    assert Apply(s1, TaskRuns(false)) == Waiting();
    OneEvent(s1, TaskRuns(false), []);
    OneEvent(s0, ClientCreates(true), [TaskRuns(false)] + []);
    OneEvent(Waiting(), e, []);
    OneEvent(s1, TaskRuns(false), [e] + []);
    OneEvent(s0, ClientCreates(true), [TaskRuns(false)] + ([e] + []));
  }

  lemma WaitingLost(e: Event)
    requires e == ConnectBreaks(0) || e == ClientCloses(0)
    ensures var s := Apply(Waiting(), e);
            && Reachable(CreateMode, s) && s.created == 1 && Listeners(s.channels) == 0
            && s.failed == (if e.ConnectBreaks? then 1 else 0) && s.closed == (if e.ConnectBreaks? then 0 else 1)
  {
    AfterWaiting(e);
    ServerListens(Apply(Waiting(), e));
    assert Find(Waiting().channels, 0) == 0;
  }

  /** Both losses are possible: the waiting connect breaks, or the client closes the channel, and
      nobody listens. */
  lemma ListenerCanBeLost()
    ensures exists s: Service ::
              Reachable(CreateMode, s) && s.created == 1 && s.closed == 0 && Listeners(s.channels) == 0
    ensures exists s: Service ::
              Reachable(CreateMode, s) && s.created == 1 && s.failed == 0 && Listeners(s.channels) == 0
  {
    WaitingLost(ConnectBreaks(0));
    WaitingLost(ClientCloses(0));
  }

  /** The other channels are exactly those connected and not yet closed. */
  lemma OthersAreConnected(mode: IoMode, s: Service, c: Listed)
    requires Reachable(mode, s) && c in s.channels
    ensures c.ran <==> c.kind == Read || c.kind == Broken
    ensures c.kind == Broken <==> CloseTask(c.id) in s.tasks
    ensures c.ran || c.kind == Create || ConnectTask(c.id) in s.tasks
  {
    ReachableInv(mode, s);
  }

  /** Clients and the kernel are not held back: channels may be created and closed at any time, a
      pending connect may complete or break, a read may complete or break, a write may break on
      any channel that was connected, and the first task may run. */
  lemma EventsAreFree(s: Service, at: nat, id: ChannelId, flag: bool)
    ensures Enabled(s, ClientCreates(flag)) && Enabled(s, ClientCloses(id))
    ensures s.tasks != [] ==> Enabled(s, TaskRuns(flag))
    ensures at < |s.channels| && s.channels[at].kind == Create ==>
              Enabled(s, ConnectCompletes(at)) && Enabled(s, ConnectBreaks(at))
    ensures at < |s.channels| && s.channels[at].kind == Read ==>
              Enabled(s, ReadCompletes(at)) && Enabled(s, ReadBreaks(at))
    ensures at < |s.channels| && s.channels[at].ran ==> Enabled(s, WriteBreaks(at))
  {
  }

  /** A channel is opened in the service's own mode if and only if it is a first instance. */
  lemma CreatedInMode(s: Service, first: bool)
    requires ListInv(s)
    ensures var t := AddChannel(s, first);
            var c := t.channels[|t.channels| - 1];
            && t.channels[..|t.channels| - 1] == s.channels
            && c.id == s.nextId && !c.ran && ConnectTask(c.id) in t.tasks
            && (s.mode != CreateMultipleMode ==> (c.mode == s.mode <==> first))
            && (!first ==> c.mode == CreateMultipleMode)
  {
  }

  predicate OnlyFirsts(events: seq<Event>) {
    forall e :: e in events && e.ClientCreates? ==> e.first
  }

  ghost predicate AllOpen(s: Service) {
    s.mode == OpenMode && forall c :: c in s.channels ==> c.mode == OpenMode && c.kind != Create
  }

  lemma OpenStep(s: Service, e: Event)
    requires ListInv(s) && AllOpen(s) && Enabled(s, e) && (e.ClientCreates? ==> e.first)
    ensures AllOpen(Apply(s, e))
  {
    if e.ClientCloses? {
      WithoutKeeps(s.channels, e.id);
    } else if e.TaskRuns? && s.tasks[0].CloseTask? {
      WithoutKeeps(s.channels, s.tasks[0].id);
    } else if e.TaskRuns? {
      var at := Find(s.channels, s.tasks[0].id);
      assert at < |s.channels| ==> s.channels[at] in s.channels;
    }
  }

  lemma {:induction false} OpenRun(s: Service, events: seq<Event>)
    requires Inv(s) && AllOpen(s) && IsRun(s, events) && OnlyFirsts(events)
    ensures AllOpen(After(s, events))
    decreases |events|
  {
    if events != [] {
      assert events[0] in events;
      OpenStep(s, events[0]);
      ApplyKeepsInv(s, events[0]);
      OpenRun(Apply(s, events[0]), events[1..]);
    }
  }

  /** A client never waits for a client: in every run of a service with mode `open` whose channels
      are all first instances, every channel is opened in that mode, none has a pending connect,
      and whichever connect task has run has connected its channel. */
  lemma ClientsNeverWait(events: seq<Event>)
    requires IsRun(Start(OpenMode), events) && OnlyFirsts(events)
    ensures var s := After(Start(OpenMode), events);
            forall c :: c in s.channels ==>
              c.mode == OpenMode && c.kind != Create && (c.ran <==> ConnectTask(c.id) !in s.tasks)
  {
    StartInv(OpenMode);
    OpenRun(Start(OpenMode), events);
    RunKeepsInv(Start(OpenMode), events);
  }

  /** Channels opened in a given mode, and first instances asked for by the client. */
  function InMode(cs: seq<Listed>, mode: IoMode): nat {
    if cs == [] then 0 else (if cs[0].mode == mode then 1 else 0) + InMode(cs[1..], mode)
  }

  function Firsts(events: seq<Event>): nat {
    if events == [] then 0
    else (if events[0].ClientCreates? && events[0].first then 1 else 0) + Firsts(events[1..])
  }

  lemma {:induction false} InModeAppend(cs: seq<Listed>, c: Listed, mode: IoMode)
    ensures InMode(cs + [c], mode) == InMode(cs, mode) + if c.mode == mode then 1 else 0
  {
    if cs != [] {
      assert (cs + [c])[1..] == cs[1..] + [c];
      InModeAppend(cs[1..], c, mode);
    }
  }

  lemma {:induction false} InModeUpdate(cs: seq<Listed>, at: nat, c: Listed, mode: IoMode)
    requires at < |cs| && c.mode == cs[at].mode
    ensures InMode(cs[at := c], mode) == InMode(cs, mode)
  {
    if at == 0 {
      assert cs[at := c][1..] == cs[1..];
    } else {
      assert cs[at := c][1..] == cs[1..][at - 1 := c];
      InModeUpdate(cs[1..], at - 1, c, mode);
    }
  }

  lemma {:induction false} InModeWithout(cs: seq<Listed>, id: ChannelId, mode: IoMode)
    ensures InMode(Without(cs, id), mode) <= InMode(cs, mode)
  {
    if cs != [] {
      InModeWithout(cs[1..], id, mode);
      var w := Without(cs[1..], id);
      assert ([cs[0]] + w)[1..] == w;
      assert Without(cs, id) == if cs[0].id == id then w else [cs[0]] + w;
    }
  }

  lemma InModeConnect(s: Service, at: nat, kind: IoType)
    requires at < |s.channels| && s.mode != CreateMultipleMode
    ensures InMode(ConnectDone(SetKind(s, at, kind, s.channels[at].ran), at).channels, s.mode)
         == InMode(s.channels, s.mode)
  {
    var c := s.channels[at].(kind := kind);
    var t := SetKind(s, at, kind, s.channels[at].ran);
    InModeUpdate(s.channels, at, c, s.mode);
    var h := Handled(t, at);
    InModeAppend(t.channels, NewChannel(t, false), s.mode);
    var d := h.channels[at].(kind := if c.kind == Broken then Broken else Read, ran := true);
    InModeUpdate(h.channels, at, d, s.mode);
  }

  lemma InModeStep(s: Service, e: Event)
    requires Enabled(s, e) && s.mode != CreateMultipleMode
    ensures Apply(s, e).mode == s.mode
    ensures InMode(Apply(s, e).channels, s.mode)
         <= InMode(s.channels, s.mode) + if e.ClientCreates? && e.first then 1 else 0
  {
    match e
    case ClientCreates(first) => InModeAppend(s.channels, NewChannel(s, first), s.mode);
    case ClientCloses(id) => InModeWithout(s.channels, id, s.mode);
    case TaskRuns(clientWaiting) => InModeTask(s, clientWaiting);
    case ConnectCompletes(at) =>
      InModeConnect(s, at, Create);
      assert SetKind(s, at, Create, s.channels[at].ran) == s;
    case ConnectBreaks(at) => InModeConnect(s, at, Broken);
    case ReadBreaks(at) => InModeUpdate(s.channels, at, s.channels[at].(kind := Broken), s.mode);
    case _ => InModeAppend(s.channels, NewChannel(s, false), s.mode);
  }

  lemma InModeTask(s: Service, clientWaiting: bool)
    requires s.tasks != [] && s.mode != CreateMultipleMode
    ensures Apply(s, TaskRuns(clientWaiting)).mode == s.mode
    ensures InMode(Apply(s, TaskRuns(clientWaiting)).channels, s.mode) <= InMode(s.channels, s.mode)
  {
    var id := s.tasks[0].id;
    InModeWithout(s.channels, id, s.mode);
    var at := Find(s.channels, id);
    if at < |s.channels| {
      InModeUpdate(s.channels, at, s.channels[at].(kind := Create), s.mode);
      InModeConnect(s.(tasks := s.tasks[1..]), at, Create);
    }
  }

  lemma {:induction false} InModeRun(s: Service, events: seq<Event>)
    requires IsRun(s, events) && s.mode != CreateMultipleMode
    ensures InMode(After(s, events).channels, s.mode) <= InMode(s.channels, s.mode) + Firsts(events)
    decreases |events|
  {
    if events != [] {
      InModeStep(s, events[0]);
      InModeRun(Apply(s, events[0]), events[1..]);
    }
  }

  /** The service claims the first instance of its pipe's name no more often than the client asks
      for it: the listeners it adds by itself are further instances. */
  lemma FirstInstanceClaims(mode: IoMode, events: seq<Event>)
    requires IsRun(Start(mode), events) && mode != CreateMultipleMode
    ensures InMode(After(Start(mode), events).channels, mode) <= Firsts(events)
  {
    InModeRun(Start(mode), events);
  }

  /** A connect task connects its channel at once if it was opened as a client or a client is
      there, and leaves it waiting otherwise. */
  lemma ConnectTaskConnects(s: Service, clientWaiting: bool, at: nat)
    requires ListInv(s) && at < |s.channels| && s.tasks != [] && s.tasks[0] == ConnectTask(s.channels[at].id)
    ensures var t := Apply(s, TaskRuns(clientWaiting));
            && at < |t.channels| && t.channels[at].id == s.channels[at].id
            && (t.channels[at].ran <==> s.channels[at].mode == OpenMode || clientWaiting)
            && t.channels[at].kind == (if t.channels[at].ran then Read else Create)
  {
    assert s.channels[at] in s.channels && Find(s.channels, s.channels[at].id) == at;
    assert Good(s.channels[at], s.tasks);
  }

  /** After the client's handler, the service removes a broken or closed channel later, adds a
      further instance for a server's newly connected one, and otherwise does nothing. */
  lemma HandledAccordingToKind(s: Service, at: nat)
    requires at < |s.channels|
    ensures var c, t := s.channels[at], Handled(s, at);
            && t.channels[..|s.channels|] == s.channels
            && (c.kind == Broken || c.kind == Close ==> t == s.(tasks := s.tasks + [CloseTask(c.id)]))
            && (c.kind == Create && s.mode == CreateMode ==>
                  |t.channels| == |s.channels| + 1 && t.channels[|s.channels|].mode == CreateMultipleMode)
            && (c.kind != Broken && c.kind != Close && (c.kind != Create || s.mode != CreateMode) ==> t == s)
  {
  }

  /** Closing keeps all other channels, in order. */
  lemma {:induction false} WithoutJoins(a: seq<Listed>, b: seq<Listed>, id: ChannelId)
    ensures Without(a + b, id) == Without(a, id) + Without(b, id)
  {
    if a == [] {
      assert a + b == b;
    } else {
      assert (a + b)[1..] == a[1..] + b;
      WithoutJoins(a[1..], b, id);
      Associates(if a[0].id == id then [] else [a[0]], Without(a[1..], id), Without(b, id));
    }
  }

  lemma WithoutOne(c: Listed, id: ChannelId)
    ensures Without([c], id) == if c.id == id then [] else [c]
  {
    assert Without([c], id) == (if c.id == id then [] else [c]) + Without([c][1..], id);
  }

  function Creations(firsts: seq<bool>): seq<Event> {
    seq(|firsts|, i requires 0 <= i < |firsts| => ClientCreates(firsts[i]))
  }

  /** What a handler creates before the service goes on are events of their own, so the laws above
      cover such handlers. */
  lemma {:induction false} HandlerAddsAreEvents(s: Service, firsts: seq<bool>)
    ensures IsRun(s, Creations(firsts)) && After(s, Creations(firsts)) == ClientAddsAll(s, firsts)
    decreases |firsts|
  {
    if firsts != [] {
      var before, last := firsts[..|firsts| - 1], firsts[|firsts| - 1];
      HandlerAddsAreEvents(s, before);
      var t := ClientAddsAll(s, before);
      OneEvent(t, ClientCreates(last), []);
      EventsJoin(s, Creations(before), [ClientCreates(last)] + []);
      assert Creations(before) + ([ClientCreates(last)] + []) == Creations(firsts);
    }
  }

  /** One connected channel whose reading and writing broke, and the next listener. */
  function BrokenTwice(): Service {
    var next := Listed(1, CreateMultipleMode, Unknown, false);
    Service(CreateMode, [Listed(0, CreateMode, Broken, true), next], [ConnectTask(1), CloseTask(0), CloseTask(0)],
            2, 1, 0, 0)
  }

  /** The same when the first two tasks have run. */
  function ChannelGone(): Service {
    Service(CreateMode, [Listed(1, CreateMultipleMode, Create, false)], [CloseTask(0)], 2, 1, 0, 0)
  }

  lemma BothBreak()
    ensures Reachable(CreateMode, BrokenTwice())
  {
    var open := Apply(Waiting(), ConnectCompletes(0));
    var next := Listed(1, CreateMultipleMode, Unknown, false);
    assert open.channels == [Listed(0, CreateMode, Read, true), next] && open.tasks == [ConnectTask(1)];
    var once := Apply(open, ReadBreaks(0));
    assert once.channels == BrokenTwice().channels && once.tasks == [ConnectTask(1), CloseTask(0)];
    assert Apply(once, WriteBreaks(0)) == BrokenTwice();
    OneEvent(once, WriteBreaks(0), []);
    OneEvent(open, ReadBreaks(0), [WriteBreaks(0)] + []);
    AfterWaiting(ConnectCompletes(0));
    var first: seq<Event> :| IsRun(Start(CreateMode), first) && After(Start(CreateMode), first) == open;
    EventsJoin(Start(CreateMode), first, [ReadBreaks(0)] + ([WriteBreaks(0)] + []));
  }

  lemma TwoTasksRun()
    ensures IsRun(BrokenTwice(), [TaskRuns(false), TaskRuns(false)])
    ensures After(BrokenTwice(), [TaskRuns(false), TaskRuns(false)]) == ChannelGone()
  {
    var s := BrokenTwice();
    var t := Apply(s, TaskRuns(false));
    var waiting := Listed(1, CreateMultipleMode, Create, false);
    assert Find(s.channels, 1) == 1 + Find(s.channels[1..], 1);
    assert t.channels == [Listed(0, CreateMode, Broken, true), waiting] && t.tasks == [CloseTask(0), CloseTask(0)];
    assert t.channels[1..] == [waiting];
    assert Without(t.channels[1..], 0) == [waiting] + Without(t.channels[1..][1..], 0);
    assert Apply(t, TaskRuns(false)) == ChannelGone();
    OneEvent(t, TaskRuns(false), []);
    OneEvent(s, TaskRuns(false), [TaskRuns(false)] + []);
    assert [TaskRuns(false)] + ([TaskRuns(false)] + []) == [TaskRuns(false), TaskRuns(false)];
  }

  /** Why identities must be fresh: reading and writing can both break, each queues a removal,
      and the second removal is still queued when its channel is gone. */
  lemma RemovalCanOutliveChannel()
    ensures exists s: Service, id: ChannelId ::
              Reachable(CreateMode, s) && CloseTask(id) in s.tasks && Find(s.channels, id) == |s.channels|
  {
    BothBreak();
    TwoTasksRun();
    var first: seq<Event> :| IsRun(Start(CreateMode), first) && After(Start(CreateMode), first) == BrokenTwice();
    EventsJoin(Start(CreateMode), first, [TaskRuns(false), TaskRuns(false)]);
    assert CloseTask(0) in ChannelGone().tasks && Find(ChannelGone().channels, 0) == |ChannelGone().channels|;
  }

  lemma {:induction false} EventsJoin(s: Service, first: seq<Event>, second: seq<Event>)
    requires IsRun(s, first) && IsRun(After(s, first), second)
    ensures IsRun(s, first + second) && After(s, first + second) == After(After(s, first), second)
    decreases |first|
  {
    if first == [] {
      assert first + second == second;
    } else {
      assert (first + second)[0] == first[0] && (first + second)[1..] == first[1..] + second;
      EventsJoin(Apply(s, first[0]), first[1..], second);
    }
  }

  /** A service in another mode adds no channel of its own. */
  lemma ClientsAddNothing(mode: IoMode, s: Service)
    requires mode != CreateMode && Reachable(mode, s)
    ensures s.nextId == s.created && Listeners(s.channels) <= s.created
  {
    ReachableInv(mode, s);
    var events: seq<Event> :| IsRun(Start(mode), events) && After(Start(mode), events) == s;
    OwnChannelsOnly(Start(mode), events);
  }

  lemma {:induction false} OwnChannelsOnly(s: Service, events: seq<Event>)
    requires s.mode != CreateMode && s.nextId == s.created && IsRun(s, events)
    ensures After(s, events).nextId == After(s, events).created
    decreases |events|
  {
    if events != [] {
      OwnChannelsOnly(Apply(s, events[0]), events[1..]);
    }
  }
}
