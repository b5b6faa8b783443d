/** Two socket channels and the byte streams between them. */
module SocketLink {
  import opened Frames
  import S = SocketChannel

  datatype Link = Link(a: S.Session, b: S.Session)

  datatype Move = OfA(event: S.Event) | OfB(event: S.Event)

  function Begin(): Link { Link(S.Begin(), S.Begin()) }

  /** TCP gives `to` the bytes that `from` handed over, in order, in pieces of any size, and
      perhaps before the send completes. */
  predicate Arrives(from: S.Session, to: S.Session, e: S.Event) {
    && to.got + S.Brought(e) <= Stream(from.chan.handed)
    && (e.AcceptDone? ==> from.chan.handed != [])
  }

  predicate CanMove(l: Link, m: Move) {
    match m
    case OfA(e) => S.Enabled(l.a, e) && Arrives(l.b, l.a, e)
    case OfB(e) => S.Enabled(l.b, e) && Arrives(l.a, l.b, e)
  }

  function Next(l: Link, m: Move): Link
    requires CanMove(l, m)
  {
    match m
    case OfA(e) => l.(a := S.Apply(l.a, e))
    case OfB(e) => l.(b := S.Apply(l.b, e))
  }

  predicate IsRun(l: Link, moves: seq<Move>)
    decreases |moves|
  {
    moves == [] || (CanMove(l, moves[0]) && IsRun(Next(l, moves[0]), moves[1..]))
  }

  function After(l: Link, moves: seq<Move>): Link
    requires IsRun(l, moves)
    decreases |moves|
  {
    if moves == [] then l else After(Next(l, moves[0]), moves[1..])
  }

  ghost predicate Reachable(l: Link) {
    exists moves: seq<Move> :: IsRun(Begin(), moves) && After(Begin(), moves) == l
  }

  // ---------- safety ----------

  predicate Inv(l: Link) {
    S.Inv(l.a) && S.Inv(l.b) && l.a.got <= Stream(l.b.chan.handed) && l.b.got <= Stream(l.a.chan.handed)
  }

  lemma {:induction false} HandleHandsOn(c: S.Tcp, calls: seq<S.Call>)
    ensures c.handed <= S.Handle(c, calls).chan.handed
    decreases |calls|
  {
    if calls != [] {
      HandleHandsOn(c, calls[..|calls| - 1]);
    }
  }

  /** An event adds to what was handed over, and to what was got just what it brings. */
  lemma EventFlows(s: S.Session, e: S.Event)
    requires S.Enabled(s, e)
    ensures s.chan.handed <= S.Apply(s, e).chan.handed
    ensures S.Apply(s, e).got == s.got + S.Brought(e)
  {
    var c := s.chan;
    assert s.got + [] == s.got;
    match e
    case Public(call) => HandleHandsOn(c, [call]);
    case ConnectDone(calls) =>
      HandleHandsOn(S.Opened(c.(send := S.SocketCompleted(c.send, |Wire(c.send.buffer)|))), calls);
    case AcceptDone(first, calls) =>
      HandleHandsOn(S.Opened(c.(recv := S.SocketCompleted(S.Received(c.recv, first), |first|))), calls);
    case RecvDone(chunk, calls) =>
      HandleHandsOn(S.Merged(c.(recv := S.SocketCompleted(S.Received(c.recv, chunk), |chunk|))), calls);
    case _ =>
  }

  lemma StreamGrows(before: seq<Bytes>, now: seq<Bytes>, got: Bytes)
    requires before <= now && got <= Stream(before)
    ensures got <= Stream(now)
  {
    StreamAppend(before, now[|before|..]);
    assert before + now[|before|..] == now;
  }

  lemma NextKeepsInv(l: Link, m: Move)
    requires Inv(l) && CanMove(l, m)
    ensures Inv(Next(l, m))
  {
    var s, other := if m.OfA? then l.a else l.b, if m.OfA? then l.b else l.a;
    S.ApplyKeepsInv(s, m.event);
    EventFlows(s, m.event);
    StreamGrows(s.chan.handed, S.Apply(s, m.event).chan.handed, other.got);
  }

  lemma {:induction false} RunKeepsInv(l: Link, moves: seq<Move>)
    requires Inv(l) && IsRun(l, moves)
    ensures Inv(After(l, moves))
    decreases |moves|
  {
    if moves != [] {
      NextKeepsInv(l, moves[0]);
      RunKeepsInv(Next(l, moves[0]), moves[1..]);
    }
  }

  lemma ReachableInv(l: Link)
    requires Reachable(l)
    ensures Inv(l)
  {
    var moves: seq<Move> :| IsRun(Begin(), moves) && After(Begin(), moves) == l;
    RunKeepsInv(Begin(), moves);
  }

  /** In every run: the bytes drained and waiting at one end are the first of those that the
      other end handed over, each buffer cut to its length in 32 bits. */
  lemma ReceivedIsStream(l: Link)
    requires Reachable(l)
    ensures l.b.drained + l.b.chan.recvBuffer <= Stream(l.a.chan.handed)
    ensures l.a.drained + l.a.chan.recvBuffer <= Stream(l.b.chan.handed)
  {
    ReachableInv(l);
  }

  // ---------- when exactly the receiver gets a prefix ----------

  /** Byte for byte, `data` repeats its first 2^32 bytes. */
  ghost predicate Repeats(data: Bytes) {
    forall i :: TWO_32 <= i < |data| ==> data[i] == data[i % TWO_32]
  }

  /** What arrived lags behind what was sent by a multiple of 2^32 bytes. */
  predicate Lags(sent: nat, got: nat) {
    got <= sent && (sent - got) % TWO_32 == 0
  }

  lemma SameRemainder(x: nat, y: nat, j: nat)
    requires Lags(x, y)
    ensures (x + j) % TWO_32 == (y + j) % TWO_32
  {
    var k := (x - y) / TWO_32;
    assert x + j == (y + j) + k * TWO_32;
  }

  lemma RepeatsAt(data: Bytes, i: nat, j: nat)
    requires Repeats(data) && i < |data| && j < |data| && i % TWO_32 == j % TWO_32
    ensures data[i] == data[j]
  {
    assert data[i] == data[i % TWO_32];
    assert data[j] == data[j % TWO_32];
  }

  lemma ConcatPush(bs: seq<Bytes>, b: Bytes)
    ensures Concat(bs + [b]) == Concat(bs) + b
  {
    ConcatAppend(bs, [b]);
    ConcatSingle(b);
  }

  /** So what follows still fits. */
  lemma BufferFits(sent: Bytes, got: Bytes, b: Bytes, data: Bytes)
    requires Repeats(data) && sent + b <= data && got <= data && Lags(|sent|, |got|)
    ensures got + Wire(b) <= data
  {
    forall j | 0 <= j < |Wire(b)|
      ensures data[|got| + j] == b[j]
    {
      SameRemainder(|sent|, |got|, j);
      assert (sent + b)[|sent| + j] == b[j];
      RepeatsAt(data, |sent| + j, |got| + j);
    }
  }

  lemma CutOff(sent: nat, got: nat, b: Bytes)
    requires Lags(sent, got)
    ensures Lags(sent + |b|, got + |Wire(b)|)
  {
    var k := |b| / TWO_32;
    assert |b| == |Wire(b)| + k * TWO_32;
    assert sent + |b| - (got + |Wire(b)|) == (sent - got) + k * TWO_32;
  }

  /** `got` is what arrives of `sent`, and a prefix of `data` so far. */
  ghost predicate Fits(sent: Bytes, got: Bytes, data: Bytes) {
    got <= data && Lags(|sent|, |got|)
  }

  lemma OneBufferMore(sent: Bytes, got: Bytes, b: Bytes, data: Bytes)
    requires Repeats(data) && sent + b <= data && Fits(sent, got, data)
    ensures Fits(sent + b, got + Wire(b), data)
  {
    BufferFits(sent, got, b, data);
    CutOff(|sent|, |got|, b);
  }

  lemma ConcatStreamPush(bs: seq<Bytes>)
    requires bs != []
    ensures var before, b := bs[..|bs| - 1], bs[|bs| - 1];
            Concat(bs) == Concat(before) + b && Stream(bs) == Stream(before) + Wire(b)
  {
    var before, b := bs[..|bs| - 1], bs[|bs| - 1];
    assert bs == before + [b];
    ConcatPush(before, b);
    StreamPush(before, b);
  }

  lemma {:induction false} StreamOfRepeating(bs: seq<Bytes>, data: Bytes)
    requires Repeats(data) && Concat(bs) <= data
    ensures Fits(Concat(bs), Stream(bs), data)
    decreases |bs|
  {
    if bs != [] {
      ConcatStreamPush(bs);
      StreamOfRepeating(bs[..|bs| - 1], data);
      OneBufferMore(Concat(bs[..|bs| - 1]), Stream(bs[..|bs| - 1]), bs[|bs| - 1], data);
    }
  }

  lemma RepeatingDataArrives(l: Link)
    requires Reachable(l) && Repeats(l.a.submitted)
    ensures l.b.got <= l.a.submitted
  {
    ReachableInv(l);
    StreamOfRepeating(l.a.chan.handed, l.a.submitted);
  }

  // ---------- a run that shows the rest ----------

  lemma {:induction false} RunThen(l: Link, moves: seq<Move>, m: Move)
    requires IsRun(l, moves) && CanMove(After(l, moves), m)
    ensures IsRun(l, moves + [m]) && After(l, moves + [m]) == Next(After(l, moves), m)
    decreases |moves|
  {
    if moves == [] {
      var one := moves + [m];
      assert one[0] == m && one[1..] == [];
      assert IsRun(Next(l, m), one[1..]) && After(Next(l, m), one[1..]) == Next(l, m);
    } else {
      assert (moves + [m])[0] == moves[0] && (moves + [m])[1..] == moves[1..] + [m];
      RunThen(Next(l, moves[0]), moves[1..], m);
    }
  }

  lemma ReachableOn(l: Link, m: Move)
    requires Reachable(l) && CanMove(l, m)
    ensures Reachable(Next(l, m))
  {
    var moves: seq<Move> :| IsRun(Begin(), moves) && After(Begin(), moves) == l;
    RunThen(Begin(), moves, m);
  }

  /** Moves of `a` that bring nothing. */
  lemma {:induction false} OnlyA(l: Link, events: seq<S.Event>)
    requires Reachable(l) && S.IsRun(l.a, events) && l.a.got == []
    requires forall e :: e in events ==> !e.AcceptDone? && !e.RecvDone?
    ensures Reachable(Link(S.After(l.a, events), l.b)) && S.After(l.a, events).got == []
    decreases |events|
  {
    if events != [] {
      var e := events[0];
      assert e in events;
      assert l.a.got + S.Brought(e) == [];
      ReachableOn(l, OfA(e));
      EventFlows(l.a, e);
      OnlyA(Next(l, OfA(e)), events[1..]);
    }
  }

  /** A received chunk is followed by the next receive. */
  lemma ReceivesOn(s: S.Session, chunk: Bytes)
    requires s.chan.connected && S.Enabled(s, S.RecvDone(chunk, []))
    ensures var t := S.Apply(s, S.RecvDone(chunk, []));
            t.chan.connected && |t.chan.recv.buffer| == S.SOCKET_BUFFER_SIZE
  {
  }

  /** Ready for the next chunk, with `n` bytes got so far. */
  ghost predicate Receiving(l: Link, n: nat) {
    Reachable(l) && Inv(l) && l.b.chan.connected && |l.b.chan.recv.buffer| > 0 && |l.b.got| == n
  }

  lemma ByteCanMove(l: Link, byte: Bytes)
    requires Inv(l) && l.b.chan.connected && |l.b.chan.recv.buffer| > 0 && |l.b.got| < |Stream(l.a.chan.handed)|
    requires byte == [Stream(l.a.chan.handed)[|l.b.got|]]
    ensures CanMove(l, OfB(S.RecvDone(byte, [])))
  {
    assert l.b.got + byte == Stream(l.a.chan.handed)[..|l.b.got| + 1];
  }

  lemma MoveReceives(l: Link, e: S.Event, n: nat)
    requires Receiving(l, n) && e.RecvDone? && e.calls == [] && |e.chunk| == 1 && CanMove(l, OfB(e))
    ensures Receiving(Next(l, OfB(e)), n + 1)
  {
    ReachableOn(l, OfB(e));
    NextKeepsInv(l, OfB(e));
    EventFlows(l.b, e);
    ReceivesOn(l.b, e.chunk);
  }

  lemma ByteArrives(l: Link, n: nat)
    requires Receiving(l, n) && n < |Stream(l.a.chan.handed)|
    ensures exists t: Link :: Receiving(t, n + 1) && t.a == l.a
  {
    var byte := [Stream(l.a.chan.handed)[n]];
    ByteCanMove(l, byte);
    MoveReceives(l, S.RecvDone(byte, []), n);
  }

  /** `b` can get every byte that `a` handed over. */
  lemma {:induction false} AllArrives(l: Link, n: nat)
    requires Receiving(l, n)
    ensures exists t: Link :: Reachable(t) && t.a == l.a && t.b.got == Stream(l.a.chan.handed)
    decreases |Stream(l.a.chan.handed)| - n
  {
    if n < |Stream(l.a.chan.handed)| {
      ByteArrives(l, n);
      var t: Link :| Receiving(t, n + 1) && t.a == l.a;
      AllArrives(t, n + 1);
    }
  }

  lemma AcceptReady(s: S.Session, first: Bytes)
    requires S.Enabled(s, S.AcceptDone(first, []))
    ensures var t := S.Apply(s, S.AcceptDone(first, []));
            t.chan.connected && |t.chan.recv.buffer| == S.SOCKET_BUFFER_SIZE
  {
  }

  lemma Listens()
    ensures S.Enabled(S.Begin(), S.AcceptCall)
    ensures var s := S.Apply(S.Begin(), S.AcceptCall);
            s.got == [] && forall byte :: S.Enabled(s, S.AcceptDone([byte], []))
  {
  }

  lemma FirstByte(l: Link, byte: Bytes)
    requires Reachable(l) && l.b.got == [] && S.Enabled(l.b, S.AcceptDone(byte, []))
    requires l.a.chan.handed != [] && byte <= Stream(l.a.chan.handed)
    ensures exists t: Link :: Reachable(t) && t.a == l.a && t.b.chan.connected && |t.b.chan.recv.buffer| > 0
  {
    var e := S.AcceptDone(byte, []);
    assert l.b.got + byte == byte;
    ReachableOn(l, OfB(e));
    AcceptReady(l.b, byte);
    assert Next(l, OfB(e)).b == S.Apply(l.b, e);
  }

  lemma Accepts(l: Link)
    requires Reachable(l) && l.b == S.Begin() && Stream(l.a.chan.handed) != []
    ensures exists t: Link :: Reachable(t) && t.a == l.a && t.b.chan.connected && |t.b.chan.recv.buffer| > 0
  {
    Listens();
    ReachableOn(l, OfB(S.AcceptCall));
    var byte := Stream(l.a.chan.handed)[0];
    assert [byte] == Stream(l.a.chan.handed)[..1];
    FirstByte(Link(l.a, S.Apply(l.b, S.AcceptCall)), [byte]);
  }

  /** `a` submits `data` in three parts: the first `i` bytes go with the connect, one byte in a
      send of its own, the rest is queued behind it. */
  lemma SubmitsInParts(data: Bytes, i: nat)
    requires i < |data|
    ensures exists l: Link ::
              && Reachable(l) && l.b == S.Begin() && l.a.submitted == data
              && l.a.chan.handed == [data[..i], [data[i]]]
  {
    S.ConnectSends(data[..i]);
    var first := S.After(S.Begin(), S.ConnectWith(data[..i]));
    assert IsRun(Begin(), []) && After(Begin(), []) == Begin();
    OnlyA(Begin(), S.ConnectWith(data[..i]));
    PartsBehind(Link(first, S.Begin()), data, i);
  }

  /** A call on an idle, connected channel hands its bytes over; behind a pending send they wait. */
  predicate HandsOver(s: S.Session, data: Bytes, t: S.Session) {
    && t.submitted == s.submitted + data && t.got == s.got
    && t.chan.connected && t.chan.send.isPending
    && t.chan.handed == s.chan.handed + if s.chan.send.isPending then [] else [data]
  }

  lemma CallHandsOver(s: S.Session, data: Bytes)
    requires s.chan.connected && (s.chan.send.isPending || (s.chan.sendBuffer == [] && data != []))
    ensures HandsOver(s, data, S.Apply(s, S.Public(S.SendCopy(data))))
  {
    S.SubmitsOne(s.chan, data);
    assert [] + data == data && s.chan.handed + [] == s.chan.handed;
  }

  lemma CallReaches(l: Link, data: Bytes)
    requires Reachable(l) && l.a.got == []
    requires l.a.chan.connected && (l.a.chan.send.isPending || (l.a.chan.sendBuffer == [] && data != []))
    ensures exists s: S.Session :: Reachable(Link(s, l.b)) && HandsOver(l.a, data, s)
  {
    var e := S.Public(S.SendCopy(data));
    CallHandsOver(l.a, data);
    assert l.a.got + S.Brought(e) == [];
    ReachableOn(l, OfA(e));
  }

  lemma ThreeParts(data: Bytes, i: nat)
    requires i < |data|
    ensures (data[..i] + [data[i]]) + data[i + 1..] == data
  {
  }

  lemma TwoCallsReach(l: Link, byte: Bytes, rest: Bytes)
    requires Reachable(l) && l.a.got == [] && byte != []
    requires l.a.chan.connected && !l.a.chan.send.isPending && l.a.chan.sendBuffer == []
    ensures exists s: S.Session ::
              && Reachable(Link(s, l.b)) && s.submitted == l.a.submitted + byte + rest
              && s.chan.handed == l.a.chan.handed + [byte]
  {
    CallReaches(l, byte);
    var s1: S.Session :| Reachable(Link(s1, l.b)) && HandsOver(l.a, byte, s1);
    CallReaches(Link(s1, l.b), rest);
    var s2: S.Session :| Reachable(Link(s2, l.b)) && HandsOver(s1, rest, s2);
    assert s1.chan.handed + [] == s1.chan.handed;
  }

  lemma PartsBehind(l: Link, data: Bytes, i: nat)
    requires Reachable(l) && i < |data| && l.b == S.Begin() && l.a.got == []
    requires l.a.submitted == data[..i] && l.a.chan.handed == [data[..i]]
    requires l.a.chan.connected && !l.a.chan.send.isPending && l.a.chan.sendBuffer == []
    ensures exists t: Link ::
              && Reachable(t) && t.b == S.Begin() && t.a.submitted == data
              && t.a.chan.handed == [data[..i], [data[i]]]
  {
    ThreeParts(data, i);
    TwoCallsReach(l, [data[i]], data[i + 1..]);
    var s: S.Session :|
      && Reachable(Link(s, l.b)) && s.submitted == l.a.submitted + [data[i]] + data[i + 1..]
      && s.chan.handed == l.a.chan.handed + [[data[i]]];
    assert Link(s, l.b).a.submitted == data;
  }

  lemma BadByteArrives(data: Bytes, i: nat)
    requires TWO_32 <= i < |data| && data[i] != data[i % TWO_32]
    ensures exists l: Link :: Reachable(l) && l.a.submitted == data && !(l.b.got <= data)
  {
    SubmitsInParts(data, i);
    var l: Link :| Reachable(l) && l.b == S.Begin() && l.a.submitted == data
      && l.a.chan.handed == [data[..i], [data[i]]];
    StreamOfTwo(data[..i], [data[i]]);
    var stream := Stream(l.a.chan.handed);
    assert stream[i % TWO_32] == data[i];
    Accepts(l);
    var open: Link :| Reachable(open) && open.a == l.a && open.b.chan.connected && |open.b.chan.recv.buffer| > 0;
    ReachableInv(open);
    AllArrives(open, |open.b.got|);
    var t: Link :| Reachable(t) && t.a == l.a && t.b.got == stream;
    assert t.b.got[i % TWO_32] != data[i % TWO_32];
  }

  /** The law of the stream, exactly: whatever is submitted as `data` at one end, in whatever
      calls, arrives at the other as a prefix of `data` in every run, if and only if every byte
      of `data` from the 2^32nd on repeats the byte at its position modulo 2^32. */
  lemma PrefixArrivesIff(data: Bytes)
    ensures (forall l: Link :: Reachable(l) && l.a.submitted == data ==> l.b.got <= data) <==> Repeats(data)
  {
    if Repeats(data) {
      forall l: Link | Reachable(l) && l.a.submitted == data
        ensures l.b.got <= data
      {
        RepeatingDataArrives(l);
      }
    } else {
      var i :| TWO_32 <= i < |data| && data[i] != data[i % TWO_32];
      BadByteArrives(data, i);
    }
  }

  /** So while no more than 2^32 bytes are submitted, the bytes drained at the other end are the
      first of them, and those waiting follow. */
  lemma DrainedIsPrefixOfSubmitted(l: Link)
    requires Reachable(l) && |l.a.submitted| <= TWO_32
    ensures l.b.drained + l.b.chan.recvBuffer <= l.a.submitted && l.b.drained <= l.a.submitted
  {
    ReachableInv(l);
    RepeatingDataArrives(l);
    assert l.b.drained <= l.b.got;
  }

  // ---------- the other direction ----------

  function Swap(l: Link): Link { Link(l.b, l.a) }

  function Swapped(m: Move): Move { if m.OfA? then OfB(m.event) else OfA(m.event) }

  lemma {:induction false} SwapRun(l: Link, moves: seq<Move>)
    requires IsRun(l, moves) && Reachable(Swap(l))
    ensures Reachable(Swap(After(l, moves)))
    decreases |moves|
  {
    if moves != [] {
      ReachableOn(Swap(l), Swapped(moves[0]));
      SwapRun(Next(l, moves[0]), moves[1..]);
    }
  }

  /** All of this holds from `b` to `a` as well. */
  lemma BothDirections(l: Link)
    requires Reachable(l)
    ensures Reachable(Swap(l))
  {
    var moves: seq<Move> :| IsRun(Begin(), moves) && After(Begin(), moves) == l;
    assert IsRun(Begin(), []) && After(Begin(), []) == Begin();
    SwapRun(Begin(), moves);
  }
}
