/** Messages of the pipe channel: an 8-byte head (id, size, both 32-bit) and a payload.

    A `pipe_message` owns one byte vector and nothing else, so a message is that
    vector here.  Every byte string is a possible message, because one constructor
    copies raw memory; `WellFormed` singles out those whose head tells their length. */
module Frames {

  newtype Byte = b: int | 0 <= b < 256
  type Bytes = seq<Byte>

  const HEAD_SIZE := 8
  const TWO_32 := 0x1_0000_0000

  // ---------- the two 32-bit head fields ----------

  function U32Bytes(n: int): (b: Bytes)
    requires 0 <= n < TWO_32
    ensures |b| == 4
  {
    [(n % 256) as Byte, (n / 0x100 % 256) as Byte, (n / 0x1_0000 % 256) as Byte, (n / 0x100_0000) as Byte]
  }

  /** The 32-bit field at position `i`, least significant byte first. */
  function U32At(s: Bytes, i: nat): (n: int)
    requires i + 4 <= |s|
    ensures 0 <= n < TWO_32
  {
    s[i] as int + 0x100 * (s[i + 1] as int) + 0x1_0000 * (s[i + 2] as int) + 0x100_0000 * (s[i + 3] as int)
  }

  lemma U32RoundTrip(n: int)
    requires 0 <= n < TWO_32
    ensures U32At(U32Bytes(n), 0) == n
  {
    var q1, q2 := n / 0x100, n / 0x1_0000;
    assert q2 == q1 / 0x100 && n / 0x100_0000 == q2 / 0x100;
  }

  lemma BytesRoundTrip(s: Bytes, i: nat)
    requires i + 4 <= |s|
    ensures U32Bytes(U32At(s, i)) == s[i..i + 4]
  {
    var n := U32At(s, i);
    assert n / 0x100 == s[i + 1] as int + 0x100 * (s[i + 2] as int) + 0x1_0000 * (s[i + 3] as int);
    assert n / 0x1_0000 == s[i + 2] as int + 0x100 * (s[i + 3] as int);
    assert n / 0x100_0000 == s[i + 3] as int;
  }

  /** `static_cast<std::uint32_t>` of an integer of any width. */
  function Uint32(n: int): int { n % TWO_32 }

  /** The conversion of a `uint32_t` to a 32-bit `int`. */
  function Int32(u: int): int { if u < 0x8000_0000 then u else u - TWO_32 }

  // ---------- pipe_message ----------

  /** The constructor from an id and a payload; both head fields are cast to 32 bits. */
  function MakeMessage(id: int, payload: Bytes): Bytes {
    U32Bytes(Uint32(id)) + U32Bytes(Uint32(|payload|)) + payload
  }

  function SizeField(m: Bytes): int
    requires |m| >= HEAD_SIZE
  {
    U32At(m, 4)
  }

  function Id(m: Bytes): int
    requires |m| >= HEAD_SIZE
  {
    Int32(U32At(m, 0))
  }

  /** `to_string`: as many bytes after the head as the head says. */
  function Payload(m: Bytes): Bytes
    requires |m| >= HEAD_SIZE && |m| >= HEAD_SIZE + SizeField(m)
  {
    m[HEAD_SIZE..HEAD_SIZE + SizeField(m)]
  }

  predicate WellFormed(m: Bytes) {
    |m| >= HEAD_SIZE && |m| == HEAD_SIZE + SizeField(m)
  }

  /** The accessors invert the constructor; the payload limit is exact. */
  lemma MakeMessageAccessors(id: int, payload: Bytes)
    requires -0x8000_0000 <= id < 0x8000_0000
    ensures var m := MakeMessage(id, payload);
            && Id(m) == id
            && (WellFormed(m) <==> |payload| < TWO_32)
            && (WellFormed(m) ==> Payload(m) == payload)
  {
    var m := MakeMessage(id, payload);
    U32RoundTrip(Uint32(id));
    U32RoundTrip(Uint32(|payload|));
    assert U32At(m, 0) == U32At(U32Bytes(Uint32(id)), 0);
    assert U32At(m, 4) == U32At(U32Bytes(Uint32(|payload|)), 0);
    assert m[8..] == payload;
  }

  /** Where the constructor puts what: id, size, payload, the low byte of a field first. */
  lemma MessageLayout(id: int, payload: Bytes, i: nat)
    requires i < 4
    ensures var m := MakeMessage(id, payload);
            && |m| == HEAD_SIZE + |payload| && m[8..] == payload
            && m[i] as int == id / Power256(i) % 256
            && m[4 + i] as int == |payload| / Power256(i) % 256
  {
    var m := MakeMessage(id, payload);
    FieldByte(id, i);
    FieldByte(|payload|, i);
    assert m[i] == U32Bytes(Uint32(id))[i] && m[4 + i] == U32Bytes(Uint32(|payload|))[i];
  }

  function Power256(i: nat): int
    requires i < 4
  {
    if i == 0 then 1 else if i == 1 then 0x100 else if i == 2 then 0x1_0000 else 0x100_0000
  }

  lemma FieldByte(n: int, i: nat)
    requires i < 4
    ensures U32Bytes(Uint32(n))[i] as int == n / Power256(i) % 256
  {
    if i == 0 {
      LowByte(n);
    } else if i == 1 {
      SecondByte(n);
    } else if i == 2 {
      ThirdByte(n);
    } else {
      HighByte(n);
    }
  }

  lemma SameLowByte(u: int, n: int, k: int)
    requires n == u + 256 * k
    ensures u % 256 == n % 256
  {
  }

  lemma LowByte(n: int)
    ensures Uint32(n) % 256 == n % 256
  {
    var k := 0x100_0000 * (n / TWO_32);
    SameLowByte(Uint32(n), n, k);
  }

  lemma SecondByte(n: int)
    ensures Uint32(n) / 0x100 % 256 == n / 0x100 % 256
  {
    var q := n / TWO_32;
    assert n / 0x100 == Uint32(n) / 0x100 + q * 0x1_0000 * 256;
  }

  lemma ThirdByte(n: int)
    ensures Uint32(n) / 0x1_0000 % 256 == n / 0x1_0000 % 256
  {
    var q := n / TWO_32;
    assert n / 0x1_0000 == Uint32(n) / 0x1_0000 + q * 0x100 * 256;
  }

  lemma HighByte(n: int)
    ensures Uint32(n) / 0x100_0000 == n / 0x100_0000 % 256
  {
    var q := n / TWO_32;
    assert n / 0x100_0000 == Uint32(n) / 0x100_0000 + q * 256;
  }

  /** A received message taken apart and sent again has the same bytes. */
  lemma ResendReproducesFrame(m: Bytes)
    requires WellFormed(m)
    ensures MakeMessage(Id(m), Payload(m)) == m
    ensures -0x8000_0000 <= Id(m) < 0x8000_0000
  {
    IdBytes(m);
    SizeBytes(m);
    MakeFrom(m, Id(m), Payload(m));
  }

  /** The messages that carry an id and a payload to the receiver: the one constructed from them,
      if the payload is shorter than 2^32 bytes. */
  lemma CarriesIff(m: Bytes, id: int, payload: Bytes)
    requires -0x8000_0000 <= id < 0x8000_0000 && WellFormed(m)
    ensures Id(m) == id && Payload(m) == payload <==> m == MakeMessage(id, payload)
  {
    ResendReproducesFrame(m);
    MakeMessageAccessors(id, payload);
  }

  lemma IdBytes(m: Bytes)
    requires |m| >= HEAD_SIZE
    ensures U32Bytes(Uint32(Id(m))) == m[0..4] && -0x8000_0000 <= Id(m) < 0x8000_0000
  {
    var u := U32At(m, 0);
    assert Uint32(Int32(u)) == u;
    BytesRoundTrip(m, 0);
  }

  lemma SizeBytes(m: Bytes)
    requires WellFormed(m)
    ensures Payload(m) == m[8..] && U32Bytes(Uint32(|Payload(m)|)) == m[4..8]
  {
    assert |Payload(m)| == U32At(m, 4);
    BytesRoundTrip(m, 4);
  }

  lemma MakeFrom(m: Bytes, id: int, payload: Bytes)
    requires |m| >= HEAD_SIZE && payload == m[8..]
    requires U32Bytes(Uint32(id)) == m[0..4] && U32Bytes(Uint32(|payload|)) == m[4..8]
    ensures MakeMessage(id, payload) == m
  {
  }

  // ---------- streams of frames ----------

  function Concat(ms: seq<Bytes>): Bytes {
    if ms == [] then [] else ms[0] + Concat(ms[1..])
  }

  lemma {:induction false} ConcatAppend(a: seq<Bytes>, b: seq<Bytes>)
    ensures Concat(a + b) == Concat(a) + Concat(b)
  {
    if a == [] {
      assert a + b == b;
    } else {
      assert (a + b)[1..] == a[1..] + b;
      ConcatAppend(a[1..], b);
    }
  }

  lemma ConcatSplit(ms: seq<Bytes>, rest: Bytes)
    requires ms != []
    ensures Concat(ms) + rest == ms[0] + (Concat(ms[1..]) + rest)
  {
    Associates(ms[0], Concat(ms[1..]), rest);
  }

  lemma Associates<T>(a: seq<T>, b: seq<T>, c: seq<T>)
    ensures (a + b) + c == a + (b + c)
  {
  }

  lemma HeadTailAppend<T>(a: seq<T>, b: seq<T>)
    requires a != []
    ensures [a[0]] + (a[1..] + b) == a + b
  {
  }

  lemma ConcatSingle(m: Bytes)
    ensures Concat([m]) == m
  {
    assert Concat([m]) == m + Concat([m][1..]);
  }

  ghost predicate AllWellFormed(ms: seq<Bytes>) {
    forall m :: m in ms ==> WellFormed(m)
  }

  /** Does the stream start with a complete frame? */
  predicate HasFrame(s: Bytes) {
    |s| >= HEAD_SIZE && |s| >= FrameLength(s)
  }

  function FrameLength(s: Bytes): (n: nat)
    requires |s| >= HEAD_SIZE
    ensures n >= HEAD_SIZE
  {
    HEAD_SIZE + SizeField(s)
  }

  datatype Parsed = Parsed(messages: seq<Bytes>, rest: Bytes)

  /** Reference parser: cut complete frames off the front, keep what remains. */
  function Parse(s: Bytes): Parsed
    decreases |s|
  {
    if HasFrame(s) then
      var p := Parse(s[FrameLength(s)..]);
      Parsed([s[..FrameLength(s)]] + p.messages, p.rest)
    else
      Parsed([], s)
  }

  /** One frame cut from the front. */
  lemma ParseStep(m: Bytes, s: Bytes)
    requires WellFormed(m)
    ensures HasFrame(m + s) && FrameLength(m + s) == |m|
    ensures Parse(m + s) == Parsed([m] + Parse(s).messages, Parse(s).rest)
  {
    assert U32At(m + s, 4) == U32At(m, 4);
    assert (m + s)[..|m|] == m && (m + s)[|m|..] == s;
  }

  lemma FirstFrame(s: Bytes)
    requires HasFrame(s)
    ensures WellFormed(s[..FrameLength(s)])
    ensures s == s[..FrameLength(s)] + s[FrameLength(s)..]
  {
    assert U32At(s[..FrameLength(s)], 4) == U32At(s, 4);
  }

  lemma FrameInFront(frame: Bytes, ms: seq<Bytes>, rest: Bytes)
    requires WellFormed(frame) && AllWellFormed(ms)
    ensures Concat([frame] + ms) + rest == frame + (Concat(ms) + rest) && AllWellFormed([frame] + ms)
  {
    assert ([frame] + ms)[1..] == ms;
    ConcatSplit([frame] + ms, rest);
  }

  /** Nothing is lost, every message is a frame, and no complete frame is kept back. */
  lemma {:induction false} ParseSound(s: Bytes)
    ensures var p := Parse(s);
            Concat(p.messages) + p.rest == s && AllWellFormed(p.messages) && !HasFrame(p.rest)
    decreases |s|
  {
    if HasFrame(s) {
      var f, t := s[..FrameLength(s)], s[FrameLength(s)..];
      FirstFrame(s);
      ParseSound(t);
      FrameInFront(f, Parse(t).messages, Parse(t).rest);
    }
  }

  /** ... and that is the only way to split the stream so. */
  lemma {:induction false} ParseComplete(ms: seq<Bytes>, rest: Bytes)
    requires AllWellFormed(ms)
    ensures Parse(Concat(ms) + rest) == Parsed(ms + Parse(rest).messages, Parse(rest).rest)
  {
    if ms == [] {
      assert Concat(ms) + rest == rest;
      assert ms + Parse(rest).messages == Parse(rest).messages;
    } else {
      ParseStep(ms[0], Concat(ms[1..]) + rest);
      ParseComplete(ms[1..], rest);
      HeadTailAppend(ms, Parse(rest).messages);
      ConcatSplit(ms, rest);
    }
  }

  /** The parser is characterised without its body: it is the one split of the stream into
      well-formed frames and an incomplete remainder. */
  lemma ParseIff(s: Bytes, ms: seq<Bytes>, rest: Bytes)
    ensures Parse(s) == Parsed(ms, rest)
       <==> Concat(ms) + rest == s && AllWellFormed(ms) && !HasFrame(rest)
  {
    ParseSound(s);
    if Concat(ms) + rest == s && AllWellFormed(ms) && !HasFrame(rest) {
      ParseComplete(ms, rest);
      assert ms + [] == ms;
    }
  }

  /** Chunk independence of one cut: parsing what was kept with what came later. */
  lemma ParseAppend(a: Bytes, b: Bytes)
    ensures var p := Parse(a); var q := Parse(p.rest + b);
            Parse(a + b) == Parsed(p.messages + q.messages, q.rest)
  {
    var p := Parse(a);
    ParseSound(a);
    ParseComplete(p.messages, p.rest + b);
    Associates(Concat(p.messages), p.rest, b);
  }

  /** The stream parsed chunk by chunk, each behind what the one before left. */
  function ParseChunks(kept: Bytes, chunks: seq<Bytes>): Parsed
    decreases |chunks|
  {
    if chunks == [] then Parsed([], kept)
    else
      var p := Parse(kept + chunks[0]);
      var q := ParseChunks(p.rest, chunks[1..]);
      Parsed(p.messages + q.messages, q.rest)
  }

  /** It does not matter where the stream was cut. */
  lemma {:induction false} ChunksParse(kept: Bytes, chunks: seq<Bytes>)
    requires !HasFrame(kept)
    ensures ParseChunks(kept, chunks) == Parse(kept + Concat(chunks))
    decreases |chunks|
  {
    if chunks == [] {
      assert kept + Concat(chunks) == kept;
    } else {
      ParseSound(kept + chunks[0]);
      ChunksParse(Parse(kept + chunks[0]).rest, chunks[1..]);
      ParseAppend(kept + chunks[0], Concat(chunks[1..]));
      ConcatBehind(kept, chunks);
    }
  }

  lemma ConcatBehind(kept: Bytes, chunks: seq<Bytes>)
    requires chunks != []
    ensures (kept + chunks[0]) + Concat(chunks[1..]) == kept + Concat(chunks)
  {
  }

  /** A frame moves from the remainder to the messages. */
  lemma FrameMoves(d: seq<Bytes>, frame: Bytes, rest: Bytes, whole: Bytes)
    requires AllWellFormed(d) && WellFormed(frame) && Concat(d) + (frame + rest) == whole
    ensures AllWellFormed(d + [frame]) && Concat(d + [frame]) + rest == whole && Concat(d + [frame]) <= whole
  {
    ConcatAppend(d, [frame]);
    ConcatSingle(frame);
    assert (Concat(d) + frame) + rest == Concat(d) + (frame + rest);
  }

  // ---------- what reaches the wire ----------

  /** `WriteFile` is given the length cast to a 32-bit DWORD. */
  function Wire(m: Bytes): Bytes { m[..|m| % TWO_32] }

  predicate Sendable(m: Bytes) { WellFormed(m) && |m| < TWO_32 }

  ghost predicate AllSendable(ms: seq<Bytes>) {
    forall m :: m in ms ==> Sendable(m)
  }

  /** The bytes that a list of messages puts on the pipe. */
  function Stream(ms: seq<Bytes>): Bytes {
    if ms == [] then [] else Wire(ms[0]) + Stream(ms[1..])
  }

  lemma {:induction false} StreamAppend(a: seq<Bytes>, b: seq<Bytes>)
    ensures Stream(a + b) == Stream(a) + Stream(b)
  {
    if a == [] {
      assert a + b == b;
    } else {
      assert (a + b)[1..] == a[1..] + b;
      StreamAppend(a[1..], b);
    }
  }

  lemma StreamPush(ms: seq<Bytes>, m: Bytes)
    ensures Stream(ms + [m]) == Stream(ms) + Wire(m)
  {
    StreamAppend(ms, [m]);
    assert Stream([m]) == Wire(m) + Stream([m][1..]);
  }

  lemma {:induction false} StreamOfShort(ms: seq<Bytes>)
    ensures |Stream(ms)| <= |Concat(ms)|
    ensures |Stream(ms)| == |Concat(ms)| <==> forall m :: m in ms ==> |m| < TWO_32
    ensures |Stream(ms)| == |Concat(ms)| ==> Stream(ms) == Concat(ms)
  {
    if ms != [] {
      StreamOfShort(ms[1..]);
      assert ms == [ms[0]] + ms[1..];
    }
  }

  /** The receiver reads back exactly the messages sent if and only if every one of them
      is a well-formed frame whose whole length fits a DWORD. */
  lemma StreamRoundTrip(ms: seq<Bytes>)
    ensures Parse(Stream(ms)) == Parsed(ms, []) <==> AllSendable(ms)
  {
    StreamOfShort(ms);
    ParseIff(Stream(ms), ms, []);
    assert Concat(ms) + [] == Concat(ms);
  }

  /** The limit is met: a payload of 2^32 - 8 bytes makes a well-formed frame of which nothing
      reaches the wire. */
  lemma LongFrameIsLost(payload: Bytes)
    requires |payload| == TWO_32 - HEAD_SIZE
    ensures var m := MakeMessage(0, payload);
            WellFormed(m) && Wire(m) == [] && Parse(Stream([m])) == Parsed([], [])
  {
    var m := MakeMessage(0, payload);
    MakeMessageAccessors(0, payload);
    assert |m| == TWO_32;
    StreamPush([], m);
    assert Stream([m]) == Stream([] + [m]) == [];
  }

  /** Two frames of which only the second arrives. */
  lemma LongFrameIsSkipped(payload: Bytes)
    requires |payload| == TWO_32 - HEAD_SIZE
    ensures var ms := [MakeMessage(0, payload), MakeMessage(1, [])];
            && AllWellFormed(ms)
            && Parse(Stream(ms)) == Parsed([ms[1]], [])
            && !(Parse(Stream(ms)).messages <= ms)
  {
    MakeMessageAccessors(0, payload);
    MakeMessageAccessors(1, []);
    SkipsLong(MakeMessage(0, payload), MakeMessage(1, []));
  }

  lemma SkipsLong(long: Bytes, short: Bytes)
    requires |long| == TWO_32 && Sendable(short)
    ensures Parse(Stream([long, short])) == Parsed([short], []) && !([short] <= [long, short])
  {
    StreamOfTwo(long, short);
    assert Wire(long) == [] && Wire(short) == short && [] + short == short && short + [] == short;
    ParseStep(short, []);
    assert |short| != |long|;
  }

  lemma StreamOfTwo(m: Bytes, n: Bytes)
    ensures Stream([m, n]) == Wire(m) + Wire(n)
  {
    assert [] + [m] == [m] && [m] + [n] == [m, n];
    StreamPush([], m);
    StreamPush([m], n);
  }

  /** Messages sent before the first one that does not fit arrive; whether what is parsed stays
      a prefix of what was sent is decided by the rest alone. */
  lemma FirstBadDecides(good: seq<Bytes>, later: seq<Bytes>)
    requires AllSendable(good)
    ensures Parse(Stream(good + later)).messages == good + Parse(Stream(later)).messages
    ensures Parse(Stream(good + later)).messages <= good + later <==> Parse(Stream(later)).messages <= later
  {
    StreamAppend(good, later);
    StreamOfShort(good);
    ParseComplete(good, Stream(later));
    PrefixBehind(good, Parse(Stream(later)).messages, later);
  }

  /** The guard that decides: what is parsed behind `bad` must not start with a frame, unless the
      bytes that follow happen to make up `bad` again, which takes a well-formed `bad` of 2^32
      bytes or more. */
  lemma BadFrameGuard(bad: Bytes, later: seq<Bytes>)
    requires !Sendable(bad)
    ensures var t := Stream([bad] + later);
            && (Parse(t).messages <= [bad] + later <==>
                  || !HasFrame(t)
                  || (t[..FrameLength(t)] == bad && Parse(t[FrameLength(t)..]).messages <= later))
            && (!WellFormed(bad) ==> (Parse(t).messages <= [bad] + later <==> !HasFrame(t)))
  {
    var t := Stream([bad] + later);
    if HasFrame(t) {
      FirstFrame(t);
      var first, rest := t[..FrameLength(t)], Parse(t[FrameLength(t)..]).messages;
      assert Parse(t).messages == [first] + rest;
      ConsPrefix(first, rest, bad, later);
    } else {
      assert Parse(t).messages == [];
    }
  }

  lemma ConsPrefix<T>(x: T, xs: seq<T>, y: T, ys: seq<T>)
    ensures [x] + xs <= [y] + ys <==> x == y && xs <= ys
  {
    if [x] + xs <= [y] + ys {
      assert ([x] + xs)[0] == ([y] + ys)[0];
    }
    if x == y {
      PrefixBehind([x], xs, ys);
    }
  }

  lemma PrefixBehind<T>(a: seq<T>, b: seq<T>, c: seq<T>)
    ensures a + b <= a + c <==> b <= c
  {
    assert (a + b)[|a|..] == b && (a + c)[|a|..] == c;
    if a + b <= a + c {
      assert b == (a + c)[|a|..|a| + |b|];
    }
  }

  /** Reading any initial part of a stream gives an initial part of its messages. */
  lemma ParsePrefix(t: Bytes, s: Bytes)
    requires t <= s
    ensures Parse(t).messages <= Parse(s).messages
  {
    ParseAppend(t, s[|t|..]);
    assert t + s[|t|..] == s;
  }

  /** Frames found at the start of a stream are its first messages. */
  lemma FramesOfPrefix(ms: seq<Bytes>, s: Bytes)
    requires AllWellFormed(ms) && Concat(ms) <= s
    ensures ms <= Parse(s).messages
  {
    ParseComplete(ms, s[|Concat(ms)|..]);
    assert Concat(ms) + s[|Concat(ms)|..] == s;
  }

  lemma PartOfFrame(m: Bytes, t: Bytes)
    requires WellFormed(m) && t <= m && |t| < |m|
    ensures !HasFrame(t)
  {
    if |t| >= HEAD_SIZE {
      assert U32At(t, 4) == U32At(m, 4);
    }
  }

  lemma PrefixSplit(m: Bytes, rest: Bytes, t: Bytes)
    requires t <= m + rest
    ensures if |t| < |m| then t <= m else t == m + t[|m|..] && t[|m|..] <= rest
  {
    assert forall i :: 0 <= i < |t| && i < |m| ==> t[i] == m[i];
  }

  /** While a stream of frames of at most `limit` bytes is read, less than one frame is kept. */
  lemma {:induction false} RestBound(t: Bytes, ms: seq<Bytes>, limit: nat)
    requires AllWellFormed(ms) && t <= Concat(ms) && limit > 0
    requires forall m :: m in ms ==> |m| <= limit
    ensures |Parse(t).rest| < limit
    decreases |ms|
  {
    if ms != [] {
      PrefixSplit(ms[0], Concat(ms[1..]), t);
      if |t| < |ms[0]| {
        PartOfFrame(ms[0], t);
      } else {
        ParseStep(ms[0], t[|ms[0]|..]);
        RestBound(t[|ms[0]|..], ms[1..], limit);
      }
    }
  }

  lemma {:induction false} ParseCount(s: Bytes)
    ensures HEAD_SIZE * |Parse(s).messages| <= |s|
    decreases |s|
  {
    if HasFrame(s) {
      ParseCount(s[FrameLength(s)..]);
    }
  }

  /** One read of at most `chunk` bytes completes at most this many messages: the first
      frame uses up the kept bytes and at least one new byte. */
  lemma ChunkCount(kept: Bytes, chunk: Bytes)
    requires !HasFrame(kept) && |chunk| > 0
    ensures |Parse(kept + chunk).messages| <= 1 + (|chunk| - 1) / HEAD_SIZE
  {
    var s := kept + chunk;
    if HasFrame(s) {
      var n := FrameLength(s);
      if |kept| >= HEAD_SIZE {
        assert U32At(s, 4) == U32At(kept, 4);
      }
      assert n > |kept|;
      ParseCount(s[n..]);
    }
  }
}
