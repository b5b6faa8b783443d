/** `socket_channel`: a TCP byte stream whose sends are coalesced by swapping buffers.

    Public calls and completions come one at a time; a client handler may make public calls. */
module SocketChannel {
  import opened Frames
  import opened FileIo

  const SOCKET_BUFFER_SIZE := 4096

  /** Room that an accepting call leaves for two addresses. */
  const ADDRESS_SPACE := 64

  datatype SocketContext = SocketContext(buffer: Bytes, kind: IoType, isPending: bool)

  /** The channel's fields, and the history of the buffers given to the kernel. */
  datatype Tcp = Tcp(
    connected: bool, sendBuffer: Bytes, recvBuffer: Bytes,
    send: SocketContext, recv: SocketContext, handed: seq<Bytes>)

  const FRESH_SOCKET := SocketContext([], Unknown, false)

  function NewChannel(): Tcp { Tcp(false, [], [], FRESH_SOCKET, FRESH_SOCKET, []) }

  // ---------- specification ----------

  /** The send buffer goes to the kernel, with a connect or by itself. */
  function HandOver(c: Tcp, kind: IoType): Tcp {
    c.(send := SocketContext(c.sendBuffer, kind, true), sendBuffer := [], handed := c.handed + [c.sendBuffer])
  }

  function SendNow(c: Tcp): Tcp {
    if c.send.isPending || !c.connected || c.sendBuffer == [] then c else HandOver(c, Write)
  }

  function Submit(c: Tcp, data: Bytes): Tcp {
    SendNow(c.(sendBuffer := c.sendBuffer + data))
  }

  function RecvNow(c: Tcp): Tcp {
    if c.recv.isPending || !c.connected then c
    else c.(recv := SocketContext(Resize(c.recv.buffer, SOCKET_BUFFER_SIZE), Read, true))
  }

  /** `io_completed` of the socket. */
  function SocketCompleted(c: SocketContext, n: nat): SocketContext {
    match c.kind
    case Open => c.(isPending := false)
    case Create => c.(isPending := false, buffer := Resize(c.buffer, n))
    case Write => c.(isPending := false, buffer := Resize(c.buffer, n))
    case Read => c.(isPending := false, buffer := Resize(c.buffer, n))
    case _ => c
  }

  /** The kernel puts received bytes at the front of the context's buffer. */
  function Received(c: SocketContext, bytes: Bytes): SocketContext
    requires |bytes| <= |c.buffer|
  {
    c.(buffer := bytes + c.buffer[|bytes|..])
  }

  lemma ReceivedThenCompleted(c: SocketContext, bytes: Bytes)
    requires |bytes| <= |c.buffer| && (c.kind == Create || c.kind == Read)
    ensures SocketCompleted(Received(c, bytes), |bytes|) == c.(buffer := bytes, isPending := false)
  {
  }

  /** A public call: either form of `send_buffer`, or the returning `recv_buffer`. */
  datatype Call = SendCopy(data: Bytes) | SendSwap(data: Bytes) | Drain

  function AfterCall(c: Tcp, call: Call): Tcp {
    if call.Drain? then c.(recvBuffer := []) else Submit(c, call.data)
  }

  function SubmittedBy(call: Call): Bytes { if call.Drain? then [] else call.data }

  function DrainedBy(c: Tcp, call: Call): Bytes { if call.Drain? then c.recvBuffer else [] }

  /** The calls of one handler run, with what they submit and drain. */
  datatype Handling = Handling(chan: Tcp, submitted: Bytes, drained: Bytes)

  function Handle(c: Tcp, calls: seq<Call>): Handling {
    if calls == [] then Handling(c, [], [])
    else
      var h := Handle(c, calls[..|calls| - 1]);
      var call := calls[|calls| - 1];
      Handling(AfterCall(h.chan, call), h.submitted + SubmittedBy(call), h.drained + DrainedBy(h.chan, call))
  }

  /** The data of the send calls of either form, in order. */
  function DataOf(calls: seq<Call>): Bytes {
    if calls == [] then [] else (if calls[0].Drain? then [] else calls[0].data) + DataOf(calls[1..])
  }

  lemma {:induction false} DataPush(calls: seq<Call>, call: Call)
    ensures DataOf(calls + [call]) == DataOf(calls) + if call.Drain? then [] else call.data
    decreases |calls|
  {
    var data := if call.Drain? then [] else call.data;
    if calls == [] {
      assert (calls + [call])[1..] == [] && data + [] == [] + data;
    } else {
      assert (calls + [call])[1..] == calls[1..] + [call];
      DataPush(calls[1..], call);
      Associates(if calls[0].Drain? then [] else calls[0].data, DataOf(calls[1..]), data);
    }
  }

  /** A handler submits the data of all its calls.  If it drains at all it gets all that waited
      and leaves nothing, else it leaves what waited. */
  lemma {:induction false} HandleMeetsCalls(c: Tcp, calls: seq<Call>)
    ensures var h := Handle(c, calls);
            && h.submitted == DataOf(calls)
            && if Drain in calls then h.drained == c.recvBuffer && h.chan.recvBuffer == []
               else h.drained == [] && h.chan.recvBuffer == c.recvBuffer
    decreases |calls|
  {
    if calls != [] {
      var before, call := calls[..|calls| - 1], calls[|calls| - 1];
      assert calls == before + [call];
      HandleMeetsCalls(c, before);
      DataPush(before, call);
      var h := Handle(c, before);
      assert h.drained + [] == h.drained && h.submitted + [] == h.submitted;
      assert [] + c.recvBuffer == c.recvBuffer;
    }
  }

  /** What `io_completed` leaves: as many bytes as were moved, but for a connect; the mark gone. */
  lemma CompletionTrims(c: SocketContext, n: nat)
    requires c.kind == Open || c.kind == Create || c.kind == Write || c.kind == Read
    ensures var d := SocketCompleted(c, n);
            && !d.isPending && d.kind == c.kind
            && (if c.kind == Open then d.buffer == c.buffer
                else |d.buffer| == n && (n <= |c.buffer| ==> d.buffer == c.buffer[..n]))
  {
  }

  /** Both ways of passing bytes on to the client keep them all: they change places with what
      waited, or join it. */
  lemma BuffersChangePlaces(c: Tcp)
    ensures Opened(Opened(c)) == c.(connected := true)
    ensures Merged(c).recvBuffer == c.recvBuffer + c.recv.buffer
    ensures Merged(c).recv.buffer == if c.recvBuffer == [] then c.recvBuffer else c.recv.buffer
  {
  }

  // ---------- the class ----------

  class IoBuffer {
    var data: Bytes

    constructor (data: Bytes)
      ensures this.data == data
    {
      this.data := data;
    }
  }

  class Context {
    var buffer: Bytes
    var kind: IoType
    var isPending: bool

    constructor ()
      ensures View() == FRESH_SOCKET
    {
      buffer, kind, isPending := [], Unknown, false;
    }

    ghost function View(): SocketContext
      reads this
    {
      SocketContext(buffer, kind, isPending)
    }

    method IoCompleted(n: nat)
      modifies this
      ensures View() == SocketCompleted(old(View()), n)
    {
      match kind {
        case Create =>
          isPending := false;
          buffer := Resize(buffer, n);
        case Open =>
          isPending := false;
        case Write =>
          isPending := false;
          buffer := Resize(buffer, n);
        case Read =>
          isPending := false;
          buffer := Resize(buffer, n);
        case _ =>
      }
    }
  }

  class Channel {
    const sendContext: Context
    const recvContext: Context
    var connected: bool
    var sendBuffer: Bytes
    var recvBuffer: Bytes
    ghost var handed: seq<Bytes>

    ghost predicate Valid() { sendContext != recvContext }

    ghost function View(): Tcp
      reads this, sendContext, recvContext
    {
      Tcp(connected, sendBuffer, recvBuffer, sendContext.View(), recvContext.View(), handed)
    }

    constructor ()
      ensures Valid() && fresh(sendContext) && fresh(recvContext) && View() == NewChannel()
    {
      sendContext := new Context();
      recvContext := new Context();
      connected, sendBuffer, recvBuffer, handed := false, [], [], [];
    }

    /** The first bytes to send travel with the connect. */
    method Connect()
      requires Valid()
      modifies this, sendContext
      ensures View() == HandOver(old(View()), Open)
    {
      sendContext.buffer, sendBuffer := sendBuffer, sendContext.buffer;
      sendBuffer := [];
      handed := handed + [sendContext.buffer];
      sendContext.kind := Open;
      sendContext.isPending := true;
    }

    method SendBufferCopy(data: Bytes)
      requires Valid()
      modifies this, sendContext
      ensures View() == Submit(old(View()), data)
    {
      sendBuffer := sendBuffer + data;
      Send();
    }

    /** The caller's buffer is taken over when nothing is queued, and copied otherwise. */
    method SendBufferSwap(buffer: IoBuffer)
      requires Valid()
      modifies this, sendContext, buffer
      ensures View() == Submit(old(View()), old(buffer.data))
      ensures buffer.data == if old(sendBuffer) == [] then [] else old(buffer.data)
    {
      if |sendBuffer| == 0 {
        assert [] + buffer.data == buffer.data;
        sendBuffer, buffer.data := buffer.data, sendBuffer;
      } else {
        sendBuffer := sendBuffer + buffer.data;
      }
      Send();
    }

    method RecvBuffer() returns (buffer: Bytes)
      requires Valid()
      modifies this`recvBuffer
      ensures buffer == old(recvBuffer) && View() == old(View()).(recvBuffer := [])
    {
      buffer := [];
      buffer, recvBuffer := recvBuffer, buffer;
    }

    method Send()
      requires Valid()
      modifies this, sendContext
      ensures View() == SendNow(old(View()))
    {
      if sendContext.isPending || !connected || sendBuffer == [] {
        return;
      }
      sendContext.buffer, sendBuffer := sendBuffer, sendContext.buffer;
      sendBuffer := [];
      handed := handed + [sendContext.buffer];
      sendContext.kind := Write;
      sendContext.isPending := true;
    }

    method Recv()
      requires Valid()
      modifies recvContext
      ensures View() == RecvNow(old(View()))
    {
      if recvContext.isPending || !connected {
        return;
      }
      recvContext.kind := Read;
      recvContext.buffer := Resize(recvContext.buffer, SOCKET_BUFFER_SIZE);
      recvContext.isPending := true;
    }

    method RunHandler(calls: seq<Call>) returns (drained: Bytes)
      requires Valid()
      modifies this, sendContext
      ensures View() == Handle(old(View()), calls).chan && drained == Handle(old(View()), calls).drained
    {
      drained := [];
      for i := 0 to |calls|
        invariant View() == Handle(old(View()), calls[..i]).chan && drained == Handle(old(View()), calls[..i]).drained
      {
        assert calls[..i + 1][..i] == calls[..i];
        match calls[i]
        case SendCopy(data) =>
          SendBufferCopy(data);
        case SendSwap(data) =>
          var buffer := new IoBuffer(data);
          SendBufferSwap(buffer);
        case Drain =>
          var some := RecvBuffer();
          drained := drained + some;
      }
      assert calls[..|calls|] == calls;
    }

    /** Also the end of an accepted connection, whose first bytes are in the receive context. */
    method ConnectCompleted(calls: seq<Call>) returns (drained: Bytes)
      requires Valid()
      modifies this, sendContext, recvContext
      ensures var h := Handle(Opened(old(View())), calls);
              View() == RecvNow(SendNow(h.chan)) && drained == h.drained
    {
      connected := true;
      recvBuffer, recvContext.buffer := recvContext.buffer, recvBuffer;
      drained := RunHandler(calls);
      Send();
      Recv();
    }

    /** `closed`: the handler only. */
    method Closed(calls: seq<Call>) returns (drained: Bytes)
      requires Valid()
      modifies this, sendContext
      ensures View() == Handle(old(View()), calls).chan && drained == Handle(old(View()), calls).drained
    {
      drained := RunHandler(calls);
    }

    method SendCompleted(calls: seq<Call>) returns (drained: Bytes)
      requires Valid()
      modifies this, sendContext
      ensures var c := old(View());
              if c.send.kind == Write then View() == SendNow(c) && drained == []
              else View() == Handle(c, calls).chan && drained == Handle(c, calls).drained
    {
      drained := [];
      if sendContext.kind != Write {
        drained := Closed(calls);
        return;
      }
      Send();
    }

    method RecvCompleted(calls: seq<Call>) returns (drained: Bytes)
      requires Valid()
      modifies this, sendContext, recvContext
      ensures var c := old(View());
              var h := Handle(if c.recv.kind == Read then Merged(c) else c, calls);
              View() == (if c.recv.kind == Read then RecvNow(h.chan) else h.chan) && drained == h.drained
    {
      if recvContext.kind != Read {
        drained := Closed(calls);
        return;
      }
      var offset := |recvBuffer|;
      if offset == 0 {
        assert [] + recvContext.buffer == recvContext.buffer;
        recvBuffer, recvContext.buffer := recvContext.buffer, recvBuffer;
      } else {
        recvBuffer := recvBuffer + recvContext.buffer;
      }
      drained := RunHandler(calls);
      Recv();
    }
  }

  /** The receive buffer and that of the context change places. */
  function Opened(c: Tcp): Tcp {
    c.(connected := true, recvBuffer := c.recv.buffer, recv := c.recv.(buffer := c.recvBuffer))
  }

  /** The chunk joins the receive buffer, by swap or by append. */
  function Merged(c: Tcp): Tcp {
    c.(recvBuffer := c.recvBuffer + c.recv.buffer,
       recv := if c.recvBuffer == [] then c.recv.(buffer := []) else c.recv)
  }

  // ---------- runs ----------

  /** `submitted` and `drained` are the client's bytes, `sent` and `got` the kernel's. */
  datatype Session = Session(chan: Tcp, submitted: Bytes, sent: Bytes, got: Bytes, drained: Bytes)

  datatype Event =
    | Public(call: Call)
    | ConnectCall
    | AcceptCall
    | ConnectDone(calls: seq<Call>)
    | AcceptDone(first: Bytes, calls: seq<Call>)
    | SendDone
    | RecvDone(chunk: Bytes, calls: seq<Call>)

  predicate Enabled(s: Session, e: Event) {
    var c := s.chan;
    match e
    case Public(_) => true
    case ConnectCall => !c.connected && c.send.kind == Unknown && c.recv.kind == Unknown
    case AcceptCall => !c.connected && c.send.kind == Unknown && c.recv.kind == Unknown
    case ConnectDone(_) => c.send.isPending && c.send.kind == Open
    case AcceptDone(first, _) => c.recv.isPending && c.recv.kind == Create && |first| + ADDRESS_SPACE <= |c.recv.buffer|
    case SendDone => c.send.isPending && c.send.kind == Write
    case RecvDone(chunk, _) => c.recv.isPending && c.recv.kind == Read && |chunk| <= |c.recv.buffer|
  }

  function Handled(s: Session, h: Handling, chan: Tcp): Session {
    s.(chan := chan, submitted := s.submitted + h.submitted, drained := s.drained + h.drained)
  }

  /** A completed send moved as many bytes as it was asked to: the length cast to 32 bits. */
  function Apply(s: Session, e: Event): Session
    requires Enabled(s, e)
  {
    var c := s.chan;
    match e
    case Public(call) => Handled(s, Handle(c, [call]), Handle(c, [call]).chan)
    case ConnectCall => s.(chan := HandOver(c, Open))
    case AcceptCall => s.(chan := c.(recv := SocketContext(Resize(c.recv.buffer, SOCKET_BUFFER_SIZE), Create, true)))
    case ConnectDone(calls) =>
      var h := Handle(Opened(c.(send := SocketCompleted(c.send, |Wire(c.send.buffer)|))), calls);
      Handled(s.(sent := s.sent + Wire(c.send.buffer)), h, RecvNow(SendNow(h.chan)))
    case AcceptDone(first, calls) =>
      var h := Handle(Opened(c.(recv := SocketCompleted(Received(c.recv, first), |first|))), calls);
      Handled(s.(got := s.got + first), h, RecvNow(SendNow(h.chan)))
    case SendDone =>
      s.(sent := s.sent + Wire(c.send.buffer),
         chan := SendNow(c.(send := SocketCompleted(c.send, |Wire(c.send.buffer)|))))
    case RecvDone(chunk, calls) =>
      var h := Handle(Merged(c.(recv := SocketCompleted(Received(c.recv, chunk), |chunk|))), calls);
      Handled(s.(got := s.got + chunk), h, RecvNow(h.chan))
  }

  function Begin(): Session { Session(NewChannel(), [], [], [], []) }

  predicate IsRun(s: Session, events: seq<Event>)
    decreases |events|
  {
    events == [] || (Enabled(s, events[0]) && IsRun(Apply(s, events[0]), events[1..]))
  }

  function After(s: Session, events: seq<Event>): Session
    requires IsRun(s, events)
    decreases |events|
  {
    if events == [] then s else After(Apply(s, events[0]), events[1..])
  }

  // ---------- the histories ----------

  function CallsOf(e: Event): seq<Call> {
    match e
    case Public(call) => [call]
    case ConnectDone(calls) => calls
    case AcceptDone(_, calls) => calls
    case RecvDone(_, calls) => calls
    case _ => []
  }

  /** The bytes that an event brings. */
  function Brought(e: Event): Bytes {
    match e
    case AcceptDone(first, _) => first
    case RecvDone(chunk, _) => chunk
    case _ => []
  }

  /** All data of the client's calls in a run, and all bytes that arrive. */
  function DataIn(events: seq<Event>): Bytes {
    if events == [] then [] else DataOf(CallsOf(events[0])) + DataIn(events[1..])
  }

  function BytesIn(events: seq<Event>): Bytes {
    if events == [] then [] else Brought(events[0]) + BytesIn(events[1..])
  }

  lemma EventRecords(s: Session, e: Event)
    requires Enabled(s, e)
    ensures Apply(s, e).submitted == s.submitted + DataOf(CallsOf(e))
    ensures Apply(s, e).got == s.got + Brought(e)
  {
    var c := s.chan;
    assert s.got + [] == s.got && s.submitted + [] == s.submitted;
    match e
    case Public(call) => HandleMeetsCalls(c, [call]);
    case ConnectDone(calls) =>
      HandleMeetsCalls(Opened(c.(send := SocketCompleted(c.send, |Wire(c.send.buffer)|))), calls);
    case AcceptDone(first, calls) =>
      HandleMeetsCalls(Opened(c.(recv := SocketCompleted(Received(c.recv, first), |first|))), calls);
    case RecvDone(chunk, calls) =>
      HandleMeetsCalls(Merged(c.(recv := SocketCompleted(Received(c.recv, chunk), |chunk|))), calls);
    case _ =>
  }

  /** The histories hold the data of every call made and every byte that came, in order. */
  lemma {:induction false} HistoriesRecordRun(s: Session, events: seq<Event>)
    requires IsRun(s, events)
    ensures After(s, events).submitted == s.submitted + DataIn(events)
    ensures After(s, events).got == s.got + BytesIn(events)
    decreases |events|
  {
    if events == [] {
      assert s.submitted + [] == s.submitted && s.got + [] == s.got;
    } else {
      var e, later := events[0], events[1..];
      EventRecords(s, e);
      HistoriesRecordRun(Apply(s, e), later);
      Associates(s.submitted, DataOf(CallsOf(e)), DataIn(later));
      Associates(s.got, Brought(e), BytesIn(later));
    }
  }

  /** Clients and the kernel are not held back: calls may be made at any time, and a pending
      operation may complete, a receive with any chunk up to 4096 bytes, and an accept with as many
      less the room for two addresses; but with no more. */
  lemma EventsAreFree(s: Session, call: Call, calls: seq<Call>, chunk: Bytes)
    requires PhaseInv(s.chan)
    ensures Enabled(s, Public(call))
    ensures s.chan.send.isPending ==> Enabled(s, SendDone) || Enabled(s, ConnectDone(calls))
    ensures s.chan.recv.isPending && |chunk| <= (if s.chan.connected then 4096 else 4032) ==>
              Enabled(s, if s.chan.connected then RecvDone(chunk, calls) else AcceptDone(chunk, calls))
    ensures Enabled(s, RecvDone(chunk, calls)) ==> |chunk| <= 4096
    ensures Enabled(s, AcceptDone(chunk, calls)) ==> |chunk| <= 4032
    ensures s.chan == NewChannel() ==> Enabled(s, ConnectCall) && Enabled(s, AcceptCall)
  {
  }

  // ---------- conservation ----------

  /** The bytes the kernel still has to send. */
  function InFlight(c: Tcp): Bytes { if c.send.isPending then Wire(c.send.buffer) else [] }

  /** Bytes handed over and queued are those submitted; the kernel has sent or is sending those
      handed over. */
  predicate SendInv(s: Session) {
    && s.submitted == Concat(s.chan.handed) + s.chan.sendBuffer
    && s.sent + InFlight(s.chan) == Stream(s.chan.handed)
  }

  predicate RecvInv(s: Session) {
    s.got == s.drained + s.chan.recvBuffer
  }

  /** Before the connection nothing is received and only a connect is sent; after it a receive
      is always pending, and bytes wait only behind a pending send. */
  predicate PhaseInv(c: Tcp) {
    && (!c.connected ==> c.recvBuffer == [] && (c.send == FRESH_SOCKET || (c.send.kind == Open && c.send.isPending))
                         && (c.recv == FRESH_SOCKET
                             || (c.recv.kind == Create && c.recv.isPending && c.send == FRESH_SOCKET)))
    && (c.recv.isPending ==> |c.recv.buffer| == SOCKET_BUFFER_SIZE)
    && (c.connected ==> c.recv.isPending && c.recv.kind == Read && (c.send.isPending ==> c.send.kind == Write)
                        && (c.sendBuffer != [] ==> c.send.isPending))
  }

  predicate Inv(s: Session) { SendInv(s) && RecvInv(s) && PhaseInv(s.chan) }

  lemma SendNowKeeps(s: Session)
    requires SendInv(s)
    ensures SendInv(s.(chan := SendNow(s.chan)))
  {
    var c := s.chan;
    if SendNow(c) != c {
      ConcatAppend(c.handed, [c.sendBuffer]);
      ConcatSingle(c.sendBuffer);
      StreamPush(c.handed, c.sendBuffer);
    }
  }

  lemma CallKeeps(s: Session, call: Call)
    requires SendInv(s) && RecvInv(s)
    ensures var t := s.(chan := AfterCall(s.chan, call), submitted := s.submitted + SubmittedBy(call),
                        drained := s.drained + DrainedBy(s.chan, call));
            SendInv(t) && RecvInv(t)
  {
    var c := s.chan;
    if call.Drain? {
      assert s.submitted + [] == s.submitted;
      assert (s.drained + c.recvBuffer) + [] == s.drained + c.recvBuffer;
    } else {
      assert s.drained + [] == s.drained;
      assert (Concat(c.handed) + c.sendBuffer) + call.data == Concat(c.handed) + (c.sendBuffer + call.data);
      SendNowKeeps(s.(submitted := s.submitted + call.data, chan := c.(sendBuffer := c.sendBuffer + call.data)));
    }
  }

  lemma {:induction false} HandleKeeps(s: Session, calls: seq<Call>)
    requires SendInv(s) && RecvInv(s)
    ensures var h := Handle(s.chan, calls); SendInv(Handled(s, h, h.chan)) && RecvInv(Handled(s, h, h.chan))
    decreases |calls|
  {
    if calls == [] {
      assert s.submitted + [] == s.submitted && s.drained + [] == s.drained;
    } else {
      var before, call := calls[..|calls| - 1], calls[|calls| - 1];
      HandleKeeps(s, before);
      HandleOne(s, Handle(s.chan, before), call);
    }
  }

  lemma HandleOne(s: Session, h: Handling, call: Call)
    requires SendInv(Handled(s, h, h.chan)) && RecvInv(Handled(s, h, h.chan))
    ensures var d := Handling(AfterCall(h.chan, call), h.submitted + SubmittedBy(call),
                              h.drained + DrainedBy(h.chan, call));
            SendInv(Handled(s, d, d.chan)) && RecvInv(Handled(s, d, d.chan))
  {
    CallKeeps(Handled(s, h, h.chan), call);
    assert s.submitted + (h.submitted + SubmittedBy(call)) == (s.submitted + h.submitted) + SubmittedBy(call);
    assert s.drained + (h.drained + DrainedBy(h.chan, call)) == (s.drained + h.drained) + DrainedBy(h.chan, call);
  }

  /** No queued bytes without a send pending. */
  predicate Flushed(c: Tcp) { c.sendBuffer != [] ==> c.send.isPending }

  /** A handler may start a send on a connected channel, and drain what was received. */
  lemma {:induction false} HandleShape(c: Tcp, calls: seq<Call>)
    ensures var d := Handle(c, calls).chan;
            && d.connected == c.connected && d.recv == c.recv
            && (d.send == c.send || (c.connected && d.send.kind == Write && d.send.isPending))
            && (c.recvBuffer == [] ==> d.recvBuffer == [])
            && (c.connected && Flushed(c) ==> Flushed(d))
    decreases |calls|
  {
    if calls != [] {
      HandleShape(c, calls[..|calls| - 1]);
    }
  }

  // ---------- events ----------

  lemma PublicKeeps(s: Session, call: Call)
    requires Inv(s)
    ensures Inv(Apply(s, Public(call)))
  {
    HandleKeeps(s, [call]);
    HandleShape(s.chan, [call]);
  }

  lemma StartKeeps(s: Session, e: Event)
    requires Inv(s) && Enabled(s, e) && (e.ConnectCall? || e.AcceptCall?)
    ensures Inv(Apply(s, e))
  {
    var c := s.chan;
    if e.ConnectCall? {
      ConcatAppend(c.handed, [c.sendBuffer]);
      ConcatSingle(c.sendBuffer);
      StreamPush(c.handed, c.sendBuffer);
    }
  }

  lemma OpenKeeps(s: Session, calls: seq<Call>)
    requires SendInv(s) && RecvInv(s) && s.chan.connected && !s.chan.recv.isPending
    requires s.chan.send.isPending ==> s.chan.send.kind == Write
    ensures var h := Handle(s.chan, calls); Inv(Handled(s, h, RecvNow(SendNow(h.chan))))
  {
    var h := Handle(s.chan, calls);
    HandleKeeps(s, calls);
    HandleShape(s.chan, calls);
    SendNowKeeps(Handled(s, h, h.chan));
  }

  lemma ConnectDoneKeeps(s: Session, calls: seq<Call>)
    requires Inv(s) && Enabled(s, ConnectDone(calls))
    ensures Inv(Apply(s, ConnectDone(calls)))
  {
    var c := s.chan;
    var joined := Opened(c.(send := SocketCompleted(c.send, |Wire(c.send.buffer)|)));
    var t := s.(sent := s.sent + Wire(c.send.buffer), chan := joined);
    assert t.sent + [] == t.sent;
    OpenKeeps(t, calls);
  }

  lemma AcceptDoneKeeps(s: Session, first: Bytes, calls: seq<Call>)
    requires Inv(s) && Enabled(s, AcceptDone(first, calls))
    ensures Inv(Apply(s, AcceptDone(first, calls)))
  {
    var c := s.chan;
    ReceivedThenCompleted(c.recv, first);
    var joined := Opened(c.(recv := SocketCompleted(Received(c.recv, first), |first|)));
    var t := s.(got := s.got + first, chan := joined);
    assert s.got == s.drained;
    OpenKeeps(t, calls);
  }

  lemma SendDoneKeeps(s: Session)
    requires Inv(s) && Enabled(s, SendDone)
    ensures Inv(Apply(s, SendDone))
  {
    var c := s.chan;
    var t := s.(sent := s.sent + Wire(c.send.buffer),
                chan := c.(send := SocketCompleted(c.send, |Wire(c.send.buffer)|)));
    assert t.sent + [] == t.sent;
    SendNowKeeps(t);
  }

  lemma RecvDoneKeeps(s: Session, chunk: Bytes, calls: seq<Call>)
    requires Inv(s) && Enabled(s, RecvDone(chunk, calls))
    ensures Inv(Apply(s, RecvDone(chunk, calls)))
  {
    var c := s.chan;
    ReceivedThenCompleted(c.recv, chunk);
    var t := s.(got := s.got + chunk, chan := Merged(c.(recv := SocketCompleted(Received(c.recv, chunk), |chunk|))));
    assert s.drained + (c.recvBuffer + chunk) == (s.drained + c.recvBuffer) + chunk;
    HandleKeeps(t, calls);
    HandleShape(t.chan, calls);
  }

  lemma ApplyKeepsInv(s: Session, e: Event)
    requires Inv(s) && Enabled(s, e)
    ensures Inv(Apply(s, e))
  {
    match e
    case Public(call) => PublicKeeps(s, call);
    case ConnectCall => StartKeeps(s, e);
    case AcceptCall => StartKeeps(s, e);
    case ConnectDone(calls) => ConnectDoneKeeps(s, calls);
    case AcceptDone(first, calls) => AcceptDoneKeeps(s, first, calls);
    case SendDone => SendDoneKeeps(s);
    case RecvDone(chunk, calls) => RecvDoneKeeps(s, chunk, calls);
  }

  lemma {:induction false} RunKeepsInv(s: Session, events: seq<Event>)
    requires Inv(s) && IsRun(s, events)
    ensures Inv(After(s, events))
    decreases |events|
  {
    if events != [] {
      ApplyKeepsInv(s, events[0]);
      RunKeepsInv(Apply(s, events[0]), events[1..]);
    }
  }

  /** The bytes submitted, in order, are those sent, those the kernel is sending, and those
      queued. */
  predicate Conserved(s: Session) {
    s.submitted == s.sent + InFlight(s.chan) + s.chan.sendBuffer
  }

  /** Conservation of sends, in every run: it holds if and only if every buffer handed to the
      kernel was shorter than 2^32 bytes. */
  lemma SendsConserved(events: seq<Event>)
    requires IsRun(Begin(), events)
    ensures var s := After(Begin(), events);
            Conserved(s) <==> forall b :: b in s.chan.handed ==> |b| < TWO_32
  {
    RunKeepsInv(Begin(), events);
    var s := After(Begin(), events);
    StreamOfShort(s.chan.handed);
  }

  lemma {:induction false} PartOfConcat(ms: seq<Bytes>)
    ensures forall m :: m in ms ==> |m| <= |Concat(ms)|
  {
    if ms != [] {
      PartOfConcat(ms[1..]);
      assert ms == [ms[0]] + ms[1..];
    }
  }

  /** What a client can rely on: until it has submitted 2^32 bytes, nothing is lost. */
  lemma ShortSessionsConserve(events: seq<Event>)
    requires IsRun(Begin(), events) && |After(Begin(), events).submitted| < TWO_32
    ensures Conserved(After(Begin(), events))
  {
    RunKeepsInv(Begin(), events);
    SendsConserved(events);
    PartOfConcat(After(Begin(), events).chan.handed);
  }

  /** Bytes submitted before the connect go with it, as far as their number fits 32 bits. */
  function ConnectWith(data: Bytes): seq<Event> { [Public(SendCopy(data)), ConnectCall, ConnectDone([])] }

  lemma ConnectSends(data: Bytes)
    ensures IsRun(Begin(), ConnectWith(data))
    ensures var s := After(Begin(), ConnectWith(data));
            && s.submitted == data && s.sent == Wire(data) && s.chan.handed == [data]
            && !s.chan.send.isPending && s.chan.sendBuffer == [] && s.chan.connected
  {
    var e1, e2, e3 := Public(SendCopy(data)), ConnectCall, ConnectDone([]);
    QueuesFirst(data);
    assert Apply(Queued(data), e2) == Connecting(data);
    ConnectedSends(data);
    OneEvent(Connecting(data), e3, []);
    OneEvent(Queued(data), e2, [e3] + []);
    OneEvent(Begin(), e1, [e2] + ([e3] + []));
    assert [e1] + ([e2] + ([e3] + [])) == ConnectWith(data);
  }

  /** `data` submitted before the connect, and on its way with it. */
  function Queued(data: Bytes): Session {
    Session(NewChannel().(sendBuffer := data), data, [], [], [])
  }

  function Connecting(data: Bytes): Session {
    Session(NewChannel().(send := SocketContext(data, Open, true), handed := [data]), data, [], [], [])
  }

  lemma QueuesFirst(data: Bytes)
    ensures Apply(Begin(), Public(SendCopy(data))) == Queued(data)
  {
    SubmitsOne(NewChannel(), data);
    assert [] + data == data;
  }

  lemma ConnectedSends(data: Bytes)
    ensures Enabled(Connecting(data), ConnectDone([]))
    ensures var s := Apply(Connecting(data), ConnectDone([]));
            && s.submitted == data && s.sent == Wire(data) && s.chan.handed == [data]
            && !s.chan.send.isPending && s.chan.sendBuffer == [] && s.chan.connected
  {
    assert data + [] == data && [] + Wire(data) == Wire(data);
  }

  /** The limit is met: of 2^32 bytes submitted before the connect none is sent. */
  lemma LongBufferIsLost(data: Bytes)
    requires |data| == TWO_32
    ensures IsRun(Begin(), ConnectWith(data)) &&
            var s := After(Begin(), ConnectWith(data));
            s.submitted == data && s.sent == [] && InFlight(s.chan) == [] && s.chan.sendBuffer == [] && s.chan.connected
  {
    ConnectSends(data);
  }

  /** The law for the client, exactly: all runs that submit `data` conserve it if and only if it
      is shorter than 2^32 bytes. */
  lemma ConservedIff(data: Bytes)
    ensures (forall events :: IsRun(Begin(), events) && After(Begin(), events).submitted == data ==>
                                Conserved(After(Begin(), events)))
       <==> |data| < TWO_32
  {
    if |data| < TWO_32 {
      forall events | IsRun(Begin(), events) && After(Begin(), events).submitted == data
        ensures Conserved(After(Begin(), events))
      {
        ShortSessionsConserve(events);
      }
    } else {
      ConnectSends(data);
      assert |Wire(data)| < TWO_32;
      assert !Conserved(After(Begin(), ConnectWith(data)));
    }
  }

  lemma OneEvent(s: Session, e: Event, events: seq<Event>)
    requires Enabled(s, e) && IsRun(Apply(s, e), events)
    ensures IsRun(s, [e] + events) && After(s, [e] + events) == After(Apply(s, e), events)
  {
    assert ([e] + events)[1..] == events;
  }

  lemma SubmitsOne(c: Tcp, data: Bytes)
    ensures Handle(c, [SendCopy(data)]) == Handling(Submit(c, data), data, [])
  {
    assert [SendCopy(data)][..0] == [];
    assert Handle(c, []) == Handling(c, [], []);
    assert [] + data == data && [] + DrainedBy(c, SendCopy(data)) == [];
  }

  /** The law about what clients and kernel did, without the histories: in every run, all data of
      the calls made are what the kernel was handed and what waits, in order; all bytes that came
      are what the client drained and what waits. */
  lemma RunConserves(events: seq<Event>)
    requires IsRun(Begin(), events)
    ensures var s := After(Begin(), events);
            && DataIn(events) == Concat(s.chan.handed) + s.chan.sendBuffer
            && BytesIn(events) == s.drained + s.chan.recvBuffer
  {
    RunKeepsInv(Begin(), events);
    HistoriesRecordRun(Begin(), events);
    assert [] + DataIn(events) == DataIn(events) && [] + BytesIn(events) == BytesIn(events);
  }

  /** Conservation of receives, in every run: the bytes that came with the accepted connection
      and in all chunks are those drained and those waiting. */
  lemma ReceivesConserved(events: seq<Event>)
    requires IsRun(Begin(), events)
    ensures var s := After(Begin(), events); s.got == s.drained + s.chan.recvBuffer
  {
    RunKeepsInv(Begin(), events);
  }

  /** Nothing waits for nothing: a connected channel has a receive pending, and queued bytes
      wait only behind a pending send. */
  lemma NothingIdle(events: seq<Event>)
    requires IsRun(Begin(), events)
    ensures var c := After(Begin(), events).chan;
            c.connected ==> c.recv.isPending && c.recv.kind == Read && (c.sendBuffer != [] ==> c.send.isPending)
  {
    RunKeepsInv(Begin(), events);
  }

  /** So whenever a connected channel has no send pending, all that was submitted was sent. */
  lemma IdleMeansAllSent(events: seq<Event>)
    requires IsRun(Begin(), events)
    requires After(Begin(), events).chan.connected && !After(Begin(), events).chan.send.isPending
    ensures var s := After(Begin(), events);
            s.submitted == s.sent <==> (forall b :: b in s.chan.handed ==> |b| < TWO_32)
  {
    SendsConserved(events);
    NothingIdle(events);
    var s := After(Begin(), events);
    assert s.sent + InFlight(s.chan) + s.chan.sendBuffer == s.sent;
  }

  /** A send that is started has the buffer to itself until its completion. */
  lemma OneSendAtATime(events: seq<Event>, e: Event)
    requires IsRun(Begin(), events) && Enabled(After(Begin(), events), e)
    requires After(Begin(), events).chan.send.isPending && !e.SendDone? && !e.ConnectDone?
    ensures Apply(After(Begin(), events), e).chan.send == After(Begin(), events).chan.send
  {
    RunKeepsInv(Begin(), events);
    var s := After(Begin(), events);
    match e
    case Public(call) => PendingStays(s.chan, [call]);
    case RecvDone(chunk, calls) =>
      PendingStays(Merged(s.chan.(recv := SocketCompleted(Received(s.chan.recv, chunk), |chunk|))), calls);
    case _ =>
  }

  /** So has a receive, and an accept. */
  lemma OneReceiveAtATime(events: seq<Event>, e: Event)
    requires IsRun(Begin(), events) && Enabled(After(Begin(), events), e)
    requires After(Begin(), events).chan.recv.isPending && !e.RecvDone? && !e.AcceptDone?
    ensures Apply(After(Begin(), events), e).chan.recv == After(Begin(), events).chan.recv
  {
    RunKeepsInv(Begin(), events);
    var c := After(Begin(), events).chan;
    if e.Public? {
      HandleShape(c, [e.call]);
    }
  }

  /** `send` and `recv` do nothing on a channel that is not connected, or while their own operation
      is pending; `send` does nothing without bytes, either. */
  lemma GuardedCalls(c: Tcp)
    ensures !c.connected || c.send.isPending || c.sendBuffer == [] ==> SendNow(c) == c
    ensures !c.connected || c.recv.isPending ==> RecvNow(c) == c
    ensures c.connected ==> RecvNow(c).recv.isPending && (c.sendBuffer != [] ==> SendNow(c).send.isPending)
  {
  }

  lemma {:induction false} PendingStays(c: Tcp, calls: seq<Call>)
    requires c.send.isPending
    ensures Handle(c, calls).chan.send == c.send
    decreases |calls|
  {
    if calls != [] {
      PendingStays(c, calls[..|calls| - 1]);
    }
  }
}
