/** PSC message framing of src/sw/src/pscmsg.c: an 8-byte header ("PS", big-endian id
    and length) before each body, over a stream that send() and recv() cut anywhere. */
module PscMessage {
  import opened Common

  /** Overrun: more bytes arrived than the caller's buffer holds. The C code has then written past
      the end of that buffer and defines nothing from there on, so the model stops. */
  datatype Status = Ok | NotConnected | BadHeader | Errno(errno: int) | Overrun

  /** A body whose length fits the header's length field. */
  type Body = s: seq<byte> | |s| < 0x1_0000_0000

  datatype Message = Message(id: u16, body: Body)

  const HEADER := 8
  const SKIP := 128

  // --- The wire format ---

  function Be16(n: u16): seq<byte> { [n / 0x100, n % 0x100] }

  function Be32(n: u32): seq<byte> { Be16(n / 0x1_0000) + Be16(n % 0x1_0000) }

  function Head(id: u16, len: u32): seq<byte> { [0x50, 0x53] + Be16(id) + Be32(len) }

  function FromBe16(a: int, b: int): int { a * 0x100 + b }

  function FromBe32(a: int, b: int, c: int, d: int): int {
    FromBe16(a, b) * 0x1_0000 + FromBe16(c, d)
  }

  function ParseHead(h: seq<byte>): Option<(u16, u32)>
    requires |h| == HEADER
  {
    if h[0] != 0x50 || h[1] != 0x53 then None else
    Some((FromBe16(h[2], h[3]), FromBe32(h[4], h[5], h[6], h[7])))
  }

  lemma HighBytes(n: u32)
    ensures n / 0x1_0000 / 0x100 == n / 0x100_0000
  {
  }

  lemma LowBytes(n: u32)
    ensures n % 0x1_0000 / 0x100 == n / 0x100 % 0x100 && n % 0x1_0000 % 0x100 == n % 0x100
  {
    var q, m := n / 0x1_0000, n % 0x1_0000;
    var a, b := m / 0x100, m % 0x100;
    ByteSplit(n, 0x100 * q + a, b);
    ByteSplit(0x100 * q + a, q, a);
  }

  lemma ByteSplit(n: nat, q: nat, b: nat)
    requires n == 0x100 * q + b && b < 0x100
    ensures n / 0x100 == q && n % 0x100 == b
  {
  }

  lemma Be32Bytes(n: u32)
    ensures Be32(n) == [n / 0x100_0000, n / 0x1_0000 % 0x100, n / 0x100 % 0x100, n % 0x100]
  {
    HighBytes(n);
    LowBytes(n);
  }

  /** A header is "PS", then id and length with the most significant byte first. */
  lemma HeadBytes(id: u16, len: u32)
    ensures Head(id, len) == [0x50, 0x53, id / 0x100, id % 0x100]
      + [len / 0x100_0000, len / 0x1_0000 % 0x100, len / 0x100 % 0x100, len % 0x100]
  {
    Be32Bytes(len);
    assert [0x50, 0x53] + Be16(id) == [0x50, 0x53, id / 0x100, id % 0x100];
  }

  function Frame(m: Message): seq<byte>
  {
    Head(m.id, |m.body|) + m.body
  }

  function Frames(ms: seq<Message>): seq<byte>
  {
    if ms == [] then [] else Frame(ms[0]) + Frames(ms[1..])
  }

  lemma {:induction false} FramesSnoc(ms: seq<Message>, m: Message)
    ensures Frames(ms + [m]) == Frames(ms) + Frame(m)
  {
    if ms == [] {
      assert ms + [m] == [m] && [m][1..] == [];
      assert Frame(m) + Frames([]) == Frame(m) == Frames([]) + Frame(m);
    } else {
      assert (ms + [m])[1..] == ms[1..] + [m];
      FramesSnoc(ms[1..], m);
      ConcatAssoc(Frame(ms[0]), Frames(ms[1..]), Frame(m));
    }
  }

  lemma Be16RoundTrip(a: byte, b: byte, n: u16)
    ensures FromBe16(a, b) == n <==> [a, b] == Be16(n)
  {
    assert Be16(n)[0] == n / 0x100 && Be16(n)[1] == n % 0x100;
  }

  lemma Be32RoundTrip(a: byte, b: byte, c: byte, d: byte, n: u32)
    ensures FromBe32(a, b, c, d) == n <==> [a, b, c, d] == Be32(n)
  {
    Be16RoundTrip(a, b, n / 0x1_0000);
    Be16RoundTrip(c, d, n % 0x1_0000);
    var e := Be32(n);
    assert e[..2] == Be16(n / 0x1_0000) && e[2..] == Be16(n % 0x1_0000);
    assert [a, b, c, d] == [a, b] + [c, d];
  }

  /** A header parses exactly when it is the encoding of what it parses to. */
  lemma HeadRoundTrip(h: seq<byte>, id: u16, len: u32)
    requires |h| == HEADER
    ensures ParseHead(h) == Some((id, len)) <==> h == Head(id, len)
  {
    Be16RoundTrip(h[2], h[3], id);
    Be32RoundTrip(h[4], h[5], h[6], h[7], len);
    assert h == h[..2] + h[2..4] + h[4..];
    assert Head(id, len)[2..4] == Be16(id) && Head(id, len)[4..] == Be32(len);
    assert h[2..4] == [h[2], h[3]] && h[4..] == [h[4], h[5], h[6], h[7]] && h[..2] == [h[0], h[1]];
    assert Head(id, len)[..2] == [0x50, 0x53];
  }

  // --- The socket ---

  /** What the next send() or recv() calls do: a positive limit bounds how much one call
      moves, zero and negative ones are the failures of the C interface. After the last
      entry calls move as much as they can. */
  datatype Script = Freely | Next(limit: int, rest: Script)
  {
    function Tail(): Script { if Freely? then Freely else rest }
  }

  /** What one call returns when at most n bytes can be moved. */
  function Answer(script: Script, n: nat): (r: int)
    ensures r <= n
  {
    if script.Freely? || n < script.limit then n else script.limit
  }

  function Refusal(ret: int): (s: Status)
    ensures s != Ok && s != Overrun
  {
    if ret < 0 then Errno(-ret) else NotConnected
  }

  /** Where a transfer stopped, how it ended and the script left over. */
  datatype Moved = Moved(status: Status, pos: nat, script: Script)

  /** The loop of psc_sendall and psc_recvall: from position pos to position target of a
      stream of `end` bytes. */
  function Move(script: Script, pos: nat, end: nat, target: nat): (m: Moved)
    requires pos <= end && pos <= target
    ensures pos <= m.pos <= end && m.pos <= target
    ensures m.status == Ok <==> m.pos == target
    ensures m.status != Overrun
    decreases target - pos
  {
    if pos == target then Moved(Ok, pos, script) else
    var ret := Answer(script, Min(end, target) - pos);
    if ret <= 0 then Moved(Refusal(ret), pos, script.Tail()) else Move(script.Tail(), pos + ret, end, target)
  }

  /** The same into a buffer that is full at position `limit`. */
  function MoveInto(script: Script, pos: nat, end: nat, target: nat, limit: nat): (m: Moved)
    requires pos <= end && pos <= target && pos <= limit
    ensures pos <= m.pos <= end && m.pos <= target
    ensures m.status == Overrun <==> m.pos > limit
    ensures m.status == Ok <==> m.pos == target <= limit
    decreases target - pos
  {
    if pos == target then Moved(Ok, pos, script) else
    var ret := Answer(script, Min(end, target) - pos);
    if ret <= 0 then Moved(Refusal(ret), pos, script.Tail())
    else if pos + ret > limit then Moved(Overrun, pos + ret, script.Tail())
    else MoveInto(script.Tail(), pos + ret, end, target, limit)
  }

  /** A buffer makes no difference until more bytes have arrived than it holds. */
  lemma {:induction false} IntoBuffer(script: Script, pos: nat, end: nat, target: nat, limit: nat)
    requires pos <= end && pos <= target && pos <= limit
    ensures var m, free := MoveInto(script, pos, end, target, limit), Move(script, pos, end, target);
      if free.pos <= limit then m == free else m.status == Overrun
    decreases target - pos
  {
    if pos < target {
      var ret := Answer(script, Min(end, target) - pos);
      if 0 < ret <= limit - pos {
        IntoBuffer(script.Tail(), pos + ret, end, target, limit);
      }
    }
  }

  /** The receiving side of a socket: every byte the peer ever sends, how many of them
      have been received, and the script of recv(). An exhausted stream reads as a
      closed connection. */
  datatype Stream = Stream(bytes: seq<byte>, pos: nat, script: Script)
  type Inflow = s: Stream | s.pos <= |s.bytes| witness Stream([], 0, Freely)

  /** The sending side: the bytes sent so far and the script of send(). */
  datatype Outflow = Outflow(sent: seq<byte>, script: Script)

  class Socket {
    var incoming: Inflow
    var outgoing: Outflow

    constructor (incoming: Inflow, outgoing: Outflow)
      ensures this.incoming == incoming && this.outgoing == outgoing
    {
      this.incoming := incoming;
      this.outgoing := outgoing;
    }

    method Recv(n: nat) returns (ret: int, data: seq<byte>)
      modifies this`incoming
      ensures var c := old(incoming);
        && ret == Answer(c.script, Min(|c.bytes|, c.pos + n) - c.pos)
        && data == (if ret > 0 then c.bytes[c.pos..c.pos + ret] else [])
        && incoming == Stream(c.bytes, if ret > 0 then c.pos + ret else c.pos, c.script.Tail())
    {
      ret := Answer(incoming.script, Min(|incoming.bytes|, incoming.pos + n) - incoming.pos);
      var end := if ret > 0 then incoming.pos + ret else incoming.pos;
      data := if ret > 0 then incoming.bytes[incoming.pos..end] else [];
      incoming := Stream(incoming.bytes, end, incoming.script.Tail());
    }

    /** `at` is how far the C pointer has moved into the buffer. */
    method Send(buf: seq<byte>, at: nat) returns (ret: int)
      requires at <= |buf|
      modifies this`outgoing
      ensures var c := old(outgoing);
        && ret == Answer(c.script, |buf| - at)
        && outgoing.script == c.script.Tail()
        && outgoing.sent == if ret > 0 then c.sent + buf[at..at + ret] else c.sent
    {
      ret := Answer(outgoing.script, |buf| - at);
      outgoing := Outflow(if ret > 0 then outgoing.sent + buf[at..at + ret] else outgoing.sent,
                          outgoing.script.Tail());
    }
  }

  lemma SliceStep(bytes: seq<byte>, from: nat, at: nat, to: nat)
    requires from <= at <= to <= |bytes|
    ensures bytes[from..at] + bytes[at..to] == bytes[from..to]
  {
  }

  lemma ConcatAssoc(a: seq<byte>, b: seq<byte>, c: seq<byte>)
    ensures a + b + c == a + (b + c)
  {
  }

  // --- Sending ---

  /** psc_sendall. */
  function SendAll(c: Outflow, data: seq<byte>): (Status, Outflow) {
    var m := Move(c.script, 0, |data|, |data|);
    (m.status, Outflow(c.sent + data[..m.pos], m.script))
  }

  method PscSendAll(sock: Socket, buf: seq<byte>) returns (status: Status)
    modifies sock`outgoing
    ensures (status, sock.outgoing) == SendAll(old(sock.outgoing), buf)
  {
    var at := 0;
    while at < |buf|
      invariant 0 <= at <= |buf|
      invariant sock.outgoing.sent == old(sock.outgoing).sent + buf[..at]
      invariant Move(old(sock.outgoing).script, 0, |buf|, |buf|)
             == Move(sock.outgoing.script, at, |buf|, |buf|)
    {
      var ret := sock.Send(buf, at);
      if ret < 0 {
        return Errno(-ret);
      } else if ret == 0 {
        return NotConnected;
      }
      SliceStep(buf, 0, at, at + ret);
      ConcatAssoc(old(sock.outgoing).sent, buf[..at], buf[at..at + ret]);
      at := at + ret;
    }
    return Ok;
  }

  /** psc_sendmsg. */
  function SendMsg(c: Outflow, m: Message): (Status, Outflow) {
    var h := SendAll(c, Head(m.id, |m.body|));
    if h.0 != Ok then h else SendAll(h.1, m.body)
  }

  method PscSendHead(sock: Socket, id: u16, len: u32) returns (status: Status)
    modifies sock`outgoing
    ensures (status, sock.outgoing) == SendAll(old(sock.outgoing), Head(id, len))
  {
    var head := [0x50, 0x53] + Be16(id) + Be32(len);
    status := PscSendAll(sock, head);
  }

  method PscSendMsg(sock: Socket, m: Message) returns (status: Status)
    modifies sock`outgoing
    ensures (status, sock.outgoing) == SendMsg(old(sock.outgoing), m)
  {
    status := PscSendHead(sock, m.id, |m.body|);
    if status != Ok {
      return;
    }
    status := PscSendAll(sock, m.body);
  }

  /** How many bytes of its frame a send puts on the wire. */
  function FramePart(c: Outflow, m: Message): nat {
    var h := Move(c.script, 0, HEADER, HEADER);
    if h.status != Ok then h.pos else HEADER + Move(h.script, 0, |m.body|, |m.body|).pos
  }

  /** A send puts its whole frame on the wire, or on failure a proper prefix of it. */
  lemma SendMsgFrames(c: Outflow, m: Message)
    ensures FramePart(c, m) <= |Frame(m)|
    ensures SendMsg(c, m).1.sent == c.sent + Frame(m)[..FramePart(c, m)]
    ensures SendMsg(c, m).0 == Ok <==> FramePart(c, m) == |Frame(m)|
    ensures SendMsg(c, m).0 == Ok ==> SendMsg(c, m).1.sent == c.sent + Frame(m)
  {
    var head := Head(m.id, |m.body|);
    var h := Move(c.script, 0, HEADER, HEADER);
    if h.status != Ok {
      HeadOnly(head, m.body, h.pos);
    } else {
      var b := Move(h.script, 0, |m.body|, |m.body|);
      HeadAndMore(head, m.body, b.pos);
      assert head[..HEADER] == head;
      ConcatAssoc(c.sent, head, m.body[..b.pos]);
      assert Frame(m)[..|Frame(m)|] == Frame(m);
    }
  }

  lemma HeadOnly(head: seq<byte>, body: seq<byte>, n: nat)
    requires n <= |head|
    ensures (head + body)[..n] == head[..n]
  {
  }

  lemma HeadAndMore(head: seq<byte>, body: seq<byte>, n: nat)
    requires n <= |body|
    ensures (head + body)[..|head| + n] == head + body[..n]
  {
  }

  // --- Receiving ---

  datatype Received = Received(status: Status, data: seq<byte>, rest: Inflow)

  /** psc_recvall into a buffer that is large enough: the bytes stored and the stream left behind. */
  function RecvAll(c: Inflow, n: nat): Received {
    var m := Move(c.script, c.pos, |c.bytes|, c.pos + n);
    Received(m.status, c.bytes[c.pos..m.pos], Stream(c.bytes, m.pos, m.script))
  }

  /** psc_recvall into a buffer of `room` bytes. */
  function RecvInto(c: Inflow, n: nat, room: nat): Received {
    var m := MoveInto(c.script, c.pos, |c.bytes|, c.pos + n, c.pos + room);
    Received(m.status, c.bytes[c.pos..m.pos], Stream(c.bytes, m.pos, m.script))
  }

  lemma RecvFits(c: Inflow, n: nat, room: nat)
    requires n <= room
    ensures RecvInto(c, n, room) == RecvAll(c, n)
  {
    IntoBuffer(c.script, c.pos, |c.bytes|, c.pos + n, c.pos + room);
  }

  /** The C function is not told the size of its buffer; `room` is what its caller provides. */
  lemma IntoStep(script: Script, pos: nat, end: nat, left: nat, limit: nat)
    requires pos <= end && 0 < left && pos <= limit
    ensures var ret := Answer(script, Min(end, pos + left) - pos);
      var m := MoveInto(script, pos, end, pos + left, limit);
      if ret <= 0 then m == Moved(Refusal(ret), pos, script.Tail())
      else if pos + ret > limit then m == Moved(Overrun, pos + ret, script.Tail())
      else m == MoveInto(script.Tail(), pos + ret, end, pos + ret + (left - ret), limit)
  {
    assert forall r: int {:trigger pos + r} :: pos + r + (left - r) == pos + left;
  }

  /** One turn of the loop: `over` says that the loop ends here with `status`. */
  method RecvSome(sock: Socket, left: nat, stored: nat, room: nat) returns (status: Status, data: seq<byte>, over: bool)
    requires left > 0 && stored <= room
    modifies sock`incoming
    ensures var c, e := old(sock.incoming), sock.incoming;
      var end, limit := |c.bytes|, c.pos + (room - stored);
      var m := MoveInto(c.script, c.pos, end, c.pos + left, limit);
      && e.bytes == c.bytes && e.pos == c.pos + |data| && data == c.bytes[c.pos..e.pos]
      && (over ==> m == Moved(status, e.pos, e.script))
      && (!over ==> c.pos < e.pos <= c.pos + left && e.pos <= limit && m == MoveInto(e.script, e.pos, end, c.pos + left, limit))
  {
    ghost var c := sock.incoming;
    IntoStep(c.script, c.pos, |c.bytes|, left, c.pos + (room - stored));
    var ret;
    ret, data := sock.Recv(left);
    status, over := Ok, true;
    if ret < 0 {
      status := Errno(-ret);
    } else if ret == 0 {
      status := NotConnected;
    } else if stored + ret > room {
      status := Overrun;
    } else {
      over := false;
    }
  }

  method PscRecvAll(sock: Socket, n: nat, room: nat) returns (status: Status, buf: seq<byte>)
    modifies sock`incoming
    ensures Received(status, buf, sock.incoming) == RecvInto(old(sock.incoming), n, room)
  {
    ghost var c, target, limit := sock.incoming, sock.incoming.pos + n, sock.incoming.pos + room;
    ghost var m := MoveInto(c.script, c.pos, |c.bytes|, target, limit);
    var left := n;
    buf := [];
    while left > 0
      invariant sock.incoming.bytes == c.bytes && c.pos <= sock.incoming.pos <= limit && sock.incoming.pos <= target
      invariant left == target - sock.incoming.pos
      invariant buf == c.bytes[c.pos..sock.incoming.pos]
      invariant m == MoveInto(sock.incoming.script, sock.incoming.pos, |c.bytes|, target, limit)
    {
      ghost var at := sock.incoming.pos;
      var data, over;
      status, data, over := RecvSome(sock, left, |buf|, room);
      SliceStep(c.bytes, c.pos, at, sock.incoming.pos);
      buf := buf + data;
      if over {
        return;
      }
      left := left - |data|;
    }
    status := Ok;
  }

  /** The loop of psc_recvskip: the final call is made even after a failed one, with the length
      that is then still to be skipped, and still into 128 bytes. */
  function MoveSkip(script: Script, pos: nat, end: nat, target: nat): (m: Moved)
    requires pos <= end && pos <= target
    ensures pos <= m.pos <= end
    decreases target - pos
  {
    if target <= pos + SKIP then Move(script, pos, end, target) else
    var r := Move(script, pos, end, pos + SKIP);
    if r.status == Ok then MoveSkip(r.script, r.pos, end, target)
    else MoveInto(r.script, r.pos, end, r.pos + (target - pos), r.pos + SKIP)
  }

  /** psc_recvskip. */
  function RecvSkip(c: Inflow, len: nat): (Status, Inflow) {
    var m := MoveSkip(c.script, c.pos, |c.bytes|, c.pos + len);
    (m.status, Stream(c.bytes, m.pos, m.script))
  }

  /** The largest length psc_recvskip asks psc_recvall for. */
  function Widest(script: Script, pos: nat, end: nat, target: nat): nat
    requires pos <= end && pos <= target
    decreases target - pos
  {
    if target <= pos + SKIP then target - pos else
    var r := Move(script, pos, end, pos + SKIP);
    if r.status == Ok then Max(SKIP, Widest(r.script, r.pos, end, target)) else target - pos
  }

  /** psc_recvall into the 128 bytes that psc_recvskip has for it. */
  method Discard(sock: Socket, n: nat) returns (status: Status)
    modifies sock`incoming
    ensures var c := old(sock.incoming);
      var m := MoveInto(c.script, c.pos, |c.bytes|, c.pos + n, c.pos + SKIP);
      && status == m.status && sock.incoming == Stream(c.bytes, m.pos, m.script)
      && (n <= SKIP ==> m == Move(c.script, c.pos, |c.bytes|, c.pos + n))
  {
    ghost var c := sock.incoming;
    IntoBuffer(c.script, c.pos, |c.bytes|, c.pos + n, c.pos + SKIP);
    var buf;
    status, buf := PscRecvAll(sock, n, SKIP);
  }

  /** One turn of the loop: a block of 128 bytes, and after a failure the last read. */
  method SkipBlock(sock: Socket, len: nat) returns (status: Status, over: bool)
    requires len > SKIP
    modifies sock`incoming
    ensures var c, e := old(sock.incoming), sock.incoming;
      var end, target := |c.bytes|, c.pos + len;
      var m, w := MoveSkip(c.script, c.pos, end, target), Widest(c.script, c.pos, end, target);
      && e.bytes == c.bytes
      && (over ==> m == Moved(status, e.pos, e.script) && w == len)
      && (!over ==>
            && e.pos == c.pos + SKIP && m == MoveSkip(e.script, e.pos, end, target)
            && w == Max(SKIP, Widest(e.script, e.pos, end, target)))
  {
    status := Discard(sock, SKIP);
    over := status != Ok;
    if over {
      status := Discard(sock, len);
    }
  }

  method PscRecvSkip(sock: Socket, n: nat) returns (status: Status, ghost asked: nat)
    modifies sock`incoming
    ensures (status, sock.incoming) == RecvSkip(old(sock.incoming), n)
    ensures var c := old(sock.incoming);
      asked == Widest(c.script, c.pos, |c.bytes|, c.pos + n)
  {
    ghost var c, end, target := sock.incoming, |sock.incoming.bytes|, sock.incoming.pos + n;
    ghost var m, widest := MoveSkip(c.script, c.pos, end, target), Widest(c.script, c.pos, end, target);
    var len: nat := n;
    asked := 0;
    while len > SKIP
      invariant sock.incoming.bytes == c.bytes && sock.incoming.pos + len == target
      invariant m == MoveSkip(sock.incoming.script, sock.incoming.pos, end, target)
      invariant asked <= SKIP && widest == Max(asked, Widest(sock.incoming.script, sock.incoming.pos, end, target))
    {
      var over;
      status, over := SkipBlock(sock, len);
      if over {
        asked := len;
        return;
      }
      asked := SKIP;
      len := len - SKIP;
    }
    asked := Max(asked, len);
    status := Discard(sock, len);
  }

  method PscRecvHead(sock: Socket) returns (status: Status, id: u16, len: u32)
    modifies sock`incoming
    ensures var r := RecvAll(old(sock.incoming), HEADER);
      && sock.incoming == r.rest
      && if r.status != Ok then status == r.status
         else if ParseHead(r.data) == None then status == BadHeader
         else status == Ok && ParseHead(r.data) == Some((id, len))
  {
    id, len := 0, 0;
    var h: seq<byte>;
    RecvFits(sock.incoming, HEADER, HEADER);
    status, h := PscRecvAll(sock, HEADER, HEADER);
    if status != Ok {
      return;
    }
    if h[0] != 0x50 || h[1] != 0x53 {
      return BadHeader, 0, 0;
    }
    id := FromBe16(h[2], h[3]);
    len := FromBe32(h[4], h[5], h[6], h[7]);
  }

  /** `out` is what the output parameters are set to, if they are. */
  datatype Reply = Reply(status: Status, out: Option<Message>, rest: Inflow)

  /** psc_recvmsg with a buffer of `max` bytes. */
  function RecvMsg(c: Inflow, max: u32): Reply {
    var h := RecvAll(c, HEADER);
    if h.status != Ok then Reply(h.status, None, h.rest) else
    match ParseHead(h.data)
    case None => Reply(BadHeader, None, h.rest)
    case Some((id, len)) => RecvBody(h.rest, id, len, max)
  }

  function RecvBody(c: Inflow, id: u16, len: u32, max: u32): Reply {
    var b := RecvAll(c, if len > max then max else len);
    if b.status != Ok then Reply(b.status, None, b.rest)
    else if max < len then
      var s := RecvSkip(b.rest, len - max);
      Reply(s.0, Some(Message(id, b.data)), s.1)
    else Reply(Ok, Some(Message(id, b.data)), b.rest)
  }

  method PscRecvMsg(sock: Socket, max: u32) returns (status: Status, out: Option<Message>)
    modifies sock`incoming
    ensures Reply(status, out, sock.incoming) == RecvMsg(old(sock.incoming), max)
  {
    out := None;
    var id, len;
    status, id, len := PscRecvHead(sock);
    if status != Ok {
      return;
    }
    status, out := PscRecvBody(sock, id, len, max);
  }

  /** The rest of psc_recvmsg, once the header is known. */
  method PscRecvBody(sock: Socket, id: u16, len: u32, max: u32) returns (status: Status, out: Option<Message>)
    modifies sock`incoming
    ensures Reply(status, out, sock.incoming) == RecvBody(old(sock.incoming), id, len, max)
  {
    out := None;
    var rlen := if len > max then max else len;
    var buf;
    RecvFits(sock.incoming, rlen, max);
    status, buf := PscRecvAll(sock, rlen, max);
    if status != Ok {
      return;
    }
    if rlen < len {
      ghost var asked: nat;
      status, asked := PscRecvSkip(sock, len - rlen);
    }
    out := Some(Message(id, buf));
  }

  // --- Skipping ---

  /** A 128-byte read that failed while `left` bytes, more than 128, were still to be skipped. */
  datatype Failure = Failure(pos: nat, script: Script, left: nat)

  function FirstFailure(script: Script, pos: nat, end: nat, target: nat): (f: Option<Failure>)
    requires pos <= end && pos <= target
    ensures f.Some? ==> f.value.pos <= end && f.value.left > SKIP
    decreases target - pos
  {
    if target <= pos + SKIP then None else
    var r := Move(script, pos, end, pos + SKIP);
    if r.status == Ok then FirstFailure(r.script, r.pos, end, target)
    else Some(Failure(r.pos, r.script, target - pos))
  }

  /** Every length asked for fits the 128-byte buffer if and only if no such read fails. */
  lemma {:induction false} SkipAsks(script: Script, pos: nat, end: nat, target: nat)
    requires pos <= end && pos <= target
    ensures Widest(script, pos, end, target) <= SKIP <==> FirstFailure(script, pos, end, target) == None
    decreases target - pos
  {
    if target > pos + SKIP {
      var r := Move(script, pos, end, pos + SKIP);
      if r.status == Ok {
        SkipAsks(r.script, r.pos, end, target);
      }
    }
  }

  /** Whether the read that follows a failed one is given more bytes than the buffer holds. */
  predicate Spills(f: Failure, end: nat)
    requires f.pos <= end
  {
    Move(f.script, f.pos, end, f.pos + f.left).pos > f.pos + SKIP
  }

  /** A skip that reports success ends exactly where it should, and no 128-byte read has failed
      in it. It overruns its buffer if and only if such a read has failed and the next one is
      given more than 128 bytes. */
  lemma {:induction false} SkipLength(script: Script, pos: nat, end: nat, target: nat)
    requires pos <= end && pos <= target
    ensures var m, f := MoveSkip(script, pos, end, target), FirstFailure(script, pos, end, target);
      && (m.status == Ok ==> m.pos == target && f == None)
      && (m.status == Overrun <==> f.Some? && Spills(f.value, end))
    decreases target - pos
  {
    if target > pos + SKIP {
      var r := Move(script, pos, end, pos + SKIP);
      if r.status == Ok {
        SkipLength(r.script, r.pos, end, target);
      } else {
        IntoBuffer(r.script, r.pos, end, r.pos + (target - pos), r.pos + SKIP);
      }
    }
  }

  /** Two receive timeouts that a skip of 200 bytes turns into an overrun: one after 100 bytes of
      the first block, one before any byte of it. */
  lemma SkipOverruns(bytes: seq<byte>, early: bool)
    requires |bytes| >= 300
    ensures var script := if early then Next(-11, Freely) else Next(100, Next(-11, Freely));
      && Widest(script, 0, |bytes|, 200) == 200
      && RecvSkip(Stream(bytes, 0, script), 200).0 == Overrun
  {
    var end := |bytes|;
    var at := if early then 0 else 100;
    assert Move(Next(-11, Freely), at, end, 128) == Moved(Errno(11), at, Freely);
    assert !early ==> Move(Next(100, Next(-11, Freely)), 0, end, 128) == Moved(Errno(11), 100, Freely);
    assert MoveInto(Freely, at, end, at + 200, at + 128) == Moved(Overrun, at + 200, Freely);
  }

  /** A first read that fails, and then as many bytes as are asked for. */
  const FAIL_ONCE := Next(-11, Freely)

  lemma FailureSpills(pos: nat, target: nat)
    requires target > pos + SKIP
    ensures MoveSkip(FAIL_ONCE, pos, target, target).status == Overrun
  {
    assert Move(FAIL_ONCE, pos, target, pos + SKIP) == Moved(Errno(11), pos, Freely);
    assert MoveInto(Freely, pos, target, target, pos + SKIP) == Moved(Overrun, target, Freely);
  }

  /** No script and no stream make a skip overrun its buffer if and only if its length is at most 128. */
  lemma SkipSafe(n: nat)
    ensures (forall script: Script, end: nat :: MoveSkip(script, 0, end, n).status != Overrun) <==> n <= 128
  {
    if n > SKIP {
      FailureSpills(0, n);
    }
  }

  lemma BodySpills(id: u16, len: u32, max: u32)
    requires len > max + SKIP
    ensures exists c: Inflow :: RecvBody(c, id, len, max).status == Overrun
  {
    var script := if max > 0 then Next(max, FAIL_ONCE) else FAIL_ONCE;
    var c: Inflow := Stream(seq(len, _ => 0), 0, script);
    assert Move(script, 0, len, max) == Moved(Ok, max, FAIL_ONCE);
    FailureSpills(max, len);
    assert max + (len - max) == len;
    assert RecvBody(c, id, len, max).status == Overrun;
  }

  /** A message overruns no buffer on any stream if and only if its body is at most 128 bytes longer
      than the receiver's buffer. */
  lemma BodySafe(id: u16, len: u32, max: u32)
    ensures (forall c: Inflow :: RecvBody(c, id, len, max).status != Overrun) <==> len <= max + 128
  {
    if len > max + SKIP {
      BodySpills(id, len, max);
    }
  }

  // --- Round trips ---

  /** What a receiver with a buffer of `max` bytes gets of a message. */
  function Cut(m: Message, max: u32): Message {
    if |m.body| > max then m.(body := m.body[..max]) else m
  }

  predicate NeverFails(script: Script) {
    script.Freely? || (script.limit > 0 && NeverFails(script.rest))
  }

  lemma {:induction false} MoveSucceeds(script: Script, pos: nat, end: nat, target: nat)
    requires NeverFails(script) && pos <= target <= end
    ensures var m := Move(script, pos, end, target); m.status == Ok && NeverFails(m.script)
    decreases target - pos
  {
    if pos < target {
      MoveSucceeds(script.Tail(), pos + Answer(script, target - pos), end, target);
    }
  }

  lemma {:induction false} MoveEnds(script: Script, pos: nat, end: nat, target: nat)
    requires NeverFails(script) && pos <= end < target
    ensures var m := Move(script, pos, end, target); m.status == NotConnected && m.pos == end
    decreases target - pos
  {
    if pos < end {
      MoveEnds(script.Tail(), pos + Answer(script, end - pos), end, target);
    }
  }

  /** A header without "PS" is refused after its 8 bytes. */
  lemma HeadRefused(c: Inflow, max: u32)
    requires NeverFails(c.script) && c.pos + 8 <= |c.bytes|
    requires c.bytes[c.pos] != 0x50 || c.bytes[c.pos + 1] != 0x53
    ensures var r := RecvMsg(c, max);
      r.status == BadHeader && r.out == None && r.rest.pos == c.pos + 8
  {
    MoveSucceeds(c.script, c.pos, |c.bytes|, c.pos + HEADER);
  }

  /** A stream that ends in a header, or in the part of a body that is stored, is a lost connection and
      gives no message. */
  lemma HeadEnds(c: Inflow, max: u32)
    requires NeverFails(c.script) && |c.bytes| < c.pos + 8
    ensures RecvMsg(c, max).status == NotConnected && RecvMsg(c, max).out == None
  {
    MoveEnds(c.script, c.pos, |c.bytes|, c.pos + HEADER);
  }

  lemma BodyEnds(c: Inflow, id: u16, len: u32, max: u32)
    requires NeverFails(c.script) && |c.bytes| < c.pos + Min(len, max)
    ensures RecvBody(c, id, len, max).status == NotConnected && RecvBody(c, id, len, max).out == None
  {
    MoveEnds(c.script, c.pos, |c.bytes|, c.pos + Min(len, max));
  }

  /** An error of the first recv() is reported as it is. */
  lemma ErrorReported(c: Inflow, max: u32, errno: int, rest: Script)
    requires errno > 0 && c.script == Next(-errno, rest)
    ensures var r := RecvMsg(c, max);
      r.status == Errno(errno) && r.out == None && r.rest == Stream(c.bytes, c.pos, rest)
  {
  }

  lemma {:induction false} MoveSkipSucceeds(script: Script, pos: nat, end: nat, target: nat)
    requires NeverFails(script) && pos <= target <= end
    ensures var m := MoveSkip(script, pos, end, target);
      m.status == Ok && m.pos == target && NeverFails(m.script)
    decreases target - pos
  {
    MoveSucceeds(script, pos, end, Min(target, pos + SKIP));
    if target > pos + SKIP {
      MoveSkipSucceeds(Move(script, pos, end, pos + SKIP).script, pos + SKIP, end, target);
    }
  }

  predicate Holds(bytes: seq<byte>, pos: nat, piece: seq<byte>) {
    pos + |piece| <= |bytes| && bytes[pos..pos + |piece|] == piece
  }

  lemma BodyPosition(c: Inflow, id: u16, len: u32, max: u32)
    ensures var r := RecvBody(c, id, len, max);
      r.status == Ok ==> r.rest.pos == c.pos + len
  {
    var b := Move(c.script, c.pos, |c.bytes|, c.pos + max);
    if max < len && b.status == Ok {
      SkipLength(b.script, b.pos, |c.bytes|, c.pos + len);
    }
  }

  lemma ShortBodySucceeds(c: Inflow, id: u16, len: u32, max: u32)
    requires NeverFails(c.script) && c.pos + len <= |c.bytes| && len <= max
    ensures var r := RecvBody(c, id, len, max);
      r.status == Ok && NeverFails(r.rest.script)
  {
    MoveSucceeds(c.script, c.pos, |c.bytes|, c.pos + len);
  }

  lemma LongBodySucceeds(c: Inflow, id: u16, len: u32, max: u32)
    requires NeverFails(c.script) && c.pos + len <= |c.bytes| && max < len
    ensures var r := RecvBody(c, id, len, max);
      r.status == Ok && NeverFails(r.rest.script)
  {
    MoveSucceeds(c.script, c.pos, |c.bytes|, c.pos + max);
    var b := RecvAll(c, max).rest;
    MoveSkipSucceeds(b.script, b.pos, |c.bytes|, b.pos + (len - max));
  }

  lemma BodySucceeds(c: Inflow, id: u16, len: u32, max: u32)
    requires NeverFails(c.script) && c.pos + len <= |c.bytes|
    ensures var r := RecvBody(c, id, len, max);
      r.status == Ok && NeverFails(r.rest.script)
  {
    if len <= max {
      ShortBodySucceeds(c, id, len, max);
    } else {
      LongBodySucceeds(c, id, len, max);
    }
  }

  lemma BodyData(c: Inflow, max: u32, m: Message)
    requires Holds(c.bytes, c.pos, m.body)
    ensures var r := RecvBody(c, m.id, |m.body|, max);
      r.status == Ok ==> r.out == Some(Cut(m, max))
  {
    var keep := if |m.body| > max then max else |m.body|;
    TakeOfSlice(c.bytes, c.pos, c.pos + |m.body|, keep);
    assert m.body[..|m.body|] == m.body;
  }

  lemma TakeOfSlice(bytes: seq<byte>, from: nat, to: nat, keep: nat)
    requires from + keep <= to <= |bytes|
    ensures bytes[from..from + keep] == bytes[from..to][..keep]
  {
  }

  lemma FrameParts(bytes: seq<byte>, pos: nat, m: Message)
    requires Holds(bytes, pos, Frame(m))
    ensures bytes[pos..pos + HEADER] == Head(m.id, |m.body|)
    ensures Holds(bytes, pos + HEADER, m.body)
  {
    SubPiece(bytes, pos, Head(m.id, |m.body|), m.body);
  }

  lemma SubPiece(bytes: seq<byte>, pos: nat, a: seq<byte>, b: seq<byte>)
    requires Holds(bytes, pos, a + b)
    ensures Holds(bytes, pos, a) && Holds(bytes, pos + |a|, b)
  {
    var both := bytes[pos..pos + |a + b|];
    assert forall i :: 0 <= i < |a| ==> bytes[pos + i] == both[i] == a[i];
    assert forall i :: 0 <= i < |b| ==> bytes[pos + |a| + i] == both[|a| + i] == b[i];
  }

  /** The first step of a receive when the frame of m is next. */
  lemma HeadReceived(c: Inflow, max: u32, m: Message)
    requires Holds(c.bytes, c.pos, Frame(m))
    ensures var h := RecvAll(c, HEADER);
      && h.rest.bytes == c.bytes
      && (h.status == Ok ==>
           && RecvMsg(c, max) == RecvBody(h.rest, m.id, |m.body|, max)
           && h.rest.pos == c.pos + HEADER && Holds(c.bytes, h.rest.pos, m.body))
      && (h.status != Ok ==> RecvMsg(c, max) == Reply(h.status, None, h.rest))
      && (NeverFails(c.script) ==> h.status == Ok && NeverFails(h.rest.script))
  {
    FrameParts(c.bytes, c.pos, m);
    HeadRoundTrip(Head(m.id, |m.body|), m.id, |m.body|);
    if NeverFails(c.script) {
      MoveSucceeds(c.script, c.pos, |c.bytes|, c.pos + HEADER);
    }
  }

  lemma BodyReceived(c: Inflow, max: u32, m: Message)
    requires Holds(c.bytes, c.pos, m.body)
    ensures var r := RecvBody(c, m.id, |m.body|, max);
      && (r.status == Ok ==> r.out == Some(Cut(m, max)) && r.rest.pos == c.pos + |m.body|)
      && (NeverFails(c.script) ==> r.status == Ok && NeverFails(r.rest.script))
      && r.rest.bytes == c.bytes
  {
    BodyPosition(c, m.id, |m.body|, max);
    BodyData(c, max, m);
    if NeverFails(c.script) {
      BodySucceeds(c, m.id, |m.body|, max);
    }
  }

  /** For every way recv() splits the stream and fails: a receive that reports success returns the
      message, cut to the buffer, and ends exactly at the next header. If no recv() fails it
      succeeds. */
  lemma RecvMsgCorrect(c: Inflow, max: u32, m: Message)
    requires Holds(c.bytes, c.pos, Frame(m))
    ensures var r := RecvMsg(c, max);
      && (r.status == Ok ==> r.out == Some(Cut(m, max)) && r.rest.pos == c.pos + |Frame(m)|)
      && (NeverFails(c.script) ==> r.status == Ok && NeverFails(r.rest.script))
      && r.rest.bytes == c.bytes
  {
    HeadReceived(c, max, m);
    var h := RecvAll(c, HEADER);
    if h.status == Ok {
      BodyReceived(h.rest, max, m);
    }
  }

  function SendMany(c: Outflow, ms: seq<Message>): (Status, Outflow)
    decreases |ms|
  {
    if ms == [] then (Ok, c) else
    var r := SendMsg(c, ms[0]);
    if r.0 != Ok then r else SendMany(r.1, ms[1..])
  }

  /** The loop of handle_client: receive until the first failure, at most n messages. */
  function RecvMany(c: Inflow, n: nat, max: u32): (seq<Message>, Inflow)
    decreases n
  {
    if n == 0 then ([], c) else
    var r := RecvMsg(c, max);
    if r.status != Ok then ([], r.rest) else
    var s := RecvMany(r.rest, n - 1, max);
    ((if r.out.Some? then [r.out.value] else []) + s.0, s.1)
  }

  lemma {:induction false} SendManyFrames(c: Outflow, ms: seq<Message>)
    ensures SendMany(c, ms).0 == Ok ==> SendMany(c, ms).1.sent == c.sent + Frames(ms)
    decreases |ms|
  {
    if ms != [] && SendMsg(c, ms[0]).0 == Ok {
      SendMsgFrames(c, ms[0]);
      SendManyFrames(SendMsg(c, ms[0]).1, ms[1..]);
      ConcatAssoc(c.sent, Frame(ms[0]), Frames(ms[1..]));
    }
  }

  function CutAll(ms: seq<Message>, max: u32): seq<Message> {
    if ms == [] then [] else [Cut(ms[0], max)] + CutAll(ms[1..], max)
  }

  /** The frames of the messages stand one after the other from position pos. */
  predicate FramesFrom(bytes: seq<byte>, pos: nat, ms: seq<Message>)
    decreases |ms|
  {
    ms == [] || (Holds(bytes, pos, Frame(ms[0])) && FramesFrom(bytes, pos + |Frame(ms[0])|, ms[1..]))
  }

  lemma {:induction false} FramesStand(pre: seq<byte>, ms: seq<Message>)
    ensures FramesFrom(pre + Frames(ms), |pre|, ms)
    decreases |ms|
  {
    if ms != [] {
      var frame, rest := Frame(ms[0]), Frames(ms[1..]);
      ConcatAssoc(pre, frame, rest);
      assert (pre + frame + rest)[|pre|..|pre| + |frame|] == frame;
      FramesStand(pre + frame, ms[1..]);
    }
  }

  lemma {:induction false} RecvManyCorrect(c: Inflow, ms: seq<Message>, max: u32)
    requires FramesFrom(c.bytes, c.pos, ms) && NeverFails(c.script)
    ensures RecvMany(c, |ms|, max).0 == CutAll(ms, max)
    ensures RecvMany(c, |ms|, max).1.pos == c.pos + |Frames(ms)|
    decreases |ms|
  {
    if ms != [] {
      var r := RecvMsg(c, max);
      RecvMsgCorrect(c, max, ms[0]);
      RecvManyCorrect(r.rest, ms[1..], max);
      assert RecvMany(c, |ms|, max).0 == [Cut(ms[0], max)] + RecvMany(r.rest, |ms| - 1, max).0;
    }
  }

  /** Every list of messages that is sent without a failure, however send() splits it,
      arrives whole and in order, however recv() splits it, each body cut to the buffer
      and the stream left exactly after the last frame. */
  lemma RoundTrip(ms: seq<Message>, sends: Script, recvs: Script, max: u32)
    requires SendMany(Outflow([], sends), ms).0 == Ok && NeverFails(recvs)
    ensures var wire := SendMany(Outflow([], sends), ms).1.sent;
      var r := RecvMany(Stream(wire, 0, recvs), |ms|, max);
      r.0 == CutAll(ms, max) && r.1.pos == |wire|
  {
    var wire := SendMany(Outflow([], sends), ms).1.sent;
    SendManyFrames(Outflow([], sends), ms);
    assert wire == [] + Frames(ms) == Frames(ms);
    FramesStand([], ms);
    RecvManyCorrect(Stream(wire, 0, recvs), ms, max);
  }
}
