/** The TFTP server of src/sw/src/tftp_server.c: one shared session, a resend
    timer, and the two packet directions of RFC 1350.

    Every callback is given twice: as a function from one session state to the
    next, about which the other TFTP modules reason, and as a method of class
    `Server` that updates the fields the way the C code does. */
module TftpServer {
  import opened Common

  const PAYLOAD := 512
  const TIMEOUT_TICKS := 10
  const MAX_RETRIES := 5
  const MAX_FILENAME := 20
  const MAX_MODE := 7

  /** A network address; zero is the any-address. */
  type Addr = nat
  const ANY: Addr := 0

  datatype Endpoint = Endpoint(addr: Addr, port: u16)

  datatype ErrorCode = FileNotFound | AccessViolation | IllegalOperation | UnknownTransferId

  /** The pbuf kept for retransmission: block number and payload. */
  datatype Block = Block(blk: u16, payload: seq<byte>)

  datatype Packet =
    | Request(write: bool, body: seq<byte>)   // body: everything after the opcode
    | Data(block: Block)
    | Ack(blk: u16)
    | Error(code: ErrorCode)
    | Unknown

  datatype Sent = Sent(to: Endpoint, packet: Packet)

  /** One call on the file context, with its outcome. */
  datatype Call =
    | Open(name: seq<byte>, mode: seq<byte>, write: bool, ok: bool)
    | Read(result: Option<seq<byte>>)
    | Write(data: seq<byte>, ok: bool)
    | Close

  /** What the surroundings decide in one step: context results and buffer allocation. */
  type Chunk = s: seq<byte> | |s| <= PAYLOAD
  datatype Env = Env(openOk: bool, read: Option<Chunk>, writeOk: bool, dataBuf: bool, sendBuf: bool)

  datatype State = State(
    handle: bool,
    lastData: Option<Block>,
    addr: Addr,
    port: u16,
    timer: int,
    lastPkt: int,
    blknum: u16,
    retries: nat,
    modeWrite: bool,
    pending: nat)     // tftp_tmr timeouts queued in lwIP
  {
    function Peer(): Endpoint { Endpoint(addr, port) }
  }

  datatype Result = Result(state: State, sent: seq<Sent>, calls: seq<Call>)

  function Next16(n: u16): u16 { (n + 1) % 0x1_0000 }

  function Emit(ok: bool, to: Endpoint, p: Packet): seq<Sent> {
    if ok then [Sent(to, p)] else []
  }

  function FindNul(s: seq<byte>, from: nat): (r: Option<nat>)
    ensures r.Some? ==> from <= r.value < |s| && s[r.value] == 0 && 0 !in s[from..r.value]
    ensures r.None? && from <= |s| ==> 0 !in s[from..]
    decreases |s| - from
  {
    if from >= |s| then None else if s[from] == 0 then Some(from) else FindNul(s, from + 1)
  }

  /** The file name and mode of a request, when both are terminated and short enough. */
  function ParseRequest(body: seq<byte>): Option<(seq<byte>, seq<byte>)> {
    match FindNul(body, 0)
    case None => None
    case Some(i) =>
      if i + 1 > MAX_FILENAME + 1 then None else
      match FindNul(body, i + 1)
      case None => None
      case Some(j) =>
        if j - i > MAX_MODE + 1 then None else Some((body[..i], body[i + 1..j]))
  }

  /** close_handle. */
  function CloseSession(s: State): Result {
    Result(
      s.(port := 0, addr := ANY, lastData := None, handle := false,
         pending := if s.pending > 0 then s.pending - 1 else 0),
      [],
      if s.handle then [Close] else [])
  }

  /** send_data. */
  function NextData(s: State, env: Env): Result {
    if !env.dataBuf then Result(s.(lastData := None), [], []) else
    match env.read
    case None =>
      var c := CloseSession(s);
      Result(c.state, Emit(env.sendBuf, s.Peer(), Error(AccessViolation)), [Read(None)] + c.calls)
    case Some(bytes) =>
      var b := Block(s.blknum, bytes);
      Result(s.(lastData := Some(b)), Emit(env.sendBuf, s.Peer(), Data(b)), [Read(Some(bytes))])
  }

  /** The test at the head of recv. */
  predicate Foreign(s: State, from: Endpoint) {
    (s.port != 0 && from.port != s.port) || (s.addr != ANY && s.addr != from.addr)
  }

  /** The session now belongs to the sender of the request. */
  function Adopt(s: State, from: Endpoint, write: bool): State {
    s.(addr := from.addr, port := from.port, modeWrite := write)
  }

  /** The rest of a request whose names could be read: open the file and answer. */
  function OnOpen(s: State, env: Env, from: Endpoint, write: bool, name: seq<byte>, mode: seq<byte>): Result {
    var s1 := s.(blknum := 1, handle := env.openOk);
    var open := [Open(name, mode, write, env.openOk)];
    if !env.openOk then Result(s1, Emit(env.sendBuf, from, Error(FileNotFound)), open) else
    var s2 := Adopt(s1, from, write);
    if write then Result(s2, Emit(env.sendBuf, from, Ack(0)), open) else
    var d := NextData(s2, env);
    Result(d.state, d.sent, open + d.calls)
  }

  function OnRequest(s: State, env: Env, from: Endpoint, write: bool, body: seq<byte>): Result {
    if s.handle then Result(s, Emit(env.sendBuf, from, Error(AccessViolation)), []) else
    var s1 := s.(pending := s.pending + 1);
    match ParseRequest(body)
    case None => Result(s1, Emit(env.sendBuf, from, Error(AccessViolation)), [])
    case Some((name, mode)) => OnOpen(s1, env, from, write, name, mode)
  }

  function OnData(s: State, env: Env, from: Endpoint, b: Block): Result {
    if !s.handle || !s.modeWrite then
      Result(s, Emit(env.sendBuf, from, Error(AccessViolation)), [])
    else if b.blk == s.blknum then
      var call := [Write(b.payload, env.writeOk)];
      var c := if env.writeOk then Result(s, Emit(env.sendBuf, s.Peer(), Ack(b.blk)), [])
               else CloseSession(s).(sent := Emit(env.sendBuf, from, Error(AccessViolation)));
      if |b.payload| < PAYLOAD then
        var e := CloseSession(c.state);
        Result(e.state, c.sent, call + c.calls + e.calls)
      else
        Result(c.state.(blknum := Next16(s.blknum)), c.sent, call + c.calls)
    else if Next16(b.blk) == s.blknum then
      Result(s, Emit(env.sendBuf, s.Peer(), Ack(b.blk)), [])
    else
      Result(s, Emit(env.sendBuf, from, Error(UnknownTransferId)), [])
  }

  function OnAck(s: State, env: Env, from: Endpoint, blk: u16): Result {
    if !s.handle || s.modeWrite then
      Result(s, Emit(env.sendBuf, from, Error(AccessViolation)), [])
    else if blk != s.blknum then
      Result(s, Emit(env.sendBuf, from, Error(UnknownTransferId)), [])
    else if s.lastData.Some? && |s.lastData.value.payload| != PAYLOAD then
      CloseSession(s)
    else
      NextData(s.(blknum := Next16(s.blknum)), env)
  }

  /** recv. */
  function OnPacket(s: State, env: Env, from: Endpoint, p: Packet): Result {
    if Foreign(s, from) then Result(s, Emit(env.sendBuf, from, Error(AccessViolation)), []) else
    var s1 := s.(lastPkt := s.timer, retries := 0);
    match p
    case Request(write, body) => OnRequest(s1, env, from, write, body)
    case Data(b) => OnData(s1, env, from, b)
    case Ack(blk) => OnAck(s1, env, from, blk)
    case Error(_) => Result(s1, Emit(env.sendBuf, from, Error(IllegalOperation)), [])
    case Unknown => Result(s1, Emit(env.sendBuf, from, Error(IllegalOperation)), [])
  }

  /** tftp_tmr: the timeout that fires leaves the queue before the callback runs. */
  function OnTimer(s: State, sendBuf: bool): Result
    requires s.pending > 0
  {
    var s1 := s.(timer := s.timer + 1, pending := s.pending - 1);
    if !s1.handle then Result(s1, [], []) else
    var s2 := s1.(pending := s1.pending + 1);
    if s2.timer - s2.lastPkt <= TIMEOUT_TICKS then Result(s2, [], [])
    else if s2.lastData.Some? && s2.retries < MAX_RETRIES then
      Result(s2.(retries := s2.retries + 1), Emit(sendBuf, s2.Peer(), Data(s2.lastData.value)), [])
    else CloseSession(s2)
  }

  const Initial := State(false, None, ANY, 0, 0, 0, 0, 0, false, 0)

  /** The static tftp_state with its callbacks. The ghost histories record every
      packet handed to UDP and every call on the file context. */
  class Server {
    var handle: bool
    var lastData: Option<Block>
    var addr: Addr
    var port: u16
    var timer: int
    var lastPkt: int
    var blknum: u16
    var retries: nat
    var modeWrite: bool
    var pending: nat
    ghost var sent: seq<Sent>
    ghost var calls: seq<Call>

    function Snapshot(): State
      reads this
    {
      State(handle, lastData, addr, port, timer, lastPkt, blknum, retries, modeWrite, pending)
    }

    ghost predicate Took(before: State, sent0: seq<Sent>, calls0: seq<Call>, r: Result)
      reads this
    {
      Snapshot() == r.state && sent == sent0 + r.sent && calls == calls0 + r.calls
    }

    constructor Init()
      ensures Snapshot() == Initial && sent == [] && calls == []
    {
      handle, lastData, addr, port := false, None, ANY, 0;
      timer, lastPkt, blknum, retries, modeWrite, pending := 0, 0, 0, 0, false, 0;
      sent, calls := [], [];
    }

    method SendTo(buf: bool, to: Endpoint, p: Packet)
      modifies this`sent
      ensures sent == old(sent) + Emit(buf, to, p)
    {
      if buf {
        sent := sent + [Sent(to, p)];
      }
    }

    method CloseHandle()
      modifies this
      ensures Took(old(Snapshot()), old(sent), old(calls), CloseSession(old(Snapshot())))
    {
      port := 0;
      addr := ANY;
      lastData := None;
      if pending > 0 {
        pending := pending - 1;
      }
      if handle {
        calls := calls + [Close];
        handle := false;
      }
    }

    method ResendData(buf: bool)
      requires lastData.Some?
      modifies this`sent
      ensures sent == old(sent) + Emit(buf, Endpoint(addr, port), Data(lastData.value))
    {
      SendTo(buf, Endpoint(addr, port), Data(lastData.value));
    }

    method SendData(env: Env)
      modifies this
      ensures Took(old(Snapshot()), old(sent), old(calls), NextData(old(Snapshot()), env))
    {
      lastData := None;
      if !env.dataBuf {
        return;
      }
      calls := calls + [Read(env.read)];
      if env.read.None? {
        SendTo(env.sendBuf, Endpoint(addr, port), Error(AccessViolation));
        CloseHandle();
        return;
      }
      lastData := Some(Block(blknum, env.read.value));
      ResendData(env.sendBuf);
    }

    method Recv(env: Env, from: Endpoint, p: Packet)
      modifies this
      ensures Took(old(Snapshot()), old(sent), old(calls), OnPacket(old(Snapshot()), env, from, p))
    {
      if (port != 0 && from.port != port) || (addr != ANY && addr != from.addr) {
        SendTo(env.sendBuf, from, Error(AccessViolation));
        return;
      }
      lastPkt := timer;
      retries := 0;
      match p {
        case Request(write, body) => RecvRequest(env, from, write, body);
        case Data(b) => RecvData(env, from, b);
        case Ack(blk) => RecvAck(env, from, blk);
        case Error(_) => SendTo(env.sendBuf, from, Error(IllegalOperation));
        case Unknown => SendTo(env.sendBuf, from, Error(IllegalOperation));
      }
    }

    method AdoptPeer(from: Endpoint, write: bool)
      modifies this`addr, this`port, this`modeWrite
      ensures Snapshot() == Adopt(old(Snapshot()), from, write)
    {
      addr := from.addr;
      port := from.port;
      modeWrite := write;
    }

    method OpenSession(env: Env, from: Endpoint, write: bool, name: seq<byte>, mode: seq<byte>)
      modifies this
      ensures Took(old(Snapshot()), old(sent), old(calls), OnOpen(old(Snapshot()), env, from, write, name, mode))
    {
      calls := calls + [Open(name, mode, write, env.openOk)];
      handle := env.openOk;
      blknum := 1;
      if !handle {
        SendTo(env.sendBuf, from, Error(FileNotFound));
        return;
      }
      AdoptPeer(from, write);
      if write {
        SendTo(env.sendBuf, from, Ack(0));
      } else {
        SendData(env);
      }
    }

    method RecvRequest(env: Env, from: Endpoint, write: bool, body: seq<byte>)
      modifies this
      ensures Took(old(Snapshot()), old(sent), old(calls), OnRequest(old(Snapshot()), env, from, write, body))
    {
      if handle {
        SendTo(env.sendBuf, from, Error(AccessViolation));
        return;
      }
      pending := pending + 1;
      var names := ParseRequest(body);
      match names
      case None => SendTo(env.sendBuf, from, Error(AccessViolation));
      case Some((name, mode)) => OpenSession(env, from, write, name, mode);
    }

    method RecvData(env: Env, from: Endpoint, b: Block)
      modifies this
      ensures Took(old(Snapshot()), old(sent), old(calls), OnData(old(Snapshot()), env, from, b))
    {
      if !handle || !modeWrite {
        SendTo(env.sendBuf, from, Error(AccessViolation));
      } else if b.blk == blknum {
        calls := calls + [Write(b.payload, env.writeOk)];
        if !env.writeOk {
          SendTo(env.sendBuf, from, Error(AccessViolation));
          CloseHandle();
        } else {
          SendTo(env.sendBuf, Endpoint(addr, port), Ack(b.blk));
        }
        if |b.payload| < PAYLOAD {
          CloseHandle();
        } else {
          blknum := Next16(blknum);
        }
      } else if Next16(b.blk) == blknum {
        SendTo(env.sendBuf, Endpoint(addr, port), Ack(b.blk));
      } else {
        SendTo(env.sendBuf, from, Error(UnknownTransferId));
      }
    }

    method RecvAck(env: Env, from: Endpoint, blk: u16)
      modifies this
      ensures Took(old(Snapshot()), old(sent), old(calls), OnAck(old(Snapshot()), env, from, blk))
    {
      if !handle || modeWrite {
        SendTo(env.sendBuf, from, Error(AccessViolation));
        return;
      }
      if blk != blknum {
        SendTo(env.sendBuf, from, Error(UnknownTransferId));
        return;
      }
      var lastpkt := false;
      if lastData.Some? {
        lastpkt := |lastData.value.payload| != PAYLOAD;
      }
      if !lastpkt {
        blknum := Next16(blknum);
        SendData(env);
      } else {
        CloseHandle();
      }
    }

    method Timer(sendBuf: bool)
      requires pending > 0
      modifies this
      ensures Took(old(Snapshot()), old(sent), old(calls), OnTimer(old(Snapshot()), sendBuf))
    {
      pending := pending - 1;
      timer := timer + 1;
      if !handle {
        return;
      }
      pending := pending + 1;
      if timer - lastPkt > TIMEOUT_TICKS {
        if lastData.Some? && retries < MAX_RETRIES {
          ResendData(sendBuf);
          retries := retries + 1;
        } else {
          CloseHandle();
        }
      }
    }
  }

  // --- Requests ---

  function EncodeRequest(name: seq<byte>, mode: seq<byte>): seq<byte> {
    name + [0] + mode + [0]
  }

  lemma {:induction false} FindNulAt(s: seq<byte>, from: nat, i: nat)
    requires from <= i < |s| && s[i] == 0
    requires forall k :: from <= k < i ==> s[k] != 0
    ensures FindNul(s, from) == Some(i)
    decreases i - from
  {
    if from < i {
      FindNulAt(s, from + 1, i);
    }
  }

  lemma NamesFound(body: seq<byte>, name: seq<byte>, mode: seq<byte>)
    requires EncodeRequest(name, mode) <= body && 0 !in name && 0 !in mode
    ensures var i, j := |name|, |name| + 1 + |mode|;
      j < |body| && body[..i] == name && body[i + 1..j] == mode && FindNul(body, 0) == Some(i) && FindNul(body, i + 1) == Some(j)
  {
    var i, j, e := |name|, |name| + 1 + |mode|, EncodeRequest(name, mode);
    assert e[i] == 0 && e[j] == 0 && e[..i] == name && e[i + 1..j] == mode;
    assert forall k :: 0 <= k < |e| ==> body[k] == e[k];
    assert body[..i] == name && body[i + 1..j] == mode;
    assert forall k :: 0 <= k < i ==> body[k] == name[k];
    assert forall k :: i + 1 <= k < j ==> body[k] == mode[k - i - 1];
    FindNulAt(body, 0, i);
    FindNulAt(body, i + 1, j);
  }

  /** A request is accepted exactly when it starts with a terminated name of at most
      20 bytes and a terminated mode of at most 7, and those are what is opened. */
  lemma RequestAccepted(body: seq<byte>, name: seq<byte>, mode: seq<byte>)
    ensures ParseRequest(body) == Some((name, mode)) <==>
      && EncodeRequest(name, mode) <= body
      && 0 !in name && 0 !in mode && |name| <= 20 && |mode| <= 7
  {
    var i, e := |name|, EncodeRequest(name, mode);
    if e <= body && 0 !in name && 0 !in mode && |name| <= MAX_FILENAME && |mode| <= MAX_MODE {
      NamesFound(body, name, mode);
    }
    if ParseRequest(body) == Some((name, mode)) {
      var j := FindNul(body, i + 1).value;
      assert body[..j + 1] == e;
    }
  }
}
