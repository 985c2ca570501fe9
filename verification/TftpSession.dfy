/** What every run of the TFTP server keeps: the shape of the calls on the file
    context, who may talk to an open session, and when an abandoned one ends. */
module TftpSession {
  import opened Common
  import opened TftpServer

  datatype Event =
    | Arrive(env: Env, from: Endpoint, packet: Packet)
    | Expire(sendBuf: bool)

  /** One callback. A timer can only fire while a timeout is queued. */
  function Step(s: State, e: Event): Result {
    match e
    case Arrive(env, from, p) => OnPacket(s, env, from, p)
    case Expire(buf) => if s.pending > 0 then OnTimer(s, buf) else Result(s, [], [])
  }

  function Run(s: State, es: seq<Event>): Result
    decreases |es|
  {
    if es == [] then Result(s, [], []) else
    var a := Step(s, es[0]);
    var b := Run(a.state, es[1..]);
    Result(b.state, a.sent + b.sent, a.calls + b.calls)
  }

  /** A closed session holds nothing; an open one has a timeout queued. */
  predicate Inv(s: State) {
    && (!s.handle ==> s.lastData.None? && s.port == 0 && s.addr == ANY)
    && (s.handle ==> s.pending > 0)
    && (s.handle && s.modeWrite ==> s.lastData.None?)
    && (s.lastData.Some? ==> |s.lastData.value.payload| <= PAYLOAD)
    && s.retries <= MAX_RETRIES
  }

  // --- The calls on the file context ---

  datatype Phase = Idle | Reading | Writing | Broken

  /** The order in which a file context expects its calls. */
  function Accept(ph: Phase, c: Call): Phase {
    match (ph, c)
    case (Idle, Open(_, _, write, ok)) => if !ok then Idle else if write then Writing else Reading
    case (Reading, Read(_)) => Reading
    case (Writing, Write(_, _)) => Writing
    case (Reading, Close) => Idle
    case (Writing, Close) => Idle
    case _ => Broken
  }

  function AcceptAll(ph: Phase, calls: seq<Call>): Phase
    decreases |calls|
  {
    if calls == [] then ph else AcceptAll(Accept(ph, calls[0]), calls[1..])
  }

  function PhaseOf(s: State): Phase {
    if !s.handle then Idle else if s.modeWrite then Writing else Reading
  }

  lemma {:induction false} AcceptConcat(ph: Phase, a: seq<Call>, b: seq<Call>)
    ensures AcceptAll(ph, a + b) == AcceptAll(AcceptAll(ph, a), b)
    decreases |a|
  {
    if a == [] {
      assert a + b == b;
    } else {
      assert (a + b)[1..] == a[1..] + b;
      AcceptConcat(Accept(ph, a[0]), a[1..], b);
    }
  }

  lemma CloseDiscipline(s: State)
    requires Inv(s)
    ensures Inv(CloseSession(s).state)
    ensures AcceptAll(PhaseOf(s), CloseSession(s).calls) == Idle
  {
  }

  lemma NextDataDiscipline(s: State, env: Env)
    requires s.handle && s.pending > 0 && !s.modeWrite && s.retries <= MAX_RETRIES
    ensures Inv(NextData(s, env).state)
    ensures AcceptAll(Reading, NextData(s, env).calls) == PhaseOf(NextData(s, env).state)
  {
    AcceptConcat(Reading, [Read(None)], [Close]);
  }

  lemma RequestDiscipline(s: State, env: Env, from: Endpoint, write: bool, body: seq<byte>)
    requires Inv(s)
    ensures var r := OnRequest(s, env, from, write, body);
      Inv(r.state) && AcceptAll(PhaseOf(s), r.calls) == PhaseOf(r.state)
  {
    match ParseRequest(body)
    case None =>
    case Some((name, mode)) =>
      if !s.handle && env.openOk && !write {
        var s3 := s.(pending := s.pending + 1, blknum := 1, handle := true,
                     addr := from.addr, port := from.port, modeWrite := false);
        NextDataDiscipline(s3, env);
        AcceptConcat(Idle, [Open(name, mode, false, true)], NextData(s3, env).calls);
      }
  }

  lemma DataDiscipline(s: State, env: Env, from: Endpoint, b: Block)
    requires Inv(s)
    ensures var r := OnData(s, env, from, b);
      Inv(r.state) && AcceptAll(PhaseOf(s), r.calls) == PhaseOf(r.state)
  {
    if s.handle && s.modeWrite && b.blk == s.blknum {
      var call := Write(b.payload, env.writeOk);
      assert [call] + [] + [] == [call];
      assert [call] + [Close] + [] == [call, Close] == [call] + [] + [Close] == [call] + [Close];
      AcceptConcat(Writing, [call], [Close]);
    }
  }

  lemma StepDiscipline(s: State, e: Event)
    requires Inv(s)
    ensures Inv(Step(s, e).state)
    ensures AcceptAll(PhaseOf(s), Step(s, e).calls) == PhaseOf(Step(s, e).state)
  {
    match e
    case Expire(buf) =>
    case Arrive(env, from, p) =>
      if !Foreign(s, from) {
        var s1 := s.(lastPkt := s.timer, retries := 0);
        match p
        case Request(write, body) => RequestDiscipline(s1, env, from, write, body);
        case Data(b) => DataDiscipline(s1, env, from, b);
        case Ack(blk) =>
          if s1.handle && !s1.modeWrite {
            NextDataDiscipline(s1.(blknum := Next16(s1.blknum)), env);
          }
        case _ =>
      }
  }

  /** Over every run the context sees (open, then only reads or only writes, then
      exactly one close) repeated, nothing after a close, and a queued timeout
      whenever the session is open. */
  lemma {:induction false} SessionDiscipline(s: State, es: seq<Event>)
    requires Inv(s)
    ensures Inv(Run(s, es).state)
    ensures AcceptAll(PhaseOf(s), Run(s, es).calls) == PhaseOf(Run(s, es).state) != Broken
    decreases |es|
  {
    if es != [] {
      var a := Step(s, es[0]);
      StepDiscipline(s, es[0]);
      SessionDiscipline(a.state, es[1..]);
      AcceptConcat(PhaseOf(s), a.calls, Run(a.state, es[1..]).calls);
    }
  }

  // --- Who may talk to an open session ---

  /** Packets from anyone but the peer leave an open session unchanged exactly when
      the peer's port is not 0 and its address is not the any-address: the C code
      reads those two values as "nobody yet". */
  lemma ExclusiveSession(s: State)
    requires Inv(s) && s.handle
    ensures (forall env, from, p :: from != s.Peer() ==> OnPacket(s, env, from, p).state == s)
            <==> s.port != 0 && s.addr != ANY
  {
    var other := if s.port == 0 then Endpoint(s.addr, 1) else Endpoint(s.addr + 1, s.port);
    if s.port == 0 || s.addr == ANY {
      var env := Env(true, Some([]), true, true, true);
      var full: seq<byte> := seq(PAYLOAD, _ => 0);
      var p := if s.modeWrite then Data(Block(s.blknum, full)) else Ack(s.blknum);
      assert other != s.Peer() && !Foreign(s, other);
      assert Next16(s.blknum) != s.blknum;
      assert OnPacket(s, env, other, p).state != s;
    }
  }

  /** A stranger is answered with an error and nothing else happens. */
  lemma ForeignAnswered(s: State, env: Env, from: Endpoint, p: Packet)
    requires Inv(s) && s.handle && s.port != 0 && s.addr != ANY && from != s.Peer()
    ensures OnPacket(s, env, from, p)
         == Result(s, Emit(env.sendBuf, from, Error(AccessViolation)), [])
  {
  }

  /** Packets out of place are answered with their error and change nothing but the time of the last
      packet: a request or the wrong direction in an open session, anything but a request in a closed one,
      and unknown operations. */
  lemma Refused(s: State, env: Env, from: Endpoint, p: Packet)
    requires Inv(s) && !Foreign(s, from)
    requires match p
      case Request(write, body) => s.handle
      case Data(b) => !(s.handle && s.modeWrite)
      case Ack(blk) => !(s.handle && !s.modeWrite)
      case _ => true
    ensures OnPacket(s, env, from, p) == Result(s.(lastPkt := s.timer, retries := 0),
      if env.sendBuf then [Sent(from, Error(if p.Error? || p.Unknown? then IllegalOperation else AccessViolation))] else [],
      [])
  {
  }

  /** A readable request to a closed server opens the file it names, in the mode it names. */
  lemma RequestOpens(s: State, env: Env, from: Endpoint, write: bool, body: seq<byte>, name: seq<byte>, mode: seq<byte>)
    requires Inv(s) && !s.handle && EncodeRequest(name, mode) <= body
    requires 0 !in name && 0 !in mode && |name| <= 20 && |mode| <= 7
    ensures var r := OnPacket(s, env, from, Request(write, body));
      r.calls != [] && r.calls[0] == Open(name, mode, write, env.openOk)
  {
    RequestAccepted(body, name, mode);
  }

  /** A request to a closed server that cannot be read or whose file does not open. */
  lemma RefusedRequest(s: State, env: Env, from: Endpoint, write: bool, body: seq<byte>)
    requires Inv(s) && !s.handle && (ParseRequest(body).None? || !env.openOk)
    ensures var r := OnPacket(s, env, from, Request(write, body));
      && !r.state.handle
      && var code := if ParseRequest(body).None? then AccessViolation else FileNotFound;
        r.sent == if env.sendBuf then [Sent(from, Error(code))] else []
  {
  }

  // --- Abandoned sessions ---

  function Expiries(bufs: seq<bool>): seq<Event> {
    seq(|bufs|, i requires 0 <= i < |bufs| => Expire(bufs[i]))
  }

  /** The packet once for each buffer that could be allocated. */
  function Copies(x: Sent, bufs: seq<bool>): seq<Sent> {
    if bufs == [] then [] else Emit(bufs[0], x.to, x.packet) + Copies(x, bufs[1..])
  }

  /** Timer calls before the first timeout, and resends still to come after it. */
  function Wait(s: State): nat { Max(0, TIMEOUT_TICKS - (s.timer - s.lastPkt)) }

  function Resends(s: State): nat
    requires s.retries <= MAX_RETRIES
  {
    if s.lastData.Some? then MAX_RETRIES - s.retries else 0
  }

  function HeldPacket(s: State): Sent {
    Sent(s.Peer(), if s.lastData.Some? then Data(s.lastData.value) else Unknown)
  }

  function Left(s: State): nat
    requires s.retries <= MAX_RETRIES
  {
    Wait(s) + Resends(s) + 1
  }

  /** What an idle stretch with these timer calls sends. */
  function Idling(s: State, bufs: seq<bool>): seq<Sent>
    requires s.retries <= MAX_RETRIES
  {
    Copies(HeldPacket(s), bufs[Min(|bufs|, Wait(s))..Min(|bufs|, Wait(s) + Resends(s))])
  }

  /** One timer call takes one off the countdown, and sends what Idling says. */
  lemma OneExpiry(s: State, buf: bool)
    requires Inv(s) && s.handle
    ensures var a := Step(s, Expire(buf));
      && a.state.handle == (Left(s) > 1)
      && a.calls == (if a.state.handle then [] else [Close])
      && Inv(a.state)
      && (a.state.handle ==>
           && HeldPacket(a.state) == HeldPacket(s)
           && Wait(a.state) == Max(0, Wait(s) - 1)
           && Resends(a.state) == Resends(s) - (if Wait(s) == 0 then 1 else 0))
      && a.sent == (if Wait(s) == 0 && Resends(s) > 0 then Copies(HeldPacket(s), [buf]) else [])
  {
    assert Copies(HeldPacket(s), [buf]) == Emit(buf, HeldPacket(s).to, HeldPacket(s).packet);
  }

  lemma IdlingStep(s: State, t: State, bufs: seq<bool>)
    requires s.retries <= MAX_RETRIES && t.retries <= MAX_RETRIES
    requires 0 < |bufs| <= Left(s) && Left(s) > 1
    requires HeldPacket(t) == HeldPacket(s)
    requires Wait(t) == Max(0, Wait(s) - 1)
    requires Resends(t) == Resends(s) - (if Wait(s) == 0 then 1 else 0)
    ensures Idling(s, bufs)
         == (if Wait(s) == 0 then Copies(HeldPacket(s), bufs[..1]) else []) + Idling(t, bufs[1..])
  {
    var w, n := Wait(s), Wait(s) + Resends(s);
    if w > 0 {
      assert bufs[Min(|bufs|, w)..Min(|bufs|, n)] == bufs[1..][Min(|bufs|, w) - 1..Min(|bufs|, n) - 1];
    } else {
      assert bufs[0..Min(|bufs|, n)][1..] == bufs[1..][0..Min(|bufs|, n) - 1];
    }
  }

  /** The countdown of an open session that hears nothing: silence, then the held
      block once per timer call while retries last, then one close. */
  lemma {:induction false} Countdown(s: State, bufs: seq<bool>)
    requires Inv(s) && s.handle && |bufs| <= Left(s)
    ensures var r := Run(s, Expiries(bufs));
      && r.state.handle == (|bufs| < Left(s))
      && r.calls == (if r.state.handle then [] else [Close])
      && r.sent == Idling(s, bufs)
    decreases |bufs|
  {
    if bufs != [] {
      assert Expiries(bufs)[1..] == Expiries(bufs[1..]);
      OneExpiry(s, bufs[0]);
      var t := Step(s, Expire(bufs[0])).state;
      if t.handle {
        assert bufs[..1] == [bufs[0]];
        IdlingStep(s, t, bufs);
        Countdown(t, bufs[1..]);
      } else {
        assert bufs[1..] == [];
        assert bufs[Min(|bufs|, Wait(s))..Min(|bufs|, Wait(s) + Resends(s))] == [];
      }
    }
  }

  lemma {:induction false} CopiesAll(x: Sent, bufs: seq<bool>)
    requires forall i :: 0 <= i < |bufs| ==> bufs[i]
    ensures Copies(x, bufs) == seq(|bufs|, _ => x)
  {
    if bufs != [] {
      CopiesAll(x, bufs[1..]);
    }
  }

  lemma JustHeard(before: State, env: Env, from: Endpoint, p: Packet)
    requires Inv(before) && !Foreign(before, from)
    requires OnPacket(before, env, from, p).state.handle
    ensures var s := OnPacket(before, env, from, p).state;
      && Inv(s) && Wait(s) == TIMEOUT_TICKS
      && Resends(s) == (if s.lastData.Some? then MAX_RETRIES else 0)
  {
    StepDiscipline(before, Arrive(env, from, p));
  }

  /** After the last packet that the server accepts from anyone, an open session that
      holds a block closes at the 16th timer call, having resent it 5 times, and one
      that holds none closes at the 11th; neither closes earlier. */
  lemma AbandonedSessionCloses(before: State, env: Env, from: Endpoint, p: Packet, bufs: seq<bool>)
    requires Inv(before) && !Foreign(before, from)
    requires OnPacket(before, env, from, p).state.handle
    requires |bufs| == (if OnPacket(before, env, from, p).state.lastData.Some? then 16 else 11)
    requires forall i :: 0 <= i < |bufs| ==> bufs[i]
    ensures var s := OnPacket(before, env, from, p).state; var r := Run(s, Expiries(bufs));
      && !r.state.handle && r.calls == [Close]
      && r.sent == seq(if s.lastData.Some? then 5 else 0, _ => HeldPacket(s))
      && forall n :: 0 <= n < |bufs| ==> Run(s, Expiries(bufs[..n])).state.handle
  {
    var s := OnPacket(before, env, from, p).state;
    JustHeard(before, env, from, p);
    Countdown(s, bufs);
    CopiesAll(HeldPacket(s), bufs[Wait(s)..Wait(s) + Resends(s)]);
    forall n | 0 <= n < |bufs|
      ensures Run(s, Expiries(bufs[..n])).state.handle
    {
      Countdown(s, bufs[..n]);
    }
  }
}
