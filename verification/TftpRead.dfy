/** A read session: the server and a lock-step receiver over a network that loses,
    duplicates and reorders packets. */
module TftpRead {
  import opened Common
  import opened TftpServer
  import opened TftpFile
  import S = TftpSession

  datatype Config = Config(file: seq<byte>, peer: Endpoint, body: seq<byte>)
  {
    predicate Valid() { peer.port != 0 && peer.addr != ANY }
  }

  /** `block` is the server's block number before it was cut to 16 bits, `fetched` counts
      the blocks read from the file, `got` are the blocks the receiver has accepted. */
  datatype World = World(server: State, block: nat, fetched: nat, net: set<Msg>, got: seq<seq<byte>>)

  datatype Action =
    | Acknowledge                    // the receiver repeats its last acknowledgement
    | ToServer(m: Msg, env: Env)
    | ToReceiver(m: Msg)
    | Lose(m: Msg)
    | Expire(sendBuf: bool)
    | Stranger(env: Env, from: Endpoint, packet: Packet)

  function LastAck(c: Config, r: nat): Msg {
    Msg(true, if r == 0 then Request(false, c.body) else Ack(Wrap(r)), r)
  }

  /** No packet is delivered once the block the receiver waits for is 2^16 past its own. */
  predicate Young(w: World, m: Msg) { |w.got| + 1 - m.block < 0x1_0000 }

  /** Reading fails or returns the next block of the file. */
  predicate FromFile(c: Config, fetched: nat, env: Env) {
    env.read.None? ||
    env.read.value == (if fetched < BlockCount(c.file) then Piece(c.file, fetched + 1) else [])
  }

  predicate Enabled(c: Config, w: World, a: Action) {
    match a
    case Acknowledge => true
    case ToServer(m, env) =>
      m in w.net && m.toServer && Young(w, m) && FromFile(c, w.fetched, env)
      && (m.packet.Request? ==> w.server.handle)
    case ToReceiver(m) => m in w.net && !m.toServer && Young(w, m)
    case Lose(m) => true
    case Expire(buf) => w.server.pending > 0
    case Stranger(env, from, p) => from != c.peer && w.server.handle
  }

  function After(c: Config, w: World, r: Result): World {
    var block := if r.state.blknum == w.server.blknum then w.block else w.block + 1;
    World(r.state, block, w.fetched + ReadCount(r.calls), w.net + Replies(r.sent, c.peer, block), w.got)
  }

  /** A receiver is done once it has a short block. */
  predicate Complete(got: seq<seq<byte>>) { got != [] && |got[|got| - 1]| < 512 }

  function Step(c: Config, w: World, a: Action): World
    requires Enabled(c, w, a)
  {
    match a
    case Acknowledge => w.(net := w.net + {LastAck(c, |w.got|)})
    case ToServer(m, env) => After(c, w, OnPacket(w.server, env, c.peer, m.packet))
    case ToReceiver(m) =>
      if m.packet.Data? && m.packet.block.blk == Wrap(|w.got| + 1) && !Complete(w.got)
      then w.(got := w.got + [m.packet.block.payload], net := w.net + {LastAck(c, |w.got| + 1)})
      else w
    case Lose(m) => w.(net := w.net - {m})
    case Expire(buf) => After(c, w, OnTimer(w.server, buf))
    case Stranger(env, from, p) => After(c, w, OnPacket(w.server, env, from, p))
  }

  function Run(c: Config, w: World, acts: seq<Action>): World
    decreases |acts|
  {
    if acts == [] then w else
    Run(c, if Enabled(c, w, acts[0]) then Step(c, w, acts[0]) else w, acts[1..])
  }

  /** The accepted request opens the session and sends block 1. */
  function Start(c: Config, idle: State, env: Env): World {
    var r := OnPacket(idle, env, c.peer, Request(false, c.body));
    World(r.state, 1, ReadCount(r.calls), Replies(r.sent, c.peer, 1), [])
  }

  /** Every DATA packet n, modulo 2^16, carries the n-th piece of the file. */
  predicate MsgOk(c: Config, w: World, m: Msg) {
    match m.packet
    case Data(b) => !m.toServer && 1 <= m.block <= w.fetched && m.block <= BlockCount(c.file)
                    && b == Block(Wrap(m.block), Piece(c.file, m.block))
    case Ack(blk) => m.toServer && m.block <= |w.got| && blk == Wrap(m.block)
    case Request(_, _) => m.toServer
    case _ => !m.toServer
  }

  predicate SessionOk(c: Config, w: World) {
    && !w.server.modeWrite && w.server.Peer() == c.peer
    && w.server.blknum == Wrap(w.block)
    && 1 <= w.block <= BlockCount(c.file)
    && |w.got| <= w.block <= |w.got| + 1
    && match w.server.lastData
       case Some(b) => w.fetched == w.block && b == Block(Wrap(w.block), Piece(c.file, w.block))
       case None => w.fetched == w.block - 1
  }

  predicate Inv(c: Config, w: World) {
    && S.Inv(w.server)
    && |w.got| <= w.fetched <= |w.got| + 1
    && w.fetched <= BlockCount(c.file)
    && w.got == Pieces(c.file, |w.got|)
    && (forall m :: m in w.net ==> MsgOk(c, w, m))
    && (w.server.handle ==> SessionOk(c, w))
  }

  /** send_data for block n + 1, when n blocks have been read and accepted: the block is sent to the
      peer and kept, a read error is reported and closes, and without a buffer nothing happens. */
  lemma SendsNext(c: Config, s: State, env: Env, n: nat)
    requires n < BlockCount(c.file) && s.handle && s.blknum == Wrap(n + 1) && FromFile(c, n, env)
    ensures var r := NextData(s, env); var b := Block(Wrap(n + 1), Piece(c.file, n + 1));
      && r.state.blknum == s.blknum
      && (r.state.handle ==> r.state == s.(lastData := r.state.lastData))
      && ReadCount(r.calls) == (if r.state.handle && r.state.lastData.Some? then 1 else 0)
      && (r.state.lastData.Some? ==> r.state.handle && r.state.lastData.value == b)
      && r.state.lastData.Some? == (env.dataBuf && env.read.Some?)
      && r.state.handle == (env.dataBuf ==> env.read.Some?)
      && r.sent == (if !env.dataBuf || !env.sendBuf then []
                    else if env.read.Some? then [Sent(s.Peer(), Data(b))]
                    else [Sent(s.Peer(), Error(AccessViolation))])
  {
    if !env.dataBuf || env.read.None? {
      NoReads(NextData(s, env).calls);
    }
  }

  /** A read request with readable names to an idle server whose file opens is answered by block 1. */
  lemma AcceptedRead(c: Config, s: State, env: Env, from: Endpoint, body: seq<byte>)
    requires S.Inv(s) && !s.handle && ParseRequest(body).Some? && env.openOk
    requires FromFile(c, 0, env) && env.read.Some? && env.dataBuf
    ensures var r := OnPacket(s, env, from, Request(false, body));
      && r.sent == (if env.sendBuf then [Sent(from, Data(Block(1, Piece(c.file, 1))))] else [])
      && r.state.handle && !r.state.modeWrite && r.state.Peer() == from && r.state.blknum == 1
      && r.state.lastData == Some(Block(1, Piece(c.file, 1)))
  {
  }

  lemma StartInv(c: Config, idle: State, env: Env)
    requires c.Valid() && S.Inv(idle) && !idle.handle && FromFile(c, 0, env)
    requires Start(c, idle, env).server.handle
    ensures Inv(c, Start(c, idle, env))
  {
    S.StepDiscipline(idle, S.Arrive(env, c.peer, Request(false, c.body)));
    var s := idle.(lastPkt := idle.timer, retries := 0, pending := idle.pending + 1, blknum := 1,
                   handle := true, addr := c.peer.addr, port := c.peer.port, modeWrite := false);
    SendsNext(c, s, env, 0);
    var r := NextData(s, env);
    var open := OnPacket(idle, env, c.peer, Request(false, c.body)).calls[..1];
    assert (open + r.calls)[1..] == r.calls;
  }

  /** The server moves on exactly when the acknowledgement is the current block's, and
      then the receiver has that block. */
  lemma AckIsCurrent(c: Config, w: World, m: Msg)
    requires Inv(c, w) && w.server.handle && m in w.net && m.packet.Ack? && Young(w, m)
    ensures m.packet.blk == w.server.blknum <==> m.block == w.block
    ensures m.block == w.block ==> |w.got| == w.block && w.server.lastData.Some?
  {
    if m.packet.blk == w.server.blknum {
      WrapInjective(m.block, w.block);
    }
  }

  /** The acknowledgement of the current full block brings the next. */
  lemma DeliverCurrent(c: Config, w: World, m: Msg, env: Env)
    requires c.Valid() && Inv(c, w) && m in w.net && m.packet.Ack? && Young(w, m) && FromFile(c, w.fetched, env)
    requires w.server.handle && m.block == w.block && w.block < BlockCount(c.file)
    ensures Inv(c, After(c, w, OnPacket(w.server, env, c.peer, m.packet)))
  {
    var r := OnPacket(w.server, env, c.peer, m.packet);
    var w' := After(c, w, r);
    S.StepDiscipline(w.server, S.Arrive(env, c.peer, m.packet));
    AckIsCurrent(c, w, m);
    NextWrap(w.block);
    var s := w.server.(lastPkt := w.server.timer, retries := 0, blknum := Wrap(w.block + 1));
    SendsNext(c, s, env, w.block);
    assert r == NextData(s, env);
    forall x | x in w'.net
      ensures MsgOk(c, w', x)
    {
      assert x in w.net ==> MsgOk(c, w, x);
    }
  }

  /** Any other, and any after the close, moves nothing. */
  lemma DeliverStale(c: Config, w: World, m: Msg, env: Env)
    requires c.Valid() && Inv(c, w) && m in w.net && m.packet.Ack? && Young(w, m)
    requires w.server.handle ==> m.block != w.block || w.block == BlockCount(c.file)
    ensures Inv(c, After(c, w, OnPacket(w.server, env, c.peer, m.packet)))
  {
    var r := OnPacket(w.server, env, c.peer, m.packet);
    var w' := After(c, w, r);
    S.StepDiscipline(w.server, S.Arrive(env, c.peer, m.packet));
    if w.server.handle {
      AckIsCurrent(c, w, m);
    }
    NoReads(r.calls);
    forall x | x in w'.net
      ensures MsgOk(c, w', x)
    {
      assert x in w.net ==> MsgOk(c, w, x);
    }
  }

  lemma DeliverAck(c: Config, w: World, m: Msg, env: Env)
    requires c.Valid() && Inv(c, w) && m in w.net && m.packet.Ack? && Young(w, m) && FromFile(c, w.fetched, env)
    ensures Inv(c, After(c, w, OnPacket(w.server, env, c.peer, m.packet)))
  {
    if w.server.handle && m.block == w.block && w.block < BlockCount(c.file) {
      DeliverCurrent(c, w, m, env);
    } else {
      DeliverStale(c, w, m, env);
    }
  }

  lemma DeliverOther(c: Config, w: World, m: Msg, env: Env)
    requires c.Valid() && Inv(c, w) && m in w.net && m.toServer && !m.packet.Ack?
    requires m.packet.Request? ==> w.server.handle
    ensures var r := OnPacket(w.server, env, c.peer, m.packet);
      && r.calls == [] && (forall x :: x in r.sent ==> x.packet.Error?)
      && r.state.handle == w.server.handle && r.state.blknum == w.server.blknum
      && Inv(c, After(c, w, r))
  {
    assert MsgOk(c, w, m);
    S.StepDiscipline(w.server, S.Arrive(env, c.peer, m.packet));
  }

  lemma DeliverBlock(c: Config, w: World, m: Msg)
    requires Inv(c, w) && Enabled(c, w, ToReceiver(m))
    ensures Inv(c, Step(c, w, ToReceiver(m)))
  {
    assert MsgOk(c, w, m);
    if m.packet.Data? && m.packet.block.blk == Wrap(|w.got| + 1) {
      WrapInjective(m.block, |w.got| + 1);
      PiecesSnoc(c.file, |w.got|);
    }
  }

  lemma ExpireInv(c: Config, w: World, buf: bool)
    requires Inv(c, w) && w.server.pending > 0
    ensures ReadCount(OnTimer(w.server, buf).calls) == 0
    ensures Inv(c, After(c, w, OnTimer(w.server, buf)))
  {
    S.StepDiscipline(w.server, S.Expire(buf));
    NoReads(OnTimer(w.server, buf).calls);
  }

  lemma NetInv(c: Config, w: World, a: Action)
    requires Inv(c, w) && (a.Acknowledge? || a.Lose?)
    ensures Inv(c, Step(c, w, a))
  {
  }

  lemma StrangerInv(c: Config, w: World, env: Env, from: Endpoint, p: Packet)
    requires c.Valid() && Inv(c, w) && w.server.handle && from != c.peer
    ensures Inv(c, After(c, w, OnPacket(w.server, env, from, p)))
  {
    S.ForeignAnswered(w.server, env, from, p);
  }

  lemma StepInv(c: Config, w: World, a: Action)
    requires c.Valid() && Inv(c, w) && Enabled(c, w, a)
    ensures Inv(c, Step(c, w, a))
  {
    match a
    case Acknowledge => NetInv(c, w, a);
    case Lose(m) => NetInv(c, w, a);
    case ToServer(m, env) =>
      if m.packet.Ack? {
        DeliverAck(c, w, m, env);
      } else {
        DeliverOther(c, w, m, env);
      }
    case ToReceiver(m) => DeliverBlock(c, w, m);
    case Expire(buf) => ExpireInv(c, w, buf);
    case Stranger(env, from, p) => StrangerInv(c, w, env, from, p);
  }

  lemma {:induction false} RunInv(c: Config, w: World, acts: seq<Action>)
    requires c.Valid() && Inv(c, w)
    ensures Inv(c, Run(c, w, acts))
    decreases |acts|
  {
    if acts != [] {
      if Enabled(c, w, acts[0]) {
        StepInv(c, w, acts[0]);
        RunInv(c, Step(c, w, acts[0]), acts[1..]);
      } else {
        RunInv(c, w, acts[1..]);
      }
    }
  }

  /** Over every run of a read session the receiver holds a prefix of the file and
      every DATA packet on the wire is the piece of the file its number says. */
  lemma ReceivedIsPrefix(c: Config, idle: State, env: Env, acts: seq<Action>)
    requires c.Valid() && S.Inv(idle) && !idle.handle && FromFile(c, 0, env)
    requires Start(c, idle, env).server.handle
    ensures var w := Run(c, Start(c, idle, env), acts);
      && |w.got| <= BlockCount(c.file)
      && w.got == Pieces(c.file, |w.got|)
      && Flatten(w.got) <= c.file
      && forall m :: m in w.net && m.packet.Data? ==>
           && 1 <= m.block <= BlockCount(c.file)
           && m.packet.block == Block(Wrap(m.block), Piece(c.file, m.block))
  {
    StartInv(c, idle, env);
    RunInv(c, Start(c, idle, env), acts);
    var w := Run(c, Start(c, idle, env), acts);
    PiecesJoin(c.file, |w.got|);
    forall m | m in w.net && m.packet.Data?
      ensures 1 <= m.block <= BlockCount(c.file)
           && m.packet.block == Block(Wrap(m.block), Piece(c.file, m.block))
    {
      assert MsgOk(c, w, m);
    }
  }

  /** Block n + 1 is read from the file only when the acknowledgement of n arrives. */
  lemma ReadOnlyAfterAck(c: Config, w: World, a: Action)
    requires c.Valid() && Inv(c, w) && Enabled(c, w, a)
    requires Step(c, w, a).fetched != w.fetched
    ensures Step(c, w, a).fetched == w.fetched + 1
    ensures a.ToServer? && a.m.packet.Ack? && a.m.block == w.fetched == |w.got|
  {
    match a
    case ToServer(m, env) =>
      if !m.packet.Ack? {
        DeliverOther(c, w, m, env);
      } else if w.server.handle {
        StepInv(c, w, a);
        AckIsCurrent(c, w, m);
        var r := OnPacket(w.server, env, c.peer, m.packet);
        if m.block != w.block || |w.server.lastData.value.payload| != PAYLOAD {
          NoReads(r.calls);
        }
      }
    case Expire(buf) => ExpireInv(c, w, buf);
    case Stranger(env, from, p) => S.ForeignAnswered(w.server, env, from, p);
    case _ =>
  }

  /** The duplicate-ACK rule of section 4.2.3.1 of RFC 1123: an acknowledgement of any
      earlier block sends no DATA, reads nothing and leaves the transfer where it was. */
  lemma DuplicateAckSendsNothing(c: Config, w: World, m: Msg, env: Env)
    requires c.Valid() && Inv(c, w) && Enabled(c, w, ToServer(m, env))
    requires m.packet.Ack? && w.server.handle && m.block < w.block
    ensures var r := OnPacket(w.server, env, c.peer, m.packet);
      && r.calls == [] && (forall x :: x in r.sent ==> x.packet.Error?)
      && r.state == w.server.(lastPkt := w.server.timer, retries := 0)
  {
    AckIsCurrent(c, w, m);
  }

  /** A delivered packet closes the session only on a read error or with the final short
      block acknowledged, and then the receiver has the whole file. */
  lemma CloseMeansComplete(c: Config, w: World, a: Action)
    requires c.Valid() && Inv(c, w) && Enabled(c, w, a) && w.server.handle
    requires !Step(c, w, a).server.handle
    ensures a.ToServer? || a.Expire?
    ensures a.ToServer? ==>
      && a.m.packet.Ack? && a.m.block == w.block == |w.got|
      && (w.block == BlockCount(c.file) ==> Flatten(w.got) == c.file)
      && (w.block < BlockCount(c.file) ==> a.env.read == None)
  {
    match a
    case ToServer(m, env) =>
      if m.packet.Ack? {
        AckIsCurrent(c, w, m);
        PiecesJoin(c.file, w.block);
      } else {
        DeliverOther(c, w, m, env);
      }
    case Stranger(env, from, p) => S.ForeignAnswered(w.server, env, from, p);
    case _ =>
  }
}
