/** A write session: a lock-step sender and the server over a network that loses,
    duplicates and reorders packets. */
module TftpWrite {
  import opened Common
  import opened TftpServer
  import opened TftpFile
  import S = TftpSession

  datatype Config = Config(file: seq<byte>, peer: Endpoint, body: seq<byte>)
  {
    predicate Valid() { peer.port != 0 && peer.addr != ANY }
  }

  /** `net` holds every packet sent and not yet lost; delivering one leaves it there,
      so it may arrive again or later. `blocks` are the blocks handed to ctx->write,
      `failed` says that one of those calls failed. The sender waits for the
      acknowledgement of block `awaiting`, 0 being the request. */
  datatype World = World(server: State, awaiting: nat, net: set<Msg>, blocks: seq<seq<byte>>, failed: bool)

  datatype Action =
    | Transmit
    | ToServer(m: Msg, env: Env)
    | ToSender(m: Msg)
    | Lose(m: Msg)
    | Expire(sendBuf: bool)
    | Stranger(env: Env, from: Endpoint, packet: Packet)

  function Outstanding(c: Config, k: nat): Msg
    requires k <= BlockCount(c.file)
  {
    Msg(true, if k == 0 then Request(true, c.body) else Data(Block(Wrap(k), Piece(c.file, k))), k)
  }

  /** No packet is delivered once the block the server waits for is 2^16 past its own. */
  predicate Young(w: World, m: Msg) { |w.blocks| + 1 - m.block < 0x1_0000 }

  /** What the network and the surroundings may do. A request or a stranger after the
      close belongs to another session. */
  predicate Enabled(c: Config, w: World, a: Action) {
    match a
    case Transmit => w.awaiting <= BlockCount(c.file)
    case ToServer(m, env) => m in w.net && m.toServer && Young(w, m) && (m.packet.Request? ==> w.server.handle)
    case ToSender(m) => m in w.net && !m.toServer && Young(w, m)
    case Lose(m) => true
    case Expire(buf) => w.server.pending > 0
    case Stranger(env, from, p) => from != c.peer && w.server.handle
  }

  function After(c: Config, w: World, r: Result): World {
    var blocks := w.blocks + Written(r.calls);
    World(r.state, w.awaiting, w.net + Replies(r.sent, c.peer, |blocks|), blocks,
          w.failed || WriteFailed(r.calls))
  }

  function Step(c: Config, w: World, a: Action): World
    requires Enabled(c, w, a)
  {
    match a
    case Transmit => w.(net := w.net + {Outstanding(c, w.awaiting)})
    case ToServer(m, env) => After(c, w, OnPacket(w.server, env, c.peer, m.packet))
    case ToSender(m) =>
      if m.packet.Ack? && m.packet.blk == Wrap(w.awaiting) && w.awaiting < BlockCount(c.file)
      then w.(awaiting := w.awaiting + 1) else w
    case Lose(m) => w.(net := w.net - {m})
    case Expire(buf) => After(c, w, OnTimer(w.server, buf))
    case Stranger(env, from, p) => After(c, w, OnPacket(w.server, env, from, p))
  }

  /** Actions that the network does not allow do not happen. */
  function Run(c: Config, w: World, acts: seq<Action>): World
    decreases |acts|
  {
    if acts == [] then w else
    Run(c, if Enabled(c, w, acts[0]) then Step(c, w, acts[0]) else w, acts[1..])
  }

  /** The accepted request opens the session. */
  function Start(c: Config, idle: State, env: Env): World {
    var r := OnPacket(idle, env, c.peer, Request(true, c.body));
    World(r.state, 0, Replies(r.sent, c.peer, 0), [], false)
  }

  predicate MsgOk(c: Config, w: World, m: Msg) {
    match m.packet
    case Data(b) => m.toServer && 1 <= m.block <= w.awaiting && m.block <= BlockCount(c.file)
                    && b == Block(Wrap(m.block), Piece(c.file, m.block))
    case Ack(blk) => !m.toServer && m.block <= |w.blocks| && blk == Wrap(m.block)
    case Request(_, _) => m.toServer
    case _ => !m.toServer
  }

  predicate Inv(c: Config, w: World) {
    && S.Inv(w.server)
    && |w.blocks| <= w.awaiting <= |w.blocks| + 1
    && w.awaiting <= BlockCount(c.file)
    && w.blocks == Pieces(c.file, |w.blocks|)
    && (forall m :: m in w.net ==> MsgOk(c, w, m))
    && (w.server.handle ==>
         && w.server.modeWrite && w.server.Peer() == c.peer
         && |w.blocks| < BlockCount(c.file) && !w.failed
         && w.server.blknum == Wrap(|w.blocks| + 1))
  }

  lemma StartInv(c: Config, idle: State, env: Env)
    requires c.Valid() && S.Inv(idle) && !idle.handle
    requires Start(c, idle, env).server.handle
    ensures Inv(c, Start(c, idle, env))
  {
    S.StepDiscipline(idle, S.Arrive(env, c.peer, Request(true, c.body)));
  }

  /** What the server does with the block it waits for: it is written once, and answered by its
      acknowledgement if that worked and by an error if not. */
  lemma AwaitedBlock(s: State, env: Env, from: Endpoint, b: Block)
    requires s.handle && s.modeWrite && b.blk == s.blknum
    ensures var r := OnData(s, env, from, b);
      && Written(r.calls) == [b.payload]
      && WriteFailed(r.calls) == !env.writeOk
      && r.state.handle == (env.writeOk && |b.payload| >= PAYLOAD)
      && (r.state.handle ==> r.state == s.(blknum := Next16(s.blknum)))
      && r.sent == (if !env.sendBuf then []
                    else if env.writeOk then [Sent(s.Peer(), Ack(b.blk))]
                    else [Sent(from, Error(AccessViolation))])
  {
    OneWrite(OnData(s, env, from, b).calls);
  }

  /** The block before it is acknowledged again and not written, any other block is an error. */
  lemma OtherBlock(s: State, env: Env, from: Endpoint, b: Block)
    requires s.handle && s.modeWrite && b.blk != s.blknum
    ensures var r := OnData(s, env, from, b);
      && r.state == s && r.calls == []
      && r.sent == (if !env.sendBuf then []
                    else if (b.blk + 1) % 0x1_0000 == s.blknum then [Sent(s.Peer(), Ack(b.blk))]
                    else [Sent(from, Error(UnknownTransferId))])
  {
  }

  /** A write request with readable names to an idle server whose file opens is answered by ACK 0, and
      the session is the sender's. */
  lemma AcceptedWrite(s: State, env: Env, from: Endpoint, body: seq<byte>)
    requires S.Inv(s) && !s.handle && ParseRequest(body).Some? && env.openOk
    ensures var r := OnPacket(s, env, from, Request(true, body));
      && r.sent == (if env.sendBuf then [Sent(from, Ack(0))] else [])
      && r.state.handle && r.state.modeWrite && r.state.Peer() == from && r.state.blknum == 1
  {
  }

  lemma AwaitedBlockInv(c: Config, w: World, b: Block, env: Env)
    requires c.Valid() && Inv(c, w) && w.server.handle
    requires |w.blocks| + 1 <= w.awaiting
    requires b == Block(Wrap(|w.blocks| + 1), Piece(c.file, |w.blocks| + 1))
    ensures Inv(c, After(c, w, OnPacket(w.server, env, c.peer, Data(b))))
  {
    var n := |w.blocks|;
    var r := OnPacket(w.server, env, c.peer, Data(b));
    S.StepDiscipline(w.server, S.Arrive(env, c.peer, Data(b)));
    AwaitedBlock(w.server.(lastPkt := w.server.timer, retries := 0), env, c.peer, b);
    NextWrap(n + 1);
    PiecesSnoc(c.file, n);
    var w' := After(c, w, r);
    assert w'.blocks == w.blocks + [b.payload] == Pieces(c.file, n + 1);
    forall m | m in w'.net
      ensures MsgOk(c, w', m)
    {
      assert m in w.net ==> MsgOk(c, w, m);
    }
  }

  /** The server writes a delivered block exactly when it is the next one. */
  lemma DeliverData(c: Config, w: World, m: Msg, env: Env)
    requires c.Valid() && Inv(c, w) && m in w.net && m.packet.Data? && Young(w, m)
    ensures Inv(c, After(c, w, OnPacket(w.server, env, c.peer, m.packet)))
  {
    var blk, n := m.packet.block.blk, |w.blocks|;
    if w.server.handle && blk == w.server.blknum {
      WrapInjective(m.block, n + 1);
      AwaitedBlockInv(c, w, m.packet.block, env);
    } else {
      S.StepDiscipline(w.server, S.Arrive(env, c.peer, m.packet));
      NextWrap(m.block);
      if w.server.handle && Next16(blk) == w.server.blknum {
        WrapInjective(m.block + 1, n + 1);
      }
    }
  }

  lemma DeliverAck(c: Config, w: World, m: Msg)
    requires Inv(c, w) && Enabled(c, w, ToSender(m))
    ensures Inv(c, Step(c, w, ToSender(m)))
  {
    if m.packet.Ack? && m.packet.blk == Wrap(w.awaiting) {
      WrapInjective(m.block, w.awaiting);
    }
  }

  lemma DeliverOther(c: Config, w: World, m: Msg, env: Env)
    requires c.Valid() && Inv(c, w) && Enabled(c, w, ToServer(m, env)) && !m.packet.Data?
    ensures Inv(c, Step(c, w, ToServer(m, env)))
  {
    S.StepDiscipline(w.server, S.Arrive(env, c.peer, m.packet));
  }

  lemma ExpireInv(c: Config, w: World, buf: bool)
    requires Inv(c, w) && w.server.pending > 0
    ensures Inv(c, After(c, w, OnTimer(w.server, buf)))
  {
    S.StepDiscipline(w.server, S.Expire(buf));
    NoWrites(OnTimer(w.server, buf).calls);
  }

  lemma StepInv(c: Config, w: World, a: Action)
    requires c.Valid() && Inv(c, w) && Enabled(c, w, a)
    ensures Inv(c, Step(c, w, a))
  {
    match a
    case Transmit =>
    case Lose(m) =>
    case ToServer(m, env) =>
      if m.packet.Data? {
        DeliverData(c, w, m, env);
      } else {
        DeliverOther(c, w, m, env);
      }
    case ToSender(m) => DeliverAck(c, w, m);
    case Expire(buf) => ExpireInv(c, w, buf);
    case Stranger(env, from, p) => S.ForeignAnswered(w.server, env, from, p);
  }

  lemma {:induction false} RunInv(c: Config, w: World, acts: seq<Action>)
    requires c.Valid() && Inv(c, w)
    ensures Inv(c, Run(c, w, acts))
    decreases |acts|
  {
    if acts != [] {
      var w' := if Enabled(c, w, acts[0]) then Step(c, w, acts[0]) else w;
      if Enabled(c, w, acts[0]) {
        StepInv(c, w, acts[0]);
      }
      RunInv(c, w', acts[1..]);
    }
  }

  /** Over every run of a write session the blocks handed to ctx->write are the first
      blocks of the sender's file, each once and in order, so the bytes written are
      always a prefix of it. */
  lemma WrittenIsPrefix(c: Config, idle: State, env: Env, acts: seq<Action>)
    requires c.Valid() && S.Inv(idle) && !idle.handle
    requires Start(c, idle, env).server.handle
    ensures var w := Run(c, Start(c, idle, env), acts);
      && |w.blocks| <= BlockCount(c.file)
      && w.blocks == Pieces(c.file, |w.blocks|)
      && Flatten(w.blocks) <= c.file
  {
    StartInv(c, idle, env);
    RunInv(c, Start(c, idle, env), acts);
    PiecesJoin(c.file, |Run(c, Start(c, idle, env), acts).blocks|);
  }

  lemma ClosingData(c: Config, w: World, m: Msg, env: Env)
    requires c.Valid() && Inv(c, w) && w.server.handle && m in w.net && m.packet.Data? && Young(w, m)
    requires !OnPacket(w.server, env, c.peer, m.packet).state.handle
    ensures env.writeOk ==> |w.blocks| + 1 == BlockCount(c.file)
    ensures var r := OnPacket(w.server, env, c.peer, m.packet);
      Written(r.calls) == [m.packet.block.payload] && WriteFailed(r.calls) == !env.writeOk
  {
    var b := m.packet.block;
    var s := w.server.(lastPkt := w.server.timer, retries := 0);
    assert b.blk == s.blknum;
    WrapInjective(m.block, |w.blocks| + 1);
    AwaitedBlock(s, env, c.peer, b);
  }

  /** When a delivered packet closes the session, a write failed or the whole file has
      been written: the only other way to close is the timeout. */
  lemma CloseMeansComplete(c: Config, w: World, a: Action)
    requires c.Valid() && Inv(c, w) && Enabled(c, w, a) && w.server.handle
    requires !Step(c, w, a).server.handle
    ensures a.ToServer? || a.Expire?
    ensures a.ToServer? ==>
      var w' := Step(c, w, a);
      w'.failed || (w'.blocks == Pieces(c.file, BlockCount(c.file)) && Flatten(w'.blocks) == c.file)
    ensures a.Expire? ==> Step(c, w, a).blocks == w.blocks && !Step(c, w, a).failed
  {
    StepInv(c, w, a);
    match a
    case ToServer(m, env) =>
      if m.packet.Data? {
        ClosingData(c, w, m, env);
        PiecesJoin(c.file, BlockCount(c.file));
      }
    case Expire(buf) => NoWrites(OnTimer(w.server, buf).calls);
    case Stranger(env, from, p) => S.ForeignAnswered(w.server, env, from, p);
    case _ =>
  }

  /** The bound on packet age cannot be relaxed: a block that returns after exactly
      2^16 further blocks carries the awaited number and is written again. */
  lemma StaleBlockIsWritten(c: Config, w: World, n: nat, env: Env)
    requires c.Valid() && Inv(c, w) && w.server.handle
    requires 1 <= n && |w.blocks| + 1 - n == 0x1_0000
    ensures var m := Outstanding(c, n);
      && !Young(w, m)
      && After(c, w, OnPacket(w.server, env, c.peer, m.packet)).blocks == w.blocks + [Piece(c.file, n)]
  {
    var b := Block(Wrap(n), Piece(c.file, n));
    var s := w.server.(lastPkt := w.server.timer, retries := 0);
    AwaitedBlock(s, env, c.peer, b);
  }
}
