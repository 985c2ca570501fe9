/** Whether a read transfer can still be completed. */
module TftpReadProgress {
  import opened Common
  import opened TftpServer
  import opened TftpFile
  import opened TftpRead
  import S = TftpSession

  /** Every buffer can be had, and reading gives the next block of the file. */
  function Good(c: Config, fetched: nat): Env {
    Env(true, Some(if fetched < BlockCount(c.file) then Piece(c.file, fetched + 1) else []), true, true, true)
  }

  /** Actions of a network that loses nothing and of surroundings in which nothing fails. */
  predicate Smooth(acts: seq<Action>) {
    forall k :: 0 <= k < |acts| ==>
      || acts[k] == Acknowledge || acts[k].ToReceiver? || acts[k] == Expire(true)
      || (acts[k].ToServer? && acts[k].env.read.Some? && acts[k].env.dataBuf && acts[k].env.sendBuf)
  }

  /** The receiver has the whole file and the session is closed. */
  predicate Done(c: Config, w: World) {
    w.got == Pieces(c.file, BlockCount(c.file)) && !w.server.handle
  }

  /** The current block was not read, for want of a buffer. */
  predicate Starved(w: World) { w.server.lastData.None? }

  predicate Finishes(c: Config, w: World, acts: seq<Action>) { Done(c, Run(c, w, acts)) }

  lemma {:induction false} RunConcat(c: Config, w: World, a: seq<Action>, b: seq<Action>)
    ensures Run(c, w, a + b) == Run(c, Run(c, w, a), b)
    decreases |a|
  {
    if a == [] {
      assert a + b == b;
    } else {
      assert (a + b)[1..] == a[1..] + b;
      RunConcat(c, if Enabled(c, w, a[0]) then Step(c, w, a[0]) else w, a[1..], b);
    }
  }

  // --- The receiver's last acknowledgement ---

  /** The last acknowledgement, sent again and delivered. */
  function Again(c: Config, w: World): seq<Action> {
    [Acknowledge, ToServer(LastAck(c, |w.got|), Good(c, w.fetched))]
  }

  lemma {:induction false} AgainRuns(c: Config, w: World)
    requires w.server.handle
    ensures var w1 := w.(net := w.net + {LastAck(c, |w.got|)});
      Run(c, w, Again(c, w)) == After(c, w1, OnPacket(w.server, Good(c, w.fetched), c.peer, LastAck(c, |w.got|).packet))
  {
    var a := ToServer(LastAck(c, |w.got|), Good(c, w.fetched));
    var w1 := Step(c, w, Acknowledge);
    assert Enabled(c, w1, a);
    assert Again(c, w)[1..] == [a] && [a][1..] == [];
    assert Run(c, w, Again(c, w)) == Run(c, w1, [a]) == Run(c, Step(c, w1, a), []);
  }

  lemma {:induction false} AgainInv(c: Config, w: World)
    requires c.Valid() && Inv(c, w)
    ensures Inv(c, w.(net := w.net + {LastAck(c, |w.got|)}))
  {
    StepInv(c, w, Acknowledge);
  }

  function BlockMsg(c: Config, n: nat): Msg
    requires 1 <= n <= BlockCount(c.file)
  {
    Msg(false, Data(Block(Wrap(n), Piece(c.file, n))), n)
  }

  /** Once the receiver has the current block its acknowledgement brings the next, or closes. */
  lemma {:induction false} FetchesNext(c: Config, w: World)
    requires c.Valid() && Inv(c, w) && w.server.handle && !Starved(w) && |w.got| == w.block
    ensures var e := Run(c, w, Again(c, w));
      && Inv(c, e) && e.got == w.got
      && if w.block == BlockCount(c.file) then !e.server.handle
         else e.server.handle && !Starved(e) && e.block == w.block + 1 && BlockMsg(c, w.block + 1) in e.net
  {
    var m, env := LastAck(c, |w.got|), Good(c, w.fetched);
    var w1 := w.(net := w.net + {m});
    var r := OnPacket(w.server, env, c.peer, m.packet);
    AgainRuns(c, w);
    AgainInv(c, w);
    DeliverAck(c, w1, m, env);
    if w.block < BlockCount(c.file) {
      NextWrap(w.block);
      var s := w.server.(lastPkt := w.server.timer, retries := 0, blknum := Wrap(w.block + 1));
      SendsNext(c, s, env, w.block);
      assert r == NextData(s, env);
      assert r.sent[0] in r.sent;
    }
  }

  /** The state after a packet that only restarts the server's timeout. */
  predicate Heard(w: World, e: World) {
    e == w.(server := w.server.(lastPkt := w.server.timer, retries := 0), net := e.net)
  }

  lemma {:induction false} HearsAck(c: Config, w: World, env: Env)
    requires c.Valid() && Inv(c, w) && w.server.handle && 1 <= |w.got| < w.block && FromFile(c, w.fetched, env)
    requires LastAck(c, |w.got|) in w.net
    ensures var e := After(c, w, OnPacket(w.server, env, c.peer, LastAck(c, |w.got|).packet));
      Inv(c, e) && Heard(w, e)
  {
    DuplicateAckSendsNothing(c, w, LastAck(c, |w.got|), env);
    DeliverAck(c, w, LastAck(c, |w.got|), env);
  }

  lemma {:induction false} HearsRequest(c: Config, w: World, env: Env)
    requires c.Valid() && Inv(c, w) && w.server.handle && w.got == [] && LastAck(c, 0) in w.net
    ensures var e := After(c, w, OnPacket(w.server, env, c.peer, LastAck(c, 0).packet));
      Inv(c, e) && Heard(w, e)
  {
    DeliverOther(c, w, LastAck(c, 0), env);
  }

  /** Any other acknowledgement from the receiver only restarts the server's timeout. */
  lemma {:induction false} HearsAgain(c: Config, w: World)
    requires c.Valid() && Inv(c, w) && w.server.handle && !Starved(w) && |w.got| + 1 == w.block
    ensures var e := Run(c, w, Again(c, w));
      Inv(c, e) && Heard(w, e)
  {
    var w1 := w.(net := w.net + {LastAck(c, |w.got|)});
    AgainRuns(c, w);
    AgainInv(c, w);
    if |w.got| > 0 {
      HearsAck(c, w1, Good(c, w.fetched));
    } else {
      HearsRequest(c, w1, Good(c, w.fetched));
    }
  }

  // --- The resend ---

  function Expiries(n: nat): (acts: seq<Action>)
    ensures |acts| == n && forall k :: 0 <= k < n ==> acts[k] == Expire(true)
  {
    if n == 0 then [] else [Expire(true)] + Expiries(n - 1)
  }

  lemma {:induction false} Waits(c: Config, w: World, n: nat)
    requires Inv(c, w) && w.server.handle && w.server.timer - w.server.lastPkt + n <= TIMEOUT_TICKS
    ensures Run(c, w, Expiries(n)) == w.(server := w.server.(timer := w.server.timer + n))
    ensures Inv(c, Run(c, w, Expiries(n)))
    decreases n
  {
    if n > 0 {
      var e := Step(c, w, Expire(true));
      ExpireInv(c, w, true);
      assert e == w.(server := w.server.(timer := w.server.timer + 1));
      Waits(c, e, n - 1);
      assert Expiries(n)[1..] == Expiries(n - 1);
    }
  }

  lemma {:induction false} Resends(c: Config, w: World)
    requires c.Valid() && Inv(c, w) && w.server.handle && !Starved(w)
    requires w.server.timer - w.server.lastPkt == TIMEOUT_TICKS && w.server.retries == 0
    ensures var e := Run(c, w, [Expire(true)]);
      && Inv(c, e) && e.server.handle && !Starved(e) && e.got == w.got && e.block == w.block
      && BlockMsg(c, w.block) in e.net
  {
    var r := OnTimer(w.server, true);
    ExpireInv(c, w, true);
    assert Run(c, w, [Expire(true)]) == Run(c, Step(c, w, Expire(true)), []);
    assert r.sent == [Sent(c.peer, Data(w.server.lastData.value))];
    assert r.sent[0] in r.sent;
  }

  /** The receiver asks again, and after the timeout the block comes again. */
  lemma {:induction false} BlockComesAgain(c: Config, w: World) returns (acts: seq<Action>)
    requires c.Valid() && Inv(c, w) && w.server.handle && !Starved(w) && |w.got| + 1 == w.block
    ensures Smooth(acts)
    ensures var e := Run(c, w, acts);
      && Inv(c, e) && e.server.handle && !Starved(e) && e.got == w.got && e.block == w.block
      && BlockMsg(c, w.block) in e.net
  {
    HearsAgain(c, w);
    var w1 := Run(c, w, Again(c, w));
    Waits(c, w1, TIMEOUT_TICKS);
    var w2 := Run(c, w1, Expiries(TIMEOUT_TICKS));
    Resends(c, w2);
    RunConcat(c, w1, Expiries(TIMEOUT_TICKS), [Expire(true)]);
    RunConcat(c, w, Again(c, w), Expiries(TIMEOUT_TICKS) + [Expire(true)]);
    acts := Again(c, w) + (Expiries(TIMEOUT_TICKS) + [Expire(true)]);
  }

  lemma {:induction false} TakesBlock(c: Config, w: World)
    requires c.Valid() && Inv(c, w) && w.server.handle && |w.got| + 1 == w.block && BlockMsg(c, w.block) in w.net
    ensures var e := Run(c, w, [ToReceiver(BlockMsg(c, w.block))]);
      Inv(c, e) && e.server == w.server && e.block == w.block && |e.got| == w.block
  {
    var a := ToReceiver(BlockMsg(c, w.block));
    assert Enabled(c, w, a);
    assert |w.got| > 0 ==> w.got[|w.got| - 1] == Piece(c.file, |w.got|);
    DeliverBlock(c, w, a.m);
    assert Run(c, w, [a]) == Run(c, Step(c, w, a), []);
  }

  /** From every open state whose current block was read, a run without loss or failure brings the whole
      file to the receiver and closes. */
  lemma {:induction false} Completes(c: Config, w: World) returns (acts: seq<Action>)
    requires c.Valid() && Inv(c, w) && w.server.handle && !Starved(w)
    ensures Smooth(acts) && Done(c, Run(c, w, acts))
    decreases BlockCount(c.file) - |w.got|, BlockCount(c.file) + 1 - w.block
  {
    if |w.got| == w.block {
      FetchesNext(c, w);
      var e := Run(c, w, Again(c, w));
      if e.server.handle {
        var rest := Completes(c, e);
        RunConcat(c, w, Again(c, w), rest);
        acts := Again(c, w) + rest;
      } else {
        acts := Again(c, w);
      }
    } else {
      var first := BlockComesAgain(c, w);
      var w1 := Run(c, w, first);
      TakesBlock(c, w1);
      var take := [ToReceiver(BlockMsg(c, w.block))];
      var rest := Completes(c, Run(c, w1, take));
      RunConcat(c, w1, take, rest);
      RunConcat(c, w, first, take + rest);
      acts := first + (take + rest);
    }
  }

  // --- A block that was not read ---

  /** The server waits for the acknowledgement of a block it never sent, or has given up. */
  predicate Stuck(c: Config, w: World) {
    Inv(c, w) && Starved(w) && w.fetched == |w.got| < BlockCount(c.file)
  }

  lemma {:induction false} StuckStep(c: Config, w: World, a: Action)
    requires c.Valid() && Stuck(c, w) && Enabled(c, w, a)
    ensures Stuck(c, Step(c, w, a)) && Step(c, w, a).got == w.got
  {
    StepInv(c, w, a);
    match a
    case ToServer(m, env) =>
      if m.packet.Ack? && w.server.handle {
        AckIsCurrent(c, w, m);
      } else if !m.packet.Ack? {
        DeliverOther(c, w, m, env);
      }
      StuckDelivery(c, w, m, env);
    case ToReceiver(m) =>
      assert MsgOk(c, w, m);
      if m.packet.Data? && m.packet.block.blk == Wrap(|w.got| + 1) {
        WrapInjective(m.block, |w.got| + 1);
      }
    case Expire(buf) => ExpireInv(c, w, buf);
    case Stranger(env, from, p) => S.ForeignAnswered(w.server, env, from, p);
    case _ =>
  }

  lemma {:induction false} StuckDelivery(c: Config, w: World, m: Msg, env: Env)
    requires c.Valid() && Stuck(c, w) && Enabled(c, w, ToServer(m, env))
    ensures var r := OnPacket(w.server, env, c.peer, m.packet);
      r.state.lastData.None? && ReadCount(r.calls) == 0
  {
    assert MsgOk(c, w, m);
    if m.packet.Ack? {
      if w.server.handle {
        AckIsCurrent(c, w, m);
      }
      NoReads(OnPacket(w.server, env, c.peer, m.packet).calls);
    } else {
      DeliverOther(c, w, m, env);
    }
  }

  lemma {:induction false} StuckRun(c: Config, w: World, acts: seq<Action>)
    requires c.Valid() && Stuck(c, w)
    ensures Stuck(c, Run(c, w, acts)) && Run(c, w, acts).got == w.got
    decreases |acts|
  {
    if acts != [] {
      if Enabled(c, w, acts[0]) {
        StuckStep(c, w, acts[0]);
        StuckRun(c, Step(c, w, acts[0]), acts[1..]);
      } else {
        StuckRun(c, w, acts[1..]);
      }
    }
  }

  /** An open read transfer can still be completed if and only if the server had a buffer for the current
      block: without one it sends nothing, has nothing to resend, and takes no earlier acknowledgement. */
  lemma {:induction false} CompletesIff(c: Config, w: World)
    requires c.Valid() && Inv(c, w) && w.server.handle
    ensures (exists acts :: Finishes(c, w, acts)) <==> !Starved(w)
  {
    if Starved(w) {
      forall acts
        ensures !Finishes(c, w, acts)
      {
        StuckRun(c, w, acts);
      }
    } else {
      var acts := Completes(c, w);
      assert Finishes(c, w, acts);
    }
  }

  /** An accepted read request whose first block was read leads to the whole file. */
  lemma {:induction false} AcceptedCompletes(c: Config, idle: State, env: Env) returns (acts: seq<Action>)
    requires c.Valid() && S.Inv(idle) && !idle.handle && FromFile(c, 0, env)
    requires ParseRequest(c.body).Some? && env.openOk && env.read.Some? && env.dataBuf
    ensures Smooth(acts)
    ensures var e := Run(c, Start(c, idle, env), acts);
      Done(c, e) && Flatten(e.got) == c.file
  {
    AcceptedRead(c, idle, env, c.peer, c.body);
    StartInv(c, idle, env);
    acts := Completes(c, Start(c, idle, env));
    PiecesJoin(c.file, BlockCount(c.file));
  }
}
