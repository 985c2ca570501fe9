/** Whether a write transfer can still be completed. */
module TftpWriteProgress {
  import opened Common
  import opened TftpServer
  import opened TftpFile
  import opened TftpWrite
  import S = TftpSession

  /** Every call succeeds and every buffer can be had. */
  const GOOD := Env(true, Some([]), true, true, true)

  /** Actions of a network that loses nothing and of surroundings in which nothing fails. */
  predicate Smooth(acts: seq<Action>) {
    forall k :: 0 <= k < |acts| ==>
      acts[k] == Transmit || acts[k].ToSender? || (acts[k].ToServer? && acts[k].env == GOOD)
  }

  /** The whole file has been written and the session is closed. */
  predicate Done(c: Config, w: World) {
    w.blocks == Pieces(c.file, BlockCount(c.file)) && !w.server.handle && !w.failed
  }

  /** The sender still waits for ACK 0, and it is gone. */
  predicate Lost(w: World) { w.awaiting == 0 && forall m :: m in w.net ==> !m.packet.Ack? }

  function AckOf(n: nat): Msg { Msg(false, Ack(Wrap(n)), n) }

  predicate Finishes(c: Config, w: World, acts: seq<Action>) { Done(c, Run(c, w, acts)) }

  lemma {:induction false} RunConcat(c: Config, w: World, a: seq<Action>, b: seq<Action>)
    ensures Run(c, w, a + b) == Run(c, Run(c, w, a), b)
    decreases |a|
  {
    if a == [] {
      assert a + b == b;
    } else {
      assert (a + b)[1..] == a[1..] + b;
      RunConcat(c, if Enabled(c, w, a[0]) then Step(c, w, a[0]) else w, a[1..], b);
    }
  }

  /** The outstanding packet, sent again and delivered. */
  function Again(c: Config, w: World): seq<Action>
    requires w.awaiting <= BlockCount(c.file)
  {
    [Transmit, ToServer(Outstanding(c, w.awaiting), GOOD)]
  }

  lemma {:induction false} AgainRuns(c: Config, w: World)
    requires w.awaiting <= BlockCount(c.file) && |w.blocks| <= w.awaiting && w.server.handle
    ensures var w1 := w.(net := w.net + {Outstanding(c, w.awaiting)});
      Run(c, w, Again(c, w)) == After(c, w1, OnPacket(w.server, GOOD, c.peer, Outstanding(c, w.awaiting).packet))
  {
    var m := Outstanding(c, w.awaiting);
    var w1 := Step(c, w, Transmit);
    assert Enabled(c, w1, ToServer(m, GOOD));
    assert Again(c, w)[1..] == [ToServer(m, GOOD)] && [ToServer(m, GOOD)][1..] == [];
    assert Run(c, w, Again(c, w)) == Run(c, w1, [ToServer(m, GOOD)]) == Run(c, Step(c, w1, ToServer(m, GOOD)), []);
  }

  lemma {:induction false} AgainInv(c: Config, w: World)
    requires c.Valid() && Inv(c, w)
    ensures Inv(c, w.(net := w.net + {Outstanding(c, w.awaiting)}))
  {
    StepInv(c, w, Transmit);
  }

  /** The awaited block is written, acknowledged, and the last one closes. */
  lemma {:induction false} WritesNext(c: Config, w: World)
    requires c.Valid() && Inv(c, w) && w.server.handle && w.awaiting == |w.blocks| + 1
    ensures var e := Run(c, w, Again(c, w));
      && Inv(c, e) && e.awaiting == w.awaiting == |e.blocks| && AckOf(w.awaiting) in e.net
      && !e.failed && e.server.handle == (|e.blocks| < BlockCount(c.file))
  {
    var m := Outstanding(c, w.awaiting);
    var w1 := w.(net := w.net + {m});
    var r := OnPacket(w.server, GOOD, c.peer, m.packet);
    AgainRuns(c, w);
    AgainInv(c, w);
    AwaitedBlockInv(c, w1, m.packet.block, GOOD);
    AwaitedBlock(w.server.(lastPkt := w.server.timer, retries := 0), GOOD, c.peer, m.packet.block);
    assert r.sent == [Sent(c.peer, Ack(Wrap(w.awaiting)))];
    assert r.sent[0] in r.sent;
  }

  /** The block before it only brings its acknowledgement back. */
  lemma {:induction false} AcknowledgesAgain(c: Config, w: World)
    requires c.Valid() && Inv(c, w) && w.server.handle && w.awaiting == |w.blocks| >= 1
    ensures var e := Run(c, w, Again(c, w));
      && Inv(c, e) && e.awaiting == w.awaiting && e.blocks == w.blocks && e.server.handle
      && AckOf(w.awaiting) in e.net
  {
    var m := Outstanding(c, w.awaiting);
    var w1 := w.(net := w.net + {m});
    var r := OnPacket(w.server, GOOD, c.peer, m.packet);
    AgainRuns(c, w);
    AgainInv(c, w);
    DeliverData(c, w1, m, GOOD);
    NextWrap(w.awaiting);
    OtherBlock(w.server.(lastPkt := w.server.timer, retries := 0), GOOD, c.peer, m.packet.block);
    assert r.sent == [Sent(c.peer, Ack(Wrap(w.awaiting)))];
    assert r.sent[0] in r.sent;
  }

  lemma {:induction false} TakesAck(c: Config, w: World)
    requires Inv(c, w) && AckOf(w.awaiting) in w.net && w.awaiting == |w.blocks| < BlockCount(c.file)
    ensures var e := Run(c, w, [ToSender(AckOf(w.awaiting))]);
      Inv(c, e) && e == w.(awaiting := w.awaiting + 1)
  {
    var a := ToSender(AckOf(w.awaiting));
    assert Enabled(c, w, a);
    DeliverAck(c, w, AckOf(w.awaiting));
    assert Run(c, w, [a]) == Run(c, Step(c, w, a), []);
  }

  /** From every open state in which ACK 0 is not lost, a run without loss or failure writes the whole
      file and closes. */
  lemma {:induction false} Completes(c: Config, w: World) returns (acts: seq<Action>)
    requires c.Valid() && Inv(c, w) && w.server.handle && !Lost(w)
    ensures Smooth(acts) && Done(c, Run(c, w, acts))
    decreases BlockCount(c.file) - |w.blocks|, if w.awaiting == |w.blocks| then 1 else 0
  {
    var first: seq<Action>;
    if w.awaiting > |w.blocks| {
      WritesNext(c, w);
      first := Again(c, w);
    } else if w.awaiting == 0 {
      var m :| m in w.net && m.packet.Ack?;
      assert MsgOk(c, w, m);
      TakesAck(c, w);
      first := [ToSender(AckOf(0))];
    } else {
      AcknowledgesAgain(c, w);
      TakesAck(c, Run(c, w, Again(c, w)));
      first := Again(c, w) + [ToSender(AckOf(w.awaiting))];
      RunConcat(c, w, Again(c, w), [ToSender(AckOf(w.awaiting))]);
    }
    var e := Run(c, w, first);
    if e.server.handle {
      var rest := Completes(c, e);
      RunConcat(c, w, first, rest);
      acts := first + rest;
    } else {
      acts := first;
    }
  }

  // --- A lost first acknowledgement ---

  /** Nothing but the request and errors about it can be on the way. */
  predicate Stuck(c: Config, w: World) { Inv(c, w) && Lost(w) && w.blocks == [] }

  lemma StuckStep(c: Config, w: World, a: Action)
    requires c.Valid() && Stuck(c, w) && Enabled(c, w, a)
    ensures Stuck(c, Step(c, w, a))
  {
    StepInv(c, w, a);
    match a
    case ToServer(m, env) =>
      assert MsgOk(c, w, m);
    case Stranger(env, from, p) => S.ForeignAnswered(w.server, env, from, p);
    case _ =>
  }

  /** Without ACK 0 no run writes anything: the repeated request is refused while the session is open. */
  lemma {:induction false} StuckRun(c: Config, w: World, acts: seq<Action>)
    requires c.Valid() && Stuck(c, w)
    ensures Stuck(c, Run(c, w, acts))
    decreases |acts|
  {
    if acts != [] {
      if Enabled(c, w, acts[0]) {
        StuckStep(c, w, acts[0]);
        StuckRun(c, Step(c, w, acts[0]), acts[1..]);
      } else {
        StuckRun(c, w, acts[1..]);
      }
    }
  }

  /** An open write transfer can still be completed if and only if the sender has taken ACK 0 or can
      still receive it. */
  lemma {:induction false} CompletesIff(c: Config, w: World)
    requires c.Valid() && Inv(c, w) && w.server.handle
    ensures (exists acts :: Finishes(c, w, acts)) <==> !Lost(w)
  {
    if Lost(w) {
      forall acts
        ensures !Finishes(c, w, acts)
      {
        StuckRun(c, w, acts);
      }
    } else {
      var acts := Completes(c, w);
      assert Finishes(c, w, acts);
    }
  }

  /** An accepted write request whose ACK 0 was sent leads to the whole file. */
  lemma {:induction false} AcceptedCompletes(c: Config, idle: State, env: Env) returns (acts: seq<Action>)
    requires c.Valid() && S.Inv(idle) && !idle.handle
    requires ParseRequest(c.body).Some? && env.openOk && env.sendBuf
    ensures Smooth(acts)
    ensures var e := Run(c, Start(c, idle, env), acts);
      Done(c, e) && Flatten(e.blocks) == c.file
  {
    AcceptedWrite(idle, env, c.peer, c.body);
    StartInv(c, idle, env);
    var w := Start(c, idle, env);
    var r := OnPacket(idle, env, c.peer, Request(true, c.body));
    assert r.sent[0] in r.sent;
    assert AckOf(0) in w.net;
    acts := Completes(c, w);
    PiecesJoin(c.file, BlockCount(c.file));
  }
}
