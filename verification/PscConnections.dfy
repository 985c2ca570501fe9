/** What the server does for each connection, told from the events alone: who is accepted, which messages
    are meant for whom, and what each connection has carried. */
module PscConnections {
  import opened Common
  import opened PscMessage
  import opened PscListener

  /** An accepted connection: the script of its send() calls, the messages meant for it so far, and
      whether its handler lives. */
  datatype Conn = Conn(script: Script, meant: seq<Message>, live: bool)

  /** All accepted connections, by number. */
  datatype Book = Book(conns: map<int, Conn>, next: int)

  const Empty := Book(map[], 1)

  function Live(b: Book): set<int> { set t | t in b.conns && b.conns[t].live }

  function Hear(c: Conn, m: Message): Conn { if c.live then c.(meant := c.meant + [m]) else c }

  /** A connection is accepted while fewer than four live; a broadcast is meant for every live one, a single
      message for the one it names; an exit ends one. */
  function Note(b: Book, e: Event): Book {
    match e
    case Connect(script) =>
      if |Live(b)| >= 4 then b else Book(b.conns[b.next := Conn(script, [], true)], b.next + 1)
    case Broadcast(m) => b.(conns := map t | t in b.conns :: Hear(b.conns[t], m))
    case SendOne(t, m) => if t in b.conns then b.(conns := b.conns[t := Hear(b.conns[t], m)]) else b
    case Exit(t) => if t in b.conns then b.(conns := b.conns[t := b.conns[t].(live := false)]) else b
  }

  function Notes(b: Book, es: seq<Event>): Book
    decreases |es|
  {
    if es == [] then b else Notes(Note(b, es[0]), es[1..])
  }

  /** Sending messages in order up to the first failure: whether none failed, and the connection. */
  function Till(c: Outflow, ms: seq<Message>): (bool, Outflow)
    decreases |ms|
  {
    if ms == [] then (true, c)
    else
      var before := Till(c, ms[..|ms| - 1]);
      if !before.0 then before
      else
        var r := SendMsg(before.1, ms[|ms| - 1]);
        (r.0 == Ok, r.1)
  }

  function Carried(c: Conn): (bool, Outflow) { Till(Outflow([], c.script), c.meant) }

  // --- One operation ---

  /** Nothing but connections has changed. */
  predicate SameSlots(s: Server, q: Server) {
    && q.handlers == s.handlers && q.used == s.used && q.owner == s.owner && q.next == s.next
    && q.wires.Keys == s.wires.Keys && q.issued.Keys == s.issued.Keys
  }

  predicate Untouched(s: Server, q: Server, t: int)
    requires t in s.wires && t in q.wires
  {
    q.wires[t] == s.wires[t] && (Open(q, t) <==> Open(s, t))
  }

  /** The message was sent to t, if its socket was open, and a failure has closed it. */
  predicate Served(s: Server, q: Server, t: int, m: Message)
    requires t in s.wires && t in q.wires
  {
    if Open(s, t) then
      var r := SendMsg(s.wires[t], m);
      q.wires[t] == r.1 && (Open(q, t) <==> r.0 == Ok)
    else Untouched(s, q, t)
  }

  lemma SlotServes(s: Server, i: nat, m: Message)
    requires PscListener.Inv(s) && i < MAX_CLIENTS
    ensures var q := SendSlot(s, i, m);
      && SameSlots(s, q)
      && forall t :: t in s.wires ==>
           if t in s.handlers && s.handlers[t] == i then Served(s, q, t, m) else Untouched(s, q, t)
  {
    var q := SendSlot(s, i, m);
    if s.used[i] {
      var o := s.owner[i];
      assert o in s.handlers && s.handlers[o] == i;
      forall t | t in s.wires
        ensures if t in s.handlers && s.handlers[t] == i then Served(s, q, t, m) else Untouched(s, q, t)
      {
        assert t in s.handlers && s.handlers[t] == i ==> t == o;
      }
    }
  }

  predicate ServedFrom(s: Server, q: Server, i: nat, m: Message) {
    && SameSlots(s, q)
    && forall t :: t in s.wires ==>
         if t in s.handlers && s.handlers[t] >= i then Served(s, q, t, m) else Untouched(s, q, t)
  }

  lemma {:induction false} BroadcastServes(s: Server, i: nat, m: Message)
    requires PscListener.Inv(s) && i <= MAX_CLIENTS
    ensures ServedFrom(s, OnBroadcast(s, i, m), i, m)
    decreases MAX_CLIENTS - i
  {
    if i < MAX_CLIENTS {
      var p := SendSlot(s, i, m);
      SlotServes(s, i, m);
      SendSlotInv(s, i, m);
      BroadcastServes(p, i + 1, m);
      var q := OnBroadcast(p, i + 1, m);
      forall t | t in s.wires
        ensures if t in s.handlers && s.handlers[t] >= i then Served(s, q, t, m) else Untouched(s, q, t)
      {
      }
    }
  }

  // --- Server and book ---

  predicate ConnMatches(s: Server, t: int, c: Conn) {
    && t in s.wires && s.wires[t] == Carried(c).1
    && (t in s.handlers <==> c.live)
    && (c.live ==> (Open(s, t) <==> Carried(c).0))
  }

  predicate Matches(s: Server, b: Book) {
    && PscListener.Inv(s) && b.next == s.next && b.conns.Keys == s.wires.Keys
    && forall t :: t in b.conns ==> ConnMatches(s, t, b.conns[t])
  }

  lemma {:induction false} CarriesOneMore(s: Server, q: Server, t: int, c: Conn, m: Message)
    requires ConnMatches(s, t, c) && t in q.wires && c.live && q.handlers == s.handlers
    requires Served(s, q, t, m)
    ensures ConnMatches(q, t, Hear(c, m))
  {
    assert (c.meant + [m])[..|c.meant|] == c.meant;
  }

  lemma SubsetSize(a: set<int>, b: set<int>)
    requires a <= b
    ensures |a| <= |b|
  {
    assert a * b == a;
    assert |b - a| == |b| - |b * a| && b * a == a * b;
  }

  lemma {:induction false} AllUsed(s: Server)
    requires SlotsOk(s) && forall i :: 0 <= i < MAX_CLIENTS ==> s.used[i]
    ensures |s.handlers.Keys| >= 4
  {
    var a, b, c, d := s.owner[0], s.owner[1], s.owner[2], s.owner[3];
    assert s.handlers[a] == 0 && s.handlers[b] == 1 && s.handlers[c] == 2 && s.handlers[d] == 3;
    assert |{a, b, c, d}| == 4;
    SubsetSize({a, b, c, d}, s.handlers.Keys);
  }

  lemma {:induction false} OneFree(s: Server, i: nat, j: nat, k: nat, l: nat)
    requires SlotsOk(s) && i < MAX_CLIENTS && !s.used[i]
    requires {i, j, k, l} == {0, 1, 2, 3}
    ensures |s.handlers.Keys| <= 3
  {
    var others := {s.owner[j], s.owner[k], s.owner[l]};
    forall t | t in s.handlers
      ensures t in others
    {
      var n := s.handlers[t];
      assert s.used[n] && s.owner[n] == t;
      assert n in {i, j, k, l};
    }
    ThreeAtMost(s.owner[j], s.owner[k], s.owner[l]);
    SubsetSize(s.handlers.Keys, others);
  }

  lemma ThreeAtMost(a: int, b: int, c: int)
    ensures |{a, b, c}| <= 3
  {
    assert {a, b, c} == {a} + {b} + {c};
  }

  /** A slot is free if and only if fewer than four handlers live. */
  lemma {:induction false} SlotsBounded(s: Server)
    requires SlotsOk(s)
    ensures |s.handlers.Keys| >= 4 <==> FirstFree(s.used, 0) == MAX_CLIENTS
  {
    var i := FirstFree(s.used, 0);
    if i == MAX_CLIENTS {
      AllUsed(s);
    } else {
      OneFree(s, i, if i == 0 then 1 else 0, if i <= 1 then 2 else 1, if i <= 2 then 3 else 2);
    }
  }

  lemma {:induction false} LiveAreHandlers(s: Server, b: Book)
    requires Matches(s, b)
    ensures Live(b) == s.handlers.Keys
  {
    forall t
      ensures t in Live(b) <==> t in s.handlers
    {
      assert t in b.conns ==> ConnMatches(s, t, b.conns[t]);
    }
  }

  lemma {:induction false} ConnectMatches(s: Server, b: Book, script: Script)
    requires Matches(s, b)
    ensures Matches(OnConnect(s, script), Note(b, Connect(script)))
  {
    SlotsBounded(s);
    LiveAreHandlers(s, b);
    ConnectInv(s, script);
    var q, c := OnConnect(s, script), Note(b, Connect(script));
    forall t | t in c.conns
      ensures ConnMatches(q, t, c.conns[t])
    {
      if t in b.conns {
        assert ConnMatches(s, t, b.conns[t]);
        assert t != s.next;
      }
    }
  }

  lemma {:induction false} BroadcastMatches(s: Server, b: Book, m: Message)
    requires Matches(s, b)
    ensures Matches(OnBroadcast(s, 0, m), Note(b, Broadcast(m)))
  {
    BroadcastInv(s, 0, m);
    BroadcastServes(s, 0, m);
    var q, c := OnBroadcast(s, 0, m), Note(b, Broadcast(m));
    forall t | t in c.conns
      ensures ConnMatches(q, t, c.conns[t])
    {
      assert ConnMatches(s, t, b.conns[t]);
      if b.conns[t].live {
        CarriesOneMore(s, q, t, b.conns[t], m);
      }
    }
  }

  lemma {:induction false} SendOneMatches(s: Server, b: Book, u: int, m: Message)
    requires Matches(s, b) && u in s.handlers
    ensures Matches(SendSlot(s, s.handlers[u], m), Note(b, SendOne(u, m)))
  {
    SendSlotInv(s, s.handlers[u], m);
    SlotServes(s, s.handlers[u], m);
    var q, c := SendSlot(s, s.handlers[u], m), Note(b, SendOne(u, m));
    forall t | t in c.conns
      ensures ConnMatches(q, t, c.conns[t])
    {
      assert ConnMatches(s, t, b.conns[t]);
      if t == u {
        CarriesOneMore(s, q, t, b.conns[t], m);
      }
    }
  }

  lemma {:induction false} ExitMatches(s: Server, b: Book, u: int)
    requires Matches(s, b) && u in s.handlers
    ensures Matches(OnExit(s, u, s.handlers[u]), Note(b, Exit(u)))
  {
    ExitInv(s, u);
    var q, c := OnExit(s, u, s.handlers[u]), Note(b, Exit(u));
    forall t | t in c.conns
      ensures ConnMatches(q, t, c.conns[t])
    {
      assert ConnMatches(s, t, b.conns[t]);
    }
  }

  /** An event that no thread can perform changes nothing. */
  lemma {:induction false} SkippedMatches(s: Server, b: Book, e: Event)
    requires Matches(s, b) && !Enabled(s, e)
    ensures Note(b, e) == b
  {
    var t := e.t;
    assert t in b.conns ==> ConnMatches(s, t, b.conns[t]);
    assert t in b.conns ==> b.conns[t := b.conns[t]] == b.conns;
  }

  lemma {:induction false} StepMatches(s: Server, b: Book, e: Event)
    requires Matches(s, b) && Enabled(s, e)
    ensures Matches(PscListener.Step(s, e), Note(b, e))
  {
    match e
    case Connect(script) => ConnectMatches(s, b, script);
    case Broadcast(m) => BroadcastMatches(s, b, m);
    case SendOne(t, m) => SendOneMatches(s, b, t, m);
    case Exit(t) => ExitMatches(s, b, t);
  }

  lemma {:induction false} RunMatches(s: Server, b: Book, es: seq<Event>)
    requires Matches(s, b)
    ensures Matches(PscListener.Run(s, es), Notes(b, es))
    decreases |es|
  {
    if es != [] {
      if PscListener.Enabled(s, es[0]) {
        StepMatches(s, b, es[0]);
        RunMatches(PscListener.Step(s, es[0]), Note(b, es[0]), es[1..]);
      } else {
        SkippedMatches(s, b, es[0]);
        RunMatches(s, b, es[1..]);
      }
    }
  }

  /** Over every interleaving: the connections accepted, the handlers alive and what each connection has
      carried are those told from the events; a live one is open for sending until its first failure. */
  lemma {:induction false} ConnectionsFromEvents(es: seq<Event>)
    ensures var s, b := PscListener.Run(Fresh, es), Notes(Empty, es);
      && s.wires.Keys == b.conns.Keys && s.handlers.Keys == Live(b)
      && forall t :: t in b.conns ==>
           && s.wires[t] == Carried(b.conns[t]).1
           && (b.conns[t].live ==> (Open(s, t) <==> Carried(b.conns[t]).0))
  {
    RunMatches(Fresh, Empty, es);
    var s, b := PscListener.Run(Fresh, es), Notes(Empty, es);
    forall t | t in b.conns
      ensures ConnMatches(s, t, b.conns[t])
    {
    }
    LiveAreHandlers(s, b);
  }

  /** A connection whose sends never fail carries exactly the frames meant for it. */
  lemma {:induction false} NeverFailingCarriesAll(c: Outflow, ms: seq<Message>)
    requires NeverFails(c.script)
    ensures var r := Till(c, ms);
      r.0 && r.1.sent == c.sent + Frames(ms) && NeverFails(r.1.script)
    decreases |ms|
  {
    if ms == [] {
      assert c.sent + [] == c.sent;
    } else {
      var init, m := ms[..|ms| - 1], ms[|ms| - 1];
      NeverFailingCarriesAll(c, init);
      var p := Till(c, init).1;
      MoveSucceeds(p.script, 0, HEADER, HEADER);
      MoveSucceeds(Move(p.script, 0, HEADER, HEADER).script, 0, |m.body|, |m.body|);
      SendMsgFrames(p, m);
      FramesSnoc(init, m);
      assert ms == init + [m];
      ConcatAssoc(c.sent, Frames(init), Frame(m));
    }
  }
}
