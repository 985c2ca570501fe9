/** The multi-client server of src/sw/src/listener.c: client slots in a bitmap, one
    handler per slot, and every send under one mutex, so that each operation below is
    one step of an arbitrary interleaving. */
module PscListener {
  import opened Common
  import opened PscMessage

  const MAX_CLIENTS := 4
  const CLOSED := -1

  /** The four bits of clients_used. */
  type Bitmap = b: seq<bool> | |b| == MAX_CLIENTS witness [false, false, false, false]
  type Socks = s: seq<int> | |s| == MAX_CLIENTS witness [0, 0, 0, 0]
  type Owners = s: seq<int> | |s| == MAX_CLIENTS witness [0, 0, 0, 0]

  /** A tenure is the life of one accepted connection, numbered in order; its number
      stands for the socket. `socks` are the C->sock fields, `owner` the tenure a slot
      was last given to, `handlers` maps each live handler thread to its slot. `wires`
      says what was sent on each connection and what its send() calls will do, `issued`
      which messages were meant for it while its handler lived. */
  datatype Server = Server(
    used: Bitmap,
    socks: Socks,
    owner: Owners,
    handlers: map<int, nat>,
    wires: map<int, Outflow>,
    issued: map<int, seq<Message>>,
    next: int)

  datatype Event =
    | Connect(script: Script)
    | Broadcast(m: Message)
    | SendOne(t: int, m: Message)
    | Exit(t: int)

  const Fresh := Server([false, false, false, false], [0, 0, 0, 0], [0, 0, 0, 0], map[], map[], map[], 1)

  /** The slot psc_client_alloc takes, or MAX_CLIENTS when all are used. */
  function FirstFree(used: Bitmap, from: nat): (i: nat)
    requires from <= MAX_CLIENTS
    ensures from <= i <= MAX_CLIENTS
    ensures i < MAX_CLIENTS ==> !used[i]
    ensures forall j :: from <= j < i ==> used[j]
    decreases MAX_CLIENTS - from
  {
    if from == MAX_CLIENTS || !used[from] then from else FirstFree(used, from + 1)
  }

  /** psc_client_alloc and the assignment of C->sock, or the close of a connection for
      which there is no slot. */
  function OnConnect(s: Server, script: Script): Server {
    var i := FirstFree(s.used, 0);
    if i == MAX_CLIENTS then s else
    var t := s.next;
    Server(s.used[i := true], s.socks[i := t], s.owner[i := t], s.handlers[t := i],
           s.wires[t := Outflow([], script)], s.issued[t := []], t + 1)
  }

  /** The message is meant for tenure t. */
  function Issue(s: Server, t: int, m: Message): Server {
    if t !in s.issued then s else s.(issued := s.issued[t := s.issued[t] + [m]])
  }

  /** psc_sendmsg on the socket of slot i, which is closed on failure. */
  function SendOn(s: Server, i: nat, m: Message): Server
    requires i < MAX_CLIENTS
  {
    var fd := s.socks[i];
    if fd == CLOSED || fd !in s.wires then s else
    var r := SendMsg(s.wires[fd], m);
    s.(wires := s.wires[fd := r.1],
       socks := if r.0 == Ok then s.socks else s.socks[i := CLOSED])
  }

  /** The body of the loop in psc_send. */
  function SendSlot(s: Server, i: nat, m: Message): Server
    requires i < MAX_CLIENTS
  {
    if !s.used[i] then s else SendOn(Issue(s, s.owner[i], m), i, m)
  }

  /** psc_send, from slot i on. */
  function OnBroadcast(s: Server, i: nat, m: Message): Server
    requires i <= MAX_CLIENTS
    decreases MAX_CLIENTS - i
  {
    if i == MAX_CLIENTS then s else OnBroadcast(SendSlot(s, i, m), i + 1, m)
  }

  /** psc_client_free at the end of the handler of tenure t in slot i. */
  function OnExit(s: Server, t: int, i: nat): Server
    requires i < MAX_CLIENTS
  {
    s.(used := s.used[i := false], socks := s.socks[i := 0], handlers := s.handlers - {t})
  }

  /** What a connection has sent is a prefix of the frames meant for it, and all of them
      while its socket is open. */
  predicate ConnOk(wire: Outflow, issued: seq<Message>, open: bool) {
    && wire.sent <= Frames(issued)
    && (open ==> wire.sent == Frames(issued))
  }

  predicate Open(s: Server, t: int) {
    t in s.handlers && s.handlers[t] < MAX_CLIENTS && s.socks[s.handlers[t]] == t
  }

  /** A slot is used exactly while its owner's handler lives in it. */
  predicate SlotsOk(s: Server) {
    && (forall i :: 0 <= i < MAX_CLIENTS && s.used[i] ==>
          s.owner[i] in s.handlers && s.handlers[s.owner[i]] == i && (s.socks[i] == s.owner[i] || s.socks[i] == CLOSED))
    && (forall t :: t in s.handlers ==>
          s.handlers[t] < MAX_CLIENTS && s.used[s.handlers[t]] && s.owner[s.handlers[t]] == t && t in s.wires)
  }

  predicate Inv(s: Server) {
    && SlotsOk(s)
    && 0 < s.next && s.issued.Keys == s.wires.Keys
    && (forall t :: t in s.wires ==> 0 < t < s.next && ConnOk(s.wires[t], s.issued[t], Open(s, t)))
  }

  predicate Enabled(s: Server, e: Event) {
    match e
    case Connect(_) => true
    case Broadcast(_) => true
    case SendOne(t, _) => t in s.handlers
    case Exit(t) => t in s.handlers
  }

  function Step(s: Server, e: Event): Server
    requires Inv(s) && Enabled(s, e)
  {
    match e
    case Connect(script) => OnConnect(s, script)
    case Broadcast(m) => OnBroadcast(s, 0, m)
    case SendOne(t, m) => SendSlot(s, s.handlers[t], m)
    case Exit(t) => OnExit(s, t, s.handlers[t])
  }

  // --- Each operation keeps the invariant ---

  /** Sending the message that was just issued. */
  lemma SendIssued(wire: Outflow, issued: seq<Message>, m: Message)
    requires ConnOk(wire, issued, true)
    ensures var r := SendMsg(wire, m);
      ConnOk(r.1, issued + [m], r.0 == Ok)
  {
    FramesSnoc(issued, m);
    SendMsgFrames(wire, m);
  }

  lemma IssueToClosed(wire: Outflow, issued: seq<Message>, m: Message)
    requires ConnOk(wire, issued, false)
    ensures ConnOk(wire, issued + [m], false)
  {
    FramesSnoc(issued, m);
  }

  /** Replacing what one used slot's connection has sent and was meant to, and perhaps
      closing its socket. */
  lemma SlotInv(s: Server, q: Server, i: nat, wire: Outflow, issued: seq<Message>)
    requires Inv(s) && i < MAX_CLIENTS && s.used[i]
    requires q == s.(wires := s.wires[s.owner[i] := wire], issued := s.issued[s.owner[i] := issued], socks := q.socks)
    requires q.socks == s.socks || q.socks == s.socks[i := CLOSED]
    requires ConnOk(wire, issued, q.socks[i] == s.owner[i])
    ensures Inv(q)
  {
    forall t | t in q.wires
      ensures 0 < t < q.next && ConnOk(q.wires[t], q.issued[t], Open(q, t))
    {
      if t != s.owner[i] {
        assert Open(q, t) == Open(s, t);
      }
    }
  }

  lemma SendSlotInv(s: Server, i: nat, m: Message)
    requires Inv(s) && i < MAX_CLIENTS
    ensures Inv(SendSlot(s, i, m))
  {
    if s.used[i] {
      var t := s.owner[i];
      var q := SendSlot(s, i, m);
      if s.socks[i] == t {
        assert Open(s, t);
        SendIssued(s.wires[t], s.issued[t], m);
        assert q.issued == s.issued[t := s.issued[t] + [m]];
        assert q.wires == s.wires[t := SendMsg(s.wires[t], m).1];
        SlotInv(s, q, i, SendMsg(s.wires[t], m).1, s.issued[t] + [m]);
      } else {
        IssueToClosed(s.wires[t], s.issued[t], m);
        assert s.wires == s.wires[t := s.wires[t]];
        SlotInv(s, q, i, s.wires[t], s.issued[t] + [m]);
      }
    }
  }

  lemma {:induction false} BroadcastInv(s: Server, i: nat, m: Message)
    requires Inv(s) && i <= MAX_CLIENTS
    ensures Inv(OnBroadcast(s, i, m))
    decreases MAX_CLIENTS - i
  {
    if i < MAX_CLIENTS {
      SendSlotInv(s, i, m);
      BroadcastInv(SendSlot(s, i, m), i + 1, m);
    }
  }

  lemma ConnectInv(s: Server, script: Script)
    requires Inv(s)
    ensures Inv(OnConnect(s, script))
  {
    var q := OnConnect(s, script);
    forall t | t in q.wires
      ensures 0 < t < q.next && ConnOk(q.wires[t], q.issued[t], Open(q, t))
    {
      if t in s.wires && t != s.next {
        assert Open(q, t) == Open(s, t);
      }
    }
  }

  lemma ExitInv(s: Server, t: int)
    requires Inv(s) && t in s.handlers
    ensures Inv(OnExit(s, t, s.handlers[t]))
  {
    var q := OnExit(s, t, s.handlers[t]);
    forall u | u in q.wires
      ensures 0 < u < q.next && ConnOk(q.wires[u], q.issued[u], Open(q, u))
    {
      assert Open(q, u) ==> Open(s, u);
    }
  }

  lemma StepInv(s: Server, e: Event)
    requires Inv(s) && Enabled(s, e)
    ensures Inv(Step(s, e))
  {
    match e
    case Connect(script) => ConnectInv(s, script);
    case Broadcast(m) => BroadcastInv(s, 0, m);
    case SendOne(t, m) => SendSlotInv(s, s.handlers[t], m);
    case Exit(t) => ExitInv(s, t);
  }

  // --- Runs ---

  /** A run skips the events that no thread can perform in its state. */
  function Run(s: Server, es: seq<Event>): (r: Server)
    requires Inv(s)
    ensures Inv(r)
    decreases |es|
  {
    if es == [] then s
    else if !Enabled(s, es[0]) then Run(s, es[1..])
    else
      StepInv(s, es[0]);
      Run(Step(s, es[0]), es[1..])
  }

  lemma SlotOwned(s: Server, i: nat)
    requires SlotsOk(s) && i < MAX_CLIENTS
    ensures s.used[i] <==> exists t :: t in s.handlers && s.handlers[t] == i
  {
    if s.used[i] {
      var t := s.owner[i];
      assert t in s.handlers && s.handlers[t] == i;
    }
  }

  /** Over every interleaving: bit i is set exactly while some handler owns slot i, and
      then only one does; and each connection has carried whole frames of the messages
      meant for it, in order, then at most part of one more. */
  lemma ServerSafety(es: seq<Event>)
    ensures Inv(Fresh)
    ensures var s := Run(Fresh, es);
      && (forall i :: 0 <= i < MAX_CLIENTS ==>
            (s.used[i] <==> exists t :: t in s.handlers && s.handlers[t] == i))
      && (forall t, u :: t in s.handlers && u in s.handlers && s.handlers[t] == s.handlers[u] ==> t == u)
      && (forall t :: t in s.wires ==> t in s.issued && WholeThenPart(s.wires[t].sent, s.issued[t]))
  {
    var s := Run(Fresh, es);
    forall i | 0 <= i < MAX_CLIENTS
      ensures s.used[i] <==> exists t :: t in s.handlers && s.handlers[t] == i
    {
      SlotOwned(s, i);
    }
    forall t | t in s.wires
      ensures WholeThenPart(s.wires[t].sent, s.issued[t])
    {
      PrefixIsWholeThenPart(s.wires[t].sent, s.issued[t]);
    }
  }

  /** The bytes are the frames of the first k messages and a proper prefix of the next. */
  predicate WholeThenPartAt(sent: seq<byte>, ms: seq<Message>, k: nat)
    requires k <= |ms|
  {
    && Frames(ms[..k]) <= sent
    && if k < |ms| then sent[|Frames(ms[..k])|..] < Frame(ms[k]) else sent == Frames(ms[..k])
  }

  predicate WholeThenPart(sent: seq<byte>, ms: seq<Message>) {
    exists k :: 0 <= k <= |ms| && WholeThenPartAt(sent, ms, k)
  }

  lemma {:induction false} PrefixIsWholeThenPart(sent: seq<byte>, ms: seq<Message>)
    requires sent <= Frames(ms)
    ensures WholeThenPart(sent, ms)
    decreases |ms|
  {
    if ms == [] || |sent| < |Frame(ms[0])| {
      assert ms[..0] == [];
      assert WholeThenPartAt(sent, ms, 0);
    } else {
      var f := |Frame(ms[0])|;
      PrefixIsWholeThenPart(sent[f..], ms[1..]);
      var k :| 0 <= k <= |ms[1..]| && WholeThenPartAt(sent[f..], ms[1..], k);
      assert sent[..f] == Frame(ms[0]);
      OneFrameMore(sent, ms, k);
    }
  }

  lemma OneFrameMore(sent: seq<byte>, ms: seq<Message>, k: nat)
    requires ms != [] && Frame(ms[0]) <= sent && k <= |ms[1..]|
    requires WholeThenPartAt(sent[|Frame(ms[0])|..], ms[1..], k)
    ensures WholeThenPartAt(sent, ms, k + 1)
  {
    var frame, whole := Frame(ms[0]), Frames(ms[1..][..k]);
    var rest := sent[|frame|..];
    assert ms[..k + 1][1..] == ms[1..][..k];
    assert Frames(ms[..k + 1]) == frame + whole;
    assert sent == frame + rest;
    assert sent[|frame + whole|..] == rest[|whole|..];
  }

  lemma SilentSlot(s: Server, i: nat, m: Message, t: int)
    requires Inv(s) && i < MAX_CLIENTS && t in s.wires && !Open(s, t)
    ensures var q := SendSlot(s, i, m);
      t in q.wires && q.wires[t] == s.wires[t] && !Open(q, t)
  {
  }

  lemma {:induction false} SilentBroadcast(s: Server, i: nat, m: Message, t: int)
    requires Inv(s) && i <= MAX_CLIENTS && t in s.wires && !Open(s, t)
    ensures var q := OnBroadcast(s, i, m);
      t in q.wires && q.wires[t] == s.wires[t] && !Open(q, t)
    decreases MAX_CLIENTS - i
  {
    if i < MAX_CLIENTS {
      SilentSlot(s, i, m, t);
      SendSlotInv(s, i, m);
      SilentBroadcast(SendSlot(s, i, m), i + 1, m, t);
    }
  }

  lemma ClosedStep(s: Server, e: Event, t: int)
    requires Inv(s) && Enabled(s, e) && t in s.wires && !Open(s, t)
    ensures var q := Step(s, e);
      t in q.wires && q.wires[t] == s.wires[t] && !Open(q, t)
  {
    match e
    case Broadcast(m) => SilentBroadcast(s, 0, m, t);
    case SendOne(u, m) => SilentSlot(s, s.handlers[u], m, t);
    case _ =>
  }

  /** Once its socket is closed or its handler gone, a connection never carries another byte,
      whatever the server goes on to do. */
  lemma {:induction false} ClosedStaysSilent(s: Server, es: seq<Event>, t: int)
    requires Inv(s) && t in s.wires && !Open(s, t)
    ensures var q := Run(s, es);
      t in q.wires && q.wires[t] == s.wires[t] && !Open(q, t)
    decreases |es|
  {
    if es != [] {
      if Enabled(s, es[0]) {
        ClosedStep(s, es[0], t);
        StepInv(s, es[0]);
        ClosedStaysSilent(Step(s, es[0]), es[1..], t);
      } else {
        ClosedStaysSilent(s, es[1..], t);
      }
    }
  }

  // --- The operations on the fields ---

  class PscKey {
    var clientsUsed: Bitmap
    var socks: Socks
    var wires: map<int, Outflow>
    var next: int
    ghost var owner: Owners
    ghost var handlers: map<int, nat>
    ghost var issued: map<int, seq<Message>>

    ghost function Snapshot(): Server
      reads this
    {
      Server(clientsUsed, socks, owner, handlers, wires, issued, next)
    }

    constructor ()
      ensures Snapshot() == Fresh
    {
      clientsUsed, socks, owner := [false, false, false, false], [0, 0, 0, 0], [0, 0, 0, 0];
      handlers, wires, issued, next := map[], map[], map[], 1;
    }

    method ClientAlloc() returns (slot: nat)
      modifies this`clientsUsed
      ensures slot == FirstFree(old(clientsUsed), 0)
      ensures clientsUsed == if slot < MAX_CLIENTS then old(clientsUsed)[slot := true] else old(clientsUsed)
    {
      slot := 0;
      while slot < MAX_CLIENTS
        invariant slot <= MAX_CLIENTS
        invariant FirstFree(clientsUsed, 0) == FirstFree(clientsUsed, slot)
        invariant clientsUsed == old(clientsUsed)
      {
        if !clientsUsed[slot] {
          clientsUsed := clientsUsed[slot := true];
          return;
        }
        slot := slot + 1;
      }
    }

    method Connect(script: Script)
      modifies this
      ensures Snapshot() == OnConnect(old(Snapshot()), script)
    {
      var t := next;
      var i := ClientAlloc();
      if i < MAX_CLIENTS {
        socks := socks[i := t];
        wires := wires[t := Outflow([], script)];
        owner := owner[i := t];
        handlers := handlers[t := i];
        issued := issued[t := []];
        next := t + 1;
      }
    }

    /** The part of psc_send and psc_send_one that deals with one client. */
    method SendTo(i: nat, m: Message)
      requires i < MAX_CLIENTS
      modifies this`socks, this`wires, this`issued
      ensures Snapshot() == SendSlot(old(Snapshot()), i, m)
    {
      if !clientsUsed[i] {
        return;
      }
      issued := if owner[i] in issued then issued[owner[i] := issued[owner[i]] + [m]] else issued;
      if socks[i] == CLOSED || socks[i] !in wires {
        return;
      }
      var r := SendMsg(wires[socks[i]], m);
      wires := wires[socks[i] := r.1];
      if r.0 != Ok {
        socks := socks[i := CLOSED];
      }
    }

    method Send(m: Message)
      modifies this`socks, this`wires, this`issued
      ensures Snapshot() == OnBroadcast(old(Snapshot()), 0, m)
    {
      var idx := 0;
      while idx < MAX_CLIENTS
        invariant idx <= MAX_CLIENTS
        invariant OnBroadcast(old(Snapshot()), 0, m) == OnBroadcast(Snapshot(), idx, m)
      {
        SendTo(idx, m);
        idx := idx + 1;
      }
    }

    /** Called by the handler of tenure t, whose client has index `slot`. */
    method ClientFree(ghost t: int, slot: nat)
      requires slot < MAX_CLIENTS
      modifies this
      ensures Snapshot() == OnExit(old(Snapshot()), t, slot)
    {
      clientsUsed := clientsUsed[slot := false];
      socks := socks[slot := 0];
      handlers := handlers - {t};
    }
  }
}
