/** src/hw/hdl/event_rcv_ts.vhd: the time of day received as a stream of 0 and 1 events. */
module TimestampDecoder {
  import opened Common

  const ZERO := 0x70
  const ONE := 0x71
  const LATCH := 0x7D

  /** Most significant bit first: index 0 is bit 31, so bit `pos` has index 31 - pos. */
  type Bits = s: seq<bool> | |s| == 32 witness seq(32, _ => false)
  type Pos = p: nat | p < 32

  datatype Inputs = Inputs(reset: bool, event: byte)

  /** `tsSeconds` and `tsOffset` are the two halves of TimeStamp. */
  datatype Regs = Regs(
    pos: Pos, tmp: Bits, seconds: Bits, offset: u32, clear: bool, clearReg: bool, tsSeconds: Bits, tsOffset: u32)

  // --- One rising edge ---

  function Next32(n: u32): u32 { (n + 1) % 0x1_0000_0000 }

  function NextPos(pos: Pos, event: byte): Pos {
    if event == LATCH then 31 else if event == ZERO || event == ONE then (pos + 31) % 32 else pos
  }

  function NextTmp(r: Regs, i: Inputs): Bits {
    if i.reset || r.clearReg then Zeros(32)
    else if i.event == ZERO then r.tmp[31 - r.pos := false]
    else if i.event == ONE then r.tmp[31 - r.pos := true]
    else r.tmp
  }

  function Clock(r: Regs, i: Inputs): Regs {
    Regs(
      NextPos(r.pos, i.event), NextTmp(r, i),
      if i.event == LATCH then r.tmp else r.seconds,
      if i.event == LATCH then 0 else Next32(r.offset),
      i.event == LATCH, r.clear,
      if i.reset then Zeros(32) else r.seconds, if i.reset then 0 else r.offset)
  }

  /** The processes run in an order in which each reads its inputs before they change. */
  class EventReceiver {
    var pos: Pos
    var tmp: Bits
    var seconds: Bits
    var offset: u32
    var clear: bool
    var clearReg: bool
    var tsSeconds: Bits
    var tsOffset: u32

    function Registers(): Regs
      reads this
    {
      Regs(pos, tmp, seconds, offset, clear, clearReg, tsSeconds, tsOffset)
    }

    method Timestamp(reset: bool)
      modifies this`tsSeconds, this`tsOffset
      ensures tsSeconds == (if reset then Zeros(32) else seconds) && tsOffset == (if reset then 0 else offset)
    {
      if reset {
        tsSeconds, tsOffset := Zeros(32), 0;
      } else {
        tsSeconds, tsOffset := seconds, offset;
      }
    }

    method LatchSeconds(event: byte)
      modifies this`seconds, this`offset
      ensures seconds == (if event == LATCH then tmp else old(seconds))
      ensures offset == (if event == LATCH then 0 else Next32(old(offset)))
    {
      if event == LATCH {
        seconds, offset := tmp, 0;
      } else {
        offset := Next32(offset);
      }
    }

    method Receive(i: Inputs)
      modifies this`tmp, this`pos
      ensures tmp == NextTmp(old(Registers()), i) && pos == NextPos(old(pos), i.event)
    {
      if i.reset || clearReg {
        tmp := Zeros(32);
      } else if i.event == ZERO {
        tmp := tmp[31 - pos := false];
      } else if i.event == ONE {
        tmp := tmp[31 - pos := true];
      }
      if i.event == LATCH {
        pos := 31;
      } else if i.event == ZERO || i.event == ONE {
        pos := (pos + 31) % 32;
      }
    }

    method Tick(i: Inputs)
      modifies this
      ensures Registers() == Clock(old(Registers()), i)
    {
      Timestamp(i.reset);
      LatchSeconds(i.event);
      Receive(i);
      clear, clearReg := i.event == LATCH, clear;
    }
  }

  // --- Runs without reset ---

  function Run(r: Regs, events: seq<byte>): Regs
    decreases |events|
  {
    if events == [] then r else Run(Clock(r, Inputs(false, events[0])), events[1..])
  }

  lemma {:induction false} RunConcat(r: Regs, a: seq<byte>, b: seq<byte>)
    ensures Run(r, a + b) == Run(Run(r, a), b)
    decreases |a|
  {
    if a == [] {
      assert a + b == b;
    } else {
      assert (a + b)[1..] == a[1..] + b;
      RunConcat(Clock(r, Inputs(false, a[0])), a[1..], b);
    }
  }

  // --- Decoding ---

  predicate IsBit(event: byte) { event == ZERO || event == ONE }

  function BitOf(event: byte): seq<bool> { if IsBit(event) then [event == ONE] else [] }

  /** The bits carried by a stretch of events; other events may come between them. */
  function Carried(events: seq<byte>): seq<bool>
    decreases |events|
  {
    if events == [] then [] else BitOf(events[0]) + Carried(events[1..])
  }

  predicate NoLatch(events: seq<byte>) { forall i :: 0 <= i < |events| ==> events[i] != LATCH }

  /** c bits have come in since the last latch, and tmp holds `got` for them. */
  predicate Filled(r: Regs, got: seq<bool>) {
    && |got| <= 32
    && !r.clear && !r.clearReg
    && r.pos == (63 - |got|) % 32
    && r.tmp == got + Zeros(32 - |got|)
  }

  lemma FillOne(r: Regs, event: byte, got: seq<bool>)
    requires Filled(r, got) && event != LATCH && (IsBit(event) ==> |got| < 32)
    ensures Filled(Clock(r, Inputs(false, event)), got + BitOf(event))
  {
  }

  /** The bits `got` extended by those of further events, one event at a time. */
  function More(got: seq<bool>, events: seq<byte>): seq<bool>
    decreases |events|
  {
    if events == [] then got else More(got + BitOf(events[0]), events[1..])
  }

  lemma ConcatAssoc(a: seq<bool>, b: seq<bool>, c: seq<bool>)
    ensures a + b + c == a + (b + c)
  {
  }

  lemma {:induction false} MoreIsCarried(got: seq<bool>, events: seq<byte>)
    ensures More(got, events) == got + Carried(events)
    decreases |events|
  {
    if events == [] {
      assert got + [] == got;
    } else {
      var one, rest := BitOf(events[0]), Carried(events[1..]);
      MoreIsCarried(got + one, events[1..]);
      ConcatAssoc(got, one, rest);
    }
  }

  lemma {:induction false} FillAll(r: Regs, events: seq<byte>, got: seq<bool>)
    requires Filled(r, got) && NoLatch(events) && |got| + |Carried(events)| <= 32
    ensures Filled(Run(r, events), More(got, events))
    decreases |events|
  {
    if events != [] {
      FillOne(r, events[0], got);
      FillAll(Clock(r, Inputs(false, events[0])), events[1..], got + BitOf(events[0]));
    }
  }

  lemma Fill(r: Regs, events: seq<byte>, got: seq<bool>)
    requires Filled(r, got) && NoLatch(events) && |got| + |Carried(events)| <= 32
    ensures Filled(Run(r, events), got + Carried(events))
  {
    FillAll(r, events, got);
    MoreIsCarried(got, events);
  }

  /** The state just after a latch event. */
  predicate JustLatched(r: Regs) { r.clear && r.pos == 31 }

  /** The first two events after a latch move the position, but what they carry is cleared. */
  lemma FirstTwo(r: Regs, a: byte, b: byte)
    requires JustLatched(r) && a != LATCH && b != LATCH
    ensures Filled(Clock(Clock(r, Inputs(false, a)), Inputs(false, b)), Zeros(|BitOf(a) + BitOf(b)|))
  {
    var n := |BitOf(a) + BitOf(b)|;
    assert Zeros(32) == Zeros(n) + Zeros(32 - n);
  }

  lemma {:induction false} CarriedConcat(a: seq<byte>, b: seq<byte>)
    ensures Carried(a + b) == Carried(a) + Carried(b)
    decreases |a|
  {
    if a == [] {
      assert a + b == b;
    } else {
      assert (a + b)[1..] == a[1..] + b;
      CarriedConcat(a[1..], b);
    }
  }

  /** The seconds a stretch of events leaves to be latched: its bits, but 0 for those among the
      first two events. */
  function Kept(events: seq<byte>): seq<bool>
    requires |events| >= 2
  {
    Zeros(|Carried(events[..2])|) + Carried(events[2..])
  }

  lemma TmpAfter(r: Regs, events: seq<byte>)
    requires JustLatched(r) && |events| >= 2 && NoLatch(events) && |Carried(events)| <= 32
    ensures Filled(Run(r, events), Kept(events)) && |Kept(events)| == |Carried(events)|
  {
    var a, b := events[0], events[1];
    var e := Clock(Clock(r, Inputs(false, a)), Inputs(false, b));
    assert events[..2] == [a, b] && events == [a, b] + events[2..];
    CarriedConcat([a, b], events[2..]);
    assert Carried([a, b]) == BitOf(a) + BitOf(b) by {
      assert [a, b][1..] == [b] && [b][1..] == [] && Carried([b]) == BitOf(b);
    }
    FirstTwo(r, a, b);
    Fill(e, events[2..], Zeros(|Carried([a, b])|));
    assert events[1..][0] == b && events[1..][1..] == events[2..];
  }

  /** What a latch event after `events` moves to the seconds register is what they carried
      exactly when the bits among the first two events are 0. */
  lemma LatchedSeconds(r: Regs, events: seq<byte>)
    requires JustLatched(r) && NoLatch(events) && |Carried(events)| == 32
    ensures |events| >= 2
    ensures var e := Run(r, events + [LATCH]);
      && JustLatched(e)
      && e.seconds == Kept(events)
      && (e.seconds == Carried(events) <==> ONE !in events[..2])
  {
    CarriedLength(events);
    TmpAfter(r, events);
    RunConcat(r, events, [LATCH]);
    var e := Run(r, events);
    assert Run(e, [LATCH]) == Clock(e, Inputs(false, LATCH)) by {
      assert [LATCH][1..] == [];
    }
    assert Kept(events) + Zeros(0) == Kept(events);
    LostBits(events);
  }

  lemma {:induction false} CarriedLength(events: seq<byte>)
    ensures |Carried(events)| <= |events|
    decreases |events|
  {
    if events != [] {
      CarriedLength(events[1..]);
    }
  }

  lemma FirstBits(events: seq<byte>)
    requires |events| >= 2
    ensures Carried(events[..2]) == BitOf(events[0]) + BitOf(events[1])
    ensures Carried(events) == Carried(events[..2]) + Carried(events[2..])
  {
    var first := events[..2];
    assert first[1..] == [events[1]] && [events[1]][1..] == [];
    assert Carried([events[1]]) == BitOf(events[1]);
    assert events == first + events[2..];
    CarriedConcat(first, events[2..]);
  }

  lemma ZeroBits(a: byte, b: byte)
    ensures BitOf(a) + BitOf(b) == Zeros(|BitOf(a) + BitOf(b)|) <==> a != ONE && b != ONE
  {
    var bits := BitOf(a) + BitOf(b);
    assert a == ONE ==> bits[0];
    assert b == ONE ==> bits[|bits| - 1];
  }

  lemma SamePrefix(a: seq<bool>, b: seq<bool>, c: seq<bool>)
    requires |a| == |b|
    ensures a + c == b + c <==> a == b
  {
    assert (a + c)[..|a|] == a && (b + c)[..|b|] == b;
  }

  lemma LostBits(events: seq<byte>)
    requires |events| >= 2
    ensures Kept(events) == Carried(events) <==> ONE !in events[..2]
  {
    var first := Carried(events[..2]);
    FirstBits(events);
    ZeroBits(events[0], events[1]);
    SamePrefix(Zeros(|first|), first, Carried(events[2..]));
    assert events[..2] == [events[0], events[1]];
  }

  // --- The encoder, and the round trip ---

  function FromNat(n: nat, width: nat): (bits: seq<bool>)
    ensures |bits| == width
  {
    if width == 0 then [] else FromNat(n / 2, width - 1) + [n % 2 == 1]
  }

  lemma {:induction false} NatRoundTrip(n: nat, width: nat)
    requires n < Pow2(width)
    ensures ToNat(FromNat(n, width)) == n
  {
    if width > 0 {
      NatRoundTrip(n / 2, width - 1);
      assert FromNat(n, width)[..width - 1] == FromNat(n / 2, width - 1);
    }
  }

  /** Events that mean nothing to the decoder. */
  predicate Idle(events: seq<byte>) {
    forall i :: 0 <= i < |events| ==> events[i] != 0x70 && events[i] != 0x71 && events[i] != 0x7D
  }

  /** The bits in order as events 0x71 and 0x70, with other events before, between and after them. */
  function Encode(bits: seq<bool>, gaps: seq<seq<byte>>): seq<byte>
    requires |gaps| == |bits| + 1
  {
    if bits == [] then gaps[0]
    else gaps[0] + [if bits[0] then 0x71 else 0x70] + Encode(bits[1..], gaps[1..])
  }

  lemma {:induction false} IdleCarriesNothing(events: seq<byte>)
    requires Idle(events)
    ensures Carried(events) == []
    decreases |events|
  {
    if events != [] {
      IdleCarriesNothing(events[1..]);
    }
  }

  lemma {:induction false} EncodeCarries(bits: seq<bool>, gaps: seq<seq<byte>>)
    requires |gaps| == |bits| + 1 && forall i :: 0 <= i < |gaps| ==> Idle(gaps[i])
    ensures Carried(Encode(bits, gaps)) == bits && NoLatch(Encode(bits, gaps))
    decreases |bits|
  {
    IdleCarriesNothing(gaps[0]);
    if bits != [] {
      var one: seq<byte> := [if bits[0] then 0x71 else 0x70];
      var rest := Encode(bits[1..], gaps[1..]);
      EncodeCarries(bits[1..], gaps[1..]);
      CarriedConcat(gaps[0], one + rest);
      assert gaps[0] + one + rest == gaps[0] + (one + rest);
      assert (one + rest)[1..] == rest;
      assert bits == [bits[0]] + bits[1..];
    }
  }

  /** Sent most significant bit first, with any other events between and the first bit not in
      the first two clocks after a latch, the next latch yields the number sent. */
  lemma DecodesEncoding(r: Regs, n: u32, gaps: seq<seq<byte>>)
    requires JustLatched(r)
    requires |gaps| == 33 && (forall i :: 0 <= i < |gaps| ==> Idle(gaps[i])) && |gaps[0]| >= 2
    ensures var e := Run(r, Encode(FromNat(n, 32), gaps) + [0x7D]);
      JustLatched(e) && ToNat(e.seconds) == n && e.offset == 0
  {
    var bits := FromNat(n, 32);
    var events := Encode(bits, gaps);
    EncodeCarries(bits, gaps);
    LatchedSeconds(r, events);
    RunConcat(r, events, [LATCH]);
    assert [LATCH][1..] == [];
    assert events[..2] == gaps[0][..2];
    Pow32();
    NatRoundTrip(n, 32);
  }

  lemma Pow32()
    ensures Pow2(32) == 0x1_0000_0000
  {
    assert Pow2(8) == 0x100;
    assert Pow2(16) == 0x1_0000;
    assert Pow2(24) == 0x100_0000;
  }

  // --- Timestamps ---

  datatype Time = Time(seconds: nat, offset: nat)

  predicate NotAfter(a: Time, b: Time) { a.seconds < b.seconds || (a.seconds == b.seconds && a.offset <= b.offset) }

  function Now(r: Regs): Time { Time(ToNat(r.seconds), r.offset) }

  function Stamp(r: Regs): Time { Time(ToNat(r.tsSeconds), r.tsOffset) }

  /** The timestamp put out is seconds and offset of one clock before. */
  lemma {:induction false} StampFollows(r: Regs, events: seq<byte>, last: byte)
    ensures Stamp(Run(r, events + [last])) == Now(Run(r, events))
  {
    RunConcat(r, events, [last]);
    assert [last][1..] == [];
  }

  lemma {:induction false} OffsetRuns(r: Regs, events: seq<byte>)
    requires NoLatch(events)
    ensures var e := Run(r, events);
      e.seconds == r.seconds && e.offset == (r.offset + |events|) % 0x1_0000_0000
    decreases |events|
  {
    if events != [] {
      OffsetRuns(Clock(r, Inputs(false, events[0])), events[1..]);
    }
  }

  /** A reset forgets the bits received and zeroes the timestamp: the next latch gives second 0. */
  lemma {:induction false} ResetStartsAtZero(r: Regs, event: byte, gap: seq<byte>, last: byte)
    requires Idle(gap)
    ensures var e := Clock(r, Inputs(true, event));
      Stamp(e) == Time(0, 0) && Stamp(Run(e, gap + [0x7D] + [last])) == Time(0, 0)
  {
    var e := Clock(r, Inputs(true, event));
    ZeroNumber();
    StaysZero(e, gap);
    RunConcat(e, gap, [0x7D]);
    assert [0x7D][1..] == [];
    StampFollows(e, gap + [0x7D], last);
  }

  lemma ZeroNumber()
    ensures ToNat(Zeros(32)) == 0
  {
    ToNatZeros(32);
  }

  lemma {:induction false} StaysZero(r: Regs, gap: seq<byte>)
    requires Idle(gap) && r.tmp == Zeros(32)
    ensures Run(r, gap).tmp == Zeros(32)
    decreases |gap|
  {
    if gap != [] {
      StaysZero(Clock(r, Inputs(false, gap[0])), gap[1..]);
    }
  }

  /** From any state and the events alone: after a latch, an encoded second with its latch, and any clocks
      without another, the timestamp put out is that second and the number of clocks since, but for
      the last. */
  lemma {:induction false} StampFromEvents(r: Regs, before: seq<byte>, n: u32, gaps: seq<seq<byte>>,
      tail: seq<byte>, last: byte)
    requires |gaps| == 33 && (forall i :: 0 <= i < |gaps| ==> Idle(gaps[i])) && |gaps[0]| >= 2
    requires 0x7D !in tail
    ensures var frame := Encode(FromNat(n, 32), gaps) + [0x7D];
      Stamp(Run(r, before + [0x7D] + frame + tail + [last])) == Time(n, |tail| % 0x1_0000_0000)
  {
    var head, frame := before + [0x7D], Encode(FromNat(n, 32), gaps) + [0x7D];
    var e := Run(r, head);
    RunConcat(r, before, [0x7D]);
    assert [0x7D][1..] == [];
    DecodesEncoding(e, n, gaps);
    RunConcat(r, head, frame);
    RunConcat(r, head + frame, tail);
    OffsetRuns(Run(e, frame), tail);
    StampFollows(r, head + frame + tail, last);
  }

  predicate NeverBack(r: Regs, events: seq<byte>)
    decreases |events|
  {
    events == [] ||
    var e := Clock(r, Inputs(false, events[0]));
    NotAfter(Now(r), Now(e)) && NotAfter(Stamp(r), Stamp(e)) && NeverBack(e, events[1..])
  }

  lemma {:induction false} NeverBackConcat(r: Regs, a: seq<byte>, b: seq<byte>)
    requires NeverBack(r, a) && NeverBack(Run(r, a), b)
    ensures NeverBack(r, a + b)
    decreases |a|
  {
    if a == [] {
      assert a + b == b;
    } else {
      assert (a + b)[1..] == a[1..] + b;
      NeverBackConcat(Clock(r, Inputs(false, a[0])), a[1..], b);
    }
  }

  /** Between latches the offset counts clocks. */
  lemma {:induction false} OffsetCounts(r: Regs, events: seq<byte>)
    requires NoLatch(events) && r.offset + |events| < 0x1_0000_0000
    requires NotAfter(Stamp(r), Now(r))
    ensures var e := Run(r, events);
      && e.seconds == r.seconds && e.offset == r.offset + |events|
      && NotAfter(Stamp(e), Now(e)) && NeverBack(r, events)
    decreases |events|
  {
    if events != [] {
      OffsetCounts(Clock(r, Inputs(false, events[0])), events[1..]);
    }
  }

  /** A second's worth of events: the 32 bits, the first not in the first two clocks, and no
      wrap of the offset counter before the next latch. */
  predicate Second(events: seq<byte>) {
    && NoLatch(events) && |Carried(events)| == 32 && |events| < 0x1_0000_0000
    && ONE !in events[..if |events| < 2 then |events| else 2]
  }

  function Sent(events: seq<byte>): nat { ToNat(Carried(events)) }

  predicate Rising(from: nat, frames: seq<seq<byte>>)
    decreases |frames|
  {
    frames == [] || (Second(frames[0]) && from < Sent(frames[0]) && Rising(Sent(frames[0]), frames[1..]))
  }

  /** Frames, each ended by a latch. */
  function Joined(frames: seq<seq<byte>>): seq<byte> {
    if frames == [] then [] else (frames[0] + [LATCH]) + Joined(frames[1..])
  }

  /** What holds of the receiver after each latch. */
  predicate Fresh(r: Regs) { JustLatched(r) && r.offset == 0 && NotAfter(Stamp(r), Now(r)) }

  lemma OneSecond(r: Regs, events: seq<byte>)
    requires Fresh(r)
    requires Second(events) && ToNat(r.seconds) < Sent(events)
    ensures var e := Run(r, events + [LATCH]);
      && Fresh(e) && ToNat(e.seconds) == Sent(events)
      && NeverBack(r, events + [LATCH])
  {
    CarriedLength(events);
    LatchedSeconds(r, events);
    OffsetCounts(r, events);
    var b := Run(r, events);
    RunConcat(r, events, [LATCH]);
    assert [LATCH][1..] == [];
    assert Run(b, [LATCH]) == Clock(b, Inputs(false, LATCH));
    assert NeverBack(b, [LATCH]);
    NeverBackConcat(r, events, [LATCH]);
  }

  /** While the encoded seconds rise and the offset does not wrap, the timestamp never goes back,
      and after each latch the seconds are those last sent. */
  lemma {:induction false} TimeNeverGoesBack(r: Regs, frames: seq<seq<byte>>)
    requires Fresh(r) && Rising(ToNat(r.seconds), frames)
    ensures NeverBack(r, Joined(frames))
    ensures frames != [] ==> Now(Run(r, Joined(frames))) == Time(Sent(frames[|frames| - 1]), 0)
    decreases |frames|
  {
    if frames != [] {
      var first, rest := frames[0] + [LATCH], frames[1..];
      var e := Run(r, first);
      OneSecond(r, frames[0]);
      TimeNeverGoesBack(e, rest);
      NeverBackConcat(r, first, Joined(rest));
      RunConcat(r, first, Joined(rest));
      if rest == [] {
        assert Run(e, Joined(rest)) == e;
      }
    }
  }
}
