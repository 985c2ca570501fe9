/** Offset, Q3.20 gain and saturation of the DAC set-point, src/hw/hdl/dac_gainoffset.vhd. */
module DacGainOffset {

  import opened Common

  /** Half and whole of the 20-bit range. */
  const HALF20 := 0x8_0000
  const FULL20 := 0x10_0000

  function Clamp(n: int, lo: int, hi: int): int { if n < lo then lo else if n > hi then hi else n }

  // --- The clocked process ---

  datatype Phase = Idle | ApplyOffsets | ApplyGains | Scale | CheckForSat | MultDly

  datatype Inputs = Inputs(reset: bool, trig: bool, wide: bool, raw: s20, offset: s20, gain: s24)

  datatype Regs = Regs(phase: Phase, oc: s20, product: int, setpt: s20, sat: bool, delay: nat, done: bool)

  /** One rising edge: every register takes its new value from the old ones. */
  function Clock(r: Regs, i: Inputs): Regs {
    if i.reset then r.(done := false) else
    match r.phase
    case Idle => r.(done := false, sat := false, phase := if i.trig then ApplyOffsets else Idle)
    case ApplyOffsets => r.(oc := Wrap20(i.raw - i.offset), phase := ApplyGains)
    case ApplyGains => r.(product := r.oc * i.gain, delay := 0, phase := Scale)
    case Scale => r.(setpt := Wrap20(r.product / FULL20), phase := CheckForSat)
    case CheckForSat =>
      var s := Saturate(r.setpt, r.oc, i.wide);
      r.(setpt := s.0, sat := r.sat || s.1, phase := MultDly)
    case MultDly =>
      if r.delay == 6 then r.(phase := Idle, done := true) else r.(delay := r.delay + 1)
  }

  /** The comparison in state CHECKFORSAT: the sign test of 20-bit mode, the range test
      of 18-bit mode. */
  function Saturate(setpt: s20, oc: s20, wide: bool): (s20, bool) {
    if wide then
      if setpt < 0 && oc >= 0 then (HALF20 - 1, true)
      else if setpt >= 0 && oc < 0 then (-HALF20, true)
      else (setpt, false)
    else
      if setpt > 131071 then (131071, true)
      else if setpt < -131072 then (-131072, true)
      else (setpt, false)
  }

  class GainOffset {
    var phase: Phase
    var oc: s20
    var product: int
    var setpt: s20
    var sat: bool
    var delay: nat
    var done: bool

    function Registers(): Regs
      reads this
    {
      Regs(phase, oc, product, setpt, sat, delay, done)
    }

    method Tick(i: Inputs)
      modifies this
      ensures Registers() == Clock(old(Registers()), i)
    {
      if i.reset {
        done := false;
        return;
      }
      match phase {
        case Idle =>
          done := false;
          sat := false;
          if i.trig {
            phase := ApplyOffsets;
          }
        case ApplyOffsets =>
          oc := Wrap20(i.raw - i.offset);
          phase := ApplyGains;
        case ApplyGains =>
          product := oc * i.gain;
          phase := Scale;
          delay := 0;
        case Scale =>
          setpt := Wrap20(product / FULL20);
          phase := CheckForSat;
        case CheckForSat =>
          if i.wide {
            if setpt < 0 && oc >= 0 {
              sat := true;
              setpt := HALF20 - 1;
            } else if setpt >= 0 && oc < 0 {
              sat := true;
              setpt := -HALF20;
            }
          } else {
            if setpt > 131071 {
              sat := true;
              setpt := 131071;
            } else if setpt < -131072 {
              sat := true;
              setpt := -131072;
            }
          }
          phase := MultDly;
        case MultDly =>
          if delay == 6 {
            phase := Idle;
            done := true;
          } else {
            delay := delay + 1;
          }
      }
    }
  }

  function Run(r: Regs, ins: seq<Inputs>): Regs
    decreases |ins|
  {
    if ins == [] then r else Run(Clock(r, ins[0]), ins[1..])
  }

  lemma {:induction false} Delay(r: Regs, ins: seq<Inputs>)
    requires r.phase.MultDly? && r.delay <= 6 && |ins| == 7 - r.delay
    requires forall k :: 0 <= k < |ins| ==> !ins[k].reset
    ensures Run(r, ins) == r.(phase := Idle, done := true, delay := 6)
    decreases |ins|
  {
    if r.delay < 6 {
      Delay(Clock(r, ins[0]), ins[1..]);
    } else {
      assert ins[1..] == [];
    }
  }

  /** What the stages compute from an offset-corrected value and a gain code. */
  function Stage(oc: s20, gain: s24, wide: bool): s20 {
    Saturate(Wrap20(oc * gain / FULL20), oc, wide).0
  }

  /** Whether they report saturation. */
  predicate Flagged(oc: s20, gain: s24, wide: bool) { Saturate(Wrap20(oc * gain / FULL20), oc, wide).1 }

  /** A conversion takes twelve clocks from its trigger, ends with `done` set and back in
      IDLE, and has put out the saturated product. */
  lemma Conversion(r: Regs, ins: seq<Inputs>)
    requires r.phase.Idle? && |ins| == 12 && ins[0].trig
    requires forall k :: 0 <= k < |ins| ==> !ins[k].reset
    ensures var e := Run(r, ins);
      && e.phase.Idle? && e.done
      && e.setpt == Stage(Wrap20(ins[1].raw - ins[1].offset), ins[2].gain, ins[4].wide)
      && e.sat == Flagged(Wrap20(ins[1].raw - ins[1].offset), ins[2].gain, ins[4].wide)
  {
    var r1 := Clock(r, ins[0]);
    var r2 := Clock(r1, ins[1]);
    var r3 := Clock(r2, ins[2]);
    var r4 := Clock(r3, ins[3]);
    var r5 := Clock(r4, ins[4]);
    assert ins[1..][1..] == ins[2..] && ins[2..][1..] == ins[3..] && ins[3..][1..] == ins[4..] && ins[4..][1..] == ins[5..];
    assert Run(r, ins) == Run(r1, ins[1..]) == Run(r2, ins[2..]) == Run(r3, ins[3..]) == Run(r4, ins[4..]);
    assert Run(r4, ins[4..]) == Run(r5, ins[5..]);
    Delay(r5, ins[5..]);
  }

  /** `done` is up for one clock: not before the conversion ends, and not after the next clock. */
  lemma {:induction false} DonePulse(r: Regs, ins: seq<Inputs>, k: nat)
    requires r.phase.Idle? && |ins| == 13 && ins[0].trig && 1 <= k <= 13
    requires forall j :: 0 <= j < |ins| ==> !ins[j].reset
    ensures Run(r, ins[..k]).done <==> k == 12
  {
    if k < 12 {
      NotDone(r, ins[..k]);
    } else {
      var a := ins[..12];
      Conversion(r, a);
      if k == 13 {
        assert ins[..13] == a + [ins[12]];
        RunSnoc(r, a, ins[12]);
      }
    }
  }

  lemma {:induction false} RunSnoc(r: Regs, a: seq<Inputs>, i: Inputs)
    ensures Run(r, a + [i]) == Clock(Run(r, a), i)
    decreases |a|
  {
    if a == [] {
      assert [i][1..] == [] && [] + [i] == [i];
    } else {
      assert (a + [i])[1..] == a[1..] + [i];
      RunSnoc(Clock(r, a[0]), a[1..], i);
    }
  }

  /** Clocks still to come until `done`. */
  function ToDone(r: Regs): int {
    match r.phase
    case Idle => 12
    case ApplyOffsets => 11
    case ApplyGains => 10
    case Scale => 9
    case CheckForSat => 8
    case MultDly => 7 - r.delay
  }

  lemma {:induction false} NotDone(r: Regs, ins: seq<Inputs>)
    requires 1 <= |ins| < ToDone(r) && (r.phase.Idle? ==> ins[0].trig) && (r.phase.Idle? || !r.done)
    requires r.phase.Scale? ==> r.delay == 0
    requires r.phase.CheckForSat? ==> r.delay == 0
    requires forall j :: 0 <= j < |ins| ==> !ins[j].reset
    ensures !Run(r, ins).done
    decreases |ins|
  {
    var e := Clock(r, ins[0]);
    if |ins| > 1 {
      NotDone(e, ins[1..]);
    } else {
      assert ins[1..] == [];
    }
  }

  function WithoutResets(ins: seq<Inputs>): seq<Inputs> {
    if ins == [] then [] else (if ins[0].reset then [] else [ins[0]]) + WithoutResets(ins[1..])
  }

  /** Equal but for `done`. */
  predicate Alike(r: Regs, q: Regs) { q == r.(done := q.done) }

  lemma StepIgnoresDone(r: Regs, q: Regs, i: Inputs)
    requires Alike(r, q) && !i.reset
    ensures Alike(Clock(r, i), Clock(q, i))
  {
  }

  lemma ResetTakesDone(r: Regs, q: Regs, i: Inputs)
    requires Alike(r, q) && i.reset
    ensures Alike(Clock(r, i), q) && !Clock(r, i).done
  {
  }

  /** A reset takes `done` down and does no more: it neither aborts nor changes a conversion. */
  lemma {:induction false} ResetPauses(r: Regs, q: Regs, ins: seq<Inputs>)
    requires Alike(r, q)
    ensures Alike(Run(r, ins), Run(q, WithoutResets(ins)))
    decreases |ins|
  {
    if ins != [] {
      var i, rest := ins[0], WithoutResets(ins[1..]);
      if i.reset {
        ResetTakesDone(r, q, i);
        ResetPauses(Clock(r, i), q, ins[1..]);
        assert WithoutResets(ins) == [] + rest == rest;
      } else {
        StepIgnoresDone(r, q, i);
        ResetPauses(Clock(r, i), Clock(q, i), ins[1..]);
        assert WithoutResets(ins) == [i] + rest && ([i] + rest)[1..] == rest;
        RunCons(q, i, rest);
      }
    }
  }

  lemma RunCons(r: Regs, i: Inputs, rest: seq<Inputs>)
    ensures Run(r, [i] + rest) == Run(Clock(r, i), rest)
  {
    assert ([i] + rest)[1..] == rest;
  }

  // --- Against the ideal clamp ---

  /** What the block is for: the exact product of offset-corrected set-point and gain, clamped to the
      DAC's range. */
  function Ideal(d: int, gain: s24, wide: bool): int {
    if wide then Clamp(d * gain / 0x10_0000, -524288, 524287)
    else Clamp(d * gain / 0x10_0000, -131072, 131071)
  }

  /** The block's output for a raw set-point is the ideal one. */
  predicate RightFor(raw: s20, offset: s20, gain: s24, wide: bool) {
    Stage(Wrap20(raw - offset), gain, wide) == Ideal(raw - offset, gain, wide)
  }

  /** Truncating a scaled product that fits 20 bits changes nothing; one turn outside, it
      comes back shifted by 2^20. */
  lemma WrapOnce(v: int)
    requires -FULL20 - HALF20 <= v < FULL20 + HALF20
    ensures Wrap20(v) == if v < -HALF20 then v + FULL20 else if v >= HALF20 then v - FULL20 else v
  {
    if v < -HALF20 {
      assert (v + HALF20 + FULL20) % FULL20 == v + HALF20 + FULL20;
      assert (v + HALF20) % FULL20 == (v + HALF20 + FULL20) % FULL20;
    } else if v >= HALF20 {
      assert (v + HALF20 - FULL20) % FULL20 == v + HALF20 - FULL20;
      assert (v + HALF20) % FULL20 == (v + HALF20 - FULL20) % FULL20;
    }
  }

  lemma DivBounds(p: int, lo: int, hi: int)
    requires lo * FULL20 <= p < hi * FULL20
    ensures lo <= p / FULL20 < hi
  {
  }

  lemma MulLe(a: int, b: int, g: nat)
    ensures a <= b ==> a * g <= b * g
  {
    if a <= b {
      assert b * g - a * g == (b - a) * g;
    }
  }

  lemma ProductBounds(oc: s20, g: nat)
    ensures oc >= 0 ==> 0 <= oc * g <= (HALF20 - 1) * g
    ensures oc < 0 ==> -HALF20 * g <= oc * g && oc * g + g <= 0
  {
    MulLe(0, oc, g);
    MulLe(oc, HALF20 - 1, g);
    MulLe(-HALF20, oc, g);
    MulLe(oc, -1, g);
  }

  lemma WideExactAt(oc: s20, gain: s24)
    requires 0 < gain <= 0x20_0000
    ensures Stage(oc, gain, true) == Ideal(oc, gain, true)
  {
    var p := oc * gain;
    ProductBounds(oc, gain);
    if oc >= 0 {
      DivBounds(p, 0, FULL20);
    } else {
      DivBounds(p, -FULL20, 0);
    }
    WrapOnce(p / FULL20);
  }

  /** When the product stays within 39 bits, 18-bit mode is the ideal clamp. */
  lemma NarrowExactAt(oc: s20, gain: s24)
    requires -HALF20 * FULL20 <= oc * gain < HALF20 * FULL20
    ensures Stage(oc, gain, false) == Ideal(oc, gain, false)
  {
    DivBounds(oc * gain, -HALF20, HALF20);
    WrapOnce(oc * gain / FULL20);
  }

  /** With such a gain saturation is reported exactly when the exact product lies outside the range. */
  lemma WideFlagExact(oc: s20, gain: s24)
    requires 0 < gain <= 0x20_0000
    ensures Flagged(oc, gain, true) <==> !(-0x8_0000 <= oc * gain / 0x10_0000 < 0x8_0000)
  {
    var p := oc * gain;
    ProductBounds(oc, gain);
    if oc >= 0 {
      DivBounds(p, 0, FULL20);
    } else {
      DivBounds(p, -FULL20, 0);
    }
    WrapOnce(p / FULL20);
  }

  lemma NarrowFlagExact(oc: s20, gain: s24)
    requires -0x10_0000 < gain <= 0x10_0000
    ensures Flagged(oc, gain, false) <==> !(-0x2_0000 <= oc * gain / 0x10_0000 < 0x2_0000)
  {
    NarrowProduct(oc, gain);
    DivBounds(oc * gain, -HALF20, HALF20);
    WrapOnce(oc * gain / FULL20);
  }

  /** The smallest magnitude whose product with g goes below -limit. */
  lemma Overshoot(limit: nat, g: int) returns (k: int)
    requires 0 < g && 0 < limit
    ensures k == limit / g + 1 && limit < k * g <= limit + g
  {
    k := limit / g + 1;
    assert limit == limit / g * g + limit % g;
    assert k * g == limit / g * g + g;
  }

  lemma SmallQuotient(limit: nat, g: int, k: int)
    requires 0 < g && k == limit / g + 1 && limit < HALF20 * g
    ensures 0 < k <= HALF20
  {
    assert limit == limit / g * g + limit % g;
    MulLe(HALF20, limit / g, g);
  }

  lemma WideFailsAt(gain: s24) returns (oc: s20)
    requires gain <= 0 || gain > 0x20_0000
    ensures Stage(oc, gain, true) != Ideal(oc, gain, true)
  {
    if gain <= 0 {
      oc := -1;
      var g: int := gain;
      assert oc * g == -g;
      DivBounds(-g, 0, 9);
      WrapOnce(-g / FULL20);
    } else {
      // the product falls just below -2^40, so its truncation reads as a small negative number
      var k := Overshoot(FULL20 * FULL20, gain);
      SmallQuotient(FULL20 * FULL20, gain, k);
      oc := -k;
      assert oc * gain == -(k * gain);
      DivBounds(oc * gain, -FULL20 - 8, -FULL20);
      WrapOnce(oc * gain / FULL20);
    }
  }

  lemma NarrowFailsAt(gain: s24) returns (oc: s20)
    requires gain <= -FULL20 || gain > FULL20
    ensures oc < 0 && Stage(oc, gain, false) != Ideal(oc, gain, false)
  {
    var signed: int := gain;
    var g := if signed < 0 then -signed else signed;
    if gain > 0 {
      var k := Overshoot(HALF20 * FULL20, g);
      SmallQuotient(HALF20 * FULL20, g, k);
      oc := -k;
      assert oc * gain == -(k * g);
      DivBounds(oc * gain, -HALF20 - 8, -HALF20);
    } else {
      var k := Overshoot(HALF20 * FULL20 - 1, g);
      SmallQuotient(HALF20 * FULL20 - 1, g, k);
      oc := -k;
      assert oc * gain == k * g;
      DivBounds(oc * gain, HALF20, HALF20 + 9);
    }
    WrapOnce(oc * gain / FULL20);
  }

  /** Three codes further out a positive set-point fails as well. */
  lemma NarrowFailsHigh(gain: s24) returns (oc: s20)
    requires gain <= -FULL20 - 3 || gain >= FULL20 + 3
    ensures oc > 0 && Stage(oc, gain, false) != Ideal(oc, gain, false)
  {
    var signed: int := gain;
    var g := if signed < 0 then -signed else signed;
    MulLe(FULL20 + 3, g, HALF20 - 1);
    if gain > 0 {
      var k := Overshoot(HALF20 * FULL20 - 1, g);
      FitsBelow(HALF20 * FULL20 - 1, g, k);
      oc := k;
      DivBounds(oc * gain, HALF20, HALF20 + 9);
    } else {
      var k := Overshoot(HALF20 * FULL20, g);
      FitsBelow(HALF20 * FULL20, g, k);
      oc := k;
      assert oc * gain == -(k * g);
      DivBounds(oc * gain, -HALF20 - 9, -HALF20);
    }
    WrapOnce(oc * gain / FULL20);
  }

  lemma FitsBelow(limit: nat, g: int, k: int)
    requires 0 < g && k == limit / g + 1 && limit < (HALF20 - 1) * g
    ensures 0 < k < HALF20
  {
    assert limit == limit / g * g + limit % g;
    MulLe(HALF20 - 1, limit / g, g);
  }

  lemma NarrowProduct(oc: s20, gain: s24)
    requires -FULL20 < gain <= FULL20
    ensures -HALF20 * FULL20 <= oc * gain < HALF20 * FULL20
  {
    if gain >= 0 {
      ProductBounds(oc, gain);
    } else {
      var g: int := gain;
      ProductBounds(oc, -g);
      assert oc * g == -(oc * -g);
    }
  }

  // --- From the raw set-point ---

  /** The raw set-point minus the offset, which the subtraction cuts to 20 bits. */
  predicate InRange(raw: s20, offset: s20) { -HALF20 <= raw - offset < HALF20 }

  lemma WrapDifference(raw: s20, offset: s20)
    ensures var d: int := raw - offset;
      Wrap20(d) == if InRange(raw, offset) then d else if d > 0 then d - FULL20 else d + FULL20
  {
    WrapOnce(raw - offset);
  }

  /** In 20-bit mode the output never has the sign opposite to the corrected set-point's. */
  lemma WideSign(oc: s20, gain: s24)
    ensures Stage(oc, gain, true) >= 0 <==> oc >= 0
  {
  }

  lemma FloorSign(d: int, gain: int)
    ensures (d > 0 && gain > 0) || (d < 0 && gain < 0) || d == 0 || gain == 0 ==> d * gain / FULL20 >= 0
    ensures (d > 0 && gain < 0) || (d < 0 && gain > 0) ==> d * gain / FULL20 < 0
  {
    var p := d * gain;
    assert (d > 0 && gain > 0) || (d < 0 && gain < 0) || d == 0 || gain == 0 ==> p >= 0;
    assert (d > 0 && gain < 0) || (d < 0 && gain > 0) ==> p < 0;
  }

  /** With a gain that saturates right, a set-point comes out right if and only if its difference to
      the offset fits 20 bits. */
  lemma WideRightFor(raw: s20, offset: s20, gain: s24)
    requires 0 < gain <= 0x20_0000
    ensures RightFor(raw, offset, gain, true) <==> InRange(raw, offset)
  {
    var d: int := raw - offset;
    WrapDifference(raw, offset);
    WideExactAt(Wrap20(d), gain);
    WideSign(Wrap20(d), gain);
    FloorSign(d, gain);
  }

  lemma NarrowSign(oc: s20, gain: s24)
    requires -FULL20 < gain <= FULL20
    ensures Stage(oc, gain, false) == Ideal(oc, gain, false)
    ensures (oc > 0 && gain > 0) || (oc < 0 && gain < 0) ==> Stage(oc, gain, false) >= 0
    ensures (oc > 0 && gain < 0) || (oc < 0 && gain > 0) ==> Stage(oc, gain, false) < 0
  {
    NarrowProduct(oc, gain);
    NarrowExactAt(oc, gain);
    FloorSign(oc, gain);
  }

  lemma NarrowRightFor(raw: s20, offset: s20, gain: s24)
    requires -FULL20 < gain <= FULL20
    ensures RightFor(raw, offset, gain, false) <==> gain == 0 || InRange(raw, offset)
  {
    var d: int := raw - offset;
    WrapDifference(raw, offset);
    NarrowSign(Wrap20(d), gain);
    FloorSign(d, gain);
  }

  /** The largest set-point with an offset of -1 comes out as the smallest, and not as saturated. */
  lemma FullScaleFlips()
    ensures Stage(Wrap20(524287 - -1), 0x10_0000, true) == -524288
    ensures Ideal(524287 - -1, 0x10_0000, true) == 524287
    ensures !Saturate(Wrap20(Wrap20(524287 - -1) * 0x10_0000 / FULL20), Wrap20(524287 - -1), true).1
  {
  }

  /** With an offset a set-point at one end of the range wraps to the other. */
  lemma OffsetFlips(offset: s20, gain: s24) returns (raw: s20)
    requires offset != 0 && gain > 0
    ensures !RightFor(raw, offset, gain, true)
  {
    raw := if offset < 0 then HALF20 + offset else -HALF20 - 1 + offset;
    WrapDifference(raw, offset);
    WideSign(Wrap20(raw - offset), gain);
    FloorSign(raw - offset, gain);
  }

  lemma NegativeGainFails(offset: s20, gain: s24) returns (raw: s20)
    requires gain <= 0
    ensures !RightFor(raw, offset, gain, true)
  {
    if offset > -HALF20 {
      raw := offset - 1;
    } else if gain < 0 {
      raw := offset + 1;
    } else {
      raw := HALF20 - 1;
    }
    WrapDifference(raw, offset);
    WideSign(Wrap20(raw - offset), gain);
    FloorSign(raw - offset, gain);
  }

  /** In 20-bit mode every set-point comes out right if and only if there is no offset and the gain
      code is positive and at most 2^21, a gain of 2. */
  lemma WideGainExact(offset: s20, gain: s24)
    ensures (forall raw: s20 :: RightFor(raw, offset, gain, true)) <==> offset == 0 && 0 < gain <= 0x20_0000
  {
    if offset == 0 && 0 < gain <= 0x20_0000 {
      forall raw: s20
        ensures RightFor(raw, offset, gain, true)
      {
        WideRightFor(raw, offset, gain);
      }
    } else if gain <= 0 {
      var raw := NegativeGainFails(offset, gain);
    } else if offset != 0 {
      var raw := OffsetFlips(offset, gain);
    } else {
      var raw := WideFailsAt(gain);
      WrapDifference(raw, offset);
      assert !RightFor(raw, offset, gain, true);
    }
  }

  /** The gain codes just outside the range that fail for the smallest corrected set-point only. */
  predicate EdgeGain(gain: s24) { -FULL20 - 2 <= gain <= -FULL20 || FULL20 < gain <= FULL20 + 2 }

  lemma EdgeBound(d: int, g: nat)
    requires -HALF20 < d < HALF20 && g <= FULL20 + 2
    ensures -HALF20 * FULL20 < d * g < HALF20 * FULL20
  {
    MulLe(d, HALF20 - 1, g);
    MulLe(-HALF20 + 1, d, g);
  }

  lemma EdgeProduct(d: int, gain: int)
    requires -HALF20 < d < HALF20 && -FULL20 - 2 <= gain <= FULL20 + 2
    ensures -HALF20 * FULL20 < d * gain < HALF20 * FULL20
  {
    if gain < 0 {
      EdgeBound(d, -gain);
      assert d * gain == -(d * -gain);
    } else {
      EdgeBound(d, gain);
    }
  }

  /** One past the largest set-point the subtraction wraps, and at these gains the product wraps back. */
  lemma EdgeRight(raw: s20, gain: s24)
    requires EdgeGain(gain)
    ensures RightFor(raw, -1, gain, false)
  {
    var d: int := raw + 1;
    WrapDifference(raw, -1);
    if d == HALF20 {
      EdgeWraps(gain);
    } else {
      EdgeProduct(d, gain);
      NarrowExactAt(d, gain);
    }
  }

  lemma EdgeWraps(gain: s24)
    requires EdgeGain(gain)
    ensures Stage(-HALF20, gain, false) == Ideal(HALF20, gain, false)
  {
    if gain > 0 {
      DivBounds(-HALF20 * gain, -HALF20 - 1, -HALF20);
      DivBounds(HALF20 * gain, HALF20, HALF20 + 2);
    } else {
      DivBounds(-HALF20 * gain, HALF20, HALF20 + 2);
      DivBounds(HALF20 * gain, -HALF20 - 1, -HALF20 + 1);
    }
    WrapOnce(-HALF20 * gain / FULL20);
  }

  /** Two past the largest set-point it no longer does. */
  lemma EdgeFails(gain: s24)
    requires EdgeGain(gain)
    ensures Stage(-HALF20 + 1, gain, false) != Ideal(HALF20 + 1, gain, false)
  {
    if gain > 0 {
      DivBounds((-HALF20 + 1) * gain, -HALF20, -HALF20 + 2);
      DivBounds((HALF20 + 1) * gain, HALF20, HALF20 + 4);
    } else {
      DivBounds((-HALF20 + 1) * gain, HALF20 - 2, HALF20);
      DivBounds((HALF20 + 1) * gain, -HALF20 - 4, -HALF20);
    }
    WrapOnce((-HALF20 + 1) * gain / FULL20);
  }

  /** The gains with which every set-point comes out right in 18-bit mode at a given offset. */
  predicate NarrowGain(offset: s20, gain: s24) {
    || gain == 0
    || (offset == 0 && -FULL20 < gain <= FULL20)
    || (offset == -1 && EdgeGain(gain))
  }

  lemma NarrowGainFails(offset: s20, gain: s24) returns (raw: s20)
    requires !NarrowGain(offset, gain)
    ensures !RightFor(raw, offset, gain, false)
  {
    if -FULL20 < gain <= FULL20 {
      raw := if offset < 0 then HALF20 + offset else -HALF20 - 1 + offset;
      NarrowRightFor(raw, offset, gain);
    } else if offset >= 0 {
      var oc := NarrowFailsAt(gain);
      raw := offset + oc;
      WrapDifference(raw, offset);
    } else if EdgeGain(gain) {
      raw := HALF20 + 1 + offset;
      WrapDifference(raw, offset);
      EdgeFails(gain);
    } else {
      var oc := NarrowFailsHigh(gain);
      raw := offset + oc;
      WrapDifference(raw, offset);
    }
  }

  /** In 18-bit mode every set-point comes out right if and only if the gain code is 0, or there is no
      offset and the code is above -2^20 and at most 2^20, or the offset is -1 and the code at most
      two outside that range. */
  lemma NarrowGainExact(offset: s20, gain: s24)
    ensures (forall raw: s20 :: RightFor(raw, offset, gain, false)) <==> NarrowGain(offset, gain)
  {
    if NarrowGain(offset, gain) {
      forall raw: s20
        ensures RightFor(raw, offset, gain, false)
      {
        if offset == -1 && EdgeGain(gain) {
          EdgeRight(raw, gain);
        } else {
          NarrowRightFor(raw, offset, gain);
        }
      }
    } else {
      var raw := NarrowGainFails(offset, gain);
    }
  }
}
