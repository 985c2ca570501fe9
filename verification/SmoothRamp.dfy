/** The raised-cosine ramp of src/hw/hdl/smooth_ramp.vhd and the phase increment that
    Calc_WriteSmooth in src/sw/src/control.c computes for it. */
module SmoothRamp {
  import opened Common

  const P := 421657300          // POS_PI and CORDIC_INIT_PHASE
  const ONE := 0x10_0000        // 1.0 with 20 fractional bits

  type s32 = n: int | -0x8000_0000 <= n < 0x8000_0000

  /** What the CORDIC delivers for a cosine. */
  type Cosine = n: int | -ONE <= n <= ONE

  function Wrap24(n: int): s24 { (n + 0x80_0000) % 0x100_0000 - 0x80_0000 }

  function Wrap32(n: int): s32 { (n + 0x8000_0000) % 0x1_0000_0000 - 0x8000_0000 }

  // --- The clocked process ---

  datatype Inputs = Inputs(reset: bool, trig: bool, cur: s20, target: s20, inc: s32, cos: Cosine)

  datatype Regs = Regs(
    running: bool,       // state RUN_RAMP
    phase: s32,
    phaseOut: s24,
    lastPoint: bool,
    active: bool,
    prevTarget: s20,
    start: s20,          // old_setpt
    raised: s24,
    scaled: int,         // rampout_wdiff
    sum: s24,            // rampout_fp
    out: s20)

  /** (cos + 1) / 2, the sum kept in 24 bits and shifted logically. */
  function Raise(cos: Cosine): s24 { (cos + ONE) % 0x100_0000 / 2 }

  function Product(start: s20, target: s20, raised: int): int { (target - start) * raised }

  /** old_setpt plus bits 43 down to 20 of the product, kept in 24 bits. */
  function Sum(start: s20, scaled: int): s24 { Wrap24(start + Wrap24(scaled / ONE)) }

  /** One rising edge: every register takes its new value from the old ones. */
  function Clock(r: Regs, i: Inputs): Regs {
    if i.reset then
      Regs(false, -P, -P / 256, false, false, 0, r.start, 0, 0, 0, 0)
    else if !r.running then
      if r.prevTarget != i.target then
        r.(running := true, phase := -P, phaseOut := -P / 256, lastPoint := false, active := true,
           prevTarget := i.target, start := i.cur)
      else r.(lastPoint := false, active := false)
    else if !i.trig then r
    else
      var p := r.(raised := Raise(i.cos),
                  scaled := Product(r.start, i.target, r.raised),
                  sum := Sum(r.start, r.scaled),
                  out := Wrap20(r.sum),
                  running := !r.lastPoint);
      if r.phase > 0 then p.(phase := 0, lastPoint := true)
      else p.(phase := Wrap32(r.phase + i.inc), phaseOut := r.phase / 256)
  }

  class Ramp {
    var running: bool
    var phase: s32
    var phaseOut: s24
    var lastPoint: bool
    var active: bool
    var prevTarget: s20
    var start: s20
    var raised: s24
    var scaled: int
    var sum: s24
    var out: s20

    function Registers(): Regs
      reads this
    {
      Regs(running, phase, phaseOut, lastPoint, active, prevTarget, start, raised, scaled, sum, out)
    }

    method Tick(i: Inputs)
      modifies this
      ensures Registers() == Clock(old(Registers()), i)
    {
      if i.reset {
        running, phase, phaseOut, lastPoint, active := false, -P, -P / 256, false, false;
        prevTarget, raised, scaled, sum, out := 0, 0, 0, 0, 0;
      } else if !running {
        lastPoint := false;
        active := false;
        if prevTarget != i.target {
          start := i.cur;
          running := true;
          phase := -P;
          phaseOut := -P / 256;
          active := true;
        }
        prevTarget := i.target;
      } else if i.trig {
        raised, scaled, sum, out :=
          Raise(i.cos), Product(start, i.target, raised), Sum(start, scaled), Wrap20(sum);
        if lastPoint {
          running := false;
        }
        if phase > 0 {
          phase := 0;
          lastPoint := true;
        } else {
          phase, phaseOut := Wrap32(phase + i.inc), phase / 256;
        }
      }
    }
  }

  function Run(r: Regs, ins: seq<Inputs>): Regs
    decreases |ins|
  {
    if ins == [] then r else Run(Clock(r, ins[0]), ins[1..])
  }

  /** No reset and a target that stays what the ramp was started for. */
  predicate Steady(r: Regs, ins: seq<Inputs>) {
    forall k :: 0 <= k < |ins| ==> !ins[k].reset && ins[k].target == r.prevTarget
  }

  /** The state in which a ramp begins. */
  predicate Begun(r: Regs) { r.running && r.phase == -P && !r.lastPoint && 0 <= r.raised <= ONE }

  lemma RaiseBounds(cos: Cosine)
    ensures 0 <= Raise(cos) <= ONE
  {
  }

  /** A new target starts a ramp from the current set-point; `raised` is always a number
      from 0 to 1. */
  lemma RampBegins(r: Regs, i: Inputs)
    requires 0 <= r.raised <= ONE
    ensures 0 <= Clock(r, i).raised <= ONE
    ensures !i.reset && !r.running ==>
      (Begun(Clock(r, i)) <==> i.target != r.prevTarget)
      && Clock(r, i).prevTarget == i.target
      && (Clock(r, i).active <==> i.target != r.prevTarget)
      && (i.target != r.prevTarget ==> Clock(r, i).start == i.cur && Clock(r, i).phaseOut == -P / 256)
  {
    RaiseBounds(i.cos);
  }

  /** After a reset, with the target at 0, no ramp begins and the output stays 0. */
  lemma {:induction false} ResetRests(r: Regs, i: Inputs, ins: seq<Inputs>)
    requires i.reset && forall k :: 0 <= k < |ins| ==> ins[k].target == 0
    ensures var e := Run(Clock(r, i), ins);
      !e.running && e.out == 0 && e.prevTarget == 0 && 0 <= e.raised <= ONE && !e.active
    decreases |ins|
  {
    if ins != [] {
      var e := Clock(r, i);
      if ins[0].reset {
        ResetRests(e, ins[0], ins[1..]);
      } else {
        assert Clock(e, ins[0]) == e;
        ResetRests(r, i, ins[1..]);
      }
    }
  }

  // --- How long a ramp takes ---

  function Ticks(ins: seq<Inputs>): nat {
    if ins == [] then 0 else (if ins[0].trig then 1 else 0) + Ticks(ins[1..])
  }

  /** The ticks a ramp has left. */
  function Left(r: Regs, inc: s32): nat
    requires inc > 0
  {
    if !r.running then 0 else if r.lastPoint then 1 else LeftAt(r.phase, inc)
  }

  function LeftAt(phase: int, inc: s32): nat
    requires inc > 0
  {
    if phase > 0 then 2 else -phase / inc + 3
  }

  lemma MulMono(a: nat, b: nat, c: nat)
    ensures a <= b ==> a * c <= b * c && c * a <= c * b
  {
    if a <= b {
      assert b * c - a * c == (b - a) * c;
    }
  }

  /** Bounds on a quotient from a product. */
  lemma DivBound(n: nat, d: nat, q: nat)
    requires d > 0
    ensures q * d <= n <==> q <= n / d
  {
    var e := n / d;
    assert n == e * d + n % d;
    MulMono(q, e, d);
    MulMono(e + 1, q, d);
    assert (e + 1) * d == e * d + d;
  }

  lemma DivUnique(n: nat, d: nat, q: nat, rem: nat)
    requires n == q * d + rem && rem < d
    ensures n / d == q
  {
    DivBound(n, d, q);
    DivBound(n, d, q + 1);
    assert (q + 1) * d == q * d + d;
  }

  lemma LeftStep(phase: int, inc: s32)
    requires phase <= 0 < inc
    ensures LeftAt(phase + inc, inc) == LeftAt(phase, inc) - 1
  {
    var q := -phase / inc;
    assert -phase == q * inc + -phase % inc;
    if phase + inc > 0 {
      DivUnique(-phase, inc, 0, -phase);
    } else {
      DivBound(-phase, inc, 1);
      assert (q - 1) * inc == q * inc - inc;
      DivUnique(-phase - inc, inc, q - 1, -phase % inc);
    }
  }

  lemma WrapFits(n: int)
    requires -0x8000_0000 <= n < 0x8000_0000
    ensures Wrap32(n) == n
  {
  }

  lemma TickCountsDown(r: Regs, i: Inputs)
    requires !i.reset && i.target == r.prevTarget && i.inc > 0
    requires r.running && (r.lastPoint ==> r.phase <= 0)
    ensures var e := Clock(r, i);
      && Left(e, i.inc) == Left(r, i.inc) - (if i.trig then 1 else 0)
      && e.prevTarget == r.prevTarget && (e.running && e.lastPoint ==> e.phase <= 0)
  {
    if r.phase <= 0 {
      LeftStep(r.phase, i.inc);
      WrapFits(r.phase + i.inc);
    }
  }

  lemma {:induction false} CountdownIdle(r: Regs, ins: seq<Inputs>)
    requires Steady(r, ins) && !r.running
    ensures !Run(r, ins).running
    decreases |ins|
  {
    if ins != [] {
      CountdownIdle(Clock(r, ins[0]), ins[1..]);
    }
  }

  lemma {:induction false} Countdown(r: Regs, ins: seq<Inputs>, inc: s32)
    requires inc > 0 && Steady(r, ins) && (r.running && r.lastPoint ==> r.phase <= 0)
    requires forall k :: 0 <= k < |ins| ==> ins[k].inc == inc
    ensures Run(r, ins).running <==> Ticks(ins) < Left(r, inc)
    decreases |ins|
  {
    if ins != [] {
      if r.running {
        TickCountsDown(r, ins[0]);
        Countdown(Clock(r, ins[0]), ins[1..], inc);
      } else {
        CountdownIdle(r, ins);
      }
    }
  }

  /** A ramp with a positive increment is back in IDLE after exactly P div inc + 3 ticks
      of the 10 kHz trigger, however many clocks lie between them. */
  lemma RampLength(r: Regs, ins: seq<Inputs>, inc: s32)
    requires Begun(r) && inc > 0 && Steady(r, ins)
    requires forall k :: 0 <= k < |ins| ==> ins[k].inc == inc
    ensures Run(r, ins).running <==> Ticks(ins) < P / inc + 3
  {
    Countdown(r, ins, inc);
  }

  /** With increment 0 it never ends. */
  lemma {:induction false} ZeroIncrementNeverEnds(r: Regs, ins: seq<Inputs>)
    requires r.running && r.phase <= 0 && !r.lastPoint && Steady(r, ins)
    requires forall k :: 0 <= k < |ins| ==> ins[k].inc == 0
    ensures Run(r, ins).running
    decreases |ins|
  {
    if ins != [] {
      ZeroIncrementNeverEnds(Clock(r, ins[0]), ins[1..]);
    }
  }

  // --- The angle for the CORDIC ---

  /** How many ticks see a phase up to 0, but for the first. */
  function Steps(inc: int): nat
    requires inc > 0
  {
    P / inc
  }

  function PhaseAfter(k: nat, inc: int): int { -P + k * inc }

  /** The angle put out after k ticks: from -pi on in steps of inc, each tick the phase before it; the last
      angle not above 0 is held for one tick, and the last tick puts out 0. */
  function Angle(k: nat, inc: int): int
    requires inc > 0
  {
    if k == 0 then -P / 256
    else if k <= Steps(inc) + 2 then PhaseAfter(Min(k - 1, Steps(inc)), inc) / 256
    else 0
  }

  /** The ramp after k of its ticks. */
  predicate Swept(r: Regs, k: nat, inc: int)
    requires inc > 0
  {
    && (r.running ==> r.active)
    && r.phaseOut == Angle(k, inc)
    && (k <= Steps(inc) + 1 ==> r.running && !r.lastPoint && r.phase == PhaseAfter(k, inc))
    && (k == Steps(inc) + 2 ==> r.running && r.lastPoint && r.phase == 0)
    && (k > Steps(inc) + 2 ==> !r.running)
  }

  lemma PhaseSign(k: nat, inc: int)
    requires inc > 0
    ensures PhaseAfter(k + 1, inc) == PhaseAfter(k, inc) + inc
    ensures PhaseAfter(k, inc) <= 0 <==> k <= Steps(inc)
    ensures PhaseAfter(k, inc) >= -P
  {
    DivBound(P, inc, k);
  }

  lemma SweptTick(r: Regs, i: Inputs, k: nat)
    requires !i.reset && i.target == r.prevTarget && i.inc > 0 && i.trig && Swept(r, k, i.inc)
    ensures Swept(Clock(r, i), k + 1, i.inc)
  {
    PhaseSign(k, i.inc);
    if k <= Steps(i.inc) {
      WrapFits(r.phase + i.inc);
    }
  }

  /** Over a whole ramp, and after it, the angle put out is told by the number of ticks. */
  lemma {:induction false} AngleSweeps(r: Regs, ins: seq<Inputs>, inc: s32, k: nat)
    requires inc > 0 && Steady(r, ins) && Swept(r, k, inc)
    requires forall j :: 0 <= j < |ins| ==> ins[j].inc == inc
    ensures Swept(Run(r, ins), k + Ticks(ins), inc)
    decreases |ins|
  {
    if ins != [] {
      var e := Clock(r, ins[0]);
      if ins[0].trig {
        SweptTick(r, ins[0], k);
      }
      AngleSweeps(e, ins[1..], inc, if ins[0].trig then k + 1 else k);
    }
  }

  /** From its begin a ramp puts out the angle of each tick. */
  lemma {:induction false} RampAngles(r: Regs, ins: seq<Inputs>, inc: s32)
    requires Begun(r) && r.phaseOut == -P / 256 && r.active && inc > 0 && Steady(r, ins)
    requires forall j :: 0 <= j < |ins| ==> ins[j].inc == inc
    ensures Run(r, ins).phaseOut == Angle(Ticks(ins), inc)
    ensures Run(r, ins).running ==> Run(r, ins).active
  {
    AngleSweeps(r, ins, inc, 0);
  }

  // --- Calc_WriteSmooth ---

  /** Rounding a natural number to the 24-bit mantissa of a C float, halves to even. */
  function Unit(n: nat): (u: nat)
    ensures u > 0
  {
    if n < 0x100_0000 then 1 else 2 * Unit(n / 2)
  }

  function Round(q: int, rem: int, u: nat): int {
    if 2 * rem < u || (2 * rem == u && q % 2 == 0) then q * u else (q + 1) * u
  }

  function ToFloat(n: nat): int {
    var u := Unit(n);
    var q, rem := n / u, n % u;
    Round(q, rem, u)
  }

  const SAMPLERATE := 10000.0

  /** How many samples a change of set-point takes at `rate` bits a second, before it is cut to an
      integer. */
  function Duration(cur: int, target: s20, rate: real): real
    requires rate > 0.0
  {
    (if target < cur then cur - target else target - cur) as real / rate * SAMPLERATE
  }

  /** C defines the division by the sample count, and the count itself, only then. */
  predicate Defined(cur: int, target: s20, rate: real) {
    rate > 0.0 && 0 < Duration(cur, target, rate).Floor < 0x1_0000_0000
  }

  /** That is so if and only if the change lasts at least one sample, and less than 2^32. */
  lemma DefinedIff(cur: int, target: s20, rate: real)
    ensures var bits := (if target < cur then cur - target else target - cur) as real;
      Defined(cur, target, rate) <==> rate > 0.0 && rate <= bits * 10000.0 < rate * 4294967296.0
  {
    if rate > 0.0 {
      var bits := (if target < cur then cur - target else target - cur) as real;
      var d := Duration(cur, target, rate);
      QuotientBack(bits, rate);
      Scaled(d, rate, bits * SAMPLERATE);
      FloorBounds(d);
    }
  }

  lemma Scaled(d: real, rate: real, x: real)
    requires rate > 0.0 && d * rate == x
    ensures 1.0 <= d <==> rate <= x
    ensures d < 4294967296.0 <==> x < rate * 4294967296.0
  {
    assert x - rate == (d - 1.0) * rate;
    assert rate * 4294967296.0 - x == (4294967296.0 - d) * rate;
    SignOfProduct(d - 1.0, rate);
    SignOfProduct(4294967296.0 - d, rate);
  }

  lemma QuotientBack(x: real, rate: real)
    requires rate > 0.0
    ensures x / rate * SAMPLERATE * rate == x * SAMPLERATE
  {
    assert x / rate * rate == x;
  }

  lemma FloorBounds(d: real)
    ensures 0 < d.Floor <==> 1.0 <= d
    ensures d.Floor < 0x1_0000_0000 <==> d < 4294967296.0
  {
  }

  lemma SignOfProduct(a: real, c: real)
    requires c > 0.0
    ensures a * c >= 0.0 <==> a >= 0.0
    ensures a * c > 0.0 <==> a > 0.0
  {
  }

  /** The registers of one channel that Calc_WriteSmooth writes. */
  class ChannelRegs {
    var phaseInc: u32
    var setpt: s20
    ghost var order: seq<string>

    /** `cur` is the set-point register and `rate` the ramp rate from the scale factors. When
        `defined` is false the C code divides by zero, or its conversion is out of range. */
    method CalcWriteSmooth(cur: int, target: s20, rate: real) returns (defined: bool)
      modifies this
      ensures defined <==> Defined(cur, target, rate)
      ensures defined ==> phaseInc == ToFloat(P / Duration(cur, target, rate).Floor) % 0x1_0000_0000
      ensures defined ==> setpt == target && order == old(order) + ["phase_inc", "setpt"]
      ensures !defined ==> phaseInc == old(phaseInc) && setpt == old(setpt) && order == old(order)
    {
      if rate <= 0.0 {
        return false;
      }
      var samples := Duration(cur, target, rate).Floor;
      if samples <= 0 || samples >= 0x1_0000_0000 {
        return false;
      }
      var inc := ToFloat(P / samples);
      phaseInc := inc % 0x1_0000_0000;
      order := order + ["phase_inc"];
      setpt := target;
      order := order + ["setpt"];
      return true;
    }
  }

  lemma QuotientBound(n: nat)
    requires n >= 26
    ensures P / n < 0x100_0000
  {
    DivBound(P, n, 0x100_0000);
  }

  /** For 26 or more samples the increment is stored exactly, and it is positive, so that
      the ramp ends, if and only if there are at most P samples. */
  lemma IncrementStored(n: u32)
    requires n >= 26
    ensures ToFloat(P / n) % 0x1_0000_0000 == P / n
    ensures P / n > 0 <==> n <= P
  {
    QuotientBound(n);
    DivBound(P, n, 1);
  }

  /** The counts whose increment is rounded up so far that the ramp is one tick short. */
  predicate Short(n: nat) { n == 1 || n == 2 || n == 4 || n == 9 || n == 21 }

  /** The increment in the register for n samples takes `ticks` ticks to get from -P to 0. */
  predicate Takes(n: nat, ticks: nat)
    requires 0 < n
  {
    var inc := ToFloat(P / n);
    0 < inc < 0x8000_0000 && P / inc == ticks
  }

  predicate Binade(m: nat, u: nat) {
    || (u == 2 && 0x100_0000 <= m < 0x200_0000)
    || (u == 4 && 0x200_0000 <= m < 0x400_0000)
    || (u == 8 && 0x400_0000 <= m < 0x800_0000)
    || (u == 16 && 0x800_0000 <= m < 0x1000_0000)
    || (u == 32 && 0x1000_0000 <= m < 0x2000_0000)
  }

  lemma UnitOf(m: nat, u: nat)
    requires Binade(m, u)
    ensures Unit(m) == u
  {
    if u > 2 {
      UnitOf(m / 2, u / 2);
    }
  }

  /** For n samples: the quotient of P, the unit of its last binary digit as a float, and how often the
      unit goes into it. */
  datatype Entry = Entry(quotient: nat, u: nat, q: nat)

  function Increment(e: Entry): int
    requires e.q * e.u <= e.quotient
  {
    Round(e.q, e.quotient - e.q * e.u, e.u)
  }

  predicate Good(n: nat, e: Entry, ticks: nat) {
    && e.quotient * n <= P < e.quotient * n + n
    && Binade(e.quotient, e.u) && e.q * e.u <= e.quotient < e.q * e.u + e.u
    && 0 < Increment(e) < 0x8000_0000
    && ticks * Increment(e) <= P < ticks * Increment(e) + Increment(e)
  }

  function Table(n: nat): Entry {
    match n
    case 1 => Entry(421657300, 32, 13176790)
    case 2 => Entry(210828650, 16, 13176790)
    case 3 => Entry(140552433, 16, 8784527)
    case 4 => Entry(105414325, 8, 13176790)
    case 5 => Entry(84331460, 8, 10541432)
    case 6 => Entry(70276216, 8, 8784527)
    case 7 => Entry(60236757, 4, 15059189)
    case 8 => Entry(52707162, 4, 13176790)
    case 9 => Entry(46850811, 4, 11712702)
    case 10 => Entry(42165730, 4, 10541432)
    case 11 => Entry(38332481, 4, 9583120)
    case 12 => Entry(35138108, 4, 8784527)
    case 13 => Entry(32435176, 2, 16217588)
    case 14 => Entry(30118378, 2, 15059189)
    case 15 => Entry(28110486, 2, 14055243)
    case 16 => Entry(26353581, 2, 13176790)
    case 17 => Entry(24803370, 2, 12401685)
    case 18 => Entry(23425405, 2, 11712702)
    case 19 => Entry(22192489, 2, 11096244)
    case 20 => Entry(21082865, 2, 10541432)
    case 21 => Entry(20078919, 2, 10039459)
    case 22 => Entry(19166240, 2, 9583120)
    case 23 => Entry(18332926, 2, 9166463)
    case 24 => Entry(17569054, 2, 8784527)
    case _ => Entry(16866292, 2, 8433146)
  }

  lemma Good1To3(n: nat)
    requires 1 <= n <= 3
    ensures Good(n, Table(n), if Short(n) then n - 1 else n)
  {
  }

  lemma Good4To6(n: nat)
    requires 4 <= n <= 6
    ensures Good(n, Table(n), if Short(n) then n - 1 else n)
  {
  }

  lemma Good7To12(n: nat)
    requires 7 <= n <= 12
    ensures Good(n, Table(n), if Short(n) then n - 1 else n)
  {
  }

  lemma Good13To18(n: nat)
    requires 13 <= n <= 18
    ensures Good(n, Table(n), if Short(n) then n - 1 else n)
  {
  }

  lemma Good19To25(n: nat)
    requires 19 <= n <= 25
    ensures Good(n, Table(n), if Short(n) then n - 1 else n)
  {
  }

  lemma TableGood(n: nat)
    requires 1 <= n <= 25
    ensures Good(n, Table(n), if Short(n) then n - 1 else n)
  {
    if n <= 3 {
      Good1To3(n);
    } else if n <= 6 {
      Good4To6(n);
    } else if n <= 12 {
      Good7To12(n);
    } else if n <= 18 {
      Good13To18(n);
    } else {
      Good19To25(n);
    }
  }

  lemma QuotientIs(m: nat, d: nat, q: nat)
    requires d > 0 && q * d <= m < q * d + d
    ensures m / d == q && m % d == m - q * d
  {
    DivUnique(m, d, q, m - q * d);
  }

  lemma GoodTakes(n: nat, e: Entry, ticks: nat)
    requires 0 < n && Good(n, e, ticks)
    ensures Takes(n, ticks)
  {
    QuotientIs(P, n, e.quotient);
    UnitOf(e.quotient, e.u);
    QuotientIs(e.quotient, e.u, e.q);
    QuotientIs(P, Increment(e), ticks);
  }

  /** For 26 or more samples the quotient is stored as it is. */
  lemma StoredExactly(n: u32)
    requires 26 <= n <= P
    ensures 0 < P / n < 0x8000_0000 && ToFloat(P / n) == P / n
    ensures P / (P / n) >= n && (n * n <= P ==> P / (P / n) == n)
  {
    IncrementStored(n);
    QuotientBound(n);
    var q := P / n;
    assert P == q * n + P % n;
    assert n * q == q * n;
    DivBound(P, q, n);
    if n * n <= P {
      DivBound(P, n, n);
      DivUnique(P, q, n, P % n);
    }
  }

  /** The ramp set up for n samples takes at least n + 3 ticks if and only if n is not one of five
      short counts, which take one tick less; up to sqrt(P) any other count takes exactly that. */
  lemma SampleCount(n: u32)
    requires 1 <= n <= P
    ensures 0 < ToFloat(P / n) < 0x8000_0000
    ensures P / ToFloat(P / n) >= n <==> !Short(n)
    ensures Short(n) ==> P / ToFloat(P / n) == n - 1
    ensures n * n <= P && !Short(n) ==> P / ToFloat(P / n) == n
  {
    if n <= 25 {
      TableGood(n);
      GoodTakes(n, Table(n), if Short(n) then n - 1 else n);
    } else {
      StoredExactly(n);
    }
  }

  /** From the two registers to the output: the ramp that Calc_WriteSmooth sets up for n samples
      runs for the stated number of ticks, whatever n. */
  lemma RampOfSamples(r: Regs, ins: seq<Inputs>, n: u32)
    requires 1 <= n <= P && Begun(r) && Steady(r, ins)
    requires forall k :: 0 <= k < |ins| ==> ins[k].inc == ToFloat(P / n) % 0x1_0000_0000
    ensures ToFloat(P / n) > 0 && (Run(r, ins).running <==> Ticks(ins) < P / ToFloat(P / n) + 3)
    ensures Short(n) ==> (Run(r, ins).running <==> Ticks(ins) < n + 2)
    ensures !Short(n) && Ticks(ins) < n + 3 ==> Run(r, ins).running
    ensures !Short(n) && n * n <= P ==> (Run(r, ins).running <==> Ticks(ins) < n + 3)
  {
    SampleCount(n);
    RampLength(r, ins, ToFloat(P / n));
  }

  // --- What a ramp puts out ---

  /** The exact value of start + (target - start) * (1 + cos) / 2, rounded down. */
  function Curve(start: s20, target: s20, cos: Cosine): int {
    CurveOf(start, target, Half(cos))
  }

  function Half(cos: Cosine): (r: int)
    ensures 0 <= r <= ONE
  {
    (cos + ONE) / 2
  }

  /** The same from a raised cosine. */
  function CurveOf(start: s20, target: s20, raised: int): int { start + Product(start, target, raised) / ONE }

  /** At a cosine of -1 the curve is at the start, at 1 at the target. */
  lemma CurveEnds(start: s20, target: s20)
    ensures Curve(start, target, -0x10_0000) == start
    ensures Curve(start, target, 0x10_0000) == target
  {
    assert (target - start) * 0 / ONE == 0;
    assert Half(ONE) == ONE;
    assert (target - start) * ONE / ONE == target - start;
  }

  predicate Between(a: int, x: int, b: int) { (a <= x <= b) || (b <= x <= a) }

  /** The cosines taken in at the ticks of the ramp. */
  function Trace(r: Regs, ins: seq<Inputs>): seq<Cosine>
    decreases |ins|
  {
    if ins == [] then [] else Taken(r, ins[0]) + Trace(Clock(r, ins[0]), ins[1..])
  }

  function Taken(r: Regs, i: Inputs): seq<Cosine> { if r.running && i.trig then [i.cos] else [] }

  lemma ScaleBounds(d: int, a: int)
    requires 0 <= a <= ONE
    ensures d >= 0 ==> 0 <= d * a / ONE <= d
    ensures d <= 0 ==> d <= d * a / ONE <= 0
  {
    if d >= 0 {
      MulMono(a, ONE, d);
      DivRange(d * a, 0, d);
    } else {
      MulMono(a, ONE, -d);
      assert d * a == -(-d * a) && -d * a >= 0;
      DivRange(d * a, d, 0);
    }
  }

  lemma DivRange(p: int, lo: int, hi: int)
    requires lo * ONE <= p <= hi * ONE
    ensures lo <= p / ONE <= hi
  {
  }

  lemma CurveBetween(start: s20, target: s20, raised: int)
    requires 0 <= raised <= ONE
    ensures Between(start, CurveOf(start, target, raised), target)
    ensures -0x8_0000 <= CurveOf(start, target, raised) < 0x8_0000
  {
    ScaleBounds(target - start, raised);
  }

  lemma DivMono(p: int, q: int)
    requires p <= q
    ensures p / ONE <= q / ONE
  {
  }

  /** The curve follows the cosine up or down without turning back. */
  lemma CurveMonotone(start: s20, target: s20, a: Cosine, b: Cosine)
    requires a <= b
    ensures start <= target ==> Curve(start, target, a) <= Curve(start, target, b)
    ensures start >= target ==> Curve(start, target, a) >= Curve(start, target, b)
  {
    var ra, rb := Half(a), Half(b);
    var d := target - start;
    if d >= 0 {
      MulMono(ra, rb, d);
      DivMono(d * ra, d * rb);
    } else {
      MulMono(ra, rb, -d);
      assert d * ra == -(-d * ra) && d * rb == -(-d * rb);
      DivMono(d * rb, d * ra);
    }
  }

  /** The pipeline after the ticks `h` of a ramp that began with `raised` in `first`: each
      stage holds what the stage before it held one tick earlier. */
  predicate Pipeline(r: Regs, first: int, h: seq<Cosine>) {
    && r.raised == RaisedAt(first, h, 0)
    && (|h| >= 1 ==> r.scaled == Product(r.start, r.prevTarget, RaisedAt(first, h, 1)))
    && (|h| >= 2 ==> r.sum == CurveOf(r.start, r.prevTarget, RaisedAt(first, h, 2)))
    && (|h| >= 3 ==> r.out == CurveOf(r.start, r.prevTarget, RaisedAt(first, h, 3)))
  }

  /** The raised cosine of `ago` ticks before the last one in `h`. */
  function RaisedAt(first: int, h: seq<Cosine>, ago: nat): (x: int)
    ensures 0 <= first <= ONE ==> 0 <= x <= ONE
  {
    if |h| <= ago then first else Half(h[|h| - 1 - ago])
  }

  lemma RaisedShift(first: int, h: seq<Cosine>, cos: Cosine, ago: nat)
    ensures RaisedAt(first, h + [cos], ago + 1) == RaisedAt(first, h, ago)
    ensures RaisedAt(first, h + [cos], 0) == Half(cos) == Raise(cos)
  {
  }

  lemma WrapsFit(start: s20, q: int)
    requires -ONE < q < ONE
    ensures Wrap24(start + Wrap24(q)) == start + q
  {
    assert Wrap24(q) == q;
  }

  lemma Wrap20Fits(n: int)
    requires -0x8_0000 <= n < 0x8_0000
    ensures Wrap20(n) == n
  {
  }

  lemma NoOverflow(start: s20, target: s20, raised: int)
    requires 0 <= raised <= ONE
    ensures Sum(start, Product(start, target, raised)) == CurveOf(start, target, raised)
    ensures Wrap20(CurveOf(start, target, raised)) == CurveOf(start, target, raised)
  {
    var q := Product(start, target, raised) / ONE;
    ScaleBounds(target - start, raised);
    CurveBetween(start, target, raised);
    WrapsFit(start, q);
    Wrap20Fits(start + q);
  }

  lemma PipelineTick(r: Regs, i: Inputs, first: int, h: seq<Cosine>)
    requires 0 <= first <= ONE && Pipeline(r, first, h)
    requires !i.reset && i.target == r.prevTarget && r.running && i.trig
    ensures Pipeline(Clock(r, i), first, h + [i.cos])
  {
    RaisedShift(first, h, i.cos, 0);
    RaisedShift(first, h, i.cos, 1);
    RaisedShift(first, h, i.cos, 2);
    NoOverflow(r.start, r.prevTarget, RaisedAt(first, h, 1));
    NoOverflow(r.start, r.prevTarget, RaisedAt(first, h, 2));
  }

  lemma PipelineClock(r: Regs, i: Inputs, first: int, h: seq<Cosine>)
    requires 0 <= first <= ONE && Pipeline(r, first, h)
    requires !i.reset && i.target == r.prevTarget
    ensures Pipeline(Clock(r, i), first, h + Taken(r, i))
    ensures Clock(r, i).start == r.start && Clock(r, i).prevTarget == r.prevTarget
  {
    if r.running && i.trig {
      PipelineTick(r, i, first, h);
    } else {
      assert h + [] == h;
    }
  }

  lemma {:induction false} TraceConcat(r: Regs, ins: seq<Inputs>, h: seq<Cosine>)
    requires ins != []
    ensures h + Taken(r, ins[0]) + Trace(Clock(r, ins[0]), ins[1..]) == h + Trace(r, ins)
  {
    var t, more := Taken(r, ins[0]), Trace(Clock(r, ins[0]), ins[1..]);
    assert h + t + more == h + (t + more);
  }

  lemma {:induction false} PipelineRun(r: Regs, ins: seq<Inputs>, first: int, h: seq<Cosine>)
    requires 0 <= first <= ONE && Pipeline(r, first, h) && Steady(r, ins)
    ensures Pipeline(Run(r, ins), first, h + Trace(r, ins))
    ensures Run(r, ins).start == r.start && Run(r, ins).prevTarget == r.prevTarget
    decreases |ins|
  {
    if ins == [] {
      assert h + [] == h;
    } else {
      PipelineClock(r, ins[0], first, h);
      PipelineRun(Clock(r, ins[0]), ins[1..], first, h + Taken(r, ins[0]));
      TraceConcat(r, ins, h);
    }
  }

  /** For every start, target and cosine sequence: from the fourth tick of a ramp on the
      output is the raised-cosine curve at the cosine of three ticks earlier, with no
      overflow on the way, and from the third tick on it lies between start and target. */
  lemma RampOutput(r: Regs, ins: seq<Inputs>)
    requires Begun(r) && Steady(r, ins)
    ensures var h := Trace(r, ins); var e := Run(r, ins);
      && (|h| >= 4 ==> e.out == Curve(r.start, r.prevTarget, h[|h| - 4]))
      && (|h| >= 3 ==> Between(r.start, e.out, r.prevTarget))
  {
    PipelineRun(r, ins, r.raised, []);
    var h := Trace(r, ins);
    assert [] + h == h;
    if |h| >= 3 {
      CurveBetween(r.start, r.prevTarget, RaisedAt(r.raised, h, 3));
    }
  }

  lemma {:induction false} TracePrefix(r: Regs, ins: seq<Inputs>, n: nat)
    requires n <= |ins|
    ensures Trace(r, ins[..n]) <= Trace(r, ins)
    decreases n
  {
    if n > 0 {
      TracePrefix(Clock(r, ins[0]), ins[1..], n - 1);
      assert ins[..n][1..] == ins[1..][..n - 1];
    }
  }

  /** While the cosine does not fall, the output never turns back from the fourth tick on. */
  lemma RampMonotone(r: Regs, ins: seq<Inputs>, n: nat)
    requires Begun(r) && Steady(r, ins) && n <= |ins|
    requires |Trace(r, ins[..n])| >= 4
    requires forall j, k :: 0 <= j <= k < |Trace(r, ins)| ==> Trace(r, ins)[j] <= Trace(r, ins)[k]
    ensures r.start <= r.prevTarget ==> Run(r, ins[..n]).out <= Run(r, ins).out
    ensures r.start >= r.prevTarget ==> Run(r, ins[..n]).out >= Run(r, ins).out
  {
    TracePrefix(r, ins, n);
    RampOutput(r, ins[..n]);
    RampOutput(r, ins);
    var h, all := Trace(r, ins[..n]), Trace(r, ins);
    assert h[|h| - 4] == all[|h| - 4];
    CurveMonotone(r.start, r.prevTarget, h[|h| - 4], all[|all| - 4]);
  }
}
