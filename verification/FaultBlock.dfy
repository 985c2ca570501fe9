/** The fault interlock of src/hw/hdl/fault_block.vhd and the ON output of
    src/hw/hdl/digio_logic.vhd that it gates, for one power-supply channel. */
module FaultBlock {
  import opened Common

  const COUNTED := 11          // bits 0 to 10 have a debounce counter
  const RESETS := 6            // reset clears the counters of bits 0 to 5 only
  const LATCHED := 13          // bits 0 to 12 are latched
  const ON_FAULT := 10
  const EVR := 12
  const GLITCH := 4            // triggers a snapshot but never trips the supply

  type Vec = s: seq<bool> | |s| == 16
    witness [false, false, false, false, false, false, false, false,
             false, false, false, false, false, false, false, false]
  type Counts = s: seq<nat> | |s| == COUNTED witness [0, 0, 0, 0, 0, 0, 0, 0, 0, 0, 0]
  type Limits = s: seq<u16> | |s| == COUNTED witness [0, 0, 0, 0, 0, 0, 0, 0, 0, 0, 0]

  /** `over` holds the threshold and digital conditions of bits 0 to 10 before park,
      set-point change and clear are considered. */
  datatype Inputs = Inputs(
    reset: bool, trig: bool, clear: bool, over: Vec, park: bool, setpoint: int, evr: bool, enable: Vec)

  datatype Regs = Regs(
    dff0: bool, dff1: bool, pulse: bool,
    re: bool, reReg: bool, clearPulse: bool,
    setpointNew: int, setpointOld: int, changed: bool,
    cnt: Counts, live: Vec, lat: Vec,
    mask: Vec, errTrig: bool)

  // --- One rising edge ---

  /** Whether a sample counts towards bit k: its condition holds, no clear is pending, and
      for the two loop-error bits the channel is not parked and its set-point is steady. */
  predicate Qualifies(clearPulse: bool, changed: bool, i: Inputs, k: nat)
    requires k < COUNTED
  {
    i.over[k] && !clearPulse && (k == 3 || k == GLITCH ==> !i.park && !changed)
  }

  /** A debounce counter with its live bit. */
  datatype Bit = Bit(cnt: nat, live: bool)

  /** The ON fault has a 32-bit counter, the other bits 16-bit ones; limits are 16 bits wide. */
  function Span(k: nat): (n: nat)
    ensures n >= 0x1_0000
  {
    if k == ON_FAULT then 0x1_0000_0000 else 0x1_0000
  }

  /** One more, wrapping to 0 after span - 1. */
  function Bump(n: nat, span: nat): nat { if n + 1 == span then 0 else n + 1 }

  function Sample(b: Bit, ok: bool, limit: u16, span: nat): Bit
    requires span >= 0x1_0000
  {
    if !ok then Bit(0, false)
    else if b.cnt == limit then Bit(b.cnt, true)
    else Bit(Bump(b.cnt, span), b.live)
  }

  function BitOf(r: Regs, k: nat): Bit
    requires k < COUNTED
  {
    Bit(r.cnt[k], r.live[k])
  }

  function NextBit(i: Inputs, limits: Limits, b: Bit, pulse: bool, clearPulse: bool, changed: bool, k: nat): Bit
    requires k < COUNTED
  {
    if i.reset then Bit(if k < RESETS then 0 else b.cnt, false)
    else if pulse then Sample(b, Qualifies(clearPulse, changed, i, k), limits[k], Span(k))
    else b
  }

  function NextLatch(lat: bool, live: bool, clearPulse: bool, k: nat): bool {
    if k >= LATCHED then lat else !clearPulse && (lat || live)
  }

  /** The mask x"1FEF" removes bit 4 and the unused bits. */
  predicate Trips(k: nat) { k < LATCHED && k != GLITCH }

  function NextCounts(i: Inputs, limits: Limits, cnt: Counts, live: Vec, pulse: bool, clearPulse: bool, changed: bool)
    : (cs: Counts)
  {
    seq(COUNTED, k requires 0 <= k < COUNTED =>
      NextBit(i, limits, Bit(cnt[k], live[k]), pulse, clearPulse, changed, k).cnt)
  }

  function NextLives(i: Inputs, limits: Limits, cnt: Counts, live: Vec, pulse: bool, clearPulse: bool, changed: bool)
    : (v: Vec)
  {
    seq(16, k requires 0 <= k < 16 =>
      if k < COUNTED then NextBit(i, limits, Bit(cnt[k], live[k]), pulse, clearPulse, changed, k).live
      else if i.reset then false
      else if k == EVR then i.evr
      else live[k])
  }

  function NextLatches(i: Inputs, lat: Vec, live: Vec, clearPulse: bool): (v: Vec) {
    seq(16, k requires 0 <= k < 16 => !i.reset && NextLatch(lat[k], live[k], clearPulse, k))
  }

  function NextMask(lat: Vec, enable: Vec): (v: Vec) {
    seq(16, k requires 0 <= k < 16 => Trips(k) && lat[k] && enable[k])
  }

  /** Of the live bits the mask x"0010" leaves bit 4. */
  predicate NextErr(live: Vec, enable: Vec) { live[GLITCH] && enable[GLITCH] }

  /** A flip-flop with a synchronous reset. */
  predicate Flop(reset: bool, d: bool) { !reset && d }

  predicate NextClear(re: bool, reReg: bool, clearPulse: bool, pulse: bool) {
    if !reReg && re then true else if pulse then false else clearPulse
  }

  function NextSetpoint(i: Inputs, held: int, next: int): int {
    if i.reset then 0 else if i.trig then next else held
  }

  function Clock(r: Regs, i: Inputs, limits: Limits): Regs {
    Regs(
      Flop(i.reset, i.trig), Flop(i.reset, r.dff0), Flop(i.reset, r.dff1),
      i.clear, r.re, NextClear(r.re, r.reReg, r.clearPulse, r.pulse),
      NextSetpoint(i, r.setpointNew, i.setpoint), NextSetpoint(i, r.setpointOld, r.setpointNew),
      Flop(i.reset, r.setpointNew != r.setpointOld),
      NextCounts(i, limits, r.cnt, r.live, r.pulse, r.clearPulse, r.changed),
      NextLives(i, limits, r.cnt, r.live, r.pulse, r.clearPulse, r.changed),
      NextLatches(i, r.lat, r.live, r.clearPulse),
      NextMask(r.lat, i.enable), NextErr(r.live, i.enable))
  }

  /** flt_trig: the or of the masked latches. */
  predicate Trip(r: Regs) { true in r.mask }

  /** rcom(0) and its three siblings. */
  predicate On1(r: Regs, psOn: bool) { psOn && !Trip(r) }

  /** Processes that share a clock edge read each other's registers as they were before it,
      so `Tick` evaluates each reader before the writer of what it reads. */
  class Block {
    var dff0: bool
    var dff1: bool
    var pulse: bool
    var re: bool
    var reReg: bool
    var clearPulse: bool
    var setpointNew: int
    var setpointOld: int
    var changed: bool
    var cnt: Counts
    var live: Vec
    var lat: Vec
    var mask: Vec
    var errTrig: bool

    function Registers(): Regs
      reads this
    {
      Regs(dff0, dff1, pulse, re, reReg, clearPulse, setpointNew, setpointOld, changed, cnt, live, lat, mask, errTrig)
    }

    /** The counter code of bit k; the VHDL spells it out once per bit. */
    method Check(k: nat, ok: bool, limit: u16)
      requires k < COUNTED
      modifies this`cnt, this`live
      ensures var b := Sample(Bit(old(cnt)[k], old(live)[k]), ok, limit, Span(k));
        cnt == old(cnt)[k := b.cnt] && live == old(live)[k := b.live]
    {
      if ok {
        if cnt[k] == limit {
          live := live[k := true];
        } else {
          cnt := cnt[k := Bump(cnt[k], Span(k))];
        }
      } else {
        cnt := cnt[k := 0];
        live := live[k := false];
      }
    }

    method CheckAll(i: Inputs, limits: Limits)
      modifies this`cnt, this`live
      ensures forall j :: 0 <= j < COUNTED ==>
        Bit(cnt[j], live[j]) ==
        Sample(Bit(old(cnt)[j], old(live)[j]), Qualifies(clearPulse, changed, i, j), limits[j], Span(j))
      ensures forall j :: COUNTED <= j < 16 ==> live[j] == old(live)[j]
    {
      for k := 0 to COUNTED
        invariant forall j :: 0 <= j < k ==>
          Bit(cnt[j], live[j]) ==
          Sample(Bit(old(cnt)[j], old(live)[j]), Qualifies(clearPulse, changed, i, j), limits[j], Span(j))
        invariant forall j :: k <= j < COUNTED ==> cnt[j] == old(cnt)[j]
        invariant forall j :: k <= j < 16 ==> live[j] == old(live)[j]
      {
        var ok := i.over[k] && !clearPulse;
        if k == 3 || k == GLITCH {
          ok := ok && !i.park && !changed;
        }
        Check(k, ok, limits[k]);
      }
    }

    method Latch(was: Vec)
      modifies this`lat
      ensures forall j :: 0 <= j < 16 ==> lat[j] == NextLatch(old(lat)[j], was[j], clearPulse, j)
    {
      for k := 0 to LATCHED
        invariant forall j :: 0 <= j < k ==> lat[j] == NextLatch(old(lat)[j], was[j], clearPulse, j)
        invariant forall j :: k <= j < 16 ==> lat[j] == old(lat)[j]
      {
        if !clearPulse {
          if was[k] {
            lat := lat[k := true];
          }
        } else {
          lat := lat[k := false];
        }
      }
    }

    method ClearAll()
      modifies this`cnt, this`live, this`lat
      ensures forall j :: 0 <= j < 16 ==> !live[j] && !lat[j]
      ensures forall j :: 0 <= j < COUNTED ==> cnt[j] == if j < RESETS then 0 else old(cnt)[j]
    {
      live := seq(16, _ => false);
      lat := seq(16, _ => false);
      for k := 0 to RESETS
        invariant forall j :: 0 <= j < 16 ==> !live[j] && !lat[j]
        invariant forall j :: 0 <= j < COUNTED ==> cnt[j] == if j < k then 0 else old(cnt)[j]
      {
        cnt := cnt[k := 0];
      }
    }

    method MainLogic(i: Inputs, limits: Limits)
      modifies this`cnt, this`live, this`lat
      ensures cnt == NextCounts(i, limits, old(cnt), old(live), pulse, clearPulse, changed)
      ensures live == NextLives(i, limits, old(cnt), old(live), pulse, clearPulse, changed)
      ensures lat == NextLatches(i, old(lat), old(live), clearPulse)
    {
      if i.reset {
        ClearAll();
      } else {
        var was := live;
        if pulse {
          CheckAll(i, limits);
        }
        live := live[EVR := i.evr];
        Latch(was);
      }
    }

    method ClearEdge(clear: bool)
      modifies this`re, this`reReg, this`clearPulse
      ensures re == clear && reReg == old(re)
      ensures clearPulse == NextClear(old(re), old(reReg), old(clearPulse), pulse)
    {
      if !reReg && re {
        clearPulse := true;
      } else if pulse {
        clearPulse := false;
      }
      re, reReg := clear, re;
    }

    method SetpointChange(i: Inputs)
      modifies this`setpointNew, this`setpointOld, this`changed
      ensures changed == Flop(i.reset, old(setpointNew) != old(setpointOld))
      ensures setpointNew == NextSetpoint(i, old(setpointNew), i.setpoint)
      ensures setpointOld == NextSetpoint(i, old(setpointOld), old(setpointNew))
    {
      changed := !i.reset && setpointNew != setpointOld;
      if i.reset {
        setpointNew, setpointOld := 0, 0;
      } else if i.trig {
        setpointNew, setpointOld := i.setpoint, setpointNew;
      }
    }

    method Sync(i: Inputs)
      modifies this`dff0, this`dff1, this`pulse
      ensures dff0 == Flop(i.reset, i.trig) && dff1 == Flop(i.reset, old(dff0)) && pulse == Flop(i.reset, old(dff1))
    {
      if i.reset {
        dff0, dff1, pulse := false, false, false;
      } else {
        dff0, dff1, pulse := i.trig, dff0, dff1;
      }
    }

    method Edges(i: Inputs)
      modifies this`setpointNew, this`setpointOld, this`changed
      modifies this`re, this`reReg, this`clearPulse
      modifies this`dff0, this`dff1, this`pulse
      ensures changed == Flop(i.reset, old(setpointNew) != old(setpointOld))
      ensures setpointNew == NextSetpoint(i, old(setpointNew), i.setpoint)
      ensures setpointOld == NextSetpoint(i, old(setpointOld), old(setpointNew))
      ensures re == i.clear && reReg == old(re)
      ensures clearPulse == NextClear(old(re), old(reReg), old(clearPulse), old(pulse))
      ensures dff0 == Flop(i.reset, i.trig) && dff1 == Flop(i.reset, old(dff0)) && pulse == Flop(i.reset, old(dff1))
    {
      SetpointChange(i);
      ClearEdge(i.clear);
      Sync(i);
    }

    method Faults(i: Inputs, limits: Limits)
      modifies this`cnt, this`live, this`lat, this`mask, this`errTrig
      ensures cnt == NextCounts(i, limits, old(cnt), old(live), pulse, clearPulse, changed)
      ensures live == NextLives(i, limits, old(cnt), old(live), pulse, clearPulse, changed)
      ensures lat == NextLatches(i, old(lat), old(live), clearPulse)
      ensures mask == NextMask(old(lat), i.enable) && errTrig == NextErr(old(live), i.enable)
    {
      mask, errTrig := NextMask(lat, i.enable), NextErr(live, i.enable);
      MainLogic(i, limits);
    }

    method Tick(i: Inputs, limits: Limits)
      modifies this
      ensures Registers() == Clock(old(Registers()), i, limits)
    {
      Faults(i, limits);
      Edges(i);
    }
  }

  // --- Runs ---

  function Run(r: Regs, ins: seq<Inputs>, limits: Limits): Regs
    decreases |ins|
  {
    if ins == [] then r else Run(Clock(r, ins[0], limits), ins[1..], limits)
  }

  /** The registers after the first t edges of a run. */
  function At(r: Regs, ins: seq<Inputs>, limits: Limits, t: nat): Regs
    requires t <= |ins|
  {
    Run(r, ins[..t], limits)
  }

  predicate NoReset(ins: seq<Inputs>) { forall t :: 0 <= t < |ins| ==> !ins[t].reset }

  lemma {:induction false} RunSnoc(r: Regs, ins: seq<Inputs>, limits: Limits)
    requires ins != []
    ensures Run(r, ins, limits) == Clock(Run(r, ins[..|ins| - 1], limits), ins[|ins| - 1], limits)
    decreases |ins|
  {
    if |ins| > 1 {
      RunSnoc(Clock(r, ins[0], limits), ins[1..], limits);
      assert ins[..|ins| - 1][1..] == ins[1..][..|ins| - 2];
    }
  }

  // --- Debouncing ---

  /** The 10 kHz samples of bit k during a run, true where the sample counts. A clock in reset takes
      no sample. */
  function Samples(r: Regs, ins: seq<Inputs>, limits: Limits, k: nat): seq<bool>
    requires k < COUNTED
    decreases |ins|
  {
    if ins == [] then [] else
    (if r.pulse && !ins[0].reset then [Qualifies(r.clearPulse, r.changed, ins[0], k)] else [])
    + Samples(Clock(r, ins[0], limits), ins[1..], limits, k)
  }

  function SampleAll(b: Bit, ss: seq<bool>, limit: u16, span: nat): Bit
    requires span >= 0x1_0000
    decreases |ss|
  {
    if ss == [] then b else SampleAll(Sample(b, ss[0], limit, span), ss[1..], limit, span)
  }

  /** A bit sees its samples and nothing else. */
  lemma {:induction false} BitRun(r: Regs, ins: seq<Inputs>, limits: Limits, k: nat)
    requires k < COUNTED && NoReset(ins)
    ensures BitOf(Run(r, ins, limits), k) == SampleAll(BitOf(r, k), Samples(r, ins, limits, k), limits[k], Span(k))
    decreases |ins|
  {
    if ins != [] {
      var e := Clock(r, ins[0], limits);
      assert BitOf(e, k) == NextBit(ins[0], limits, BitOf(r, k), r.pulse, r.clearPulse, r.changed, k);
      BitRun(e, ins[1..], limits, k);
      var more := Samples(e, ins[1..], limits, k);
      if r.pulse {
        assert ([Qualifies(r.clearPulse, r.changed, ins[0], k)] + more)[1..] == more;
      } else {
        assert [] + more == more;
      }
    }
  }

  /** The last n samples exist and all count. */
  predicate Held(ss: seq<bool>, n: nat) {
    n <= |ss| && forall j :: |ss| - n <= j < |ss| ==> ss[j]
  }

  /** How many samples the condition has held for, given c before the first of ss. */
  function Trail(c: nat, ss: seq<bool>): nat
    decreases |ss|
  {
    if ss == [] then c else if ss[|ss| - 1] then Trail(c, ss[..|ss| - 1]) + 1 else 0
  }

  lemma {:induction false} HeldIsTrail(ss: seq<bool>, n: nat)
    ensures Held(ss, n) <==> n <= Trail(0, ss)
    decreases |ss|
  {
    if ss != [] && ss[|ss| - 1] && n > 0 {
      var init := ss[..|ss| - 1];
      HeldIsTrail(init, n - 1);
      assert Held(ss, n) ==> Held(init, n - 1);
    }
  }

  lemma {:induction false} SampleSnoc(b: Bit, ss: seq<bool>, s: bool, limit: u16, span: nat)
    requires span >= 0x1_0000
    ensures SampleAll(b, ss + [s], limit, span) == Sample(SampleAll(b, ss, limit, span), s, limit, span)
    decreases |ss|
  {
    if ss == [] {
      assert [] + [s] == [s];
    } else {
      SampleSnoc(Sample(b, ss[0], limit, span), ss[1..], s, limit, span);
      assert (ss + [s])[1..] == ss[1..] + [s];
    }
  }

  lemma {:induction false} SampleLaw(c: nat, ss: seq<bool>, limit: u16, span: nat)
    requires c <= limit && span >= 0x1_0000
    ensures SampleAll(Bit(c, false), ss, limit, span) ==
      Bit(if Trail(c, ss) <= limit then Trail(c, ss) else limit, Trail(c, ss) > limit)
    decreases |ss|
  {
    if ss != [] {
      var init, last := ss[..|ss| - 1], ss[|ss| - 1];
      SampleLaw(c, init, limit, span);
      SampleSnoc(Bit(c, false), init, last, limit, span);
      assert ss == init + [last];
    }
  }

  /** From a cleared counter the live bit is set exactly while the condition has held for the
      last limit + 1 samples. */
  lemma Debounce(r: Regs, ins: seq<Inputs>, limits: Limits, k: nat)
    requires k < COUNTED && BitOf(r, k) == Bit(0, false) && NoReset(ins)
    ensures var n: nat := limits[k];
      Run(r, ins, limits).live[k] <==> Held(Samples(r, ins, limits, k), n + 1)
  {
    var n: nat := limits[k];
    var ss := Samples(r, ins, limits, k);
    BitRun(r, ins, limits, k);
    assert BitOf(Run(r, ins, limits), k).live == Run(r, ins, limits).live[k];
    SampleLaw(0, ss, limits[k], Span(k));
    HeldIsTrail(ss, n + 1);
  }

  function Trues(n: nat): (ss: seq<bool>)
    ensures |ss| == n && forall j :: 0 <= j < n ==> ss[j]
  {
    if n == 0 then [] else Trues(n - 1) + [true]
  }

  lemma {:induction false} TrailOfTrues(c: nat, n: nat)
    ensures Trail(c, Trues(n)) == c + n
  {
    if n > 0 {
      TrailOfTrues(c, n - 1);
      assert Trues(n)[..n - 1] == Trues(n - 1);
    }
  }

  lemma AfterReset(r: Regs, i: Inputs, limits: Limits)
    requires i.reset
    ensures var e := Clock(r, i, limits);
      && (forall k :: 0 <= k < 16 ==> !e.live[k] && !e.lat[k])
      && (forall k :: 0 <= k < COUNTED ==> BitOf(e, k) == Bit(if k < RESETS then 0 else r.cnt[k], false))
  {
    var e := Clock(r, i, limits);
    forall k | 0 <= k < COUNTED
      ensures BitOf(e, k) == Bit(if k < RESETS then 0 else r.cnt[k], false)
    {
      assert BitOf(e, k) == NextBit(i, limits, BitOf(r, k), r.pulse, r.clearPulse, r.changed, k);
    }
  }

  // --- Debouncing after a reset in the middle of a run ---

  /** A clear that will take away the next 10 kHz sample. */
  predicate ClearPending(r: Regs) { r.clearPulse || (r.re && !r.reReg && !r.pulse) }

  lemma {:induction false} PendingClears(r: Regs, ins: seq<Inputs>, limits: Limits, k: nat)
    requires k < COUNTED && NoReset(ins) && ClearPending(r)
    ensures var ss := Samples(r, ins, limits, k);
      ss != [] ==> !ss[0]
    decreases |ins|
  {
    if ins != [] && !r.pulse {
      var e := Clock(r, ins[0], limits);
      PendingClears(e, ins[1..], limits, k);
      assert [] + Samples(e, ins[1..], limits, k) == Samples(e, ins[1..], limits, k);
    }
  }

  lemma {:induction false} TrailForgets(c: nat, ss: seq<bool>)
    requires ss != [] && !ss[0]
    ensures Trail(c, ss) == Trail(0, ss)
    decreases |ss|
  {
    if |ss| > 1 {
      TrailForgets(c, ss[..|ss| - 1]);
    }
  }

  /** From state e on live bit k tells whether its condition has held for the last limit + 1
      samples. */
  ghost predicate Debounces(e: Regs, limits: Limits, k: nat)
    requires k < COUNTED
  {
    forall after :: NoReset(after) ==> DebouncedAt(e, after, limits, k)
  }

  predicate DebouncedAt(e: Regs, after: seq<Inputs>, limits: Limits, k: nat)
    requires k < COUNTED
  {
    var n: nat := limits[k];
    Run(e, after, limits).live[k] <==> Held(Samples(e, after, limits, k), n + 1)
  }

  /** A count that is 0, or will be before it matters, does no harm. */
  lemma HarmlessCount(e: Regs, after: seq<Inputs>, limits: Limits, k: nat)
    requires k < COUNTED && NoReset(after) && !e.live[k]
    requires e.cnt[k] == 0 || (e.cnt[k] <= limits[k] && ClearPending(e))
    ensures DebouncedAt(e, after, limits, k)
  {
    var ss, n: nat := Samples(e, after, limits, k), limits[k];
    BitRun(e, after, limits, k);
    assert BitOf(Run(e, after, limits), k).live == Run(e, after, limits).live[k];
    SampleLaw(e.cnt[k], ss, limits[k], Span(k));
    HeldIsTrail(ss, n + 1);
    if e.cnt[k] != 0 && ss != [] {
      PendingClears(e, after, limits, k);
      TrailForgets(e.cnt[k], ss);
    }
  }

  /** Every condition true, a 10 kHz trigger at each clock, no clear. */
  const Drive := Inputs(false, true, false, seq(16, _ => true), false, 0, false, seq(16, _ => true))

  function Driven(n: nat): (ins: seq<Inputs>)
    ensures |ins| == n && NoReset(ins)
  {
    seq(n, _ => Drive)
  }

  /** The trigger reaches the counters `lag` clocks later. */
  predicate Lags(r: Regs, lag: nat) {
    lag <= 3 && r.dff0 == (lag <= 2) && r.dff1 == (lag <= 1) && r.pulse == (lag == 0)
    && !r.clearPulse && !(r.re && !r.reReg)
  }

  lemma DriveClock(r: Regs, limits: Limits, lag: nat)
    requires Lags(r, lag)
    ensures Lags(Clock(r, Drive, limits), if lag == 0 then 0 else lag - 1)
  {
  }

  lemma OneMoreTrue(n: nat)
    ensures [true] + Trues(n) == Trues(n + 1)
  {
  }

  lemma {:induction false} DrivenSamples(r: Regs, limits: Limits, k: nat, n: nat, lag: nat)
    requires RESETS <= k < COUNTED && Lags(r, lag)
    ensures Samples(r, Driven(n + lag), limits, k) == Trues(n)
    decreases n + lag
  {
    if n + lag > 0 {
      var e, rest := Clock(r, Drive, limits), Driven(n + lag - 1);
      assert Driven(n + lag)[1..] == rest;
      DriveClock(r, limits, lag);
      if lag > 0 {
        DrivenSamples(e, limits, k, n, lag - 1);
        assert [] + Trues(n) == Trues(n);
      } else {
        DrivenSamples(e, limits, k, n - 1, 0);
        assert Qualifies(r.clearPulse, r.changed, Drive, k);
        OneMoreTrue(n - 1);
      }
    }
  }

  /** A run after which a count left over sets the live bit too early. */
  lemma LeftoverCount(e: Regs, limits: Limits, k: nat) returns (after: seq<Inputs>)
    requires RESETS <= k < COUNTED && Lags(e, 3) && !e.live[k] && 0 < e.cnt[k] <= limits[k]
    ensures NoReset(after) && Run(e, after, limits).live[k] && !DebouncedAt(e, after, limits, k)
    ensures var limit: int := limits[k];
      after == Driven(limit + 4 - e.cnt[k])
  {
    var limit: int := limits[k];
    var n: nat := limit + 1 - e.cnt[k];
    after := Driven(n + 3);
    DrivenSamples(e, limits, k, n, 3);
    BitRun(e, after, limits, k);
    assert BitOf(Run(e, after, limits), k).live == Run(e, after, limits).live[k];
    SampleLaw(e.cnt[k], Trues(n), limits[k], Span(k));
    TrailOfTrues(e.cnt[k], n);
  }

  lemma {:induction false} CountIgnoresLive(b: Bit, c: Bit, ss: seq<bool>, limit: u16, span: nat)
    requires span >= 0x1_0000 && b.cnt == c.cnt
    ensures SampleAll(b, ss, limit, span).cnt == SampleAll(c, ss, limit, span).cnt
    decreases |ss|
  {
    if ss != [] {
      CountIgnoresLive(Sample(b, ss[0], limit, span), Sample(c, ss[0], limit, span), ss[1..], limit, span);
    }
  }

  /** The counters of bits 6 to 10 see no reset: over any run, with resets of any number and length,
      a count depends on the bit's samples only. */
  lemma {:induction false} CountRun(r: Regs, ins: seq<Inputs>, limits: Limits, k: nat)
    requires RESETS <= k < COUNTED
    ensures Run(r, ins, limits).cnt[k] ==
      SampleAll(BitOf(r, k), Samples(r, ins, limits, k), limits[k], Span(k)).cnt
    decreases |ins|
  {
    if ins != [] {
      var e := Clock(r, ins[0], limits);
      var more := Samples(e, ins[1..], limits, k);
      assert BitOf(e, k) == NextBit(ins[0], limits, BitOf(r, k), r.pulse, r.clearPulse, r.changed, k);
      CountRun(e, ins[1..], limits, k);
      if r.pulse && !ins[0].reset {
        assert ([Qualifies(r.clearPulse, r.changed, ins[0], k)] + more)[1..] == more;
      } else {
        assert [] + more == more;
        CountIgnoresLive(BitOf(r, k), BitOf(e, k), more, limits[k], Span(k));
      }
    }
  }

  predicate EndsInReset(ins: seq<Inputs>) { ins != [] && ins[|ins| - 1].reset }

  /** What a run that ends in a reset leaves in a counter that was 0 before it: for the bits whose
      counter a reset does not clear, 0 if and only if the limit is 0 or the last sample did not
      count. */
  lemma CountThroughReset(r: Regs, ins: seq<Inputs>, limits: Limits, k: nat)
    requires k < COUNTED && r.cnt[k] == 0 && EndsInReset(ins)
    ensures var e := Run(r, ins, limits);
      && !e.live[k] && e.cnt[k] <= limits[k] && !e.dff0 && !e.dff1 && !e.pulse
      && (e.cnt[k] == 0 <==> k < RESETS || limits[k] == 0 || !Held(Samples(r, ins, limits, k), 1))
  {
    var e, ss := Run(r, ins, limits), Samples(r, ins, limits, k);
    RunSnoc(r, ins, limits);
    AfterReset(Run(r, ins[..|ins| - 1], limits), ins[|ins| - 1], limits);
    assert BitOf(e, k).cnt == e.cnt[k] && BitOf(e, k).live == e.live[k];
    if k >= RESETS {
      CountRun(r, ins, limits, k);
      CountIgnoresLive(BitOf(r, k), Bit(0, false), ss, limits[k], Span(k));
      SampleLaw(0, ss, limits[k], Span(k));
      HeldIsTrail(ss, 1);
    }
  }

  /** After any run that ends in a reset, with resets of any number and length before, live bit k is
      right in every run if and only if resets clear its counter, its limit is 0, its last sample did
      not count, or a clear was pending. */
  lemma DebounceAfterReset(r: Regs, ins: seq<Inputs>, limits: Limits, k: nat)
    requires k < COUNTED && r.cnt[k] == 0 && EndsInReset(ins)
    ensures var e := Run(r, ins, limits);
      Debounces(e, limits, k) <==>
      k < RESETS || limits[k] == 0 || !Held(Samples(r, ins, limits, k), 1) || ClearPending(e)
  {
    var e := Run(r, ins, limits);
    CountThroughReset(r, ins, limits, k);
    if e.cnt[k] == 0 || ClearPending(e) {
      forall after | NoReset(after)
        ensures DebouncedAt(e, after, limits, k)
      {
        HarmlessCount(e, after, limits, k);
      }
    } else {
      var after := LeftoverCount(e, limits, k);
    }
  }

  lemma {:induction false} DrivenLags(r: Regs, limits: Limits, n: nat, lag: nat)
    requires Lags(r, lag)
    ensures Lags(Run(r, Driven(n), limits), if lag <= n then 0 else lag - n)
    decreases n
  {
    if n > 0 {
      assert Driven(n)[1..] == Driven(n - 1);
      DriveClock(r, limits, lag);
      DrivenLags(Clock(r, Drive, limits), limits, n - 1, if lag == 0 then 0 else lag - 1);
    }
  }

  lemma OneSampleThenReset(r: Regs, limits: Limits, k: nat)
    requires RESETS <= k < COUNTED && limits[k] > 0 && Lags(r, 3) && BitOf(r, k) == Bit(0, false)
    ensures var e := Clock(Run(r, Driven(4), limits), Drive.(reset := true), limits);
      Lags(e, 3) && BitOf(e, k) == Bit(1, false)
  {
    DrivenLags(r, limits, 4, 3);
    DrivenSamples(r, limits, k, 1, 3);
    BitRun(r, Driven(4), limits, k);
    SampleLaw(0, Trues(1), limits[k], Span(k));
    TrailOfTrues(0, 1);
    AfterReset(Run(r, Driven(4), limits), Drive.(reset := true), limits);
  }

  /** A run that goes wrong: one counting sample, a reset, and then one sample too few. */
  lemma ResetBreaksDebounce(r: Regs, limits: Limits, k: nat) returns (before: seq<Inputs>, i: Inputs, after: seq<Inputs>)
    requires RESETS <= k < COUNTED && limits[k] > 0 && Lags(r, 3) && BitOf(r, k) == Bit(0, false)
    ensures NoReset(before) && i.reset && NoReset(after)
    ensures var e := Clock(Run(r, before, limits), i, limits);
      var n: nat := limits[k];
      Run(e, after, limits).live[k] && |Samples(e, after, limits, k)| == n
  {
    before, i := Driven(4), Drive.(reset := true);
    OneSampleThenReset(r, limits, k);
    var e := Clock(Run(r, before, limits), i, limits);
    assert BitOf(e, k).cnt == e.cnt[k];
    after := LeftoverCount(e, limits, k);
    DrivenSamples(e, limits, k, limits[k], 3);
  }

  // --- Latches and the trip ---

  predicate NoClear(r: Regs, ins: seq<Inputs>, limits: Limits, from: nat) {
    forall u :: from <= u < |ins| ==> !At(r, ins, limits, u).clearPulse
  }

  /** Bit k was live before edge t, and no clear was pending from then on. */
  predicate SetAt(r: Regs, ins: seq<Inputs>, limits: Limits, k: nat, t: nat)
    requires k < LATCHED && t < |ins|
  {
    At(r, ins, limits, t).live[k] && NoClear(r, ins, limits, t)
  }

  predicate SetSinceClear(r: Regs, ins: seq<Inputs>, limits: Limits, k: nat)
    requires k < LATCHED
  {
    exists t :: 0 <= t < |ins| && SetAt(r, ins, limits, k, t)
  }

  lemma AtInit(r: Regs, ins: seq<Inputs>, limits: Limits, t: nat)
    requires t < |ins|
    ensures At(r, ins, limits, t) == At(r, ins[..|ins| - 1], limits, t)
  {
    assert ins[..t] == ins[..|ins| - 1][..t];
  }

  lemma NoClearSnoc(r: Regs, ins: seq<Inputs>, limits: Limits, from: nat)
    requires from < |ins|
    ensures NoClear(r, ins, limits, from) <==>
      NoClear(r, ins[..|ins| - 1], limits, from) && !At(r, ins, limits, |ins| - 1).clearPulse
  {
    var init := ins[..|ins| - 1];
    forall u | from <= u < |ins| - 1
      ensures At(r, ins, limits, u) == At(r, init, limits, u)
    {
      AtInit(r, ins, limits, u);
    }
    if NoClear(r, ins, limits, from) {
      forall u | from <= u < |init|
        ensures !At(r, init, limits, u).clearPulse
      {
        assert !At(r, ins, limits, u).clearPulse;
      }
    }
  }

  lemma SetSinceClearSnoc(r: Regs, ins: seq<Inputs>, limits: Limits, k: nat)
    requires k < LATCHED && ins != []
    ensures var before := At(r, ins, limits, |ins| - 1);
      SetSinceClear(r, ins, limits, k) <==>
      !before.clearPulse && (before.live[k] || SetSinceClear(r, ins[..|ins| - 1], limits, k))
  {
    var init, n := ins[..|ins| - 1], |ins| - 1;
    var before := At(r, ins, limits, n);
    forall t | 0 <= t < n
      ensures SetAt(r, ins, limits, k, t) <==> SetAt(r, init, limits, k, t) && !before.clearPulse
    {
      AtInit(r, ins, limits, t);
      NoClearSnoc(r, ins, limits, t);
    }
    assert SetAt(r, ins, limits, k, n) <==> before.live[k] && !before.clearPulse;
    if SetSinceClear(r, ins, limits, k) {
      var t :| 0 <= t < |ins| && SetAt(r, ins, limits, k, t);
      assert t < n ==> SetAt(r, init, limits, k, t);
    } else if SetSinceClear(r, init, limits, k) {
      var t :| 0 <= t < |init| && SetAt(r, init, limits, k, t);
      assert !SetAt(r, ins, limits, k, t);
    }
  }

  /** A latch is set exactly when its live bit was set at some clock since the last clear. */
  lemma {:induction false} LatchLaw(r: Regs, ins: seq<Inputs>, limits: Limits, k: nat)
    requires k < LATCHED && NoReset(ins) && !r.lat[k]
    ensures Run(r, ins, limits).lat[k] <==> SetSinceClear(r, ins, limits, k)
    decreases |ins|
  {
    if ins != [] {
      var init := ins[..|ins| - 1];
      LatchLaw(r, init, limits, k);
      RunSnoc(r, ins, limits);
      SetSinceClearSnoc(r, ins, limits, k);
      assert At(r, ins, limits, |ins| - 1) == Run(r, init, limits);
    }
  }

  /** The supply is tripped exactly when some enabled bit other than the glitch bit was live at
      least two clocks ago, with no clear since. */
  lemma Interlock(r: Regs, ins: seq<Inputs>, limits: Limits)
    requires |ins| >= 2 && NoReset(ins)
    requires forall k :: 0 <= k < LATCHED ==> !r.lat[k]
    ensures Trip(Run(r, ins, limits)) <==>
      var init, enable := ins[..|ins| - 1], ins[|ins| - 1].enable;
      exists k :: 0 <= k < LATCHED && k != GLITCH && enable[k] && SetSinceClear(r, init, limits, k)
  {
    var init, i := ins[..|ins| - 1], ins[|ins| - 1];
    var e := Run(r, init, limits);
    RunSnoc(r, ins, limits);
    var mask := NextMask(e.lat, i.enable);
    forall k | 0 <= k < LATCHED
      ensures e.lat[k] <==> SetSinceClear(r, init, limits, k)
    {
      LatchLaw(r, init, limits, k);
    }
    if true in mask {
      var k :| 0 <= k < 16 && mask[k];
      assert Trips(k) && e.lat[k] && i.enable[k];
    } else {
      forall k | 0 <= k < LATCHED && k != GLITCH && i.enable[k]
        ensures !SetSinceClear(r, init, limits, k)
      {
        assert !mask[k];
      }
    }
  }

  lemma {:induction false} LatchStays(r: Regs, ins: seq<Inputs>, limits: Limits, k: nat)
    requires k < LATCHED && NoReset(ins) && ins != [] && NoClear(r, ins, limits, 0)
    requires r.live[k] || r.lat[k]
    ensures Run(r, ins, limits).lat[k]
    decreases |ins|
  {
    var e := Clock(r, ins[0], limits);
    assert ins[..0] == [];
    assert !At(r, ins, limits, 0).clearPulse;
    if |ins| > 1 {
      forall u | 0 <= u < |ins| - 1
        ensures !At(e, ins[1..], limits, u).clearPulse
      {
        assert ins[..u + 1][1..] == ins[1..][..u];
        assert !At(r, ins, limits, u + 1).clearPulse;
      }
      LatchStays(e, ins[1..], limits, k);
    } else {
      assert ins[1..] == [];
    }
  }

  /** From any state: two clocks after an enabled bit is live ON1 is low, and it stays low until
      a clear. */
  lemma TripHolds(r: Regs, ins: seq<Inputs>, limits: Limits, k: nat, psOn: bool)
    requires |ins| >= 2 && NoReset(ins)
    requires k < LATCHED && k != GLITCH && r.live[k] && ins[|ins| - 1].enable[k]
    requires NoClear(r, ins[..|ins| - 1], limits, 0)
    ensures !On1(Run(r, ins, limits), psOn)
  {
    var init := ins[..|ins| - 1];
    LatchStays(r, init, limits, k);
    RunSnoc(r, ins, limits);
    assert Run(r, ins, limits).mask[k];
  }

  // --- Clearing ---

  predicate Cleared(r: Regs) {
    && (forall k :: 0 <= k < COUNTED ==> BitOf(r, k) == Bit(0, false))
    && (forall k :: 0 <= k < LATCHED ==> !r.lat[k])
  }

  /** Of the clocks from `from` on the last is the first with a 10 kHz pulse. */
  predicate FirstPulseLast(r: Regs, ins: seq<Inputs>, limits: Limits, from: nat) {
    from < |ins| && forall t :: from <= t < |ins| ==> (At(r, ins, limits, t).pulse <==> t == |ins| - 1)
  }

  /** A clear, pending or just requested, waits for the next 10 kHz pulse and then clears every
      counter and latch. */
  lemma {:induction false} ClearTakesEffect(r: Regs, ins: seq<Inputs>, limits: Limits)
    requires NoReset(ins)
    requires (r.clearPulse && FirstPulseLast(r, ins, limits, 0)) || (r.re && !r.reReg && FirstPulseLast(r, ins, limits, 1))
    ensures Cleared(Run(r, ins, limits))
    decreases |ins|
  {
    var e, rest := Clock(r, ins[0], limits), ins[1..];
    assert ins[..0] == [];
    assert r == At(r, ins, limits, 0);
    if |ins| == 1 {
      assert Run(r, ins, limits) == Run(e, [], limits) == e;
      forall k | 0 <= k < COUNTED
        ensures BitOf(e, k) == Bit(0, false)
      {
        assert BitOf(e, k) == NextBit(ins[0], limits, BitOf(r, k), r.pulse, r.clearPulse, r.changed, k);
      }
    } else {
      forall t | 0 <= t < |rest|
        ensures At(e, rest, limits, t) == At(r, ins, limits, t + 1)
      {
        assert ins[..t + 1][1..] == rest[..t];
      }
      assert FirstPulseLast(e, rest, limits, 0);
      ClearTakesEffect(e, rest, limits);
    }
  }

  lemma {:induction false} SamplesPrefix(r: Regs, ins: seq<Inputs>, limits: Limits, k: nat, t: nat)
    requires k < COUNTED && t <= |ins|
    ensures |Samples(r, ins[..t], limits, k)| <= |Samples(r, ins, limits, k)|
    decreases |ins|
  {
    if t > 0 {
      assert ins[..t][1..] == ins[1..][..t - 1];
      SamplesPrefix(Clock(r, ins[0], limits), ins[1..], limits, k, t - 1);
    }
  }

  /** After a clear a counted bit cannot latch again within limit samples, whatever they are. */
  lemma NoEarlyLatch(r: Regs, ins: seq<Inputs>, limits: Limits, k: nat)
    requires Cleared(r) && NoReset(ins) && k < COUNTED
    requires |Samples(r, ins, limits, k)| <= limits[k]
    ensures !Run(r, ins, limits).lat[k]
  {
    LatchLaw(r, ins, limits, k);
    forall t | 0 <= t < |ins|
      ensures !SetAt(r, ins, limits, k, t)
    {
      SamplesPrefix(r, ins, limits, k, t);
      assert BitOf(r, k) == Bit(0, false);
      Debounce(r, ins[..t], limits, k);
    }
  }
}
