/** src/hw/hdl/dac_ad5781.vhd: the machine that shifts control and set-point words to the DAC. */
module DacSerialiser {
  import opened Common

  const SPI_CLK_DIV := 5
  const SYNC_WIDTH := 10
  const BITS := 24

  /** Vectors are written most significant bit first. */
  type Word = s: seq<bool> | |s| == BITS witness seq(BITS, _ => false)
  type Data = s: seq<bool> | |s| == 20 witness seq(20, _ => false)

  /** dac_ctrl_bits 4 down to 0. */
  datatype Ctrl = Ctrl(bin2sc: bool, rbuf: bool, dacTri: bool, sdoDis: bool, opGnd: bool)

  datatype Phase =
    Idle | SendCtrlReg | SendSetpoint | NSyncZero | FirstBit | SclkLo | SclkHi | DacDone | WaitSyncLow

  datatype Inputs = Inputs(reset: bool, start: bool, data: Data, ctrl: Ctrl)

  datatype Regs = Regs(
    phase: Phase, shift: Word, bitCount: nat, clkCount: nat, initCount: nat, setpointSent: bool,
    nSync: bool, sclk: bool, done: bool, data: Data, ctrl: Ctrl)

  /** x"400004": the software control register with its reset bit. */
  function ResetWord(): Word { [false, true] + Zeros(19) + [true] + Zeros(2) }

  /** x"400000": the same register with the reset bit cleared. */
  function ClearResetWord(): Word { [false, true] + Zeros(22) }

  function ControlWord(c: Ctrl): Word {
    [false] + [false, true, false] + Zeros(10) + Zeros(4) + [c.sdoDis, c.bin2sc, c.dacTri, c.opGnd, c.rbuf] + Zeros(1)
  }

  function SetpointWord(d: Data): Word { [false] + [false, false, true] + d }

  function Weight(bit: bool, w: nat): nat { if bit then w else 0 }

  lemma ToNatSnoc(s: seq<bool>, bit: bool)
    ensures ToNat(s + [bit]) == 2 * ToNat(s) + Weight(bit, 1)
  {
    assert (s + [bit])[..|s|] == s;
  }

  lemma ToNatTwo(a: bool, b: bool)
    ensures ToNat([a, b]) == Weight(a, 2) + Weight(b, 1)
  {
    ToNatSnoc([], a);
    ToNatSnoc([a], b);
    assert [] + [a] == [a] && [a] + [b] == [a, b];
  }

  lemma ToNatThree(a: bool, b: bool, c: bool)
    ensures ToNat([a, b, c]) == Weight(a, 4) + Weight(b, 2) + Weight(c, 1)
  {
    ToNatTwo(a, b);
    ToNatSnoc([a, b], c);
    assert [a, b] + [c] == [a, b, c];
  }

  lemma ToNatFour(a: bool, b: bool, c: bool, d: bool)
    ensures ToNat([a, b, c, d]) == Weight(a, 8) + Weight(b, 4) + Weight(c, 2) + Weight(d, 1)
  {
    ToNatThree(a, b, c);
    ToNatSnoc([a, b, c], d);
    assert [a, b, c] + [d] == [a, b, c, d];
  }

  lemma ToNatFive(a: bool, b: bool, c: bool, d: bool, e: bool)
    ensures ToNat([a, b, c, d, e]) == Weight(a, 16) + Weight(b, 8) + Weight(c, 4) + Weight(d, 2) + Weight(e, 1)
  {
    ToNatFour(a, b, c, d);
    ToNatSnoc([a, b, c, d], e);
    assert [a, b, c, d] + [e] == [a, b, c, d, e];
  }

  /** Writing register 1, the DAC register: 0x100000 and the 20 data bits. */
  lemma SetpointValue(d: Data)
    ensures ToNat(SetpointWord(d)) == 0x10_0000 + ToNat(d)
  {
    ToNatFour(false, false, false, true);
    assert [false] + [false, false, true] == [false, false, false, true];
    ToNatConcat([false, false, false, true], d);
    assert Pow2(10) == 0x400;
    assert Pow2(20) == 0x10_0000;
  }

  lemma ControlTail(bits: seq<bool>)
    requires |bits| == 5
    ensures ToNat(Zeros(14) + bits + Zeros(1)) == 2 * ToNat(bits)
  {
    ToNatZeros(14);
    ToNatZeros(1);
    ToNatConcat(Zeros(14), bits);
    ToNatConcat(Zeros(14) + bits, Zeros(1));
  }

  lemma ControlParts(c: Ctrl)
    ensures ControlWord(c) == [false, false, true, false]
      + (Zeros(14) + [c.sdoDis, c.bin2sc, c.dacTri, c.opGnd, c.rbuf] + Zeros(1))
  {
  }

  /** Writing register 2, the control register: 0x200000 and five bits above the lowest. */
  lemma ControlValue(c: Ctrl)
    ensures ToNat(ControlWord(c)) == 0x20_0000 + Weight(c.sdoDis, 32) + Weight(c.bin2sc, 16) + Weight(c.dacTri, 8)
      + Weight(c.opGnd, 4) + Weight(c.rbuf, 2)
  {
    var bits := [c.sdoDis, c.bin2sc, c.dacTri, c.opGnd, c.rbuf];
    ControlParts(c);
    ControlTail(bits);
    ControlHead(Zeros(14) + bits + Zeros(1));
    ToNatFive(c.sdoDis, c.bin2sc, c.dacTri, c.opGnd, c.rbuf);
  }

  lemma ControlHead(tail: seq<bool>)
    requires |tail| == 20
    ensures ToNat([false, false, true, false] + tail) == 0x20_0000 + ToNat(tail)
  {
    ToNatFour(false, false, true, false);
    ToNatConcat([false, false, true, false], tail);
    assert Pow2(10) == 0x400;
    assert Pow2(20) == 0x10_0000;
  }

  /** Writing the software control register, with its reset bit set and without. */
  lemma ResetValue()
    ensures ToNat(ResetWord()) == 0x40_0004 && ToNat(ClearResetWord()) == 0x40_0000
  {
    ToNatZeros(1);
    assert [false, true][..1] == Zeros(1);
    assert [true][..0] == [];
    ToNatZeros(19);
    ToNatZeros(2);
    ToNatZeros(22);
    ToNatConcat([false, true], Zeros(22));
    ToNatConcat([false, true], Zeros(19));
    ToNatConcat([false, true] + Zeros(19), [true]);
    ToNatConcat([false, true] + Zeros(19) + [true], Zeros(2));
    assert Pow2(10) == 0x400;
    assert Pow2(19) == 0x8_0000;
    assert Pow2(22) == 0x40_0000;
  }

  // --- One rising edge ---

  function Load(r: Regs, w: Word, setpoint: bool): Regs {
    r.(phase := NSyncZero, shift := w, setpointSent := setpoint)
  }

  function Advance(r: Regs, start: bool): Regs {
    match r.phase
    case Idle =>
      var r := r.(done := false);
      if !start then r
      else if r.initCount == 0 then r.(nSync := true, phase := NSyncZero, shift := ResetWord())
      else if r.initCount == 1 then r.(nSync := true, phase := NSyncZero, shift := ClearResetWord())
      else r.(nSync := true, phase := SendCtrlReg)
    case SendCtrlReg => Load(r, ControlWord(r.ctrl), false)
    case SendSetpoint => Load(r, SetpointWord(r.data), true)
    case NSyncZero =>
      if r.clkCount == SYNC_WIDTH then r.(nSync := false, clkCount := 0, sclk := true, phase := FirstBit)
      else r.(nSync := true, clkCount := r.clkCount + 1)
    case FirstBit =>
      if r.clkCount == SPI_CLK_DIV - 1
      then r.(sclk := false, clkCount := 0, bitCount := r.bitCount + 1, phase := SclkLo)
      else r.(sclk := true, clkCount := r.clkCount + 1)
    case SclkHi =>
      if r.clkCount != SPI_CLK_DIV - 1 then r.(sclk := true, clkCount := r.clkCount + 1)
      else if r.bitCount == BITS
      then r.(initCount := if r.initCount == 2 then 2 else r.initCount + 1, bitCount := 0, clkCount := 0, phase := DacDone)
      else r.(sclk := false, bitCount := r.bitCount + 1, clkCount := 0, phase := SclkLo)
    case SclkLo =>
      if r.clkCount == SPI_CLK_DIV - 1
      then r.(sclk := true, clkCount := 0, shift := r.shift[1..] + [false], phase := SclkHi)
      else r.(sclk := false, clkCount := r.clkCount + 1)
    case DacDone =>
      if r.clkCount != SYNC_WIDTH - 1 then r.(nSync := true, clkCount := r.clkCount + 1)
      else if !r.setpointSent then r.(nSync := true, clkCount := 0, phase := SendSetpoint)
      else r.(nSync := false, clkCount := 0, done := true, phase := WaitSyncLow)
    case WaitSyncLow =>
      if r.clkCount == SYNC_WIDTH - 1 then r.(nSync := false, clkCount := 0, phase := Idle)
      else r.(nSync := false, clkCount := r.clkCount + 1)
  }

  function Clock(r: Regs, i: Inputs): Regs {
    if i.reset
    then Regs(Idle, Zeros(BITS), 0, 0, 0, false, true, false, r.done, Zeros(20), r.ctrl)
    else Advance(r, i.start).(data := i.data, ctrl := i.ctrl)
  }

  class Serialiser {
    var phase: Phase
    var shift: Word
    var bitCount: nat
    var clkCount: nat
    var initCount: nat
    var setpointSent: bool
    var nSync: bool
    var sclk: bool
    var done: bool
    var data: Data
    var ctrl: Ctrl

    function Registers(): Regs
      reads this
    {
      Regs(phase, shift, bitCount, clkCount, initCount, setpointSent, nSync, sclk, done, data, ctrl)
    }

    predicate Loading() reads this { phase == Idle || phase == SendCtrlReg || phase == SendSetpoint }

    predicate Shifting() reads this { phase == NSyncZero || phase == FirstBit || phase == SclkLo || phase == SclkHi }

    method LoadWord(start: bool)
      requires Loading()
      modifies this
      ensures Registers() == Advance(old(Registers()), start)
    {
      if phase == Idle {
        done := false;
        if start {
          nSync := true;
          if initCount == 0 {
            shift := ResetWord();
            phase := NSyncZero;
          } else if initCount == 1 {
            shift := ClearResetWord();
            phase := NSyncZero;
          } else {
            phase := SendCtrlReg;
          }
        }
      } else if phase == SendCtrlReg {
        shift := ControlWord(ctrl);
        setpointSent := false;
        phase := NSyncZero;
      } else {
        setpointSent := true;
        shift := SetpointWord(data);
        phase := NSyncZero;
      }
    }

    method ShiftBits()
      requires Shifting()
      modifies this
      ensures Registers() == Advance(old(Registers()), false)
    {
      if phase == NSyncZero {
        if clkCount == SYNC_WIDTH {
          nSync, clkCount, sclk, phase := false, 0, true, FirstBit;
        } else {
          nSync, clkCount := true, clkCount + 1;
        }
      } else if phase == FirstBit {
        if clkCount == SPI_CLK_DIV - 1 {
          sclk, clkCount, bitCount, phase := false, 0, bitCount + 1, SclkLo;
        } else {
          sclk, clkCount := true, clkCount + 1;
        }
      } else if phase == SclkHi {
        if clkCount == SPI_CLK_DIV - 1 {
          if bitCount == BITS {
            if initCount != 2 {
              initCount := initCount + 1;
            }
            bitCount, phase := 0, DacDone;
          } else {
            sclk, bitCount, phase := false, bitCount + 1, SclkLo;
          }
          clkCount := 0;
        } else {
          sclk, clkCount := true, clkCount + 1;
        }
      } else {
        if clkCount == SPI_CLK_DIV - 1 {
          sclk, clkCount, shift, phase := true, 0, shift[1..] + [false], SclkHi;
        } else {
          sclk, clkCount := false, clkCount + 1;
        }
      }
    }

    method Finish()
      requires phase == DacDone || phase == WaitSyncLow
      modifies this
      ensures Registers() == Advance(old(Registers()), false)
    {
      if phase == DacDone {
        if clkCount == SYNC_WIDTH - 1 {
          clkCount := 0;
          if !setpointSent {
            nSync, phase := true, SendSetpoint;
          } else {
            nSync, done, phase := false, true, WaitSyncLow;
          }
        } else {
          nSync, clkCount := true, clkCount + 1;
        }
      } else {
        nSync := false;
        if clkCount == SYNC_WIDTH - 1 {
          clkCount, phase := 0, Idle;
        } else {
          clkCount := clkCount + 1;
        }
      }
    }

    method Reset()
      modifies this
      ensures Registers() == Clock(old(Registers()), Inputs(true, false, Zeros(20), old(ctrl)))
    {
      phase, initCount, sclk, bitCount, clkCount, setpointSent, nSync := Idle, 0, false, 0, 0, false, true;
      shift, data := Zeros(BITS), Zeros(20);
    }

    method Move(start: bool)
      modifies this
      ensures Registers() == Advance(old(Registers()), start)
    {
      if Loading() {
        LoadWord(start);
      } else if Shifting() {
        ShiftBits();
      } else {
        Finish();
      }
    }

    method Tick(i: Inputs)
      modifies this
      ensures Registers() == Clock(old(Registers()), i)
    {
      if i.reset {
        Reset();
      } else {
        Move(i.start);
        data, ctrl := i.data, i.ctrl;
      }
    }
  }

  // --- Runs ---

  datatype Frame = ResetFrame | ClearResetFrame | ControlFrame(ctrl: Ctrl) | SetpointFrame(data: Data)

  function FrameBits(f: Frame): Word {
    match f
    case ResetFrame => ResetWord()
    case ClearResetFrame => ClearResetWord()
    case ControlFrame(c) => ControlWord(c)
    case SetpointFrame(d) => SetpointWord(d)
  }

  /** The bits of all frames in order. */
  function Stream(frames: seq<Frame>): seq<bool> {
    if frames == [] then [] else Stream(frames[..|frames| - 1]) + FrameBits(frames[|frames| - 1])
  }

  /** `frames` were loaded and `starts` accepted so far; `bits` is what the DAC has taken from
      sdo, one bit at each falling edge of sclk while n_sync is low. */
  datatype World = World(regs: Regs, starts: nat, frames: seq<Frame>, bits: seq<bool>)

  function Loaded(r: Regs, start: bool): seq<Frame> {
    if r.phase == Idle && start && r.initCount == 0 then [ResetFrame]
    else if r.phase == Idle && start && r.initCount == 1 then [ClearResetFrame]
    else if r.phase == SendCtrlReg then [ControlFrame(r.ctrl)]
    else if r.phase == SendSetpoint then [SetpointFrame(r.data)]
    else []
  }

  /** sdo is the top bit of the shift register. */
  function Taken(r: Regs, e: Regs): seq<bool> {
    if r.sclk && !e.sclk && !e.nSync then [e.shift[0]] else []
  }

  function Step(w: World, i: Inputs): World {
    var e := Clock(w.regs, i);
    World(e, w.starts + (if w.regs.phase == Idle && i.start then 1 else 0),
      w.frames + Loaded(w.regs, i.start), w.bits + Taken(w.regs, e))
  }

  function Run(w: World, ins: seq<Inputs>): World
    decreases |ins|
  {
    if ins == [] then w else Run(Step(w, ins[0]), ins[1..])
  }

  predicate NoReset(ins: seq<Inputs>) { forall t :: 0 <= t < |ins| ==> !ins[t].reset }

  /** A reset starts the record anew, whatever the state before it. */
  function AfterReset(r: Regs, i: Inputs): World
    requires i.reset
  {
    World(Clock(r, i), 0, [], [])
  }

  /** The counters and clock lines in each phase. */
  predicate Counters(r: Regs) {
    match r.phase
    case Idle => r.clkCount == 0 && r.bitCount == 0
    case SendCtrlReg => r.clkCount == 0 && r.bitCount == 0
    case SendSetpoint => r.clkCount == 0 && r.bitCount == 0
    case NSyncZero => r.clkCount <= SYNC_WIDTH && r.bitCount == 0
    case FirstBit => r.clkCount < SPI_CLK_DIV && r.bitCount == 0 && r.sclk && !r.nSync
    case SclkLo => r.clkCount < SPI_CLK_DIV && 1 <= r.bitCount <= BITS && !r.sclk && !r.nSync
    case SclkHi => r.clkCount < SPI_CLK_DIV && 1 <= r.bitCount <= BITS && r.sclk && !r.nSync
    case DacDone => r.clkCount < SYNC_WIDTH && r.bitCount == 0
    case WaitSyncLow => r.clkCount < SYNC_WIDTH && r.bitCount == 0
  }

  /** What of the current frame the DAC has not taken yet. */
  function Rest(r: Regs): seq<bool>
    requires Counters(r)
  {
    match r.phase
    case NSyncZero => r.shift
    case FirstBit => r.shift
    case SclkLo => r.shift[1..BITS + 1 - r.bitCount]
    case SclkHi => r.shift[..BITS - r.bitCount]
    case _ => []
  }

  /** How the frames loaded, the starts and the initial count go together. */
  predicate Progress(w: World) {
    var r, first, n := w.regs, w.starts == 1, |w.frames|;
    match r.phase
    case Idle => n == 2 * w.starts && r.initCount == (if w.starts == 0 then 0 else 2) && (w.starts == 0 ==> !r.setpointSent)
    case SendCtrlReg => w.starts >= 2 && n == 2 * w.starts - 2 && r.initCount == 2
    case SendSetpoint => w.starts >= 1 && n == 2 * w.starts - 1 && r.initCount == (if first then 1 else 2)
    case WaitSyncLow => w.starts >= 1 && n == 2 * w.starts && r.initCount == 2
    case DacDone =>
      && w.starts >= 1 && n == 2 * w.starts - (if r.setpointSent then 0 else 1)
      && r.initCount == (if first && !r.setpointSent then 1 else 2)
    case _ =>
      && w.starts >= 1 && n == 2 * w.starts - (if r.setpointSent then 0 else 1)
      && r.initCount == (if !first then 2 else if r.setpointSent then 1 else 0)
  }

  /** The first start sends the reset word and every later one a control word; each is followed
      by a set-point. */
  predicate Alternate(frames: seq<Frame>) {
    forall k :: 0 <= k < |frames| ==>
      if k % 2 == 1 then frames[k].SetpointFrame? else if k == 0 then frames[k] == ResetFrame else frames[k].ControlFrame?
  }

  predicate Inv(w: World) {
    && Counters(w.regs)
    && Progress(w)
    && Alternate(w.frames)
    && Stream(w.frames) == w.bits + Rest(w.regs)
  }

  lemma StreamSnoc(frames: seq<Frame>, f: Frame)
    ensures Stream(frames + [f]) == Stream(frames) + FrameBits(f)
  {
    assert (frames + [f])[..|frames|] == frames;
  }

  /** The phases in which n_sync is low and bits are sent. */
  predicate Clocking(p: Phase) { p == FirstBit || p == SclkLo || p == SclkHi }

  lemma BitCounters(r: Regs, i: Inputs)
    requires Counters(r) && !i.reset && Clocking(r.phase)
    ensures Counters(Clock(r, i))
  {
  }

  predicate Loads(p: Phase) { p == Idle || p == SendCtrlReg || p == SendSetpoint }

  lemma LoadCounters(r: Regs, i: Inputs)
    requires Counters(r) && !i.reset && Loads(r.phase)
    ensures Counters(Clock(r, i))
  {
  }

  lemma HoldCounters(r: Regs, i: Inputs)
    requires Counters(r) && !i.reset && !Clocking(r.phase) && !Loads(r.phase)
    ensures Counters(Clock(r, i))
  {
  }

  lemma CountersStep(r: Regs, i: Inputs)
    requires Counters(r) && !i.reset
    ensures Counters(Clock(r, i))
  {
    if Clocking(r.phase) {
      BitCounters(r, i);
    } else if Loads(r.phase) {
      LoadCounters(r, i);
    } else {
      HoldCounters(r, i);
    }
  }

  lemma LoadProgress(w: World, i: Inputs)
    requires Counters(w.regs) && Progress(w) && !i.reset && Loads(w.regs.phase)
    ensures Progress(Step(w, i))
  {
  }

  lemma BitProgress(w: World, i: Inputs)
    requires Counters(w.regs) && Progress(w) && !i.reset && Clocking(w.regs.phase)
    ensures Progress(Step(w, i))
  {
  }

  lemma HoldProgress(w: World, i: Inputs)
    requires Counters(w.regs) && Progress(w) && !i.reset && !Loads(w.regs.phase) && !Clocking(w.regs.phase)
    ensures Progress(Step(w, i))
  {
  }

  lemma ProgressStep(w: World, i: Inputs)
    requires Counters(w.regs) && Progress(w) && !i.reset
    ensures Progress(Step(w, i))
  {
    if Loads(w.regs.phase) {
      LoadProgress(w, i);
    } else if Clocking(w.regs.phase) {
      BitProgress(w, i);
    } else {
      HoldProgress(w, i);
    }
  }

  lemma AlternateStep(w: World, i: Inputs)
    requires Progress(w) && Alternate(w.frames) && !i.reset
    ensures Alternate(Step(w, i).frames)
  {
  }

  /** What is taken at a clock is the head of what was left of the frame. */
  lemma LowHalf(r: Regs, i: Inputs)
    requires Counters(r) && !i.reset && Counters(Clock(r, i)) && r.phase == SclkLo
    ensures Taken(r, Clock(r, i)) == [] && Rest(r) == Rest(Clock(r, i))
  {
    var e, left := Clock(r, i), BITS - r.bitCount;
    if e.phase == SclkHi {
      assert e.shift == r.shift[1..] + [false];
      assert e.shift[..left] == r.shift[1..1 + left];
    }
  }

  lemma HighHalf(r: Regs, i: Inputs)
    requires Counters(r) && !i.reset && Counters(Clock(r, i)) && (r.phase == FirstBit || r.phase == SclkHi)
    ensures Rest(r) == Taken(r, Clock(r, i)) + Rest(Clock(r, i))
  {
    var e := Clock(r, i);
    if e.phase == SclkLo {
      assert Taken(r, e) == [r.shift[0]];
      assert Rest(e) == r.shift[1..BITS + 1 - e.bitCount];
    } else {
      assert Taken(r, e) == [];
    }
  }

  lemma IdleRest(r: Regs, i: Inputs)
    requires Counters(r) && !i.reset && Counters(Clock(r, i)) && r.phase == Idle
    ensures var f := Loaded(r, i.start);
      Rest(r) == Taken(r, Clock(r, i)) == [] && Rest(Clock(r, i)) == if f != [] then FrameBits(f[0]) else []
  {
  }

  lemma SendRest(r: Regs, i: Inputs)
    requires Counters(r) && !i.reset && Counters(Clock(r, i)) && (r.phase == SendCtrlReg || r.phase == SendSetpoint)
    ensures var f := Loaded(r, i.start);
      f != [] && Rest(r) == Taken(r, Clock(r, i)) == [] && Rest(Clock(r, i)) == FrameBits(f[0])
  {
  }

  lemma HoldingRest(r: Regs, i: Inputs)
    requires Counters(r) && !i.reset && Counters(Clock(r, i)) && !Clocking(r.phase) && !Loads(r.phase)
    ensures Taken(r, Clock(r, i)) == [] && Rest(r) == Rest(Clock(r, i))
  {
  }

  lemma RestStep(r: Regs, i: Inputs)
    requires Counters(r) && !i.reset && Counters(Clock(r, i))
    ensures var e, f := Clock(r, i), Loaded(r, i.start);
      if f != [] then Rest(r) == Taken(r, e) == [] && Rest(e) == FrameBits(f[0]) else Rest(r) == Taken(r, e) + Rest(e)
  {
    if r.phase == Idle {
      IdleRest(r, i);
    } else if Loads(r.phase) {
      SendRest(r, i);
    } else if r.phase == SclkLo {
      LowHalf(r, i);
      assert [] + Rest(r) == Rest(r);
    } else if Clocking(r.phase) {
      HighHalf(r, i);
    } else {
      HoldingRest(r, i);
    }
  }

  /** The account of bits taken and bits left, when at most one frame is loaded. */
  lemma Account(frames: seq<Frame>, f: seq<Frame>, bits: seq<bool>, rest: seq<bool>, taken: seq<bool>, more: seq<bool>)
    requires Stream(frames) == bits + rest && |f| <= 1
    requires if f != [] then rest == taken == [] && more == FrameBits(f[0]) else rest == taken + more
    ensures Stream(frames + f) == (bits + taken) + more
  {
    if f != [] {
      StreamSnoc(frames, f[0]);
      assert f == [f[0]];
      assert bits + rest == bits && bits + taken == bits;
    } else {
      assert frames + f == frames;
      assert bits + (taken + more) == (bits + taken) + more;
    }
  }

  lemma StreamStep(w: World, i: Inputs)
    requires Counters(w.regs) && Stream(w.frames) == w.bits + Rest(w.regs) && !i.reset
    requires Counters(Clock(w.regs, i))
    ensures Stream(Step(w, i).frames) == Step(w, i).bits + Rest(Clock(w.regs, i))
  {
    var e := Clock(w.regs, i);
    RestStep(w.regs, i);
    Account(w.frames, Loaded(w.regs, i.start), w.bits, Rest(w.regs), Taken(w.regs, e), Rest(e));
  }

  lemma StepInv(w: World, i: Inputs)
    requires Inv(w) && !i.reset
    ensures Inv(Step(w, i))
  {
    CountersStep(w.regs, i);
    ProgressStep(w, i);
    AlternateStep(w, i);
    StreamStep(w, i);
  }

  lemma {:induction false} RunInv(w: World, ins: seq<Inputs>)
    requires Inv(w) && NoReset(ins)
    ensures Inv(Run(w, ins))
    decreases |ins|
  {
    if ins != [] {
      StepInv(w, ins[0]);
      RunInv(Step(w, ins[0]), ins[1..]);
    }
  }

  /** A set-point or control word is the input of the clock before it is loaded. */
  lemma {:induction false} InputsRegistered(w: World, ins: seq<Inputs>)
    requires ins != [] && NoReset(ins)
    ensures Run(w, ins).regs.data == ins[|ins| - 1].data && Run(w, ins).regs.ctrl == ins[|ins| - 1].ctrl
    decreases |ins|
  {
    if |ins| > 1 {
      InputsRegistered(Step(w, ins[0]), ins[1..]);
    }
  }

  // --- Timing ---

  /** n_sync high, 24 bits of 10 clocks after a first half, and the closing gap. */
  const FRAME := SYNC_WIDTH + 1 + SPI_CLK_DIV + 2 * SPI_CLK_DIV * BITS + SYNC_WIDTH

  /** Clocks from the end of a frame to idle. */
  function Tail(setpointSent: bool): nat {
    if setpointSent then SYNC_WIDTH else 1 + FRAME + SYNC_WIDTH
  }

  function BitsLeft(r: Regs): int { 2 * SPI_CLK_DIV * (BITS - r.bitCount) + SYNC_WIDTH + Tail(r.setpointSent) }

  /** Clocks until the machine is idle again. */
  function Left(r: Regs): int {
    match r.phase
    case Idle => 0
    case SendCtrlReg => 1 + FRAME + Tail(false)
    case SendSetpoint => 1 + FRAME + Tail(true)
    case NSyncZero => SYNC_WIDTH + 1 - r.clkCount + SPI_CLK_DIV + BitsLeft(r)
    case FirstBit => SPI_CLK_DIV - r.clkCount + BitsLeft(r)
    case SclkLo => 2 * SPI_CLK_DIV - r.clkCount + BitsLeft(r)
    case SclkHi => SPI_CLK_DIV - r.clkCount + BitsLeft(r)
    case DacDone => SYNC_WIDTH - r.clkCount + Tail(r.setpointSent)
    case WaitSyncLow => SYNC_WIDTH - r.clkCount
  }

  lemma BitLeftFalls(r: Regs, i: Inputs)
    requires Counters(r) && !i.reset && Clocking(r.phase)
    ensures Left(Clock(r, i)) == Left(r) - 1
  {
  }

  lemma LeftFalls(r: Regs, i: Inputs)
    requires Counters(r) && r.phase != Idle && !i.reset
    ensures Left(Clock(r, i)) == Left(r) - 1
  {
    if Clocking(r.phase) {
      BitLeftFalls(r, i);
    }
  }

  lemma {:induction false} BusyFor(w: World, ins: seq<Inputs>)
    requires Inv(w) && NoReset(ins) && |ins| <= Left(w.regs)
    ensures Left(Run(w, ins).regs) == Left(w.regs) - |ins|
    ensures Run(w, ins).starts == w.starts
    decreases |ins|
  {
    if ins != [] {
      LeftFalls(w.regs, ins[0]);
      StepInv(w, ins[0]);
      BusyFor(Step(w, ins[0]), ins[1..]);
    }
  }

  lemma StartBegins(w: World, i: Inputs)
    requires Inv(w) && w.regs.phase == Idle && i.start && !i.reset
    ensures Left(Step(w, i).regs) == if w.starts == 0 then 543 else 544
    ensures Step(w, i).starts == w.starts + 1
  {
  }

  lemma IdleSent(w: World)
    requires Inv(w) && w.regs.phase == Idle
    ensures w.bits == Stream(w.frames) && |w.frames| == 2 * w.starts
  {
    assert w.bits + [] == w.bits;
  }

  /** While busy `done` is up in the closing wait only, and it is up when the machine becomes idle. */
  predicate DoneOk(r: Regs) { r.done <==> r.phase == WaitSyncLow || r.phase == Idle }

  lemma DoneStep(r: Regs, i: Inputs)
    requires !i.reset && r.phase != Idle && DoneOk(r)
    ensures DoneOk(Clock(r, i))
  {
  }

  lemma WaitIsLast(r: Regs)
    requires Counters(r)
    ensures Left(r) <= SYNC_WIDTH <==> r.phase == WaitSyncLow || r.phase == Idle
  {
  }

  lemma {:induction false} DoneRun(w: World, ins: seq<Inputs>)
    requires Inv(w) && NoReset(ins) && DoneOk(w.regs) && |ins| <= Left(w.regs)
    ensures Run(w, ins).regs.done <==> Left(w.regs) - |ins| <= SYNC_WIDTH
    decreases |ins|
  {
    if ins == [] {
      WaitIsLast(w.regs);
    } else {
      LeftFalls(w.regs, ins[0]);
      StepInv(w, ins[0]);
      DoneStep(w.regs, ins[0]);
      DoneRun(Step(w, ins[0]), ins[1..]);
    }
  }

  /** After a start `done` is down until ten clocks before the machine is idle again. */
  lemma {:induction false} DoneSignals(w: World, i: Inputs, ins: seq<Inputs>)
    requires Inv(w) && w.regs.phase == Idle && i.start && !i.reset && NoReset(ins)
    requires |ins| <= (if w.starts == 0 then 543 else 544)
    ensures Run(Step(w, i), ins).regs.done <==> |ins| + 10 >= (if w.starts == 0 then 543 else 544)
  {
    StepInv(w, i);
    StartBegins(w, i);
    DoneRun(Step(w, i), ins);
  }

  /** An idle clock takes it down. */
  lemma DoneFalls(w: World, i: Inputs)
    requires w.regs.phase == Idle && !i.reset
    ensures !Step(w, i).regs.done
  {
  }

  // --- Which inputs a start sends ---

  lemma {:induction false} RunConcat(w: World, a: seq<Inputs>, b: seq<Inputs>)
    ensures Run(w, a + b) == Run(Run(w, a), b)
    decreases |a|
  {
    if a == [] {
      assert a + b == b;
    } else {
      assert (a + b)[1..] == a[1..] + b;
      RunConcat(Step(w, a[0]), a[1..], b);
    }
  }

  /** Clocks left when the set-point is about to be loaded. */
  const HALFWAY := 1 + FRAME + SYNC_WIDTH

  /** Between two loads, with a set-point still to come. */
  predicate FirstFrame(r: Regs) { !r.setpointSent && r.phase != Idle && r.phase != SendCtrlReg && Left(r) >= HALFWAY }

  predicate SecondFrame(r: Regs) { r.setpointSent && r.phase != SendCtrlReg && r.phase != SendSetpoint }

  lemma FirstFrameStep(r: Regs, i: Inputs)
    requires Counters(r) && !i.reset && FirstFrame(r) && Left(r) > HALFWAY
    ensures FirstFrame(Clock(r, i)) && Loaded(r, i.start) == [] && Left(Clock(r, i)) == Left(r) - 1
  {
    LeftFalls(r, i);
  }

  lemma {:induction false} FirstFrameRun(w: World, ins: seq<Inputs>)
    requires Inv(w) && NoReset(ins) && FirstFrame(w.regs) && |ins| == Left(w.regs) - HALFWAY
    ensures var e := Run(w, ins);
      Inv(e) && e.frames == w.frames && e.regs.phase == SendSetpoint
    decreases |ins|
  {
    if ins != [] {
      FirstFrameStep(w.regs, ins[0]);
      StepInv(w, ins[0]);
      FirstFrameRun(Step(w, ins[0]), ins[1..]);
    }
  }

  lemma SecondFrameStep(r: Regs, i: Inputs)
    requires Counters(r) && !i.reset && SecondFrame(r) && r.phase != Idle
    ensures SecondFrame(Clock(r, i)) && Loaded(r, i.start) == [] && Left(Clock(r, i)) == Left(r) - 1
  {
    LeftFalls(r, i);
  }

  lemma {:induction false} SecondFrameRun(w: World, ins: seq<Inputs>)
    requires Inv(w) && NoReset(ins) && SecondFrame(w.regs) && |ins| <= Left(w.regs)
    ensures Run(w, ins).frames == w.frames
    decreases |ins|
  {
    if ins != [] {
      SecondFrameStep(w.regs, ins[0]);
      StepInv(w, ins[0]);
      SecondFrameRun(Step(w, ins[0]), ins[1..]);
    }
  }

  /** The first frame has just been loaded. */
  predicate FirstLoaded(w: World) { Inv(w) && FirstFrame(w.regs) && Left(w.regs) == HALFWAY + FRAME }

  lemma {:induction false} SetpointLoads(w: World, a: seq<Inputs>, i: Inputs, b: seq<Inputs>)
    requires FirstLoaded(w) && NoReset(a) && !i.reset && NoReset(b)
    requires |a| == FRAME && 1 + |b| == HALFWAY
    ensures Run(Step(Run(w, a), i), b).frames == w.frames + [SetpointFrame(a[FRAME - 1].data)]
  {
    FirstFrameRun(w, a);
    InputsRegistered(w, a);
    var m := Run(w, a);
    StepInv(m, i);
    LeftFalls(m.regs, i);
    SecondFrameRun(Step(m, i), b);
  }

  lemma {:induction false} RunSplit(w: World, ins: seq<Inputs>, n: nat)
    requires n < |ins|
    ensures Run(w, ins) == Run(Step(Run(w, ins[..n]), ins[n]), ins[n + 1..])
  {
    assert ins == ins[..n] + ins[n..] && ins[n..][1..] == ins[n + 1..];
    RunConcat(w, ins[..n], ins[n..]);
  }

  lemma {:induction false} NoResetParts(ins: seq<Inputs>, n: nat)
    requires NoReset(ins) && n < |ins|
    ensures NoReset(ins[..n]) && !ins[n].reset && NoReset(ins[n + 1..])
  {
  }

  /** Once the first frame is loaded, the one that follows carries the data input of the clock
      before its load. */
  lemma {:induction false} SetpointFollows(w: World, ins: seq<Inputs>)
    requires FirstLoaded(w) && NoReset(ins) && |ins| == HALFWAY + FRAME
    ensures Run(w, ins).frames == w.frames + [SetpointFrame(ins[FRAME - 1].data)]
  {
    var a, i, b := ins[..FRAME], ins[FRAME], ins[FRAME + 1..];
    NoResetParts(ins, FRAME);
    SetpointLoads(w, a, i, b);
    RunSplit(w, ins, FRAME);
  }

  /** Clocks from an accepted start to idle. */
  function Busy(first: bool): nat { if first then 543 else 544 }

  /** The two frames of a start, from the inputs at the start and after it. */
  function FramesOf(first: bool, i: Inputs, ins: seq<Inputs>): seq<Frame>
    requires |ins| == Busy(first)
  {
    if first then [ResetFrame, SetpointFrame(ins[FRAME - 1].data)]
    else [ControlFrame(i.ctrl), SetpointFrame(ins[FRAME].data)]
  }

  lemma {:induction false} FirstStartSends(w: World, i: Inputs, ins: seq<Inputs>)
    requires Inv(w) && w.regs.phase == Idle && i.start && !i.reset && NoReset(ins)
    requires w.starts == 0 && |ins| == Busy(true)
    ensures Run(Step(w, i), ins).frames == w.frames + FramesOf(true, i, ins)
  {
    var m := Step(w, i);
    StepInv(w, i);
    StartBegins(w, i);
    SetpointFollows(m, ins);
    assert w.frames + [ResetFrame] + [SetpointFrame(ins[FRAME - 1].data)] == w.frames + FramesOf(true, i, ins);
  }

  lemma ControlLoads(w: World, i: Inputs, next: Inputs)
    requires Inv(w) && w.regs.phase == Idle && i.start && !i.reset && w.starts > 0 && !next.reset
    ensures var m := Step(Step(w, i), next);
      FirstLoaded(m) && m.frames == w.frames + [ControlFrame(i.ctrl)]
  {
    var m := Step(w, i);
    StepInv(w, i);
    StepInv(m, next);
    assert w.frames + [] == w.frames;
  }

  lemma {:induction false} LaterStartSends(w: World, i: Inputs, ins: seq<Inputs>)
    requires Inv(w) && w.regs.phase == Idle && i.start && !i.reset && NoReset(ins)
    requires w.starts > 0 && |ins| == Busy(false)
    ensures Run(Step(w, i), ins).frames == w.frames + FramesOf(false, i, ins)
  {
    ControlLoads(w, i, ins[0]);
    SetpointFollows(Step(Step(w, i), ins[0]), ins[1..]);
    assert w.frames + [ControlFrame(i.ctrl)] + [SetpointFrame(ins[FRAME].data)] == w.frames + FramesOf(false, i, ins);
  }

  /** From an accepted start the machine ignores further starts and is idle again after exactly
      544 clocks (543 for the first start), having sent the control bits of the start and the data
      present one frame later. */
  lemma {:induction false} StartTakes(w: World, i: Inputs, ins: seq<Inputs>)
    requires Inv(w) && w.regs.phase == Idle && i.start && !i.reset && NoReset(ins)
    requires |ins| <= Busy(w.starts == 0)
    ensures var e := Run(Step(w, i), ins);
      && (e.regs.phase == Idle <==> |ins| == Busy(w.starts == 0))
      && e.starts == w.starts + 1 && Inv(e)
      && (|ins| == Busy(w.starts == 0) ==>
           e.frames == w.frames + FramesOf(w.starts == 0, i, ins) && e.bits == Stream(e.frames))
  {
    StepInv(w, i);
    StartBegins(w, i);
    BusyFor(Step(w, i), ins);
    RunInv(Step(w, i), ins);
    var e := Run(Step(w, i), ins);
    IdleIffNoneLeft(e.regs);
    if e.regs.phase == Idle {
      IdleSent(e);
      if w.starts == 0 {
        FirstStartSends(w, i, ins);
      } else {
        LaterStartSends(w, i, ins);
      }
    }
  }

  lemma IdleIffNoneLeft(r: Regs)
    requires Counters(r)
    ensures Left(r) == 0 <==> r.phase == Idle
  {
  }

  // --- Whole runs ---

  /** What a run that begins and ends idle sends, told from its inputs alone: each start that falls
      outside the busy time of the one before sends its two frames. */
  function Sent(first: bool, ins: seq<Inputs>): seq<Frame>
    decreases |ins|
  {
    if ins == [] then []
    else if !ins[0].start then Sent(first, ins[1..])
    else
      var n := Busy(first);
      if |ins| <= n then [] else FramesOf(first, ins[0], ins[1..n + 1]) + Sent(false, ins[n + 1..])
  }

  lemma IdleWaits(w: World, i: Inputs)
    requires w.regs.phase == Idle && !i.start && !i.reset
    ensures var e := Step(w, i);
      e.regs.phase == Idle && e.frames == w.frames && e.starts == w.starts
  {
  }

  /** An idle machine that has taken a start or not, and the frames loaded so far. */
  predicate IdleWith(w: World, first: bool, frames: seq<Frame>) {
    Inv(w) && w.regs.phase == Idle && (w.starts == 0 <==> first) && w.frames == frames
  }

  lemma StaysIdle(w: World, i: Inputs, first: bool, frames: seq<Frame>)
    requires IdleWith(w, first, frames) && !i.start && !i.reset
    ensures IdleWith(Step(w, i), first, frames)
  {
    StepInv(w, i);
    IdleWaits(w, i);
  }

  lemma {:induction false} Served(w: World, i: Inputs, ins: seq<Inputs>, first: bool, frames: seq<Frame>)
    requires IdleWith(w, first, frames) && i.start && !i.reset && NoReset(ins) && |ins| == Busy(first)
    ensures IdleWith(Run(Step(w, i), ins), false, frames + FramesOf(first, i, ins))
  {
    StartTakes(w, i, ins);
  }

  lemma {:induction false} StillBusy(w: World, i: Inputs, ins: seq<Inputs>, first: bool, frames: seq<Frame>)
    requires IdleWith(w, first, frames) && i.start && !i.reset && NoReset(ins) && |ins| < Busy(first)
    ensures Run(Step(w, i), ins).regs.phase != Idle
  {
    StartTakes(w, i, ins);
  }

  /** The state n clocks after the first. */
  function After(w: World, ins: seq<Inputs>, n: nat): World
    requires n < |ins|
  {
    Run(Step(w, ins[0]), ins[1..n + 1])
  }

  lemma {:induction false} RunAfter(w: World, ins: seq<Inputs>, n: nat)
    requires n < |ins|
    ensures Run(w, ins) == Run(After(w, ins, n), ins[n + 1..])
  {
    assert ins[1..] == ins[1..n + 1] + ins[n + 1..];
    RunConcat(Step(w, ins[0]), ins[1..n + 1], ins[n + 1..]);
  }

  lemma {:induction false} ServedAfter(w: World, ins: seq<Inputs>, first: bool, frames: seq<Frame>)
    requires IdleWith(w, first, frames) && NoReset(ins) && |ins| > Busy(first) && ins[0].start
    ensures var n := Busy(first);
      IdleWith(After(w, ins, n), false, frames + FramesOf(first, ins[0], ins[1..n + 1]))
  {
    Served(w, ins[0], ins[1..Busy(first) + 1], first, frames);
  }

  /** If the run ends idle, these are the frames loaded by then. */
  predicate Sends(w: World, ins: seq<Inputs>, frames: seq<Frame>) {
    Run(w, ins).regs.phase == Idle ==> Run(w, ins).frames == frames
  }

  lemma {:induction false} SendsWhileIdle(w: World, ins: seq<Inputs>, first: bool, frames: seq<Frame>)
    requires ins != [] && !ins[0].start && Sends(Step(w, ins[0]), ins[1..], frames + Sent(first, ins[1..]))
    ensures Sends(w, ins, frames + Sent(first, ins))
  {
  }

  lemma {:induction false} SendsAfter(w: World, ins: seq<Inputs>, first: bool, frames: seq<Frame>)
    requires |ins| > Busy(first) && ins[0].start
    requires var n := Busy(first);
      Sends(After(w, ins, n), ins[n + 1..], frames + FramesOf(first, ins[0], ins[1..n + 1]) + Sent(false, ins[n + 1..]))
    ensures Sends(w, ins, frames + Sent(first, ins))
  {
    var n := Busy(first);
    RunAfter(w, ins, n);
    assert Sent(first, ins) == FramesOf(first, ins[0], ins[1..n + 1]) + Sent(false, ins[n + 1..]);
    assert frames + Sent(first, ins) == frames + FramesOf(first, ins[0], ins[1..n + 1]) + Sent(false, ins[n + 1..]);
  }

  lemma {:induction false} FramesSent(w: World, ins: seq<Inputs>, first: bool, frames: seq<Frame>)
    requires IdleWith(w, first, frames) && NoReset(ins)
    ensures Sends(w, ins, frames + Sent(first, ins))
    decreases |ins|
  {
    if ins == [] {
      assert frames + [] == frames;
    } else if !ins[0].start {
      StaysIdle(w, ins[0], first, frames);
      FramesSent(Step(w, ins[0]), ins[1..], first, frames);
      SendsWhileIdle(w, ins, first, frames);
    } else if |ins| <= Busy(first) {
      StillBusy(w, ins[0], ins[1..], first, frames);
    } else {
      var n := Busy(first);
      ServedAfter(w, ins, first, frames);
      FramesSent(After(w, ins, n), ins[n + 1..], false, frames + FramesOf(first, ins[0], ins[1..n + 1]));
      SendsAfter(w, ins, first, frames);
    }
  }

  /** In every run from reset the DAC takes the bits of whole 24-bit frames, most significant bit
      first, and a beginning of the frame being sent; whenever it is idle, the two frames of each start
      it accepted, with the inputs of that start. */
  lemma {:induction false} DacTakesFrames(r: Regs, i: Inputs, ins: seq<Inputs>)
    requires i.reset && NoReset(ins)
    ensures var w := Run(AfterReset(r, i), ins);
      && Alternate(w.frames)
      && w.bits <= Stream(w.frames)
      && |Stream(w.frames)| - |w.bits| <= BITS
      && (w.regs.phase == Idle ==> |w.frames| == 2 * w.starts && w.frames == Sent(true, ins) && w.bits == Stream(w.frames))
  {
    var w0 := AfterReset(r, i);
    RunInv(w0, ins);
    if Run(w0, ins).regs.phase == Idle {
      FramesSent(w0, ins, true, []);
      assert [] + Sent(true, ins) == Sent(true, ins);
      IdleSent(Run(w0, ins));
    }
  }
}
