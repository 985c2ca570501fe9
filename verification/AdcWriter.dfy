/** src/hw/hdl/adc2ddr.vhd: the machine that writes one record to the snapshot ring for each
    10 kHz trigger, as an AXI burst, together with the memory that accepts the burst. */
module AdcWriter {
  import opened Common
  import opened DdrRing

  /** The VHDL has one state per word; Word(0) is HDR and Word(39) is WRDLAST. */
  datatype Phase = Idle | Address | Word(j: Beat) | AwaitResp

  datatype Inputs = Inputs(trigger: bool, awready: bool, wready: bool, bvalid: bool, sample: Sample)

  /** `beat` counts the words the memory has accepted in the current burst. */
  datatype Regs = Regs(
    phase: Phase, prev: bool, addr: u32, cnt: u32, ptr: u32, awaddr: u32, wdata: u32, wvalid: bool,
    beat: nat, mem: Memory)

  // --- One rising edge ---

  function Store(mem: Memory, p: int, w: u32): Memory {
    if 0 <= p < MEM_WORDS then mem[p := w] else mem
  }

  /** Where the next accepted word goes. */
  function Target(awaddr: u32, beat: nat): int { (awaddr - BASE) / 4 + beat }

  /** The memory's side: a word is accepted when wvalid and wready are both high. */
  function Accept(r: Regs, wready: bool): Regs {
    if r.wvalid && wready
    then r.(mem := Store(r.mem, Target(r.awaddr, r.beat), r.wdata), beat := r.beat + 1)
    else r
  }

  function NextAddr(addr: u32): u32 {
    if addr < TOP then addr + STRIDE else BASE
  }

  function Advance(r: Regs, i: Inputs): Regs {
    match r.phase
    case Idle =>
      if i.trigger && !r.prev
      then r.(phase := Address, prev := true, ptr := r.addr, cnt := (r.cnt + 1) % 0x1_0000_0000, awaddr := r.addr)
      else r.(prev := i.trigger)
    case Address =>
      if i.awready then r.(phase := Word(0), wdata := 0, beat := 0) else r
    case Word(j) =>
      if i.wready
      then r.(phase := if j == WORDS - 1 then AwaitResp else Word(j + 1), wvalid := true, wdata := WordOf(j, r.cnt, i.sample))
      else r
    case AwaitResp =>
      if i.bvalid
      then r.(phase := Idle, wvalid := false, addr := NextAddr(r.addr))
      else r.(wvalid := false)
  }

  function Clock(r: Regs, i: Inputs): Regs { Advance(Accept(r, i.wready), i) }

  class Adc2Ddr {
    var phase: Phase
    var prev: bool
    var addr: u32
    var cnt: u32
    var ptr: u32
    var awaddr: u32
    var wdata: u32
    var wvalid: bool
    var beat: nat
    const ddr: array<u32>

    constructor (memory: array<u32>, prev: bool)
      requires memory.Length == MEM_WORDS
      ensures ddr == memory && Registers() == Initial(prev, ddr[..])
    {
      ddr := memory;
      phase, this.prev, addr, cnt, ptr, awaddr, wdata, wvalid, beat := Idle, prev, BASE, 0, 0, 0, 0, false, 0;
    }

    function Registers(): Regs
      requires ddr.Length == MEM_WORDS
      reads this, ddr
    {
      Regs(phase, prev, addr, cnt, ptr, awaddr, wdata, wvalid, beat, ddr[..])
    }

    method AcceptWord(wready: bool)
      requires ddr.Length == MEM_WORDS
      modifies this`beat, ddr
      ensures Registers() == Accept(old(Registers()), wready)
    {
      if wvalid && wready {
        var p := Target(awaddr, beat);
        if 0 <= p < MEM_WORDS {
          ddr[p] := wdata;
        }
        beat := beat + 1;
      }
    }

    method Move(i: Inputs)
      requires ddr.Length == MEM_WORDS
      modifies this
      ensures Registers() == Advance(old(Registers()), i)
    {
      match phase
      case Idle =>
        if i.trigger && !prev {
          ptr, cnt, awaddr := addr, (cnt + 1) % 0x1_0000_0000, addr;
          phase := Address;
        }
        prev := i.trigger;
      case Address =>
        if i.awready {
          wdata, beat := 0, 0;
          phase := Word(0);
        }
      case Word(j) =>
        if i.wready {
          wvalid, wdata := true, WordOf(j, cnt, i.sample);
          phase := if j == WORDS - 1 then AwaitResp else Word(j + 1);
        }
      case AwaitResp =>
        wvalid := false;
        if i.bvalid {
          if addr < TOP {
            addr := addr + STRIDE;
          } else {
            addr := BASE;
          }
          phase := Idle;
        }
    }

    method Tick(i: Inputs)
      requires ddr.Length == MEM_WORDS
      modifies this, ddr
      ensures Registers() == Clock(old(Registers()), i)
    {
      AcceptWord(i.wready);
      Move(i);
    }
  }

  // --- Runs ---

  /** After reset, with whatever the memory then holds. */
  function Initial(prev: bool, mem: Memory): Regs {
    Regs(Idle, prev, BASE, 0, 0, 0, 0, false, 0, mem)
  }

  /** For each record begun so far, the samples its words were taken from. */
  type Log = seq<seq<Sample>>

  function NextLog(r: Regs, i: Inputs, log: Log): Log {
    if r.phase == Idle && i.trigger && !r.prev then log + [[]]
    else if r.phase.Word? && i.wready && log != [] then log[|log| - 1 := log[|log| - 1] + [i.sample]]
    else log
  }

  /** AXI: a burst is answered only after its last word has been accepted. */
  predicate Legal(r: Regs, i: Inputs) {
    i.bvalid ==> r.beat == WORDS
  }

  datatype World = World(regs: Regs, log: Log)

  function Step(w: World, i: Inputs): World {
    World(Clock(w.regs, i), NextLog(w.regs, i, w.log))
  }

  /** Records written completely. */
  function Complete(w: World): nat {
    if w.regs.phase == Idle || w.log == [] then |w.log| else |w.log| - 1
  }

  /** The first `words` words of record n are in memory. */
  predicate Stored(mem: Memory, log: Log, n: nat, words: nat)
    requires 1 <= n <= |log|
  {
    && words <= WORDS && words <= |log[n - 1]|
    && forall j :: 0 <= j < words ==> mem[Place(n, j)] == WordOf(j, Count(n), log[n - 1][j])
  }

  /** Record n is whole and the writer has not come round to its slot again. */
  predicate Kept(w: World, n: nat) { 1 <= n <= Complete(w) && |w.log| < n + SLOTS }

  predicate Burst(w: World) {
    var r, b := w.regs, |w.log|;
    && b >= 1
    && r.awaddr == r.addr
    && var taken := |w.log[b - 1]|;
      match r.phase
      case Idle => true
      case Address => taken == 0 && !r.wvalid
      case Word(j) => taken == j && r.wvalid == (j > 0) && r.beat == (if j > 0 then j - 1 else 0)
      case AwaitResp => taken == WORDS && (if r.wvalid then r.beat == WORDS - 1 else WORDS - 1 <= r.beat <= WORDS)
  }

  /** The word on the bus is the next word of the current record. */
  predicate OnBus(w: World) {
    var r, b := w.regs, |w.log|;
    && b >= 1
    && r.beat < WORDS && r.beat < |w.log[b - 1]|
    && r.wdata == WordOf(r.beat, Count(b), w.log[b - 1][r.beat])
  }

  predicate Sent(w: World) {
    var r, b := w.regs, |w.log|;
    && b >= 1
    && (r.wvalid ==> OnBus(w))
    && (r.phase != Address ==> Stored(r.mem, w.log, b, r.beat))
  }

  predicate Pointers(w: World) {
    var r, b := w.regs, |w.log|;
    && r.addr == SlotAddr(Slot(Complete(w) + 1))
    && r.cnt == Count(b)
    && (b >= 1 ==> r.ptr == SlotAddr(Slot(b)))
  }

  ghost predicate Inv(w: World) {
    && Pointers(w)
    && (w.regs.phase == Idle ==> !w.regs.wvalid)
    && (w.regs.phase != Idle ==> Burst(w) && Sent(w))
    && forall n: nat :: Kept(w, n) ==> Stored(w.regs.mem, w.log, n, WORDS)
  }

  lemma CountNext(n: nat)
    ensures (Count(n) + 1) % 0x1_0000_0000 == Count(n + 1)
  {
  }

  lemma TargetIsPlace(n: nat, j: Beat)
    requires n >= 1
    ensures Target(SlotAddr(Slot(n)), j) == Place(n, j)
  {
  }

  /** Accepting the word on the bus extends the current record and disturbs no other. */
  lemma AcceptStores(w: World, wready: bool)
    requires Inv(w) && w.regs.phase != Idle && w.regs.wvalid && wready
    ensures var e, b := Accept(w.regs, wready), |w.log|;
      && Stored(e.mem, w.log, b, e.beat)
      && forall n: nat :: Kept(w, n) && n < b ==> Stored(e.mem, w.log, n, WORDS)
  {
    var r, b := w.regs, |w.log|;
    var e := Accept(r, wready);
    TargetIsPlace(b, r.beat);
    assert e.mem == r.mem[Place(b, r.beat) := r.wdata];
    forall n: nat | Kept(w, n) && n < b
      ensures Stored(e.mem, w.log, n, WORDS)
    {
      SlotsDiffer(n, b);
      assert Stored(r.mem, w.log, n, WORDS);
    }
  }

  lemma AcceptKeeps(w: World, wready: bool)
    requires Inv(w) && w.regs.phase != Idle
    ensures var e, b := Accept(w.regs, wready), |w.log|;
      && (w.regs.phase != Address ==> Stored(e.mem, w.log, b, e.beat))
      && forall n: nat :: Kept(w, n) ==> Stored(e.mem, w.log, n, WORDS)
  {
    if w.regs.wvalid && wready {
      AcceptStores(w, wready);
    }
  }

  lemma IdleStep(w: World, i: Inputs)
    requires Inv(w) && w.regs.phase == Idle
    ensures Inv(Step(w, i))
  {
    var e, b := Step(w, i), |w.log|;
    CountNext(b);
    forall n: nat | Kept(e, n)
      ensures Stored(e.regs.mem, e.log, n, WORDS)
    {
      assert Kept(w, n);
    }
  }

  lemma AddressStep(w: World, i: Inputs)
    requires Inv(w) && w.regs.phase == Address
    ensures Inv(Step(w, i))
  {
    var e := Step(w, i);
    forall n: nat | Kept(e, n)
      ensures Stored(e.regs.mem, e.log, n, WORDS)
    {
      assert Kept(w, n);
    }
  }

  lemma WordOnBus(w: World, i: Inputs)
    requires Inv(w) && w.regs.phase.Word?
    ensures Burst(Step(w, i)) && (Step(w, i).regs.wvalid ==> OnBus(Step(w, i)))
  {
  }

  lemma WordStep(w: World, i: Inputs)
    requires Inv(w) && w.regs.phase.Word?
    ensures Inv(Step(w, i))
  {
    var e, b := Step(w, i), |w.log|;
    WordOnBus(w, i);
    AcceptKeeps(w, i.wready);
    StoredMore(Accept(w.regs, i.wready).mem, w.log, e.log, b, e.regs.beat);
    forall n: nat | Kept(e, n)
      ensures Stored(e.regs.mem, e.log, n, WORDS)
    {
      assert Kept(w, n) && n < b;
      StoredMore(e.regs.mem, w.log, e.log, n, WORDS);
    }
  }

  /** Taking one more sample for the current record leaves what is stored as it was. */
  lemma StoredMore(mem: Memory, log: Log, more: Log, n: nat, words: nat)
    requires 1 <= n <= |log| == |more| && Stored(mem, log, n, words)
    requires log[n - 1] <= more[n - 1]
    ensures Stored(mem, more, n, words)
  {
  }

  lemma AwaitStep(w: World, i: Inputs)
    requires Inv(w) && w.regs.phase == AwaitResp && Legal(w.regs, i)
    ensures Inv(Step(w, i))
  {
    var e, b := Step(w, i), |w.log|;
    AcceptKeeps(w, i.wready);
    SlotNext(b);
    forall n: nat | Kept(e, n)
      ensures Stored(e.regs.mem, e.log, n, WORDS)
    {
      assert n < b ==> Kept(w, n);
    }
  }

  lemma StepInv(w: World, i: Inputs)
    requires Inv(w) && Legal(w.regs, i)
    ensures Inv(Step(w, i))
  {
    match w.regs.phase
    case Idle => IdleStep(w, i);
    case Address => AddressStep(w, i);
    case Word(_) => WordStep(w, i);
    case AwaitResp => AwaitStep(w, i);
  }

  function Run(w: World, ins: seq<Inputs>): World
    decreases |ins|
  {
    if ins == [] then w else Run(Step(w, ins[0]), ins[1..])
  }

  predicate LegalRun(w: World, ins: seq<Inputs>)
    decreases |ins|
  {
    ins == [] || (Legal(w.regs, ins[0]) && LegalRun(Step(w, ins[0]), ins[1..]))
  }

  /** In every run each record not yet overwritten is in its slot, whole, with its own number,
      and the pointer offered to the trigger latches is that of the record last begun. */
  lemma {:induction false} RunInv(w: World, ins: seq<Inputs>)
    requires Inv(w) && LegalRun(w, ins)
    ensures Inv(Run(w, ins))
    decreases |ins|
  {
    if ins != [] {
      StepInv(w, ins[0]);
      RunInv(Step(w, ins[0]), ins[1..]);
    }
  }

  lemma RecordsKept(prev: bool, mem: Memory, ins: seq<Inputs>, n: nat)
    requires LegalRun(World(Initial(prev, mem), []), ins)
    ensures var w := Run(World(Initial(prev, mem), []), ins);
      && (Kept(w, n) ==> Stored(w.regs.mem, w.log, n, WORDS))
      && (w.log != [] ==> w.regs.ptr == 0x1000_0000 + 160 * ((|w.log| - 1) % 200001))
  {
    RunInv(World(Initial(prev, mem), []), ins);
  }

  /** wvalid drops one clock after the last word is offered. If the memory is not ready in that
      clock the last word is lost, the burst is never answered and the writer stops for good. */
  lemma {:induction false} LastWordLost(w: World, ins: seq<Inputs>)
    requires w.regs.phase == AwaitResp && !w.regs.wvalid && w.regs.beat == WORDS - 1
    requires LegalRun(w, ins)
    ensures Run(w, ins).regs.phase == AwaitResp && Run(w, ins).log == w.log
    decreases |ins|
  {
    if ins != [] {
      LastWordLost(Step(w, ins[0]), ins[1..]);
    }
  }

  lemma BurstEndsIff(w: World, i: Inputs)
    requires Inv(w) && w.regs.phase == AwaitResp && w.regs.wvalid && Legal(w.regs, i)
    ensures var e := Step(w, i);
      && (i.wready ==> Legal(e.regs, i.(bvalid := true)) && Step(e, i.(bvalid := true)).regs.phase == Idle)
      && (!i.wready ==> forall ins :: LegalRun(e, ins) ==> Run(e, ins).regs.phase == AwaitResp)
  {
    var e := Step(w, i);
    AwaitStep(w, i);
    if !i.wready {
      forall ins | LegalRun(e, ins)
        ensures Run(e, ins).regs.phase == AwaitResp
      {
        LastWordLost(e, ins);
      }
    }
  }
}
