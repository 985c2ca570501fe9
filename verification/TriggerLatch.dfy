/** The process of src/hw/hdl/ps_io.vhd that latches the ring pointer and the time on each trigger. */
module TriggerLatch {
  import opened Common

  const TRIGS := 17            // four each of usr, flt, err and inj, and evr

  datatype Latched = Latched(ptr: u32, ts: u32, ns: u32)

  type Lines = s: seq<bool> | |s| == TRIGS witness seq(TRIGS, _ => false)
  type Latches = s: seq<Latched> | |s| == TRIGS witness seq(TRIGS, _ => Latched(0, 0, 0))

  datatype Inputs = Inputs(reset: bool, lines: Lines, now: Latched)

  datatype Regs = Regs(prev: Lines, latched: Latches)

  function NextLatch(r: Regs, i: Inputs, k: nat): Latched
    requires k < TRIGS
  {
    if i.reset then r.latched[k].(ptr := 0)
    else if i.lines[k] && !r.prev[k] then i.now
    else r.latched[k]
  }

  function Clock(r: Regs, i: Inputs): Regs {
    Regs(if i.reset then r.prev else i.lines, seq(TRIGS, k requires 0 <= k < TRIGS => NextLatch(r, i, k)))
  }

  class TriggerLatches {
    var prev: Lines
    var latched: Latches

    function Registers(): Regs
      reads this
    {
      Regs(prev, latched)
    }

    /** The VHDL writes the body of each loop out once for every trigger. */
    method Tick(i: Inputs)
      modifies this
      ensures Registers() == Clock(old(Registers()), i)
    {
      ghost var r := Registers();
      for k := 0 to TRIGS
        invariant prev == r.prev
        invariant forall j :: 0 <= j < TRIGS ==> latched[j] == if j < k then NextLatch(r, i, j) else r.latched[j]
      {
        if i.reset {
          latched := latched[k := latched[k].(ptr := 0)];
        } else if i.lines[k] && !prev[k] {
          latched := latched[k := i.now];
        }
      }
      if !i.reset {
        prev := i.lines;
      }
    }
  }

  function Run(r: Regs, ins: seq<Inputs>): Regs
    decreases |ins|
  {
    if ins == [] then r else Run(Clock(r, ins[0]), ins[1..])
  }

  predicate NoReset(ins: seq<Inputs>) { forall t :: 0 <= t < |ins| ==> !ins[t].reset }

  /** Trigger k rises at clock t of a run. */
  predicate Rises(r: Regs, ins: seq<Inputs>, k: nat, t: nat)
    requires k < TRIGS && t < |ins|
  {
    ins[t].lines[k] && !(if t == 0 then r.prev[k] else ins[t - 1].lines[k])
  }

  lemma {:induction false} Untouched(r: Regs, ins: seq<Inputs>, k: nat)
    requires k < TRIGS && NoReset(ins) && forall t :: 0 <= t < |ins| ==> !Rises(r, ins, k, t)
    ensures Run(r, ins).latched[k] == r.latched[k]
    decreases |ins|
  {
    if ins != [] {
      var e := Clock(r, ins[0]);
      assert !Rises(r, ins, k, 0);
      forall t | 0 <= t < |ins| - 1
        ensures !Rises(e, ins[1..], k, t)
      {
        assert !Rises(r, ins, k, t + 1);
      }
      Untouched(e, ins[1..], k);
    }
  }

  /** A latch holds what was on its inputs at the last rising edge of its trigger. */
  lemma {:induction false} HoldsLastEdge(r: Regs, ins: seq<Inputs>, k: nat, t: nat)
    requires k < TRIGS && t < |ins| && NoReset(ins)
    requires Rises(r, ins, k, t) && forall u :: t < u < |ins| ==> !Rises(r, ins, k, u)
    ensures Run(r, ins).latched[k] == ins[t].now
    decreases t
  {
    var e := Clock(r, ins[0]);
    forall u | 0 <= u < |ins| - 1
      ensures Rises(e, ins[1..], k, u) == Rises(r, ins, k, u + 1)
    {
    }
    if t == 0 {
      Untouched(e, ins[1..], k);
      assert e.latched[k] == NextLatch(r, ins[0], k);
    } else {
      HoldsLastEdge(e, ins[1..], k, t - 1);
    }
  }

  /** Resets clear the address and forget nothing else: the time stays, and a line that was high before
      them and is high after has not risen. */
  lemma {:induction false} ThroughResets(r: Regs, resets: seq<Inputs>, i: Inputs, k: nat)
    requires k < TRIGS && resets != [] && (forall t :: 0 <= t < |resets| ==> resets[t].reset) && !i.reset
    ensures Run(r, resets).prev == r.prev && Run(r, resets).latched[k] == r.latched[k].(ptr := 0)
    ensures Clock(Run(r, resets), i).latched[k] ==
      if i.lines[k] && !r.prev[k] then i.now else r.latched[k].(ptr := 0)
    decreases |resets|
  {
    var e := Clock(r, resets[0]);
    assert e.latched[k] == NextLatch(r, resets[0], k);
    if |resets| > 1 {
      ThroughResets(e, resets[1..], i, k);
    } else {
      assert resets[1..] == [];
      assert Clock(e, i).latched[k] == NextLatch(e, i, k);
    }
  }
}
