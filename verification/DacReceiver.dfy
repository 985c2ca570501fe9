/** The DAC at the other end of the serial lines: it takes a word while n_sync is low and loads it when
    n_sync rises after 24 bits. */
module DacReceiver {
  import opened Common
  import opened DacSerialiser

  /** The bits taken since n_sync fell, and the words loaded so far. */
  datatype Dac = Dac(word: seq<bool>, words: seq<seq<bool>>)

  /** What the DAC makes of one clock, from the lines before and after it. */
  function Receive(d: Dac, r: Regs, e: Regs): Dac {
    if r.nSync && !e.nSync then Dac([], d.words)
    else if !r.nSync && e.nSync then Dac([], if |d.word| == 24 then d.words + [d.word] else d.words)
    else d.(word := d.word + Taken(r, e))
  }

  function DacRun(w: World, d: Dac, ins: seq<Inputs>): Dac
    decreases |ins|
  {
    if ins == [] then d else
    var e := Step(w, ins[0]);
    DacRun(e, Receive(d, w.regs, e.regs), ins[1..])
  }

  function Words(frames: seq<Frame>): (ws: seq<seq<bool>>)
    ensures |ws| == |frames|
  {
    seq(|frames|, k requires 0 <= k < |frames| => FrameBits(frames[k]))
  }

  // --- What the DAC holds in each phase, for the words ws that the machine has been given ---

  /** All of them have reached the DAC. */
  predicate All(ws: seq<seq<bool>>, d: Dac) { d.words == ws && d.word == [] }

  /** All but the last, of which `rest` is still to come. */
  predicate AllBut(ws: seq<seq<bool>>, d: Dac, rest: seq<bool>) {
    ws != [] && d.words == ws[..|ws| - 1] && d.word + rest == ws[|ws| - 1]
  }

  predicate Heard(r: Regs, ws: seq<seq<bool>>, d: Dac)
    requires Counters(r)
  {
    match r.phase
    case NSyncZero => AllBut(ws, d, r.shift) && d.word == [] && (r.clkCount > 0 ==> r.nSync)
    case FirstBit => AllBut(ws, d, Rest(r))
    case SclkLo => AllBut(ws, d, Rest(r))
    case SclkHi => AllBut(ws, d, Rest(r))
    case DacDone => if r.clkCount > 0 then r.nSync && All(ws, d) else !r.nSync && AllBut(ws, d, []) && |d.word| == 24
    case _ => All(ws, d)
  }

  // --- One clock ---

  /** Bits move from what is left of the frame to the DAC. */
  lemma {:induction false} Moves(r: Regs, e: Regs, ws: seq<seq<bool>>, d: Dac)
    requires Counters(r) && Counters(e) && !r.nSync && !e.nSync && Rest(r) == Taken(r, e) + Rest(e)
    requires AllBut(ws, d, Rest(r))
    ensures AllBut(ws, Receive(d, r, e), Rest(e))
  {
    assert d.word + (Taken(r, e) + Rest(e)) == d.word + Taken(r, e) + Rest(e);
  }

  /** Where the clock half of a bit leads. */
  lemma ClockingLeads(r: Regs, i: Inputs)
    requires Counters(r) && !i.reset && Clocking(r.phase)
    ensures var e := Clock(r, i);
      && !r.nSync && !e.nSync
      && (Clocking(e.phase) || (e.phase == DacDone && e.clkCount == 0))
  {
  }

  lemma {:induction false} ClockingRest(r: Regs, i: Inputs)
    requires Counters(r) && !i.reset && Clocking(r.phase) && Counters(Clock(r, i))
    ensures Rest(r) == Taken(r, Clock(r, i)) + Rest(Clock(r, i))
  {
    if r.phase == SclkLo {
      LowHalf(r, i);
      assert [] + Rest(r) == Rest(r);
    } else {
      HighHalf(r, i);
    }
  }

  lemma {:induction false} WordWhole(r: Regs, ws: seq<seq<bool>>, d: Dac)
    requires AllBut(ws, d, []) && |ws[|ws| - 1]| == 24
    ensures |d.word| == 24 && ws == d.words + [d.word]
  {
    assert d.word + [] == d.word;
    assert ws == ws[..|ws| - 1] + [ws[|ws| - 1]];
  }

  lemma {:induction false} ClockingHeard(r: Regs, i: Inputs, ws: seq<seq<bool>>, d: Dac)
    requires Counters(r) && !i.reset && Clocking(r.phase) && Counters(Clock(r, i)) && Heard(r, ws, d)
    requires ws != [] ==> |ws[|ws| - 1]| == 24
    ensures Heard(Clock(r, i), ws, Receive(d, r, Clock(r, i)))
  {
    var e := Clock(r, i);
    ClockingLeads(r, i);
    ClockingRest(r, i);
    Moves(r, e, ws, d);
    if e.phase == DacDone {
      assert Rest(e) == [];
      WordWhole(e, ws, Receive(d, r, e));
    }
  }

  lemma SyncLeads(r: Regs, i: Inputs)
    requires Counters(r) && !i.reset && r.phase == NSyncZero
    ensures var e := Clock(r, i);
      && Taken(r, e) == [] && e.shift == r.shift
      && ((e.phase == FirstBit && !e.nSync) || (e.phase == NSyncZero && e.nSync && e.clkCount > 0))
  {
  }

  lemma {:induction false} SyncHeard(r: Regs, i: Inputs, ws: seq<seq<bool>>, d: Dac)
    requires Counters(r) && !i.reset && r.phase == NSyncZero && Counters(Clock(r, i)) && Heard(r, ws, d)
    ensures Heard(Clock(r, i), ws, Receive(d, r, Clock(r, i)))
  {
    SyncLeads(r, i);
    assert Receive(d, r, Clock(r, i)) == d;
  }

  lemma DoneLeads(r: Regs, i: Inputs)
    requires Counters(r) && !i.reset && r.phase == DacDone
    ensures var e := Clock(r, i);
      && Taken(r, e) == []
      && ((e.phase == DacDone && e.clkCount > 0 && e.nSync) || (r.clkCount > 0 && (e.phase == SendSetpoint || e.phase == WaitSyncLow)))
  {
  }

  lemma {:induction false} DoneHeard(r: Regs, i: Inputs, ws: seq<seq<bool>>, d: Dac)
    requires Counters(r) && !i.reset && r.phase == DacDone && Counters(Clock(r, i)) && Heard(r, ws, d)
    ensures Heard(Clock(r, i), ws, Receive(d, r, Clock(r, i)))
  {
    DoneLeads(r, i);
    if r.clkCount == 0 {
      assert d.word + [] == d.word;
      WordWhole(r, ws, d);
    }
  }

  lemma {:induction false} QuietHeard(r: Regs, i: Inputs, ws: seq<seq<bool>>, d: Dac)
    requires Counters(r) && !i.reset && Counters(Clock(r, i)) && Heard(r, ws, d)
    requires r.phase == WaitSyncLow || (r.phase == Idle && !i.start)
    ensures Heard(Clock(r, i), ws, Receive(d, r, Clock(r, i)))
  {
    assert Taken(r, Clock(r, i)) == [];
    assert Receive(d, r, Clock(r, i)) == d;
  }

  /** A clock that takes in a start or loads a word `more`. */
  lemma LoadLeads(r: Regs, i: Inputs)
    requires Counters(r) && !i.reset && Loads(r.phase) && (r.phase == Idle ==> i.start)
    ensures var e, f := Clock(r, i), Loaded(r, i.start);
      && Taken(r, e) == []
      && (f == [] ==> e.phase == SendCtrlReg)
      && (f != [] ==> |f| == 1 && e.phase == NSyncZero && e.clkCount == 0 && e.shift == FrameBits(f[0]))
  {
  }

  lemma {:induction false} LoadHeard(r: Regs, i: Inputs, ws: seq<seq<bool>>, d: Dac)
    requires Counters(r) && !i.reset && Counters(Clock(r, i)) && Heard(r, ws, d)
    requires Loads(r.phase) && (r.phase == Idle ==> i.start)
    ensures Heard(Clock(r, i), ws + Words(Loaded(r, i.start)), Receive(d, r, Clock(r, i)))
  {
    var e, f := Clock(r, i), Loaded(r, i.start);
    LoadLeads(r, i);
    assert Receive(d, r, e) == d;
    if f == [] {
      assert ws + Words(f) == ws;
    } else {
      var more := FrameBits(f[0]);
      assert Words(f) == [more];
      assert (ws + [more])[..|ws|] == ws && [] + more == more;
    }
  }

  lemma {:induction false} NothingLoaded(r: Regs, start: bool)
    requires !Loads(r.phase) || (r.phase == Idle && !start)
    ensures Loaded(r, start) == []
  {
  }

  lemma {:induction false} RegsHeard(r: Regs, i: Inputs, ws: seq<seq<bool>>, d: Dac)
    requires Counters(r) && !i.reset && Counters(Clock(r, i)) && Heard(r, ws, d)
    requires ws != [] ==> |ws[|ws| - 1]| == 24
    ensures Heard(Clock(r, i), ws + Words(Loaded(r, i.start)), Receive(d, r, Clock(r, i)))
  {
    if Loads(r.phase) && (r.phase == Idle ==> i.start) {
      LoadHeard(r, i, ws, d);
    } else {
      NothingLoaded(r, i.start);
      assert ws + Words([]) == ws;
      if Clocking(r.phase) {
        ClockingHeard(r, i, ws, d);
      } else if r.phase == NSyncZero {
        SyncHeard(r, i, ws, d);
      } else if r.phase == DacDone {
        DoneHeard(r, i, ws, d);
      } else {
        QuietHeard(r, i, ws, d);
      }
    }
  }

  // --- Runs ---

  lemma {:induction false} WordsConcat(a: seq<Frame>, b: seq<Frame>)
    ensures Words(a + b) == Words(a) + Words(b)
  {
  }

  lemma {:induction false} RunHeard(w: World, d: Dac, ins: seq<Inputs>)
    requires Counters(w.regs) && NoReset(ins) && Heard(w.regs, Words(w.frames), d)
    ensures var e := Run(w, ins);
      Counters(e.regs) && Heard(e.regs, Words(e.frames), DacRun(w, d, ins))
    decreases |ins|
  {
    if ins != [] {
      CountersStep(w.regs, ins[0]);
      RegsHeard(w.regs, ins[0], Words(w.frames), d);
      WordsConcat(w.frames, Loaded(w.regs, ins[0].start));
      RunHeard(Step(w, ins[0]), Receive(d, w.regs, Clock(w.regs, ins[0])), ins[1..]);
    }
  }

  /** In every run from reset, whenever the machine is idle the DAC has loaded exactly the words told by the
      inputs, each as a frame of its own. */
  lemma {:induction false} DacLoadsWords(r: Regs, i: Inputs, ins: seq<Inputs>)
    requires i.reset && NoReset(ins)
    ensures var w := AfterReset(r, i);
      Run(w, ins).regs.phase == Idle ==> DacRun(w, Dac([], []), ins).words == Words(Sent(true, ins))
  {
    RunHeard(AfterReset(r, i), Dac([], []), ins);
    DacTakesFrames(r, i, ins);
  }
}
