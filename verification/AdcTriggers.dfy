/** Which records the writer makes, told from its inputs: one for each trigger that finds it idle, of the
    samples present while it was written. */
module AdcTriggers {
  import opened Common
  import opened DdrRing
  import opened W = AdcWriter

  /** Clocks from a trigger to idle when the memory is always ready: the edge, the address, forty words, the
      last word's acceptance and the response. */
  const BURST := 44

  /** A rising trigger, and a memory that accepts at once and answers as soon as it may. */
  predicate ReadyBurst(b: seq<Inputs>) {
    && |b| == BURST && b[0].trigger && b[1].awready
    && (forall k :: 2 <= k < 43 ==> b[k].wready)
    && (forall k :: 0 <= k < 43 ==> !b[k].bvalid) && b[43].bvalid
  }

  /** The trigger does not rise, given its level before, and is low at the end. */
  predicate NoEdge(prev: bool, ins: seq<Inputs>)
    decreases |ins|
  {
    if ins == [] then !prev else (ins[0].trigger ==> prev) && NoEdge(ins[0].trigger, ins[1..])
  }

  function SamplesOf(ins: seq<Inputs>): (ss: seq<Sample>)
    ensures |ss| == |ins|
  {
    seq(|ins|, k requires 0 <= k < |ins| => ins[k].sample)
  }

  lemma {:induction false} RunConcat(w: World, a: seq<Inputs>, b: seq<Inputs>)
    ensures Run(w, a + b) == Run(Run(w, a), b)
    decreases |a|
  {
    if a == [] {
      assert a + b == b;
    } else {
      assert (a + b)[1..] == a[1..] + b;
      RunConcat(Step(w, a[0]), a[1..], b);
    }
  }

  /** The forty words, from word j on: each takes the sample present at its clock. */
  lemma {:induction false} WordsTaken(w: World, ins: seq<Inputs>, j: Beat)
    requires w.regs.phase == Word(j) && w.log != [] && |ins| == WORDS - j
    requires forall k :: 0 <= k < |ins| ==> ins[k].wready
    requires w.regs.beat == (if j == 0 then 0 else j - 1) && w.regs.wvalid == (j > 0)
    ensures var e, n := Run(w, ins), |w.log| - 1;
      && e.regs.phase == AwaitResp && e.regs.wvalid && e.regs.beat == WORDS - 1 && e.regs.prev == w.regs.prev
      && e.log == w.log[n := w.log[n] + SamplesOf(ins)]
    decreases |ins|
  {
    var v, n := Step(w, ins[0]), |w.log| - 1;
    if j < WORDS - 1 {
      WordsTaken(v, ins[1..], j + 1);
      assert SamplesOf(ins) == [ins[0].sample] + SamplesOf(ins[1..]);
      assert w.log[n] + SamplesOf(ins) == w.log[n] + [ins[0].sample] + SamplesOf(ins[1..]);
    } else {
      assert SamplesOf(ins) == [ins[0].sample];
      assert ins[1..] == [];
    }
  }

  lemma {:induction false} TwoSteps(w: World, a: Inputs, b: Inputs)
    ensures Run(w, [a, b]) == Step(Step(w, a), b)
  {
    assert [a, b][1..] == [b] && [b][1..] == [];
    assert Run(Step(w, a), [b]) == Run(Step(Step(w, a), b), []);
  }

  /** Trigger and address. */
  lemma {:induction false} BurstBegins(w: World, a: Inputs, b: Inputs)
    requires w.regs.phase == Idle && !w.regs.prev && !w.regs.wvalid && a.trigger && b.awready
    ensures var e := Run(w, [a, b]);
      && e.regs.phase == Word(0) && e.regs.prev && e.regs.beat == 0 && !e.regs.wvalid
      && e.log == w.log + [[]]
  {
    TwoSteps(w, a, b);
  }

  /** Last word and response. */
  lemma {:induction false} BurstEnds(w: World, a: Inputs, b: Inputs)
    requires w.regs.phase == AwaitResp && w.regs.wvalid && w.regs.beat == WORDS - 1
    requires a.wready && !a.bvalid && b.bvalid
    ensures var e := Run(w, [a, b]);
      && e.regs.phase == Idle && e.regs.prev == w.regs.prev && !e.regs.wvalid && e.log == w.log
      && e.regs.beat == WORDS
      && Legal(w.regs, a) && Legal(Step(w, a).regs, b)
  {
    TwoSteps(w, a, b);
  }

  /** A trigger that finds the writer idle makes one record of the samples at clocks 2 to 41. */
  lemma {:induction false} TriggerRecorded(w: World, b: seq<Inputs>)
    requires w.regs.phase == Idle && !w.regs.prev && !w.regs.wvalid && ReadyBurst(b)
    ensures var e := Run(w, b);
      && e.regs.phase == Idle && e.regs.prev && !e.regs.wvalid && e.regs.beat == WORDS
      && e.log == w.log + [SamplesOf(b[2..42])]
  {
    var start, words, end := [b[0], b[1]], b[2..42], [b[42], b[43]];
    assert b == start + (words + end);
    RunConcat(w, start, words + end);
    BurstBegins(w, b[0], b[1]);
    var w1 := Run(w, start);
    RunConcat(w1, words, end);
    WordsTaken(w1, words, 0);
    var w2 := Run(w1, words);
    BurstEnds(w2, b[42], b[43]);
    assert [] + SamplesOf(words) == SamplesOf(words);
    assert w2.log == w.log + [SamplesOf(words)];
  }

  /** Without a rising trigger an idle writer makes none. */
  lemma {:induction false} QuietIdle(w: World, ins: seq<Inputs>)
    requires w.regs.phase == Idle && !w.regs.wvalid && NoEdge(w.regs.prev, ins)
    ensures var e := Run(w, ins);
      e.regs.phase == Idle && !e.regs.wvalid && !e.regs.prev && e.log == w.log
    decreases |ins|
  {
    if ins != [] {
      QuietIdle(Step(w, ins[0]), ins[1..]);
    }
  }

  /** A trigger with its burst, and the clocks until the next. */
  datatype Period = Period(burst: seq<Inputs>, rest: seq<Inputs>)

  predicate Regular(ps: seq<Period>) {
    forall k :: 0 <= k < |ps| ==> ReadyBurst(ps[k].burst) && NoEdge(true, ps[k].rest)
  }

  function InputsOf(ps: seq<Period>): seq<Inputs> {
    if ps == [] then [] else ps[0].burst + ps[0].rest + InputsOf(ps[1..])
  }

  function RecordsOf(ps: seq<Period>): (rs: Log)
    requires Regular(ps)
    ensures |rs| == |ps|
  {
    seq(|ps|, k requires 0 <= k < |ps| => SamplesOf(ps[k].burst[2..42]))
  }

  /** An idle writer with nothing on the bus, whose trigger was low. */
  predicate Ready(w: World) { w.regs.phase == Idle && !w.regs.prev && !w.regs.wvalid }

  lemma {:induction false} OnePeriod(w: World, b: seq<Inputs>, r: seq<Inputs>)
    requires Ready(w) && ReadyBurst(b) && NoEdge(true, r)
    ensures var e := Run(w, b + r);
      Ready(e) && e.log == w.log + [SamplesOf(b[2..42])]
  {
    RunConcat(w, b, r);
    TriggerRecorded(w, b);
    QuietIdle(Run(w, b), r);
  }

  lemma RecordsCons(ps: seq<Period>, log: Log)
    requires ps != [] && Regular(ps)
    ensures log + [SamplesOf(ps[0].burst[2..42])] + RecordsOf(ps[1..]) == log + RecordsOf(ps)
  {
    assert RecordsOf(ps) == [SamplesOf(ps[0].burst[2..42])] + RecordsOf(ps[1..]);
  }

  /** Over any number of triggers the writer makes one record for each. */
  lemma {:induction false} EveryTriggerRecorded(w: World, ps: seq<Period>)
    requires Ready(w) && Regular(ps)
    ensures var e := Run(w, InputsOf(ps));
      Ready(e) && e.log == w.log + RecordsOf(ps)
    decreases |ps|
  {
    if ps == [] {
      assert w.log + [] == w.log;
    } else {
      var first := ps[0].burst + ps[0].rest;
      OnePeriod(w, ps[0].burst, ps[0].rest);
      EveryTriggerRecorded(Run(w, first), ps[1..]);
      RunConcat(w, first, InputsOf(ps[1..]));
      RecordsCons(ps, w.log);
    }
  }

  /** Until the memory takes the address the writer does nothing. */
  lemma {:induction false} AddressWaits(w: World, ins: seq<Inputs>)
    requires w.regs.phase == Address && !w.regs.wvalid && forall k :: 0 <= k < |ins| ==> !ins[k].awready
    ensures Run(w, ins) == w
    decreases |ins|
  {
    if ins != [] {
      AddressWaits(Step(w, ins[0]), ins[1..]);
    }
  }

  // --- The bursts are legal ---

  lemma {:induction false} LegalConcat(w: World, a: seq<Inputs>, b: seq<Inputs>)
    requires LegalRun(w, a) && LegalRun(Run(w, a), b)
    ensures LegalRun(w, a + b)
    decreases |a|
  {
    if a == [] {
      assert a + b == b;
    } else {
      assert (a + b)[1..] == a[1..] + b;
      LegalConcat(Step(w, a[0]), a[1..], b);
    }
  }

  lemma {:induction false} SilentLegal(w: World, ins: seq<Inputs>)
    requires forall k :: 0 <= k < |ins| ==> !ins[k].bvalid
    ensures LegalRun(w, ins)
    decreases |ins|
  {
    if ins != [] {
      SilentLegal(Step(w, ins[0]), ins[1..]);
    }
  }

  lemma {:induction false} BurstLegal(w: World, b: seq<Inputs>)
    requires w.regs.phase == Idle && !w.regs.prev && !w.regs.wvalid && ReadyBurst(b)
    ensures LegalRun(w, b)
  {
    var start, words, end := [b[0], b[1]], b[2..42], [b[42], b[43]];
    assert b == (start + words) + end;
    RunConcat(w, start, words);
    BurstBegins(w, b[0], b[1]);
    WordsTaken(Run(w, start), words, 0);
    SilentLegal(w, start + words);
    var w2 := Run(w, start + words);
    BurstEnds(w2, b[42], b[43]);
    assert end[1..] == [b[43]] && [b[43]][1..] == [];
    assert LegalRun(w2, end);
    LegalConcat(w, start + words, end);
  }

  lemma {:induction false} QuietLegal(w: World, ins: seq<Inputs>)
    requires w.regs.phase == Idle && !w.regs.wvalid && NoEdge(w.regs.prev, ins) && w.regs.beat == WORDS
    ensures LegalRun(w, ins)
    decreases |ins|
  {
    if ins != [] {
      QuietLegal(Step(w, ins[0]), ins[1..]);
    }
  }

  lemma {:induction false} PeriodLegal(w: World, b: seq<Inputs>, r: seq<Inputs>)
    requires Ready(w) && ReadyBurst(b) && NoEdge(true, r)
    ensures LegalRun(w, b + r)
  {
    BurstLegal(w, b);
    TriggerRecorded(w, b);
    QuietLegal(Run(w, b), r);
    LegalConcat(w, b, r);
  }

  lemma {:induction false} PeriodsLegal(w: World, ps: seq<Period>)
    requires Ready(w) && Regular(ps)
    ensures LegalRun(w, InputsOf(ps))
    decreases |ps|
  {
    if ps != [] {
      var first := ps[0].burst + ps[0].rest;
      PeriodLegal(w, ps[0].burst, ps[0].rest);
      OnePeriod(w, ps[0].burst, ps[0].rest);
      PeriodsLegal(Run(w, first), ps[1..]);
      LegalConcat(w, first, InputsOf(ps[1..]));
    }
  }

  lemma {:induction false} RunFromReset(mem: Memory, ps: seq<Period>)
    requires Regular(ps)
    ensures var w := World(Initial(false, mem), []);
      && LegalRun(w, InputsOf(ps))
      && Run(w, InputsOf(ps)).regs.phase == Idle && Run(w, InputsOf(ps)).log == RecordsOf(ps)
  {
    EveryTriggerRecorded(World(Initial(false, mem), []), ps);
    PeriodsLegal(World(Initial(false, mem), []), ps);
    assert [] + RecordsOf(ps) == RecordsOf(ps);
  }

  lemma {:induction false} WordStored(w: World, ps: seq<Period>, n: nat, j: Beat)
    requires Regular(ps) && 1 <= n <= |ps| && w.log == RecordsOf(ps) && Stored(w.regs.mem, w.log, n, WORDS)
    ensures w.regs.mem[40 * ((n - 1) % 200001) + j] == WordOf(j, n % 0x1_0000_0000, ps[n - 1].burst[j + 2].sample)
  {
    assert w.regs.mem[Place(n, j)] == WordOf(j, Count(n), w.log[n - 1][j]);
  }

  /** From reset: after any number of triggers each of the last 200001 records is in its slot, word j taken
      at clock j + 2 of its trigger, and the pointer is the last record's address. */
  lemma {:induction false} RecordsFromTriggers(mem: Memory, ps: seq<Period>, n: nat, j: Beat)
    requires Regular(ps) && 1 <= n <= |ps| < n + 200001
    ensures var e := Run(World(Initial(false, mem), []), InputsOf(ps));
      && e.regs.mem[40 * ((n - 1) % 200001) + j] == WordOf(j, n % 0x1_0000_0000, ps[n - 1].burst[j + 2].sample)
      && e.regs.ptr == 0x1000_0000 + 160 * ((|ps| - 1) % 200001)
  {
    RunFromReset(mem, ps);
    RecordsKept(false, mem, InputsOf(ps), n);
    WordStored(Run(World(Initial(false, mem), []), InputsOf(ps)), ps, n, j);
  }
}
