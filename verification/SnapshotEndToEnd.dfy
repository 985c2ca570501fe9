/** The writer, a trigger latch and the reader together: which records a snapshot shows. */
module SnapshotEndToEnd {
  import opened Common
  import opened DdrRing
  import L = TriggerLatch
  import opened R = SnapshotReader
  import opened W = AdcWriter

  /** The record that sample k of a window shows when the trigger latched record m. The writer
      uses one slot more than the reader, so a window that passes TOP skips one record. */
  function Shown(m: nat, pre: nat, k: nat): int
    requires m >= 1
  {
    var s := Slot(m) - pre + k;
    m - pre + k + (if s < 0 then -1 else if s >= READ_SLOTS then 1 else 0)
  }

  /** A slot is that of the record d places on. */
  lemma SlotAhead(m: nat, n: nat, s: nat)
    requires m >= 1 && n >= 1 && s < SLOTS
    requires n - m == s - Slot(m) || n - m == s - Slot(m) + SLOTS || n - m == s - Slot(m) - SLOTS
    ensures Slot(n) == s
  {
    var q := (m - 1) / SLOTS;
    assert m - 1 == q * SLOTS + Slot(m);
    var p := if n - m == s - Slot(m) then q else if n - m == s - Slot(m) + SLOTS then q + 1 else q - 1;
    assert n - 1 == p * SLOTS + s;
  }

  lemma ShownSlot(m: nat, pre: nat, post: nat, k: nat)
    requires m >= 1 && Fits(pre, post) && k < pre + post && Shown(m, pre, k) >= 1
    ensures Slot(Shown(m, pre, k)) == RingSlot(Slot(m), pre, k)
  {
    var s := Slot(m) - pre + k;
    var ring := if s < 0 then s + READ_SLOTS else if s >= READ_SLOTS then s - READ_SLOTS else s;
    ModShift(s, ring);
    SlotAhead(m, Shown(m, pre, k), ring);
  }

  /** How far the counter moves from sample k to the next. */
  function Stride(m: nat, pre: nat, k: nat): nat
    requires m >= 1
  {
    if RingSlot(Slot(m), pre, k) == READ_SLOTS - 1 then 2 else 1
  }

  /** Consecutive samples show consecutive records, but for one skipped record where the window
      passes the slot at TOP. */
  lemma CountSteps(m: nat, pre: nat, post: nat, k: nat)
    requires m >= 1 && Fits(pre, post) && k + 1 < pre + post
    ensures Shown(m, pre, k + 1) == Shown(m, pre, k) + Stride(m, pre, k)
  {
    var s := Slot(m) - pre + k;
    ModShift(s, if s < 0 then s + READ_SLOTS else if s >= READ_SLOTS then s - READ_SLOTS else s);
  }

  lemma OneSkip(m: nat, pre: nat, post: nat, k: nat, l: nat)
    requires m >= 1 && Fits(pre, post) && k < l && l + 1 < pre + post
    ensures !(RingSlot(Slot(m), pre, k) == READ_SLOTS - 1 && RingSlot(Slot(m), pre, l) == READ_SLOTS - 1)
  {
    var s, t := Slot(m) - pre + k, Slot(m) - pre + l;
    ModShift(s, if s < 0 then s + READ_SLOTS else if s >= READ_SLOTS then s - READ_SLOTS else s);
    ModShift(t, if t < 0 then t + READ_SLOTS else if t >= READ_SLOTS then t - READ_SLOTS else t);
  }

  /** The whole window has been written and none of it overwritten. */
  predicate WindowKept(w: World, m: nat, pre: nat, post: nat)
    requires m >= 1 && pre + post > 0
  {
    Shown(m, pre, 0) >= 1 && Shown(m, pre, pre + post - 1) <= Complete(w) && |w.log| < Shown(m, pre, 0) + SLOTS
  }

  lemma {:induction false} ShownRises(m: nat, pre: nat, post: nat, k: nat, l: nat)
    requires m >= 1 && Fits(pre, post) && k <= l < pre + post
    ensures Shown(m, pre, k) + (l - k) <= Shown(m, pre, l)
    decreases l - k
  {
    if k < l {
      CountSteps(m, pre, post, l - 1);
      ShownRises(m, pre, post, k, l - 1);
    }
  }

  lemma ShownKept(w: World, m: nat, pre: nat, post: nat, k: nat)
    requires m >= 1 && Fits(pre, post) && k < pre + post && WindowKept(w, m, pre, post)
    ensures Shown(m, pre, k) >= 1 && Kept(w, Shown(m, pre, k))
  {
    ShownRises(m, pre, post, 0, k);
    ShownRises(m, pre, post, k, pre + post - 1);
  }

  lemma RecordWord(w: World, n: nat, j: Beat)
    requires W.Inv(w) && Kept(w, n)
    ensures |w.log[n - 1]| >= WORDS
    ensures w.regs.mem[WORDS * Slot(n) + j] == WordOf(j, Count(n), w.log[n - 1][j])
  {
    assert Stored(w.regs.mem, w.log, n, WORDS);
    assert w.regs.mem[Place(n, j)] == WordOf(j, Count(n), w.log[n - 1][j]);
  }

  /** The channel's readings in a sample. */
  function Reading(s: Sample, view: View): Channel
    requires Known(view)
  {
    match view.chan
    case 1 => Ps1(s)
    case 2 => s.ps2
    case 3 => s.ps3
    case _ => s.ps4
  }

  /** Where the reader looks for a channel's words is where the writer puts them. */
  lemma ChosenIsReading(view: View, j: nat, cnt: u32, s: Sample)
    requires Known(view) && j < PER_SAMPLE
    ensures WordOf(Chosen(view, j), cnt, s) ==
      if j == 0 then 0x8000_0000 else if j == 1 then cnt else ChannelWord(Reading(s, view), j - 2)
  {
  }

  function ChannelOf(s: Sample, chan: nat): Channel {
    if chan == 1 then s.ps1 else if chan == 2 then s.ps2 else if chan == 3 then s.ps3 else s.ps4
  }

  /** What column j of a record's sample means: a signed reading of the channel with its factor, but for
      the two numbers of the digital loop when the record was written with the loop on. */
  function Meant(chan: nat, j: nat, s: Sample): Number
    requires 2 <= j < PER_SAMPLE
  {
    var c, loop := ChannelOf(s, chan), chan == 1 && s.digpid;
    match j
    case 2 => Scaled(Signed32(c.dcct0), DacDcct)
    case 3 => Scaled(Signed32(c.dcct1), DacDcct)
    case 4 => Scaled(Signed32(c.dacmon), AdcDcct)
    case 5 => Scaled(Signed32(c.voltage), Vout)
    case 6 => Scaled(Signed32(c.ignd), Ignd)
    case 7 => Scaled(Signed32(c.spare), Spare)
    case 8 => if loop then Scaled(Signed32(s.setptout), AsIs) else Scaled(Signed32(c.psReg), Regulator)
    case _ => if loop then FloatBits(s.errorF) else Scaled(Signed32(c.psError), Error)
  }

  /** The loop is as it was when the column was written and, with the loop off, the error is not
      negative, because the C code lacks the cast there. */
  predicate Matches(view: View, j: nat, s: Sample) {
    || view.chan != 1 || j < 8
    || (view.digpid == s.digpid && (j == 9 && !s.digpid ==> s.ps1.psError < 0x8000_0000))
  }

  /** A reading comes out as what it meant if and only if it matches. */
  lemma MeantIff(view: View, j: nat, s: Sample)
    requires Known(view) && 2 <= j < PER_SAMPLE
    ensures Convert(view, j, ChannelWord(Reading(s, view), j - 2)) == Meant(view.chan, j, s) <==> Matches(view, j, s)
  {
    if view.chan == 1 && j == 9 {
      assert ChannelWord(Reading(s, view), 7) == if s.digpid then s.errorF else s.ps1.psError;
    } else if view.chan == 1 && j == 8 {
      assert ChannelWord(Reading(s, view), 6) == if s.digpid then s.setptout else s.ps1.psReg;
    } else if view.chan == 1 {
      assert ChannelWord(Reading(s, view), j - 2) == ChannelWord(s.ps1, j - 2);
    }
  }

  /** All eight readings of a record come out as what they meant if and only if the channel is not 1,
      or the loop is as it was when the record was written and, with the loop off, the error
      reading is not negative. */
  lemma RecordMeant(view: View, s: Sample)
    requires Known(view)
    ensures (forall j: nat :: 2 <= j < PER_SAMPLE ==>
        Convert(view, j, ChannelWord(Reading(s, view), j - 2)) == Meant(view.chan, j, s))
      <==> view.chan != 1 || (view.digpid == s.digpid && (s.digpid || s.ps1.psError < 0x8000_0000))
  {
    forall j: nat | 2 <= j < PER_SAMPLE
      ensures Convert(view, j, ChannelWord(Reading(s, view), j - 2)) == Meant(view.chan, j, s) <==> Matches(view, j, s)
    {
      MeantIff(view, j, s);
    }
    assert Matches(view, 9, s) <==> view.chan != 1 || (view.digpid == s.digpid && (s.digpid || s.ps1.psError < 0x8000_0000));
  }

  /** What the error column shows instead: the integer reading taken for a float, the float taken for
      an unsigned integer, or a negative reading 2^32 too high. */
  lemma ErrorShown(view: View, s: Sample)
    requires view.chan == 1 && !Matches(view, 9, s)
    ensures Convert(view, 9, ChannelWord(Reading(s, view), 7)) ==
      if view.digpid then FloatBits(s.ps1.psError)
      else if s.digpid then Scaled(s.errorF, Error)
      else Scaled(Signed32(s.ps1.psError) + 0x1_0000_0000, Error)
  {
    assert ChannelWord(Reading(s, view), 7) == if s.digpid then s.errorF else s.ps1.psError;
  }

  /** The words of a record by name. */
  predicate Layout(words: Beat -> u32, cnt: u32, s: Sample) {
    && words(0) == 0x8000_0000 && words(1) == cnt
    && ChannelAt(words, 2, if s.digpid then s.ps1.(psReg := s.setptout, psError := s.errorF) else s.ps1)
    && ChannelAt(words, 10, s.ps2) && ChannelAt(words, 18, s.ps3) && ChannelAt(words, 26, s.ps4)
    && forall j: Beat :: j >= 34 ==> words(j) == j + 1
  }

  predicate ChannelAt(words: Beat -> u32, at: nat, c: Channel)
    requires at <= 26
  {
    && words(at) == c.dcct0 && words(at + 1) == c.dcct1 && words(at + 2) == c.dacmon && words(at + 3) == c.voltage
    && words(at + 4) == c.ignd && words(at + 5) == c.spare && words(at + 6) == c.psReg && words(at + 7) == c.psError
  }

  /** Forty words: the header, the counter, eight readings of each channel in the order of its fields,
      and six fillers. */
  lemma RecordLayout(cnt: u32, s: Sample)
    ensures Layout(j => WordOf(j, cnt, s), cnt, s)
  {
  }

  /** The j-th number of a sample made from record number `cnt` and a channel's readings. */
  function Expected(view: View, j: nat, cnt: u32, c: Channel): Number
    requires Known(view) && j < PER_SAMPLE
  {
    if j == 0 then Scaled(0x8000_0000, AsIs)
    else if j == 1 then Scaled(cnt, AsIs)
    else Convert(view, j, ChannelWord(c, j - 2))
  }

  /** In a message the ten numbers of sample k are the header, the number of record n, and the
      eight readings the channel had when those words of record n were sent. */
  predicate Shows(w: World, out: seq<Number>, n: nat, view: View, k: nat, j: nat)
    requires Known(view) && j < PER_SAMPLE
  {
    && 1 <= n <= |w.log| && |w.log[n - 1]| >= WORDS
    && PER_SAMPLE * k + j < |out|
    && out[PER_SAMPLE * k + j] == Expected(view, j, Count(n), Reading(w.log[n - 1][Chosen(view, j)], view))
  }

  /** A reading of sample k is what its column meant in record n. */
  predicate Means(w: World, out: seq<Number>, n: nat, view: View, k: nat, j: nat)
    requires Known(view) && 2 <= j < PER_SAMPLE
  {
    && 1 <= n <= |w.log| && |w.log[n - 1]| >= WORDS
    && PER_SAMPLE * k + j < |out|
    && out[PER_SAMPLE * k + j] == Meant(view.chan, j, w.log[n - 1][Chosen(view, j)])
  }

  /** The sample from which column j of record n was written matches. */
  predicate MatchesAt(w: World, n: nat, view: View, j: nat)
    requires Known(view) && j < PER_SAMPLE
  {
    1 <= n <= |w.log| && |w.log[n - 1]| >= WORDS && Matches(view, j, w.log[n - 1][Chosen(view, j)])
  }

  lemma ShowsMeans(w: World, out: seq<Number>, n: nat, view: View, k: nat, j: nat)
    requires Known(view) && 2 <= j < PER_SAMPLE && Shows(w, out, n, view, k, j)
    ensures Means(w, out, n, view, k, j) <==> MatchesAt(w, n, view, j)
  {
    MeantIff(view, j, w.log[n - 1][Chosen(view, j)]);
  }

  /** The number in the window is the stored word of the record shown, converted. */
  lemma WindowRecord(mem: Memory, m: nat, pre: nat, post: nat, view: View, k: nat, j: nat)
    requires 1 <= m && Fits(pre, post) && k < pre + post && Shown(m, pre, k) >= 1
    requires Known(view) && j < PER_SAMPLE
    ensures PER_SAMPLE * k + j < |Window(mem, Slot(m), pre, post, view)|
    ensures Window(mem, Slot(m), pre, post, view)[PER_SAMPLE * k + j]
      == Convert(view, j, mem[WORDS * Slot(Shown(m, pre, k)) + Chosen(view, j)])
  {
    ShownSlot(m, pre, post, k);
    WindowWord(mem, Slot(m), pre, post, view, k, j);
  }

  /** What the writer stored where the reader looks. */
  lemma RecordShows(w: World, out: seq<Number>, n: nat, view: View, k: nat, j: nat)
    requires W.Inv(w) && Kept(w, n) && Known(view) && j < PER_SAMPLE && PER_SAMPLE * k + j < |out|
    requires out[PER_SAMPLE * k + j] == Convert(view, j, w.regs.mem[WORDS * Slot(n) + Chosen(view, j)])
    ensures Shows(w, out, n, view, k, j)
  {
    RecordWord(w, n, Chosen(view, j));
    ChosenIsReading(view, j, Count(n), w.log[n - 1][Chosen(view, j)]);
  }

  lemma KeptShows(w: World, m: nat, pre: nat, post: nat, view: View, k: nat, j: nat, n: nat)
    requires W.Inv(w) && 1 <= m && Fits(pre, post) && k < pre + post && Known(view) && j < PER_SAMPLE
    requires n == Shown(m, pre, k) && Kept(w, n)
    ensures Shows(w, Window(w.regs.mem, Slot(m), pre, post, view), n, view, k, j)
  {
    WindowRecord(w.regs.mem, m, pre, post, view, k, j);
    RecordShows(w, Window(w.regs.mem, Slot(m), pre, post, view), n, view, k, j);
  }

  lemma WindowShows(w: World, m: nat, pre: nat, post: nat, view: View, k: nat, j: nat)
    requires W.Inv(w) && 1 <= m && Fits(pre, post) && k < pre + post && WindowKept(w, m, pre, post)
    requires Known(view) && j < PER_SAMPLE
    ensures Shown(m, pre, k) >= 1
    ensures Shows(w, Window(w.regs.mem, Slot(m), pre, post, view), Shown(m, pre, k), view, k, j)
  {
    ShownKept(w, m, pre, post, k);
    KeptShows(w, m, pre, post, view, k, j, Shown(m, pre, k));
  }

  /** Number j of sample k of the window is that of the record shown, and a reading is what it meant
      if and only if it matches. */
  predicate Reads(w: World, m: nat, pre: u32, post: u32, view: View, k: nat, j: nat)
    requires m >= 1 && Fits(pre, post) && Known(view) && j < PER_SAMPLE
  {
    var n, out := Shown(m, pre, k), Window(w.regs.mem, Slot(m), pre, post, view);
    && n >= 1 && Shows(w, out, n, view, k, j)
    && (j >= 2 ==> (Means(w, out, n, view, k, j) <==> MatchesAt(w, n, view, j)))
  }

  lemma WindowReads(w: World, m: nat, pre: u32, post: u32, view: View, k: nat, j: nat)
    requires W.Inv(w) && 1 <= m && Fits(pre, post) && k < pre + post && WindowKept(w, m, pre, post)
    requires Known(view) && j < PER_SAMPLE
    ensures Reads(w, m, pre, post, view, k, j)
  {
    WindowShows(w, m, pre, post, view, k, j);
    if j >= 2 {
      ShowsMeans(w, Window(w.regs.mem, Slot(m), pre, post, view), Shown(m, pre, k), view, k, j);
    }
  }

  /** The integer in column j of sample k of a message. */
  function Cell(out: seq<Number>, k: nat, j: nat): int {
    if PER_SAMPLE * k + j < |out| && out[PER_SAMPLE * k + j].Scaled? then out[PER_SAMPLE * k + j].value else -1
  }

  lemma ShowsCount(w: World, out: seq<Number>, n: nat, view: View, k: nat)
    requires Known(view) && Shows(w, out, n, view, k, 1)
    ensures Cell(out, k, 1) == Count(n)
  {
  }

  /** Column 1 of a sample is the number of the record it shows. */
  predicate Counted(out: seq<Number>, m: nat, pre: nat, k: nat)
    requires m >= 1
  {
    Shown(m, pre, k) >= 1 && Cell(out, k, 1) == Count(Shown(m, pre, k))
  }

  lemma CountCell(w: World, m: nat, pre: nat, post: nat, view: View, k: nat)
    requires W.Inv(w) && 1 <= m && Fits(pre, post) && k < pre + post && WindowKept(w, m, pre, post)
    requires Known(view)
    ensures Counted(Window(w.regs.mem, Slot(m), pre, post, view), m, pre, k)
  {
    WindowShows(w, m, pre, post, view, k, 1);
    ShowsCount(w, Window(w.regs.mem, Slot(m), pre, post, view), Shown(m, pre, k), view, k);
  }

  lemma CountAdd(n: nat, d: nat)
    ensures Count(n + d) == U32(Count(n) + d)
  {
  }

  predicate Steps(out: seq<Number>, m: nat, pre: nat, k: nat)
    requires m >= 1
  {
    Cell(out, k, 1) >= 0 && Cell(out, k + 1, 1) == U32(Cell(out, k, 1) + Stride(m, pre, k))
  }

  lemma CountedSteps(out: seq<Number>, m: nat, pre: nat, post: nat, k: nat)
    requires m >= 1 && Fits(pre, post) && k + 1 < pre + post
    requires Counted(out, m, pre, k) && Counted(out, m, pre, k + 1)
    ensures Steps(out, m, pre, k)
  {
    CountSteps(m, pre, post, k);
    CountAdd(Shown(m, pre, k), Stride(m, pre, k));
  }

  /** The counter column of a window rises by one from sample to sample, and by two just where
      the window passes the slot at TOP. */
  lemma CountColumn(w: World, m: nat, pre: nat, post: nat, view: View, k: nat)
    requires W.Inv(w) && 1 <= m && Fits(pre, post) && k + 1 < pre + post && WindowKept(w, m, pre, post)
    requires Known(view)
    ensures Steps(Window(w.regs.mem, Slot(m), pre, post, view), m, pre, k)
  {
    CountCell(w, m, pre, post, view, k);
    CountCell(w, m, pre, post, view, k + 1);
    CountedSteps(Window(w.regs.mem, Slot(m), pre, post, view), m, pre, post, k);
  }

  // --- Runs of the writer and the latches on one clock ---

  datatype Tick = Tick(adc: W.Inputs, lines: L.Lines, ts: u32, ns: u32)

  function AdcInputs(ticks: seq<Tick>): (ins: seq<W.Inputs>)
    ensures |ins| == |ticks|
  {
    seq(|ticks|, t requires 0 <= t < |ticks| => ticks[t].adc)
  }

  function LatchInput(w: World, i: Tick): L.Inputs {
    L.Inputs(false, i.lines, L.Latched(w.regs.ptr, i.ts, i.ns))
  }

  /** The latches see the pointer as it is before each clock. */
  function LatchInputs(w: World, ticks: seq<Tick>): (ins: seq<L.Inputs>)
    ensures |ins| == |ticks|
    decreases |ticks|
  {
    if ticks == [] then [] else [LatchInput(w, ticks[0])] + LatchInputs(Step(w, ticks[0].adc), ticks[1..])
  }

  lemma {:induction false} LatchesRun(w: World, ticks: seq<Tick>)
    ensures L.NoReset(LatchInputs(w, ticks))
    decreases |ticks|
  {
    if ticks != [] {
      LatchesRun(Step(w, ticks[0].adc), ticks[1..]);
    }
  }

  function WriterAfter(w: World, ticks: seq<Tick>): World { W.Run(w, AdcInputs(ticks)) }

  lemma {:induction false} LatchInputAt(w: World, ticks: seq<Tick>, t: nat)
    requires t < |ticks|
    ensures LatchInputs(w, ticks)[t] == LatchInput(WriterAfter(w, ticks[..t]), ticks[t])
    decreases t
  {
    if t == 0 {
      assert AdcInputs(ticks[..0]) == [];
    } else {
      LatchInputAt(Step(w, ticks[0].adc), ticks[1..], t - 1);
      assert ticks[..t][0] == ticks[0] && ticks[..t][1..] == ticks[1..][..t - 1];
      assert AdcInputs(ticks[..t])[1..] == AdcInputs(ticks[..t][1..]);
    }
  }

  lemma {:induction false} LegalPrefix(w: World, ins: seq<W.Inputs>, t: nat)
    requires t <= |ins| && LegalRun(w, ins)
    ensures LegalRun(w, ins[..t])
    decreases t
  {
    if t > 0 {
      assert ins[..t][1..] == ins[1..][..t - 1];
      LegalPrefix(Step(w, ins[0]), ins[1..], t - 1);
    }
  }

  /** The trigger rose for the last time at tick t. */
  predicate LastEdge(w: World, r: L.Regs, ticks: seq<Tick>, trig: nat, t: nat)
    requires trig < L.TRIGS && t < |ticks|
  {
    var ins := LatchInputs(w, ticks);
    L.Rises(r, ins, trig, t) && forall u :: t < u < |ins| ==> !L.Rises(r, ins, trig, u)
  }

  lemma LatchHolds(w: World, r: L.Regs, ticks: seq<Tick>, trig: nat, t: nat)
    requires W.Inv(w) && LegalRun(w, AdcInputs(ticks))
    requires trig < L.TRIGS && t < |ticks| && LastEdge(w, r, ticks, trig, t)
    ensures var m := |WriterAfter(w, ticks[..t]).log|;
      m >= 1 ==> L.Run(r, LatchInputs(w, ticks)).latched[trig].ptr == RingAddr(Slot(m))
  {
    var ins := LatchInputs(w, ticks);
    LatchesRun(w, ticks);
    L.HoldsLastEdge(r, ins, trig, t);
    LatchInputAt(w, ticks, t);
    LegalPrefix(w, AdcInputs(ticks), t);
    assert AdcInputs(ticks)[..t] == AdcInputs(ticks[..t]);
    RunInv(w, AdcInputs(ticks[..t]));
  }

  /** From reset, for every run of writer and latches: the latch points at the record last begun
      when its trigger rose, and while the window around that record is complete and not yet
      overwritten the reader's message shows, for each sample, the record of that sample. */
  lemma SnapshotIsWindow(prev: bool, mem: Memory, r: L.Regs, ticks: seq<Tick>, trig: nat, t: nat,
      m: nat, pre: nat, post: nat, view: View, k: nat, j: nat)
    requires LegalRun(World(Initial(prev, mem), []), AdcInputs(ticks))
    requires trig < L.TRIGS && t < |ticks| && LastEdge(World(Initial(prev, mem), []), r, ticks, trig, t)
    requires m == |WriterAfter(World(Initial(prev, mem), []), ticks[..t]).log| && m >= 1
    requires Fits(pre, post) && k < pre + post
    requires WindowKept(WriterAfter(World(Initial(prev, mem), []), ticks), m, pre, post)
    requires Known(view) && j < PER_SAMPLE
    ensures var w0 := World(Initial(prev, mem), []);
      var w := WriterAfter(w0, ticks);
      && L.Run(r, LatchInputs(w0, ticks)).latched[trig].ptr == RingAddr(Slot(m))
      && Reads(w, m, pre, post, view, k, j)
  {
    var w0 := World(Initial(prev, mem), []);
    RunInv(w0, AdcInputs(ticks));
    WindowReads(WriterAfter(w0, ticks), m, pre, post, view, k, j);
    LatchHolds(w0, r, ticks, trig, t);
  }
}
