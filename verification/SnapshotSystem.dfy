/** The poller on top of the writer and one trigger latch: every window that is sent is there. */
module SnapshotSystem {
  import opened Common
  import opened DdrRing
  import opened R = SnapshotReader
  import opened E = SnapshotEndToEnd
  import W = AdcWriter
  import L = TriggerLatch
  import P = TriggerPoller

  /** `mark` is the number of the record last begun when the trigger last rose, 0 before that. */
  datatype System = System(w: W.World, latch: L.Regs, mark: nat)

  type Trigger = k: nat | k < L.TRIGS

  function Step(s: System, i: Tick, trig: Trigger): System {
    System(W.Step(s.w, i.adc), L.Clock(s.latch, LatchInput(s.w, i)),
      if i.lines[trig] && !s.latch.prev[trig] then |s.w.log| else s.mark)
  }

  function Run(s: System, ticks: seq<Tick>, trig: Trigger): System
    decreases |ticks|
  {
    if ticks == [] then s else Run(Step(s, ticks[0], trig), ticks[1..], trig)
  }

  predicate Legal(s: System, ticks: seq<Tick>, trig: Trigger)
    decreases |ticks|
  {
    ticks == [] || (W.Legal(s.w.regs, ticks[0].adc) && Legal(Step(s, ticks[0], trig), ticks[1..], trig))
  }

  /** The register the poller reads. */
  function Reg(s: System, trig: Trigger): u32 { s.latch.latched[trig].ptr }

  function Begun(s: System): nat { |s.w.log| }

  ghost predicate Inv(s: System, trig: Trigger) {
    && W.Inv(s.w) && s.mark <= Begun(s)
    && (Begun(s) == 0 ==> s.w.regs.ptr == 0)
    && Reg(s, trig) == if s.mark == 0 then 0 else RingAddr(Slot(s.mark))
  }

  lemma WriterGrows(s: System, i: Tick, trig: Trigger)
    requires W.Inv(s.w)
    ensures var e := Step(s, i, trig);
      Begun(s) <= Begun(e) && (Begun(e) == 0 ==> e.w.regs.ptr == s.w.regs.ptr)
  {
  }

  lemma LatchFollows(s: System, i: Tick, trig: Trigger)
    ensures Reg(Step(s, i, trig), trig) ==
      if i.lines[trig] && !s.latch.prev[trig] then s.w.regs.ptr else Reg(s, trig)
  {
  }

  lemma StepInv(s: System, i: Tick, trig: Trigger)
    requires Inv(s, trig) && W.Legal(s.w.regs, i.adc)
    ensures Inv(Step(s, i, trig), trig)
    ensures var e := Step(s, i, trig);
      Begun(s) <= Begun(e) && (e.mark == s.mark || e.mark == Begun(s))
  {
    W.StepInv(s.w, i.adc);
    WriterGrows(s, i, trig);
    LatchFollows(s, i, trig);
  }

  /** Over any stretch the register's record stays, or becomes one begun no earlier than the start. */
  lemma {:induction false} RunInv(s: System, ticks: seq<Tick>, trig: Trigger)
    requires Inv(s, trig) && Legal(s, ticks, trig)
    ensures Inv(Run(s, ticks, trig), trig)
    ensures var e := Run(s, ticks, trig);
      Begun(s) <= Begun(e) && (e.mark == s.mark || e.mark >= Begun(s))
    decreases |ticks|
  {
    if ticks != [] {
      StepInv(s, ticks[0], trig);
      RunInv(Step(s, ticks[0], trig), ticks[1..], trig);
    }
  }

  // --- Poll passes ---

  /** The state at pass p, when legs[p] runs from pass p to pass p + 1. */
  function At(s: System, legs: seq<seq<Tick>>, trig: Trigger, p: nat): System
    requires p <= |legs|
  {
    if p == 0 then s else Run(At(s, legs, trig, p - 1), legs[p - 1], trig)
  }

  predicate LegalLegs(s: System, legs: seq<seq<Tick>>, trig: Trigger) {
    forall p :: 0 <= p < |legs| ==> Legal(At(s, legs, trig, p), legs[p], trig)
  }

  /** What the poller would read in each pass. */
  function Regs(s: System, legs: seq<seq<Tick>>, trig: Trigger): (regs: seq<u32>)
    ensures |regs| == |legs| + 1
  {
    seq(|legs| + 1, p requires 0 <= p <= |legs| => Reg(At(s, legs, trig, p), trig))
  }

  /** At least `lo` and at most `hi` records are begun from each pass to the next. */
  predicate Paced(s: System, legs: seq<seq<Tick>>, trig: Trigger, lo: nat, hi: nat) {
    forall p :: 0 <= p < |legs| ==> OneLeg(s, legs, trig, lo, hi, p)
  }

  predicate OneLeg(s: System, legs: seq<seq<Tick>>, trig: Trigger, lo: nat, hi: nat, p: nat)
    requires p < |legs|
  {
    var a, b := Begun(At(s, legs, trig, p)), Begun(At(s, legs, trig, p + 1));
    a + lo <= b <= a + hi
  }

  lemma {:induction false} AtInv(s: System, legs: seq<seq<Tick>>, trig: Trigger, p: nat)
    requires Inv(s, trig) && LegalLegs(s, legs, trig) && p <= |legs|
    ensures Inv(At(s, legs, trig, p), trig)
  {
    if p > 0 {
      AtInv(s, legs, trig, p - 1);
      RunInv(At(s, legs, trig, p - 1), legs[p - 1], trig);
    }
  }

  lemma LegGrows(s: System, legs: seq<seq<Tick>>, trig: Trigger, p: nat)
    requires Inv(s, trig) && LegalLegs(s, legs, trig) && p < |legs|
    ensures Grows(At(s, legs, trig, p), At(s, legs, trig, p + 1))
  {
    AtInv(s, legs, trig, p);
    RunInv(At(s, legs, trig, p), legs[p], trig);
  }

  predicate Grows(a: System, b: System) {
    Begun(a) <= Begun(b) && (b.mark == a.mark || b.mark >= Begun(a))
  }

  predicate LegsGrow(s: System, legs: seq<seq<Tick>>, trig: Trigger) {
    forall p :: 0 <= p < |legs| ==> Grows(At(s, legs, trig, p), At(s, legs, trig, p + 1))
  }

  lemma EveryLegGrows(s: System, legs: seq<seq<Tick>>, trig: Trigger)
    requires Inv(s, trig) && LegalLegs(s, legs, trig)
    ensures LegsGrow(s, legs, trig)
  {
    forall p | 0 <= p < |legs|
      ensures Grows(At(s, legs, trig, p), At(s, legs, trig, p + 1))
    {
      LegGrows(s, legs, trig, p);
    }
  }

  lemma {:induction false} Between(s: System, legs: seq<seq<Tick>>, trig: Trigger, p: nat, q: nat)
    requires LegsGrow(s, legs, trig) && p <= q <= |legs|
    ensures Grows(At(s, legs, trig, p), At(s, legs, trig, q))
    decreases q - p
  {
    if p < q {
      Between(s, legs, trig, p, q - 1);
      var n := q - 1;
      assert Grows(At(s, legs, trig, n), At(s, legs, trig, n + 1));
    }
  }

  function Times(a: nat, n: nat): nat { a * n }

  lemma TimesNext(a: nat, n: nat)
    ensures Times(a, n + 1) == Times(a, n) + a
  {
  }

  lemma {:induction false} TimesMono(a: nat, m: nat, n: nat)
    requires m <= n
    ensures Times(a, m) <= Times(a, n)
    decreases n - m
  {
    if m < n {
      TimesMono(a, m, n - 1);
      TimesNext(a, n - 1);
    }
  }

  lemma {:induction false} PacedOver(s: System, legs: seq<seq<Tick>>, trig: Trigger, lo: nat, hi: nat, p: nat, q: nat)
    requires Paced(s, legs, trig, lo, hi) && p <= q <= |legs|
    ensures var a, b := Begun(At(s, legs, trig, p)), Begun(At(s, legs, trig, q));
      a + Times(lo, q - p) <= b <= a + Times(hi, q - p)
    decreases q - p
  {
    if p < q {
      var a, b, c := Begun(At(s, legs, trig, p)), Begun(At(s, legs, trig, q - 1)), Begun(At(s, legs, trig, q));
      PacedOver(s, legs, trig, lo, hi, p, q - 1);
      TimesNext(lo, q - 1 - p);
      TimesNext(hi, q - 1 - p);
      assert OneLeg(s, legs, trig, lo, hi, q - 1);
      assert b + lo <= c <= b + hi;
    }
  }

  // --- What the poller sends ---

  /** The address was noticed in pass x.pass - delay, and some pass at most delay + 1 before that
      still showed another one. */
  predicate Fresh(regs: seq<u32>, delay: nat, x: P.Send) {
    && delay < x.pass < |regs| && regs[x.pass - delay] == x.addr
    && exists b :: 0 <= b < x.pass - delay <= b + delay + 1 && regs[b] != x.addr
  }

  lemma {:induction false} SendsFresh(last: u32, regs: seq<u32>, delay: nat, t: nat, b: nat, out: seq<P.Send>)
    requires P.EachOnce(last, regs, delay, t, out)
    requires b < t <= b + delay + 1 && b < |regs| && regs[b] == last
    ensures forall x :: x in out ==> Fresh(regs, delay, x)
    decreases |out|
  {
    if out != [] {
      var q := out[0].pass - delay;
      assert regs[if q == t then b else q - 1] == last;
      assert Fresh(regs, delay, out[0]);
      SendsFresh(out[0].addr, regs, delay, out[0].pass + 1, q, out[1..]);
      assert out == [out[0]] + out[1..];
    }
  }

  /** For each pass the record the register points at and the number of records begun. */
  datatype History = History(marks: seq<nat>, begun: seq<nat>)

  predicate OnePass(h: History, regs: seq<u32>, p: nat)
    requires p < |h.marks| == |h.begun| == |regs|
  {
    h.marks[p] <= h.begun[p] && regs[p] == if h.marks[p] == 0 then 0 else RingAddr(Slot(h.marks[p]))
  }

  predicate TwoPasses(h: History, lo: nat, hi: nat, p: nat, q: nat)
    requires p <= q < |h.marks| == |h.begun|
  {
    && h.begun[p] + Times(lo, q - p) <= h.begun[q] <= h.begun[p] + Times(hi, q - p)
    && (h.marks[q] == h.marks[p] || h.marks[q] >= h.begun[p])
  }

  predicate Plausible(h: History, regs: seq<u32>, lo: nat, hi: nat) {
    && |h.marks| == |h.begun| == |regs|
    && (forall p :: 0 <= p < |regs| ==> OnePass(h, regs, p))
    && (forall p, q :: 0 <= p <= q < |regs| ==> TwoPasses(h, lo, hi, p, q))
  }

  function HistoryOf(s: System, legs: seq<seq<Tick>>, trig: Trigger): History {
    History(
      seq(|legs| + 1, p requires 0 <= p <= |legs| => At(s, legs, trig, p).mark),
      seq(|legs| + 1, p requires 0 <= p <= |legs| => Begun(At(s, legs, trig, p))))
  }

  lemma HistoryPlausible(s: System, legs: seq<seq<Tick>>, trig: Trigger, lo: nat, hi: nat)
    requires Inv(s, trig) && LegalLegs(s, legs, trig) && Paced(s, legs, trig, lo, hi)
    ensures Plausible(HistoryOf(s, legs, trig), Regs(s, legs, trig), lo, hi)
  {
    var h, regs := HistoryOf(s, legs, trig), Regs(s, legs, trig);
    forall p | 0 <= p < |regs|
      ensures OnePass(h, regs, p)
    {
      AtInv(s, legs, trig, p);
    }
    EveryLegGrows(s, legs, trig);
    forall p, q | 0 <= p <= q < |regs|
      ensures TwoPasses(h, lo, hi, p, q)
    {
      Between(s, legs, trig, p, q);
      PacedOver(s, legs, trig, lo, hi, p, q);
    }
  }

  /** The record m a window was triggered by, and how many have been begun by the time it is sent. */
  predicate Marked(h: History, delay: nat, x: P.Send, lo: nat, hi: nat) {
    && delay <= x.pass < |h.marks| == |h.begun|
    && var m, now := h.marks[x.pass - delay], h.begun[x.pass];
      && m >= 1 && x.addr == RingAddr(Slot(m))
      && m + Times(lo, delay) <= now <= m + Times(hi, 2 * delay + 1)
  }

  lemma MarkOfSend(h: History, regs: seq<u32>, lo: nat, hi: nat, delay: nat, x: P.Send)
    requires Plausible(h, regs, lo, hi) && Fresh(regs, delay, x)
    ensures Marked(h, delay, x, lo, hi)
  {
    var q := x.pass - delay;
    var b :| 0 <= b < q <= b + delay + 1 && regs[b] != x.addr;
    assert OnePass(h, regs, b) && OnePass(h, regs, q);
    assert h.marks[q] != h.marks[b];
    assert TwoPasses(h, lo, hi, b, q) && TwoPasses(h, lo, hi, q, x.pass) && TwoPasses(h, lo, hi, b, x.pass);
    TimesMono(hi, x.pass - b, 2 * delay + 1);
  }

  lemma SentMarked(h: History, regs: seq<u32>, lo: nat, hi: nat, info: P.Info, delay: nat, x: P.Send)
    requires Plausible(h, regs, lo, hi) && regs != [] && delay < 0x1_0000_0000
    requires P.Idle(info) && info.addrLast == regs[0] && x in P.Outputs(info, regs, delay, 1)
    ensures Marked(h, delay, x, lo, hi)
  {
    P.OutputsEachOnce(info, regs, delay, 1);
    SendsFresh(info.addrLast, regs, delay, 1, 0, P.Outputs(info, regs, delay, 1));
    MarkOfSend(h, regs, lo, hi, delay, x);
  }

  /** When a window that was triggered by record m is whole, given how far the writer has come. */
  lemma KeptIff(w: W.World, m: nat, pre: nat, post: nat)
    requires m >= 1 && post > 0 && Fits(pre, post)
    requires m + post <= |w.log| && |w.log| + pre + 1 < m + SLOTS
    ensures WindowKept(w, m, pre, post) <==>
      Shown(m, pre, 0) >= 1 && (Slot(m) + post > READ_SLOTS ==> m + post <= W.Complete(w))
  {
  }

  /** A poller that was idle at the start, and a run in which at least 1000 and at most `hi` records
      are begun from pass to pass, too few for the ring to come round before the window is sent. */
  ghost predicate Polled(s: System, legs: seq<seq<Tick>>, trig: Trigger, hi: nat, info: P.Info, pre: u32, post: u32) {
    && Inv(s, trig) && LegalLegs(s, legs, trig) && Paced(s, legs, trig, 1000, hi)
    && post > 0 && post % 1000 == 0 && Fits(pre, post)
    && Times(hi, 2 * P.Delay(post) + 1) + pre + 1 < SLOTS
    && P.Idle(info) && info.addrLast == Reg(s, trig)
  }

  function Sends(s: System, legs: seq<seq<Tick>>, trig: Trigger, info: P.Info, post: u32): seq<P.Send> {
    P.Outputs(info, Regs(s, legs, trig), P.Delay(post), 1)
  }

  /** The record whose trigger a window was sent for. */
  function MarkAt(s: System, legs: seq<seq<Tick>>, trig: Trigger, post: u32, x: P.Send): nat
    requires P.Delay(post) <= x.pass <= |legs| + P.Delay(post)
  {
    At(s, legs, trig, x.pass - P.Delay(post)).mark
  }

  lemma FirstReg(s: System, legs: seq<seq<Tick>>, trig: Trigger)
    ensures Regs(s, legs, trig)[0] == Reg(s, trig)
  {
    assert At(s, legs, trig, 0) == s;
  }

  lemma PolledMarked(s: System, legs: seq<seq<Tick>>, trig: Trigger, hi: nat, info: P.Info, pre: u32, post: u32, x: P.Send)
    requires Polled(s, legs, trig, hi, info, pre, post) && x in Sends(s, legs, trig, info, post)
    ensures Marked(HistoryOf(s, legs, trig), P.Delay(post), x, 1000, hi)
  {
    HistoryPlausible(s, legs, trig, 1000, hi);
    FirstReg(s, legs, trig);
    SentMarked(HistoryOf(s, legs, trig), Regs(s, legs, trig), 1000, hi, info, P.Delay(post), x);
  }

  lemma MarkedMeans(h: History, hi: nat, pre: u32, post: u32, x: P.Send)
    requires Marked(h, P.Delay(post), x, 1000, hi) && post % 1000 == 0
    requires Times(hi, 2 * P.Delay(post) + 1) + pre + 1 < SLOTS
    ensures var m, now := h.marks[x.pass - P.Delay(post)], h.begun[x.pass];
      m >= 1 && x.addr == RingAddr(Slot(m)) && m + post <= now && now + pre + 1 < m + SLOTS
  {
    assert Times(1000, P.Delay(post)) == post;
  }

  lemma HistoryAt(s: System, legs: seq<seq<Tick>>, trig: Trigger, p: nat)
    requires p <= |legs|
    ensures HistoryOf(s, legs, trig).marks[p] == At(s, legs, trig, p).mark
    ensures HistoryOf(s, legs, trig).begun[p] == Begun(At(s, legs, trig, p))
  {
  }

  lemma MarkedAt(s: System, legs: seq<seq<Tick>>, trig: Trigger, hi: nat, pre: u32, post: u32, x: P.Send)
    requires Marked(HistoryOf(s, legs, trig), P.Delay(post), x, 1000, hi) && post % 1000 == 0
    requires Times(hi, 2 * P.Delay(post) + 1) + pre + 1 < SLOTS
    ensures P.Delay(post) <= x.pass <= |legs|
    ensures var m, now := MarkAt(s, legs, trig, post, x), Begun(At(s, legs, trig, x.pass));
      m >= 1 && x.addr == RingAddr(Slot(m)) && m + post <= now && now + pre + 1 < m + SLOTS
  {
    MarkedMeans(HistoryOf(s, legs, trig), hi, pre, post, x);
    HistoryAt(s, legs, trig, x.pass - P.Delay(post));
    HistoryAt(s, legs, trig, x.pass);
  }

  lemma SendMarked(s: System, legs: seq<seq<Tick>>, trig: Trigger, hi: nat, info: P.Info, pre: u32, post: u32, x: P.Send)
    requires Polled(s, legs, trig, hi, info, pre, post) && x in Sends(s, legs, trig, info, post)
    ensures P.Delay(post) <= x.pass <= |legs|
    ensures var m, now := MarkAt(s, legs, trig, post, x), Begun(At(s, legs, trig, x.pass));
      m >= 1 && x.addr == RingAddr(Slot(m)) && m + post <= now && now + pre + 1 < m + SLOTS
  {
    assert Marked(HistoryOf(s, legs, trig), P.Delay(post), x, 1000, hi) by {
      PolledMarked(s, legs, trig, hi, info, pre, post, x);
    }
    MarkedAt(s, legs, trig, hi, pre, post, x);
  }

  /** Every window the poller sends is whole if and only if `pre` records had been written before the
      trigger and, should the window pass TOP, the writer has finished the one record more that makes
      up for the record skipped there. */
  lemma SentWindowKept(s: System, legs: seq<seq<Tick>>, trig: Trigger, hi: nat, info: P.Info, pre: u32, post: u32, x: P.Send)
    requires Polled(s, legs, trig, hi, info, pre, post) && x in Sends(s, legs, trig, info, post)
    ensures P.Delay(post) <= x.pass <= |legs|
    ensures var m, w := MarkAt(s, legs, trig, post, x), At(s, legs, trig, x.pass).w;
      && m >= 1 && x.addr == RingAddr(Slot(m))
      && (WindowKept(w, m, pre, post) <==>
           Shown(m, pre, 0) >= 1 && (Slot(m) + post > READ_SLOTS ==> m + post <= W.Complete(w)))
  {
    SendMarked(s, legs, trig, hi, info, pre, post, x);
    KeptIff(At(s, legs, trig, x.pass).w, MarkAt(s, legs, trig, post, x), pre, post);
  }

  /** Then every number of the message is that of its record, and a reading is what it meant if and
      only if the digital loop was then as it is now and the error column loses no sign. */
  lemma SentMessageShows(s: System, legs: seq<seq<Tick>>, trig: Trigger, hi: nat, info: P.Info, pre: u32, post: u32,
      x: P.Send, view: View, k: nat, j: nat)
    requires Polled(s, legs, trig, hi, info, pre, post) && x in Sends(s, legs, trig, info, post)
    requires Known(view) && k < pre + post && j < PER_SAMPLE
    ensures P.Delay(post) <= x.pass <= |legs|
    ensures var m, w := MarkAt(s, legs, trig, post, x), At(s, legs, trig, x.pass).w;
      m >= 1 && (WindowKept(w, m, pre, post) ==> Reads(w, m, pre, post, view, k, j))
  {
    SendMarked(s, legs, trig, hi, info, pre, post, x);
    var m, w := MarkAt(s, legs, trig, post, x), At(s, legs, trig, x.pass).w;
    if WindowKept(w, m, pre, post) {
      AtInv(s, legs, trig, x.pass);
      WindowReads(w, m, pre, post, view, k, j);
    }
  }

  // --- From reset ---

  /** Writer and latches after a reset, which clears the address but leaves the last trigger lines. */
  function AfterReset(prev: bool, mem: Memory, r: L.Regs, lines: L.Lines, now: L.Latched): System {
    System(W.World(W.Initial(prev, mem), []), L.Clock(r, L.Inputs(true, lines, now)), 0)
  }

  lemma AfterResetInv(prev: bool, mem: Memory, r: L.Regs, lines: L.Lines, now: L.Latched, trig: Trigger)
    ensures Inv(AfterReset(prev, mem, r, lines, now), trig) && Reg(AfterReset(prev, mem, r, lines, now), trig) == 0
  {
  }

  /** From a reset of the hardware and a poller as it is initialised: with 1000 to `hi` records begun
      from pass to pass, every window of the given size that is ever sent is whole under the same
      condition, and then shows its records. */
  lemma SentFromReset(prev: bool, mem: Memory, r: L.Regs, lines: L.Lines, now: L.Latched,
      legs: seq<seq<Tick>>, trig: Trigger, hi: nat, pre: u32, post: u32, x: P.Send, view: View, k: nat, j: nat)
    requires var s := AfterReset(prev, mem, r, lines, now);
      && LegalLegs(s, legs, trig) && Paced(s, legs, trig, 1000, hi)
      && x in Sends(s, legs, trig, P.Info(0, 0, false, 0, false), post)
    requires post > 0 && post % 1000 == 0 && Fits(pre, post)
    requires Times(hi, 2 * P.Delay(post) + 1) + pre + 1 < SLOTS
    requires Known(view) && k < pre + post && j < PER_SAMPLE
    ensures P.Delay(post) <= x.pass <= |legs|
    ensures var s := AfterReset(prev, mem, r, lines, now);
      var m, w := MarkAt(s, legs, trig, post, x), At(s, legs, trig, x.pass).w;
      && m >= 1 && x.addr == RingAddr(Slot(m))
      && (WindowKept(w, m, pre, post) <==>
           Shown(m, pre, 0) >= 1 && (Slot(m) + post > READ_SLOTS ==> m + post <= W.Complete(w)))
      && (WindowKept(w, m, pre, post) ==> Reads(w, m, pre, post, view, k, j))
  {
    var s := AfterReset(prev, mem, r, lines, now);
    AfterResetInv(prev, mem, r, lines, now, trig);
    SentWindowKept(s, legs, trig, hi, P.Info(0, 0, false, 0, false), pre, post, x);
    SentMessageShows(s, legs, trig, hi, P.Info(0, 0, false, 0, false), pre, post, x, view, k, j);
  }
}
