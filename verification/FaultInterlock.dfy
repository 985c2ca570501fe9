/** What the fault interlock does, told from its inputs alone: pulses, clears, samples and the trip as
    functions of the inputs since a state, without the registers in between. */
module FaultInterlock {
  import opened Common
  import opened FaultBlock

  /** The history h is the inputs of the clocks since state r. A 10 kHz trigger reaches the counters
      three clocks later. */
  predicate Pulse(r: Regs, h: seq<Inputs>) {
    if |h| >= 3 then h[|h| - 3].trig else if |h| == 2 then r.dff0 else if |h| == 1 then r.dff1 else r.pulse
  }

  /** The clear input was high one clock ago and low two clocks ago. */
  predicate Rise(r: Regs, h: seq<Inputs>) {
    if |h| >= 2 then h[|h| - 1].clear && !h[|h| - 2].clear
    else if |h| == 1 then h[0].clear && !r.re
    else r.re && !r.reReg
  }

  predicate NoPulse(r: Regs, h: seq<Inputs>, from: nat) { forall v :: from <= v < |h| ==> !Pulse(r, h[..v]) }

  /** The clear input rose at clock u, and no pulse has come since. */
  predicate RoseAt(r: Regs, h: seq<Inputs>, u: nat)
    requires u < |h|
  {
    Rise(r, h[..u]) && NoPulse(r, h, u + 1)
  }

  /** A clear is being carried out. */
  predicate Pending(r: Regs, h: seq<Inputs>) {
    (r.clearPulse && NoPulse(r, h, 0)) || exists u :: 0 <= u < |h| && RoseAt(r, h, u)
  }

  /** The set-points at the last triggers, the last one at the end. */
  function Setpoints(r: Regs, h: seq<Inputs>): (s: seq<int>)
    ensures |s| >= 2
    decreases |h|
  {
    if h == [] then [r.setpointOld, r.setpointNew]
    else Setpoints(r, h[..|h| - 1]) + (if h[|h| - 1].trig then [h[|h| - 1].setpoint] else [])
  }

  predicate LastTwoDiffer(s: seq<int>)
    requires |s| >= 2
  {
    s[|s| - 1] != s[|s| - 2]
  }

  /** One clock ago the last two set-points were different. */
  predicate Moved(r: Regs, h: seq<Inputs>) {
    if h == [] then r.changed else LastTwoDiffer(Setpoints(r, h[..|h| - 1]))
  }

  /** The sample taken at input i counts for bit k; the two loop-error bits 3 and 4 do not count in park
      or just after a change of set-point. */
  predicate Counts(r: Regs, h: seq<Inputs>, i: Inputs, k: nat)
    requires k < 11
  {
    i.over[k] && !Pending(r, h) && (k == 3 || k == 4 ==> !i.park && !Moved(r, h))
  }

  /** The samples of bit k, true where they count. */
  function Taken(r: Regs, h: seq<Inputs>, k: nat): seq<bool>
    requires k < 11
    decreases |h|
  {
    if h == [] then []
    else
      var init := h[..|h| - 1];
      Taken(r, init, k) + (if Pulse(r, init) then [Counts(r, init, h[|h| - 1], k)] else [])
  }

  /** Fault k is present: the last limit + 1 samples counted, or, for bit 12, the event input is high.
      Nothing drives bit 11. */
  predicate Present(r: Regs, h: seq<Inputs>, limits: Limits, k: nat)
    requires k < 13
  {
    if k < 11 then
      var n: nat := limits[k];
      Held(Taken(r, h, k), n + 1)
    else if k == 12 && h != [] then h[|h| - 1].evr
    else r.live[k]
  }

  /** Fault k was present before clock t, and no clear has been pending since. */
  predicate PresentAt(r: Regs, h: seq<Inputs>, limits: Limits, k: nat, t: nat)
    requires k < 13 && t < |h|
  {
    Present(r, h[..t], limits, k) && forall u :: t <= u < |h| ==> !Pending(r, h[..u])
  }

  predicate PresentSinceClear(r: Regs, h: seq<Inputs>, limits: Limits, k: nat)
    requires k < 13
  {
    exists t :: 0 <= t < |h| && PresentAt(r, h, limits, k, t)
  }

  // --- The registers from the inputs ---

  lemma {:induction false} NoPulseSnoc(r: Regs, h: seq<Inputs>, from: nat)
    requires h != [] && from <= |h| - 1
    ensures NoPulse(r, h, from) <==> NoPulse(r, h[..|h| - 1], from) && !Pulse(r, h[..|h| - 1])
  {
    var init := h[..|h| - 1];
    forall v | from <= v < |init|
      ensures h[..v] == init[..v]
    {
    }
    if NoPulse(r, h, from) {
      forall v | from <= v < |init|
        ensures !Pulse(r, init[..v])
      {
        assert !Pulse(r, h[..v]);
      }
      assert !Pulse(r, h[..|h| - 1]);
    }
  }

  lemma {:induction false} RoseAtSnoc(r: Regs, h: seq<Inputs>, u: nat)
    requires u < |h| - 1
    ensures RoseAt(r, h, u) <==> RoseAt(r, h[..|h| - 1], u) && !Pulse(r, h[..|h| - 1])
  {
    assert h[..u] == h[..|h| - 1][..u];
    NoPulseSnoc(r, h, u + 1);
  }

  /** A rising clear starts the clear pulse, a 10 kHz pulse without one ends it. */
  lemma {:induction false} PendingSnoc(r: Regs, h: seq<Inputs>)
    requires h != []
    ensures var init := h[..|h| - 1];
      Pending(r, h) <==> Rise(r, init) || (!Pulse(r, init) && Pending(r, init))
  {
    var init, n := h[..|h| - 1], |h| - 1;
    NoPulseSnoc(r, h, 0);
    assert RoseAt(r, h, n) <==> Rise(r, init);
    forall u | 0 <= u < n
      ensures RoseAt(r, h, u) <==> RoseAt(r, init, u) && !Pulse(r, init)
    {
      RoseAtSnoc(r, h, u);
    }
    if Pending(r, init) && !Pulse(r, init) && !(r.clearPulse && NoPulse(r, init, 0)) {
      var u :| 0 <= u < |init| && RoseAt(r, init, u);
      assert RoseAt(r, h, u);
    }
  }

  /** The registers ahead of the counters, from the inputs: those of the trigger, of the clear input and
      of the set-point. */
  predicate TrigRegs(r: Regs, h: seq<Inputs>, e: Regs) {
    && e.pulse == Pulse(r, h)
    && e.dff1 == (if |h| >= 2 then h[|h| - 2].trig else if |h| == 1 then r.dff0 else r.dff1)
    && e.dff0 == (if |h| >= 1 then h[|h| - 1].trig else r.dff0)
  }

  predicate ClearRegs(r: Regs, h: seq<Inputs>, e: Regs) {
    && e.re == (if |h| >= 1 then h[|h| - 1].clear else r.re)
    && e.reReg == (if |h| >= 2 then h[|h| - 2].clear else if |h| == 1 then r.re else r.reReg)
    && e.clearPulse == Pending(r, h)
  }

  predicate SetpointRegs(r: Regs, h: seq<Inputs>, e: Regs) {
    var s := Setpoints(r, h);
    e.setpointNew == s[|s| - 1] && e.setpointOld == s[|s| - 2] && e.changed == Moved(r, h)
  }

  predicate FrontEnd(r: Regs, h: seq<Inputs>, e: Regs) {
    TrigRegs(r, h, e) && ClearRegs(r, h, e) && SetpointRegs(r, h, e)
  }

  lemma {:induction false} FrontEndStart(r: Regs)
    ensures FrontEnd(r, [], r)
  {
    assert NoPulse(r, [], 0);
  }

  lemma {:induction false} TrigStep(r: Regs, h: seq<Inputs>, e: Regs, limits: Limits)
    requires h != [] && !h[|h| - 1].reset && TrigRegs(r, h[..|h| - 1], e)
    ensures TrigRegs(r, h, Clock(e, h[|h| - 1], limits))
  {
  }

  lemma {:induction false} ClearStep(r: Regs, h: seq<Inputs>, e: Regs, limits: Limits)
    requires h != [] && ClearRegs(r, h[..|h| - 1], e) && e.pulse == Pulse(r, h[..|h| - 1])
    ensures ClearRegs(r, h, Clock(e, h[|h| - 1], limits))
  {
    PendingSnoc(r, h);
    assert Rise(r, h[..|h| - 1]) <==> e.re && !e.reReg;
  }

  lemma {:induction false} SetpointStep(r: Regs, h: seq<Inputs>, e: Regs, limits: Limits)
    requires h != [] && !h[|h| - 1].reset && SetpointRegs(r, h[..|h| - 1], e)
    ensures SetpointRegs(r, h, Clock(e, h[|h| - 1], limits))
  {
    var s := Setpoints(r, h[..|h| - 1]);
    assert Setpoints(r, h) == s + (if h[|h| - 1].trig then [h[|h| - 1].setpoint] else []);
  }

  lemma {:induction false} FrontEndRun(r: Regs, h: seq<Inputs>, limits: Limits)
    requires NoReset(h)
    ensures FrontEnd(r, h, Run(r, h, limits))
    decreases |h|
  {
    if h == [] {
      FrontEndStart(r);
    } else {
      FrontEndRun(r, h[..|h| - 1], limits);
      RunSnoc(r, h, limits);
      var e := Run(r, h[..|h| - 1], limits);
      TrigStep(r, h, e, limits);
      ClearStep(r, h, e, limits);
      SetpointStep(r, h, e, limits);
    }
  }

  /** The clear pulse ends: after a 10 kHz pulse at clock t it is down unless the clear input has risen
      at t or since. */
  lemma {:induction false} ClearEnds(r: Regs, ins: seq<Inputs>, limits: Limits, t: nat)
    requires NoReset(ins) && t < |ins| && Pulse(r, ins[..t])
    requires forall u :: t <= u < |ins| ==> !Rise(r, ins[..u])
    ensures !Pending(r, ins) && !Run(r, ins, limits).clearPulse
  {
    FrontEndRun(r, ins, limits);
    forall u | 0 <= u < |ins|
      ensures !RoseAt(r, ins, u)
    {
      assert u < t ==> !NoPulse(r, ins, u + 1);
    }
    assert !NoPulse(r, ins, 0);
  }

  // --- Samples and faults ---

  /** The sample taken at one clock, if any. */
  function SampleAt(e: Regs, i: Inputs, k: nat): seq<bool>
    requires k < COUNTED
  {
    if e.pulse && !i.reset then [Qualifies(e.clearPulse, e.changed, i, k)] else []
  }

  lemma {:induction false} SamplesSnoc(r: Regs, h: seq<Inputs>, limits: Limits, k: nat)
    requires k < COUNTED && h != []
    ensures Samples(r, h, limits, k) ==
      Samples(r, h[..|h| - 1], limits, k) + SampleAt(Run(r, h[..|h| - 1], limits), h[|h| - 1], k)
    decreases |h|
  {
    var first := SampleAt(r, h[0], k);
    if |h| == 1 {
      assert first + [] == first && [] + first == first;
    } else {
      var c, rest := Clock(r, h[0], limits), h[1..];
      SamplesSnoc(c, rest, limits, k);
      assert h[..|h| - 1][1..] == rest[..|rest| - 1];
      var init := rest[..|rest| - 1];
      Associative(first, Samples(c, init, limits, k), SampleAt(Run(c, init, limits), h[|h| - 1], k));
    }
  }

  lemma {:induction false} Associative(a: seq<bool>, b: seq<bool>, c: seq<bool>)
    ensures a + b + c == a + (b + c)
  {
  }

  lemma {:induction false} SampleCounts(r: Regs, h: seq<Inputs>, e: Regs, i: Inputs, k: nat)
    requires k < COUNTED && FrontEnd(r, h, e)
    ensures Qualifies(e.clearPulse, e.changed, i, k) == Counts(r, h, i, k)
  {
  }

  lemma {:induction false} SamplesTaken(r: Regs, h: seq<Inputs>, limits: Limits, k: nat)
    requires k < COUNTED && NoReset(h)
    ensures Samples(r, h, limits, k) == Taken(r, h, k)
    decreases |h|
  {
    if h != [] {
      var init := h[..|h| - 1];
      var e := Run(r, init, limits);
      SamplesTaken(r, init, limits, k);
      SamplesSnoc(r, h, limits, k);
      FrontEndRun(r, init, limits);
      SampleCounts(r, init, e, h[|h| - 1], k);
      assert !h[|h| - 1].reset;
    }
  }

  lemma {:induction false} OtherLive(r: Regs, h: seq<Inputs>, limits: Limits, k: nat)
    requires 11 <= k < 13 && NoReset(h)
    ensures Run(r, h, limits).live[k] == Present(r, h, limits, k)
    decreases |h|
  {
    if h != [] {
      OtherLive(r, h[..|h| - 1], limits, k);
      RunSnoc(r, h, limits);
    }
  }

  /** From cleared counters live bit k tells whether its fault is present. */
  lemma {:induction false} LiveIsPresent(r: Regs, h: seq<Inputs>, limits: Limits, k: nat)
    requires k < 13 && NoReset(h) && (k < COUNTED ==> BitOf(r, k) == Bit(0, false))
    ensures Run(r, h, limits).live[k] <==> Present(r, h, limits, k)
  {
    if k < COUNTED {
      Debounce(r, h, limits, k);
      SamplesTaken(r, h, limits, k);
    } else {
      OtherLive(r, h, limits, k);
    }
  }

  lemma {:induction false} SetIsPresent(r: Regs, h: seq<Inputs>, limits: Limits, k: nat, t: nat)
    requires k < 13 && t < |h| && NoReset(h) && (k < COUNTED ==> BitOf(r, k) == Bit(0, false))
    ensures SetAt(r, h, limits, k, t) <==> PresentAt(r, h, limits, k, t)
  {
    LiveIsPresent(r, h[..t], limits, k);
    forall u | t <= u < |h|
      ensures At(r, h, limits, u).clearPulse <==> Pending(r, h[..u])
    {
      FrontEndRun(r, h[..u], limits);
    }
    if SetAt(r, h, limits, k, t) {
      forall u | t <= u < |h|
        ensures !Pending(r, h[..u])
      {
        assert !At(r, h, limits, u).clearPulse;
      }
    }
  }

  // --- The ON output ---

  /** From cleared counters and latches, for every run: ON1 is on if and only if the supply is switched
      on and no enabled fault other than bit 4 was present two clocks ago or earlier with no clear
      since. */
  lemma {:induction false} On1FromInputs(r: Regs, ins: seq<Inputs>, limits: Limits, psOn: bool)
    requires Cleared(r) && NoReset(ins) && |ins| >= 2
    ensures On1(Run(r, ins, limits), psOn) <==>
      var init, enable := ins[..|ins| - 1], ins[|ins| - 1].enable;
      psOn && !exists k :: 0 <= k < 13 && k != 4 && enable[k] && PresentSinceClear(r, init, limits, k)
  {
    var init := ins[..|ins| - 1];
    Interlock(r, ins, limits);
    forall k | 0 <= k < 13
      ensures SetSinceClear(r, init, limits, k) <==> PresentSinceClear(r, init, limits, k)
    {
      forall t | 0 <= t < |init|
        ensures SetAt(r, init, limits, k, t) <==> PresentAt(r, init, limits, k, t)
      {
        SetIsPresent(r, init, limits, k, t);
      }
    }
  }

  /** The error trigger is fault 4, one clock late, if it is enabled. */
  lemma {:induction false} ErrorTrigger(r: Regs, ins: seq<Inputs>, limits: Limits)
    requires BitOf(r, 4) == Bit(0, false) && NoReset(ins) && ins != []
    ensures Run(r, ins, limits).errTrig <==>
      ins[|ins| - 1].enable[4] && Present(r, ins[..|ins| - 1], limits, 4)
  {
    LiveIsPresent(r, ins[..|ins| - 1], limits, 4);
    RunSnoc(r, ins, limits);
  }

  lemma {:induction false} PresentNow(r: Regs, h: seq<Inputs>, a: Inputs, limits: Limits, k: nat)
    requires k < 13 && Present(r, h, limits, k) && !Pending(r, h)
    ensures PresentSinceClear(r, h + [a], limits, k)
  {
    assert (h + [a])[..|h|] == h;
    assert PresentAt(r, h + [a], limits, k, |h|);
  }

  /** An enabled fault whose last limit + 1 samples counted switches ON1 off two clocks later, once the
      last clear has ended with a 10 kHz pulse. */
  lemma {:induction false} HeldFaultTrips(r: Regs, h: seq<Inputs>, a: Inputs, b: Inputs, limits: Limits,
      k: nat, t: nat, psOn: bool)
    requires Cleared(r) && NoReset(h + [a] + [b]) && k < 11 && k != 4 && b.enable[k]
    requires Present(r, h, limits, k)
    requires t < |h| && Pulse(r, h[..t]) && forall u :: t <= u < |h| ==> !Rise(r, h[..u])
    ensures !On1(Run(r, h + [a] + [b], limits), psOn)
  {
    var ins := h + [a] + [b];
    assert NoReset(h) by {
      forall u | 0 <= u < |h|
        ensures !h[u].reset
      {
        assert ins[u] == h[u];
      }
    }
    ClearEnds(r, h, limits, t);
    PresentNow(r, h, a, limits, k);
    assert ins[..|ins| - 1] == h + [a] && ins[|ins| - 1] == b;
    On1FromInputs(r, ins, limits, psOn);
  }

  lemma {:induction false} NothingTaken(r: Regs, h: seq<Inputs>, k: nat)
    requires k < 11 && forall u :: 0 <= u < |h| ==> !h[u].over[k]
    ensures forall j :: 0 <= j < |Taken(r, h, k)| ==> !Taken(r, h, k)[j]
    decreases |h|
  {
    if h != [] {
      NothingTaken(r, h[..|h| - 1], k);
    }
  }

  /** No condition holds and no event comes. */
  predicate Quiet(h: seq<Inputs>) {
    forall u :: 0 <= u < |h| ==> !h[u].evr && forall k :: 0 <= k < 11 ==> !h[u].over[k]
  }

  lemma {:induction false} NonePresent(r: Regs, h: seq<Inputs>, limits: Limits, k: nat)
    requires k < 13 && Quiet(h) && !r.live[11] && !r.live[12]
    ensures !Present(r, h, limits, k)
  {
    if k < 11 {
      var n: nat := limits[k];
      NothingTaken(r, h, k);
      var ss := Taken(r, h, k);
      assert |ss| >= n + 1 ==> !ss[|ss| - 1];
    }
  }

  /** Without a fault the supply stays as it is switched. */
  lemma {:induction false} QuietStaysOn(r: Regs, ins: seq<Inputs>, limits: Limits, psOn: bool)
    requires Cleared(r) && !r.live[11] && !r.live[12] && NoReset(ins) && |ins| >= 2 && Quiet(ins)
    ensures On1(Run(r, ins, limits), psOn) == psOn
  {
    var init := ins[..|ins| - 1];
    On1FromInputs(r, ins, limits, psOn);
    forall k: nat, t: nat | k < 13 && t < |init|
      ensures !PresentAt(r, init, limits, k, t)
    {
      NonePresent(r, init[..t], limits, k);
    }
  }

  /** Of the clocks from `from` on only the last sees a 10 kHz pulse. */
  predicate PulseLast(r: Regs, h: seq<Inputs>, from: nat) {
    from < |h| && forall t :: from <= t < |h| ==> (Pulse(r, h[..t]) <==> t == |h| - 1)
  }

  lemma {:induction false} RunConcat(r: Regs, a: seq<Inputs>, b: seq<Inputs>, limits: Limits)
    ensures Run(r, a + b, limits) == Run(Run(r, a, limits), b, limits)
    decreases |a|
  {
    if a == [] {
      assert a + b == b;
    } else {
      assert (a + b)[1..] == a[1..] + b;
      RunConcat(Clock(r, a[0], limits), a[1..], b, limits);
    }
  }

  /** From any state: a clear, pending or just requested, brings the supply back at the next 10 kHz
      pulse, and without a fault it stays on. */
  lemma {:induction false} ClearRestores(r: Regs, a: seq<Inputs>, b: seq<Inputs>, limits: Limits, psOn: bool)
    requires NoReset(a) && NoReset(b) && !r.live[11]
    requires (r.clearPulse && PulseLast(r, a, 0)) || (Rise(r, []) && PulseLast(r, a, 1))
    requires !a[|a| - 1].evr && |b| >= 2 && Quiet(b)
    ensures On1(Run(r, a + b, limits), psOn) == psOn
  {
    var e := Run(r, a, limits);
    forall t | 0 <= t < |a|
      ensures At(r, a, limits, t).pulse == Pulse(r, a[..t])
    {
      FrontEndRun(r, a[..t], limits);
    }
    ClearTakesEffect(r, a, limits);
    OtherLive(r, a, limits, 11);
    OtherLive(r, a, limits, 12);
    RunConcat(r, a, b, limits);
    QuietStaysOn(e, b, limits, psOn);
  }
}
