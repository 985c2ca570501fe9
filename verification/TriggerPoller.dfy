/** src/sw/src/snapshots.c: the 10 Hz loop that notices a new trigger address, waits for the
    samples after the trigger, and sends the window. One TriggerInfo of the twenty. */
module TriggerPoller {
  import opened Common
  import opened SnapshotReader

  const MSGWFMLEN := 4000000

  datatype Info = Info(addr: u32, addrLast: u32, active: bool, postdlycnt: u32, sendbuf: bool)

  /** Passes to wait after the one that notices the trigger. */
  function Delay(posttrigpts: u32): nat { posttrigpts / 1000 }

  // --- One pass ---

  function Process(s: Info, delay: nat): Info {
    var s := if s.addr != s.addrLast && !s.active
      then s.(active := true, addrLast := s.addr, postdlycnt := 0) else s;
    if !s.active then s
    else if s.postdlycnt < delay then s.(postdlycnt := U32(s.postdlycnt + 1))
    else s.(sendbuf := true)
  }

  /** The new state, and the address whose window is sent, if any. */
  function Pass(s: Info, reg: u32, delay: nat): (Info, Option<u32>) {
    var s := Process(if s.active then s else s.(addr := reg), delay);
    if s.sendbuf then (s.(sendbuf := false, active := false), Some(s.addr)) else (s, None)
  }

  datatype Kind = Usr | Flt | Err | Inj | Evr

  class TriggerInfo {
    var addr: u32
    var addrLast: u32
    var active: bool
    var postdlycnt: u32
    var sendbuf: bool
    const pretrigpts: u32
    const posttrigpts: u32
    const channum: u32

    /** InitTriggerInfo: every configured window fits the ring and the message buffer. */
    constructor (kind: Kind, i: nat)
      requires i < 4
      ensures State() == Info(0, 0, false, 0, false)
      ensures channum == i + 1
      ensures if kind.Inj? then pretrigpts == 0 && posttrigpts == 8000 else pretrigpts == posttrigpts == 50000
      ensures Fits(pretrigpts, posttrigpts) && 4 * PER_SAMPLE * (pretrigpts + posttrigpts) <= MSGWFMLEN
    {
      addr, addrLast, active, postdlycnt, sendbuf := 0, 0, false, 0, false;
      pretrigpts := if kind == Inj then 0 else 50000;
      posttrigpts := if kind == Inj then 8000 else 50000;
      channum := i + 1;
    }

    function State(): Info
      reads this
    {
      Info(addr, addrLast, active, postdlycnt, sendbuf)
    }

    method ProcessTrigger()
      modifies this
      ensures State() == Process(old(State()), Delay(posttrigpts))
    {
      if addr != addrLast && !active {
        active := true;
        addrLast := addr;
        postdlycnt := 0;
      }
      if active {
        if postdlycnt < posttrigpts / 1000 {
          postdlycnt := U32(postdlycnt + 1);
        } else {
          sendbuf := true;
        }
      }
    }

    /** The register is read only while no trigger is being waited for; SendWfmData resets both
        flags and sends the window at `addr`. */
    method Poll(reg: u32) returns (sent: Option<u32>)
      modifies this
      ensures (State(), sent) == Pass(old(State()), reg, Delay(posttrigpts))
    {
      if !active {
        addr := reg;
      }
      ProcessTrigger();
      sent := None;
      if sendbuf {
        sendbuf := false;
        active := false;
        sent := Some(addr);
      }
    }
  }

  // --- Runs ---

  /** The window at `addr` was sent in pass number `pass`. */
  datatype Send = Send(pass: nat, addr: u32)

  /** What the loop sends from pass t on; regs[i] is the register in pass i. */
  function Outputs(s: Info, regs: seq<u32>, delay: nat, t: nat): seq<Send>
    decreases |regs| - t
  {
    if t >= |regs| then [] else
    var (next, sent) := Pass(s, regs[t], delay);
    (if sent.Some? then [Send(t, sent.value)] else []) + Outputs(next, regs, delay, t + 1)
  }

  /** What should be sent: a register value other than the last one is noticed, sent `delay`
      passes later whatever the register does meanwhile, and then the next one is looked for. */
  function Expected(last: u32, regs: seq<u32>, delay: nat, t: nat): seq<Send>
    decreases |regs| - t
  {
    if t >= |regs| then []
    else if regs[t] == last then Expected(last, regs, delay, t + 1)
    else if t + delay >= |regs| then []
    else [Send(t + delay, regs[t])] + Expected(regs[t], regs, delay, t + delay + 1)
  }

  predicate Idle(s: Info) { !s.active && !s.sendbuf }

  predicate Waiting(s: Info, delay: nat) {
    s.active && !s.sendbuf && s.addr == s.addrLast && s.postdlycnt <= delay < 0x1_0000_0000
  }

  lemma PassWaits(s: Info, reg: u32, delay: nat)
    requires Waiting(s, delay) && s.postdlycnt < delay
    ensures Pass(s, reg, delay) == (s.(postdlycnt := s.postdlycnt + 1), None)
  {
    U32Fits(s.postdlycnt + 1);
  }

  lemma {:induction false} WaitsThenSends(s: Info, regs: seq<u32>, delay: nat, t: nat)
    requires Waiting(s, delay)
    ensures var due := t + delay - s.postdlycnt;
      Outputs(s, regs, delay, t) ==
        if due >= |regs| then [] else [Send(due, s.addr)] + Expected(s.addr, regs, delay, due + 1)
    decreases |regs| - t, 0
  {
    if t < |regs| {
      if s.postdlycnt < delay {
        PassWaits(s, regs[t], delay);
        WaitsThenSends(s.(postdlycnt := s.postdlycnt + 1), regs, delay, t + 1);
      } else {
        SendsExpected(s.(active := false), regs, delay, t + 1);
      }
    }
  }

  /** The loop sends exactly the expected windows at exactly the expected passes. */
  lemma {:induction false} SendsExpected(s: Info, regs: seq<u32>, delay: nat, t: nat)
    requires Idle(s) && delay < 0x1_0000_0000
    ensures Outputs(s, regs, delay, t) == Expected(s.addrLast, regs, delay, t)
    decreases |regs| - t, 1
  {
    if t < |regs| {
      var (next, sent) := Pass(s, regs[t], delay);
      if regs[t] == s.addrLast || delay == 0 {
        SendsExpected(next, regs, delay, t + 1);
      } else {
        U32Fits(1);
        WaitsThenSends(next, regs, delay, t + 1);
      }
    }
  }

  /** From pass t on the list misses nothing and repeats nothing: its head is the first register
      value other than the last address, sent `delay` passes after it was noticed, and the rest
      is such a list from the pass after that. */
  predicate EachOnce(last: u32, regs: seq<u32>, delay: nat, t: nat, out: seq<Send>)
    decreases |out|
  {
    if out == [] then forall p :: t <= p < |regs| - delay ==> regs[p] == last
    else
      var noticed := out[0].pass - delay;
      && t <= noticed && out[0].pass < |regs|
      && (forall p :: t <= p < noticed ==> regs[p] == last)
      && regs[noticed] == out[0].addr != last
      && EachOnce(out[0].addr, regs, delay, out[0].pass + 1, out[1..])
  }

  lemma {:induction false} OutputsEachOnce(s: Info, regs: seq<u32>, delay: nat, t: nat)
    requires Idle(s) && delay < 0x1_0000_0000
    ensures EachOnce(s.addrLast, regs, delay, t, Outputs(s, regs, delay, t))
  {
    SendsExpected(s, regs, delay, t);
    ExpectedOnce(s.addrLast, regs, delay, t);
  }

  lemma {:induction false} ExpectedOnce(last: u32, regs: seq<u32>, delay: nat, t: nat)
    ensures EachOnce(last, regs, delay, t, Expected(last, regs, delay, t))
    decreases |regs| - t
  {
    if t >= |regs| {
    } else if regs[t] == last {
      ExpectedOnce(last, regs, delay, t + 1);
    } else if t + delay < |regs| {
      ExpectedOnce(regs[t], regs, delay, t + delay + 1);
    }
  }

  function LastAddr(last: u32, out: seq<Send>): u32 {
    if out == [] then last else out[|out| - 1].addr
  }

  /** From pass n on the register shows v. */
  predicate Settled(regs: seq<u32>, n: nat, v: u32) { forall i :: n <= i < |regs| ==> regs[i] == v }

  lemma LastOfCons(last: u32, x: Send, rest: seq<Send>)
    ensures LastAddr(last, [x] + rest) == LastAddr(x.addr, rest)
  {
  }

  lemma {:induction false} ConstantIsQuiet(regs: seq<u32>, delay: nat, t: nat, v: u32)
    requires Settled(regs, t, v)
    ensures Expected(v, regs, delay, t) == []
    decreases |regs| - t
  {
    if t < |regs| {
      ConstantIsQuiet(regs, delay, t + 1, v);
    }
  }

  /** A value that stays for 2 * delay + 1 passes is the last one sent. */
  lemma {:induction false} SettledIsSent(last: u32, regs: seq<u32>, delay: nat, t: nat, n: nat, v: u32)
    requires Settled(regs, n, v)
    requires if t >= n then t + delay < |regs| else n + 2 * delay < |regs|
    ensures LastAddr(last, Expected(last, regs, delay, t)) == v
    decreases |regs| - t
  {
    if t >= n {
      if last == v {
        ConstantIsQuiet(regs, delay, t, v);
      } else {
        ConstantIsQuiet(regs, delay, t + delay + 1, v);
        assert Expected(last, regs, delay, t) == [Send(t + delay, v)] + [];
      }
    } else if regs[t] == last {
      SettledIsSent(last, regs, delay, t + 1, n, v);
    } else {
      SettledIsSent(regs[t], regs, delay, t + delay + 1, n, v);
      LastOfCons(last, Send(t + delay, regs[t]), Expected(regs[t], regs, delay, t + delay + 1));
    }
  }

  /** A new trigger address that stays in its register is sent, whatever came before it. */
  lemma SettledAddressSent(s: Info, regs: seq<u32>, delay: nat, n: nat, v: u32)
    requires Idle(s) && delay < 0x1_0000_0000
    requires Settled(regs, n, v) && n + 2 * delay < |regs|
    ensures LastAddr(s.addrLast, Outputs(s, regs, delay, 0)) == v
  {
    SendsExpected(s, regs, delay, 0);
    SettledIsSent(s.addrLast, regs, delay, 0, n, v);
  }
}
