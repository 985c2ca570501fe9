/** src/sw/src/snapshots.c: cutting the window around a trigger out of the ring. */
module SnapshotReader {
  import opened Common
  import opened DdrRing

  const BUFSTART := 0x1000_0000
  const BUFLEN := 0x01E8_4800
  const BUFSTEPBYTES := 0xA0
  const BUFSTEPWORDS := 40
  const READ_SLOTS := 200000   // BUFLEN / BUFSTEPBYTES
  const PER_SAMPLE := 10       // words copied from each record

  function U32(n: int): u32 { n % 0x1_0000_0000 }

  /** What a snapshot is made for: a channel, and whether its one-bit loop register reads as 1 when
      the message is made, which can be long after the records were written. */
  datatype View = View(chan: u32, digpid: bool)

  /** A channel outside 1 to 4 copies nothing. */
  predicate Known(view: View) { 1 <= view.chan <= 4 }

  /** The record word that is copied j-th for a channel. */
  function Chosen(view: View, j: nat): (w: nat)
    requires Known(view) && j < PER_SAMPLE
    ensures w < WORDS
  {
    if j < 2 then j else 8 * (view.chan - 1) + j
  }

  /** The factors a word is multiplied by, each named after its scale factor; the first two columns
      of readings are in DAC bits, the others in 16-bit ADC bits. */
  datatype Scale = AsIs | DacDcct | AdcDcct | Vout | Ignd | Spare | Regulator | Error

  /** A number of the message: an integer with its factor, or a float taken over bit by bit. */
  datatype Number = Scaled(value: int, scale: Scale) | FloatBits(bits: u32)

  function Signed32(w: u32): int { if w < 0x8000_0000 then w else w - 0x1_0000_0000 }

  /** What becomes of the j-th word copied. The error column of channel 1 lacks the cast to a signed
      number that all other columns have. */
  function Convert(view: View, j: nat, w: u32): Number
    requires Known(view) && j < PER_SAMPLE
  {
    match j
    case 0 => Scaled(w, AsIs)
    case 1 => Scaled(w, AsIs)
    case 2 => Scaled(Signed32(w), DacDcct)
    case 3 => Scaled(Signed32(w), DacDcct)
    case 4 => Scaled(Signed32(w), AdcDcct)
    case 5 => Scaled(Signed32(w), Vout)
    case 6 => Scaled(Signed32(w), Ignd)
    case 7 => Scaled(Signed32(w), Spare)
    case 8 => Scaled(Signed32(w), if view.chan == 1 && view.digpid then AsIs else Regulator)
    case _ =>
      if view.chan != 1 then Scaled(Signed32(w), Error)
      else if view.digpid then FloatBits(w)
      else Scaled(w, Error)
  }

  /** Words counted from BUFSTART. */
  function WordIndex(addr: int): int { (addr - BUFSTART) / 4 }

  // --- CopyDataChan ---

  /** The ten words copied from the record at word `from`. */
  function Picked(mem: seq<u32>, from: nat, view: View): (s: seq<Number>)
    requires from + WORDS <= |mem| && Known(view)
    ensures |s| == PER_SAMPLE
  {
    seq(PER_SAMPLE, j requires 0 <= j < PER_SAMPLE => Convert(view, j, mem[from + Chosen(view, j)]))
  }

  /** What n records from word `from` on are copied to. */
  function Copied(mem: seq<u32>, from: nat, n: nat, view: View): (s: seq<Number>)
    requires from + WORDS * n <= |mem| && Known(view)
    ensures |s| == PER_SAMPLE * n
  {
    if n == 0 then [] else Copied(mem, from, n - 1, view) + Picked(mem, from + WORDS * (n - 1), view)
  }

  function Part(mem: seq<u32>, from: nat, n: nat, view: View): (s: seq<Number>)
    requires from + WORDS * n <= |mem|
    ensures |s| == if Known(view) then PER_SAMPLE * n else 0
  {
    if Known(view) then Copied(mem, from, n, view) else []
  }

  /** A stretch of n whole records inside the ring. */
  predicate Stretch(addr: u32, numwords: u32, n: nat) {
    addr >= BUFSTART && numwords == BUFSTEPWORDS * n && WordIndex(addr) + numwords <= MEM_WORDS
  }

  /** Words lo to hi - 1 of a sample are in the message and nothing else of it has changed. */
  twostate predicate Put(mem: array<u32>, msg: array<Number>, pos: nat, from: nat, view: View, lo: nat, hi: nat)
    requires Known(view) && lo <= hi <= PER_SAMPLE && from + WORDS <= mem.Length && pos + PER_SAMPLE <= msg.Length
    reads mem, msg
  {
    && (forall j :: lo <= j < hi ==> msg[pos + j] == Convert(view, j, mem[from + Chosen(view, j)]))
    && (forall p :: 0 <= p < msg.Length && !(pos + lo <= p < pos + hi) ==> msg[p] == old(msg[p]))
  }

  method CopyHeader(mem: array<u32>, msg: array<Number>, pos: nat, from: nat, view: View)
    requires Known(view) && from + WORDS <= mem.Length && pos + PER_SAMPLE <= msg.Length
    modifies msg
    ensures Put(mem, msg, pos, from, view, 0, 5)
  {
    var off := from + 8 * (view.chan - 1);
    msg[pos] := Scaled(mem[from], AsIs);
    msg[pos + 1] := Scaled(mem[from + 1], AsIs);
    msg[pos + 2] := Scaled(Signed32(mem[off + 2]), DacDcct);
    msg[pos + 3] := Scaled(Signed32(mem[off + 3]), DacDcct);
    msg[pos + 4] := Scaled(Signed32(mem[off + 4]), AdcDcct);
  }

  method CopyMonitors(mem: array<u32>, msg: array<Number>, pos: nat, from: nat, view: View)
    requires Known(view) && from + WORDS <= mem.Length && pos + PER_SAMPLE <= msg.Length
    modifies msg
    ensures Put(mem, msg, pos, from, view, 5, 8)
  {
    var off := from + 8 * (view.chan - 1);
    msg[pos + 5] := Scaled(Signed32(mem[off + 5]), Vout);
    msg[pos + 6] := Scaled(Signed32(mem[off + 6]), Ignd);
    msg[pos + 7] := Scaled(Signed32(mem[off + 7]), Spare);
  }

  method CopyLoop(mem: array<u32>, msg: array<Number>, pos: nat, from: nat, view: View)
    requires Known(view) && from + WORDS <= mem.Length && pos + PER_SAMPLE <= msg.Length
    modifies msg
    ensures Put(mem, msg, pos, from, view, 8, PER_SAMPLE)
  {
    var regulator, error := mem[from + 8 * (view.chan - 1) + 8], mem[from + 8 * (view.chan - 1) + 9];
    if view.chan == 1 && view.digpid {
      msg[pos + 8] := Scaled(Signed32(regulator), AsIs);
      msg[pos + 9] := FloatBits(error);
    } else {
      msg[pos + 8] := Scaled(Signed32(regulator), Regulator);
      msg[pos + 9] := Scaled(if view.chan == 1 then error else Signed32(error), Error);
    }
  }

  /** One turn of the copy loop; the C code repeats these assignments for each channel. */
  method CopyWords(mem: array<u32>, msg: array<Number>, pos: nat, from: nat, view: View)
    requires Known(view) && from + WORDS <= mem.Length && pos + PER_SAMPLE <= msg.Length
    modifies msg
    ensures Put(mem, msg, pos, from, view, 0, PER_SAMPLE)
  {
    CopyHeader(mem, msg, pos, from, view);
    CopyMonitors(mem, msg, pos, from, view);
    CopyLoop(mem, msg, pos, from, view);
  }

  /** The message is `out` so far, followed by what was there before. */
  predicate Written(msg: seq<Number>, was: seq<Number>, out: seq<Number>) {
    |out| <= |was| && msg == out + was[|out|..]
  }

  method CopySample(mem: array<u32>, msg: array<Number>, pos: nat, from: nat, view: View,
      ghost was: seq<Number>, ghost out: seq<Number>)
    requires Known(view)
    requires from + WORDS <= mem.Length && pos + PER_SAMPLE <= msg.Length
    requires Written(msg[..], was, out) && pos == |out|
    modifies msg
    ensures Written(msg[..], was, out + Picked(mem[..], from, view))
  {
    CopyWords(mem, msg, pos, from, view);
    assert msg[..pos] == out;
    assert msg[pos + PER_SAMPLE..] == was[pos + PER_SAMPLE..];
    assert msg[pos..pos + PER_SAMPLE] == Picked(mem[..], from, view);
    assert msg[..] == msg[..pos] + msg[pos..pos + PER_SAMPLE] + msg[pos + PER_SAMPLE..];
  }

  /** `n` is the number of records to copy. */
  method CopyDataChan(mem: array<u32>, msg: array<Number>, pos: nat, addr: u32, numwords: u32, view: View,
      ghost n: nat, ghost was: seq<Number>, ghost out: seq<Number>)
    returns (next: nat)
    requires mem.Length == MEM_WORDS && Stretch(addr, numwords, n)
    requires Known(view) ==> pos + PER_SAMPLE * n <= msg.Length
    requires Written(msg[..], was, out) && pos == |out|
    modifies msg
    ensures Written(msg[..], was, out + Part(mem[..], WordIndex(addr), n, view))
    ensures next == pos + |Part(mem[..], WordIndex(addr), n, view)|
  {
    next := pos;
    if Known(view) {
      var i, from := 0, WordIndex(addr);
      ghost var k: nat := 0;
      ghost var more := out;
      while i < numwords
        invariant k <= n && i == BUFSTEPWORDS * k && next == |more|
        invariant more == out + Copied(mem[..], from, k, view)
        invariant Written(msg[..], was, more)
      {
        CopySample(mem, msg, next, from + i, view, was, more);
        more := more + Picked(mem[..], from + i, view);
        i := i + BUFSTEPWORDS;
        next := next + PER_SAMPLE;
        k := k + 1;
      }
    } else {
      assert out + [] == out;
    }
  }

  // --- ReadDMABuf ---

  datatype Segment = Segment(addr: u32, words: u32)

  /** The segments of the ring that are copied, in order, in the C code's 32-bit arithmetic. */
  function Plan(addr: u32, pre: u32, post: u32): seq<Segment> {
    var start := U32(addr - U32(pre * BUFSTEPBYTES));
    var stop := U32(addr + U32(post * BUFSTEPBYTES));
    if start < BUFSTART then
      var second := U32(addr - BUFSTART) / 4;
      var first := U32(U32(pre * WORDS) - second);
      [Segment(U32(BUFSTART + BUFLEN - U32(first * 4)), first), Segment(BUFSTART, second), Segment(addr, U32(post * BUFSTEPWORDS))]
    else if stop > BUFSTART + BUFLEN then
      var first := U32(BUFSTART + BUFLEN - addr) / 4;
      var second := U32(U32(post * WORDS) - first);
      [Segment(start, U32(pre * BUFSTEPWORDS)), Segment(addr, first), Segment(BUFSTART, second)]
    else [Segment(start, U32(U32(pre + post) * BUFSTEPWORDS))]
  }

  function Records(g: Segment): nat { g.words / BUFSTEPWORDS }

  predicate Sound(g: Segment) { Stretch(g.addr, g.words, Records(g)) }

  function Total(plan: seq<Segment>): nat {
    if plan == [] then 0 else Records(plan[0]) + Total(plan[1..])
  }

  /** The byte address of sample k of a plan. */
  function SampleAddr(plan: seq<Segment>, k: nat): int
    requires k < Total(plan)
  {
    if k < Records(plan[0]) then plan[0].addr + BUFSTEPBYTES * k
    else SampleAddr(plan[1..], k - Records(plan[0]))
  }

  /** The slot that sample k should come from, for a trigger at slot i. */
  function RingSlot(i: nat, pre: nat, k: nat): (s: nat)
    ensures s < READ_SLOTS
  {
    (i - pre + k) % READ_SLOTS
  }

  /** The window is short enough that the plan is right for every trigger address. */
  predicate Fits(pre: nat, post: nat) {
    pre <= READ_SLOTS && post <= READ_SLOTS && pre + post <= READ_SLOTS + 1
  }

  lemma ModShift(a: int, s: nat)
    requires 0 <= s < READ_SLOTS
    requires a == s || a == s - READ_SLOTS || a == s + READ_SLOTS
    ensures a % READ_SLOTS == s
  {
  }

  function RingAddr(i: nat): u32
    requires i < SLOTS
  {
    SlotAddr(i)
  }

  predicate RightSample(i: nat, pre: u32, post: u32, k: nat)
    requires i < SLOTS
  {
    var plan := Plan(RingAddr(i), pre, post);
    k < Total(plan) && SampleAddr(plan, k) == SlotAddr(RingSlot(i, pre, k))
  }

  /** 160 bytes times this many records stays below BUFSTART, so no address wraps around. */
  const SANE := 1_000_000

  function Piece(slot: int, n: int): Segment
    requires 0 <= SlotAddr(slot) < 0x1_0000_0000 && 0 <= n <= 2 * SANE
  {
    Segment(SlotAddr(slot), BUFSTEPWORDS * n)
  }

  /** The plan of a window that fits, as stretches of whole slots. */
  function Pieces(i: nat, pre: nat, post: nat): seq<Segment>
    requires i < SLOTS && pre <= SANE && post <= SANE
  {
    if i < pre then [Piece(READ_SLOTS + i - pre, pre - i), Piece(0, i), Piece(i, post)]
    else if i + post > READ_SLOTS then [Piece(i - pre, pre), Piece(i, READ_SLOTS - i), Piece(0, i + post - READ_SLOTS)]
    else [Piece(i - pre, pre + post)]
  }

  lemma U32Fits(n: int)
    requires 0 <= n < 0x1_0000_0000
    ensures U32(n) == n
  {
  }

  lemma FitsBefore(i: nat, pre: u32, post: u32)
    requires i < SLOTS && i < pre <= SANE && post <= SANE
    ensures var addr := RingAddr(i);
      && U32(addr - U32(pre * BUFSTEPBYTES)) < BUFSTART
      && U32(addr - BUFSTART) / 4 == WORDS * i
      && U32(U32(pre * WORDS) - WORDS * i) == WORDS * (pre - i)
      && U32(BUFSTART + BUFLEN - U32(WORDS * (pre - i) * 4)) == SlotAddr(READ_SLOTS + i - pre)
      && U32(post * BUFSTEPWORDS) == WORDS * post
  {
    U32Fits(pre * BUFSTEPBYTES);
    U32Fits(RingAddr(i) - pre * BUFSTEPBYTES);
    U32Fits(RingAddr(i) - BUFSTART);
    U32Fits(pre * WORDS);
    U32Fits(pre * WORDS - WORDS * i);
    U32Fits((pre * WORDS - WORDS * i) * 4);
    U32Fits(BUFSTART + BUFLEN - (pre * WORDS - WORDS * i) * 4);
    U32Fits(post * BUFSTEPWORDS);
  }

  lemma FitsStart(i: nat, pre: u32, post: u32)
    requires i < SLOTS && pre <= i && post <= SANE
    ensures U32(RingAddr(i) - U32(pre * BUFSTEPBYTES)) == SlotAddr(i - pre) >= BUFSTART
    ensures U32(RingAddr(i) + U32(post * BUFSTEPBYTES)) == SlotAddr(i + post)
  {
    U32Fits(pre * BUFSTEPBYTES);
    U32Fits(RingAddr(i) - pre * BUFSTEPBYTES);
    U32Fits(post * BUFSTEPBYTES);
    U32Fits(RingAddr(i) + post * BUFSTEPBYTES);
  }

  lemma FitsAfter(i: nat, pre: u32, post: u32)
    requires i <= READ_SLOTS && pre <= i && post <= SANE && i + post > READ_SLOTS
    ensures var addr := RingAddr(i);
      && U32(BUFSTART + BUFLEN - addr) / 4 == WORDS * (READ_SLOTS - i)
      && U32(U32(post * WORDS) - WORDS * (READ_SLOTS - i)) == WORDS * (i + post - READ_SLOTS)
      && U32(pre * BUFSTEPWORDS) == WORDS * pre
  {
    U32Fits(BUFSTART + BUFLEN - RingAddr(i));
    U32Fits(post * WORDS);
    U32Fits(post * WORDS - WORDS * (READ_SLOTS - i));
    U32Fits(pre * BUFSTEPWORDS);
  }

  lemma FitsPlain(i: nat, pre: u32, post: u32)
    requires i < SLOTS && pre <= i && i + post <= READ_SLOTS
    ensures U32(U32(pre + post) * BUFSTEPWORDS) == WORDS * (pre + post)
  {
    U32Fits(pre + post);
    U32Fits((pre + post) * BUFSTEPWORDS);
  }

  /** While no 32-bit operation wraps, the plan is made of whole slots. */
  lemma PlanIsPieces(i: nat, pre: u32, post: u32)
    requires i < SLOTS && pre <= SANE && post <= SANE
    ensures Plan(RingAddr(i), pre, post) == Pieces(i, pre, post)
  {
    if i < pre {
      FitsBefore(i, pre, post);
    } else {
      FitsStart(i, pre, post);
      if i + post > READ_SLOTS {
        FitsAfter(i, pre, post);
      } else {
        FitsPlain(i, pre, post);
      }
    }
  }

  lemma TotalThree(a: Segment, b: Segment, c: Segment)
    ensures Total([a, b, c]) == Records(a) + Records(b) + Records(c)
  {
    assert [a, b, c][1..] == [b, c] && [b, c][1..] == [c] && [c][1..] == [];
    assert Total([c]) == Records(c) + Total([]);
    assert Total([b, c]) == Records(b) + Total([c]);
  }

  lemma Three(a: Segment, b: Segment, c: Segment, k: nat)
    requires k < Records(a) + Records(b) + Records(c)
    ensures var plan := [a, b, c];
      && k < Total(plan) == Records(a) + Records(b) + Records(c)
      && SampleAddr(plan, k) ==
        if k < Records(a) then a.addr + BUFSTEPBYTES * k
        else if k < Records(a) + Records(b) then b.addr + BUFSTEPBYTES * (k - Records(a))
        else c.addr + BUFSTEPBYTES * (k - Records(a) - Records(b))
  {
    TotalThree(a, b, c);
    assert [a, b, c][1..] == [b, c] && [b, c][1..] == [c] && [c][1..] == [];
    assert Total([c]) == Records(c) && Total([b, c]) == Records(b) + Total([c]);
    if k >= Records(a) {
      var m := k - Records(a);
      assert SampleAddr([a, b, c], k) == SampleAddr([b, c], m);
      assert m >= Records(b) ==> SampleAddr([b, c], m) == SampleAddr([c], m - Records(b));
    }
  }

  /** The slot sample k is taken from. */
  function PieceSlot(i: nat, pre: nat, post: nat, k: nat): int {
    var s := i - pre + k;
    if s < 0 then s + READ_SLOTS
    else if pre <= i && s >= READ_SLOTS && i + post > READ_SLOTS then s - READ_SLOTS
    else s
  }

  lemma BeforeSample(i: nat, pre: nat, post: nat, k: nat)
    requires i < pre <= SANE && i < SLOTS && post <= SANE && k < pre + post
    ensures var plan := Pieces(i, pre, post);
      k < Total(plan) == pre + post && SampleAddr(plan, k) == SlotAddr(PieceSlot(i, pre, post, k))
  {
    Three(Piece(READ_SLOTS + i - pre, pre - i), Piece(0, i), Piece(i, post), k);
  }

  lemma AfterSample(i: nat, pre: nat, post: nat, k: nat)
    requires pre <= i < SLOTS && post <= SANE && i + post > READ_SLOTS && k < pre + post
    ensures var plan := Pieces(i, pre, post);
      k < Total(plan) == pre + post && SampleAddr(plan, k) == SlotAddr(PieceSlot(i, pre, post, k))
  {
    Three(Piece(i - pre, pre), Piece(i, READ_SLOTS - i), Piece(0, i + post - READ_SLOTS), k);
  }

  lemma PieceSample(i: nat, pre: nat, post: nat, k: nat)
    requires i < SLOTS && pre <= SANE && post <= SANE && k < pre + post
    ensures var plan := Pieces(i, pre, post);
      k < Total(plan) == pre + post && SampleAddr(plan, k) == SlotAddr(PieceSlot(i, pre, post, k))
  {
    if i < pre {
      BeforeSample(i, pre, post, k);
    } else if i + post > READ_SLOTS {
      AfterSample(i, pre, post, k);
    } else {
      assert Total([Piece(i - pre, pre + post)]) == pre + post;
    }
  }

  /** Wherever the trigger lies, sample k of a window that fits is the k-th record of a ring of
      200000 slots. */
  lemma WindowIsModular(i: nat, pre: u32, post: u32, k: nat)
    requires i < SLOTS && Fits(pre, post) && k < pre + post
    ensures RightSample(i, pre, post, k)
  {
    PlanIsPieces(i, pre, post);
    PieceSample(i, pre, post, k);
    ModShift(i - pre + k, PieceSlot(i, pre, post, k));
  }

  /** A trigger slot and a sample for which a window that does not fit goes wrong. */
  lemma WindowGoesWrong(pre: u32, post: u32) returns (i: nat, k: nat)
    requires pre <= SANE && post <= SANE && !Fits(pre, post)
    ensures i < SLOTS && k < pre + post && !RightSample(i, pre, post, k)
  {
    if pre > READ_SLOTS {
      i, k := 0, 0;
    } else if post > READ_SLOTS {
      i, k := READ_SLOTS, pre + READ_SLOTS;
    } else {
      i, k := pre - 1, READ_SLOTS + 1;
    }
    PlanIsPieces(i, pre, post);
    PieceSample(i, pre, post, k);
  }

  predicate InRing(plan: seq<Segment>, k: nat) {
    k < Total(plan) && BASE <= SampleAddr(plan, k) < TOP
  }

  /** In a segment with samples only inside the ring two cannot lie 200000 records apart. */
  lemma ThreeTooLong(a: Segment, b: Segment, c: Segment) returns (k: nat)
    requires 3 * READ_SLOTS < Records(a) + Records(b) + Records(c)
    ensures k + READ_SLOTS <= 3 * READ_SLOTS && !(InRing([a, b, c], k) && InRing([a, b, c], k + READ_SLOTS))
  {
    k := if Records(a) > READ_SLOTS then 0
      else if Records(b) > READ_SLOTS then Records(a)
      else Records(a) + Records(b);
    Three(a, b, c, k);
    Three(a, b, c, k + READ_SLOTS);
  }

  lemma ThreeShort(a: Segment, b: Segment, c: Segment, n: nat)
    requires forall k: nat :: k < n ==> InRing([a, b, c], k)
    ensures n <= 3 * READ_SLOTS
  {
    if n > 3 * READ_SLOTS {
      assert InRing([a, b, c], 3 * READ_SLOTS);
      TotalThree(a, b, c);
      var k := ThreeTooLong(a, b, c);
    }
  }

  lemma OneShort(a: Segment, n: nat)
    requires forall k: nat :: k < n ==> InRing([a], k)
    ensures n <= READ_SLOTS
  {
    assert [a][1..] == [];
    assert Total([a]) == Records(a);
    assert n > 0 ==> InRing([a], 0);
    assert n > READ_SLOTS ==> InRing([a], READ_SLOTS);
  }

  lemma PlanShape(addr: u32, pre: u32, post: u32)
    ensures |Plan(addr, pre, post)| == 1 || |Plan(addr, pre, post)| == 3
  {
  }

  /** A window that is right throughout is made of at most three stretches inside the ring, so no
      32-bit operation can have wrapped. */
  lemma RightIsShort(i: nat, pre: u32, post: u32)
    requires i < SLOTS && forall k: nat :: k < pre + post ==> RightSample(i, pre, post, k)
    ensures pre + post <= 3 * READ_SLOTS
  {
    var plan := Plan(RingAddr(i), pre, post);
    forall k: nat | k < pre + post
      ensures InRing(plan, k)
    {
      assert RightSample(i, pre, post, k);
    }
    PlanShape(RingAddr(i), pre, post);
    PlanShort(plan, pre + post);
  }

  lemma PlanShort(plan: seq<Segment>, n: nat)
    requires (|plan| == 1 || |plan| == 3) && forall k: nat :: k < n ==> InRing(plan, k)
    ensures n <= 3 * READ_SLOTS
  {
    if |plan| == 1 {
      assert plan == [plan[0]];
      OneShort(plan[0], n);
    } else {
      assert plan == [plan[0], plan[1], plan[2]];
      ThreeShort(plan[0], plan[1], plan[2], n);
    }
  }

  /** The copied window is the modular one for every trigger slot exactly when it fits. */
  lemma WindowExact(pre: u32, post: u32)
    ensures (forall i: nat, k: nat :: i < SLOTS && k < pre + post ==> RightSample(i, pre, post, k)) <==> Fits(pre, post)
  {
    if Fits(pre, post) {
      forall i: nat, k: nat | i < SLOTS && k < pre + post
        ensures RightSample(i, pre, post, k)
      {
        WindowIsModular(i, pre, post, k);
      }
    } else if pre + post <= 3 * READ_SLOTS {
      var i, k := WindowGoesWrong(pre, post);
    } else if forall i: nat, k: nat :: i < SLOTS && k < pre + post ==> RightSample(i, pre, post, k) {
      RightIsShort(0, pre, post);
    }
  }

  // --- The copied message ---

  predicate AllSound(plan: seq<Segment>) { forall x :: 0 <= x < |plan| ==> Sound(plan[x]) }

  function Gather(mem: Memory, plan: seq<Segment>, view: View): (s: seq<Number>)
    requires AllSound(plan)
    ensures |s| == if Known(view) then PER_SAMPLE * Total(plan) else 0
  {
    if plan == [] then [] else
    Part(mem, WordIndex(plan[0].addr), Records(plan[0]), view) + Gather(mem, plan[1..], view)
  }

  lemma {:induction false} CopiedAt(mem: Memory, from: nat, n: nat, view: View, k: nat, j: nat)
    requires from + WORDS * n <= MEM_WORDS && Known(view) && k < n && j < PER_SAMPLE
    ensures Copied(mem, from, n, view)[PER_SAMPLE * k + j] == Convert(view, j, mem[from + WORDS * k + Chosen(view, j)])
  {
    if k < n - 1 {
      CopiedAt(mem, from, n - 1, view, k, j);
    }
  }

  lemma WordIndexStep(addr: int, k: nat)
    ensures WordIndex(addr + BUFSTEPBYTES * k) == WordIndex(addr) + WORDS * k
  {
  }

  /** Sample k of a segment that can be read is inside the memory. */
  lemma InSegment(g: Segment, k: nat)
    requires Sound(g) && k < Records(g)
    ensures var p := WordIndex(g.addr + BUFSTEPBYTES * k);
      p == WordIndex(g.addr) + WORDS * k && 0 <= p && p + WORDS <= MEM_WORDS
  {
    WordIndexStep(g.addr, k);
  }

  lemma HeadWord(mem: Memory, from: nat, n: nat, rest: seq<Number>, view: View, k: nat, j: nat, at: nat)
    requires from + WORDS * n <= MEM_WORDS && Known(view) && k < n && j < PER_SAMPLE && at == from + WORDS * k
    ensures at + WORDS <= MEM_WORDS
    ensures (Part(mem, from, n, view) + rest)[PER_SAMPLE * k + j] == Convert(view, j, mem[at + Chosen(view, j)])
  {
    CopiedAt(mem, from, n, view, k, j);
  }

  lemma HeadAt(mem: Memory, g: Segment, tail: seq<Number>, view: View, k: nat, j: nat)
    requires Sound(g) && Known(view) && k < Records(g) && j < PER_SAMPLE
    ensures var p := WordIndex(g.addr + BUFSTEPBYTES * k) + Chosen(view, j);
      && 0 <= p < MEM_WORDS
      && (Part(mem, WordIndex(g.addr), Records(g), view) + tail)[PER_SAMPLE * k + j] == Convert(view, j, mem[p])
  {
    InSegment(g, k);
    HeadWord(mem, WordIndex(g.addr), Records(g), tail, view, k, j, WordIndex(g.addr + BUFSTEPBYTES * k));
  }

  lemma TailAt(head: seq<Number>, tail: seq<Number>, n: nat, k: nat, j: nat)
    requires |head| == PER_SAMPLE * n && n <= k && PER_SAMPLE * (k - n) + j < |tail|
    ensures (head + tail)[PER_SAMPLE * k + j] == tail[PER_SAMPLE * (k - n) + j]
  {
  }

  lemma {:induction false} GatherAt(mem: Memory, plan: seq<Segment>, view: View, k: nat, j: nat)
    requires AllSound(plan) && Known(view) && k < Total(plan) && j < PER_SAMPLE
    ensures var p := WordIndex(SampleAddr(plan, k)) + Chosen(view, j);
      0 <= p < MEM_WORDS && Gather(mem, plan, view)[PER_SAMPLE * k + j] == Convert(view, j, mem[p])
    decreases |plan|
  {
    var n, rest := Records(plan[0]), plan[1..];
    var head, tail := Part(mem, WordIndex(plan[0].addr), n, view), Gather(mem, rest, view);
    assert Gather(mem, plan, view) == head + tail && Total(plan) == n + Total(rest);
    if k < n {
      HeadAt(mem, plan[0], tail, view, k, j);
    } else {
      var m := k - n;
      GatherAt(mem, rest, view, m, j);
      TailAt(head, tail, n, k, j);
      assert SampleAddr(plan, k) == SampleAddr(rest, m);
    }
  }

  lemma PieceSound(slot: nat, n: nat)
    requires slot + n <= SLOTS
    ensures Sound(Piece(slot, n)) && Records(Piece(slot, n)) == n
  {
  }

  lemma PiecesSound(i: nat, pre: nat, post: nat)
    requires i < SLOTS && Fits(pre, post)
    ensures AllSound(Pieces(i, pre, post)) && Total(Pieces(i, pre, post)) == pre + post
  {
    if pre + post > 0 {
      PieceSample(i, pre, post, 0);
    } else {
      assert Total([Piece(i, 0)]) == 0;
    }
    if i < pre {
      PieceSound(READ_SLOTS + i - pre, pre - i);
      PieceSound(0, i);
      PieceSound(i, post);
    } else if i + post > READ_SLOTS {
      PieceSound(i - pre, pre);
      PieceSound(i, READ_SLOTS - i);
      PieceSound(0, i + post - READ_SLOTS);
    } else {
      PieceSound(i - pre, pre + post);
    }
  }

  /** What a trigger at slot i makes of the ring. */
  function Window(mem: Memory, i: nat, pre: nat, post: nat, view: View): (s: seq<Number>)
    requires i < SLOTS && Fits(pre, post)
    ensures |s| == if Known(view) then PER_SAMPLE * (pre + post) else 0
  {
    PiecesSound(i, pre, post);
    Gather(mem, Pieces(i, pre, post), view)
  }

  lemma PieceAddr(i: nat, pre: u32, post: u32, k: nat)
    requires i < SLOTS && Fits(pre, post) && k < pre + post
    ensures var plan := Pieces(i, pre, post);
      k < Total(plan) && WordIndex(SampleAddr(plan, k)) == WORDS * RingSlot(i, pre, k)
  {
    PlanIsPieces(i, pre, post);
    WindowIsModular(i, pre, post, k);
  }

  lemma GatherWord(mem: Memory, plan: seq<Segment>, view: View, k: nat, j: nat, slot: nat)
    requires AllSound(plan) && Known(view) && k < Total(plan) && j < PER_SAMPLE && slot < READ_SLOTS
    requires WordIndex(SampleAddr(plan, k)) == WORDS * slot
    ensures Gather(mem, plan, view)[PER_SAMPLE * k + j] == Convert(view, j, mem[WORDS * slot + Chosen(view, j)])
  {
    GatherAt(mem, plan, view, k, j);
  }

  /** Sample k of the message is words 0 and 1 and the channel's eight words of the k-th record
      of the modular window. */
  lemma WindowWord(mem: Memory, i: nat, pre: u32, post: u32, view: View, k: nat, j: nat)
    requires i < SLOTS && Fits(pre, post) && Known(view) && k < pre + post && j < PER_SAMPLE
    ensures Window(mem, i, pre, post, view)[PER_SAMPLE * k + j] ==
      Convert(view, j, mem[WORDS * RingSlot(i, pre, k) + Chosen(view, j)])
  {
    PieceAddr(i, pre, post, k);
    PiecesSound(i, pre, post);
    GatherWord(mem, Pieces(i, pre, post), view, k, j, RingSlot(i, pre, k));
  }

  // --- ReadDMABuf ---

  lemma GatherOne(mem: Memory, a: Segment, view: View)
    requires Sound(a)
    ensures Gather(mem, [a], view) == Part(mem, WordIndex(a.addr), Records(a), view)
  {
    assert Gather(mem, [], view) == [];
  }

  lemma GatherThree(mem: Memory, a: Segment, b: Segment, c: Segment, view: View)
    requires AllSound([a, b, c])
    ensures Sound(a) && Sound(b) && Sound(c) && Total([a, b, c]) == Records(a) + Records(b) + Records(c)
    ensures Gather(mem, [a, b, c], view) ==
      Part(mem, WordIndex(a.addr), Records(a), view)
      + Part(mem, WordIndex(b.addr), Records(b), view)
      + Part(mem, WordIndex(c.addr), Records(c), view)
  {
    assert [a, b, c][0] == a && [a, b, c][1] == b && [a, b, c][2] == c;
    assert [a, b, c][1..] == [b, c] && [b, c][1..] == [c];
    TotalThree(a, b, c);
    GatherOne(mem, c, view);
  }

  method CopyOne(mem: array<u32>, msg: array<Number>, a: Segment, view: View)
    requires mem.Length == MEM_WORDS && AllSound([a])
    requires Known(view) ==> PER_SAMPLE * Total([a]) <= msg.Length
    modifies msg
    ensures Written(msg[..], old(msg[..]), Gather(mem[..], [a], view))
  {
    assert Sound([a][0]) && Total([a]) == Records(a);
    GatherOne(mem[..], a, view);
    var next := CopyDataChan(mem, msg, 0, a.addr, a.words, view, Records(a), msg[..], []);
    assert [] + Part(mem[..], WordIndex(a.addr), Records(a), view) == Part(mem[..], WordIndex(a.addr), Records(a), view);
  }

  /** The three copies in a row of a window that wraps round the end of the ring. */
  method CopyThree(mem: array<u32>, msg: array<Number>, a: Segment, b: Segment, c: Segment, view: View)
    requires mem.Length == MEM_WORDS && AllSound([a, b, c])
    requires Known(view) ==> PER_SAMPLE * Total([a, b, c]) <= msg.Length
    modifies msg
    ensures Written(msg[..], old(msg[..]), Gather(mem[..], [a, b, c], view))
  {
    GatherThree(mem[..], a, b, c, view);
    ghost var was := msg[..];
    ghost var first := Part(mem[..], WordIndex(a.addr), Records(a), view);
    ghost var second := Part(mem[..], WordIndex(b.addr), Records(b), view);
    assert [] + first == first && was == [] + was[0..];
    var pos := CopyDataChan(mem, msg, 0, a.addr, a.words, view, Records(a), was, []);
    pos := CopyDataChan(mem, msg, pos, b.addr, b.words, view, Records(b), was, first);
    pos := CopyDataChan(mem, msg, pos, c.addr, c.words, view, Records(c), was, first + second);
  }

  /** The caller's part is that the window fits the ring and the message. */
  method ReadDMABuf(mem: array<u32>, msg: array<Number>, addr: u32, pre: u32, post: u32, view: View, ghost i: nat)
    requires mem.Length == MEM_WORDS
    requires i < SLOTS && addr == RingAddr(i) && Fits(pre, post)
    requires Known(view) ==> PER_SAMPLE * (pre + post) <= msg.Length
    modifies msg
    ensures Written(msg[..], old(msg[..]), Window(mem[..], i, pre, post, view))
  {
    PiecesSound(i, pre, post);
    ghost var plan := Pieces(i, pre, post);
    var start := U32(addr - U32(pre * BUFSTEPBYTES));
    var stop := U32(addr + U32(post * BUFSTEPBYTES));
    if i < pre { FitsBefore(i, pre, post); } else { FitsStart(i, pre, post); }
    if start < BUFSTART {
      var second := U32(addr - BUFSTART) / 4;
      var first := U32(U32(pre * WORDS) - second);
      start := U32(BUFSTART + BUFLEN - U32(first * 4));
      var a, b, c := Segment(start, first), Segment(BUFSTART, second), Segment(addr, U32(post * BUFSTEPWORDS));
      assert plan == [a, b, c];
      CopyThree(mem, msg, a, b, c, view);
    } else if stop > BUFSTART + BUFLEN {
      FitsAfter(i, pre, post);
      var first := U32(BUFSTART + BUFLEN - addr) / 4;
      var second := U32(U32(post * WORDS) - first);
      var a, b, c := Segment(start, U32(pre * BUFSTEPWORDS)), Segment(addr, first), Segment(BUFSTART, second);
      assert plan == [a, b, c];
      CopyThree(mem, msg, a, b, c, view);
    } else {
      FitsPlain(i, pre, post);
      var a := Segment(start, U32(U32(pre + post) * BUFSTEPWORDS));
      assert plan == [a];
      CopyOne(mem, msg, a, view);
    }
  }
}
