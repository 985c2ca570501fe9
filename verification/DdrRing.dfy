/** The snapshot ring in DDR memory: its slots, and the 40-word record each slot holds. */
module DdrRing {
  import opened Common

  const BASE := 0x1000_0000
  const TOP := 0x11E8_4800
  const STRIDE := 160          // bytes a record
  const WORDS := 40
  const LAST_SLOT := 200000    // the slot at TOP, which the writer still uses
  const SLOTS := 200001
  const MEM_WORDS := 8000040

  type Memory = m: seq<u32> | |m| == MEM_WORDS witness seq(MEM_WORDS, _ => 0)

  /** The slot of record n; records are numbered from 1. */
  function Slot(n: nat): (s: nat)
    requires n >= 1
    ensures s < SLOTS
  {
    (n - 1) % SLOTS
  }

  function SlotAddr(s: int): int { BASE + STRIDE * s }

  /** Where word j of record n lies, counted in words from BASE. */
  function Place(n: nat, j: nat): (p: nat)
    requires n >= 1 && j < WORDS
    ensures p < MEM_WORDS
  {
    WORDS * Slot(n) + j
  }

  lemma SlotNext(n: nat)
    requires n >= 1
    ensures Slot(n + 1) == if Slot(n) == LAST_SLOT then 0 else Slot(n) + 1
  {
    var q := (n - 1) / SLOTS;
    assert n - 1 == q * SLOTS + Slot(n);
    if Slot(n) == LAST_SLOT {
      assert n == (q + 1) * SLOTS;
    }
  }

  lemma SlotsDiffer(n: nat, b: nat)
    requires 1 <= n < b < n + SLOTS
    ensures Slot(n) != Slot(b)
  {
    var p, q := (n - 1) / SLOTS, (b - 1) / SLOTS;
    assert n - 1 == p * SLOTS + Slot(n) && b - 1 == q * SLOTS + Slot(b);
    assert Slot(n) == Slot(b) ==> b - n == (q - p) * SLOTS;
  }

  /** Words already sign-extended to 32 bits. */
  datatype Channel = Channel(
    dcct0: u32, dcct1: u32, dacmon: u32, voltage: u32, ignd: u32, spare: u32, psReg: u32, psError: u32)

  datatype Sample = Sample(
    ps1: Channel, ps2: Channel, ps3: Channel, ps4: Channel, digpid: bool, setptout: u32, errorF: u32)

  function ChannelWord(c: Channel, j: nat): u32 {
    match j
    case 0 => c.dcct0
    case 1 => c.dcct1
    case 2 => c.dacmon
    case 3 => c.voltage
    case 4 => c.ignd
    case 5 => c.spare
    case 6 => c.psReg
    case _ => c.psError
  }

  /** The channel 1 readings, whose last two words the digital loop replaces. */
  function Ps1(s: Sample): Channel {
    if s.digpid then s.ps1.(psReg := s.setptout, psError := s.errorF) else s.ps1
  }

  type Beat = j: nat | j < WORDS

  /** Word j of a record, from the counter and the sample present when it is sent. */
  function WordOf(j: Beat, cnt: u32, s: Sample): u32 {
    if j == 0 then 0x8000_0000
    else if j == 1 then cnt
    else if j < 10 then ChannelWord(Ps1(s), j - 2)
    else if j < 18 then ChannelWord(s.ps2, j - 10)
    else if j < 26 then ChannelWord(s.ps3, j - 18)
    else if j < 34 then ChannelWord(s.ps4, j - 26)
    else j + 1
  }

  function Count(n: nat): u32 { n % 0x1_0000_0000 }
}
