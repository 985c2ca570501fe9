/** A file cut into the blocks of a lock-step transfer (section 2 of RFC 1350). */
module TftpFile {
  import opened Common
  import opened TftpServer

  /** A packet on the wire with the number of the block it belongs to, before that
      number was cut to 16 bits. */
  datatype Msg = Msg(toServer: bool, packet: Packet, block: nat)

  function Wrap(n: nat): u16 { n % 0x1_0000 }

  function BlockCount(file: seq<byte>): nat { |file| / 512 + 1 }

  /** Block n, counted from 1. The last one is short, empty if need be. */
  function Piece(file: seq<byte>, n: nat): (p: seq<byte>)
    requires 1 <= n <= BlockCount(file)
    ensures |p| <= 512 && (|p| < 512 <==> n == BlockCount(file))
  {
    file[512 * (n - 1)..Min(512 * n, |file|)]
  }

  /** The first n blocks. */
  function Pieces(file: seq<byte>, n: nat): seq<seq<byte>>
    requires n <= BlockCount(file)
  {
    seq(n, i requires 0 <= i < n => Piece(file, i + 1))
  }

  lemma PiecesSnoc(file: seq<byte>, n: nat)
    requires n < BlockCount(file)
    ensures Pieces(file, n + 1) == Pieces(file, n) + [Piece(file, n + 1)]
  {
  }

  /** The first n blocks join to a prefix of the file, all of them to the file. */
  lemma {:induction false} PiecesJoin(file: seq<byte>, n: nat)
    requires n <= BlockCount(file)
    ensures Flatten(Pieces(file, n)) == file[..Min(512 * n, |file|)]
    ensures n == BlockCount(file) ==> Flatten(Pieces(file, n)) == file
  {
    if n > 0 {
      PiecesJoin(file, n - 1);
      PiecesSnoc(file, n - 1);
      FlattenSnoc(Pieces(file, n - 1), Piece(file, n));
    }
  }

  /** Two block numbers less than 2^16 apart that agree in 16 bits are equal. */
  lemma WrapInjective(a: nat, b: nat)
    requires Wrap(a) == Wrap(b) && a <= b < a + 0x1_0000
    ensures a == b
  {
  }

  lemma NextWrap(n: nat)
    ensures Next16(Wrap(n)) == Wrap(n + 1)
  {
  }

  /** The data of the write calls, and whether one failed. */
  function Written(calls: seq<Call>): seq<seq<byte>> {
    if calls == [] then [] else
    (if calls[0].Write? then [calls[0].data] else []) + Written(calls[1..])
  }

  predicate WriteFailed(calls: seq<Call>) {
    exists c :: c in calls && c.Write? && !c.ok
  }

  lemma {:induction false} NoWrites(calls: seq<Call>)
    requires forall c :: c in calls ==> !c.Write?
    ensures Written(calls) == [] && !WriteFailed(calls)
  {
    if calls != [] {
      NoWrites(calls[1..]);
    }
  }

  lemma OneWrite(calls: seq<Call>)
    requires calls != [] && calls[0].Write? && forall c :: c in calls[1..] ==> !c.Write?
    ensures Written(calls) == [calls[0].data] && WriteFailed(calls) == !calls[0].ok
  {
    NoWrites(calls[1..]);
    assert calls == [calls[0]] + calls[1..];
  }

  /** The number of read calls that returned data. */
  function ReadCount(calls: seq<Call>): nat {
    if calls == [] then 0 else
    (if calls[0].Read? && calls[0].result.Some? then 1 else 0) + ReadCount(calls[1..])
  }

  lemma {:induction false} NoReads(calls: seq<Call>)
    requires forall c :: c in calls ==> !c.Read? || c.result.None?
    ensures ReadCount(calls) == 0
  {
    if calls != [] {
      NoReads(calls[1..]);
    }
  }

  /** What the server sent to `peer`, as messages about block n. */
  function Replies(sent: seq<Sent>, peer: Endpoint, n: nat): set<Msg> {
    set x | x in sent && x.to == peer :: Msg(false, x.packet, n)
  }
}
