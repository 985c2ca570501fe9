/** Types and sequence facts shared by the component models. */
module Common {

  datatype Option<+T> = None | Some(value: T)

  type byte = b: int | 0 <= b < 0x100
  type u16 = n: int | 0 <= n < 0x1_0000
  type u32 = n: int | 0 <= n < 0x1_0000_0000

  /** Signed 20-bit and 24-bit vectors. */
  type s20 = n: int | -0x8_0000 <= n < 0x8_0000
  type s24 = n: int | -0x80_0000 <= n < 0x80_0000

  /** The low 20 bits read as a signed number. */
  function Wrap20(n: int): s20 { (n + 0x8_0000) % 0x10_0000 - 0x8_0000 }

  function Min(a: int, b: int): int { if a <= b then a else b }

  function Max(a: int, b: int): int { if a <= b then b else a }

  /** A vector of n zero bits. */
  function Zeros(n: nat): (s: seq<bool>)
    ensures |s| == n && forall i :: 0 <= i < n ==> !s[i]
  {
    seq(n, _ => false)
  }

  /** The number a vector stands for, most significant bit first. */
  function ToNat(bits: seq<bool>): nat {
    if bits == [] then 0 else 2 * ToNat(bits[..|bits| - 1]) + if bits[|bits| - 1] then 1 else 0
  }

  function Pow2(n: nat): nat { if n == 0 then 1 else 2 * Pow2(n - 1) }

  lemma {:induction false} ToNatConcat(a: seq<bool>, b: seq<bool>)
    ensures ToNat(a + b) == ToNat(a) * Pow2(|b|) + ToNat(b)
    decreases |b|
  {
    if b == [] {
      assert a + b == a;
    } else {
      assert (a + b)[..|a + b| - 1] == a + b[..|b| - 1];
      ToNatConcat(a, b[..|b| - 1]);
      Shifted(ToNat(a), Pow2(|b| - 1), ToNat(b[..|b| - 1]), if b[|b| - 1] then 1 else 0);
    }
  }

  lemma Shifted(x: nat, p: nat, y: nat, bit: nat)
    ensures 2 * (x * p + y) + bit == x * (2 * p) + (2 * y + bit)
  {
    assert x * (2 * p) == 2 * (x * p);
  }

  lemma {:induction false} ToNatZeros(n: nat)
    ensures ToNat(Zeros(n)) == 0
  {
    if n > 0 {
      ToNatZeros(n - 1);
      assert Zeros(n)[..n - 1] == Zeros(n - 1);
    }
  }

  /** All pieces joined in order. */
  function Flatten<T>(pieces: seq<seq<T>>): seq<T> {
    if pieces == [] then [] else pieces[0] + Flatten(pieces[1..])
  }

  lemma {:induction false} FlattenConcat<T>(a: seq<seq<T>>, b: seq<seq<T>>)
    ensures Flatten(a + b) == Flatten(a) + Flatten(b)
  {
    if a == [] {
      assert a + b == b;
    } else {
      assert (a + b)[1..] == a[1..] + b;
      FlattenConcat(a[1..], b);
    }
  }

  lemma FlattenSnoc<T>(a: seq<seq<T>>, x: seq<T>)
    ensures Flatten(a + [x]) == Flatten(a) + x
  {
    FlattenConcat(a, [x]);
    assert Flatten([x]) == x + Flatten<T>([]);
  }
}
