/** Machine-level numbers shared by the whole model: bytes, powers of two,
    big-endian byte strings read as unsigned integers (what math/big's
    SetBytes does) and the 64-bit bounds of Go's `int`. */
module Numeric {

  type byte = b: int | 0 <= b < 256

  /** Go's `math.MaxInt64`. */
  const MaxInt64: int := 0x7FFF_FFFF_FFFF_FFFF
  const TwoTo64: int := 0x1_0000_0000_0000_0000

  predicate IsInt64(n: int) {
    -0x8000_0000_0000_0000 <= n <= MaxInt64
  }

  /** `n` as Go's 64-bit `int` arithmetic leaves it: the one int64 congruent
      to `n` modulo 2^64. */
  function Wrap64(n: int): (r: int)
    ensures IsInt64(r)
  {
    n - TwoTo64 * ((n + 0x8000_0000_0000_0000) / TwoTo64)
  }

  /** Adding 2^64 does not change the wrapped value. */
  lemma Wrap64Shift(n: int)
    ensures Wrap64(n + TwoTo64) == Wrap64(n)
  {
  }

  /** Congruent numbers wrap to the same int64. */
  lemma {:induction false} Wrap64Congruent(a: int, b: int, k: int)
    requires a == b + k * TwoTo64
    ensures Wrap64(a) == Wrap64(b)
    decreases if k < 0 then -k else k
  {
    if k > 0 {
      Wrap64Congruent(a - TwoTo64, b, k - 1);
      Wrap64Shift(a - TwoTo64);
    } else if k < 0 {
      Wrap64Congruent(a + TwoTo64, b, k + 1);
      Wrap64Shift(a);
    }
  }

  /** The wrapped value has the remainder modulo 2^64 of the number itself. */
  lemma Wrap64Mod(n: int)
    ensures Wrap64(n) % TwoTo64 == n % TwoTo64
  {
    ModShift(n, -((n + 0x8000_0000_0000_0000) / TwoTo64));
  }

  /** Adding a multiple of the modulus leaves the remainder alone. */
  lemma {:induction false} ModShift(b: int, k: int)
    ensures (b + k * TwoTo64) % TwoTo64 == b % TwoTo64
    decreases if k < 0 then -k else k
  {
    if k > 0 {
      ModShift(b, k - 1);
      assert b + k * TwoTo64 == (b + (k - 1) * TwoTo64) + TwoTo64;
    } else if k < 0 {
      ModShift(b, k + 1);
      assert b + k * TwoTo64 == (b + (k + 1) * TwoTo64) - TwoTo64;
    }
  }

  /** An int64 wraps to itself. */
  lemma Wrap64Id(n: int)
    requires IsInt64(n)
    ensures Wrap64(n) == n
  {
  }

  /** Wrapping a running sum at each step wraps the total once. */
  lemma Wrap64Add(a: int, b: int)
    ensures Wrap64(Wrap64(a) + b) == Wrap64(a + b)
  {
    var q := (a + 0x8000_0000_0000_0000) / TwoTo64;
    assert Wrap64(a) + b == (a + b) + (-q) * TwoTo64;
    Wrap64Congruent(Wrap64(a) + b, a + b, -q);
  }

  function Pow2(n: nat): (r: nat)
    ensures r >= 1
  {
    if n == 0 then 1 else 2 * Pow2(n - 1)
  }

  lemma {:induction false} Pow2Add(a: nat, b: nat)
    ensures Pow2(a + b) == Pow2(a) * Pow2(b)
  {
    if b > 0 {
      Pow2Add(a, b - 1);
      assert Pow2(a + b) == 2 * Pow2(a + b - 1);
    }
  }

  lemma SmallModulus(x: int, m: int)
    requires 0 <= x < m
    ensures x % m == x
  {
  }

  lemma {:induction false} Pow2Monotone(a: nat, b: nat)
    requires a <= b
    ensures Pow2(a) <= Pow2(b)
  {
    if a < b {
      Pow2Monotone(a, b - 1);
    }
  }

  lemma Pow2Of8Multiple(n: nat)
    ensures Pow2(8 * (n + 1)) == 256 * Pow2(8 * n)
  {
    Pow2Add(8 * n, 8);
    assert Pow2(8) == 256;
  }

  /** Big-endian unsigned value of a byte string. */
  function BytesToNat(s: seq<byte>): nat
  {
    if s == [] then 0 else BytesToNat(s[..|s| - 1]) * 256 + s[|s| - 1]
  }

  /** The `len` low-order bytes of `n`, most significant first. */
  function NatToBytes(n: nat, len: nat): (r: seq<byte>)
    ensures |r| == len
  {
    if len == 0 then [] else NatToBytes(n / 256, len - 1) + [n % 256]
  }

  /** A byte string of length k denotes a number below 2^(8k). */
  lemma {:induction false} BytesToNatBound(s: seq<byte>)
    ensures BytesToNat(s) < Pow2(8 * |s|)
  {
    if s != [] {
      var init := s[..|s| - 1];
      BytesToNatBound(init);
      Pow2Of8Multiple(|init|);
      assert BytesToNat(s) == BytesToNat(init) * 256 + s[|s| - 1];
      assert BytesToNat(init) + 1 <= Pow2(8 * |init|);
      assert (BytesToNat(init) + 1) * 256 <= Pow2(8 * |init|) * 256;
    }
  }

  /** Reading back `len` bytes written from `n` gives `n` modulo 2^(8 len). */
  lemma {:induction false} NatToBytesRoundTrip(n: nat, len: nat)
    requires n < Pow2(8 * len)
    ensures BytesToNat(NatToBytes(n, len)) == n
  {
    if len > 0 {
      var r := NatToBytes(n, len);
      Pow2Of8Multiple(len - 1);
      assert n / 256 < Pow2(8 * (len - 1));
      NatToBytesRoundTrip(n / 256, len - 1);
      assert r[..|r| - 1] == NatToBytes(n / 256, len - 1);
      assert r[|r| - 1] == n % 256;
    }
  }

  /** Splitting a byte string after position j splits its value. */
  lemma {:induction false} BytesToNatSplit(s: seq<byte>, j: nat)
    requires j <= |s|
    ensures BytesToNat(s) == BytesToNat(s[..j]) * Pow2(8 * (|s| - j)) + BytesToNat(s[j..])
  {
    if j == |s| {
      assert s[..j] == s;
      assert s[j..] == [];
    } else {
      var init := s[..|s| - 1];
      var rest: nat := |init| - j;
      var tail := s[j..];
      assert init[..j] == s[..j];
      assert tail[..|tail| - 1] == init[j..] && tail[|tail| - 1] == s[|s| - 1];
      Pow2Of8Multiple(rest);
      BytesToNatSplit(init, j);
      SplitCombine(BytesToNat(s), BytesToNat(init), BytesToNat(s[..j]), Pow2(8 * rest),
                   BytesToNat(init[j..]), s[|s| - 1], BytesToNat(tail), Pow2(8 * (|s| - j)));
    }
  }

  /** The arithmetic of one step of `BytesToNatSplit`. */
  lemma SplitCombine(whole: int, init: int, hi: int, p: int, mid: int, c: int, tail: int, q: int)
    requires init == hi * p + mid && whole == init * 256 + c
    requires tail == mid * 256 + c && q == p * 256
    ensures whole == hi * q + tail
  {
  }

  /** A byte string with a non-zero byte denotes a positive number. */
  lemma {:induction false} NonZeroByteGivesPositive(s: seq<byte>, i: nat)
    requires i < |s| && s[i] != 0
    ensures BytesToNat(s) >= 1
  {
    if i < |s| - 1 {
      var init := s[..|s| - 1];
      NonZeroByteGivesPositive(init, i);
    }
  }
}
