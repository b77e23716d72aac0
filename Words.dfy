/** Machine words of the interpreter: the C++ `int` of the source (32-bit two's
    complement), its bit pattern, the operators `^`, `|`, `<<` and `>>` on that
    pattern, the XOR fold both checksum opcodes and the host compute, the
    32-bit left rotation, C++'s truncating `%`, and the conversion an `int`
    undergoes when it is compared with `vector::size()`. */
module Words {

  const MinInt32: int := -0x8000_0000
  const MaxInt32: int := 0x7FFF_FFFF
  const TwoTo32: int := 0x1_0000_0000

  /** `std::vector<int>::max_size()` on a 64-bit target: PTRDIFF_MAX / sizeof(int). */
  const MaxVectorLength: int := 0x1FFF_FFFF_FFFF_FFFF

  /** The C++ `int` of the source. */
  type Int32 = x: int | MinInt32 <= x <= MaxInt32

  predicate InInt32(x: int) { MinInt32 <= x <= MaxInt32 }

  function Pow2(n: nat): (r: nat)
    ensures r >= 1
  {
    if n == 0 then 1 else 2 * Pow2(n - 1)
  }

  lemma {:induction false} Pow2Add(a: nat, b: nat)
    ensures Pow2(a + b) == Pow2(a) * Pow2(b)
    decreases a
  {
    if a > 0 {
      Pow2Add(a - 1, b);
    }
  }

  lemma Pow2Of32()
    ensures Pow2(32) == TwoTo32
  {
    assert Pow2(4) == 16;
    Pow2Add(4, 4);
    Pow2Add(8, 8);
    Pow2Add(16, 16);
  }

  // ----- bit patterns -----

  /** The low `n` bits of `u`, least significant first. */
  function BitsOf(u: nat, n: nat): (s: seq<bool>)
    ensures |s| == n
  {
    if n == 0 then [] else [u % 2 == 1] + BitsOf(u / 2, n - 1)
  }

  /** The number a bit sequence (least significant first) stands for. */
  function ValueOf(s: seq<bool>): nat
  {
    if s == [] then 0 else (if s[0] then 1 else 0) + 2 * ValueOf(s[1..])
  }

  lemma {:induction false} ValueOfBound(s: seq<bool>)
    ensures ValueOf(s) < Pow2(|s|)
  {
    if s != [] {
      ValueOfBound(s[1..]);
    }
  }

  /** Reading back the bits of a number below 2^n gives the number. */
  lemma {:induction false} ValueOfBitsOf(u: nat, n: nat)
    requires u < Pow2(n)
    ensures ValueOf(BitsOf(u, n)) == u
  {
    if n > 0 {
      assert BitsOf(u, n)[1..] == BitsOf(u / 2, n - 1);
      ValueOfBitsOf(u / 2, n - 1);
    }
  }

  /** Taking the bits of the number a bit sequence stands for gives the sequence. */
  lemma {:induction false} BitsOfValueOf(s: seq<bool>)
    ensures BitsOf(ValueOf(s), |s|) == s
  {
    if s != [] {
      var b := if s[0] then 1 else 0;
      var v := ValueOf(s[1..]);
      assert (b + 2 * v) % 2 == b && (b + 2 * v) / 2 == v;
      BitsOfValueOf(s[1..]);
    }
  }

  lemma {:induction false} ValueOfZeros(n: nat)
    ensures ValueOf(Zeros(n)) == 0
  {
    if n > 0 {
      assert Zeros(n)[1..] == Zeros(n - 1);
      ValueOfZeros(n - 1);
    }
  }

  /** `static_cast<unsigned int>(x)`. */
  function Unsigned(x: Int32): (u: nat)
    ensures u < TwoTo32
  {
    if x < 0 then x + TwoTo32 else x
  }

  /** `static_cast<int>(u)` for an `unsigned int u`. */
  function FromUnsigned(u: nat): Int32
    requires u < TwoTo32
  {
    if u > MaxInt32 then u - TwoTo32 else u
  }

  /** The 32 bits of an `int`'s two's-complement pattern, least significant first. */
  function Bits(x: Int32): (s: seq<bool>)
    ensures |s| == 32
  {
    BitsOf(Unsigned(x), 32)
  }

  /** The `int` whose pattern is `s`. */
  function FromBits(s: seq<bool>): Int32
    requires |s| == 32
  {
    ValueOfBound(s);
    Pow2Of32();
    FromUnsigned(ValueOf(s))
  }

  lemma FromBitsBits(x: Int32)
    ensures FromBits(Bits(x)) == x
  {
    Pow2Of32();
    ValueOfBitsOf(Unsigned(x), 32);
  }

  lemma BitsFromBits(s: seq<bool>)
    requires |s| == 32
    ensures Bits(FromBits(s)) == s
  {
    ValueOfBound(s);
    Pow2Of32();
    BitsOfValueOf(s);
  }

  lemma ZeroBits()
    ensures Bits(0) == Zeros(32)
  {
    ValueOfZeros(32);
    BitsOfValueOf(Zeros(32));
  }

  function Zeros(n: nat): (r: seq<bool>)
    ensures |r| == n && forall i :: 0 <= i < n ==> !r[i]
  {
    seq(n, i => false)
  }

  function XorSeq(a: seq<bool>, b: seq<bool>): (r: seq<bool>)
    requires |a| == |b|
    ensures |r| == |a| && forall i :: 0 <= i < |a| ==> r[i] == (a[i] != b[i])
  {
    seq(|a|, i requires 0 <= i < |a| => a[i] != b[i])
  }

  function OrSeq(a: seq<bool>, b: seq<bool>): (r: seq<bool>)
    requires |a| == |b|
    ensures |r| == |a| && forall i :: 0 <= i < |a| ==> r[i] == (a[i] || b[i])
  {
    seq(|a|, i requires 0 <= i < |a| => a[i] || b[i])
  }

  /** `u << k` on a pattern: `k` zero bits come in at the bottom and the top
      `k` bits are lost. */
  function ShiftLeftBits(s: seq<bool>, k: nat): seq<bool>
    requires k <= |s|
  {
    Zeros(k) + s[..|s| - k]
  }

  /** `u >> k` on an unsigned pattern: the bottom `k` bits are lost and zeros
      come in at the top. */
  function ShiftRightBits(s: seq<bool>, k: nat): seq<bool>
    requires k <= |s|
  {
    s[k..] + Zeros(k)
  }

  // ----- the operators the interpreter uses -----

  /** `a ^ b` on two `int`s. */
  function Xor(a: Int32, b: Int32): Int32
  {
    FromBits(XorSeq(Bits(a), Bits(b)))
  }

  lemma XorAssociative(a: Int32, b: Int32, c: Int32)
    ensures Xor(Xor(a, b), c) == Xor(a, Xor(b, c))
  {
    BitsFromBits(XorSeq(Bits(a), Bits(b)));
    BitsFromBits(XorSeq(Bits(b), Bits(c)));
    assert XorSeq(Bits(Xor(a, b)), Bits(c)) == XorSeq(Bits(a), Bits(Xor(b, c)));
  }

  /** 0 is the identity of `^` on both sides. */
  lemma XorZero(a: Int32)
    ensures Xor(a, 0) == a && Xor(0, a) == a
  {
    ZeroBits();
    assert XorSeq(Bits(a), Bits(0)) == Bits(a);
    assert XorSeq(Bits(0), Bits(a)) == Bits(a);
    FromBitsBits(a);
  }

  /** `^` by the same word twice cancels, and only 0 leaves a word unchanged. */
  lemma XorCancel(a: Int32, c: Int32)
    ensures Xor(Xor(a, c), c) == a
    ensures Xor(a, c) == a <==> c == 0
  {
    BitsFromBits(XorSeq(Bits(a), Bits(c)));
    assert XorSeq(Bits(Xor(a, c)), Bits(c)) == Bits(a);
    FromBitsBits(a);
    ZeroBits();
    if Xor(a, c) == a {
      assert Bits(c) == Zeros(32) by {
        forall i | 0 <= i < 32
          ensures !Bits(c)[i]
        {
          assert XorSeq(Bits(a), Bits(c))[i] == Bits(a)[i];
        }
      }
      FromBitsBits(c);
      FromBitsBits(0);
    } else if c == 0 {
      XorZero(a);
    }
  }

  /** `std::accumulate(first, last, 0, std::bit_xor<int>())`: a left fold of `^`
      over the words, starting from 0. */
  function XorFold(s: seq<Int32>): Int32
  {
    if s == [] then 0 else Xor(XorFold(s[..|s| - 1]), s[|s| - 1])
  }

  /** A one-word range folds to that word. */
  lemma XorFoldSingle(x: Int32)
    ensures XorFold([x]) == x
  {
    assert [x][..0] == [];
    XorZero(x);
  }

  /** Folding two adjacent ranges is the `^` of their folds. */
  lemma {:induction false} XorFoldAppend(a: seq<Int32>, b: seq<Int32>)
    ensures XorFold(a + b) == Xor(XorFold(a), XorFold(b))
    decreases |b|
  {
    if b == [] {
      assert a + b == a;
      XorZero(XorFold(a));
    } else {
      var n := |b| - 1;
      assert (a + b)[..|a + b| - 1] == a + b[..n];
      assert (a + b)[|a + b| - 1] == b[n];
      XorFoldAppend(a, b[..n]);
      XorAssociative(XorFold(a), XorFold(b[..n]), b[n]);
    }
  }

  /** Splitting a range at any point: the fold of the whole is the `^` of the
      folds of the two parts. */
  lemma XorFoldSplit(s: seq<Int32>, k: nat)
    requires k <= |s|
    ensures XorFold(s) == Xor(XorFold(s[..k]), XorFold(s[k..]))
  {
    assert s == s[..k] + s[k..];
    XorFoldAppend(s[..k], s[k..]);
  }

  /** `(int)((u << bits) | (u >> (32 - bits)))` for `unsigned int u = v`; both
      shifts are defined only for 0 < bits < 32. */
  function RotateLeft(v: Int32, bits: Int32): Int32
    requires 0 < bits < 32
  {
    var u := Bits(v);
    FromBits(OrSeq(ShiftLeftBits(u, bits), ShiftRightBits(u, 32 - bits)))
  }

  /** The two shifted parts share no set bit, so the `|` is a rotation of the
      pattern: bit i moves to bit (i + bits) mod 32. */
  lemma RotateLeftBits(v: Int32, k: Int32)
    requires 0 < k < 32
    ensures Bits(RotateLeft(v, k)) == Bits(v)[32 - k..] + Bits(v)[..32 - k]
  {
    var u := Bits(v);
    var r := OrSeq(ShiftLeftBits(u, k), ShiftRightBits(u, 32 - k));
    BitsFromBits(r);
    assert r == u[32 - k..] + u[..32 - k];
  }

  /** Rotating left by `k` and then by `32 - k` gives back the original word. */
  lemma RotateLeftRoundTrip(v: Int32, k: Int32)
    requires 0 < k < 32
    ensures RotateLeft(RotateLeft(v, k), 32 - k) == v
  {
    var w := RotateLeft(v, k);
    RotateLeftBits(v, k);
    RotateLeftBits(w, 32 - k);
    assert Bits(RotateLeft(w, 32 - k)) == Bits(v);
    FromBitsBits(v);
    FromBitsBits(RotateLeft(w, 32 - k));
  }

  // ----- integer conversions of the source -----

  /** C++'s `a % b` for b > 0: the remainder truncates toward zero, so it has
      the sign of `a` (Dafny's `%` is Euclidean and never negative). */
  function CRem(a: int, b: int): (r: int)
    requires b > 0
    ensures -b < r < b
    ensures 0 <= a ==> r == a % b
    ensures a <= 0 ==> r <= 0
    ensures (a - r) % b == 0
  {
    if a >= 0 then
      var q := a / b;
      MultipleMod(q, b);
      assert a - a % b == q * b;
      a % b
    else
      var q := (-a) / b;
      MultipleMod(-q, b);
      assert a + (-a) % b == (-q) * b;
      -((-a) % b)
  }

  /** A non-zero multiple of `b` is at least `b` away from 0. */
  lemma ProductBounds(d: int, b: int)
    requires b > 0
    ensures d >= 1 ==> d * b >= b
    ensures d <= -1 ==> d * b <= -b
  {
  }

  /** A multiple of `b` leaves no remainder. */
  lemma MultipleMod(k: int, b: int)
    requires b > 0
    ensures (k * b) % b == 0
  {
    var q, m := (k * b) / b, (k * b) % b;
    assert k * b == q * b + m;
    assert m == (k - q) * b;
    ProductBounds(k - q, b);
  }

  /** The value an `int` takes when the usual arithmetic conversions turn it
      into a 64-bit `size_t` (for a comparison with `vector::size()`). */
  function SizeT(x: Int32): nat
  {
    if x < 0 then x + 0x1_0000_0000_0000_0000 else x
  }

  /** Comparing an `int` with the size of a vector through `size_t`: a negative
      value becomes huge and is never below the size. */
  lemma SizeTBelow(x: Int32, size: nat)
    requires size <= MaxVectorLength
    ensures SizeT(x) < size <==> 0 <= x < size
  {
  }
}
