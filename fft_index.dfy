/**
 * Index arithmetic of the in-place radix-2 FFT in src/audio.c: powers of two,
 * the bit-reversal of an index, the incremental update of the reversed index
 * that the bit-reversal loop performs, and the bounds of the butterfly indices.
 */
module FftIndex {
  import Config

  function Pow2(e: nat): (p: nat)
    ensures p >= 1
  {
    if e == 0 then 1 else 2 * Pow2(e - 1)
  }

  lemma {:induction false} Pow2Add(a: nat, b: nat)
    ensures Pow2(a + b) == Pow2(a) * Pow2(b)
  {
    if a > 0 {
      Pow2Add(a - 1, b);
      calc {
        Pow2(a + b);
        2 * Pow2(a - 1 + b);
        2 * (Pow2(a - 1) * Pow2(b));
        (2 * Pow2(a - 1)) * Pow2(b);
      }
    }
  }

  /** The transform size of src/config.h is a power of two. */
  lemma FftSizeIsPow2()
    ensures Config.FFT_SIZE == Pow2(Config.LOG2_FFT_SIZE)
  {
  }

  /**
   * Rev(i, k): the k low-order bits of i read in the opposite order; the
   * lowest bit of i becomes the highest bit of the result.
   */
  function Rev(i: nat, k: nat): (r: nat)
    ensures r < Pow2(k)
  {
    if k == 0 then 0
    else (if i % 2 == 1 then Pow2(k - 1) else 0) + Rev(i / 2, k - 1)
  }

  /** Reversing a number whose top bit is b puts b at the bottom. */
  lemma {:induction false} RevTopBit(b: nat, x: nat, k: nat)
    requires 1 <= k && b <= 1 && x < Pow2(k - 1)
    ensures Rev(b * Pow2(k - 1) + x, k) == b + 2 * Rev(x, k - 1)
  {
    if k > 1 {
      var h := Pow2(k - 2);
      var y := b * Pow2(k - 1) + x;
      assert Pow2(k - 1) == 2 * h;
      assert y % 2 == x % 2 && y / 2 == b * h + x / 2 by {
        if b == 0 { assert y == x; } else { assert y == 2 * h + x; }
      }
      RevTopBit(b, x / 2, k - 1);
      assert Rev(y, k) == (if x % 2 == 1 then Pow2(k - 1) else 0) + b + 2 * Rev(x / 2, k - 2);
    }
  }

  /** Bit reversal over k bits is an involution on [0, 2^k). */
  lemma {:induction false} RevInvolution(i: nat, k: nat)
    requires i < Pow2(k)
    ensures Rev(Rev(i, k), k) == i
  {
    if k > 0 {
      var r := Rev(i / 2, k - 1);
      RevInvolution(i / 2, k - 1);
      RevTopBit(i % 2, r, k);
      assert Rev(i, k) == (i % 2) * Pow2(k - 1) + r;
    }
  }

  /** `j & bit`, for bit a power of two or zero. */
  predicate BitSet(j: int, bit: int)
  {
    bit > 0 && (j / bit) % 2 == 1
  }

  /** `j ^ bit`, for bit a power of two or zero. */
  function FlipBit(j: int, bit: int): int
  {
    if BitSet(j, bit) then j - bit else j + bit
  }

  /**
   * The reversed-increment loop of the bit-reversal pass, as a recursion:
   * `while (j & bit) { j ^= bit; bit >>= 1; } j ^= bit;`
   */
  function NextRev(j: int, bit: nat): int
    decreases bit
  {
    if BitSet(j, bit) then NextRev(FlipBit(j, bit), bit / 2) else FlipBit(j, bit)
  }

  /**
   * Starting from the reversal of i with the top bit, the loop yields the
   * reversal of i + 1: it adds one to the reversed counter from the top down.
   */
  lemma {:induction false} NextRevIsRevOfSuccessor(i: nat, k: nat)
    requires 1 <= k && i + 1 < Pow2(k)
    ensures NextRev(Rev(i, k), Pow2(k - 1)) == Rev(i + 1, k)
  {
    var p := Pow2(k - 1);
    var r := Rev(i / 2, k - 1);
    if i % 2 == 0 {
      assert (i + 1) % 2 == 1 && (i + 1) / 2 == i / 2;
      assert Rev(i + 1, k) == p + r;
      assert Rev(i, k) == r;
      DivBelow(r, p);
      assert FlipBit(r, p) == r + p;
    } else {
      assert (i + 1) % 2 == 0 && (i + 1) / 2 == i / 2 + 1;
      assert Rev(i + 1, k) == Rev(i / 2 + 1, k - 1);
      assert Rev(i, k) == p + r;
      DivTopBit(r, p);
      assert FlipBit(p + r, p) == r;
      assert Pow2(1) == 2;
      assert k >= 2;
      assert p / 2 == Pow2(k - 2);
      NextRevIsRevOfSuccessor(i / 2, k - 1);
    }
  }

  lemma DivBelow(r: nat, p: nat)
    requires r < p
    ensures !BitSet(r, p)
  {
    assert r / p == 0;
  }

  lemma DivTopBit(r: nat, p: nat)
    requires r < p
    ensures (p + r) / p == 1 && BitSet(p + r, p)
  {
  }

  /** The bit-reversal permutation of a sequence of length 2^k. */
  function BitReversed<T>(s: seq<T>, k: nat): (r: seq<T>)
    requires |s| == Pow2(k)
    ensures |r| == |s|
  {
    seq(|s|, p requires 0 <= p < |s| => s[Rev(p, k)])
  }

  /** Applying the permutation twice restores the original order. */
  lemma BitReversedTwice<T>(s: seq<T>, k: nat)
    requires |s| == Pow2(k)
    ensures BitReversed(BitReversed(s, k), k) == s
  {
    var t := BitReversed(BitReversed(s, k), k);
    forall p | 0 <= p < |s|
      ensures t[p] == s[p]
    {
      RevInvolution(p, k);
    }
  }

  /**
   * In stage s (butterfly span len = 2^s) of a transform over 2^k points, the
   * butterfly j of block g pairs u = g*len + j with v = u + len/2 and reads the
   * twiddle w = j * (2^k / len): u < v < 2^k and w < 2^k / 2.
   */
  lemma ButterflyIndices(k: nat, s: nat, g: nat, j: nat)
    requires 1 <= s <= k
    requires g < Pow2(k - s)
    requires j < Pow2(s) / 2
    ensures Pow2(k) / Pow2(s) == Pow2(k - s)
    ensures g * Pow2(s) + j < g * Pow2(s) + j + Pow2(s) / 2 < Pow2(k)
    ensures j * (Pow2(k) / Pow2(s)) < Pow2(k) / 2
  {
    var len, q, half := Pow2(s), Pow2(k - s), Pow2(s - 1);
    assert len == 2 * half && len / 2 == half;
    Pow2Add(k - s, s);
    assert Pow2(k) == q * len;
    DivExact(q, len);
    // the pair lies inside block g, and block g ends at or before 2^k
    MulMonotone(g + 1, q, len);
    assert (g + 1) * len == g * len + len;
    // the twiddle index stays in the first half of the table
    Pow2Add(k - s, s - 1);
    assert Pow2(k - 1) == q * half;
    assert Pow2(k) / 2 == Pow2(k - 1) by {
      assert Pow2(k) == 2 * Pow2(k - 1);
    }
    MulStrict(j, half, q);
    assert j * q < half * q;
  }

  lemma DivExact(q: nat, len: nat)
    requires len > 0
    ensures (q * len) / len == q
  {
    var a := q * len;
    var d, m := a / len, a % len;
    assert a == d * len + m && 0 <= m < len;
    var x := d - q;
    assert x * len == -m by {
      assert d * len - q * len == (d - q) * len;
    }
    if x >= 1 {
      MulMonotone(1, x, len);
    }
  }

  lemma MulMonotone(a: nat, b: nat, c: nat)
    requires a <= b
    ensures a * c <= b * c
  {
  }

  lemma MulStrict(a: nat, b: nat, c: nat)
    requires a < b && 0 < c
    ensures a * c < b * c
  {
  }
}
