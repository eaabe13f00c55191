/** Machine words as numbers, read one bit at a time: shifts, masks, OR and XOR, and bit strings with the
    most significant bit first. */
module Words {
  function Pow2(n: nat): (p: nat)
    ensures p >= 1
  {
    if n == 0 then 1 else 2 * Pow2(n - 1)
  }

  /** `v & (2^n - 1)`; on n = 32 also what survives in a u32. */
  function Low(v: nat, n: nat): (w: nat)
    ensures w < Pow2(n)
  {
    if n == 0 then 0 else 2 * Low(v / 2, n - 1) + v % 2
  }

  function Shl(v: nat, n: nat): nat {
    if n == 0 then v else 2 * Shl(v, n - 1)
  }

  /** `v << n` on a u32: bits pushed past the top are lost. */
  function Shl32(v: nat, n: nat): nat { Low(Shl(v, n), 32) }

  /** `v >> n`. */
  function Shr(v: nat, n: nat): nat {
    if n == 0 then v else Shr(v / 2, n - 1)
  }

  function BitOr(a: nat, b: nat): nat {
    if a == 0 && b == 0 then 0
    else (if a % 2 == 1 || b % 2 == 1 then 1 else 0) + 2 * BitOr(a / 2, b / 2)
  }

  function BitXor(a: nat, b: nat): nat {
    if a == 0 && b == 0 then 0
    else (if a % 2 == b % 2 then 0 else 1) + 2 * BitXor(a / 2, b / 2)
  }

  /** The low n bits of v. */
  function Bits(v: nat, n: nat): (bits: seq<bool>)
    ensures |bits| == n
  {
    if n == 0 then [] else Bits(v / 2, n - 1) + [v % 2 == 1]
  }

  /** The number a bit string denotes. */
  function Value(bits: seq<bool>): (v: nat)
    ensures v < Pow2(|bits|)
  {
    if bits == [] then 0
    else 2 * Value(bits[..|bits| - 1]) + (if bits[|bits| - 1] then 1 else 0)
  }

  lemma ConcatAssociates<T>(a: seq<T>, b: seq<T>, c: seq<T>)
    ensures a + b + c == a + (b + c)
  {
  }

  lemma GroupSizes()
    ensures Pow2(5) == 32 && Pow2(8) == 256
  {
  }

  lemma {:induction false} BitsOfValue(bits: seq<bool>)
    ensures Bits(Value(bits), |bits|) == bits
  {
    if bits != [] {
      var n := |bits| - 1;
      BitsOfValue(bits[..n]);
      assert bits == bits[..n] + [bits[n]];
      assert Value(bits) / 2 == Value(bits[..n]);
    }
  }

  lemma {:induction false} ValueOfBits(v: nat, n: nat)
    requires v < Pow2(n)
    ensures Value(Bits(v, n)) == v
  {
    if n > 0 {
      ValueOfBits(v / 2, n - 1);
      assert Bits(v, n)[..n - 1] == Bits(v / 2, n - 1);
    }
  }

  lemma {:induction false} BitsOfLow(v: nat, n: nat, k: nat)
    requires k <= n
    ensures Bits(Low(v, n), k) == Bits(v, k)
  {
    if k > 0 {
      BitsOfLow(v / 2, n - 1, k - 1);
      assert Low(v, n) / 2 == Low(v / 2, n - 1);
    }
  }

  /** A shift right drops the low bits. */
  lemma {:induction false} BitsSplit(v: nat, n: nat, low: nat)
    ensures Bits(v, n + low) == Bits(Shr(v, low), n) + Bits(v, low)
  {
    if low > 0 {
      BitsSplit(v / 2, n, low - 1);
    }
  }

  lemma BitOrZero(a: nat)
    ensures BitOr(a, 0) == a
  {
  }

  lemma BitOrStep(a: nat, b: nat)
    ensures BitOr(a, b) == (if a % 2 == 1 || b % 2 == 1 then 1 else 0) + 2 * BitOr(a / 2, b / 2)
  {
  }

  /** Shifting n bits into a w-bit word appends them to its low bits. */
  lemma {:induction false} BitsAppend(v: nat, n: nat, group: nat, k: nat, w: nat)
    requires k + n <= w && group < Pow2(n)
    ensures Bits(BitOr(Low(Shl(v, n), w), group), k + n) == Bits(v, k) + Bits(group, n)
  {
    if n == 0 {
      BitOrZero(Low(v, w));
      BitsOfLow(v, w, k);
    } else {
      var kept := Low(Shl(v, n - 1), w - 1);
      assert Low(Shl(v, n), w) == 2 * kept;
      BitsAppend(v, n - 1, group / 2, k, w - 1);
      BitOrStep(2 * kept, group);
      hide BitOr, Low, Shl;
    }
  }

  /** XOR with a fixed word is injective. */
  lemma {:induction false} BitXorCancels(a: nat, b: nat, c: nat)
    requires BitXor(a, b) == BitXor(a, c)
    ensures b == c
    decreases a + b + c
  {
    if a + b + c > 0 {
      assert BitXor(a, b) % 2 == BitXor(a, c) % 2;
      assert b % 2 == c % 2;
      BitXorCancels(a / 2, b / 2, c / 2);
    }
  }

  lemma {:induction false} BitXorCommutes(a: nat, b: nat)
    ensures BitXor(a, b) == BitXor(b, a)
    decreases a + b
  {
    if a + b > 0 {
      BitXorCommutes(a / 2, b / 2);
    }
  }

  lemma {:induction false} BitXorBound(a: nat, b: nat, n: nat)
    requires a < Pow2(n) && b < Pow2(n)
    ensures BitXor(a, b) < Pow2(n)
  {
    if n > 0 && (a > 0 || b > 0) {
      BitXorBound(a / 2, b / 2, n - 1);
    }
  }

  /** XOR compares bit by bit. */
  lemma {:induction false} BitsOfXor(a: nat, b: nat, n: nat, i: nat)
    requires i < n
    ensures Bits(BitXor(a, b), n)[i] == (Bits(a, n)[i] != Bits(b, n)[i])
  {
    var x := BitXor(a, b);
    assert x % 2 == (if a % 2 == b % 2 then 0 else 1) && x / 2 == BitXor(a / 2, b / 2);
    if i < n - 1 {
      BitsOfXor(a / 2, b / 2, n - 1, i);
    }
  }

  /** Appending the bits of a digit is Horner's step. */
  lemma {:induction false} ValueOfAppend(bits: seq<bool>, d: nat, n: nat)
    requires d < Pow2(n)
    ensures Value(bits + Bits(d, n)) == Value(bits) * Pow2(n) + d
  {
    if n == 0 {
      assert bits + Bits(d, 0) == bits;
    } else {
      ValueOfAppend(bits, d / 2, n - 1);
      var longer := bits + Bits(d, n);
      assert longer[..|longer| - 1] == bits + Bits(d / 2, n - 1);
      Doubling(Value(bits), Pow2(n - 1));
    }
  }

  lemma Doubling(a: nat, b: nat)
    ensures 2 * (a * b) == a * (2 * b)
  {
  }
}
