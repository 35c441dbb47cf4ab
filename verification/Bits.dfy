/**
  Machine words and their bits. Words are unbounded integers; every truncation that Go performs
  (uint32 arithmetic, 64-bit int arithmetic, byte conversion) is written out.
 */
module Bits {
  type byte = x: int | 0 <= x < 256
  type uint32 = x: int | 0 <= x < 0x1_0000_0000

  const TWO32 := 0x1_0000_0000
  const TWO63 := 0x8000_0000_0000_0000
  const TWO64 := 0x1_0000_0000_0000_0000

  /** The value of a 64-bit two's complement int after an operation whose exact result is x. */
  function Int64(x: int): (r: int)
    ensures -TWO63 <= r < TWO63
  {
    if -TWO63 <= x < TWO63 then x else (x + TWO63) % TWO64 - TWO63
  }

  /** Conversion of an int to uint32. */
  function ToUint32(x: int): uint32 {
    if 0 <= x < TWO32 then x else x % TWO32
  }

  function Pow2(n: nat): (r: nat)
    ensures r >= 1
  {
    if n == 0 then 1 else 2 * Pow2(n - 1)
  }

  /** The low n bits of v, most significant bit first. */
  function BitsOf(v: nat, n: nat): (s: seq<bool>)
    ensures |s| == n
  {
    if n == 0 then [] else BitsOf(v / 2, n - 1) + [v % 2 == 1]
  }

  /** The number written by the bits s, most significant bit first. */
  function Value(s: seq<bool>): nat {
    if |s| == 0 then 0 else 2 * Value(s[..|s| - 1]) + (if s[|s| - 1] then 1 else 0)
  }

  /** The number written by the low n bits of v. */
  function Low(v: nat, n: nat): (r: nat)
    ensures r < Pow2(n)
  {
    if n == 0 then 0 else 2 * Low(v / 2, n - 1) + v % 2
  }

  /** The position of the highest set bit, counted from 1 (bits.Len32). */
  function BitLen(w: nat): nat {
    if w == 0 then 0 else 1 + BitLen(w / 2)
  }

  // ---------------------------------------------------------------- Go's operators on words

  function Or(a: nat, b: nat): nat
    decreases a + b
  {
    if a == 0 && b == 0 then 0
    else 2 * Or(a / 2, b / 2) + (if a % 2 == 1 || b % 2 == 1 then 1 else 0)
  }

  function And(a: nat, b: nat): nat {
    if a == 0 || b == 0 then 0
    else 2 * And(a / 2, b / 2) + (if a % 2 == 1 && b % 2 == 1 then 1 else 0)
  }

  /** v >> k: drop the low bit k times. */
  function Shr(v: nat, k: nat): nat {
    if k == 0 then v else Shr(v / 2, k - 1)
  }

  /** v << k without a word size: double k times. */
  function Shl(v: nat, k: nat): nat {
    if k == 0 then v else 2 * Shl(v, k - 1)
  }

  /** v << k on uint32. */
  function Shl32(v: nat, k: nat): uint32 {
    Low32(Shl(v, k))
  }

  /** What a 32-bit word keeps of v. */
  function Low32(v: nat): (r: uint32)
    ensures r == Low(v, 32)
  {
    Pow2Values();
    Low(v, 32)
  }

  // ---------------------------------------------------------------- powers of two

  lemma {:induction false} Pow2Monotone(a: nat, b: nat)
    requires a <= b
    ensures Pow2(a) <= Pow2(b)
  {
    if a < b {
      Pow2Monotone(a, b - 1);
    }
  }

  lemma Pow2Values()
    ensures Pow2(8) == 256 && Pow2(31) == 0x8000_0000 && Pow2(32) == TWO32
  {
    assert Pow2(8) == 256;
    assert Pow2(16) == 0x1_0000;
    assert Pow2(24) == 0x100_0000;
    assert Pow2(28) == 0x1000_0000;
    assert Pow2(31) == 0x8000_0000;
  }

  // ---------------------------------------------------------------- bits against numbers

  lemma {:induction false} ValueOfBits(v: nat, n: nat)
    ensures Value(BitsOf(v, n)) == Low(v, n)
  {
    if n > 0 {
      ValueOfBits(v / 2, n - 1);
      assert BitsOf(v, n)[..n - 1] == BitsOf(v / 2, n - 1);
    }
  }

  lemma {:induction false} BitsOfValue(s: seq<bool>)
    ensures Value(s) < Pow2(|s|)
    ensures BitsOf(Value(s), |s|) == s
  {
    if |s| > 0 {
      BitsOfValue(s[..|s| - 1]);
      assert s == s[..|s| - 1] + [s[|s| - 1]];
    }
  }

  /** A word that fits in n bits is all in its low n bits. */
  lemma {:induction false} LowOfSmall(v: nat, n: nat)
    requires v < Pow2(n)
    ensures Low(v, n) == v
  {
    if n > 0 {
      LowOfSmall(v / 2, n - 1);
    }
  }

  lemma LowOne(v: nat)
    ensures Low(v, 1) == v % 2 && Low(v, 0) == 0
  {
  }

  lemma LowStep(v: nat, n: nat)
    ensures Low(v, n + 1) == 2 * Low(v / 2, n) + v % 2
  {
  }

  lemma Mod4(v: nat)
    ensures v % 4 == 2 * (v / 2 % 2) + v % 2
  {
  }

  lemma Mod8(v: nat)
    ensures v % 8 == 2 * (v / 2 % 4) + v % 2
  {
  }

  lemma Mod16(v: nat)
    ensures v % 16 == 2 * (v / 2 % 8) + v % 2
  {
  }

  lemma Mod32(v: nat)
    ensures v % 32 == 2 * (v / 2 % 16) + v % 2
  {
  }

  /** The low five bits of a number are its remainder by 32. */
  lemma LowFive(v: nat)
    ensures Low(v, 5) == v % 32
  {
    hide Low;
    var v1, v2, v3 := v / 2, v / 2 / 2, v / 2 / 2 / 2;
    LowOne(v3 / 2);
    LowStep(v3, 1);
    Mod4(v3);
    LowStep(v2, 2);
    Mod8(v2);
    LowStep(v1, 3);
    Mod16(v1);
    LowStep(v, 4);
    Mod32(v);
  }

  lemma {:induction false} LowLow(v: nat, m: nat, n: nat)
    requires n <= m
    ensures Low(Low(v, m), n) == Low(v, n)
  {
    if n > 0 {
      LowLow(v / 2, m - 1, n - 1);
    }
  }

  lemma {:induction false} BitsOfLow(v: nat, n: nat)
    ensures BitsOf(Low(v, n), n) == BitsOf(v, n)
  {
    if n > 0 {
      BitsOfLow(v / 2, n - 1);
    }
  }

  /** The high a bits and the low b bits of a word are words of their own. */
  lemma {:induction false} BitsOfConcat(v: nat, a: nat, b: nat)
    ensures BitsOf(v, a + b) == BitsOf(Shr(v, b), a) + BitsOf(v, b)
  {
    if b > 0 {
      BitsOfConcat(v / 2, a, b - 1);
      var high, low, last := BitsOf(Shr(v, b), a), BitsOf(v / 2, b - 1), [v % 2 == 1];
      assert (high + low) + last == high + (low + last);
    }
  }

  /** A field of k bits, o bits below the top of an n-bit word. */
  lemma BitsOfSlice(v: nat, n: nat, o: nat, k: nat)
    requires o + k <= n
    ensures BitsOf(v, n)[o..o + k] == BitsOf(Shr(v, n - o - k), k)
  {
    var low := n - o - k;
    BitsOfConcat(v, o + k, low);
    BitsOfConcat(Shr(v, low), o, k);
    assert BitsOf(v, n)[o..o + k] == BitsOf(Shr(v, low), o + k)[o..];
  }

  lemma {:induction false} BitsOfZero(n: nat)
    ensures forall i :: 0 <= i < n ==> !BitsOf(0, n)[i]
  {
    if n > 0 {
      BitsOfZero(n - 1);
    }
  }

  lemma {:induction false} BitLenBounds(w: nat)
    requires w > 0
    ensures BitLen(w) >= 1
    ensures Pow2(BitLen(w) - 1) <= w < Pow2(BitLen(w))
  {
    if w > 1 {
      BitLenBounds(w / 2);
    } else {
      assert w / 2 == 0;
    }
  }

  lemma BitLenUnique(w: nat, n: nat)
    requires Pow2(n) <= w < Pow2(n + 1)
    ensures BitLen(w) == n + 1
  {
    BitLenBounds(w);
    var m := BitLen(w);
    if m <= n {
      Pow2Monotone(m, n);
    } else if m > n + 1 {
      Pow2Monotone(n + 1, m - 1);
    }
  }

  /** A word of n + 1 significant bits is a set bit in front of the rest. */
  lemma {:induction false} TopBit(n: nat, low: nat)
    requires low < Pow2(n)
    ensures BitsOf(Pow2(n) + low, n + 1) == [true] + BitsOf(low, n)
  {
    var w := Pow2(n) + low;
    if n == 0 {
      assert BitsOf(w / 2, 0) == [];
    } else {
      TopBit(n - 1, low / 2);
      assert w / 2 == Pow2(n - 1) + low / 2;
      assert BitsOf(w, n + 1) == BitsOf(w / 2, n) + [w % 2 == 1];
      assert [true] + (BitsOf(low / 2, n - 1) + [low % 2 == 1]) == ([true] + BitsOf(low / 2, n - 1)) + [low % 2 == 1];
    }
  }

  // ---------------------------------------------------------------- shifts, masks and merges

  lemma {:induction false} MaskIsLow(x: nat, n: nat)
    ensures And(x, Pow2(n) - 1) == Low(x, n)
  {
    if n > 0 {
      MaskIsLow(x / 2, n - 1);
      if x > 0 {
        assert (Pow2(n) - 1) / 2 == Pow2(n - 1) - 1;
      } else {
        LowOfSmall(0, n);
      }
    }
  }

  lemma {:induction false} OrZero(a: nat)
    ensures Or(a, 0) == a && Or(0, a) == a
  {
    if a > 0 {
      OrZero(a / 2);
    }
  }

  lemma OrStep(a: nat, b: nat, bit: nat)
    requires bit < 2
    ensures Or(2 * a, 2 * b + bit) == 2 * Or(a, b) + bit
  {
  }

  lemma {:induction false} ShlBound(v: nat, n: nat, k: nat)
    requires v < Pow2(n)
    ensures Shl(v, k) < Pow2(n + k)
  {
    if k > 0 {
      ShlBound(v, n, k - 1);
    }
  }

  lemma {:induction false} OrBound(a: nat, b: nat, n: nat)
    requires a < Pow2(n) && b < Pow2(n)
    ensures Or(a, b) < Pow2(n)
  {
    if n > 0 {
      OrBound(a / 2, b / 2, n - 1);
    }
  }

  lemma {:induction false} ShrShr(v: nat, a: nat, b: nat)
    ensures Shr(Shr(v, a), b) == Shr(v, a + b)
  {
    if a > 0 {
      ShrShr(v / 2, a - 1, b);
    }
  }

  lemma {:induction false} LowOfShr(a: nat, l: nat, k: nat)
    requires Low(a, l + k) == 0
    ensures Low(Shr(a, l), k) == 0 && Low(a, l) == 0
  {
    if l > 0 {
      LowOfShr(a / 2, l - 1, k);
    }
  }

  /** Merging above the low k bits does not touch them, and shifting them off undoes the shift. */
  lemma {:induction false} OrHigh(a: nat, b: nat, k: nat)
    requires Low(a, k) == 0
    ensures Low(Or(a, Shl(b, k)), k) == 0
    ensures Shr(Or(a, Shl(b, k)), k) == Or(Shr(a, k), b)
  {
    if k > 0 {
      OrHigh(a / 2, b, k - 1);
      var x := Shl(b, k - 1);
      OrStep(a / 2, x, 0);
      assert Or(a, Shl(b, k)) == 2 * Or(a / 2, x);
    }
  }

  /** Merging below bit k only sets the low k bits. */
  lemma {:induction false} OrLow(a: nat, b: nat, k: nat)
    requires Low(a, k) == 0 && b < Pow2(k)
    ensures Shr(Or(a, b), k) == Shr(a, k)
    ensures BitsOf(Or(a, b), k) == BitsOf(b, k)
  {
    if k == 0 {
      OrZero(a);
    } else {
      OrLow(a / 2, b / 2, k - 1);
      OrStep(a / 2, b / 2, b % 2);
      assert a == 2 * (a / 2) && b == 2 * (b / 2) + b % 2;
    }
  }

  /** Reading s and then t is reading s, shifting, and merging t. */
  lemma {:induction false} ValueConcat(s: seq<bool>, t: seq<bool>)
    ensures Value(s + t) == Or(Shl(Value(s), |t|), Value(t))
  {
    if |t| == 0 {
      assert s + t == s;
      OrZero(Value(s));
    } else {
      var t' := t[..|t| - 1];
      ValueConcat(s, t');
      assert (s + t)[..|s + t| - 1] == s + t';
      OrStep(Shl(Value(s), |t'|), Value(t'), if t[|t| - 1] then 1 else 0);
    }
  }

  /** An accumulator cut to m bits before the shift and to n bits after it loses nothing that n bits keep. */
  lemma {:induction false} MergeIntoWord(v: nat, m: nat, k: nat, n: nat, c: nat)
    requires k <= n <= m + k && c < Pow2(k)
    ensures Or(Low(Shl(Low(v, m), k), n), c) == Low(Or(Shl(v, k), c), n)
  {
    if k == 0 {
      LowLow(v, m, n);
      OrZero(Low(v, n));
      OrZero(v);
    } else {
      MergeIntoWord(v, m, k - 1, n - 1, c / 2);
      MergeOneMore(Shl(Low(v, m), k - 1), Shl(v, k - 1), n - 1, c / 2, c % 2);
    }
  }

  lemma MergeOneMore(a: nat, b: nat, n: nat, c: nat, bit: nat)
    requires bit < 2 && Or(Low(a, n), c) == Low(Or(b, c), n)
    ensures Or(Low(2 * a, n + 1), 2 * c + bit) == Low(Or(2 * b, 2 * c + bit), n + 1)
  {
    OrStep(Low(a, n), c, bit);
    OrStep(b, c, bit);
  }
}
