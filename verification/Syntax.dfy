/**
  Syntax elements over a bit string: u(n), and the Exp-Golomb codes ue(v) and se(v) of section 9.1
  of Rec. ITU-T H.264, with the word sizes of the Go code. Reading is a function of a position;
  writing appends a code.
 */
module Syntax {
  import opened Wrappers
  import opened Bits

  // ---------------------------------------------------------------- reading

  /** u(n): n bits as a uint32; the accumulator keeps the last 32 of them. None when the bits run out. */
  function GetU(F: seq<bool>, p: nat, n: nat): (r: Option<(uint32, nat)>)
    ensures r.Some? ==> p + n <= |F| && r.value.1 == p + n
  {
    if p + n <= |F| then Some((Low32(Value(F[p..p + n])), p + n)) else None
  }

  /** The number of zero bits from position p on. */
  function Zeros(F: seq<bool>, p: nat): (z: nat)
    requires p <= |F|
    ensures p + z <= |F|
    decreases |F| - p
  {
    if p < |F| && !F[p] then 1 + Zeros(F, p + 1) else 0
  }

  /** The int that readUE computes from its count of leading zeros and the suffix it reads. */
  function UEValue(zeros: nat, suffix: uint32): int {
    Int64(Pow2(zeros) + suffix - 1)
  }

  function GetUE(F: seq<bool>, p: nat): (r: Option<(int, nat)>)
    ensures r.Some? ==> p < r.value.1 <= |F|
  {
    if p > |F| then None
    else
      var z := Zeros(F, p);
      if p + z == |F| then None
      else
        var (suffix, q) :- GetU(F, p + z + 1, z);
        Some((UEValue(z, suffix), q))
  }

  /** The signed number that readSE derives from an unsigned code number. */
  function SEValue(code: int): int {
    if code % 2 == 0 then Int64(-code) / 2 else Int64(code + 1) / 2
  }

  function GetSE(F: seq<bool>, p: nat): (r: Option<(int, nat)>)
    ensures r.Some? ==> p < r.value.1 <= |F|
  {
    var (code, q) :- GetUE(F, p);
    Some((SEValue(code), q))
  }

  // ---------------------------------------------------------------- writing

  /** The word whose bits writeUE emits: the successor of the value, as a uint32. */
  function UEWord(v: int): uint32 {
    ToUint32(Int64(v + 1))
  }

  /** The code that writeUE emits; a value whose word is 0 emits nothing. */
  function EncUE(v: int): seq<bool> {
    var w := UEWord(v);
    var n := BitLen(w);
    if n == 0 then [] else BitsOf(0, n - 1) + BitsOf(w, n)
  }

  /** The unsigned code number that writeSE picks. */
  function SECode(v: int): int {
    if v <= 0 then Int64(-2 * v) else Int64(2 * v - 1)
  }

  // ---------------------------------------------------------------- ranges

  /** What ue(v) can carry: section 9.1 allows 0 to 2^32 - 2. */
  predicate UEInRange(v: int) {
    0 <= v <= 0xFFFF_FFFE
  }

  predicate SEInRange(v: int) {
    -0x7FFF_FFFF <= v <= 0x7FFF_FFFF
  }

  lemma SEInRangeIsUEInRange(v: int)
    requires SEInRange(v)
    ensures UEInRange(SECode(v)) && SEValue(SECode(v)) == v
  {
  }

  lemma UEInRangeIsSEInRange(code: int)
    requires UEInRange(code)
    ensures SEInRange(SEValue(code)) && SECode(SEValue(code)) == code
  {
  }

  // ---------------------------------------------------------------- one code

  /** The bits e occupy F at position p. */
  predicate Holds(F: seq<bool>, p: nat, e: seq<bool>) {
    p + |e| <= |F| && F[p..p + |e|] == e
  }

  lemma HoldsSplit(F: seq<bool>, p: nat, a: seq<bool>, b: seq<bool>)
    requires Holds(F, p, a + b)
    ensures Holds(F, p, a) && Holds(F, p + |a|, b)
  {
    var s := F[p..p + |a + b|];
    assert F[p..p + |a|] == s[..|a|] == a;
    assert F[p + |a|..p + |a| + |b|] == s[|a|..] == b;
  }

  lemma {:induction false} ZerosAre(F: seq<bool>, p: nat, zeros: seq<bool>)
    requires Holds(F, p, zeros) && p + |zeros| < |F| && F[p + |zeros|]
    requires forall i :: 0 <= i < |zeros| ==> !zeros[i]
    ensures Zeros(F, p) == |zeros|
    decreases |zeros|
  {
    if |zeros| > 0 {
      assert zeros == zeros[..1] + zeros[1..];
      HoldsSplit(F, p, zeros[..1], zeros[1..]);
      assert F[p] == F[p..p + 1][0];
      ZerosAre(F, p + 1, zeros[1..]);
    }
  }

  /** Reading back a fixed-length field gives the value cut to the field. */
  lemma GetUHolds(F: seq<bool>, p: nat, n: nat, v: uint32)
    requires Holds(F, p, BitsOf(v, n))
    ensures GetU(F, p, n) == Some((Low32(Low(v, n)), p + n))
  {
    hide Value, BitsOf, Low;
    ValueOfBits(v, n);
  }

  lemma GetUHoldsSmall(F: seq<bool>, p: nat, n: nat, v: uint32)
    requires Holds(F, p, BitsOf(v, n)) && v < Pow2(n)
    ensures GetU(F, p, n) == Some((v, p + n))
  {
    GetUHolds(F, p, n, v);
    LowOfSmall(v, n);
    Low32OfSmall(v);
  }

  lemma Low32OfSmall(v: uint32)
    ensures Low32(v) == v
  {
    Pow2Values();
    LowOfSmall(v, 32);
  }

  /** A read of one bit gives that bit, and fails only at the end. */
  lemma BitOrNone(F: seq<bool>, p: nat)
    requires p <= |F|
    ensures GetU(F, p, 1) == if p < |F| then Some((if F[p] then 1 else 0, p + 1)) else None
  {
    if p < |F| {
      var one := F[p..p + 1];
      assert one == [F[p]] && one[..0] == [];
      assert Value(one) == if F[p] then 1 else 0;
      Low32OfSmall(Value(one));
    }
  }

  /** The word without its top bit. */
  function BelowTop(w: nat): (low: nat)
    requires w > 0
    ensures BitLen(w) >= 1 && w == Pow2(BitLen(w) - 1) + low && low < Pow2(BitLen(w) - 1)
  {
    BitLenBounds(w);
    w - Pow2(BitLen(w) - 1)
  }

  /** n zeros, a one and an n-bit suffix at p are read as one code. */
  lemma GetUECode(F: seq<bool>, p: nat, n: nat, low: uint32)
    requires low < Pow2(n) && Holds(F, p, BitsOf(0, n) + ([true] + BitsOf(low, n)))
    ensures GetUE(F, p) == Some((UEValue(n, low), p + 2 * n + 1))
  {
    hide BitsOf, Pow2, UEValue, GetU, Zeros;
    var zeros, rest := BitsOf(0, n), BitsOf(low, n);
    HoldsSplit(F, p, zeros, [true] + rest);
    HoldsSplit(F, p + n, [true], rest);
    assert F[p + n] == F[p + n..p + n + 1][0];
    BitsOfZero(n);
    ZerosAre(F, p, zeros);
    GetUHoldsSmall(F, p + n + 1, n, low);
  }

  /** A code at p is read back as the low 32 bits it was made from, and reading stops at its end. */
  lemma GetUEHolds(F: seq<bool>, p: nat, v: int)
    requires Holds(F, p, EncUE(v)) && UEWord(v) != 0
    ensures GetUE(F, p) == Some((UEWord(v) - 1, p + |EncUE(v)|))
  {
    hide BitsOf, GetUE, Pow2, BitLen, Holds;
    var w := UEWord(v);
    var low := BelowTop(w);
    var n := BitLen(w) - 1;
    TopBit(n, low);
    GetUECode(F, p, n, low);
  }

  /** At most 31 leading zeros read as a value in range, and every other code takes at least 65 bits. */
  lemma UEConsumes(F: seq<bool>, p: nat)
    requires GetUE(F, p).Some?
    ensures var (v, q) := GetUE(F, p).value;
      if q - p < 65 then UEInRange(v) && |EncUE(v)| == q - p else Zeros(F, p) >= 32
  {
    var z := Zeros(F, p);
    var (suffix, q) := GetU(F, p + z + 1, z).value;
    if z < 32 {
      var low := Value(F[p + z + 1..q]);
      assert low < Pow2(z) by { BitsOfValue(F[p + z + 1..q]); }
      ShortCode(z, low);
      assert suffix == low by { Low32OfSmall(low); }
    }
  }

  /** A code with at most 31 leading zeros stands for a value in range, and is the code of that value. */
  lemma ShortCode(z: nat, low: nat)
    requires z < 32 && low < Pow2(z)
    ensures low < TWO32 && UEInRange(UEValue(z, low)) && |EncUE(UEValue(z, low))| == 2 * z + 1
  {
    hide BitLen;
    assert Pow2(z) <= 0x8000_0000 by { Pow2Monotone(z, 31); Pow2Values(); }
    BitLenUnique(Pow2(z) + low, z);
    assert UEValue(z, low) == Pow2(z) + low - 1;
  }

  lemma EncUELength(v: int)
    ensures |EncUE(v)| <= 63
    ensures UEInRange(v) ==> |EncUE(v)| >= 1
  {
    var w := UEWord(v);
    if w > 0 {
      BitLenBounds(w);
      Pow2Values();
      if BitLen(w) > 32 {
        Pow2Monotone(32, BitLen(w) - 1);
      }
    }
  }

  // ---------------------------------------------------------------- sequences of elements

  datatype Elem = U(width: nat, bits: uint32) | UE(ue: int) | SE(se: int)

  /** What was read or written so far, oldest element innermost. */
  datatype Trace = Empty | Then(before: Trace, last: Elem)

  function Encode1(e: Elem): seq<bool> {
    match e
    case U(n, v) => BitsOf(v, n)
    case UE(v) => EncUE(v)
    case SE(v) => EncUE(SECode(v))
  }

  /** The bits after the elements of t were written behind the bits pre. */
  function EncodeFrom(pre: seq<bool>, t: Trace): seq<bool> {
    match t
    case Empty => pre
    case Then(before, e) => EncodeFrom(pre, before) + Encode1(e)
  }

  function Encode(t: Trace): seq<bool> {
    EncodeFrom([], t)
  }

  predicate InRange1(e: Elem) {
    match e
    case U(n, v) => v < Pow2(n)
    case UE(v) => UEInRange(v)
    case SE(v) => SEInRange(v)
  }

  predicate InRange(t: Trace) {
    t.Empty? || (InRange(t.before) && InRange1(t.last))
  }

  /** The position after a read at p that yields exactly the element e. */
  function Read1(F: seq<bool>, p: nat, e: Elem): (r: Option<nat>)
    ensures r.Some? ==> p <= r.value <= |F|
  {
    match e
    case U(n, v) => var (x, q) :- GetU(F, p, n); if x == v then Some(q) else None
    case UE(v) => var (x, q) :- GetUE(F, p); if x == v then Some(q) else None
    case SE(v) => var (x, q) :- GetSE(F, p); if x == v then Some(q) else None
  }

  /** The position reached by reading F from its start with the descriptors of t, each read yielding t's value. */
  function Reads(F: seq<bool>, t: Trace): (r: Option<nat>)
    ensures r.Some? ==> r.value <= |F|
  {
    match t
    case Empty => Some(0)
    case Then(before, e) => var p :- Reads(F, before); Read1(F, p, e)
  }

  /** The position reached so far. */
  function Pos(F: seq<bool>, t: Trace): nat
    requires Reads(F, t).Some?
  {
    Reads(F, t).value
  }

  lemma {:induction false} EncodeFromPrefix(pre: seq<bool>, t: Trace)
    ensures EncodeFrom(pre, t) == pre + Encode(t)
  {
    if t.Empty? {
      assert pre + [] == pre;
    } else {
      EncodeFromPrefix(pre, t.before);
      assert (pre + Encode(t.before)) + Encode1(t.last) == pre + (Encode(t.before) + Encode1(t.last));
    }
  }

  lemma Read1Holds(F: seq<bool>, p: nat, e: Elem)
    requires Holds(F, p, Encode1(e)) && InRange1(e)
    ensures Read1(F, p, e) == Some(p + |Encode1(e)|)
  {
    hide BitsOf, EncUE, GetU, GetUE;
    match e
    case U(n, v) => GetUHoldsSmall(F, p, n, v);
    case UE(v) => GetUEInRange(F, p, v);
    case SE(v) =>
      SEInRangeIsUEInRange(v);
      GetUEInRange(F, p, SECode(v));
  }

  lemma GetUEInRange(F: seq<bool>, p: nat, v: int)
    requires Holds(F, p, EncUE(v)) && UEInRange(v)
    ensures GetUE(F, p) == Some((v, p + |EncUE(v)|))
  {
    hide EncUE, GetUE;
    GetUEHolds(F, p, v);
  }

  /**
    An element out of range is never read back: reading its code gives another value, or runs at least
    65 bits past where the code was written.
   */
  lemma Read1OutOfRange(F: seq<bool>, p: nat, e: Elem)
    requires Holds(F, p, Encode1(e)) && !InRange1(e)
    ensures Read1(F, p, e).Some? ==> Read1(F, p, e).value >= p + |Encode1(e)| + 65
  {
    match e
    case U(n, v) => GetUTooWide(F, p, n, v);
    case UE(v) => GetUEVanished(F, p, v);
    case SE(v) => GetSEVanished(F, p, v);
  }

  lemma GetUTooWide(F: seq<bool>, p: nat, n: nat, v: uint32)
    requires Holds(F, p, BitsOf(v, n)) && Pow2(n) <= v
    ensures GetU(F, p, n).value.0 != v
  {
    GetUHolds(F, p, n, v);
    Low32OfSmall(Low(v, n));
  }

  lemma GetSEVanished(F: seq<bool>, p: nat, v: int)
    requires Holds(F, p, EncUE(SECode(v))) && !SEInRange(v)
    ensures GetSE(F, p).Some? && GetSE(F, p).value.0 == v ==> GetSE(F, p).value.1 >= p + |EncUE(SECode(v))| + 65
  {
    hide EncUE, GetUE, UEWord, UEValue;
    if GetSE(F, p).Some? && GetSE(F, p).value.0 == v {
      var (code, q) := GetUE(F, p).value;
      assert !UEInRange(code) by { if UEInRange(code) { UEInRangeIsSEInRange(code); } }
      UEConsumes(F, p);
      if UEWord(SECode(v)) != 0 {
        GetUEHolds(F, p, SECode(v));
      } else {
        EncUEOfWrapped(SECode(v));
      }
    }
  }

  lemma EncUEOfWrapped(v: int)
    requires UEWord(v) == 0
    ensures EncUE(v) == []
  {
  }

  lemma GetUEVanished(F: seq<bool>, p: nat, v: int)
    requires Holds(F, p, EncUE(v)) && !UEInRange(v)
    ensures GetUE(F, p).Some? && GetUE(F, p).value.0 == v ==> GetUE(F, p).value.1 >= p + |EncUE(v)| + 65
  {
    if UEWord(v) != 0 {
      GetUEHolds(F, p, v);
    } else if GetUE(F, p).Some? {
      UEConsumes(F, p);
    }
  }

  /** A read never takes fewer bits than the write of the value it returned. */
  lemma Read1Consumes(F: seq<bool>, p: nat, e: Elem)
    requires Read1(F, p, e).Some?
    ensures Read1(F, p, e).value - p >= |Encode1(e)|
  {
    match e
    case U(n, v) =>
    case UE(v) =>
      UEConsumes(F, p);
      EncUELength(v);
    case SE(v) =>
      UEConsumes(F, p);
      EncUELength(SECode(v));
      var (x, q) := GetUE(F, p).value;
      if UEInRange(x) {
        UEInRangeIsSEInRange(x);
      }
  }

  // ---------------------------------------------------------------- reading on

  lemma {:induction false} ZerosLonger(F: seq<bool>, G: seq<bool>, p: nat)
    requires F <= G && p <= |F| && p + Zeros(F, p) < |F|
    ensures Zeros(G, p) == Zeros(F, p)
    decreases |F| - p
  {
    if !F[p] {
      ZerosLonger(F, G, p + 1);
    }
  }

  lemma Read1Longer(F: seq<bool>, G: seq<bool>, p: nat, e: Elem)
    requires F <= G && Read1(F, p, e).Some?
    ensures Read1(G, p, e) == Read1(F, p, e)
  {
    hide GetU, GetUE, SEValue;
    if e.U? {
      GetULonger(F, G, p, e.width);
    } else {
      GetUELonger(F, G, p);
    }
  }

  lemma GetUELonger(F: seq<bool>, G: seq<bool>, p: nat)
    requires F <= G && GetUE(F, p).Some?
    ensures GetUE(G, p) == GetUE(F, p)
  {
    hide GetU, UEValue, Zeros;
    ZerosLonger(F, G, p);
    GetULonger(F, G, p + Zeros(F, p) + 1, Zeros(F, p));
  }

  lemma GetULonger(F: seq<bool>, G: seq<bool>, p: nat, n: nat)
    requires F <= G && GetU(F, p, n).Some?
    ensures GetU(G, p, n) == GetU(F, p, n)
  {
    hide Value;
    assert G[p..p + n] == F[p..p + n];
  }

  /** What can be read is read the same when more bits follow. */
  lemma {:induction false} ReadsLonger(F: seq<bool>, G: seq<bool>, t: Trace)
    requires F <= G && Reads(F, t).Some?
    ensures Reads(G, t) == Reads(F, t)
  {
    hide Read1;
    if t.Then? {
      ReadsLonger(F, G, t.before);
      Read1Longer(F, G, Reads(F, t.before).value, t.last);
    }
  }

  // ---------------------------------------------------------------- the bits behind what was read

  /** Every fixed-length field fits a word, and every code that was read has at most 31 leading zeros. */
  predicate ShortCodes(F: seq<bool>, t: Trace)
    requires Reads(F, t).Some?
  {
    match t
    case Empty => true
    case Then(before, e) =>
      ShortCodes(F, before) && if e.U? then e.width <= 32 else Zeros(F, Reads(F, before).value) <= 31
  }

  lemma FieldBits(F: seq<bool>, p: nat, n: nat)
    requires n <= 32 && GetU(F, p, n).Some?
    ensures F[p..p + n] == BitsOf(GetU(F, p, n).value.0, n)
  {
    var s := F[p..p + n];
    BitsOfValue(s);
    Pow2Monotone(n, 32);
    LowOfSmall(Value(s), 32);
  }

  lemma {:induction false} ZerosAreBits(F: seq<bool>, p: nat)
    requires p <= |F|
    ensures F[p..p + Zeros(F, p)] == BitsOf(0, Zeros(F, p))
    ensures p + Zeros(F, p) < |F| ==> F[p + Zeros(F, p)]
    decreases |F| - p
  {
    BitsOfZero(Zeros(F, p));
    if p < |F| && !F[p] {
      ZerosAreBits(F, p + 1);
      BitsOfZero(Zeros(F, p + 1));
      assert F[p..p + Zeros(F, p)] == [F[p]] + F[p + 1..p + Zeros(F, p)];
    }
  }

  lemma ThreeParts(F: seq<bool>, p: nat, z: nat)
    requires p + 2 * z + 1 <= |F|
    ensures F[p..p + 2 * z + 1] == F[p..p + z] + ([F[p + z]] + F[p + z + 1..p + 2 * z + 1])
  {
  }

  lemma UEParts(F: seq<bool>, p: nat)
    requires GetUE(F, p).Some?
    ensures p <= |F| && p + 2 * Zeros(F, p) + 1 <= |F| && GetU(F, p + Zeros(F, p) + 1, Zeros(F, p)).Some?
    ensures var z := Zeros(F, p);
      GetUE(F, p).value == (UEValue(z, GetU(F, p + z + 1, z).value.0), p + 2 * z + 1)
  {
    hide UEValue, Zeros;
  }

  /** A short code is zeros, a one and a suffix, and is written the same. */
  lemma CodeBits(F: seq<bool>, p: nat)
    requires GetUE(F, p).Some? && Zeros(F, p) <= 31
    ensures var (v, q) := GetUE(F, p).value; UEInRange(v) && F[p..q] == EncUE(v)
  {
    hide Zeros, GetU, GetUE, BitsOf, EncUE, UEValue, Pow2;
    UEParts(F, p);
    var z := Zeros(F, p);
    var suffix := GetU(F, p + z + 1, z).value.0;
    SuffixFits(F, p + z + 1, z);
    CodeOfSuffix(z, suffix);
    ZerosAreBits(F, p);
    FieldBits(F, p + z + 1, z);
    ThreeParts(F, p, z);
  }

  lemma SuffixFits(F: seq<bool>, p: nat, n: nat)
    requires n <= 32 && GetU(F, p, n).Some?
    ensures GetU(F, p, n).value.0 < Pow2(n)
  {
    BitsOfValue(F[p..p + n]);
    Pow2Monotone(n, 32);
    LowOfSmall(Value(F[p..p + n]), 32);
  }

  /** Table 9-2 in one line: z zeros, a one, and z bits that count on from 2^z - 1. */
  lemma CodeOfSuffix(z: nat, suffix: uint32)
    requires z <= 31 && suffix < Pow2(z)
    ensures UEValue(z, suffix) == Pow2(z) + suffix - 1 && UEInRange(UEValue(z, suffix))
    ensures EncUE(UEValue(z, suffix)) == BitsOf(0, z) + ([true] + BitsOf(suffix, z))
  {
    hide BitLen, BitsOf, EncUE, UEValue, Pow2;
    SuffixWord(z, suffix);
    TopBit(z, suffix);
    CodeOfWord(UEValue(z, suffix));
  }

  lemma SuffixWord(z: nat, suffix: uint32)
    requires z <= 31 && suffix < Pow2(z)
    ensures UEValue(z, suffix) == Pow2(z) + suffix - 1 && UEInRange(UEValue(z, suffix))
    ensures UEWord(UEValue(z, suffix)) == Pow2(z) + suffix && BitLen(Pow2(z) + suffix) == z + 1
  {
    hide BitLen;
    assert Pow2(z) <= 0x8000_0000 by { Pow2Monotone(z, 31); Pow2Values(); }
    BitLenUnique(Pow2(z) + suffix, z);
  }

  lemma CodeOfWord(v: int)
    ensures var w := UEWord(v); BitLen(w) > 0 ==> EncUE(v) == BitsOf(0, BitLen(w) - 1) + BitsOf(w, BitLen(w))
  {
    hide BitLen, BitsOf, UEWord;
  }

  lemma Read1Code(F: seq<bool>, p: nat, e: Elem)
    requires Read1(F, p, e).Some? && if e.U? then e.width <= 32 else Zeros(F, p) <= 31
    ensures F[p..Read1(F, p, e).value] == Encode1(e)
  {
    hide GetU, EncUE, BitsOf, Zeros, SEValue, SECode;
    match e
    case U(n, v) => FieldBits(F, p, n);
    case UE(v) =>
      hide GetUE;
      CodeBits(F, p);
    case SE(v) =>
      hide GetUE;
      CodeBits(F, p);
      UEInRangeIsSEInRange(GetUE(F, p).value.0);
  }

  /** What was read with short codes is what those values are written as. */
  lemma {:induction false} ReadsCode(F: seq<bool>, t: Trace)
    requires Reads(F, t).Some? && ShortCodes(F, t)
    ensures F[..Reads(F, t).value] == Encode(t)
  {
    hide Read1, Encode1;
    if t.Then? {
      var p, q := Reads(F, t.before).value, Reads(F, t).value;
      ReadsCode(F, t.before);
      Read1Code(F, p, t.last);
      assert F[..q] == F[..p] + F[p..q];
    }
  }

  /** Table 9-3: the code numbers 1, 2, 3, 4 and so on stand for 1, -1, 2, -2 and so on. */
  lemma SignsAlternate(m: int)
    requires 0 < m <= 0x7FFF_FFFF
    ensures SEValue(2 * m - 1) == m && SEValue(2 * m) == -m && SEValue(0) == 0
    ensures SECode(m) == 2 * m - 1 && SECode(-m) == 2 * m && SECode(0) == 0
  {
  }

  // ---------------------------------------------------------------- main results

  /** Everything in range is read back exactly, at every bit alignment, whatever follows it. */
  lemma {:induction false} ReadsWhatWasWritten(F: seq<bool>, t: Trace)
    requires Encode(t) <= F && InRange(t)
    ensures Reads(F, t) == Some(|Encode(t)|)
  {
    hide Encode1, Read1, InRange1;
    if t.Then? {
      assert Encode(t.before) <= F;
      ReadsWhatWasWritten(F, t.before);
      Read1Holds(F, |Encode(t.before)|, t.last);
    }
  }

  /** With an element out of range, matching reads would need at least 65 bits more than were written. */
  lemma {:induction false} OutOfRangeOverruns(F: seq<bool>, t: Trace)
    requires Encode(t) <= F && !InRange(t)
    ensures Reads(F, t).Some? ==> Reads(F, t).value >= |Encode(t)| + 65
  {
    hide Encode1, Read1, InRange1;
    var before, e := t.before, t.last;
    assert Encode(before) <= F;
    if Reads(F, t).Some? {
      var p := Reads(F, before).value;
      if InRange(before) {
        ReadsWhatWasWritten(F, before);
        Read1OutOfRange(F, p, e);
      } else {
        OutOfRangeOverruns(F, before);
        Read1Consumes(F, p, e);
      }
    }
  }

  /** The matching reads give back the written values exactly when every value is in range. */
  lemma ReadBackIff(F: seq<bool>, t: Trace)
    requires Encode(t) <= F && |F| < |Encode(t)| + 65
    ensures Reads(F, t).Some? <==> InRange(t)
    ensures InRange(t) ==> Reads(F, t) == Some(|Encode(t)|)
  {
    if InRange(t) {
      ReadsWhatWasWritten(F, t);
    } else {
      OutOfRangeOverruns(F, t);
    }
  }
}
