/**
  Emulation prevention (section 7.3.1 of Rec. ITU-T H.264): what the writer inserts and the reader skips,
  and the bits of the payload in between.
 */
module Emulation {
  import opened Bits

  /** Byte i of an escaped buffer carries payload unless it is a 3 that follows two zero bytes. */
  predicate Kept(buf: seq<byte>, i: nat)
    requires i < |buf|
  {
    !(i >= 2 && buf[i - 2] == 0 && buf[i - 1] == 0 && buf[i] == 3)
  }

  /** The payload carried by the first n escaped bytes. */
  function UnescapeTo(buf: seq<byte>, n: nat): (p: seq<byte>)
    requires n <= |buf|
    ensures |p| <= n
  {
    if n == 0 then [] else UnescapeTo(buf, n - 1) + (if Kept(buf, n - 1) then [buf[n - 1]] else [])
  }

  function Unescape(buf: seq<byte>): seq<byte> {
    UnescapeTo(buf, |buf|)
  }

  predicate EndsInZeros(arr: seq<byte>) {
    |arr| >= 2 && arr[|arr| - 1] == 0 && arr[|arr| - 2] == 0
  }

  /** One flushed byte: a 3 goes first when the output ends in two zeros and the byte is at most 3. */
  function EscapeByte(arr: seq<byte>, b: byte): seq<byte> {
    if b <= 3 && EndsInZeros(arr) then arr + [3, b] else arr + [b]
  }

  function Escape(p: seq<byte>): seq<byte> {
    if |p| == 0 then [] else EscapeByte(Escape(p[..|p| - 1]), p[|p| - 1])
  }

  // ---------------------------------------------------------------- both directions

  /** No three bytes in a row look like a start code or another reserved pattern. */
  ghost predicate NoReservedTriple(buf: seq<byte>) {
    forall i :: 0 <= i < |buf| - 2 ==> !(buf[i] == 0 && buf[i + 1] == 0 && buf[i + 2] <= 2)
  }

  /** Every 3 after two zeros guards a byte of at most 3. */
  ghost predicate EscapesNeeded(buf: seq<byte>) {
    forall i :: 0 <= i < |buf| && !Kept(buf, i) ==> i + 1 < |buf| && buf[i + 1] <= 3
  }

  lemma {:induction false} UnescapePrefix(buf: seq<byte>, more: seq<byte>, n: nat)
    requires n <= |buf|
    ensures UnescapeTo(buf + more, n) == UnescapeTo(buf, n)
  {
    if n > 0 {
      UnescapePrefix(buf, more, n - 1);
    }
  }

  lemma {:induction false} UnescapeGrows(buf: seq<byte>, m: nat, n: nat)
    requires m <= n <= |buf|
    ensures UnescapeTo(buf, m) <= UnescapeTo(buf, n)
  {
    if m < n {
      UnescapeGrows(buf, m, n - 1);
    }
  }

  lemma UnescapeAppend(arr: seq<byte>, b: byte)
    ensures Unescape(arr + [b]) == Unescape(arr) + (if Kept(arr + [b], |arr|) then [b] else [])
  {
    UnescapePrefix(arr, [b], |arr|);
  }

  /** Whatever was written before, one more flushed byte adds exactly itself to the payload. */
  lemma UnescapeEscapeByte(arr: seq<byte>, b: byte)
    ensures Unescape(EscapeByte(arr, b)) == Unescape(arr) + [b]
  {
    if b <= 3 && EndsInZeros(arr) {
      var guarded := arr + [3];
      UnescapeAppend(arr, 3);
      UnescapeAppend(guarded, b);
      assert EscapeByte(arr, b) == guarded + [b];
    } else {
      UnescapeAppend(arr, b);
    }
  }

  lemma {:induction false} UnescapeEscape(p: seq<byte>)
    ensures Unescape(Escape(p)) == p
  {
    if |p| > 0 {
      assert p == p[..|p| - 1] + [p[|p| - 1]];
      UnescapeEscape(p[..|p| - 1]);
      UnescapeEscapeByte(Escape(p[..|p| - 1]), p[|p| - 1]);
    }
  }

  lemma {:induction false} EscapeIsSafe(p: seq<byte>)
    ensures NoReservedTriple(Escape(p))
    ensures EscapesNeeded(Escape(p))
  {
    if |p| > 0 {
      EscapeIsSafe(p[..|p| - 1]);
      var arr, out := Escape(p[..|p| - 1]), Escape(p);
      assert arr <= out;
      forall i | 0 <= i < |out| && !Kept(out, i) ensures i + 1 < |out| && out[i + 1] <= 3 {
        if i < |arr| {
          assert !Kept(arr, i);
        }
      }
    }
  }

  /** A prefix that ends in a guard byte unescapes like the prefix without it. */
  lemma {:induction false} EscapeUnescapeTo(buf: seq<byte>, n: nat)
    requires NoReservedTriple(buf) && EscapesNeeded(buf) && n <= |buf|
    ensures Escape(UnescapeTo(buf, n)) == if n == 0 || Kept(buf, n - 1) then buf[..n] else buf[..n - 1]
  {
    if n > 0 {
      EscapeUnescapeTo(buf, n - 1);
      if Kept(buf, n - 1) {
        EscapeOfKept(buf, n);
        EscapeByteRestores(buf, n);
      } else {
        GuardAddsNothing(buf, n);
      }
    }
  }

  lemma EscapeOfKept(buf: seq<byte>, n: nat)
    requires 0 < n <= |buf| && Kept(buf, n - 1)
    ensures Escape(UnescapeTo(buf, n)) == EscapeByte(Escape(UnescapeTo(buf, n - 1)), buf[n - 1])
  {
    var p, b := UnescapeTo(buf, n - 1), buf[n - 1];
    assert UnescapeTo(buf, n) == p + [b] && (p + [b])[..|p|] == p;
  }

  lemma GuardAddsNothing(buf: seq<byte>, n: nat)
    requires 0 < n <= |buf| && !Kept(buf, n - 1)
    ensures n >= 2 && Kept(buf, n - 2)
    ensures UnescapeTo(buf, n) == UnescapeTo(buf, n - 1)
  {
  }

  lemma EscapeByteRestores(buf: seq<byte>, n: nat)
    requires NoReservedTriple(buf) && EscapesNeeded(buf) && 0 < n <= |buf| && Kept(buf, n - 1)
    ensures EscapeByte(if n == 1 || Kept(buf, n - 2) then buf[..n - 1] else buf[..n - 2], buf[n - 1]) == buf[..n]
  {
    var b := buf[n - 1];
    if n >= 2 && !Kept(buf, n - 2) {
      assert b <= 3;
      assert EndsInZeros(buf[..n - 2]);
      assert buf[..n] == buf[..n - 2] + [3, b];
    } else {
      if n >= 3 {
        assert !(buf[n - 3] == 0 && buf[n - 3 + 1] == 0 && buf[n - 3 + 2] <= 2);
      }
      assert buf[..n] == buf[..n - 1] + [b];
    }
  }

  /** Escaping an unescaped buffer restores it exactly when the buffer obeys the byte-stream rules. */
  lemma EscapeUnescape(buf: seq<byte>)
    ensures Escape(Unescape(buf)) == buf <==> NoReservedTriple(buf) && EscapesNeeded(buf)
  {
    EscapeIsSafe(Unescape(buf));
    if NoReservedTriple(buf) && EscapesNeeded(buf) {
      EscapeUnescapeTo(buf, |buf|);
      assert buf[..|buf|] == buf;
    }
  }

  /** A nonzero header byte takes no part in escaping what follows it. */
  lemma {:induction false} EscapeAfterHeader(h: byte, p: seq<byte>)
    requires h != 0
    ensures Escape([h] + p) == [h] + Escape(p)
  {
    if |p| == 0 {
      assert [h] + p == [h];
      assert Escape([h]) == EscapeByte(Escape([]), h);
    } else {
      var q := p[..|p| - 1];
      EscapeAfterHeader(h, q);
      assert ([h] + p)[..|p|] == [h] + q;
      assert EndsInZeros([h] + Escape(q)) == EndsInZeros(Escape(q));
    }
  }

  // ---------------------------------------------------------------- bytes as bits

  function Flat(p: seq<byte>): (s: seq<bool>)
    ensures |s| == 8 * |p|
  {
    if |p| == 0 then [] else Flat(p[..|p| - 1]) + BitsOf(p[|p| - 1], 8)
  }

  /** The bytes of a bit string that holds a whole number of them. */
  function Pack(s: seq<bool>): seq<byte>
    requires |s| % 8 == 0
  {
    if |s| == 0 then [] else Pack(s[..|s| - 8]) + [ByteValue(s[|s| - 8..])]
  }

  function ByteValue(s: seq<bool>): byte
    requires |s| == 8
  {
    BitsOfValue(s);
    Pow2Values();
    Value(s)
  }

  lemma ByteValueOfBits(b: byte)
    ensures ByteValue(BitsOf(b, 8)) == b
  {
    ValueOfBits(b, 8);
    Pow2Values();
    LowOfSmall(b, 8);
  }

  lemma PackAppend(s: seq<bool>, b: byte)
    requires |s| % 8 == 0
    ensures Pack(s + BitsOf(b, 8)) == Pack(s) + [b]
  {
    hide BitsOf;
    var t := s + BitsOf(b, 8);
    assert t[..|t| - 8] == s && t[|t| - 8..] == BitsOf(b, 8);
    ByteValueOfBits(b);
  }

  lemma FlatAppend(q: seq<byte>, b: byte)
    ensures Flat(q + [b]) == Flat(q) + BitsOf(b, 8)
  {
    hide BitsOf;
    assert (q + [b])[..|q|] == q;
  }

  lemma {:induction false} PackFlat(p: seq<byte>)
    ensures Pack(Flat(p)) == p
  {
    hide BitsOf, ByteValue;
    if |p| > 0 {
      var q, b := p[..|p| - 1], p[|p| - 1];
      PackFlat(q);
      PackAppend(Flat(q), b);
      assert p == q + [b];
    }
  }

  lemma {:induction false} FlatConcat(p: seq<byte>, q: seq<byte>)
    ensures Flat(p + q) == Flat(p) + Flat(q)
  {
    hide BitsOf;
    if |q| == 0 {
      assert p + q == p;
    } else {
      var q', b := q[..|q| - 1], q[|q| - 1];
      FlatConcat(p, q');
      assert (p + q)[..|p + q| - 1] == p + q';
      assert Flat(p + q) == (Flat(p) + Flat(q')) + BitsOf(b, 8);
    }
  }

  /** Byte i of the payload occupies bits 8i to 8i + 8. */
  lemma {:induction false} FlatAt(p: seq<byte>, i: nat)
    requires i < |p|
    ensures Flat(p)[8 * i..8 * i + 8] == BitsOf(p[i], 8)
  {
    hide BitsOf;
    var q, last := p[..|p| - 1], BitsOf(p[|p| - 1], 8);
    if i < |q| {
      FlatAt(q, i);
      SliceOfPrefix(Flat(q), last, 8 * i, 8 * i + 8);
    } else {
      assert (Flat(q) + last)[8 * i..] == last;
    }
  }

  lemma SliceOfPrefix(s: seq<bool>, t: seq<bool>, a: nat, b: nat)
    requires a <= b <= |s|
    ensures (s + t)[a..b] == s[a..b]
  {
  }

  lemma {:induction false} FlatInjective(p: seq<byte>, q: seq<byte>)
    requires Flat(p) == Flat(q)
    ensures p == q
  {
    PackFlat(p);
    PackFlat(q);
  }

  lemma {:induction false} FlatPack(s: seq<bool>)
    requires |s| % 8 == 0
    ensures Flat(Pack(s)) == s && |Pack(s)| == |s| / 8
  {
    hide BitsOf, ByteValue;
    if |s| > 0 {
      var init, last := s[..|s| - 8], s[|s| - 8..];
      FlatPack(init);
      FlatAppend(Pack(init), ByteValue(last));
      BitsOfByteValue(last);
      assert s == init + last;
    }
  }

  lemma BitsOfByteValue(s: seq<bool>)
    requires |s| == 8
    ensures BitsOf(ByteValue(s), 8) == s
  {
    BitsOfValue(s);
  }
}
