/**
  The bit reader over an escaped buffer and the bit writer that escapes as it flushes
  (internal/streamer/h264_bitstream.go), proved against the functions of Syntax and Emulation.
 */
module BitStream {
  import opened Wrappers
  import opened Bits
  import opened Emulation
  import opened Syntax

  /** The bits a reader over buf delivers. */
  function PayloadBits(buf: seq<byte>): seq<bool> {
    Flat(Unescape(buf))
  }

  /** An unescaped byte of the buffer stands at its place in the payload. */
  lemma PayloadByte(buf: seq<byte>, i: nat, o: nat, k: nat)
    requires i < |buf| && Kept(buf, i) && o + k <= 8
    ensures var p := 8 * |UnescapeTo(buf, i)| + o;
      p + k <= |PayloadBits(buf)| && PayloadBits(buf)[p..p + k] == BitsOf(Shr(buf[i], 8 - o - k), k)
  {
    hide BitsOf, Shr, Flat;
    var j := |UnescapeTo(buf, i)|;
    var payload := Unescape(buf);
    UnescapeGrows(buf, i + 1, |buf|);
    assert UnescapeTo(buf, i + 1)[j] == buf[i];
    FlatAt(payload, j);
    BitsOfSlice(buf[i], 8, o, k);
    SliceOfSlice(Flat(payload), 8 * j, 8, o, k);
  }

  lemma SliceOfSlice(s: seq<bool>, a: nat, n: nat, o: nat, k: nat)
    requires a + n <= |s| && o + k <= n
    ensures s[a..a + n][o..o + k] == s[a + o..a + o + k]
  {
    var x, y := s[a..a + n][o..o + k], s[a + o..a + o + k];
    forall i | 0 <= i < |x| ensures x[i] == y[i] {
    }
  }

  /** The reader stands bitOffset bits into byte byteOffset, which is bit pos of the payload. */
  ghost predicate At(buf: seq<byte>, byteOffset: nat, bitOffset: nat, pos: nat) {
    && byteOffset <= |buf|
    && bitOffset < 8
    && (bitOffset > 0 ==> byteOffset < |buf| && Kept(buf, byteOffset))
    && pos == 8 * |UnescapeTo(buf, byteOffset)| + bitOffset
  }

  lemma AtBound(buf: seq<byte>, byteOffset: nat, bitOffset: nat, pos: nat)
    requires At(buf, byteOffset, bitOffset, pos)
    ensures pos <= |PayloadBits(buf)|
  {
    UnescapeGrows(buf, byteOffset, |buf|);
    if bitOffset > 0 {
      UnescapeGrows(buf, byteOffset + 1, |buf|);
    }
  }

  /** The accumulator of a read that began at bit start and has reached bit p. */
  ghost function ReadSoFar(buf: seq<byte>, start: nat, p: nat): uint32
    requires start <= p <= |PayloadBits(buf)|
  {
    Low32(Value(PayloadBits(buf)[start..p]))
  }

  lemma ReadNothing(buf: seq<byte>, start: nat)
    requires start <= |PayloadBits(buf)|
    ensures ReadSoFar(buf, start, start) == 0
  {
    Low32OfSmall(0);
  }

  lemma ReadAll(buf: seq<byte>, start: nat, p: nat)
    requires start <= p <= |PayloadBits(buf)|
    ensures GetU(PayloadBits(buf), start, p - start) == Some((ReadSoFar(buf, start, p), p))
  {
  }

  /** One turn of the reading loop: k bits of a kept byte join the accumulator and the reader moves on. */
  lemma ReadChunk(buf: seq<byte>, i: nat, o: nat, k: nat, start: nat, p: nat, acc: uint32)
    requires i < |buf| && Kept(buf, i) && At(buf, i, o, p) && 0 < k && o + k <= 8 && start <= p <= |PayloadBits(buf)|
    requires acc == ReadSoFar(buf, start, p)
    ensures p + k <= |PayloadBits(buf)|
    ensures Or(Shl32(acc, k), And(Shr(buf[i], 8 - o - k), Pow2(k) - 1)) < TWO32
    ensures Or(Shl32(acc, k), And(Shr(buf[i], 8 - o - k), Pow2(k) - 1)) == ReadSoFar(buf, start, p + k)
    ensures if o + k < 8 then At(buf, i, o + k, p + k) else At(buf, i + 1, 0, p + k)
  {
    PayloadByte(buf, i, o, k);
    AppendChunk(PayloadBits(buf), start, p, k, acc, Shr(buf[i], 8 - o - k));
    MaskIsLow(Shr(buf[i], 8 - o - k), k);
  }

  /** The same for a whole byte, which needs no mask. */
  lemma ReadWholeByte(buf: seq<byte>, i: nat, start: nat, p: nat, acc: uint32, k: nat)
    requires i < |buf| && Kept(buf, i) && At(buf, i, 0, p) && k == 8 && start <= p <= |PayloadBits(buf)|
    requires acc == ReadSoFar(buf, start, p)
    ensures p + k <= |PayloadBits(buf)|
    ensures Or(Shl32(acc, k), buf[i]) < TWO32
    ensures Or(Shl32(acc, k), buf[i]) == ReadSoFar(buf, start, p + k)
    ensures At(buf, i + 1, 0, p + k)
  {
    ReadChunk(buf, i, 0, k, start, p, acc);
    WholeByte(buf[i], k);
  }

  lemma WholeByte(b: byte, k: nat)
    requires k == 8
    ensures And(Shr(b, 8 - k), Pow2(k) - 1) == b
  {
    hide And, Low;
    MaskIsLow(b, k);
    Pow2Values();
    LowOfSmall(b, k);
  }

  class BitReader {
    const buf: seq<byte>
    var byteOffset: nat
    var bitOffset: nat
    ghost var pos: nat  // position in the payload bits

    ghost predicate Valid()
      reads this
    {
      At(buf, byteOffset, bitOffset, pos)
    }

    constructor (buf: seq<byte>)
      ensures Valid() && pos == 0 && this.buf == buf
    {
      this.buf := buf;
      byteOffset, bitOffset, pos := 0, 0, 0;
    }

    /** Skip a guard byte that stands at a byte boundary. Fails where Go's index would be out of range. */
    method SkipGuard() returns (inRange: bool)
      requires Valid()
      modifies this
      ensures Valid() && pos == old(pos)
      ensures inRange ==> byteOffset < |buf| && Kept(buf, byteOffset) && bitOffset == old(bitOffset)
      ensures !inRange ==> pos == |PayloadBits(buf)|
    {
      if byteOffset >= |buf| {
        return false;
      }
      if bitOffset == 0 && byteOffset >= 2 &&
         buf[byteOffset - 2] == 0 && buf[byteOffset - 1] == 0 && buf[byteOffset] == 3 {
        byteOffset := byteOffset + 1;
      }
      inRange := byteOffset < |buf|;
    }

    /** A whole byte is shifted into the accumulator. */
    method TakeByte(acc: uint32, ghost start: nat) returns (next: uint32)
      requires Valid() && start <= pos <= |PayloadBits(buf)| && acc == ReadSoFar(buf, start, pos)
      requires byteOffset < |buf| && Kept(buf, byteOffset) && bitOffset == 0
      modifies this
      ensures Valid() && pos == old(pos) + 8 <= |PayloadBits(buf)|
      ensures next == ReadSoFar(buf, start, pos)
    {
      hide PayloadBits, ReadSoFar, Or, Shl32;
      ReadWholeByte(buf, byteOffset, start, pos, acc, 8);
      next := Or(Shl32(acc, 8), buf[byteOffset]);
      byteOffset := byteOffset + 1;
      pos := pos + 8;
    }

    /** Up to count bits, but no more than the current byte still has, are shifted into the accumulator. */
    method TakePart(count: nat, acc: uint32, ghost start: nat) returns (numBits: nat, next: uint32)
      requires Valid() && count > 0 && start <= pos <= |PayloadBits(buf)| && acc == ReadSoFar(buf, start, pos)
      requires byteOffset < |buf| && Kept(buf, byteOffset)
      modifies this
      ensures Valid() && 0 < numBits <= count && pos == old(pos) + numBits <= |PayloadBits(buf)|
      ensures next == ReadSoFar(buf, start, pos)
    {
      hide PayloadBits, ReadSoFar, Or, And, Shr, Shl32, Pow2, UnescapeTo;
      numBits := count;
      var room := 8 - bitOffset;
      if room < numBits {
        numBits := room;
      }
      ReadChunk(buf, byteOffset, bitOffset, numBits, start, pos, acc);
      var mask := Pow2(numBits) - 1;
      var newBits := And(Shr(buf[byteOffset], 8 - bitOffset - numBits), mask);
      next := Or(Shl32(acc, numBits), newBits);
      bitOffset := bitOffset + numBits;
      if bitOffset == 8 {
        bitOffset := 0;
        byteOffset := byteOffset + 1;
      }
      pos := pos + numBits;
    }

    method ReadBits(width: nat) returns (r: Option<uint32>)
      requires Valid()
      modifies this
      ensures Valid()
      ensures match r
        case Some(v) => GetU(PayloadBits(buf), old(pos), width) == Some((v, pos))
        case None => GetU(PayloadBits(buf), old(pos), width) == None
    {
      hide PayloadBits, ReadSoFar, Value, UnescapeTo;
      ghost var start := pos;
      AtBound(buf, byteOffset, bitOffset, pos);
      ReadNothing(buf, start);
      var count := width;
      var result: uint32 := 0;
      while count > 0
        invariant Valid() && 0 <= count <= width && pos == start + (width - count)
        invariant pos <= |PayloadBits(buf)|
        invariant result == ReadSoFar(buf, start, pos)
      {
        var inRange := SkipGuard();
        if !inRange {
          return None;
        }
        if bitOffset == 0 && count >= 8 {
          result := TakeByte(result, start);
          count := count - 8;
        } else {
          var numBits;
          numBits, result := TakePart(count, result, start);
          count := count - numBits;
        }
      }
      ReadAll(buf, start, pos);
      return Some(result);
    }

    method ReadUE() returns (r: Option<int>)
      requires Valid()
      modifies this
      ensures Valid()
      ensures match r
        case Some(v) => GetUE(PayloadBits(buf), old(pos)) == Some((v, pos))
        case None => GetUE(PayloadBits(buf), old(pos)) == None
    {
      hide PayloadBits, At, GetU, UEValue;
      ghost var F := PayloadBits(buf);
      ghost var start := pos;
      AtBound(buf, byteOffset, bitOffset, pos);
      BitOrNone(F, start);
      var leading := 0;
      var bit :- ReadBits(1);
      while bit == 0
        invariant Valid() && pos == start + leading + 1 && pos <= |F|
        invariant bit == (if F[pos - 1] then 1 else 0)
        invariant Zeros(F, start) == leading + Zeros(F, start + leading)
        decreases |F| - pos
      {
        leading := leading + 1;
        BitOrNone(F, pos);
        bit :- ReadBits(1);
      }
      assert Zeros(F, start) == leading;
      var suffix :- ReadBits(leading);
      return Some(UEValue(leading, suffix));
    }

    method ReadSE() returns (r: Option<int>)
      requires Valid()
      modifies this
      ensures Valid()
      ensures match r
        case Some(v) => GetSE(PayloadBits(buf), old(pos)) == Some((v, pos))
        case None => GetSE(PayloadBits(buf), old(pos)) == None
    {
      hide GetUE, Int64, PayloadBits, At;
      var unsigned :- ReadUE();
      if unsigned % 2 == 0 {
        return Some(Int64(-unsigned) / 2);
      }
      return Some(Int64(unsigned + 1) / 2);
    }
  }

  /** Shifting a chunk of k bits into the accumulator extends the value read by these bits. */
  lemma AppendChunk(F: seq<bool>, start: nat, p: nat, k: nat, acc: uint32, chunk: nat)
    requires start <= p && p + k <= |F| && k <= 8
    requires acc == Low32(Value(F[start..p]))
    requires F[p..p + k] == BitsOf(chunk, k)
    ensures Or(Shl32(acc, k), Low(chunk, k)) == Low32(Value(F[start..p + k]))
  {
    hide Value, BitsOf, Or, Shl;
    ValueOfBits(chunk, k);
    assert F[start..p + k] == F[start..p] + F[p..p + k];
    ValueConcat(F[start..p], F[p..p + k]);
    MergeIntoWord(Value(F[start..p]), 32, k, 32, Low(chunk, k));
  }

  // ---------------------------------------------------------------- writing

  /** What a writer has put out so far: whole payload bytes, and the high off bits of the pending byte. */
  ghost predicate Wrote(arr: seq<byte>, payload: seq<byte>, pending: byte, off: nat, bits: seq<bool>) {
    && arr == Escape(payload)
    && off < 8
    && Low(pending, 8 - off) == 0
    && bits == Flat(payload) + BitsOf(Shr(pending, 8 - off), off)
  }

  /** The zero bits that fill the last byte; a bit string that ends at a byte gets a whole zero byte. */
  function Padding(bits: seq<bool>): seq<bool> {
    BitsOf(0, 8 - |bits| % 8)
  }

  lemma NothingWrote()
    ensures Wrote([], [], 0, 0, [])
  {
    LowOfSmall(0, 8);
  }

  /** A full pending byte joins the payload. */
  lemma WroteByte(payload: seq<byte>, b: byte)
    ensures Wrote(Escape(payload + [b]), payload + [b], 0, 0, Flat(payload) + BitsOf(b, 8))
  {
    hide BitsOf, Low, Escape;
    LowOfSmall(0, 8);
    FlatAppend(payload, b);
    NoBits(Flat(payload + [b]), Shr(0, 8));
  }

  class BitWriter {
    var arr: seq<byte>
    var pendingByte: byte
    var bitOffset: nat
    ghost var payload: seq<byte>
    ghost var bits: seq<bool>  // everything written so far

    ghost predicate Valid()
      reads this
    {
      bitOffset < 8 && Wrote(arr, payload, pendingByte, bitOffset, bits)
    }

    constructor ()
      ensures Valid() && bits == []
    {
      hide Wrote;
      NothingWrote();
      arr, pendingByte, bitOffset := [], 0, 0;
      payload, bits := [], [];
    }

    /** Put the pending byte out whole, behind a guard byte where one is needed. */
    method Emit()
      requires arr == Escape(payload)
      modifies this
      ensures Valid() && bitOffset == 0 && payload == old(payload) + [old(pendingByte)]
      ensures bits == Flat(old(payload)) + BitsOf(old(pendingByte), 8)
    {
      hide Flat, BitsOf, Wrote;
      assert (payload + [pendingByte])[..|payload|] == payload;
      if pendingByte <= 3 && |arr| >= 2 && arr[|arr| - 1] == 0 && arr[|arr| - 2] == 0 {
        arr := arr + [3];
      }
      arr := arr + [pendingByte];
      assert arr == Escape(payload + [pendingByte])
        by { assert (old(arr) + [3]) + [pendingByte] == old(arr) + [3, pendingByte]; }
      WroteByte(payload, pendingByte);
      bits := Flat(payload) + BitsOf(pendingByte, 8);
      payload := payload + [pendingByte];
      pendingByte := 0;
      bitOffset := 0;
    }

    /** A whole byte of the value, at a byte boundary. */
    method PutByte(chunk: byte)
      requires Valid() && bitOffset == 0
      modifies this
      ensures Valid() && bitOffset == 0 && bits == old(bits) + BitsOf(chunk, 8)
    {
      AtBoundary(arr, payload, pendingByte, bits);
      pendingByte := chunk;
      Emit();
    }

    /** The pending byte gets its next k bits, given as the merged byte, and is flushed once it is full. */
    method SetPending(merged: byte, k: nat, ghost chunk: seq<bool>)
      requires Valid() && 0 < k && bitOffset + k <= 8 && |chunk| == k
      requires Low(merged, 8 - bitOffset - k) == 0
      requires BitsOf(Shr(merged, 8 - bitOffset - k), bitOffset + k) ==
        BitsOf(Shr(pendingByte, 8 - bitOffset), bitOffset) + chunk
      modifies this
      ensures Valid() && bits == old(bits) + chunk
    {
      hide BitsOf, Shr, Low, Escape, Flat;
      Associate(Flat(payload), BitsOf(Shr(pendingByte, 8 - bitOffset), bitOffset), chunk);
      ShrNone(merged);
      pendingByte := merged;
      bitOffset := bitOffset + k;
      bits := bits + chunk;
      if bitOffset == 8 {
        bitOffset := 0;
        Emit();
      }
    }

    /** The numBits bits of value above its low count - numBits join the pending byte. */
    method WritePart(value: uint32, count: nat, numBits: nat)
      requires Valid() && 0 < numBits <= count && bitOffset + numBits <= 8
      modifies this
      ensures Valid() && bits == old(bits) + BitsOf(Shr(value, count - numBits), numBits)
    {
      hide BitsOf, And, Or, Shr, Shl32, Pow2, Escape, Flat;
      var toWrite := And(Shr(value, count - numBits), Pow2(numBits) - 1);
      ChunkOf(Shr(value, count - numBits), numBits);
      MergeChunk(pendingByte, bitOffset, toWrite, numBits);
      var merged := Or(pendingByte, Shl32(toWrite, 8 - bitOffset - numBits) % 256);
      SetPending(merged, numBits, BitsOf(toWrite, numBits));
    }

    method WriteBits(value: uint32, width: int)
      requires Valid()
      modifies this
      ensures Valid()
      ensures bits == old(bits) + BitsOf(value, if width < 0 then 0 else width)
    {
      hide BitsOf, Shr, Wrote, And, Low, Escape, Flat;
      if width <= 0 {
        NoBits(bits, value);
        return;
      }
      var count := width;
      NoBits(bits, Shr(value, width));
      ShrNone(value);
      while count > 0
        invariant Valid() && 0 <= count <= width
        invariant bits == old(bits) + BitsOf(Shr(value, count), width - count)
      {
        ghost var was, before := count, bits;
        if bitOffset == 0 && count >= 8 {
          ByteMask(Shr(value, count - 8));
          PutByte(And(Shr(value, count - 8), 255));
          count := count - 8;
        } else if bitOffset == 0 {
          WritePart(value, count, count);
          count := 0;
        } else {
          var numBits := 8 - bitOffset;
          if count < numBits {
            numBits := count;
          }
          WritePart(value, count, numBits);
          count := count - numBits;
        }
        NextChunk(value, width, was, was - count, old(bits));
      }
    }

    method WriteUE(value: int)
      requires Valid()
      modifies this
      ensures Valid() && bits == old(bits) + EncUE(value)
    {
      hide BitsOf, BitLen, Wrote;
      var word := UEWord(value);
      var bitCount: int := BitLen(word);
      WriteBits(0, bitCount - 1);
      WriteBits(word, bitCount);
      Code(old(bits), word, bitCount);
    }

    method WriteSE(value: int)
      requires Valid()
      modifies this
      ensures Valid() && bits == old(bits) + EncUE(SECode(value))
    {
      hide EncUE, Int64, Wrote;
      if value <= 0 {
        WriteUE(Int64(-2 * value));
      } else {
        WriteUE(Int64(2 * value - 1));
      }
    }

    method Flush()
      requires Valid()
      modifies this
      ensures Valid() && bitOffset == 0
      ensures bits == old(bits) + Padding(old(bits)) && bits == Flat(payload)
    {
      hide BitsOf, Shr, Low, Escape, Flat;
      PendingPadded(pendingByte, bitOffset);
      Associate(Flat(payload), BitsOf(Shr(pendingByte, 8 - bitOffset), bitOffset), Padding(bits));
      Emit();
      AtBoundary(arr, payload, pendingByte, bits);
    }
  }

  lemma AtBoundary(arr: seq<byte>, payload: seq<byte>, pending: byte, bits: seq<bool>)
    requires Wrote(arr, payload, pending, 0, bits)
    ensures bits == Flat(payload)
  {
    NoBits(Flat(payload), Shr(pending, 8));
  }

  lemma ShrNone(v: nat)
    ensures Shr(v, 0) == v
  {
  }

  /** Leading zeros and a word, written one after the other, are one code; an empty word writes nothing. */
  lemma Code(before: seq<bool>, word: nat, n: nat)
    ensures (before + BitsOf(0, if n - 1 < 0 then 0 else n - 1)) + BitsOf(word, n)
         == before + (if n == 0 then [] else BitsOf(0, n - 1) + BitsOf(word, n))
  {
  }

  lemma PendingPadded(pending: byte, off: nat)
    requires off < 8 && Low(pending, 8 - off) == 0
    ensures BitsOf(pending, 8) == BitsOf(Shr(pending, 8 - off), off) + BitsOf(0, 8 - off)
  {
    BitsOfConcat(pending, off, 8 - off);
    BitsOfLow(pending, 8 - off);
  }

  lemma NoBits(s: seq<bool>, v: nat)
    ensures s == s + BitsOf(v, 0)
  {
  }

  /** The bits written before a chunk, followed by the chunk, are the bits written after it. */
  lemma NextChunk(v: nat, n: nat, count: nat, k: nat, before: seq<bool>)
    requires k <= count <= n
    ensures (before + BitsOf(Shr(v, count), n - count)) + BitsOf(Shr(v, count - k), k)
         == before + BitsOf(Shr(v, count - k), n - (count - k))
  {
    hide BitsOf, Shr;
    ShrShr(v, count - k, k);
    BitsOfConcat(Shr(v, count - k), n - count, k);
    Associate(before, BitsOf(Shr(v, count), n - count), BitsOf(Shr(v, count - k), k));
  }

  lemma Associate(a: seq<bool>, b: seq<bool>, c: seq<bool>)
    ensures (a + b) + c == a + (b + c)
  {
  }

  lemma ByteMask(x: nat)
    ensures And(x, 255) < 256 && BitsOf(And(x, 255), 8) == BitsOf(x, 8)
  {
    var k: nat :| k == 8;
    Pow2Values();
    ChunkOf(x, k);
  }

  lemma ChunkOf(x: nat, k: nat)
    ensures And(x, Pow2(k) - 1) < Pow2(k) && BitsOf(And(x, Pow2(k) - 1), k) == BitsOf(x, k)
  {
    MaskIsLow(x, k);
    BitsOfLow(x, k);
  }

  /** Or-ing a chunk below the bits already pending appends it to them. */
  lemma MergeChunk(pending: byte, off: nat, chunk: nat, k: nat)
    requires 0 < k && off + k <= 8 && Low(pending, 8 - off) == 0 && chunk < Pow2(k)
    ensures var merged := Or(pending, Shl32(chunk, 8 - off - k) % 256);
      merged < 256 && Low(merged, 8 - off - k) == 0 &&
      BitsOf(Shr(merged, 8 - off - k), off + k) == BitsOf(Shr(pending, 8 - off), off) + BitsOf(chunk, k)
  {
    hide BitsOf, Or, Shr, Low;
    var l := 8 - off - k;
    var shifted := Shl(chunk, l);
    assert shifted < 256 && Shl32(chunk, l) % 256 == shifted by {
      ShlBound(chunk, k, l);
      Pow2Monotone(k + l, 8);
      Pow2Values();
      Low32OfSmall(shifted);
    }
    var merged := Or(pending, shifted);
    assert merged < 256 by { Pow2Values(); OrBound(pending, shifted, 8); }
    LowOfShr(pending, l, k);
    OrHigh(pending, chunk, l);
    var a := Shr(pending, l);
    OrLow(a, chunk, k);
    BitsOfConcat(Or(a, chunk), off, k);
    ShrShr(pending, l, k);
  }

  // ---------------------------------------------------------------- writer and reader together

  /** A flushed writer's bytes, given to a reader, deliver the bits written, whatever guard bytes lie between. */
  lemma ReaderSeesWriter(w: BitWriter)
    requires w.Valid() && w.bitOffset == 0
    ensures PayloadBits(w.arr) == w.bits
  {
    hide Flat, Escape, BitsOf, Shr, Low;
    UnescapeEscape(w.payload);
    AtBoundary(w.arr, w.payload, w.pendingByte, w.bits);
  }

  /** The bytes of a writer that wrote the elements of t and was flushed. */
  function WrittenBytes(t: Trace): seq<byte> {
    PaddedToBytes(Encode(t));
    Escape(Pack(Encode(t) + Padding(Encode(t))))
  }

  lemma PaddedToBytes(bits: seq<bool>)
    ensures |bits + Padding(bits)| % 8 == 0 && 1 <= |Padding(bits)| <= 8
  {
  }

  /** Write any elements, flush, read them back: all values return if and only if all are in range. */
  lemma WrittenIsReadBack(t: Trace)
    ensures Reads(PayloadBits(WrittenBytes(t)), t).Some? <==> InRange(t)
    ensures NoReservedTriple(WrittenBytes(t)) && EscapesNeeded(WrittenBytes(t))
  {
    hide Encode, Padding, Reads, InRange, Pack, Flat, Escape, Unescape;
    var F := Encode(t) + Padding(Encode(t));
    PaddedToBytes(Encode(t));
    FlatPack(F);
    UnescapeEscape(Pack(F));
    EscapeIsSafe(Pack(F));
    ReadBackIff(F, t);
  }
}
