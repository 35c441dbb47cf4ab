/** What rewriting a parameter set keeps, when it keeps it, and that doing it twice changes nothing more. */
module SpsTheorems {
  import opened Wrappers
  import opened Bits
  import opened Emulation
  import opened Syntax
  import opened BitStream
  import opened Sps
  import opened SpsRewriter

  /** The header of a sequence parameter set, as the caller of the rewriter checks it. */
  predicate IsSpsHeader(b: byte) {
    And(b, 0x1f) == 7
  }

  /** Everything that will be written again fits the codes it is written with (section 9.1: ue(v) up to 2^32 - 2). */
  predicate Representable(s: Sps) {
    InRange(Elements(Patch(s)))
  }

  // ---------------------------------------------------------------- the printed bytes, read back

  /** The payload behind the header byte is exactly the elements, the stop bit and the padding. */
  lemma PrintedPayload(h: byte, s: Sps)
    requires h != 0
    ensures |Print(h, s)| > 0 && Print(h, s)[0] == h
    ensures PayloadBits(Print(h, s)[1..]) == Encode(Elements(s)) + ([true] + Padding(PrintedBits(h, s)))
  {
    hide Elements, Padding, Pack, Flat, Escape, Unescape, PrintedBits, BitsOf, EncodeFrom;
    var bits := PrintedBits(h, s);
    var padding := Padding(bits);
    var rest := Encode(Elements(s)) + ([true] + padding);
    assert bits + padding == BitsOf(h, 8) + rest by { PrintedSplit(h, s); }
    PaddedToBytes(bits);
    var p := Pack(bits + padding);
    FlatPack(bits + padding);
    HeaderFirst(h, rest, p);
    EscapeAfterHeader(h, p[1..]);
    assert p == [h] + p[1..];
    assert Print(h, s)[1..] == Escape(p[1..]);
    UnescapeEscape(p[1..]);
  }

  lemma PrintedSplit(h: byte, s: Sps)
    ensures PrintedBits(h, s) + Padding(PrintedBits(h, s))
         == BitsOf(h, 8) + (Encode(Elements(s)) + ([true] + Padding(PrintedBits(h, s))))
  {
    hide Elements, BitsOf, Padding;
    EncodeFromPrefix(BitsOf(h, 8), Elements(s));
    StopBit();
  }

  lemma StopBit()
    ensures BitsOf(1, 1) == [true]
  {
  }

  lemma HeaderFirst(h: byte, rest: seq<bool>, p: seq<byte>)
    requires Flat(p) == BitsOf(h, 8) + rest
    ensures |p| > 0 && p[0] == h && Flat(p[1..]) == rest
  {
    hide BitsOf;
    assert p == p[..1] + p[1..] && p[..1] == [] + [p[0]];
    FlatConcat(p[..1], p[1..]);
    FlatAppend([], p[0]);
    FlatAppend([], h);
    assert Flat([p[0]]) == Flat(p)[..8] == Flat([h]) by { assert [] + [h] == [h]; }
    FlatInjective([p[0]], [h]);
  }

  lemma PatchOk(s: Sps)
    requires SpsOk(s)
    ensures SpsOk(Patch(s)) && Patch(Patch(s)) == Patch(s)
  {
  }

  /** Parsing printed bytes gives the printed fields exactly when all of them are in range. */
  lemma ParsePrinted(h: byte, s: Sps)
    requires h != 0 && SpsOk(s)
    ensures Parse(Print(h, s)) == Some(s) <==> InRange(Elements(s))
  {
    hide GetSps, PutSps, SpsOk, Print, PayloadBits, Padding;
    PrintedPayload(h, s);
    var t := Elements(s);
    var F := PayloadBits(Print(h, s)[1..]);
    assert Encode(t) <= F;
    assert |F| < |Encode(t)| + 65 by { PaddedToBytes(PrintedBits(h, s)); }
    ReadBackIff(F, t);
    SpsReads(F, Empty, s);
    assert Reads(F, Empty) == Some(0);
  }

  // ---------------------------------------------------------------- main results

  lemma ParseOk(nalu: seq<byte>)
    requires Parse(nalu).Some?
    ensures SpsOk(Parse(nalu).value)
  {
    hide SpsOk;
  }

  /**
    The rewritten unit parses as the patched parameter set if and only if every value that is written again
    fits its code.
   */
  lemma RewriteParses(nalu: seq<byte>)
    requires Parse(nalu).Some? && IsSpsHeader(nalu[0])
    ensures Rewritten(nalu).Some?
    ensures Parse(Rewritten(nalu).value) == Some(Patch(Parse(nalu).value)) <==> Representable(Parse(nalu).value)
  {
    hide SpsOk, Print, GetSps;
    ParseOk(nalu);
    var s := Parse(nalu).value;
    PatchOk(s);
    ParsePrinted(nalu[0], Patch(s));
  }

  /** Two VUIs (absent: all blocks absent) that agree on everything but the video signal type and the restriction. */
  ghost predicate SameVui(before: Option<Vui>, after: Vui) {
    match before
    case None =>
      after.picture == PictureInfo(None, None, None, None) && after.timing == None &&
      after.hrd == HrdInfo(None, None, None) && after.picStruct == 0
    case Some(v) =>
      after.picture.aspect == v.picture.aspect && after.picture.overscan == v.picture.overscan &&
      after.picture.chromaLoc == v.picture.chromaLoc && after.timing == v.timing && after.hrd == v.hrd &&
      after.picStruct == v.picStruct
  }

  /** The restriction fields other than the two that are forced: kept where they were, fixed where they were not. */
  ghost predicate SameLimits(before: Option<Restriction>, after: Restriction) {
    match before
    case None =>
      after.vectorsOverBoundaries == 1 && after.maxBytesPerPic == 2 && after.maxBitsPerMb == 1 &&
      after.maxMvHorizontal == 16 && after.maxMvVertical == 16
    case Some(r) =>
      after.vectorsOverBoundaries == r.vectorsOverBoundaries && after.maxBytesPerPic == r.maxBytesPerPic &&
      after.maxBitsPerMb == r.maxBitsPerMb && after.maxMvHorizontal == r.maxMvHorizontal &&
      after.maxMvVertical == r.maxMvVertical
  }

  /** Field by field: what the rewrite changes, and that it changes nothing else. */
  ghost predicate Patched(before: Sps, after: Sps) {
    && after.profile == before.profile && after.spsId == before.spsId && after.chroma == before.chroma
    && after.log2MaxFrameNum == before.log2MaxFrameNum && after.poc == before.poc && after.frame == before.frame
    && after.vui.Some? && SameVui(before.vui, after.vui.value)
    && after.vui.value.picture.signal == None
    && after.vui.value.restriction.Some?
    && after.vui.value.restriction.value.maxNumReorderFrames == 0
    && after.vui.value.restriction.value.maxDecFrameBuffering == before.frame.maxNumRefFrames
    && SameLimits(if before.vui.Some? then before.vui.value.restriction else None, after.vui.value.restriction.value)
  }

  lemma PatchIsPatched(s: Sps)
    ensures Patched(s, Patch(s))
  {
  }

  /** Field by field: what a decoder finds in the rewritten parameter set. */
  lemma MeaningKept(nalu: seq<byte>)
    requires Parse(nalu).Some? && IsSpsHeader(nalu[0]) && Representable(Parse(nalu).value)
    ensures Rewritten(nalu).Some? && Parse(Rewritten(nalu).value).Some?
    ensures Patched(Parse(nalu).value, Parse(Rewritten(nalu).value).value)
  {
    hide Parse, Rewritten, Elements, Patched;
    RewriteParses(nalu);
    PatchIsPatched(Parse(nalu).value);
  }

  /** Rewriting a rewritten unit returns it byte for byte. */
  lemma RewriteIdempotent(nalu: seq<byte>)
    requires Parse(nalu).Some? && IsSpsHeader(nalu[0]) && Representable(Parse(nalu).value)
    ensures Rewritten(nalu).Some?
    ensures Rewritten(Rewritten(nalu).value) == Rewritten(nalu)
  {
    hide GetSps, PutSps, PayloadBits, SpsOk, PatchVui;
    var s := Parse(nalu).value;
    RewriteParses(nalu);
    ParseOk(nalu);
    PatchOk(s);
    PrintedPayload(nalu[0], Patch(s));
  }

  /** The output keeps its header and holds nothing that could be taken for a start code. */
  lemma RewriteIsOneUnit(nalu: seq<byte>)
    requires Rewritten(nalu).Some? && IsSpsHeader(nalu[0])
    ensures |Rewritten(nalu).value| > 0 && Rewritten(nalu).value[0] == nalu[0]
    ensures NoReservedTriple(Rewritten(nalu).value) && EscapesNeeded(Rewritten(nalu).value)
  {
    hide GetSps, PutSps, PayloadBits, PrintedBits, Padding, Patch;
    var s := Patch(Parse(nalu).value);
    PrintedPayload(nalu[0], s);
    PaddedToBytes(PrintedBits(nalu[0], s));
    EscapeIsSafe(Pack(PrintedBits(nalu[0], s) + Padding(PrintedBits(nalu[0], s))));
  }

  /** The output ends in a zero byte exactly when the stop bit filled a byte, so that the flush added another one. */
  lemma TrailingZero(h: byte, s: Sps)
    ensures |Print(h, s)| > 0
    ensures Print(h, s)[|Print(h, s)| - 1] == 0 <==> |PrintedBits(h, s)| % 8 == 0
  {
    hide PutSps, EncodeFrom, Escape;
    var bits := PrintedBits(h, s);
    StopBit();
    assert |bits| > 0 && bits[|bits| - 1] by { EndsInStopBit(h, s); }
    PaddedToBytes(bits);
    LastByte(bits);
    EscapeLast(Pack(bits + Padding(bits)));
  }

  lemma EndsInStopBit(h: byte, s: Sps)
    ensures |PrintedBits(h, s)| > 0 && PrintedBits(h, s)[|PrintedBits(h, s)| - 1]
  {
    hide Elements;
    StopBit();
  }

  lemma EscapeLast(p: seq<byte>)
    requires |p| > 0
    ensures |Escape(p)| > 0 && Escape(p)[|Escape(p)| - 1] == p[|p| - 1]
  {
  }

  lemma LastByte(bits: seq<bool>)
    requires |bits| > 0 && bits[|bits| - 1] && |bits + Padding(bits)| % 8 == 0
    ensures |Pack(bits + Padding(bits))| > 0
    ensures var p := Pack(bits + Padding(bits)); p[|p| - 1] == 0 <==> |bits| % 8 == 0
  {
    hide BitsOf, Pack;
    var s := bits + Padding(bits);
    FlatPack(s);
    var p := Pack(s);
    FlatAt(p, |p| - 1);
    var last := s[|s| - 8..];
    assert BitsOf(p[|p| - 1], 8) == last;
    BitsOfZero(8);
    if |bits| % 8 == 0 {
      assert last == BitsOf(0, 8);
      BitsDetermine(p[|p| - 1], 0);
    } else {
      assert last[|bits| % 8 - 1] == bits[|bits| - 1];
    }
  }

  lemma BitsDetermine(a: byte, b: byte)
    requires BitsOf(a, 8) == BitsOf(b, 8)
    ensures a == b
  {
    hide BitsOf;
    ValueOfBits(a, 8);
    ValueOfBits(b, 8);
    Pow2Values();
    LowOfSmall(a, 8);
    LowOfSmall(b, 8);
  }
}
