/**
  The copying half of rewriteSPSVUI and copyHRDParameters (internal/streamer/h264.go:163-470): every method
  reads one group of fields and writes it again, and is proved to read what GetX reads and to write PutX.
  A read past the end, which panics in Go, is None.
 */
module SpsCopy {
  import opened Wrappers
  import opened Bits
  import opened Syntax
  import opened BitStream
  import opened Sps

  /** The writer holds the bits pre followed by the elements of t. */
  ghost predicate Ready(r: BitReader, w: BitWriter, pre: seq<bool>, t: Trace)
    reads r, w
  {
    r.Valid() && w.Valid() && w.bits == EncodeFrom(pre, t)
  }

  method CopyBits(r: BitReader, w: BitWriter, n: nat, ghost pre: seq<bool>, ghost t: Trace)
      returns (res: Option<uint32>)
    requires Ready(r, w, pre, t)
    modifies r, w
    ensures match res
      case None => GetU(PayloadBits(r.buf), old(r.pos), n) == None
      case Some(v) => GetU(PayloadBits(r.buf), old(r.pos), n) == Some((v, r.pos)) && Ready(r, w, pre, Then(t, U(n, v)))
  {
    hide PayloadBits, GetU, At, Wrote, BitsOf;
    var v :- r.ReadBits(n);
    w.WriteBits(v, n);
    return Some(v);
  }

  /** A present flag: copied, and tested against 0. */
  method CopyFlag(r: BitReader, w: BitWriter, ghost pre: seq<bool>, ghost t: Trace) returns (res: Option<bool>)
    requires Ready(r, w, pre, t)
    modifies r, w
    ensures match res
      case None => GetU(PayloadBits(r.buf), old(r.pos), 1) == None
      case Some(present) =>
        GetU(PayloadBits(r.buf), old(r.pos), 1) == Some((if present then 1 else 0, r.pos)) &&
        Ready(r, w, pre, Then(t, U(1, if present then 1 else 0)))
  {
    hide PayloadBits, GetU, Wrote, BitsOf, EncodeFrom;
    AtBound(r.buf, r.byteOffset, r.bitOffset, r.pos);
    BitOrNone(PayloadBits(r.buf), r.pos);
    var present :- CopyBits(r, w, 1, pre, t);
    return Some(present != 0);
  }

  method CopyUE(r: BitReader, w: BitWriter, ghost pre: seq<bool>, ghost t: Trace) returns (res: Option<int>)
    requires Ready(r, w, pre, t)
    modifies r, w
    ensures match res
      case None => GetUE(PayloadBits(r.buf), old(r.pos)) == None
      case Some(v) => GetUE(PayloadBits(r.buf), old(r.pos)) == Some((v, r.pos)) && Ready(r, w, pre, Then(t, UE(v)))
  {
    hide PayloadBits, GetUE, At, Wrote, EncUE;
    var v :- r.ReadUE();
    w.WriteUE(v);
    return Some(v);
  }

  method CopySE(r: BitReader, w: BitWriter, ghost pre: seq<bool>, ghost t: Trace) returns (res: Option<int>)
    requires Ready(r, w, pre, t)
    modifies r, w
    ensures match res
      case None => GetSE(PayloadBits(r.buf), old(r.pos)) == None
      case Some(v) => GetSE(PayloadBits(r.buf), old(r.pos)) == Some((v, r.pos)) && Ready(r, w, pre, Then(t, SE(v)))
  {
    hide PayloadBits, GetSE, At, Wrote, EncUE;
    var v :- r.ReadSE();
    w.WriteSE(v);
    return Some(v);
  }

  method CopyCpbs(r: BitReader, w: BitWriter, cpbCntMinus1: int, ghost pre: seq<bool>, ghost t: Trace)
    returns (res: Option<()>, ghost cs: seq<Cpb>)
    requires Ready(r, w, pre, t)
    modifies r, w
    ensures var n := Count(cpbCntMinus1 + 1);
      match res
      case None => GetCpbs(PayloadBits(r.buf), old(r.pos), n) == None
      case Some(_) =>
        GetCpbs(PayloadBits(r.buf), old(r.pos), n) == Some((cs, r.pos)) &&
        Ready(r, w, pre, PutCpbs(t, cs))
  {
    hide PayloadBits, GetU, GetUE, EncodeFrom, At, Wrote;
    ghost var F, p := PayloadBits(r.buf), r.pos;
    cs := [];
    var i := 0;
    while i <= cpbCntMinus1
      invariant 0 <= i <= Count(cpbCntMinus1 + 1)
      invariant GetCpbs(F, p, i) == Some((cs, r.pos))
      invariant Ready(r, w, pre, PutCpbs(t, cs))
    {
      ghost var t1 := PutCpbs(t, cs);
      if GetCpb(F, r.pos) == None {
        CpbsFail(F, p, i + 1, Count(cpbCntMinus1 + 1));
      }
      var rate :- CopyUE(r, w, pre, t1);
      var size :- CopyUE(r, w, pre, Then(t1, UE(rate)));
      var cbr :- CopyBits(r, w, 1, pre, Then(Then(t1, UE(rate)), UE(size)));
      ghost var c := Cpb(rate, size, cbr);
      assert (cs + [c])[..i] == cs;
      cs := cs + [c];
      i := i + 1;
    }
    return Some(()), cs;
  }

  method CopyHRDParameters(r: BitReader, w: BitWriter, ghost pre: seq<bool>, ghost t: Trace)
    returns (res: Option<()>, ghost h: Hrd)
    requires Ready(r, w, pre, t)
    modifies r, w
    ensures match res
      case None => GetHrd(PayloadBits(r.buf), old(r.pos)) == None
      case Some(_) => GetHrd(PayloadBits(r.buf), old(r.pos)) == Some((h, r.pos)) && Ready(r, w, pre, PutHrd(t, h))
  {
    hide PayloadBits, GetU, GetUE, GetCpbs, PutCpbs, EncodeFrom, At, Wrote;
    h := *;
    var count :- CopyUE(r, w, pre, t);
    ghost var t1 := Then(t, UE(count));
    var rateScale :- CopyBits(r, w, 4, pre, t1);
    ghost var t2 := Then(t1, U(4, rateScale));
    var sizeScale :- CopyBits(r, w, 4, pre, t2);
    ghost var t3 := Then(t2, U(4, sizeScale));
    var _, cpbs :- CopyCpbs(r, w, count, pre, t3);
    ghost var t4 := PutCpbs(t3, cpbs);
    var a :- CopyBits(r, w, 5, pre, t4);
    ghost var t5 := Then(t4, U(5, a));
    var b :- CopyBits(r, w, 5, pre, t5);
    ghost var t6 := Then(t5, U(5, b));
    var c :- CopyBits(r, w, 5, pre, t6);
    ghost var t7 := Then(t6, U(5, c));
    var d :- CopyBits(r, w, 5, pre, t7);
    h := Hrd(count, rateScale, sizeScale, cpbs, a, b, c, d);
    return Some(()), h;
  }

  // ---------------------------------------------------------------- chroma format and scaling matrices

  /** Go's remainder takes the sign of the dividend. */
  function GoMod(x: int, m: nat): int
    requires m > 0
  {
    if x < 0 then -(-x % m) else x % m
  }

  method CopyScalingList(r: BitReader, w: BitWriter, size: nat, ghost pre: seq<bool>, ghost t: Trace)
    returns (res: Option<()>, ghost deltas: seq<int>)
    requires Ready(r, w, pre, t)
    modifies r, w
    ensures match res
      case None => GetDeltas(PayloadBits(r.buf), old(r.pos), size) == None
      case Some(_) =>
        GetDeltas(PayloadBits(r.buf), old(r.pos), size) == Some((deltas, r.pos)) &&
          Ready(r, w, pre, PutDeltas(t, deltas))
  {
    hide PayloadBits, GetSE, EncodeFrom, At, Wrote;
    ghost var F, p := PayloadBits(r.buf), r.pos;
    deltas := [];
    var lastScale := 8;
    for j := 0 to size
      invariant GetDeltas(F, p, j) == Some((deltas, r.pos))
      invariant Ready(r, w, pre, PutDeltas(t, deltas))
    {
      if GetSE(F, r.pos) == None {
        DeltasFail(F, p, j + 1, size);
      }
      var delta :- CopySE(r, w, pre, PutDeltas(t, deltas));
      assert (deltas + [delta])[..j] == deltas;
      deltas := deltas + [delta];
      // The next scale is tracked, but it decides nothing: every delta is read.
      var nextScale := GoMod(lastScale + delta + 256, 256);
      if nextScale != 0 {
        lastScale := nextScale;
      }
    }
    return Some(()), deltas;
  }

  method CopyScalingLists(r: BitReader, w: BitWriter, count: nat, ghost pre: seq<bool>, ghost t: Trace)
    returns (res: Option<()>, ghost ls: seq<ScalingList>)
    requires Ready(r, w, pre, t)
    modifies r, w
    ensures match res
      case None => GetLists(PayloadBits(r.buf), old(r.pos), count) == None
      case Some(_) =>
        GetLists(PayloadBits(r.buf), old(r.pos), count) == Some((ls, r.pos)) && Ready(r, w, pre, PutLists(t, ls))
  {
    hide PayloadBits, GetU, GetDeltas, PutDeltas, EncodeFrom, At, Wrote;
    ghost var F, p := PayloadBits(r.buf), r.pos;
    ls := [];
    for i := 0 to count
      invariant |ls| == i && GetLists(F, p, i) == Some((ls, r.pos))
      invariant Ready(r, w, pre, PutLists(t, ls))
    {
      ghost var t1 := PutLists(t, ls);
      ghost var l: ScalingList := None;
      if GetList(F, r.pos, i) == None {
        ListsFail(F, p, i + 1, count);
      }
      var present :- CopyFlag(r, w, pre, t1);
      if present {
        var size := 64;
        if i < 6 {
          size := 16;
        }
        var _, deltas :- CopyScalingList(r, w, size, pre, Then(t1, U(1, 1)));
        l := Some(deltas);
      }
      assert (ls + [l])[..i] == ls;
      ls := ls + [l];
    }
    return Some(()), ls;
  }

  method CopyChroma(r: BitReader, w: BitWriter, ghost pre: seq<bool>, ghost t: Trace)
    returns (res: Option<()>, ghost c: ChromaInfo)
    requires Ready(r, w, pre, t)
    modifies r, w
    ensures match res
      case None => GetChroma(PayloadBits(r.buf), old(r.pos)) == None
      case Some(_) => GetChroma(PayloadBits(r.buf), old(r.pos)) == Some((c, r.pos)) && Ready(r, w, pre, PutChroma(t, c))
  {
    hide PayloadBits, GetU, GetUE, GetLists, PutLists, EncodeFrom, At, Wrote;
    c := *;
    var chromaFormatIdc :- CopyUE(r, w, pre, t);
    ghost var t1 := Then(t, UE(chromaFormatIdc));
    ghost var separate: Option<uint32> := None;
    if chromaFormatIdc == 3 {
      var plane :- CopyBits(r, w, 1, pre, t1);
      separate := Some(plane);
    }
    ghost var t2 := PutBitWhen(t1, separate);
    var luma :- CopyUE(r, w, pre, t2);
    ghost var t3 := Then(t2, UE(luma));
    var chroma :- CopyUE(r, w, pre, t3);
    ghost var t4 := Then(t3, UE(chroma));
    var bypass :- CopyBits(r, w, 1, pre, t4);
    ghost var t5 := Then(t4, U(1, bypass));
    var seqScalingMatrixPresent :- CopyFlag(r, w, pre, t5);
    ghost var scaling: Option<seq<ScalingList>> := None;
    if seqScalingMatrixPresent {
      var count := 8;
      if chromaFormatIdc == 3 {
        count := 12;
      }
      var _, ls :- CopyScalingLists(r, w, count, pre, Then(t5, U(1, 1)));
      scaling := Some(ls);
    }
    c := ChromaInfo(chromaFormatIdc, separate, luma, chroma, bypass, scaling);
    return Some(()), c;
  }

  // ---------------------------------------------------------------- picture order count and frame layout

  method CopyCycle(r: BitReader, w: BitWriter, ghost pre: seq<bool>, ghost t: Trace)
    returns (res: Option<()>, ghost c: Cycle)
    requires Ready(r, w, pre, t)
    modifies r, w
    ensures match res
      case None => GetCycle(PayloadBits(r.buf), old(r.pos)) == None
      case Some(_) => GetCycle(PayloadBits(r.buf), old(r.pos)) == Some((c, r.pos)) && Ready(r, w, pre, PutCycle(t, c))
  {
    hide PayloadBits, GetU, GetUE, GetSE, EncodeFrom, At, Wrote;
    c := *;
    var always :- CopyBits(r, w, 1, pre, t);
    ghost var t1 := Then(t, U(1, always));
    var nonRef :- CopySE(r, w, pre, t1);
    ghost var t2 := Then(t1, SE(nonRef));
    var topBottom :- CopySE(r, w, pre, t2);
    ghost var t3 := Then(t2, SE(topBottom));
    var num :- CopyUE(r, w, pre, t3);
    ghost var t4 := Then(t3, UE(num));
    ghost var F, p := PayloadBits(r.buf), r.pos;
    ghost var offsets: seq<int> := [];
    var i := 0;
    while i < num
      invariant 0 <= i <= Count(num)
      invariant GetDeltas(F, p, i) == Some((offsets, r.pos))
      invariant Ready(r, w, pre, PutDeltas(t4, offsets))
    {
      if GetSE(F, r.pos) == None {
        DeltasFail(F, p, i + 1, Count(num));
      }
      var offset :- CopySE(r, w, pre, PutDeltas(t4, offsets));
      assert (offsets + [offset])[..i] == offsets;
      offsets := offsets + [offset];
      i := i + 1;
    }
    c := Cycle(always, nonRef, topBottom, num, offsets);
    return Some(()), c;
  }

  method CopyPoc(r: BitReader, w: BitWriter, ghost pre: seq<bool>, ghost t: Trace)
      returns (res: Option<()>, ghost poc: Poc)
    requires Ready(r, w, pre, t)
    modifies r, w
    ensures match res
      case None => GetPoc(PayloadBits(r.buf), old(r.pos)) == None
      case Some(_) => GetPoc(PayloadBits(r.buf), old(r.pos)) == Some((poc, r.pos)) && Ready(r, w, pre, PutPoc(t, poc))
  {
    hide PayloadBits, GetUE, GetCycle, PutCycle, EncodeFrom, At, Wrote;
    poc := *;
    var picOrderCntType :- CopyUE(r, w, pre, t);
    ghost var t1 := Then(t, UE(picOrderCntType));
    if picOrderCntType == 0 {
      var lsb :- CopyUE(r, w, pre, t1);
      poc := PocLsb(lsb);
    } else if picOrderCntType == 1 {
      var _, cycle :- CopyCycle(r, w, pre, t1);
      poc := PocCycle(cycle);
    } else {
      poc := PocOther(picOrderCntType);
    }
    return Some(()), poc;
  }

  method CopyCrop(r: BitReader, w: BitWriter, ghost pre: seq<bool>, ghost t: Trace)
    returns (res: Option<()>, ghost o: Option<Crop>)
    requires Ready(r, w, pre, t)
    modifies r, w
    ensures match res
      case None => GetOptCrop(PayloadBits(r.buf), old(r.pos)) == None
      case Some(_) =>
        GetOptCrop(PayloadBits(r.buf), old(r.pos)) == Some((o, r.pos)) &&
        Ready(r, w, pre, PutOptCrop(t, o))
  {
    hide PayloadBits, GetU, GetUE, EncodeFrom, At, Wrote;
    o := None;
    var frameCropping :- CopyFlag(r, w, pre, t);
    if frameCropping {
      ghost var t1 := Then(t, U(1, 1));
      var left :- CopyUE(r, w, pre, t1);
      ghost var t2 := Then(t1, UE(left));
      var right :- CopyUE(r, w, pre, t2);
      ghost var t3 := Then(t2, UE(right));
      var top :- CopyUE(r, w, pre, t3);
      var bottom :- CopyUE(r, w, pre, Then(t3, UE(top)));
      o := Some(Crop(left, right, top, bottom));
    }
    return Some(()), o;
  }

  /** Besides copying, hands on the number of reference frames. */
  method CopyFrame(r: BitReader, w: BitWriter, ghost pre: seq<bool>, ghost t: Trace)
    returns (res: Option<int>, ghost f: FrameInfo)
    requires Ready(r, w, pre, t)
    modifies r, w
    ensures match res
      case None => GetFrame(PayloadBits(r.buf), old(r.pos)) == None
      case Some(maxNumRefFrames) =>
        maxNumRefFrames == f.maxNumRefFrames &&
        GetFrame(PayloadBits(r.buf), old(r.pos)) == Some((f, r.pos)) && Ready(r, w, pre, PutFrame(t, f))
  {
    hide PayloadBits, GetU, GetUE, GetOptCrop, PutOptCrop, EncodeFrom, At, Wrote;
    f := *;
    var maxNumRefFrames :- CopyUE(r, w, pre, t);
    ghost var t1 := Then(t, UE(maxNumRefFrames));
    var gaps :- CopyBits(r, w, 1, pre, t1);
    ghost var t2 := Then(t1, U(1, gaps));
    var width :- CopyUE(r, w, pre, t2);
    ghost var t3 := Then(t2, UE(width));
    var height :- CopyUE(r, w, pre, t3);
    ghost var t4 := Then(t3, UE(height));
    var frameMbsOnly :- CopyBits(r, w, 1, pre, t4);
    ghost var t5 := Then(t4, U(1, frameMbsOnly));
    ghost var mbAdaptive: Option<uint32> := None;
    if frameMbsOnly == 0 {
      var bit :- CopyBits(r, w, 1, pre, t5);
      mbAdaptive := Some(bit);
    }
    ghost var t6 := PutBitWhen(t5, mbAdaptive);
    var direct :- CopyBits(r, w, 1, pre, t6);
    ghost var t7 := Then(t6, U(1, direct));
    var _, crop :- CopyCrop(r, w, pre, t7);
    f := FrameInfo(maxNumRefFrames, gaps, width, height, frameMbsOnly, mbAdaptive, direct, crop);
    return Some(maxNumRefFrames), f;
  }

  // ---------------------------------------------------------------- VUI

  method CopyAspect(r: BitReader, w: BitWriter, ghost pre: seq<bool>, ghost t: Trace)
    returns (res: Option<()>, ghost o: Option<Aspect>)
    requires Ready(r, w, pre, t)
    modifies r, w
    ensures match res
      case None => GetOptAspect(PayloadBits(r.buf), old(r.pos)) == None
      case Some(_) =>
        GetOptAspect(PayloadBits(r.buf), old(r.pos)) == Some((o, r.pos)) &&
        Ready(r, w, pre, PutOptAspect(t, o))
  {
    hide PayloadBits, GetU, EncodeFrom, At, Wrote;
    o := None;
    var aspectRatioPresent :- CopyFlag(r, w, pre, t);
    if aspectRatioPresent {
      ghost var t1 := Then(t, U(1, 1));
      var aspectRatioIDC :- CopyBits(r, w, 8, pre, t1);
      ghost var t2 := Then(t1, U(8, aspectRatioIDC));
      ghost var sar: Option<Sar> := None;
      if aspectRatioIDC == 255 {
        var width :- CopyBits(r, w, 16, pre, t2);
        var height :- CopyBits(r, w, 16, pre, Then(t2, U(16, width)));
        sar := Some(Sar(width, height));
      }
      o := Some(Aspect(aspectRatioIDC, sar));
    }
    return Some(()), o;
  }

  method CopyOptBit(r: BitReader, w: BitWriter, ghost pre: seq<bool>, ghost t: Trace)
    returns (res: Option<()>, ghost o: Option<uint32>)
    requires Ready(r, w, pre, t)
    modifies r, w
    ensures match res
      case None => GetOptBit(PayloadBits(r.buf), old(r.pos)) == None
      case Some(_) => GetOptBit(PayloadBits(r.buf), old(r.pos)) == Some((o, r.pos)) && Ready(r, w, pre, PutOptBit(t, o))
  {
    hide PayloadBits, GetU, EncodeFrom, At, Wrote;
    o := None;
    var present :- CopyFlag(r, w, pre, t);
    if present {
      var bit :- CopyBits(r, w, 1, pre, Then(t, U(1, 1)));
      o := Some(bit);
    }
    return Some(()), o;
  }

  /** The video signal type is read, and written as absent. */
  method DropSignal(r: BitReader, w: BitWriter, ghost pre: seq<bool>, ghost t: Trace)
    returns (res: Option<()>, ghost o: Option<VideoSignal>)
    requires Ready(r, w, pre, t)
    modifies r, w
    ensures match res
      case None => GetOptSignal(PayloadBits(r.buf), old(r.pos)) == None
      case Some(_) =>
        GetOptSignal(PayloadBits(r.buf), old(r.pos)) == Some((o, r.pos)) &&
        Ready(r, w, pre, PutOptSignal(t, None))
  {
    hide PayloadBits, GetU, EncodeFrom, At, Wrote, BitsOf;
    o := None;
    ghost var F := PayloadBits(r.buf);
    var videoSignalTypePresent :- r.ReadBits(1);
    w.WriteBits(0, 1);
    assert EncodeFrom(pre, Then(t, U(1, 0))) == EncodeFrom(pre, t) + BitsOf(0, 1) by { EncodeThen(pre, t, U(1, 0)); }
    if videoSignalTypePresent != 0 {
      var format :- r.ReadBits(3);
      var fullRange :- r.ReadBits(1);
      ghost var colour: Option<Colour> := None;
      var colourDescriptionPresent :- r.ReadBits(1);
      if colourDescriptionPresent != 0 {
        var primaries :- r.ReadBits(8);
        var transfer :- r.ReadBits(8);
        var matrix :- r.ReadBits(8);
        colour := Some(Colour(primaries, transfer, matrix));
      }
      o := Some(VideoSignal(format, fullRange, colour));
    }
    return Some(()), o;
  }

  lemma EncodeThen(pre: seq<bool>, t: Trace, e: Elem)
    ensures EncodeFrom(pre, Then(t, e)) == EncodeFrom(pre, t) + Encode1(e)
  {
  }

  method CopyChromaLoc(r: BitReader, w: BitWriter, ghost pre: seq<bool>, ghost t: Trace)
    returns (res: Option<()>, ghost o: Option<ChromaLoc>)
    requires Ready(r, w, pre, t)
    modifies r, w
    ensures match res
      case None => GetOptChromaLoc(PayloadBits(r.buf), old(r.pos)) == None
      case Some(_) =>
        GetOptChromaLoc(PayloadBits(r.buf), old(r.pos)) == Some((o, r.pos)) && Ready(r, w, pre, PutOptChromaLoc(t, o))
  {
    hide PayloadBits, GetU, GetUE, EncodeFrom, At, Wrote;
    o := None;
    var chromaLocPresent :- CopyFlag(r, w, pre, t);
    if chromaLocPresent {
      ghost var t1 := Then(t, U(1, 1));
      var top :- CopyUE(r, w, pre, t1);
      var bottom :- CopyUE(r, w, pre, Then(t1, UE(top)));
      o := Some(ChromaLoc(top, bottom));
    }
    return Some(()), o;
  }

  method CopyPicture(r: BitReader, w: BitWriter, ghost pre: seq<bool>, ghost t: Trace)
    returns (res: Option<()>, ghost i: PictureInfo)
    requires Ready(r, w, pre, t)
    modifies r, w
    ensures match res
      case None => GetPicture(PayloadBits(r.buf), old(r.pos)) == None
      case Some(_) =>
        GetPicture(PayloadBits(r.buf), old(r.pos)) == Some((i, r.pos)) &&
        Ready(r, w, pre, PutPicture(t, i.(signal := None)))
  {
    hide PayloadBits, GetOptAspect, PutOptAspect, GetOptBit, PutOptBit, GetOptSignal, PutOptSignal, GetOptChromaLoc,
         PutOptChromaLoc, EncodeFrom, At, Wrote;
    i := *;
    var _, aspect :- CopyAspect(r, w, pre, t);
    ghost var t1 := PutOptAspect(t, aspect);
    var _, overscan :- CopyOptBit(r, w, pre, t1);
    ghost var t2 := PutOptBit(t1, overscan);
    var _, signal :- DropSignal(r, w, pre, t2);
    ghost var t3 := PutOptSignal(t2, None);
    var _, chromaLoc :- CopyChromaLoc(r, w, pre, t3);
    i := PictureInfo(aspect, overscan, signal, chromaLoc);
    return Some(()), i;
  }

  method CopyTiming(r: BitReader, w: BitWriter, ghost pre: seq<bool>, ghost t: Trace)
    returns (res: Option<()>, ghost o: Option<Timing>)
    requires Ready(r, w, pre, t)
    modifies r, w
    ensures match res
      case None => GetOptTiming(PayloadBits(r.buf), old(r.pos)) == None
      case Some(_) =>
        GetOptTiming(PayloadBits(r.buf), old(r.pos)) == Some((o, r.pos)) &&
        Ready(r, w, pre, PutOptTiming(t, o))
  {
    hide PayloadBits, GetU, EncodeFrom, At, Wrote;
    o := None;
    var timingInfoPresent :- CopyFlag(r, w, pre, t);
    if timingInfoPresent {
      ghost var t1 := Then(t, U(1, 1));
      var units :- CopyBits(r, w, 32, pre, t1);
      ghost var t2 := Then(t1, U(32, units));
      var scale :- CopyBits(r, w, 32, pre, t2);
      var fixed :- CopyBits(r, w, 1, pre, Then(t2, U(32, scale)));
      o := Some(Timing(units, scale, fixed));
    }
    return Some(()), o;
  }

  method CopyOptHrd(r: BitReader, w: BitWriter, ghost pre: seq<bool>, ghost t: Trace)
    returns (res: Option<bool>, ghost o: Option<Hrd>)
    requires Ready(r, w, pre, t)
    modifies r, w
    ensures match res
      case None => GetOptHrd(PayloadBits(r.buf), old(r.pos)) == None
      case Some(present) =>
        present == o.Some? &&
        GetOptHrd(PayloadBits(r.buf), old(r.pos)) == Some((o, r.pos)) && Ready(r, w, pre, PutOptHrd(t, o))
  {
    hide PayloadBits, GetU, GetHrd, PutHrd, EncodeFrom, At, Wrote;
    o := None;
    var present :- CopyFlag(r, w, pre, t);
    if present {
      var _, h :- CopyHRDParameters(r, w, pre, Then(t, U(1, 1)));
      o := Some(h);
    }
    return Some(present), o;
  }

  method CopyHrds(r: BitReader, w: BitWriter, ghost pre: seq<bool>, ghost t: Trace)
    returns (res: Option<()>, ghost h: HrdInfo)
    requires Ready(r, w, pre, t)
    modifies r, w
    ensures match res
      case None => GetHrds(PayloadBits(r.buf), old(r.pos)) == None
      case Some(_) => GetHrds(PayloadBits(r.buf), old(r.pos)) == Some((h, r.pos)) && Ready(r, w, pre, PutHrds(t, h))
  {
    hide PayloadBits, GetU, GetOptHrd, PutOptHrd, EncodeFrom, At, Wrote;
    h := *;
    var nalHRDPresent, nal :- CopyOptHrd(r, w, pre, t);
    ghost var t1 := PutOptHrd(t, nal);
    var vclHRDPresent, vcl :- CopyOptHrd(r, w, pre, t1);
    ghost var t2 := PutOptHrd(t1, vcl);
    ghost var lowDelay: Option<uint32> := None;
    if nalHRDPresent || vclHRDPresent {
      var bit :- CopyBits(r, w, 1, pre, t2);
      lowDelay := Some(bit);
    }
    h := HrdInfo(nal, vcl, lowDelay);
    return Some(()), h;
  }
}
