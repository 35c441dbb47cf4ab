/**
  rewriteSPSVUI (internal/streamer/h264.go:151-448): a parameter set is parsed, its VUI is patched so that
  decoders need no reordering, and the result is printed again.
 */
module SpsRewriter {
  import opened Wrappers
  import opened Bits
  import opened Emulation
  import opened Syntax
  import opened BitStream
  import opened Sps
  import opened SpsCopy

  // ---------------------------------------------------------------- what the rewriter does to the fields

  function DefaultRestriction(maxNumRefFrames: int): Restriction {
    Restriction(1, 2, 1, 16, 16, 0, maxNumRefFrames)
  }

  function PatchRestriction(o: Option<Restriction>, maxNumRefFrames: int): Option<Restriction> {
    match o
    case None => Some(DefaultRestriction(maxNumRefFrames))
    case Some(r) => Some(r.(maxNumReorderFrames := 0, maxDecFrameBuffering := maxNumRefFrames))
  }

  function PatchVui(o: Option<Vui>, maxNumRefFrames: int): Vui {
    match o
    case None =>
      Vui(PictureInfo(None, None, None, None), None, HrdInfo(None, None, None), 0,
        PatchRestriction(None, maxNumRefFrames))
    case Some(v) =>
      v.(picture := v.picture.(signal := None), restriction := PatchRestriction(v.restriction, maxNumRefFrames))
  }

  /** No video signal type, no reordering, and no more buffered than referenced frames; all else as it was. */
  function Patch(s: Sps): Sps {
    s.(vui := Some(PatchVui(s.vui, s.frame.maxNumRefFrames)))
  }

  /** The parameter set that a NAL unit carries behind its header byte. */
  function Parse(nalu: seq<byte>): Option<Sps> {
    if |nalu| == 0 then None
    else
      var (s, _) :- GetSps(PayloadBits(nalu[1..]), 0);
      Some(s)
  }

  /** The elements of a parameter set, up to its stop bit. */
  function Elements(s: Sps): Trace {
    PutSps(Empty, s)
  }

  function PrintedBits(header: byte, s: Sps): seq<bool> {
    EncodeFrom(BitsOf(header, 8), Then(Elements(s), U(1, 1)))
  }

  /** The bits, filled to whole bytes, escaped. */
  function Print(header: byte, s: Sps): seq<byte> {
    PaddedToBytes(PrintedBits(header, s));
    Escape(Pack(PrintedBits(header, s) + Padding(PrintedBits(header, s))))
  }

  function Rewritten(nalu: seq<byte>): Option<seq<byte>> {
    var s :- Parse(nalu);
    Some(Print(nalu[0], Patch(s)))
  }

  // ---------------------------------------------------------------- the method

  method AddBitstreamRestriction(r: BitReader, w: BitWriter, maxNumRefFrames: int, ghost pre: seq<bool>, ghost t: Trace)
    requires Ready(r, w, pre, t)
    modifies w
    ensures Ready(r, w, pre, PutRestriction(t, DefaultRestriction(maxNumRefFrames)))
  {
    hide At, Wrote, BitsOf, EncUE;
    ghost var t1 := Then(t, U(1, 1));
    ghost var t2 := Then(t1, UE(2));
    ghost var t3 := Then(t2, UE(1));
    ghost var t4 := Then(t3, UE(16));
    ghost var t5 := Then(t4, UE(16));
    ghost var t6 := Then(t5, UE(0));
    w.WriteBits(1, 1);
    assert w.bits == EncodeFrom(pre, t1);
    w.WriteUE(2);
    assert w.bits == EncodeFrom(pre, t2);
    w.WriteUE(1);
    assert w.bits == EncodeFrom(pre, t3);
    w.WriteUE(16);
    assert w.bits == EncodeFrom(pre, t4);
    w.WriteUE(16);
    assert w.bits == EncodeFrom(pre, t5);
    w.WriteUE(0);
    assert w.bits == EncodeFrom(pre, t6);
    w.WriteUE(maxNumRefFrames);
  }

  method RewriteRestriction(r: BitReader, w: BitWriter, maxNumRefFrames: int, ghost pre: seq<bool>, ghost t: Trace)
    returns (res: Option<()>, ghost o: Option<Restriction>)
    requires Ready(r, w, pre, t)
    modifies r, w
    ensures match res
      case None => GetOptRestriction(PayloadBits(r.buf), old(r.pos)) == None
      case Some(_) =>
        GetOptRestriction(PayloadBits(r.buf), old(r.pos)) == Some((o, r.pos)) &&
        Ready(r, w, pre, PutOptRestriction(t, PatchRestriction(o, maxNumRefFrames)))
  {
    hide PayloadBits, GetU, GetUE, EncodeFrom, At, Wrote, BitsOf, EncUE;
    o := None;
    ghost var t1 := Then(t, U(1, 1));
    var bitstreamRestriction :- r.ReadBits(1);
    w.WriteBits(1, 1);
    EncodeThen(pre, t, U(1, 1));
    if bitstreamRestriction == 0 {
      AddBitstreamRestriction(r, w, maxNumRefFrames, pre, t1);
    } else {
      var vectors :- CopyBits(r, w, 1, pre, t1);
      ghost var t2 := Then(t1, U(1, vectors));
      var bytes :- CopyUE(r, w, pre, t2);
      ghost var t3 := Then(t2, UE(bytes));
      var bits :- CopyUE(r, w, pre, t3);
      ghost var t4 := Then(t3, UE(bits));
      var horizontal :- CopyUE(r, w, pre, t4);
      ghost var t5 := Then(t4, UE(horizontal));
      var vertical :- CopyUE(r, w, pre, t5);
      ghost var t6 := Then(t5, UE(vertical));
      var reorder :- r.ReadUE();
      w.WriteUE(0);
      EncodeThen(pre, t6, UE(0));
      var buffering :- r.ReadUE();
      w.WriteUE(maxNumRefFrames);
      EncodeThen(pre, Then(t6, UE(0)), UE(maxNumRefFrames));
      o := Some(Restriction(vectors, bytes, bits, horizontal, vertical, reorder, buffering));
    }
    return Some(()), o;
  }

  /** Eight absent blocks, as the flags of an empty VUI: one zero bit each. */
  function EmptyVuiFlags(t: Trace): Trace {
    Then(Then(Then(Then(Then(Then(Then(Then(t, U(1, 0)), U(1, 0)), U(1, 0)), U(1, 0)), U(1, 0)), U(1, 0)), U(1, 0)),
      U(1, 0))
  }

  lemma EmptyVui(t: Trace, maxNumRefFrames: int)
    ensures PutVui(t, PatchVui(None, maxNumRefFrames))
         == PutRestriction(Then(EmptyVuiFlags(t), U(1, 1)), DefaultRestriction(maxNumRefFrames))
  {
  }

  lemma ZeroFlag(pre: seq<bool>, t: Trace)
    ensures EncodeFrom(pre, Then(t, U(1, 0))) == EncodeFrom(pre, t) + [false]
  {
    assert BitsOf(0, 1) == [false];
  }

  lemma ZeroBits()
    ensures BitsOf(0, 1) == [false] && BitsOf(0, 2) == [false, false]
    ensures BitsOf(0, 5) == [false, false, false, false, false]
  {
  }

  lemma ZeroFlags(pre: seq<bool>, t: Trace)
    ensures EncodeFrom(pre, EmptyVuiFlags(t)) == EncodeFrom(pre, t) + BitsOf(0, 2) + BitsOf(0, 1) + BitsOf(0, 5)
  {
    hide EncodeFrom, BitsOf;
    ZeroBits();
    var t1 := Then(t, U(1, 0));
    var t2 := Then(t1, U(1, 0));
    var t3 := Then(t2, U(1, 0));
    var t4 := Then(t3, U(1, 0));
    var t5 := Then(t4, U(1, 0));
    var t6 := Then(t5, U(1, 0));
    var t7 := Then(t6, U(1, 0));
    ZeroFlag(pre, t);
    ZeroFlag(pre, t1);
    ZeroFlag(pre, t2);
    ZeroFlag(pre, t3);
    ZeroFlag(pre, t4);
    ZeroFlag(pre, t5);
    ZeroFlag(pre, t6);
    ZeroFlag(pre, t7);
  }

  method RewriteVui(r: BitReader, w: BitWriter, maxNumRefFrames: int, ghost pre: seq<bool>, ghost t: Trace)
    returns (res: Option<()>, ghost o: Option<Vui>)
    requires Ready(r, w, pre, t)
    modifies r, w
    ensures match res
      case None => GetOptVui(PayloadBits(r.buf), old(r.pos)) == None
      case Some(_) =>
        GetOptVui(PayloadBits(r.buf), old(r.pos)) == Some((o, r.pos)) &&
        Ready(r, w, pre, PutOptVui(t, Some(PatchVui(o, maxNumRefFrames))))
  {
    hide PayloadBits, GetU, GetPicture, PutPicture, GetOptTiming, PutOptTiming, GetHrds, PutHrds, GetOptRestriction,
         PutOptRestriction, PutRestriction, EncodeFrom, At, Wrote, BitsOf;
    o := None;
    ghost var t1 := Then(t, U(1, 1));
    var vuiPresent :- r.ReadBits(1);
    w.WriteBits(1, 1);
    EncodeThen(pre, t, U(1, 1));
    if vuiPresent == 0 {
      w.WriteBits(0, 2);
      w.WriteBits(0, 1);
      w.WriteBits(0, 5);
      ZeroFlags(pre, t1);
      w.WriteBits(1, 1);
      EncodeThen(pre, EmptyVuiFlags(t1), U(1, 1));
      AddBitstreamRestriction(r, w, maxNumRefFrames, pre, Then(EmptyVuiFlags(t1), U(1, 1)));
      EmptyVui(t1, maxNumRefFrames);
    } else {
      var _, picture :- CopyPicture(r, w, pre, t1);
      ghost var t2 := PutPicture(t1, picture.(signal := None));
      var _, timing :- CopyTiming(r, w, pre, t2);
      ghost var t3 := PutOptTiming(t2, timing);
      var _, hrd :- CopyHrds(r, w, pre, t3);
      ghost var t4 := PutHrds(t3, hrd);
      var picStruct :- CopyBits(r, w, 1, pre, t4);
      ghost var t5 := Then(t4, U(1, picStruct));
      var _, restriction :- RewriteRestriction(r, w, maxNumRefFrames, pre, t5);
      o := Some(Vui(picture, timing, hrd, picStruct, restriction));
    }
    return Some(()), o;
  }

  /** The fields from the profile to the picture order count. */
  method CopyFront(r: BitReader, w: BitWriter, ghost pre: seq<bool>, ghost t: Trace)
    returns (res: Option<()>, ghost profile: Profile, ghost spsId: int, ghost chroma: Option<ChromaInfo>,
             ghost log2MaxFrameNum: int, ghost poc: Poc)
    requires Ready(r, w, pre, t)
    modifies r, w
    ensures res.None? ==> GetSps(PayloadBits(r.buf), old(r.pos)) == None
    ensures res.Some? ==>
      GetFront(PayloadBits(r.buf), old(r.pos)) == Some((profile, spsId, chroma, log2MaxFrameNum, poc, r.pos)) &&
      Ready(r, w, pre, PutPoc(Then(PutChromaWhen(Then(PutProfile(t, profile), UE(spsId)), chroma),
        UE(log2MaxFrameNum)), poc))
  {
    hide PayloadBits, GetU, GetUE, GetChroma, PutChroma, GetPoc, PutPoc, GetFrame, GetOptVui, EncodeFrom, At, Wrote;
    profile, spsId, chroma, log2MaxFrameNum, poc := *, *, *, *, *;
    var profileIDC :- CopyBits(r, w, 8, pre, t);
    ghost var t1 := Then(t, U(8, profileIDC));
    var constraints :- CopyBits(r, w, 8, pre, t1);
    ghost var t2 := Then(t1, U(8, constraints));
    var level :- CopyBits(r, w, 8, pre, t2);
    profile := Profile(profileIDC, constraints, level);
    ghost var t3 := Then(t2, U(8, level));
    var id :- CopyUE(r, w, pre, t3);
    spsId := id;
    ghost var t4 := Then(t3, UE(id));
    chroma := None;
    if HasChromaInfo(profileIDC) {
      var _, c :- CopyChroma(r, w, pre, t4);
      chroma := Some(c);
    }
    ghost var t5 := PutChromaWhen(t4, chroma);
    var log2 :- CopyUE(r, w, pre, t5);
    log2MaxFrameNum := log2;
    ghost var t6 := Then(t5, UE(log2));
    res, poc := CopyPoc(r, w, pre, t6);
  }

  function GetFront(F: seq<bool>, p: nat): Option<(Profile, int, Option<ChromaInfo>, int, Poc, nat)> {
    var (profile, p1) :- GetProfile(F, p);
    var (spsId, p2) :- GetUE(F, p1);
    var (chroma, p3) :- GetChromaWhen(F, p2, HasChromaInfo(profile.profileIdc));
    var (log2MaxFrameNum, p4) :- GetUE(F, p3);
    var (poc, p5) :- GetPoc(F, p4);
    Some((profile, spsId, chroma, log2MaxFrameNum, poc, p5))
  }

  /** The rewritten parameter set, or None where Go recovers from a panic. */
  method RewriteSPSVUI(sps: seq<byte>) returns (out: Option<seq<byte>>)
    ensures out == Rewritten(sps)
  {
    hide PayloadBits, GetU, GetUE, GetProfile, PutProfile, GetChromaWhen, PutChromaWhen, GetPoc, PutPoc, GetFrame,
      PutFrame,
         GetOptVui, PutOptVui, EncodeFrom, At, Wrote, BitsOf, Escape, Padding;
    if |sps| == 0 {
      return None;
    }
    var reader := new BitReader(sps[1..]);
    var writer := new BitWriter();
    ghost var pre := BitsOf(sps[0], 8);
    writer.WriteBits(sps[0], 8);
    assert writer.bits == EncodeFrom(pre, Empty) by { EncodeNothing(pre); }
    var _, profile, spsId, chroma, log2MaxFrameNum, poc :- CopyFront(reader, writer, pre, Empty);
    ghost var t1 := PutPoc(Then(PutChromaWhen(Then(PutProfile(Empty, profile), UE(spsId)), chroma),
      UE(log2MaxFrameNum)), poc);
    var maxNumRefFrames, frame :- CopyFrame(reader, writer, pre, t1);
    ghost var t2 := PutFrame(t1, frame);
    var _, vui :- RewriteVui(reader, writer, maxNumRefFrames, pre, t2);
    ghost var s := Sps(profile, spsId, chroma, log2MaxFrameNum, poc, frame, vui);
    assert Parse(sps) == Some(s);
    ghost var t := Elements(Patch(s));
    assert writer.bits == EncodeFrom(pre, t);
    writer.WriteBits(1, 1);
    EncodeThen(pre, t, U(1, 1));
    assert writer.bits == PrintedBits(sps[0], Patch(s));
    writer.Flush();
    Printed(writer, PrintedBits(sps[0], Patch(s)));
    return Some(writer.arr);
  }

  lemma EncodeNothing(pre: seq<bool>)
    ensures EncodeFrom(pre, Empty) == pre && pre == [] + pre
  {
  }

  lemma Printed(w: BitWriter, bits: seq<bool>)
    requires w.Valid() && w.bits == bits + Padding(bits) && w.bits == Flat(w.payload)
    ensures |bits + Padding(bits)| % 8 == 0 && w.arr == Escape(Pack(bits + Padding(bits)))
  {
    hide Flat, Pack, Escape, BitsOf, Low, Shr;
    PackFlat(w.payload);
    PaddedToBytes(bits);
  }
}
