/**
  The sequence parameter set of sections 7.3.2.1.1, E.1.1 and E.1.2 of Rec. ITU-T H.264, as the rewriter
  reads it (internal/streamer/h264.go:151-470): its fields, how they are read from a bit string, and
  which syntax elements they are written as.

  For each group X of fields there are GetX (reading at a position; what it returns satisfies XOk, the
  fields that earlier fields call for are there), PutX (the elements, appended to a trace) and a lemma
  XReads: reading the elements of x and reading x with GetX succeed together and end at the same place.
 */
module Sps {
  import opened Wrappers
  import opened Bits
  import opened Syntax

  datatype Cpb = Cpb(bitRateValue: int, cpbSizeValue: int, cbrFlag: uint32)

  datatype Hrd = Hrd(
    cpbCntMinus1: int, bitRateScale: uint32, cpbSizeScale: uint32, cpbs: seq<Cpb>,
    initialDelayLength: uint32, removalDelayLength: uint32, outputDelayLength: uint32, timeOffsetLength: uint32)

  datatype Sar = Sar(width: uint32, height: uint32)

  datatype Aspect = Aspect(idc: uint32, sar: Option<Sar>)

  datatype Colour = Colour(primaries: uint32, transfer: uint32, matrix: uint32)

  datatype VideoSignal = VideoSignal(format: uint32, fullRange: uint32, colour: Option<Colour>)

  datatype ChromaLoc = ChromaLoc(top: int, bottom: int)

  datatype Timing = Timing(unitsInTick: uint32, timeScale: uint32, fixedRate: uint32)

  datatype Restriction = Restriction(
    vectorsOverBoundaries: uint32, maxBytesPerPic: int, maxBitsPerMb: int, maxMvHorizontal: int, maxMvVertical: int,
    maxNumReorderFrames: int, maxDecFrameBuffering: int)

  datatype PictureInfo = PictureInfo(
    aspect: Option<Aspect>, overscan: Option<uint32>, signal: Option<VideoSignal>, chromaLoc: Option<ChromaLoc>)

  datatype HrdInfo = HrdInfo(nal: Option<Hrd>, vcl: Option<Hrd>, lowDelay: Option<uint32>)

  datatype Vui = Vui(
    picture: PictureInfo, timing: Option<Timing>, hrd: HrdInfo, picStruct: uint32, restriction: Option<Restriction>)

  type ScalingList = Option<seq<int>>

  datatype ChromaInfo = ChromaInfo(
    chromaFormatIdc: int, separatePlanes: Option<uint32>, bitDepthLuma: int, bitDepthChroma: int, bypass: uint32,
    scaling: Option<seq<ScalingList>>)

  datatype Cycle = Cycle(deltaAlwaysZero: uint32, offsetNonRef: int, offsetTopBottom: int, cycleLength: int,
    offsets: seq<int>)

  datatype Poc = PocLsb(log2MaxLsb: int) | PocCycle(cycle: Cycle) | PocOther(pocType: int)

  datatype Crop = Crop(left: int, right: int, top: int, bottom: int)

  datatype FrameInfo = FrameInfo(
    maxNumRefFrames: int, gapsAllowed: uint32, widthInMbs: int, heightInMapUnits: int, frameMbsOnly: uint32,
    mbAdaptive: Option<uint32>, direct8x8: uint32, crop: Option<Crop>)

  datatype Profile = Profile(profileIdc: uint32, constraints: uint32, levelIdc: uint32)

  datatype Sps = Sps(
    profile: Profile, spsId: int, chroma: Option<ChromaInfo>, log2MaxFrameNum: int, poc: Poc, frame: FrameInfo,
    vui: Option<Vui>)

  /** How often a loop bounded by an int runs. */
  function Count(n: int): nat {
    if n < 0 then 0 else n
  }

  /** Where a read that should yield x ends. */
  function Match<T(==)>(r: Option<(T, nat)>, x: T): Option<nat> {
    if r.Some? && r.value.0 == x then Some(r.value.1) else None
  }

  lemma MatchLast<T>(r: Option<(seq<T>, nat)>, init: seq<T>, last: T)
    ensures r.Some? ==> forall x: T :: r.value.0 + [x] == init + [last] ==> r.value.0 == init
  {
    if r.Some? {
      forall x: T | r.value.0 + [x] == init + [last] ensures r.value.0 == init {
        assert (r.value.0 + [x])[..|r.value.0|] == (init + [last])[..|init|];
      }
    }
  }

  lemma StepU(F: seq<bool>, t: Trace, n: nat, v: uint32)
    ensures Reads(F, Then(t, U(n, v))) == if Reads(F, t).None? then None else Match(GetU(F, Pos(F, t), n), v)
  {
    hide GetU;
  }

  lemma StepUE(F: seq<bool>, t: Trace, v: int)
    ensures Reads(F, Then(t, UE(v))) == if Reads(F, t).None? then None else Match(GetUE(F, Pos(F, t)), v)
  {
    hide GetUE;
  }

  lemma StepSE(F: seq<bool>, t: Trace, v: int)
    ensures Reads(F, Then(t, SE(v))) == if Reads(F, t).None? then None else Match(GetSE(F, Pos(F, t)), v)
  {
    hide GetSE;
  }

  /** A flag that is not 0 is 1. */
  lemma StepFlag(F: seq<bool>, t: Trace, present: bool)
    ensures Reads(F, Then(t, U(1, if present then 1 else 0)))
         == if Reads(F, t).None? then None else Match(GetU(F, Pos(F, t), 1), if present then 1 else 0)
    ensures Reads(F, t).Some? && GetU(F, Pos(F, t), 1).Some? ==> GetU(F, Pos(F, t), 1).value.0 <= 1
  {
    hide GetU;
    if Reads(F, t).Some? {
      BitOrNone(F, Pos(F, t));
    }
  }

  // ---------------------------------------------------------------- one field as a group

  function GetBit(F: seq<bool>, p: nat): Option<(uint32, nat)> {
    GetU(F, p, 1)
  }

  function PutBit(t: Trace, v: uint32): Trace {
    Then(t, U(1, v))
  }

  lemma BitReads(F: seq<bool>, t: Trace, v: uint32)
    ensures Reads(F, PutBit(t, v)) == if Reads(F, t).None? then None else Match(GetBit(F, Pos(F, t)), v)
  {
    StepU(F, t, 1, v);
  }

  function GetDelta(F: seq<bool>, p: nat): Option<(int, nat)> {
    GetSE(F, p)
  }

  function PutDelta(t: Trace, v: int): Trace {
    Then(t, SE(v))
  }

  lemma DeltaReads(F: seq<bool>, t: Trace, v: int)
    ensures Reads(F, PutDelta(t, v)) == if Reads(F, t).None? then None else Match(GetDelta(F, Pos(F, t)), v)
  {
    StepSE(F, t, v);
  }

  predicate DeltasOk(xs: seq<int>, n: nat) {
    |xs| == n
  }

  /** A run of n se(v) elements: a scaling list, or the offsets of a picture order cycle. */
  function GetDeltas(F: seq<bool>, p: nat, n: nat): (r: Option<(seq<int>, nat)>)
    ensures r.Some? ==> DeltasOk(r.value.0, n)
  {
    if n == 0 then Some(([], p))
    else
      var (xs, p1) :- GetDeltas(F, p, n - 1);
      var (x, p2) :- GetDelta(F, p1);
      Some((xs + [x], p2))
  }

  function PutDeltas(t: Trace, xs: seq<int>): Trace {
    if |xs| == 0 then t else PutDelta(PutDeltas(t, xs[..|xs| - 1]), xs[|xs| - 1])
  }

  lemma {:induction false} DeltasReads(F: seq<bool>, t: Trace, xs: seq<int>, n: nat)
    requires DeltasOk(xs, n)
    ensures Reads(F, PutDeltas(t, xs)) == if Reads(F, t).None? then None else Match(GetDeltas(F, Pos(F, t), n), xs)
  {
    hide Reads, GetDelta, PutDelta;
    if n > 0 {
      var init, last := xs[..n - 1], xs[n - 1];
      assert xs == init + [last];
      DeltasReads(F, t, init, n - 1);
      DeltaReads(F, PutDeltas(t, init), last);
      if Reads(F, t).Some? {
        MatchLast(GetDeltas(F, Pos(F, t), n - 1), init, last);
      }
    }
  }

  lemma {:induction false} DeltasFail(F: seq<bool>, p: nat, m: nat, n: nat)
    requires m <= n && GetDeltas(F, p, m) == None
    ensures GetDeltas(F, p, n) == None
  {
    hide GetDelta;
    if m < n {
      DeltasFail(F, p, m, n - 1);
    }
  }

  predicate BitWhenOk(o: Option<uint32>, present: bool) {
    (o.Some? <==> present)
  }

  /** A bit that is present only under a condition on earlier fields. */
  function GetBitWhen(F: seq<bool>, p: nat, present: bool): (r: Option<(Option<uint32>, nat)>)
    ensures r.Some? ==> BitWhenOk(r.value.0, present)
  {
    if !present then Some((None, p)) else var (x, q) :- GetBit(F, p); Some((Some(x), q))
  }

  function PutBitWhen(t: Trace, o: Option<uint32>): Trace {
    if o.None? then t else PutBit(t, o.value)
  }

  lemma BitWhenReads(F: seq<bool>, t: Trace, o: Option<uint32>, present: bool)
    requires BitWhenOk(o, present)
    ensures Reads(F, PutBitWhen(t, o)) == if Reads(F, t).None? then None
      else Match(GetBitWhen(F, Pos(F, t), present), o)
  {
    hide Reads, GetBit, PutBit;
    if present {
      BitReads(F, t, o.value);
    }
  }

  function GetOptBit(F: seq<bool>, p: nat): (r: Option<(Option<uint32>, nat)>)
  {
    var (present, p1) :- GetU(F, p, 1);
    if present == 0 then Some((None, p1)) else var (x, p2) :- GetBit(F, p1); Some((Some(x), p2))
  }

  function PutOptBit(t: Trace, o: Option<uint32>): Trace {
    if o.None? then Then(t, U(1, 0)) else PutBit(Then(t, U(1, 1)), o.value)
  }

  lemma OptBitReads(F: seq<bool>, t: Trace, o: Option<uint32>)
    ensures Reads(F, PutOptBit(t, o)) == if Reads(F, t).None? then None else Match(GetOptBit(F, Pos(F, t)), o)
  {
    hide GetU, Reads, GetBit, PutBit;
    StepFlag(F, t, o.Some?);
    if o.Some? {
      BitReads(F, Then(t, U(1, 1)), o.value);
    }
  }

  // ---------------------------------------------------------------- section E.1.2: hrd_parameters

  function GetCpb(F: seq<bool>, p: nat): (r: Option<(Cpb, nat)>)
  {
    var (bitRateValue, p1) :- GetUE(F, p);
    var (cpbSizeValue, p2) :- GetUE(F, p1);
    var (cbrFlag, p3) :- GetU(F, p2, 1);
    Some((Cpb(bitRateValue, cpbSizeValue, cbrFlag), p3))
  }

  function PutCpb(t: Trace, c: Cpb): Trace {
    var t1 := Then(t, UE(c.bitRateValue));
    var t2 := Then(t1, UE(c.cpbSizeValue));
    Then(t2, U(1, c.cbrFlag))
  }

  lemma CpbReads(F: seq<bool>, t: Trace, c: Cpb)
    ensures Reads(F, PutCpb(t, c)) == if Reads(F, t).None? then None else Match(GetCpb(F, Pos(F, t)), c)
  {
    hide GetU, GetUE, Reads;
    StepUE(F, t, c.bitRateValue);
    var t1 := Then(t, UE(c.bitRateValue));
    StepUE(F, t1, c.cpbSizeValue);
    var t2 := Then(t1, UE(c.cpbSizeValue));
    StepU(F, t2, 1, c.cbrFlag);
  }

  predicate CpbsOk(xs: seq<Cpb>, n: nat) {
    |xs| == n
  }

  function GetCpbs(F: seq<bool>, p: nat, n: nat): (r: Option<(seq<Cpb>, nat)>)
    ensures r.Some? ==> CpbsOk(r.value.0, n)
  {
    if n == 0 then Some(([], p))
    else
      var (xs, p1) :- GetCpbs(F, p, n - 1);
      var (x, p2) :- GetCpb(F, p1);
      Some((xs + [x], p2))
  }

  function PutCpbs(t: Trace, xs: seq<Cpb>): Trace {
    if |xs| == 0 then t else PutCpb(PutCpbs(t, xs[..|xs| - 1]), xs[|xs| - 1])
  }

  lemma {:induction false} CpbsReads(F: seq<bool>, t: Trace, xs: seq<Cpb>, n: nat)
    requires CpbsOk(xs, n)
    ensures Reads(F, PutCpbs(t, xs)) == if Reads(F, t).None? then None else Match(GetCpbs(F, Pos(F, t), n), xs)
  {
    hide Reads, GetCpb, PutCpb;
    if n > 0 {
      var init, last := xs[..n - 1], xs[n - 1];
      assert xs == init + [last];
      CpbsReads(F, t, init, n - 1);
      CpbReads(F, PutCpbs(t, init), last);
      if Reads(F, t).Some? {
        MatchLast(GetCpbs(F, Pos(F, t), n - 1), init, last);
      }
    }
  }

  lemma {:induction false} CpbsFail(F: seq<bool>, p: nat, m: nat, n: nat)
    requires m <= n && GetCpbs(F, p, m) == None
    ensures GetCpbs(F, p, n) == None
  {
    hide GetCpb;
    if m < n {
      CpbsFail(F, p, m, n - 1);
    }
  }

  predicate HrdOk(h: Hrd) {
    CpbsOk(h.cpbs, Count(h.cpbCntMinus1 + 1))
  }

  function GetHrd(F: seq<bool>, p: nat): (r: Option<(Hrd, nat)>)
    ensures r.Some? ==> HrdOk(r.value.0)
  {
    var (cpbCntMinus1, p1) :- GetUE(F, p);
    var (bitRateScale, p2) :- GetU(F, p1, 4);
    var (cpbSizeScale, p3) :- GetU(F, p2, 4);
    var (cpbs, p4) :- GetCpbs(F, p3, Count(cpbCntMinus1 + 1));
    var (initialDelayLength, p5) :- GetU(F, p4, 5);
    var (removalDelayLength, p6) :- GetU(F, p5, 5);
    var (outputDelayLength, p7) :- GetU(F, p6, 5);
    var (timeOffsetLength, p8) :- GetU(F, p7, 5);
    Some((Hrd(cpbCntMinus1, bitRateScale, cpbSizeScale, cpbs, initialDelayLength, removalDelayLength,
      outputDelayLength, timeOffsetLength), p8))
  }

  function PutHrd(t: Trace, h: Hrd): Trace {
    var t1 := Then(t, UE(h.cpbCntMinus1));
    var t2 := Then(t1, U(4, h.bitRateScale));
    var t3 := Then(t2, U(4, h.cpbSizeScale));
    var t4 := PutCpbs(t3, h.cpbs);
    var t5 := Then(t4, U(5, h.initialDelayLength));
    var t6 := Then(t5, U(5, h.removalDelayLength));
    var t7 := Then(t6, U(5, h.outputDelayLength));
    Then(t7, U(5, h.timeOffsetLength))
  }

  lemma HrdReads(F: seq<bool>, t: Trace, h: Hrd)
    requires HrdOk(h)
    ensures Reads(F, PutHrd(t, h)) == if Reads(F, t).None? then None else Match(GetHrd(F, Pos(F, t)), h)
  {
    hide GetU, GetUE, Reads, GetCpbs, PutCpbs, CpbsOk;
    StepUE(F, t, h.cpbCntMinus1);
    var t1 := Then(t, UE(h.cpbCntMinus1));
    StepU(F, t1, 4, h.bitRateScale);
    var t2 := Then(t1, U(4, h.bitRateScale));
    StepU(F, t2, 4, h.cpbSizeScale);
    var t3 := Then(t2, U(4, h.cpbSizeScale));
    CpbsReads(F, t3, h.cpbs, Count(h.cpbCntMinus1 + 1));
    var t4 := PutCpbs(t3, h.cpbs);
    StepU(F, t4, 5, h.initialDelayLength);
    var t5 := Then(t4, U(5, h.initialDelayLength));
    StepU(F, t5, 5, h.removalDelayLength);
    var t6 := Then(t5, U(5, h.removalDelayLength));
    StepU(F, t6, 5, h.outputDelayLength);
    var t7 := Then(t6, U(5, h.outputDelayLength));
    StepU(F, t7, 5, h.timeOffsetLength);
  }

  predicate OptHrdOk(o: Option<Hrd>) {
    o.Some? ==> HrdOk(o.value)
  }

  function GetOptHrd(F: seq<bool>, p: nat): (r: Option<(Option<Hrd>, nat)>)
    ensures r.Some? ==> OptHrdOk(r.value.0)
  {
    var (present, p1) :- GetU(F, p, 1);
    if present == 0 then Some((None, p1)) else var (x, p2) :- GetHrd(F, p1); Some((Some(x), p2))
  }

  function PutOptHrd(t: Trace, o: Option<Hrd>): Trace {
    if o.None? then Then(t, U(1, 0)) else PutHrd(Then(t, U(1, 1)), o.value)
  }

  lemma OptHrdReads(F: seq<bool>, t: Trace, o: Option<Hrd>)
    requires OptHrdOk(o)
    ensures Reads(F, PutOptHrd(t, o)) == if Reads(F, t).None? then None else Match(GetOptHrd(F, Pos(F, t)), o)
  {
    hide GetU, Reads, GetHrd, PutHrd, HrdOk;
    StepFlag(F, t, o.Some?);
    if o.Some? {
      HrdReads(F, Then(t, U(1, 1)), o.value);
    }
  }

  // ---------------------------------------------------------------- section E.1.1: vui_parameters

  function GetSar(F: seq<bool>, p: nat): (r: Option<(Sar, nat)>)
  {
    var (width, p1) :- GetU(F, p, 16);
    var (height, p2) :- GetU(F, p1, 16);
    Some((Sar(width, height), p2))
  }

  function PutSar(t: Trace, x: Sar): Trace {
    var t1 := Then(t, U(16, x.width));
    Then(t1, U(16, x.height))
  }

  lemma SarReads(F: seq<bool>, t: Trace, x: Sar)
    ensures Reads(F, PutSar(t, x)) == if Reads(F, t).None? then None else Match(GetSar(F, Pos(F, t)), x)
  {
    hide GetU, Reads;
    StepU(F, t, 16, x.width);
    var t1 := Then(t, U(16, x.width));
    StepU(F, t1, 16, x.height);
  }

  predicate SarWhenOk(o: Option<Sar>, present: bool) {
    (o.Some? <==> present)
  }

  /** The explicit aspect ratio follows only the indicator 255. */
  function GetSarWhen(F: seq<bool>, p: nat, present: bool): (r: Option<(Option<Sar>, nat)>)
    ensures r.Some? ==> SarWhenOk(r.value.0, present)
  {
    if !present then Some((None, p)) else var (x, q) :- GetSar(F, p); Some((Some(x), q))
  }

  function PutSarWhen(t: Trace, o: Option<Sar>): Trace {
    if o.None? then t else PutSar(t, o.value)
  }

  lemma SarWhenReads(F: seq<bool>, t: Trace, o: Option<Sar>, present: bool)
    requires SarWhenOk(o, present)
    ensures Reads(F, PutSarWhen(t, o)) == if Reads(F, t).None? then None
      else Match(GetSarWhen(F, Pos(F, t), present), o)
  {
    hide Reads, GetSar, PutSar;
    if present {
      SarReads(F, t, o.value);
    }
  }

  predicate AspectOk(x: Aspect) {
    SarWhenOk(x.sar, x.idc == 255)
  }

  function GetAspect(F: seq<bool>, p: nat): (r: Option<(Aspect, nat)>)
    ensures r.Some? ==> AspectOk(r.value.0)
  {
    var (idc, p1) :- GetU(F, p, 8);
    var (sar, p2) :- GetSarWhen(F, p1, idc == 255);
    Some((Aspect(idc, sar), p2))
  }

  function PutAspect(t: Trace, x: Aspect): Trace {
    var t1 := Then(t, U(8, x.idc));
    PutSarWhen(t1, x.sar)
  }

  lemma AspectReads(F: seq<bool>, t: Trace, x: Aspect)
    requires AspectOk(x)
    ensures Reads(F, PutAspect(t, x)) == if Reads(F, t).None? then None else Match(GetAspect(F, Pos(F, t)), x)
  {
    hide GetU, Reads, GetSarWhen, PutSarWhen, SarWhenOk;
    StepU(F, t, 8, x.idc);
    var t1 := Then(t, U(8, x.idc));
    SarWhenReads(F, t1, x.sar, x.idc == 255);
  }

  predicate OptAspectOk(o: Option<Aspect>) {
    o.Some? ==> AspectOk(o.value)
  }

  function GetOptAspect(F: seq<bool>, p: nat): (r: Option<(Option<Aspect>, nat)>)
    ensures r.Some? ==> OptAspectOk(r.value.0)
  {
    var (present, p1) :- GetU(F, p, 1);
    if present == 0 then Some((None, p1)) else var (x, p2) :- GetAspect(F, p1); Some((Some(x), p2))
  }

  function PutOptAspect(t: Trace, o: Option<Aspect>): Trace {
    if o.None? then Then(t, U(1, 0)) else PutAspect(Then(t, U(1, 1)), o.value)
  }

  lemma OptAspectReads(F: seq<bool>, t: Trace, o: Option<Aspect>)
    requires OptAspectOk(o)
    ensures Reads(F, PutOptAspect(t, o)) == if Reads(F, t).None? then None else Match(GetOptAspect(F, Pos(F, t)), o)
  {
    hide GetU, Reads, GetAspect, PutAspect, AspectOk;
    StepFlag(F, t, o.Some?);
    if o.Some? {
      AspectReads(F, Then(t, U(1, 1)), o.value);
    }
  }

  function GetColour(F: seq<bool>, p: nat): (r: Option<(Colour, nat)>)
  {
    var (primaries, p1) :- GetU(F, p, 8);
    var (transfer, p2) :- GetU(F, p1, 8);
    var (matrix, p3) :- GetU(F, p2, 8);
    Some((Colour(primaries, transfer, matrix), p3))
  }

  function PutColour(t: Trace, x: Colour): Trace {
    var t1 := Then(t, U(8, x.primaries));
    var t2 := Then(t1, U(8, x.transfer));
    Then(t2, U(8, x.matrix))
  }

  lemma ColourReads(F: seq<bool>, t: Trace, x: Colour)
    ensures Reads(F, PutColour(t, x)) == if Reads(F, t).None? then None else Match(GetColour(F, Pos(F, t)), x)
  {
    hide GetU, Reads;
    StepU(F, t, 8, x.primaries);
    var t1 := Then(t, U(8, x.primaries));
    StepU(F, t1, 8, x.transfer);
    var t2 := Then(t1, U(8, x.transfer));
    StepU(F, t2, 8, x.matrix);
  }

  function GetOptColour(F: seq<bool>, p: nat): (r: Option<(Option<Colour>, nat)>)
  {
    var (present, p1) :- GetU(F, p, 1);
    if present == 0 then Some((None, p1)) else var (x, p2) :- GetColour(F, p1); Some((Some(x), p2))
  }

  function PutOptColour(t: Trace, o: Option<Colour>): Trace {
    if o.None? then Then(t, U(1, 0)) else PutColour(Then(t, U(1, 1)), o.value)
  }

  lemma OptColourReads(F: seq<bool>, t: Trace, o: Option<Colour>)
    ensures Reads(F, PutOptColour(t, o)) == if Reads(F, t).None? then None else Match(GetOptColour(F, Pos(F, t)), o)
  {
    hide GetU, Reads, GetColour, PutColour;
    StepFlag(F, t, o.Some?);
    if o.Some? {
      ColourReads(F, Then(t, U(1, 1)), o.value);
    }
  }

  function GetSignal(F: seq<bool>, p: nat): (r: Option<(VideoSignal, nat)>)
  {
    var (format, p1) :- GetU(F, p, 3);
    var (fullRange, p2) :- GetU(F, p1, 1);
    var (colour, p3) :- GetOptColour(F, p2);
    Some((VideoSignal(format, fullRange, colour), p3))
  }

  function PutSignal(t: Trace, x: VideoSignal): Trace {
    var t1 := Then(t, U(3, x.format));
    var t2 := Then(t1, U(1, x.fullRange));
    PutOptColour(t2, x.colour)
  }

  lemma SignalReads(F: seq<bool>, t: Trace, x: VideoSignal)
    ensures Reads(F, PutSignal(t, x)) == if Reads(F, t).None? then None else Match(GetSignal(F, Pos(F, t)), x)
  {
    hide GetU, Reads, GetOptColour, PutOptColour;
    StepU(F, t, 3, x.format);
    var t1 := Then(t, U(3, x.format));
    StepU(F, t1, 1, x.fullRange);
    var t2 := Then(t1, U(1, x.fullRange));
    OptColourReads(F, t2, x.colour);
  }

  function GetOptSignal(F: seq<bool>, p: nat): (r: Option<(Option<VideoSignal>, nat)>)
  {
    var (present, p1) :- GetU(F, p, 1);
    if present == 0 then Some((None, p1)) else var (x, p2) :- GetSignal(F, p1); Some((Some(x), p2))
  }

  function PutOptSignal(t: Trace, o: Option<VideoSignal>): Trace {
    if o.None? then Then(t, U(1, 0)) else PutSignal(Then(t, U(1, 1)), o.value)
  }

  lemma OptSignalReads(F: seq<bool>, t: Trace, o: Option<VideoSignal>)
    ensures Reads(F, PutOptSignal(t, o)) == if Reads(F, t).None? then None else Match(GetOptSignal(F, Pos(F, t)), o)
  {
    hide GetU, Reads, GetSignal, PutSignal;
    StepFlag(F, t, o.Some?);
    if o.Some? {
      SignalReads(F, Then(t, U(1, 1)), o.value);
    }
  }

  function GetChromaLoc(F: seq<bool>, p: nat): (r: Option<(ChromaLoc, nat)>)
  {
    var (top, p1) :- GetUE(F, p);
    var (bottom, p2) :- GetUE(F, p1);
    Some((ChromaLoc(top, bottom), p2))
  }

  function PutChromaLoc(t: Trace, x: ChromaLoc): Trace {
    var t1 := Then(t, UE(x.top));
    Then(t1, UE(x.bottom))
  }

  lemma ChromaLocReads(F: seq<bool>, t: Trace, x: ChromaLoc)
    ensures Reads(F, PutChromaLoc(t, x)) == if Reads(F, t).None? then None else Match(GetChromaLoc(F, Pos(F, t)), x)
  {
    hide GetUE, Reads;
    StepUE(F, t, x.top);
    var t1 := Then(t, UE(x.top));
    StepUE(F, t1, x.bottom);
  }

  function GetOptChromaLoc(F: seq<bool>, p: nat): (r: Option<(Option<ChromaLoc>, nat)>)
  {
    var (present, p1) :- GetU(F, p, 1);
    if present == 0 then Some((None, p1)) else var (x, p2) :- GetChromaLoc(F, p1); Some((Some(x), p2))
  }

  function PutOptChromaLoc(t: Trace, o: Option<ChromaLoc>): Trace {
    if o.None? then Then(t, U(1, 0)) else PutChromaLoc(Then(t, U(1, 1)), o.value)
  }

  lemma OptChromaLocReads(F: seq<bool>, t: Trace, o: Option<ChromaLoc>)
    ensures Reads(F, PutOptChromaLoc(t, o)) == if Reads(F, t).None? then None
      else Match(GetOptChromaLoc(F, Pos(F, t)), o)
  {
    hide GetU, Reads, GetChromaLoc, PutChromaLoc;
    StepFlag(F, t, o.Some?);
    if o.Some? {
      ChromaLocReads(F, Then(t, U(1, 1)), o.value);
    }
  }

  function GetTiming(F: seq<bool>, p: nat): (r: Option<(Timing, nat)>)
  {
    var (unitsInTick, p1) :- GetU(F, p, 32);
    var (timeScale, p2) :- GetU(F, p1, 32);
    var (fixedRate, p3) :- GetU(F, p2, 1);
    Some((Timing(unitsInTick, timeScale, fixedRate), p3))
  }

  function PutTiming(t: Trace, x: Timing): Trace {
    var t1 := Then(t, U(32, x.unitsInTick));
    var t2 := Then(t1, U(32, x.timeScale));
    Then(t2, U(1, x.fixedRate))
  }

  lemma TimingReads(F: seq<bool>, t: Trace, x: Timing)
    ensures Reads(F, PutTiming(t, x)) == if Reads(F, t).None? then None else Match(GetTiming(F, Pos(F, t)), x)
  {
    hide GetU, Reads;
    StepU(F, t, 32, x.unitsInTick);
    var t1 := Then(t, U(32, x.unitsInTick));
    StepU(F, t1, 32, x.timeScale);
    var t2 := Then(t1, U(32, x.timeScale));
    StepU(F, t2, 1, x.fixedRate);
  }

  function GetOptTiming(F: seq<bool>, p: nat): (r: Option<(Option<Timing>, nat)>)
  {
    var (present, p1) :- GetU(F, p, 1);
    if present == 0 then Some((None, p1)) else var (x, p2) :- GetTiming(F, p1); Some((Some(x), p2))
  }

  function PutOptTiming(t: Trace, o: Option<Timing>): Trace {
    if o.None? then Then(t, U(1, 0)) else PutTiming(Then(t, U(1, 1)), o.value)
  }

  lemma OptTimingReads(F: seq<bool>, t: Trace, o: Option<Timing>)
    ensures Reads(F, PutOptTiming(t, o)) == if Reads(F, t).None? then None else Match(GetOptTiming(F, Pos(F, t)), o)
  {
    hide GetU, Reads, GetTiming, PutTiming;
    StepFlag(F, t, o.Some?);
    if o.Some? {
      TimingReads(F, Then(t, U(1, 1)), o.value);
    }
  }

  function GetRestriction(F: seq<bool>, p: nat): (r: Option<(Restriction, nat)>)
  {
    var (vectorsOverBoundaries, p1) :- GetU(F, p, 1);
    var (maxBytesPerPic, p2) :- GetUE(F, p1);
    var (maxBitsPerMb, p3) :- GetUE(F, p2);
    var (maxMvHorizontal, p4) :- GetUE(F, p3);
    var (maxMvVertical, p5) :- GetUE(F, p4);
    var (maxNumReorderFrames, p6) :- GetUE(F, p5);
    var (maxDecFrameBuffering, p7) :- GetUE(F, p6);
    Some((Restriction(vectorsOverBoundaries, maxBytesPerPic, maxBitsPerMb, maxMvHorizontal, maxMvVertical,
      maxNumReorderFrames, maxDecFrameBuffering), p7))
  }

  function PutRestriction(t: Trace, x: Restriction): Trace {
    var t1 := Then(t, U(1, x.vectorsOverBoundaries));
    var t2 := Then(t1, UE(x.maxBytesPerPic));
    var t3 := Then(t2, UE(x.maxBitsPerMb));
    var t4 := Then(t3, UE(x.maxMvHorizontal));
    var t5 := Then(t4, UE(x.maxMvVertical));
    var t6 := Then(t5, UE(x.maxNumReorderFrames));
    Then(t6, UE(x.maxDecFrameBuffering))
  }

  lemma RestrictionReads(F: seq<bool>, t: Trace, x: Restriction)
    ensures Reads(F, PutRestriction(t, x)) == if Reads(F, t).None? then None else Match(GetRestriction(F, Pos(F, t)), x)
  {
    hide GetU, GetUE, Reads;
    StepU(F, t, 1, x.vectorsOverBoundaries);
    var t1 := Then(t, U(1, x.vectorsOverBoundaries));
    StepUE(F, t1, x.maxBytesPerPic);
    var t2 := Then(t1, UE(x.maxBytesPerPic));
    StepUE(F, t2, x.maxBitsPerMb);
    var t3 := Then(t2, UE(x.maxBitsPerMb));
    StepUE(F, t3, x.maxMvHorizontal);
    var t4 := Then(t3, UE(x.maxMvHorizontal));
    StepUE(F, t4, x.maxMvVertical);
    var t5 := Then(t4, UE(x.maxMvVertical));
    StepUE(F, t5, x.maxNumReorderFrames);
    var t6 := Then(t5, UE(x.maxNumReorderFrames));
    StepUE(F, t6, x.maxDecFrameBuffering);
  }

  function GetOptRestriction(F: seq<bool>, p: nat): (r: Option<(Option<Restriction>, nat)>)
  {
    var (present, p1) :- GetU(F, p, 1);
    if present == 0 then Some((None, p1)) else var (x, p2) :- GetRestriction(F, p1); Some((Some(x), p2))
  }

  function PutOptRestriction(t: Trace, o: Option<Restriction>): Trace {
    if o.None? then Then(t, U(1, 0)) else PutRestriction(Then(t, U(1, 1)), o.value)
  }

  lemma OptRestrictionReads(F: seq<bool>, t: Trace, o: Option<Restriction>)
    ensures Reads(F, PutOptRestriction(t, o)) == if Reads(F, t).None? then None
      else Match(GetOptRestriction(F, Pos(F, t)), o)
  {
    hide GetU, Reads, GetRestriction, PutRestriction;
    StepFlag(F, t, o.Some?);
    if o.Some? {
      RestrictionReads(F, Then(t, U(1, 1)), o.value);
    }
  }

  predicate PictureOk(i: PictureInfo) {
    OptAspectOk(i.aspect)
  }

  function GetPicture(F: seq<bool>, p: nat): (r: Option<(PictureInfo, nat)>)
    ensures r.Some? ==> PictureOk(r.value.0)
  {
    var (aspect, p1) :- GetOptAspect(F, p);
    var (overscan, p2) :- GetOptBit(F, p1);
    var (signal, p3) :- GetOptSignal(F, p2);
    var (chromaLoc, p4) :- GetOptChromaLoc(F, p3);
    Some((PictureInfo(aspect, overscan, signal, chromaLoc), p4))
  }

  function PutPicture(t: Trace, i: PictureInfo): Trace {
    var t1 := PutOptAspect(t, i.aspect);
    var t2 := PutOptBit(t1, i.overscan);
    var t3 := PutOptSignal(t2, i.signal);
    PutOptChromaLoc(t3, i.chromaLoc)
  }

  lemma PictureReads(F: seq<bool>, t: Trace, i: PictureInfo)
    requires PictureOk(i)
    ensures Reads(F, PutPicture(t, i)) == if Reads(F, t).None? then None else Match(GetPicture(F, Pos(F, t)), i)
  {
    hide Reads, GetOptAspect, PutOptAspect, OptAspectOk, GetOptBit, PutOptBit, GetOptSignal, PutOptSignal,
      GetOptChromaLoc, PutOptChromaLoc;
    OptAspectReads(F, t, i.aspect);
    var t1 := PutOptAspect(t, i.aspect);
    OptBitReads(F, t1, i.overscan);
    var t2 := PutOptBit(t1, i.overscan);
    OptSignalReads(F, t2, i.signal);
    var t3 := PutOptSignal(t2, i.signal);
    OptChromaLocReads(F, t3, i.chromaLoc);
  }

  predicate HrdsOk(h: HrdInfo) {
    && OptHrdOk(h.nal)
    && OptHrdOk(h.vcl)
    && BitWhenOk(h.lowDelay, h.nal.Some? || h.vcl.Some?)
  }

  function GetHrds(F: seq<bool>, p: nat): (r: Option<(HrdInfo, nat)>)
    ensures r.Some? ==> HrdsOk(r.value.0)
  {
    var (nal, p1) :- GetOptHrd(F, p);
    var (vcl, p2) :- GetOptHrd(F, p1);
    var (lowDelay, p3) :- GetBitWhen(F, p2, nal.Some? || vcl.Some?);
    Some((HrdInfo(nal, vcl, lowDelay), p3))
  }

  function PutHrds(t: Trace, h: HrdInfo): Trace {
    var t1 := PutOptHrd(t, h.nal);
    var t2 := PutOptHrd(t1, h.vcl);
    PutBitWhen(t2, h.lowDelay)
  }

  lemma HrdsReads(F: seq<bool>, t: Trace, h: HrdInfo)
    requires HrdsOk(h)
    ensures Reads(F, PutHrds(t, h)) == if Reads(F, t).None? then None else Match(GetHrds(F, Pos(F, t)), h)
  {
    hide Reads, GetOptHrd, PutOptHrd, OptHrdOk, GetBitWhen, PutBitWhen, BitWhenOk;
    OptHrdReads(F, t, h.nal);
    var t1 := PutOptHrd(t, h.nal);
    OptHrdReads(F, t1, h.vcl);
    var t2 := PutOptHrd(t1, h.vcl);
    BitWhenReads(F, t2, h.lowDelay, h.nal.Some? || h.vcl.Some?);
  }

  predicate VuiOk(v: Vui) {
    && PictureOk(v.picture)
    && HrdsOk(v.hrd)
  }

  function GetVui(F: seq<bool>, p: nat): (r: Option<(Vui, nat)>)
    ensures r.Some? ==> VuiOk(r.value.0)
  {
    var (picture, p1) :- GetPicture(F, p);
    var (timing, p2) :- GetOptTiming(F, p1);
    var (hrd, p3) :- GetHrds(F, p2);
    var (picStruct, p4) :- GetU(F, p3, 1);
    var (restriction, p5) :- GetOptRestriction(F, p4);
    Some((Vui(picture, timing, hrd, picStruct, restriction), p5))
  }

  function PutVui(t: Trace, v: Vui): Trace {
    var t1 := PutPicture(t, v.picture);
    var t2 := PutOptTiming(t1, v.timing);
    var t3 := PutHrds(t2, v.hrd);
    var t4 := Then(t3, U(1, v.picStruct));
    PutOptRestriction(t4, v.restriction)
  }

  lemma VuiReads(F: seq<bool>, t: Trace, v: Vui)
    requires VuiOk(v)
    ensures Reads(F, PutVui(t, v)) == if Reads(F, t).None? then None else Match(GetVui(F, Pos(F, t)), v)
  {
    hide GetU, Reads, GetPicture, PutPicture, PictureOk, GetOptTiming, PutOptTiming, GetHrds, PutHrds, HrdsOk,
      GetOptRestriction, PutOptRestriction;
    PictureReads(F, t, v.picture);
    var t1 := PutPicture(t, v.picture);
    OptTimingReads(F, t1, v.timing);
    var t2 := PutOptTiming(t1, v.timing);
    HrdsReads(F, t2, v.hrd);
    var t3 := PutHrds(t2, v.hrd);
    StepU(F, t3, 1, v.picStruct);
    var t4 := Then(t3, U(1, v.picStruct));
    OptRestrictionReads(F, t4, v.restriction);
  }

  predicate OptVuiOk(o: Option<Vui>) {
    o.Some? ==> VuiOk(o.value)
  }

  function GetOptVui(F: seq<bool>, p: nat): (r: Option<(Option<Vui>, nat)>)
    ensures r.Some? ==> OptVuiOk(r.value.0)
  {
    var (present, p1) :- GetU(F, p, 1);
    if present == 0 then Some((None, p1)) else var (x, p2) :- GetVui(F, p1); Some((Some(x), p2))
  }

  function PutOptVui(t: Trace, o: Option<Vui>): Trace {
    if o.None? then Then(t, U(1, 0)) else PutVui(Then(t, U(1, 1)), o.value)
  }

  lemma OptVuiReads(F: seq<bool>, t: Trace, o: Option<Vui>)
    requires OptVuiOk(o)
    ensures Reads(F, PutOptVui(t, o)) == if Reads(F, t).None? then None else Match(GetOptVui(F, Pos(F, t)), o)
  {
    hide GetU, Reads, GetVui, PutVui, VuiOk;
    StepFlag(F, t, o.Some?);
    if o.Some? {
      VuiReads(F, Then(t, U(1, 1)), o.value);
    }
  }

  // ---------------------------------------------------------------- section 7.3.2.1.1: seq_parameter_set_data

  /** Lists 0 to 5 are 4x4, the others 8x8. */
  function ListSize(i: nat): nat {
    if i < 6 then 16 else 64
  }

  predicate ListOk(l: Option<seq<int>>, i: nat) {
    l.Some? ==> DeltasOk(l.value, ListSize(i))
  }

  function GetList(F: seq<bool>, p: nat, i: nat): (r: Option<(Option<seq<int>>, nat)>)
    ensures r.Some? ==> ListOk(r.value.0, i)
  {
    var (present, p1) :- GetU(F, p, 1);
    if present == 0 then Some((None, p1)) else var (x, p2) :- GetDeltas(F, p1, ListSize(i)); Some((Some(x), p2))
  }

  function PutList(t: Trace, l: Option<seq<int>>): Trace {
    if l.None? then Then(t, U(1, 0)) else PutDeltas(Then(t, U(1, 1)), l.value)
  }

  lemma ListReads(F: seq<bool>, t: Trace, l: Option<seq<int>>, i: nat)
    requires ListOk(l, i)
    ensures Reads(F, PutList(t, l)) == if Reads(F, t).None? then None else Match(GetList(F, Pos(F, t), i), l)
  {
    hide GetU, Reads, GetDeltas, PutDeltas, DeltasOk;
    StepFlag(F, t, l.Some?);
    if l.Some? {
      DeltasReads(F, Then(t, U(1, 1)), l.value, ListSize(i));
    }
  }

  predicate ListsOk(xs: seq<ScalingList>, n: nat) {
    |xs| == n && forall i :: 0 <= i < |xs| ==> ListOk(xs[i], i)
  }

  function GetLists(F: seq<bool>, p: nat, n: nat): (r: Option<(seq<ScalingList>, nat)>)
    ensures r.Some? ==> ListsOk(r.value.0, n)
  {
    if n == 0 then Some(([], p))
    else
      var (xs, p1) :- GetLists(F, p, n - 1);
      var (x, p2) :- GetList(F, p1, n - 1);
      Some((xs + [x], p2))
  }

  function PutLists(t: Trace, xs: seq<ScalingList>): Trace {
    if |xs| == 0 then t else PutList(PutLists(t, xs[..|xs| - 1]), xs[|xs| - 1])
  }

  lemma {:induction false} ListsReads(F: seq<bool>, t: Trace, xs: seq<ScalingList>, n: nat)
    requires ListsOk(xs, n)
    ensures Reads(F, PutLists(t, xs)) == if Reads(F, t).None? then None else Match(GetLists(F, Pos(F, t), n), xs)
  {
    hide Reads, GetList, PutList, ListOk;
    if n > 0 {
      var init, last := xs[..n - 1], xs[n - 1];
      assert xs == init + [last];
      ListsReads(F, t, init, n - 1);
      ListReads(F, PutLists(t, init), last, n - 1);
      if Reads(F, t).Some? {
        MatchLast(GetLists(F, Pos(F, t), n - 1), init, last);
      }
    }
  }

  lemma {:induction false} ListsFail(F: seq<bool>, p: nat, m: nat, n: nat)
    requires m <= n && GetLists(F, p, m) == None
    ensures GetLists(F, p, n) == None
  {
    hide GetList;
    if m < n {
      ListsFail(F, p, m, n - 1);
    }
  }

  function ListCount(chromaFormatIdc: int): nat {
    if chromaFormatIdc == 3 then 12 else 8
  }

  predicate MatrixOk(m: Option<seq<ScalingList>>, n: nat) {
    m.Some? ==> ListsOk(m.value, n)
  }

  function GetMatrix(F: seq<bool>, p: nat, n: nat): (r: Option<(Option<seq<ScalingList>>, nat)>)
    ensures r.Some? ==> MatrixOk(r.value.0, n)
  {
    var (present, p1) :- GetU(F, p, 1);
    if present == 0 then Some((None, p1)) else var (x, p2) :- GetLists(F, p1, n); Some((Some(x), p2))
  }

  function PutMatrix(t: Trace, m: Option<seq<ScalingList>>): Trace {
    if m.None? then Then(t, U(1, 0)) else PutLists(Then(t, U(1, 1)), m.value)
  }

  lemma MatrixReads(F: seq<bool>, t: Trace, m: Option<seq<ScalingList>>, n: nat)
    requires MatrixOk(m, n)
    ensures Reads(F, PutMatrix(t, m)) == if Reads(F, t).None? then None else Match(GetMatrix(F, Pos(F, t), n), m)
  {
    hide GetU, Reads, GetLists, PutLists, ListsOk;
    StepFlag(F, t, m.Some?);
    if m.Some? {
      ListsReads(F, Then(t, U(1, 1)), m.value, n);
    }
  }

  predicate ChromaOk(c: ChromaInfo) {
    && BitWhenOk(c.separatePlanes, c.chromaFormatIdc == 3)
    && MatrixOk(c.scaling, ListCount(c.chromaFormatIdc))
  }

  function GetChroma(F: seq<bool>, p: nat): (r: Option<(ChromaInfo, nat)>)
    ensures r.Some? ==> ChromaOk(r.value.0)
  {
    var (chromaFormatIdc, p1) :- GetUE(F, p);
    var (separatePlanes, p2) :- GetBitWhen(F, p1, chromaFormatIdc == 3);
    var (bitDepthLuma, p3) :- GetUE(F, p2);
    var (bitDepthChroma, p4) :- GetUE(F, p3);
    var (bypass, p5) :- GetU(F, p4, 1);
    var (scaling, p6) :- GetMatrix(F, p5, ListCount(chromaFormatIdc));
    Some((ChromaInfo(chromaFormatIdc, separatePlanes, bitDepthLuma, bitDepthChroma, bypass, scaling), p6))
  }

  function PutChroma(t: Trace, c: ChromaInfo): Trace {
    var t1 := Then(t, UE(c.chromaFormatIdc));
    var t2 := PutBitWhen(t1, c.separatePlanes);
    var t3 := Then(t2, UE(c.bitDepthLuma));
    var t4 := Then(t3, UE(c.bitDepthChroma));
    var t5 := Then(t4, U(1, c.bypass));
    PutMatrix(t5, c.scaling)
  }

  lemma ChromaReads(F: seq<bool>, t: Trace, c: ChromaInfo)
    requires ChromaOk(c)
    ensures Reads(F, PutChroma(t, c)) == if Reads(F, t).None? then None else Match(GetChroma(F, Pos(F, t)), c)
  {
    hide GetU, GetUE, Reads, GetBitWhen, PutBitWhen, BitWhenOk, GetMatrix, PutMatrix, MatrixOk;
    StepUE(F, t, c.chromaFormatIdc);
    var t1 := Then(t, UE(c.chromaFormatIdc));
    BitWhenReads(F, t1, c.separatePlanes, c.chromaFormatIdc == 3);
    var t2 := PutBitWhen(t1, c.separatePlanes);
    StepUE(F, t2, c.bitDepthLuma);
    var t3 := Then(t2, UE(c.bitDepthLuma));
    StepUE(F, t3, c.bitDepthChroma);
    var t4 := Then(t3, UE(c.bitDepthChroma));
    StepU(F, t4, 1, c.bypass);
    var t5 := Then(t4, U(1, c.bypass));
    MatrixReads(F, t5, c.scaling, ListCount(c.chromaFormatIdc));
  }

  predicate ChromaWhenOk(o: Option<ChromaInfo>, present: bool) {
    (o.Some? <==> present) && (o.Some? ==> ChromaOk(o.value))
  }

  /** The chroma format follows only certain profiles. */
  function GetChromaWhen(F: seq<bool>, p: nat, present: bool): (r: Option<(Option<ChromaInfo>, nat)>)
    ensures r.Some? ==> ChromaWhenOk(r.value.0, present)
  {
    if !present then Some((None, p)) else var (x, q) :- GetChroma(F, p); Some((Some(x), q))
  }

  function PutChromaWhen(t: Trace, o: Option<ChromaInfo>): Trace {
    if o.None? then t else PutChroma(t, o.value)
  }

  lemma ChromaWhenReads(F: seq<bool>, t: Trace, o: Option<ChromaInfo>, present: bool)
    requires ChromaWhenOk(o, present)
    ensures Reads(F, PutChromaWhen(t, o)) == if Reads(F, t).None? then None
      else Match(GetChromaWhen(F, Pos(F, t), present), o)
  {
    hide Reads, GetChroma, PutChroma, ChromaOk;
    if present {
      ChromaReads(F, t, o.value);
    }
  }

  predicate CycleOk(c: Cycle) {
    DeltasOk(c.offsets, Count(c.cycleLength))
  }

  function GetCycle(F: seq<bool>, p: nat): (r: Option<(Cycle, nat)>)
    ensures r.Some? ==> CycleOk(r.value.0)
  {
    var (deltaAlwaysZero, p1) :- GetU(F, p, 1);
    var (offsetNonRef, p2) :- GetSE(F, p1);
    var (offsetTopBottom, p3) :- GetSE(F, p2);
    var (cycleLength, p4) :- GetUE(F, p3);
    var (offsets, p5) :- GetDeltas(F, p4, Count(cycleLength));
    Some((Cycle(deltaAlwaysZero, offsetNonRef, offsetTopBottom, cycleLength, offsets), p5))
  }

  function PutCycle(t: Trace, c: Cycle): Trace {
    var t1 := Then(t, U(1, c.deltaAlwaysZero));
    var t2 := Then(t1, SE(c.offsetNonRef));
    var t3 := Then(t2, SE(c.offsetTopBottom));
    var t4 := Then(t3, UE(c.cycleLength));
    PutDeltas(t4, c.offsets)
  }

  lemma CycleReads(F: seq<bool>, t: Trace, c: Cycle)
    requires CycleOk(c)
    ensures Reads(F, PutCycle(t, c)) == if Reads(F, t).None? then None else Match(GetCycle(F, Pos(F, t)), c)
  {
    hide GetU, GetUE, GetSE, Reads, GetDeltas, PutDeltas, DeltasOk;
    StepU(F, t, 1, c.deltaAlwaysZero);
    var t1 := Then(t, U(1, c.deltaAlwaysZero));
    StepSE(F, t1, c.offsetNonRef);
    var t2 := Then(t1, SE(c.offsetNonRef));
    StepSE(F, t2, c.offsetTopBottom);
    var t3 := Then(t2, SE(c.offsetTopBottom));
    StepUE(F, t3, c.cycleLength);
    var t4 := Then(t3, UE(c.cycleLength));
    DeltasReads(F, t4, c.offsets, Count(c.cycleLength));
  }

  predicate PocOk(poc: Poc) {
    match poc
    case PocLsb(_) => true
    case PocCycle(cycle) => CycleOk(cycle)
    case PocOther(pocType) => pocType != 0 && pocType != 1
  }

  function GetPoc(F: seq<bool>, p: nat): (r: Option<(Poc, nat)>)
    ensures r.Some? ==> PocOk(r.value.0)
  {
    var (pocType, p1) :- GetUE(F, p);
    if pocType == 0 then var (lsb, p2) :- GetUE(F, p1); Some((PocLsb(lsb), p2))
    else if pocType == 1 then var (cycle, p2) :- GetCycle(F, p1); Some((PocCycle(cycle), p2))
    else Some((PocOther(pocType), p1))
  }

  function PutPoc(t: Trace, poc: Poc): Trace {
    match poc
    case PocLsb(lsb) => Then(Then(t, UE(0)), UE(lsb))
    case PocCycle(cycle) => PutCycle(Then(t, UE(1)), cycle)
    case PocOther(pocType) => Then(t, UE(pocType))
  }

  lemma PocReads(F: seq<bool>, t: Trace, poc: Poc)
    requires PocOk(poc)
    ensures Reads(F, PutPoc(t, poc)) == if Reads(F, t).None? then None else Match(GetPoc(F, Pos(F, t)), poc)
  {
    hide GetUE, Reads, GetCycle, PutCycle, CycleOk;
    match poc
    case PocLsb(lsb) =>
      StepUE(F, t, 0);
      StepUE(F, Then(t, UE(0)), lsb);
    case PocCycle(cycle) =>
      StepUE(F, t, 1);
      CycleReads(F, Then(t, UE(1)), cycle);
    case PocOther(pocType) =>
      StepUE(F, t, pocType);
  }

  function GetCrop(F: seq<bool>, p: nat): (r: Option<(Crop, nat)>)
  {
    var (left, p1) :- GetUE(F, p);
    var (right, p2) :- GetUE(F, p1);
    var (top, p3) :- GetUE(F, p2);
    var (bottom, p4) :- GetUE(F, p3);
    Some((Crop(left, right, top, bottom), p4))
  }

  function PutCrop(t: Trace, c: Crop): Trace {
    var t1 := Then(t, UE(c.left));
    var t2 := Then(t1, UE(c.right));
    var t3 := Then(t2, UE(c.top));
    Then(t3, UE(c.bottom))
  }

  lemma CropReads(F: seq<bool>, t: Trace, c: Crop)
    ensures Reads(F, PutCrop(t, c)) == if Reads(F, t).None? then None else Match(GetCrop(F, Pos(F, t)), c)
  {
    hide GetUE, Reads;
    StepUE(F, t, c.left);
    var t1 := Then(t, UE(c.left));
    StepUE(F, t1, c.right);
    var t2 := Then(t1, UE(c.right));
    StepUE(F, t2, c.top);
    var t3 := Then(t2, UE(c.top));
    StepUE(F, t3, c.bottom);
  }

  function GetOptCrop(F: seq<bool>, p: nat): (r: Option<(Option<Crop>, nat)>)
  {
    var (present, p1) :- GetU(F, p, 1);
    if present == 0 then Some((None, p1)) else var (x, p2) :- GetCrop(F, p1); Some((Some(x), p2))
  }

  function PutOptCrop(t: Trace, o: Option<Crop>): Trace {
    if o.None? then Then(t, U(1, 0)) else PutCrop(Then(t, U(1, 1)), o.value)
  }

  lemma OptCropReads(F: seq<bool>, t: Trace, o: Option<Crop>)
    ensures Reads(F, PutOptCrop(t, o)) == if Reads(F, t).None? then None else Match(GetOptCrop(F, Pos(F, t)), o)
  {
    hide GetU, Reads, GetCrop, PutCrop;
    StepFlag(F, t, o.Some?);
    if o.Some? {
      CropReads(F, Then(t, U(1, 1)), o.value);
    }
  }

  predicate FrameOk(f: FrameInfo) {
    BitWhenOk(f.mbAdaptive, f.frameMbsOnly == 0)
  }

  function GetFrame(F: seq<bool>, p: nat): (r: Option<(FrameInfo, nat)>)
    ensures r.Some? ==> FrameOk(r.value.0)
  {
    var (maxNumRefFrames, p1) :- GetUE(F, p);
    var (gapsAllowed, p2) :- GetU(F, p1, 1);
    var (widthInMbs, p3) :- GetUE(F, p2);
    var (heightInMapUnits, p4) :- GetUE(F, p3);
    var (frameMbsOnly, p5) :- GetU(F, p4, 1);
    var (mbAdaptive, p6) :- GetBitWhen(F, p5, frameMbsOnly == 0);
    var (direct8x8, p7) :- GetU(F, p6, 1);
    var (crop, p8) :- GetOptCrop(F, p7);
    Some((FrameInfo(maxNumRefFrames, gapsAllowed, widthInMbs, heightInMapUnits, frameMbsOnly, mbAdaptive, direct8x8,
      crop), p8))
  }

  function PutFrame(t: Trace, f: FrameInfo): Trace {
    var t1 := Then(t, UE(f.maxNumRefFrames));
    var t2 := Then(t1, U(1, f.gapsAllowed));
    var t3 := Then(t2, UE(f.widthInMbs));
    var t4 := Then(t3, UE(f.heightInMapUnits));
    var t5 := Then(t4, U(1, f.frameMbsOnly));
    var t6 := PutBitWhen(t5, f.mbAdaptive);
    var t7 := Then(t6, U(1, f.direct8x8));
    PutOptCrop(t7, f.crop)
  }

  lemma FrameReads(F: seq<bool>, t: Trace, f: FrameInfo)
    requires FrameOk(f)
    ensures Reads(F, PutFrame(t, f)) == if Reads(F, t).None? then None else Match(GetFrame(F, Pos(F, t)), f)
  {
    hide GetU, GetUE, Reads, GetBitWhen, PutBitWhen, BitWhenOk, GetOptCrop, PutOptCrop;
    StepUE(F, t, f.maxNumRefFrames);
    var t1 := Then(t, UE(f.maxNumRefFrames));
    StepU(F, t1, 1, f.gapsAllowed);
    var t2 := Then(t1, U(1, f.gapsAllowed));
    StepUE(F, t2, f.widthInMbs);
    var t3 := Then(t2, UE(f.widthInMbs));
    StepUE(F, t3, f.heightInMapUnits);
    var t4 := Then(t3, UE(f.heightInMapUnits));
    StepU(F, t4, 1, f.frameMbsOnly);
    var t5 := Then(t4, U(1, f.frameMbsOnly));
    BitWhenReads(F, t5, f.mbAdaptive, f.frameMbsOnly == 0);
    var t6 := PutBitWhen(t5, f.mbAdaptive);
    StepU(F, t6, 1, f.direct8x8);
    var t7 := Then(t6, U(1, f.direct8x8));
    OptCropReads(F, t7, f.crop);
  }

  /** The profiles whose parameter sets carry chroma format and scaling matrices. */
  predicate HasChromaInfo(profileIdc: uint32) {
    profileIdc in {100, 110, 122, 244, 44, 83, 86, 118, 128, 138, 144}
  }

  function GetProfile(F: seq<bool>, p: nat): (r: Option<(Profile, nat)>)
  {
    var (profileIdc, p1) :- GetU(F, p, 8);
    var (constraints, p2) :- GetU(F, p1, 8);
    var (levelIdc, p3) :- GetU(F, p2, 8);
    Some((Profile(profileIdc, constraints, levelIdc), p3))
  }

  function PutProfile(t: Trace, f: Profile): Trace {
    var t1 := Then(t, U(8, f.profileIdc));
    var t2 := Then(t1, U(8, f.constraints));
    Then(t2, U(8, f.levelIdc))
  }

  lemma ProfileReads(F: seq<bool>, t: Trace, f: Profile)
    ensures Reads(F, PutProfile(t, f)) == if Reads(F, t).None? then None else Match(GetProfile(F, Pos(F, t)), f)
  {
    hide GetU, Reads;
    StepU(F, t, 8, f.profileIdc);
    var t1 := Then(t, U(8, f.profileIdc));
    StepU(F, t1, 8, f.constraints);
    var t2 := Then(t1, U(8, f.constraints));
    StepU(F, t2, 8, f.levelIdc);
  }

  predicate SpsOk(s: Sps) {
    && ChromaWhenOk(s.chroma, HasChromaInfo(s.profile.profileIdc))
    && PocOk(s.poc)
    && FrameOk(s.frame)
    && OptVuiOk(s.vui)
  }

  function GetSps(F: seq<bool>, p: nat): (r: Option<(Sps, nat)>)
    ensures r.Some? ==> SpsOk(r.value.0)
  {
    var (profile, p1) :- GetProfile(F, p);
    var (spsId, p2) :- GetUE(F, p1);
    var (chroma, p3) :- GetChromaWhen(F, p2, HasChromaInfo(profile.profileIdc));
    var (log2MaxFrameNum, p4) :- GetUE(F, p3);
    var (poc, p5) :- GetPoc(F, p4);
    var (frame, p6) :- GetFrame(F, p5);
    var (vui, p7) :- GetOptVui(F, p6);
    Some((Sps(profile, spsId, chroma, log2MaxFrameNum, poc, frame, vui), p7))
  }

  function PutSps(t: Trace, s: Sps): Trace {
    var t1 := PutProfile(t, s.profile);
    var t2 := Then(t1, UE(s.spsId));
    var t3 := PutChromaWhen(t2, s.chroma);
    var t4 := Then(t3, UE(s.log2MaxFrameNum));
    var t5 := PutPoc(t4, s.poc);
    var t6 := PutFrame(t5, s.frame);
    PutOptVui(t6, s.vui)
  }

  lemma SpsReads(F: seq<bool>, t: Trace, s: Sps)
    requires SpsOk(s)
    ensures Reads(F, PutSps(t, s)) == if Reads(F, t).None? then None else Match(GetSps(F, Pos(F, t)), s)
  {
    hide GetUE, Reads, GetProfile, PutProfile, GetChromaWhen, PutChromaWhen, ChromaWhenOk, GetPoc, PutPoc, PocOk,
      GetFrame, PutFrame, FrameOk, GetOptVui, PutOptVui, OptVuiOk;
    ProfileReads(F, t, s.profile);
    var t1 := PutProfile(t, s.profile);
    StepUE(F, t1, s.spsId);
    var t2 := Then(t1, UE(s.spsId));
    ChromaWhenReads(F, t2, s.chroma, HasChromaInfo(s.profile.profileIdc));
    var t3 := PutChromaWhen(t2, s.chroma);
    StepUE(F, t3, s.log2MaxFrameNum);
    var t4 := Then(t3, UE(s.log2MaxFrameNum));
    PocReads(F, t4, s.poc);
    var t5 := PutPoc(t4, s.poc);
    FrameReads(F, t5, s.frame);
    var t6 := PutFrame(t5, s.frame);
    OptVuiReads(F, t6, s.vui);
  }
}
