/**
  The syntax of sections 7.3.2.1.1, 7.3.2.1.1.1, E.1.1 and E.1.2 of Rec. ITU-T H.264 as a table: every row is one
  descriptor with its width and its value. What the rewriter accepts reads as the rows of what it found, and what
  it writes begins with the code of the rows of the patched fields.
 */
module SpsTable {
  import opened Wrappers
  import opened Bits
  import opened Emulation
  import opened Syntax
  import opened BitStream
  import opened Sps
  import opened SpsRewriter
  import opened SpsTheorems

  // ---------------------------------------------------------------- the rows

  function Flag<T>(o: Option<T>): Elem {
    U(1, if o.Some? then 1 else 0)
  }

  function Bit(o: Option<uint32>): seq<Elem> {
    match o
    case None => []
    case Some(b) => [U(1, b)]
  }

  /** Section 7.3.2.1.1.1, without its early end: the code reads every delta. */
  function Deltas(deltas: seq<int>): seq<Elem> {
    if |deltas| == 0 then [] else Deltas(deltas[..|deltas| - 1]) + [SE(deltas[|deltas| - 1])]
  }

  function ListRows(list: ScalingList): seq<Elem> {
    match list
    case None => [U(1, 0)]
    case Some(deltas) => [U(1, 1)] + Deltas(deltas)
  }

  function ListsRows(lists: seq<ScalingList>): seq<Elem> {
    if |lists| == 0 then [] else ListsRows(lists[..|lists| - 1]) + ListRows(lists[|lists| - 1])
  }

  function ChromaRows(o: Option<ChromaInfo>): seq<Elem> {
    match o
    case None => []
    case Some(c) =>
      [UE(c.chromaFormatIdc)] + Bit(c.separatePlanes) + [UE(c.bitDepthLuma), UE(c.bitDepthChroma), U(1, c.bypass)]
      + [Flag(c.scaling)] + match c.scaling case None => [] case Some(lists) => ListsRows(lists)
  }

  function PocRows(poc: Poc): seq<Elem> {
    match poc
    case PocLsb(log2MaxLsb) => [UE(0), UE(log2MaxLsb)]
    case PocCycle(c) =>
      [UE(1), U(1, c.deltaAlwaysZero), SE(c.offsetNonRef), SE(c.offsetTopBottom), UE(c.cycleLength)] + Deltas(c.offsets)
    case PocOther(pocType) => [UE(pocType)]
  }

  function FrameRows(f: FrameInfo): seq<Elem> {
    [UE(f.maxNumRefFrames), U(1, f.gapsAllowed), UE(f.widthInMbs), UE(f.heightInMapUnits), U(1, f.frameMbsOnly)]
    + Bit(f.mbAdaptive) + [U(1, f.direct8x8), Flag(f.crop)]
    + match f.crop case None => [] case Some(c) => [UE(c.left), UE(c.right), UE(c.top), UE(c.bottom)]
  }

  function CpbRows(cpbs: seq<Cpb>): seq<Elem> {
    if |cpbs| == 0 then []
    else
      var c := cpbs[|cpbs| - 1];
      CpbRows(cpbs[..|cpbs| - 1]) + [UE(c.bitRateValue), UE(c.cpbSizeValue), U(1, c.cbrFlag)]
  }

  /** Section E.1.2, behind its present flag. */
  function HrdRows(o: Option<Hrd>): seq<Elem> {
    [Flag(o)] + match o
      case None => []
      case Some(h) =>
        [UE(h.cpbCntMinus1), U(4, h.bitRateScale), U(4, h.cpbSizeScale)] + CpbRows(h.cpbs)
        + [U(5, h.initialDelayLength), U(5, h.removalDelayLength), U(5, h.outputDelayLength), U(5, h.timeOffsetLength)]
  }

  function AspectRows(o: Option<Aspect>): seq<Elem> {
    [Flag(o)] + match o
      case None => []
      case Some(a) => [U(8, a.idc)] + match a.sar case None => [] case Some(s) => [U(16, s.width), U(16, s.height)]
  }

  function SignalRows(o: Option<VideoSignal>): seq<Elem> {
    [Flag(o)] + match o
      case None => []
      case Some(v) =>
        [U(3, v.format), U(1, v.fullRange), Flag(v.colour)] + match v.colour
          case None => []
          case Some(c) => [U(8, c.primaries), U(8, c.transfer), U(8, c.matrix)]
  }

  function OverscanRows(o: Option<uint32>): seq<Elem> {
    [Flag(o)] + Bit(o)
  }

  function ChromaLocRows(o: Option<ChromaLoc>): seq<Elem> {
    [Flag(o)] + match o case None => [] case Some(l) => [UE(l.top), UE(l.bottom)]
  }

  function TimingRows(o: Option<Timing>): seq<Elem> {
    [Flag(o)] + match o
      case None => []
      case Some(t) => [U(32, t.unitsInTick), U(32, t.timeScale), U(1, t.fixedRate)]
  }

  function RestrictionRows(o: Option<Restriction>): seq<Elem> {
    [Flag(o)] + match o
      case None => []
      case Some(r) =>
        [U(1, r.vectorsOverBoundaries), UE(r.maxBytesPerPic), UE(r.maxBitsPerMb), UE(r.maxMvHorizontal),
         UE(r.maxMvVertical), UE(r.maxNumReorderFrames), UE(r.maxDecFrameBuffering)]
  }

  /** Section E.1.1, behind its present flag. */
  function VuiRows(o: Option<Vui>): seq<Elem> {
    [Flag(o)] + match o
      case None => []
      case Some(v) =>
        AspectRows(v.picture.aspect) + OverscanRows(v.picture.overscan) + SignalRows(v.picture.signal)
        + ChromaLocRows(v.picture.chromaLoc) + TimingRows(v.timing)
        + HrdRows(v.hrd.nal) + HrdRows(v.hrd.vcl) + Bit(v.hrd.lowDelay)
        + [U(1, v.picStruct)] + RestrictionRows(v.restriction)
  }

  /** Section 7.3.2.1.1, up to the stop bit. */
  function Rows(s: Sps): seq<Elem> {
    [U(8, s.profile.profileIdc), U(8, s.profile.constraints), U(8, s.profile.levelIdc), UE(s.spsId)]
    + ChromaRows(s.chroma) + [UE(s.log2MaxFrameNum)] + PocRows(s.poc) + FrameRows(s.frame) + VuiRows(s.vui)
  }

  // ---------------------------------------------------------------- which rows are there

  /** The chroma fields, for these profiles only, and what chroma format 3 brings with it. */
  predicate ChromaShaped(s: Sps) {
    && (s.chroma.Some? <==> s.profile.profileIdc in {44, 83, 86, 100, 110, 118, 122, 128, 138, 144, 244})
    && (s.chroma.Some? ==>
          var c := s.chroma.value;
          && (c.separatePlanes.Some? <==> c.chromaFormatIdc == 3)
          && (c.scaling.Some? ==>
                && |c.scaling.value| == (if c.chromaFormatIdc == 3 then 12 else 8)
                && forall i :: 0 <= i < |c.scaling.value| && c.scaling.value[i].Some? ==>
                     |c.scaling.value[i].value| == if i < 6 then 16 else 64))
  }

  predicate HrdShaped(o: Option<Hrd>) {
    o.Some? ==> |o.value.cpbs| == if o.value.cpbCntMinus1 < 0 then 0 else o.value.cpbCntMinus1 + 1
  }

  predicate VuiShaped(o: Option<Vui>) {
    o.Some? ==>
      var v := o.value;
      && (v.picture.aspect.Some? ==> (v.picture.aspect.value.sar.Some? <==> v.picture.aspect.value.idc == 255))
      && HrdShaped(v.hrd.nal) && HrdShaped(v.hrd.vcl)
      && (v.hrd.lowDelay.Some? <==> v.hrd.nal.Some? || v.hrd.vcl.Some?)
  }

  /** Optional rows are there under the conditions the syntax states, and loops run as often as it says. */
  predicate Shaped(s: Sps) {
    && ChromaShaped(s)
    && (s.poc.PocOther? ==> s.poc.pocType != 0 && s.poc.pocType != 1)
    && (s.poc.PocCycle? ==> |s.poc.cycle.offsets| == if s.poc.cycle.cycleLength < 0 then 0 else s.poc.cycle.cycleLength)
    && (s.frame.mbAdaptive.Some? <==> s.frame.frameMbsOnly == 0)
    && VuiShaped(s.vui)
  }

  // ---------------------------------------------------------------- rows and traces

  /** Rows, read or written one after the other. */
  function Listed(t: Trace, rows: seq<Elem>): Trace {
    if |rows| == 0 then t else Then(Listed(t, rows[..|rows| - 1]), rows[|rows| - 1])
  }

  lemma {:induction false} ListedBoth(t: Trace, a: seq<Elem>, b: seq<Elem>)
    ensures Listed(t, a + b) == Listed(Listed(t, a), b)
  {
    if |b| == 0 {
      assert a + b == a;
    } else {
      ListedBoth(t, a, b[..|b| - 1]);
      assert (a + b)[..|a + b| - 1] == a + b[..|b| - 1];
    }
  }

  lemma Listed1(t: Trace, a: Elem)
    ensures Listed(t, []) == t && Listed(t, [a]) == Then(t, a)
  {
    assert [a][..0] == [];
  }

  lemma Listed2(t: Trace, a: Elem, b: Elem)
    ensures Listed(t, [a, b]) == Then(Then(t, a), b)
  {
    hide Listed;
    ListedBoth(t, [a], [b]);
    assert [a] + [b] == [a, b];
    Listed1(t, a);
    Listed1(Then(t, a), b);
  }

  lemma Listed3(t: Trace, a: Elem, b: Elem, c: Elem)
    ensures Listed(t, [a, b, c]) == Then(Then(Then(t, a), b), c)
  {
    hide Listed;
    ListedBoth(t, [a, b], [c]);
    assert [a, b] + [c] == [a, b, c];
    Listed2(t, a, b);
    Listed1(Then(Then(t, a), b), c);
  }

  lemma Listed4(t: Trace, a: Elem, b: Elem, c: Elem, d: Elem)
    ensures Listed(t, [a, b, c, d]) == Then(Then(Then(Then(t, a), b), c), d)
  {
    hide Listed;
    ListedBoth(t, [a, b], [c, d]);
    assert [a, b] + [c, d] == [a, b, c, d];
    Listed2(t, a, b);
    Listed2(Then(Then(t, a), b), c, d);
  }

  lemma Listed5(t: Trace, a: Elem, b: Elem, c: Elem, d: Elem, e: Elem)
    ensures Listed(t, [a, b, c, d, e]) == Then(Then(Then(Then(Then(t, a), b), c), d), e)
  {
    hide Listed;
    ListedBoth(t, [a, b, c, d], [e]);
    assert [a, b, c, d] + [e] == [a, b, c, d, e];
    Listed4(t, a, b, c, d);
    Listed1(Then(Then(Then(Then(t, a), b), c), d), e);
  }

  lemma Listed7(t: Trace, a: Elem, b: Elem, c: Elem, d: Elem, e: Elem, f: Elem, g: Elem)
    ensures Listed(t, [a, b, c, d, e, f, g]) == Then(Then(Then(Then(Then(Then(Then(t, a), b), c), d), e), f), g)
  {
    hide Listed;
    ListedBoth(t, [a, b, c, d, e], [f, g]);
    assert [a, b, c, d, e] + [f, g] == [a, b, c, d, e, f, g];
    Listed5(t, a, b, c, d, e);
    Listed2(Then(Then(Then(Then(Then(t, a), b), c), d), e), f, g);
  }

  lemma BitListed(t: Trace, o: Option<uint32>)
    ensures Listed(t, Bit(o)) == PutBitWhen(t, o)
  {
    hide Listed;
    Listed1(t, if o.Some? then U(1, o.value) else U(1, 0));
  }

  lemma {:induction false} DeltasListed(t: Trace, deltas: seq<int>)
    ensures Listed(t, Deltas(deltas)) == PutDeltas(t, deltas)
  {
    hide Listed;
    if |deltas| == 0 {
      Listed1(t, U(1, 0));
    } else {
      var init, last := deltas[..|deltas| - 1], SE(deltas[|deltas| - 1]);
      DeltasListed(t, init);
      ListedBoth(t, Deltas(init), [last]);
      Listed1(PutDeltas(t, init), last);
    }
  }

  lemma ListListed(t: Trace, list: ScalingList)
    ensures Listed(t, ListRows(list)) == PutList(t, list)
  {
    hide Listed, Deltas, PutDeltas;
    Listed1(t, U(1, 0));
    if list.Some? {
      Listed1(t, U(1, 1));
      ListedBoth(t, [U(1, 1)], Deltas(list.value));
      DeltasListed(Then(t, U(1, 1)), list.value);
    }
  }

  lemma {:induction false} ListsListed(t: Trace, lists: seq<ScalingList>)
    ensures Listed(t, ListsRows(lists)) == PutLists(t, lists)
  {
    hide Listed, ListRows, PutList;
    if |lists| == 0 {
      Listed1(t, U(1, 0));
    } else {
      var init, last := lists[..|lists| - 1], lists[|lists| - 1];
      ListsListed(t, init);
      ListedBoth(t, ListsRows(init), ListRows(last));
      ListListed(PutLists(t, init), last);
    }
  }

  lemma ChromaListed(t: Trace, o: Option<ChromaInfo>)
    ensures Listed(t, ChromaRows(o)) == PutChromaWhen(t, o)
  {
    hide Listed, ListsRows, PutLists, Bit, PutBitWhen;
    Listed1(t, U(1, 0));
    if o.Some? {
      var c := o.value;
      var head, depths := [UE(c.chromaFormatIdc)], [UE(c.bitDepthLuma), UE(c.bitDepthChroma), U(1, c.bypass)];
      var flag := [Flag(c.scaling)];
      var lists := match c.scaling case None => [] case Some(lists) => ListsRows(lists);
      ListedBoth(t, head + Bit(c.separatePlanes) + depths + flag, lists);
      ListedBoth(t, head + Bit(c.separatePlanes) + depths, flag);
      ListedBoth(t, head + Bit(c.separatePlanes), depths);
      ListedBoth(t, head, Bit(c.separatePlanes));
      Listed1(t, UE(c.chromaFormatIdc));
      var t1 := Then(t, UE(c.chromaFormatIdc));
      BitListed(t1, c.separatePlanes);
      var t2 := PutBitWhen(t1, c.separatePlanes);
      Listed3(t2, UE(c.bitDepthLuma), UE(c.bitDepthChroma), U(1, c.bypass));
      var t3 := Then(Then(Then(t2, UE(c.bitDepthLuma)), UE(c.bitDepthChroma)), U(1, c.bypass));
      Listed1(t3, Flag(c.scaling));
      Listed1(Then(t3, U(1, 0)), U(1, 0));
      if c.scaling.Some? {
        ListsListed(Then(t3, U(1, 1)), c.scaling.value);
      }
    }
  }

  lemma PocListed(t: Trace, poc: Poc)
    ensures Listed(t, PocRows(poc)) == PutPoc(t, poc)
  {
    hide Listed, Deltas, PutDeltas;
    match poc
    case PocLsb(lsb) => Listed2(t, UE(0), UE(lsb));
    case PocCycle(c) =>
      var a, b, d, e := U(1, c.deltaAlwaysZero), SE(c.offsetNonRef), SE(c.offsetTopBottom), UE(c.cycleLength);
      Listed5(t, UE(1), a, b, d, e);
      ListedBoth(t, [UE(1), a, b, d, e], Deltas(c.offsets));
      DeltasListed(Then(Then(Then(Then(Then(t, UE(1)), a), b), d), e), c.offsets);
    case PocOther(pocType) => Listed1(t, UE(pocType));
  }

  lemma FrameListed(t: Trace, f: FrameInfo)
    ensures Listed(t, FrameRows(f)) == PutFrame(t, f)
  {
    hide Listed, Bit, PutBitWhen;
    var a, b, c, d, e :=
      UE(f.maxNumRefFrames), U(1, f.gapsAllowed), UE(f.widthInMbs), UE(f.heightInMapUnits), U(1, f.frameMbsOnly);
    var crop := match f.crop case None => [] case Some(c) => [UE(c.left), UE(c.right), UE(c.top), UE(c.bottom)];
    var flags := [U(1, f.direct8x8), Flag(f.crop)];
    ListedBoth(t, [a, b, c, d, e] + Bit(f.mbAdaptive) + flags, crop);
    ListedBoth(t, [a, b, c, d, e] + Bit(f.mbAdaptive), flags);
    ListedBoth(t, [a, b, c, d, e], Bit(f.mbAdaptive));
    Listed5(t, a, b, c, d, e);
    var t1 := Then(Then(Then(Then(Then(t, a), b), c), d), e);
    BitListed(t1, f.mbAdaptive);
    var t2 := PutBitWhen(t1, f.mbAdaptive);
    Listed2(t2, U(1, f.direct8x8), Flag(f.crop));
    var t3 := Then(Then(t2, U(1, f.direct8x8)), Flag(f.crop));
    Listed1(t3, U(1, 0));
    if f.crop.Some? {
      var x := f.crop.value;
      Listed4(t3, UE(x.left), UE(x.right), UE(x.top), UE(x.bottom));
    }
  }

  lemma {:induction false} CpbsListed(t: Trace, cpbs: seq<Cpb>)
    ensures Listed(t, CpbRows(cpbs)) == PutCpbs(t, cpbs)
  {
    hide Listed;
    if |cpbs| == 0 {
      Listed1(t, U(1, 0));
    } else {
      var init, c := cpbs[..|cpbs| - 1], cpbs[|cpbs| - 1];
      CpbsListed(t, init);
      ListedBoth(t, CpbRows(init), [UE(c.bitRateValue), UE(c.cpbSizeValue), U(1, c.cbrFlag)]);
      Listed3(PutCpbs(t, init), UE(c.bitRateValue), UE(c.cpbSizeValue), U(1, c.cbrFlag));
    }
  }

  lemma HrdListed(t: Trace, o: Option<Hrd>)
    ensures Listed(t, HrdRows(o)) == PutOptHrd(t, o)
  {
    hide Listed, CpbRows, PutCpbs;
    Listed1(t, Flag(o));
    var t0 := Then(t, Flag(o));
    Listed1(t0, U(1, 0));
    if o.None? {
      ListedBoth(t, [Flag(o)], []);
    } else {
      var h := o.value;
      var head := [UE(h.cpbCntMinus1), U(4, h.bitRateScale), U(4, h.cpbSizeScale)];
      var a, b, c, d := U(5, h.initialDelayLength), U(5, h.removalDelayLength), U(5, h.outputDelayLength),
        U(5, h.timeOffsetLength);
      ListedBoth(t, [Flag(o)], head + CpbRows(h.cpbs) + [a, b, c, d]);
      ListedBoth(t0, head + CpbRows(h.cpbs), [a, b, c, d]);
      ListedBoth(t0, head, CpbRows(h.cpbs));
      Listed3(t0, UE(h.cpbCntMinus1), U(4, h.bitRateScale), U(4, h.cpbSizeScale));
      var t1 := Then(Then(Then(t0, UE(h.cpbCntMinus1)), U(4, h.bitRateScale)), U(4, h.cpbSizeScale));
      CpbsListed(t1, h.cpbs);
      Listed4(PutCpbs(t1, h.cpbs), a, b, c, d);
    }
  }

  lemma AspectListed(t: Trace, o: Option<Aspect>)
    ensures Listed(t, AspectRows(o)) == PutOptAspect(t, o)
  {
    hide Listed;
    Listed1(t, Flag(o));
    var t0 := Then(t, Flag(o));
    Listed1(t0, U(1, 0));
    if o.None? {
      ListedBoth(t, [Flag(o)], []);
    } else {
      var a := o.value;
      var sar := match a.sar case None => [] case Some(s) => [U(16, s.width), U(16, s.height)];
      ListedBoth(t, [Flag(o)], [U(8, a.idc)] + sar);
      ListedBoth(t0, [U(8, a.idc)], sar);
      Listed1(t0, U(8, a.idc));
      var t1 := Then(t0, U(8, a.idc));
      Listed1(t1, U(1, 0));
      if a.sar.Some? {
        Listed2(t1, U(16, a.sar.value.width), U(16, a.sar.value.height));
      }
    }
  }

  lemma SignalListed(t: Trace, o: Option<VideoSignal>)
    ensures Listed(t, SignalRows(o)) == PutOptSignal(t, o)
  {
    hide Listed;
    Listed1(t, Flag(o));
    var t0 := Then(t, Flag(o));
    Listed1(t0, U(1, 0));
    if o.None? {
      ListedBoth(t, [Flag(o)], []);
    } else {
      var v := o.value;
      var head := [U(3, v.format), U(1, v.fullRange), Flag(v.colour)];
      var colour := match v.colour case None => [] case Some(c) => [U(8, c.primaries), U(8, c.transfer),
        U(8, c.matrix)];
      ListedBoth(t, [Flag(o)], head + colour);
      ListedBoth(t0, head, colour);
      Listed3(t0, U(3, v.format), U(1, v.fullRange), Flag(v.colour));
      var t1 := Then(Then(Then(t0, U(3, v.format)), U(1, v.fullRange)), Flag(v.colour));
      Listed1(t1, U(1, 0));
      if v.colour.Some? {
        var c := v.colour.value;
        Listed3(t1, U(8, c.primaries), U(8, c.transfer), U(8, c.matrix));
      }
    }
  }

  lemma RestrictionListed(t: Trace, o: Option<Restriction>)
    ensures Listed(t, RestrictionRows(o)) == PutOptRestriction(t, o)
  {
    hide Listed;
    Listed1(t, Flag(o));
    var t0 := Then(t, Flag(o));
    Listed1(t0, U(1, 0));
    if o.None? {
      ListedBoth(t, [Flag(o)], []);
    } else {
      var r := o.value;
      var a, b, c, d := U(1, r.vectorsOverBoundaries), UE(r.maxBytesPerPic), UE(r.maxBitsPerMb), UE(r.maxMvHorizontal);
      var e, f, g := UE(r.maxMvVertical), UE(r.maxNumReorderFrames), UE(r.maxDecFrameBuffering);
      ListedBoth(t, [Flag(o)], [a, b, c, d, e, f, g]);
      Listed7(t0, a, b, c, d, e, f, g);
    }
  }

  /** The four optional parts of a VUI that have no rows of their own above. */
  lemma SmallListed(t: Trace, overscan: Option<uint32>, loc: Option<ChromaLoc>, timing: Option<Timing>)
    ensures Listed(t, OverscanRows(overscan)) == PutOptBit(t, overscan)
    ensures Listed(t, ChromaLocRows(loc)) == PutOptChromaLoc(t, loc)
    ensures Listed(t, TimingRows(timing)) == PutOptTiming(t, timing)
  {
    hide Listed;
    Listed1(t, Flag(overscan));
    ListedBoth(t, [Flag(overscan)], Bit(overscan));
    BitListed(Then(t, Flag(overscan)), overscan);
    Listed1(t, Flag(loc));
    var l := match loc case None => [] case Some(l) => [UE(l.top), UE(l.bottom)];
    ListedBoth(t, [Flag(loc)], l);
    Listed1(Then(t, Flag(loc)), U(1, 0));
    if loc.Some? {
      Listed2(Then(t, Flag(loc)), UE(loc.value.top), UE(loc.value.bottom));
    }
    Listed1(t, Flag(timing));
    var x := match timing case None => [] case Some(x) => [U(32, x.unitsInTick), U(32, x.timeScale), U(1, x.fixedRate)];
    ListedBoth(t, [Flag(timing)], x);
    Listed1(Then(t, Flag(timing)), U(1, 0));
    if timing.Some? {
      var y := timing.value;
      Listed3(Then(t, Flag(timing)), U(32, y.unitsInTick), U(32, y.timeScale), U(1, y.fixedRate));
    }
  }

  lemma VuiListed(t: Trace, o: Option<Vui>)
    ensures Listed(t, VuiRows(o)) == PutOptVui(t, o)
  {
    hide Listed, AspectRows, OverscanRows, SignalRows, ChromaLocRows, TimingRows, HrdRows, Bit, RestrictionRows,
      PutOptAspect, PutOptBit, PutOptSignal, PutOptChromaLoc, PutOptTiming, PutOptHrd, PutBitWhen, PutOptRestriction;
    Listed1(t, Flag(o));
    var t0 := Then(t, Flag(o));
    Listed1(t0, U(1, 0));
    if o.None? {
      ListedBoth(t, [Flag(o)], []);
    } else {
      var v := o.value;
      var p := v.picture;
      var r1 := AspectRows(p.aspect);
      var r2 := r1 + OverscanRows(p.overscan);
      var r3 := r2 + SignalRows(p.signal);
      var r4 := r3 + ChromaLocRows(p.chromaLoc);
      var r5 := r4 + TimingRows(v.timing);
      var r6 := r5 + HrdRows(v.hrd.nal);
      var r7 := r6 + HrdRows(v.hrd.vcl);
      var r8 := r7 + Bit(v.hrd.lowDelay);
      var r9 := r8 + [U(1, v.picStruct)];
      ListedBoth(t, [Flag(o)], r9 + RestrictionRows(v.restriction));
      ListedBoth(t0, r1, OverscanRows(p.overscan));
      ListedBoth(t0, r2, SignalRows(p.signal));
      ListedBoth(t0, r3, ChromaLocRows(p.chromaLoc));
      ListedBoth(t0, r4, TimingRows(v.timing));
      ListedBoth(t0, r5, HrdRows(v.hrd.nal));
      ListedBoth(t0, r6, HrdRows(v.hrd.vcl));
      ListedBoth(t0, r7, Bit(v.hrd.lowDelay));
      ListedBoth(t0, r8, [U(1, v.picStruct)]);
      ListedBoth(t0, r9, RestrictionRows(v.restriction));
      AspectListed(t0, p.aspect);
      var t1 := PutOptAspect(t0, p.aspect);
      SmallListed(t1, p.overscan, p.chromaLoc, v.timing);
      var t2 := PutOptBit(t1, p.overscan);
      SignalListed(t2, p.signal);
      var t3 := PutOptSignal(t2, p.signal);
      SmallListed(t3, p.overscan, p.chromaLoc, v.timing);
      var t4 := PutOptChromaLoc(t3, p.chromaLoc);
      SmallListed(t4, p.overscan, p.chromaLoc, v.timing);
      var t5 := PutOptTiming(t4, v.timing);
      HrdListed(t5, v.hrd.nal);
      var t6 := PutOptHrd(t5, v.hrd.nal);
      HrdListed(t6, v.hrd.vcl);
      var t7 := PutOptHrd(t6, v.hrd.vcl);
      BitListed(t7, v.hrd.lowDelay);
      var t8 := PutBitWhen(t7, v.hrd.lowDelay);
      Listed1(t8, U(1, v.picStruct));
      RestrictionListed(Then(t8, U(1, v.picStruct)), v.restriction);
    }
  }

  /** The rows of a parameter set are its elements, in order. */
  lemma RowsListed(s: Sps)
    ensures Listed(Empty, Rows(s)) == Elements(s)
  {
    hide Listed, ChromaRows, PocRows, FrameRows, VuiRows, PutChromaWhen, PutPoc, PutFrame, PutOptVui;
    var a, b, c, d := U(8, s.profile.profileIdc), U(8, s.profile.constraints), U(8, s.profile.levelIdc), UE(s.spsId);
    var r1 := [a, b, c, d];
    var r2 := r1 + ChromaRows(s.chroma);
    var r3 := r2 + [UE(s.log2MaxFrameNum)];
    var r4 := r3 + PocRows(s.poc);
    var r5 := r4 + FrameRows(s.frame);
    ListedBoth(Empty, r1, ChromaRows(s.chroma));
    ListedBoth(Empty, r2, [UE(s.log2MaxFrameNum)]);
    ListedBoth(Empty, r3, PocRows(s.poc));
    ListedBoth(Empty, r4, FrameRows(s.frame));
    ListedBoth(Empty, r5, VuiRows(s.vui));
    Listed4(Empty, a, b, c, d);
    var t1 := Then(Then(Then(Then(Empty, a), b), c), d);
    ChromaListed(t1, s.chroma);
    var t2 := PutChromaWhen(t1, s.chroma);
    Listed1(t2, UE(s.log2MaxFrameNum));
    var t3 := Then(t2, UE(s.log2MaxFrameNum));
    PocListed(t3, s.poc);
    var t4 := PutPoc(t3, s.poc);
    FrameListed(t4, s.frame);
    VuiListed(PutFrame(t4, s.frame), s.vui);
  }

  lemma ShapedIsOk(s: Sps)
    ensures Shaped(s) <==> SpsOk(s)
  {
  }

  // ---------------------------------------------------------------- main results

  /** The bits that rows are written as. */
  function Code(rows: seq<Elem>): seq<bool> {
    Encode(Listed(Empty, rows))
  }

  /** Reading descriptor after descriptor gives the values of the rows. */
  predicate ReadsAs(bits: seq<bool>, rows: seq<Elem>) {
    Reads(bits, Listed(Empty, rows)).Some?
  }

  /**
    What the parse is: it accepts a unit as s if and only if s has the shape that the syntax prescribes and the
    payload, read descriptor by descriptor, gives the rows of s.
   */
  lemma ParseIsTable(nalu: seq<byte>, s: Sps)
    requires |nalu| > 0
    ensures Parse(nalu) == Some(s) <==> Shaped(s) && ReadsAs(PayloadBits(nalu[1..]), Rows(s))
  {
    hide Listed, Rows, Shaped, PutSps, SpsOk, GetSps, PayloadBits;
    RowsListed(s);
    ShapedIsOk(s);
    var F := PayloadBits(nalu[1..]);
    StartsEmpty(F);
    if SpsOk(s) {
      SpsReads(F, Empty, s);
    }
    if Parse(nalu) == Some(s) {
      ParseOk(nalu);
    }
  }

  lemma StartsEmpty(F: seq<bool>)
    ensures Reads(F, Empty) == Some(0)
  {
  }

  /** Every Exp-Golomb code met on the way has at most 31 leading zeros, as section 9.1 has it. */
  predicate Conforming(bits: seq<bool>, rows: seq<Elem>)
    requires ReadsAs(bits, rows)
  {
    ShortCodes(bits, Listed(Empty, rows))
  }

  /** What is accepted, and has conforming codes, begins with the code of its rows. */
  lemma ParsedBeginsWithTable(nalu: seq<byte>)
    requires Parse(nalu).Some?
    ensures var F := PayloadBits(nalu[1..]); var rows := Rows(Parse(nalu).value);
      ReadsAs(F, rows) && (Conforming(F, rows) ==> Code(rows) <= F)
  {
    hide Listed, Rows, Shaped, Parse, PayloadBits;
    assert |nalu| > 0 by { NotEmpty(nalu); }
    var rows := Rows(Parse(nalu).value);
    ParseIsTable(nalu, Parse(nalu).value);
    var F := PayloadBits(nalu[1..]);
    if Conforming(F, rows) {
      ReadsCode(F, Listed(Empty, rows));
    }
  }

  lemma NotEmpty(nalu: seq<byte>)
    ensures Parse(nalu).Some? ==> |nalu| > 0
  {
    hide GetSps, PayloadBits;
  }

  /** The other way round: a unit that begins with the code of a shaped set in range is accepted as that set. */
  lemma TableIsParsed(nalu: seq<byte>, s: Sps)
    requires |nalu| > 0 && Shaped(s) && InRange(Listed(Empty, Rows(s))) && Code(Rows(s)) <= PayloadBits(nalu[1..])
    ensures Parse(nalu) == Some(s)
  {
    hide Listed, Rows, Shaped, Parse, PayloadBits;
    ReadsWhatWasWritten(PayloadBits(nalu[1..]), Listed(Empty, Rows(s)));
    ParseIsTable(nalu, s);
  }

  /** What the rewriter writes begins with the code of the rows of the patched fields, and the stop bit follows. */
  lemma RewrittenBeginsWithTable(nalu: seq<byte>)
    requires Parse(nalu).Some? && IsSpsHeader(nalu[0])
    ensures var out := Rewritten(nalu); var before := Parse(nalu).value;
      && out.Some? && |out.value| > 0 && Shaped(Patch(before)) && Patched(before, Patch(before))
      && Code(Rows(Patch(before))) + [true] <= PayloadBits(out.value[1..])
  {
    hide Listed, Rows, Shaped, PutSps, SpsOk, GetSps, PayloadBits, Print, Patched, Patch, Encode;
    NotEmpty(nalu);
    var s := Parse(nalu).value;
    ParseOk(nalu);
    PatchOk(s);
    ShapedIsOk(Patch(s));
    PatchIsPatched(s);
    RowsListed(Patch(s));
    assert nalu[0] != 0;
    PrintedPayload(nalu[0], Patch(s));
    var code, rest := Encode(Elements(Patch(s))), Padding(PrintedBits(nalu[0], Patch(s)));
    assert code + ([true] + rest) == (code + [true]) + rest;
  }
}
