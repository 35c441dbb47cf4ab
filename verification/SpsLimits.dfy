/** Where the rewriter departs from Rec. ITU-T H.264, and exactly when. */
module SpsLimits {
  import opened Wrappers
  import opened Bits
  import opened Emulation
  import opened Syntax
  import opened BitStream
  import opened Sps
  import opened SpsRewriter
  import opened SpsTheorems

  // ---------------------------------------------------------------- scaling lists

  /** Section 7.3.2.1.1.1: after the delta that brings the next scale to 0, no more deltas are in the list. */
  function StandardDeltas(F: seq<bool>, p: nat, size: nat, lastScale: int): Option<(seq<int>, nat)>
    decreases size
  {
    if size == 0 then Some(([], p))
    else
      var (delta, p1) :- GetSE(F, p);
      var nextScale := (lastScale + delta + 256) % 256;
      if nextScale == 0 then Some(([delta], p1))
      else
        var (deltas, q) :- StandardDeltas(F, p1, size - 1, nextScale);
        Some(([delta] + deltas, q))
  }

  /** The next scale after the given deltas, all earlier ones having been nonzero. */
  function NextScale(deltas: seq<int>): int {
    if |deltas| == 0 then 8 else (NextScale(deltas[..|deltas| - 1]) + deltas[|deltas| - 1] + 256) % 256
  }

  ghost predicate StopsEarly(deltas: seq<int>) {
    exists k :: 0 < k < |deltas| && NextScale(deltas[..k]) == 0
  }

  lemma {:induction false} DeltasPrefix(F: seq<bool>, p: nat, k: nat, n: nat)
    requires k <= n && GetDeltas(F, p, n).Some?
    ensures GetDeltas(F, p, k).Some? && GetDeltas(F, p, k).value.0 == GetDeltas(F, p, n).value.0[..k]
    decreases n - k
  {
    hide GetDelta;
    if k < n {
      DeltasPrefix(F, p, k + 1, n);
      var longer := GetDeltas(F, p, k + 1).value.0;
      assert GetDeltas(F, p, k).value.0 == longer[..k];
    }
  }

  lemma NoScale()
    ensures NextScale([]) == 8
  {
  }

  /** As long as no scale is 0, the standard has read what the code has read. */
  lemma {:induction false} StandardFollows(F: seq<bool>, p: nat, n: nat, k: nat)
    requires k <= n && GetDeltas(F, p, n).Some?
    requires forall i :: 0 < i <= k ==> NextScale(GetDeltas(F, p, n).value.0[..i]) != 0
    ensures GetDeltas(F, p, k).Some?
    ensures var deltas := GetDeltas(F, p, n).value.0[..k];
      var rest := StandardDeltas(F, GetDeltas(F, p, k).value.1, n - k, NextScale(deltas));
      StandardDeltas(F, p, n, 8) == if rest.None? then None else Some((deltas + rest.value.0, rest.value.1))
  {
    hide GetSE, GetDelta, NextScale;
    var all := GetDeltas(F, p, n).value.0;
    DeltasPrefix(F, p, k, n);
    if k == 0 {
      assert all[..0] == [];
      NoScale();
      var rest := StandardDeltas(F, p, n, 8);
      assert rest.Some? ==> [] + rest.value.0 == rest.value.0;
    } else {
      StandardFollows(F, p, n, k - 1);
      DeltasPrefix(F, p, k - 1, n);
      var before, deltas := all[..k - 1], all[..k];
      assert deltas == before + [all[k - 1]];
      ScaleStep(before, all[k - 1]);
      LastDelta(F, p, k);
      var rest := StandardDeltas(F, GetDeltas(F, p, k).value.1, n - k, NextScale(deltas));
      assert rest.Some? ==> before + ([all[k - 1]] + rest.value.0) == deltas + rest.value.0;
    }
  }

  /** On a list that the code can read, it agrees with the standard if and only if the list does not stop early. */
  lemma ScalingListAgrees(F: seq<bool>, p: nat, n: nat)
    requires n > 0 && GetDeltas(F, p, n).Some?
    ensures StandardDeltas(F, p, n, 8) == GetDeltas(F, p, n) <==> !StopsEarly(GetDeltas(F, p, n).value.0)
  {
    hide GetSE;
    var all := GetDeltas(F, p, n).value.0;
    if StopsEarly(all) {
      var k :| 0 < k < n && NextScale(all[..k]) == 0;
      var first := FirstZero(all, k);
      LastStep(F, p, n, first);
      DeltasPrefix(F, p, first, n);
    } else {
      LastStep(F, p, n, n);
    }
  }

  lemma FirstZero(deltas: seq<int>, k: nat) returns (first: nat)
    requires 0 < k <= |deltas| && NextScale(deltas[..k]) == 0
    ensures 0 < first <= k && NextScale(deltas[..first]) == 0
    ensures forall i :: 0 < i < first ==> NextScale(deltas[..i]) != 0
  {
    if i :| 0 < i < k && NextScale(deltas[..i]) == 0 {
      first := FirstZero(deltas, i);
    } else {
      first := k;
    }
  }

  lemma LastStep(F: seq<bool>, p: nat, n: nat, k: nat)
    requires 0 < k <= n && GetDeltas(F, p, n).Some?
    requires forall i :: 0 < i < k ==> NextScale(GetDeltas(F, p, n).value.0[..i]) != 0
    requires k == n || NextScale(GetDeltas(F, p, n).value.0[..k]) == 0
    ensures StandardDeltas(F, p, n, 8) == GetDeltas(F, p, k)
  {
    hide GetSE, GetDelta, GetDeltas, StandardDeltas, NextScale;
    var all := GetDeltas(F, p, n).value.0;
    var before, last := all[..k - 1], all[k - 1];
    assert all[..k] == before + [last];
    assert GetDeltas(F, p, k).Some? && GetDeltas(F, p, k).value.0 == before + [last] by { DeltasPrefix(F, p, k, n); }
    var q := GetDeltas(F, p, k).value.1;
    LastDelta(F, p, k);
    var pk := GetDeltas(F, p, k - 1).value.1;
    ScaleStep(before, last);
    StandardStops(F, pk, n - (k - 1), NextScale(before), last, q);
    StandardFollows(F, p, n, k - 1);
  }

  lemma ScaleStep(before: seq<int>, last: int)
    ensures NextScale(before + [last]) == (NextScale(before) + last + 256) % 256
  {
    assert (before + [last])[..|before|] == before;
  }

  lemma StandardStops(F: seq<bool>, p: nat, n: nat, scale: int, delta: int, q: nat)
    requires n > 0 && GetSE(F, p) == Some((delta, q))
    requires n == 1 || (scale + delta + 256) % 256 == 0
    ensures StandardDeltas(F, p, n, scale) == Some(([delta], q))
  {
    hide GetSE;
    assert [delta] + [] == [delta];
  }

  lemma LastDelta(F: seq<bool>, p: nat, k: nat)
    requires k > 0 && GetDeltas(F, p, k).Some?
    ensures GetDeltas(F, p, k - 1).Some?
    ensures GetSE(F, GetDeltas(F, p, k - 1).value.1) ==
      Some((GetDeltas(F, p, k).value.0[k - 1], GetDeltas(F, p, k).value.1))
  {
    hide GetSE;
  }

  /** The first delta brings the next scale to 0, and n - 1 more follow. */
  function EarlyStop(n: nat): (deltas: seq<int>)
    ensures |deltas| == n + 1
  {
    if n == 0 then [-8] else EarlyStop(n - 1) + [0]
  }

  lemma {:induction false} EarlyStopStarts(n: nat)
    ensures EarlyStop(n)[..1] == [-8]
  {
    if n > 0 {
      EarlyStopStarts(n - 1);
      assert EarlyStop(n)[..1] == EarlyStop(n - 1)[..1];
    }
  }

  lemma {:induction false} EarlyStopInRange(n: nat)
    ensures InRange(PutDeltas(Empty, EarlyStop(n)))
  {
    if n > 0 {
      EarlyStopInRange(n - 1);
      assert EarlyStop(n)[..n] == EarlyStop(n - 1);
    }
  }

  /** Lists of every size from 2 on that the code reads whole, and the standard does not. */
  lemma EarlyStopIsReadOn(n: nat)
    requires n > 0
    ensures var F := Encode(PutDeltas(Empty, EarlyStop(n)));
      && GetDeltas(F, 0, n + 1) == Some((EarlyStop(n), |F|)) && StopsEarly(EarlyStop(n))
      && StandardDeltas(F, 0, n + 1, 8) != GetDeltas(F, 0, n + 1)
  {
    hide PutDeltas, StandardDeltas, Encode, Reads;
    var t := PutDeltas(Empty, EarlyStop(n));
    var F := Encode(t);
    EarlyStopInRange(n);
    ReadsWhatWasWritten(F, t);
    AtStart(F);
    DeltasReads(F, Empty, EarlyStop(n), n + 1);
    EarlyStopStarts(n);
    ZeroScale();
    assert StopsEarly(EarlyStop(n));
    ScalingListAgrees(F, 0, n + 1);
  }

  lemma AtStart(F: seq<bool>)
    ensures Reads(F, Empty) == Some(0)
  {
  }

  lemma ZeroScale()
    ensures NextScale([-8]) == 0
  {
    assert [-8][..0] == [];
  }

  // ---------------------------------------------------------------- codes with 32 leading zeros

  /** A Baseline parameter set without a VUI, whose last cropping offset is one more than ue(v) can carry. */
  const WIDE_SPS := Sps(
    Profile(66, 0, 30), 0, None, 0, PocOther(2),
    FrameInfo(1, 0, 9, 8, 1, None, 1, Some(Crop(0, 0, 0, 0xFFFF_FFFF))), None)

  /** Its elements before that offset. */
  function WideFront(): Trace {
    var t1 := Then(Then(Then(Then(Empty, U(8, 66)), U(8, 0)), U(8, 30)), UE(0));
    var t2 := Then(Then(Then(Then(t1, UE(0)), UE(2)), UE(1)), U(1, 0));
    var t3 := Then(Then(Then(Then(t2, UE(9)), UE(8)), U(1, 1)), U(1, 1));
    Then(Then(Then(Then(t3, U(1, 1)), UE(0)), UE(0)), UE(0))
  }

  /** 32 zeros, a one, 32 zeros: the code that the offset would need. */
  function WideCode(): seq<bool> {
    BitsOf(0, 32) + ([true] + BitsOf(0, 32))
  }

  lemma WideElements()
    ensures Elements(WIDE_SPS) == Then(Then(WideFront(), UE(0xFFFF_FFFF)), U(1, 0))
  {
    assert !HasChromaInfo(66);
  }

  lemma WideFrontInRange()
    ensures InRange(WideFront())
  {
    Pow2Values();
    assert Pow2(1) == 2;
    var t1 := Then(Then(Then(Then(Empty, U(8, 66)), U(8, 0)), U(8, 30)), UE(0));
    assert InRange(t1);
    var t2 := Then(Then(Then(Then(t1, UE(0)), UE(2)), UE(1)), U(1, 0));
    assert InRange(t2);
    var t3 := Then(Then(Then(Then(t2, UE(9)), UE(8)), U(1, 1)), U(1, 1));
    assert InRange(t3);
  }

  lemma WideReads(F: seq<bool>)
    requires Encode(WideFront()) + (WideCode() + [false]) <= F
    ensures Reads(F, Elements(WIDE_SPS)).Some?
  {
    hide BitsOf, Encode, WideFront, Reads, GetUE, GetU;
    var t := WideFront();
    var p := |Encode(t)|;
    WideFrontInRange();
    assert Encode(t) <= F;
    ReadsWhatWasWritten(F, t);
    var tail := WideCode() + [false];
    assert F[..p + |tail|] == Encode(t) + tail;
    assert Holds(F, p, tail) by { assert F[p..p + |tail|] == (Encode(t) + tail)[p..]; }
    HoldsSplit(F, p, WideCode(), [false]);
    Pow2Values();
    GetUECode(F, p, 32, 0);
    StepUE(F, t, 0xFFFF_FFFF);
    var q := p + 65;
    assert F[q] == F[q..q + 1][0];
    BitOrNone(F, q);
    StepU(F, Then(t, UE(0xFFFF_FFFF)), 1, 0);
    WideElements();
  }

  function WideBits(): seq<bool> {
    Encode(WideFront()) + (WideCode() + [false])
  }

  function WideNalu(): seq<byte> {
    PaddedToBytes(WideBits());
    [0x67] + Escape(Pack(WideBits() + Padding(WideBits())))
  }

  lemma WideParses()
    ensures WideNalu()[0] == 0x67 && Parse(WideNalu()) == Some(WIDE_SPS)
  {
    hide WideBits, Reads, GetSps, Escape, Padding, Elements, SpsOk, Pack, Flat, Unescape;
    var F := WideBits() + Padding(WideBits());
    PaddedToBytes(WideBits());
    FlatPack(F);
    UnescapeEscape(Pack(F));
    assert WideNalu()[1..] == Escape(Pack(F));
    WideReads(F) by { WideBitsLead(Padding(WideBits())); }
    WideIsRead(F);
  }

  lemma WideIsRead(F: seq<bool>)
    requires Reads(F, Elements(WIDE_SPS)).Some?
    ensures GetSps(F, 0).Some? && GetSps(F, 0).value.0 == WIDE_SPS
  {
    hide GetSps, PutSps, SpsOk;
    WideOk();
    SpsReads(F, Empty, WIDE_SPS);
  }

  lemma SpsHeaderByte()
    ensures IsSpsHeader(0x67)
  {
  }

  /** The code reads the wide offset, but cannot write it: the rewritten unit means something else. */
  lemma WideOffsetIsLost()
    ensures WideNalu()[0] == 0x67 && Parse(WideNalu()) == Some(WIDE_SPS)
    ensures Rewritten(WideNalu()).Some? && Parse(Rewritten(WideNalu()).value) != Some(Patch(WIDE_SPS))
  {
    hide WideNalu, Parse, Rewritten, Patch, Representable, IsSpsHeader;
    WideParses();
    SpsHeaderByte();
    RewriteParses(WideNalu());
    WideNotRepresentable();
  }

  lemma WideBitsLead(more: seq<bool>)
    ensures Encode(WideFront()) + (WideCode() + [false]) <= WideBits() + more
  {
    hide Encode, WideFront, WideCode;
  }

  lemma WideOk()
    ensures SpsOk(WIDE_SPS)
  {
    assert !HasChromaInfo(66);
  }

  lemma WideNotRepresentable()
    ensures !Representable(WIDE_SPS)
  {
    hide PutOptVui, PatchVui, InRange;
    var t := Then(WideFront(), UE(0xFFFF_FFFF));
    assert !HasChromaInfo(66);
    assert Elements(Patch(WIDE_SPS)) == PutOptVui(t, Patch(WIDE_SPS).vui);
    assert !InRange(t) by { WideLast(WideFront()); }
    DefaultVuiStaysOut(t);
  }

  lemma WideLast(t: Trace)
    ensures !InRange(Then(t, UE(0xFFFF_FFFF)))
  {
  }

  /** What comes later cannot bring an earlier element back into range. */
  lemma DefaultVuiStaysOut(t: Trace)
    requires !InRange(t)
    ensures !InRange(PutOptVui(t, Some(PatchVui(None, 1))))
  {
    hide InRange;
    var t1 := Then(t, U(1, 1));
    EmptyVui(t1, 1);
    OneMore(t, U(1, 1));
    TwoMore(t1, U(1, 0), U(1, 0));
    var t3 := Then(Then(t1, U(1, 0)), U(1, 0));
    TwoMore(t3, U(1, 0), U(1, 0));
    var t5 := Then(Then(t3, U(1, 0)), U(1, 0));
    TwoMore(t5, U(1, 0), U(1, 0));
    var t7 := Then(Then(t5, U(1, 0)), U(1, 0));
    TwoMore(t7, U(1, 0), U(1, 0));
    TwoMore(EmptyVuiFlags(t1), U(1, 1), U(1, 1));
    var t8 := Then(Then(EmptyVuiFlags(t1), U(1, 1)), U(1, 1));
    TwoMore(t8, UE(2), UE(1));
    var t9 := Then(Then(t8, UE(2)), UE(1));
    TwoMore(t9, UE(16), UE(16));
    TwoMore(Then(Then(t9, UE(16)), UE(16)), UE(0), UE(1));
  }

  lemma OneMore(t: Trace, e: Elem)
    requires !InRange(t)
    ensures !InRange(Then(t, e))
  {
  }

  lemma TwoMore(t: Trace, e: Elem, f: Elem)
    requires !InRange(t)
    ensures !InRange(Then(Then(t, e), f))
  {
    OneMore(t, e);
  }
}
