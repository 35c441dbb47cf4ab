/** Rewriting a frame is rewriting its NAL units one by one, up to the zero bytes that splitting gives away. */
module FrameTheorems {
  import opened Wrappers
  import opened Bits
  import opened Emulation
  import opened Syntax
  import opened BitStream
  import opened Sps
  import opened SpsRewriter
  import opened SpsTheorems
  import opened Frame

  ghost predicate Clean(us: seq<Unit>) {
    forall i :: 0 <= i < |us| ==> NoStartCode(us[i])
  }

  ghost predicate AllNonEmpty(us: seq<Unit>) {
    forall i :: 0 <= i < |us| ==> |us[i]| > 0
  }

  // ---------------------------------------------------------------- splitting what was joined

  lemma {:induction false} SplitUnits(buf: seq<byte>)
    ensures Clean(Split(buf)) && AllNonEmpty(Split(buf))
    decreases |buf|
  {
    hide IndexFrom;
    if |buf| > 0 {
      var pos := IndexFrom(buf, 0);
      if pos != -1 {
        SplitUnits(buf[pos + 3..]);
        CleanPrefix(buf, pos, CutBefore(buf, pos));
      }
    }
  }

  lemma CleanPrefix(buf: seq<byte>, pos: nat, cut: nat)
    requires cut <= pos <= |buf|
    requires forall j: nat :: j < pos ==> !StartCodeAt(buf, j)
    ensures NoStartCode(buf[..cut])
  {
    forall i: nat ensures !StartCodeAt(buf[..cut], i) {
      if StartCodeAt(buf[..cut], i) {
        assert StartCodeAt(buf, i);
      }
    }
  }

  /** A unit without its last byte, where that is a zero. */
  function Strip(u: Unit): Unit {
    u[..CutBefore(u, |u|)]
  }

  /** What splitting finds in joined units: each but the last has lost one trailing zero byte. */
  function Resplit(us: seq<Unit>): seq<Unit> {
    if |us| == 0 then []
    else if |us| == 1 then NonEmpty(us[0])
    else NonEmpty(Strip(us[0])) + Resplit(us[1..])
  }

  lemma SplitAtCode(u: Unit, rest: seq<byte>)
    requires NoStartCode(u)
    ensures Split(u + [0, 0, 1] + rest) == NonEmpty(Strip(u)) + Split(rest)
  {
    hide IndexFrom;
    var s := u + [0, 0, 1] + rest;
    assert StartCodeAt(s, |u|);
    forall j: nat | j < |u| ensures !StartCodeAt(s, j) {
      if j + 3 <= |u| {
        assert !StartCodeAt(u, j);
      }
    }
    assert IndexFrom(s, 0) == |u|;
    assert s[|u| + 3..] == rest;
    assert s[..CutBefore(s, |u|)] == Strip(u);
  }

  lemma {:induction false} SplitLast(u: Unit)
    requires NoStartCode(u)
    ensures Split(u) == NonEmpty(u)
  {
    hide IndexFrom;
    if |u| > 0 {
      assert IndexFrom(u, 0) == -1;
    }
  }

  /** No three bytes 00 00 01. */
  ghost predicate HoldsNoCode(u: seq<byte>) {
    forall i :: 0 <= i < |u| - 2 ==> !(u[i] == 0 && u[i + 1] == 0 && u[i + 2] == 1)
  }

  /**
    What splitting is: a buffer without a start code is one unit, unless it is empty; a start code of three or of
    four bytes ends a unit, which counts unless it is empty; and what follows is split in the same way.
   */
  lemma SplitIs(u: Unit, rest: seq<byte>)
    requires HoldsNoCode(u)
    ensures Split(u) == if u == [] then [] else [u]
    ensures u == [] || u[|u| - 1] != 0 ==> Split(u + [0, 0, 1] + rest) == (if u == [] then [] else [u]) + Split(rest)
    ensures Split(u + [0, 0, 0, 1] + rest) == (if u == [] then [] else [u]) + Split(rest)
  {
    hide Split, Strip;
    assert NoStartCode(u) by { forall i: nat ensures !StartCodeAt(u, i) { } }
    SplitLast(u);
    SplitAtCode(u, rest);
    StripNone(u);
    var v := u + [0];
    assert NoStartCode(v) by { forall i: nat ensures !StartCodeAt(v, i) { assert !StartCodeAt(u, i); } }
    SplitAtCode(v, rest);
    assert v + [0, 0, 1] + rest == u + [0, 0, 0, 1] + rest;
    StripOne(u);
  }

  lemma StripNone(u: Unit)
    ensures u == [] || u[|u| - 1] != 0 ==> Strip(u) == u
  {
  }

  lemma StripOne(u: Unit)
    ensures Strip(u + [0]) == u
  {
  }

  lemma {:induction false} SplitJoined(u: Unit, us: seq<Unit>)
    requires NoStartCode(u) && Clean(us)
    ensures Split(u + Join(us)) == if |us| == 0 then NonEmpty(u) else NonEmpty(Strip(u)) + Resplit(us)
    decreases |us|
  {
    hide Split, NoStartCode, Strip;
    if |us| == 0 {
      assert u + [] == u;
      SplitLast(u);
    } else {
      var rest := us[0] + Join(us[1..]);
      assert u + Join(us) == u + [0, 0, 1] + rest;
      SplitAtCode(u, rest);
      SplitJoined(us[0], us[1..]);
    }
  }

  /** Exactly what splitting returns for joined units, whatever they are. */
  lemma SplitJoin(us: seq<Unit>)
    requires Clean(us)
    ensures Split(Join(us)) == Resplit(us)
  {
    assert NoStartCode([]);
    if |us| > 0 {
      SplitJoined([], us);
      assert [] + Join(us) == Join(us);
      assert NonEmpty(Strip([])) + Resplit(us) == Resplit(us);
    }
  }

  predicate EndsNonZero(u: Unit) {
    |u| > 0 && u[|u| - 1] != 0
  }

  /** No unit but the last ends in a zero byte. */
  predicate Tidy(us: seq<Unit>) {
    |us| <= 1 || (EndsNonZero(us[0]) && Tidy(us[1..]))
  }

  lemma {:induction false} ResplitShrinks(us: seq<Unit>)
    ensures |Resplit(us)| <= |us|
  {
    if |us| > 1 {
      ResplitShrinks(us[1..]);
    }
  }

  lemma StripIsSame(u: Unit)
    requires |u| > 0
    ensures Strip(u) == u <==> EndsNonZero(u)
  {
  }

  lemma FirstDecides(u: Unit, xs: seq<Unit>, first: Unit, rest: seq<Unit>)
    requires |xs| <= |rest| && |first| > 0
    ensures NonEmpty(u) + xs == [first] + rest <==> u == first && xs == rest
  {
    var l, r := NonEmpty(u) + xs, [first] + rest;
    if l == r {
      assert |l| == |r|;
      assert l[0] == r[0] && l[1..] == xs && r[1..] == rest;
    }
  }

  /** Joining and splitting is the identity if and only if no unit but the last ends in a zero byte. */
  lemma {:induction false} ResplitIsIdentity(us: seq<Unit>)
    requires AllNonEmpty(us)
    ensures Resplit(us) == us <==> Tidy(us)
  {
    hide Strip, EndsNonZero;
    if |us| == 1 {
      assert us == [us[0]];
    } else if |us| > 1 {
      var first, rest := us[0], us[1..];
      assert us == [first] + rest;
      ResplitIsIdentity(rest);
      ResplitShrinks(rest);
      StripIsSame(first);
      FirstDecides(Strip(first), Resplit(rest), first, rest);
    }
  }

  // ---------------------------------------------------------------- rewriting a frame

  lemma SafeIsClean(u: Unit)
    requires NoReservedTriple(u)
    ensures NoStartCode(u)
  {
  }

  lemma RewrittenClean(us: seq<Unit>)
    requires Clean(us)
    ensures Clean(RewriteAll(us))
  {
    hide Rewritten, NalType, NoStartCode, NoReservedTriple;
    forall i | 0 <= i < |us| ensures NoStartCode(RewriteAll(us)[i]) {
      if IsRewritable(us[i]) {
        SpsTypeIsHeader(us[i][0]);
        RewriteIsOneUnit(us[i]);
        SafeIsClean(Rewritten(us[i]).value);
      }
    }
  }

  lemma TypeIsLowBits(b: byte)
    ensures NalType(b) == b % 32
  {
    hide And;
    MaskIsLow(b, 5);
    assert Pow2(5) - 1 == 0x1f by { Pow2Values(); }
    LowFive(b);
  }

  /** Which units are replaced, and by what: those of type 7 that can be parsed, by the printed patched set. */
  lemma UnitIsReplaced(u: Unit)
    ensures var replaced := |u| > 0 && u[0] % 32 == 7 && Parse(u).Some?;
      && (IsRewritable(u) <==> replaced)
      && RewriteUnit(u) == if replaced then Print(u[0], Patch(Parse(u).value)) else u
  {
    hide Parse, Print, Patch, NalType;
    if |u| > 0 {
      TypeIsLowBits(u[0]);
    }
  }

  lemma SpsTypeIsHeader(b: byte)
    ensures NalType(b) == SPS_TYPE <==> IsSpsHeader(b)
  {
    hide And;
  }

  /**
    The frame rewrite refines the map over NAL units: the new frame splits into the old units in order, each
    parsable parameter set replaced, every other unit as it was, less the zero bytes that joining exposes.
   */
  lemma RewriteIsMap(frame: seq<byte>)
    ensures AnyRewritable(Split(frame)) ==> Split(RewriteFrame(frame)) == Resplit(RewriteAll(Split(frame)))
    ensures !AnyRewritable(Split(frame)) ==> RewriteFrame(frame) == frame
  {
    hide Split, Resplit, RewriteAll, AnyRewritable, Clean;
    SplitUnits(frame);
    RewrittenClean(Split(frame));
    SplitJoin(RewriteAll(Split(frame)));
  }

  // ---------------------------------------------------------------- key frames

  ghost predicate HasType(us: seq<Unit>, k: nat) {
    exists i :: 0 <= i < |us| && |us[i]| > 0 && NalType(us[i][0]) == k
  }

  /** A unit's type is the low five bits of its first byte. */
  lemma TypesAreLowBits(us: seq<Unit>, k: nat)
    ensures HasType(us, k) <==> exists i :: 0 <= i < |us| && |us[i]| > 0 && us[i][0] % 32 == k
  {
    hide NalType;
    forall i | 0 <= i < |us| && |us[i]| > 0 ensures NalType(us[i][0]) == us[i][0] % 32 {
      TypeIsLowBits(us[i][0]);
    }
    if HasType(us, k) {
      var i :| 0 <= i < |us| && |us[i]| > 0 && NalType(us[i][0]) == k;
      assert us[i][0] % 32 == k;
    }
  }

  method H264ContainsIDR(frame: seq<byte>) returns (idr: bool)
    ensures idr <==> HasType(Split(frame), 5)
  {
    hide Split, NalType;
    var nalus := SplitNALUs(frame);
    for i := 0 to |nalus|
      invariant forall j :: 0 <= j < i && |nalus[j]| > 0 ==> NalType(nalus[j][0]) != IDR_TYPE
    {
      if |nalus[i]| > 0 && NalType(nalus[i][0]) == IDR_TYPE {
        return true;
      }
    }
    return false;
  }

  lemma HasTypeCons(u: Unit, us: seq<Unit>, k: nat)
    ensures HasType([u] + us, k) <==> (|u| > 0 && NalType(u[0]) == k) || HasType(us, k)
  {
    hide NalType;
    var all := [u] + us;
    assert all[0] == u && forall i :: 0 <= i < |us| ==> all[i + 1] == us[i];
    if HasType(us, k) {
      var i :| 0 <= i < |us| && |us[i]| > 0 && NalType(us[i][0]) == k;
      assert |all[i + 1]| > 0 && NalType(all[i + 1][0]) == k;
    }
    if HasType(all, k) {
      var i :| 0 <= i < |all| && |all[i]| > 0 && NalType(all[i][0]) == k;
      if i > 0 {
        assert us[i - 1] == all[i];
      }
    }
  }

  lemma StripKeepsType(u: Unit, us: seq<Unit>, k: nat)
    requires k != 0
    ensures HasType(NonEmpty(Strip(u)) + us, k) <==> HasType([u] + us, k)
  {
    hide NalType;
    HasTypeCons(u, us, k);
    HasTypeCons(Strip(u), us, k);
    assert NalType(0) == 0 by { ZeroType(); }
    if |Strip(u)| == 0 {
      assert [] + us == us;
    }
  }

  lemma ZeroType()
    ensures NalType(0) == 0
  {
  }

  lemma {:induction false} ResplitKeepsType(us: seq<Unit>, k: nat)
    requires k != 0
    ensures HasType(Resplit(us), k) <==> HasType(us, k)
  {
    hide NalType, HasType, Strip;
    if |us| == 1 {
      assert us == [us[0]];
      NonEmptyKeepsType(us[0], k);
    } else if |us| > 1 {
      assert us == [us[0]] + us[1..];
      ResplitKeepsType(us[1..], k);
      StripKeepsType(us[0], Resplit(us[1..]), k);
      HasTypeCons(us[0], us[1..], k);
      HasTypeCons(us[0], Resplit(us[1..]), k);
    }
  }

  lemma NonEmptyKeepsType(u: Unit, k: nat)
    ensures HasType(NonEmpty(u), k) <==> HasType([u], k)
  {
    hide NalType;
    assert [u][0] == u;
  }

  lemma RewriteAllKeepsType(us: seq<Unit>, k: nat)
    ensures HasType(RewriteAll(us), k) <==> HasType(us, k)
  {
    hide NalType, Rewritten, RewriteAll;
    var vs := RewriteAll(us);
    forall i | 0 <= i < |us|
      ensures (|vs[i]| > 0 && NalType(vs[i][0]) == k) <==> (|us[i]| > 0 && NalType(us[i][0]) == k)
    {
      assert vs[i] == RewriteUnit(us[i]);
      if IsRewritable(us[i]) {
        SpsTypeIsHeader(us[i][0]);
        RewriteIsOneUnit(us[i]);
      }
    }
  }

  /** A frame is a key frame after the rewrite exactly when it was one before. */
  lemma RewriteKeepsIDR(frame: seq<byte>)
    ensures HasType(Split(RewriteFrame(frame)), 5) <==> HasType(Split(frame), 5)
  {
    hide Split, Resplit, RewriteAll, AnyRewritable, HasType, RewriteFrame;
    RewriteIsMap(frame);
    RewriteAllKeepsType(Split(frame), 5);
    ResplitKeepsType(RewriteAll(Split(frame)), 5);
  }

  // ---------------------------------------------------------------- rewriting twice

  /** A printed parameter set still parses when splitting has taken the zero byte the last flush may add. */
  lemma StrippedParses(h: byte, s: Sps)
    requires h != 0 && SpsOk(s) && InRange(Elements(s))
    ensures |Strip(Print(h, s))| > 0 && Strip(Print(h, s))[0] == h
    ensures Parse(Strip(Print(h, s))) == Some(s)
  {
    hide Elements, SpsOk, GetSps, Escape, Unescape, Padding, Flat, PrintedBits;
    var out := Print(h, s);
    PrintedPayload(h, s);
    var F := PayloadBits(out[1..]);
    ParseFrom(F, s);
    if Strip(out) != out {
      StripOfPrinted(out, h);
      var G := PayloadBits(Strip(out)[1..]);
      PayloadWithoutZero(out[1..]);
      TrailingZero(h, s);
      WholePadding(PrintedBits(h, s));
      assert Encode(Elements(s)) <= G;
      ParseFrom(G, s);
    }
  }

  lemma WholePadding(bits: seq<bool>)
    requires |bits| % 8 == 0
    ensures |Padding(bits)| == 8
  {
  }

  lemma StripOfPrinted(out: Unit, h: byte)
    requires |out| > 0 && out[0] == h != 0 && Strip(out) != out
    ensures |out| > 1 && out[1..][|out| - 2] == 0
    ensures Strip(out)[0] == h && Strip(out)[1..] == out[1..][..|out| - 2]
  {
  }

  /** A final zero byte carries eight bits and guards nothing. */
  lemma PayloadWithoutZero(buf: seq<byte>)
    requires |buf| > 0 && buf[|buf| - 1] == 0
    ensures PayloadBits(buf[..|buf| - 1]) == PayloadBits(buf)[..|PayloadBits(buf)| - 8]
    ensures |PayloadBits(buf)| >= 8
  {
    hide BitsOf;
    var init := buf[..|buf| - 1];
    assert buf == init + [0];
    UnescapeAppend(init, 0);
    FlatAppend(Unescape(init), 0);
  }

  lemma ParseFrom(F: seq<bool>, s: Sps)
    requires Encode(Elements(s)) <= F && SpsOk(s) && InRange(Elements(s))
    ensures GetSps(F, 0).Some? && GetSps(F, 0).value.0 == s
  {
    hide GetSps, PutSps, SpsOk;
    ReadsWhatWasWritten(F, Elements(s));
    SpsReads(F, Empty, s);
  }

  /** A parameter set fits its codes; any other unit but the last does not end in a zero byte. */
  predicate RegularUnit(u: Unit, last: bool) {
    if IsRewritable(u) then Representable(Parse(u).value) else last || EndsNonZero(u)
  }

  ghost predicate Regular(us: seq<Unit>) {
    forall i :: 0 <= i < |us| ==> RegularUnit(us[i], i == |us| - 1)
  }

  /** A rewritten unit, split off again, is rewritten to itself. */
  lemma RewriteStripped(u: Unit)
    requires IsRewritable(u) && Representable(Parse(u).value)
    ensures |Strip(RewriteUnit(u))| > 0
    ensures IsRewritable(Strip(RewriteUnit(u))) && RewriteUnit(Strip(RewriteUnit(u))) == RewriteUnit(u)
    ensures IsRewritable(RewriteUnit(u)) && RewriteUnit(RewriteUnit(u)) == RewriteUnit(u)
  {
    hide NalType, Elements, SpsOk, Strip, Print, GetSps;
    var s := Parse(u).value;
    SpsTypeIsHeader(u[0]);
    ParseOk(u);
    PatchOk(s);
    StrippedParses(u[0], Patch(s));
    RewriteIsOneUnit(u);
    RewriteIdempotent(u);
  }

  lemma {:induction false} RewriteResplit(us: seq<Unit>)
    requires AllNonEmpty(us) && Regular(us)
    ensures RewriteAll(Resplit(RewriteAll(us))) == RewriteAll(us)
    ensures AnyRewritable(us) ==> AnyRewritable(Resplit(RewriteAll(us)))
  {
    hide Strip, RegularUnit, IsRewritable, RewriteUnit, RewriteAll, Resplit, Regular, AnyRewritable;
    if |us| == 0 {
      assert RewriteAll(us) == [] && us == [];
      NoUnits();
    } else {
      var first, rest := us[0], us[1..];
      assert us == [first] + rest;
      RegularHead(first, rest);
      UnitAgain(first, |rest| == 0);
      RewriteCons(first, rest);
      AnyCons(first, rest);
      var again, ws := RewriteUnit(first), Resplit(RewriteAll(rest));
      RewriteResplit(rest);
      if |rest| == 0 {
        assert rest == [] && RewriteAll(rest) == [];
        NoUnits();
        assert [again] + [] == [again] && RewriteAll(us) == [again];
        RewriteCons(again, []);
        AnyCons(again, []);
        ResplitOne(again);
      } else {
        ResplitCons(again, RewriteAll(rest));
        var w := Strip(again);
        assert NonEmpty(w) == [w];
        RewriteCons(w, ws);
        AnyCons(w, ws);
      }
    }
  }

  lemma NoUnits()
    ensures Resplit([]) == [] && RewriteAll([]) == [] && !AnyRewritable([])
  {
  }

  lemma RewriteCons(u: Unit, us: seq<Unit>)
    ensures RewriteAll([u] + us) == [RewriteUnit(u)] + RewriteAll(us)
  {
    hide RewriteUnit;
  }

  lemma ResplitOne(u: Unit)
    ensures Resplit([u]) == NonEmpty(u)
  {
  }

  lemma ResplitCons(u: Unit, us: seq<Unit>)
    requires |us| > 0
    ensures Resplit([u] + us) == NonEmpty(Strip(u)) + Resplit(us)
  {
    hide Strip;
    assert ([u] + us)[1..] == us;
  }

  lemma RegularHead(u: Unit, us: seq<Unit>)
    requires Regular([u] + us)
    ensures RegularUnit(u, |us| == 0) && Regular(us)
  {
    hide RegularUnit;
    var all := [u] + us;
    assert all[0] == u;
    forall i | 0 <= i < |us| ensures RegularUnit(us[i], i == |us| - 1) {
      assert us[i] == all[i + 1];
    }
  }

  lemma AnyCons(u: Unit, us: seq<Unit>)
    ensures AnyRewritable([u] + us) <==> IsRewritable(u) || AnyRewritable(us)
  {
    hide IsRewritable;
    var all := [u] + us;
    assert all[0] == u;
    if AnyRewritable(us) {
      var i :| 0 <= i < |us| && IsRewritable(us[i]);
      assert IsRewritable(all[i + 1]);
    }
    if AnyRewritable(all) {
      var i :| 0 <= i < |all| && IsRewritable(all[i]);
      if i > 0 {
        assert us[i - 1] == all[i];
      }
    }
  }

  lemma UnitAgain(u: Unit, last: bool)
    requires |u| > 0 && RegularUnit(u, last)
    ensures |RewriteUnit(u)| > 0 && RewriteUnit(RewriteUnit(u)) == RewriteUnit(u)
    ensures IsRewritable(u) ==> IsRewritable(RewriteUnit(u))
    ensures !last ==> |Strip(RewriteUnit(u))| > 0 && RewriteUnit(Strip(RewriteUnit(u))) == RewriteUnit(u)
    ensures !last && IsRewritable(u) ==> IsRewritable(Strip(RewriteUnit(u)))
  {
    hide Strip, Representable, Parse, Rewritten, NalType;
    if IsRewritable(u) {
      RewriteStripped(u);
    } else if !last {
      StripIsSame(u);
    }
  }

  predicate FitsCodes(u: Unit) {
    IsRewritable(u) ==> Representable(Parse(u).value)
  }

  /** All parameter sets fit their codes. */
  ghost predicate Fits(us: seq<Unit>) {
    forall i :: 0 <= i < |us| ==> FitsCodes(us[i])
  }

  /** A unit that can be parsed without its last byte, a zero, can be parsed. */
  lemma StrippedParsesAsBefore(u: Unit)
    requires Parse(Strip(u)).Some?
    ensures Parse(u) == Parse(Strip(u))
  {
    hide GetSps, PutSps, SpsOk, PayloadBits;
    var v := Strip(u);
    if v != u {
      var s := Parse(v).value;
      ParseOk(v);
      assert v[1..] == u[1..][..|u| - 2] && u[1..][|u| - 2] == 0;
      PayloadWithoutZero(u[1..]);
      var F, G := PayloadBits(v[1..]), PayloadBits(u[1..]);
      SpsReads(F, Empty, s);
      SpsReads(G, Empty, s);
      assert Reads(F, Empty) == Reads(G, Empty) == Some(0);
      ReadsLonger(F, G, PutSps(Empty, s));
    }
  }

  lemma StripStaysAsItIs(u: Unit)
    requires !IsRewritable(u)
    ensures !IsRewritable(Strip(u)) && RewriteUnit(Strip(u)) == Strip(u) && |Strip(u)| <= |u|
    ensures |u| > 0 && !EndsNonZero(u) ==> |Strip(u)| < |u|
  {
    hide Parse, NalType, Patch, Print;
    if |Strip(u)| > 0 && Parse(Strip(u)).Some? {
      StrippedParsesAsBefore(u);
    }
  }

  lemma JoinedLength(u: Unit, us: seq<Unit>)
    ensures |Join(RewriteAll(NonEmpty(u) + us))| == (if |u| == 0 then 0
      else 3 + |RewriteUnit(u)|) + |Join(RewriteAll(us))|
  {
    hide RewriteUnit;
    if |u| == 0 {
      assert NonEmpty(u) + us == us;
    } else {
      var all := NonEmpty(u) + us;
      assert all[0] == u && all[1..] == us;
      assert RewriteAll(all)[1..] == RewriteAll(us);
    }
  }

  /** What a unit that is not the last takes after it was joined and split off again. */
  lemma UnitShrinks(u: Unit)
    requires |u| > 0 && FitsCodes(u)
    ensures var v := Strip(RewriteUnit(u)); var again := if |v| == 0 then 0 else 3 + |RewriteUnit(v)|;
      && again <= 3 + |RewriteUnit(u)|
      && (again < 3 + |RewriteUnit(u)| <==> !IsRewritable(u) && !EndsNonZero(u))
  {
    hide Strip, Representable, Parse, NalType, Rewritten;
    if IsRewritable(u) {
      RewriteStripped(u);
    } else {
      StripStaysAsItIs(u);
      if EndsNonZero(u) {
        StripIsSame(u);
      }
    }
  }

  /** Splitting and rewriting again never makes a frame longer, and makes it shorter unless it is regular. */
  lemma {:induction false} RejoinShrinks(us: seq<Unit>)
    requires AllNonEmpty(us) && Fits(us)
    ensures var once, again := Join(RewriteAll(us)), Join(RewriteAll(Resplit(RewriteAll(us))));
      |again| <= |once| && (!Regular(us) ==> |again| < |once|)
  {
    hide Strip, IsRewritable, RewriteUnit, EndsNonZero, FitsCodes, RegularUnit;
    if |us| == 1 {
      LastUnit(us[0]);
      var vs := RewriteAll(us);
      assert vs == [RewriteUnit(us[0])] && Resplit(vs) == NonEmpty(RewriteUnit(us[0]));
      assert RewriteAll(Resplit(vs)) == vs;
      assert Regular(us);
    } else if |us| > 1 {
      var first, rest := us[0], us[1..];
      FitsRest(us);
      RejoinShrinks(rest);
      var vs := RewriteAll(us);
      assert vs[1..] == RewriteAll(rest) && vs[0] == RewriteUnit(first);
      UnitShrinks(first);
      JoinedLength(Strip(RewriteUnit(first)), Resplit(RewriteAll(rest)));
      assert |Join(vs)| == 3 + |vs[0]| + |Join(vs[1..])|;
      RegularCons(first, rest);
      RegularFits(first);
      assert us == [first] + rest;
    }
  }

  lemma LastUnit(u: Unit)
    requires |u| > 0 && FitsCodes(u)
    ensures |RewriteUnit(u)| > 0 && RewriteUnit(RewriteUnit(u)) == RewriteUnit(u) && RegularUnit(u, true)
  {
    UnitAgain(u, true);
  }

  lemma RegularCons(u: Unit, us: seq<Unit>)
    requires |us| > 0
    ensures Regular([u] + us) <==> RegularUnit(u, false) && Regular(us)
  {
    hide RegularUnit;
    var all := [u] + us;
    assert all[0] == u && |all| > 1;
    if Regular(all) {
      forall i | 0 <= i < |us| ensures RegularUnit(us[i], i == |us| - 1) {
        assert us[i] == all[i + 1];
      }
    }
  }

  lemma FitsRest(us: seq<Unit>)
    requires |us| > 0 && Fits(us)
    ensures Fits(us[1..])
  {
    hide FitsCodes;
    forall i | 0 <= i < |us| - 1 ensures FitsCodes(us[1..][i]) {
      assert us[1..][i] == us[i + 1];
    }
  }

  /** Among the units before the last, the regular ones are those that rewriting again leaves as long as they are. */
  lemma RegularFits(u: Unit)
    requires FitsCodes(u)
    ensures RegularUnit(u, false) <==> IsRewritable(u) || EndsNonZero(u)
  {
    hide IsRewritable, Representable, EndsNonZero;
  }

  lemma RewritesAgain(u: Unit)
    requires IsRewritable(u) && FitsCodes(u)
    ensures IsRewritable(RewriteUnit(u)) && IsRewritable(Strip(RewriteUnit(u)))
    ensures |RewriteUnit(u)| > 0 && |Strip(RewriteUnit(u))| > 0
  {
    RewriteStripped(u);
  }

  lemma {:induction false} StillRewritable(us: seq<Unit>)
    requires AllNonEmpty(us) && Fits(us) && AnyRewritable(us)
    ensures AnyRewritable(Resplit(RewriteAll(us)))
  {
    hide Strip, IsRewritable, RewriteUnit, FitsCodes;
    var first, rest := us[0], us[1..];
    var vs := RewriteAll(us);
    assert us == [first] + rest && vs[0] == RewriteUnit(first) && vs[1..] == RewriteAll(rest);
    AnyCons(first, rest);
    if IsRewritable(first) {
      RewritesAgain(first);
      assert IsRewritable(Resplit(vs)[0]);
    } else {
      FitsRest(us);
      StillRewritable(rest);
      var again := Resplit(RewriteAll(rest));
      var w := Strip(vs[0]);
      if |w| > 0 {
        AnyCons(w, again);
      } else {
        assert NonEmpty(w) + again == again;
      }
    }
  }

  /**
    Where all parameter sets fit their codes, rewriting a rewritten frame returns it byte for byte if and only if
    there is nothing to rewrite, or no other unit but the last ends in a zero byte.
   */
  lemma RewriteFrameIdempotent(frame: seq<byte>)
    requires Fits(Split(frame))
    ensures RewriteFrame(RewriteFrame(frame)) == RewriteFrame(frame) <==>
            !AnyRewritable(Split(frame)) || Regular(Split(frame))
  {
    hide Split, Resplit, RewriteAll, AnyRewritable, Regular, Clean, AllNonEmpty, Fits;
    SplitUnits(frame);
    RewriteIsMap(frame);
    var us := Split(frame);
    if AnyRewritable(us) {
      StillRewritable(us);
      RejoinShrinks(us);
      if Regular(us) {
        RewriteResplit(us);
      }
    }
  }
}
