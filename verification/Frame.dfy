/**
  Frames in the byte-stream format of Annex B of Rec. ITU-T H.264: splitting into NAL units, rewriting the
  parameter sets among them, and joining again (internal/streamer/h264.go:12-149).
 */
module Frame {
  import opened Wrappers
  import opened Bits
  import opened SpsRewriter

  type Unit = seq<byte>

  // ---------------------------------------------------------------- splitting

  predicate StartCodeAt(s: seq<byte>, i: nat) {
    i + 3 <= |s| && s[i] == 0 && s[i + 1] == 0 && s[i + 2] == 1
  }

  ghost predicate NoStartCode(s: seq<byte>) {
    forall i: nat :: !StartCodeAt(s, i)
  }

  /** The first start code at or after i, or -1 (bytes.Index). */
  function IndexFrom(s: seq<byte>, i: nat): (r: int)
    ensures r == -1 || (i <= r && StartCodeAt(s, r))
    ensures forall j: nat :: i <= j && (r == -1 || j < r) ==> !StartCodeAt(s, j)
    decreases |s| - i
  {
    if i + 3 > |s| then -1 else if StartCodeAt(s, i) then i else IndexFrom(s, i + 1)
  }

  /** Where the unit before a start code at pos ends: one zero byte before the code belongs to the code. */
  function CutBefore(s: seq<byte>, pos: nat): (cut: nat)
    requires pos <= |s|
    ensures cut <= pos
  {
    if pos > 0 && s[pos - 1] == 0 then pos - 1 else pos
  }

  function NonEmpty(u: Unit): seq<Unit> {
    if |u| > 0 then [u] else []
  }

  function Split(buf: seq<byte>): seq<Unit>
    decreases |buf|
  {
    if |buf| == 0 then []
    else
      var pos := IndexFrom(buf, 0);
      if pos == -1 then [buf] else NonEmpty(buf[..CutBefore(buf, pos)]) + Split(buf[pos + 3..])
  }

  lemma SplitNothing()
    ensures Split([]) == []
  {
  }

  lemma SplitStep(s: seq<byte>)
    requires |s| > 0
    ensures var pos := IndexFrom(s, 0);
      Split(s) == if pos == -1 then NonEmpty(s) + Split([]) else NonEmpty(s[..CutBefore(s, pos)]) + Split(s[pos + 3..])
  {
    hide IndexFrom;
  }

  method SplitNALUs(buf: seq<byte>) returns (nalus: seq<Unit>)
    ensures nalus == Split(buf)
  {
    hide Split;
    SplitNothing();
    nalus := [];
    var temp := buf;
    while |temp| > 0
      invariant nalus + Split(temp) == Split(buf)
      decreases |temp|
    {
      ghost var before, was := nalus, temp;
      SplitStep(was);
      var pos := IndexFrom(temp, 0);
      var length := 3;
      if pos > 0 && temp[pos - 1] == 0 {
        pos := pos - 1;
        length := length + 1;
      }
      var nalu;
      if pos == -1 {
        nalu := temp;
        temp := [];
      } else {
        nalu := temp[..pos];
        temp := temp[pos + length..];
      }
      if |nalu| > 0 {
        nalus := nalus + [nalu];
      }
      assert before + (NonEmpty(nalu) + Split(temp)) == (before + NonEmpty(nalu)) + Split(temp);
      assert before + NonEmpty(nalu) == nalus;
    }
    assert nalus + [] == nalus;
  }

  // ---------------------------------------------------------------- rewriting

  const SPS_TYPE := 7
  const IDR_TYPE := 5

  function NalType(b: byte): nat {
    And(b, 0x1f)
  }

  function RewriteUnit(u: Unit): Unit {
    if |u| > 0 && NalType(u[0]) == SPS_TYPE && Rewritten(u).Some? then Rewritten(u).value else u
  }

  function RewriteAll(us: seq<Unit>): (r: seq<Unit>)
    ensures |r| == |us| && forall i :: 0 <= i < |us| ==> r[i] == RewriteUnit(us[i])
  {
    seq(|us|, i requires 0 <= i < |us| => RewriteUnit(us[i]))
  }

  predicate IsRewritable(u: Unit) {
    |u| > 0 && NalType(u[0]) == SPS_TYPE && Rewritten(u).Some?
  }

  predicate AnyRewritable(us: seq<Unit>) {
    exists i :: 0 <= i < |us| && IsRewritable(us[i])
  }

  function Join(us: seq<Unit>): seq<byte> {
    if |us| == 0 then [] else [0, 0, 1] + us[0] + Join(us[1..])
  }

  function RewriteFrame(frame: seq<byte>): seq<byte> {
    var us := Split(frame);
    if AnyRewritable(us) then Join(RewriteAll(us)) else frame
  }

  /** A byte slice with a capacity: the first len bytes of data. */
  class Scratch {
    var data: array<byte>
    var len: nat

    ghost predicate Valid()
      reads this
    {
      len <= data.Length
    }

    constructor (capacity: nat)
      ensures Valid() && fresh(data) && data.Length == capacity && len == 0
    {
      data := new byte[capacity];
      len := 0;
    }
  }

  /** What append writes into spare capacity. */
  method Append(buf: array<byte>, len: nat, s: seq<byte>) returns (end: nat)
    requires len + |s| <= buf.Length
    modifies buf
    ensures end == len + |s| && buf[..end] == old(buf[..len]) + s
  {
    for i := 0 to |s|
      invariant buf[..len] == old(buf[..len]) && buf[len..len + i] == s[..i]
    {
      buf[len + i] := s[i];
    }
    assert s[..|s|] == s;
    return len + |s|;
  }

  /** The scratch array when it is large enough, a new one otherwise. */
  method GrowByteScratch(scratch: Scratch?, need: nat) returns (buf: array<byte>)
    requires scratch != null ==> scratch.Valid()
    modifies scratch
    ensures buf.Length >= need
    ensures scratch == null ==> fresh(buf)
    ensures scratch != null ==>
      scratch.Valid() && scratch.data == buf &&
      if old(scratch.data.Length) >= need then buf == old(scratch.data) else fresh(buf) && buf.Length == need
  {
    if scratch == null {
      buf := new byte[need];
    } else {
      if scratch.data.Length < need {
        scratch.data := new byte[need];
        scratch.len := 0;
      }
      buf := scratch.data;
    }
  }

  function Room(us: seq<Unit>): nat {
    if |us| == 0 then 0 else Room(us[..|us| - 1]) + 3 + |us[|us| - 1]|
  }

  lemma {:induction false} RoomGrows(us: seq<Unit>, i: nat)
    requires i <= |us|
    ensures Room(us[..i]) <= Room(us)
    decreases |us| - i
  {
    if i < |us| {
      RoomGrows(us, i + 1);
      assert us[..i + 1][..i] == us[..i];
    } else {
      assert us[..i] == us;
    }
  }

  lemma {:induction false} JoinLast(us: seq<Unit>, u: Unit)
    ensures Join(us + [u]) == Join(us) + [0, 0, 1] + u
  {
    if |us| == 0 {
      assert [u][1..] == [];
      assert us + [u] == [u];
    } else {
      JoinLast(us[1..], u);
      assert (us + [u])[1..] == us[1..] + [u];
      assert [0, 0, 1] + us[0] + (Join(us[1..]) + [0, 0, 1] + u) == ([0, 0, 1] + us[0] + Join(us[1..])) + [0, 0, 1] + u;
    }
  }

  /** Every parameter set that parses is replaced in its place. */
  method RewriteNALUs(units: seq<Unit>) returns (nalus: seq<Unit>, rewritten: bool)
    ensures nalus == RewriteAll(units)
    ensures rewritten <==> AnyRewritable(units)
  {
    hide Rewritten, NalType;
    nalus := units;
    rewritten := false;
    for i := 0 to |nalus|
      invariant |nalus| == |units|
      invariant forall j :: 0 <= j < i ==> nalus[j] == RewriteUnit(units[j])
      invariant forall j :: i <= j < |units| ==> nalus[j] == units[j]
      invariant rewritten <==> exists j :: 0 <= j < i && IsRewritable(units[j])
    {
      var nalu := nalus[i];
      if |nalu| > 0 && NalType(nalu[0]) == SPS_TYPE {
        var replacement := RewriteSPSVUI(nalu);
        if replacement.Some? {
          nalus := nalus[i := replacement.value];
          rewritten := true;
        }
      }
    }
  }

  method SpaceNeeded(frame: seq<byte>, nalus: seq<Unit>) returns (need: nat)
    ensures need == |frame| + Room(nalus)
  {
    need := |frame|;
    for i := 0 to |nalus|
      invariant need == |frame| + Room(nalus[..i])
    {
      need := need + 3 + |nalus[i]|;
      assert nalus[..i + 1][..i] == nalus[..i];
    }
    assert nalus[..|nalus|] == nalus;
  }

  /** Start codes and units are appended one after the other; the capacity is never exceeded. */
  method JoinInto(buf: array<byte>, nalus: seq<Unit>) returns (len: nat)
    requires Room(nalus) <= buf.Length
    modifies buf
    ensures len <= buf.Length && buf[..len] == Join(nalus)
  {
    hide Join, Room;
    len := 0;
    NothingJoined();
    for i := 0 to |nalus|
      invariant len == Room(nalus[..i]) && len <= buf.Length
      invariant buf[..len] == Join(nalus[..i])
    {
      RoomGrows(nalus, i + 1);
      OneMoreUnit(nalus, i);
      JoinLast(nalus[..i], nalus[i]);
      len := Append(buf, len, [0, 0, 1]);
      len := Append(buf, len, nalus[i]);
    }
    assert nalus[..|nalus|] == nalus;
  }

  lemma NothingJoined()
    ensures Room([]) == 0 && Join([]) == []
  {
  }

  lemma OneMoreUnit(us: seq<Unit>, i: nat)
    requires i < |us|
    ensures us[..i + 1] == us[..i] + [us[i]] && Room(us[..i + 1]) == Room(us[..i]) + 3 + |us[i]|
  {
    assert us[..i + 1][..i] == us[..i];
  }

  /** The frame with its parameter sets rewritten. Where there is a scratch buffer, the result is left in it. */
  method RewriteH264SPSInto(scratch: Scratch?, frame: seq<byte>) returns (out: seq<byte>)
    requires scratch != null ==> scratch.Valid()
    modifies scratch, if scratch != null then {scratch.data} else {}
    ensures out == RewriteFrame(frame)
    ensures scratch != null ==> scratch.Valid()
    ensures scratch != null && AnyRewritable(Split(frame)) ==> scratch.data[..scratch.len] == out
    ensures scratch != null && !AnyRewritable(Split(frame)) ==>
      scratch.data == old(scratch.data) && scratch.len == old(scratch.len) && scratch.data[..] == old(scratch.data[..])
  {
    hide Split, AnyRewritable, RewriteAll, Join, Room;
    var units := SplitNALUs(frame);
    var nalus, rewritten := RewriteNALUs(units);
    if !rewritten {
      return frame;
    }
    var need := SpaceNeeded(frame, nalus);
    var buf := GrowByteScratch(scratch, need);
    var len := JoinInto(buf, nalus);
    if scratch != null {
      scratch.len := len;
    }
    return buf[..len];
  }
}
