/** The description on the pause card (internal/pool/playback.go:271-337). A `char` is one rune. */
module Wrap {
  import opened Wrappers

  predicate IsSpace(c: char) {
    var n := c as int;
    (9 <= n <= 13) || n == 0x20 || n == 0x85 || n == 0xA0 || n == 0x1680 || (0x2000 <= n <= 0x200A)
    || n == 0x2028 || n == 0x2029 || n == 0x202F || n == 0x205F || n == 0x3000
  }

  predicate IsWord(w: string) {
    |w| > 0 && forall i :: 0 <= i < |w| ==> !IsSpace(w[i])
  }

  ghost predicate AreWords(ws: seq<string>) {
    forall i :: 0 <= i < |ws| ==> IsWord(ws[i])
  }

  /** The words of a text and the word that is still open at its end. */
  function Scan(text: string): (r: (seq<string>, string)) {
    if |text| == 0 then ([], "")
    else
      var (words, open) := Scan(text[..|text| - 1]);
      var c := text[|text| - 1];
      if !IsSpace(c) then (words, open + [c]) else if open == "" then (words, "") else (words + [open], "")
  }

  /** What separates a text into its words. */
  function Fields(text: string): (words: seq<string>) {
    var (words, open) := Scan(text);
    if open == "" then words else words + [open]
  }

  function TruncateRunes(text: string, max: int): (r: string)
    ensures max <= 0 ==> r == ""
    ensures max > 0 ==> r <= text && |r| == if |text| <= max then |text| else max
  {
    if max <= 0 then "" else if |text| <= max then text else text[..max]
  }

  function Truncated(ws: seq<string>, width: int): (r: seq<string>)
    ensures |r| == |ws|
    ensures forall i :: 0 <= i < |ws| ==>
      r[i] <= ws[i] && |r[i]| == if |ws[i]| <= width then |ws[i]| else if width < 0 then 0 else width
  {
    seq(|ws|, i requires 0 <= i < |ws| => if |ws[i]| > width then TruncateRunes(ws[i], width) else ws[i])
  }

  /** Words with one space between them. */
  function Spaced(ws: seq<string>): (line: string) {
    if |ws| == 0 then ""
    else if |ws| == 1 then ws[0]
    else Spaced(ws[..|ws| - 1]) + " " + ws[|ws| - 1]
  }

  function Flat(groups: seq<seq<string>>): (ws: seq<string>) {
    if |groups| == 0 then [] else Flat(groups[..|groups| - 1]) + groups[|groups| - 1]
  }

  function Lines(groups: seq<seq<string>>): (lines: seq<string>)
    ensures |lines| == |groups|
  {
    seq(|groups|, i requires 0 <= i < |groups| => Spaced(groups[i]))
  }

  /** The lines, as groups of words, after so many words. */
  function Packed(ws: seq<string>, width: int): (groups: seq<seq<string>>)
    ensures |groups| > 0
  {
    if |ws| == 0 then [[]]
    else
      var before, w := Packed(ws[..|ws| - 1], width), ws[|ws| - 1];
      var last := before[|before| - 1];
      if Spaced(last) == "" then before[|before| - 1 := [w]]
      else if |Spaced(last)| + 1 + |w| <= width then before[|before| - 1 := last + [w]]
      else before + [[w]]
  }

  /** The lines before the cap. */
  function Full(text: string, width: int): (lines: seq<string>)
    ensures |lines| > 0
  {
    Lines(Packed(Truncated(Fields(text), width), width))
  }

  /** The cap: too many lines end in three dots. */
  function Capped(lines: seq<string>, width: int, maxLines: int): (r: seq<string>)
    requires maxLines >= 1
    ensures |r| == if |lines| > maxLines then maxLines else |lines|
  {
    if |lines| > maxLines then lines[..maxLines - 1] + [TruncateRunes(lines[maxLines - 1], width - 3) + "..."]
      else lines
  }

  /** None stands for the index that is out of range when lines have to go and none may stay. */
  method WrapPauseBody(text: string, width: int, maxLines: int) returns (r: Option<seq<string>>)
    ensures Fields(text) == [] ==> r == Some([])
    ensures Fields(text) != [] ==> r == if maxLines < 1 then None else Some(Capped(Full(text, width), width, maxLines))
  {
    hide Packed, Spaced, Lines;
    var words := Fields(text);
    if |words| == 0 {
      return Some([]);
    }
    ghost var cut := Truncated(words, width);
    var lines := [""];
    Start(width);
    var i := 0;
    while i < |words|
      invariant i <= |words| && |lines| > 0
      invariant lines == Lines(Packed(cut[..i], width))
    {
      var word := words[i];
      if |word| > width {
        word := TruncateRunes(word, width);
      }
      var line := lines[|lines| - 1];
      NextWord(cut, i, width);
      if line == "" {
        lines := lines[|lines| - 1 := word];
      } else if |line| + 1 + |word| <= width {
        lines := lines[|lines| - 1 := line + " " + word];
      } else {
        lines := lines + [word];
      }
      i := i + 1;
    }
    assert cut[..i] == cut;
    ghost var full := lines;
    if |lines| > maxLines {
      if maxLines < 1 {
        return None;
      }
      lines := lines[..maxLines];
      lines := lines[maxLines - 1 := TruncateRunes(lines[maxLines - 1], width - 3) + "..."];
      assert lines == Capped(full, width, maxLines);
    }
    return Some(lines);
  }

  lemma Start(width: int)
    ensures Lines(Packed([], width)) == [""]
  {
  }

  /** One more word, seen from the lines. */
  lemma NextWord(cut: seq<string>, i: nat, width: int)
    requires i < |cut|
    ensures var lines := Lines(Packed(cut[..i], width)); var n := |lines| - 1; var w := cut[i];
      n >= 0 && Lines(Packed(cut[..i + 1], width)) ==
        if lines[n] == "" then lines[n := w]
        else if |lines[n]| + 1 + |w| <= width then lines[n := lines[n] + " " + w]
        else lines + [w]
  {
    hide Spaced;
    assert cut[..i + 1][..i] == cut[..i];
    var before := Packed(cut[..i], width);
    SpacedMore(before[|before| - 1], cut[i]);
    SpacedMore([], cut[i]);
    assert [] + [cut[i]] == [cut[i]];
  }

  lemma SpacedMore(ws: seq<string>, w: string)
    ensures Spaced([]) == ""
    ensures Spaced(ws + [w]) == if |ws| == 0 then w else Spaced(ws) + " " + w
  {
    assert (ws + [w])[..|ws|] == ws;
  }

  // ---------------------------------------------------------------- words survive

  lemma {:induction false} FieldsAreWords(text: string)
    ensures AreWords(Scan(text).0)
    ensures forall i :: 0 <= i < |Scan(text).1| ==> !IsSpace(Scan(text).1[i])
    ensures AreWords(Fields(text))
  {
    if |text| > 0 {
      FieldsAreWords(text[..|text| - 1]);
    }
  }

  lemma ScanMore(text: string, c: char)
    ensures var (words, open) := Scan(text);
      Scan(text + [c]) ==
        if !IsSpace(c) then (words, open + [c]) else if open == "" then (words, "") else (words + [open], "")
  {
    hide IsSpace;
    assert (text + [c])[..|text|] == text;
  }

  lemma {:induction false} ScanWord(text: string, w: string)
    requires forall i :: 0 <= i < |w| ==> !IsSpace(w[i])
    ensures Scan(text + w) == (Scan(text).0, Scan(text).1 + w)
  {
    hide Scan, IsSpace;
    var open := Scan(text).1;
    if |w| == 0 {
      assert text + w == text && open + w == open;
    } else {
      var init, c := w[..|w| - 1], w[|w| - 1];
      ScanWord(text, init);
      assert w == init + [c];
      ScanMore(text + init, c);
      assert text + w == (text + init) + [c];
      assert open + w == (open + init) + [c];
    }
  }

  lemma ScanSpace(text: string)
    ensures var (words, open) := Scan(text); Scan(text + " ") == (if open == "" then words else words + [open], "")
  {
    ScanMore(text, ' ');
  }

  lemma {:induction false} ScanSpaced(ws: seq<string>)
    requires AreWords(ws) && |ws| > 0
    ensures Scan(Spaced(ws)) == (ws[..|ws| - 1], ws[|ws| - 1])
  {
    var w := ws[|ws| - 1];
    if |ws| == 1 {
      ScanWord("", w);
      assert "" + w == w;
    } else {
      var init := ws[..|ws| - 1];
      ScanSpaced(init);
      ScanSpace(Spaced(init));
      ScanWord(Spaced(init) + " ", w);
      assert init[..|init| - 1] + [init[|init| - 1]] == init;
      assert "" + w == w;
    }
  }

  /** What splitting at white space is: a separator splits, a word stands for itself. */
  lemma {:induction false} FieldsSplit(a: string, c: char, b: string)
    requires IsSpace(c)
    ensures Scan(a + [c] + b) == (Fields(a) + Scan(b).0, Scan(b).1)
    ensures Fields(a + [c] + b) == Fields(a) + Fields(b)
  {
    hide Scan, IsSpace;
    var words := Fields(a);
    if |b| == 0 {
      ScanMore(a, c);
      NothingToScan();
      assert a + [c] + b == a + [c] && words + [] == words;
    } else {
      var init, last := b[..|b| - 1], b[|b| - 1];
      FieldsSplit(a, c, init);
      assert b == init + [last];
      ScanMore(init, last);
      ScanMore(a + [c] + init, last);
      assert a + [c] + b == (a + [c] + init) + [last];
      var (found, open) := Scan(init);
      assert (words + found) + [open] == words + (found + [open]);
    }
    assert (words + Scan(b).0) + [Scan(b).1] == words + (Scan(b).0 + [Scan(b).1]);
  }

  lemma FieldsOfWord(w: string)
    requires IsWord(w)
    ensures Fields(w) == [w] && Fields("") == []
  {
    ScanWord("", w);
    NothingToScan();
    assert "" + w == w && [] + [w] == [w];
  }

  /** A set line has single blanks between its words, and no other white space. */
  ghost predicate SingleBlanks(line: string) {
    forall i :: 0 <= i < |line| && IsSpace(line[i]) ==>
      line[i] == ' ' && 0 < i < |line| - 1 && !IsSpace(line[i - 1]) && !IsSpace(line[i + 1])
  }

  lemma {:induction false} SpacedIsTidy(ws: seq<string>)
    requires AreWords(ws)
    ensures SingleBlanks(Spaced(ws))
    ensures |ws| > 0 ==> |Spaced(ws)| > 0 && !IsSpace(Spaced(ws)[|Spaced(ws)| - 1])
  {
    if |ws| == 1 {
      assert IsWord(ws[0]);
    } else if |ws| > 1 {
      var init, w := ws[..|ws| - 1], ws[|ws| - 1];
      SpacedIsTidy(init);
      assert IsWord(w);
      var line, start := Spaced(ws), Spaced(init);
      assert forall k :: 0 <= k < |w| ==> line[|start| + 1 + k] == w[k] && !IsSpace(w[k]);
      assert forall i :: |start| < i < |line| ==> line[i] == w[i - |start| - 1];
      forall i | 0 <= i < |line| && IsSpace(line[i])
        ensures line[i] == ' ' && 0 < i < |line| - 1 && !IsSpace(line[i - 1]) && !IsSpace(line[i + 1])
      {
        if i < |start| {
          assert line[i] == start[i] && IsSpace(start[i]);
          assert line[i - 1] == start[i - 1] && line[i + 1] == start[i + 1];
        } else {
          assert i == |start|;
          assert line[i - 1] == start[i - 1] && line[i + 1] == w[0];
        }
      }
    }
  }

  /** Words set with single spaces are found again. */
  lemma FieldsOfSpaced(ws: seq<string>)
    requires AreWords(ws)
    ensures Fields(Spaced(ws)) == ws
  {
    hide Spaced, Scan;
    if |ws| > 0 {
      ScanSpaced(ws);
      assert ws[..|ws| - 1] + [ws[|ws| - 1]] == ws;
    } else {
      SpacedMore([], "");
      NothingToScan();
    }
  }

  lemma NothingToScan()
    ensures Scan("") == ([], "")
  {
  }

  // ---------------------------------------------------------------- what packing keeps

  ghost predicate Fitting(ws: seq<string>, width: int) {
    AreWords(ws) && forall i :: 0 <= i < |ws| ==> |ws[i]| <= width
  }

  /** The groups hold the words in order, and each fits one line. */
  ghost predicate IsWrap(groups: seq<seq<string>>, ws: seq<string>, width: int) {
    Flat(groups) == ws && forall i :: 0 <= i < |groups| ==> |Spaced(groups[i])| <= width
  }

  ghost predicate NoRoom(line: seq<string>, next: seq<string>, width: int) {
    |next| > 0 && |Spaced(line)| + 1 + |next[0]| > width
  }

  /** No line could have taken the first word of the next. */
  ghost predicate Tight(groups: seq<seq<string>>, width: int) {
    forall i :: 0 <= i < |groups| - 1 ==> NoRoom(groups[i], groups[i + 1], width)
  }

  lemma FlatMore(groups: seq<seq<string>>, g: seq<string>)
    ensures Flat(groups + [g]) == Flat(groups) + g
  {
    assert (groups + [g])[..|groups|] == groups;
  }

  lemma SpacedEmpty(ws: seq<string>)
    requires AreWords(ws)
    ensures Spaced(ws) == "" <==> ws == []
  {
  }

  ghost predicate Good(g: seq<seq<string>>, ws: seq<string>, width: int) {
    && |g| > 0 && IsWrap(g, ws, width) && Tight(g, width)
    && (forall i :: 0 <= i < |g| ==> AreWords(g[i])) && (|g| > 1 ==> g[0] != [])
  }

  lemma WordJoinsLine(g: seq<seq<string>>, ws: seq<string>, w: string, width: int)
    requires Good(g, ws, width) && IsWord(w)
    requires |Spaced(g[|g| - 1] + [w])| <= width
    ensures Good(g[|g| - 1 := g[|g| - 1] + [w]], ws + [w], width)
  {
    hide Spaced, Flat, IsWord;
    var n := |g| - 1;
    var last := g[n];
    var t := g[n := last + [w]];
    assert g[..n] + [last] == g && t == g[..n] + [last + [w]];
    FlatMore(g[..n], last);
    FlatMore(g[..n], last + [w]);
    assert Flat(g[..n]) + (last + [w]) == (Flat(g[..n]) + last) + [w];
    forall i | 0 <= i < |t| - 1 ensures NoRoom(t[i], t[i + 1], width) {
      assert NoRoom(g[i], g[i + 1], width);
    }
  }

  lemma WordOpensLine(g: seq<seq<string>>, ws: seq<string>, w: string, width: int)
    requires Good(g, ws, width) && IsWord(w) && |w| <= width
    requires g[|g| - 1] != [] && |Spaced(g[|g| - 1])| + 1 + |w| > width
    ensures Good(g + [[w]], ws + [w], width)
  {
    hide Spaced, Flat, IsWord;
    FlatMore(g, [w]);
    SpacedMore([], w);
    assert [] + [w] == [w];
  }

  lemma {:induction false} PackedWraps(ws: seq<string>, width: int)
    requires Fitting(ws, width) && width >= 0
    ensures Good(Packed(ws, width), ws, width)
  {
    hide Spaced, IsWord, Good, AreWords, Fitting;
    if |ws| == 0 {
      NoWords(width);
    } else {
      var init, w := ws[..|ws| - 1], ws[|ws| - 1];
      FittingParts(ws, width);
      PackedWraps(init, width);
      var g := Packed(init, width);
      var last := g[|g| - 1];
      LastIsWords(g, init, width);
      SpacedEmpty(last);
      SpacedMore(last, w);
      assert init + [w] == ws;
      if Spaced(last) == "" {
        assert last + [w] == [w];
        WordJoinsLine(g, init, w, width);
      } else if |Spaced(last)| + 1 + |w| <= width {
        WordJoinsLine(g, init, w, width);
      } else {
        WordOpensLine(g, init, w, width);
      }
    }
  }

  lemma FittingParts(ws: seq<string>, width: int)
    requires Fitting(ws, width) && |ws| > 0
    ensures Fitting(ws[..|ws| - 1], width) && IsWord(ws[|ws| - 1]) && |ws[|ws| - 1]| <= width
  {
    hide IsWord;
  }

  lemma LastIsWords(g: seq<seq<string>>, ws: seq<string>, width: int)
    requires Good(g, ws, width)
    ensures AreWords(g[|g| - 1])
  {
  }

  lemma NoWords(width: int)
    requires width >= 0
    ensures Good([[]], [], width)
  {
    EmptyWrap();
  }

  // ---------------------------------------------------------------- no wrap is shorter

  lemma {:induction false} SpacedGrows(a: seq<string>, b: seq<string>)
    ensures |Spaced(a + b)| >= |Spaced(a)| && |Spaced(a + b)| >= |Spaced(b)|
  {
    hide Spaced;
    if |b| == 0 {
      assert a + b == a;
      SpacedMore([], "");
    } else {
      var init, w := b[..|b| - 1], b[|b| - 1];
      SpacedGrows(a, init);
      assert a + b == (a + init) + [w] && b == init + [w];
      SpacedMore(a + init, w);
      SpacedMore(init, w);
    }
  }

  lemma SpacedInside(ws: seq<string>, lo: nat, a: nat, b: nat, hi: nat)
    requires lo <= a <= b <= hi <= |ws|
    ensures |Spaced(ws[a..b])| <= |Spaced(ws[lo..hi])|
  {
    hide Spaced;
    SpacedGrows(ws[lo..a], ws[a..b]);
    SpacedGrows(ws[lo..b], ws[b..hi]);
    assert ws[lo..a] + ws[a..b] == ws[lo..b] && ws[lo..b] + ws[b..hi] == ws[lo..hi];
  }

  lemma {:induction false} FlatPrefix(groups: seq<seq<string>>, k: nat)
    requires k <= |groups|
    ensures Flat(groups[..k]) <= Flat(groups)
    decreases |groups|
  {
    if k < |groups| {
      FlatPrefix(groups[..|groups| - 1], k);
      assert groups[..|groups| - 1][..k] == groups[..k];
    } else {
      assert groups[..k] == groups;
    }
  }

  /** Line k holds the words between the first k lines and the first k + 1. */
  lemma LineIsSlice(groups: seq<seq<string>>, k: nat)
    requires k < |groups|
    ensures var lo := |Flat(groups[..k])|; var hi := |Flat(groups[..k + 1])|;
      lo + |groups[k]| == hi <= |Flat(groups)| && Flat(groups)[lo..hi] == groups[k]
  {
    hide Flat;
    FlatPrefix(groups, k + 1);
    FlatMore(groups[..k], groups[k]);
    assert groups[..k] + [groups[k]] == groups[..k + 1];
    var lo, hi := |Flat(groups[..k])|, |Flat(groups[..k + 1])|;
    assert Flat(groups)[..hi] == Flat(groups[..k + 1]);
    assert Flat(groups)[lo..hi] == Flat(groups)[..hi][lo..];
  }

  /** After as many lines no other wrap is ahead. */
  lemma {:induction false} NeverAhead(g: seq<seq<string>>, o: seq<seq<string>>, ws: seq<string>, width: int, k: nat)
    requires Good(g, ws, width) && IsWrap(o, ws, width) && k <= |g| && k <= |o|
    ensures |Flat(o[..k])| <= |Flat(g[..k])|
  {
    hide Flat, Spaced, AreWords;
    if k > 0 {
      NeverAhead(g, o, ws, width, k - 1);
      LineIsSlice(g, k - 1);
      LineIsSlice(o, k - 1);
      var pg, po := |Flat(g[..k - 1])|, |Flat(o[..k - 1])|;
      var eg, eo := |Flat(g[..k])|, |Flat(o[..k])|;
      assert k == |g| ==> g[..k] == g;
      if eo > eg {
        assert k < |g|;
        LineIsSlice(g, k);
        assert NoRoom(g[k - 1], g[k], width);
        assert k - 1 > 0 ==> NoRoom(g[k - 2], g[k - 1], width);
        assert ws[pg..eg + 1] == g[k - 1] + [g[k][0]];
        SpacedMore(g[k - 1], g[k][0]);
        SpacedInside(ws, po, pg, eg + 1, eo);
        assert false;
      }
    }
  }

  lemma EmptyWrap()
    ensures Flat([[]]) == []
  {
    var none: seq<seq<string>> := [];
    FlatMore(none, []);
    assert none + [[]] == [[]];
  }

  lemma NoEmptyLine(g: seq<seq<string>>, ws: seq<string>, width: int, i: nat)
    requires Good(g, ws, width) && i < |g| && ws != []
    ensures g[i] != []
  {
    hide Flat, Spaced, AreWords;
    EmptyWrap();
    assert i > 0 ==> NoRoom(g[i - 1], g[i], width);
    assert |g| == 1 && g[0] == [] ==> g == [[]];
  }

  /** Fewer lines hold fewer words. */
  lemma NoLineToSpare(g: seq<seq<string>>, ws: seq<string>, width: int, k: nat)
    requires Good(g, ws, width) && k < |g| && ws != []
    ensures |Flat(g[..k])| < |ws|
  {
    hide Flat, Spaced, AreWords;
    LineIsSlice(g, k);
    NoEmptyLine(g, ws, width, k);
  }

  /** Of all ways to set the words in order in lines that fit, none needs fewer lines. */
  lemma NoWrapIsShorter(ws: seq<string>, width: int, other: seq<seq<string>>)
    requires Fitting(ws, width) && ws != [] && IsWrap(other, ws, width)
    ensures |Packed(ws, width)| <= |other|
  {
    hide Packed, Flat, Good, Fitting;
    var g := Packed(ws, width);
    assert width >= 0 by { FittingWidth(ws, width); }
    PackedWraps(ws, width);
    assert other[..|other|] == other;
    if |other| < |g| {
      NeverAhead(g, other, ws, width, |other|);
      NoLineToSpare(g, ws, width, |other|);
    }
  }

  lemma FittingWidth(ws: seq<string>, width: int)
    requires Fitting(ws, width) && ws != []
    ensures width > 0
  {
    assert IsWord(ws[0]);
  }

  // ---------------------------------------------------------------- the description

  lemma TruncatedFits(ws: seq<string>, width: int)
    requires AreWords(ws) && width >= 1
    ensures Fitting(Truncated(ws, width), width)
  {
    forall i | 0 <= i < |ws| ensures IsWord(Truncated(ws, width)[i]) {
      assert IsWord(ws[i]);
    }
  }

  lemma {:induction false} FieldsOfLines(groups: seq<seq<string>>)
    requires forall i :: 0 <= i < |groups| ==> AreWords(groups[i])
    ensures FieldsOfAll(Lines(groups)) == Flat(groups)
  {
    if |groups| > 0 {
      var init := groups[..|groups| - 1];
      FieldsOfLines(init);
      FieldsOfSpaced(groups[|groups| - 1]);
      assert Lines(groups)[..|groups| - 1] == Lines(init);
    }
  }

  /** The words of all lines, in order. */
  function FieldsOfAll(lines: seq<string>): (words: seq<string>) {
    if |lines| == 0 then [] else FieldsOfAll(lines[..|lines| - 1]) + Fields(lines[|lines| - 1])
  }

  /**
    Before the cap the words of the lines are the words of the text, in order, each cut to the width; every line
    fits; and no way of setting these words in order in lines that fit uses fewer lines.
   */
  lemma FullIsBest(text: string, width: int)
    requires width >= 1 && Fields(text) != []
    ensures FieldsOfAll(Full(text, width)) == Truncated(Fields(text), width)
    ensures forall i :: 0 <= i < |Full(text, width)| ==> 0 < |Full(text, width)[i]| <= width
    ensures forall i :: 0 <= i < |Full(text, width)| ==> SingleBlanks(Full(text, width)[i])
    ensures forall other :: IsWrap(other, Truncated(Fields(text), width), width) ==> |Full(text, width)| <= |other|
  {
    hide Fields, Packed, FieldsOfAll, Flat, IsWord, SingleBlanks, Spaced;
    var ws := Truncated(Fields(text), width);
    FieldsAreWords(text);
    TruncatedFits(Fields(text), width);
    PackedWraps(ws, width);
    var g := Packed(ws, width);
    FieldsOfLines(g);
    forall i | 0 <= i < |g| ensures SingleBlanks(Spaced(g[i])) {
      SpacedIsTidy(g[i]);
    }
    forall i | 0 <= i < |g| ensures 0 < |Spaced(g[i])| <= width {
      NoEmptyLine(g, ws, width, i);
      SpacedEmpty(g[i]);
    }
    forall other | IsWrap(other, ws, width) ensures |g| <= |other| {
      NoWrapIsShorter(ws, width, other);
    }
  }

  /** The longest prefix of at most room runes, and three dots. */
  ghost predicate EndsInDots(line: string, was: string, room: nat) {
    exists kept: string ::
      && line == kept + "..." && kept <= was && |kept| <= room
      && forall longer: string :: longer <= was && |longer| <= room ==> |longer| <= |kept|
  }

  lemma DotsAfterLongest(was: string, room: nat)
    ensures EndsInDots(was[..if |was| <= room then |was| else room] + "...", was, room)
  {
    var kept := was[..if |was| <= room then |was| else room];
    assert kept <= was && |kept| <= room;
  }

  /**
    After the cap no more than the allowed lines are left, and all fit exactly when the three dots do or are not
    needed.
   */
  lemma CapFits(text: string, width: int, maxLines: int)
    requires width >= 1 && Fields(text) != [] && maxLines >= 1
    ensures var full := Full(text, width); var r := Capped(full, width, maxLines);
      && |r| <= maxLines && r[..|r| - 1] <= full
      && ((forall i :: 0 <= i < |r| ==> |r[i]| <= width) <==> |full| <= maxLines || width >= 3)
      && (|full| <= maxLines ==> r == full)
      && (|full| > maxLines ==>
            |r| == maxLines && EndsInDots(r[maxLines - 1], full[maxLines - 1], if width < 3 then 0 else width - 3))
  {
    hide Full, Capped, EndsInDots, Fields, SingleBlanks, IsWrap;
    FullIsBest(text, width);
    CapIs(Full(text, width), width, maxLines);
  }

  lemma CapIs(full: seq<string>, width: int, maxLines: int)
    requires maxLines >= 1 && width >= 1
    ensures var r := Capped(full, width, maxLines);
      && (|full| <= maxLines ==> r == full)
      && (|full| > maxLines ==>
            && |r| == maxLines && r[..maxLines - 1] == full[..maxLines - 1]
            && EndsInDots(r[maxLines - 1], full[maxLines - 1], if width < 3 then 0 else width - 3)
            && (|r[maxLines - 1]| <= width <==> width >= 3))
  {
    hide EndsInDots;
    if |full| > maxLines {
      DotsAfterLongest(full[maxLines - 1], if width < 3 then 0 else width - 3);
      var was, room := full[maxLines - 1], if width < 3 then 0 else width - 3;
      assert TruncateRunes(was, width - 3) == was[..if |was| <= room then |was| else room];
    }
  }
}
