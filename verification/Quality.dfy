/**
  Choosing and ranking the qualities of a file (internal/media/qualities.go:10-83 and internal/media/media.go:349-386).
  What the source computes from URL, label and name by pattern is a field here.
 */
module Quality {
  import opened Wrappers

  datatype FileQuality = FileQuality(url: string, hls: bool, height: int, preference: int)

  predicate Usable(q: FileQuality) {
    q.url != "" && !q.hls
  }

  function Progressive(qs: seq<FileQuality>): (r: seq<FileQuality>)
    ensures forall q :: q in r <==> q in qs && q.url != "" && !q.hls
  {
    if |qs| == 0 then []
    else
      var before := Progressive(qs[..|qs| - 1]);
      if Usable(qs[|qs| - 1]) then before + [qs[|qs| - 1]] else before
  }

  // ---------------------------------------------------------------- the stable sort

  /** Lower first; at the same height the preferred first. */
  predicate Less(a: FileQuality, b: FileQuality) {
    a.height < b.height || (a.height == b.height && a.preference > b.preference)
  }

  function Insert(sorted: seq<FileQuality>, q: FileQuality): (r: seq<FileQuality>) {
    if |sorted| == 0 || !Less(q, sorted[|sorted| - 1]) then sorted + [q]
    else Insert(sorted[..|sorted| - 1], q) + [sorted[|sorted| - 1]]
  }

  function StableSorted(qs: seq<FileQuality>): (r: seq<FileQuality>) {
    if |qs| == 0 then [] else Insert(StableSorted(qs[..|qs| - 1]), qs[|qs| - 1])
  }

  ghost predicate Sorted(qs: seq<FileQuality>) {
    forall i, j :: 0 <= i < j < |qs| ==> !Less(qs[j], qs[i])
  }

  /** The entries that tie with q, in order. */
  function Ties(qs: seq<FileQuality>, q: FileQuality): (r: seq<FileQuality>) {
    if |qs| == 0 then []
    else
      var before, last := Ties(qs[..|qs| - 1], q), qs[|qs| - 1];
      if last.height == q.height && last.preference == q.preference then before + [last] else before
  }

  lemma {:induction false} InsertKeeps(sorted: seq<FileQuality>, q: FileQuality)
    ensures multiset(Insert(sorted, q)) == multiset(sorted) + multiset{q}
  {
    if |sorted| > 0 {
      InsertKeeps(sorted[..|sorted| - 1], q);
      assert sorted == sorted[..|sorted| - 1] + [sorted[|sorted| - 1]];
    }
  }

  lemma {:induction false} InsertSorts(sorted: seq<FileQuality>, q: FileQuality)
    requires Sorted(sorted)
    ensures Sorted(Insert(sorted, q))
  {
    hide Less;
    LessIsOrder();
    if |sorted| > 0 && Less(q, sorted[|sorted| - 1]) {
      var init, last := sorted[..|sorted| - 1], sorted[|sorted| - 1];
      InsertSorts(init, q);
      var r := Insert(init, q);
      InsertKeeps(init, q);
      forall i | 0 <= i < |r| ensures !Less(last, r[i]) {
        assert r[i] in multiset(r);
        assert r[i] in init || r[i] == q;
      }
    }
  }

  lemma LessIsOrder()
    ensures forall a, b :: Less(a, b) ==> !Less(b, a)
    ensures forall a, b, c :: Less(b, a) && !Less(b, c) ==> Less(c, a)
  {
  }

  lemma TiesMore(qs: seq<FileQuality>, last: FileQuality, q: FileQuality)
    ensures Ties(qs + [last], q) ==
      if last.height == q.height && last.preference == q.preference then Ties(qs, q) + [last] else Ties(qs, q)
  {
    assert (qs + [last])[..|qs|] == qs;
  }

  lemma {:induction false} InsertIsStable(sorted: seq<FileQuality>, x: FileQuality, q: FileQuality)
    requires Sorted(sorted)
    ensures Ties(Insert(sorted, x), q) == Ties(sorted + [x], q)
  {
    if |sorted| > 0 && Less(x, sorted[|sorted| - 1]) {
      var init, last := sorted[..|sorted| - 1], sorted[|sorted| - 1];
      assert sorted == init + [last];
      InsertIsStable(init, x, q);
      TiesMore(Insert(init, x), last, q);
      TiesMore(init, x, q);
      TiesMore(init, last, q);
      TiesMore(sorted, x, q);
    }
  }

  /** The sort keeps every entry, orders them, and leaves ties as they came. */
  lemma {:induction false} StableSortSorts(qs: seq<FileQuality>, q: FileQuality)
    ensures Sorted(StableSorted(qs)) && multiset(StableSorted(qs)) == multiset(qs)
    ensures Ties(StableSorted(qs), q) == Ties(qs, q)
  {
    if |qs| > 0 {
      var init, last := qs[..|qs| - 1], qs[|qs| - 1];
      assert qs == init + [last];
      StableSortSorts(init, q);
      InsertSorts(StableSorted(init), last);
      InsertKeeps(StableSorted(init), last);
      InsertIsStable(StableSorted(init), last, q);
      TiesMore(init, last, q);
      TiesMore(StableSorted(init), last, q);
    }
  }

  // ---------------------------------------------------------------- the ranking

  function Up(qs: seq<FileQuality>, target: int): (r: seq<FileQuality>) {
    if |qs| == 0 then []
    else
      var before := Up(qs[..|qs| - 1], target);
      if qs[|qs| - 1].height >= target then before + [qs[|qs| - 1]] else before
  }

  function Down(qs: seq<FileQuality>, target: int): (r: seq<FileQuality>) {
    if |qs| == 0 then []
    else
      var rest := Down(qs[..|qs| - 1], target);
      if qs[|qs| - 1].height < target then [qs[|qs| - 1]] + rest else rest
  }

  function Distinct(qs: seq<FileQuality>): (urls: seq<string>) {
    if |qs| == 0 then []
    else
      var before := Distinct(qs[..|qs| - 1]);
      if qs[|qs| - 1].url in before then before else before + [qs[|qs| - 1].url]
  }

  function Ordered(qs: seq<FileQuality>, target: int): (r: seq<FileQuality>) {
    var sorted := StableSorted(Progressive(qs));
    Up(sorted, target) + Down(sorted, target)
  }

  method RankedQualityURLs(qualities: seq<FileQuality>, target: int) returns (urls: seq<string>)
    ensures urls == Distinct(Ordered(qualities, target))
  {
    hide Up, Down, StableSorted, Progressive, Distinct;
    var progressive: seq<FileQuality> := [];
    Unfold([], target);
    assert qualities[..0] == [];
    for i := 0 to |qualities|
      invariant progressive == Progressive(qualities[..i])
    {
      Unfold(qualities[..i + 1], target);
      assert qualities[..i + 1][..i] == qualities[..i];
      if qualities[i].url != "" && !qualities[i].hls {
        progressive := progressive + [qualities[i]];
      }
    }
    assert qualities[..|qualities|] == qualities;
    if |progressive| == 0 {
      assert Ordered(qualities, target) == [];
      return [];
    }
    var sorted := StableSorted(progressive);
    var ordered: seq<FileQuality> := [];
    assert sorted[..0] == [];
    for i := 0 to |sorted|
      invariant ordered == Up(sorted[..i], target)
    {
      Unfold(sorted[..i + 1], target);
      assert sorted[..i + 1][..i] == sorted[..i];
      if sorted[i].height >= target {
        ordered := ordered + [sorted[i]];
      }
    }
    assert sorted[..|sorted|] == sorted;
    ghost var up := ordered;
    for i := |sorted| downto 0
      invariant ordered + Down(sorted[..i], target) == up + Down(sorted, target)
    {
      Unfold(sorted[..i + 1], target);
      assert sorted[..i + 1][..i] == sorted[..i];
      if sorted[i].height < target {
        assert ordered + ([sorted[i]] + Down(sorted[..i], target)) ==
          (ordered + [sorted[i]]) + Down(sorted[..i], target);
        ordered := ordered + [sorted[i]];
      }
    }
    assert sorted[..0] == [] && ordered + [] == ordered;
    assert ordered == Ordered(qualities, target);
    var seen: set<string> := {};
    urls := [];
    assert ordered[..0] == [];
    for i := 0 to |ordered|
      invariant urls == Distinct(ordered[..i]) && seen == set u | u in urls
    {
      Unfold(ordered[..i + 1], target);
      assert ordered[..i + 1][..i] == ordered[..i];
      if ordered[i].url !in seen {
        seen := seen + {ordered[i].url};
        urls := urls + [ordered[i].url];
      }
    }
    assert ordered[..|ordered|] == ordered;
  }

  lemma Unfold(qs: seq<FileQuality>, target: int)
    ensures |qs| == 0 ==>
      Progressive(qs) == [] && StableSorted(qs) == [] && Up(qs, target) == [] && Down(qs, target) == [] &&
        Distinct(qs) == []
    ensures |qs| > 0 ==> var init, q := qs[..|qs| - 1], qs[|qs| - 1];
      && Progressive(qs) == (if Usable(q) then Progressive(init) + [q] else Progressive(init))
      && Up(qs, target) == (if q.height >= target then Up(init, target) + [q] else Up(init, target))
      && Down(qs, target) == (if q.height < target then [q] + Down(init, target) else Down(init, target))
      && Distinct(qs) == (if q.url in Distinct(init) then Distinct(init) else Distinct(init) + [q.url])
  {
  }

  // ---------------------------------------------------------------- what the ranking means

  /**
    a is at least as good as b for a target: heights that reach it come before heights that do not, the nearest
    first. Among equal heights the preferred comes first above the target, and last below it.
   */
  predicate AtLeastAsGood(a: FileQuality, b: FileQuality, target: int) {
    if a.height >= target then b.height >= target ==> !Less(b, a) else b.height < target && !Less(a, b)
  }

  ghost predicate Ranked(qs: seq<FileQuality>, target: int) {
    forall i, j :: 0 <= i < j < |qs| ==> AtLeastAsGood(qs[i], qs[j], target)
  }

  lemma {:induction false} UpRanked(qs: seq<FileQuality>, target: int)
    requires Sorted(qs)
    ensures Ranked(Up(qs, target), target)
    ensures forall q :: q in Up(qs, target) <==> q in qs && q.height >= target
  {
    hide Less;
    if |qs| > 0 {
      var init, last := qs[..|qs| - 1], qs[|qs| - 1];
      assert qs == init + [last];
      UpRanked(init, target);
      var up := Up(init, target);
      forall i | 0 <= i < |up| ensures !Less(last, up[i]) {
        assert up[i] in init;
      }
    }
  }

  lemma {:induction false} DownRanked(qs: seq<FileQuality>, target: int)
    requires Sorted(qs)
    ensures Ranked(Down(qs, target), target)
    ensures forall q :: q in Down(qs, target) <==> q in qs && q.height < target
  {
    hide Less;
    if |qs| > 0 {
      var init, last := qs[..|qs| - 1], qs[|qs| - 1];
      assert qs == init + [last];
      DownRanked(init, target);
      var down := Down(init, target);
      forall i | 0 <= i < |down| ensures !Less(last, down[i]) {
        assert down[i] in init;
      }
    }
  }

  /** The order holds exactly the usable entries, better ones first. */
  lemma OrderedRanks(qs: seq<FileQuality>, target: int)
    ensures Ranked(Ordered(qs, target), target)
    ensures forall q :: q in Ordered(qs, target) <==> q in qs && Usable(q)
  {
    hide Up, Down, StableSorted, Less, Progressive, Ties;
    var progressive := Progressive(qs);
    var sorted := StableSorted(progressive);
    StableSortSorts(progressive, FileQuality("", false, 0, 0));
    assert forall q :: q in sorted <==> q in multiset(sorted);
    assert forall q :: q in progressive <==> q in multiset(progressive);
    UpRanked(sorted, target);
    DownRanked(sorted, target);
    var up, down := Up(sorted, target), Down(sorted, target);
    forall i, j | 0 <= i < j < |up + down| ensures AtLeastAsGood((up + down)[i], (up + down)[j], target) {
      if i < |up| <= j {
        assert up[i] in up && down[j - |up|] in down;
      } else if |up| <= i {
        assert (up + down)[i] == down[i - |up|] && (up + down)[j] == down[j - |up|];
      }
    }
  }

  lemma {:induction false} DistinctUrls(qs: seq<FileQuality>)
    ensures var urls := Distinct(qs);
      && (forall i, j :: 0 <= i < j < |urls| ==> urls[i] != urls[j])
      && (forall q :: q in qs ==> q.url in urls)
  {
    if |qs| > 0 {
      DistinctUrls(qs[..|qs| - 1]);
      assert qs == qs[..|qs| - 1] + [qs[|qs| - 1]];
    }
  }

  /** An entry stands for the i-th URL, and no entry of a later URL comes before it. */
  ghost predicate Leads(qs: seq<FileQuality>, urls: seq<string>, i: nat, p: nat)
    requires i < |urls|
  {
    p < |qs| && qs[p].url == urls[i] && forall q :: 0 <= q < |qs| && qs[q].url in urls[i..] ==> p <= q
  }

  lemma {:induction false} FirstOccurrence(qs: seq<FileQuality>, i: nat) returns (p: nat)
    requires i < |Distinct(qs)|
    ensures Leads(qs, Distinct(qs), i, p)
  {
    var init, last := qs[..|qs| - 1], qs[|qs| - 1];
    var before, urls := Distinct(init), Distinct(qs);
    DistinctUrls(init);
    DistinctUrls(qs);
    if i < |before| {
      p := FirstOccurrence(init, i);
      forall q | 0 <= q < |qs| && qs[q].url in urls[i..] ensures p <= q {
        if q < |init| {
          assert init[q].url in before;
          var k :| i <= k < |urls| && urls[k] == qs[q].url;
          assert k < |before|;
          assert urls[k] in before[i..];
        }
      }
    } else {
      p := |init|;
      assert urls[i..] == [last.url];
      assert forall q :: 0 <= q < |init| ==> init[q].url in before && qs[q] == init[q];
    }
  }

  /**
    The ranked URLs are exactly the URLs of usable entries, each once; and for two of them, the earlier has an
    entry at least as good for the target as every entry of the later.
   */
  lemma RankingIsRight(qs: seq<FileQuality>, target: int)
    ensures var urls := Distinct(Ordered(qs, target));
      && (forall i, j :: 0 <= i < j < |urls| ==> urls[i] != urls[j])
      && (forall q :: q in qs && Usable(q) ==> q.url in urls)
      && (forall i :: 0 <= i < |urls| ==> LedByBest(qs, urls, target, i))
  {
    hide Distinct, Ordered, AtLeastAsGood;
    var ordered := Ordered(qs, target);
    var urls := Distinct(ordered);
    OrderedRanks(qs, target);
    DistinctUrls(ordered);
    forall i | 0 <= i < |urls| ensures LedByBest(qs, urls, target, i) {
      var p := FirstOccurrence(ordered, i);
      assert ordered[p] in ordered;
      forall q | q in qs && Usable(q) && q.url in urls[i..] ensures q == ordered[p] ||
        AtLeastAsGood(ordered[p], q, target) {
        assert q in ordered;
        var k :| 0 <= k < |ordered| && ordered[k] == q;
      }
    }
  }

  /** An entry of the i-th URL is at least as good as all entries of this and the later URLs. */
  ghost predicate LedByBest(qs: seq<FileQuality>, urls: seq<string>, target: int, i: nat)
    requires i < |urls|
  {
    exists d :: d in qs && Usable(d) && d.url == urls[i] &&
      forall q :: q in qs && Usable(q) && q.url in urls[i..] ==> q == d || AtLeastAsGood(d, q, target)
  }

  /** Below the target the less preferred of two entries of one height is first; at or below their height, the other. */
  lemma PreferenceTurns(a: FileQuality, b: FileQuality, target: int)
    requires Usable(a) && Usable(b) && a.url != b.url && a.height == b.height && a.preference > b.preference
    ensures Distinct(Ordered([a, b], target)) == if target > a.height then [b.url, a.url] else [a.url, b.url]
  {
    hide Up, Down, StableSorted, Progressive, Distinct, Usable;
    Unfold([], target);
    UnfoldTwo(a, b, target);
    UnfoldTwo(b, a, target);
    BothSorted(a, b);
    assert [] + [b, a] == [b, a] && [a, b] + [] == [a, b];
  }

  lemma UnfoldTwo(a: FileQuality, b: FileQuality, target: int)
    ensures Usable(a) && Usable(b) ==> Progressive([a, b]) == [a, b]
    ensures a.height == b.height ==>
      Up([a, b], target) == (if a.height >= target then [a, b] else []) &&
      Down([a, b], target) == (if a.height < target then [b, a] else [])
    ensures a.url != b.url ==> Distinct([a, b]) == [a.url, b.url]
  {
    hide Up, Down, Progressive, Distinct, Usable;
    TwoProgressive(a, b);
    if a.height == b.height {
      TwoSplit(a, b, target);
    }
    TwoDistinct(a, b);
  }

  lemma TwoProgressive(a: FileQuality, b: FileQuality)
    ensures Usable(a) && Usable(b) ==> Progressive([a, b]) == [a, b]
  {
    hide Usable;
    assert [a, b][..1] == [a] && [a][..0] == [];
    assert Usable(a) ==> Progressive([a]) == [a];
  }

  lemma TwoSplit(a: FileQuality, b: FileQuality, target: int)
    requires a.height == b.height
    ensures Up([a, b], target) == if a.height >= target then [a, b] else []
    ensures Down([a, b], target) == if a.height < target then [b, a] else []
  {
    assert [a, b][..1] == [a] && [a][..0] == [];
    assert Up([a], target) == (if a.height >= target then [a] else []);
    assert Down([a], target) == (if a.height < target then [a] else []);
  }

  lemma TwoDistinct(a: FileQuality, b: FileQuality)
    ensures a.url != b.url ==> Distinct([a, b]) == [a.url, b.url]
  {
    assert [a, b][..1] == [a] && [a][..0] == [];
    assert Distinct([a]) == [a.url];
  }

  lemma BothSorted(a: FileQuality, b: FileQuality)
    requires !Less(b, a)
    ensures StableSorted([a, b]) == [a, b]
  {
    assert [a, b][..1] == [a] && [a][..0] == [];
    assert StableSorted([a]) == [a];
  }

  // ---------------------------------------------------------------- the pick

  /** What a sort that need not be stable may return. */
  ghost predicate IsSorting(qs: seq<FileQuality>, sorted: seq<FileQuality>) {
    multiset(sorted) == multiset(qs) && forall i, j :: 0 <= i < j < |sorted| ==> sorted[i].height <= sorted[j].height
  }

  /** The entries a pick is made from. */
  function Candidates(qs: seq<FileQuality>): (r: seq<FileQuality>) {
    if |Progressive(qs)| > 0 then Progressive(qs) else qs
  }

  /** Entries with a URL that is not HLS, where there are any, and all entries where there are none. */
  ghost predicate Eligible(qs: seq<FileQuality>, q: FileQuality) {
    q in qs && ((q.url != "" && !q.hls) || forall other :: other in qs ==> other.url == "" || other.hls)
  }

  /** The lowest height that reaches the target, or the greatest there is. */
  ghost predicate GoodPick(qs: seq<FileQuality>, target: int, p: FileQuality) {
    && Eligible(qs, p)
    && if p.height >= target then forall q :: Eligible(qs, q) && q.height >= target ==> p.height <= q.height
       else forall q :: Eligible(qs, q) ==> q.height <= p.height
  }

  lemma CandidatesAreEligible(qs: seq<FileQuality>)
    ensures forall q :: q in Candidates(qs) <==> Eligible(qs, q)
  {
    if |Progressive(qs)| > 0 {
      var one := Progressive(qs)[0];
      assert one in Progressive(qs);
    } else {
      forall other | other in qs ensures other.url == "" || other.hls {
        assert other !in Progressive(qs);
      }
    }
  }

  method PickQuality(qualities: seq<FileQuality>, target: int, sorted: seq<FileQuality>)
      returns (r: Option<FileQuality>)
    requires IsSorting(Candidates(qualities), sorted)
    ensures r.None? <==> qualities == []
    ensures r.Some? ==> GoodPick(qualities, target, r.value)
  {
    hide Progressive, Eligible;
    CandidatesAreEligible(qualities);
    var candidates := Candidates(qualities);
    assert |sorted| == |multiset(sorted)| == |multiset(candidates)| == |candidates|;
    assert forall q :: q in sorted <==> q in multiset(sorted);
    assert forall q :: q in candidates <==> q in multiset(candidates);
    if |qualities| == 0 {
      return None;
    }
    for i := 0 to |sorted|
      invariant forall k :: 0 <= k < i ==> sorted[k].height < target
    {
      if sorted[i].height >= target {
        assert sorted[i] in sorted;
        return Some(sorted[i]);
      }
    }
    assert sorted[|sorted| - 1] in sorted;
    return Some(sorted[|sorted| - 1]);
  }

  /**
    Picking and ranking agree: whatever sort the pick used, the ranking at the picked height, and the ranking
    at the target itself, begin with a usable entry of the picked height.
   */
  lemma PickLeadsRanking(qs: seq<FileQuality>, target: int, p: FileQuality, at: int)
    requires Progressive(qs) != [] && GoodPick(qs, target, p)
    requires at == target || at == p.height
    ensures var urls := Distinct(Ordered(qs, at));
      |urls| > 0 && exists d :: d in qs && Usable(d) && d.url == urls[0] && d.height == p.height
  {
    hide Distinct, Ordered, Progressive, Eligible;
    CandidatesAreEligible(qs);
    var urls := Distinct(Ordered(qs, at));
    RankingIsRight(qs, at);
    assert p.url in urls;
    assert LedByBest(qs, urls, at, 0);
    var d :| d in qs && Usable(d) && d.url == urls[0] &&
      forall q :: q in qs && Usable(q) && q.url in urls[0..] ==> q == d || AtLeastAsGood(d, q, at);
    assert urls[0..] == urls;
    assert d in Candidates(qs);
    assert p == d || AtLeastAsGood(d, p, at);
  }
}
