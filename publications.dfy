/**
 * The publications page: the search/type/category filter, the four sort
 * orders, the summary statistics, the h-index, and the one-at-a-time
 * abstract toggle.
 *
 * Impact factors are decimals in the source; here they are integers (say,
 * hundredths), which keeps their order.
 */
module Publications {
  import opened Common

  datatype Publication = Publication(
    id: string,
    title: string,
    authors: seq<string>,
    journal: string,
    year: int,
    pubType: string,
    summary: string,
    keywords: seq<string>,
    citations: nat,
    impactFactor: Option<int>,
    category: string)

  // ---------------------------------------------------------------------
  // Filter and sort
  // ---------------------------------------------------------------------

  /** The term occurs, ignoring case, in the title, the abstract (`summary`), a keyword or an author. */
  predicate MatchesSearch(p: Publication, term: string) {
    || MatchesQuery(p.title, term)
    || MatchesQuery(p.summary, term)
    || AnyMatches(p.keywords, term)
    || AnyMatches(p.authors, term)
  }

  predicate Keep(p: Publication, term: string, selectedType: string, selectedCategory: string) {
    && MatchesSearch(p, term)
    && (selectedType == "all" || p.pubType == selectedType)
    && (selectedCategory == "all" || p.category == selectedCategory)
  }

  function Year(p: Publication): int { p.year }
  function Citations(p: Publication): int { p.citations }
  function Title(p: Publication): string { p.title }

  /** `b.impactFactor || 0`: a missing (or zero) impact factor counts as 0. */
  function Impact(p: Publication): int {
    match p.impactFactor
    case Some(f) => f
    case None => 0
  }

  predicate Unordered(a: Publication, b: Publication) { true }

  /** The comparator for each `sortBy` value; an unknown value compares everything equal. */
  function Comparator(sortBy: string): (le: (Publication, Publication) -> bool)
    ensures TotalPreorder(le)
    ensures sortBy == "year" ==> forall a, b :: le(a, b) <==> Year(a) >= Year(b)
    ensures sortBy == "citations" ==> forall a, b :: le(a, b) <==> Citations(a) >= Citations(b)
    ensures sortBy == "impact" ==> forall a, b :: le(a, b) <==> Impact(a) >= Impact(b)
    ensures sortBy !in {"year", "citations", "impact", "title"} ==> forall a, b :: le(a, b)
  {
    if sortBy == "year" then DescendingIsPreorder(Year); Descending(Year)
    else if sortBy == "citations" then DescendingIsPreorder(Citations); Descending(Citations)
    else if sortBy == "impact" then DescendingIsPreorder(Impact); Descending(Impact)
    else if sortBy == "title" then ByTextIsPreorder(Title); ByText(Title)
    else Unordered
  }

  /** `filteredPublications`: filter the list, then sort the fresh copy. */
  function FilteredPublications(pubs: seq<Publication>, term: string, selectedType: string,
                                selectedCategory: string, sortBy: string): (r: seq<Publication>)
    ensures multiset(r) == multiset(Filter(pubs, p => Keep(p, term, selectedType, selectedCategory)))
    ensures forall i :: 0 <= i < |r| ==> r[i] in pubs && Keep(r[i], term, selectedType, selectedCategory)
    ensures forall i :: 0 <= i < |pubs| && Keep(pubs[i], term, selectedType, selectedCategory) ==> pubs[i] in r
  {
    FilterThenSort(pubs, p => Keep(p, term, selectedType, selectedCategory), Comparator(sortBy));
    SortBy(Filter(pubs, p => Keep(p, term, selectedType, selectedCategory)), Comparator(sortBy))
  }

  /** With no term and both selectors on "all", every publication is listed, in its own order when unsorted. */
  lemma DefaultShowsAll(pubs: seq<Publication>, sortBy: string)
    ensures multiset(FilteredPublications(pubs, "", "all", "all", sortBy)) == multiset(pubs)
    ensures sortBy !in {"year", "citations", "impact", "title"} ==>
      FilteredPublications(pubs, "", "all", "all", sortBy) == pubs
  {
    forall i | 0 <= i < |pubs| ensures Keep(pubs[i], "", "all", "all") {
      EmptyQueryMatches(pubs[i].title);
    }
    FilterAll(pubs, p => Keep(p, "", "all", "all"));
    if sortBy !in {"year", "citations", "impact", "title"} {
      SortByTiesIsIdentity(pubs, Comparator(sortBy));
    }
  }

  /** "year", "citations" and "impact" list their key in non-increasing order. */
  lemma SortedByKey(pubs: seq<Publication>, term: string, selectedType: string, selectedCategory: string)
    ensures var r := FilteredPublications(pubs, term, selectedType, selectedCategory, "year");
      forall i, j :: 0 <= i < j < |r| ==> r[i].year >= r[j].year
    ensures var r := FilteredPublications(pubs, term, selectedType, selectedCategory, "citations");
      forall i, j :: 0 <= i < j < |r| ==> r[i].citations >= r[j].citations
    ensures var r := FilteredPublications(pubs, term, selectedType, selectedCategory, "impact");
      forall i, j :: 0 <= i < j < |r| ==> Impact(r[i]) >= Impact(r[j])
  {
    var kept := Filter(pubs, p => Keep(p, term, selectedType, selectedCategory));
    SortDescendingOrdered(kept, Year);
    SortDescendingOrdered(kept, Citations);
    SortDescendingOrdered(kept, Impact);
  }

  /** "title" lists titles in ascending text order. */
  lemma SortedByTitle(pubs: seq<Publication>, term: string, selectedType: string, selectedCategory: string)
    ensures var r := FilteredPublications(pubs, term, selectedType, selectedCategory, "title");
      forall i, j :: 0 <= i < j < |r| ==> TextLe(r[i].title, r[j].title)
  {
    var kept := Filter(pubs, p => Keep(p, term, selectedType, selectedCategory));
    var r := SortBy(kept, ByText(Title));
    assert FilteredPublications(pubs, term, selectedType, selectedCategory, "title") == r;
    ByTextIsPreorder(Title);
    SortBySorted(kept, ByText(Title));
    forall i, j | 0 <= i < j < |r| ensures TextLe(r[i].title, r[j].title) {
      assert ByText(Title)(r[i], r[j]);
      assert ByText(Title)(r[i], r[j]) == TextLe(Title(r[i]), Title(r[j]));
    }
  }

  // ---------------------------------------------------------------------
  // h-index
  // ---------------------------------------------------------------------

  /** How many of the citation counts are at least t. */
  function CountAtLeast(cs: seq<int>, t: int): (n: nat)
    ensures n <= |cs|
  {
    if cs == [] then 0 else (if cs[0] >= t then 1 else 0) + CountAtLeast(cs[1..], t)
  }

  /** h is the h-index: h entries have at least h citations, but not h + 1 entries h + 1. */
  predicate IsHIndex(cs: seq<int>, h: int) {
    0 <= h <= |cs| && CountAtLeast(cs, h) >= h && CountAtLeast(cs, h + 1) < h + 1
  }

  function CitationCounts(pubs: seq<Publication>): (cs: seq<int>)
    ensures |cs| == |pubs|
    ensures forall i :: 0 <= i < |pubs| ==> cs[i] == pubs[i].citations
  {
    if pubs == [] then [] else [pubs[0].citations] + CitationCounts(pubs[1..])
  }

  predicate AtLeast(a: int, b: int) { a >= b }

  lemma {:induction false} CountAppend(a: seq<int>, b: seq<int>, t: int)
    ensures CountAtLeast(a + b, t) == CountAtLeast(a, t) + CountAtLeast(b, t)
  {
    if a != [] {
      CountAppend(a[1..], b, t);
      assert (a + b)[1..] == a[1..] + b;
    } else {
      assert a + b == b;
    }
  }

  lemma {:induction false} CountAll(s: seq<int>, t: int)
    requires forall k :: 0 <= k < |s| ==> s[k] >= t
    ensures CountAtLeast(s, t) == |s|
  {
    if s != [] {
      CountAll(s[1..], t);
    }
  }

  lemma {:induction false} CountNone(s: seq<int>, t: int)
    requires forall k :: 0 <= k < |s| ==> s[k] < t
    ensures CountAtLeast(s, t) == 0
  {
    if s != [] {
      CountNone(s[1..], t);
    }
  }

  /** A higher threshold never counts more entries. */
  lemma {:induction false} CountAntitone(cs: seq<int>, t1: int, t2: int)
    requires t1 <= t2
    ensures CountAtLeast(cs, t2) <= CountAtLeast(cs, t1)
  {
    if cs != [] {
      CountAntitone(cs[1..], t1, t2);
    }
  }

  /** Reordering the counts does not change how many reach a threshold. */
  lemma {:induction false} CountPermutation(a: seq<int>, b: seq<int>, t: int)
    requires multiset(a) == multiset(b)
    ensures CountAtLeast(a, t) == CountAtLeast(b, t)
    decreases |a|
  {
    if a != [] {
      assert a[0] in multiset(b);
      var k :| 0 <= k < |b| && b[k] == a[0];
      var rest := b[..k] + b[k + 1..];
      assert b == b[..k] + [b[k]] + b[k + 1..];
      assert a == [a[0]] + a[1..];
      assert multiset(b) == multiset(b[..k]) + multiset{b[k]} + multiset(b[k + 1..]);
      assert multiset(a) == multiset{a[0]} + multiset(a[1..]);
      assert multiset(rest) == multiset(b[..k]) + multiset(b[k + 1..]);
      forall x ensures multiset(a[1..])[x] == multiset(rest)[x] {
        assert multiset(a)[x] == multiset(b)[x];
      }
      assert multiset(a[1..]) == multiset(rest);
      CountPermutation(a[1..], rest, t);
      CountAppend(b[..k] + [b[k]], b[k + 1..], t);
      CountAppend(b[..k], [b[k]], t);
      CountAppend(b[..k], b[k + 1..], t);
    }
  }

  /** There is only one h-index. */
  lemma HIndexUnique(cs: seq<int>, h1: int, h2: int)
    requires IsHIndex(cs, h1) && IsHIndex(cs, h2)
    ensures h1 == h2
  {
    if h1 < h2 {
      CountAntitone(cs, h1 + 1, h2);
    } else if h2 < h1 {
      CountAntitone(cs, h2 + 1, h1);
    }
  }

  /** The h-index does not depend on the order of the publications. */
  lemma HIndexOrderIndependent(a: seq<int>, b: seq<int>, h: int)
    requires multiset(a) == multiset(b)
    ensures IsHIndex(a, h) <==> IsHIndex(b, h)
  {
    CountPermutation(a, b, h);
    CountPermutation(a, b, h + 1);
  }

  /** An empty list has h-index 0. */
  lemma HIndexOfNothing(h: int)
    ensures IsHIndex([], h) <==> h == 0
  {
  }

  function Total(cs: seq<int>): int {
    if cs == [] then 0 else cs[0] + Total(cs[1..])
  }

  lemma {:induction false} TotalAtLeastThreshold(cs: seq<int>, t: nat)
    requires forall k :: 0 <= k < |cs| ==> cs[k] >= 0
    ensures Total(cs) >= t * CountAtLeast(cs, t)
  {
    if cs != [] {
      TotalAtLeastThreshold(cs[1..], t);
    }
  }

  /** h papers with at least h citations each: the h-index squared never exceeds the citation total. */
  lemma HIndexSquareBound(cs: seq<int>, h: int)
    requires forall k :: 0 <= k < |cs| ==> cs[k] >= 0
    requires IsHIndex(cs, h)
    ensures h * h <= Total(cs)
  {
    TotalAtLeastThreshold(cs, h);
    ScaleMonotone(h, CountAtLeast(cs, h), h);
  }

  lemma ScaleMonotone(k: nat, a: int, b: int)
    requires a >= b
    ensures k * a >= k * b
  {
  }

  /**
   * `calculateHIndex`: sort the counts in descending order, then walk down
   * while the i-th count is at least i + 1.
   */
  method CalculateHIndex(pubs: seq<Publication>) returns (hIndex: int)
    ensures IsHIndex(CitationCounts(pubs), hIndex)
  {
    var counts := CitationCounts(pubs);
    var sortedCitations := SortBy(counts, AtLeast);
    hIndex := 0;
    var i := 0;
    while i < |sortedCitations|
      invariant 0 <= i <= |sortedCitations|
      invariant hIndex == i
      invariant forall k :: 0 <= k < i ==> sortedCitations[k] >= k + 1
    {
      if sortedCitations[i] >= i + 1 {
        hIndex := i + 1;
      } else {
        break;
      }
      i := i + 1;
    }
    SortBySorted(counts, AtLeast);
    HIndexOfSorted(sortedCitations, hIndex);
    HIndexOrderIndependent(sortedCitations, counts, hIndex);
  }

  /** On a list sorted in descending order, the walk's stopping point is the h-index. */
  lemma HIndexOfSorted(s: seq<int>, h: int)
    requires SortedBy(s, AtLeast)
    requires 0 <= h <= |s|
    requires forall k :: 0 <= k < h ==> s[k] >= k + 1
    requires h < |s| ==> s[h] < h + 1
    ensures IsHIndex(s, h)
  {
    assert s == s[..h] + s[h..];
    CountAppend(s[..h], s[h..], h);
    CountAppend(s[..h], s[h..], h + 1);
    HeadReachesH(s, h);
    CountAll(s[..h], h);
    if h < |s| {
      TailBelowH(s, h);
      CountNone(s[h..], h + 1);
    }
    assert CountAtLeast(s[..h], h + 1) <= h;
  }

  /** Before the stopping point every count is at least h. */
  lemma HeadReachesH(s: seq<int>, h: int)
    requires SortedBy(s, AtLeast)
    requires 0 <= h <= |s|
    requires forall k :: 0 <= k < h ==> s[k] >= k + 1
    ensures forall k :: 0 <= k < h ==> s[..h][k] >= h
  {
    forall k | 0 <= k < h ensures s[..h][k] >= h {
      assert AtLeast(s[k], s[h - 1]);
    }
  }

  /** From the stopping point on every count is below h + 1. */
  lemma TailBelowH(s: seq<int>, h: int)
    requires SortedBy(s, AtLeast)
    requires 0 <= h < |s| && s[h] < h + 1
    ensures forall k :: 0 <= k < |s[h..]| ==> s[h..][k] < h + 1
  {
    forall k | 0 <= k < |s[h..]| ensures s[h..][k] < h + 1 {
      if k > 0 {
        assert AtLeast(s[h], s[h + k]);
      }
    }
  }

  // ---------------------------------------------------------------------
  // Statistics and the abstract toggle
  // ---------------------------------------------------------------------

  datatype Stats = Stats(totalPublications: nat, totalCitations: int, hIndex: int)

  lemma {:induction false} TotalCitationsIsTotal(pubs: seq<Publication>)
    ensures SumOf(pubs, Citations) == Total(CitationCounts(pubs))
  {
    if pubs != [] {
      TotalCitationsIsTotal(pubs[1..]);
      assert CitationCounts(pubs)[1..] == CitationCounts(pubs[1..]);
    }
  }

  /**
   * `stats`: the number of publications, the sum of their citations, and
   * the h-index, which is bounded by both.
   */
  method ComputeStats(pubs: seq<Publication>) returns (s: Stats)
    ensures s.totalPublications == |pubs|
    ensures s.totalCitations == SumOf(pubs, Citations)
    ensures IsHIndex(CitationCounts(pubs), s.hIndex)
    ensures 0 <= s.hIndex <= s.totalPublications && s.hIndex * s.hIndex <= s.totalCitations
  {
    var totalCitations := SumOf(pubs, Citations);
    var hIndex := CalculateHIndex(pubs);
    TotalCitationsIsTotal(pubs);
    HIndexSquareBound(CitationCounts(pubs), hIndex);
    s := Stats(|pubs|, totalCitations, hIndex);
  }

  /**
   * The abstract button: it opens its own card's abstract, closing whichever
   * was open, or closes it when it was the open one.
   */
  function ToggleAbstract(expanded: Option<string>, id: string): (r: Option<string>)
    ensures r == Some(id) <==> expanded != Some(id)
    ensures forall other :: other != id ==> r != Some(other)
  {
    if expanded == Some(id) then None else Some(id)
  }
}
