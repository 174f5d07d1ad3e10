/**
 * The home page's featured publications: the author line of a card, its
 * keyword badges, its DOI link and abstract toggle, and the section's
 * publication, citation and venue figures.
 */
module FeaturedPublications {
  import opened Common

  datatype Author = Author(name: string, isMe: bool)

  datatype Publication = Publication(
    id: string,
    title: string,
    authors: seq<Author>,
    journal: string,
    year: int,
    doi: Option<string>,
    citations: nat,
    keywords: seq<string>)

  // ---------------------------------------------------------------------
  // Card
  // ---------------------------------------------------------------------

  /** One rendered author: the name, a trailing ", " except after the last, and the highlight. */
  datatype AuthorSpan = AuthorSpan(text: string, highlighted: bool)

  /** `formatAuthors`. */
  function FormatAuthors(authors: seq<Author>): (spans: seq<AuthorSpan>)
    ensures |spans| == |authors|
    ensures forall i :: 0 <= i < |authors| ==>
      spans[i] == AuthorSpan(authors[i].name + (if i < |authors| - 1 then ", " else ""), authors[i].isMe)
  {
    seq(|authors|, i requires 0 <= i < |authors| =>
      AuthorSpan(authors[i].name + (if i < |authors| - 1 then ", " else ""), authors[i].isMe))
  }

  function Names(authors: seq<Author>): (names: seq<string>)
    ensures |names| == |authors|
    ensures forall i :: 0 <= i < |authors| ==> names[i] == authors[i].name
  {
    seq(|authors|, i requires 0 <= i < |authors| => authors[i].name)
  }

  function Texts(spans: seq<AuthorSpan>): string {
    if spans == [] then "" else spans[0].text + Texts(spans[1..])
  }

  /** Read together, the spans spell the author names joined by ", ". */
  lemma {:induction false} AuthorLineIsJoin(authors: seq<Author>)
    ensures Texts(FormatAuthors(authors)) == Join(Names(authors), ", ")
    decreases |authors|
  {
    if |authors| == 1 {
      assert FormatAuthors(authors)[1..] == [];
    } else if |authors| > 1 {
      var rest := authors[1..];
      AuthorLineIsJoin(rest);
      assert FormatAuthors(authors)[1..] == FormatAuthors(rest);
      assert Names(authors)[1..] == Names(rest);
    }
  }

  /** The first three keywords and "+n more" for the rest. */
  function KeywordBadges(p: Publication): (c: Capped<string>)
    ensures |c.shown| == Min(3, |p.keywords|) && c.shown == p.keywords[..|c.shown|]
    ensures c.more.Some? <==> |p.keywords| > 3
    ensures c.more.Some? ==> c.more.value == |p.keywords| - 3
  {
    Cap(p.keywords, 3)
  }

  /** The "+n more" badge reads the number of keywords beyond the first three. */
  lemma KeywordOverflowLabel(p: Publication)
    requires |p.keywords| > 3
    ensures MoreLabel(KeywordBadges(p)) == Some("+" + NatToString(|p.keywords| - 3) + " more")
  {
  }

  /** The DOI link: shown only for a set DOI, pointing at the DOI resolver. */
  function DoiLink(doi: Option<string>): (link: Option<string>)
    ensures link.Some? <==> Truthy(doi)
    ensures link.Some? ==> link.value == "https://doi.org/" + doi.value
  {
    if Truthy(doi) then Some("https://doi.org/" + doi.value) else None
  }

  /** A card's abstract, clamped to three lines until expanded. */
  class PublicationCard {
    var isExpanded: bool

    constructor ()
      ensures !isExpanded
    {
      isExpanded := false;
    }

    function ToggleLabel(): (s: string)
      reads this
      ensures isExpanded ==> s == "Show less"
      ensures !isExpanded ==> s == "Read more"
    {
      if isExpanded then "Show less" else "Read more"
    }

    method Toggle()
      modifies this
      ensures isExpanded == !old(isExpanded)
      ensures ToggleLabel() != old(ToggleLabel())
    {
      isExpanded := !isExpanded;
    }
  }

  // ---------------------------------------------------------------------
  // Section figures
  // ---------------------------------------------------------------------

  function Citations(p: Publication): int { p.citations }

  /** `featuredPublications.reduce((sum, pub) => sum + pub.citations, 0)`. */
  function TotalCitations(pubs: seq<Publication>): (n: int)
    ensures n >= 0
    ensures forall i :: 0 <= i < |pubs| ==> n >= pubs[i].citations
  {
    CitationsBound(pubs);
    SumOf(pubs, Citations)
  }

  lemma {:induction false} CitationsBound(pubs: seq<Publication>)
    ensures SumOf(pubs, Citations) >= 0
    ensures forall i :: 0 <= i < |pubs| ==> SumOf(pubs, Citations) >= pubs[i].citations
  {
    if pubs != [] {
      CitationsBound(pubs[1..]);
      assert forall i :: 1 <= i < |pubs| ==> pubs[i] == pubs[1..][i - 1];
    }
  }

  /** The total is the sum over publications: one publication gives its own count, and totals add. */
  lemma TotalCitationsIsSum(p: Publication, a: seq<Publication>, b: seq<Publication>)
    ensures TotalCitations([p]) == p.citations
    ensures TotalCitations(a + b) == TotalCitations(a) + TotalCitations(b)
  {
    assert [p][1..] == [];
    assert SumOf([p], Citations) == Citations(p) + SumOf([], Citations);
    SumOfAppend(a, b, Citations);
  }

  /** `new Set(featuredPublications.map(p => p.journal))`. */
  function Journals(pubs: seq<Publication>): (s: set<string>)
    ensures forall j :: j in s <==> exists i :: 0 <= i < |pubs| && pubs[i].journal == j
  {
    if pubs == [] then {}
    else
      var rest := Journals(pubs[1..]);
      assert forall i :: 1 <= i < |pubs| ==> pubs[i] == pubs[1..][i - 1];
      {pubs[0].journal} + rest
  }

  /**
   * The venue figure, `new Set(...).size`: the number of distinct journals
   * among the publications, never more than the publications and at least
   * one when there is any.
   */
  function VenueCount(pubs: seq<Publication>): (n: nat)
    ensures n == |set i | 0 <= i < |pubs| :: pubs[i].journal|
    ensures n <= |pubs|
    ensures |pubs| > 0 ==> n >= 1
  {
    VenueBound(pubs);
    assert Journals(pubs) == set i | 0 <= i < |pubs| :: pubs[i].journal;
    |Journals(pubs)|
  }

  lemma {:induction false} VenueBound(pubs: seq<Publication>)
    ensures |Journals(pubs)| <= |pubs|
    ensures |pubs| > 0 ==> |Journals(pubs)| >= 1
  {
    if pubs != [] {
      VenueBound(pubs[1..]);
      assert pubs[0].journal in Journals(pubs);
    }
  }

  /** Every publication in one journal gives a single venue. */
  lemma OneJournalOneVenue(pubs: seq<Publication>, journal: string)
    requires |pubs| > 0
    requires forall i :: 0 <= i < |pubs| ==> pubs[i].journal == journal
    ensures VenueCount(pubs) == 1
  {
    assert Journals(pubs) == {journal};
  }
}
