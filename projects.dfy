/**
 * The projects page: the search/category/status filter, the four sort
 * orders, the filter state with its "clear" action, and the technology
 * badges on each card.
 *
 * A start date is the timestamp `new Date(startDate).getTime()` gives, as an
 * integer.
 */
module Projects {
  import opened Common

  datatype Project = Project(
    id: string,
    title: string,
    description: string,
    technologies: seq<string>,
    category: string,
    status: string,
    startDate: int,
    stars: Option<int>)

  /** The status a filter label selects: lower-cased, first space turned into '-'. */
  function StatusSlug(option: string): (r: string)
    ensures |r| == |option|
    ensures forall i :: 0 <= i < |r| ==> !('A' <= r[i] <= 'Z')
    ensures ' ' !in option ==> r == Lower(option)
    ensures ' ' in option ==> var k := IndexOf(option, ' ').value;
      && r[k] == '-'
      && forall i :: 0 <= i < |r| && i != k ==> r[i] == LowerChar(option[i])
  {
    SlugOfSpaced(option);
    SlugHasNoCapitals(option);
    ReplaceFirst(Lower(option), ' ', '-')
  }

  lemma SlugHasNoCapitals(option: string)
    ensures forall i :: 0 <= i < |option| ==> !('A' <= ReplaceFirst(Lower(option), ' ', '-')[i] <= 'Z')
  {
    ReplaceFirstKeepsOrPuts(Lower(option), ' ', '-');
  }

  /**
   * Without a space the slug is the lower-cased label; with one, it differs
   * from the lower-cased label at the first space only.
   */
  lemma SlugOfSpaced(option: string)
    ensures ' ' !in option ==> ReplaceFirst(Lower(option), ' ', '-') == Lower(option)
    ensures ' ' in option ==> var k := IndexOf(option, ' ').value;
      && ReplaceFirst(Lower(option), ' ', '-')[k] == '-'
      && forall i :: 0 <= i < |option| && i != k ==> ReplaceFirst(Lower(option), ' ', '-')[i] == LowerChar(option[i])
  {
    FirstSpaceOfLower(option);
    if ' ' in option {
      ReplaceFirstChangesFirst(Lower(option), ' ', '-');
    }
  }

  /**
   * A status selected through its label shows on the card as that label in
   * capitals: the card's badge, `status.replace('-', ' ').toUpperCase()`,
   * undoes the slug.
   */
  lemma BadgeUndoesSlug(option: string)
    requires '-' !in option
    ensures BadgeText(StatusSlug(option)) == Upper(option)
  {
    var lower := Lower(option);
    assert '-' !in lower by {
      forall i | 0 <= i < |lower| ensures lower[i] != '-' {
        assert option[i] != '-';
      }
    }
    ReplaceFirstRoundTrip(lower, ' ', '-');
    UpperOfLower(option);
  }

  // ---------------------------------------------------------------------
  // Filter and sort
  // ---------------------------------------------------------------------

  predicate MatchesSearch(p: Project, query: string) {
    || MatchesQuery(p.title, query)
    || MatchesQuery(p.description, query)
    || AnyMatches(p.technologies, query)
  }

  predicate Keep(p: Project, query: string, category: string, status: string) {
    && MatchesSearch(p, query)
    && (category == "All" || p.category == category)
    && (status == "All" || p.status == StatusSlug(status))
  }

  function StartDate(p: Project): int { p.startDate }
  function Title(p: Project): string { p.title }

  /** `b.stars || 0`. */
  function Stars(p: Project): int {
    match p.stars
    case Some(n) => n
    case None => 0
  }

  predicate Unordered(a: Project, b: Project) { true }

  /**
   * The comparator for each `sortBy` value, read as "may come first": a total
   * preorder, so the sort is well defined; an unknown value ties everything.
   */
  function Comparator(sortBy: string): (le: (Project, Project) -> bool)
    ensures TotalPreorder(le)
    ensures sortBy == "newest" ==> forall a, b :: le(a, b) <==> StartDate(a) >= StartDate(b)
    ensures sortBy == "oldest" ==> forall a, b :: le(a, b) <==> StartDate(a) <= StartDate(b)
    ensures sortBy == "stars" ==> forall a, b :: le(a, b) <==> Stars(a) >= Stars(b)
    ensures sortBy !in {"newest", "oldest", "name", "stars"} ==> forall a, b :: le(a, b)
  {
    if sortBy == "newest" then DescendingIsPreorder(StartDate); Descending(StartDate)
    else if sortBy == "oldest" then AscendingIsPreorder(StartDate); Ascending(StartDate)
    else if sortBy == "name" then ByTextIsPreorder(Title); ByText(Title)
    else if sortBy == "stars" then DescendingIsPreorder(Stars); Descending(Stars)
    else Unordered
  }

  /** `filteredAndSortedProjects`. */
  function FilteredAndSorted(projects: seq<Project>, query: string, category: string,
                             status: string, sortBy: string): (r: seq<Project>)
    ensures multiset(r) == multiset(Filter(projects, p => Keep(p, query, category, status)))
    ensures |r| <= |projects|
    ensures forall i :: 0 <= i < |r| ==> r[i] in projects && Keep(r[i], query, category, status)
    ensures forall i :: 0 <= i < |projects| && Keep(projects[i], query, category, status) ==> projects[i] in r
  {
    FilterThenSort(projects, p => Keep(p, query, category, status), Comparator(sortBy));
    SortBy(Filter(projects, p => Keep(p, query, category, status)), Comparator(sortBy))
  }

  /** In the default state every project is shown. */
  lemma DefaultShowsAll(projects: seq<Project>, sortBy: string)
    ensures multiset(FilteredAndSorted(projects, "", "All", "All", sortBy)) == multiset(projects)
  {
    forall i | 0 <= i < |projects| ensures Keep(projects[i], "", "All", "All") {
      EmptyQueryMatches(projects[i].title);
    }
    FilterAll(projects, p => Keep(p, "", "All", "All"));
  }

  /** "newest" and "stars" give non-increasing keys, "oldest" non-decreasing start dates. */
  lemma SortOrders(projects: seq<Project>, query: string, category: string, status: string)
    ensures var r := FilteredAndSorted(projects, query, category, status, "newest");
      forall i, j :: 0 <= i < j < |r| ==> r[i].startDate >= r[j].startDate
    ensures var r := FilteredAndSorted(projects, query, category, status, "oldest");
      forall i, j :: 0 <= i < j < |r| ==> r[i].startDate <= r[j].startDate
    ensures var r := FilteredAndSorted(projects, query, category, status, "stars");
      forall i, j :: 0 <= i < j < |r| ==> Stars(r[i]) >= Stars(r[j])
  {
    var kept := Filter(projects, p => Keep(p, query, category, status));
    NewestFirst(kept, FilteredAndSorted(projects, query, category, status, "newest"));
    OldestFirst(kept, FilteredAndSorted(projects, query, category, status, "oldest"));
    MostStarsFirst(kept, FilteredAndSorted(projects, query, category, status, "stars"));
  }

  lemma NewestFirst(kept: seq<Project>, r: seq<Project>)
    requires r == SortBy(kept, Comparator("newest"))
    ensures forall i, j :: 0 <= i < j < |r| ==> r[i].startDate >= r[j].startDate
  {
    SortDescendingOrdered(kept, StartDate);
  }

  lemma OldestFirst(kept: seq<Project>, r: seq<Project>)
    requires r == SortBy(kept, Comparator("oldest"))
    ensures forall i, j :: 0 <= i < j < |r| ==> r[i].startDate <= r[j].startDate
  {
    SortAscendingOrdered(kept, StartDate);
  }

  lemma MostStarsFirst(kept: seq<Project>, r: seq<Project>)
    requires r == SortBy(kept, Comparator("stars"))
    ensures forall i, j :: 0 <= i < j < |r| ==> Stars(r[i]) >= Stars(r[j])
  {
    SortDescendingOrdered(kept, Stars);
  }

  /** "name" gives titles in ascending text order. */
  lemma SortByName(projects: seq<Project>, query: string, category: string, status: string)
    ensures var r := FilteredAndSorted(projects, query, category, status, "name");
      forall i, j :: 0 <= i < j < |r| ==> TextLe(r[i].title, r[j].title)
  {
    var kept := Filter(projects, p => Keep(p, query, category, status));
    var r := SortBy(kept, ByText(Title));
    assert FilteredAndSorted(projects, query, category, status, "name") == r;
    ByTextIsPreorder(Title);
    SortBySorted(kept, ByText(Title));
    forall i, j | 0 <= i < j < |r| ensures TextLe(r[i].title, r[j].title) {
      assert ByText(Title)(r[i], r[j]) == TextLe(Title(r[i]), Title(r[j]));
    }
  }

  // ---------------------------------------------------------------------
  // Filter state
  // ---------------------------------------------------------------------

  /** The page's filter controls. */
  class ProjectFilters {
    var searchQuery: string
    var selectedCategory: string
    var selectedStatus: string
    var sortBy: string

    constructor ()
      ensures searchQuery == "" && selectedCategory == "All"
      ensures selectedStatus == "All" && sortBy == "newest"
      ensures !HasActiveFilters()
    {
      searchQuery := "";
      selectedCategory := "All";
      selectedStatus := "All";
      sortBy := "newest";
    }

    /** `hasActiveFilters`: some control differs from its default. */
    predicate HasActiveFilters()
      reads this
    {
      searchQuery != "" || selectedCategory != "All" || selectedStatus != "All" || sortBy != "newest"
    }

    /** `clearFilters`: every control back to its default, so nothing is active. */
    method ClearFilters()
      modifies this
      ensures searchQuery == "" && selectedCategory == "All"
      ensures selectedStatus == "All" && sortBy == "newest"
      ensures !HasActiveFilters()
    {
      searchQuery := "";
      selectedCategory := "All";
      selectedStatus := "All";
      sortBy := "newest";
    }

    /** The list the page renders for the current controls. */
    function Shown(projects: seq<Project>): (r: seq<Project>)
      reads this
      ensures |r| <= |projects|
      ensures !HasActiveFilters() ==> multiset(r) == multiset(projects)
    {
      var r := FilteredAndSorted(projects, searchQuery, selectedCategory, selectedStatus, sortBy);
      assert !HasActiveFilters() ==> multiset(r) == multiset(projects) by {
        if !HasActiveFilters() {
          DefaultShowsAll(projects, sortBy);
        }
      }
      r
    }
  }

  // ---------------------------------------------------------------------
  // Technology badges
  // ---------------------------------------------------------------------

  /** A card lists the first four technologies and a "+n" badge for the rest. */
  function TechBadges(p: Project): (c: Capped<string>)
    ensures |c.shown| == Min(4, |p.technologies|)
    ensures c.shown == p.technologies[..|c.shown|]
    ensures c.more.Some? <==> |p.technologies| > 4
    ensures c.more.Some? ==> c.more.value == |p.technologies| - 4
  {
    Cap(p.technologies, 4)
  }
}
