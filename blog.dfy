/**
 * The blog listing: category counts, the search/category filter, the three
 * sort orders, the featured section and the regular list, the results
 * line, and the "Clear Filters" button.
 *
 * A publication date is the timestamp `new Date(publishedAt).getTime()`
 * gives, as an integer.
 */
module Blog {
  import opened Common

  datatype BlogPost = BlogPost(
    id: string,
    title: string,
    excerpt: string,
    slug: string,
    publishedAt: int,
    category: string,
    tags: seq<string>,
    featured: bool,
    views: nat,
    likes: nat)

  // ---------------------------------------------------------------------
  // Category counts
  // ---------------------------------------------------------------------

  /** The named categories of the category bar, after "All". */
  const NamedCategories: seq<string> := [
    "Web Development", "Artificial Intelligence", "Programming", "Backend Development", "Performance"]

  datatype Category = Category(name: string, count: nat)

  function CategoryOf(p: BlogPost): string { p.category }

  /** The count shown next to a category: every post for "All", else the posts in it. */
  function CategoryCount(posts: seq<BlogPost>, name: string): (n: nat)
    ensures n <= |posts|
    ensures name == "All" ==> n == |posts|
    ensures name != "All" ==> n == PostsIn(posts, name)
  {
    if name == "All" then |posts|
    else
      FilterCountsPostsIn(posts, name);
      |Filter(posts, InGroup(CategoryOf, name))|
  }

  /** The number of posts whose category is `name`, one post at a time. */
  function PostsIn(posts: seq<BlogPost>, name: string): nat {
    if posts == [] then 0 else (if posts[0].category == name then 1 else 0) + PostsIn(posts[1..], name)
  }

  lemma {:induction false} FilterCountsPostsIn(posts: seq<BlogPost>, name: string)
    ensures |Filter(posts, InGroup(CategoryOf, name))| == PostsIn(posts, name)
  {
    if posts != [] {
      FilterCountsPostsIn(posts[1..], name);
      var inCategory := InGroup(CategoryOf, name);
      assert inCategory(posts[0]) <==> posts[0].category == name;
      assert Filter(posts, inCategory) == (if inCategory(posts[0]) then [posts[0]] else []) + Filter(posts[1..], inCategory);
    }
  }

  /** A named category's count is the number of positions that hold a post of that category. */
  lemma CategoryCountIsPositions(posts: seq<BlogPost>, name: string)
    requires name != "All"
    ensures CategoryCount(posts, name) == |set i | 0 <= i < |posts| && posts[i].category == name|
  {
    FilterCountsPositions(posts, InGroup(CategoryOf, name));
    var inCategory := InGroup(CategoryOf, name);
    assert forall p :: inCategory(p) <==> CategoryOf(p) == name;
    assert Positions(posts, InGroup(CategoryOf, name)) == set i | 0 <= i < |posts| && posts[i].category == name;
  }

  function CategoryCounts(posts: seq<BlogPost>, names: seq<string>): (cs: seq<Category>)
    ensures |cs| == |names|
    ensures forall i :: 0 <= i < |names| ==> cs[i] == Category(names[i], CategoryCount(posts, names[i]))
  {
    if names == [] then [] else [Category(names[0], CategoryCount(posts, names[0]))] + CategoryCounts(posts, names[1..])
  }

  /** The category bar: "All" first, then the five named categories. */
  function Categories(posts: seq<BlogPost>): (cs: seq<Category>)
    ensures |cs| == 6 && cs[0] == Category("All", |posts|)
    ensures forall i :: 1 <= i < 6 ==> cs[i].name == NamedCategories[i - 1]
  {
    CategoryCounts(posts, ["All"] + NamedCategories)
  }

  lemma NamedCategoriesDistinct()
    ensures Distinct(NamedCategories) && "All" !in NamedCategories
  {
    assert |NamedCategories[0]| == 15 && |NamedCategories[1]| == 23 && |NamedCategories[3]| == 19;
    assert |NamedCategories[2]| == |NamedCategories[4]| == 11;
    assert NamedCategories[2][1] != NamedCategories[4][1];
  }

  /** The sum of the counts shown next to the given categories. */
  function CountsTotal(posts: seq<BlogPost>, names: seq<string>): nat {
    if names == [] then 0 else CategoryCount(posts, names[0]) + CountsTotal(posts, names[1..])
  }

  lemma {:induction false} CountsTotalIsGroupSizes(posts: seq<BlogPost>, names: seq<string>)
    requires "All" !in names
    ensures CountsTotal(posts, names) == GroupSizes(posts, CategoryOf, names)
  {
    if names != [] {
      CountsTotalIsGroupSizes(posts, names[1..]);
    }
  }

  /** For distinct names other than "All" that cover every post, the counts add up to the posts. */
  lemma CountsAddUp(posts: seq<BlogPost>, names: seq<string>)
    requires Distinct(names) && "All" !in names
    requires forall i :: 0 <= i < |posts| ==> posts[i].category in names
    ensures CountsTotal(posts, names) == |posts|
  {
    CountsTotalIsGroupSizes(posts, names);
    GroupSizesPartition(posts, CategoryOf, names);
  }

  /** When every post is in a named category, the named counts add up to the "All" count. */
  lemma NamedCountsAddUp(posts: seq<BlogPost>)
    requires forall i :: 0 <= i < |posts| ==> posts[i].category in NamedCategories
    ensures CountsTotal(posts, NamedCategories) == CategoryCount(posts, "All")
  {
    NamedCategoriesDistinct();
    CountsAddUpToAll(posts, NamedCategories);
  }

  lemma CountsAddUpToAll(posts: seq<BlogPost>, names: seq<string>)
    requires Distinct(names) && "All" !in names
    requires forall i :: 0 <= i < |posts| ==> posts[i].category in names
    ensures CountsTotal(posts, names) == CategoryCount(posts, "All")
  {
    CountsAddUp(posts, names);
  }

  // ---------------------------------------------------------------------
  // Filter and sort
  // ---------------------------------------------------------------------

  /** An empty query matches everything; otherwise title, excerpt or a tag must contain it. */
  predicate MatchesSearch(p: BlogPost, query: string) {
    || query == ""
    || MatchesQuery(p.title, query)
    || MatchesQuery(p.excerpt, query)
    || AnyMatches(p.tags, query)
  }

  predicate Keep(p: BlogPost, query: string, category: string) {
    MatchesSearch(p, query) && (category == "All" || p.category == category)
  }

  datatype SortOrder = Newest | Oldest | Popular

  function PublishedAt(p: BlogPost): int { p.publishedAt }
  function Views(p: BlogPost): int { p.views }
  function Likes(p: BlogPost): int { p.likes }

  function Comparator(sortBy: SortOrder): (BlogPost, BlogPost) -> bool {
    match sortBy
    case Newest => Descending(PublishedAt)
    case Oldest => Ascending(PublishedAt)
    case Popular => Descending(Views)
  }

  /** `filteredAndSortedPosts`. */
  function FilteredAndSorted(posts: seq<BlogPost>, query: string, category: string, sortBy: SortOrder): (r: seq<BlogPost>)
    ensures multiset(r) == multiset(Filter(posts, p => Keep(p, query, category)))
    ensures forall i :: 0 <= i < |r| ==> r[i] in posts && Keep(r[i], query, category)
    ensures forall i :: 0 <= i < |posts| && Keep(posts[i], query, category) ==> posts[i] in r
  {
    FilterThenSort(posts, p => Keep(p, query, category), Comparator(sortBy));
    SortBy(Filter(posts, p => Keep(p, query, category)), Comparator(sortBy))
  }

  /** With no query and "All", the list is every post. */
  lemma DefaultKeepsAll(posts: seq<BlogPost>, sortBy: SortOrder)
    ensures multiset(FilteredAndSorted(posts, "", "All", sortBy)) == multiset(posts)
  {
    FilterAll(posts, p => Keep(p, "", "All"));
  }

  /** "newest" gives non-increasing dates, "oldest" non-decreasing, "popular" non-increasing views. */
  lemma SortOrders(posts: seq<BlogPost>, query: string, category: string)
    ensures var r := FilteredAndSorted(posts, query, category, Newest);
      forall i, j :: 0 <= i < j < |r| ==> r[i].publishedAt >= r[j].publishedAt
    ensures var r := FilteredAndSorted(posts, query, category, Oldest);
      forall i, j :: 0 <= i < j < |r| ==> r[i].publishedAt <= r[j].publishedAt
    ensures var r := FilteredAndSorted(posts, query, category, Popular);
      forall i, j :: 0 <= i < j < |r| ==> r[i].views >= r[j].views
  {
    var kept := Filter(posts, p => Keep(p, query, category));
    NewestFirst(kept, FilteredAndSorted(posts, query, category, Newest));
    OldestFirst(kept, FilteredAndSorted(posts, query, category, Oldest));
    MostViewedFirst(kept, FilteredAndSorted(posts, query, category, Popular));
  }

  lemma NewestFirst(kept: seq<BlogPost>, r: seq<BlogPost>)
    requires r == SortBy(kept, Comparator(Newest))
    ensures forall i, j :: 0 <= i < j < |r| ==> r[i].publishedAt >= r[j].publishedAt
  {
    SortDescendingOrdered(kept, PublishedAt);
  }

  lemma OldestFirst(kept: seq<BlogPost>, r: seq<BlogPost>)
    requires r == SortBy(kept, Comparator(Oldest))
    ensures forall i, j :: 0 <= i < j < |r| ==> r[i].publishedAt <= r[j].publishedAt
  {
    SortAscendingOrdered(kept, PublishedAt);
  }

  lemma MostViewedFirst(kept: seq<BlogPost>, r: seq<BlogPost>)
    requires r == SortBy(kept, Comparator(Popular))
    ensures forall i, j :: 0 <= i < j < |r| ==> r[i].views >= r[j].views
  {
    SortDescendingOrdered(kept, Views);
  }

  // ---------------------------------------------------------------------
  // Featured and regular posts
  // ---------------------------------------------------------------------

  predicate IsFeatured(p: BlogPost) { p.featured }

  /** `featuredPosts`: taken from all posts, whatever the filters say. */
  function FeaturedPosts(posts: seq<BlogPost>): seq<BlogPost> {
    Filter(posts, IsFeatured)
  }

  /** The unfiltered view: category "All" and an empty query. */
  predicate Unfiltered(query: string, category: string) {
    category == "All" && query == ""
  }

  predicate NotFeatured(p: BlogPost) { !p.featured }

  function ShowAsRegular(query: string, category: string): BlogPost -> bool {
    (p: BlogPost) => !p.featured || !Unfiltered(query, category)
  }

  /** `regularPosts`: in the unfiltered view the featured posts are left to their own section. */
  function RegularPosts(posts: seq<BlogPost>, query: string, category: string, sortBy: SortOrder): seq<BlogPost> {
    Filter(FilteredAndSorted(posts, query, category, sortBy), ShowAsRegular(query, category))
  }

  /**
   * The regular list drops the featured posts exactly in the unfiltered view;
   * otherwise it is the filtered list itself.
   */
  lemma RegularPostsDropFeatured(posts: seq<BlogPost>, query: string, category: string, sortBy: SortOrder)
    ensures var filtered := FilteredAndSorted(posts, query, category, sortBy);
      && (Unfiltered(query, category) ==> RegularPosts(posts, query, category, sortBy) == Filter(filtered, NotFeatured))
      && (!Unfiltered(query, category) ==> RegularPosts(posts, query, category, sortBy) == filtered)
  {
    var filtered := FilteredAndSorted(posts, query, category, sortBy);
    if !Unfiltered(query, category) {
      FilterAll(filtered, ShowAsRegular(query, category));
    } else {
      FilterSameElements(filtered, ShowAsRegular(query, category), NotFeatured);
    }
  }

  /**
   * The featured section: shown only in the unfiltered view and only when
   * there are featured posts, with at most the first two of them.
   */
  function FeaturedSection(posts: seq<BlogPost>, query: string, category: string): (r: Option<seq<BlogPost>>)
    ensures r.Some? <==> FeaturedPosts(posts) != [] && Unfiltered(query, category)
    ensures r.Some? ==> |r.value| == Min(2, |FeaturedPosts(posts)|)
    ensures r.Some? ==> 1 <= |r.value| <= 2 && r.value == FeaturedPosts(posts)[..|r.value|]
    ensures r.Some? ==> forall i :: 0 <= i < |r.value| ==> r.value[i].featured && r.value[i] in posts
  {
    var featured := FeaturedPosts(posts);
    if |featured| > 0 && category == "All" && query == "" then
      var shown := Cap(featured, 2).shown;
      assert forall i :: 0 <= i < |shown| ==> shown[i] == featured[i];
      Some(shown)
    else None
  }

  /** A card's tags: the first three, and "+n more" for the rest. */
  function TagBadges(p: BlogPost): (c: Capped<string>)
    ensures |c.shown| == Min(3, |p.tags|) && c.shown == p.tags[..|c.shown|]
    ensures c.more.Some? <==> |p.tags| > 3
    ensures c.more.Some? ==> c.more.value == |p.tags| - 3
  {
    Cap(p.tags, 3)
  }

  /** The shown tags followed by the hidden ones are exactly the post's tags. */
  lemma TagsLoseNothing(p: BlogPost)
    ensures TagBadges(p).shown + p.tags[|TagBadges(p).shown|..] == p.tags
    ensures MoreLabel(TagBadges(p)).Some? ==>
      MoreLabel(TagBadges(p)).value == "+" + NatToString(|p.tags| - 3) + " more"
  {
    CapLosesNothing(p.tags, 3);
  }

  // ---------------------------------------------------------------------
  // Results line, header stats and the clear button
  // ---------------------------------------------------------------------

  /** "{n} article{n !== 1 ? 's' : ''} found". */
  function ResultsLine(n: nat): (r: string)
    ensures |r| > |NatToString(n)| + 6
    ensures r[..|NatToString(n)|] == NatToString(n)
    ensures r[|r| - 6..] == " found"
  {
    var r := NatToString(n) + " article" + (if n != 1 then "s" else "") + " found";
    assert r[..|NatToString(n)|] == NatToString(n);
    r
  }

  /** One result reads "1 article found"; any other count n reads "n articles found". */
  lemma ResultsLineWording(n: nat)
    ensures n == 1 ==> ResultsLine(n) == "1 article found"
    ensures n != 1 ==> ResultsLine(n) == NatToString(n) + " articles found"
    ensures ParseDigits(ResultsLine(n)[..|NatToString(n)|]) == n
  {
    NatToStringRoundTrip(n);
    assert ResultsLine(n)[..|NatToString(n)|] == NatToString(n);
    if n == 1 {
      assert NatToString(1) == "1";
    }
  }

  datatype HeaderStats = HeaderStats(articles: nat, totalViews: int, totalLikes: int)

  /** The header line: article count, total views and total likes. */
  function Stats(posts: seq<BlogPost>): (s: HeaderStats)
    ensures s.articles == |posts|
    ensures s.totalViews >= 0 && s.totalLikes >= 0
    ensures posts == [] ==> s == HeaderStats(0, 0, 0)
    ensures |posts| == 1 ==> s == HeaderStats(1, posts[0].views, posts[0].likes)
  {
    assert |posts| == 1 ==> posts[1..] == [];
    SumOfNonNegative(posts, Views);
    SumOfNonNegative(posts, Likes);
    HeaderStats(|posts|, SumOf(posts, Views), SumOf(posts, Likes))
  }

  /**
   * One post counts once with its own views and likes, and the header totals
   * of two lists together are the sums of their totals: with `Stats`' empty
   * case this makes the totals the sums over the posts.
   */
  lemma StatsAdd(p: BlogPost, a: seq<BlogPost>, b: seq<BlogPost>)
    ensures Stats([p]) == HeaderStats(1, p.views, p.likes)
    ensures Stats(a + b) == HeaderStats(Stats(a).articles + Stats(b).articles,
                                        Stats(a).totalViews + Stats(b).totalViews,
                                        Stats(a).totalLikes + Stats(b).totalLikes)
  {
    SumOfAppend(a, b, Views);
    SumOfAppend(a, b, Likes);
  }

  /** The page's search box, category bar and sort menu. */
  class BlogFilters {
    var searchQuery: string
    var selectedCategory: string
    var sortBy: SortOrder

    constructor ()
      ensures searchQuery == "" && selectedCategory == "All" && sortBy == Newest
    {
      searchQuery := "";
      selectedCategory := "All";
      sortBy := Newest;
    }

    /** "Clear Filters": back to no query and "All", keeping the sort order. */
    method ClearFilters()
      modifies this
      ensures searchQuery == "" && selectedCategory == "All"
      ensures sortBy == old(sortBy)
      ensures Unfiltered(searchQuery, selectedCategory)
    {
      searchQuery := "";
      selectedCategory := "All";
    }

    /** The regular list the page renders for the current controls. */
    function Regular(posts: seq<BlogPost>): (r: seq<BlogPost>)
      reads this
      ensures Unfiltered(searchQuery, selectedCategory) ==>
        multiset(r) == multiset(Filter(posts, NotFeatured))
    {
      var r := RegularPosts(posts, searchQuery, selectedCategory, sortBy);
      assert Unfiltered(searchQuery, selectedCategory) ==> multiset(r) == multiset(Filter(posts, NotFeatured)) by {
        if Unfiltered(searchQuery, selectedCategory) {
          RegularAfterClear(posts, sortBy);
        }
      }
      r
    }
  }

  /** After clearing, the regular list is every post that is not featured. */
  lemma RegularAfterClear(posts: seq<BlogPost>, sortBy: SortOrder)
    ensures multiset(RegularPosts(posts, "", "All", sortBy)) == multiset(Filter(posts, NotFeatured))
  {
    var filtered := FilteredAndSorted(posts, "", "All", sortBy);
    RegularPostsDropFeatured(posts, "", "All", sortBy);
    DefaultKeepsAll(posts, sortBy);
    FilterRespectsPermutation(filtered, posts, NotFeatured);
  }
}
