/**
 * The home page's featured projects: the category buttons and the cards
 * they show, and on each card the date range, the team size, the first
 * highlights and the technology badges.
 */
module FeaturedProjects {
  import opened Common

  datatype Project = Project(
    id: string,
    title: string,
    technologies: seq<string>,
    category: string,
    startDate: string,
    endDate: Option<string>,
    teamSize: nat,
    highlights: seq<string>)

  const Categories: seq<string> := ["All", "AI/ML", "Web Development", "Mobile Development", "Research"]

  function Category(p: Project): string { p.category }

  /** `filteredProjects`: every project for "All", otherwise those of the active category in order. */
  function FilteredProjects(projects: seq<Project>, active: string): (r: seq<Project>)
    ensures active == "All" ==> r == projects
    ensures active != "All" ==> forall i :: 0 <= i < |r| ==> r[i] in projects && r[i].category == active
    ensures active != "All" ==> forall i :: 0 <= i < |projects| && projects[i].category == active ==> projects[i] in r
  {
    if active == "All" then projects else Filter(projects, InGroup(Category, active))
  }

  /** The filter keeps the projects' order: it distributes over concatenation. */
  lemma FilteredKeepsOrder(a: seq<Project>, b: seq<Project>, active: string)
    ensures FilteredProjects(a + b, active) == FilteredProjects(a, active) + FilteredProjects(b, active)
  {
    if active != "All" {
      FilterAppend(a, b, InGroup(Category, active));
    }
  }

  function ButtonsTotal(projects: seq<Project>, names: seq<string>): nat {
    if names == [] then 0 else |FilteredProjects(projects, names[0])| + ButtonsTotal(projects, names[1..])
  }

  lemma {:induction false} ButtonsTotalIsGroupSizes(projects: seq<Project>, names: seq<string>)
    requires "All" !in names
    ensures ButtonsTotal(projects, names) == GroupSizes(projects, Category, names)
  {
    if names != [] {
      ButtonsTotalIsGroupSizes(projects, names[1..]);
    }
  }

  lemma NamedCategoriesDistinct()
    ensures Distinct(Categories[1..]) && "All" !in Categories[1..]
  {
    var named := Categories[1..];
    assert |named[0]| == 5 && |named[1]| == 15 && |named[2]| == 18 && |named[3]| == 8;
  }

  /** When every project is in a named category, the category buttons show each project once. */
  lemma CategoryButtonsPartition(projects: seq<Project>)
    requires forall i :: 0 <= i < |projects| ==> projects[i].category in Categories[1..]
    ensures ButtonsTotal(projects, Categories[1..]) == |projects|
  {
    NamedCategoriesDistinct();
    ButtonsTotalIsGroupSizes(projects, Categories[1..]);
    GroupSizesPartition(projects, Category, Categories[1..]);
  }

  // ---------------------------------------------------------------------
  // Card
  // ---------------------------------------------------------------------

  /** "{n} member" with an "s" only for more than one. */
  function TeamLabel(n: nat): string {
    NatToString(n) + " member" + (if n > 1 then "s" else "")
  }

  /** Zero and one read "member"; two or more read "members". */
  lemma TeamLabelPlural(n: nat)
    ensures n <= 1 ==> TeamLabel(n) == NatToString(n) + " member"
    ensures n > 1 ==> TeamLabel(n) == NatToString(n) + " members"
    ensures ParseDigits(TeamLabel(n)[..|NatToString(n)|]) == n
  {
    NatToStringRoundTrip(n);
    assert TeamLabel(n)[..|NatToString(n)|] == NatToString(n);
  }

  /** The key highlights: at most the first two. */
  function Highlights(p: Project): (h: seq<string>)
    ensures |h| == Min(2, |p.highlights|)
    ensures h == p.highlights[..|h|]
  {
    Cap(p.highlights, 2).shown
  }

  /** The first four technologies and "+n more" for the rest. */
  function TechBadges(p: Project): (c: Capped<string>)
    ensures |c.shown| == Min(4, |p.technologies|) && c.shown == p.technologies[..|c.shown|]
    ensures c.more.Some? <==> |p.technologies| > 4
    ensures c.more.Some? ==> c.more.value == |p.technologies| - 4
  {
    Cap(p.technologies, 4)
  }

  /** The card's date range ends in "Present" for a project without an end date. */
  lemma OpenProjectIsPresent(p: Project)
    requires p.endDate.None?
    ensures DateRange(p.startDate, p.endDate) == p.startDate + " - Present"
  {
  }
}
