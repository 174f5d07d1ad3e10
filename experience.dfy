/**
 * The experience timeline: the type filter, the "years of experience"
 * figure, the current-job marker, the single expanded card, the type
 * badges and the header stats.
 *
 * A date is the year and zero-based month that `getFullYear` and
 * `getMonth` read from it; the current date is a parameter.
 */
module Experience {
  import opened Common

  datatype YearMonth = YearMonth(year: int, month: int)

  datatype Position = Position(
    id: string,
    company: string,
    position: string,
    positionType: string,
    startDate: YearMonth,
    endDate: Option<YearMonth>,
    projects: seq<string>)

  /** Months since year 0, so that month differences are plain subtractions. */
  function MonthIndex(d: YearMonth): int { 12 * d.year + d.month }

  // ---------------------------------------------------------------------
  // Filter
  // ---------------------------------------------------------------------

  function PositionType(e: Position): string { e.positionType }

  /** `filteredExperiences`: everything for "all", else the positions of that type in order. */
  function Filtered(exps: seq<Position>, filter: string): (r: seq<Position>)
    ensures filter == "all" ==> r == exps
    ensures filter != "all" ==> forall i :: 0 <= i < |r| ==> r[i] in exps && r[i].positionType == filter
    ensures filter != "all" ==> forall i :: 0 <= i < |exps| && exps[i].positionType == filter ==> exps[i] in r
  {
    if filter == "all" then exps else Filter(exps, InGroup(PositionType, filter))
  }

  /** The filter keeps the timeline's order: it distributes over concatenation. */
  lemma FilteredKeepsOrder(a: seq<Position>, b: seq<Position>, filter: string)
    ensures Filtered(a + b, filter) == Filtered(a, filter) + Filtered(b, filter)
  {
    if filter != "all" {
      FilterAppend(a, b, InGroup(PositionType, filter));
    }
  }

  /** The filter buttons after "All Experience". */
  const TypeButtons: seq<string> := ["full-time", "freelance", "contract"]

  function ButtonsTotal(exps: seq<Position>, names: seq<string>): nat {
    if names == [] then 0 else |Filtered(exps, names[0])| + ButtonsTotal(exps, names[1..])
  }

  lemma {:induction false} ButtonsTotalIsGroupSizes(exps: seq<Position>, names: seq<string>)
    requires "all" !in names
    ensures ButtonsTotal(exps, names) == GroupSizes(exps, PositionType, names)
  {
    if names != [] {
      ButtonsTotalIsGroupSizes(exps, names[1..]);
    }
  }

  lemma TypeButtonsDistinct()
    ensures Distinct(TypeButtons) && "all" !in TypeButtons
  {
    assert TypeButtons[0][1] != TypeButtons[1][1];
    assert |TypeButtons[2]| == 8 && |TypeButtons[0]| == |TypeButtons[1]| == 9;
  }

  /**
   * When every position is full-time, freelance or contract, the three type
   * buttons between them show each position exactly once.
   */
  lemma TypeButtonsPartition(exps: seq<Position>)
    requires forall i :: 0 <= i < |exps| ==> exps[i].positionType in TypeButtons
    ensures ButtonsTotal(exps, TypeButtons) == |exps|
  {
    TypeButtonsDistinct();
    ButtonsAddUp(exps, TypeButtons);
  }

  /** Distinct buttons other than "all" that cover every position show each position once. */
  lemma ButtonsAddUp(exps: seq<Position>, names: seq<string>)
    requires Distinct(names) && "all" !in names
    requires forall i :: 0 <= i < |exps| ==> exps[i].positionType in names
    ensures ButtonsTotal(exps, names) == |exps|
  {
    ButtonsTotalIsGroupSizes(exps, names);
    GroupSizesPartition(exps, PositionType, names);
  }

  /** A part-time position or an internship appears under no type button. */
  lemma UnlistedTypeHidden(exps: seq<Position>, i: nat, filter: string)
    requires i < |exps| && exps[i].positionType !in TypeButtons
    requires filter in TypeButtons
    ensures exps[i] !in Filtered(exps, filter)
  {
  }

  function FilterButtonLabel(filter: string): (r: string)
    ensures filter == "all" ==> r == "All Experience"
    ensures filter != "all" ==> r == BadgeText(filter)
  {
    if filter == "all" then "All Experience" else BadgeText(filter)
  }

  // ---------------------------------------------------------------------
  // Months, years and the current job
  // ---------------------------------------------------------------------

  /** `!experience.endDate`. */
  predicate IsCurrentJob(e: Position) { e.endDate.None? }

  /** The end a position counts to: its end date, or now while it is current. */
  function EndOrNow(e: Position, now: YearMonth): YearMonth {
    match e.endDate
    case Some(d) => d
    case None => now
  }

  /** The months one position adds: whole calendar months between its start and its end or now. */
  function Months(e: Position, now: YearMonth): (m: int)
    ensures IsCurrentJob(e) ==> m == MonthIndex(now) - MonthIndex(e.startDate)
    ensures !IsCurrentJob(e) ==> m == MonthIndex(e.endDate.value) - MonthIndex(e.startDate)
  {
    var end := EndOrNow(e, now);
    (end.year - e.startDate.year) * 12 + (end.month - e.startDate.month)
  }

  /** The `reduce` over every position. */
  function TotalMonths(exps: seq<Position>, now: YearMonth): (m: int)
    ensures exps == [] ==> m == 0
    ensures |exps| == 1 ==> m == Months(exps[0], now)
  {
    if exps == [] then 0 else Months(exps[0], now) + TotalMonths(exps[1..], now)
  }

  lemma {:induction false} TotalMonthsAppend(a: seq<Position>, b: seq<Position>, now: YearMonth)
    ensures TotalMonths(a + b, now) == TotalMonths(a, now) + TotalMonths(b, now)
  {
    if a != [] {
      assert (a + b)[1..] == a[1..] + b && (a + b)[0] == a[0];
      TotalMonthsAppend(a[1..], b, now);
    } else {
      assert a + b == b;
    }
  }

  /** `Math.floor(totalMonths / 12)`: the largest whole number of years within the total. */
  function TotalYears(exps: seq<Position>, now: YearMonth): (y: int)
    ensures 12 * y <= TotalMonths(exps, now) < 12 * (y + 1)
  {
    TotalMonths(exps, now) / 12
  }

  /**
   * Time passing never lowers the total, and while there is a current job
   * every later month raises it.
   */
  lemma {:induction false} TotalMonthsGrowWithNow(exps: seq<Position>, now: YearMonth, later: YearMonth)
    requires MonthIndex(now) <= MonthIndex(later)
    ensures TotalMonths(exps, now) <= TotalMonths(exps, later)
    ensures (exists i :: 0 <= i < |exps| && IsCurrentJob(exps[i])) && MonthIndex(now) < MonthIndex(later)
      ==> TotalMonths(exps, now) < TotalMonths(exps, later)
  {
    if exps != [] {
      TotalMonthsGrowWithNow(exps[1..], now, later);
      if exists i :: 0 <= i < |exps| && IsCurrentJob(exps[i]) {
        var i :| 0 <= i < |exps| && IsCurrentJob(exps[i]);
        if i > 0 {
          assert exps[1..][i - 1] == exps[i];
        }
      }
    }
  }

  /** With no current job the total does not depend on the date. */
  lemma {:induction false} FinishedJobsIgnoreNow(exps: seq<Position>, now: YearMonth, other: YearMonth)
    requires forall i :: 0 <= i < |exps| ==> !IsCurrentJob(exps[i])
    ensures TotalMonths(exps, now) == TotalMonths(exps, other)
  {
    if exps != [] {
      FinishedJobsIgnoreNow(exps[1..], now, other);
    }
  }

  // ---------------------------------------------------------------------
  // Header stats
  // ---------------------------------------------------------------------

  function ProjectCount(e: Position): int { |e.projects| }

  datatype HeaderStats = HeaderStats(years: int, positions: nat, projects: int)

  /** Years, "Positions" (one per entry) and "Projects" (every entry's projects). */
  function Stats(exps: seq<Position>, now: YearMonth): (s: HeaderStats)
    ensures s.years == TotalYears(exps, now)
    ensures s.positions == |exps|
    ensures s.projects >= 0
    ensures exps == [] ==> s.projects == 0
    ensures |exps| == 1 ==> s.projects == |exps[0].projects|
  {
    SumOfNonNegative(exps, ProjectCount);
    assert |exps| == 1 ==> exps[1..] == [];
    HeaderStats(TotalYears(exps, now), |exps|, SumOf(exps, ProjectCount))
  }

  /**
   * The project figure is the sum over positions: one position counts its
   * own projects, and the figure adds up over a split of the timeline.
   */
  lemma ProjectsAdd(p: Position, a: seq<Position>, b: seq<Position>, now: YearMonth)
    ensures Stats([p], now).projects == |p.projects|
    ensures Stats(a + b, now).projects == Stats(a, now).projects + Stats(b, now).projects
    ensures Stats(a + b, now).positions == Stats(a, now).positions + Stats(b, now).positions
  {
    assert [p][1..] == [];
    assert SumOf([p], ProjectCount) == ProjectCount(p) + SumOf([], ProjectCount);
    SumOfAppend(a, b, ProjectCount);
  }

  // ---------------------------------------------------------------------
  // Page state
  // ---------------------------------------------------------------------

  /** The filter selection and the one card that may be expanded. */
  class Timeline {
    var expandedExperience: Option<string>
    var selectedFilter: string

    constructor ()
      ensures expandedExperience == None && selectedFilter == "all"
    {
      expandedExperience := None;
      selectedFilter := "all";
    }

    predicate IsExpanded(id: string)
      reads this
    {
      expandedExperience == Some(id)
    }

    /**
     * "Show More"/"Show Less": the clicked card opens unless it was open,
     * and every other card is closed afterwards.
     */
    method Toggle(id: string)
      modifies this
      ensures IsExpanded(id) == !old(IsExpanded(id))
      ensures forall other :: other != id ==> !IsExpanded(other)
      ensures selectedFilter == old(selectedFilter)
    {
      if expandedExperience == Some(id) {
        expandedExperience := None;
      } else {
        expandedExperience := Some(id);
      }
    }

    method SelectFilter(filter: string)
      modifies this
      ensures selectedFilter == filter
      ensures expandedExperience == old(expandedExperience)
    {
      selectedFilter := filter;
    }

    /** The cards the timeline renders. */
    function Shown(exps: seq<Position>): (r: seq<Position>)
      reads this
      ensures |r| <= |exps|
      ensures selectedFilter == "all" ==> r == exps
    {
      Filtered(exps, selectedFilter)
    }
  }

  /** Toggling two different cards leaves only the second open. */
  method ToggleTwo(t: Timeline, a: string, b: string)
    requires a != b && t.expandedExperience == None
    modifies t
    ensures t.IsExpanded(b) && !t.IsExpanded(a)
  {
    t.Toggle(a);
    t.Toggle(b);
  }
}
