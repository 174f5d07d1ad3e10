/**
 * The about page: the skill category bar and the skills it shows, the ids
 * and the expand/collapse behaviour of a skill card, and the date and type
 * labels of an experience entry.
 */
module About {
  import opened Common

  datatype Skill = Skill(name: string, level: int, category: string, yearsOfExperience: int, projects: int)

  // ---------------------------------------------------------------------
  // Category bar
  // ---------------------------------------------------------------------

  /** The position of the first occurrence of `x` in `xs`. */
  function FirstIndex(xs: seq<string>, x: string): (k: nat)
    requires x in xs
    ensures k < |xs| && xs[k] == x
    ensures forall i :: 0 <= i < k ==> xs[i] != x
  {
    if xs[0] == x then 0 else 1 + FirstIndex(xs[1..], x)
  }

  /** `Array.from(new Set(xs))`: each value once, in the order of its first appearance. */
  function Dedupe(xs: seq<string>): (r: seq<string>)
    ensures Distinct(r)
    ensures forall x :: x in r <==> x in xs
    decreases |xs|
  {
    if xs == [] then []
    else
      var r := Dedupe(xs[..|xs| - 1]);
      if xs[|xs| - 1] in r then r else r + [xs[|xs| - 1]]
  }

  /** A set lists its values in the order they were first added. */
  lemma {:induction false} DedupeKeepsFirstAppearanceOrder(xs: seq<string>)
    ensures forall i, j :: 0 <= i < j < |Dedupe(xs)| ==> FirstIndex(xs, Dedupe(xs)[i]) < FirstIndex(xs, Dedupe(xs)[j])
    decreases |xs|
  {
    if xs != [] {
      var init := xs[..|xs| - 1];
      var last := xs[|xs| - 1];
      var r0 := Dedupe(init);
      DedupeKeepsFirstAppearanceOrder(init);
      assert xs == init + [last];
      forall x | x in init ensures FirstIndex(xs, x) == FirstIndex(init, x) {
        var k := FirstIndex(init, x);
        assert xs[k] == x;
      }
      var r := Dedupe(xs);
      assert r == if last in r0 then r0 else r0 + [last];
      forall i, j | 0 <= i < j < |r| ensures FirstIndex(xs, r[i]) < FirstIndex(xs, r[j]) {
        assert r[i] in init;
        if j < |r0| {
          assert r[i] == r0[i] && r[j] == r0[j] && r[j] in init;
          assert FirstIndex(init, r0[i]) < FirstIndex(init, r0[j]);
        } else {
          assert r[j] == last && last !in init;
          assert FirstIndex(xs, last) == |xs| - 1;
        }
      }
    }
  }

  function Category(s: Skill): string { s.category }

  function SkillCategoryNames(skills: seq<Skill>): seq<string> {
    seq(|skills|, i requires 0 <= i < |skills| => skills[i].category)
  }

  /** `skillCategories`: "All", then every category the skills use, once each. */
  function SkillCategories(skills: seq<Skill>): (r: seq<string>)
    ensures |r| >= 1 && r[0] == "All"
    ensures forall c :: c in r[1..] <==> exists i :: 0 <= i < |skills| && skills[i].category == c
    ensures Distinct(r[1..])
    ensures Distinct(r) <==> forall i :: 0 <= i < |skills| ==> skills[i].category != "All"
  {
    var names := SkillCategoryNames(skills);
    var r := ["All"] + Dedupe(names);
    assert r[1..] == Dedupe(names);
    forall c ensures c in r[1..] <==> exists i :: 0 <= i < |skills| && skills[i].category == c {
      if c in names {
        var i :| 0 <= i < |names| && names[i] == c;
        assert skills[i].category == c;
      }
      if exists i :: 0 <= i < |skills| && skills[i].category == c {
        var i :| 0 <= i < |skills| && skills[i].category == c;
        assert names[i] == c;
      }
    }
    assert Distinct(r) <== forall i :: 0 <= i < |skills| ==> skills[i].category != "All" by {
      if forall i :: 0 <= i < |skills| ==> skills[i].category != "All" {
        assert "All" !in Dedupe(names);
        forall i, j | 0 <= i < j < |r| ensures r[i] != r[j] {
          if i > 0 {
            assert r[i] == Dedupe(names)[i - 1] && r[j] == Dedupe(names)[j - 1];
          } else {
            assert r[j] in Dedupe(names);
          }
        }
      }
    }
    assert Distinct(r) ==> forall i :: 0 <= i < |skills| ==> skills[i].category != "All" by {
      if exists i :: 0 <= i < |skills| && skills[i].category == "All" {
        assert "All" in r[1..];
        var k :| 0 <= k < |r[1..]| && r[1..][k] == "All";
        assert r[0] == r[k + 1];
      }
    }
    r
  }

  /** `filteredSkills`: every skill for "All", otherwise the skills of that category in order. */
  function FilteredSkills(skills: seq<Skill>, active: string): (r: seq<Skill>)
    ensures active == "All" ==> r == skills
    ensures active != "All" ==> forall i :: 0 <= i < |r| ==> r[i] in skills && r[i].category == active
    ensures active != "All" ==> forall i :: 0 <= i < |skills| && skills[i].category == active ==> skills[i] in r
  {
    if active == "All" then skills else Filter(skills, InGroup(Category, active))
  }

  /** The filter keeps the skills' relative order: filtering a concatenation concatenates the results. */
  lemma FilteredSkillsKeepOrder(a: seq<Skill>, b: seq<Skill>, active: string)
    ensures FilteredSkills(a + b, active) == FilteredSkills(a, active) + FilteredSkills(b, active)
  {
    if active != "All" {
      FilterAppend(a, b, InGroup(Category, active));
    }
  }

  /** How many skills the given category buttons show in total. */
  function ShownTotal(skills: seq<Skill>, names: seq<string>): nat {
    if names == [] then 0 else |FilteredSkills(skills, names[0])| + ShownTotal(skills, names[1..])
  }

  lemma {:induction false} ShownTotalIsGroupSizes(skills: seq<Skill>, names: seq<string>)
    requires "All" !in names
    ensures ShownTotal(skills, names) == GroupSizes(skills, Category, names)
  {
    if names != [] {
      ShownTotalIsGroupSizes(skills, names[1..]);
    }
  }

  /**
   * The categories after "All" partition the skills: the lists they show
   * add up to the whole list, unless a skill's category is literally "All".
   */
  lemma CategoriesPartitionSkills(skills: seq<Skill>)
    requires forall i :: 0 <= i < |skills| ==> skills[i].category != "All"
    ensures ShownTotal(skills, SkillCategories(skills)[1..]) == |skills|
  {
    var names := SkillCategories(skills)[1..];
    assert "All" !in names;
    ShownTotalIsGroupSizes(skills, names);
    forall i | 0 <= i < |skills| ensures Category(skills[i]) in names {
      assert skills[i].category in names;
    }
    GroupSizesPartition(skills, Category, names);
  }

  // ---------------------------------------------------------------------
  // Skill card
  // ---------------------------------------------------------------------

  /** `replace(/\s+/g, "-")`: each run of white space becomes a single '-'. */
  function DashSpaces(s: string): (r: string)
    ensures forall i :: 0 <= i < |r| ==> !IsSpace(r[i])
    ensures |r| <= |s|
    ensures s != [] ==> r != []
    ensures s != [] && !IsSpace(s[0]) ==> r[0] == s[0]
    ensures (forall i :: 0 <= i < |s| ==> !IsSpace(s[i])) ==> r == s
    decreases |s|
  {
    if s == [] then []
    else if IsSpace(s[0]) then
      TrimStartSuffix(s[1..]);
      var rest := DashSpaces(TrimStart(s[1..]));
      "-" + rest
    else
      var rest := DashSpaces(s[1..]);
      assert (forall i :: 0 <= i < |s| ==> !IsSpace(s[i])) ==> rest == s[1..];
      [s[0]] + rest
  }

  /** Where the input had no '-', no two dashes are adjacent: a run becomes one dash. */
  lemma {:induction false} DashSpacesCollapsesRuns(s: string)
    requires '-' !in s
    ensures var r := DashSpaces(s);
      forall i :: 0 <= i < |r| - 1 ==> !(r[i] == '-' && r[i + 1] == '-')
    decreases |s|
  {
    if s != [] {
      if IsSpace(s[0]) {
        var rest := TrimStart(s[1..]);
        TrimStartSuffix(s[1..]);
        assert forall c :: c in rest ==> c in s;
        DashSpacesCollapsesRuns(rest);
        assert DashSpaces(s) == "-" + DashSpaces(rest);
        if rest != [] {
          assert rest[0] in s;
        }
      } else {
        DashSpacesCollapsesRuns(s[1..]);
        assert DashSpaces(s) == [s[0]] + DashSpaces(s[1..]);
      }
    }
  }

  /**
   * A reference reading of `replace(/\s+/g, "-")`, one character at a time:
   * a white-space character becomes '-' unless the previous character was
   * white space too, in which case it is dropped; other characters are kept.
   */
  function Collapse(s: string, afterSpace: bool): string {
    if s == [] then []
    else if IsSpace(s[0]) then (if afterSpace then "" else "-") + Collapse(s[1..], true)
    else [s[0]] + Collapse(s[1..], false)
  }

  /** After white space, the leading run is swallowed. */
  lemma {:induction false} CollapseAfterSpace(s: string)
    ensures Collapse(s, true) == Collapse(TrimStart(s), false)
  {
    if s != [] {
      if IsSpace(s[0]) {
        CollapseAfterSpace(s[1..]);
      }
    }
  }

  /** `DashSpaces` agrees with the character-by-character reading everywhere. */
  lemma {:induction false} DashSpacesIsCollapse(s: string)
    ensures DashSpaces(s) == Collapse(s, false)
    decreases |s|
  {
    if s != [] {
      if IsSpace(s[0]) {
        TrimStartSuffix(s[1..]);
        DashSpacesIsCollapse(TrimStart(s[1..]));
        CollapseAfterSpace(s[1..]);
      } else {
        DashSpacesIsCollapse(s[1..]);
      }
    }
  }

  function WithoutSpaces(s: string): string {
    if s == [] then [] else (if IsSpace(s[0]) then "" else [s[0]]) + WithoutSpaces(s[1..])
  }

  function WithoutDashes(s: string): string {
    if s == [] then [] else (if s[0] == '-' then "" else [s[0]]) + WithoutDashes(s[1..])
  }

  lemma {:induction false} WithoutDashesAppend(a: string, b: string)
    ensures WithoutDashes(a + b) == WithoutDashes(a) + WithoutDashes(b)
  {
    if a != [] {
      assert (a + b)[1..] == a[1..] + b;
      assert (a + b)[0] == a[0];
      WithoutDashesAppend(a[1..], b);
    } else {
      assert a + b == b;
    }
  }

  /** The position `i` opens a run of white space. */
  predicate RunStart(s: string, i: nat)
    requires i < |s|
  {
    IsSpace(s[i]) && (i == 0 || !IsSpace(s[i - 1]))
  }

  /** The number of white-space runs that start at or after position `i`. */
  function RunsFrom(s: string, i: nat): nat
    requires i <= |s|
    decreases |s| - i
  {
    if i == |s| then 0 else (if RunStart(s, i) then 1 else 0) + RunsFrom(s, i + 1)
  }

  function Dashes(s: string): nat {
    if s == [] then 0 else (if s[0] == '-' then 1 else 0) + Dashes(s[1..])
  }

  lemma {:induction false} DashesAppend(a: string, b: string)
    ensures Dashes(a + b) == Dashes(a) + Dashes(b)
  {
    if a != [] {
      assert (a + b)[1..] == a[1..] + b;
      assert (a + b)[0] == a[0];
      DashesAppend(a[1..], b);
    } else {
      assert a + b == b;
    }
  }

  /** The reference reading keeps the other characters in order and writes one '-' per run. */
  lemma {:induction false} CollapseCounts(s: string, i: nat)
    requires i <= |s| && '-' !in s
    ensures var r := Collapse(s[i..], i > 0 && IsSpace(s[i - 1]));
      WithoutDashes(r) == WithoutSpaces(s[i..]) && Dashes(r) == RunsFrom(s, i)
    decreases |s| - i
  {
    if i < |s| {
      var b := i > 0 && IsSpace(s[i - 1]);
      var t := s[i..];
      assert t[0] == s[i] && t[1..] == s[i + 1..];
      CollapseCounts(s, i + 1);
      var rest := Collapse(s[i + 1..], IsSpace(s[i]));
      var head: string := if IsSpace(s[i]) then (if b then "" else "-") else [s[i]];
      assert Collapse(t, b) == head + rest;
      WithoutDashesAppend(head, rest);
      DashesAppend(head, rest);
      assert s[i] != '-';
    }
  }

  /**
   * Read on a name without dashes: the non-dash characters of the result are
   * the non-space characters of the input in order, and there is exactly one
   * '-' for each run of white space.
   */
  lemma DashSpacesOneDashPerRun(s: string)
    requires '-' !in s
    ensures WithoutDashes(DashSpaces(s)) == WithoutSpaces(s)
    ensures Dashes(DashSpaces(s)) == RunsFrom(s, 0)
  {
    DashSpacesIsCollapse(s);
    CollapseCounts(s, 0);
    assert s[0..] == s;
  }

  /** `skillId`: "skill-" and the lower-cased name with its white space runs dashed. */
  function SkillId(name: string): (r: string)
    ensures |r| >= 6 && r[..6] == "skill-"
    ensures r[6..] == Collapse(Lower(name), false)
    ensures forall i :: 0 <= i < |r| ==> !IsSpace(r[i])
  {
    DashSpacesIsCollapse(Lower(name));
    "skill-" + DashSpaces(Lower(name))
  }

  /** `detailsId`: the skill id and "-details". */
  function DetailsId(name: string): (r: string)
    ensures r == SkillId(name) + "-details"
    ensures forall i :: 0 <= i < |r| ==> !IsSpace(r[i])
  {
    SkillId(name) + "-details"
  }

  /** A name without white space or capitals is its own id after the prefix. */
  lemma PlainNameId(name: string)
    requires forall i :: 0 <= i < |name| ==> !IsSpace(name[i]) && !('A' <= name[i] <= 'Z')
    ensures SkillId(name) == "skill-" + name
  {
    assert Lower(name) == name;
  }

  predicate IsToggleKey(key: string) { key == "Enter" || key == " " }

  /** One skill card and its expanded flag. */
  class SkillCard {
    const skill: Skill
    var isExpanded: bool

    constructor (skill: Skill)
      ensures this.skill == skill && !isExpanded
    {
      this.skill := skill;
      isExpanded := false;
    }

    /** `aria-controls` names the details element, whose id extends the card's title id. */
    function ControlsId(): (r: string)
      ensures |r| > |SkillId(skill.name)|
      ensures r[..|SkillId(skill.name)|] == SkillId(skill.name)
      ensures r != SkillId(skill.name)
    {
      DetailsId(skill.name)
    }

    /** Clicking flips the flag. */
    method HandleClick()
      modifies this
      ensures isExpanded == !old(isExpanded)
    {
      isExpanded := !isExpanded;
    }

    /** Enter and Space flip the flag; every other key leaves it. */
    method HandleKeyDown(key: string)
      modifies this
      ensures IsToggleKey(key) ==> isExpanded == !old(isExpanded)
      ensures !IsToggleKey(key) ==> isExpanded == old(isExpanded)
    {
      if key == "Enter" || key == " " {
        isExpanded := !isExpanded;
      }
    }
  }

  /** Pressing the same key twice leaves the card as it was. */
  method PressTwice(card: SkillCard, key: string)
    modifies card
    ensures card.isExpanded == old(card.isExpanded)
  {
    card.HandleKeyDown(key);
    card.HandleKeyDown(key);
  }

  // ---------------------------------------------------------------------
  // Experience entry labels
  // ---------------------------------------------------------------------

  /** `type.charAt(0).toUpperCase() + type.slice(1)`. */
  function TypeLabel(t: string): (r: string)
    ensures |r| == |t|
    ensures t != [] ==> r[0] == UpperChar(t[0]) && r[1..] == t[1..]
  {
    if t == [] then [] else [UpperChar(t[0])] + t[1..]
  }

  lemma FirstLetterUp(t: string, c: char)
    requires t != [] && UpperChar(t[0]) == c
    ensures TypeLabel(t) == [c] + t[1..]
  {
  }

  /** The three position types read "Work", "Freelance" and "Internship". */
  lemma TypeLabels()
    ensures TypeLabel("work") == "Work"
    ensures TypeLabel("freelance") == "Freelance"
    ensures TypeLabel("internship") == "Internship"
  {
    FirstLetterUp("work", 'W');
    FirstLetterUp("freelance", 'F');
    FirstLetterUp("internship", 'I');
  }
}
