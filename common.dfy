/**
 * Shared vocabulary of the portfolio model: optional values, the ASCII
 * subset of JavaScript's string operations that the pages rely on
 * (`trim`, `toLowerCase`, `includes`, `join`), order-preserving filtering,
 * the stable comparator sort behind `Array.prototype.sort`, sums, and the
 * "first k plus overflow" badge that several cards share.
 */
module Common {

  datatype Option<+T> = None | Some(value: T)

  /** JavaScript truthiness of an optional string: absent and "" are falsy. */
  predicate Truthy(s: Option<string>) {
    s.Some? && s.value != ""
  }

  /** `a || b` for an optional string and a fallback string. */
  function OrElse(s: Option<string>, fallback: string): (r: string)
    ensures Truthy(s) ==> r == s.value
    ensures !Truthy(s) ==> r == fallback
  {
    if Truthy(s) then s.value else fallback
  }

  /** "{start} - {end || "Present"}", the date range of a timeline entry or a project card. */
  function DateRange(start: string, end: Option<string>): (r: string)
    ensures Truthy(end) ==> r == start + " - " + end.value
    ensures !Truthy(end) ==> r == start + " - Present"
  {
    start + " - " + OrElse(end, "Present")
  }

  function Min(a: int, b: int): int { if a <= b then a else b }

  // ---------------------------------------------------------------------
  // Characters and strings (ASCII only)
  // ---------------------------------------------------------------------

  /** The ASCII members of the regular-expression class `\s`. */
  predicate IsSpace(c: char) {
    c == ' ' || c == '\t' || c == '\n' || c == '\r' || c == '\U{000B}' || c == '\U{000C}'
  }

  function LowerChar(c: char): char {
    if 'A' <= c <= 'Z' then (c as int + 32) as char else c
  }

  function UpperChar(c: char): char {
    if 'a' <= c <= 'z' then (c as int - 32) as char else c
  }

  /** `String.prototype.toLowerCase` restricted to ASCII. */
  function Lower(s: string): (r: string)
    ensures |r| == |s|
    ensures forall i :: 0 <= i < |s| ==> r[i] == LowerChar(s[i])
  {
    if s == [] then [] else [LowerChar(s[0])] + Lower(s[1..])
  }

  /** `String.prototype.toUpperCase` restricted to ASCII. */
  function Upper(s: string): (r: string)
    ensures |r| == |s|
    ensures forall i :: 0 <= i < |s| ==> r[i] == UpperChar(s[i])
  {
    if s == [] then [] else [UpperChar(s[0])] + Upper(s[1..])
  }

  /** The position of the first `c` in `s`, if any. */
  function IndexOf(s: string, c: char): (k: Option<nat>)
    ensures k.None? <==> c !in s
    ensures k.Some? ==> k.value < |s| && s[k.value] == c && forall i :: 0 <= i < k.value ==> s[i] != c
  {
    if s == [] then None
    else if s[0] == c then Some(0)
    else
      match IndexOf(s[1..], c)
      case None => None
      case Some(k) => Some(k + 1)
  }

  /** `s.replace(c, d)` with a one-character pattern: only the first occurrence is replaced. */
  function ReplaceFirst(s: string, c: char, d: char): (r: string)
    ensures |r| == |s|
    ensures c !in s ==> r == s
  {
    match IndexOf(s, c)
    case None => s
    case Some(k) => s[..k] + [d] + s[k + 1..]
  }

  /** Only the first `c` changes: it becomes `d`, and every other character stays. */
  lemma ReplaceFirstChangesFirst(s: string, c: char, d: char)
    requires c in s
    ensures var k := IndexOf(s, c).value;
      && ReplaceFirst(s, c, d)[k] == d
      && (forall i :: 0 <= i < |s| && i != k ==> ReplaceFirst(s, c, d)[i] == s[i])
      && (forall i :: 0 <= i < k ==> s[i] != c)
  {
    Splice(s, IndexOf(s, c).value, d);
  }

  /** Writing `d` at position `k` changes that position and no other. */
  lemma Splice(s: string, k: nat, d: char)
    requires k < |s|
    ensures var r := s[..k] + [d] + s[k + 1..];
      && |r| == |s| && r[k] == d
      && forall i :: 0 <= i < |s| && i != k ==> r[i] == s[i]
  {
    var r := s[..k] + [d] + s[k + 1..];
    forall i | 0 <= i < |s| && i != k ensures r[i] == s[i] {
      if i < k {
        assert r[i] == s[..k][i];
      } else {
        assert r[i] == s[k + 1..][i - k - 1];
      }
    }
  }

  /** Replacing the first `c` by a `d` the text lacks, then the first `d` by `c`, gives the text back. */
  lemma ReplaceFirstRoundTrip(s: string, c: char, d: char)
    requires d !in s
    ensures ReplaceFirst(ReplaceFirst(s, c, d), d, c) == s
  {
    var t := ReplaceFirst(s, c, d);
    if c in s {
      var k := IndexOf(s, c).value;
      ReplaceFirstChangesFirst(s, c, d);
      assert IndexOf(t, d).value == k;
      ReplaceFirstChangesFirst(t, d, c);
    }
  }

  /** Every character of the replacement is the original one or the new one. */
  lemma ReplaceFirstKeepsOrPuts(s: string, c: char, d: char)
    ensures forall i :: 0 <= i < |s| ==> ReplaceFirst(s, c, d)[i] == s[i] || ReplaceFirst(s, c, d)[i] == d
  {
    if c in s {
      ReplaceFirstChangesFirst(s, c, d);
    }
  }

  /** Lower-casing leaves the first space where it was. */
  lemma {:induction false} FirstSpaceOfLower(s: string)
    ensures IndexOf(Lower(s), ' ') == IndexOf(s, ' ')
  {
    if s != [] && s[0] != ' ' {
      FirstSpaceOfLower(s[1..]);
      assert Lower(s)[1..] == Lower(s[1..]);
    }
  }

  /** Upper-casing ignores an earlier lower-casing. */
  lemma UpperOfLower(s: string)
    ensures Upper(Lower(s)) == Upper(s)
  {
    assert forall i :: 0 <= i < |s| ==> UpperChar(LowerChar(s[i])) == UpperChar(s[i]);
  }

  /** `s.replace('-', ' ').toUpperCase()`, the text of the category and type badges. */
  function BadgeText(s: string): (r: string)
    ensures |r| == |s|
    ensures forall i :: 0 <= i < |r| ==> !('a' <= r[i] <= 'z')
  {
    Upper(ReplaceFirst(s, '-', ' '))
  }

  /** Only the first '-' becomes a space; every other character is upper-cased in place. */
  lemma BadgeTextFirstDash(s: string)
    requires '-' in s
    ensures var k := IndexOf(s, '-').value;
      && BadgeText(s)[k] == ' '
      && forall i :: 0 <= i < |s| && i != k ==> BadgeText(s)[i] == UpperChar(s[i])
  {
    ReplaceFirstChangesFirst(s, '-', ' ');
  }

  /** A map has no keys exactly when it is empty. */
  lemma EmptyMapIff<K, V>(m: map<K, V>)
    ensures |m| == 0 <==> m == map[]
  {
    if |m| != 0 {
      var k :| k in m;
    }
  }

  /** `String.prototype.trimStart`. */
  function TrimStart(s: string): string {
    if s != [] && IsSpace(s[0]) then TrimStart(s[1..]) else s
  }

  /** `String.prototype.trimEnd`. */
  function TrimEnd(s: string): string {
    if s != [] && IsSpace(s[|s| - 1]) then TrimEnd(s[..|s| - 1]) else s
  }

  /** `String.prototype.trim`. */
  function Trim(s: string): string {
    TrimEnd(TrimStart(s))
  }

  /** Dropping leading white space leaves a suffix that starts with a non-space. */
  lemma {:induction false} TrimStartSuffix(s: string)
    ensures |TrimStart(s)| <= |s| && TrimStart(s) == s[|s| - |TrimStart(s)|..]
    ensures forall i :: 0 <= i < |s| - |TrimStart(s)| ==> IsSpace(s[i])
    ensures TrimStart(s) == [] || !IsSpace(TrimStart(s)[0])
  {
    if s != [] && IsSpace(s[0]) {
      var t := s[1..];
      TrimStartSuffix(t);
      assert TrimStart(s) == TrimStart(t);
      assert t[|t| - |TrimStart(t)|..] == s[|s| - |TrimStart(s)|..];
      assert forall i :: 1 <= i < |s| - |TrimStart(s)| ==> s[i] == t[i - 1];
    }
  }

  /** Dropping trailing white space leaves a prefix that ends with a non-space. */
  lemma {:induction false} TrimEndPrefix(s: string)
    ensures |TrimEnd(s)| <= |s| && TrimEnd(s) == s[..|TrimEnd(s)|]
    ensures forall i :: |TrimEnd(s)| <= i < |s| ==> IsSpace(s[i])
    ensures TrimEnd(s) == [] || !IsSpace(TrimEnd(s)[|TrimEnd(s)| - 1])
  {
    if s != [] && IsSpace(s[|s| - 1]) {
      TrimEndPrefix(s[..|s| - 1]);
    }
  }

  predicate AllSpace(s: string) {
    forall i :: 0 <= i < |s| ==> IsSpace(s[i])
  }

  /** A string trims to "" exactly when every character is white space. */
  lemma TrimEmptyIffAllSpace(s: string)
    ensures Trim(s) == "" <==> AllSpace(s)
  {
    TrimStartSuffix(s);
    var t := TrimStart(s);
    TrimEndPrefix(t);
  }

  /** `haystack.includes(needle)`: the needle occurs at some offset. */
  predicate Contains(haystack: string, needle: string) {
    exists i | 0 <= i <= |haystack| - |needle| :: OccursAt(haystack, needle, i)
  }

  predicate OccursAt(haystack: string, needle: string, i: int) {
    0 <= i <= |haystack| - |needle| && haystack[i..i + |needle|] == needle
  }

  lemma EmptyNeedle(haystack: string)
    ensures Contains(haystack, "")
  {
    assert OccursAt(haystack, "", 0);
  }

  /** `text.toLowerCase().includes(query.toLowerCase())`. */
  predicate MatchesQuery(text: string, query: string) {
    Contains(Lower(text), Lower(query))
  }

  /** `texts.some(t => t.toLowerCase().includes(query.toLowerCase()))`. */
  predicate AnyMatches(texts: seq<string>, query: string) {
    exists i :: 0 <= i < |texts| && MatchesQuery(texts[i], query)
  }

  /** The empty query matches every text, so a blank search keeps everything. */
  lemma EmptyQueryMatches(text: string)
    ensures MatchesQuery(text, "")
  {
    EmptyNeedle(Lower(text));
  }

  /** `parts.join(sep)`. */
  function Join(parts: seq<string>, sep: string): string {
    if parts == [] then ""
    else if |parts| == 1 then parts[0]
    else parts[0] + sep + Join(parts[1..], sep)
  }

  /** Joining two non-empty lists equals joining each and gluing with the separator. */
  lemma {:induction false} JoinAppend(a: seq<string>, b: seq<string>, sep: string)
    requires a != [] && b != []
    ensures Join(a + b, sep) == Join(a, sep) + sep + Join(b, sep)
  {
    if |a| == 1 {
      assert a + b == [a[0]] + b;
    } else {
      JoinAppend(a[1..], b, sep);
      assert (a + b)[1..] == a[1..] + b;
    }
  }

  // ---------------------------------------------------------------------
  // Decimal rendering of naturals (template literals `${n}`)
  // ---------------------------------------------------------------------

  function DigitChar(d: nat): char
    requires d < 10
  {
    ('0' as int + d) as char
  }

  predicate IsDigit(c: char) { '0' <= c <= '9' }

  function NatToString(n: nat): (r: string)
    ensures |r| >= 1
    ensures forall i :: 0 <= i < |r| ==> IsDigit(r[i])
  {
    if n < 10 then [DigitChar(n)] else NatToString(n / 10) + [DigitChar(n % 10)]
  }

  /** The reading direction of a decimal numeral. */
  function ParseDigits(s: string): nat
    requires forall i :: 0 <= i < |s| ==> IsDigit(s[i])
  {
    if s == [] then 0
    else
      assert IsDigit(s[|s| - 1]);
      10 * ParseDigits(s[..|s| - 1]) + (s[|s| - 1] as int - '0' as int)
  }

  /** Rendering a count as a numeral loses nothing: reading it back gives the count. */
  lemma {:induction false} NatToStringRoundTrip(n: nat)
    ensures ParseDigits(NatToString(n)) == n
  {
    if n >= 10 {
      NatToStringRoundTrip(n / 10);
      var s := NatToString(n);
      assert s[..|s| - 1] == NatToString(n / 10);
    }
  }

  // ---------------------------------------------------------------------
  // Order-preserving filter, counting and sums
  // ---------------------------------------------------------------------

  /** `Array.prototype.filter`. */
  function Filter<T>(s: seq<T>, p: T -> bool): (r: seq<T>)
    ensures |r| <= |s|
    ensures forall i :: 0 <= i < |r| ==> r[i] in s && p(r[i])
    ensures forall i :: 0 <= i < |s| && p(s[i]) ==> s[i] in r
  {
    if s == [] then [] else (if p(s[0]) then [s[0]] else []) + Filter(s[1..], p)
  }

  /** The positions of the elements that satisfy `p`. */
  function Positions<T>(s: seq<T>, p: T -> bool): set<int> {
    set i | 0 <= i < |s| && p(s[i])
  }

  /** Filtering keeps one element per position that satisfies `p`. */
  lemma {:induction false} FilterCountsPositions<T>(s: seq<T>, p: T -> bool)
    ensures |Filter(s, p)| == |Positions(s, p)|
  {
    if s != [] {
      var front, last := s[..|s| - 1], s[|s| - 1];
      assert s == front + [last];
      FilterCountsPositions(front, p);
      FilterAppend(front, [last], p);
      assert [last][1..] == [];
      PositionsSnoc(front, last, p);
    } else {
      assert Positions(s, p) == {};
    }
  }

  /** Appending an element adds its position exactly when it satisfies `p`. */
  lemma PositionsSnoc<T>(front: seq<T>, last: T, p: T -> bool)
    ensures |Positions(front + [last], p)| == |Positions(front, p)| + (if p(last) then 1 else 0)
  {
    var s := front + [last];
    var extra := if p(last) then {|front|} else {};
    forall i ensures i in Positions(s, p) <==> i in Positions(front, p) + extra {
      if 0 <= i < |front| {
        assert s[i] == front[i];
      }
    }
    assert Positions(s, p) == Positions(front, p) + extra;
    assert |front| !in Positions(front, p);
  }

  /** Filtering distributes over concatenation, so kept elements keep their relative order. */
  lemma {:induction false} FilterAppend<T>(a: seq<T>, b: seq<T>, p: T -> bool)
    ensures Filter(a + b, p) == Filter(a, p) + Filter(b, p)
  {
    if a != [] {
      FilterAppend(a[1..], b, p);
      assert (a + b)[0] == a[0] && (a + b)[1..] == a[1..] + b;
    } else {
      assert a + b == b;
    }
  }

  /** Every occurrence of a kept element survives; every dropped one is gone. */
  lemma {:induction false} FilterMultiset<T>(s: seq<T>, p: T -> bool, x: T)
    ensures multiset(Filter(s, p))[x] == if p(x) then multiset(s)[x] else 0
  {
    if s != [] {
      FilterMultiset(s[1..], p, x);
      assert s == [s[0]] + s[1..];
    }
  }

  /** Filtering two permutations of each other gives permutations of each other. */
  lemma FilterRespectsPermutation<T>(a: seq<T>, b: seq<T>, p: T -> bool)
    requires multiset(a) == multiset(b)
    ensures multiset(Filter(a, p)) == multiset(Filter(b, p))
  {
    forall x ensures multiset(Filter(a, p))[x] == multiset(Filter(b, p))[x] {
      FilterMultiset(a, p, x);
      FilterMultiset(b, p, x);
    }
  }

  /** A predicate that holds everywhere keeps the whole list. */
  lemma {:induction false} FilterAll<T>(s: seq<T>, p: T -> bool)
    requires forall i :: 0 <= i < |s| ==> p(s[i])
    ensures Filter(s, p) == s
  {
    if s != [] {
      FilterAll(s[1..], p);
    }
  }

  /** A filter keeps the whole list exactly when every element passes. */
  lemma {:induction false} FilterKeepsAllIff<T>(s: seq<T>, p: T -> bool)
    ensures |Filter(s, p)| == |s| <==> forall i :: 0 <= i < |s| ==> p(s[i])
  {
    if s != [] {
      FilterKeepsAllIff(s[1..], p);
      assert forall i :: 1 <= i < |s| ==> s[i] == s[1..][i - 1];
      if forall i :: 0 <= i < |s| ==> p(s[i]) {
        assert forall i :: 0 <= i < |s[1..]| ==> p(s[1..][i]);
      }
    }
  }

  /** Two filters that agree on every element keep the same list. */
  lemma {:induction false} FilterSameElements<T>(s: seq<T>, p: T -> bool, q: T -> bool)
    requires forall i :: 0 <= i < |s| ==> p(s[i]) == q(s[i])
    ensures Filter(s, p) == Filter(s, q)
  {
    if s != [] {
      FilterSameElements(s[1..], p, q);
    }
  }

  /** A filter and its complement split the list: their sizes add up. */
  lemma {:induction false} FilterSplit<T>(s: seq<T>, p: T -> bool, q: T -> bool)
    requires forall x :: q(x) == !p(x)
    ensures |Filter(s, p)| + |Filter(s, q)| == |s|
  {
    if s != [] {
      FilterSplit(s[1..], p, q);
    }
  }

  /** A filter keeping nothing but what a weaker filter keeps is no longer. */
  lemma {:induction false} FilterMonotone<T>(s: seq<T>, p: T -> bool, q: T -> bool)
    requires forall x :: p(x) ==> q(x)
    ensures |Filter(s, p)| <= |Filter(s, q)|
  {
    if s != [] {
      FilterMonotone(s[1..], p, q);
    }
  }

  // ---------------------------------------------------------------------
  // Grouping by a key
  // ---------------------------------------------------------------------

  /** The sizes of the groups `s.filter(x => key(x) === name)`, added up over the names. */
  /** The elements whose key is `name`. */
  function InGroup<T>(key: T -> string, name: string): T -> bool {
    x => key(x) == name
  }

  function GroupSizes<T>(s: seq<T>, key: T -> string, names: seq<string>): nat {
    if names == [] then 0
    else |Filter(s, InGroup(key, names[0]))| + GroupSizes(s, key, names[1..])
  }

  /** How many of the names equal k. */
  function Occurrences(names: seq<string>, k: string): nat {
    if names == [] then 0 else (if names[0] == k then 1 else 0) + Occurrences(names[1..], k)
  }

  predicate Distinct(names: seq<string>) {
    forall i, j :: 0 <= i < j < |names| ==> names[i] != names[j]
  }

  lemma {:induction false} OccursOnce(names: seq<string>, k: string)
    requires Distinct(names) && k in names
    ensures Occurrences(names, k) == 1
  {
    if names[0] == k {
      OccursNot(names[1..], k);
    } else {
      OccursOnce(names[1..], k);
    }
  }

  lemma {:induction false} OccursNot(names: seq<string>, k: string)
    requires k !in names
    ensures Occurrences(names, k) == 0
  {
    if names != [] {
      OccursNot(names[1..], k);
    }
  }

  lemma {:induction false} GroupSizesOfNothing<T>(key: T -> string, names: seq<string>)
    ensures GroupSizes([], key, names) == 0
  {
    if names != [] {
      GroupSizesOfNothing(key, names[1..]);
    }
  }

  /** Adding one element adds it to each group whose name is its key. */
  lemma {:induction false} GroupSizesCons<T>(x: T, s: seq<T>, key: T -> string, names: seq<string>)
    ensures GroupSizes([x] + s, key, names) == Occurrences(names, key(x)) + GroupSizes(s, key, names)
  {
    if names != [] {
      GroupSizesCons(x, s, key, names[1..]);
      assert ([x] + s)[1..] == s;
    }
  }

  /**
   * When every key is one of a list of distinct names, the groups partition
   * the list: their sizes add up to its length.
   */
  lemma {:induction false} GroupSizesPartition<T>(s: seq<T>, key: T -> string, names: seq<string>)
    requires Distinct(names)
    requires forall i :: 0 <= i < |s| ==> key(s[i]) in names
    ensures GroupSizes(s, key, names) == |s|
  {
    if s == [] {
      GroupSizesOfNothing(key, names);
    } else {
      assert s == [s[0]] + s[1..];
      GroupSizesCons(s[0], s[1..], key, names);
      OccursOnce(names, key(s[0]));
      GroupSizesPartition(s[1..], key, names);
    }
  }

  /** `items.reduce((sum, x) => sum + f(x), 0)`. */
  function SumOf<T>(s: seq<T>, f: T -> int): int {
    if s == [] then 0 else f(s[0]) + SumOf(s[1..], f)
  }

  lemma {:induction false} SumOfAppend<T>(a: seq<T>, b: seq<T>, f: T -> int)
    ensures SumOf(a + b, f) == SumOf(a, f) + SumOf(b, f)
  {
    if a != [] {
      SumOfAppend(a[1..], b, f);
      assert (a + b)[0] == a[0] && (a + b)[1..] == a[1..] + b;
    } else {
      assert a + b == b;
    }
  }

  lemma {:induction false} SumOfNonNegative<T>(s: seq<T>, f: T -> int)
    requires forall i :: 0 <= i < |s| ==> f(s[i]) >= 0
    ensures SumOf(s, f) >= 0
  {
    if s != [] {
      SumOfNonNegative(s[1..], f);
    }
  }

  // ---------------------------------------------------------------------
  // Stable comparator sort
  // ---------------------------------------------------------------------

  ghost predicate TotalPreorder<T(!new)>(le: (T, T) -> bool) {
    && (forall a, b :: le(a, b) || le(b, a))
    && (forall a, b, c :: le(a, b) && le(b, c) ==> le(a, c))
  }

  ghost predicate SortedBy<T>(s: seq<T>, le: (T, T) -> bool) {
    forall i, j :: 0 <= i < j < |s| ==> le(s[i], s[j])
  }

  /**
   * Places x before the first element it may precede. Elements that tie with x
   * stay behind it, which is what makes the sort stable.
   */
  function Insert<T>(x: T, s: seq<T>, le: (T, T) -> bool): (r: seq<T>)
    ensures multiset(r) == multiset(s) + multiset{x}
    ensures |r| == |s| + 1
  {
    if s == [] then [x]
    else if le(x, s[0]) then [x] + s
    else
      assert s == [s[0]] + s[1..];
      [s[0]] + Insert(x, s[1..], le)
  }

  /**
   * `Array.prototype.sort(cmp)` with `le(a, b)` standing for `cmp(a, b) <= 0`:
   * a stable insertion sort that reorders and neither adds nor drops elements.
   */
  function SortBy<T>(s: seq<T>, le: (T, T) -> bool): (r: seq<T>)
    ensures multiset(r) == multiset(s)
    ensures |r| == |s|
  {
    if s == [] then []
    else
      assert s == [s[0]] + s[1..];
      Insert(s[0], SortBy(s[1..], le), le)
  }

  /** Every element of an insertion is the inserted one or one of the list's. */
  lemma InsertElement<T>(x: T, s: seq<T>, le: (T, T) -> bool, j: nat)
    requires j < |Insert(x, s, le)|
    ensures Insert(x, s, le)[j] == x || exists k :: 0 <= k < |s| && s[k] == Insert(x, s, le)[j]
  {
    var y := Insert(x, s, le)[j];
    assert y in multiset(Insert(x, s, le));
    if y != x {
      assert y in multiset(s);
    }
  }

  lemma {:induction false} InsertSorted<T(!new)>(x: T, s: seq<T>, le: (T, T) -> bool)
    requires TotalPreorder(le)
    requires SortedBy(s, le)
    ensures SortedBy(Insert(x, s, le), le)
  {
    if s != [] && !le(x, s[0]) {
      InsertSorted(x, s[1..], le);
      var r := Insert(x, s, le);
      var t := Insert(x, s[1..], le);
      assert r == [s[0]] + t;
      forall j | 1 <= j < |r| ensures le(r[0], r[j]) {
        assert r[j] == t[j - 1];
        InsertElement(x, s[1..], le, j - 1);
        if r[j] != x {
          var k :| 0 <= k < |s[1..]| && s[1..][k] == r[j];
          assert le(s[0], s[k + 1]);
        }
      }
    }
  }

  /** The sort's result is ordered by the comparator. */
  lemma {:induction false} SortBySorted<T(!new)>(s: seq<T>, le: (T, T) -> bool)
    requires TotalPreorder(le)
    ensures SortedBy(SortBy(s, le), le)
  {
    if s != [] {
      SortBySorted(s[1..], le);
      InsertSorted(s[0], SortBy(s[1..], le), le);
    }
  }

  /** Filtering and then sorting keeps exactly the elements the filter keeps. */
  lemma FilterThenSort<T>(s: seq<T>, p: T -> bool, le: (T, T) -> bool)
    ensures var r := SortBy(Filter(s, p), le);
      && multiset(r) == multiset(Filter(s, p))
      && |r| <= |s|
      && (forall i :: 0 <= i < |r| ==> r[i] in s && p(r[i]))
      && (forall i :: 0 <= i < |s| && p(s[i]) ==> s[i] in r)
  {
    var kept := Filter(s, p);
    var r := SortBy(kept, le);
    forall i | 0 <= i < |r| ensures r[i] in s && p(r[i]) {
      assert r[i] in multiset(kept);
      var k :| 0 <= k < |kept| && kept[k] == r[i];
    }
    forall i | 0 <= i < |s| && p(s[i]) ensures s[i] in r {
      assert s[i] in kept;
      assert s[i] in multiset(r);
    }
  }

  /** A comparator that always answers 0 leaves the list as it was. */
  lemma {:induction false} SortByTiesIsIdentity<T>(s: seq<T>, le: (T, T) -> bool)
    requires forall a, b :: le(a, b)
    ensures SortBy(s, le) == s
  {
    if s != [] {
      SortByTiesIsIdentity(s[1..], le);
      assert s == [s[0]] + s[1..];
    }
  }

  /** Sorting by a key, larger keys first: `(a, b) => key(b) - key(a)`. */
  function Descending<T>(key: T -> int): (T, T) -> bool {
    (a: T, b: T) => key(a) >= key(b)
  }

  /** Sorting by a key, smaller keys first: `(a, b) => key(a) - key(b)`. */
  function Ascending<T>(key: T -> int): (T, T) -> bool {
    (a: T, b: T) => key(a) <= key(b)
  }

  lemma DescendingIsPreorder<T(!new)>(key: T -> int)
    ensures TotalPreorder(Descending(key))
  {
  }

  lemma AscendingIsPreorder<T(!new)>(key: T -> int)
    ensures TotalPreorder(Ascending(key))
  {
  }

  /** Sorting by a key in descending order gives non-increasing keys. */
  lemma SortDescendingOrdered<T(!new)>(s: seq<T>, key: T -> int)
    ensures forall i, j :: 0 <= i < j < |SortBy(s, Descending(key))| ==>
      key(SortBy(s, Descending(key))[i]) >= key(SortBy(s, Descending(key))[j])
  {
    DescendingIsPreorder(key);
    SortBySorted(s, Descending(key));
  }

  /** Sorting by a key in ascending order gives non-decreasing keys. */
  lemma SortAscendingOrdered<T(!new)>(s: seq<T>, key: T -> int)
    ensures forall i, j :: 0 <= i < j < |SortBy(s, Ascending(key))| ==>
      key(SortBy(s, Ascending(key))[i]) <= key(SortBy(s, Ascending(key))[j])
  {
    AscendingIsPreorder(key);
    SortBySorted(s, Ascending(key));
  }

  /**
   * The stand-in for `localeCompare`: ASCII lexicographic order, in which a
   * prefix comes first.
   */
  predicate TextLe(a: string, b: string) {
    a == [] || (b != [] && (a[0] < b[0] || (a[0] == b[0] && TextLe(a[1..], b[1..]))))
  }

  lemma {:induction false} TextLeTotal(a: string, b: string)
    ensures TextLe(a, b) || TextLe(b, a)
  {
    if a != [] && b != [] && a[0] == b[0] {
      TextLeTotal(a[1..], b[1..]);
    }
  }

  lemma {:induction false} TextLeTransitive(a: string, b: string, c: string)
    requires TextLe(a, b) && TextLe(b, c)
    ensures TextLe(a, c)
  {
    if a != [] && a[0] == b[0] && b[0] == c[0] {
      TextLeTransitive(a[1..], b[1..], c[1..]);
    }
  }

  /** Sorting by a text key with `a.key.localeCompare(b.key)`. */
  function ByText<T>(key: T -> string): (T, T) -> bool {
    (a: T, b: T) => TextLe(key(a), key(b))
  }

  lemma ByTextIsPreorder<T(!new)>(key: T -> string)
    ensures TotalPreorder(ByText(key))
  {
    forall a: T, b: T ensures ByText(key)(a, b) || ByText(key)(b, a) {
      TextLeTotal(key(a), key(b));
    }
    forall a: T, b: T, c: T | ByText(key)(a, b) && ByText(key)(b, c)
      ensures ByText(key)(a, c)
    {
      TextLeTransitive(key(a), key(b), key(c));
    }
  }

  // ---------------------------------------------------------------------
  // "First k plus overflow" badges
  // ---------------------------------------------------------------------

  /** What a card renders for a list capped at k entries: the head and a "+n" badge. */
  datatype Capped<T> = Capped(shown: seq<T>, more: Option<nat>)

  /** `items.slice(0, k)` together with `items.length > k && items.length - k`. */
  function Cap<T>(items: seq<T>, k: nat): (c: Capped<T>)
    ensures |c.shown| == Min(k, |items|)
    ensures c.shown == items[..|c.shown|]
    ensures c.more.Some? <==> |items| > k
    ensures c.more.Some? ==> |c.shown| + c.more.value == |items|
  {
    if |items| > k then Capped(items[..k], Some(|items| - k)) else Capped(items, None)
  }

  /** The "+n more" badge after a capped list, present exactly when something is hidden. */
  function MoreLabel<T>(c: Capped<T>): (badge: Option<string>)
    ensures badge.Some? <==> c.more.Some?
    ensures badge.Some? ==> badge.value == "+" + NatToString(c.more.value) + " more"
  {
    match c.more
    case None => None
    case Some(n) => Some("+" + NatToString(n) + " more")
  }

  /** The shown head and the hidden rest together are the whole list. */
  lemma CapLosesNothing<T>(items: seq<T>, k: nat)
    ensures Cap(items, k).shown + items[|Cap(items, k).shown|..] == items
    ensures |items[|Cap(items, k).shown|..]| == match Cap(items, k).more case Some(n) => n case None => 0
  {
  }
}
