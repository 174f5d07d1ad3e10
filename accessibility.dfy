/**
 * The accessibility helpers: list navigation with the arrow keys, the
 * focus stack and the Tab wrap of a focus trap, the space-separated ARIA
 * reference lists, and the parsing of hex colours.
 *
 * Elements are named by an id; the document's active element and body are
 * parameters.
 */
module Accessibility {
  import opened Common

  type ElementId = string

  // ---------------------------------------------------------------------
  // Arrow-key navigation
  // ---------------------------------------------------------------------

  /** A JavaScript number as this code can produce it: an integer, or NaN after `x % 0`. */
  datatype Num = Int(value: int) | NaN

  /**
   * `a % n` on numbers: NaN for a zero divisor; otherwise the remainder of
   * the division truncated toward zero, which differs from `a` by a multiple
   * of `n`, is smaller than `n` in size and takes the sign of `a`.
   */
  function JsRem(a: int, n: int): (r: Num)
    ensures n == 0 <==> r == NaN
    ensures n != 0 ==> (a - r.value) % Abs(n) == 0
    ensures n != 0 ==> -Abs(n) < r.value < Abs(n)
    ensures n != 0 && a >= 0 ==> r.value >= 0
    ensures n != 0 && a < 0 ==> r.value <= 0
    ensures n != 0 && a >= 0 ==> r == Int(a % Abs(n))
  {
    if n == 0 then NaN
    else
      var m := Abs(n);
      if a >= 0 then
        RemainderCongruent(a, m);
        Int(a % m)
      else
        RemainderCongruent(-a, m);
        assert (a - -((-a) % m)) == -((-a) - (-a) % m);
        Int(-((-a) % m))
  }

  function Abs(n: int): int { if n < 0 then -n else n }

  /** `x` and its remainder differ by a multiple of `m`, in either direction. */
  lemma RemainderCongruent(x: int, m: int)
    requires m > 0
    ensures (x - x % m) % m == 0 && (-(x - x % m)) % m == 0
  {
    var q := x / m;
    assert x - x % m == m * q;
    MultipleMod(m, q);
    MultipleMod(m, -q);
    assert -(m * q) == m * -q;
  }

  lemma MultipleMod(m: int, q: int)
    requires m > 0
    ensures (m * q) % m == 0
  {
    var k := m * q;
    assert m * (k / m) + k % m == k;
    assert m * (q - k / m) == k % m;
    MultipleBounds(m, q - k / m);
  }

  /** A non-zero multiple of `m` is at least `m` in size. */
  lemma MultipleBounds(m: int, d: int)
    requires m > 0
    ensures d >= 1 ==> m * d >= m
    ensures d <= -1 ==> m * d <= -m
    ensures d == 0 ==> m * d == 0
  {
  }

  /** `handleArrowKeys`: the index focused after a key press in a list of `count` items. */
  function HandleArrowKeys(key: string, count: nat, current: int): (r: Num)
    ensures r.NaN? <==> IsNextKey(key) && count == 0
    ensures IsPreviousKey(key) ==> r == Int(if current == 0 then count - 1 else current - 1)
    ensures key == "Home" ==> r == Int(0)
    ensures key == "End" ==> r == Int(count - 1)
    ensures !IsNextKey(key) && !IsPreviousKey(key) && key != "Home" && key != "End" ==> r == Int(current)
  {
    if key == "ArrowDown" || key == "ArrowRight" then JsRem(current + 1, count)
    else if key == "ArrowUp" || key == "ArrowLeft" then Int(if current == 0 then count - 1 else current - 1)
    else if key == "Home" then Int(0)
    else if key == "End" then Int(count - 1)
    else Int(current)
  }

  predicate IsNextKey(key: string) { key == "ArrowDown" || key == "ArrowRight" }
  predicate IsPreviousKey(key: string) { key == "ArrowUp" || key == "ArrowLeft" }

  /**
   * In a non-empty list every key lands on an item: the next/previous keys
   * step with wrap-around, Home and End go to the ends, other keys stay.
   */
  lemma ArrowKeysStayInList(key: string, count: nat, current: int)
    requires 0 <= current < count
    ensures HandleArrowKeys(key, count, current).Int?
    ensures 0 <= HandleArrowKeys(key, count, current).value < count
    ensures IsNextKey(key) ==> HandleArrowKeys(key, count, current).value == (current + 1) % count
    ensures IsNextKey(key) && current == count - 1 ==> HandleArrowKeys(key, count, current).value == 0
    ensures IsPreviousKey(key) && current == 0 ==> HandleArrowKeys(key, count, current).value == count - 1
    ensures key == "Home" ==> HandleArrowKeys(key, count, current).value == 0
    ensures key == "End" ==> HandleArrowKeys(key, count, current).value == count - 1
  {
  }

  /** "Next" then "previous" (in either order) returns to the starting item. */
  lemma NextThenPreviousRoundTrip(count: nat, current: int)
    requires 0 <= current < count
    ensures HandleArrowKeys("ArrowUp", count, HandleArrowKeys("ArrowDown", count, current).value) == Int(current)
    ensures HandleArrowKeys("ArrowDown", count, HandleArrowKeys("ArrowUp", count, current).value) == Int(current)
  {
    var next := if current + 1 < count then current + 1 else 0;
    var previous := if current == 0 then count - 1 else current - 1;
    NextStep(count, current);
    PreviousStep(count, next);
    PreviousStep(count, current);
    NextStep(count, previous);
  }

  /** In a non-empty list "next" steps forward and wraps from the last item to the first. */
  lemma NextStep(count: nat, current: int)
    requires 0 <= current < count
    ensures HandleArrowKeys("ArrowDown", count, current) == Int(if current + 1 < count then current + 1 else 0)
  {
    if current + 1 < count {
      assert (current + 1) % count == current + 1;
    } else {
      assert (current + 1) % count == 0;
    }
  }

  /** "Previous" steps back and wraps from the first item to the last. */
  lemma PreviousStep(count: nat, current: int)
    ensures HandleArrowKeys("ArrowUp", count, current) == Int(if current == 0 then count - 1 else current - 1)
  {
    assert "ArrowUp" != "ArrowDown" && "ArrowUp" != "ArrowRight";
  }

  /** In an empty list "next" yields NaN, and "previous" from 0 and End yield -1. */
  lemma ArrowKeysOnEmptyList(current: int)
    ensures HandleArrowKeys("ArrowDown", 0, current) == NaN
    ensures HandleArrowKeys("ArrowUp", 0, 0) == Int(-1)
    ensures HandleArrowKeys("End", 0, current) == Int(-1)
  {
  }

  // ---------------------------------------------------------------------
  // Focus stack and focus trap
  // ---------------------------------------------------------------------

  /** `FocusManager`: the stack of elements to return focus to. */
  class FocusManager {
    var focusStack: seq<ElementId>

    constructor ()
      ensures focusStack == []
    {
      focusStack := [];
    }

    /** `saveFocus`: push the active element, unless there is none or it is the body. */
    method SaveFocus(active: Option<ElementId>, body: ElementId)
      modifies this
      ensures active.Some? && active.value != body ==> focusStack == old(focusStack) + [active.value]
      ensures active.None? || active.value == body ==> focusStack == old(focusStack)
    {
      if active.Some? && active.value != body {
        focusStack := focusStack + [active.value];
      }
    }

    /** `restoreFocus`: pop the most recently saved element and focus it, if there is one. */
    method RestoreFocus() returns (focused: Option<ElementId>)
      modifies this
      ensures old(focusStack) == [] ==> focused == None && focusStack == []
      ensures old(focusStack) != [] ==>
        && focused == Some(old(focusStack)[|old(focusStack)| - 1])
        && focusStack == old(focusStack)[..|old(focusStack)| - 1]
    {
      if focusStack == [] {
        focused := None;
      } else {
        focused := Some(focusStack[|focusStack| - 1]);
        focusStack := focusStack[..|focusStack| - 1];
      }
    }
  }

  /** Saving an element and restoring right after focuses it again and leaves the stack as it was. */
  method SaveThenRestore(m: FocusManager, active: ElementId, body: ElementId) returns (focused: Option<ElementId>)
    requires active != body
    modifies m
    ensures focused == Some(active)
    ensures m.focusStack == old(m.focusStack)
  {
    m.SaveFocus(Some(active), body);
    focused := m.RestoreFocus();
    assert m.focusStack == (old(m.focusStack) + [active])[..|old(m.focusStack)|];
  }

  /** Restores come back in the reverse order of the saves. */
  method RestoreOrder(m: FocusManager, a: ElementId, b: ElementId, body: ElementId) returns (first: Option<ElementId>, second: Option<ElementId>)
    requires a != body && b != body
    modifies m
    ensures first == Some(b) && second == Some(a)
    ensures m.focusStack == old(m.focusStack)
  {
    m.SaveFocus(Some(a), body);
    m.SaveFocus(Some(b), body);
    first := m.RestoreFocus();
    assert m.focusStack == old(m.focusStack) + [a];
    second := m.RestoreFocus();
    assert m.focusStack == (old(m.focusStack) + [a])[..|old(m.focusStack)|];
  }

  /** The element focused when a trap is set up: the first focusable one, if any. */
  function InitialFocus(focusables: seq<ElementId>): (r: Option<ElementId>)
    ensures r.Some? <==> focusables != []
    ensures r.Some? ==> r.value == focusables[0]
  {
    if focusables == [] then None else Some(focusables[0])
  }

  /**
   * `handleTabKey` of a focus trap: the element it moves focus to (and so
   * stops the browser's own move), or None when it lets the key through.
   */
  function TrapTab(focusables: seq<ElementId>, active: ElementId, key: string, shift: bool): (r: Option<ElementId>)
    ensures key != "Tab" || focusables == [] ==> r.None?
    ensures r.Some? ==> r.value in focusables && active in focusables
  {
    if key != "Tab" || focusables == [] then None
    else if shift then
      if active == focusables[0] then Some(focusables[|focusables| - 1]) else None
    else
      if active == focusables[|focusables| - 1] then Some(focusables[0]) else None
  }

  /**
   * The trap only wraps: Tab on the last element goes to the first, Shift+Tab
   * on the first goes to the last, and anywhere else the key is let through.
   */
  lemma TrapWraps(focusables: seq<ElementId>, active: ElementId, key: string, shift: bool)
    ensures var r := TrapTab(focusables, active, key, shift);
      && (r.Some? <==> (key == "Tab" && focusables != [] &&
                        (if shift then active == focusables[0] else active == focusables[|focusables| - 1])))
      && (r.Some? && shift ==> r.value == focusables[|focusables| - 1])
      && (r.Some? && !shift ==> r.value == focusables[0])
      && (r.Some? ==> r.value in focusables && active in focusables)
  {
  }

  // ---------------------------------------------------------------------
  // ARIA reference lists
  // ---------------------------------------------------------------------

  /** The new value of a reference list: the old one, a space and the id; or the id alone. */
  function AppendReference(existing: Option<string>, id: string): (r: string)
    ensures Truthy(existing) ==> r == existing.value + " " + id
    ensures !Truthy(existing) ==> r == id
    ensures |r| >= |id| && r[|r| - |id|..] == id
  {
    if Truthy(existing) then existing.value + " " + id else id
  }

  /** Adding two ids one after the other lists both in order. */
  lemma AppendTwice(existing: Option<string>, a: string, b: string)
    ensures AppendReference(Some(AppendReference(existing, a)), b) ==
      (if Truthy(existing) then existing.value + " " + a + " " + b
       else if a == "" then b
       else a + " " + b)
  {
  }

  /** An element's attributes. */
  class Element {
    var attributes: map<string, string>

    constructor (attributes: map<string, string>)
      ensures this.attributes == attributes
    {
      this.attributes := attributes;
    }

    function GetAttribute(name: string): Option<string>
      reads this
    {
      if name in attributes then Some(attributes[name]) else None
    }

    /** Appends `id` to the attribute's space-separated list, creating it when absent or empty. */
    method AddReference(name: string, id: string)
      modifies this
      ensures attributes == old(attributes)[name := AppendReference(old(GetAttribute(name)), id)]
      ensures GetAttribute(name).Some?
      ensures forall other :: other != name ==> GetAttribute(other) == old(GetAttribute(other))
    {
      var existing := GetAttribute(name);
      attributes := attributes[name := AppendReference(existing, id)];
    }

    /** `createDescribedBy`. */
    method CreateDescribedBy(descriptionId: string)
      modifies this
      ensures attributes == old(attributes)["aria-describedby" := AppendReference(old(GetAttribute("aria-describedby")), descriptionId)]
    {
      AddReference("aria-describedby", descriptionId);
    }

    /** `createLabelledBy`. */
    method CreateLabelledBy(labelId: string)
      modifies this
      ensures attributes == old(attributes)["aria-labelledby" := AppendReference(old(GetAttribute("aria-labelledby")), labelId)]
    {
      AddReference("aria-labelledby", labelId);
    }
  }

  // ---------------------------------------------------------------------
  // Hex colours
  // ---------------------------------------------------------------------

  datatype Rgb = Rgb(r: int, g: int, b: int)

  /** `[a-f\d]` under the `i` flag. */
  predicate IsHexDigit(c: char) {
    ('0' <= c <= '9') || ('a' <= c <= 'f') || ('A' <= c <= 'F')
  }

  function HexValue(c: char): (v: nat)
    requires IsHexDigit(c)
    ensures v < 16
  {
    if '0' <= c <= '9' then c as int - '0' as int
    else if 'a' <= c <= 'f' then c as int - 'a' as int + 10
    else c as int - 'A' as int + 10
  }

  predicate AllHex(s: string) {
    forall i :: 0 <= i < |s| ==> IsHexDigit(s[i])
  }

  /** `parseInt(pair, 16)` of two hex digits. */
  function ParsePair(s: string): (v: nat)
    requires |s| == 2 && AllHex(s)
    ensures v < 256
  {
    16 * HexValue(s[0]) + HexValue(s[1])
  }

  /** The six digits the pattern `^#?([a-f\d]{2}){3}$` captures, if it matches. */
  function HexDigits(hex: string): (d: Option<string>)
    ensures d.Some? ==> |d.value| == 6 && AllHex(d.value)
    ensures d.Some? <==> (|hex| == 6 && AllHex(hex)) || (|hex| == 7 && hex[0] == '#' && AllHex(hex[1..]))
  {
    if |hex| == 6 && AllHex(hex) then Some(hex)
    else if |hex| == 7 && hex[0] == '#' && AllHex(hex[1..]) then Some(hex[1..])
    else None
  }

  /** `hexToRgb`: three channels in 0..255, or None when the text is not a hex colour. */
  function HexToRgb(hex: string): (c: Option<Rgb>)
    ensures c.Some? <==> HexDigits(hex).Some?
    ensures c.Some? ==> 0 <= c.value.r < 256 && 0 <= c.value.g < 256 && 0 <= c.value.b < 256
  {
    match HexDigits(hex)
    case None => None
    case Some(d) => Some(Rgb(ParsePair(d[0..2]), ParsePair(d[2..4]), ParsePair(d[4..6])))
  }

  const LowerHexDigits: string := "0123456789abcdef"

  /** Two lower-case hex digits for a channel value. */
  function PairOf(v: nat): (s: string)
    requires v < 256
    ensures |s| == 2 && AllHex(s)
  {
    [LowerHexDigits[v / 16], LowerHexDigits[v % 16]]
  }

  lemma HexValueOfDigit(k: nat)
    requires k < 16
    ensures IsHexDigit(LowerHexDigits[k]) && HexValue(LowerHexDigits[k]) == k
  {
  }

  lemma ParsePairOf(v: nat)
    requires v < 256
    ensures ParsePair(PairOf(v)) == v
  {
    HexValueOfDigit(v / 16);
    HexValueOfDigit(v % 16);
  }

  /** The "#rrggbb" form of a colour. */
  function ToHex(c: Rgb): string
    requires 0 <= c.r < 256 && 0 <= c.g < 256 && 0 <= c.b < 256
  {
    "#" + PairOf(c.r) + PairOf(c.g) + PairOf(c.b)
  }

  /** Parsing the "#rrggbb" form of a colour gives the colour back. */
  lemma HexRoundTrip(c: Rgb)
    requires 0 <= c.r < 256 && 0 <= c.g < 256 && 0 <= c.b < 256
    ensures HexToRgb(ToHex(c)) == Some(c)
  {
    var h := ToHex(c);
    var d := h[1..];
    assert d == PairOf(c.r) + PairOf(c.g) + PairOf(c.b);
    assert AllHex(d);
    assert d[0..2] == PairOf(c.r) && d[2..4] == PairOf(c.g) && d[4..6] == PairOf(c.b);
    ParsePairOf(c.r);
    ParsePairOf(c.g);
    ParsePairOf(c.b);
  }

  /** The leading '#' is optional: with or without it the same colour is read. */
  lemma HashIsOptional(digits: string)
    requires |digits| == 6
    ensures HexToRgb("#" + digits) == HexToRgb(digits)
  {
    assert ("#" + digits)[1..] == digits;
  }
}
