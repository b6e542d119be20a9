/**
 * The tab bar: which tabs are visible in a narrow area, where the renderer puts
 * them, and which one a click hits. Widths are display columns in 16 bits; the
 * assertions on U16_MAX show that no sum the code computes overflows.
 */
module Tabs {
  import opened Prelude

  const U16_MAX: nat := 0xFFFF
  /** Bracket and ellipsis shown on a side where tabs are cut off. */
  const OVERFLOW_WIDTH: nat := 2
  /** Columns of the state dot and the blank after it. */
  const INDICATOR_WIDTH: nat := 2

  /** Lead, indicator, name, trail. */
  function TabWidth(nameWidth: nat): nat { 2 + INDICATOR_WIDTH + nameWidth }

  function Widths(names: seq<nat>): (w: seq<nat>)
    ensures |w| == |names| && forall i :: 0 <= i < |w| ==> w[i] == TabWidth(names[i])
  {
    seq(|names|, i requires 0 <= i < |names| => TabWidth(names[i]))
  }

  function Sum(w: seq<nat>): nat {
    if w == [] then 0 else w[0] + Sum(w[1..])
  }

  lemma {:induction false} SumConcat(a: seq<nat>, b: seq<nat>)
    ensures Sum(a + b) == Sum(a) + Sum(b)
  {
    if a == [] {
      assert a + b == b;
    } else {
      assert (a + b)[1..] == a[1..] + b;
      SumConcat(a[1..], b);
    }
  }

  lemma SumSplit(w: seq<nat>, lo: nat, mid: nat, hi: nat)
    requires lo <= mid <= hi <= |w|
    ensures Sum(w[lo..hi]) == Sum(w[lo..mid]) + Sum(w[mid..hi])
  {
    assert w[lo..hi] == w[lo..mid] + w[mid..hi];
    SumConcat(w[lo..mid], w[mid..hi]);
  }

  lemma SumStep(w: seq<nat>, lo: nat, hi: nat)
    requires lo <= hi < |w|
    ensures Sum(w[lo..hi + 1]) == Sum(w[lo..hi]) + w[hi]
  {
    SumSplit(w, lo, hi, hi + 1);
    assert w[hi..hi + 1] == [w[hi]];
  }

  lemma SumAtMost(w: seq<nat>, lo: nat, hi: nat)
    requires lo <= hi <= |w|
    ensures Sum(w[lo..hi]) <= Sum(w)
  {
    SumSplit(w, 0, lo, |w|);
    SumSplit(w, lo, hi, |w|);
    assert w[0..|w|] == w;
  }

  // ------------------------------------------------------------ visible range

  /** Columns that tabs [first, last) take, with a marker on each side that is cut off. */
  function Cost(w: seq<nat>, first: nat, last: nat): nat
    requires first <= last <= |w|
  {
    Sum(w[first..last])
    + (if first > 0 then OVERFLOW_WIDTH else 0)
    + (if last < |w| then OVERFLOW_WIDTH else 0)
  }

  predicate Fits(w: seq<nat>, first: nat, last: nat, area: nat)
    requires first <= last <= |w|
  {
    Cost(w, first, last) <= area
  }

  /** One round: try one tab to the right, then one to the left of what that gave. */
  function GrowOnce(w: seq<nat>, area: nat, first: nat, last: nat): (r: (nat, nat))
    requires first < last <= |w|
    ensures r.0 <= first && last <= r.1 <= |w|
  {
    var last' := if last < |w| && Fits(w, first, last + 1, area) then last + 1 else last;
    var first' := if first > 0 && Fits(w, first - 1, last', area) then first - 1 else first;
    (first', last')
  }

  function Grow(w: seq<nat>, area: nat, first: nat, last: nat): (r: (nat, nat))
    requires first < last <= |w|
    ensures r.0 <= first && last <= r.1 <= |w|
    decreases |w| - (last - first)
  {
    var r := GrowOnce(w, area, first, last);
    if r == (first, last) then r else Grow(w, area, r.0, r.1)
  }

  function Range(w: seq<nat>, selected: nat, area: nat): (r: (nat, nat))
    requires w != [] ==> selected < |w|
    ensures r.0 <= r.1 <= |w|
  {
    if Sum(w) <= area || w == [] then (0, |w|) else Grow(w, area, selected, selected + 1)
  }

  lemma {:induction false} GrowResult(w: seq<nat>, area: nat, first: nat, last: nat)
    requires first < last <= |w|
    ensures var r := Grow(w, area, first, last);
      (r == (first, last) || Fits(w, r.0, r.1, area)) && GrowOnce(w, area, r.0, r.1) == r
    decreases |w| - (last - first)
  {
    var r := GrowOnce(w, area, first, last);
    if r != (first, last) {
      GrowResult(w, area, r.0, r.1);
    }
  }

  /** A wider interval never costs less, as long as every tab is at least as wide as the marker it can remove. */
  lemma {:induction false} CostMonotone(w: seq<nat>, first: nat, last: nat, first': nat, last': nat)
    requires first' <= first <= last <= last' <= |w|
    requires forall i :: 0 <= i < |w| ==> w[i] >= OVERFLOW_WIDTH
    ensures Cost(w, first, last) <= Cost(w, first', last')
    decreases (first - first') + (last' - last)
  {
    if first' < first {
      SumSplit(w, first - 1, first, last);
      assert w[first - 1..first] == [w[first - 1]];
      CostMonotone(w, first - 1, last, first', last');
    } else if last < last' {
      SumStep(w, first, last);
      CostMonotone(w, first, last + 1, first', last');
    }
  }

  lemma StuckIsMaximal(w: seq<nat>, area: nat, first: nat, last: nat, first': nat, last': nat)
    requires first' <= first < last <= last' <= |w|
    requires forall i :: 0 <= i < |w| ==> w[i] >= OVERFLOW_WIDTH
    requires GrowOnce(w, area, first, last) == (first, last) && Fits(w, first', last', area)
    ensures (first', last') == (first, last)
  {
    if last < last' {
      CostMonotone(w, first, last + 1, first', last');
    } else if first' < first {
      CostMonotone(w, first - 1, last, first', last');
    }
  }

  /**
   * The visible range holds the selected tab; with its markers it fits the area,
   * unless it is the selected tab alone; and for real tabs, which are never
   * narrower than a marker, no larger range around it would fit.
   */
  lemma RangeIsMaximal(names: seq<nat>, selected: nat, area: nat)
    requires selected < |names|
    ensures
      var w := Widths(names);
      var (first, last) := Range(w, selected, area);
      && first <= selected < last
      && ((first, last) == (selected, selected + 1) || Fits(w, first, last, area))
      && (forall first': nat, last': nat ::
            first' <= first && last <= last' <= |w| && Fits(w, first', last', area)
            ==> (first', last') == (first, last))
  {
    var w := Widths(names);
    var (first, last) := Range(w, selected, area);
    if Sum(w) <= area {
      assert w[0..|w|] == w;
    } else {
      GrowResult(w, area, selected, selected + 1);
      forall first': nat, last': nat |
        first' <= first && last <= last' <= |w| && Fits(w, first', last', area)
        ensures (first', last') == (first, last)
      {
        StuckIsMaximal(w, area, first, last, first', last');
      }
    }
  }

  /** The sum the code tests before it takes the next tab on the right. */
  /** The right neighbour is shown if it fits beside the selected tab; it is tried before the left one. */
  lemma RightNeighbourFirst(w: seq<nat>, selected: nat, area: nat)
    requires selected + 1 < |w| && Fits(w, selected, selected + 2, area)
    ensures Range(w, selected, area).1 >= selected + 2
  {
    hide Sum;
    var r := GrowOnce(w, area, selected, selected + 1);
    assert r.1 >= selected + 2;
  }

  /** With tabs of one width, two ranges as long, cut off on both sides, cost the same. */
  lemma {:induction false} EqualWidthSum(w: seq<nat>, width: nat, lo: nat, hi: nat)
    requires lo <= hi <= |w| && forall i :: 0 <= i < |w| ==> w[i] == width
    ensures Sum(w[lo..hi]) == width * (hi - lo)
    decreases hi - lo
  {
    if lo < hi {
      EqualWidthSum(w, width, lo, hi - 1);
      SumStep(w, lo, hi - 1);
    }
  }

  /**
   * Which of the maximal ranges it is: with tabs of one width and both sides cut
   * off, the selected tab is in the middle, and if it cannot be, there is one tab
   * more to its right.
   */
  lemma SelectedIsCentred(w: seq<nat>, width: nat, selected: nat, area: nat)
    requires selected < |w| && forall i :: 0 <= i < |w| ==> w[i] == width
    requires var (first, last) := Range(w, selected, area); 0 < first && last < |w|
    ensures var (first, last) := Range(w, selected, area);
      last - 1 - selected == selected - first || last - 1 - selected == selected - first + 1
  {
    hide Sum;
    GrowsCentred(w, width, selected, area, selected, selected + 1);
  }

  lemma {:induction false} GrowsCentred(w: seq<nat>, width: nat, selected: nat, area: nat, first: nat, last: nat)
    requires first <= selected < last <= |w| && last - 1 - selected == selected - first
    requires forall i :: 0 <= i < |w| ==> w[i] == width
    requires var r := Grow(w, area, first, last); 0 < r.0 && r.1 < |w|
    ensures var r := Grow(w, area, first, last);
      r.1 - 1 - selected == selected - r.0 || r.1 - 1 - selected == selected - r.0 + 1
    decreases |w| - (last - first)
  {
    var r := GrowOnce(w, area, first, last);
    var n := last - first;
    hide Sum;
    InnerCost(w, width, first, last + 1);
    if first > 0 { InnerCost(w, width, first - 1, last); }
    if first > 0 { InnerCost(w, width, first - 1, last + 1); }
    if r != (first, last) {
      if r.1 == last + 1 && r.0 == first - 1 {
        GrowsCentred(w, width, selected, area, r.0, r.1);
      } else {
        StuckAfterRight(w, width, area, first, last);
      }
    }
  }

  /** What a range costs that is cut off on both sides. */
  lemma InnerCost(w: seq<nat>, width: nat, first: nat, last: nat)
    requires first <= last <= |w| && forall i :: 0 <= i < |w| ==> w[i] == width
    ensures Cost(w, first, last)
      == width * (last - first) + (if first > 0 then OVERFLOW_WIDTH else 0) + (if last < |w| then OVERFLOW_WIDTH else 0)
  {
    EqualWidthSum(w, width, first, last);
  }

  /** If only one side could grow it was the right one, and the range grows no further without reaching an end. */
  lemma StuckAfterRight(w: seq<nat>, width: nat, area: nat, first: nat, last: nat)
    requires first < last <= |w| && forall i :: 0 <= i < |w| ==> w[i] == width
    requires var r := GrowOnce(w, area, first, last); r != (first, last) && r != (first - 1, last + 1)
    requires var r := Grow(w, area, first, last); 0 < r.0 && r.1 < |w|
    ensures Grow(w, area, first, last) == (first, last + 1)
  {
    hide Sum;
    var r := GrowOnce(w, area, first, last);
    InnerCost(w, width, first, last + 1);
    InnerCost(w, width, first - 1, last);
    InnerCost(w, width, first - 1, last + 1);
    assert r == (first, last + 1);
    InnerCost(w, width, first, last + 2);
    assert GrowOnce(w, area, first, last + 1) == (first, last + 1);
  }

  lemma CostRight(w: seq<nat>, first: nat, last: nat)
    requires first <= last < |w|
    ensures Cost(w, first, last + 1)
      == Sum(w[first..last]) + w[last]
         + (if first > 0 then OVERFLOW_WIDTH else 0) + (if last + 1 < |w| then OVERFLOW_WIDTH else 0)
    ensures Cost(w, first, last + 1) <= Sum(w) + 2 * OVERFLOW_WIDTH
  {
    SumStep(w, first, last);
    SumAtMost(w, first, last + 1);
  }

  /** The same on the left. */
  lemma CostLeft(w: seq<nat>, first: nat, last: nat)
    requires 0 < first <= last <= |w|
    ensures Cost(w, first - 1, last)
      == Sum(w[first..last]) + w[first - 1]
         + (if first - 1 > 0 then OVERFLOW_WIDTH else 0) + (if last < |w| then OVERFLOW_WIDTH else 0)
    ensures Cost(w, first - 1, last) <= Sum(w) + 2 * OVERFLOW_WIDTH
  {
    SumSplit(w, first - 1, first, last);
    assert w[first - 1..first] == [w[first - 1]];
    SumAtMost(w, first - 1, last);
  }

  method VisibleRange(w: seq<nat>, selected: nat, area: nat) returns (first: nat, last: nat)
    requires w != [] ==> selected < |w|
    requires Sum(w) + 2 * OVERFLOW_WIDTH <= U16_MAX && area <= U16_MAX
    ensures (first, last) == Range(w, selected, area)
  {
    if Sum(w) <= area || |w| == 0 {
      return 0, |w|;
    }
    hide Sum;
    first, last := selected, selected + 1;
    var expanded := true;
    ghost var goal := Grow(w, area, first, last);
    while expanded
      invariant first < last <= |w|
      invariant Grow(w, area, first, last) == goal
      invariant !expanded ==> (first, last) == goal
      decreases |w| - (last - first), expanded
    {
      ghost var first0, last0 := first, last;
      var grown := TryRight(w, area, first, last);
      last := if grown then last + 1 else last;
      var grownLeft := TryLeft(w, area, first, last);
      first := if grownLeft then first - 1 else first;
      expanded := grown || grownLeft;
      assert (first, last) == GrowOnce(w, area, first0, last0);
    }
  }

  method TryRight(w: seq<nat>, area: nat, first: nat, last: nat) returns (fits: bool)
    requires first < last <= |w| && Sum(w) + 2 * OVERFLOW_WIDTH <= U16_MAX
    ensures fits <==> last < |w| && Fits(w, first, last + 1, area)
  {
    if last >= |w| {
      return false;
    }
    var current := Sum(w[first..last]);
    var leftCost := if first > 0 then OVERFLOW_WIDTH else 0;
    var rightCost := if last + 1 < |w| then OVERFLOW_WIDTH else 0;
    CostRight(w, first, last);
    assert current + w[last] + leftCost + rightCost <= U16_MAX;
    fits := current + w[last] + leftCost + rightCost <= area;
  }

  method TryLeft(w: seq<nat>, area: nat, first: nat, last: nat) returns (fits: bool)
    requires first < last <= |w| && Sum(w) + 2 * OVERFLOW_WIDTH <= U16_MAX
    ensures fits <==> first > 0 && Fits(w, first - 1, last, area)
  {
    if first == 0 {
      return false;
    }
    var current := Sum(w[first..last]);
    var leftCost := if first - 1 > 0 then OVERFLOW_WIDTH else 0;
    var rightCost := if last < |w| then OVERFLOW_WIDTH else 0;
    CostLeft(w, first, last);
    assert current + w[first - 1] + leftCost + rightCost <= U16_MAX;
    fits := current + w[first - 1] + leftCost + rightCost <= area;
  }

  // --------------------------------------------------------- layout and clicks

  /** The tab a rendered column belongs to; None for markers. */
  type Owner = Option<nat>

  function Repeat(owner: Owner, n: nat): (r: seq<Owner>)
    ensures |r| == n && forall k :: 0 <= k < n ==> r[k] == owner
  {
    seq(n, _ => owner)
  }

  /** The owners of the columns of tabs [i, last), left to right. */
  function TabColumns(names: seq<nat>, i: nat, last: nat): seq<Owner>
    requires i <= last <= |names|
    decreases last - i
  {
    if i == last then [] else Repeat(Some(i), TabWidth(names[i])) + TabColumns(names, i + 1, last)
  }

  lemma {:induction false} TabColumnsStep(names: seq<nat>, i: nat, last: nat)
    requires i <= last < |names|
    ensures TabColumns(names, i, last + 1) == TabColumns(names, i, last) + Repeat(Some(last), TabWidth(names[last]))
    decreases last - i
  {
    if i == last {
      assert TabColumns(names, last + 1, last + 1) == [];
    } else {
      TabColumnsStep(names, i + 1, last);
    }
  }

  /** What the renderer's pen draws, column by column, before the filler line at the end. */
  function Layout(names: seq<nat>, selected: nat, area: nat): seq<Owner>
    requires names != [] ==> selected < |names|
  {
    var (first, last) := Range(Widths(names), selected, area);
    (if first > 0 then Repeat(None, OVERFLOW_WIDTH) else [])
    + TabColumns(names, first, last)
    + (if last < |names| then Repeat(None, OVERFLOW_WIDTH) else [])
  }

  /** The renderer, as it pushes spans: each span owns as many columns as it is wide. */
  method Render(names: seq<nat>, selected: nat, area: nat) returns (columns: seq<Owner>)
    requires names != [] ==> selected < |names|
    requires Sum(Widths(names)) + 2 * OVERFLOW_WIDTH <= U16_MAX && area <= U16_MAX
    ensures columns == Layout(names, selected, area)
  {
    var first, last := VisibleRange(Widths(names), selected, area);
    hide Sum, Grow, GrowOnce;
    columns := if first > 0 then Repeat(None, 1) + Repeat(None, 1) else [];
    ghost var left: seq<Owner> := if first > 0 then Repeat(None, OVERFLOW_WIDTH) else [];
    assert columns == left;
    for i := first to last
      invariant columns == left + TabColumns(names, first, i)
    {
      columns := PushTab(columns, names[i], i);
      TabColumnsStep(names, first, i);
    }
    var right := if last < |names| then Repeat(None, 1) + Repeat(None, 1) else [];
    assert right == if last < |names| then Repeat(None, OVERFLOW_WIDTH) else [];
    columns := columns + right;
  }

  /** The four spans of one tab: edge, indicator, name, edge. */
  method PushTab(columns: seq<Owner>, nameWidth: nat, i: nat) returns (r: seq<Owner>)
    ensures r == columns + Repeat(Some(i), TabWidth(nameWidth))
  {
    r := columns + Repeat(Some(i), 1);
    r := r + Repeat(Some(i), INDICATOR_WIDTH);
    r := r + Repeat(Some(i), nameWidth);
    r := r + Repeat(Some(i), 1);
  }

  lemma {:induction false} TabColumnsLength(names: seq<nat>, i: nat, last: nat)
    requires i <= last <= |names|
    ensures |TabColumns(names, i, last)| == Sum(Widths(names)[i..last])
    decreases last - i
  {
    if i < last {
      TabColumnsLength(names, i + 1, last);
      assert Widths(names)[i..last][1..] == Widths(names)[i + 1..last];
    }
  }

  /** Column k of tabs [i, last) belongs to the tab whose columns start at or before k and end after it. */
  lemma {:induction false} TabColumnsAt(names: seq<nat>, i: nat, last: nat, tab: nat, k: nat)
    requires i <= tab < last <= |names|
    requires Sum(Widths(names)[i..tab]) <= k < Sum(Widths(names)[i..tab]) + TabWidth(names[tab])
    ensures k < |TabColumns(names, i, last)| && TabColumns(names, i, last)[k] == Some(tab)
    decreases last - i
  {
    var w := Widths(names);
    TabColumnsLength(names, i, last);
    if i < tab {
      assert w[i..tab][1..] == w[i + 1..tab];
      TabColumnsAt(names, i + 1, last, tab, k - w[i]);
    }
  }

  /** Where tab i starts on screen. */
  ghost function TabStart(names: seq<nat>, first: nat, i: nat): nat
    requires first <= i <= |names|
  {
    (if first > 0 then OVERFLOW_WIDTH else 0) + Sum(Widths(names)[first..i])
  }

  lemma LayoutAt(names: seq<nat>, selected: nat, area: nat, tab: nat, col: nat)
    requires names != [] ==> selected < |names|
    requires var (first, last) := Range(Widths(names), selected, area);
      first <= tab < last && TabStart(names, first, tab) <= col < TabStart(names, first, tab) + TabWidth(names[tab])
    ensures col < |Layout(names, selected, area)| && Layout(names, selected, area)[col] == Some(tab)
  {
    var (first, last) := Range(Widths(names), selected, area);
    TabColumnsAt(names, first, last, tab, col - TabStart(names, first, first));
  }

  lemma LayoutOutside(names: seq<nat>, selected: nat, area: nat, col: nat)
    requires names != [] ==> selected < |names|
    requires var (first, last) := Range(Widths(names), selected, area);
      col < TabStart(names, first, first) || TabStart(names, first, last) <= col < |Layout(names, selected, area)|
    ensures col < |Layout(names, selected, area)| && Layout(names, selected, area)[col] == None
  {
    var (first, last) := Range(Widths(names), selected, area);
    TabColumnsLength(names, first, last);
  }

  /**
   * Hit testing inverts the layout: a column hits tab i exactly when the
   * renderer's pen gave that column to tab i. Markers, columns past the last
   * visible tab, and tabs outside the range are never hit.
   */
  method TabIndexAtCol(names: seq<nat>, selected: nat, area: nat, col: nat) returns (hit: Option<nat>)
    requires names != [] ==> selected < |names|
    requires Sum(Widths(names)) + 2 * OVERFLOW_WIDTH <= U16_MAX && area <= U16_MAX
    ensures var columns := Layout(names, selected, area);
      hit == if col < |columns| then columns[col] else None
    ensures hit.Some? ==> hit.value < |names|
  {
    var w := Widths(names);
    var first, last := VisibleRange(w, selected, area);
    var x := if first > 0 then OVERFLOW_WIDTH else 0;
    for i := first to last
      invariant x == TabStart(names, first, i)
      invariant col < x ==> col < TabStart(names, first, first)
    {
      SumStep(w, first, i);
      SumAtMost(w, first, i + 1);
      assert x + w[i] <= U16_MAX;
      if x <= col < x + w[i] {
        LayoutAt(names, selected, area, i, col);
        return Some(i);
      }
      x := x + w[i];
    }
    if col < |Layout(names, selected, area)| {
      LayoutOutside(names, selected, area, col);
    }
    hit := None;
  }

  /** The drawn columns, markers included, are what the range was charged for; so they fit unless a lone tab does not. */
  lemma LayoutFits(names: seq<nat>, selected: nat, area: nat)
    requires selected < |names|
    ensures var (first, last) := Range(Widths(names), selected, area);
      |Layout(names, selected, area)| == Cost(Widths(names), first, last)
      && (last - first > 1 ==> |Layout(names, selected, area)| <= area)
  {
    var (first, last) := Range(Widths(names), selected, area);
    TabColumnsLength(names, first, last);
    RangeIsMaximal(names, selected, area);
  }

  /** Every visible tab can be clicked, and only there: tab i owns columns exactly when it is in the visible range. */
  lemma {:induction false} TabOwnsColumns(names: seq<nat>, from: nat, last: nat, i: nat)
    requires from <= last <= |names|
    ensures Some(i) in TabColumns(names, from, last) <==> from <= i < last
    decreases last - from
  {
    if from < last {
      TabOwnsColumns(names, from + 1, last, i);
      assert Repeat(Some(from), TabWidth(names[from]))[0] == Some(from);
    }
  }
}
