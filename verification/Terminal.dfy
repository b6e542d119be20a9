/**
 * A process's terminal: the emulator plus scrolling, search and the two search
 * caches. `Term` is its state as a value, with each operation as a function;
 * the class does the same in place, with the loops the program has.
 */
module Terminal {
  import opened Prelude
  import opened Search
  import opened Emulation

  /** What a scan of everything finds. */
  function AllMatches(vt: Vt, query: string, lower: Fold): seq<MatchSpan>
    requires query != []
  {
    FlatSearch(Content(vt), |Content(vt)|, vt.cols, query, lower)
  }

  /** What a scan of the visible rows finds. */
  function VisibleMatches(vt: Vt, query: string, lower: Fold): seq<MatchSpan>
    requires query != [] && Valid(vt)
  {
    FlatSearch(Window(vt), vt.rows, vt.cols, query, lower)
  }

  ghost predicate RowsAscend(m: seq<MatchSpan>) {
    forall i, j :: 0 <= i < j < |m| ==> m[i].row <= m[j].row
  }

  datatype Term = Term(
    vt: Vt,
    dirty: bool,
    allQuery: string, allMatches: seq<MatchSpan>, allTotal: nat,
    visibleQuery: string, visibleOffset: Option<nat>, visibleMatches: seq<MatchSpan>)
  {
    /** What every operation keeps: a well-formed emulator, and matches in row order. */
    ghost predicate Ok() { Valid(vt) && RowsAscend(allMatches) }

    function ScrolledBack(): bool { Offset(vt) > 0 }

    /** Output; while scrolled back the view is moved so that it stays on the same rows. */
    function Process(c: Change): (r: Term)
      ensures Ok() ==> r.Ok()
    {
      var after := Apply(vt, c);
      this.(vt := if Offset(vt) > 0
                  then SetScrollback(after, Offset(vt) + SatSub(|History(after)|, |History(vt)|))
                  else after,
            dirty := true)
    }

    /** Text mtack itself prints into the terminal. */
    function Banner(c: Change): (r: Term)
      ensures Ok() ==> r.Ok()
    {
      this.(vt := Apply(vt, c), dirty := true)
    }

    function Resize(rows: nat, cols: nat, screen: seq<Row>): (r: Term)
      ensures Ok() ==> r.Ok()
    {
      this.(vt := SetSize(vt, Max(rows, 1), Max(cols, 1), screen), dirty := true)
    }

    function ScrollUp(lines: nat): (r: Term)
      ensures Ok() ==> r.Ok()
    {
      if vt.alt.Some? then this else this.(vt := SetScrollback(vt, Offset(vt) + lines))
    }

    function ScrollDown(lines: nat): (r: Term)
      ensures Ok() ==> r.Ok()
    {
      if vt.alt.Some? then this else this.(vt := SetScrollback(vt, SatSub(Offset(vt), lines)))
    }

    function ScrollToBottom(): (r: Term)
      ensures Ok() ==> r.Ok()
    {
      this.(vt := SetScrollback(vt, 0))
    }

    function ScrollToTop(): (r: Term)
      ensures Ok() ==> r.Ok()
    {
      if vt.alt.Some? then this else this.(vt := SetScrollback(vt, vt.cap))
    }

    function TotalRows(): nat { |History(vt)| + vt.rows }

    /** Centres a row, as far as the history allows. */
    function ScrollToRow(row: nat): (r: Term)
      ensures Ok() ==> r.Ok()
    {
      if vt.alt.Some? then this
      else
        var max := |History(vt)|;
        this.(vt := SetScrollback(vt, Max(0, Min(max - row + vt.rows / 2, max))))
    }

    function FindVisible(query: string, lower: Fold): (r: (Term, seq<MatchSpan>))
      requires Valid(vt)
      ensures r.0.vt == vt && (Ok() ==> r.0.Ok())
    {
      if query == [] then (this, [])
      else if !dirty && visibleQuery == query && visibleOffset == Some(Offset(vt)) then (this, visibleMatches)
      else
        var m := VisibleMatches(vt, query, lower);
        (this.(visibleQuery := query, visibleOffset := Some(Offset(vt)), visibleMatches := m, dirty := false), m)
    }

    function FindAll(query: string, lower: Fold): (r: (Term, seq<MatchSpan>, nat))
      ensures r.0.vt == vt && (Ok() ==> r.0.Ok() && RowsAscend(r.1))
    {
      if query == [] then (this, [], 0)
      else if !dirty && allQuery == query then (this, allMatches, allTotal)
      else
        var m := AllMatches(vt, query, lower);
        FlatSearchAscends(Content(vt), |Content(vt)|, vt.cols, query, lower);
        (this.(allQuery := query, allMatches := m, allTotal := |Content(vt)|, dirty := false), m, |Content(vt)|)
    }
  }

  function NewTerm(rows: nat, cols: nat, cap: nat): Term {
    Term(Vt(Grid([], Fit([], rows), 0), None, rows, cols, cap), true, [], [], 0, [], None, [])
  }

  /** Scrolling moves the view over a content that stays, by as many rows as asked for as far as there are rows. */
  lemma ScrollMovesView(t: Term, lines: nat)
    requires Valid(t.vt) && t.vt.alt.None?
    ensures Top(t.ScrollUp(lines).vt) == Max(Top(t.vt) - lines, 0)
    ensures Top(t.ScrollDown(lines).vt) == Min(Top(t.vt) + lines, |History(t.vt)|)
    ensures Top(t.ScrollToTop().vt) == 0 && Top(t.ScrollToBottom().vt) == |History(t.vt)|
    ensures forall r :: r in {t.ScrollUp(lines), t.ScrollDown(lines), t.ScrollToTop(), t.ScrollToBottom()} ==>
      Content(r.vt) == Content(t.vt) && r == t.(vt := r.vt)
  {}

  /** A program that has taken over the screen is not scrolled. */
  lemma AlternateScreenStays(t: Term, lines: nat)
    requires Valid(t.vt) && t.vt.alt.Some?
    ensures t.ScrollUp(lines) == t.ScrollDown(lines) == t.ScrollToTop() == t.ScrollToBottom() == t.ScrollToRow(lines) == t
  {}

  /** Scrolling up by the height shows the rows right above: none is skipped and none is shown twice. */
  lemma PagesJoin(t: Term)
    requires Valid(t.vt) && t.vt.alt.None? && Top(t.vt) >= t.vt.rows
    ensures Window(t.ScrollUp(t.vt.rows).vt) + Window(t.vt) == Content(t.vt)[Top(t.vt) - t.vt.rows..Top(t.vt) + t.vt.rows]
  {}

  /** Scrolling down undoes scrolling up exactly when neither end of the history cut the way short. */
  lemma ScrollUpUndoneIff(t: Term, lines: nat)
    requires Valid(t.vt)
    ensures t.ScrollUp(lines).ScrollDown(lines) == t
      <==> t.vt.alt.Some? || Offset(t.vt) == 0 || Offset(t.vt) + lines <= |History(t.vt)|
    ensures t.ScrollDown(lines).ScrollUp(lines) == t
      <==> t.vt.alt.Some? || lines <= Offset(t.vt) || Offset(t.vt) == |History(t.vt)| <= lines
  {}

  /** New output never moves a view that follows the screen. */
  lemma FollowsOutput(t: Term, c: Change)
    requires Valid(t.vt) && Offset(t.vt) == 0
    ensures Offset(t.Process(c).vt) == 0
  {}

  /**
   * Output that neither resets nor switches screens keeps a scrolled-back view
   * scrolled back and on the rows it showed, except for the oldest rows that a
   * full history has to drop: the view shows the rows that many further down.
   * While the history has room, every history row in view stays where it was.
   */
  lemma OutputPinsView(t: Term, c: Change, r: nat)
    requires Valid(t.vt) && t.ScrolledBack() && !c.reset && c.alt.None? && r < t.vt.rows
    ensures var after := t.Process(c);
      var scrolled := t.vt.main.history + c.pushed;
      var dropped := SatSub(|scrolled|, t.vt.cap);
      && after.ScrolledBack() && Top(after.vt) == Top(t.vt)
      && (Top(t.vt) + r + dropped < |scrolled| ==> Window(after.vt)[r] == scrolled[Top(t.vt) + r + dropped])
      && (dropped == 0 && r < Offset(t.vt) ==> Window(after.vt)[r] == Window(t.vt)[r])
  {
    var after := t.Process(c);
    var scrolled := t.vt.main.history + c.pushed;
    var dropped := SatSub(|scrolled|, t.vt.cap);
    OutputGrowsHistory(t, c);
    hide Term.Process;
    assert Window(after.vt)[r] == (scrolled[dropped..] + Screen(after.vt))[Top(t.vt) + r];
  }

  /** Scrolled-off rows join the history, which drops its oldest rows when full, and the offset grows by what it gained. */
  lemma OutputGrowsHistory(t: Term, c: Change)
    requires Valid(t.vt) && t.ScrolledBack() && !c.reset && c.alt.None?
    ensures var after := t.Process(c);
      var scrolled := t.vt.main.history + c.pushed;
      && t.vt.alt.None? && Valid(after.vt) && after.vt.rows == t.vt.rows
      && History(after.vt) == scrolled[SatSub(|scrolled|, t.vt.cap)..]
      && after.ScrolledBack() && Top(after.vt) == Top(t.vt)
  {}

  // ------------------------------------------------------------ centring a row

  /** The row that next/previous are relative to. */
  function Center(t: Term): nat { SatSub(t.TotalRows(), Offset(t.vt) + t.vt.rows / 2) }

  /**
   * The centre that a jump to a row leads to: the row itself or, for odd heights,
   * the one below it, and fixed near either end of the content.
   */
  function CenterAfter(t: Term, row: nat): nat {
    var half, max := t.vt.rows / 2, |History(t.vt)|;
    if row < half then t.vt.rows - half
    else if row <= max + half then row + t.vt.rows % 2
    else max + t.vt.rows - half
  }

  /** Scrolling to any row: a row of the content always comes into view, and where that leaves the centre. */
  lemma ScrollToRowCenters(t: Term, row: nat)
    requires Valid(t.vt) && t.vt.alt.None?
    ensures var after := t.ScrollToRow(row);
      && Content(after.vt) == Content(t.vt)
      && (row < t.TotalRows() <==> Top(after.vt) <= row < Top(after.vt) + t.vt.rows)
      && Center(after) == CenterAfter(t, row)
  {}

  /** First match strictly below a row. */
  function Next(m: seq<MatchSpan>, row: nat): (r: Option<nat>)
    ensures r.Some? ==> r.value < |m| && m[r.value].row > row && forall i :: 0 <= i < r.value ==> m[i].row <= row
    ensures r.None? ==> forall i :: 0 <= i < |m| ==> m[i].row <= row
  {
    if m == [] then None
    else if m[0].row > row then Some(0)
    else match Next(m[1..], row) case Some(i) => Some(i + 1) case None => None
  }

  /** Last match strictly above a row. */
  function Previous(m: seq<MatchSpan>, row: nat): (r: Option<nat>)
    ensures r.Some? ==> r.value < |m| && m[r.value].row < row && forall i :: r.value < i < |m| ==> m[i].row >= row
    ensures r.None? ==> forall i :: 0 <= i < |m| ==> m[i].row >= row
  {
    if m == [] then None
    else if m[|m| - 1].row < row then Some(|m| - 1)
    else Previous(m[..|m| - 1], row)
  }

  ghost predicate MatchBetween(m: seq<MatchSpan>, lo: int, hi: int) {
    exists i :: 0 <= i < |m| && lo <= m[i].row < hi
  }

  /** Two rows have the same first match below them exactly if no match lies between them. */
  lemma SameNextIff(m: seq<MatchSpan>, r: nat, center: nat)
    requires RowsAscend(m)
    ensures Next(m, center) == Next(m, r)
      <==> !MatchBetween(m, Min(r, center) + 1, Max(r, center) + 1)
  {
    hide Next;
    if MatchBetween(m, Min(r, center) + 1, Max(r, center) + 1) {
      var i :| 0 <= i < |m| && Min(r, center) + 1 <= m[i].row < Max(r, center) + 1;
    }
  }

  lemma SamePreviousIff(m: seq<MatchSpan>, r: nat, center: nat)
    requires RowsAscend(m)
    ensures Previous(m, center) == Previous(m, r)
      <==> !MatchBetween(m, Min(r, center), Max(r, center))
  {
    hide Previous;
    if MatchBetween(m, Min(r, center), Max(r, center)) {
      var i :| 0 <= i < |m| && Min(r, center) <= m[i].row < Max(r, center);
    }
  }

  /** The view can jump. The row may lie past the end of a content that has shrunk since the search. */
  ghost predicate CanJump(t: Term, m: seq<MatchSpan>) {
    Valid(t.vt) && t.vt.alt.None? && RowsAscend(m)
  }

  /**
   * After a jump to any row of any view, "next" goes to the nearest match in a
   * later row exactly when no match lies between the row and the centre that the
   * jump led to; otherwise it skips that match or goes back to it.
   */
  lemma NextIsNearestIff(t: Term, m: seq<MatchSpan>, row: nat)
    requires CanJump(t, m)
    ensures var c := CenterAfter(t, row);
      Next(m, Center(t.ScrollToRow(row))) == Next(m, row)
      <==> !MatchBetween(m, Min(row, c) + 1, Max(row, c) + 1)
  {
    hide Next, Term.ScrollToRow, Center, CenterAfter, MatchBetween;
    ScrollToRowCenters(t, row);
    SameNextIff(m, row, CenterAfter(t, row));
  }

  lemma PreviousIsNearestIff(t: Term, m: seq<MatchSpan>, row: nat)
    requires CanJump(t, m)
    ensures var c := CenterAfter(t, row);
      Previous(m, Center(t.ScrollToRow(row))) == Previous(m, row)
      <==> !MatchBetween(m, Min(row, c), Max(row, c))
  {
    hide Previous, Term.ScrollToRow, Center, CenterAfter, MatchBetween;
    ScrollToRowCenters(t, row);
    SamePreviousIff(m, row, CenterAfter(t, row));
  }

  /** From match i, both directions go to the nearest match in another row. */
  ghost predicate Navigates(t: Term, m: seq<MatchSpan>, i: nat)
    requires i < |m|
  {
    var r := m[i].row;
    var center := Center(t.ScrollToRow(r));
    Next(m, center) == Next(m, r) && Previous(m, center) == Previous(m, r)
  }

  /** Off centre, one of the directions finds match i itself again or an earlier one; on centre, both are right. */
  lemma NavigatesIffCentered(t: Term, m: seq<MatchSpan>, i: nat)
    requires i < |m| && CanJump(t, m)
    ensures Navigates(t, m, i) <==> CenterAfter(t, m[i].row) == m[i].row
  {
    var r := m[i].row;
    hide Next, Previous, Term.ScrollToRow, Center, CenterAfter, RowsAscend;
    NextIsNearestIff(t, m, r);
    PreviousIsNearestIff(t, m, r);
    var c := CenterAfter(t, r);
    if c < r {
      assert MatchBetween(m, Min(r, c) + 1, Max(r, c) + 1);
    } else if c > r {
      assert MatchBetween(m, Min(r, c), Max(r, c));
    }
  }

  /** With an even height, that is everywhere but in the first and the last half screen of the content. */
  lemma EvenHeightNavigates(t: Term, m: seq<MatchSpan>, i: nat)
    requires i < |m| && CanJump(t, m) && t.vt.rows % 2 == 0
    ensures Navigates(t, m, i) <==> t.vt.rows / 2 <= m[i].row <= |History(t.vt)| + t.vt.rows / 2
  {
    hide Navigates, RowsAscend, CenterAfter;
    NavigatesIffCentered(t, m, i);
    CenterParity(t, m[i].row);
  }

  /** Which rows a jump really centres. */
  lemma CenterParity(t: Term, row: nat)
    requires t.vt.rows > 0
    ensures var half, max := t.vt.rows / 2, |History(t.vt)|;
      && (t.vt.rows % 2 == 0 ==> (CenterAfter(t, row) == row <==> half <= row <= max + half))
      && (t.vt.rows % 2 == 1 ==> (CenterAfter(t, row) == row <==> row == max + half + 1))
      && (half <= row <= max + half ==> CenterAfter(t, row) == row + t.vt.rows % 2)
  {}

  /**
   * With an odd height it is in one row only. Where the view can be centred,
   * "next" skips a match in the very next row and "previous" finds a match in the
   * current row again, so it never moves on.
   */
  lemma OddHeightGetsStuck(t: Term, m: seq<MatchSpan>, i: nat)
    requires i < |m| && CanJump(t, m) && t.vt.rows % 2 == 1
    ensures var r, half, max := m[i].row, t.vt.rows / 2, |History(t.vt)|;
      && (Navigates(t, m, i) <==> r == max + half + 1)
      && (half <= r <= max + half ==> Skips(m, i, Center(t.ScrollToRow(r))))
  {
    var r := m[i].row;
    hide Navigates, Skips, Term.ScrollToRow, Center, CenterAfter, RowsAscend;
    NavigatesIffCentered(t, m, i);
    ScrollToRowCenters(t, r);
    CenterParity(t, r);
    OneBelow(m, i);
  }

  /** From this centre "next" skips a match right below match i, and "previous" does not leave its row. */
  ghost predicate Skips(m: seq<MatchSpan>, i: nat, center: nat)
    requires i < |m|
  {
    var r := m[i].row;
    && (Next(m, center) == Next(m, r) <==> !MatchBetween(m, r + 1, r + 2))
    && Previous(m, center).Some? && m[Previous(m, center).value].row == r
  }

  lemma OneBelow(m: seq<MatchSpan>, i: nat)
    requires RowsAscend(m) && i < |m|
    ensures Skips(m, i, m[i].row + 1)
  {
    hide Next, Previous;
    SameNextIff(m, m[i].row, m[i].row + 1);
  }

  /** The centre of the view that is scrolled back this far. */
  function CenterAt(t: Term, back: nat): nat { Center(t.(vt := SetScrollback(t.vt, back))) }

  /**
   * However the view is scrolled, "next" can lead to match j exactly if j is the
   * first match of its row, lies below the highest centre there is, and no
   * earlier match lies below the lowest one. In particular, of the matches below
   * the lowest centre only the first can ever be reached.
   */
  lemma NextReachesIff(t: Term, m: seq<MatchSpan>, j: nat)
    requires Valid(t.vt) && t.vt.alt.None? && RowsAscend(m) && j < |m|
    ensures var half, max := t.vt.rows / 2, |History(t.vt)|;
      (exists back: nat :: back <= max && Next(m, CenterAt(t, back)) == Some(j))
      <==> t.vt.rows - half < m[j].row
           && (j > 0 ==> m[j - 1].row < m[j].row && m[j - 1].row <= max + t.vt.rows - half)
  {
    var half, max := t.vt.rows / 2, |History(t.vt)|;
    hide Next;
    if t.vt.rows - half < m[j].row && (j > 0 ==> m[j - 1].row < m[j].row && m[j - 1].row <= max + t.vt.rows - half) {
      var c := Min(m[j].row - 1, max + t.vt.rows - half);
      var back := max + t.vt.rows - half - c;
      assert CenterAt(t, back) == c;
      FirstBelow(m, j, c);
    }
  }

  lemma FirstBelow(m: seq<MatchSpan>, j: nat, row: nat)
    requires RowsAscend(m) && j < |m| && row < m[j].row && (j > 0 ==> m[j - 1].row <= row)
    ensures Next(m, row) == Some(j)
  {
    hide Next;
  }

  /** The same for "previous", from the other end. */
  lemma PreviousReachesIff(t: Term, m: seq<MatchSpan>, j: nat)
    requires Valid(t.vt) && t.vt.alt.None? && RowsAscend(m) && j < |m|
    ensures var half, max := t.vt.rows / 2, |History(t.vt)|;
      (exists back: nat :: back <= max && Previous(m, CenterAt(t, back)) == Some(j))
      <==> m[j].row < max + t.vt.rows - half
           && (j + 1 < |m| ==> m[j].row < m[j + 1].row && t.vt.rows - half <= m[j + 1].row)
  {
    var half, max := t.vt.rows / 2, |History(t.vt)|;
    hide Previous;
    if m[j].row < max + t.vt.rows - half
       && (j + 1 < |m| ==> m[j].row < m[j + 1].row && t.vt.rows - half <= m[j + 1].row) {
      var c := Max(m[j].row + 1, t.vt.rows - half);
      var back := max + t.vt.rows - half - c;
      assert CenterAt(t, back) == c;
      LastAbove(m, j, c);
    }
  }

  lemma LastAbove(m: seq<MatchSpan>, j: nat, row: nat)
    requires RowsAscend(m) && j < |m| && m[j].row < row && (j + 1 < |m| ==> row <= m[j + 1].row)
    ensures Previous(m, row) == Some(j)
  {
    hide Previous;
  }

  // ----------------------------------------------------------- the search caches

  /** The all-rows cache holds what a scan would find now. */
  ghost predicate AllCurrent(t: Term, lower: Fold) {
    t.allQuery != [] ==>
      t.allMatches == AllMatches(t.vt, t.allQuery, lower) && t.allTotal == |Content(t.vt)|
  }

  /** The visible-rows cache holds what a scan at its offset would find now. */
  ghost predicate VisibleCurrent(t: Term, lower: Fold) {
    t.visibleQuery != [] && t.visibleOffset.Some? && Valid(t.vt) ==>
      t.visibleMatches == VisibleMatches(SetScrollback(t.vt, t.visibleOffset.value), t.visibleQuery, lower)
  }

  /** A finder call returns what a scan would. */
  ghost predicate AllFresh(t: Term, query: string, lower: Fold)
    requires query != []
  {
    var r := t.FindAll(query, lower);
    r.1 == AllMatches(t.vt, query, lower) && r.2 == |Content(t.vt)|
  }

  ghost predicate VisibleFresh(t: Term, query: string, lower: Fold)
    requires query != [] && Valid(t.vt)
  {
    t.FindVisible(query, lower).1 == VisibleMatches(t.vt, query, lower)
  }

  /** Everything that happens to a terminal. Scroll stands for all the ways to set the offset. */
  datatype Op =
    | Output(change: Change)
    | Banner(change: Change)
    | Resize(rows: nat, cols: nat, screen: seq<Row>)
    | Scroll(offset: nat)
    | FindVisible(query: string)
    | FindAll(query: string)

  function Step(t: Term, op: Op, lower: Fold): (r: Term)
    requires Valid(t.vt)
    ensures Valid(r.vt)
  {
    match op
    case Output(c) => t.Process(c)
    case Banner(c) => t.Banner(c)
    case Resize(rows, cols, screen) => t.Resize(rows, cols, screen)
    case Scroll(n) => t.(vt := SetScrollback(t.vt, n))
    case FindVisible(q) => t.FindVisible(q, lower).0
    case FindAll(q) => t.FindAll(q, lower).0
  }

  function Run(t: Term, ops: seq<Op>, lower: Fold): (r: Term)
    requires Valid(t.vt)
    ensures Valid(r.vt)
  {
    if ops == [] then t else Step(Run(t, ops[..|ops| - 1], lower), ops[|ops| - 1], lower)
  }

  /** The caches as the code maintains them: one flag for both, cleared by whichever finder scanned last. */
  ghost predicate CacheInv(t: Term, lower: Fold) {
    t.dirty || AllCurrent(t, lower) || VisibleCurrent(t, lower)
  }

  lemma StepKeepsCacheInv(t: Term, op: Op, lower: Fold)
    requires Valid(t.vt) && CacheInv(t, lower)
    ensures CacheInv(Step(t, op, lower), lower)
  {
    hide FlatSearch;
    var r := Step(t, op, lower);
    match op
    case Scroll(n) =>
      assert forall k :: SetScrollback(r.vt, k) == SetScrollback(t.vt, k);
    case FindVisible(q) =>
      if r != t { assert SetScrollback(t.vt, Offset(t.vt)) == t.vt; }
    case _ =>
  }

  /** In every reachable state a clean flag means that at least one cache is current. */
  lemma {:induction false} CacheInvHolds(rows: nat, cols: nat, cap: nat, ops: seq<Op>, lower: Fold)
    requires rows > 0
    ensures CacheInv(Run(NewTerm(rows, cols, cap), ops, lower), lower)
  {
    if ops != [] {
      CacheInvHolds(rows, cols, cap, ops[..|ops| - 1], lower);
      StepKeepsCacheInv(Run(NewTerm(rows, cols, cap), ops[..|ops| - 1], lower), ops[|ops| - 1], lower);
    }
  }

  predicate Mutates(op: Op) { op.Output? || op.Banner? || op.Resize? }

  datatype Finder = All | Visible

  predicate Scans(op: Op, finder: Finder) {
    match finder
    case All => op.FindAll? && op.query != []
    case Visible => op.FindVisible? && op.query != []
  }

  /** Whether the content changed during a run, and whether `finder` scanned after the last change. */
  function Track(ops: seq<Op>, finder: Finder): (r: (bool, bool)) {
    if ops == [] then (false, false)
    else
      var (changed, seen) := Track(ops[..|ops| - 1], finder);
      var op := ops[|ops| - 1];
      if Mutates(op) then (true, false) else (changed, seen || Scans(op, finder))
  }

  /** One finder took the flag from the other: the content changed, and that finder scanned after the last change. */
  predicate StolenBy(ops: seq<Op>, finder: Finder) {
    var (changed, seen) := Track(ops, finder);
    changed && seen
  }

  predicate NoFindAll(ops: seq<Op>) {
    forall i :: 0 <= i < |ops| ==> !ops[i].FindAll?
  }

  predicate NoFindVisible(ops: seq<Op>) {
    forall i :: 0 <= i < |ops| ==> !ops[i].FindVisible?
  }

  /** What one operation other than a search of everything does to that search's cache. */
  ghost predicate AllStep(t: Term, r: Term, op: Op) {
    && r.allQuery == t.allQuery && r.allMatches == t.allMatches && r.allTotal == t.allTotal
    && (!Mutates(op) ==> Content(r.vt) == Content(t.vt) && r.vt.cols == t.vt.cols)
    && r.dirty == if Mutates(op) then true else if Scans(op, Visible) then false else t.dirty
  }

  lemma StepFactsAll(t: Term, op: Op, lower: Fold)
    requires Valid(t.vt) && !op.FindAll?
    ensures AllStep(t, Step(t, op, lower), op)
  {}

  lemma {:induction false} RunFactsAll(t: Term, ops: seq<Op>, lower: Fold)
    requires Valid(t.vt) && NoFindAll(ops)
    ensures var r := Run(t, ops, lower); var (changed, seen) := Track(ops, Visible);
      && r.allQuery == t.allQuery && r.allMatches == t.allMatches && r.allTotal == t.allTotal
      && (!changed ==> Content(r.vt) == Content(t.vt) && r.vt.cols == t.vt.cols)
      && (changed ==> r.dirty == !seen)
  {
    if ops != [] {
      var n := |ops| - 1;
      RunFactsAll(t, ops[..n], lower);
      StepFactsAll(Run(t, ops[..n], lower), ops[n], lower);
    }
  }

  ghost predicate VisibleStep(t: Term, r: Term, op: Op) {
    && r.visibleQuery == t.visibleQuery && r.visibleOffset == t.visibleOffset && r.visibleMatches == t.visibleMatches
    && (!Mutates(op) ==> exists n :: r.vt == SetScrollback(t.vt, n))
    && r.dirty == if Mutates(op) then true else if Scans(op, All) then false else t.dirty
  }

  lemma StepFactsVisible(t: Term, op: Op, lower: Fold)
    requires Valid(t.vt) && !op.FindVisible?
    ensures VisibleStep(t, Step(t, op, lower), op)
  {
    assert SetScrollback(t.vt, Offset(t.vt)) == t.vt;
  }

  lemma {:induction false} RunFactsVisible(t: Term, ops: seq<Op>, lower: Fold)
    requires Valid(t.vt) && NoFindVisible(ops)
    ensures var r := Run(t, ops, lower); var (changed, seen) := Track(ops, All);
      && r.visibleQuery == t.visibleQuery && r.visibleOffset == t.visibleOffset && r.visibleMatches == t.visibleMatches
      && (!changed ==> forall k :: SetScrollback(r.vt, k) == SetScrollback(t.vt, k))
      && (changed ==> r.dirty == !seen)
  {
    if ops != [] {
      var n := |ops| - 1;
      RunFactsVisible(t, ops[..n], lower);
      StepFactsVisible(Run(t, ops[..n], lower), ops[n], lower);
    }
  }

  /** The same for the highlights: their cache can only be stale if a search of everything took the flag. */
  lemma HighlightsFreshUnlessStolen(t: Term, ops: seq<Op>, query: string, lower: Fold)
    requires Valid(t.vt) && NoFindVisible(ops) && query != []
    requires t.visibleQuery == query && VisibleCurrent(t, lower)
    ensures !StolenBy(ops, All) ==> VisibleFresh(Run(t, ops, lower), query, lower)
  {
    RunFactsVisible(t, ops, lower);
    var r := Run(t, ops, lower);
    assert SetScrollback(r.vt, Offset(r.vt)) == r.vt;
  }

  /** After a search of everything, the next one with the same query is right unless the flag was stolen in between. */
  lemma SearchFreshUnlessStolen(t: Term, ops: seq<Op>, query: string, lower: Fold)
    requires Valid(t.vt) && NoFindAll(ops) && query != []
    requires t.allQuery == query && AllCurrent(t, lower)
    ensures !StolenBy(ops, Visible) ==> AllFresh(Run(t, ops, lower), query, lower)
  {
    RunFactsAll(t, ops, lower);
  }

  /** Two operations that differ at most in what they put on the screen or into the history. */
  predicate SameKind(a: Op, b: Op) {
    a == b || (a.Output? && b.Output?) || (a.Banner? && b.Banner?)
    || (a.Resize? && b.Resize? && a.rows == b.rows && a.cols == b.cols)
  }

  /** The same run with other output, banners, and screens after resizing. */
  ghost predicate Varies(a: seq<Op>, b: seq<Op>) {
    |a| == |b| && forall i :: 0 <= i < |a| ==> SameKind(a[i], b[i])
  }

  ghost predicate SameShape(a: Vt, b: Vt) {
    a.cap == b.cap && a.rows == b.rows && a.cols == b.cols
  }

  lemma StepsShape(t: Term, u: Term, op: Op, other: Op, lower: Fold)
    requires Valid(t.vt) && Valid(u.vt) && SameShape(t.vt, u.vt) && SameKind(op, other)
    ensures SameShape(Step(t, op, lower).vt, Step(u, other, lower).vt)
    ensures Step(t, op, lower).vt.cap == t.vt.cap
  {}

  lemma {:induction false} VariantShape(t: Term, ops: seq<Op>, other: seq<Op>, lower: Fold)
    requires Valid(t.vt) && Varies(ops, other)
    ensures SameShape(Run(t, ops, lower).vt, Run(t, other, lower).vt) && Run(t, ops, lower).vt.cap == t.vt.cap
  {
    hide Step, SameKind;
    if ops != [] {
      var n := |ops| - 1;
      VariantShape(t, ops[..n], other[..n], lower);
      StepsShape(Run(t, ops[..n], lower), Run(t, other[..n], lower), ops[n], other[n], lower);
    }
  }

  lemma {:induction false} SameTrack(a: seq<Op>, b: seq<Op>, finder: Finder)
    requires Varies(a, b)
    ensures Track(a, finder) == Track(b, finder)
  {
    if a != [] { SameTrack(a[..|a| - 1], b[..|b| - 1], finder); }
  }

  lemma SameFinders(a: seq<Op>, b: seq<Op>)
    requires Varies(a, b)
    ensures NoFindAll(a) ==> NoFindAll(b)
    ensures NoFindVisible(a) ==> NoFindVisible(b)
  {}

  /** The cache of the search of everything after a run during which its flag was stolen. */
  lemma StolenCache(t: Term, ops: seq<Op>, other: seq<Op>, lower: Fold)
    requires Valid(t.vt) && NoFindAll(ops) && StolenBy(ops, Visible) && Varies(ops, other)
    ensures var r := Run(t, other, lower);
      !r.dirty && r.allQuery == t.allQuery && r.allMatches == t.allMatches && r.allTotal == t.allTotal
  {
    SameTrack(ops, other, Visible);
    SameFinders(ops, other);
    hide Run, NoFindAll, Varies, Track;
    RunFactsAll(t, other, lower);
  }

  lemma FreshOtherwise(t: Term, ops: seq<Op>, query: string, lower: Fold)
    requires Valid(t.vt) && NoFindAll(ops) && !StolenBy(ops, Visible) && query != []
    requires t.allQuery == query && AllCurrent(t, lower)
    ensures forall other :: Varies(ops, other) ==> AllFresh(Run(t, other, lower), query, lower)
  {
    forall other | Varies(ops, other)
      ensures AllFresh(Run(t, other, lower), query, lower)
    {
      SameTrack(ops, other, Visible);
      SameFinders(ops, other);
      hide Varies, Run;
      SearchFreshUnlessStolen(t, other, query, lower);
    }
  }

  // ------------------------------------------------------------------ stale matches

  function Retouched(op: Op, screen: seq<Row>): Op
    requires Mutates(op)
  {
    match op
    case Output(_) => Output(Change(true, [], screen, None))
    case Banner(_) => Banner(Change(true, [], screen, None))
    case Resize(rows, cols, _) => Resize(rows, cols, screen)
  }

  /** The run with its last change made to end in this screen. */
  function Retouch(ops: seq<Op>, screen: seq<Row>): (r: seq<Op>)
    ensures |r| == |ops|
    ensures forall i :: 0 <= i < |ops| ==> SameKind(ops[i], r[i])
  {
    if ops == [] then []
    else
      var n := |ops| - 1;
      if Mutates(ops[n]) then ops[..n] + [Retouched(ops[n], screen)] else Retouch(ops[..n], screen) + [ops[n]]
  }

  /** The history that then lies above the screen, whatever the screen. */
  function HistoryAbove(t: Term, ops: seq<Op>, lower: Fold): seq<Row>
    requires Valid(t.vt)
  {
    if ops == [] then []
    else
      var n := |ops| - 1;
      if ops[n].Resize? then History(Run(t, ops[..n], lower).vt)
      else if Mutates(ops[n]) then []
      else HistoryAbove(t, ops[..n], lower)
  }

  lemma RetouchedContent(t: Term, op: Op, screen: seq<Row>, lower: Fold)
    requires Valid(t.vt) && Mutates(op)
    ensures var r := Step(t, Retouched(op, screen), lower).vt;
      Content(r) == (if op.Resize? then History(t.vt) else []) + Fit(screen, r.rows)
  {
    assert Newest([] + [], t.vt.cap) == [];
  }

  lemma LookKeepsContent(t: Term, op: Op, lower: Fold)
    requires Valid(t.vt) && !Mutates(op)
    ensures Content(Step(t, op, lower).vt) == Content(t.vt) && Step(t, op, lower).vt.rows == t.vt.rows
  {}

  lemma {:induction false} RetouchRuns(t: Term, ops: seq<Op>, screen: seq<Row>, lower: Fold)
    requires Valid(t.vt) && Track(ops, Visible).0
    ensures var r := Run(t, Retouch(ops, screen), lower).vt;
      Content(r) == HistoryAbove(t, ops, lower) + Fit(screen, r.rows)
  {
    hide Step, Retouched, SameKind;
    var n := |ops| - 1;
    var with := Retouch(ops, screen);
    if Mutates(ops[n]) {
      assert with[..n] == ops[..n];
      RetouchedContent(Run(t, ops[..n], lower), ops[n], screen, lower);
    } else {
      assert with[..n] == Retouch(ops[..n], screen);
      RetouchRuns(t, ops[..n], screen, lower);
      LookKeepsContent(Run(t, with[..n], lower), ops[n], lower);
    }
  }

  /** The matches, if not the number of rows, are what a scan would find. */
  ghost predicate MatchesFresh(t: Term, query: string, lower: Fold)
    requires query != []
  {
    t.FindAll(query, lower).1 == AllMatches(t.vt, query, lower)
  }

  /** What a scan of a screen of this terminal's size finds. */
  function OnScreen(vt: Vt, screen: seq<Row>, query: string, lower: Fold): seq<MatchSpan>
    requires query != []
  {
    FlatSearch(Fit(screen, vt.rows), vt.rows, vt.cols, query, lower)
  }

  /** A query that, in a terminal of the size that the run ends with, finds something else in one screen than in another. */
  ghost predicate Tells(t: Term, ops: seq<Op>, query: string, lower: Fold, one: seq<Row>, two: seq<Row>)
    requires Valid(t.vt) && query != []
  {
    var vt := Run(t, ops, lower).vt;
    OnScreen(vt, one, query, lower) != OnScreen(vt, two, query, lower)
  }

  /** Ending in one screen or the other, a scan of everything finds different matches. */
  lemma RetouchesTell(t: Term, ops: seq<Op>, query: string, lower: Fold, one: seq<Row>, two: seq<Row>)
    requires Valid(t.vt) && Track(ops, Visible).0 && query != [] && Tells(t, ops, query, lower, one, two)
    ensures AllMatches(Run(t, Retouch(ops, one), lower).vt, query, lower)
      != AllMatches(Run(t, Retouch(ops, two), lower).vt, query, lower)
  {
    hide Run, Retouch, Track, FlatSearch, Fit;
    RetouchRuns(t, ops, one, lower);
    RetouchRuns(t, ops, two, lower);
    VariantShape(t, ops, Retouch(ops, one), lower);
    VariantShape(t, ops, Retouch(ops, two), lower);
    var vt := Run(t, ops, lower).vt;
    ScreensTell(HistoryAbove(t, ops, lower), Fit(one, vt.rows), Fit(two, vt.rows), vt.cols, query, lower);
  }

  /**
   * Exactly when the shared flag is safe. Take a search of everything, then any
   * mix of output, banners, resizing, scrolling and drawing with highlights, then
   * the same search, for a query that can tell two screens apart: the matches are
   * right whatever came onto the screen if and only if the flag was not stolen,
   * that is, unless a highlight scan came after the last change.
   */
  lemma SearchFreshIff(t: Term, ops: seq<Op>, query: string, lower: Fold, one: seq<Row>, two: seq<Row>)
    requires Valid(t.vt) && NoFindAll(ops) && query != []
    requires t.allQuery == query && AllCurrent(t, lower) && Tells(t, ops, query, lower, one, two)
    ensures (forall other :: Varies(ops, other) ==> MatchesFresh(Run(t, other, lower), query, lower))
      <==> !StolenBy(ops, Visible)
    ensures (forall other :: Varies(ops, other) ==> AllFresh(Run(t, other, lower), query, lower))
      <==> !StolenBy(ops, Visible)
  {
    if StolenBy(ops, Visible) {
      RetouchesTell(t, ops, query, lower, one, two);
      // The cached matches are wrong for one of the two screens.
      hide FlatSearch, Run, AllCurrent, Tells, AllMatches;
      var other := Retouch(ops, if AllMatches(Run(t, Retouch(ops, one), lower).vt, query, lower) != t.allMatches then one else two);
      assert Varies(ops, other);
      StolenCache(t, ops, other, lower);
      assert !MatchesFresh(Run(t, other, lower), query, lower) && !AllFresh(Run(t, other, lower), query, lower);
    } else {
      FreshOtherwise(t, ops, query, lower);
      hide FlatSearch, Run, AllCurrent, Tells, AllMatches;
    }
  }

  // ------------------------------------------------------------- a stale row count

  predicate Writes(op: Op) { op.Output? || op.Banner? }

  predicate NoWrites(ops: seq<Op>) {
    forall i :: 0 <= i < |ops| ==> !Writes(ops[i])
  }

  /** The run with its last writing replaced by a reset that leaves these rows of history. */
  function Rewrite(ops: seq<Op>, pushed: seq<Row>): (r: seq<Op>)
    ensures |r| == |ops|
    ensures forall i :: 0 <= i < |ops| ==> SameKind(ops[i], r[i])
  {
    if ops == [] then []
    else
      var n := |ops| - 1;
      var c := Change(true, pushed, [], None);
      if Writes(ops[n]) then ops[..n] + [if ops[n].Output? then Output(c) else Banner(c)]
      else Rewrite(ops[..n], pushed) + [ops[n]]
  }

  lemma RewrittenHistory(t: Term, c: Change)
    requires Valid(t.vt) && c.reset && c.alt.None?
    ensures |History(t.Process(c).vt)| == |History(t.Banner(c).vt)| == Min(|c.pushed|, t.vt.cap)
  {}

  lemma OthersKeepHistory(t: Term, op: Op, lower: Fold)
    requires Valid(t.vt) && !Writes(op)
    ensures |History(Step(t, op, lower).vt)| == |History(t.vt)|
  {}

  lemma {:induction false} RewriteRuns(t: Term, ops: seq<Op>, pushed: seq<Row>, lower: Fold)
    requires Valid(t.vt) && !NoWrites(ops)
    ensures |History(Run(t, Rewrite(ops, pushed), lower).vt)| == Min(|pushed|, t.vt.cap)
  {
    hide Step, SameKind, Term.Process, Term.Banner, Run, Rewrite, History;
    var n := |ops| - 1;
    var with := Rewrite(ops, pushed);
    RunLast(t, with, lower);
    RewriteLast(ops, pushed);
    if Writes(ops[n]) {
      SameKinds(ops[..n]);
      VariantShape(t, ops[..n], ops[..n], lower);
      RewrittenStep(Run(t, ops[..n], lower), with[n], lower);
    } else {
      RewriteRuns(t, ops[..n], pushed, lower);
      OthersKeepHistory(Run(t, Rewrite(ops[..n], pushed), lower), ops[n], lower);
    }
  }

  lemma RunLast(t: Term, ops: seq<Op>, lower: Fold)
    requires Valid(t.vt) && ops != []
    ensures Run(t, ops, lower) == Step(Run(t, ops[..|ops| - 1], lower), ops[|ops| - 1], lower)
  {}

  lemma RewriteLast(ops: seq<Op>, pushed: seq<Row>)
    requires ops != []
    ensures var n := |ops| - 1; var with := Rewrite(ops, pushed);
      if Writes(ops[n]) then
        with[..n] == ops[..n] && Writes(with[n]) && with[n].change == Change(true, pushed, [], None)
      else with[..n] == Rewrite(ops[..n], pushed) && with[n] == ops[n]
  {}

  lemma SameKinds(ops: seq<Op>)
    ensures Varies(ops, ops)
  {}

  lemma RewrittenStep(t: Term, op: Op, lower: Fold)
    requires Valid(t.vt) && Writes(op) && op.change.reset && op.change.alt.None?
    ensures |History(Step(t, op, lower).vt)| == Min(|op.change.pushed|, t.vt.cap)
  {
    RewrittenHistory(t, op.change);
  }

  lemma {:induction false} NoWritesKeepHistory(t: Term, ops: seq<Op>, lower: Fold)
    requires Valid(t.vt) && NoWrites(ops)
    ensures |History(Run(t, ops, lower).vt)| == |History(t.vt)|
  {
    hide Step;
    if ops != [] {
      var n := |ops| - 1;
      NoWritesKeepHistory(t, ops[..n], lower);
      OthersKeepHistory(Run(t, ops[..n], lower), ops[n], lower);
    }
  }

  /** The number of rows is what a scan would find. */
  ghost predicate CountFresh(t: Term, query: string, lower: Fold)
    requires query != []
  {
    t.FindAll(query, lower).2 == |Content(t.vt)|
  }

  /** Nothing that can come onto the screen during the run changes how many rows there are in the end. */
  ghost predicate CountIsFixed(t: Term, ops: seq<Op>, lower: Fold)
    requires Valid(t.vt)
  {
    (NoWrites(ops) || t.vt.cap == 0) && Run(t, ops, lower).vt.rows == t.vt.rows
  }

  /**
   * The same for the number of rows, for every query: it is right whatever came
   * onto the screen if and only if the flag was not stolen, or nothing was written
   * that could go into a history and the height is what it was.
   */
  lemma CountFreshIff(t: Term, ops: seq<Op>, query: string, lower: Fold)
    requires Valid(t.vt) && NoFindAll(ops) && query != []
    requires t.allQuery == query && AllCurrent(t, lower)
    ensures (forall other :: Varies(ops, other) ==> CountFresh(Run(t, other, lower), query, lower))
      <==> !StolenBy(ops, Visible) || CountIsFixed(t, ops, lower)
  {
    if !StolenBy(ops, Visible) {
      FreshOtherwise(t, ops, query, lower);
      hide Run, AllMatches, AllCurrent;
    } else if CountIsFixed(t, ops, lower) {
      forall other | Varies(ops, other)
        ensures CountFresh(Run(t, other, lower), query, lower)
      {
        FixedCount(t, ops, other, lower);
        StolenCache(t, ops, other, lower);
        hide Run, AllMatches;
      }
    } else {
      CountGoesWrong(t, ops, query, lower);
    }
  }

  lemma FixedCount(t: Term, ops: seq<Op>, other: seq<Op>, lower: Fold)
    requires Valid(t.vt) && CountIsFixed(t, ops, lower) && Varies(ops, other)
    ensures |Content(Run(t, other, lower).vt)| == |Content(t.vt)|
  {
    VariantShape(t, ops, other, lower);
    if NoWrites(ops) { NoWritesKeepHistory(t, other, lower); }
    hide Run;
    RowsCount(Run(t, other, lower).vt);
    RowsCount(t.vt);
  }

  lemma RowsCount(vt: Vt)
    requires Valid(vt)
    ensures |Content(vt)| == |History(vt)| + vt.rows && |History(vt)| <= vt.cap
  {}

  lemma CountGoesWrong(t: Term, ops: seq<Op>, query: string, lower: Fold)
    requires Valid(t.vt) && NoFindAll(ops) && query != [] && StolenBy(ops, Visible)
    requires t.allQuery == query && AllCurrent(t, lower) && !CountIsFixed(t, ops, lower)
    ensures exists other :: Varies(ops, other) && !CountFresh(Run(t, other, lower), query, lower)
  {
    var vt := Run(t, ops, lower).vt;
    RowsCount(t.vt);
    if NoWrites(ops) || t.vt.cap == 0 {
      // The height alone makes the count wrong.
      StolenCache(t, ops, ops, lower);
      VariantShape(t, ops, ops, lower);
      if NoWrites(ops) { NoWritesKeepHistory(t, ops, lower); }
      hide Run, AllMatches;
      RowsCount(vt);
      assert Varies(ops, ops) && !CountFresh(Run(t, ops, lower), query, lower);
    } else {
      // Two histories of different lengths: the count is wrong for one of them.
      var other := Rewrite(ops, if t.allTotal == vt.rows then [[]] else []);
      assert Varies(ops, other);
      RewriteRuns(t, ops, if t.allTotal == vt.rows then [[]] else [], lower);
      StolenCache(t, ops, other, lower);
      VariantShape(t, ops, other, lower);
      hide Run, AllMatches;
      RowsCount(Run(t, other, lower).vt);
      assert !CountFresh(Run(t, other, lower), query, lower);
    }
  }

  // ------------------------------------------------------------- stale highlights

  function Blanks(n: nat): (r: seq<Row>)
    ensures |r| == n
  {
    seq(n, i => [])
  }

  /** Output with the same effect on the history's length, after which a view `back` rows up shows this screen. */
  function Showing(c: Change, after: Vt, back: nat, screen: seq<Row>): Change
    requires back <= |History(after)|
  {
    if c.alt.Some? then c.(alt := Some(screen))
    else
      var h := |History(after)|;
      var content := Blanks(h - back) + Fit(screen, after.rows) + Blanks(back);
      Change(true, content[..h], content[h..], None)
  }

  /** Two terminals whose views move alike. */
  ghost predicate Alike(a: Vt, b: Vt) {
    && Valid(a) && Valid(b) && SameShape(a, b)
    && Offset(a) == Offset(b) && |History(a)| == |History(b)| && a.alt.Some? == b.alt.Some?
  }

  lemma ShowingShows(t: Term, c: Change, back: nat, screen: seq<Row>)
    requires Valid(t.vt) && back <= |History(t.Process(c).vt)|
    ensures var after := t.Process(c).vt; var r := t.Process(Showing(c, after, back, screen)).vt;
      Alike(after, r) && Window(SetScrollback(r, back)) == Fit(screen, t.vt.rows)
  {
    if c.alt.None? {
      hide Term.Process, Showing, Fit, Window, SetScrollback, Alike;
      var after := t.Process(c).vt;
      ProcessShape(t, c);
      ShowingSplits(c, after, back, screen);
      ResetAlike(t, c, Showing(c, after, back, screen), back, Fit(screen, t.vt.rows));
    } else {
      ShowingOnAlternate(t, c, back, screen);
    }
  }

  lemma ResetAlike(t: Term, c: Change, d: Change, back: nat, window: seq<Row>)
    requires Valid(t.vt) && c.alt.None? && d.reset && d.alt.None?
    requires |d.pushed| == |History(t.Process(c).vt)| && |d.screen| == t.vt.rows && back <= |d.pushed|
    requires (d.pushed + d.screen)[|d.pushed| - back..|d.pushed| - back + t.vt.rows] == window
    ensures var r := t.Process(d).vt; Alike(t.Process(c).vt, r) && Window(SetScrollback(r, back)) == window
  {
    hide Term.Process;
    ProcessShape(t, c);
    ResetRows(t, d);
    ResetOffset(t, c, d);
    WindowOf(t.Process(d).vt, back);
  }

  lemma ShowingSplits(c: Change, after: Vt, back: nat, screen: seq<Row>)
    requires back <= |History(after)| && c.alt.None? && Valid(after)
    ensures var shown := Showing(c, after, back, screen); var h := |History(after)|;
      && shown.reset && shown.alt.None? && |shown.pushed| == h && |shown.screen| == after.rows
      && (shown.pushed + shown.screen)[h - back..h - back + after.rows] == Fit(screen, after.rows)
  {
    hide Fit;
    var h := |History(after)|;
    var content := Blanks(h - back) + Fit(screen, after.rows) + Blanks(back);
    assert content[..h] + content[h..] == content;
  }

  lemma WindowOf(vt: Vt, back: nat)
    requires Valid(vt) && back <= |History(vt)|
    ensures Window(SetScrollback(vt, back)) == (History(vt) + Screen(vt))[|History(vt)| - back..|History(vt)| - back + vt.rows]
  {}

  lemma ShowingOnAlternate(t: Term, c: Change, back: nat, screen: seq<Row>)
    requires Valid(t.vt) && c.alt.Some? && back == 0
    ensures var after := t.Process(c).vt; var r := t.Process(c.(alt := Some(screen))).vt;
      Alike(after, r) && Window(SetScrollback(r, back)) == Fit(screen, t.vt.rows)
  {}

  lemma ProcessShape(t: Term, c: Change)
    requires Valid(t.vt)
    ensures var r := t.Process(c).vt; SameShape(r, t.vt) && Valid(r) && |History(r)| <= t.vt.cap && r.alt.Some? == c.alt.Some?
  {}

  lemma ResetRows(t: Term, c: Change)
    requires Valid(t.vt) && c.reset && c.alt.None? && |c.pushed| <= t.vt.cap && |c.screen| == t.vt.rows
    ensures var r := t.Process(c).vt; SameShape(r, t.vt) && Valid(r) && History(r) == c.pushed && Screen(r) == c.screen && r.alt.None?
  {
    assert [] + c.pushed == c.pushed;
    assert Fit(c.screen, t.vt.rows) == c.screen;
  }

  /** How far the view ends up scrolled back depends on nothing but the length of the history that output leaves. */
  lemma ResetOffset(t: Term, c: Change, d: Change)
    requires Valid(t.vt) && c.alt.None? && d.alt.None?
    requires |History(t.Process(c).vt)| == |History(t.Process(d).vt)|
    ensures Offset(t.Process(c).vt) == Offset(t.Process(d).vt)
  {}

  /** A change with the same effect but on what a view `back` rows up shows. */
  function ShowingOp(op: Op, after: Vt, back: nat, screen: seq<Row>): (r: Op)
    requires Mutates(op) && back <= |History(after)|
    ensures SameKind(op, r)
  {
    match op
    case Output(c) => Output(Showing(c, after, back, screen))
    case Banner(c) => Banner(c.(screen := screen, alt := if c.alt.Some? then Some(screen) else None))
    case Resize(rows, cols, _) => Resize(rows, cols, screen)
  }

  /** The kind of the last change. */
  function LastChange(ops: seq<Op>): Option<Op> {
    if ops == [] then None
    else if Mutates(ops[|ops| - 1]) then Some(ops[|ops| - 1])
    else LastChange(ops[..|ops| - 1])
  }

  /** A view can be made to show anything by what was last written, and at the bottom by any last change. */
  predicate CanShow(ops: seq<Op>, back: nat) {
    back == 0 || (LastChange(ops).Some? && LastChange(ops).value.Output?)
  }

  /** The last change replaced so that a view `back` rows up shows this screen in the end. */
  lemma {:induction false} Reshow(t: Term, ops: seq<Op>, back: nat, screen: seq<Row>, lower: Fold) returns (other: seq<Op>)
    requires Valid(t.vt) && Track(ops, All).0 && CanShow(ops, back)
    requires back <= |History(Run(t, ops, lower).vt)|
    ensures Varies(ops, other)
    ensures var vt := Run(t, ops, lower).vt; Reshown(vt, Run(t, other, lower).vt, back, Fit(screen, vt.rows))
  {
    hide Reshown, Step, ShowingOp, Alike, Fit, SameKind;
    var n := |ops| - 1;
    var before := Run(t, ops[..n], lower);
    if Mutates(ops[n]) {
      var op := ShowingOp(ops[n], Step(before, ops[n], lower).vt, back, screen);
      other := ops[..n] + [op];
      assert other[..n] == ops[..n];
      SameKinds(ops[..n]);
      ChangeReshows(before, ops[n], back, screen, lower);
    } else {
      LookKeepsHistory(before, ops[n], lower);
      var rest := Reshow(t, ops[..n], back, screen, lower);
      LookKeepsReshown(before, Run(t, rest, lower), ops[n], back, Fit(screen, before.vt.rows), lower);
      SameKinds(ops);
      other := rest + [ops[n]];
      assert other[..n] == rest;
    }
  }

  ghost predicate Reshown(a: Vt, b: Vt, back: nat, window: seq<Row>) {
    Alike(a, b) && Window(SetScrollback(b, back)) == window
  }

  lemma ChangeReshows(t: Term, op: Op, back: nat, screen: seq<Row>, lower: Fold)
    requires Valid(t.vt) && Mutates(op) && (back == 0 || op.Output?)
    requires back <= |History(Step(t, op, lower).vt)|
    ensures var after := Step(t, op, lower).vt;
      Reshown(after, Step(t, ShowingOp(op, after, back, screen), lower).vt, back, Fit(screen, after.rows))
  {
    if op.Output? {
      hide Term.Process, Showing, Alike;
      ProcessShape(t, op.change);
      ShowingShows(t, op.change, back, screen);
    } else {
      AtBottomReshows(t, op, screen, lower);
    }
  }

  lemma AtBottomReshows(t: Term, op: Op, screen: seq<Row>, lower: Fold)
    requires Valid(t.vt) && (op.Banner? || op.Resize?)
    ensures var after := Step(t, op, lower).vt;
      Reshown(after, Step(t, ShowingOp(op, after, 0, screen), lower).vt, 0, Fit(screen, after.rows))
  {}

  lemma LookKeepsHistory(a: Term, op: Op, lower: Fold)
    requires Valid(a.vt) && !Mutates(op)
    ensures |History(Step(a, op, lower).vt)| == |History(a.vt)| && Step(a, op, lower).vt.rows == a.vt.rows
  {}

  lemma LookKeepsReshown(a: Term, b: Term, op: Op, back: nat, window: seq<Row>, lower: Fold)
    requires Reshown(a.vt, b.vt, back, window) && Valid(a.vt) && Valid(b.vt) && !Mutates(op)
    ensures Reshown(Step(a, op, lower).vt, Step(b, op, lower).vt, back, window)
  {
    LookKeepsAlike(a, b, op, back, lower);
  }

  lemma LookKeepsAlike(a: Term, b: Term, op: Op, back: nat, lower: Fold)
    requires Alike(a.vt, b.vt) && !Mutates(op)
    ensures Alike(Step(a, op, lower).vt, Step(b, op, lower).vt)
    ensures SetScrollback(Step(b, op, lower).vt, back) == SetScrollback(b.vt, back)
    ensures |History(Step(a, op, lower).vt)| == |History(a.vt)|
  {
    if op.Scroll? { SetTwice(b.vt, op.offset, back); }
  }

  /**
   * The same for the highlights, for a query that can tell two screens apart.
   * After any mix of changes, scrolling and searching everything they are right
   * whatever came onto the screen if and only if the flag was not stolen by a
   * search, or no such run leads back to the offset that the cache is for. (If
   * that offset is not the bottom, the last change is taken to be output: a
   * banner or a resize need not reach the rows a scrolled-back view shows.)
   */
  lemma HighlightsFreshIff(t: Term, ops: seq<Op>, query: string, lower: Fold, one: seq<Row>, two: seq<Row>)
    requires Valid(t.vt) && NoFindVisible(ops) && query != []
    requires t.visibleQuery == query && t.visibleOffset.Some? && VisibleCurrent(t, lower)
    requires CanShow(ops, t.visibleOffset.value) && Tells(t, ops, query, lower, one, two)
    ensures (forall other :: Varies(ops, other) ==> VisibleFresh(Run(t, other, lower), query, lower))
      <==> (!StolenBy(ops, All)
            || forall other :: Varies(ops, other) ==> Offset(Run(t, other, lower).vt) != t.visibleOffset.value)
  {
    hide FlatSearch, Run, VisibleCurrent, VisibleMatches, Tells, Varies, CanShow;
    var o := t.visibleOffset.value;
    forall other | Varies(ops, other) && (!StolenBy(ops, All) || Offset(Run(t, other, lower).vt) != o)
      ensures VisibleFresh(Run(t, other, lower), query, lower)
    {
      SameTrack(ops, other, All);
      SameFinders(ops, other);
      if StolenBy(ops, All) {
        RunFactsVisible(t, other, lower);
      } else {
        HighlightsFreshUnlessStolen(t, other, query, lower);
      }
    }
    if StolenBy(ops, All) && exists other :: Varies(ops, other) && Offset(Run(t, other, lower).vt) == o {
      var led :| Varies(ops, led) && Offset(Run(t, led, lower).vt) == o;
      StaleHighlights(t, ops, led, query, lower, one, two);
    }
  }

  lemma {:induction false} SameLastChange(a: seq<Op>, b: seq<Op>, back: nat)
    requires Varies(a, b) && CanShow(a, back)
    ensures CanShow(b, back)
  {
    if a != [] && !Mutates(a[|a| - 1]) { SameLastChange(a[..|a| - 1], b[..|b| - 1], back); }
  }

  lemma VariesTwice(a: seq<Op>, b: seq<Op>, c: seq<Op>)
    requires Varies(a, b) && Varies(b, c)
    ensures Varies(a, c)
  {}

  /** A run that leads back to the cached offset, with the last change replaced by one that the cache is wrong for. */
  lemma StaleHighlights(t: Term, ops: seq<Op>, led: seq<Op>, query: string, lower: Fold, one: seq<Row>, two: seq<Row>)
    requires Valid(t.vt) && NoFindVisible(ops) && query != [] && StolenBy(ops, All)
    requires t.visibleQuery == query && t.visibleOffset.Some? && CanShow(ops, t.visibleOffset.value)
    requires Tells(t, ops, query, lower, one, two)
    requires Varies(ops, led) && Offset(Run(t, led, lower).vt) == t.visibleOffset.value
    ensures exists other :: Varies(ops, other) && !VisibleFresh(Run(t, other, lower), query, lower)
  {
    hide FlatSearch, Run, Varies, CanShow, Track;
    var o := t.visibleOffset.value;
    var final := Run(t, ops, lower).vt;
    var screen := if OnScreen(final, one, query, lower) != t.visibleMatches then one else two;
    SameTrack(ops, led, All);
    SameLastChange(ops, led, o);
    var other := Reshow(t, led, o, screen, lower);
    VariesTwice(ops, led, other);
    SameTrack(ops, other, All);
    SameFinders(ops, other);
    RunFactsVisible(t, other, lower);
    VariantShape(t, ops, led, lower);
    VariantShape(t, ops, other, lower);
    var vt := Run(t, other, lower).vt;
    assert SetScrollback(vt, Offset(vt)) == vt;
    assert VisibleMatches(vt, query, lower) == OnScreen(final, screen, query, lower);
    assert Varies(ops, other) && !VisibleFresh(Run(t, other, lower), query, lower);
  }

  /** The window arithmetic of the scan reads every absolute row, each in its own turn. */
  lemma WindowReadsRow(vt: Vt, absRow: nat)
    requires Valid(vt) && absRow < |Content(vt)|
    ensures var max := |History(vt)|; var back := SatSub(max, absRow); var row := SatSub(absRow, SatSub(max, back));
      row < vt.rows && Window(SetScrollback(vt, back))[row] == Content(vt)[absRow]
  {}

  /** `a` differs from `b` at most in its offset, and setting it to `saved` makes them equal. */
  ghost predicate SameBut(a: Vt, b: Vt, saved: nat) {
    && Valid(a) && SetScrollback(a, saved) == b
    && Content(a) == Content(b) && a.cols == b.cols && |History(a)| == |History(b)|
  }

  lemma SetTwice(vt: Vt, a: nat, b: nat)
    ensures SetScrollback(SetScrollback(vt, a), b) == SetScrollback(vt, b)
  {}

  // ------------------------------------------------------------ the terminal object

  class Terminal {
    var parser: Vt
    var searchDirty: bool
    var cachedAllQuery: string
    var cachedAllMatches: seq<MatchSpan>
    var cachedAllTotalRows: nat
    var cachedVisibleQuery: string
    var cachedVisibleScrollback: Option<nat>
    var cachedVisibleMatches: seq<MatchSpan>

    function State(): Term
      reads this
    {
      Term(parser, searchDirty, cachedAllQuery, cachedAllMatches, cachedAllTotalRows,
           cachedVisibleQuery, cachedVisibleScrollback, cachedVisibleMatches)
    }

    constructor (rows: nat, cols: nat, scrollback: nat)
      requires rows > 0
      ensures State() == NewTerm(rows, cols, scrollback) && Valid(parser)
    {
      parser := Vt(Grid([], Fit([], rows), 0), None, rows, cols, scrollback);
      searchDirty := true;
      cachedAllQuery, cachedAllMatches, cachedAllTotalRows := [], [], 0;
      cachedVisibleQuery, cachedVisibleScrollback, cachedVisibleMatches := [], None, [];
    }

    /** Scrolls as far up as it goes to learn how far that is, and back again. */
    method MaxScrollback() returns (max: nat)
      requires Valid(parser)
      modifies this`parser
      ensures max == |History(parser)| && parser == old(parser)
    {
      var saved := Offset(parser);
      parser := SetScrollback(parser, parser.cap);
      max := Offset(parser);
      parser := SetScrollback(parser, saved);
    }

    method Process(change: Change)
      requires Valid(parser)
      modifies this
      ensures Valid(parser) && State() == old(State()).Process(change)
    {
      var sb := Offset(parser);
      var maxBefore := 0;
      if sb > 0 {
        maxBefore := MaxScrollback();
      }
      parser := Apply(parser, change);
      searchDirty := true;
      if sb > 0 {
        var maxAfter := MaxScrollback();
        parser := SetScrollback(parser, sb + SatSub(maxAfter, maxBefore));
      }
    }

    method Resize(rows: nat, cols: nat, screen: seq<Row>)
      requires Valid(parser)
      modifies this
      ensures Valid(parser) && State() == old(State()).Resize(rows, cols, screen)
    {
      parser := SetSize(parser, Max(rows, 1), Max(cols, 1), screen);
      searchDirty := true;
    }

    method ScrollUp(lines: nat)
      requires Valid(parser)
      modifies this
      ensures Valid(parser) && State() == old(State()).ScrollUp(lines)
    {
      if parser.alt.Some? { return; }
      parser := SetScrollback(parser, Offset(parser) + lines);
    }

    method ScrollDown(lines: nat)
      requires Valid(parser)
      modifies this
      ensures Valid(parser) && State() == old(State()).ScrollDown(lines)
    {
      if parser.alt.Some? { return; }
      parser := SetScrollback(parser, SatSub(Offset(parser), lines));
    }

    method TotalRows() returns (n: nat)
      requires Valid(parser)
      modifies this`parser
      ensures n == State().TotalRows() && State() == old(State())
    {
      n := MaxScrollback();
      n := n + parser.rows;
    }

    method ScrollToRow(row: nat)
      requires Valid(parser)
      modifies this
      ensures Valid(parser) && State() == old(State()).ScrollToRow(row)
    {
      if parser.alt.Some? { return; }
      var max := MaxScrollback();
      parser := SetScrollback(parser, Max(0, Min(max - row + parser.rows / 2, max)));
    }

    /** The text of one visible row and the column of each of its characters. */
    method RowTextWithColumns(row: nat) returns (text: string, charToCol: seq<nat>)
      requires Valid(parser) && row < parser.rows
      ensures text == Text(Window(parser)[row], parser.cols)
      ensures charToCol == Columns(Window(parser)[row], parser.cols)
    {
      var cells := Window(parser)[row];
      text, charToCol := [], [];
      for col := 0 to parser.cols
        invariant text == Text(cells, col) && charToCol == Columns(cells, col)
      {
        if !IsContinuation(cells, col) {
          charToCol := charToCol + [col];
          text := text + [CharAt(cells, col)];
        }
      }
    }

    /** The matches in one visible row, left to right. */
    method SearchRow(row: nat, query: string, lower: Fold) returns (spans: seq<ColSpan>)
      requires Valid(parser) && row < parser.rows && query != []
      ensures spans == RowSpans(Window(parser)[row], parser.cols, query, lower)
    {
      var text, charToCol := RowTextWithColumns(row);
      var queryLower := Lower(lower, query);
      var starts := MatchIndices(Lower(lower, text), queryLower, 0);
      StartsInRange(Window(parser)[row], parser.cols, query, lower);
      spans := DisplaySpans(starts, |queryLower|, charToCol, Window(parser)[row]);
    }

    method DisplaySpans(starts: seq<nat>, chars: nat, charToCol: seq<nat>, ghost row: Row)
      returns (spans: seq<ColSpan>)
      requires charToCol == Columns(row, parser.cols)
      requires forall i :: 0 <= i < |starts| ==> starts[i] < |charToCol|
      ensures spans == Spans(row, parser.cols, starts, chars)
    {
      ColumnsAscend(row, parser.cols);
      hide Columns, Text;
      spans := [];
      for i := 0 to |starts|
        invariant spans == Spans(row, parser.cols, starts, chars)[..i]
      {
        spans := spans + [DisplaySpan(starts[i], chars, charToCol, parser.cols)];
      }
    }

    method ScanVisible(query: string, lower: Fold) returns (m: seq<MatchSpan>)
      requires Valid(parser) && query != []
      ensures m == VisibleMatches(parser, query, lower)
    {
      ghost var window := Window(parser);
      m := [];
      assert m == FlatSearch(window, 0, parser.cols, query, lower);
      hide RowSpans, FlatSearch, Window;
      for row := 0 to parser.rows
        invariant m == FlatSearch(window, row, parser.cols, query, lower)
      {
        FlatSearchStep(window, row, parser.cols, query, lower);
        var spans := SearchRow(row, query, lower);
        m := m + OnRow(row, spans);
      }
    }

    method FindVisibleMatches(query: string, lower: Fold) returns (m: seq<MatchSpan>)
      requires Valid(parser)
      modifies this
      ensures Valid(parser) && (State(), m) == old(State()).FindVisible(query, lower)
    {
      hide VisibleMatches;
      if query == [] {
        return [];
      }
      var scrollback := Offset(parser);
      if !searchDirty && cachedVisibleQuery == query && cachedVisibleScrollback == Some(scrollback) {
        return cachedVisibleMatches;
      }
      m := ScanVisible(query, lower);
      cachedVisibleQuery := query;
      cachedVisibleScrollback := Some(scrollback);
      cachedVisibleMatches := m;
      searchDirty := false;
    }

    /**
     * Searches history and screen through a window of one screen that it moves up
     * and down. The result is the flat search of all rows, and the view ends up
     * where it was.
     */
    method ScanAll(query: string, lower: Fold) returns (m: seq<MatchSpan>, totalRows: nat)
      requires Valid(parser) && query != []
      modifies this`parser
      ensures parser == old(parser)
      ensures m == AllMatches(parser, query, lower) && totalRows == |Content(parser)|
    {
      var savedScrollback := Offset(parser);
      parser := SetScrollback(parser, parser.cap);
      SetTwice(old(parser), parser.cap, savedScrollback);
      var actualScrollback := Offset(parser);
      totalRows := actualScrollback + parser.rows;
      m := ScanRows(totalRows, actualScrollback, query, lower, old(parser));
      parser := SetScrollback(parser, savedScrollback);
    }

    method ScanRows(totalRows: nat, actualScrollback: nat, query: string, lower: Fold, ghost vt: Vt)
      returns (m: seq<MatchSpan>)
      requires query != [] && SameBut(parser, vt, Offset(vt))
      requires actualScrollback == |History(parser)| && totalRows == |Content(parser)|
      modifies this`parser
      ensures SameBut(parser, vt, Offset(vt)) && m == AllMatches(vt, query, lower)
    {
      ghost var content := Content(parser);
      m := [];
      assert m == FlatSearch(content, 0, vt.cols, query, lower);
      hide RowSpans, FlatSearch;
      for absRow := 0 to totalRows
        invariant SameBut(parser, vt, Offset(vt))
        invariant m == FlatSearch(content, absRow, vt.cols, query, lower)
      {
        ghost var was := parser;
        var spans := SearchAbsRow(absRow, actualScrollback, query, lower);
        SetTwice(was, Offset(parser), Offset(vt));
        FlatSearchStep(content, absRow, vt.cols, query, lower);
        m := m + OnRow(absRow, spans);
      }
    }

    /** Moves the window so that it shows an absolute row, and searches that row. */
    method SearchAbsRow(absRow: nat, actualScrollback: nat, query: string, lower: Fold) returns (spans: seq<ColSpan>)
      requires Valid(parser) && query != []
      requires absRow < |Content(parser)| && actualScrollback == |History(parser)|
      modifies this`parser
      ensures spans == RowSpans(Content(old(parser))[absRow], old(parser).cols, query, lower)
      ensures parser == SetScrollback(old(parser), Offset(parser))
    {
      var scrollbackForRow := SatSub(actualScrollback, absRow);
      WindowReadsRow(parser, absRow);
      parser := SetScrollback(parser, scrollbackForRow);
      var screenRow := SatSub(absRow, SatSub(actualScrollback, scrollbackForRow));
      spans := SearchRow(screenRow, query, lower);
    }

    method FindAllMatches(query: string, lower: Fold) returns (m: seq<MatchSpan>, totalRows: nat)
      requires Valid(parser)
      modifies this
      ensures Valid(parser) && (State(), m, totalRows) == old(State()).FindAll(query, lower)
    {
      hide AllMatches;
      if query == [] {
        return [], 0;
      }
      if !searchDirty && cachedAllQuery == query {
        return cachedAllMatches, cachedAllTotalRows;
      }
      m, totalRows := ScanAll(query, lower);
      cachedAllQuery := query;
      cachedAllMatches := m;
      cachedAllTotalRows := totalRows;
      searchDirty := false;
    }
  }
}
