/**
 * Text search over rows of terminal cells: extracting a row's text with the
 * column of each character, non-overlapping matching, and the mapping of a
 * match back to display columns. Everything here is a computation on values.
 */
module Search {
  /** A cell's text, or the second half of a wide character. */
  datatype Cell = Cell(contents: string, wideContinuation: bool)

  /** A row may be shorter than the screen is wide: history keeps the width it had. */
  type Row = seq<Cell>

  /** Lower-casing, assumed to keep the number of characters; what becomes of one may depend on its context. */
  datatype Fold = Fold(lowered: (string, nat) -> char)

  function Lower(lower: Fold, s: string): (r: string)
    ensures |r| == |s|
  {
    seq(|s|, i requires 0 <= i < |s| => lower.lowered(s, i))
  }

  datatype ColSpan = ColSpan(col: nat, len: nat)

  datatype MatchSpan = MatchSpan(row: nat, col: nat, len: nat)

  // ----------------------------------------------------------- text of a row

  predicate IsContinuation(row: Row, col: nat) {
    col < |row| && row[col].wideContinuation
  }

  function CharAt(row: Row, col: nat): char {
    if col < |row| && row[col].contents != [] then row[col].contents[0] else ' '
  }

  /** The characters of the first n columns, skipping wide continuations. */
  function Text(row: Row, n: nat): string {
    if n == 0 then []
    else if IsContinuation(row, n - 1) then Text(row, n - 1)
    else Text(row, n - 1) + [CharAt(row, n - 1)]
  }

  /** The column of each of those characters. */
  function Columns(row: Row, n: nat): (c: seq<nat>)
    ensures |c| == |Text(row, n)|
  {
    if n == 0 then []
    else if IsContinuation(row, n - 1) then Columns(row, n - 1)
    else Columns(row, n - 1) + [n - 1]
  }

  /** The columns ascend, stay on the row, and are exactly its non-continuation cells. */
  lemma {:induction false} ColumnsAscend(row: Row, n: nat)
    ensures var c := Columns(row, n);
      && (forall i :: 0 <= i < |c| ==> c[i] < n && !IsContinuation(row, c[i]))
      && (forall i, j :: 0 <= i < j < |c| ==> c[i] < c[j])
      && (forall col :: 0 <= col < n && !IsContinuation(row, col) ==> col in c)
  {
    if n > 0 {
      ColumnsAscend(row, n - 1);
      var c, d := Columns(row, n), Columns(row, n - 1);
      if !IsContinuation(row, n - 1) {
        assert c == d + [n - 1];
        assert c[|d|] == n - 1;
        forall col | 0 <= col < n && !IsContinuation(row, col)
          ensures col in c
        {
          if col < n - 1 { assert col in d; }
        }
      }
    }
  }

  // --------------------------------------------------------------- matching

  predicate OccursAt(text: string, pat: string, at: nat) {
    at + |pat| <= |text| && text[at..at + |pat|] == pat
  }

  /** Starts of the non-overlapping occurrences, leftmost first, from position `from` on. */
  function MatchIndices(text: string, pat: string, from: nat): seq<nat>
    requires pat != []
    decreases |text| - from
  {
    if from + |pat| > |text| then []
    else if OccursAt(text, pat, from) then [from] + MatchIndices(text, pat, from + |pat|)
    else MatchIndices(text, pat, from + 1)
  }

  /** Starts at or after `from` that are occurrences, in order, and do not overlap. */
  ghost predicate Disjoint(text: string, pat: string, from: nat, m: seq<nat>) {
    && (forall i :: 0 <= i < |m| ==> from <= m[i] && m[i] + |pat| <= |text|)
    && (forall i :: 0 <= i < |m| ==> OccursAt(text, pat, m[i]))
    && (forall i, j :: 0 <= i < j < |m| ==> m[i] + |pat| <= m[j])
  }

  lemma {:induction false} MatchesAreDisjoint(text: string, pat: string, from: nat)
    requires pat != []
    ensures Disjoint(text, pat, from, MatchIndices(text, pat, from))
    decreases |text| - from
  {
    if from + |pat| <= |text| {
      if OccursAt(text, pat, from) {
        MatchesAreDisjoint(text, pat, from + |pat|);
        var rest := MatchIndices(text, pat, from + |pat|);
        assert MatchIndices(text, pat, from) == [from] + rest;
        assert Disjoint(text, pat, from, [from] + rest);
      } else {
        MatchesAreDisjoint(text, pat, from + 1);
        var rest := MatchIndices(text, pat, from + 1);
        assert MatchIndices(text, pat, from) == rest;
        assert Disjoint(text, pat, from, rest);
      }
    }
  }

  ghost predicate Covered(pat: string, m: seq<nat>, at: nat) {
    exists i :: 0 <= i < |m| && m[i] <= at < m[i] + |pat|
  }

  /** No occurrence is missed: one that is not reported overlaps a reported one to its left. */
  lemma {:induction false} MatchesAreComplete(text: string, pat: string, from: nat, at: nat)
    requires pat != [] && from <= at && OccursAt(text, pat, at)
    ensures Covered(pat, MatchIndices(text, pat, from), at)
    decreases |text| - from
  {
    if OccursAt(text, pat, from) {
      var rest := MatchIndices(text, pat, from + |pat|);
      var all := [from] + rest;
      assert MatchIndices(text, pat, from) == all;
      if at < from + |pat| {
        assert all[0] == from;
      } else {
        MatchesAreComplete(text, pat, from + |pat|, at);
        var i :| 0 <= i < |rest| && rest[i] <= at < rest[i] + |pat|;
        assert all[i + 1] == rest[i];
      }
      assert Covered(pat, all, at);
    } else {
      MatchesAreComplete(text, pat, from + 1, at);
      assert MatchIndices(text, pat, from) == MatchIndices(text, pat, from + 1);
    }
  }

  // ---------------------------------------------------------- display columns

  /** The columns of a match that starts at character `start` and is `chars` long. */
  function DisplaySpan(start: nat, chars: nat, columns: seq<nat>, cols: nat): ColSpan
    requires start < |columns|
    requires forall i, j :: 0 <= i < j < |columns| ==> columns[i] < columns[j]
    requires forall i :: 0 <= i < |columns| ==> columns[i] < cols
  {
    var end := start + chars;
    var endCol := if end < |columns| then columns[end] else cols;
    ColSpan(columns[start], if endCol >= columns[start] then endCol - columns[start] else 0)
  }

  /**
   * A match's span starts on its first character's column, has a positive
   * length, ends within the row, and covers exactly the cells of the matched
   * characters: the non-continuation columns inside it are theirs.
   */
  lemma SpanCoversMatch(row: Row, cols: nat, start: nat, chars: nat)
    requires chars > 0 && start + chars <= |Columns(row, cols)|
    ensures var c := Columns(row, cols);
      (forall i, j :: 0 <= i < j < |c| ==> c[i] < c[j]) && (forall i :: 0 <= i < |c| ==> c[i] < cols)
    ensures var c := Columns(row, cols); var span := DisplaySpan(start, chars, c, cols);
      && span.col == c[start] && span.len > 0 && span.col + span.len <= cols
      && (forall col :: span.col <= col < span.col + span.len ==>
            (IsContinuation(row, col) <==> !exists k :: start <= k < start + chars && c[k] == col))
      && (forall k :: start <= k < start + chars ==> span.col <= c[k] < span.col + span.len)
      && (forall k :: 0 <= k < |c| && !(start <= k < start + chars) ==> !(span.col <= c[k] < span.col + span.len))
  {
    ColumnsAscend(row, cols);
    hide Columns, Text;
    var c := Columns(row, cols);
    var span := DisplaySpan(start, chars, c, cols);
    forall col | span.col <= col < span.col + span.len && !IsContinuation(row, col)
      ensures exists k :: start <= k < start + chars && c[k] == col
    {
      var k :| 0 <= k < |c| && c[k] == col;
    }
  }

  /**
   * Why lower-casing must keep the number of characters: the code looks up
   * starts found in the lower-cased text in the columns of the original. That
   * lookup is in range for every query exactly when lower-casing did not make
   * the text longer.
   */
  lemma LookupInRangeIff(lowered: string, columns: nat)
    ensures (forall pat: string | pat != [] :: LooksUpInRange(lowered, pat, columns)) <==> |lowered| <= columns
  {
    if |lowered| <= columns {
      forall pat: string | pat != []
        ensures LooksUpInRange(lowered, pat, columns)
      {
        MatchesAreDisjoint(lowered, pat, 0);
      }
    } else {
      var last := |lowered| - 1;
      var pat := [lowered[last]];
      MatchesAreComplete(lowered, pat, 0, last);
      assert !LooksUpInRange(lowered, pat, columns);
    }
  }

  ghost predicate LooksUpInRange(lowered: string, pat: string, columns: nat)
    requires pat != []
  {
    var m := MatchIndices(lowered, pat, 0);
    forall i :: 0 <= i < |m| ==> m[i] < columns
  }

  // ------------------------------------------------------------ search in rows

  function Lowered(row: Row, cols: nat, lower: Fold): (s: string)
    ensures |s| == |Columns(row, cols)|
  {
    Lower(lower, Text(row, cols))
  }

  function RowStarts(row: Row, cols: nat, query: string, lower: Fold): seq<nat>
    requires query != []
  {
    MatchIndices(Lowered(row, cols, lower), Lower(lower, query), 0)
  }

  /** The span of the match that starts at one character of a row. */
  function SpanAt(row: Row, cols: nat, start: nat, chars: nat): ColSpan
    requires start < |Columns(row, cols)|
  {
    ColumnsAscend(row, cols);
    DisplaySpan(start, chars, Columns(row, cols), cols)
  }

  lemma StartsInRange(row: Row, cols: nat, query: string, lower: Fold)
    requires query != []
    ensures InRange(RowStarts(row, cols, query, lower), |Lower(lower, query)|, |Columns(row, cols)|)
  {
    MatchesAreDisjoint(Lowered(row, cols, lower), Lower(lower, query), 0);
  }

  ghost predicate InRange(starts: seq<nat>, chars: nat, limit: nat) {
    && (forall i :: 0 <= i < |starts| ==> starts[i] + chars <= limit)
    && (forall i, j :: 0 <= i < j < |starts| ==> starts[i] + chars <= starts[j])
  }

  function Spans(row: Row, cols: nat, starts: seq<nat>, chars: nat): (spans: seq<ColSpan>)
    requires forall i :: 0 <= i < |starts| ==> starts[i] < |Columns(row, cols)|
    ensures |spans| == |starts|
    ensures forall i :: 0 <= i < |starts| ==> spans[i] == SpanAt(row, cols, starts[i], chars)
  {
    seq(|starts|, i requires 0 <= i < |starts| => SpanAt(row, cols, starts[i], chars))
  }

  function RowSpans(row: Row, cols: nat, query: string, lower: Fold): (spans: seq<ColSpan>)
    requires query != []
    ensures |spans| == |RowStarts(row, cols, query, lower)|
  {
    StartsInRange(row, cols, query, lower);
    Spans(row, cols, RowStarts(row, cols, query, lower), |Lower(lower, query)|)
  }

  lemma SpansDisjoint(row: Row, cols: nat, starts: seq<nat>, n: nat)
    requires n > 0 && InRange(starts, n, |Columns(row, cols)|)
    ensures var spans := Spans(row, cols, starts, n);
      && (forall i :: 0 <= i < |spans| ==> spans[i].len > 0 && spans[i].col + spans[i].len <= cols)
      && (forall i, j :: 0 <= i < j < |spans| ==> spans[i].col + spans[i].len <= spans[j].col)
  {
    ColumnsAscend(row, cols);
    hide Columns, Text;
    var spans, c := Spans(row, cols, starts, n), Columns(row, cols);
    forall i | 0 <= i < |spans|
      ensures spans[i].len > 0 && spans[i].col + spans[i].len <= cols
    {
      SpanCoversMatch(row, cols, starts[i], n);
    }
    forall i, j | 0 <= i < j < |spans|
      ensures spans[i].col + spans[i].len <= spans[j].col
    {
      assert starts[i] + n <= starts[j];
      assert c[starts[i] + n] <= c[starts[j]];
    }
  }

  /** Within a row, spans are non-empty, on the row, and strictly left to right without overlap. */
  lemma RowSpansDisjoint(row: Row, cols: nat, query: string, lower: Fold)
    requires query != []
    ensures var spans := RowSpans(row, cols, query, lower);
      && (forall i :: 0 <= i < |spans| ==> spans[i].len > 0 && spans[i].col + spans[i].len <= cols)
      && (forall i, j :: 0 <= i < j < |spans| ==> spans[i].col + spans[i].len <= spans[j].col)
  {
    StartsInRange(row, cols, query, lower);
    SpansDisjoint(row, cols, RowStarts(row, cols, query, lower), |Lower(lower, query)|);
  }

  function OnRow(row: nat, spans: seq<ColSpan>): (m: seq<MatchSpan>)
    ensures |m| == |spans|
    ensures forall i :: 0 <= i < |m| ==> m[i] == MatchSpan(row, spans[i].col, spans[i].len)
  {
    seq(|spans|, i requires 0 <= i < |spans| => MatchSpan(row, spans[i].col, spans[i].len))
  }

  /** The reference: search each of the first n rows of the whole content by itself. */
  function FlatSearch(content: seq<Row>, n: nat, cols: nat, query: string, lower: Fold): seq<MatchSpan>
    requires n <= |content| && query != []
  {
    if n == 0 then []
    else FlatSearch(content, n - 1, cols, query, lower)
         + OnRow(n - 1, RowSpans(content[n - 1], cols, query, lower))
  }

  lemma FlatSearchStep(content: seq<Row>, n: nat, cols: nat, query: string, lower: Fold)
    requires n < |content| && query != []
    ensures FlatSearch(content, n + 1, cols, query, lower)
      == FlatSearch(content, n, cols, query, lower) + OnRow(n, RowSpans(content[n], cols, query, lower))
  {}

  predicate Before(a: MatchSpan, b: MatchSpan) {
    a.row < b.row || (a.row == b.row && a.col + a.len <= b.col)
  }

  ghost predicate Ascending(m: seq<MatchSpan>) {
    forall i, j :: 0 <= i < j < |m| ==> Before(m[i], m[j])
  }

  ghost predicate Inside(m: seq<MatchSpan>, rows: nat, cols: nat) {
    forall i :: 0 <= i < |m| ==> m[i].row < rows && m[i].len > 0 && m[i].col + m[i].len <= cols
  }

  lemma AscendAppend(before: seq<MatchSpan>, row: nat, cols: nat, spans: seq<ColSpan>)
    requires Ascending(before) && Inside(before, row, cols)
    requires forall i :: 0 <= i < |spans| ==> spans[i].len > 0 && spans[i].col + spans[i].len <= cols
    requires forall i, j :: 0 <= i < j < |spans| ==> spans[i].col + spans[i].len <= spans[j].col
    ensures Ascending(before + OnRow(row, spans)) && Inside(before + OnRow(row, spans), row + 1, cols)
  {
    var all := before + OnRow(row, spans);
    forall i, j | 0 <= i < j < |all|
      ensures Before(all[i], all[j])
    {
      if i >= |before| {
        assert spans[i - |before|].col + spans[i - |before|].len <= spans[j - |before|].col;
      }
    }
  }

  /** Search results ascend by row, then column, with disjoint non-empty spans inside the content. */
  lemma {:induction false} FlatSearchAscends(content: seq<Row>, n: nat, cols: nat, query: string, lower: Fold)
    requires n <= |content| && query != []
    ensures Ascending(FlatSearch(content, n, cols, query, lower))
    ensures Inside(FlatSearch(content, n, cols, query, lower), n, cols)
  {
    if n > 0 {
      hide FlatSearch, RowSpans, Ascending, Inside;
      FlatSearchAscends(content, n - 1, cols, query, lower);
      RowAscends(content, n - 1, cols, query, lower);
    }
  }

  lemma RowAscends(content: seq<Row>, n: nat, cols: nat, query: string, lower: Fold)
    requires n < |content| && query != []
    requires Ascending(FlatSearch(content, n, cols, query, lower)) && Inside(FlatSearch(content, n, cols, query, lower), n, cols)
    ensures Ascending(FlatSearch(content, n + 1, cols, query, lower))
    ensures Inside(FlatSearch(content, n + 1, cols, query, lower), n + 1, cols)
  {
    hide FlatSearch, RowSpans, Ascending, Inside, OnRow;
    FlatSearchStep(content, n, cols, query, lower);
    RowSpansDisjoint(content[n], cols, query, lower);
    AscendAppend(FlatSearch(content, n, cols, query, lower), n, cols, RowSpans(content[n], cols, query, lower));
  }

  lemma {:induction false} RowIncluded(content: seq<Row>, n: nat, cols: nat, query: string, lower: Fold,
                                       r: nat, m: MatchSpan)
    requires r < n <= |content| && query != []
    requires m in OnRow(r, RowSpans(content[r], cols, query, lower))
    ensures m in FlatSearch(content, n, cols, query, lower)
  {
    hide FlatSearch, RowSpans, OnRow;
    FlatSearchStep(content, n - 1, cols, query, lower);
    if r < n - 1 {
      RowIncluded(content, n - 1, cols, query, lower, r, m);
    }
  }

  /** Every occurrence of the query in any row has its first character covered by a reported match. */
  lemma FlatSearchComplete(content: seq<Row>, cols: nat, query: string, lower: Fold, r: nat, at: nat)
    requires r < |content| && query != []
    requires OccursAt(Lowered(content[r], cols, lower), Lower(lower, query), at)
    ensures at < |Columns(content[r], cols)|
    ensures exists m ::
      && m in FlatSearch(content, |content|, cols, query, lower) && m.row == r
      && m.col <= Columns(content[r], cols)[at] < m.col + m.len
  {
    hide Columns, Text, MatchIndices, FlatSearch, OnRow;
    var n := |Lower(lower, query)|;
    MatchesAreComplete(Lowered(content[r], cols, lower), Lower(lower, query), 0, at);
    StartsInRange(content[r], cols, query, lower);
    var starts := RowStarts(content[r], cols, query, lower);
    var i :| 0 <= i < |starts| && starts[i] <= at < starts[i] + n;
    SpanCoversMatch(content[r], cols, starts[i], n);
    var spans := RowSpans(content[r], cols, query, lower);
    RowIncluded(content, |content|, cols, query, lower, r, OnRow(r, spans)[i]);
  }

  /** Matches moved down by some rows. */
  function Shift(m: seq<MatchSpan>, rows: nat): (r: seq<MatchSpan>)
    ensures |r| == |m|
    ensures forall i :: 0 <= i < |m| ==> r[i] == m[i].(row := m[i].row + rows)
  {
    seq(|m|, i requires 0 <= i < |m| => m[i].(row := m[i].row + rows))
  }

  lemma ShiftAppend(m: seq<MatchSpan>, row: nat, spans: seq<ColSpan>, rows: nat)
    ensures Shift(m + OnRow(row, spans), rows) == Shift(m, rows) + OnRow(rows + row, spans)
  {}

  /** Searching rows on top of others finds what is above, then what is below, moved down. */
  lemma {:induction false} SearchSplits(above: seq<Row>, below: seq<Row>, n: nat, cols: nat, query: string, lower: Fold)
    requires n <= |below| && query != []
    ensures FlatSearch(above + below, |above| + n, cols, query, lower)
      == FlatSearch(above, |above|, cols, query, lower) + Shift(FlatSearch(below, n, cols, query, lower), |above|)
  {
    if n == 0 {
      SearchOfPrefix(above, below, |above|, cols, query, lower);
    } else {
      hide FlatSearch, Shift;
      SearchSplits(above, below, n - 1, cols, query, lower);
      SplitStep(above, below, n - 1, cols, query, lower);
    }
  }

  lemma SplitStep(above: seq<Row>, below: seq<Row>, n: nat, cols: nat, query: string, lower: Fold)
    requires n < |below| && query != []
    requires FlatSearch(above + below, |above| + n, cols, query, lower)
      == FlatSearch(above, |above|, cols, query, lower) + Shift(FlatSearch(below, n, cols, query, lower), |above|)
    ensures FlatSearch(above + below, |above| + (n + 1), cols, query, lower)
      == FlatSearch(above, |above|, cols, query, lower) + Shift(FlatSearch(below, n + 1, cols, query, lower), |above|)
  {
    hide FlatSearch, RowSpans, OnRow, Shift;
    var spans := RowSpans(below[n], cols, query, lower);
    assert (above + below)[|above| + n] == below[n];
    FlatSearchStep(above + below, |above| + n, cols, query, lower);
    FlatSearchStep(below, n, cols, query, lower);
    ShiftAppend(FlatSearch(below, n, cols, query, lower), n, spans, |above|);
  }

  lemma {:induction false} SearchOfPrefix(above: seq<Row>, below: seq<Row>, n: nat, cols: nat, query: string, lower: Fold)
    requires n <= |above| && query != []
    ensures FlatSearch(above + below, n, cols, query, lower) == FlatSearch(above, n, cols, query, lower)
  {
    if n > 0 {
      hide RowSpans;
      SearchOfPrefix(above, below, n - 1, cols, query, lower);
      assert (above + below)[n - 1] == above[n - 1];
    }
  }

  lemma ShiftTells(a: seq<MatchSpan>, b: seq<MatchSpan>, rows: nat)
    requires Shift(a, rows) == Shift(b, rows)
    ensures a == b
  {
    assert |Shift(a, rows)| == |Shift(b, rows)|;
    forall i | 0 <= i < |a|
      ensures a[i] == b[i]
    {
      assert Shift(a, rows)[i] == Shift(b, rows)[i];
    }
  }

  /** If a search tells two screens apart, it does so below any history. */
  lemma ScreensTell(above: seq<Row>, one: seq<Row>, two: seq<Row>, cols: nat, query: string, lower: Fold)
    requires query != [] && FlatSearch(one, |one|, cols, query, lower) != FlatSearch(two, |two|, cols, query, lower)
    ensures FlatSearch(above + one, |above + one|, cols, query, lower)
      != FlatSearch(above + two, |above + two|, cols, query, lower)
  {
    hide FlatSearch;
    var a, b := FlatSearch(one, |one|, cols, query, lower), FlatSearch(two, |two|, cols, query, lower);
    SearchSplits(above, one, |one|, cols, query, lower);
    SearchSplits(above, two, |two|, cols, query, lower);
    var first := FlatSearch(above, |above|, cols, query, lower);
    if first + Shift(a, |above|) == first + Shift(b, |above|) {
      SameTail(first, Shift(a, |above|), Shift(b, |above|));
      ShiftTells(a, b, |above|);
    }
  }

  lemma SameTail(head: seq<MatchSpan>, a: seq<MatchSpan>, b: seq<MatchSpan>)
    requires head + a == head + b
    ensures a == b
  {
    assert (head + a)[|head|..] == a;
    assert (head + b)[|head|..] == b;
  }
}
