/**
 * What a search finds, said over the cells of the rows alone: every occurrence
 * of the query is covered by a match, and the cells of every match spell the
 * query, upper and lower case aside.
 */
module SearchMeaning {
  import opened Search
  import opened Emulation
  import Terminal

  /** The columns below `cols` that are not the second half of a wide character, left to right. */
  ghost predicate CharacterColumns(row: Row, cols: nat, c: seq<nat>) {
    && (forall i :: 0 <= i < |c| ==> c[i] < cols && !(c[i] < |row| && row[c[i]].wideContinuation))
    && (forall i, j :: 0 <= i < j < |c| ==> c[i] < c[j])
    && (forall col :: 0 <= col < cols && !(col < |row| && row[col].wideContinuation) ==> col in c)
  }

  /** Reading a row: the first character of each such cell, or a blank if the cell is empty or the row ends before it. */
  ghost predicate Reads(row: Row, cols: nat, text: string, c: seq<nat>) {
    && CharacterColumns(row, cols, c) && |text| == |c|
    && forall i :: 0 <= i < |c| ==>
         text[i] == if c[i] < |row| && row[c[i]].contents != [] then row[c[i]].contents[0] else ' '
  }

  lemma {:induction false} TextReads(row: Row, cols: nat)
    ensures Reads(row, cols, Text(row, cols), Columns(row, cols))
  {
    ColumnsAscend(row, cols);
    TextAtColumns(row, cols);
  }

  lemma {:induction false} TextAtColumns(row: Row, n: nat)
    ensures var c := Columns(row, n);
      forall i :: 0 <= i < |c| ==>
        Text(row, n)[i] == if c[i] < |row| && row[c[i]].contents != [] then row[c[i]].contents[0] else ' '
  {
    if n > 0 { TextAtColumns(row, n - 1); }
  }

  /** Two ascending sequences with the same elements are the same. */
  lemma {:induction false} SameAscending(c: seq<nat>, d: seq<nat>)
    requires forall i, j :: 0 <= i < j < |c| ==> c[i] < c[j]
    requires forall i, j :: 0 <= i < j < |d| ==> d[i] < d[j]
    requires forall x :: x in c <==> x in d
    ensures c == d
  {
    assert |c| > 0 ==> c[0] in d;
    assert |d| > 0 ==> d[0] in c;
    if c != [] && d != [] {
      assert c[0] in d && d[0] in c;
      var i, j :| 0 <= i < |d| && d[i] == c[0] && 0 <= j < |c| && c[j] == d[0];
      assert c[0] == d[0];
      forall x
        ensures x in c[1..] <==> x in d[1..]
      {
        InRest(c, x);
        InRest(d, x);
      }
      SameAscending(c[1..], d[1..]);
    }
  }

  lemma InRest(c: seq<nat>, x: nat)
    requires c != [] && forall i, j :: 0 <= i < j < |c| ==> c[i] < c[j]
    ensures x in c[1..] <==> x in c && x != c[0]
  {
    if x in c {
      var i :| 0 <= i < |c| && c[i] == x;
      assert i > 0 ==> c[1..][i - 1] == x;
    }
  }

  /** A row can be read in one way only. */
  lemma ReadsOneWay(row: Row, cols: nat, text: string, c: seq<nat>)
    requires Reads(row, cols, text, c)
    ensures text == Text(row, cols) && c == Columns(row, cols)
  {
    TextReads(row, cols);
    var d := Columns(row, cols);
    forall x
      ensures x in c <==> x in d
    {
      if x in c {
        var i :| 0 <= i < |c| && c[i] == x;
      }
      if x in d {
        var i :| 0 <= i < |d| && d[i] == x;
      }
    }
    SameAscending(c, d);
  }

  /** From character `start` on, the text is the query, each in lower case. */
  ghost predicate SpellsAt(text: string, query: string, lower: Fold, start: nat) {
    start + |query| <= |text|
    && forall k :: 0 <= k < |query| ==> lower.lowered(text, start + k) == lower.lowered(query, k)
  }

  lemma SpellsIsOccurs(text: string, query: string, lower: Fold, start: nat)
    ensures SpellsAt(text, query, lower, start) <==> OccursAt(Lower(lower, text), Lower(lower, query), start)
  {
    if start + |query| <= |text| {
      var part, lowered := Lower(lower, text)[start..start + |query|], Lower(lower, query);
      assert forall k :: 0 <= k < |query| ==> part[k] == lower.lowered(text, start + k);
      assert forall k :: 0 <= k < |query| ==> lowered[k] == lower.lowered(query, k);
      if SpellsAt(text, query, lower, start) {
        assert part == lowered;
      }
    }
  }

  /** The cells of a span are those of an occurrence of the query: its characters, and their second halves. */
  ghost predicate Spelled(row: Row, cols: nat, query: string, lower: Fold, m: MatchSpan) {
    forall text, c :: Reads(row, cols, text, c) ==>
      exists start: nat :: Spans(text, c, query, lower, m, start)
  }

  ghost predicate Spans(text: string, c: seq<nat>, query: string, lower: Fold, m: MatchSpan, start: nat) {
    && SpellsAt(text, query, lower, start) && start < |c| && m.col == c[start]
    && forall i :: 0 <= i < |c| ==> (start <= i < start + |query| <==> m.col <= c[i] < m.col + m.len)
  }

  /** Every match is one: its cells spell the query. */
  lemma {:induction false} MatchesSpell(content: seq<Row>, n: nat, cols: nat, query: string, lower: Fold, m: MatchSpan)
    requires n <= |content| && query != [] && m in FlatSearch(content, n, cols, query, lower)
    ensures m.row < n && Spelled(content[m.row], cols, query, lower, m)
  {
    hide RowSpans, OnRow, Spelled, FlatSearch;
    FlatSearchEmpty(content, cols, query, lower);
    var before, spans := FlatSearch(content, n - 1, cols, query, lower), RowSpans(content[n - 1], cols, query, lower);
    FlatSearchStep(content, n - 1, cols, query, lower);
    if m in before {
      MatchesSpell(content, n - 1, cols, query, lower, m);
    } else {
      var i :| 0 <= i < |spans| && OnRow(n - 1, spans)[i] == m;
      SpanSpells(content[n - 1], cols, query, lower, i, n - 1);
    }
  }

  lemma FlatSearchEmpty(content: seq<Row>, cols: nat, query: string, lower: Fold)
    requires query != []
    ensures FlatSearch(content, 0, cols, query, lower) == []
  {}

  lemma SpanSpells(row: Row, cols: nat, query: string, lower: Fold, i: nat, r: nat)
    requires query != [] && i < |RowSpans(row, cols, query, lower)|
    ensures Spelled(row, cols, query, lower, OnRow(r, RowSpans(row, cols, query, lower))[i])
  {
    var starts := RowStarts(row, cols, query, lower);
    var spans := RowSpans(row, cols, query, lower);
    var m := OnRow(r, spans)[i];
    MatchesAreDisjoint(Lowered(row, cols, lower), Lower(lower, query), 0);
    StartsInRange(row, cols, query, lower);
    hide Columns, Text, MatchIndices, Spans;
    SpanCoversMatch(row, cols, starts[i], |query|);
    forall text, c | Reads(row, cols, text, c)
      ensures exists start: nat :: Spans(text, c, query, lower, m, start)
    {
      ReadsOneWay(row, cols, text, c);
      SpellsIsOccurs(text, query, lower, starts[i]);
      SpanIsSpan(text, c, query, lower, m, starts[i]);
    }
  }

  lemma SpanIsSpan(text: string, c: seq<nat>, query: string, lower: Fold, m: MatchSpan, start: nat)
    requires SpellsAt(text, query, lower, start) && start < |c| && m.col == c[start]
    requires forall k :: start <= k < start + |query| && k < |c| ==> m.col <= c[k] < m.col + m.len
    requires forall k :: 0 <= k < |c| && !(start <= k < start + |query|) ==> !(m.col <= c[k] < m.col + m.len)
    ensures Spans(text, c, query, lower, m, start)
  {}

  /** No occurrence is missed: its first character lies in a match. */
  lemma OccurrencesAreFound(content: seq<Row>, cols: nat, query: string, lower: Fold, r: nat,
                            text: string, c: seq<nat>, at: nat)
    requires r < |content| && query != [] && Reads(content[r], cols, text, c) && SpellsAt(text, query, lower, at)
    ensures at < |c|
    ensures exists m ::
      m in FlatSearch(content, |content|, cols, query, lower) && m.row == r && m.col <= c[at] < m.col + m.len
  {
    hide FlatSearch, Columns, Text;
    ReadsOneWay(content[r], cols, text, c);
    SpellsIsOccurs(text, query, lower, at);
    FlatSearchComplete(content, cols, query, lower, r, at);
  }

  // ------------------------------------------------------------- in the terminal

  /** A search of everything: the rows are those of the history, then those of the screen. */
  lemma SearchFindsExactly(vt: Vt, query: string, lower: Fold)
    requires query != []
    ensures forall m :: m in Terminal.AllMatches(vt, query, lower) ==>
      m.row < |Content(vt)| && Spelled(Content(vt)[m.row], vt.cols, query, lower, m)
    ensures forall r: nat, text, c, at: nat ::
      r < |Content(vt)| && Reads(Content(vt)[r], vt.cols, text, c) && SpellsAt(text, query, lower, at) ==>
        at < |c| && exists m ::
          m in Terminal.AllMatches(vt, query, lower) && m.row == r && m.col <= c[at] < m.col + m.len
  {
    hide FlatSearch, Spelled, Reads, SpellsAt;
    var content := Content(vt);
    forall m | m in Terminal.AllMatches(vt, query, lower)
      ensures m.row < |content| && Spelled(content[m.row], vt.cols, query, lower, m)
    {
      MatchesSpell(content, |content|, vt.cols, query, lower, m);
    }
    forall r: nat, text, c, at: nat
      | r < |content| && Reads(content[r], vt.cols, text, c) && SpellsAt(text, query, lower, at)
      ensures at < |c| && exists m ::
        m in Terminal.AllMatches(vt, query, lower) && m.row == r && m.col <= c[at] < m.col + m.len
    {
      OccurrencesAreFound(content, vt.cols, query, lower, r, text, c, at);
    }
  }

  /** The highlights are what a search of everything finds in the rows in view, counted from the top of the view. */
  lemma HighlightsAreTheMatchesInView(vt: Vt, query: string, lower: Fold)
    requires Valid(vt) && query != []
    ensures forall row: nat, col: nat, len: nat ::
      MatchSpan(row, col, len) in Terminal.VisibleMatches(vt, query, lower)
      <==> row < vt.rows && MatchSpan(Top(vt) + row, col, len) in Terminal.AllMatches(vt, query, lower)
  {
    hide Terminal.VisibleMatches, Terminal.AllMatches, Top;
    forall row: nat, col: nat, len: nat
      ensures MatchSpan(row, col, len) in Terminal.VisibleMatches(vt, query, lower)
        <==> row < vt.rows && MatchSpan(Top(vt) + row, col, len) in Terminal.AllMatches(vt, query, lower)
    {
      HighlightIsAMatchInView(vt, query, lower, MatchSpan(row, col, len));
    }
  }

  lemma HighlightIsAMatchInView(vt: Vt, query: string, lower: Fold, m: MatchSpan)
    requires Valid(vt) && query != []
    ensures m in Terminal.VisibleMatches(vt, query, lower)
      <==> m.row < vt.rows && m.(row := Top(vt) + m.row) in Terminal.AllMatches(vt, query, lower)
  {
    var content, top := Content(vt), Top(vt);
    var above, below := content[..top], content[top + vt.rows..];
    assert content == above + (Window(vt) + below);
    hide FlatSearch;
    InMiddleIff(above, Window(vt), below, vt.cols, query, lower, m);
  }

  lemma InMiddleIff(above: seq<Row>, window: seq<Row>, below: seq<Row>, cols: nat, query: string, lower: Fold, m: MatchSpan)
    requires query != []
    ensures var content := above + (window + below);
      m in FlatSearch(window, |window|, cols, query, lower)
      <==> m.row < |window| && m.(row := |above| + m.row) in FlatSearch(content, |content|, cols, query, lower)
  {
    hide FlatSearch;
    var moved := m.(row := |above| + m.row);
    InRestIff(above, window + below, cols, query, lower, moved);
    InRestIff(window, below, cols, query, lower, m);
    assert moved.(row := moved.row - |above|) == m;
    if m in FlatSearch(window, |window|, cols, query, lower) { FoundInside(window, cols, query, lower, m); }
  }

  lemma FoundInside(rows: seq<Row>, cols: nat, query: string, lower: Fold, m: MatchSpan)
    requires query != [] && m in FlatSearch(rows, |rows|, cols, query, lower)
    ensures m.row < |rows|
  {
    FlatSearchAscends(rows, |rows|, cols, query, lower);
  }

  /** A match of rows on top of others is one of the upper rows or, counted from there, one of the lower. */
  lemma InRestIff(above: seq<Row>, below: seq<Row>, cols: nat, query: string, lower: Fold, m: MatchSpan)
    requires query != []
    ensures m in FlatSearch(above + below, |above + below|, cols, query, lower)
      <==> if m.row < |above| then m in FlatSearch(above, |above|, cols, query, lower)
           else m.(row := m.row - |above|) in FlatSearch(below, |below|, cols, query, lower)
  {
    var first, second := FlatSearch(above, |above|, cols, query, lower), FlatSearch(below, |below|, cols, query, lower);
    SearchSplits(above, below, |below|, cols, query, lower);
    hide FlatSearch, Shift;
    if m in first { FoundInside(above, cols, query, lower, m); }
    InShifted(second, |above|, m);
  }

  lemma InShifted(found: seq<MatchSpan>, rows: nat, m: MatchSpan)
    ensures m in Shift(found, rows) <==> m.row >= rows && m.(row := m.row - rows) in found
  {
    if m in Shift(found, rows) {
      var i :| 0 <= i < |found| && Shift(found, rows)[i] == m;
      assert found[i] == m.(row := m.row - rows);
    }
    if m.row >= rows && m.(row := m.row - rows) in found {
      var i :| 0 <= i < |found| && found[i] == m.(row := m.row - rows);
      assert Shift(found, rows)[i] == m;
    }
  }
}
