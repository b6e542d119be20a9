/**
 * The terminal emulator as far as scrolling and searching need it: rows that
 * scrolled into the history, rows on the screen, and how far the view is
 * scrolled back. What the emulator makes of a program's bytes is arbitrary.
 */
module Emulation {
  import opened Prelude
  import opened Search

  datatype Grid = Grid(history: seq<Row>, screen: seq<Row>, offset: nat)

  /** `alt` holds the alternate screen while it is shown; that one has no history. `cap` bounds the history. */
  datatype Vt = Vt(main: Grid, alt: Option<seq<Row>>, rows: nat, cols: nat, cap: nat)

  ghost predicate Valid(vt: Vt) {
    && vt.rows > 0
    && |vt.main.screen| == vt.rows
    && (vt.alt.Some? ==> |vt.alt.value| == vt.rows)
    && vt.main.offset <= |vt.main.history| <= vt.cap
    && (vt.alt.Some? ==> vt.main.offset == 0)
  }

  function History(vt: Vt): seq<Row> { if vt.alt.Some? then [] else vt.main.history }

  function Screen(vt: Vt): seq<Row> { if vt.alt.Some? then vt.alt.value else vt.main.screen }

  function Offset(vt: Vt): nat { if vt.alt.Some? then 0 else vt.main.offset }

  /** Every row there is, oldest first; its index is the row's absolute number. */
  function Content(vt: Vt): seq<Row> { History(vt) + Screen(vt) }

  /** The emulator clamps the offset to the history it has. */
  function SetScrollback(vt: Vt, n: nat): (r: Vt)
    ensures Valid(vt) ==> Valid(r)
    ensures Content(r) == Content(vt) && History(r) == History(vt) && r.rows == vt.rows && r.cols == vt.cols
    ensures Offset(r) == Min(n, |History(vt)|) && r.alt == vt.alt && r.cap == vt.cap
  {
    if vt.alt.Some? then vt else vt.(main := vt.main.(offset := Min(n, |vt.main.history|)))
  }

  /** Absolute number of the top visible row. */
  function Top(vt: Vt): nat
    requires Valid(vt)
  {
    |History(vt)| - Offset(vt)
  }

  function Window(vt: Vt): (w: seq<Row>)
    requires Valid(vt)
    ensures |w| == vt.rows
  {
    Content(vt)[Top(vt)..Top(vt) + vt.rows]
  }

  /** The effect of some output: rows that scrolled off, the new screens, and whether a full reset came first. */
  datatype Change = Change(reset: bool, pushed: seq<Row>, screen: seq<Row>, alt: Option<seq<Row>>)

  /** A screen of exactly n rows. */
  function Fit(rows: seq<Row>, n: nat): (r: seq<Row>)
    ensures |r| == n
  {
    seq(n, i requires 0 <= i < n => if i < |rows| then rows[i] else [])
  }

  function Newest(rows: seq<Row>, cap: nat): (r: seq<Row>)
    ensures |r| == Min(|rows|, cap)
  {
    if |rows| <= cap then rows else rows[|rows| - cap..]
  }

  /**
   * A scrolled-back view moves up with each row that scrolls off, while the
   * history has room for it; showing the alternate screen drops the offset.
   */
  function Apply(vt: Vt, c: Change): (r: Vt)
    ensures Valid(vt) ==> Valid(r)
    ensures r.rows == vt.rows && r.cols == vt.cols && r.cap == vt.cap && r.alt.Some? == c.alt.Some?
  {
    var kept := if c.reset then [] else vt.main.history;
    var history := Newest(kept + c.pushed, vt.cap);
    var offset :=
      if c.reset || vt.main.offset == 0 || (c.alt.Some? && vt.alt.None?) then 0
      else Min(vt.main.offset + |c.pushed|, |history|);
    Vt(Grid(history, Fit(c.screen, vt.rows), offset),
       if c.alt.Some? then Some(Fit(c.alt.value, vt.rows)) else None,
       vt.rows, vt.cols, vt.cap)
  }

  /** Resizing rewrites the screens and leaves the history alone. */
  function SetSize(vt: Vt, rows: nat, cols: nat, screen: seq<Row>): (r: Vt)
    ensures Valid(vt) && rows > 0 ==> Valid(r)
    ensures History(r) == History(vt) && Offset(r) == Offset(vt) && r.rows == rows && r.alt.Some? == vt.alt.Some?
  {
    Vt(vt.main.(screen := Fit(screen, rows)),
       if vt.alt.Some? then Some(Fit(screen, rows)) else None, rows, cols, vt.cap)
  }
}
