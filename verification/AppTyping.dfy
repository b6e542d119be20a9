/** What keys do, from the key to its effect: searching, moving between tabs, typing into a process, quitting. */
module AppTyping {
  import opened Prelude
  import opened App
  import opened Search
  import opened Emulation
  import opened Keys
  import AppSizes
  import Delivery
  import Process
  import Tabs
  import Terminal

  // -------------------------------------------------------------- accepting a search

  /** What an accepted search looks for: the typed query or, if nothing was typed, the last one. */
  function Wanted(s: SearchState): string {
    if s.query != [] then s.query else s.lastQuery
  }

  /** The match jumped to is the last one that is not below this row, or the last of all. */
  ghost predicate LastNotBelow(m: seq<MatchSpan>, i: nat, row: nat) {
    i < |m| &&
    if m[i].row <= row then forall j :: i < j < |m| ==> m[j].row > row
    else i == |m| - 1 && forall j :: 0 <= j < |m| ==> m[j].row > row
  }

  /**
   * An accepted search on the primary screen finds every match of the wanted
   * query in history and screen, unless a stale cache answers; it remembers the
   * query, and the view jumps to the last match not below the row after it, or
   * the last of all.
   */
  lemma AcceptFindsTheQuery(a: State, env: Env)
    requires Wf(a) && Sel(a).term.vt.alt.None?
    requires var t, q := Sel(a).term, Wanted(a.search);
      q != [] ==> t.dirty || t.allQuery != q || Terminal.AllCurrent(t, env.lower)
    ensures var b := AcceptSearch(a, env); var vt, q, m := Sel(a).term.vt, Wanted(a.search), b.search.matches;
      && b.mode.Normal? && b.search.query == q && b.search.lastQuery == q
      && m == (if q == [] then [] else Terminal.AllMatches(vt, q, env.lower))
      && (m == [] ==> b.search.current == a.search.current && Sel(b).term.vt == vt)
      && (m != [] ==>
            && b.search.current.Some? && b.search.from == a.selected
            && LastNotBelow(m, b.search.current.value, Top(vt) + vt.rows)
            && var row := m[b.search.current.value].row;
               Top(Sel(b).term.vt) <= row < Top(Sel(b).term.vt) + vt.rows)
  {
    var t, q := Sel(a).term, Wanted(a.search);
    AcceptStores(a, env);
    FindAllKeepsVt(t, q, env.lower);
    hide Terminal.AllMatches, AcceptSearch, FirstJump, Terminal.Term.FindAll, Terminal.AllCurrent, LastNotBelow, Top;
    if q != [] { JumpsToLast(t, q, env.lower); }
  }

  lemma JumpsToLast(t: Process.Term, q: string, lower: Fold)
    requires Valid(t.vt) && t.vt.alt.None? && q != []
    ensures var m := Terminal.AllMatches(t.vt, q, lower); var found := t.FindAll(q, lower).0;
      m != [] ==>
        var i := FirstJump(found, m, t.TotalRows());
        && LastNotBelow(m, i, Top(t.vt) + t.vt.rows)
        && var after := found.ScrollToRow(m[i].row).vt; Top(after) <= m[i].row < Top(after) + t.vt.rows
  {
    var m := Terminal.AllMatches(t.vt, q, lower);
    FindAllKeepsVt(t, q, lower);
    MatchesInContent(t.vt, q, lower);
    hide Terminal.AllMatches, FirstJump, Terminal.Term.FindAll, LastNotBelow, Top, Terminal.Term.ScrollToRow;
    if m != [] {
      FirstJumpIsLast(t, m);
      JumpKeepsLookups(t, t.FindAll(q, lower).0, m, m[FirstJump(t, m, t.TotalRows())].row);
    }
  }

  lemma AcceptStores(a: State, env: Env)
    requires Wf(a) && Sel(a).term.vt.alt.None?
    requires var t, q := Sel(a).term, Wanted(a.search);
      q != [] ==> t.dirty || t.allQuery != q || Terminal.AllCurrent(t, env.lower)
    ensures var b := AcceptSearch(a, env); var t, q, m := Sel(a).term, Wanted(a.search), b.search.matches;
      && b.mode.Normal? && b.search.query == q && b.search.lastQuery == q
      && m == (if q == [] then [] else Terminal.AllMatches(t.vt, q, env.lower))
      && var found := t.FindAll(q, env.lower).0;
         if m == [] then b.search.current == a.search.current && Sel(b).term == found
         else
           var i := FirstJump(found, m, t.TotalRows());
           b.search.current == Some(i) && b.search.from == a.selected && Sel(b).term == found.ScrollToRow(m[i].row)
  {
    var s := Placeholder(a.search);
    var t, q := Sel(a).term, Wanted(a.search);
    assert s.query == q;
    FindAllGives(t, q, env.lower);
    FindStores(a.(search := s), env);
    hide Terminal.Term.FindAll, FindEverywhere, FirstJump, Terminal.Term.ScrollToRow, Wf, Terminal.AllMatches;
  }

  lemma FindAllGives(t: Process.Term, q: string, lower: Fold)
    requires Valid(t.vt) && (q != [] ==> t.dirty || t.allQuery != q || Terminal.AllCurrent(t, lower))
    ensures var (found, m, total) := t.FindAll(q, lower);
      if q == [] then m == [] else m == Terminal.AllMatches(t.vt, q, lower) && total == t.TotalRows()
  {
    hide Terminal.AllMatches;
  }

  lemma FindStores(a: State, env: Env)
    requires a.selected < |a.procs| && Sel(a).term.vt.alt.None?
    ensures var (found, m, total) := Sel(a).term.FindAll(a.search.query, env.lower);
      var b := FindEverywhere(a, env);
      && b.search.matches == m && b.search.query == a.search.query && b.search.lastQuery == a.search.lastQuery
      && if m == [] then b.search.current == a.search.current && Sel(b).term == found
         else
           var i := FirstJump(found, m, total);
           b.search.current == Some(i) && b.search.from == a.selected && Sel(b).term == found.ScrollToRow(m[i].row)
  {
    hide Terminal.Term.FindAll, FirstJump, Terminal.Term.ScrollToRow, Wf;
  }

  lemma FindAllKeepsVt(t: Process.Term, q: string, lower: Fold)
    requires Valid(t.vt)
    ensures t.FindAll(q, lower).0.vt == t.vt
  {}

  lemma MatchesInContent(vt: Vt, query: string, lower: Fold)
    requires query != []
    ensures var m := Terminal.AllMatches(vt, query, lower);
      Terminal.RowsAscend(m) && forall i :: 0 <= i < |m| ==> m[i].row < |Content(vt)|
  {
    FlatSearchAscends(Content(vt), |Content(vt)|, vt.cols, query, lower);
  }

  lemma FirstJumpIsLast(t: Process.Term, m: seq<MatchSpan>)
    requires Valid(t.vt) && t.vt.alt.None? && m != [] && Terminal.RowsAscend(m)
    ensures LastNotBelow(m, FirstJump(t, m, t.TotalRows()), Top(t.vt) + t.vt.rows)
  {
    hide Terminal.Previous;
  }

  /** Looking matches up leaves the view alone, and the jump brings the row into it. */
  lemma JumpKeepsLookups(t: Process.Term, found: Process.Term, m: seq<MatchSpan>, row: nat)
    requires Valid(t.vt) && found.vt == t.vt && t.vt.alt.None? && row < |Content(t.vt)| && m != []
    ensures FirstJump(found, m, t.TotalRows()) == FirstJump(t, m, t.TotalRows())
    ensures var after := found.ScrollToRow(row).vt; Top(after) <= row < Top(after) + t.vt.rows
  {
    Terminal.ScrollToRowCenters(found, row);
  }

  // ----------------------------------------------------------------- typing a query

  /** Pressing keys one after the other. */
  function Press(a: State, keys: seq<Key>, env: Env, m: Moment): State {
    if keys == [] then a
    else
      var before := Press(a, keys[..|keys| - 1], env, m);
      if before.selected < |before.procs| then HandleCtEvent(before, KeyPress(keys[|keys| - 1]), env, m) else before
  }

  function Letters(text: string): (keys: seq<Key>)
    ensures |keys| == |text|
  {
    seq(|text|, i requires 0 <= i < |text| => Key(Char(text[i]), NONE))
  }

  const SLASH := Key(Char('/'), NONE)
  const ENTER := Key(Enter, NONE)

  lemma PressLast(a: State, keys: seq<Key>, env: Env, m: Moment)
    requires keys != []
    ensures var before := Press(a, keys[..|keys| - 1], env, m);
      Press(a, keys, env, m)
      == if before.selected < |before.procs| then HandleCtEvent(before, KeyPress(keys[|keys| - 1]), env, m) else before
  {}

  /** Typing this query, with nothing else changed. */
  function Typed(a: State, text: string): (r: State)
    ensures r.procs == a.procs && r.selected == a.selected
  {
    a.(mode := Search, search := a.search.(query := text, matches := [], current := None))
  }

  /** Typing after `/` spells the query, whatever the letters, and changes nothing else. */
  lemma {:induction false} TypingSpells(a: State, text: string, env: Env, m: Moment)
    requires Wf(a) && a.mode.Normal?
    ensures Press(a, [SLASH] + Letters(text), env, m) == Typed(a, text)
  {
    hide HandleCtEvent, Press, Typed;
    var keys := [SLASH] + Letters(text);
    PressLast(a, keys, env, m);
    if text == [] {
      assert keys[..|keys| - 1] == [];
      PressNone(a, env, m);
      EntersSearch(a, env, m);
    } else {
      var n := |text| - 1;
      assert keys[..|keys| - 1] == [SLASH] + Letters(text[..n]);
      TypingSpells(a, text[..n], env, m);
      TypesLetter(a, text[..n], text[n], env, m);
      assert text[..n] + [text[n]] == text;
    }
  }

  lemma PressNone(a: State, env: Env, m: Moment)
    ensures Press(a, [], env, m) == a
  {}

  lemma EntersSearch(a: State, env: Env, m: Moment)
    requires Wf(a) && a.mode.Normal?
    ensures HandleCtEvent(a, KeyPress(SLASH), env, m) == Typed(a, [])
  {
    hide Process.Proc.Start, Process.Proc.Stop, Process.Proc.Restart, Process.Proc.Write, AcceptSearch, Navigate;
    hide BeginQuit, DetachClient, ResizeProcs, Wf;
  }

  lemma TypesLetter(a: State, text: string, c: char, env: Env, m: Moment)
    requires a.selected < |a.procs|
    ensures HandleCtEvent(Typed(a, text), KeyPress(Key(Char(c), NONE)), env, m) == Typed(a, text + [c])
  {
    hide Process.Proc.Start, Process.Proc.Stop, Process.Proc.Restart, Process.Proc.Write, AcceptSearch, Navigate;
    hide BeginQuit, DetachClient, ResizeProcs, Wf;
  }

  /** Backspace takes the last letter back, and does nothing to an empty query. */
  lemma BackspaceTakesALetterBack(a: State, text: string, env: Env, m: Moment)
    requires a.selected < |a.procs|
    ensures HandleCtEvent(Typed(a, text), KeyPress(Key(Backspace, NONE)), env, m)
      == Typed(a, if text == [] then [] else text[..|text| - 1])
  {
    hide Process.Proc.Start, Process.Proc.Stop, Process.Proc.Restart, Process.Proc.Write, AcceptSearch, Navigate;
    hide BeginQuit, DetachClient, ResizeProcs, Wf;
  }

  /**
   * From the keys to the matches: `/`, some text and enter search everything for
   * that text, or for the last query if there is none, and remember it.
   */
  lemma KeysSearchForTheText(a: State, text: string, env: Env, m: Moment)
    requires Wf(a) && a.mode.Normal? && Sel(a).term.vt.alt.None?
    requires var t, q := Sel(a).term, if text != [] then text else a.search.lastQuery;
      q != [] ==> t.dirty || t.allQuery != q || Terminal.AllCurrent(t, env.lower)
    ensures var b := Press(a, [SLASH] + Letters(text) + [ENTER], env, m);
      var q := if text != [] then text else a.search.lastQuery;
      && b.mode.Normal? && b.search.lastQuery == q
      && b.search.matches == (if q == [] then [] else Terminal.AllMatches(Sel(a).term.vt, q, env.lower))
      && (b.search.matches == [] <==> b.search.current.None?)
  {
    var keys := [SLASH] + Letters(text) + [ENTER];
    assert keys[..|keys| - 1] == [SLASH] + Letters(text);
    TypingSpells(a, text, env, m);
    var typed := Typed(a, text);
    EnterAccepts(typed, env, m);
    hide HandleCtEvent, AcceptSearch, Terminal.AllMatches, Terminal.AllCurrent;
    assert Press(a, keys, env, m) == AcceptSearch(typed, env);
    AcceptFindsTheQuery(typed, env);
  }

  lemma EnterAccepts(a: State, env: Env, m: Moment)
    requires Wf(a) && a.mode.Search?
    ensures HandleCtEvent(a, KeyPress(ENTER), env, m) == AcceptSearch(a, env)
  {
    hide Process.Proc.Start, Process.Proc.Stop, Process.Proc.Restart, Process.Proc.Write, AcceptSearch, Navigate;
    hide BeginQuit, DetachClient, ResizeProcs;
  }

  // -------------------------------------------------------------- moving between tabs

  /** Selecting a tab starts with no search; the last query is kept. */
  function OnTab(a: State, idx: nat): State {
    a.(selected := idx, search := a.search.(query := [], matches := [], current := None))
  }

  /** Next goes one tab to the right, previous one to the left, each around the end; a digit goes to its tab if there is one. */
  lemma TabActionsMove(a: State, idx: nat, env: Env, m: Moment)
    requires Wf(a)
    ensures HandleAction(a, NextTab, env, m) == OnTab(a, if a.selected + 1 < |a.procs| then a.selected + 1 else 0)
    ensures HandleAction(a, PrevTab, env, m) == OnTab(a, if a.selected > 0 then a.selected - 1 else |a.procs| - 1)
    ensures HandleAction(a, Action.SelectTab(idx), env, m) == if idx < |a.procs| then OnTab(a, idx) else a
  {
    AroundTheTabs(a.selected, |a.procs|);
    hide Wf, AcceptSearch, Navigate, BeginQuit, DetachClient, ResizeProcs, AllStopped;
  }

  lemma AroundTheTabs(i: nat, n: nat)
    requires i < n
    ensures (i + 1) % n == if i + 1 < n then i + 1 else 0
    ensures (i + n - 1) % n == if i > 0 then i - 1 else n - 1
  {
    if i > 0 {
      Around(i - 1, n);
      assert i + n - 1 == n + (i - 1);
    }
  }

  lemma Around(i: nat, n: nat)
    requires i < n
    ensures (n + i) % n == i
  {}

  /** A click hits the tab that the tab bar shows in that column of its row; anywhere else it does nothing. */
  lemma ClickSelectsTheTab(a: State, row: nat, col: nat, env: Env, m: Moment)
    requires Wf(a)
    ensures var columns := Tabs.Layout(Names(a.procs), a.selected, a.size.cols);
      HandleCtEvent(a, Click(row, col), env, m) ==
        if row == 0 && col < |columns| && columns[col].Some?
        then OnTab(a, columns[col].value).(mode := if a.mode.Focused? then Normal else a.mode)
        else a
  {
    hide Tabs.Layout, HandleAction, Resolve;
  }

  // ------------------------------------------------------------ keys for a process

  /** Focus takes a running process; then every key but the unfocus key is written to it, and that one ends the focus. */
  lemma FocusedKeysAreWritten(a: State, key: Key, env: Env, m: Moment)
    requires Wf(a)
    ensures HandleAction(a, Focus, env, m) == if Sel(a).life.Running? then a.(mode := Focused) else a
    ensures a.mode.Focused? ==>
      HandleCtEvent(a, KeyPress(key), env, m) ==
        if Resolve(key, Focused, Sel(a).config.unfocus) == Some(Unfocus) then a.(mode := Normal)
        else a.(procs := a.procs[a.selected := Sel(a).Write(env.emulator, env.keyBytes(key))])
  {
    FocusedKeysIff(key, Sel(a).config.unfocus);
    hide Process.Proc.Start, Process.Proc.Stop, Process.Proc.Restart, Process.Proc.Write, AcceptSearch, Navigate;
    hide BeginQuit, DetachClient, ResizeProcs, Wf, IsUnfocus;
  }

  /** The keys that start, stop and restart act on the selected process and nothing else. */
  lemma ProcessKeysAct(a: State, env: Env, m: Moment)
    requires Wf(a)
    ensures HandleAction(a, StartProcess, env, m).procs == a.procs[a.selected := Sel(a).Start(env.emulator, m)]
    ensures HandleAction(a, StopProcess, env, m).procs == a.procs[a.selected := Sel(a).Stop()]
    ensures var (q, now) := Sel(a).Restart();
      HandleAction(a, RestartProcess, env, m).procs
      == a.procs[a.selected := if now then q.Start(env.emulator, m) else q]
    ensures forall action :: action in {StartProcess, StopProcess, RestartProcess} ==>
      var b := HandleAction(a, action, env, m); b == a.(procs := b.procs)
  {
    hide Process.Proc.Start, Process.Proc.Stop, Process.Proc.Restart, Wf;
  }

  // ----------------------------------------------------------------------- quitting

  /**
   * Quitting asks first while a process lives; y or enter goes on with it and any
   * other key calls it off, with nothing changed but the mode.
   */
  lemma QuittingAsksFirst(a: State, key: Key, env: Env, m: Moment)
    requires Wf(a)
    ensures a.mode.Normal? && key in NormalKeys(Quit) ==>
      HandleCtEvent(a, KeyPress(key), env, m)
      == if AllStopped(a) then a.(shouldQuit := true) else a.(mode := ConfirmQuit)
    ensures a.mode.ConfirmQuit? ==>
      HandleCtEvent(a, KeyPress(key), env, m)
      == if key == Key(Char('y'), NONE) || key.code.Enter? then BeginQuit(a, env) else a.(mode := Normal)
  {
    NormalKeysIff(key, Quit, Sel(a).config.unfocus);
    ConfirmKeysIff(key, Sel(a).config.unfocus);
    hide Process.Proc.Start, Process.Proc.Stop, Process.Proc.Restart, Process.Proc.Write, AcceptSearch, Navigate;
    hide DetachClient, ResizeProcs, StopEverything, Resolve, NormalKeys, Wf;
  }

  /** Without asking, shift-Q quits, and while quitting ctrl-c ends the loop at once. */
  lemma ForceQuitDoesNotAsk(a: State, env: Env, m: Moment)
    requires Wf(a)
    ensures a.mode.Normal? ==> HandleCtEvent(a, KeyPress(Key(Char('Q'), SHIFT)), env, m) == BeginQuit(a, env)
    ensures a.mode.Quitting? ==> Exits(HandleCtEvent(a, KeyPress(Key(Char('c'), CONTROL)), env, m))
  {
    hide Process.Proc.Start, Process.Proc.Stop, Process.Proc.Restart, Process.Proc.Write, AcceptSearch, Navigate;
    hide DetachClient, ResizeProcs, StopEverything, Wf;
  }

  // ---------------------------------------------------------------------- scrolling

  /** The amounts: a line, a screen, and three rows for the wheel; and they move the selected view only. */
  lemma ScrollingMoves(a: State, env: Env, m: Moment)
    requires Wf(a) && Sel(a).term.vt.alt.None?
    ensures var top, height := Top(Sel(a).term.vt), Sel(a).term.vt.rows;
      var max := |History(Sel(a).term.vt)|;
      && ScrolledTo(a, HandleAction(a, ScrollUp(Line), env, m), Max(top - 1, 0))
      && ScrolledTo(a, HandleAction(a, ScrollDown(Line), env, m), Min(top + 1, max))
      && ScrolledTo(a, HandleAction(a, ScrollUp(FullPage), env, m), Max(top - height, 0))
      && ScrolledTo(a, HandleAction(a, ScrollDown(FullPage), env, m), Min(top + height, max))
      && ScrolledTo(a, HandleAction(a, ScrollToTop, env, m), 0)
      && ScrolledTo(a, HandleAction(a, ScrollToBottom, env, m), max)
      && ScrolledTo(a, HandleCtEvent(a, WheelUp, env, m), Max(top - 3, 0))
      && ScrolledTo(a, HandleCtEvent(a, WheelDown, env, m), Min(top + 3, max))
  {
    ScrollActions(a, env, m);
    var t := Sel(a).term;
    hide HandleAction, HandleCtEvent, SetTerm, ScrolledTo, Top;
    ScrollsTo(a, 1);
    ScrollsTo(a, t.vt.rows);
    ScrollsTo(a, 3);
  }

  /** The selected view was moved so that this row is at its top, and nothing else was done. */
  ghost predicate ScrolledTo(a: State, b: State, top: int)
    requires a.selected < |a.procs|
  {
    && b == SetTerm(a, Sel(a).term.(vt := if b.selected < |b.procs| then Sel(b).term.vt else Sel(a).term.vt))
    && Valid(Sel(b).term.vt) && Content(Sel(b).term.vt) == Content(Sel(a).term.vt) && Top(Sel(b).term.vt) == top
  }

  lemma ScrollsTo(a: State, lines: nat)
    requires Wf(a) && Sel(a).term.vt.alt.None?
    ensures var t := Sel(a).term; var top, max := Top(t.vt), |History(t.vt)|;
      && ScrolledTo(a, SetTerm(a, t.ScrollUp(lines)), Max(top - lines, 0))
      && ScrolledTo(a, SetTerm(a, t.ScrollDown(lines)), Min(top + lines, max))
      && ScrolledTo(a, SetTerm(a, t.ScrollToTop()), 0)
      && ScrolledTo(a, SetTerm(a, t.ScrollToBottom()), max)
  {
    var t := Sel(a).term;
    Terminal.ScrollMovesView(t, lines);
    hide Top, Terminal.Term.ScrollUp, Terminal.Term.ScrollDown, Terminal.Term.ScrollToTop, Terminal.Term.ScrollToBottom;
    TermScrolls(a, t.ScrollUp(lines));
    TermScrolls(a, t.ScrollDown(lines));
    TermScrolls(a, t.ScrollToTop());
    TermScrolls(a, t.ScrollToBottom());
  }

  lemma TermScrolls(a: State, t: Process.Term)
    requires Wf(a) && t.Ok() && Content(t.vt) == Content(Sel(a).term.vt) && t == Sel(a).term.(vt := t.vt)
    ensures ScrolledTo(a, SetTerm(a, t), Top(t.vt))
  {
    hide Top, Content;
  }

  lemma ScrollActions(a: State, env: Env, m: Moment)
    requires Wf(a)
    ensures var t := Sel(a).term;
      && HandleAction(a, ScrollUp(Line), env, m) == SetTerm(a, t.ScrollUp(1))
      && HandleAction(a, ScrollDown(Line), env, m) == SetTerm(a, t.ScrollDown(1))
      && HandleAction(a, ScrollUp(FullPage), env, m) == SetTerm(a, t.ScrollUp(t.vt.rows))
      && HandleAction(a, ScrollDown(FullPage), env, m) == SetTerm(a, t.ScrollDown(t.vt.rows))
      && HandleAction(a, ScrollToTop, env, m) == SetTerm(a, t.ScrollToTop())
      && HandleAction(a, ScrollToBottom, env, m) == SetTerm(a, t.ScrollToBottom())
      && HandleCtEvent(a, WheelUp, env, m) == SetTerm(a, t.ScrollUp(3))
      && HandleCtEvent(a, WheelDown, env, m) == SetTerm(a, t.ScrollDown(3))
  {
    hide SetTerm, Wf;
    hide Terminal.Term.ScrollUp, Terminal.Term.ScrollDown, Terminal.Term.ScrollToTop, Terminal.Term.ScrollToBottom;
  }

  // ------------------------------------------------------------------- processes

  /** Output goes to its process only, and asks for a redraw only if that one is shown. */
  lemma OutputGoesToItsProcess(a: State, id: nat, data: Process.Bytes, env: Env)
    ensures var b := HandleOutput(a, id, data, env);
      && b == a.(procs := b.procs, dirty := b.dirty) && (b.dirty <==> a.dirty || id == a.selected)
      && b.procs == (if id < |a.procs| then a.procs[id := a.procs[id].HandleOutput(env.emulator, data)] else a.procs)
  {
    hide Process.Proc.HandleOutput;
  }

  /** So does an exit, which always asks for one: the tab changes. */
  lemma ExitGoesToItsProcess(a: State, id: nat, status: Process.Status, env: Env, m: Moment)
    ensures var b := HandleExit(a, id, status, env, m);
      && b == a.(procs := b.procs, dirty := true)
      && b.procs == (if id < |a.procs| then a.procs[id := a.procs[id].Exited(env.emulator, status, m)] else a.procs)
  {
    hide Process.Proc.Exited;
  }
  // --------------------------------------------------------------- other keys

  /** Tab fills in the last query if nothing was typed, for the user to see and to change; typed text is kept. */
  lemma TabFillsIn(a: State, text: string, env: Env, m: Moment)
    requires Wf(a)
    ensures HandleCtEvent(Typed(a, text), KeyPress(Key(Keys.Tab, NONE)), env, m)
      == Typed(a, if text == [] then a.search.lastQuery else text)
  {
    hide Process.Proc.Start, Process.Proc.Stop, Process.Proc.Restart, Process.Proc.Write, AcceptSearch, Navigate;
    hide BeginQuit, DetachClient, ResizeProcs, Wf;
  }

  /** Escape gives a search up: while typing or after, the query and the matches go, and the view returns to the bottom. */
  lemma EscapeEndsTheSearch(a: State, env: Env, m: Moment)
    requires Wf(a) && (a.mode.Normal? || a.mode.Search?)
    ensures var t := Sel(a).term.ScrollToBottom();
      && HandleCtEvent(a, KeyPress(Key(Esc, NONE)), env, m)
         == SetTerm(a, t).(mode := Normal, search := a.search.(query := [], matches := [], current := None))
      && !t.ScrolledBack() && Content(t.vt) == Content(Sel(a).term.vt)
  {
    AtTheBottom(Sel(a).term);
    hide Process.Proc.Start, Process.Proc.Stop, Process.Proc.Restart, Process.Proc.Write, AcceptSearch, Navigate;
    hide BeginQuit, DetachClient, ResizeProcs, Wf, Terminal.Term.ScrollToBottom, SetTerm;
  }

  lemma AtTheBottom(t: Process.Term)
    ensures !t.ScrollToBottom().ScrolledBack() && Content(t.ScrollToBottom().vt) == Content(t.vt)
  {}

  /** n and N go to the match that was searched for from the middle of the view downwards and upwards. */
  lemma NavigationKeysNavigate(a: State, env: Env, m: Moment)
    requires Wf(a) && a.mode.Normal?
    ensures HandleCtEvent(a, KeyPress(Key(Char('n'), NONE)), env, m) == Navigate(a, true)
    ensures HandleCtEvent(a, KeyPress(Key(Char('N'), SHIFT)), env, m) == Navigate(a, false)
  {
    hide Process.Proc.Start, Process.Proc.Stop, Process.Proc.Restart, Process.Proc.Write, AcceptSearch, Navigate;
    hide BeginQuit, DetachClient, ResizeProcs, Wf;
  }

  /** The question mark opens and closes the help panel, and the terminals make room for it. */
  lemma HelpKeyTogglesHelp(a: State, env: Env, m: Moment)
    requires Wf(a) && a.mode.Normal?
    ensures var b := HandleCtEvent(a, KeyPress(Key(Char('?'), NONE)), env, m);
      && b.showHelp == !a.showHelp && b == a.(showHelp := b.showHelp, procs := b.procs)
      && |b.procs| == |a.procs| && AppSizes.Fitted(b, env)
  {
    AppSizes.ResizeFits(a.(showHelp := !a.showHelp), env);
    hide Process.Proc.Start, Process.Proc.Stop, Process.Proc.Restart, Process.Proc.Write, AcceptSearch, Navigate;
    hide BeginQuit, DetachClient, ResizeProcs, AppSizes.Fitted, Wf;
  }

  /** d lets go of the client with the goodbye for a detached one; the processes run on, seen from their bottom. */
  lemma DetachKeyDetaches(a: State, env: Env, m: Moment)
    requires Wf(a) && a.mode.Normal? && a.client.Some?
    ensures var b := HandleCtEvent(a, KeyPress(Key(Char('d'), NONE)), env, m);
      && b.client.None? && b.goodbyes != []
      && b.goodbyes[|b.goodbyes| - 1] == Goodbye(a.client.value.id, Delivery.Detached,
                                                 Delivery.LetGo(a.client.value.session, Delivery.Detached))
      && |b.procs| == |a.procs|
      && forall i :: 0 <= i < |a.procs| ==>
           b.procs[i].life == a.procs[i].life && !b.procs[i].term.ScrolledBack()
  {
    DetachBody(a);
    hide Process.Proc.Start, Process.Proc.Stop, Process.Proc.Restart, Process.Proc.Write, AcceptSearch, Navigate;
    hide BeginQuit, DetachClient, ResizeProcs, Wf;
  }

  lemma DetachBody(a: State)
    requires a.client.Some?
    ensures var b := DetachClient(a);
      && b.client.None? && b.goodbyes != [] && |b.procs| == |a.procs|
      && b.goodbyes[|b.goodbyes| - 1] == Goodbye(a.client.value.id, Delivery.Detached,
                                                 Delivery.LetGo(a.client.value.session, Delivery.Detached))
      && forall i :: 0 <= i < |a.procs| ==>
           b.procs[i].life == a.procs[i].life && !b.procs[i].term.ScrolledBack()
  {
    hide Unfinished, Delivery.LetGo, Process.Proc.SendPause;
  }

  /** Whether the client's terminal has the focus, which sets how often frames are drawn, is as last reported, and on again for the next client. */
  lemma FocusIsAsReported(a: State, env: Env, m: Moment)
    requires Wf(a)
    ensures HandleCtEvent(a, FocusGained, env, m) == a.(focused := true)
    ensures HandleCtEvent(a, FocusLost, env, m) == a.(focused := false)
    ensures DropClient(a).focused && DetachClient(a).focused
  {
    hide Unfinished;
  }

  /** When quitting begins the help panel closes and every terminal gets its room. */
  lemma QuittingClosesHelp(a: State, env: Env)
    requires !AllStopped(a)
    ensures var b := BeginQuit(a, env);
      && b.mode.Quitting? && !b.showHelp && b.dirty && b.search == a.search && b.selected == a.selected
      && AppSizes.Fitted(b, env)
  {
    var c := a.(mode := Quitting, showHelp := false, dirty := true);
    AppSizes.ResizeFits(c, env);
    AppSizes.StopKeepsSizes(ResizeProcs(c, env).procs);
    hide ResizeProcs, StopAll;
  }
}
