/** The selection and the stored search, over all input and client changes. */
module AppSearch {
  import opened Prelude
  import opened Search
  import Emulation
  import opened App
  import AppView
  import Delivery
  import Keys
  import Process
  import Terminal

  /**
   * While a query is being typed there are no matches; a current match exists;
   * matches belong to the selected process and are in row order.
   */
  ghost predicate SearchInv(a: State) {
    && (a.mode.Search? ==> a.search.matches == [] && a.search.current.None?)
    && (a.search.current.Some? ==> a.search.current.value < |a.search.matches|)
    && (a.search.matches != [] ==> a.search.from == a.selected)
    && Terminal.RowsAscend(a.search.matches)
  }

  lemma StoreKeepsSearchInv(a: State, matches: seq<MatchSpan>, total: nat)
    requires Wf(a) && SearchInv(a) && a.search.matches == [] && Terminal.RowsAscend(matches)
    ensures var b := StoreMatches(a, matches, total); SearchInv(b.(mode := Keys.Normal))
  {
    hide Terminal.Term.ScrollToRow, FirstJump;
  }

  lemma AcceptKeepsSearchInv(a: State, env: Env)
    requires Wf(a) && SearchInv(a) && a.mode.Search?
    ensures SearchInv(AcceptSearch(a, env))
  {
    hide Terminal.Term.FindAll, StoreMatches;
    var searching := a.(search := Placeholder(a.search));
    var (t, matches, total) := Sel(a).term.FindAll(searching.search.query, env.lower);
    StoreKeepsSearchInv(SetTerm(searching, t), matches, total);
  }

  lemma NavigateKeepsSearchInv(a: State, forward: bool)
    requires Wf(a) && SearchInv(a)
    ensures SearchInv(Navigate(a, forward))
  {
    hide Terminal.Term.ScrollToRow;
  }

  lemma DetachKeepsSearchInv(a: State)
    ensures SearchInv(DetachClient(a)) && SearchInv(DropClient(a))
  {
    hide Terminal.Term.ScrollToBottom, Process.Proc.SendPause, Unfinished;
  }

  lemma QuitKeepsSearchInv(a: State, env: Env)
    requires SearchInv(a)
    ensures SearchInv(BeginQuit(a, env))
  {
    hide ResizeProcs, Process.Proc.Stop;
  }

  /** Only the actions a mode's keys allow: accepting a search anywhere else could leave a stale current match. */
  lemma ActionKeepsSearchInv(a: State, action: Keys.Action, env: Env, m: Moment)
    requires Wf(a) && SearchInv(a) && Keys.Allowed(a.mode, action)
    ensures SearchInv(HandleAction(a, action, env, m))
  {
    hide AcceptSearch, Navigate, BeginQuit, DetachClient, ResizeProcs;
    hide Terminal.Term.ScrollUp, Terminal.Term.ScrollDown, Terminal.Term.ScrollToBottom, Terminal.Term.ScrollToTop;
    hide Process.Proc.Start, Process.Proc.Stop, Process.Proc.Restart, Process.Proc.Write;
    match action
    case SearchAccept => AcceptKeepsSearchInv(a, env);
    case SearchNext => NavigateKeepsSearchInv(a, true);
    case SearchPrev => NavigateKeepsSearchInv(a, false);
    case Quit => QuitKeepsSearchInv(a, env);
    case ForceQuit => QuitKeepsSearchInv(a, env);
    case Detach => DetachKeepsSearchInv(a);
    case _ =>
  }

  lemma CtEventKeepsSearchInv(a: State, event: CtEvent, env: Env, m: Moment)
    requires Wf(a) && SearchInv(a)
    ensures SearchInv(HandleCtEvent(a, event, env, m))
  {
    hide HandleAction, TabAt, Keys.Resolve, Keys.Allowed, Terminal.Term.ScrollUp, Terminal.Term.ScrollDown;
    if event.KeyPress? {
      var r := Keys.Resolve(event.key, a.mode, Sel(a).config.unfocus);
      Keys.KeysStayInMode(event.key, a.mode, Sel(a).config.unfocus);
      if r.Some? { ActionKeepsSearchInv(a, r.value, env, m); }
    }
  }

  lemma MsgKeepsSearchInv(a: State, msg: ClientMsg, env: Env, m: Moment)
    requires Wf(a) && a.client.Some? && !a.client.value.session.said && SearchInv(a)
    ensures SearchInv(HandleClientMsg(a, msg, env, m))
  {
    hide HandleCtEvent, ResizeProcs, Delivery.Next, Process.Proc.SendPause;
    if msg.Event? { CtEventKeepsSearchInv(a, msg.event, env, m); }
  }

  lemma DrawKeepsSearchInv(a: State, env: Env)
    requires Wf(a) && a.client.Some? && !a.client.value.session.said && SearchInv(a)
    ensures SearchInv(Draw(a, env))
  {
    hide DropClient, Delivery.Next, Delivery.Sender.Draw, Terminal.Term.FindVisible, ViewOf;
    var s := a.client.value.session;
    var step := Delivery.DrawStep(env.paint(ViewOf(a, env), s.sender.size));
    DetachKeepsSearchInv(SetSession(SetTerm(a, Highlights(a, env).0), Delivery.Next(s, step)));
  }

  lemma NextKeepsSearchInv(a: State, event: Event, env: Env)
    requires Wf(a) && Talking(a) && Enabled(a, event) && SearchInv(a)
    ensures SearchInv(Next(a, event, env))
  {
    hide Draw, HandleClientMsg, BeginQuit, DetachClient, DropClient, ResizeProcs, Delivery.Next, Delivery.Start;
    hide Process.Proc.HandleOutput, Process.Proc.Exited;
    match event
    case Tick => DrawKeepsSearchInv(a, env);
    case Attach(id, size, screen) => DetachKeepsSearchInv(a);
    case QuitRequest => QuitKeepsSearchInv(a, env);
    case Signal => QuitKeepsSearchInv(a, env);
    case Msg(msg, m) => MsgKeepsSearchInv(a, msg, env, m);
    case Hangup => DetachKeepsSearchInv(a);
    case _ =>
  }

  /** In every reachable state: the selection is a process, and the stored search is consistent. */
  lemma {:induction false} SearchStaysConsistent(configs: seq<Process.Config>, scrollback: seq<nat>,
                                                moments: seq<Moment>, events: seq<Event>, env: Env)
    requires |configs| == |scrollback| == |moments| > 0
    ensures var a := Play(Boot(configs, scrollback, moments, env), events, env);
      Wf(a) && SearchInv(a)
  {
    hide Boot, Next;
    AppView.BootIsWf(configs, scrollback, moments, env);
    var a := Boot(configs, scrollback, moments, env);
    if events != [] {
      var n := |events| - 1;
      SearchStaysConsistent(configs, scrollback, moments, events[..n], env);
      var before := Play(a, events[..n], env);
      if Talking(before) && Enabled(before, events[n]) && !Exits(before) {
        AppView.NextKeepsWf(before, events[n], env);
        NextKeepsSearchInv(before, events[n], env);
      }
    }
  }

  /** Going to another match puts that match's row in view, as long as the content still has that row. */
  lemma NavigationShowsMatch(a: State, forward: bool)
    requires Wf(a) && SearchInv(a) && Sel(a).term.vt.alt.None?
    requires Navigate(a, forward) != a
    ensures var b := Navigate(a, forward);
      b.search.current.Some? &&
      var row := b.search.matches[b.search.current.value].row;
      && (if forward then row > Terminal.Center(Sel(a).term) else row < Terminal.Center(Sel(a).term))
      && (row < Sel(a).term.TotalRows() ==>
            Emulation.Top(Sel(b).term.vt) <= row < Emulation.Top(Sel(b).term.vt) + Sel(b).term.vt.rows)
  {
    var t := Sel(a).term;
    var center := Terminal.Center(t);
    var idx := if forward then Terminal.Next(a.search.matches, center)
               else Terminal.Previous(a.search.matches, center);
    var row := a.search.matches[idx.value].row;
    if row < t.TotalRows() {
      Terminal.ScrollToRowCenters(t, row);
    }
  }

  lemma Wrap(i: nat, n: nat)
    requires i < n
    ensures i % n == i && (n + i) % n == i
  {}

  lemma OnAndBack(i: nat, n: nat)
    requires i < n
    ensures ((i + 1) % n + n - 1) % n == i && ((i + n - 1) % n + 1) % n == i
  {
    var on := if i + 1 < n then i + 1 else 0;
    var back := if i > 0 then i - 1 else n - 1;
    Wrap(if i + 1 < n then i + 1 else 0, n);
    Wrap(back, n);
    Wrap(i, n);
    assert (i + 1) % n == on;
    assert i + n - 1 == if i > 0 then n + back else back;
    assert (i + n - 1) % n == back;
    assert on + n - 1 == if i + 1 < n then n + i else i;
    assert back + 1 == if i > 0 then i else n + i;
  }

  /** Moving one tab on and one back, either way round, selects the same tab again. */
  lemma TabsCycle(a: State, env: Env, m: Moment)
    requires Wf(a)
    ensures HandleAction(HandleAction(a, Keys.NextTab, env, m), Keys.PrevTab, env, m) == SelectTab(a, a.selected)
    ensures HandleAction(HandleAction(a, Keys.PrevTab, env, m), Keys.NextTab, env, m) == SelectTab(a, a.selected)
  {
    var n := |a.procs|;
    hide LiveCount;
    OnAndBack(a.selected, n);
  }

  // ----------------------------------------------------------- pressing a key twice

  /** Where the first press went: match i of the stored ones, which the second press starts from. */
  ghost predicate Pressed(a: State, forward: bool, i: nat) {
    && Wf(a) && SearchInv(a) && i < |a.search.matches|
    && Terminal.CanJump(Sel(a).term, a.search.matches)
    && Target(a, forward, Terminal.Center(Sel(a).term)) == Some(i)
  }

  function Target(a: State, forward: bool, row: nat): Option<nat> {
    if forward then Terminal.Next(a.search.matches, row) else Terminal.Previous(a.search.matches, row)
  }

  lemma PressGoes(a: State, forward: bool, i: nat)
    requires Pressed(a, forward, i)
    ensures var b := Navigate(a, forward); var row := a.search.matches[i].row; var t := Sel(a).term;
      && Wf(b) && b == SetTerm(a, t.ScrollToRow(row)).(search := a.search.(current := Some(i)))
      && Sel(b).term.vt.alt.None? && Terminal.Center(Sel(b).term) == Terminal.CenterAfter(t, row)
  {
    hide Terminal.Next, Terminal.Previous, Terminal.Center, Terminal.CenterAfter, Terminal.RowsAscend, SearchInv;
    Terminal.ScrollToRowCenters(Sel(a).term, a.search.matches[i].row);
  }

  /** What the second press does, in terms of the centre the first one left. */
  lemma SecondPress(a: State, forward: bool, i: nat)
    requires Pressed(a, forward, i)
    ensures var b := Navigate(a, forward);
      var found := Target(a, forward, Terminal.CenterAfter(Sel(a).term, a.search.matches[i].row));
      && Navigate(b, forward).search.current == (if found.Some? then found else Some(i))
      && (Navigate(b, forward) == b <==> found.None? || found == Some(i))
  {
    var row := a.search.matches[i].row;
    PressGoes(a, forward, i);
    ScrollTwice(Sel(a).term, row);
    hide Pressed, Terminal.Next, Terminal.Previous, Terminal.Center, Terminal.CenterAfter, Terminal.Term.ScrollToRow, Wf;
  }

  lemma ScrollTwice(t: Process.Term, row: nat)
    ensures t.ScrollToRow(row).ScrollToRow(row) == t.ScrollToRow(row)
  {}

  /**
   * Pressing the same key twice goes to the next match in a further row exactly
   * if there is no match between the first one's row and the centre it led to;
   * or there is nothing further and nothing between that could be found instead.
   */
  lemma SecondPressIff(a: State, forward: bool, i: nat)
    requires Pressed(a, forward, i)
    ensures var m, r := a.search.matches, a.search.matches[i].row;
      var c := Terminal.CenterAfter(Sel(a).term, r);
      var nearest := Target(a, forward, r);
      Navigate(Navigate(a, forward), forward).search.current == (if nearest.Some? then nearest else Some(i))
      <==> if forward then
             !Terminal.MatchBetween(m, Min(r, c) + 1, Max(r, c) + 1)
             || (nearest.None? && !Terminal.MatchBetween(m, c + 1, r))
           else
             !Terminal.MatchBetween(m, Min(r, c), Max(r, c))
             || (nearest.None? && !Terminal.MatchBetween(m, r + 1, c))
  {
    var m, r := a.search.matches, a.search.matches[i].row;
    var c := Terminal.CenterAfter(Sel(a).term, r);
    SecondPress(a, forward, i);
    if forward {
      NextOr(m, i, r, c, Terminal.Center(Sel(a).term));
    } else {
      PreviousOr(m, i, r, c, Terminal.Center(Sel(a).term));
    }
  }

  lemma NextOr(m: seq<MatchSpan>, i: nat, r: nat, c: nat, from: nat)
    requires Terminal.RowsAscend(m) && Terminal.Next(m, from) == Some(i) && m[i].row == r
    ensures var found, nearest := Terminal.Next(m, c), Terminal.Next(m, r);
      (if found.Some? then found else Some(i)) == (if nearest.Some? then nearest else Some(i))
      <==> !Terminal.MatchBetween(m, Min(r, c) + 1, Max(r, c) + 1)
           || (nearest.None? && !Terminal.MatchBetween(m, c + 1, r))
  {
    hide Terminal.Next;
    Terminal.SameNextIff(m, r, c);
  }

  lemma PreviousOr(m: seq<MatchSpan>, i: nat, r: nat, c: nat, from: nat)
    requires Terminal.RowsAscend(m) && Terminal.Previous(m, from) == Some(i) && m[i].row == r
    ensures var found, nearest := Terminal.Previous(m, c), Terminal.Previous(m, r);
      (if found.Some? then found else Some(i)) == (if nearest.Some? then nearest else Some(i))
      <==> !Terminal.MatchBetween(m, Min(r, c), Max(r, c))
           || (nearest.None? && !Terminal.MatchBetween(m, r + 1, c))
  {
    hide Terminal.Previous;
    Terminal.SamePreviousIff(m, r, c);
  }

  /**
   * When the key does nothing any more, however often it is pressed again: there
   * is no match beyond the centre that the first press left, or the nearest one
   * is the match it went to. The latter is so near the end of the content that
   * the key moves towards, where the centre stops short of the match, even if
   * there are further matches.
   */
  lemma KeySticksIff(a: State, forward: bool, i: nat)
    requires Pressed(a, forward, i)
    ensures var m, r := a.search.matches, a.search.matches[i].row;
      var c := Terminal.CenterAfter(Sel(a).term, r);
      var b := Navigate(a, forward);
      Navigate(b, forward) == b
      <==> if forward then (c < r && !Terminal.MatchBetween(m, c + 1, r)) || (forall j :: 0 <= j < |m| ==> m[j].row <= c)
           else (r < c && !Terminal.MatchBetween(m, r + 1, c)) || (forall j :: 0 <= j < |m| ==> c <= m[j].row)
  {
    var m, r := a.search.matches, a.search.matches[i].row;
    var c := Terminal.CenterAfter(Sel(a).term, r);
    SecondPress(a, forward, i);
    if forward {
      NextStays(m, i, c, Terminal.Center(Sel(a).term));
    } else {
      PreviousStays(m, i, c, Terminal.Center(Sel(a).term));
    }
  }

  lemma NextStays(m: seq<MatchSpan>, i: nat, c: nat, from: nat)
    requires Terminal.RowsAscend(m) && Terminal.Next(m, from) == Some(i)
    ensures Terminal.Next(m, c) == Some(i) <==> c < m[i].row && !Terminal.MatchBetween(m, c + 1, m[i].row)
    ensures Terminal.Next(m, c) == None <==> forall j :: 0 <= j < |m| ==> m[j].row <= c
  {
    hide Terminal.Next;
    if c < m[i].row && !Terminal.MatchBetween(m, c + 1, m[i].row) { FirstAfter(m, i, c, from); }
  }

  lemma PreviousStays(m: seq<MatchSpan>, i: nat, c: nat, from: nat)
    requires Terminal.RowsAscend(m) && Terminal.Previous(m, from) == Some(i)
    ensures Terminal.Previous(m, c) == Some(i) <==> m[i].row < c && !Terminal.MatchBetween(m, m[i].row + 1, c)
    ensures Terminal.Previous(m, c) == None <==> forall j :: 0 <= j < |m| ==> c <= m[j].row
  {
    hide Terminal.Previous;
    if m[i].row < c && !Terminal.MatchBetween(m, m[i].row + 1, c) { LastBefore(m, i, c, from); }
  }

  lemma FirstAfter(m: seq<MatchSpan>, i: nat, c: nat, from: nat)
    requires Terminal.RowsAscend(m) && Terminal.Next(m, from) == Some(i)
    requires c < m[i].row && !Terminal.MatchBetween(m, c + 1, m[i].row)
    ensures Terminal.Next(m, c) == Some(i)
  {
    hide Terminal.Next;
    if i > 0 { assert m[i - 1].row < m[i].row; }
    Terminal.FirstBelow(m, i, c);
  }

  lemma LastBefore(m: seq<MatchSpan>, i: nat, c: nat, from: nat)
    requires Terminal.RowsAscend(m) && Terminal.Previous(m, from) == Some(i)
    requires m[i].row < c && !Terminal.MatchBetween(m, m[i].row + 1, c)
    ensures Terminal.Previous(m, c) == Some(i)
  {
    hide Terminal.Previous;
    if i + 1 < |m| { assert m[i].row < m[i + 1].row; }
    Terminal.LastAbove(m, i, c);
  }

  // -------------------------------------------------------------- the first jump

  /** The row after the last one in view. */
  function BelowView(t: Process.Term, total: nat): nat {
    SatSub(total, t.vt.rows + Emulation.Offset(t.vt)) + t.vt.rows
  }

  /**
   * An accepted search should jump to the last match in or above the view. It
   * takes the row after the view's last one for part of it: given a match that is
   * not below that row, the one it chooses lies in or above the view, and is the
   * last that does, exactly if no match lies in that row.
   */
  lemma FirstJumpInViewIff(t: Process.Term, matches: seq<MatchSpan>, total: nat)
    requires matches != [] && Terminal.RowsAscend(matches)
    requires exists i :: 0 <= i < |matches| && matches[i].row <= BelowView(t, total)
    ensures var below := BelowView(t, total); var chosen := FirstJump(t, matches, total);
      && matches[chosen].row <= below
      && (matches[chosen].row < below <==> !Terminal.MatchBetween(matches, below, below + 1))
      && (Terminal.Previous(matches, below) == Some(chosen) <==> !Terminal.MatchBetween(matches, below, below + 1))
  {
    hide Terminal.Previous;
    var below := BelowView(t, total);
    if Terminal.MatchBetween(matches, below, below + 1) {
      var i :| 0 <= i < |matches| && below <= matches[i].row < below + 1;
    }
  }
}
