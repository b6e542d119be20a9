/** Sizes: while a client is attached, frames, terminals and the client's screen agree on how large everything is. */
module AppSizes {
  import opened Prelude
  import opened App
  import opened Search
  import AppView
  import Delivery
  import Emulation
  import Keys
  import Process
  import Terminal

  /** The rows between the tab bar and what is below: the status bar, or the help panel at the width of the screen. */
  function ViewportRows(a: State, env: Env): nat {
    SatSub(a.size.rows, 1 + (if a.showHelp then env.helpHeight(a.size.cols) else 1))
  }

  /** Every terminal is as large as the part of the screen it is drawn in; a terminal has at least one cell. */
  ghost predicate Fitted(a: State, env: Env) {
    forall k :: 0 <= k < |a.procs| ==>
      var vt := a.procs[k].term.vt;
      vt.rows == Max(ViewportRows(a, env), 1) && vt.cols == Max(a.size.cols, 1)
  }

  /** The server's size is the one its client's frames are drawn for, and every terminal fits it. */
  ghost predicate SizesAgree(a: State, env: Env) {
    a.client.Some? ==> a.client.value.session.sender.size == a.size && Fitted(a, env)
  }

  ghost predicate SameSizes(p: seq<Proc>, q: seq<Proc>) {
    |p| == |q| && forall k :: 0 <= k < |p| ==>
      q[k].term.vt.rows == p[k].term.vt.rows && q[k].term.vt.cols == p[k].term.vt.cols
  }

  lemma ResizeFits(a: State, env: Env)
    ensures Fitted(ResizeProcs(a, env), env)
  {}

  lemma QuitAgrees(a: State, env: Env)
    requires SizesAgree(a, env)
    ensures SizesAgree(BeginQuit(a, env), env)
  {
    hide AllStopped;
    if !AllStopped(a) {
      var b := a.(mode := Keys.Quitting, showHelp := false, dirty := true);
      ResizeFits(b, env);
      StopKeepsSizes(ResizeProcs(b, env).procs);
      hide ResizeProcs, StopAll;
    }
  }

  lemma StopKeepsSizes(procs: seq<Proc>)
    ensures SameSizes(procs, StopAll(procs))
  {}

  predicate SameSize(t: Process.Term, u: Process.Term) {
    u.vt.rows == t.vt.rows && u.vt.cols == t.vt.cols
  }

  lemma SelAgrees(a: State, p: Proc, env: Env)
    requires a.selected < |a.procs| && SizesAgree(a, env) && SameSize(Sel(a).term, p.term)
    ensures SizesAgree(SetSel(a, p), env)
  {}

  lemma TermAgrees(a: State, t: Process.Term, env: Env)
    requires a.selected < |a.procs| && SizesAgree(a, env) && SameSize(Sel(a).term, t)
    ensures SizesAgree(SetTerm(a, t), env)
  {}

  /** What sizes do not depend on. */
  lemma OthersAgree(a: State, b: State, env: Env)
    requires SizesAgree(a, env) && b.procs == a.procs && b.client == a.client
    requires b.size == a.size && b.showHelp == a.showHelp
    ensures SizesAgree(b, env)
  {}

  lemma ScrollKeepsSize(t: Process.Term, n: nat)
    ensures SameSize(t, t.ScrollUp(n)) && SameSize(t, t.ScrollDown(n)) && SameSize(t, t.ScrollToTop())
    ensures SameSize(t, t.ScrollToBottom()) && SameSize(t, t.ScrollToRow(n))
  {}

  lemma StartKeepsSize(p: Proc, env: Env, m: Moment)
    ensures SameSize(p.term, p.Start(env.emulator, m).term)
  {
    hide Emulation.Apply;
  }

  lemma StopKeepsSize(p: Proc, env: Env, m: Moment)
    ensures var (q, again) := p.Restart();
      SameSize(p.term, p.Stop().term) && SameSize(p.term, (if again then q.Start(env.emulator, m) else q).term)
    ensures SameSize(p.term, p.SyncPaused().term)
  {
    hide Process.Proc.Start;
    StartKeepsSize(p, env, m);
  }

  lemma WriteKeepsSize(p: Proc, env: Env, data: Process.Bytes)
    ensures SameSize(p.term, p.Write(env.emulator, data).term)
    ensures SameSize(p.term, p.HandleOutput(env.emulator, data).term)
  {
    hide Emulation.Apply;
  }

  lemma ExitKeepsSize(p: Proc, env: Env, m: Moment, status: Process.Status)
    ensures SameSize(p.term, p.Exited(env.emulator, status, m).term)
  {
    hide Process.Proc.Start;
    StartKeepsSize(p.HandleExit(status, m.now).0, env, m);
  }

  lemma FindKeepsSize(t: Process.Term, q: string, env: Env)
    ensures SameSize(t, t.FindAll(q, env.lower).0)
  {}

  lemma StoreAgrees(a: State, matches: seq<MatchSpan>, total: nat, env: Env)
    requires a.selected < |a.procs| && SizesAgree(a, env)
    ensures SizesAgree(StoreMatches(a, matches, total), env)
  {
    hide SizesAgree, FirstJump, Terminal.Term.ScrollToRow, SetTerm, SameSize, Wf;
    var b := StoreMatches(a, matches, total);
    if matches == [] {
      OthersAgree(a, b, env);
    } else {
      var row := matches[FirstJump(Sel(a).term, matches, total)].row;
      ScrollKeepsSize(Sel(a).term, row);
      var c := SetTerm(a, Sel(a).term.ScrollToRow(row));
      TermAgrees(a, Sel(a).term.ScrollToRow(row), env);
      OthersAgree(c, b, env);
    }
  }

  lemma AcceptAgrees(a: State, env: Env)
    requires a.selected < |a.procs| && SizesAgree(a, env)
    ensures SizesAgree(AcceptSearch(a, env), env)
  {
    hide SizesAgree, StoreMatches, Terminal.Term.FindAll, Placeholder, SameSize, Wf;
    var b := a.(search := Placeholder(a.search));
    OthersAgree(a, b, env);
    var (t, m, total) := Sel(b).term.FindAll(b.search.query, env.lower);
    FindKeepsSize(Sel(b).term, b.search.query, env);
    TermAgrees(b, t, env);
    StoreAgrees(SetTerm(b, t), m, total, env);
    OthersAgree(FindEverywhere(b, env), AcceptSearch(a, env), env);
  }

  lemma NavigateAgrees(a: State, forward: bool, env: Env)
    requires a.selected < |a.procs| && SizesAgree(a, env)
    ensures SizesAgree(Navigate(a, forward), env)
  {
    hide SizesAgree, Terminal.Next, Terminal.Previous, Terminal.Center, Terminal.Term.ScrollToRow, SetTerm, SameSize, Wf;
    var b := Navigate(a, forward);
    forall n: nat
      ensures SizesAgree(SetTerm(a, Sel(a).term.ScrollToRow(n)), env)
    {
      ScrollKeepsSize(Sel(a).term, n);
      TermAgrees(a, Sel(a).term.ScrollToRow(n), env);
    }
    if b.search.current.Some? && b.search.current.value < |a.search.matches| && b != a {
      OthersAgree(SetTerm(a, Sel(a).term.ScrollToRow(a.search.matches[b.search.current.value].row)), b, env);
    }
  }

  lemma ScrollActionAgrees(a: State, action: Keys.Action, env: Env, m: Moment)
    requires a.selected < |a.procs| && SizesAgree(a, env)
    requires action.ScrollUp? || action.ScrollDown? || action.ScrollToTop? || action.ScrollToBottom? || action.SearchCancel?
    ensures SizesAgree(HandleAction(a, action, env, m), env)
  {
    hide SizesAgree, SetTerm, SameSize, Wf;
    hide Terminal.Term.ScrollUp, Terminal.Term.ScrollDown, Terminal.Term.ScrollToTop, Terminal.Term.ScrollToBottom;
    var t := Sel(a).term;
    match action
    case ScrollUp(amount) =>
      ScrollKeepsSize(t, Lines(a, amount));
      TermAgrees(a, t.ScrollUp(Lines(a, amount)), env);
    case ScrollDown(amount) =>
      ScrollKeepsSize(t, Lines(a, amount));
      TermAgrees(a, t.ScrollDown(Lines(a, amount)), env);
    case ScrollToTop =>
      ScrollKeepsSize(t, 0);
      TermAgrees(a, t.ScrollToTop(), env);
    case ScrollToBottom =>
      ScrollKeepsSize(t, 0);
      TermAgrees(a, t.ScrollToBottom(), env);
    case SearchCancel =>
      ScrollKeepsSize(t, 0);
      TermAgrees(a, t.ScrollToBottom(), env);
      OthersAgree(SetTerm(a, t.ScrollToBottom()), HandleAction(a, action, env, m), env);
  }

  lemma ProcessActionAgrees(a: State, action: Keys.Action, env: Env, m: Moment)
    requires a.selected < |a.procs| && SizesAgree(a, env)
    requires action.StartProcess? || action.StopProcess? || action.RestartProcess? || action.ForwardKey?
    ensures SizesAgree(HandleAction(a, action, env, m), env)
  {
    hide SizesAgree, SetSel, SameSize, Wf;
    hide Process.Proc.Start, Process.Proc.Stop, Process.Proc.Restart, Process.Proc.Write;
    var p := Sel(a);
    match action
    case StartProcess =>
      StartKeepsSize(p, env, m);
      SelAgrees(a, p.Start(env.emulator, m), env);
    case StopProcess =>
      StopKeepsSize(p, env, m);
      SelAgrees(a, p.Stop(), env);
    case RestartProcess =>
      StopKeepsSize(p, env, m);
      var (q, again) := p.Restart();
      SelAgrees(a, if again then q.Start(env.emulator, m) else q, env);
    case ForwardKey(key) =>
      WriteKeepsSize(p, env, env.keyBytes(key));
      SelAgrees(a, p.Write(env.emulator, env.keyBytes(key)), env);
  }

  lemma HelpAgrees(a: State, env: Env)
    requires SizesAgree(a, env)
    ensures SizesAgree(ResizeProcs(a.(showHelp := !a.showHelp), env), env)
  {
    ResizeFits(a.(showHelp := !a.showHelp), env);
    hide ResizeProcs;
  }

  lemma GoneAgrees(a: State, env: Env)
    requires a.client.None?
    ensures SizesAgree(a, env)
  {}

  lemma ActionAgrees(a: State, action: Keys.Action, env: Env, m: Moment)
    requires a.selected < |a.procs| && SizesAgree(a, env)
    ensures SizesAgree(HandleAction(a, action, env, m), env)
  {
    hide SizesAgree, AcceptSearch, Navigate, BeginQuit, DetachClient, ResizeProcs, AllStopped, Wf, Placeholder;
    var b := HandleAction(a, action, env, m);
    match action
    case ScrollUp(_) => ScrollActionAgrees(a, action, env, m);
    case ScrollDown(_) => ScrollActionAgrees(a, action, env, m);
    case ScrollToTop => ScrollActionAgrees(a, action, env, m);
    case ScrollToBottom => ScrollActionAgrees(a, action, env, m);
    case SearchCancel => ScrollActionAgrees(a, action, env, m);
    case StartProcess => ProcessActionAgrees(a, action, env, m);
    case StopProcess => ProcessActionAgrees(a, action, env, m);
    case RestartProcess => ProcessActionAgrees(a, action, env, m);
    case ForwardKey(_) => ProcessActionAgrees(a, action, env, m);
    case SearchAccept => AcceptAgrees(a, env);
    case SearchNext => NavigateAgrees(a, true, env);
    case SearchPrev => NavigateAgrees(a, false, env);
    case Quit => QuitOrAskAgrees(a, b, env);
    case ForceQuit => QuitOrAskAgrees(a, b, env);
    case Detach => GoneAgrees(b, env);
    case ToggleHelp => HelpAgrees(a, env);
    case _ => OthersAgree(a, b, env);
  }

  lemma QuitOrAskAgrees(a: State, b: State, env: Env)
    requires SizesAgree(a, env)
    requires b == BeginQuit(a, env) || b == a.(mode := Keys.ConfirmQuit) || b == a.(shouldQuit := true)
    ensures SizesAgree(b, env)
  {
    QuitAgrees(a, env);
    hide BeginQuit;
  }

  lemma CtEventAgrees(a: State, event: CtEvent, env: Env, m: Moment)
    requires a.selected < |a.procs| && SizesAgree(a, env)
    ensures SizesAgree(HandleCtEvent(a, event, env, m), env)
  {
    hide SizesAgree, HandleAction, TabAt, Keys.Resolve, Terminal.Term.ScrollUp, Terminal.Term.ScrollDown, SetTerm, SameSize;
    var t := Sel(a).term;
    ScrollKeepsSize(t, MOUSE_SCROLL_LINES);
    match event
    case KeyPress(key) =>
      var r := Keys.Resolve(key, a.mode, Sel(a).config.unfocus);
      if r.Some? { ActionAgrees(a, r.value, env, m); }
    case WheelUp => TermAgrees(a, t.ScrollUp(MOUSE_SCROLL_LINES), env);
    case WheelDown => TermAgrees(a, t.ScrollDown(MOUSE_SCROLL_LINES), env);
    case _ => OthersAgree(a, HandleCtEvent(a, event, env, m), env);
  }

  lemma MsgAgrees(a: State, msg: ClientMsg, env: Env, m: Moment)
    requires Wf(a) && a.client.Some? && !a.client.value.session.said && SizesAgree(a, env)
    ensures SizesAgree(HandleClientMsg(a, msg, env, m), env)
  {
    var b := HandleClientMsg(a, msg, env, m);
    match msg {
      case Event(event) =>
        hide SizesAgree, HandleCtEvent, Process.Proc.SyncPaused, SetSel, SameSize, Wf;
        var c := HandleCtEvent(a, event, env, m);
        CtEventAgrees(a, event, env, m);
        if c.selected < |c.procs| {
          StopKeepsSize(Sel(c), env, m);
          SelAgrees(c, Sel(c).SyncPaused(), env);
          OthersAgree(SetSel(c, Sel(c).SyncPaused()), b, env);
        } else {
          OthersAgree(c, b, env);
        }
      case Resize(cols, rows) =>
        var size := Delivery.Size(cols, rows);
        var s := Delivery.Next(a.client.value.session, Delivery.ResizeStep(size));
        ResizeFits(SetSession(a, s).(size := size), env);
        hide ResizeProcs;
    }
  }

  lemma DrawAgrees(a: State, env: Env)
    requires Wf(a) && a.client.Some? && !a.client.value.session.said && SizesAgree(a, env)
    ensures SizesAgree(Draw(a, env), env)
  {
    var s := a.client.value.session;
    var view := env.paint(ViewOf(a, env), s.sender.size);
    DrawKeepsSize(s, view);
    hide ViewOf, Delivery.Next, Delivery.Sender.Draw, SizesAgree, SetTerm, SameSize, DropClient;
    HighlightsKeepSize(a, env);
    hide Highlights;
    var b := SetTerm(a, Highlights(a, env).0);
    TermAgrees(a, Highlights(a, env).0, env);
    SentAgrees(b, Delivery.Next(s, Delivery.DrawStep(view)), env);
    GoneAgrees(DropClient(SetSession(b, Delivery.Next(s, Delivery.DrawStep(view)))), env);
  }

  lemma HighlightsKeepSize(a: State, env: Env)
    requires Wf(a)
    ensures SameSize(Sel(a).term, Highlights(a, env).0)
  {}

  lemma SentAgrees(a: State, s: Delivery.Session, env: Env)
    requires a.client.Some? && SizesAgree(a, env) && s.sender.size == a.client.value.session.sender.size
    ensures SizesAgree(SetSession(a, s), env) && SizesAgree(SetSession(a, s).(dirty := false), env)
  {}

  lemma DrawKeepsSize(s: Delivery.Session, view: Delivery.Picture)
    requires !s.said
    ensures Delivery.Next(s, Delivery.DrawStep(view)).sender.size == s.sender.size
  {}

  lemma ProcAgrees(a: State, id: nat, p: Proc, env: Env)
    requires SizesAgree(a, env) && id < |a.procs|
    requires SameSize(a.procs[id].term, p.term)
    ensures SizesAgree(SetProc(a, id, p), env)
  {}

  lemma AttachAgrees(a: State, id: nat, size: Delivery.Size, screen: Delivery.Picture, env: Env)
    ensures SizesAgree(AttachClient(a, id, size, screen, env), env)
  {
    ResizeFits(DetachClient(a).(size := size), env);
    hide DetachClient, ResizeProcs;
  }

  lemma OutputAgrees(a: State, id: nat, data: Process.Bytes, env: Env)
    requires SizesAgree(a, env)
    ensures SizesAgree(HandleOutput(a, id, data, env), env)
  {
    if id < |a.procs| {
      WriteKeepsSize(a.procs[id], env, data);
      ProcAgrees(a, id, a.procs[id].HandleOutput(env.emulator, data), env);
      hide Process.Proc.HandleOutput;
    }
  }

  lemma ExitAgrees(a: State, id: nat, status: Process.Status, env: Env, m: Moment)
    requires SizesAgree(a, env)
    ensures SizesAgree(HandleExit(a, id, status, env, m), env)
  {
    if id < |a.procs| {
      ExitKeepsSize(a.procs[id], env, m, status);
      ProcAgrees(a, id, a.procs[id].Exited(env.emulator, status, m), env);
      hide Process.Proc.Exited;
    }
  }

  lemma ConnectionKeepsSize(s: Delivery.Session, step: Delivery.Step)
    requires Delivery.Enabled(s, step) && Delivery.Beside(step)
    ensures Delivery.Next(s, step).sender.size == s.sender.size
  {}

  /** No event lets the sizes drift apart. */
  lemma NextAgrees(a: State, event: Event, env: Env)
    requires Wf(a) && Talking(a) && Enabled(a, event) && SizesAgree(a, env)
    ensures SizesAgree(Next(a, event, env), env)
  {
    hide Draw, HandleClientMsg, BeginQuit, AttachClient, DropClient, HandleOutput, HandleExit, Delivery.Next, Delivery.Enabled;
    hide Wf;
    match event
    case Tick => DrawAgrees(a, env);
    case Attach(id, size, screen) => AttachAgrees(a, id, size, screen, env);
    case QuitRequest => QuitAgrees(a, env);
    case Signal => QuitAgrees(a, env);
    case Msg(msg, m) => MsgAgrees(a, msg, env, m);
    case Hangup => GoneAgrees(DropClient(a), env);
    case PtyOutput(id, data) => OutputAgrees(a, id, data, env);
    case ProcessExited(id, status, m) => ExitAgrees(a, id, status, env, m);
    case Connection(step) => ConnectionKeepsSize(a.client.value.session, step);
    case WatcherGone(id) => ProcAgrees(a, id, a.procs[id].(watchers := a.procs[id].watchers - 1), env);
    case InputTaken(id) => ProcAgrees(a, id, a.procs[id].(queue := a.procs[id].queue[1..]), env);
    case _ =>
  }

  /**
   * Over any run from start-up, while a client is attached: its frames are drawn
   * for the size the server works with, and each process's terminal is exactly as
   * large as the part of the screen between the tab bar and the status bar or the
   * help panel.
   */
  lemma {:induction false} SizesAlwaysAgree(configs: seq<Process.Config>, scrollback: seq<nat>, moments: seq<Moment>,
                                           events: seq<Event>, env: Env)
    requires |configs| == |scrollback| == |moments| > 0
    ensures SizesAgree(Play(Boot(configs, scrollback, moments, env), events, env), env)
  {
    hide Boot, Next, SizesAgree;
    var a := Boot(configs, scrollback, moments, env);
    if events == [] {
      AppView.BootIsWf(configs, scrollback, moments, env);
      GoneAgrees(a, env);
    } else {
      var n := |events| - 1;
      SizesAlwaysAgree(configs, scrollback, moments, events[..n], env);
      var before := Play(a, events[..n], env);
      if Wf(before) && Talking(before) && Enabled(before, events[n]) && !Exits(before) {
        NextAgrees(before, events[n], env);
      }
    }
  }
}
