/** What the attached client sees: the dirty flag is sound, and a settled client shows the current state. */
module AppView {
  import opened Prelude
  import opened App
  import opened Emulation
  import Delivery
  import Keys
  import Process
  import Tabs
  import Terminal

  // ------------------------------------------------------------- well-formedness

  lemma ActionKeepsWf(a: State, action: Keys.Action, env: Env, m: Moment)
    requires Wf(a)
    ensures Wf(HandleAction(a, action, env, m))
  {
    hide AcceptSearch, Navigate, BeginQuit, DetachClient, ResizeProcs;
    hide Terminal.Term.ScrollUp, Terminal.Term.ScrollDown, Terminal.Term.ScrollToBottom, Terminal.Term.ScrollToTop;
    hide Process.Proc.Start, Process.Proc.Stop, Process.Proc.Restart, Process.Proc.Write;
  }

  /** A click on the tab bar only ever hits one of the tabs. */
  lemma ClickHitsTab(a: State, col: nat)
    requires a.selected < |a.procs|
    ensures TabAt(a, col).Some? ==> TabAt(a, col).value < |a.procs|
  {
    var names := Names(a.procs);
    var (first, last) := Tabs.Range(Tabs.Widths(names), a.selected, a.size.cols);
    OwnersAreTabs(names, first, last);
  }

  lemma {:induction false} OwnersAreTabs(names: seq<nat>, i: nat, last: nat)
    requires i <= last <= |names|
    ensures forall k :: 0 <= k < |Tabs.TabColumns(names, i, last)| ==>
      Tabs.TabColumns(names, i, last)[k].Some? && Tabs.TabColumns(names, i, last)[k].value < |names|
    decreases last - i
  {
    if i < last { OwnersAreTabs(names, i + 1, last); }
  }

  lemma CtEventKeepsWf(a: State, event: CtEvent, env: Env, m: Moment)
    requires Wf(a)
    ensures Wf(HandleCtEvent(a, event, env, m))
  {
    hide HandleAction, TabAt, Keys.Resolve, Terminal.Term.ScrollUp, Terminal.Term.ScrollDown;
    match event
    case KeyPress(key) =>
      var r := Keys.Resolve(key, a.mode, Sel(a).config.unfocus);
      if r.Some? { ActionKeepsWf(a, r.value, env, m); }
    case Click(row, col) => ClickHitsTab(a, col);
    case _ =>
  }

  lemma MsgKeepsWf(a: State, msg: ClientMsg, env: Env, m: Moment)
    requires Wf(a) && a.client.Some? && !a.client.value.session.said
    ensures Wf(HandleClientMsg(a, msg, env, m))
  {
    hide HandleCtEvent, App.SetSize, Delivery.Next, Process.Proc.SendPause;
    if msg.Event? { CtEventKeepsWf(a, msg.event, env, m); }
  }

  lemma DrawKeepsWf(a: State, env: Env)
    requires Wf(a) && a.client.Some? && !a.client.value.session.said
    ensures Wf(Draw(a, env))
  {
    hide DropClient, Delivery.Next, Terminal.Term.FindVisible;
  }

  lemma NextKeepsWf(a: State, event: Event, env: Env)
    requires Wf(a) && Talking(a) && Enabled(a, event)
    ensures Wf(Next(a, event, env))
  {
    hide Draw, HandleClientMsg, BeginQuit, DetachClient, DropClient, App.SetSize, Delivery.Next;
    hide Process.Proc.HandleOutput, Process.Proc.Exited, Delivery.Enabled;
    match event
    case Tick => DrawKeepsWf(a, env);
    case Msg(msg, m) => MsgKeepsWf(a, msg, env, m);
    case _ =>
  }

  // -------------------------------------------------------------- what a view reads

  /** A process's tab, and the terminal of the selected one, are all that a view shows of the processes. */
  lemma ViewIgnores(a: State, id: nat, p: Proc, env: Env)
    requires Wf(a) && id < |a.procs| && p.Ok()
    requires p.life == a.procs[id].life && p.config == a.procs[id].config
    requires id == a.selected ==> p.term == a.procs[id].term
    ensures Wf(SetProc(a, id, p)) && ViewOf(SetProc(a, id, p), env) == ViewOf(a, env)
  {
    LiveCountUpdate(a.procs, id, p);
    assert States(SetProc(a, id, p).procs) == States(a.procs);
    assert Names(SetProc(a, id, p).procs) == Names(a.procs);
  }

  /** Looking up the highlights for one frame does not change what the next one would show. */
  lemma LookupKeepsView(a: State, env: Env)
    requires Wf(a)
    ensures var b := SetTerm(a, Highlights(a, env).0); Wf(b) && ViewOf(b, env) == ViewOf(a, env)
  {
    var t := Highlights(a, env).0;
    var b := SetTerm(a, t);
    LiveCountUpdate(a.procs, a.selected, Sel(a).(term := t));
    assert States(b.procs) == States(a.procs) && Names(b.procs) == Names(a.procs);
    LookupTwice(Sel(a).term, a.search.query, env);
  }

  lemma LookupTwice(t: Process.Term, query: string, env: Env)
    requires Valid(t.vt)
    ensures t.FindVisible(query, env.lower).0.FindVisible(query, env.lower).1 == t.FindVisible(query, env.lower).1
  {
    hide Terminal.VisibleMatches;
  }

  /** What a tab shows of a process: one of four states. A pending restart does not show. */
  predicate SameTab(p: Proc, q: Proc) {
    && (p.life.Running? <==> q.life.Running?) && (p.life.Stopping? <==> q.life.Stopping?)
    && (p.life.Failed? <==> q.life.Failed?) && p.config.nameWidth == q.config.nameWidth
  }

  /**
   * Two servers look alike exactly if all of this is the same: each tab's state
   * and name, the selection, the mode, the help panel, the search with its place
   * among its matches, the selected terminal, its highlights, and how many
   * processes have not ended.
   */
  lemma LooksAlikeIff(a: State, b: State, env: Env)
    requires Wf(a) && Wf(b)
    ensures ViewOf(a, env) == ViewOf(b, env) <==>
      && |a.procs| == |b.procs| && (forall i :: 0 <= i < |a.procs| ==> SameTab(a.procs[i], b.procs[i]))
      && a.selected == b.selected && a.mode == b.mode && a.showHelp == b.showHelp
      && a.search.query == b.search.query && a.search.lastQuery == b.search.lastQuery
      && a.search.current == b.search.current && |a.search.matches| == |b.search.matches|
      && Sel(a).term.vt == Sel(b).term.vt && Highlights(a, env).1 == Highlights(b, env).1
  {
    hide Highlights, LiveCount;
    var v, w := ViewOf(a, env), ViewOf(b, env);
    if v.states == w.states && v.names == w.names {
      forall i | 0 <= i < |a.procs|
        ensures SameTab(a.procs[i], b.procs[i])
      {
        assert v.states[i] == w.states[i] && v.names[i] == w.names[i];
      }
    }
    if |a.procs| == |b.procs| && forall i :: 0 <= i < |a.procs| ==> SameTab(a.procs[i], b.procs[i]) {
      assert forall i :: 0 <= i < |a.procs| ==> v.states[i] == w.states[i] && v.names[i] == w.names[i];
      assert v.states == w.states && v.names == w.names;
      SameTabCount(a.procs, b.procs);
    }
  }

  lemma {:induction false} SameTabCount(p: seq<Proc>, q: seq<Proc>)
    requires |p| == |q| && forall i :: 0 <= i < |p| ==> SameTab(p[i], q[i])
    ensures LiveCount(p) == LiveCount(q)
  {
    if p != [] { SameTabCount(p[..|p| - 1], q[..|q| - 1]); }
  }

  /** The number shown while quitting: none exactly if every process has ended, and it is that of their indices. */
  lemma {:induction false} RemainingCounts(procs: seq<Proc>)
    ensures LiveCount(procs) == |set i | 0 <= i < |procs| && procs[i].Live()|
  {
    var live := set i | 0 <= i < |procs| && procs[i].Live();
    if procs != [] {
      var n := |procs| - 1;
      RemainingCounts(procs[..n]);
      var before := set i | 0 <= i < n && procs[..n][i].Live();
      assert live == if procs[n].Live() then before + {n} else before;
    }
  }

  /** Highlights are shown once the query has been typed, and are those of the rows in view unless a stale cache answers. */
  lemma HighlightsShown(a: State, env: Env)
    requires Wf(a)
    ensures a.mode.Search? || a.search.query == [] ==> ViewOf(a, env).highlights == []
    ensures var t, q := Sel(a).term, a.search.query;
      !a.mode.Search? && q != []
      && (t.dirty || t.visibleQuery != q || t.visibleOffset != Some(Offset(t.vt)) || Terminal.VisibleFresh(t, q, env.lower)) ==>
        ViewOf(a, env).highlights == Terminal.VisibleMatches(t.vt, q, env.lower)
  {
    hide Terminal.VisibleMatches;
  }

  // ----------------------------------------------------------------- the dirty flag

  /** The last picture rendered for the client is the one a redraw would give, and it has been sent. */
  ghost predicate UpToDate(a: State, env: Env)
    requires Wf(a) && a.client.Some?
  {
    var c := a.client.value.session.sender;
    c.output == [] && c.prev == Picture(a, env, c.size)
  }

  ghost predicate ViewInv(a: State, env: Env) {
    && Wf(a) && Talking(a)
    && (a.client.Some? ==> Delivery.Inv(a.client.value.session))
    && (a.client.Some? && !a.dirty ==> UpToDate(a, env))
  }

  lemma DrawKeepsViewInv(a: State, env: Env)
    requires ViewInv(a, env) && a.client.Some?
    ensures ViewInv(Draw(a, env), env)
  {
    DrawKeepsWf(a, env);
    LookupKeepsView(a, env);
    var s := a.client.value.session;
    var step := Delivery.DrawStep(env.paint(ViewOf(a, env), s.sender.size));
    hide DropClient, ViewOf, Highlights, Delivery.Fill, Delivery.Inv, Delivery.Sender.Draw;
    Delivery.StepKeepsInv(s, step);
    var looked := SetTerm(a, Highlights(a, env).0);
    if s.sender.Draw(step.view).1.Sent? {
      SentShows(s.sender, step.view);
      SameView(looked, Draw(a, env), env);
    }
  }

  lemma SentShows(c: Delivery.Sender, view: Delivery.Picture)
    requires c.Draw(view).1.Sent?
    ensures var d := c.Draw(view).0; d.output == [] && d.size == c.size && d.prev == Delivery.Fill(view, c.size)
  {}

  /** A view depends on nothing but these. */
  lemma SameView(a: State, b: State, env: Env)
    requires Wf(a) && a.procs == b.procs && a.selected == b.selected && a.mode == b.mode
    requires a.showHelp == b.showHelp && a.search == b.search
    ensures Wf(b) && ViewOf(b, env) == ViewOf(a, env)
  {}

  lemma MsgKeepsViewInv(a: State, msg: ClientMsg, env: Env, m: Moment)
    requires ViewInv(a, env) && a.client.Some?
    ensures ViewInv(HandleClientMsg(a, msg, env, m), env)
  {
    MsgKeepsWf(a, msg, env, m);
    match msg
    case Event(event) => CtEventKeepsClient(a, event, env, m);
    case Resize(cols, rows) =>
      Delivery.StepKeepsInv(a.client.value.session, Delivery.ResizeStep(Delivery.Size(cols, rows)));
      hide Delivery.Inv;
  }

  lemma ActionKeepsClient(a: State, action: Keys.Action, env: Env, m: Moment)
    requires a.selected < |a.procs|
    ensures var b := HandleAction(a, action, env, m); b.client == a.client || b.client.None?
  {
    hide AcceptSearch, Navigate, BeginQuit, DetachClient, ResizeProcs;
    hide Terminal.Term.ScrollUp, Terminal.Term.ScrollDown, Terminal.Term.ScrollToBottom, Terminal.Term.ScrollToTop;
    hide Process.Proc.Start, Process.Proc.Stop, Process.Proc.Restart, Process.Proc.Write;
  }

  /** Input never touches the client's connection, other than by detaching it. */
  lemma CtEventKeepsClient(a: State, event: CtEvent, env: Env, m: Moment)
    requires a.selected < |a.procs|
    ensures var b := HandleCtEvent(a, event, env, m); b.client == a.client || b.client.None?
  {
    hide HandleAction, TabAt, Keys.Resolve, Terminal.Term.ScrollUp, Terminal.Term.ScrollDown;
    if event.KeyPress? {
      var r := Keys.Resolve(event.key, a.mode, Sel(a).config.unfocus);
      if r.Some? { ActionKeepsClient(a, r.value, env, m); }
    }
  }

  lemma ConnectionKeepsViewInv(a: State, step: Delivery.Step, env: Env)
    requires ViewInv(a, env) && Enabled(a, Connection(step))
    ensures ViewInv(Next(a, Connection(step), env), env)
  {
    hide ViewOf, Delivery.Fill, Delivery.Inv;
    Delivery.StepKeepsInv(a.client.value.session, step);
    SameView(a, Next(a, Connection(step), env), env);
  }

  lemma OutputKeepsViewInv(a: State, id: nat, data: Process.Bytes, env: Env)
    requires ViewInv(a, env)
    ensures ViewInv(HandleOutput(a, id, data, env), env)
  {
    hide ViewOf, Delivery.Fill, Delivery.Inv, Terminal.Term.Process;
    var b := HandleOutput(a, id, data, env);
    if id >= |a.procs| {
      SameView(a, b, env);
    } else if id != a.selected {
      ViewIgnores(a, id, b.procs[id], env);
      SameView(SetProc(a, id, b.procs[id]), b, env);
    }
  }

  lemma QuitKeepsViewInv(a: State, env: Env)
    requires ViewInv(a, env)
    ensures ViewInv(BeginQuit(a, env), env)
  {
    hide ViewOf, Delivery.Fill, Delivery.Inv, ResizeProcs, Process.Proc.Stop;
    var b := BeginQuit(a, env);
    if AllStopped(a) { SameView(a, b, env); }
  }

  lemma AttachKeepsViewInv(a: State, id: nat, size: Delivery.Size, screen: Delivery.Picture, env: Env)
    requires ViewInv(a, env)
    ensures ViewInv(AttachClient(a, id, size, screen, env), env)
  {
    Delivery.StartInv(size, screen);
    hide Delivery.Inv, DetachClient, App.SetSize, ViewOf;
  }

  lemma DropKeepsViewInv(a: State, env: Env)
    requires ViewInv(a, env)
    ensures ViewInv(DropClient(a), env)
  {
    hide Delivery.Inv, ResetView, ViewOf;
  }

  lemma ExitKeepsViewInv(a: State, id: nat, status: Process.Status, env: Env, m: Moment)
    requires ViewInv(a, env)
    ensures ViewInv(HandleExit(a, id, status, env, m), env)
  {
    hide Delivery.Inv, ViewOf, Process.Proc.Exited;
  }

  /** What only concerns one process's watchers or its input queue, or an earlier client. */
  lemma BesidesKeepsViewInv(a: State, event: Event, env: Env)
    requires ViewInv(a, env) && Enabled(a, event) && (event.WatcherGone? || event.InputTaken? || event.GoodbyeMoves?)
    ensures ViewInv(Next(a, event, env), env)
  {
    hide ViewOf, Delivery.Fill, Delivery.Inv, Draw, HandleClientMsg, BeginQuit, AttachClient, DropClient;
    hide Delivery.Next, HandleOutput, HandleExit;
    var b := Next(a, event, env);
    match event
    case WatcherGone(id) => ViewIgnores(a, id, b.procs[id], env);
    case InputTaken(id) => ViewIgnores(a, id, b.procs[id], env);
    case _ => SameView(a, b, env);
  }

  /** The flag is sound whatever happens: attaching, input, output, exits, signals, draws, and the connection itself. */
  lemma NextKeepsViewInv(a: State, event: Event, env: Env)
    requires ViewInv(a, env) && Enabled(a, event)
    ensures ViewInv(Next(a, event, env), env)
  {
    hide ViewInv, Draw, HandleClientMsg, AttachClient, BeginQuit, DropClient, HandleOutput, HandleExit;
    match event
    case Tick => DrawKeepsViewInv(a, env);
    case Msg(msg, m) => MsgKeepsViewInv(a, msg, env, m);
    case Attach(id, size, screen) => AttachKeepsViewInv(a, id, size, screen, env);
    case Connection(step) => ConnectionKeepsViewInv(a, step, env);
    case PtyOutput(id, data) => OutputKeepsViewInv(a, id, data, env);
    case ProcessExited(id, status, m) => ExitKeepsViewInv(a, id, status, env, m);
    case QuitRequest => QuitKeepsViewInv(a, env);
    case Signal => QuitKeepsViewInv(a, env);
    case Hangup => DropKeepsViewInv(a, env);
    case _ => BesidesKeepsViewInv(a, event, env);
  }

  // ---------------------------------------------------------------- whole runs

  lemma BootIsWf(configs: seq<Process.Config>, scrollback: seq<nat>, moments: seq<Moment>, env: Env)
    requires |configs| == |scrollback| == |moments| > 0
    ensures var a := Boot(configs, scrollback, moments, env);
      Wf(a) && a.client.None? && a.mode.Normal? && a.search.matches == [] && a.search.current.None?
  {
    hide Process.Proc.Start;
  }

  /** A server starts with every process that is to start by itself running, or failed if it would not spawn, and no other. */
  lemma BootStartsWhatIsConfigured(configs: seq<Process.Config>, scrollback: seq<nat>, moments: seq<Moment>, env: Env, i: nat)
    requires |configs| == |scrollback| == |moments| && i < |configs|
    ensures var a := Boot(configs, scrollback, moments, env);
      && |a.procs| == |configs| && a.procs[i].config == configs[i] && a.procs[i].term.vt.cap == scrollback[i]
      && a.procs[i].life == (if !configs[i].autostart then Process.Stopped
                             else if moments[i].spawns then Process.Running else Process.Failed)
  {
    hide Terminal.Term.Banner;
    BootKeepsCap(configs, scrollback, moments, env, i);
  }

  lemma BootKeepsCap(configs: seq<Process.Config>, scrollback: seq<nat>, moments: seq<Moment>, env: Env, i: nat)
    requires |configs| == |scrollback| == |moments| && i < |configs|
    ensures var a := Boot(configs, scrollback, moments, env);
      |a.procs| == |configs| && a.procs[i].term.vt.cap == scrollback[i]
  {}

  lemma {:induction false} PlayKeepsViewInv(a: State, events: seq<Event>, env: Env)
    requires ViewInv(a, env)
    ensures ViewInv(Play(a, events, env), env)
  {
    if events != [] {
      hide ViewInv, Next;
      var n := |events| - 1;
      PlayKeepsViewInv(a, events[..n], env);
      var before := Play(a, events[..n], env);
      if Enabled(before, events[n]) && Wf(before) && Talking(before) && !Exits(before) {
        NextKeepsViewInv(before, events[n], env);
      }
    }
  }

  /**
   * End to end, over any run of the server: every frame the attached client has
   * applied shows a picture rendered for it, in order; and whenever nothing is
   * marked dirty and everything sent has arrived, its screen shows exactly the
   * view of the server's current state.
   */
  lemma ClientSeesCurrentState(configs: seq<Process.Config>, scrollback: seq<nat>, moments: seq<Moment>,
                               events: seq<Event>, env: Env)
    requires |configs| == |scrollback| == |moments| > 0
    ensures var a := Play(Boot(configs, scrollback, moments, env), events, env);
      && Wf(a)
      && (a.client.Some? ==>
            var s := a.client.value.session;
            && Delivery.Agrees(s.seen, s.rendered)
            && (!a.dirty && Delivery.Pipeline(s) == [] && !s.sender.closed ==>
                  Delivery.Same(s.screen, Picture(a, env, s.sender.size))))
  {
    BootIsWf(configs, scrollback, moments, env);
    PlayKeepsViewInv(Boot(configs, scrollback, moments, env), events, env);
  }

  // --------------------------------------------------------------- a clean start

  /**
   * Two servers that differ only in what belongs to a client's view: the mode,
   * the help panel, the search but for the last query, the focus, and how far
   * each process is scrolled back and paused.
   */
  ghost predicate SameBehindView(a: State, b: State) {
    && |a.procs| == |b.procs| && a.selected == b.selected && a.search.lastQuery == b.search.lastQuery
    && a.mode.Quitting? == b.mode.Quitting?
    && SameTabs(a.procs, b.procs)
    && forall i :: 0 <= i < |a.procs| ==>
         SetScrollback(a.procs[i].term.vt, 0) == SetScrollback(b.procs[i].term.vt, 0)
  }

  ghost predicate SameTabs(p: seq<Proc>, q: seq<Proc>) {
    |p| == |q| && forall i :: 0 <= i < |p| ==> p[i].life == q[i].life && p[i].config == q[i].config
  }

  lemma {:induction false} SameTabsShowTheSame(p: seq<Proc>, q: seq<Proc>)
    requires SameTabs(p, q)
    ensures LiveCount(p) == LiveCount(q) && States(p) == States(q) && Names(p) == Names(q)
  {
    if p != [] { SameTabsShowTheSame(p[..|p| - 1], q[..|q| - 1]); }
  }

  /** A client that attaches sees nothing of how the one before it left the view, apart from the last query and the tab. */
  lemma NextClientStartsClean(a: State, b: State, id: nat, size: Delivery.Size, screen: Delivery.Picture, env: Env)
    requires Wf(a) && Wf(b) && SameBehindView(a, b)
    ensures var c := AttachClient(a, id, size, screen, env); var d := AttachClient(b, id, size, screen, env);
      Wf(c) && Wf(d) && ViewOf(c, env) == ViewOf(d, env) && c.client == d.client && c.dirty
  {
    var c, d := AttachClient(a, id, size, screen, env), AttachClient(b, id, size, screen, env);
    AttachProcs(a, id, size, screen, env);
    AttachProcs(b, id, size, screen, env);
    hide AttachClient, ViewOf, Wf, Delivery.Start, Resized, LiveCount, States, Names;
    SameTabsShowTheSame(c.procs, d.procs);
    CleanView(c, env);
    CleanView(d, env);
  }

  lemma CleanView(a: State, env: Env)
    requires Wf(a) && a.search.query == []
    ensures a.selected < |a.procs|
    ensures ViewOf(a, env)
      == View(States(a.procs), Names(a.procs), a.selected, a.mode, a.showHelp, [], a.search.lastQuery,
              a.search.current, |a.search.matches|, LiveCount(a.procs), Sel(a).term.vt, [])
  {}

  /** What resizing the terminals for a client with help closed makes of one of them. */
  function Resized(vt: Vt, size: Delivery.Size, env: Env): Vt {
    var rows := SatSub(size.rows, 2);
    Emulation.SetSize(vt, Max(rows, 1), Max(size.cols, 1), env.emulator.resized(vt, rows, size.cols))
  }

  /** The selected process is scrolled to the bottom and resized. */
  lemma AttachProcs(a: State, id: nat, size: Delivery.Size, screen: Delivery.Picture, env: Env)
    requires Wf(a)
    ensures var c := AttachClient(a, id, size, screen, env);
      && |c.procs| == |a.procs| && c.selected == a.selected && c.search == a.search.Clear()
      && c.mode == (if a.mode.Quitting? then Keys.Quitting else Keys.Normal) && !c.showHelp && c.dirty && Wf(c)
      && c.client == Some(Attached(id, Delivery.Start(size, screen)))
      && SameTabs(c.procs, a.procs)
      && Sel(c).term.vt == Resized(SetScrollback(Sel(a).term.vt, 0), size, env)
  {
    hide Delivery.Start, DetachClient, App.SetSize, Resized;
    var b := DetachClient(a);
    DetachProcs(a);
    SizeProcs(b, size, env);
  }

  lemma DetachProcs(a: State)
    requires Wf(a)
    ensures var b := DetachClient(a);
      && Wf(b) && b.selected == a.selected && b.search == a.search.Clear() && SameTabs(b.procs, a.procs)
      && b.mode == (if a.mode.Quitting? then Keys.Quitting else Keys.Normal) && !b.showHelp
      && Sel(b).term.vt == SetScrollback(Sel(a).term.vt, 0)
  {
    hide Unfinished, Process.Proc.SendPause;
  }

  lemma SizeProcs(a: State, size: Delivery.Size, env: Env)
    requires Wf(a) && !a.showHelp
    ensures var b := App.SetSize(a, env, size);
      && b == a.(size := size, procs := b.procs) && Wf(b) && SameTabs(b.procs, a.procs)
      && Sel(b).term.vt == Resized(Sel(a).term.vt, size, env)
  {}
}
