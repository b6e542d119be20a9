/**
 * The server's event loop: the state of the App, what each event does to it, and
 * what holds whatever events come. Event handlers are functions on the state;
 * AppObject.dfy has the object that changes it in place.
 */
module App {
  import opened Prelude
  import opened Emulation
  import opened Search
  import opened Keys
  import Delivery
  import Process
  import Protocol
  import Tabs
  import Terminal

  type Proc = Process.Proc
  type Moment = Process.Moment

  const MOUSE_SCROLL_LINES: nat := 3

  /** `from` records which process the matches were found in. */
  datatype SearchState = SearchState(
    query: string, lastQuery: string, matches: seq<MatchSpan>, current: Option<nat>, from: nat)
  {
    function Clear(): SearchState { this.(query := [], matches := [], current := None) }
  }

  datatype Attached = Attached(id: nat, session: Delivery.Session)

  /** A client that was let go of with a message, and its connection since. */
  datatype Goodbye = Goodbye(id: nat, msg: Delivery.Msg, session: Delivery.Session)

  function Farewell(c: Attached, msg: Delivery.Msg): Goodbye {
    Goodbye(c.id, msg, Delivery.LetGo(c.session, msg))
  }

  datatype State = State(
    procs: seq<Proc>, selected: nat, mode: Mode, showHelp: bool, size: Delivery.Size,
    shouldQuit: bool, dirty: bool, search: SearchState, focused: bool,
    client: Option<Attached>, goodbyes: seq<Goodbye>)

  /** What the libraries around the App do: emulation, case folding, drawing, key encoding, the help panel's height. */
  datatype Env = Env(
    emulator: Process.Emulator, lower: Fold, paint: (View, Delivery.Size) -> Delivery.Picture,
    keyBytes: Key -> Process.Bytes, helpHeight: nat -> nat)

  datatype CtEvent =
    | KeyPress(key: Key)
    | WheelUp
    | WheelDown
    | Click(row: nat, col: nat)
    | FocusGained
    | FocusLost
    | OtherEvent

  type ClientMsg = Protocol.ClientMsg<CtEvent>

  // ------------------------------------------------------------------ the view

  /** Everything a frame is drawn from. */
  datatype View = View(
    states: seq<Process.Life>, names: seq<nat>, selected: nat, mode: Mode, showHelp: bool,
    query: string, lastQuery: string, current: Option<nat>, matchCount: nat,
    remaining: nat, screen: Vt, highlights: seq<MatchSpan>)

  ghost predicate Wf(a: State) {
    && a.selected < |a.procs|
    && forall i :: 0 <= i < |a.procs| ==> a.procs[i].Ok()
  }

  function Sel(a: State): Proc
    requires a.selected < |a.procs|
  {
    a.procs[a.selected]
  }

  function SetSel(a: State, p: Proc): State
    requires a.selected < |a.procs|
  {
    a.(procs := a.procs[a.selected := p])
  }

  function SetTerm(a: State, t: Process.Term): State
    requires a.selected < |a.procs|
  {
    SetSel(a, Sel(a).(term := t))
  }

  /** The visible matches of the selected process, and its terminal once they have been looked up. */
  function Highlights(a: State, env: Env): (r: (Process.Term, seq<MatchSpan>))
    requires Wf(a)
    ensures r.0.vt == Sel(a).term.vt
  {
    if a.search.query != [] && !a.mode.Search? then Sel(a).term.FindVisible(a.search.query, env.lower)
    else (Sel(a).term, [])
  }

  /** The state a process's tab shows: pending restarts are not visible. */
  function TabState(p: Proc): Process.Life {
    if p.life.Stopping? then Process.Stopping(false) else p.life
  }

  function States(procs: seq<Proc>): (s: seq<Process.Life>)
    ensures |s| == |procs|
  {
    seq(|procs|, i requires 0 <= i < |procs| => TabState(procs[i]))
  }

  function Names(procs: seq<Proc>): (s: seq<nat>)
    ensures |s| == |procs|
  {
    seq(|procs|, i requires 0 <= i < |procs| => procs[i].config.nameWidth)
  }

  /** How many processes have not ended. */
  function LiveCount(procs: seq<Proc>): nat {
    if procs == [] then 0
    else LiveCount(procs[..|procs| - 1]) + (if procs[|procs| - 1].Live() then 1 else 0)
  }

  lemma {:induction false} LiveCountUpdate(procs: seq<Proc>, id: nat, p: Proc)
    requires id < |procs|
    ensures LiveCount(procs[id := p]) + (if procs[id].Live() then 1 else 0)
      == LiveCount(procs) + (if p.Live() then 1 else 0)
  {
    var n := |procs| - 1;
    if id < n {
      LiveCountUpdate(procs[..n], id, p);
      assert procs[id := p][..n] == procs[..n][id := p];
    } else {
      assert procs[id := p][..n] == procs[..n];
    }
  }

  function ViewOf(a: State, env: Env): View
    requires Wf(a)
  {
    View(States(a.procs), Names(a.procs), a.selected, a.mode, a.showHelp,
         a.search.query, a.search.lastQuery, a.search.current, |a.search.matches|,
         LiveCount(a.procs), Sel(a).term.vt, Highlights(a, env).1)
  }

  /** The picture a redraw would show a client of this size now. */
  function Picture(a: State, env: Env, size: Delivery.Size): Delivery.Picture
    requires Wf(a)
  {
    Delivery.Fill(env.paint(ViewOf(a, env), size), size)
  }

  // -------------------------------------------------------------- small handlers

  function ResizeProcs(a: State, env: Env): (r: State)
    ensures Wf(a) ==> Wf(r)
    ensures |r.procs| == |a.procs| && r.selected == a.selected && r.client == a.client && r.goodbyes == a.goodbyes
    ensures r == a.(procs := r.procs)
  {
    var bottom := if a.showHelp then env.helpHeight(a.size.cols) else 1;
    var rows := SatSub(a.size.rows, 1 + bottom);
    a.(procs := seq(|a.procs|, i requires 0 <= i < |a.procs| => a.procs[i].Resize(env.emulator, rows, a.size.cols)))
  }

  function SetSize(a: State, env: Env, size: Delivery.Size): (r: State)
    ensures Wf(a) ==> Wf(r)
    ensures |r.procs| == |a.procs| && r.selected == a.selected && r.client == a.client && r.goodbyes == a.goodbyes
  {
    ResizeProcs(a.(size := size), env)
  }

  /** Drops what belongs to one client's view, so that the next one starts clean. */
  function ResetView(a: State): (r: State)
    ensures Wf(a) ==> Wf(r)
    ensures |r.procs| == |a.procs| && r.selected == a.selected && r.client == a.client && r.goodbyes == a.goodbyes
  {
    a.(mode := if a.mode.Quitting? then Quitting else Normal,
       showHelp := false, search := a.search.Clear(), focused := true,
       procs := seq(|a.procs|, i requires 0 <= i < |a.procs| =>
                  a.procs[i].(term := a.procs[i].term.ScrollToBottom()).SyncPaused()))
  }

  function DropClient(a: State): (r: State)
    ensures Wf(a) ==> Wf(r)
    ensures |r.procs| == |a.procs| && r.selected == a.selected && r.client.None?
  {
    ResetView(a.(client := None))
  }

  /** The goodbyes whose writer task is still at work. */
  function Unfinished(g: seq<Goodbye>): seq<Goodbye> {
    if g == [] then []
    else Unfinished(g[..|g| - 1]) + (if g[|g| - 1].session.sender.closed then [] else [g[|g| - 1]])
  }

  function DetachClient(a: State): (r: State)
    ensures Wf(a) ==> Wf(r)
    ensures |r.procs| == |a.procs| && r.selected == a.selected && r.client.None?
  {
    ResetView(match a.client
              case None => a
              case Some(c) => a.(client := None, goodbyes := Unfinished(a.goodbyes) + [Farewell(c, Delivery.Detached)]))
  }

  predicate AllStopped(a: State) {
    forall i :: 0 <= i < |a.procs| ==> !a.procs[i].Live()
  }

  function BeginQuit(a: State, env: Env): (r: State)
    ensures Wf(a) ==> Wf(r)
    ensures |r.procs| == |a.procs| && r.selected == a.selected && r.client == a.client && r.goodbyes == a.goodbyes
  {
    if AllStopped(a) then a.(shouldQuit := true) else StopEverything(a, env)
  }

  function StopEverything(a: State, env: Env): (r: State)
    ensures Wf(a) ==> Wf(r)
    ensures |r.procs| == |a.procs| && r.selected == a.selected && r.client == a.client && r.goodbyes == a.goodbyes
  {
    var b := ResizeProcs(a.(mode := Quitting, showHelp := false, dirty := true), env);
    b.(procs := StopAll(b.procs))
  }

  function StopAll(procs: seq<Proc>): (r: seq<Proc>)
    ensures |r| == |procs| && forall i :: 0 <= i < |procs| ==> r[i] == procs[i].Stop()
  {
    seq(|procs|, i requires 0 <= i < |procs| => procs[i].Stop())
  }

  function SelectTab(a: State, idx: nat): State {
    a.(selected := idx, search := a.search.Clear())
  }

  function Lines(a: State, amount: Amount): nat
    requires a.selected < |a.procs|
  {
    if amount.Line? then 1 else Sel(a).term.vt.rows
  }

  /** Fills in the previous query if none was typed. */
  function Placeholder(s: SearchState): SearchState {
    if s.query == [] && s.lastQuery != [] then s.(query := s.lastQuery) else s
  }

  /** Jumps to the last match not below the row after the view's last one, or the last of all. */
  function FirstJump(t: Process.Term, matches: seq<MatchSpan>, total: nat): (r: nat)
    requires matches != []
    ensures r < |matches|
  {
    var bottom := SatSub(total, t.vt.rows + Offset(t.vt)) + t.vt.rows;
    match Terminal.Previous(matches, bottom + 1) case Some(i) => i case None => |matches| - 1
  }

  /** Keeps the matches of a search and jumps to one of them. */
  function StoreMatches(a: State, matches: seq<MatchSpan>, total: nat): (r: State)
    requires a.selected < |a.procs|
    ensures Wf(a) ==> Wf(r)
    ensures |r.procs| == |a.procs| && r.selected == a.selected && r.client == a.client && r.goodbyes == a.goodbyes
    ensures r.search.query == a.search.query
  {
    if matches == [] then a.(search := a.search.(matches := matches))
    else
      var idx := FirstJump(Sel(a).term, matches, total);
      SetTerm(a, Sel(a).term.ScrollToRow(matches[idx].row))
        .(search := a.search.(matches := matches, current := Some(idx), from := a.selected))
  }

  /** Searches everything for the query, if a program has not taken over the screen. */
  function FindEverywhere(a: State, env: Env): (r: State)
    requires a.selected < |a.procs|
    ensures Wf(a) ==> Wf(r)
    ensures |r.procs| == |a.procs| && r.selected == a.selected && r.client == a.client && r.goodbyes == a.goodbyes
    ensures r.search.query == a.search.query
  {
    var t := Sel(a).term;
    if t.vt.alt.Some? then a
    else
      var (t', matches, total) := t.FindAll(a.search.query, env.lower);
      StoreMatches(SetTerm(a, t'), matches, total)
  }

  function AcceptSearch(a: State, env: Env): (r: State)
    requires a.selected < |a.procs|
    ensures Wf(a) ==> Wf(r)
    ensures |r.procs| == |a.procs| && r.selected == a.selected && r.client == a.client && r.goodbyes == a.goodbyes
  {
    var s := Placeholder(a.search);
    var b := FindEverywhere(a.(search := s), env);
    b.(search := if s.query != [] then b.search.(lastQuery := s.query) else b.search, mode := Normal)
  }

  function Navigate(a: State, forward: bool): (r: State)
    requires a.selected < |a.procs|
    ensures Wf(a) ==> Wf(r)
    ensures |r.procs| == |a.procs| && r.selected == a.selected && r.client == a.client && r.goodbyes == a.goodbyes
  {
    var t := Sel(a).term;
    if a.search.matches == [] || t.vt.alt.Some? then a
    else
      var center := Terminal.Center(t);
      var idx := if forward then Terminal.Next(a.search.matches, center)
                 else Terminal.Previous(a.search.matches, center);
      match idx
      case None => a
      case Some(i) =>
        SetTerm(a, t.ScrollToRow(a.search.matches[i].row)).(search := a.search.(current := Some(i)))
  }

  // ------------------------------------------------------------ actions and events

  function HandleAction(a: State, action: Action, env: Env, m: Moment): State
    requires a.selected < |a.procs|
  {
    var n := |a.procs|;
    var p := Sel(a);
    match action
    case SelectTab(idx) => if idx < n then SelectTab(a, idx) else a
    case NextTab => SelectTab(a, (a.selected + 1) % n)
    case PrevTab => SelectTab(a, (a.selected + n - 1) % n)
    case Focus => if p.life.Running? then a.(mode := Focused) else a
    case Unfocus => a.(mode := Normal)
    case StartProcess => SetSel(a, p.Start(env.emulator, m))
    case StopProcess => SetSel(a, p.Stop())
    case RestartProcess =>
      var (q, startNow) := p.Restart();
      SetSel(a, if startNow then q.Start(env.emulator, m) else q)
    case ScrollUp(amount) => SetTerm(a, p.term.ScrollUp(Lines(a, amount)))
    case ScrollDown(amount) => SetTerm(a, p.term.ScrollDown(Lines(a, amount)))
    case EnterSearch => a.(mode := Search, search := a.search.Clear())
    case SearchInput(c) => a.(search := a.search.(query := a.search.query + [c]))
    case SearchBackspace =>
      a.(search := a.search.(query := if a.search.query == [] then [] else a.search.query[..|a.search.query| - 1]))
    case SearchFillPlaceholder => a.(search := Placeholder(a.search))
    case SearchAccept => AcceptSearch(a, env)
    case SearchCancel => SetTerm(a, p.term.ScrollToBottom()).(search := a.search.Clear(), mode := Normal)
    case SearchNext => Navigate(a, true)
    case SearchPrev => Navigate(a, false)
    case ToggleHelp => ResizeProcs(a.(showHelp := !a.showHelp), env)
    case ScrollToTop => SetTerm(a, p.term.ScrollToTop())
    case ScrollToBottom => SetTerm(a, p.term.ScrollToBottom())
    case Quit => if !AllStopped(a) && !a.mode.ConfirmQuit? then a.(mode := ConfirmQuit) else BeginQuit(a, env)
    case ForceQuit => if a.mode.Quitting? then a.(shouldQuit := true) else BeginQuit(a, env)
    case Detach => DetachClient(a)
    case CancelQuit => a.(mode := Normal)
    case ForwardKey(key) => SetSel(a, p.Write(env.emulator, env.keyBytes(key)))
  }

  /** The tab a click on the tab bar hits, by the layout the tab bar is drawn with. */
  function TabAt(a: State, col: nat): Option<nat>
    requires a.selected < |a.procs|
  {
    var columns := Tabs.Layout(Names(a.procs), a.selected, a.size.cols);
    if col < |columns| then columns[col] else None
  }

  function HandleCtEvent(a: State, event: CtEvent, env: Env, m: Moment): State
    requires a.selected < |a.procs|
  {
    var p := Sel(a);
    match event
    case KeyPress(key) =>
      (match Resolve(key, a.mode, p.config.unfocus)
       case Some(action) => HandleAction(a, action, env, m)
       case None => a)
    case WheelUp => SetTerm(a, p.term.ScrollUp(MOUSE_SCROLL_LINES))
    case WheelDown => SetTerm(a, p.term.ScrollDown(MOUSE_SCROLL_LINES))
    case Click(row, col) =>
      (match if row == 0 then TabAt(a, col) else None
       case Some(idx) => SelectTab(a, idx).(mode := if a.mode.Focused? then Normal else a.mode)
       case None => a)
    case FocusGained => a.(focused := true)
    case FocusLost => a.(focused := false)
    case OtherEvent => a
  }

  datatype Event =
    | Tick
    | Attach(id: nat, size: Delivery.Size, screen: Delivery.Picture)
    | QuitRequest
    | Msg(msg: ClientMsg, m: Moment)
    | Hangup
    | PtyOutput(id: nat, data: Process.Bytes)
    | ProcessExited(id: nat, status: Process.Status, m: Moment)
    | Signal
    // What happens beside the loop: the client's writer and the client, watchers and input tasks, and clients let go of.
    | Connection(step: Delivery.Step)
    | WatcherGone(id: nat)
    | InputTaken(id: nat)
    | GoodbyeMoves(k: nat, step: Delivery.Step)

  function Moved(g: Goodbye, step: Delivery.Step): Goodbye
    requires Delivery.Enabled(g.session, step)
  {
    g.(session := Delivery.Next(g.session, step))
  }

  predicate Enabled(a: State, event: Event) {
    match event
    case Tick => a.dirty && a.client.Some?
    case Msg(_, _) => a.client.Some?
    case Hangup => a.client.Some?
    case Connection(step) =>
      a.client.Some? && Delivery.Enabled(a.client.value.session, step) && Delivery.Beside(step)
    case WatcherGone(id) => id < |a.procs| && a.procs[id].watchers > 0
    case InputTaken(id) => id < |a.procs| && a.procs[id].queue != []
    case GoodbyeMoves(k, step) =>
      k < |a.goodbyes| && Delivery.Enabled(a.goodbyes[k].session, step) && Delivery.Beside(step)
    case _ => true
  }

  function SetSession(a: State, s: Delivery.Session): State
    requires a.client.Some?
  {
    a.(client := Some(a.client.value.(session := s)))
  }

  /** Renders a frame unless the client is still busy with an earlier one. */
  function Draw(a: State, env: Env): State
    requires Wf(a) && a.client.Some? && !a.client.value.session.said
  {
    var s := a.client.value.session;
    var step := Delivery.DrawStep(env.paint(ViewOf(a, env), s.sender.size));
    var drawn := s.sender.Draw(step.view).1;
    if drawn.Busy? then a
    else
      var b := SetSession(SetTerm(a, Highlights(a, env).0), Delivery.Next(s, step));
      if drawn.Sent? then b.(dirty := false) else DropClient(b)
  }

  function HandleClientMsg(a: State, msg: ClientMsg, env: Env, m: Moment): State
    requires a.selected < |a.procs| && a.client.Some? && !a.client.value.session.said
  {
    var b := match msg
      case Event(event) =>
        var c := HandleCtEvent(a, event, env, m);
        if c.selected < |c.procs| then SetSel(c, Sel(c).SyncPaused()) else c
      case Resize(cols, rows) =>
        var size := Delivery.Size(cols, rows);
        SetSize(SetSession(a, Delivery.Next(a.client.value.session, Delivery.ResizeStep(size))), env, size);
    b.(dirty := true)
  }

  function SetProc(a: State, id: nat, p: Proc): State
    requires id < |a.procs|
  {
    a.(procs := a.procs[id := p])
  }

  /** Replaces the client, if there is one: it is told goodbye and the newcomer starts with a clean view. */
  function AttachClient(a: State, id: nat, size: Delivery.Size, screen: Delivery.Picture, env: Env): State {
    SetSize(DetachClient(a), env, size).(client := Some(Attached(id, Delivery.Start(size, screen))), dirty := true)
  }

  function HandleOutput(a: State, id: nat, data: Process.Bytes, env: Env): State {
    var b := if id < |a.procs| then SetProc(a, id, a.procs[id].HandleOutput(env.emulator, data)) else a;
    b.(dirty := a.dirty || id == a.selected)
  }

  function HandleExit(a: State, id: nat, status: Process.Status, env: Env, m: Moment): State {
    var b := if id < |a.procs| then SetProc(a, id, a.procs[id].Exited(env.emulator, status, m)) else a;
    b.(dirty := true)
  }

  /** The current client, if any, is one the server still talks to. */
  predicate Talking(a: State) {
    a.client.Some? ==> !a.client.value.session.said
  }

  function Next(a: State, event: Event, env: Env): State
    requires Wf(a) && Talking(a) && Enabled(a, event)
  {
    match event
    case Tick => Draw(a, env)
    case Attach(id, size, screen) => AttachClient(a, id, size, screen, env)
    case QuitRequest => BeginQuit(a, env)
    case Msg(msg, m) => HandleClientMsg(a, msg, env, m)
    case Hangup => DropClient(a)
    case PtyOutput(id, data) => HandleOutput(a, id, data, env)
    case ProcessExited(id, status, m) => HandleExit(a, id, status, env, m)
    case Signal => BeginQuit(a, env)
    case Connection(step) => SetSession(a, Delivery.Next(a.client.value.session, step))
    case WatcherGone(id) => SetProc(a, id, a.procs[id].(watchers := a.procs[id].watchers - 1))
    case InputTaken(id) => SetProc(a, id, a.procs[id].(queue := a.procs[id].queue[1..]))
    case GoodbyeMoves(k, step) => a.(goodbyes := a.goodbyes[k := Moved(a.goodbyes[k], step)])
  }

  /** Whether the event loop ends here. */
  predicate Exits(a: State) {
    a.shouldQuit || (a.mode.Quitting? && AllStopped(a))
  }

  /** A client that has connected and waits in the channel to be attached. */
  datatype Waiting = Waiting(id: nat, size: Delivery.Size, screen: Delivery.Picture)

  /** The goodbyes under way when the server stops: earlier ones, the current client's, and those still in the channel. */
  function Farewells(a: State, waiting: seq<Waiting>): (r: seq<Goodbye>) {
    a.goodbyes + (if a.client.Some? then [Farewell(a.client.value, Delivery.Exited)] else []) + Refusals(waiting)
  }

  function Refusal(w: Waiting): Goodbye {
    Farewell(Attached(w.id, Delivery.Start(w.size, w.screen)), Delivery.Exited)
  }

  function Refusals(waiting: seq<Waiting>): (r: seq<Goodbye>)
    ensures |r| == |waiting| && forall i :: 0 <= i < |r| ==> r[i] == Refusal(waiting[i])
  {
    seq(|waiting|, i requires 0 <= i < |waiting| => Refusal(waiting[i]))
  }

  // --------------------------------------------------------------------- runs

  /** Processes sized for a placeholder terminal until a client attaches, and nothing going on. */
  function NewState(configs: seq<Process.Config>, scrollback: seq<nat>): State
    requires |configs| == |scrollback|
  {
    State(seq(|configs|, i requires 0 <= i < |configs| => Process.NewProc(configs[i], scrollback[i])),
          0, Normal, false, Delivery.Size(80, 24), false, true,
          SearchState([], [], [], None, 0), true, None, [])
  }

  function Autostart(procs: seq<Proc>, moments: seq<Moment>, env: Env): (r: seq<Proc>)
    requires |procs| == |moments|
    ensures |r| == |procs|
  {
    seq(|procs|, i requires 0 <= i < |procs| => procs[i].StartIfConfigured(env.emulator, moments[i]))
  }

  /** A server that has just started. */
  function Boot(configs: seq<Process.Config>, scrollback: seq<nat>, moments: seq<Moment>, env: Env): State
    requires |configs| == |scrollback| == |moments|
  {
    var a := ResizeProcs(NewState(configs, scrollback), env);
    a.(procs := Autostart(a.procs, moments, env))
  }

  /** An event, or nothing if it cannot happen. */
  ghost function After(a: State, event: Event, env: Env): State {
    if Wf(a) && Talking(a) && Enabled(a, event) then Next(a, event, env) else a
  }

  /** Plays events in order until the loop ends. */
  ghost function Play(a: State, events: seq<Event>, env: Env): State {
    if events == [] then a
    else
      var before := Play(a, events[..|events| - 1], env);
      if Exits(before) then before else After(before, events[|events| - 1], env)
  }
}
