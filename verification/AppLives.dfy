/** What an event of the server can do to the lives of its processes. */
module AppLives {
  import opened App
  import Delivery
  import Keys
  import Process
  import Terminal

  // ------------------------------------------------------- handlers that start nothing

  ghost predicate AllQuiet(p: seq<Proc>, q: seq<Proc>) {
    |p| == |q| && forall k :: 0 <= k < |p| ==> Process.Quiet(p[k], q[k])
  }

  lemma QuietTwice(p: seq<Proc>, q: seq<Proc>, r: seq<Proc>)
    requires AllQuiet(p, q) && AllQuiet(q, r)
    ensures AllQuiet(p, r)
  {}

  lemma OneQuiet(a: State, k: nat, p: Proc)
    requires k < |a.procs| && Process.Quiet(a.procs[k], p)
    ensures AllQuiet(a.procs, SetProc(a, k, p).procs)
  {}

  lemma ViewIsQuiet(a: State, env: Env)
    ensures AllQuiet(a.procs, ResizeProcs(a, env).procs) && AllQuiet(a.procs, ResetView(a).procs)
  {
    hide Terminal.Term.Resize, Terminal.Term.ScrollToBottom;
  }

  lemma DetachIsQuiet(a: State, env: Env)
    ensures AllQuiet(a.procs, DetachClient(a).procs) && AllQuiet(a.procs, DropClient(a).procs)
  {
    hide Terminal.Term.ScrollToBottom, Unfinished;
  }

  lemma QuitIsQuiet(a: State, env: Env)
    ensures AllQuiet(a.procs, BeginQuit(a, env).procs)
  {
    hide Terminal.Term.Resize, AllStopped;
  }

  lemma AcceptIsQuiet(a: State, env: Env)
    requires a.selected < |a.procs|
    ensures AllQuiet(a.procs, AcceptSearch(a, env).procs)
  {
    hide FindEverywhere, Placeholder, Wf, AllQuiet;
    FindIsQuiet(a.(search := Placeholder(a.search)), env);
  }

  lemma FindIsQuiet(a: State, env: Env)
    requires a.selected < |a.procs|
    ensures AllQuiet(a.procs, FindEverywhere(a, env).procs)
  {
    hide Terminal.Term.FindAll, Terminal.Term.ScrollToRow, FirstJump, Wf;
  }

  lemma NavigateIsQuiet(a: State, forward: bool)
    requires a.selected < |a.procs|
    ensures AllQuiet(a.procs, Navigate(a, forward).procs)
  {
    hide Terminal.Term.ScrollToRow, Terminal.Next, Terminal.Previous;
  }

  lemma AttachIsQuiet(a: State, id: nat, size: Delivery.Size, screen: Delivery.Picture, env: Env)
    ensures AllQuiet(a.procs, AttachClient(a, id, size, screen, env).procs)
  {
    hide DetachClient, ResizeProcs, Delivery.Start, AllQuiet;
    DetachIsQuiet(a, env);
    ViewIsQuiet(DetachClient(a).(size := size), env);
    QuietTwice(a.procs, DetachClient(a).procs, AttachClient(a, id, size, screen, env).procs);
  }

  lemma OutputIsQuiet(a: State, id: nat, data: Process.Bytes, env: Env)
    ensures AllQuiet(a.procs, HandleOutput(a, id, data, env).procs)
  {
    hide Terminal.Term.Process;
  }

  lemma TermIsQuiet(a: State, t: Process.Term)
    requires a.selected < |a.procs|
    ensures AllQuiet(a.procs, SetTerm(a, t).procs) && AllQuiet(a.procs, a.procs)
  {}

  lemma DrawIsQuiet(a: State, env: Env)
    requires Wf(a) && a.client.Some? && !a.client.value.session.said
    ensures AllQuiet(a.procs, Draw(a, env).procs)
  {
    var s := a.client.value.session;
    var step := Delivery.DrawStep(env.paint(ViewOf(a, env), s.sender.size));
    var t := Highlights(a, env).0;
    hide Wf, DropClient, Delivery.Next, Delivery.Sender.Draw, Highlights, ViewOf, SetTerm, AllQuiet;
    var looked := SetSession(SetTerm(a, t), Delivery.Next(s, step));
    TermIsQuiet(a, t);
    DetachIsQuiet(looked, env);
    QuietTwice(a.procs, looked.procs, DropClient(looked).procs);
  }

  // ----------------------------------------------------------------- every event

  /** Each process was left alone or stopped, or a start was tried; of a stopping one only if `forced`, and it is selected. */
  ghost predicate AllKept(a: State, b: State, now: nat, forced: bool) {
    && |a.procs| == |b.procs|
    && forall k :: 0 <= k < |a.procs| ==> Process.Kept(a.procs[k], b.procs[k], now, forced && k == a.selected)
  }

  lemma QuietIsKept(a: State, b: State, now: nat, forced: bool)
    ensures AllQuiet(a.procs, b.procs) ==> AllKept(a, b, now, forced)
  {}

  lemma StartIsKept(p: Proc, env: Env, m: Moment)
    ensures Process.Kept(p, p.Start(env.emulator, m), m.now, p.life.Stopping?)
  {
    hide Terminal.Term.Banner;
  }

  lemma StopIsKept(p: Proc, env: Env, m: Moment)
    ensures var (q, again) := p.Restart();
      Process.Quiet(p, p.Stop()) && Process.Kept(p, if again then q.Start(env.emulator, m) else q, m.now, false)
  {
    hide Process.Proc.Start;
    StartIsKept(p, env, m);
  }

  lemma WriteIsQuiet(p: Proc, env: Env, data: Process.Bytes)
    ensures Process.Quiet(p, p.Write(env.emulator, data))
  {
    hide Terminal.Term.Banner;
  }

  predicate ForcesStart(a: State, action: Keys.Action)
    requires a.selected < |a.procs|
  {
    action.StartProcess? && Sel(a).life.Stopping?
  }

  lemma SelIsKept(a: State, p: Proc, now: nat, forced: bool)
    requires a.selected < |a.procs| && Process.Kept(Sel(a), p, now, forced)
    ensures AllKept(a, SetSel(a, p), now, forced)
  {}

  lemma ProcessActionKeeps(a: State, action: Keys.Action, env: Env, m: Moment)
    requires a.selected < |a.procs|
    requires action.ForwardKey? || action.StartProcess? || action.StopProcess? || action.RestartProcess?
    ensures AllKept(a, HandleAction(a, action, env, m), m.now, ForcesStart(a, action))
  {
    hide AllKept, SetSel, Process.Kept, Wf;
    hide Process.Proc.Start, Process.Proc.Stop, Process.Proc.Restart, Process.Proc.Write;
    match action
    case ForwardKey(key) =>
      WriteIsQuiet(Sel(a), env, env.keyBytes(key));
      QuietSelIsKept(a, Sel(a).Write(env.emulator, env.keyBytes(key)), m.now);
    case StartProcess =>
      StartIsKept(Sel(a), env, m);
      SelIsKept(a, Sel(a).Start(env.emulator, m), m.now, Sel(a).life.Stopping?);
    case StopProcess =>
      StopIsKept(Sel(a), env, m);
      QuietSelIsKept(a, Sel(a).Stop(), m.now);
    case RestartProcess =>
      StopIsKept(Sel(a), env, m);
      var (q, again) := Sel(a).Restart();
      SelIsKept(a, if again then q.Start(env.emulator, m) else q, m.now, false);
  }

  lemma ActionKeeps(a: State, action: Keys.Action, env: Env, m: Moment)
    requires a.selected < |a.procs|
    ensures AllKept(a, HandleAction(a, action, env, m), m.now, ForcesStart(a, action))
  {
    var b := HandleAction(a, action, env, m);
    hide AcceptSearch, Navigate, BeginQuit, DetachClient, ResizeProcs, AllKept, AllQuiet, SetSel, Process.Kept;
    hide Terminal.Term.ScrollUp, Terminal.Term.ScrollDown, Terminal.Term.ScrollToBottom, Terminal.Term.ScrollToTop;
    hide Process.Proc.Start, Process.Proc.Stop, Process.Proc.Restart, Process.Proc.Write, Wf;
    QuietIsKept(a, b, m.now, ForcesStart(a, action));
    match action
    case SearchAccept => AcceptIsQuiet(a, env);
    case SearchNext => NavigateIsQuiet(a, true);
    case SearchPrev => NavigateIsQuiet(a, false);
    case Quit => QuitIsQuiet(a, env); TermIsQuiet(a, Sel(a).term);
    case ForceQuit => QuitIsQuiet(a, env); TermIsQuiet(a, Sel(a).term);
    case Detach => DetachIsQuiet(a, env);
    case ToggleHelp => ViewIsQuiet(a.(showHelp := !a.showHelp), env);
    case ForwardKey(_) => ProcessActionKeeps(a, action, env, m);
    case StartProcess => ProcessActionKeeps(a, action, env, m);
    case StopProcess => ProcessActionKeeps(a, action, env, m);
    case RestartProcess => ProcessActionKeeps(a, action, env, m);
    case _ => OtherActionIsQuiet(a, action, env, m);
  }

  lemma OtherActionIsQuiet(a: State, action: Keys.Action, env: Env, m: Moment)
    requires a.selected < |a.procs|
    requires !action.SearchAccept? && !action.SearchNext? && !action.SearchPrev? && !action.Quit? && !action.ForceQuit?
    requires !action.Detach? && !action.ToggleHelp? && !action.ForwardKey?
    requires !action.StartProcess? && !action.StopProcess? && !action.RestartProcess?
    ensures AllQuiet(a.procs, HandleAction(a, action, env, m).procs)
  {
    hide AllQuiet, Wf, Placeholder;
    hide Terminal.Term.ScrollUp, Terminal.Term.ScrollDown, Terminal.Term.ScrollToBottom, Terminal.Term.ScrollToTop;
    TermIsQuiet(a, Sel(a).term);
    match action
    case ScrollUp(amount) => TermIsQuiet(a, Sel(a).term.ScrollUp(Lines(a, amount)));
    case ScrollDown(amount) => TermIsQuiet(a, Sel(a).term.ScrollDown(Lines(a, amount)));
    case ScrollToTop => TermIsQuiet(a, Sel(a).term.ScrollToTop());
    case ScrollToBottom => TermIsQuiet(a, Sel(a).term.ScrollToBottom());
    case SearchCancel => TermIsQuiet(a, Sel(a).term.ScrollToBottom());
    case _ =>
  }

  lemma QuietSelIsKept(a: State, p: Proc, now: nat)
    requires a.selected < |a.procs| && Process.Quiet(Sel(a), p)
    ensures AllKept(a, SetSel(a, p), now, false)
  {}

  /** This input starts the selected process although it is stopping. */
  predicate InputForcesStart(a: State, event: CtEvent)
    requires a.selected < |a.procs|
  {
    event.KeyPress? &&
    var r := Keys.Resolve(event.key, a.mode, Sel(a).config.unfocus);
    r.Some? && ForcesStart(a, r.value)
  }

  lemma CtEventKeeps(a: State, event: CtEvent, env: Env, m: Moment)
    requires a.selected < |a.procs|
    ensures AllKept(a, HandleCtEvent(a, event, env, m), m.now, InputForcesStart(a, event))
  {
    var b := HandleCtEvent(a, event, env, m);
    hide HandleAction, TabAt, Keys.Resolve, Terminal.Term.ScrollUp, Terminal.Term.ScrollDown, AllKept, AllQuiet, SetTerm;
    QuietIsKept(a, b, m.now, InputForcesStart(a, event));
    TermIsQuiet(a, Sel(a).term.ScrollUp(MOUSE_SCROLL_LINES));
    TermIsQuiet(a, Sel(a).term.ScrollDown(MOUSE_SCROLL_LINES));
    if event.KeyPress? {
      var r := Keys.Resolve(event.key, a.mode, Sel(a).config.unfocus);
      if r.Some? { ActionKeeps(a, r.value, env, m); }
    }
  }

  /** Updating a pause after anything else changes no life. */
  lemma SyncIsKept(a: State, b: State, now: nat, forced: bool)
    requires AllKept(a, b, now, forced) && b.selected < |b.procs|
    ensures AllKept(a, SetSel(b, Sel(b).SyncPaused()), now, forced)
  {
    hide Process.Proc.SendPause;
  }

  lemma MsgKeeps(a: State, msg: ClientMsg, env: Env, m: Moment)
    requires a.selected < |a.procs| && a.client.Some? && !a.client.value.session.said
    ensures AllKept(a, HandleClientMsg(a, msg, env, m), m.now, msg.Event? && InputForcesStart(a, msg.event))
  {
    hide HandleCtEvent, ResizeProcs, Delivery.Next, Process.Proc.SyncPaused, AllQuiet, SetSel, InputForcesStart;
    match msg
    case Event(event) =>
      var c := HandleCtEvent(a, event, env, m);
      CtEventKeeps(a, event, env, m);
      if c.selected < |c.procs| { SyncIsKept(a, c, m.now, InputForcesStart(a, event)); }
    case Resize(cols, rows) =>
      var size := Delivery.Size(cols, rows);
      var s := Delivery.Next(a.client.value.session, Delivery.ResizeStep(size));
      ViewIsQuiet(SetSession(a, s).(size := size), env);
      QuietIsKept(a, HandleClientMsg(a, msg, env, m), m.now, false);
  }

  /** This event starts the selected process although it is stopping. */
  predicate StartsStopping(a: State, event: Event) {
    a.selected < |a.procs| && event.Msg? && event.msg.Event? && InputForcesStart(a, event.msg.event)
  }

  /** Nothing but an exit ends a process, and only a key starts one that is stopping. */
  lemma NextKeeps(a: State, event: Event, env: Env, now: nat)
    requires Wf(a) && Talking(a) && Enabled(a, event) && !event.ProcessExited?
    requires event.Msg? ==> now == event.m.now
    ensures AllKept(a, Next(a, event, env), now, StartsStopping(a, event))
  {
    hide Draw, HandleClientMsg, BeginQuit, AttachClient, DropClient, Delivery.Next, HandleOutput, HandleExit;
    hide AllKept, AllQuiet, SetProc, InputForcesStart;
    QuietIsKept(a, Next(a, event, env), now, StartsStopping(a, event));
    TermIsQuiet(a, Sel(a).term);
    match event
    case Tick => DrawIsQuiet(a, env);
    case Attach(id, size, screen) => AttachIsQuiet(a, id, size, screen, env);
    case QuitRequest => QuitIsQuiet(a, env);
    case Signal => QuitIsQuiet(a, env);
    case Msg(msg, m) => MsgKeeps(a, msg, env, m);
    case Hangup => DetachIsQuiet(a, env);
    case PtyOutput(id, data) => OutputIsQuiet(a, id, data, env);
    case WatcherGone(id) => OneQuiet(a, id, a.procs[id].(watchers := a.procs[id].watchers - 1));
    case InputTaken(id) => OneQuiet(a, id, a.procs[id].(queue := a.procs[id].queue[1..]));
    case _ =>
  }
}
