/** Backpressure: a process is not read from exactly while its view is scrolled back. */
module AppPause {
  import opened Prelude
  import opened App
  import AppView
  import Delivery
  import Keys
  import Process
  import Terminal

  /** What an exact pause takes: banners that are plain text. */
  ghost predicate Calm(env: Env, exact: bool) {
    exact ==> Process.PlainNotices(env.emulator)
  }

  ghost predicate PauseInv(a: State, exact: bool) {
    forall i :: 0 <= i < |a.procs| ==> Process.Synced(a.procs[i], exact)
  }

  /** Synced except perhaps the selected process. */
  ghost predicate OthersSynced(a: State, exact: bool) {
    forall i :: 0 <= i < |a.procs| && i != a.selected ==> Process.Synced(a.procs[i], exact)
  }

  lemma ResizeKeepsPause(a: State, env: Env, exact: bool)
    requires Wf(a) && Calm(env, exact)
    ensures PauseInv(a, exact) ==> PauseInv(ResizeProcs(a, env), exact)
  {
    var b := ResizeProcs(a, env);
    if PauseInv(a, exact) {
      forall i | 0 <= i < |b.procs|
        ensures Process.Synced(b.procs[i], exact)
      {
        assert Process.Synced(a.procs[i], exact);
      }
    }
  }

  /** The next client starts with every process at the bottom and read from. */
  lemma ResetViewSyncs(a: State, exact: bool)
    ensures PauseInv(ResetView(a), exact)
  {}

  lemma DetachSyncs(a: State, exact: bool)
    ensures PauseInv(DetachClient(a), exact) && PauseInv(DropClient(a), exact)
  {
    hide ResetView, Unfinished;
    ResetViewSyncs(a.(client := None), exact);
    ResetViewSyncs(match a.client
                   case None => a
                   case Some(c) => a.(client := None, goodbyes := Unfinished(a.goodbyes) + [Farewell(c, Delivery.Detached)]), exact);
  }

  lemma QuitKeepsPause(a: State, env: Env, exact: bool)
    requires Wf(a) && Calm(env, exact) && PauseInv(a, exact)
    ensures PauseInv(BeginQuit(a, env), exact)
  {
    ResizeKeepsPause(a.(mode := Keys.Quitting, showHelp := false, dirty := true), env, exact);
    hide ResizeProcs;
  }

  /** Actions that act on every process. */
  predicate ActsOnAll(action: Keys.Action) {
    action.Quit? || action.ForceQuit? || action.Detach? || action.ToggleHelp?
  }

  lemma ActionTouchesSelected(a: State, action: Keys.Action, env: Env, m: Moment)
    requires Wf(a) && !ActsOnAll(action)
    ensures var b := HandleAction(a, action, env, m);
      |b.procs| == |a.procs| && forall i :: 0 <= i < |a.procs| && i != b.selected ==> b.procs[i] == a.procs[i]
  {
    hide AcceptSearch, Navigate;
    hide Terminal.Term.ScrollUp, Terminal.Term.ScrollDown, Terminal.Term.ScrollToBottom, Terminal.Term.ScrollToTop;
    hide Process.Proc.Start, Process.Proc.Stop, Process.Proc.Restart, Process.Proc.Write;
    match action
    case SearchAccept => AcceptTouchesSelected(a, env);
    case SearchNext => NavigateTouchesSelected(a, true);
    case SearchPrev => NavigateTouchesSelected(a, false);
    case _ =>
  }

  lemma ActionKeepsPause(a: State, action: Keys.Action, env: Env, m: Moment, exact: bool)
    requires Wf(a) && Calm(env, exact) && PauseInv(a, exact)
    ensures OthersSynced(HandleAction(a, action, env, m), exact)
  {
    hide BeginQuit, DetachClient, ResizeProcs, Process.Synced, AcceptSearch, Navigate;
    hide Process.Proc.Start, Process.Proc.Stop, Process.Proc.Restart, Process.Proc.Write;
    hide Terminal.Term.ScrollUp, Terminal.Term.ScrollDown, Terminal.Term.ScrollToBottom, Terminal.Term.ScrollToTop;
    match action
    case Quit => QuitKeepsPause(a, env, exact);
    case ForceQuit => QuitKeepsPause(a, env, exact);
    case Detach => DetachSyncs(a, exact);
    case ToggleHelp => ResizeKeepsPause(a.(showHelp := !a.showHelp), env, exact);
    case _ =>
      ActionTouchesSelected(a, action, env, m);
      hide HandleAction;
  }

  lemma AcceptTouchesSelected(a: State, env: Env)
    requires Wf(a)
    ensures var b := AcceptSearch(a, env);
      forall i :: 0 <= i < |a.procs| && i != a.selected ==> b.procs[i] == a.procs[i]
  {
    hide Terminal.Term.FindAll, Terminal.Term.ScrollToRow, FirstJump;
  }

  lemma NavigateTouchesSelected(a: State, forward: bool)
    requires Wf(a)
    ensures var b := Navigate(a, forward);
      forall i :: 0 <= i < |a.procs| && i != a.selected ==> b.procs[i] == a.procs[i]
  {
    hide Terminal.Term.ScrollToRow, Terminal.Next, Terminal.Previous;
  }

  lemma CtEventKeepsPause(a: State, event: CtEvent, env: Env, m: Moment, exact: bool)
    requires Wf(a) && Calm(env, exact) && PauseInv(a, exact)
    ensures OthersSynced(HandleCtEvent(a, event, env, m), exact)
  {
    hide HandleAction, TabAt, Keys.Resolve, Terminal.Term.ScrollUp, Terminal.Term.ScrollDown, Process.Synced;
    if event.KeyPress? {
      var r := Keys.Resolve(event.key, a.mode, Sel(a).config.unfocus);
      if r.Some? { ActionKeepsPause(a, r.value, env, m, exact); }
    }
  }

  lemma MsgKeepsPause(a: State, msg: ClientMsg, env: Env, m: Moment, exact: bool)
    requires Wf(a) && a.client.Some? && !a.client.value.session.said
    requires Calm(env, exact) && PauseInv(a, exact)
    ensures PauseInv(HandleClientMsg(a, msg, env, m), exact)
  {
    hide HandleCtEvent, ResizeProcs, Delivery.Next;
    match msg
    case Event(event) =>
      CtEventKeepsPause(a, event, env, m, exact);
      AppView.CtEventKeepsWf(a, event, env, m);
    case Resize(cols, rows) =>
      var size := Delivery.Size(cols, rows);
      var s := Delivery.Next(a.client.value.session, Delivery.ResizeStep(size));
      ResizeKeepsPause(SetSession(a, s).(size := size), env, exact);
  }

  lemma DrawKeepsPause(a: State, env: Env, exact: bool)
    requires Wf(a) && a.client.Some? && !a.client.value.session.said && PauseInv(a, exact)
    ensures PauseInv(Draw(a, env), exact)
  {
    hide DropClient, Delivery.Next, Delivery.Sender.Draw, Terminal.Term.FindVisible, ViewOf;
    var s := a.client.value.session;
    var step := Delivery.DrawStep(env.paint(ViewOf(a, env), s.sender.size));
    DetachSyncs(SetSession(SetTerm(a, Highlights(a, env).0), Delivery.Next(s, step)), exact);
  }

  /** Any event but output that takes away the history which a running, watched process is scrolled back in. */
  predicate Harmless(a: State, event: Event, env: Env) {
    event.PtyOutput? && event.id < |a.procs| ==>
      var p := a.procs[event.id];
      p.life.Running? && p.watchers > 0 && p.term.ScrolledBack() ==>
        Process.LeavesHistory(env.emulator.output(p.term.vt, event.data))
  }

  lemma AttachSyncs(a: State, id: nat, size: Delivery.Size, screen: Delivery.Picture, env: Env, exact: bool)
    requires Wf(a) && Calm(env, exact)
    ensures PauseInv(AttachClient(a, id, size, screen, env), exact)
  {
    hide DetachClient, ResizeProcs, Delivery.Start;
    DetachSyncs(a, exact);
    ResizeKeepsPause(DetachClient(a).(size := size), env, exact);
  }

  lemma OutputKeepsPauseIff(a: State, id: nat, data: Process.Bytes, env: Env, exact: bool)
    requires Wf(a) && PauseInv(a, exact)
    ensures PauseInv(HandleOutput(a, id, data, env), exact) <==> !exact || Harmless(a, PtyOutput(id, data), env)
  {
    var b := HandleOutput(a, id, data, env);
    hide Process.Proc.HandleOutput, Process.Synced, Process.LeavesHistory;
    if id < |a.procs| {
      ProcOutputIff(a.procs[id], env, data, exact);
      assert b.procs[id] == a.procs[id].HandleOutput(env.emulator, data);
    }
  }

  lemma ProcOutputIff(p: Proc, env: Env, data: Process.Bytes, exact: bool)
    requires p.Ok() && Process.Synced(p, exact)
    ensures Process.Synced(p.HandleOutput(env.emulator, data), exact)
      <==> !exact || (p.life.Running? && p.watchers > 0 && p.term.ScrolledBack() ==>
                        Process.LeavesHistory(env.emulator.output(p.term.vt, data)))
  {
    if exact && p.life.Running? && p.watchers > 0 {
      Process.OutputSyncedIff(p, env.emulator, data);
    } else {
      Process.OutputNeverUnpauses(p, env.emulator, data);
    }
  }

  lemma ExitKeepsPause(a: State, id: nat, status: Process.Status, env: Env, m: Moment, exact: bool)
    requires Wf(a) && PauseInv(a, exact)
    ensures PauseInv(HandleExit(a, id, status, env, m), exact)
  {
    hide Process.Proc.Exited;
    if id < |a.procs| { Process.LifeKeepsSynced(a.procs[id], env.emulator, m, status, exact); }
  }

  /**
   * Every event keeps every running, watched process paused while its view is
   * scrolled back; it keeps the pause exact if and only if it is harmless.
   */
  lemma NextKeepsPauseIff(a: State, event: Event, env: Env, exact: bool)
    requires Wf(a) && Talking(a) && Enabled(a, event) && PauseInv(a, exact) && Calm(env, exact)
    ensures PauseInv(Next(a, event, env), exact) <==> !exact || Harmless(a, event, env)
  {
    hide Draw, HandleClientMsg, BeginQuit, AttachClient, DropClient, HandleOutput, HandleExit, Delivery.Next;
    match event
    case Tick => DrawKeepsPause(a, env, exact);
    case Attach(id, size, screen) => AttachSyncs(a, id, size, screen, env, exact);
    case QuitRequest => QuitKeepsPause(a, env, exact);
    case Signal => QuitKeepsPause(a, env, exact);
    case Msg(msg, m) => MsgKeepsPause(a, msg, env, m, exact);
    case Hangup => DetachSyncs(a, exact);
    case PtyOutput(id, data) => OutputKeepsPauseIff(a, id, data, env, exact);
    case ProcessExited(id, status, m) => ExitKeepsPause(a, id, status, env, m, exact);
    case _ =>
  }

  /** Every event of a run is harmless when it comes. */
  ghost predicate HarmlessRun(a: State, events: seq<Event>, env: Env) {
    forall n :: 0 <= n < |events| ==> Harmless(Play(a, events[..n], env), events[n], env)
  }

  lemma BootIsSynced(configs: seq<Process.Config>, scrollback: seq<nat>, moments: seq<Moment>, env: Env, exact: bool)
    requires |configs| == |scrollback| == |moments| > 0
    ensures PauseInv(Boot(configs, scrollback, moments, env), exact)
  {
    hide ResizeProcs;
    var a := Boot(configs, scrollback, moments, env);
    forall i | 0 <= i < |a.procs|
      ensures Process.Synced(a.procs[i], exact)
    {
      BootProc(configs, scrollback, moments, env, i, exact);
    }
  }

  lemma BootProc(configs: seq<Process.Config>, scrollback: seq<nat>, moments: seq<Moment>, env: Env, i: nat, exact: bool)
    requires |configs| == |scrollback| == |moments| && i < |configs|
    ensures var a := Boot(configs, scrollback, moments, env);
      |a.procs| == |configs| && Process.Synced(a.procs[i], exact)
  {
    var p := Process.NewProc(configs[i], scrollback[i]).Resize(env.emulator, 22, 80);
    Process.StartKeepsSynced(p, env.emulator, moments[i], exact);
    hide Process.Proc.Start;
  }

  lemma {:induction false} PlayKeepsPause(configs: seq<Process.Config>, scrollback: seq<nat>, moments: seq<Moment>,
                                         events: seq<Event>, env: Env, exact: bool)
    requires |configs| == |scrollback| == |moments| > 0 && Calm(env, exact)
    requires exact ==> HarmlessRun(Boot(configs, scrollback, moments, env), events, env)
    ensures PauseInv(Play(Boot(configs, scrollback, moments, env), events, env), exact)
  {
    hide Boot, Next, PauseInv, Harmless;
    var a := Boot(configs, scrollback, moments, env);
    if events == [] {
      BootIsSynced(configs, scrollback, moments, env, exact);
    } else {
      var n := |events| - 1;
      forall k | exact && 0 <= k < n
        ensures Harmless(Play(a, events[..n][..k], env), events[..n][k], env)
      {
        assert events[..n][..k] == events[..k];
        assert Harmless(Play(a, events[..k], env), events[k], env);
      }
      PlayKeepsPause(configs, scrollback, moments, events[..n], env, exact);
      var before := Play(a, events[..n], env);
      if Wf(before) && Talking(before) && Enabled(before, events[n]) && !Exits(before) {
        NextKeepsPauseIff(before, events[n], env, exact);
      }
    }
  }

  /**
   * Over any run whatever, across tab switches, searches, scrolling, attaching,
   * detaching, restarts, exits and any output: a running process that is being
   * watched is paused while its view is scrolled back.
   */
  lemma ScrolledBackIsPaused(configs: seq<Process.Config>, scrollback: seq<nat>, moments: seq<Moment>,
                             events: seq<Event>, env: Env)
    requires |configs| == |scrollback| == |moments| > 0
    ensures PauseInv(Play(Boot(configs, scrollback, moments, env), events, env), false)
  {
    PlayKeepsPause(configs, scrollback, moments, events, env, false);
  }

  /**
   * It is paused exactly then, unless output took away the history it was
   * scrolled back in; output to a view at the bottom never matters.
   */
  lemma PauseFollowsView(configs: seq<Process.Config>, scrollback: seq<nat>, moments: seq<Moment>,
                         events: seq<Event>, env: Env)
    requires |configs| == |scrollback| == |moments| > 0
    requires Process.PlainNotices(env.emulator)
    requires HarmlessRun(Boot(configs, scrollback, moments, env), events, env)
    ensures PauseInv(Play(Boot(configs, scrollback, moments, env), events, env), true)
  {
    PlayKeepsPause(configs, scrollback, moments, events, env, true);
  }
}
