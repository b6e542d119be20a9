/** Quitting: what it stops, that it cannot be undone, and when it ends. */
module AppQuit {
  import opened App
  import AppView
  import Delivery
  import Keys
  import Process
  import Terminal

  predicate PendingRestart(p: Proc) { p.life == Process.Stopping(true) }

  predicate NoneRunning(a: State) {
    forall i :: 0 <= i < |a.procs| ==> !a.procs[i].life.Running?
  }

  predicate NonePending(a: State) {
    forall i :: 0 <= i < |a.procs| ==> !PendingRestart(a.procs[i])
  }

  /** Quitting, with nothing running and nothing about to be restarted. */
  predicate Winding(a: State) {
    a.mode.Quitting? && NoneRunning(a) && NonePending(a)
  }

  predicate SameLives(a: State, b: State) {
    |a.procs| == |b.procs| && forall i :: 0 <= i < |a.procs| ==> b.procs[i].life == a.procs[i].life
  }

  lemma {:induction false} SameLivesCount(p: seq<Proc>, q: seq<Proc>)
    requires |p| == |q| && forall i :: 0 <= i < |p| ==> q[i].life == p[i].life
    ensures LiveCount(q) == LiveCount(p)
  {
    if p != [] { SameLivesCount(p[..|p| - 1], q[..|q| - 1]); }
  }

  lemma {:induction false} NoneLive(p: seq<Proc>)
    ensures LiveCount(p) == 0 <==> forall i :: 0 <= i < |p| ==> !p[i].Live()
  {
    if p != [] { NoneLive(p[..|p| - 1]); }
  }

  /** An exit event of a process that has not ended yet. */
  predicate EndsOne(a: State, event: Event) {
    event.ProcessExited? && event.id < |a.procs| && a.procs[event.id].Live()
  }

  // ------------------------------------------------------ one event while quitting

  lemma CtEventKeepsWinding(a: State, event: CtEvent, env: Env, m: Moment)
    requires Wf(a) && Winding(a)
    ensures var b := HandleCtEvent(a, event, env, m); b.mode.Quitting? && SameLives(a, b)
  {
    hide Terminal.Term.ScrollUp, Terminal.Term.ScrollDown, TabAt;
    if event.KeyPress? {
      Keys.KeysStayInMode(event.key, a.mode, Sel(a).config.unfocus);
    }
  }

  lemma MsgKeepsWinding(a: State, msg: ClientMsg, env: Env, m: Moment)
    requires Wf(a) && a.client.Some? && !a.client.value.session.said && Winding(a)
    ensures var b := HandleClientMsg(a, msg, env, m); b.mode.Quitting? && SameLives(a, b)
  {
    hide HandleCtEvent, Delivery.Next, Terminal.Term.Resize;
    if msg.Event? { CtEventKeepsWinding(a, msg.event, env, m); }
  }

  lemma ClientEventsKeepWinding(a: State, event: Event, env: Env)
    requires Wf(a) && Talking(a) && Enabled(a, event) && Winding(a)
    requires event.Tick? || event.Hangup? || event.Attach? || event.Connection?
    ensures var b := Next(a, event, env); b.mode.Quitting? && SameLives(a, b)
  {
    hide Delivery.Next, Draw, Terminal.Term.Resize, Terminal.Term.ScrollToBottom, Unfinished;
    match event
    case Tick => DrawKeepsWinding(a, env);
    case _ =>
  }

  lemma DrawKeepsWinding(a: State, env: Env)
    requires Wf(a) && Talking(a) && a.client.Some? && Winding(a)
    ensures var b := Draw(a, env); b.mode.Quitting? && SameLives(a, b)
  {
    hide Delivery.Next, Delivery.Sender.Draw, Terminal.Term.FindVisible, Terminal.Term.ScrollToBottom, ViewOf;
  }

  lemma QuitKeepsWinding(a: State, env: Env)
    requires Winding(a)
    ensures var b := BeginQuit(a, env); b.mode.Quitting? && SameLives(a, b)
  {
    hide Terminal.Term.Resize;
  }

  lemma BesidesKeepWinding(a: State, event: Event, env: Env)
    requires Wf(a) && Talking(a) && Enabled(a, event) && Winding(a)
    requires event.PtyOutput? || event.WatcherGone? || event.InputTaken? || event.GoodbyeMoves?
    ensures var b := Next(a, event, env); b.mode.Quitting? && SameLives(a, b)
  {
    hide Terminal.Term.Process, Draw, HandleClientMsg, BeginQuit, DetachClient, DropClient, App.SetSize;
    hide Delivery.Next, Process.Proc.Exited;
  }

  lemma ExitKeepsWinding(a: State, event: Event, env: Env)
    requires Wf(a) && Talking(a) && Winding(a) && event.ProcessExited?
    ensures var b := Next(a, event, env);
      && Winding(b)
      && LiveCount(b.procs) + (if EndsOne(a, event) then 1 else 0) == LiveCount(a.procs)
  {
    hide Process.Proc.Start, LiveCount;
    var b := Next(a, event, env);
    if event.id < |a.procs| { LiveCountUpdate(a.procs, event.id, b.procs[event.id]); }
  }

  /**
   * While winding down, no event starts a process or leaves the mode, and the
   * number of processes that have not ended drops by one on each exit of one of
   * them and never changes otherwise.
   */
  lemma NextKeepsWinding(a: State, event: Event, env: Env)
    requires Wf(a) && Talking(a) && Enabled(a, event) && Winding(a)
    ensures var b := Next(a, event, env);
      && Winding(b)
      && LiveCount(b.procs) + (if EndsOne(a, event) then 1 else 0) == LiveCount(a.procs)
  {
    hide Next, LiveCount, Winding, SameLives;
    if event.ProcessExited? {
      ExitKeepsWinding(a, event, env);
    } else {
      OthersKeepWinding(a, event, env);
      SameLivesWind(a, Next(a, event, env));
    }
  }

  lemma SameLivesWind(a: State, b: State)
    requires Winding(a) && b.mode.Quitting? && SameLives(a, b)
    ensures Winding(b) && LiveCount(b.procs) == LiveCount(a.procs)
  {
    SameLivesCount(a.procs, b.procs);
  }

  lemma OthersKeepWinding(a: State, event: Event, env: Env)
    requires Wf(a) && Talking(a) && Enabled(a, event) && Winding(a) && !event.ProcessExited?
    ensures var b := Next(a, event, env); b.mode.Quitting? && SameLives(a, b)
  {
    hide Winding, SameLives, BeginQuit, HandleClientMsg, Draw, DetachClient, DropClient, SetSession, SetProc;
    match event
    case Msg(msg, m) => MsgKeepsWinding(a, msg, env, m);
    case QuitRequest => QuitKeepsWinding(a, env);
    case Signal => QuitKeepsWinding(a, env);
    case Tick => ClientEventsKeepWinding(a, event, env);
    case Hangup => ClientEventsKeepWinding(a, event, env);
    case Attach(_, _, _) => ClientEventsKeepWinding(a, event, env);
    case Connection(_) => ClientEventsKeepWinding(a, event, env);
    case _ => BesidesKeepWinding(a, event, env);
  }

  // ---------------------------------------------------------------- whole runs

  /** How many of the played events ended a process. */
  ghost function Ended(a: State, events: seq<Event>, env: Env): nat {
    if events == [] then 0
    else
      var n := |events| - 1;
      var before := Play(a, events[..n], env);
      Ended(a, events[..n], env)
      + (if Wf(before) && Talking(before) && Enabled(before, events[n]) && !Exits(before) && EndsOne(before, events[n])
         then 1 else 0)
  }

  /** Quitting is absorbing and ends: after as many exits as there were processes left, the loop is over. */
  lemma {:induction false} QuitEnds(a: State, events: seq<Event>, env: Env)
    requires AppView.ViewInv(a, env) && Winding(a)
    ensures var b := Play(a, events, env);
      && Winding(b)
      && LiveCount(b.procs) + Ended(a, events, env) == LiveCount(a.procs)
      && (Ended(a, events, env) == LiveCount(a.procs) ==> Exits(b))
  {
    hide Next, LiveCount, AppView.ViewInv;
    var n := |events| - 1;
    if events != [] {
      QuitEnds(a, events[..n], env);
      var before := Play(a, events[..n], env);
      if Wf(before) && Talking(before) && Enabled(before, events[n]) && !Exits(before) {
        NextKeepsWinding(before, events[n], env);
      }
    }
    NoneLive(Play(a, events, env).procs);
  }

  /** What quitting does to each process: running ones are stopped, and that is all. */
  lemma BeginQuitLives(a: State, env: Env)
    requires !AllStopped(a)
    ensures var b := BeginQuit(a, env);
      && b.mode.Quitting? && |b.procs| == |a.procs| && b.shouldQuit == a.shouldQuit && b.client == a.client
      && forall i :: 0 <= i < |a.procs| ==>
           b.procs[i].life == if a.procs[i].life.Running? then Process.Stopping(false) else a.procs[i].life
  {
    hide Terminal.Term.Resize;
  }

  /**
   * After `begin_quit`, no process ever runs again, whatever happens, if and only
   * if no restart was pending at that moment: stopping skips a process that is
   * already stopping, so its pending restart survives.
   */
  lemma QuitIsFinalIff(a: State, env: Env)
    requires AppView.ViewInv(a, env) && !a.shouldQuit && !AllStopped(a)
    ensures (forall events: seq<Event> :: NoneRunning(Play(BeginQuit(a, env), events, env))) <==> NonePending(a)
  {
    hide BeginQuit, AppView.ViewInv, Play, Winding, AllStopped;
    var b := BeginQuit(a, env);
    AppView.QuitKeepsViewInv(a, env);
    if NonePending(a) {
      QuitWinds(a, env);
      forall events: seq<Event>
        ensures NoneRunning(Play(b, events, env))
      {
        QuitStaysQuiet(b, events, env);
      }
    } else {
      RestartSurvives(a, env);
    }
  }

  lemma QuitWinds(a: State, env: Env)
    requires !AllStopped(a) && NonePending(a)
    ensures Winding(BeginQuit(a, env))
  {
    BeginQuitLives(a, env);
  }

  lemma QuitStaysQuiet(b: State, events: seq<Event>, env: Env)
    requires AppView.ViewInv(b, env) && Winding(b)
    ensures NoneRunning(Play(b, events, env))
  {
    QuitEnds(b, events, env);
  }

  lemma RestartSurvives(a: State, env: Env)
    requires AppView.ViewInv(a, env) && !a.shouldQuit && !AllStopped(a) && !NonePending(a)
    ensures exists events: seq<Event> :: !NoneRunning(Play(BeginQuit(a, env), events, env))
  {
    BeginQuitLives(a, env);
    AppView.QuitKeepsViewInv(a, env);
    var b := BeginQuit(a, env);
    hide BeginQuit;
    var k :| 0 <= k < |a.procs| && PendingRestart(a.procs[k]);
    assert Wf(b) && Talking(b);
    ExitRestarts(b, k, env);
  }

  /** The pending restart: the process exits and is started again although the server is quitting. */
  lemma ExitRestarts(b: State, k: nat, env: Env)
    requires Wf(b) && Talking(b) && !b.shouldQuit && k < |b.procs| && PendingRestart(b.procs[k])
    ensures exists events: seq<Event> :: !NoneRunning(Play(b, events, env))
  {
    hide Terminal.Term.Banner, LiveCount;
    var exit := ProcessExited(k, Process.Success, Process.Moment(0, true));
    assert !AllStopped(b);
    assert Play(b, [], env) == b && [exit][..0] == [];
    assert Play(b, [exit], env) == Next(b, exit, env);
    assert Next(b, exit, env).procs[k].life.Running?;
  }
}
