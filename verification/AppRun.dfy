/** The event loop on the object: it takes one event at a time until the App wants to stop, then says goodbye to everyone. */
module AppRun {
  import opened Prelude
  import opened Machine = App
  import AppObject
  import AppView
  import Delivery
  import Process

  type App = AppObject.App

  /** A watcher task that ends, or an input task that takes the next chunk. */
  method TasksMove(app: App, id: nat, watchers: nat, queue: seq<Process.Bytes>)
    requires app.Valid() && id < |app.processes|
    modifies app.processes[id]
    ensures app.Valid()
    ensures var a := old(app.State());
      app.State() == SetProc(a, id, a.procs[id].(watchers := watchers, queue := queue))
  {
    hide AppObject.App.Procs;
    app.processes[id].watchers := watchers;
    app.processes[id].queue := queue;
    app.OnlyProcess(id);
  }

  /** The client's writer task or the client itself moves on. */
  method ConnectionMoves(app: App, step: Delivery.Step)
    requires app.Valid() && app.client.Some? && Delivery.Enabled(app.client.value.session, step)
    modifies app`client
    ensures app.Valid() && app.State() == SetSession(old(app.State()), Delivery.Next(old(app.client.value.session), step))
  {
    hide AppObject.App.Procs, AppObject.App.Ready, Delivery.Next, Delivery.Enabled;
    app.client := Some(app.client.value.(session := Delivery.Next(app.client.value.session, step)));
  }

  /** The writer task or the client moves on after the App has let go of the client. */
  method GoodbyeMoves(app: App, k: nat, step: Delivery.Step)
    requires app.Valid() && k < |app.goodbyes| && Delivery.Enabled(app.goodbyes[k].session, step)
    modifies app`goodbyes
    ensures app.Valid()
    ensures var a := old(app.State()); app.State() == a.(goodbyes := a.goodbyes[k := Moved(a.goodbyes[k], step)])
  {
    hide AppObject.App.Procs, AppObject.App.Ready, Delivery.Next, Delivery.Enabled;
    app.goodbyes := app.goodbyes[k := Moved(app.goodbyes[k], step)];
  }

  /** What the App handles itself. */
  predicate ForApp(event: Event) {
    !event.Connection? && !event.WatcherGone? && !event.InputTaken? && !event.GoodbyeMoves?
  }

  /** One turn of the loop. */
  method Handle(app: App, event: Event)
    requires app.Valid() && Wf(app.State()) && Talking(app.State()) && Enabled(app.State(), event) && ForApp(event)
    modifies app, app.processes
    ensures app.Valid() && app.State() == Machine.Next(old(app.State()), event, app.env)
  {
    hide AppObject.App.Ready, AppObject.App.Procs, Process.Process.State, Draw, AttachClient, BeginQuit, HandleClientMsg;
    hide DropClient, HandleOutput, HandleExit;
    match event
    case Tick => app.Draw();
    case Attach(id, size, screen) => app.Attach(id, size, screen);
    case QuitRequest => app.BeginQuit();
    case Msg(msg, m) => app.HandleClientMsg(msg, m);
    case Hangup => app.DropClient();
    case PtyOutput(id, data) => app.HandleOutput(id, data);
    case ProcessExited(id, status, m) => app.HandleExit(id, status, m);
    case Signal => app.BeginQuit();
  }

  /** The other tasks at work on what they share with the App. */
  method Beside(app: App, event: Event)
    requires app.Valid() && Wf(app.State()) && Talking(app.State()) && Enabled(app.State(), event) && !ForApp(event)
    modifies app, app.processes
    ensures app.Valid() && app.State() == Machine.Next(old(app.State()), event, app.env)
  {
    hide AppObject.App.Ready, AppObject.App.Procs, Draw, AttachClient, BeginQuit, HandleClientMsg;
    hide DropClient, HandleOutput, HandleExit, Delivery.Next;
    match event
    case Connection(step) => ConnectionMoves(app, step);
    case WatcherGone(id) => TasksMove(app, id, app.processes[id].watchers - 1, app.processes[id].queue);
    case InputTaken(id) => TasksMove(app, id, app.processes[id].watchers, app.processes[id].queue[1..]);
    case GoodbyeMoves(k, step) => GoodbyeMoves(app, k, step);
  }

  lemma {:induction false} PlayStops(a: State, events: seq<Event>, k: nat, env: Env)
    requires k <= |events| && (k < |events| ==> Exits(Play(a, events[..k], env)))
    ensures Play(a, events, env) == Play(a, events[..k], env)
  {
    hide After, Exits;
    var n := |events|;
    if k < n {
      assert events[..n - 1][..k] == events[..k];
      PlayStops(a, events[..n - 1], k, env);
    } else {
      assert events[..k] == events;
    }
  }

  /** An event that cannot happen now leaves everything as it is. */
  method Turn(app: App, event: Event)
    requires app.Valid() && AppView.ViewInv(app.State(), app.env) && !Exits(app.State())
    modifies app, app.processes
    ensures app.Valid() && AppView.ViewInv(app.State(), app.env)
    ensures app.State() == After(old(app.State()), event, app.env)
  {
    hide AppObject.App.Ready, AppObject.App.Procs, Next, Enabled, Exits, Wf;
    if Enabled(app.State(), event) {
      AppView.NextKeepsViewInv(app.State(), event, app.env);
      hide AppView.ViewInv;
      if ForApp(event) {
        Handle(app, event);
      } else {
        Beside(app, event);
      }
    }
  }

  /** Nobody is left without a goodbye: the server takes the channel's clients one by one. */
  method SayGoodbyes(app: App, waiting: seq<Waiting>) returns (goodbyes: seq<Goodbye>)
    requires app.Valid()
    modifies app
    ensures app.Valid() && app.State() == old(app.State()).(client := None, goodbyes := [])
    ensures goodbyes == Farewells(old(app.State()), waiting)
  {
    hide AppObject.App.Ready, AppObject.App.Procs, Delivery.LetGo, Delivery.Start;
    goodbyes := app.goodbyes;
    app.goodbyes := [];
    if app.client.Some? {
      goodbyes := goodbyes + [Farewell(app.client.value, Delivery.Exited)];
      app.client := None;
    }
    ghost var sofar := goodbyes;
    for i := 0 to |waiting|
      invariant goodbyes == sofar + Refusals(waiting)[..i]
    {
      goodbyes := goodbyes + [Refusal(waiting[i])];
    }
  }

  /**
   * The server's loop, over any events, is the run the properties are about; then
   * whoever is attached or waiting in the channel is told goodbye.
   */
  method Run(app: App, events: seq<Event>, waiting: seq<Waiting>) returns (goodbyes: seq<Goodbye>)
    requires app.Valid() && AppView.ViewInv(app.State(), app.env)
    modifies app, app.processes
    ensures var a := Play(old(app.State()), events, app.env);
      app.State() == a.(client := None, goodbyes := []) && goodbyes == Farewells(a, waiting)
  {
    hide AppObject.App.Ready, AppObject.App.Procs, AppView.ViewInv, After, Exits, Farewells, Wf;
    ghost var start := app.State();
    var k := 0;
    while k < |events|
      invariant k <= |events| && app.Valid() && AppView.ViewInv(app.State(), app.env)
      invariant app.State() == Play(start, events[..k], app.env)
    {
      if Exits(app.State()) {
        break;
      }
      Turn(app, events[k]);
      k := k + 1;
      assert events[..k][..k - 1] == events[..k - 1];
    }
    PlayStops(start, events, k, app.env);
    goodbyes := SayGoodbyes(app, waiting);
  }
}
