/** The child processes of the whole server: when the server knows them all, and what goes wrong when it does not. */
module AppChildren {
  import opened App
  import opened Children
  import AppLives
  import Delivery
  import Keys
  import Process
  import Protocol
  import Terminal

  /** The server and the children of each of its processes. */
  datatype World = World(app: State, families: seq<Family>)

  /** An event; if it is an exit, `child` says whose. */
  datatype Happening = Happening(event: Event, child: nat)

  ghost predicate Possible(w: World, h: Happening) {
    && Wf(w.app) && Talking(w.app) && App.Enabled(w.app, h.event) && |w.families| == |w.app.procs|
    && (h.event.ProcessExited? && h.event.id < |w.families| ==> h.child in w.families[h.event.id].live)
  }

  /** The family of process k before the event's effects: without the child that exited. */
  function Survivors(w: World, h: Happening, k: nat): Family
    requires k < |w.families|
  {
    if h.event.ProcessExited? && h.event.id == k then Without(w.families[k], h.child) else w.families[k]
  }

  function FamiliesAfter(w: World, h: Happening, after: State): (r: seq<Family>)
    requires |w.families| == |w.app.procs| == |after.procs|
    ensures |r| == |after.procs|
    ensures forall k :: 0 <= k < |r| ==> r[k] == Children.After(Survivors(w, h, k), w.app.procs[k], after.procs[k])
  {
    seq(|after.procs|, k requires 0 <= k < |after.procs| =>
      Children.After(Survivors(w, h, k), w.app.procs[k], after.procs[k]))
  }

  lemma SameCount(a: State, event: Event, env: Env)
    requires Wf(a) && Talking(a) && App.Enabled(a, event)
    ensures |App.Next(a, event, env).procs| == |a.procs|
  {
    if !event.ProcessExited? {
      AppLives.NextKeeps(a, event, env, if event.Msg? then event.m.now else 0);
    }
  }

  ghost function Next(w: World, h: Happening, env: Env): (r: World)
    requires Possible(w, h)
    ensures r.app == App.Next(w.app, h.event, env) && |r.families| == |r.app.procs| == |w.families|
    ensures forall k :: 0 <= k < |w.families| ==>
      r.families[k] == Children.After(Survivors(w, h, k), w.app.procs[k], r.app.procs[k])
  {
    SameCount(w.app, h.event, env);
    var after := App.Next(w.app, h.event, env);
    World(after, FamiliesAfter(w, h, after))
  }

  /** Every process that has not ended has exactly one child, the last it spawned, and the others have none. */
  ghost predicate AllOne(w: World) {
    && |w.families| == |w.app.procs|
    && forall k :: 0 <= k < |w.families| ==> OneChild(w.app.procs[k], w.families[k])
  }

  lemma ExitKeepsAllOne(w: World, h: Happening, env: Env)
    requires Possible(w, h) && AllOne(w) && h.event.ProcessExited?
    ensures AllOne(Next(w, h, env))
  {
    var id := h.event.id;
    var r := Next(w, h, env);
    hide Process.Proc.Exited, OneChild, Draw, HandleClientMsg, BeginQuit, AttachClient, DropClient, Delivery.Next;
    if id < |w.families| {
      ExitKeepsOneChild(w.app.procs[id], w.families[id], h.child, env.emulator, h.event.status, h.event.m);
    }
    forall k | 0 <= k < |r.families|
      ensures OneChild(r.app.procs[k], r.families[k])
    {
      if k != id { assert r.app.procs[k] == w.app.procs[k]; }
    }
  }

  lemma EventIsTame(a: State, event: Event, env: Env, k: nat, f: Family)
    requires Wf(a) && Talking(a) && App.Enabled(a, event) && !event.ProcessExited?
    requires k < |a.procs| && OneChild(a.procs[k], f) && !(AppLives.StartsStopping(a, event) && k == a.selected)
    ensures var b := App.Next(a, event, env);
      k < |b.procs| && OneChild(b.procs[k], Children.After(f, a.procs[k], b.procs[k]))
  {
    hide App.Next, OneChild, AppLives.StartsStopping, Children.After, Wf, App.Enabled;
    var now := if event.Msg? then event.m.now else 0;
    AppLives.NextKeeps(a, event, env, now);
    var p, q := a.procs[k], App.Next(a, event, env).procs[k];
    KeptIsTameIff(p, q, now, false);
    TameIff(p, q, f);
  }

  /** What the key does to the stopping process. */
  lemma ForcedStart(a: State, event: Event, env: Env)
    requires Wf(a) && Talking(a) && App.Enabled(a, event) && AppLives.StartsStopping(a, event)
    ensures var b := App.Next(a, event, env); var q := Sel(a).Start(env.emulator, event.m).SyncPaused();
      b == SetSel(a, q).(dirty := true)
  {
    hide Process.Proc.Start, Process.Proc.SyncPaused, Keys.Resolve;
  }

  lemma ForcedIsNotTame(w: World, h: Happening, env: Env)
    requires Possible(w, h) && AllOne(w) && AppLives.StartsStopping(w.app, h.event)
    ensures !AllOne(Next(w, h, env))
  {
    var k := w.app.selected;
    var p := Sel(w.app);
    hide Process.Proc.Start, Process.Proc.SendPause, App.Next, OneChild, Wf;
    ForcedStart(w.app, h.event, env);
    StartIsTameIff(p, env.emulator, h.event.m);
    var q := p.Start(env.emulator, h.event.m).SyncPaused();
    assert !Tame(p, q);
    TameIff(p, q, w.families[k]);
    assert Next(w, h, env).app.procs[k] == q;
  }

  /**
   * Every event keeps each process at one child, the one it knows, exactly if it
   * is not a key that starts a stopping process.
   */
  lemma NextKeepsOneIff(w: World, h: Happening, env: Env)
    requires Possible(w, h) && AllOne(w)
    ensures AllOne(Next(w, h, env)) <==> !AppLives.StartsStopping(w.app, h.event)
  {
    if h.event.ProcessExited? {
      ExitKeepsAllOne(w, h, env);
    } else if AppLives.StartsStopping(w.app, h.event) {
      ForcedIsNotTame(w, h, env);
    } else {
      OthersKeepAllOne(w, h, env);
    }
  }

  lemma OthersKeepAllOne(w: World, h: Happening, env: Env)
    requires Possible(w, h) && AllOne(w) && !h.event.ProcessExited? && !AppLives.StartsStopping(w.app, h.event)
    ensures AllOne(Next(w, h, env))
  {
    hide OneChild, Next, AppLives.StartsStopping, App.Next, Children.After, Wf, App.Enabled;
    var r := Next(w, h, env);
    forall k | 0 <= k < |r.families|
      ensures OneChild(r.app.procs[k], r.families[k])
    {
      EventIsTame(w.app, h.event, env, k, w.families[k]);
    }
  }

  // ---------------------------------------------------------------- whole runs

  /** The happening takes place: the loop is not over. */
  ghost predicate Happens(w: World, h: Happening) {
    Possible(w, h) && !Exits(w.app)
  }

  ghost function Play(w: World, hs: seq<Happening>, env: Env): World {
    if hs == [] then w
    else
      var before := Play(w, hs[..|hs| - 1], env);
      if Happens(before, hs[|hs| - 1]) then Next(before, hs[|hs| - 1], env) else before
  }

  /** No event of the run starts a stopping process. */
  ghost predicate NoForcedStart(w: World, hs: seq<Happening>, env: Env) {
    forall n :: 0 <= n < |hs| ==>
      var before := Play(w, hs[..n], env);
      Happens(before, hs[n]) ==> !AppLives.StartsStopping(before.app, hs[n].event)
  }

  /** Each process has one child, the one it knows, at every point of the run. */
  ghost predicate AlwaysOne(w: World, hs: seq<Happening>, env: Env) {
    forall n :: 0 <= n <= |hs| ==> AllOne(Play(w, hs[..n], env))
  }

  lemma AlwaysSplits(w: World, hs: seq<Happening>, env: Env)
    requires hs != []
    ensures AlwaysOne(w, hs, env) <==> AlwaysOne(w, hs[..|hs| - 1], env) && AllOne(Play(w, hs, env))
  {
    hide AllOne, Play;
    var m := |hs| - 1;
    assert forall n :: 0 <= n <= m ==> hs[..m][..n] == hs[..n];
    assert hs[..m + 1] == hs;
  }

  lemma NoForcedSplits(w: World, hs: seq<Happening>, env: Env)
    requires hs != []
    ensures var before, h := Play(w, hs[..|hs| - 1], env), hs[|hs| - 1];
      NoForcedStart(w, hs, env)
      <==> NoForcedStart(w, hs[..|hs| - 1], env) && (Happens(before, h) ==> !AppLives.StartsStopping(before.app, h.event))
  {
    hide Play, Happens, AppLives.StartsStopping;
    var m := |hs| - 1;
    assert forall n :: 0 <= n < m ==> hs[..m][..n] == hs[..n] && hs[..m][n] == hs[n];
  }

  /** That is so exactly if no event of the run starts a stopping process. */
  lemma {:induction false} AlwaysOneIff(w: World, hs: seq<Happening>, env: Env)
    requires AllOne(w)
    ensures AlwaysOne(w, hs, env) <==> NoForcedStart(w, hs, env)
  {
    if hs == [] {
      assert hs[..0] == [];
    } else {
      hide AllOne, Play, Happens, AlwaysOne, NoForcedStart, AppLives.StartsStopping;
      AlwaysOneIff(w, hs[..|hs| - 1], env);
      AlwaysSplits(w, hs, env);
      NoForcedSplits(w, hs, env);
      if AlwaysOne(w, hs[..|hs| - 1], env) {
        AlwaysEnds(w, hs[..|hs| - 1], env);
        LastKeepsOneIff(w, hs, env);
      }
    }
  }

  lemma AlwaysEnds(w: World, hs: seq<Happening>, env: Env)
    requires AlwaysOne(w, hs, env)
    ensures AllOne(Play(w, hs, env))
  {
    hide AllOne, Play;
    assert hs[..|hs|] == hs;
  }

  lemma LastKeepsOneIff(w: World, hs: seq<Happening>, env: Env)
    requires hs != [] && AllOne(Play(w, hs[..|hs| - 1], env))
    ensures var before, h := Play(w, hs[..|hs| - 1], env), hs[|hs| - 1];
      AllOne(Play(w, hs, env)) <==> (Happens(before, h) ==> !AppLives.StartsStopping(before.app, h.event))
  {
    hide AllOne, Next, AppLives.StartsStopping, App.Next;
    var before, h := Play(w, hs[..|hs| - 1], env), hs[|hs| - 1];
    if Happens(before, h) { NextKeepsOneIff(before, h, env); }
  }

  // ----------------------------------------------------------------- from start-up

  /** The children of the processes that were started with the server. */
  function BootFamilies(configs: seq<Process.Config>, scrollback: seq<nat>, a: State): seq<Family>
    requires |configs| == |scrollback| == |a.procs|
  {
    seq(|a.procs|, k requires 0 <= k < |a.procs| =>
      Children.After(Family({}, 0), Process.NewProc(configs[k], scrollback[k]), a.procs[k]))
  }

  ghost function BootWorld(configs: seq<Process.Config>, scrollback: seq<nat>, moments: seq<Moment>, env: Env): World
    requires |configs| == |scrollback| == |moments|
  {
    var a := Boot(configs, scrollback, moments, env);
    World(a, BootFamilies(configs, scrollback, a))
  }

  lemma BootIsOne(configs: seq<Process.Config>, scrollback: seq<nat>, moments: seq<Moment>, env: Env)
    requires |configs| == |scrollback| == |moments|
    ensures AllOne(BootWorld(configs, scrollback, moments, env))
  {
    hide Terminal.Term.Resize, Terminal.Term.Banner;
  }

  /**
   * Over any run from start-up in which no stopping process is started: once
   * every process has ended, as when quitting is over, no child is left.
   */
  lemma NoChildIsLeft(configs: seq<Process.Config>, scrollback: seq<nat>, moments: seq<Moment>,
                      hs: seq<Happening>, env: Env)
    requires |configs| == |scrollback| == |moments|
    requires NoForcedStart(BootWorld(configs, scrollback, moments, env), hs, env)
    ensures var w := Play(BootWorld(configs, scrollback, moments, env), hs, env);
      && |w.families| == |w.app.procs|
      && (AllStopped(w.app) ==> forall k :: 0 <= k < |w.families| ==> w.families[k].live == {})
      && (forall k :: 0 <= k < |w.families| && w.app.procs[k].Live() ==> w.families[k].live == {w.families[k].next - 1})
  {
    hide BootWorld, Play;
    var w := BootWorld(configs, scrollback, moments, env);
    BootIsOne(configs, scrollback, moments, env);
    AlwaysOneIff(w, hs, env);
    AlwaysEnds(w, hs, env);
  }

  /** The events alone, for the runs of the server that do not look at children. */
  function Events(hs: seq<Happening>): (r: seq<Event>)
    ensures |r| == |hs|
  {
    seq(|hs|, n requires 0 <= n < |hs| => hs[n].event)
  }

  /** Every exit of the run is one of a child. */
  ghost predicate ExitsAreReal(w: World, hs: seq<Happening>, env: Env) {
    forall n :: 0 <= n < |hs| ==>
      var before := Play(w, hs[..n], env);
      hs[n].event.ProcessExited? && hs[n].event.id < |before.families| ==>
        hs[n].child in before.families[hs[n].event.id].live
  }

  /** The server behaves as in the runs that do not look at children. */
  lemma {:induction false} PlayIsAppPlay(w: World, hs: seq<Happening>, env: Env)
    requires |w.families| == |w.app.procs| && ExitsAreReal(w, hs, env)
    ensures var r := Play(w, hs, env);
      r.app == App.Play(w.app, Events(hs), env) && |r.families| == |r.app.procs|
  {
    if hs != [] {
      hide App.Next, App.Enabled, Exits, Wf, Play, App.Play, Next;
      var m := |hs| - 1;
      assert forall n :: 0 <= n < m ==> hs[..m][n] == hs[n] && hs[..m][..n] == hs[..n];
      PlayIsAppPlay(w, hs[..m], env);
      assert Events(hs)[..m] == Events(hs[..m]);
      LastIsAppLast(w, hs, env);
    }
  }

  lemma LastIsAppLast(w: World, hs: seq<Happening>, env: Env)
    requires hs != [] && ExitsAreReal(w, hs, env)
    requires var before := Play(w, hs[..|hs| - 1], env);
      before.app == App.Play(w.app, Events(hs)[..|hs| - 1], env) && |before.families| == |before.app.procs|
    ensures var r := Play(w, hs, env);
      r.app == App.Play(w.app, Events(hs), env) && |r.families| == |r.app.procs|
  {
    hide App.Next, App.Enabled, Exits, Wf;
    var before, h := Play(w, hs[..|hs| - 1], env), hs[|hs| - 1];
    hide Next, ExitsAreReal;
    assert Events(hs)[|hs| - 1] == h.event;
  }

  // --------------------------------------------------------- the two ways it fails

  /** A key that starts the selected process while it is stopping, with the client there and the loop not over. */
  ghost predicate CanForce(w: World, key: Keys.Key) {
    && AllOne(w) && Wf(w.app) && Talking(w.app) && w.app.client.Some? && !Exits(w.app)
    && AppLives.InputForcesStart(w.app, KeyPress(key))
  }

  function Press(key: Keys.Key, m: Moment): Happening {
    Happening(Msg(Protocol.ClientMsg.Event(KeyPress(key)), m), 0)
  }

  lemma Pressed(w: World, key: Keys.Key, m: Moment, env: Env)
    requires CanForce(w, key)
    ensures var k := w.app.selected; var r := Play(w, [Press(key, m)], env);
      var q := Sel(w.app).Start(env.emulator, m).SyncPaused();
      && r.app == SetSel(w.app, q).(dirty := true) && |r.families| == |w.families|
      && r.families[k] == Children.After(w.families[k], Sel(w.app), q)
  {
    var h := Press(key, m);
    assert [h][..0] == [];
    hide AppLives.InputForcesStart, App.Next, Process.Proc.Start, Process.Proc.SyncPaused;
    PressIsEvent(w.app, key, m);
    ForcedStart(w.app, h.event, env);
    assert Play(w, [], env) == w;
    assert Possible(w, h);
    assert Play(w, [h], env) == Next(w, h, env);
  }

  lemma PressIsEvent(a: State, key: Keys.Key, m: Moment)
    requires Wf(a) && a.client.Some? && AppLives.InputForcesStart(a, KeyPress(key))
    ensures App.Enabled(a, Press(key, m).event) && AppLives.StartsStopping(a, Press(key, m).event)
  {}

  lemma PlayTwo(w: World, one: Happening, two: Happening, env: Env)
    ensures var mid := Play(w, [one], env);
      Play(w, [one, two], env) == if Happens(mid, two) then Next(mid, two, env) else mid
  {
    hide Next, Happens;
    assert [one, two][..1] == [one];
  }

  /** After a forced start the loop goes on, as the server is not quitting. */
  lemma ForcedGoesOn(a: State, key: Keys.Key, q: Proc)
    requires Wf(a) && q.Ok() && !Exits(a) && AppLives.InputForcesStart(a, KeyPress(key))
    ensures var b := SetSel(a, q).(dirty := true); Wf(b) && !Exits(b) && a.mode.Normal? && !b.shouldQuit
  {
    Keys.KeysStayInMode(key, a.mode, Sel(a).config.unfocus);
    assert Sel(a).Live();
  }

  ghost predicate HasChildren(w: World, k: nat, live: set<nat>) {
    k < |w.app.procs| == |w.families| && w.families[k].live == live
  }

  /** Right after a forced start: the process runs with two children, or counts as failed with its old one. */
  lemma AfterForced(w: World, key: Keys.Key, m: Moment, env: Env)
    requires CanForce(w, key)
    ensures var k := w.app.selected; var r := Play(w, [Press(key, m)], env); var next := w.families[k].next;
      && next > 0 && Wf(r.app) && Talking(r.app) && !Exits(r.app)
      && HasChildren(r, k, if m.spawns then {next - 1, next} else {next - 1})
      && (if m.spawns then r.app.procs[k].life.Running? else r.app.procs[k].life.Failed?)
      && |r.app.procs| == |w.app.procs|
      && forall i :: 0 <= i < |w.app.procs| && i != k ==> r.app.procs[i] == w.app.procs[i]
  {
    var k := w.app.selected;
    var p := Sel(w.app);
    hide AppLives.InputForcesStart, Play, Next, App.Next, Terminal.Term.Banner;
    Pressed(w, key, m, env);
    ForcedGoesOn(w.app, key, p.Start(env.emulator, m).SyncPaused());
  }

  /**
   * The first way: the spawn works, and there are two children. When the old one
   * ends the process counts as ended, while the new one, which nobody will stop,
   * lives on.
   */
  lemma OldExitEndsNew(w: World, key: Keys.Key, m: Moment, env: Env)
    requires CanForce(w, key) && m.spawns
    ensures var k := w.app.selected; var next := w.families[k].next;
      var both := Play(w, [Press(key, m)], env);
      && next > 0 && HasChildren(both, k, {next - 1, next}) && both.app.procs[k].life.Running?
      && var r := Play(w, [Press(key, m), Happening(ProcessExited(k, Process.Signal, m), next - 1)], env);
         HasChildren(r, k, {next}) && !r.app.procs[k].Live()
  {
    var k := w.app.selected;
    var next := w.families[k].next;
    hide CanForce, Play, App.Next;
    AfterForced(w, key, m, env);
    var both := Play(w, [Press(key, m)], env);
    var exit := Happening(ProcessExited(k, Process.Signal, m), next - 1);
    OldExits(both, k, next, m, env);
    hide Wf, Exits, Possible, Next;
    PlayTwo(w, Press(key, m), exit, env);
  }

  lemma OldExits(w: World, k: nat, next: nat, m: Moment, env: Env)
    requires next > 0 && HasChildren(w, k, {next - 1, next}) && w.app.procs[k].life.Running?
    requires Wf(w.app) && Talking(w.app)
    ensures var exit := Happening(ProcessExited(k, Process.Signal, m), next - 1);
      && Possible(w, exit)
      && var r := Next(w, exit, env); HasChildren(r, k, {next}) && !r.app.procs[k].Live()
  {
    hide App.Next, Wf;
    ExitEnds(w.app, k, m, env);
    assert {next - 1, next} - {next - 1} == {next};
  }

  lemma ExitEnds(a: State, k: nat, m: Moment, env: Env)
    requires Wf(a) && Talking(a) && k < |a.procs| && a.procs[k].life.Running?
    ensures var exit := ProcessExited(k, Process.Signal, m);
      && App.Enabled(a, exit)
      && var b := App.Next(a, exit, env);
         |b.procs| == |a.procs| && b.procs[k].life.Failed? && b.procs[k].watchers == a.procs[k].watchers
  {
    hide Draw, HandleClientMsg, BeginQuit, AttachClient, DropClient, Delivery.Next;
  }

  /**
   * The second way: the spawn fails. The process counts as failed while its old
   * child is still stopping, so if all others have ended, quitting ends the loop
   * with that child left.
   */
  lemma FailedStartLeavesChild(w: World, key: Keys.Key, m: Moment, env: Env)
    requires CanForce(w, key) && !m.spawns
    requires forall i :: 0 <= i < |w.app.procs| && i != w.app.selected ==> !w.app.procs[i].Live()
    ensures var k := w.app.selected; var next := w.families[k].next;
      var r := Play(w, [Press(key, m), Happening(Event.Signal, 0)], env);
      && next > 0 && HasChildren(r, k, {next - 1}) && r.app.procs[k].life.Failed? && Exits(r.app)
  {
    hide CanForce, Play, App.Next;
    AfterForced(w, key, m, env);
    hide Wf, Exits;
    var failed := Play(w, [Press(key, m)], env);
    PlayTwo(w, Press(key, m), Happening(Event.Signal, 0), env);
    SignalEnds(failed.app, env);
    hide Next;
  }

  lemma SignalEnds(a: State, env: Env)
    requires Wf(a) && Talking(a) && AllStopped(a)
    ensures App.Enabled(a, Event.Signal)
    ensures var b := App.Next(a, Event.Signal, env); b == a.(shouldQuit := true) && Exits(b)
  {}
}
