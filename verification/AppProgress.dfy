/** The server keeps up: a client whose connection works can always be brought up to date. */
module AppProgress {
  import opened Prelude
  import opened App
  import AppView
  import Delivery

  lemma {:induction false} PlayConcat(a: State, e: seq<Event>, f: seq<Event>, env: Env)
    ensures Play(a, e + f, env) == Play(Play(a, e, env), f, env)
  {
    hide After, Exits;
    if f == [] {
      assert e + f == e;
    } else {
      var n := |f| - 1;
      PlayConcat(a, e, f[..n], env);
      assert (e + f)[..|e + f| - 1] == e + f[..n];
    }
  }

  function Connections(steps: seq<Delivery.Step>): (events: seq<Event>)
    ensures |events| == |steps|
    ensures forall i :: 0 <= i < |events| ==> events[i] == Connection(steps[i])
  {
    seq(|steps|, i requires 0 <= i < |steps| => Connection(steps[i]))
  }

  /** What the writer and the client do shows in the connection only. */
  lemma {:induction false} ConnectionsPlay(a: State, steps: seq<Delivery.Step>, env: Env)
    requires Wf(a) && a.client.Some? && !a.client.value.session.said && !Exits(a)
    requires forall i :: 0 <= i < |steps| ==> Delivery.Beside(steps[i])
    ensures var s := Delivery.Play(a.client.value.session, steps);
      !s.said && Play(a, Connections(steps), env) == SetSession(a, s)
  {
    if steps != [] {
      var n := |steps| - 1;
      ConnectionsPlay(a, steps[..n], env);
      assert Connections(steps)[..n] == Connections(steps[..n]);
      hide Wf, Exits, Delivery.Enabled, Play, Delivery.Play, Delivery.Next, After;
      OneConnection(a, Delivery.Play(a.client.value.session, steps[..n]), steps[n], env);
      PlayLast(a, Connections(steps), env);
      SessionPlayLast(a.client.value.session, steps);
    }
  }

  lemma PlayLast(a: State, events: seq<Event>, env: Env)
    requires events != []
    ensures var before := Play(a, events[..|events| - 1], env);
      Play(a, events, env) == if Exits(before) then before else After(before, events[|events| - 1], env)
  {}

  lemma SessionPlayLast(s: Delivery.Session, steps: seq<Delivery.Step>)
    requires steps != []
    ensures var before := Delivery.Play(s, steps[..|steps| - 1]);
      Delivery.Play(s, steps)
      == if Delivery.Enabled(before, steps[|steps| - 1]) then Delivery.Next(before, steps[|steps| - 1]) else before
  {}

  lemma OneConnection(a: State, s: Delivery.Session, step: Delivery.Step, env: Env)
    requires Wf(a) && a.client.Some? && !s.said && !Exits(a) && Delivery.Beside(step)
    ensures var b := SetSession(a, s); var r := if Delivery.Enabled(s, step) then Delivery.Next(s, step) else s;
      !Exits(b) && !r.said && After(b, Connection(step), env) == SetSession(a, r)
  {
    hide Draw, HandleClientMsg, AttachClient, BeginQuit, DropClient, HandleOutput, HandleExit;
  }

  /** The client's screen shows the current state, and nothing is left to do for it. */
  ghost predicate Settled(a: State, env: Env)
    requires Wf(a)
  {
    && a.client.Some? && !a.dirty
    && var s := a.client.value.session;
       Delivery.Pipeline(s) == [] && Delivery.Same(s.screen, Picture(a, env, s.sender.size))
  }

  /** The same server, apart from what has been drawn and delivered. */
  ghost predicate SameServer(a: State, b: State, env: Env)
    requires Wf(a) && Wf(b)
  {
    && ViewOf(b, env) == ViewOf(a, env) && a.client.Some? && b.client.Some?
    && b.client.value.id == a.client.value.id
    && b.client.value.session.sender.size == a.client.value.session.sender.size
  }

  /** Whatever is on its way arrives. */
  lemma Delivers(a: State, env: Env) returns (events: seq<Event>)
    requires AppView.ViewInv(a, env) && a.client.Some? && !a.client.value.session.sender.closed && !Exits(a)
    ensures forall i :: 0 <= i < |events| ==> events[i].Connection?
    ensures var b := Play(a, events, env);
      && AppView.ViewInv(b, env) && b.client.Some? && SameServer(a, b, env) && b == a.(client := b.client) && !Exits(b)
      && var s := b.client.value.session;
         Delivery.Pipeline(s) == [] && s.sender == a.client.value.session.sender.(queue := [])
  {
    hide Delivery.Inv, ViewOf, Delivery.Pipeline;
    var s := a.client.value.session;
    var steps := Delivery.Drains(s);
    hide Delivery.Play, Play;
    events := Connections(steps);
    ConnectionsPlay(a, steps, env);
    AppView.PlayKeepsViewInv(a, events, env);
    AppView.SameView(a, Play(a, events, env), env);
  }

  lemma UpToDateIsSettled(a: State, env: Env)
    requires AppView.ViewInv(a, env) && a.client.Some? && !a.dirty
    requires !a.client.value.session.sender.closed && Delivery.Pipeline(a.client.value.session) == []
    ensures Settled(a, env)
  {
    hide Delivery.Fill, ViewOf;
    Delivery.DrainedShows(a.client.value.session);
  }

  /** A tick redraws for a client that has taken everything. */
  lemma TickDraws(a: State, env: Env)
    requires AppView.ViewInv(a, env) && a.client.Some? && a.dirty && !Exits(a)
    requires !a.client.value.session.sender.closed && a.client.value.session.sender.queue == []
    ensures var b := Play(a, [Tick], env);
      && AppView.ViewInv(b, env) && b.client.Some? && SameServer(a, b, env) && !b.dirty && !Exits(b)
      && !b.client.value.session.sender.closed
  {
    assert [Tick][..0] == [];
    var s := a.client.value.session;
    AppView.LookupKeepsView(a, env);
    hide ViewOf, Highlights, Delivery.Fill, Delivery.Inv;
    AppView.PlayKeepsViewInv(a, [Tick], env);
    Delivery.IdleClientIsDrawnTo(s, env.paint(ViewOf(a, env), s.sender.size));
    DrawsToIdle(a, env);
    assert Play(a, [], env) == a;
    hide Play;
    var b := Draw(a, env);
    assert Play(a, [Tick], env) == b by { PlayLast(a, [Tick], env); }
    AppView.SameView(SetTerm(a, Highlights(a, env).0), b, env);
  }

  lemma DrawsToIdle(a: State, env: Env)
    requires Wf(a) && a.client.Some? && !a.client.value.session.said && !Exits(a)
    requires !a.client.value.session.sender.closed && a.client.value.session.sender.queue == []
    ensures var s := a.client.value.session;
      var step := Delivery.DrawStep(env.paint(ViewOf(a, env), s.sender.size));
      var b := Draw(a, env);
      && b == SetSession(SetTerm(a, Highlights(a, env).0), Delivery.Next(s, step)).(dirty := false)
      && !Delivery.Next(s, step).sender.closed && !Exits(b)
  {
    hide ViewOf, Highlights, Delivery.Fill, Delivery.Diff;
    assert AllStopped(a) ==> AllStopped(SetTerm(a, Highlights(a, env).0));
    assert AllStopped(SetTerm(a, Highlights(a, env).0)) ==> AllStopped(a) by {
      var t := Highlights(a, env).0;
      assert forall i :: 0 <= i < |a.procs| ==> SetTerm(a, t).procs[i].Live() == a.procs[i].Live();
    }
  }

  lemma ViewInvIsWf(a: State, env: Env)
    requires AppView.ViewInv(a, env)
    ensures Wf(a)
  {}

  /**
   * In every reachable state with a client whose writer lives, the writer and the
   * client finishing their work and at most one tick bring the client's screen to
   * the current state, whatever had been drawn or delivered until then.
   */
  lemma ClientCanCatchUp(a: State, env: Env) returns (events: seq<Event>)
    requires AppView.ViewInv(a, env) && a.client.Some? && !a.client.value.session.sender.closed && !Exits(a)
    ensures forall i :: 0 <= i < |events| ==> events[i].Connection? || events[i].Tick?
    ensures var b := Play(a, events, env); Wf(b) && Settled(b, env) && SameServer(a, b, env)
  {
    hide Play, AppView.ViewInv, ViewOf, Exits, Settled, Delivery.Pipeline, Wf, SameServer;
    events := Delivers(a, env);
    var delivered := Play(a, events, env);
    ViewInvIsWf(a, env);
    ViewInvIsWf(delivered, env);
    if delivered.dirty {
      var more := CatchesUpByTick(delivered, env);
      PlayConcat(a, events, more, env);
      SameServerTwice(a, delivered, Play(delivered, more, env), env);
      events := events + more;
    } else {
      UpToDateIsSettled(delivered, env);
    }
  }

  lemma SameServerTwice(a: State, b: State, c: State, env: Env)
    requires Wf(a) && Wf(b) && Wf(c) && SameServer(a, b, env) && SameServer(b, c, env)
    ensures SameServer(a, c, env)
  {
    hide ViewOf;
  }

  lemma CatchesUpByTick(a: State, env: Env) returns (events: seq<Event>)
    requires AppView.ViewInv(a, env) && a.client.Some? && a.dirty && !Exits(a)
    requires !a.client.value.session.sender.closed && a.client.value.session.sender.queue == []
    ensures forall i :: 0 <= i < |events| ==> events[i].Connection? || events[i].Tick?
    ensures Wf(a)
    ensures var b := Play(a, events, env); Wf(b) && Settled(b, env) && SameServer(a, b, env)
  {
    hide Play, AppView.ViewInv, ViewOf, Exits, Settled, Delivery.Pipeline, Wf, SameServer;
    ViewInvIsWf(a, env);
    TickDraws(a, env);
    var drawn := Play(a, [Tick], env);
    ViewInvIsWf(drawn, env);
    var more := Delivers(drawn, env);
    var b := Play(drawn, more, env);
    ViewInvIsWf(b, env);
    PlayConcat(a, [Tick], more, env);
    SameServerTwice(a, drawn, b, env);
    UpToDateIsSettled(b, env);
    events := [Tick] + more;
  }
}
