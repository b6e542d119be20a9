/** What being told goodbye means: the message is on its way to the client, last of all, until the client reads it. */
module AppGoodbyes {
  import opened Prelude
  import opened App
  import opened AppClients
  import opened Ledger
  import AppView
  import Delivery

  ghost predicate Good(g: Goodbye) {
    !g.msg.Output? && Delivery.Inv(g.session) && Delivery.Parting(g.session, g.msg)
  }

  ghost predicate AllGood(goodbyes: seq<Goodbye>) {
    forall k :: 0 <= k < |goodbyes| ==> Good(goodbyes[k])
  }

  // ------------------------------------------------------------- the App's goodbyes

  lemma FarewellIsGood(c: Attached, msg: Delivery.Msg)
    requires Delivery.Inv(c.session) && !c.session.said && !msg.Output?
    ensures Good(Farewell(c, msg))
  {
    Delivery.LetGoParts(c.session, msg);
  }

  lemma MovedIsGood(g: Goodbye, step: Delivery.Step)
    requires Good(g) && Delivery.Enabled(g.session, step)
    ensures Good(Moved(g, step)) && Moved(g, step).id == g.id
  {
    Delivery.StepKeepsParting(g.session, g.msg, step);
  }

  lemma {:induction false} UnfinishedAreGood(g: seq<Goodbye>)
    requires AllGood(g)
    ensures AllGood(Unfinished(g))
  {
    hide Good;
    if g != [] { UnfinishedAreGood(g[..|g| - 1]); }
  }

  /** Detaching forgets exactly the goodbyes whose writer has ended. */
  lemma {:induction false} UnfinishedExactly(g: seq<Goodbye>)
    ensures forall x :: x in Unfinished(g) <==> x in g && !x.session.sender.closed
    ensures forall x :: multiset(Unfinished(g))[x] == if x.session.sender.closed then 0 else multiset(g)[x]
  {
    if g != [] {
      var n := |g| - 1;
      UnfinishedExactly(g[..n]);
      assert g == g[..n] + [g[n]];
    }
  }

  lemma {:induction false} UnfinishedIsListed(g: seq<Goodbye>, id: nat)
    requires Listed(Unfinished(g), id)
    ensures Listed(g, id)
  {
    var n := |g| - 1;
    var k :| 0 <= k < |Unfinished(g)| && Unfinished(g)[k].id == id;
    if k < |Unfinished(g[..n])| {
      assert Unfinished(g[..n])[k].id == id;
      UnfinishedIsListed(g[..n], id);
      var j :| 0 <= j < n && g[..n][j].id == id;
      assert g[j].id == id;
    } else {
      assert g[n].id == id;
    }
  }

  /** Only a client that the App let go of joins the goodbyes. */
  ghost predicate Joins(a: State, after: seq<Goodbye>, gone: bool) {
    forall id: nat :: Listed(after, id) ==>
      Listed(a.goodbyes, id) || (gone && CurrentId(a) == Some(id))
  }

  /** The current client's connection keeps its promises and has not been let go of. */
  ghost predicate Connected(a: State) {
    a.client.Some? ==> Delivery.Inv(a.client.value.session) && !a.client.value.session.said
  }

  lemma ListedAppend(g: seq<Goodbye>, h: seq<Goodbye>, id: nat)
    ensures Listed(g + h, id) <==> Listed(g, id) || Listed(h, id)
  {
    if Listed(g + h, id) {
      var k :| 0 <= k < |g + h| && (g + h)[k].id == id;
      assert k < |g| ==> g[k].id == id;
      assert k >= |g| ==> h[k - |g|].id == id;
    }
    if Listed(g, id) {
      var k :| 0 <= k < |g| && g[k].id == id;
      assert (g + h)[k].id == id;
    }
    if Listed(h, id) {
      var k :| 0 <= k < |h| && h[k].id == id;
      assert (g + h)[|g| + k].id == id;
    }
  }

  lemma DetachIsGood(a: State)
    requires AllGood(a.goodbyes) && Connected(a)
    ensures AllGood(DetachClient(a).goodbyes) && Joins(a, DetachClient(a).goodbyes, true)
  {
    hide Good, Farewell, Delivery.Inv, Listed;
    if a.client.Some? {
      var c := a.client.value;
      UnfinishedAreGood(a.goodbyes);
      FarewellIsGood(c, Delivery.Detached);
      var kept, last := Unfinished(a.goodbyes), Farewell(c, Delivery.Detached);
      assert DetachClient(a).goodbyes == kept + [last];
      forall id: nat | Listed(kept + [last], id)
        ensures Listed(a.goodbyes, id) || c.id == id
      {
        ListedAppend(kept, [last], id);
        OneListed(c, Delivery.Detached);
        if Listed(kept, id) { UnfinishedIsListed(a.goodbyes, id); }
      }
    }
  }

  lemma OneListed(c: Attached, msg: Delivery.Msg)
    ensures forall id: nat :: Listed([Farewell(c, msg)], id) <==> id == c.id
  {
    assert [Farewell(c, msg)][0].id == c.id;
  }

  lemma EventIsGood(a: State, event: Event, env: Env)
    requires Wf(a) && Talking(a) && App.Enabled(a, event)
    requires AllGood(a.goodbyes) && Connected(a)
    ensures var b := App.Next(a, event, env);
      AllGood(b.goodbyes) && Joins(a, b.goodbyes, event.Attach? || b.client.None?)
  {
    hide Draw, HandleClientMsg, AttachClient, DetachClient, BeginQuit, DropClient, Good, Listed, Delivery.Inv;
    DetachIsGood(a);
    match event
    case Tick => DrawGoodbyes(a, env);
    case Attach(id, size, screen) => AttachGoodbyes(a, id, size, screen, env);
    case Msg(msg, m) => MsgGoodbyes(a, msg, env, m);
    case Hangup => DropGoodbyes(a);
    case GoodbyeMoves(k, step) =>
      MovedIsGood(a.goodbyes[k], step);
      MovedJoins(a, k, Moved(a.goodbyes[k], step));
    case QuitRequest => QuitGoodbyes(a, env);
    case Signal => QuitGoodbyes(a, env);
    case _ =>
  }

  lemma ReplacedIsListed(goodbyes: seq<Goodbye>, k: nat, g: Goodbye, id: nat)
    requires k < |goodbyes| && g.id == goodbyes[k].id
    ensures Listed(goodbyes[k := g], id) <==> Listed(goodbyes, id)
  {
    if Listed(goodbyes, id) {
      var j :| 0 <= j < |goodbyes| && goodbyes[j].id == id;
      assert goodbyes[k := g][j].id == id;
    }
    if Listed(goodbyes[k := g], id) {
      var j :| 0 <= j < |goodbyes| && goodbyes[k := g][j].id == id;
      assert goodbyes[j].id == id;
    }
  }

  lemma MovedJoins(a: State, k: nat, g: Goodbye)
    requires k < |a.goodbyes| && g.id == a.goodbyes[k].id
    ensures Joins(a, a.goodbyes[k := g], false)
  {
    hide Listed;
    forall id: nat
      ensures Listed(a.goodbyes[k := g], id) <==> Listed(a.goodbyes, id)
    {
      ReplacedIsListed(a.goodbyes, k, g, id);
    }
  }

  lemma DrawGoodbyes(a: State, env: Env)
    requires Wf(a) && Talking(a) && a.client.Some?
    ensures Draw(a, env).goodbyes == a.goodbyes
  {
    hide Delivery.Next, Delivery.Sender.Draw, ViewOf, Highlights;
  }

  lemma DropGoodbyes(a: State)
    ensures DropClient(a).goodbyes == a.goodbyes
  {}

  lemma QuitGoodbyes(a: State, env: Env)
    ensures BeginQuit(a, env).goodbyes == a.goodbyes
  {}

  lemma MsgGoodbyes(a: State, msg: ClientMsg, env: Env, m: App.Moment)
    requires Wf(a) && Talking(a) && a.client.Some?
    ensures var b := HandleClientMsg(a, msg, env, m);
      b.goodbyes == a.goodbyes || (b.client.None? && b.goodbyes == DetachClient(a).goodbyes)
  {
    hide HandleCtEvent, DetachClient, Delivery.Next;
    if msg.Event? { MsgOnlyDetaches(a, msg.event, env, m); }
  }

  // ------------------------------------------------------------- the whole server

  /** Exactly the clients told goodbye have a goodbye, with the App or on their own, and every one keeps its promise. */
  ghost predicate Tells(s: Server) {
    && (forall id: nat :: Has(s.fates, id, Told) <==> Listed(s.app.goodbyes, id) || Listed(s.parted, id))
    && AllGood(s.app.goodbyes) && AllGood(s.parted)
  }

  ghost predicate ServerInv(s: Server, env: Env) {
    && Booked(s) && Tells(s)
    && if s.closed then s.app.goodbyes == [] else AppView.ViewInv(s.app, env)
  }

  lemma {:induction false} ReleasedAreGood(before: seq<Goodbye>, after: seq<Goodbye>)
    requires AllGood(before)
    ensures AllGood(Released(before, after))
  {
    hide Good, Listed;
    if before != [] { ReleasedAreGood(before[..|before| - 1], after); }
  }

  /** Whoever had a goodbye still has one: the App looks after it or has released it. */
  lemma {:induction false} ReleasedOrListed(before: seq<Goodbye>, after: seq<Goodbye>, id: nat)
    ensures Listed(before, id) ==> Listed(after, id) || Listed(Released(before, after), id)
    ensures Listed(Released(before, after), id) ==> Listed(before, id)
  {
    if before != [] {
      var n := |before| - 1;
      ReleasedOrListed(before[..n], after, id);
      var one := if Listed(after, before[n].id) then [] else [before[n]];
      assert before == before[..n] + [before[n]] && Released(before, after) == Released(before[..n], after) + one;
      ListedAppend(before[..n], [before[n]], id);
      ListedAppend(Released(before[..n], after), one, id);
      assert [before[n]][0].id == before[n].id;
    }
  }

  lemma AppStepTells(s: Server, app: State, gone: bool, fates: map<nat, Fate>, env: Env)
    requires Tells(s) && Booked(s) && AllGood(app.goodbyes) && Joins(s.app, app.goodbyes, gone)
    requires forall id: nat :: Has(fates, id, Told) <==>
      Has(s.fates, id, Told) || (gone && CurrentId(s.app) == Some(id) && ToldNow(s.app, app))
    ensures Tells(Server(app, s.channel, s.closed, fates, s.parted + Released(s.app.goodbyes, app.goodbyes)))
  {
    hide Good, Listed, Released, Right;
    var released := Released(s.app.goodbyes, app.goodbyes);
    ReleasedAreGood(s.app.goodbyes, app.goodbyes);
    forall id: nat
      ensures Has(fates, id, Told) <==> Listed(app.goodbyes, id) || Listed(s.parted + released, id)
    {
      ListedAppend(s.parted, released, id);
      ReleasedOrListed(s.app.goodbyes, app.goodbyes, id);
    }
  }

  lemma TakeKeepsTells(s: Server, env: Env)
    requires ServerInv(s, env) && AppClients.Enabled(s, TakeAttach)
    ensures Tells(AppClients.Next(s, TakeAttach, env))
  {
    var w := s.channel[0];
    var event := Attach(w.id, w.size, w.screen);
    var app := App.Next(s.app, event, env);
    hide Delivery.Inv, Good, App.Next, AllGood, Listed, Released;
    EventIsGood(s.app, event, env);
    TakeTells(BooksOf(s), ToldNow(s.app, app));
    hide Right, Tells, Joins, ToldNow;
    var fates := Leave(s.fates, CurrentId(s.app), Some(w.id), ToldNow(s.app, app))[w.id := Current];
    AppStepTells(s, app, true, fates, env);
    TellsIgnores(Server(app, s.channel, s.closed, fates, s.parted + Released(s.app.goodbyes, app.goodbyes)),
                 AppClients.Next(s, TakeAttach, env));
  }

  lemma HappensKeepsTells(s: Server, event: Event, env: Env)
    requires ServerInv(s, env) && AppClients.Enabled(s, Happens(event))
    ensures Tells(AppClients.Next(s, Happens(event), env))
  {
    var app := App.Next(s.app, event, env);
    hide Delivery.Inv, Good, App.Next, App.Enabled, AllGood, Listed, Released;
    EventIsGood(s.app, event, env);
    LeaveTells(BooksOf(s), CurrentId(app), ToldNow(s.app, app));
    EventKeepsId(s.app, event, env);
    hide Right, Tells, Joins, ToldNow;
    var fates := Leave(s.fates, CurrentId(s.app), CurrentId(app), ToldNow(s.app, app));
    AppStepTells(s, app, app.client.None?, fates, env);
  }

  /** Who waits in the channel makes no difference to the goodbyes. */
  lemma TellsIgnores(s: Server, r: Server)
    requires Tells(s) && s.app == r.app && s.fates == r.fates && s.parted == r.parted
    ensures Tells(r)
  {}

  lemma RefusalsAreGood(waiting: seq<Waiting>)
    ensures AllGood(Refusals(waiting))
    ensures forall id: nat :: Listed(Refusals(waiting), id) <==> id in Ids(waiting)
  {
    hide Delivery.Inv, Delivery.Parting, Delivery.Start, Delivery.LetGo;
    forall k | 0 <= k < |waiting|
      ensures Good(Refusals(waiting)[k])
    {
      RefusalIsGood(waiting[k]);
    }
    forall id: nat
      ensures Listed(Refusals(waiting), id) <==> id in Ids(waiting)
    {
      if id in Ids(waiting) {
        var k :| 0 <= k < |waiting| && Ids(waiting)[k] == id;
        assert Refusals(waiting)[k].id == id;
      }
      if Listed(Refusals(waiting), id) {
        var k :| 0 <= k < |waiting| && Refusals(waiting)[k].id == id;
        assert Ids(waiting)[k] == id;
      }
    }
  }

  lemma RefusalIsGood(w: Waiting)
    ensures Good(Refusal(w)) && Refusal(w).id == w.id
  {
    hide Delivery.Inv, Delivery.Parting;
    Delivery.StartInv(w.size, w.screen);
    FarewellIsGood(Attached(w.id, Delivery.Start(w.size, w.screen)), Delivery.Exited);
  }

  lemma ShutdownKeepsTells(s: Server, env: Env)
    requires ServerInv(s, env) && AppClients.Enabled(s, Shutdown)
    ensures Tells(AppClients.Next(s, Shutdown, env))
  {
    FarewellsAreGood(s.app, s.channel);
    hide Delivery.Inv, AllGood, Listed, Farewells;
    ShutdownTells(BooksOf(s));
    hide Right, ToldAll, AppView.ViewInv, Exits;
    NoneListed();
    forall id: nat
      ensures Listed(s.parted + Farewells(s.app, s.channel), id)
        <==> Listed(s.parted, id) || Listed(s.app.goodbyes, id) || CurrentId(s.app) == Some(id) || id in Ids(s.channel)
    {
      ListedAppend(s.parted, Farewells(s.app, s.channel), id);
      FarewellsList(s.app, s.channel, id);
    }
    AppendIsGood(s.parted, Farewells(s.app, s.channel));
  }

  lemma AppendIsGood(g: seq<Goodbye>, h: seq<Goodbye>)
    requires AllGood(g) && AllGood(h)
    ensures AllGood(g + h)
  {
    hide Good;
  }

  lemma FarewellsAreGood(a: State, waiting: seq<Waiting>)
    requires AllGood(a.goodbyes) && Connected(a)
    ensures AllGood(Farewells(a, waiting))
  {
    hide Delivery.Inv, Good, Farewell, Refusals;
    RefusalsAreGood(waiting);
    if a.client.Some? { FarewellIsGood(a.client.value, Delivery.Exited); }
  }

  /** When the server stops, whoever is attached or waiting is told that it exited; earlier goodbyes go on as they are. */
  lemma StoppingSaysExited(a: State, waiting: seq<Waiting>)
    ensures var told := Farewells(a, waiting); var n := |a.goodbyes|; var c := if a.client.Some? then 1 else 0;
      && |told| == n + c + |waiting| && told[..n] == a.goodbyes
      && (forall k :: n <= k < |told| ==> told[k].msg == Delivery.Exited)
      && (a.client.Some? ==> told[n].id == a.client.value.id
                             && told[n].session == Delivery.LetGo(a.client.value.session, Delivery.Exited))
      && (forall k :: 0 <= k < |waiting| ==> told[n + c + k].id == waiting[k].id)
  {
    hide Delivery.LetGo, Delivery.Start;
  }

  lemma FarewellsList(a: State, waiting: seq<Waiting>, id: nat)
    ensures Listed(Farewells(a, waiting), id)
      <==> Listed(a.goodbyes, id) || CurrentId(a) == Some(id) || id in Ids(waiting)
  {
    var current := if a.client.Some? then [Farewell(a.client.value, Delivery.Exited)] else [];
    hide Delivery.Inv, Listed, Farewell, Refusals;
    if a.client.Some? { OneListed(a.client.value, Delivery.Exited); }
    NoneListed();
    RefusalsAreGood(waiting);
    ListedAppend(a.goodbyes + current, Refusals(waiting), id);
    ListedAppend(a.goodbyes, current, id);
  }

  lemma NoneListed()
    ensures forall id: nat :: !Listed([], id)
  {}

  lemma RefusalKeepsTells(s: Server, w: Waiting, env: Env)
    requires ServerInv(s, env) && AppClients.Enabled(s, SendFails(w))
    ensures Tells(AppClients.Next(s, SendFails(w), env))
  {
    hide Delivery.Inv, Good, Listed, Refusal, Right;
    RefusalIsGood(w);
    forall id: nat
      ensures Listed(s.parted + [Refusal(w)], id) <==> Listed(s.parted, id) || id == w.id
    {
      ListedAppend(s.parted, [Refusal(w)], id);
      OneRefusal(w);
    }
  }

  lemma OneRefusal(w: Waiting)
    ensures forall id: nat :: Listed([Refusal(w)], id) <==> id == w.id
  {
    assert [Refusal(w)][0].id == w.id;
  }

  lemma MoveKeepsTells(s: Server, k: nat, step: Delivery.Step, env: Env)
    requires ServerInv(s, env) && AppClients.Enabled(s, PartedMoves(k, step))
    ensures Tells(AppClients.Next(s, PartedMoves(k, step), env))
  {
    var g := Moved(s.parted[k], step);
    MovedIsGood(s.parted[k], step);
    hide Delivery.Inv, Good, Moved, Right, Listed, Delivery.Enabled, Delivery.Next;
    forall id: nat
      ensures Listed(s.parted[k := g], id) <==> Listed(s.parted, id)
    {
      ReplacedIsListed(s.parted, k, g, id);
    }
  }

  lemma StepKeepsServerInv(s: Server, step: Step, env: Env)
    requires ServerInv(s, env) && AppClients.Enabled(s, step)
    ensures ServerInv(AppClients.Next(s, step, env), env)
  {
    StepKeepsBooked(s, step, env);
    StepKeepsTells(s, step, env);
    hide Booked, Tells, App.Next, App.Enabled, AppView.ViewInv, Exits;
    match step
    case TakeAttach =>
      var w := s.channel[0];
      TakeIsEnabled(s.app, w);
      AppView.NextKeepsViewInv(s.app, Attach(w.id, w.size, w.screen), env);
    case Happens(event) => AppView.NextKeepsViewInv(s.app, event, env);
    case _ =>
  }

  lemma TakeIsEnabled(a: State, w: Waiting)
    ensures App.Enabled(a, Attach(w.id, w.size, w.screen))
  {}

  lemma StepKeepsTells(s: Server, step: Step, env: Env)
    requires ServerInv(s, env) && AppClients.Enabled(s, step)
    ensures Tells(AppClients.Next(s, step, env))
  {
    match step
    case TakeAttach => TakeKeepsTells(s, env);
    case Happens(event) => HappensKeepsTells(s, event, env);
    case Shutdown => ShutdownKeepsTells(s, env);
    case SendFails(w) => RefusalKeepsTells(s, w, env);
    case PartedMoves(k, step) => MoveKeepsTells(s, k, step, env);
    case _ => hide Right, App.Next, AllGood, Listed, AppView.ViewInv;
  }

  /**
   * Over any run of the server with all its clients, through detaching, being
   * replaced, quitting and connecting too late: exactly the clients told goodbye
   * have a goodbye, and each of those is the last message on its way, or has been
   * read with nothing after it, or the connection broke.
   */
  lemma EveryGoodbyeArrives(app: State, steps: seq<Step>, env: Env)
    requires AppView.ViewInv(app, env) && app.client.None? && app.goodbyes == []
    ensures var s := AppClients.Play(Starting(app), steps, env);
      && Booked(s)
      && (forall id: nat :: Has(s.fates, id, Told) <==> Listed(s.app.goodbyes, id) || Listed(s.parted, id))
      && (forall k :: 0 <= k < |s.app.goodbyes| ==> Good(s.app.goodbyes[k]))
      && (forall k :: 0 <= k < |s.parted| ==> Good(s.parted[k]))
  {
    PlayKeepsServerInv(app, steps, env);
    hide AppView.ViewInv, Good, Listed, Right;
  }

  lemma {:induction false} PlayKeepsServerInv(app: State, steps: seq<Step>, env: Env)
    requires AppView.ViewInv(app, env) && app.client.None? && app.goodbyes == []
    ensures ServerInv(AppClients.Play(Starting(app), steps, env), env)
  {
    hide AppView.ViewInv, Good, AppClients.Next, AppClients.Enabled;
    if steps != [] {
      hide ServerInv;
      var n := |steps| - 1;
      PlayKeepsServerInv(app, steps[..n], env);
      var before := AppClients.Play(Starting(app), steps[..n], env);
      if AppClients.Enabled(before, steps[n]) { StepKeepsServerInv(before, steps[n], env); }
    }
  }
}
