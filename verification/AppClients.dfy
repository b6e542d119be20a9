/** Who has connected to the server and what became of them. */
module Ledger {
  import opened Prelude

  /** Sending to the App, waiting in its channel, attached, told goodbye, or dropped because it hung up. */
  datatype Fate = Connecting | Queued | Current | Told | Dropped

  datatype Books = Books(queue: seq<nat>, current: Option<nat>, closed: bool, fates: map<nat, Fate>)

  predicate Has(fates: map<nat, Fate>, id: nat, fate: Fate) { id in fates && fates[id] == fate }

  /** How a client that is no longer the current one ended. */
  function Leave(fates: map<nat, Fate>, before: Option<nat>, after: Option<nat>, told: bool): map<nat, Fate> {
    if before.Some? && after != before then fates[before.value := if told then Told else Dropped] else fates
  }

  function ToldAll(current: Option<nat>, queue: seq<nat>): map<nat, Fate> {
    var told := (if current.Some? then {current.value} else {}) + (set q | q in queue);
    map id | id in told :: Told
  }

  ghost predicate Right(b: Books) {
    && (forall i, j :: 0 <= i < j < |b.queue| ==> b.queue[i] != b.queue[j])
    && (forall id :: id in b.queue <==> Has(b.fates, id, Queued))
    && (b.current.Some? ==> Has(b.fates, b.current.value, Current))
    && (forall id: nat :: Has(b.fates, id, Current) ==> b.current == Some(id))
    && (b.closed ==> b.queue == [] && b.current.None?)
  }

  /** Clients are never forgotten, and a goodbye or a hangup is final. */
  ghost predicate Remembers(before: map<nat, Fate>, after: map<nat, Fate>) {
    forall id :: id in before ==>
      id in after && (before[id].Told? || before[id].Dropped? ==> after[id] == before[id])
  }

  lemma AfterConnect(b: Books, id: nat)
    requires Right(b) && id !in b.fates
    ensures var fates := b.fates[id := Connecting]; Right(b.(fates := fates)) && Remembers(b.fates, fates)
  {
    assert forall i :: 0 <= i < |b.queue| ==> b.queue[i] in b.queue;
  }

  lemma AfterSend(b: Books, id: nat)
    requires Right(b) && Has(b.fates, id, Connecting) && !b.closed
    ensures var fates := b.fates[id := Queued];
      Right(b.(queue := b.queue + [id], fates := fates)) && Remembers(b.fates, fates)
  {
    assert id !in b.queue;
    assert forall i :: 0 <= i < |b.queue| ==> b.queue[i] in b.queue;
  }

  lemma AfterRefusal(b: Books, id: nat)
    requires Right(b) && Has(b.fates, id, Connecting)
    ensures var fates := b.fates[id := Told]; Right(b.(fates := fates)) && Remembers(b.fates, fates)
  {}

  lemma AfterLeave(b: Books, after: Option<nat>, told: bool)
    requires Right(b) && (after == b.current || after.None?)
    ensures var fates := Leave(b.fates, b.current, after, told);
      Right(b.(current := after, fates := fates)) && Remembers(b.fates, fates)
  {}

  lemma AfterTake(b: Books, told: bool)
    requires Right(b) && b.queue != [] && !b.closed
    ensures var fates := Leave(b.fates, b.current, Some(b.queue[0]), told)[b.queue[0] := Current];
      Right(b.(queue := b.queue[1..], current := Some(b.queue[0]), fates := fates)) && Remembers(b.fates, fates)
  {
    var id := b.queue[0];
    assert b.queue == [id] + b.queue[1..];
    assert id in b.queue && id !in b.queue[1..];
    assert forall q :: q in b.queue <==> q == id || q in b.queue[1..];
  }

  /** Who has been told goodbye once the current client is no longer that. */
  lemma LeaveTells(b: Books, after: Option<nat>, told: bool)
    requires Right(b)
    ensures forall id: nat ::
      Has(Leave(b.fates, b.current, after, told), id, Told)
      <==> Has(b.fates, id, Told) || (after != b.current && told && b.current == Some(id))
  {}

  lemma TakeTells(b: Books, told: bool)
    requires Right(b) && b.queue != []
    ensures forall id: nat ::
      Has(Leave(b.fates, b.current, Some(b.queue[0]), told)[b.queue[0] := Current], id, Told)
      <==> Has(b.fates, id, Told) || (told && b.current == Some(id))
  {
    assert b.queue[0] in b.queue;
  }

  lemma ShutdownTells(b: Books)
    requires Right(b)
    ensures forall id: nat ::
      Has(b.fates + ToldAll(b.current, b.queue), id, Told)
      <==> Has(b.fates, id, Told) || b.current == Some(id) || id in b.queue
  {}

  lemma AfterNothing(b: Books)
    ensures Remembers(b.fates, b.fates)
  {}

  lemma AfterShutdown(b: Books)
    requires Right(b)
    ensures var fates := b.fates + ToldAll(b.current, b.queue);
      Right(Books([], None, true, fates)) && Remembers(b.fates, fates)
  {}
}

/** Every client that connects is served, told goodbye or gone by itself; none is forgotten when the server stops. */
module AppClients {
  import opened Prelude
  import opened App
  import AppView
  import opened Ledger
  import Delivery
  import Keys
  import Process
  import Protocol
  import Terminal

  const EVENT_CHANNEL_SIZE: nat := 256

  /** `parted` keeps the connections of clients told goodbye that the App no longer looks after. */
  datatype Server = Server(
    app: State, channel: seq<Waiting>, closed: bool, fates: map<nat, Fate>, parted: seq<Goodbye>)

  datatype Step =
    | Connect(id: nat)
    | Send(w: Waiting)
    | SendFails(w: Waiting)
    | TakeAttach
    | Happens(event: Event)
    | Shutdown
    | PartedMoves(k: nat, step: Delivery.Step)

  ghost predicate Enabled(s: Server, step: Step) {
    match step
    case Connect(id) => id !in s.fates
    case Send(w) =>
      w.id in s.fates && s.fates[w.id].Connecting? && !s.closed && |s.channel| < EVENT_CHANNEL_SIZE
    case SendFails(w) => w.id in s.fates && s.fates[w.id].Connecting? && s.closed
    case TakeAttach => !s.closed && !Exits(s.app) && s.channel != [] && Wf(s.app) && Talking(s.app)
    case Happens(event) =>
      !s.closed && !Exits(s.app) && !event.Attach? && Wf(s.app) && Talking(s.app) && App.Enabled(s.app, event)
    case Shutdown => !s.closed && Exits(s.app)
    case PartedMoves(k, step) =>
      k < |s.parted| && Delivery.Enabled(s.parted[k].session, step) && Delivery.Beside(step)
  }

  function CurrentId(a: State): Option<nat> {
    if a.client.Some? then Some(a.client.value.id) else None
  }

  predicate Listed(goodbyes: seq<Goodbye>, id: nat) {
    exists k :: 0 <= k < |goodbyes| && goodbyes[k].id == id
  }

  /** The App has just let go of its client with a goodbye. */
  predicate ToldNow(before: State, after: State) {
    before.client.Some? && Listed(after.goodbyes, before.client.value.id)
  }

  /** The goodbyes the App stopped looking after. */
  function Released(before: seq<Goodbye>, after: seq<Goodbye>): seq<Goodbye> {
    if before == [] then []
    else
      var n := |before| - 1;
      Released(before[..n], after) + (if Listed(after, before[n].id) then [] else [before[n]])
  }

  ghost function Next(s: Server, step: Step, env: Env): Server
    requires Enabled(s, step)
  {
    match step
    case Connect(id) => s.(fates := s.fates[id := Connecting])
    case Send(w) => s.(channel := s.channel + [w], fates := s.fates[w.id := Queued])
    // The App has already quit: the connection says goodbye itself.
    case SendFails(w) => s.(fates := s.fates[w.id := Told], parted := s.parted + [Refusal(w)])
    case TakeAttach =>
      var w := s.channel[0];
      var app := App.Next(s.app, Attach(w.id, w.size, w.screen), env);
      s.(app := app, channel := s.channel[1..],
         fates := Leave(s.fates, CurrentId(s.app), Some(w.id), ToldNow(s.app, app))[w.id := Current],
         parted := s.parted + Released(s.app.goodbyes, app.goodbyes))
    case Happens(event) =>
      var app := App.Next(s.app, event, env);
      s.(app := app,
         fates := Leave(s.fates, CurrentId(s.app), CurrentId(app), ToldNow(s.app, app)),
         parted := s.parted + Released(s.app.goodbyes, app.goodbyes))
    case Shutdown =>
      Server(s.app.(client := None, goodbyes := []), [], true, s.fates + ToldAll(CurrentId(s.app), Ids(s.channel)),
             s.parted + Farewells(s.app, s.channel))
    case PartedMoves(k, step) => s.(parted := s.parted[k := Moved(s.parted[k], step)])
  }

  /** The clients waiting in the channel, in order. */
  function Ids(channel: seq<Waiting>): (ids: seq<nat>)
    ensures |ids| == |channel|
  {
    seq(|channel|, i requires 0 <= i < |channel| => channel[i].id)
  }

  function BooksOf(s: Server): Books {
    Books(Ids(s.channel), CurrentId(s.app), s.closed, s.fates)
  }

  /** Exactly the clients in the channel are queued, and exactly the attached one is current. */
  ghost predicate Booked(s: Server) {
    Right(BooksOf(s))
  }

  /** An event that is not an attach keeps the client, its id at least, or ends with none. */
  lemma EventKeepsId(a: State, event: Event, env: Env)
    requires Wf(a) && Talking(a) && App.Enabled(a, event) && !event.Attach?
    ensures var b := App.Next(a, event, env);
      b.client.Some? ==> a.client.Some? && b.client.value.id == a.client.value.id
  {
    hide Draw, HandleCtEvent, BeginQuit, DropClient, App.SetSize, Delivery.Next;
    match event
    case Tick => DrawKeepsId(a, env);
    case Msg(msg, m) => if msg.Event? { AppView.CtEventKeepsClient(a, msg.event, env, m); }
    case _ =>
  }

  /** The client was let go of: its connection with the goodbye queued is the latest one among the goodbyes. */
  predicate SaidGoodbye(a: State, c: Attached) {
    a.goodbyes != [] && a.goodbyes[|a.goodbyes| - 1] == Farewell(c, Delivery.Detached)
  }

  /** Between these states nothing but detaching touched the client and the goodbyes. */
  predicate OnlyDetached(a: State, b: State) {
    || (b.client == a.client && b.goodbyes == a.goodbyes)
    || (a.client.Some? && b.client.None? && b.goodbyes == DetachClient(a).goodbyes)
  }

  lemma DetachTells(a: State)
    requires a.client.Some?
    ensures DetachClient(a).client.None? && SaidGoodbye(DetachClient(a), a.client.value)
  {
    hide Unfinished;
  }

  lemma ActionOnlyDetaches(a: State, action: Keys.Action, env: Env, m: App.Moment)
    requires Wf(a)
    ensures OnlyDetached(a, HandleAction(a, action, env, m))
  {
    hide AcceptSearch, Navigate, BeginQuit, ResizeProcs, Unfinished, Delivery.LetGo;
    hide Terminal.Term.ScrollUp, Terminal.Term.ScrollDown, Terminal.Term.ScrollToBottom, Terminal.Term.ScrollToTop;
    hide Process.Proc.Start, Process.Proc.Stop, Process.Proc.Restart, Process.Proc.Write, Process.Proc.SendPause;
  }

  lemma InputOnlyDetaches(a: State, event: CtEvent, env: Env, m: App.Moment)
    requires Wf(a)
    ensures OnlyDetached(a, HandleCtEvent(a, event, env, m))
  {
    hide HandleAction, DetachClient, TabAt, Keys.Resolve, Terminal.Term.ScrollUp, Terminal.Term.ScrollDown;
    if event.KeyPress? {
      var r := Keys.Resolve(event.key, a.mode, Sel(a).config.unfocus);
      if r.Some? { ActionOnlyDetaches(a, r.value, env, m); }
    }
  }

  lemma MsgOnlyDetaches(a: State, event: CtEvent, env: Env, m: App.Moment)
    requires Wf(a) && Talking(a) && a.client.Some?
    ensures OnlyDetached(a, HandleClientMsg(a, Protocol.ClientMsg.Event(event), env, m))
  {
    hide HandleCtEvent, DetachClient;
    InputOnlyDetaches(a, event, env, m);
  }

  lemma AttachGoodbyes(a: State, id: nat, size: Delivery.Size, screen: Delivery.Picture, env: Env)
    ensures AttachClient(a, id, size, screen, env).goodbyes == DetachClient(a).goodbyes
  {
    hide DetachClient, Delivery.Start;
  }

  /**
   * Why a client is no longer attached: input made the App detach it or a
   * newcomer replaced it, and then its goodbye has been queued; or it hung up, or
   * a frame could not be queued because its writer had ended.
   */
  lemma LeavingIsToldOrGone(a: State, event: Event, env: Env)
    requires Wf(a) && Talking(a) && App.Enabled(a, event) && a.client.Some?
    requires var b := App.Next(a, event, env); event.Attach? || b.client.None?
    ensures event.Msg? || event.Attach? ==> SaidGoodbye(App.Next(a, event, env), a.client.value)
    ensures !event.Msg? && !event.Attach? ==> event.Hangup? || (event.Tick? && a.client.value.session.sender.closed)
  {
    hide BeginQuit, HandleCtEvent, DetachClient, App.SetSize, SaidGoodbye, ViewOf, Highlights, Delivery.Fill;
    DetachTells(a);
    match event
    case Attach(id, size, screen) => AttachIsSaid(a, id, size, screen, env);
    case Msg(msg, m) =>
      if msg.Event? { MsgIsSaid(a, msg.event, env, m); }
    case _ =>
  }

  lemma AttachIsSaid(a: State, id: nat, size: Delivery.Size, screen: Delivery.Picture, env: Env)
    requires a.client.Some?
    ensures SaidGoodbye(AttachClient(a, id, size, screen, env), a.client.value)
  {
    hide AttachClient, DetachClient;
    DetachTells(a);
    AttachGoodbyes(a, id, size, screen, env);
  }

  lemma MsgIsSaid(a: State, event: CtEvent, env: Env, m: App.Moment)
    requires Wf(a) && Talking(a) && a.client.Some?
    ensures var b := HandleClientMsg(a, Protocol.ClientMsg.Event(event), env, m);
      b.client.None? ==> SaidGoodbye(b, a.client.value)
  {
    hide HandleClientMsg, DetachClient;
    DetachTells(a);
    MsgOnlyDetaches(a, event, env, m);
  }

  lemma AttachIsCurrent(a: State, w: Waiting, env: Env)
    requires Wf(a) && Talking(a)
    ensures CurrentId(App.Next(a, Attach(w.id, w.size, w.screen), env)) == Some(w.id)
  {
    hide DetachClient, App.SetSize, Delivery.Start;
  }

  lemma DrawKeepsId(a: State, env: Env)
    requires Wf(a) && Talking(a) && a.client.Some?
    ensures var b := Draw(a, env); b.client.Some? ==> b.client.value.id == a.client.value.id
  {
    hide Delivery.Next, Delivery.Sender.Draw, DropClient, ViewOf;
  }

  /** Every step of the server keeps the books right, forgets nobody and takes no goodbye back. */
  lemma StepKeepsBooked(s: Server, step: Step, env: Env)
    requires Booked(s) && Enabled(s, step)
    ensures Booked(Next(s, step, env)) && Remembers(s.fates, Next(s, step, env).fates)
  {
    hide Right, Remembers, App.Next, Leave, ToldAll, ToldNow, Released, Farewells;
    var b := BooksOf(s);
    var r := BooksOf(Next(s, step, env));
    match step
    case Connect(id) => AfterConnect(b, id);
    case Send(w) =>
      assert r.queue == b.queue + [w.id];
      AfterSend(b, w.id);
    case SendFails(w) => AfterRefusal(b, w.id);
    case TakeAttach =>
      assert r.queue == b.queue[1..];
      AttachIsCurrent(s.app, s.channel[0], env);
      AfterTake(b, ToldNow(s.app, App.Next(s.app, Attach(s.channel[0].id, s.channel[0].size, s.channel[0].screen), env)));
    case Happens(event) =>
      EventKeepsId(s.app, event, env);
      AfterLeave(b, r.current, ToldNow(s.app, App.Next(s.app, event, env)));
    case Shutdown => AfterShutdown(b);
    case PartedMoves(_, _) => AfterNothing(b);
  }

  function Starting(app: State): Server { Server(app, [], false, map[], []) }

  ghost function Play(s: Server, steps: seq<Step>, env: Env): Server {
    if steps == [] then s
    else
      var before := Play(s, steps[..|steps| - 1], env);
      var step := steps[|steps| - 1];
      if Enabled(before, step) then Next(before, step, env) else before
  }

  /**
   * However clients connect, attach, hang up and are replaced: nobody is ever
   * forgotten, whoever was told goodbye stays so, and once the server has shut
   * down no client is left attached or waiting; one still connecting can only be
   * told goodbye by its own connection.
   */
  lemma {:induction false} NoClientLost(app: State, steps: seq<Step>, env: Env, n: nat)
    requires app.client.None? && n <= |steps|
    ensures var s := Play(Starting(app), steps, env);
      && Booked(s)
      && (s.closed ==> forall id :: !Has(s.fates, id, Queued) && !Has(s.fates, id, Current))
      && Remembers(Play(Starting(app), steps[..n], env).fates, s.fates)
  {
    hide Next, Enabled;
    var start := Starting(app);
    if steps == [] {
    } else {
      var k := |steps| - 1;
      NoClientLost(app, steps[..k], env, if n <= k then n else k);
      var before := Play(start, steps[..k], env);
      if Enabled(before, steps[k]) {
        StepKeepsBooked(before, steps[k], env);
      }
      if n <= k {
        assert steps[..k][..n] == steps[..n];
      } else {
        assert steps[..n] == steps;
      }
    }
  }
}
