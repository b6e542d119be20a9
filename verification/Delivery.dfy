/**
 * Frames on their way to an attached client. The server renders a frame as the
 * difference from the one before and queues it; a writer task sends what is
 * queued; the client applies what arrives. Nothing may be lost in between.
 *
 * Pictures map positions to glyphs and show blanks elsewhere. A frame's bytes
 * are kept as drawing commands.
 */
module Delivery {
  import opened Prelude

  type Pos = (int, int)
  type Glyph = nat
  type Picture = map<Pos, Glyph>

  const BLANK: Glyph := 32
  /** Room for one frame and a goodbye. */
  const OUTPUT_QUEUE_SIZE: nat := 2

  datatype Size = Size(cols: U16, rows: U16)

  datatype Cmd = Clear | Patch(cells: Picture)

  datatype Msg = Output(cmds: seq<Cmd>) | Detached | Exited

  datatype Drawn = Sent | Busy | Disconnected | Full

  // ----------------------------------------------------------------- pictures

  function At(p: Picture, pos: Pos): Glyph { if pos in p then p[pos] else BLANK }

  ghost predicate Same(a: Picture, b: Picture) {
    forall pos :: At(a, pos) == At(b, pos)
  }

  /** A view drawn into every cell of an area. */
  function Fill(view: Picture, size: Size): Picture {
    map x: int, y: int | 0 <= x < size.cols && 0 <= y < size.rows :: (x, y) := At(view, (x, y))
  }

  function Diff(before: Picture, after: Picture): Picture {
    map pos | pos in after && At(before, pos) != after[pos] :: after[pos]
  }

  function Apply(screen: Picture, cmds: seq<Cmd>): Picture {
    if cmds == [] then screen
    else
      var s := Apply(screen, cmds[..|cmds| - 1]);
      match cmds[|cmds| - 1]
      case Clear => map[]
      case Patch(cells) => s + cells
  }

  lemma {:induction false} ApplyConcat(screen: Picture, a: seq<Cmd>, b: seq<Cmd>)
    ensures Apply(screen, a + b) == Apply(Apply(screen, a), b)
  {
    if b == [] {
      assert a + b == a;
    } else {
      var n := |b| - 1;
      assert (a + b)[..|a + b| - 1] == a + b[..n];
      ApplyConcat(screen, a, b[..n]);
    }
  }

  /** A diff takes a screen that shows one picture to the next one, if that covers the same area. */
  lemma DiffApplies(screen: Picture, before: Picture, after: Picture)
    requires Same(screen, before) && before.Keys <= after.Keys
    ensures Same(screen + Diff(before, after), after)
  {
    forall pos
      ensures At(screen + Diff(before, after), pos) == At(after, pos)
    {
      assert At(screen, pos) == At(before, pos);
    }
  }

  // -------------------------------------------------------- the server's side

  /** What the server holds for a client: the last picture, unsent commands, and the queue to the writer. */
  datatype Sender = Sender(size: Size, prev: Picture, output: seq<Cmd>, queue: seq<Msg>, closed: bool)
  {
    function TrySend(): SendResult {
      if closed then SendClosed else if |queue| >= OUTPUT_QUEUE_SIZE then SendFull else SendOk
    }

    /** A busy client is not rendered to. */
    function Draw(view: Picture): (Sender, Drawn) {
      if |queue| > 0 then (this, Busy)
      else
        var after := Fill(view, size);
        var frame := Output(output + [Patch(Diff(prev, after))]);
        var taken := this.(prev := after, output := []);
        match TrySend()
        case SendOk => (taken.(queue := [frame]), Sent)
        case SendClosed => (taken, Disconnected)
        case SendFull => (taken, Full)
    }

    /** Resizing clears the client's screen; the next frame redraws all of it. */
    function Resize(to: Size): Sender {
      this.(size := to, prev := map[], output := output + [Clear])
    }

    function SayGoodbye(msg: Msg): Sender {
      if TrySend().SendOk? then this.(queue := queue + [msg]) else this
    }
  }

  function NewSender(size: Size): Sender { Sender(size, map[], [Clear], [], false) }

  datatype SendResult = SendOk | SendFull | SendClosed

  // ------------------------------------------------ server, writer and client

  /**
   * A client's connection, end to end. `said` is set once the server has let go
   * of the client, `failed` once the connection broke under the writer,
   * `rendered` lists every picture whose frame was sent, `seen` what the client's
   * screen showed after each frame it applied, and `heard` is the goodbye it read.
   */
  datatype Session = Session(
    sender: Sender, said: bool, failed: bool,
    inFlight: Option<Msg>, wire: seq<Msg>, screen: Picture,
    rendered: seq<Picture>, seen: seq<Picture>, heard: Option<Msg>)

  function Start(size: Size, screen: Picture): Session {
    Session(NewSender(size), false, false, None, [], screen, [], [], None)
  }

  /** The server lets go of a client: it queues a goodbye, and the writer ends after it. */
  function LetGo(s: Session, msg: Msg): Session {
    s.(sender := s.sender.SayGoodbye(msg), said := true)
  }

  datatype Step =
    | DrawStep(view: Picture)
    | ResizeStep(size: Size)
    | GoodbyeStep(msg: Msg)
    | Recv
    | Deliver
    | WriterFails
    | WriterEnds
    | ClientReads

  /** What the writer and the client do, as opposed to the server. */
  predicate Beside(step: Step) {
    step.Recv? || step.Deliver? || step.WriterFails? || step.WriterEnds? || step.ClientReads?
  }

  predicate Enabled(s: Session, step: Step) {
    match step
    case DrawStep(_) => !s.said
    case ResizeStep(_) => !s.said
    case GoodbyeStep(msg) => !s.said && !msg.Output?
    case Recv => !s.sender.closed && s.inFlight.None? && s.sender.queue != []
    case Deliver => !s.sender.closed && s.inFlight.Some?
    case WriterFails => !s.sender.closed && s.inFlight.Some?
    case WriterEnds => !s.sender.closed && s.inFlight.None? && s.sender.queue == [] && s.said
    case ClientReads => s.wire != []
  }

  function Next(s: Session, step: Step): Session
    requires Enabled(s, step)
  {
    match step
    case DrawStep(view) =>
      var (c, drawn) := s.sender.Draw(view);
      s.(sender := c, rendered := if drawn.Sent? then s.rendered + [c.prev] else s.rendered)
    case ResizeStep(size) => s.(sender := s.sender.Resize(size))
    case GoodbyeStep(msg) => LetGo(s, msg)
    case Recv => s.(inFlight := Some(s.sender.queue[0]), sender := s.sender.(queue := s.sender.queue[1..]))
    case Deliver => s.(wire := s.wire + [s.inFlight.value], inFlight := None)
    case WriterFails => s.(failed := true, inFlight := None, sender := s.sender.(closed := true, queue := []))
    case WriterEnds => s.(sender := s.sender.(closed := true))
    case ClientReads =>
      var rest := s.(wire := s.wire[1..]);
      match s.wire[0]
      case Output(cmds) =>
        var screen := Apply(s.screen, cmds);
        rest.(screen := screen, seen := s.seen + [screen])
      case goodbye => rest.(heard := Some(goodbye))
  }

  /** Messages between the server and the client's screen, oldest first. */
  function Pipeline(s: Session): seq<Msg> {
    s.wire + (if s.inFlight.Some? then [s.inFlight.value] else []) + s.sender.queue
  }

  function Frames(msgs: seq<Msg>): nat {
    if msgs == [] then 0 else (if msgs[0].Output? then 1 else 0) + Frames(msgs[1..])
  }

  function ApplyMsg(screen: Picture, msg: Msg): Picture {
    match msg case Output(cmds) => Apply(screen, cmds) case _ => screen
  }

  /** The screen once every message has been applied. */
  function Final(screen: Picture, msgs: seq<Msg>): Picture
    decreases |msgs|
  {
    if msgs == [] then screen else Final(ApplyMsg(screen, msgs[0]), msgs[1..])
  }

  /** Applying these messages in order shows exactly `views`; a goodbye can only come last. */
  ghost predicate Shows(screen: Picture, msgs: seq<Msg>, views: seq<Picture>)
    decreases |msgs|
  {
    if msgs == [] then views == []
    else if msgs[0].Output? then
      views != [] && Same(ApplyMsg(screen, msgs[0]), views[0])
      && Shows(ApplyMsg(screen, msgs[0]), msgs[1..], views[1..])
    else |msgs| == 1 && views == []
  }

  predicate AllOutput(msgs: seq<Msg>) {
    forall i :: 0 <= i < |msgs| ==> msgs[i].Output?
  }

  lemma {:induction false} ShowsAppend(screen: Picture, msgs: seq<Msg>, views: seq<Picture>, msg: Msg, view: Picture)
    requires Shows(screen, msgs, views) && AllOutput(msgs)
    requires msg.Output? ==> Same(ApplyMsg(Final(screen, msgs), msg), view)
    ensures Shows(screen, msgs + [msg], views + (if msg.Output? then [view] else []))
    ensures Final(screen, msgs + [msg]) == ApplyMsg(Final(screen, msgs), msg)
    ensures Frames(msgs + [msg]) == Frames(msgs) + (if msg.Output? then 1 else 0)
    decreases |msgs|
  {
    var more := if msg.Output? then [view] else [];
    if msgs == [] {
      assert msgs + [msg] == [msg] && views + more == more;
      assert Final(ApplyMsg(screen, msg), []) == ApplyMsg(screen, msg);
      assert Frames([msg][1..]) == 0;
    } else {
      assert (msgs + [msg])[1..] == msgs[1..] + [msg] && (views + more)[1..] == views[1..] + more;
      ShowsAppend(ApplyMsg(screen, msgs[0]), msgs[1..], views[1..], msg, view);
    }
  }

  lemma {:induction false} ShowsPrefix(screen: Picture, msgs: seq<Msg>, views: seq<Picture>, n: nat)
    requires Shows(screen, msgs, views) && n <= |msgs|
    ensures Frames(msgs[..n]) <= Frames(msgs) == |views|
    ensures Shows(screen, msgs[..n], views[..Frames(msgs[..n])])
    decreases |msgs|
  {
    if msgs != [] {
      if n == 0 {
        ShowsPrefix(ApplyMsg(screen, msgs[0]), msgs[1..], if msgs[0].Output? then views[1..] else views, 0);
      } else {
        assert msgs[..n][1..] == msgs[1..][..n - 1];
        if msgs[0].Output? {
          ShowsPrefix(ApplyMsg(screen, msgs[0]), msgs[1..], views[1..], n - 1);
          var k := Frames(msgs[1..][..n - 1]);
          assert views[..k + 1][1..] == views[1..][..k];
        }
      }
    }
  }

  ghost predicate Agrees(seen: seq<Picture>, rendered: seq<Picture>) {
    |seen| <= |rendered| && forall i :: 0 <= i < |seen| ==> Same(seen[i], rendered[i])
  }

  /** Frames arrive in order: those in the pipeline show the pictures rendered next after the ones seen. */
  ghost predicate InOrder(s: Session) {
    var pipe := Pipeline(s);
    var end := |s.seen| + Frames(pipe);
    && Agrees(s.seen, s.rendered)
    && end <= |s.rendered| && (!s.sender.closed ==> end == |s.rendered|)
    && Shows(s.screen, pipe, s.rendered[|s.seen|..end])
    && (!s.said ==> AllOutput(pipe))
  }

  /** At most one frame waits, or a frame and a goodbye. */
  ghost predicate HasRoom(s: Session) {
    && |s.sender.queue| <= (if s.said then 2 else 1)
    && (s.sender.closed ==> s.inFlight.None? && s.sender.queue == [] && (s.failed || s.said))
  }

  /** Applying what is in flight, what is queued and what is not yet sent brings the screen to the last picture. */
  ghost predicate NoLostDiff(s: Session) {
    !s.said && !s.sender.closed ==> Same(Apply(Final(s.screen, Pipeline(s)), s.sender.output), s.sender.prev)
  }

  ghost predicate Inv(s: Session) {
    InOrder(s) && HasRoom(s) && NoLostDiff(s) && s.sender.prev.Keys <= Fill(map[], s.sender.size).Keys
  }

  lemma StartInv(size: Size, screen: Picture)
    ensures Inv(Start(size, screen))
  {
    var s := Start(size, screen);
    assert Pipeline(s) == [] && s.rendered[0..0] == [];
    assert Apply(screen, [Clear]) == map[];
  }

  lemma FillKeys(a: Picture, b: Picture, size: Size)
    ensures Fill(a, size).Keys == Fill(b, size).Keys
  {}

  /** Commands still unsent followed by a diff to the next picture show that picture. */
  lemma FrameShows(screen: Picture, c: Sender, view: Picture)
    requires Same(Apply(screen, c.output), c.prev) && c.prev.Keys <= Fill(map[], c.size).Keys
    ensures var after := Fill(view, c.size);
      Same(Apply(screen, c.output + [Patch(Diff(c.prev, after))]), after) && after.Keys <= Fill(map[], c.size).Keys
  {
    var after := Fill(view, c.size);
    FillKeys(view, map[], c.size);
    var cmds := c.output + [Patch(Diff(c.prev, after))];
    assert cmds[..|cmds| - 1] == c.output;
    DiffApplies(Apply(screen, c.output), c.prev, after);
  }

  /** A frame that shows the next picture joins the pipeline. */
  lemma FrameJoins(s: Session, r: Session, frame: Msg, shown: Picture)
    requires InOrder(s) && !s.said && !s.sender.closed && frame.Output?
    requires Same(ApplyMsg(Final(s.screen, Pipeline(s)), frame), shown)
    requires Pipeline(r) == Pipeline(s) + [frame] && r.rendered == s.rendered + [shown]
    requires r.seen == s.seen && r.screen == s.screen && !r.sender.closed
    ensures InOrder(r) && Final(r.screen, Pipeline(r)) == ApplyMsg(Final(s.screen, Pipeline(s)), frame)
  {
    hide Shows, Frames, Final, Same, Pipeline, ApplyMsg;
    var pipe := Pipeline(s);
    assert s.rendered[|s.seen|..|s.rendered|] == s.rendered[|s.seen|..];
    ShowsAppend(s.screen, pipe, s.rendered[|s.seen|..], frame, shown);
    assert r.rendered[|s.seen|..|r.rendered|] == s.rendered[|s.seen|..] + [shown];
  }

  lemma DrawKeepsInv(s: Session, view: Picture)
    requires Inv(s) && Enabled(s, DrawStep(view))
    ensures Inv(Next(s, DrawStep(view)))
    ensures !s.sender.Draw(view).1.Full?
  {
    hide Shows, Frames, Final, Fill, Diff, Same, InOrder, Pipeline;
    var (c, drawn) := s.sender.Draw(view);
    var r := Next(s, DrawStep(view));
    FillKeys(view, map[], s.sender.size);
    if drawn.Sent? {
      var frame := Output(s.sender.output + [Patch(Diff(s.sender.prev, c.prev))]);
      FrameShows(Final(s.screen, Pipeline(s)), s.sender, view);
      QueuedLast(s, r, frame);
      FrameJoins(s, r, frame, c.prev);
      assert Apply(Final(r.screen, Pipeline(r)), []) == Final(r.screen, Pipeline(r));
    } else {
      SamePipeline(s, r);
      SameInOrder(s, r);
    }
  }

  lemma SameInOrder(s: Session, r: Session)
    requires InOrder(s) && Pipeline(r) == Pipeline(s) && r.rendered == s.rendered && r.seen == s.seen && r.screen == s.screen
    requires r.sender.closed == s.sender.closed && r.said == s.said
    ensures InOrder(r)
  {
    hide Shows, Frames;
  }

  lemma ResizeKeepsInv(s: Session, size: Size)
    requires Inv(s) && Enabled(s, ResizeStep(size))
    ensures Inv(Next(s, ResizeStep(size)))
  {
    hide Shows, Frames, Final, Apply, Same, Fill, Agrees, Pipeline;
    var r := Next(s, ResizeStep(size));
    SamePipeline(s, r);
    ClearLast(Final(s.screen, Pipeline(s)), s.sender.output);
  }

  lemma SamePipeline(s: Session, r: Session)
    requires s.wire + (if s.inFlight.Some? then [s.inFlight.value] else []) + s.sender.queue
      == r.wire + (if r.inFlight.Some? then [r.inFlight.value] else []) + r.sender.queue
    ensures Pipeline(s) == Pipeline(r)
  {}

  lemma ClearLast(screen: Picture, cmds: seq<Cmd>)
    ensures Same(Apply(screen, cmds + [Clear]), map[])
  {
    assert (cmds + [Clear])[..|cmds|] == cmds;
  }

  lemma GoodbyeKeepsInv(s: Session, msg: Msg)
    requires Inv(s) && Enabled(s, GoodbyeStep(msg))
    ensures Inv(Next(s, GoodbyeStep(msg)))
    ensures !s.sender.TrySend().SendFull?
  {
    hide Shows, Frames, Final, Apply, Same, Fill, Agrees, Pipeline;
    var r := Next(s, GoodbyeStep(msg));
    if s.sender.TrySend().SendOk? {
      QueuedLast(s, r, msg);
      var views := s.rendered[|s.seen|..|s.seen| + Frames(Pipeline(s))];
      ShowsAppend(s.screen, Pipeline(s), views, msg, map[]);
      assert views + [] == views;
    } else {
      SamePipeline(s, r);
    }
  }

  lemma QueuedLast(s: Session, r: Session, msg: Msg)
    requires r.wire == s.wire && r.inFlight == s.inFlight && r.sender.queue == s.sender.queue + [msg]
    ensures Pipeline(r) == Pipeline(s) + [msg]
  {}

  lemma MoveKeepsInv(s: Session, step: Step)
    requires Inv(s) && Enabled(s, step) && (step.Recv? || step.Deliver? || step.WriterEnds?)
    ensures Inv(Next(s, step))
  {
    hide Shows, Frames, Final, Apply, Same, Fill, Agrees;
    var r := Next(s, step);
    assert Pipeline(r) == Pipeline(s);
  }

  lemma FailKeepsInv(s: Session)
    requires Inv(s) && Enabled(s, WriterFails)
    ensures Inv(Next(s, WriterFails))
  {
    hide Shows, Frames, Final, Apply, Same, Fill, Agrees;
    var r, pipe, n := Next(s, WriterFails), Pipeline(s), |s.wire|;
    assert Pipeline(r) == s.wire == pipe[..n];
    var views := s.rendered[|s.seen|..|s.seen| + Frames(pipe)];
    ShowsPrefix(s.screen, pipe, views, n);
    var from, k := |s.seen|, Frames(s.wire);
    assert k <= |views|;
    assert views[..k] == s.rendered[from..][..k] == s.rendered[from..from + k];
  }

  lemma ClientPipeline(s: Session)
    requires Enabled(s, ClientReads)
    ensures Pipeline(s) == [s.wire[0]] + Pipeline(Next(s, ClientReads))
  {}

  lemma ClientKeepsInv(s: Session)
    requires Inv(s) && Enabled(s, ClientReads)
    ensures Inv(Next(s, ClientReads))
  {
    var r, msg := Next(s, ClientReads), s.wire[0];
    ClientPipeline(s);
    RestInOrder(s, msg, Pipeline(r));
    hide InOrder, Shows, Frames, Fill, Same, Apply, Pipeline;
    assert Pipeline(s)[1..] == Pipeline(r);
    FinalOfRest(s.screen, Pipeline(s));
  }

  lemma FinalOfRest(screen: Picture, msgs: seq<Msg>)
    requires msgs != []
    ensures Final(screen, msgs) == Final(ApplyMsg(screen, msgs[0]), msgs[1..])
  {}

  /** The first message of the pipeline shows the picture after the ones seen, and the rest those after it. */
  lemma RestInOrder(s: Session, msg: Msg, rest: seq<Msg>)
    requires InOrder(s) && Enabled(s, ClientReads) && msg == s.wire[0]
    requires Pipeline(s) == [msg] + rest && rest == Pipeline(Next(s, ClientReads))
    ensures InOrder(Next(s, ClientReads))
  {
    hide Shows, Frames, Final, Fill, Same, Apply, Pipeline, Agrees, AllOutput;
    var r := Next(s, ClientReads);
    var pipe := Pipeline(s);
    assert pipe[0] == msg && pipe[1..] == rest;
    var views := s.rendered[|s.seen|..|s.seen| + Frames(pipe)];
    TakeFirst(s.screen, pipe, views);
    AllOutputRest(msg, rest);
    assert r.screen == ApplyMsg(s.screen, msg);
    if msg.Output? {
      assert views[0] == s.rendered[|s.seen|];
      SeesNext(s.seen, r.screen, s.rendered);
      assert views[1..] == s.rendered[|s.seen| + 1..|s.seen| + Frames(pipe)];
    }
  }

  lemma AllOutputRest(msg: Msg, rest: seq<Msg>)
    ensures AllOutput([msg] + rest) ==> AllOutput(rest) && msg.Output?
  {
    if AllOutput([msg] + rest) {
      assert ([msg] + rest)[0].Output?;
      assert forall i :: 0 <= i < |rest| ==> rest[i] == ([msg] + rest)[i + 1];
    }
  }

  lemma SeesNext(seen: seq<Picture>, screen: Picture, rendered: seq<Picture>)
    requires Agrees(seen, rendered) && |seen| < |rendered| && Same(screen, rendered[|seen|])
    ensures Agrees(seen + [screen], rendered)
  {
    hide Same;
  }

  lemma TakeFirst(screen: Picture, msgs: seq<Msg>, views: seq<Picture>)
    requires Shows(screen, msgs, views) && msgs != []
    ensures Final(screen, msgs) == Final(ApplyMsg(screen, msgs[0]), msgs[1..])
    ensures Frames(msgs) == Frames(msgs[1..]) + (if msgs[0].Output? then 1 else 0)
    ensures if msgs[0].Output? then
        views != [] && Same(ApplyMsg(screen, msgs[0]), views[0])
        && Shows(ApplyMsg(screen, msgs[0]), msgs[1..], views[1..])
      else msgs[1..] == [] && views == [] && Shows(screen, msgs[1..], views)
  {}

  lemma StepKeepsInv(s: Session, step: Step)
    requires Inv(s) && Enabled(s, step)
    ensures Inv(Next(s, step))
  {
    match step
    case DrawStep(view) => DrawKeepsInv(s, view);
    case ResizeStep(size) => ResizeKeepsInv(s, size);
    case GoodbyeStep(msg) => GoodbyeKeepsInv(s, msg);
    case ClientReads => ClientKeepsInv(s);
    case WriterFails => FailKeepsInv(s);
    case _ => MoveKeepsInv(s, step);
  }

  // ---------------------------------------------------------------- whole runs

  /** Plays steps in order, skipping those that cannot happen. */
  function Play(s: Session, steps: seq<Step>): Session {
    if steps == [] then s
    else
      var before := Play(s, steps[..|steps| - 1]);
      var step := steps[|steps| - 1];
      if Enabled(before, step) then Next(before, step) else before
  }

  lemma {:induction false} PlayKeepsInv(s: Session, steps: seq<Step>)
    requires Inv(s)
    ensures Inv(Play(s, steps))
  {
    if steps != [] {
      var before := Play(s, steps[..|steps| - 1]);
      PlayKeepsInv(s, steps[..|steps| - 1]);
      if Enabled(before, steps[|steps| - 1]) {
        StepKeepsInv(before, steps[|steps| - 1]);
      }
    }
  }

  /** Everything but the last message is a frame. */
  lemma {:induction false} GoodbyeIsLast(screen: Picture, msgs: seq<Msg>, views: seq<Picture>)
    requires Shows(screen, msgs, views)
    ensures forall i :: 0 <= i < |msgs| - 1 ==> msgs[i].Output?
    decreases |msgs|
  {
    if msgs != [] && msgs[0].Output? {
      GoodbyeIsLast(ApplyMsg(screen, msgs[0]), msgs[1..], views[1..]);
      forall i | 0 <= i < |msgs| - 1
        ensures msgs[i].Output?
      {
        if i > 0 { assert msgs[i] == msgs[1..][i - 1]; }
      }
    }
  }

  /**
   * Whatever the client's screen showed at first, and however drawing, resizing,
   * letting go of the client, the writer and the client interleave: each frame
   * the client applies shows the very picture that was rendered for it, in
   * order; a frame and a goodbye are never refused for lack of room; a goodbye is
   * the last message; and once everything has arrived the screen shows the last
   * picture.
   */
  lemma ClientSeesWhatWasRendered(size: Size, screen: Picture, steps: seq<Step>, view: Picture)
    ensures var s := Play(Start(size, screen), steps);
      && Agrees(s.seen, s.rendered)
      && (!s.said ==> !s.sender.Draw(view).1.Full? && !s.sender.TrySend().SendFull?)
      && (forall i :: 0 <= i < |Pipeline(s)| - 1 ==> Pipeline(s)[i].Output?)
      && (!s.said && !s.sender.closed && Pipeline(s) == [] && s.sender.output == [] ==>
            Same(s.screen, s.sender.prev) && |s.seen| == |s.rendered|)
  {
    StartInv(size, screen);
    PlayKeepsInv(Start(size, screen), steps);
    var s := Play(Start(size, screen), steps);
    GoodbyeIsLast(s.screen, Pipeline(s), s.rendered[|s.seen|..|s.seen| + Frames(Pipeline(s))]);
  }

  // ------------------------------------------------------------- keeping up

  /** A client whose writer lives and has taken everything is always rendered to: one frame joins, with the whole picture. */
  lemma IdleClientIsDrawnTo(s: Session, view: Picture)
    requires Inv(s) && !s.said && !s.sender.closed && s.sender.queue == []
    ensures var r := Next(s, DrawStep(view));
      && r.rendered == s.rendered + [Fill(view, s.sender.size)]
      && (exists frame: Msg :: frame.Output? && Pipeline(r) == Pipeline(s) + [frame])
      && r.sender.prev == Fill(view, s.sender.size) && r.sender.output == [] && r.sender.size == s.sender.size
  {
    hide Fill, Diff, Inv;
    var r := Next(s, DrawStep(view));
    assert Pipeline(r) == Pipeline(s) + [r.sender.queue[0]];
  }

  /** One that has not is left alone altogether. */
  lemma BusyClientIsNot(s: Session, view: Picture)
    requires !s.said && s.sender.queue != []
    ensures Next(s, DrawStep(view)) == s
  {}

  /** After a resize the next frame is drawn for the new size. */
  lemma ResizedIsDrawnForTheSize(s: Session, to: Size, view: Picture)
    requires Inv(s) && !s.said && !s.sender.closed && s.sender.queue == []
    ensures Next(Next(s, ResizeStep(to)), DrawStep(view)).rendered == s.rendered + [Fill(view, to)]
  {
    ResizeKeepsInv(s, to);
    hide Fill, Diff, Inv;
    IdleClientIsDrawnTo(Next(s, ResizeStep(to)), view);
  }

  /** What there is still to do for the writer and the client. */
  function Work(s: Session): nat {
    3 * |s.sender.queue| + (if s.inFlight.Some? then 2 else 0) + |s.wire|
  }

  /** The step that the client or the writer takes next. */
  function DrainStep(s: Session): Step {
    if s.wire != [] then ClientReads else if s.inFlight.Some? then Deliver else Recv
  }

  ghost predicate OnlyDrained(s: Session, r: Session) {
    && r.sender == s.sender.(queue := r.sender.queue)
    && r.said == s.said && r.failed == s.failed && r.rendered == s.rendered
  }

  lemma DrainStepDrains(s: Session)
    requires !s.sender.closed && Pipeline(s) != []
    ensures Enabled(s, DrainStep(s)) && Beside(DrainStep(s))
    ensures var r := Next(s, DrainStep(s)); OnlyDrained(s, r) && Work(r) < Work(s)
  {
    hide Apply;
  }

  /** The writer and the client can always finish what is on its way, and nothing else changes. */
  lemma {:induction false} Drains(s: Session) returns (steps: seq<Step>)
    requires Inv(s) && !s.sender.closed
    ensures forall i :: 0 <= i < |steps| ==> Beside(steps[i])
    ensures var r := Play(s, steps); Inv(r) && Pipeline(r) == [] && OnlyDrained(s, r) && r.sender.queue == []
    decreases Work(s)
  {
    if Pipeline(s) == [] {
      steps := [];
    } else {
      hide Play, Inv, Pipeline, Work, DrainStep, Next, Enabled, Beside;
      var step := DrainStep(s);
      DrainStepDrains(s);
      StepKeepsInv(s, step);
      var rest := Drains(Next(s, step));
      PlayCons(s, step, rest);
      steps := [step] + rest;
    }
  }

  /** A client to which everything has been sent and delivered shows the last picture. */
  lemma DrainedShows(s: Session)
    requires Inv(s) && !s.said && !s.sender.closed && Pipeline(s) == [] && s.sender.output == []
    ensures Same(s.screen, s.sender.prev)
  {}

  // ----------------------------------------------------------------- goodbyes

  /**
   * A client that was let go of: its goodbye is the last message on the way to
   * it, or it has read the goodbye and nothing follows, or its connection broke.
   */
  ghost predicate Parting(s: Session, msg: Msg) {
    var pipe := Pipeline(s);
    && s.said
    && (s.failed || (pipe != [] && pipe[|pipe| - 1] == msg) || (pipe == [] && s.heard == Some(msg)))
  }

  /** Letting go of a client puts the goodbye behind everything else, room or not. */
  lemma LetGoParts(s: Session, msg: Msg)
    requires Inv(s) && !s.said && !msg.Output?
    ensures Inv(LetGo(s, msg)) && Parting(LetGo(s, msg), msg)
  {
    GoodbyeKeepsInv(s, msg);
    if !s.sender.closed {
      assert Pipeline(LetGo(s, msg)) == Pipeline(s) + [msg];
    }
  }

  lemma StepKeepsParting(s: Session, msg: Msg, step: Step)
    requires Inv(s) && Parting(s, msg) && !msg.Output? && Enabled(s, step)
    ensures Inv(Next(s, step)) && Parting(Next(s, step), msg)
  {
    hide Inv;
    StepKeepsInv(s, step);
    SaidLast(s);
    var r := Next(s, step);
    if step.ClientReads? {
      ClientPipeline(s);
      assert Pipeline(s)[1..] == Pipeline(r);
    } else if step.Recv? || step.Deliver? || step.WriterEnds? {
      assert Pipeline(r) == Pipeline(s);
    }
  }

  lemma SaidLast(s: Session)
    requires Inv(s)
    ensures forall i :: 0 <= i < |Pipeline(s)| - 1 ==> Pipeline(s)[i].Output?
  {
    hide Shows, Frames, Pipeline;
    var pipe := Pipeline(s);
    GoodbyeIsLast(s.screen, pipe, s.rendered[|s.seen|..|s.seen| + Frames(pipe)]);
  }

  /** Whatever the writer and the client do after a goodbye, it is never overtaken, dropped or repeated. */
  lemma {:induction false} GoodbyeArrives(s: Session, msg: Msg, steps: seq<Step>)
    requires Inv(s) && !s.said && !msg.Output?
    ensures var r := Play(LetGo(s, msg), steps); Inv(r) && Parting(r, msg)
  {
    if steps == [] {
      LetGoParts(s, msg);
    } else {
      var n := |steps| - 1;
      GoodbyeArrives(s, msg, steps[..n]);
      var before := Play(LetGo(s, msg), steps[..n]);
      if Enabled(before, steps[n]) { StepKeepsParting(before, msg, steps[n]); }
    }
  }

  // ------------------------------------------------------------- the objects

  /** The bounded channel between the server and the writer task. */
  class Outbox {
    var queue: seq<Msg>
    var closed: bool

    constructor ()
      ensures queue == [] && !closed
    {
      queue, closed := [], false;
    }

    method TrySend(msg: Msg) returns (r: SendResult)
      modifies this
      ensures closed == old(closed)
      ensures r == if old(closed) then SendClosed else if |old(queue)| >= OUTPUT_QUEUE_SIZE then SendFull else SendOk
      ensures queue == old(queue) + if r.SendOk? then [msg] else []
    {
      if closed { return SendClosed; }
      if |queue| >= OUTPUT_QUEUE_SIZE { return SendFull; }
      queue := queue + [msg];
      r := SendOk;
    }
  }

  class Client {
    const outbox: Outbox
    var output: seq<Cmd>
    var size: Size
    var prev: Picture

    function State(): Sender
      reads this, outbox
    {
      Sender(size, prev, output, outbox.queue, outbox.closed)
    }

    constructor (size: Size)
      ensures fresh(outbox) && State() == NewSender(size)
    {
      this.size, prev := size, map[];
      output := [Clear];
      outbox := new Outbox();
    }

    method Resize(size: Size)
      modifies this
      ensures State() == old(State()).Resize(size)
    {
      this.size, prev := size, map[];
      output := output + [Clear];
    }

    method Draw(view: Picture) returns (drawn: Drawn)
      modifies this, outbox
      ensures (State(), drawn) == old(State()).Draw(view)
      ensures !drawn.Full?
    {
      if |outbox.queue| > 0 {
        return Busy;
      }
      var after := Fill(view, size);
      output := output + [Patch(Diff(prev, after))];
      prev := after;
      var taken := output;
      output := [];
      var sent := outbox.TrySend(Output(taken));
      match sent
      case SendOk =>
        assert outbox.queue == [Output(taken)];
        drawn := Sent;
      case SendClosed => drawn := Disconnected;
      case SendFull => assert false;
    }

    method SayGoodbye(msg: Msg)
      modifies outbox
      ensures State() == old(State()).SayGoodbye(msg)
    {
      var _ := outbox.TrySend(msg);
    }
  }

  class Socket {
    var sent: seq<Msg>
  }

  /**
   * The writer task: it takes one message after the other, in order, whatever the
   * server queues meanwhile, until the server has let go of the client and the
   * queue is empty, or a write fails. `arrivals` are the messages queued before
   * each turn, `failing` is the number of the write that fails.
   */
  method WriteOutput(outbox: Outbox, socket: Socket, failing: nat, arrivals: seq<seq<Msg>>)
    requires !outbox.closed
    modifies outbox, socket
    ensures outbox.closed && outbox.queue == []
    ensures var all := old(outbox.queue) + Flatten(arrivals);
      socket.sent == old(socket.sent) + all[..Min(failing, |all|)]
  {
    ghost var all := outbox.queue + Flatten(arrivals);
    var k, written := 0, 0;
    while outbox.queue != [] || k < |arrivals|
      invariant k <= |arrivals| && written <= |all| && written <= failing
      invariant all[written..] == outbox.queue + Flatten(arrivals[k..])
      invariant socket.sent == old(socket.sent) + all[..written]
      decreases |arrivals| - k, |outbox.queue|
    {
      if k < |arrivals| {
        assert arrivals[k..] == [arrivals[k]] + arrivals[k + 1..];
        outbox.queue, k := outbox.queue + arrivals[k], k + 1;
      }
      if outbox.queue != [] {
        var msg := outbox.queue[0];
        outbox.queue := outbox.queue[1..];
        if written == failing {
          break;
        }
        socket.sent := socket.sent + [msg];
        written := written + 1;
      }
    }
    outbox.queue, outbox.closed := [], true;
  }

  lemma {:induction false} PlayCons(s: Session, step: Step, rest: seq<Step>)
    requires Enabled(s, step)
    ensures Play(s, [step] + rest) == Play(Next(s, step), rest)
  {
    hide Next, Enabled;
    var all := [step] + rest;
    var n := |all| - 1;
    if rest == [] {
      assert all[..n] == [] && Play(s, all[..n]) == s;
    } else {
      PlayCons(s, step, rest[..|rest| - 1]);
      assert all[..n] == [step] + rest[..|rest| - 1];
    }
  }

  /** A connection after the writer's loop: what it sent, and that it has ended. */
  function WrittenOut(s: Session, failing: nat): Session {
    var queue := s.sender.queue;
    s.(wire := s.wire + queue[..Min(failing, |queue|)], failed := s.failed || failing < |queue|,
       sender := s.sender.(queue := [], closed := true))
  }

  lemma WriterFailsFirst(s: Session)
    requires !s.sender.closed && s.inFlight.None? && s.sender.queue != []
    ensures Play(s, [Recv] + ([WriterFails] + [])) == WrittenOut(s, 0)
  {
    PlayCons(Next(s, Recv), WriterFails, []);
    PlayCons(s, Recv, [WriterFails] + []);
  }

  /** The connection with one message more on the wire. */
  function OneSent(s: Session): Session
    requires s.sender.queue != []
  {
    s.(wire := s.wire + [s.sender.queue[0]], sender := s.sender.(queue := s.sender.queue[1..]))
  }

  /** One turn of the loop, before or after the server has let go of the client, is two of the interleaved steps. */
  lemma WriterSendsFirst(s: Session, rest: seq<Step>)
    requires !s.sender.closed && s.inFlight.None? && s.sender.queue != []
    ensures Play(s, [Recv] + ([Deliver] + rest)) == Play(OneSent(s), rest)
  {
    PlayCons(Next(s, Recv), Deliver, rest);
    PlayCons(s, Recv, [Deliver] + rest);
    hide Play;
    assert Next(Next(s, Recv), Deliver) == OneSent(s);
  }

  lemma RestWrittenOut(s: Session, failing: nat)
    requires s.sender.queue != [] && failing > 0
    ensures WrittenOut(OneSent(s), failing - 1) == WrittenOut(s, failing)
  {
    var queue := s.sender.queue;
    assert queue[..Min(failing, |queue|)] == [queue[0]] + queue[1..][..Min(failing - 1, |queue| - 1)];
  }

  /** What the loop does is one of the interleaved runs: whatever holds of those holds of it. */
  lemma {:induction false} WriterIsARun(s: Session, failing: nat) returns (steps: seq<Step>)
    requires s.said && !s.sender.closed && s.inFlight.None?
    ensures Play(s, steps) == WrittenOut(s, failing)
    decreases |s.sender.queue|
  {
    if s.sender.queue == [] {
      steps := [WriterEnds] + [];
      PlayCons(s, WriterEnds, []);
    } else {
      hide Play, WrittenOut;
      if failing == 0 {
        WriterFailsFirst(s);
        steps := [Recv] + ([WriterFails] + []);
      } else {
        var rest := WriterIsARun(OneSent(s), failing - 1);
        WriterSendsFirst(s, rest);
        RestWrittenOut(s, failing);
        steps := [Recv] + ([Deliver] + rest);
      }
    }
  }
}
