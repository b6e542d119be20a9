/**
 * Input on its way to a process: a bounded queue of messages that drops input
 * when the process does not read, and the writer that feeds the queue to the PTY
 * in writes that may be partial or fail.
 */
module InputQueue {
  import opened Prelude

  type Bytes = seq<nat>

  /** Pending messages per process. */
  const INPUT_QUEUE_SIZE: nat := 64 * 1024

  /** One call to write: whether the message was taken, announced a loss, and found the queue drained. */
  datatype Entry = Entry(data: Bytes, accepted: bool, banner: bool, drained: bool)

  /**
   * `consumed` lists the messages the writer task has taken and `cuts` how many
   * bytes of each reached the PTY; `delivered` is what the PTY got.
   */
  datatype Input = Input(
    queue: seq<Bytes>, dropping: bool,
    pending: Bytes, delivered: Bytes,
    log: seq<Entry>, consumed: seq<Bytes>, cuts: seq<nat>, failed: bool)

  function NewInput(): Input { Input([], false, [], [], [], [], [], false) }

  datatype Step =
    | Write(data: Bytes)
    | Recv
    | Wrote(n: nat)
    | Interrupted
    | Fails

  predicate Enabled(s: Input, step: Step) {
    match step
    case Write(_) => true
    case Recv => s.pending == [] && s.queue != []
    case Wrote(n) => 0 < n <= |s.pending|
    case Interrupted => s.pending != []
    case Fails => s.pending != []
  }

  /** What a write does to the queue: its entry says the rest. */
  function Offer(queue: seq<Bytes>, dropping: bool, data: Bytes): (seq<Bytes>, bool, Entry) {
    var drained := queue == [];
    if dropping && !drained then (queue, true, Entry(data, false, false, drained))
    else if |queue| >= INPUT_QUEUE_SIZE then (queue, true, Entry(data, false, !dropping, drained))
    else (queue + [data], false, Entry(data, true, false, drained))
  }

  function AddToLast(cuts: seq<nat>, n: nat): (r: seq<nat>)
    ensures |r| == |cuts|
  {
    if cuts == [] then [] else cuts[..|cuts| - 1] + [cuts[|cuts| - 1] + n]
  }

  function Next(s: Input, step: Step): Input
    requires Enabled(s, step)
  {
    match step
    case Write(data) =>
      var (queue, dropping, entry) := Offer(s.queue, s.dropping, data);
      s.(queue := queue, dropping := dropping, log := s.log + [entry])
    case Recv =>
      s.(pending := s.queue[0], queue := s.queue[1..], consumed := s.consumed + [s.queue[0]], cuts := s.cuts + [0])
    case Wrote(n) =>
      s.(delivered := s.delivered + s.pending[..n], pending := s.pending[n..], cuts := AddToLast(s.cuts, n))
    case Interrupted => s
    case Fails => s.(pending := [], failed := true)
  }

  function Play(s: Input, steps: seq<Step>): Input {
    if steps == [] then s
    else
      var before := Play(s, steps[..|steps| - 1]);
      var step := steps[|steps| - 1];
      if Enabled(before, step) then Next(before, step) else before
  }

  // -------------------------------------------------------------- conservation

  function Accepted(log: seq<Entry>): seq<Bytes> {
    if log == [] then []
    else Accepted(log[..|log| - 1]) + (if log[|log| - 1].accepted then [log[|log| - 1].data] else [])
  }

  /** The first cuts[i] bytes of each message i, joined. */
  function Pieces(messages: seq<Bytes>, cuts: seq<nat>): Bytes
    requires |messages| == |cuts|
  {
    if messages == [] then []
    else
      var n := |messages| - 1;
      Pieces(messages[..n], cuts[..n]) + messages[n][..Min(cuts[n], |messages[n]|)]
  }

  /** Only the message being written may be incomplete, if nothing has failed. */
  predicate Whole(s: Input)
    requires |s.cuts| == |s.consumed|
  {
    forall i :: 0 <= i < |s.cuts| - 1 ==> s.cuts[i] == |s.consumed[i]|
  }

  predicate Conserves(s: Input) {
    && Accepted(s.log) == s.consumed + s.queue
    && |s.cuts| == |s.consumed|
    && (forall i :: 0 <= i < |s.cuts| ==> s.cuts[i] <= |s.consumed[i]|)
    && s.delivered == Pieces(s.consumed, s.cuts)
    && (s.pending != [] ==>
          s.cuts != [] && s.pending == s.consumed[|s.consumed| - 1][s.cuts[|s.cuts| - 1]..])
    && (!s.failed ==> Whole(s))
    && (!s.failed && s.pending == [] && s.cuts != [] ==> s.cuts[|s.cuts| - 1] == |s.consumed[|s.consumed| - 1]|)
  }

  lemma WriteConserves(s: Input, data: Bytes)
    requires Conserves(s)
    ensures Conserves(Next(s, Write(data)))
  {
    var r := Next(s, Write(data));
    assert r.log[..|r.log| - 1] == s.log;
  }

  lemma RecvConserves(s: Input)
    requires Conserves(s) && Enabled(s, Recv)
    ensures Conserves(Next(s, Recv))
  {
    var r := Next(s, Recv);
    var n := |s.consumed|;
    assert r.consumed[..n] == s.consumed && r.cuts[..n] == s.cuts;
    assert r.consumed + r.queue == s.consumed + s.queue;
  }

  lemma WroteConserves(s: Input, k: nat)
    requires Conserves(s) && Enabled(s, Wrote(k))
    ensures Conserves(Next(s, Wrote(k)))
  {
    hide Accepted, Pieces;
    var n := |s.consumed| - 1;
    var last, cut := s.consumed[n], s.cuts[n];
    PieceGrows(s.consumed, s.cuts, k);
    assert last[cut..][..k] == last[cut..cut + k];
    assert last[cut..][k..] == last[cut + k..];
  }

  lemma PieceGrows(messages: seq<Bytes>, cuts: seq<nat>, k: nat)
    requires |messages| == |cuts| > 0
    requires cuts[|cuts| - 1] + k <= |messages[|cuts| - 1]|
    ensures var n := |cuts| - 1;
      Pieces(messages, AddToLast(cuts, k)) == Pieces(messages, cuts) + messages[n][cuts[n]..cuts[n] + k]
  {
    var n := |cuts| - 1;
    assert AddToLast(cuts, k)[..n] == cuts[..n];
    assert messages[n][..cuts[n] + k] == messages[n][..cuts[n]] + messages[n][cuts[n]..cuts[n] + k];
  }

  lemma StepConserves(s: Input, step: Step)
    requires Conserves(s) && Enabled(s, step)
    ensures Conserves(Next(s, step))
  {
    match step
    case Write(data) => WriteConserves(s, data);
    case Recv => RecvConserves(s);
    case Wrote(n) => WroteConserves(s, n);
    case _ =>
  }

  lemma {:induction false} PiecesWhole(messages: seq<Bytes>, cuts: seq<nat>)
    requires |messages| == |cuts| && forall i :: 0 <= i < |cuts| ==> cuts[i] == |messages[i]|
    ensures Pieces(messages, cuts) == Flatten(messages)
  {
    if messages != [] {
      var n := |messages| - 1;
      PiecesWhole(messages[..n], cuts[..n]);
      FlattenLast(messages[..n], messages[n]);
      assert messages == messages[..n] + [messages[n]];
    }
  }

  /** Absent write errors, what was delivered, what is being written and what is queued are the accepted bytes, in order. */
  lemma NothingLost(s: Input)
    requires Conserves(s) && !s.failed
    ensures Flatten(Accepted(s.log)) == s.delivered + s.pending + Flatten(s.queue)
  {
    hide Accepted;
    FlattenConcat(s.consumed, s.queue);
    WrittenSoFar(s);
  }

  lemma WrittenSoFar(s: Input)
    requires Conserves(s) && !s.failed
    ensures s.delivered + s.pending == Flatten(s.consumed)
  {
    hide Accepted;
    if s.consumed != [] {
      var n := |s.consumed| - 1;
      var first, last, cut := s.consumed[..n], s.consumed[n], s.cuts[n];
      PiecesWhole(first, s.cuts[..n]);
      FlattenLast(first, last);
      assert s.consumed == first + [last];
      assert s.delivered == Flatten(first) + last[..cut];
      assert last[..cut] + last[cut..] == last;
      assert s.pending == last[cut..];
    }
  }

  lemma FlattenLast(first: seq<Bytes>, last: Bytes)
    ensures Flatten(first + [last]) == Flatten(first) + last
  {
    FlattenConcat(first, [last]);
    assert Flatten([last]) == last + Flatten([last][1..]);
  }

  // ------------------------------------------------------------ what is dropped

  /** Input is being dropped exactly when the last message was; losses start and end as the log says. */
  ghost predicate Tracks(s: Input) {
    && (s.dropping <==> s.log != [] && !s.log[|s.log| - 1].accepted)
    && CleanEpisodes(s.log)
  }

  /** A message that follows a dropped one was dropped too, without another banner, or found the queue drained. */
  ghost predicate CleanEpisodes(log: seq<Entry>) {
    forall k :: 0 <= k < |log| ==> CleanAt(log, k)
  }

  predicate CleanAt(log: seq<Entry>, k: nat)
    requires k < |log|
  {
    && (k > 0 && !log[k - 1].accepted && log[k].accepted ==> log[k].drained)
    && (log[k].banner <==> !log[k].accepted && (k == 0 || log[k - 1].accepted))
  }

  lemma StepTracks(s: Input, step: Step)
    requires Tracks(s) && Enabled(s, step)
    ensures Tracks(Next(s, step))
  {
    var r := Next(s, step);
    if step.Write? {
      forall k | 0 <= k < |r.log|
        ensures CleanAt(r.log, k)
      {
        if k < |s.log| { assert CleanAt(s.log, k); }
      }
    }
  }

  lemma {:induction false} PlayKeeps(steps: seq<Step>)
    ensures Conserves(Play(NewInput(), steps)) && Tracks(Play(NewInput(), steps))
  {
    if steps != [] {
      var before := Play(NewInput(), steps[..|steps| - 1]);
      PlayKeeps(steps[..|steps| - 1]);
      if Enabled(before, steps[|steps| - 1]) {
        StepConserves(before, steps[|steps| - 1]);
        StepTracks(before, steps[|steps| - 1]);
      }
    }
  }

  /** In messages [a, b), those before p were taken and the rest dropped. */
  ghost predicate Prefix(log: seq<Entry>, a: nat, p: nat, b: nat)
    requires a <= p <= b <= |log|
  {
    && (forall k :: a <= k < p ==> log[k].accepted)
    && (forall k :: p <= k < b ==> !log[k].accepted)
  }

  /** A stretch of messages during which the queue never drained loses a tail, never a hole. */
  lemma {:induction false} LosesOnlyTail(log: seq<Entry>, a: nat, b: nat) returns (p: nat)
    requires CleanEpisodes(log) && a <= b <= |log|
    requires forall k :: a < k < b ==> !log[k].drained
    ensures a <= p <= b && Prefix(log, a, p, b)
  {
    if a == b {
      p := a;
    } else {
      p := LosesOnlyTail(log, a, b - 1);
      assert CleanAt(log, b - 1);
      if p == b - 1 && log[b - 1].accepted {
        p := b;
      }
    }
  }

  /**
   * Over any run: what the PTY gets are the accepted messages in order, each cut
   * short only by a write error, and without errors no byte is missing; each
   * stretch of dropped messages is announced once, at its first message; and a
   * paste during which the queue never drains arrives as a prefix of itself.
   */
  lemma InputArrives(steps: seq<Step>, a: nat, b: nat) returns (p: nat)
    requires var log := Play(NewInput(), steps).log;
      a <= b <= |log| && forall k :: a < k < b ==> !log[k].drained
    ensures var s := Play(NewInput(), steps);
      && s.consumed <= Accepted(s.log)
      && |s.cuts| == |s.consumed| && s.delivered == Pieces(s.consumed, s.cuts)
      && (!s.failed ==> Flatten(Accepted(s.log)) == s.delivered + s.pending + Flatten(s.queue))
      && CleanEpisodes(s.log)
      && a <= p <= b && Prefix(s.log, a, p, b)
  {
    PlayKeeps(steps);
    var s := Play(NewInput(), steps);
    if !s.failed {
      NothingLost(s);
    }
    p := LosesOnlyTail(s.log, a, b);
  }

  // ------------------------------------------------------------ when input is taken

  /** The messages a run tries to write. */
  function Written(steps: seq<Step>): seq<Bytes> {
    if steps == [] then []
    else
      var step := steps[|steps| - 1];
      Written(steps[..|steps| - 1]) + (if step.Write? then [step.data] else [])
  }

  /** The last message, if there was one, was dropped. */
  predicate LastDropped(s: Input) { s.log != [] && !s.log[|s.log| - 1].accepted }

  /**
   * A message is taken exactly if the queue holds fewer than 65,536, and the one
   * before was taken or the queue has drained since. A banner announces the first
   * that is not, and only that one.
   */
  lemma TakenIff(steps: seq<Step>, data: Bytes)
    ensures var s := Play(NewInput(), steps); var r := Play(NewInput(), steps + [Write(data)]);
      && |r.log| == |s.log| + 1 && r.log[..|s.log|] == s.log && r.log[|s.log|].data == data
      && (r.log[|s.log|].accepted <==> |s.queue| < 65_536 && (LastDropped(s) ==> s.queue == []))
      && (r.log[|s.log|].banner <==> |s.queue| >= 65_536 && !LastDropped(s))
      && r.queue == (if r.log[|s.log|].accepted then s.queue + [data] else s.queue)
      && r.consumed == s.consumed && r.delivered == s.delivered && r.pending == s.pending
  {
    var all := steps + [Write(data)];
    assert all[..|all| - 1] == steps;
    PlayKeeps(steps);
  }

  /** There was room at every write of the run. */
  ghost predicate AlwaysRoom(steps: seq<Step>) {
    forall n :: 0 <= n < |steps| && steps[n].Write? ==> |Play(NewInput(), steps[..n]).queue| < 65_536
  }

  predicate AllTaken(log: seq<Entry>) {
    forall k :: 0 <= k < |log| ==> log[k].accepted && !log[k].banner
  }

  lemma {:induction false} TakenAreAccepted(log: seq<Entry>)
    requires AllTaken(log)
    ensures |Accepted(log)| == |log| && forall k :: 0 <= k < |log| ==> Accepted(log)[k] == log[k].data
  {
    if log != [] { TakenAreAccepted(log[..|log| - 1]); }
  }

  /** Nothing is dropped and nothing announced as long as there is room; without write errors every byte is under way or there. */
  lemma {:induction false} RoomLosesNothing(steps: seq<Step>)
    requires AlwaysRoom(steps)
    ensures var s := Play(NewInput(), steps);
      && AllTaken(s.log) && Accepted(s.log) == Written(steps)
      && (!s.failed ==> Flatten(Written(steps)) == s.delivered + s.pending + Flatten(s.queue))
  {
    LogIsWritten(steps);
    PlayKeeps(steps);
    var s := Play(NewInput(), steps);
    if !s.failed { NothingLost(s); }
  }

  lemma {:induction false} LogIsWritten(steps: seq<Step>)
    requires AlwaysRoom(steps)
    ensures var s := Play(NewInput(), steps); AllTaken(s.log) && Accepted(s.log) == Written(steps)
  {
    if steps != [] {
      var n := |steps| - 1;
      var before := Play(NewInput(), steps[..n]);
      assert forall k :: 0 <= k < n ==> steps[..n][..k] == steps[..k];
      LogIsWritten(steps[..n]);
      hide Play, AlwaysRoom;
      if steps[n].Write? {
        TakenIff(steps[..n], steps[n].data);
        assert steps[..n] + [Write(steps[n].data)] == steps;
      } else {
        OthersKeepLog(steps);
      }
    }
  }

  lemma OthersKeepLog(steps: seq<Step>)
    requires steps != [] && !steps[|steps| - 1].Write?
    ensures Play(NewInput(), steps).log == Play(NewInput(), steps[..|steps| - 1]).log
  {}

  // ------------------------------------------------------------- the writer task

  datatype PtyResult = Ok(n: nat) | Interrupt | Error

  datatype Feed = Feed(queue: seq<Bytes>, pending: Bytes, delivered: Bytes)

  /** The writer task, for as long as the PTY has answers and there is input. A write of nothing is an error. */
  function Fed(f: Feed, answers: seq<PtyResult>): Feed
    decreases |answers|, |f.queue|
  {
    if answers == [] || (f.pending == [] && f.queue == []) then f
    else if f.pending == [] then Fed(Feed(f.queue[1..], f.queue[0], f.delivered), answers)
    else
      var rest := answers[1..];
      match answers[0]
      case Interrupt => Fed(f, rest)
      case Ok(n) =>
        var sent := Min(n, |f.pending|);
        if n > 0 then Fed(f.(pending := f.pending[sent..], delivered := f.delivered + f.pending[..sent]), rest)
        else Fed(f.(pending := []), rest)
      case Error => Fed(f.(pending := []), rest)
  }

  /** As long as the PTY takes something each time, the task goes on until everything queued is delivered. */
  lemma {:induction false} FeedsUntilDone(f: Feed, answers: seq<PtyResult>)
    requires forall k :: 0 <= k < |answers| ==> answers[k].Ok? && answers[k].n > 0
    requires |f.pending| + |Flatten(f.queue)| < |answers|
    ensures var r := Fed(f, answers);
      && r.pending == [] && r.queue == [] && r.delivered == f.delivered + f.pending + Flatten(f.queue)
    decreases |answers|, |f.queue|
  {
    if f.pending == [] && f.queue != [] {
      assert Flatten(f.queue) == f.queue[0] + Flatten(f.queue[1..]);
      FeedsUntilDone(Feed(f.queue[1..], f.queue[0], f.delivered), answers);
    } else if f.pending != [] {
      var sent := Min(answers[0].n, |f.pending|);
      assert f.pending == f.pending[..sent] + f.pending[sent..];
      FeedsUntilDone(f.(pending := f.pending[sent..], delivered := f.delivered + f.pending[..sent]), answers[1..]);
    }
  }

  /** An error loses the message being written and nothing else; an interruption loses nothing. */
  lemma OneAnswer(f: Feed, answer: PtyResult, rest: seq<PtyResult>)
    requires f.pending != []
    ensures Fed(f, [answer] + rest) == Fed(
      match answer
      case Interrupt => f
      case Error => f.(pending := [])
      case Ok(n) =>
        if n == 0 then f.(pending := [])
        else if n >= |f.pending| then f.(pending := [], delivered := f.delivered + f.pending)
        else f.(pending := f.pending[n..], delivered := f.delivered + f.pending[..n]),
      rest)
  {
    assert ([answer] + rest)[1..] == rest;
    assert f.pending[|f.pending|..] == [] && f.pending[..|f.pending|] == f.pending;
  }

  function FeedOf(s: Input): Feed { Feed(s.queue, s.pending, s.delivered) }

  /** The step the writer task takes next. */
  function NextStep(s: Input, answer: PtyResult): Step {
    if s.pending == [] then Recv
    else if answer.Interrupt? then Interrupted
    else if answer.Ok? && answer.n > 0 then Wrote(Min(answer.n, |s.pending|))
    else Fails
  }

  lemma {:induction false} PlayCons(s: Input, step: Step, rest: seq<Step>)
    requires Enabled(s, step)
    ensures Play(s, [step] + rest) == Play(Next(s, step), rest)
  {
    hide Next, Enabled;
    var all := [step] + rest;
    var n := |all| - 1;
    if rest == [] {
      assert all[..n] == [] && Play(s, all[..n]) == s;
    } else {
      PlayCons(s, step, rest[..|rest| - 1]);
      assert all[..n] == [step] + rest[..|rest| - 1];
    }
  }

  /** What the writer does is one of the runs above, so all that holds of those holds of it. */
  lemma {:induction false} FedIsARun(s: Input, answers: seq<PtyResult>) returns (steps: seq<Step>)
    ensures FeedOf(Play(s, steps)) == Fed(FeedOf(s), answers) && Play(s, steps).log == s.log
    decreases |answers|, |s.queue|
  {
    if answers == [] || (s.pending == [] && s.queue == []) {
      steps := [];
    } else {
      var step := NextStep(s, answers[0]);
      var rest := FedIsARun(Next(s, step), if step.Recv? then answers else answers[1..]);
      hide Play;
      PlayCons(s, step, rest);
      steps := [step] + rest;
    }
  }

  class Feeder {
    var queue: seq<Bytes>
    var pending: Bytes
    var delivered: Bytes

    function State(): Feed
      reads this
    {
      Feed(queue, pending, delivered)
    }

    /** The loop of the writer task: partial writes, interruptions and failures as the PTY answers. */
    method WriteInput(answers: seq<PtyResult>)
      modifies this
      ensures State() == Fed(old(State()), answers)
    {
      var i := 0;
      while i < |answers| && (pending != [] || queue != [])
        invariant 0 <= i <= |answers|
        invariant Fed(State(), answers[i..]) == Fed(old(State()), answers)
        decreases |answers| - i, |queue|
      {
        if pending == [] {
          pending, queue := queue[0], queue[1..];
        } else {
          var answer := answers[i];
          assert answers[i..][1..] == answers[i + 1..];
          i := i + 1;
          if answer.Ok? && answer.n > 0 {
            var sent := Min(answer.n, |pending|);
            delivered, pending := delivered + pending[..sent], pending[sent..];
          } else if !answer.Interrupt? {
            pending := [];
          }
        }
      }
    }
  }
}
