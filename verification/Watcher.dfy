/**
 * The watcher that reads a process's output for as long as it is not paused, and
 * reports its exit when there is nothing left to read.
 */
module Watcher {
  import Process

  type Bytes = Process.Bytes
  type Status = Process.Status

  datatype Event = Output(data: Bytes) | Exited(status: Status)

  /** Checking looks at the pause flag before each read; Sending waits for room in the event channel; Done may hold a chunk nobody took. */
  datatype Phase = Checking | Blocked | Reading | Sending(data: Bytes) | Exiting | Done(data: Bytes)

  /** `late` counts the chunks sent since the flag was last set, while it is set. */
  datatype Watch = Watch(phase: Phase, paused: bool, unread: Bytes, sent: seq<Event>, late: nat)

  datatype Step =
    | SetPaused(value: bool)
    | Check
    | Wake
    | Read(n: nat)
    | Written(more: Bytes)
    | EndOfOutput
    | Send
    | ChildExits(status: Status)
    | AppGone

  predicate Enabled(w: Watch, step: Step) {
    match step
    case SetPaused(_) => true
    case Check => w.phase.Checking?
    case Wake => w.phase.Blocked?
    case Read(n) => w.phase.Reading? && 0 < n <= |w.unread|
    case Written(_) => true
    case EndOfOutput => w.phase.Reading?
    case Send => w.phase.Sending?
    case ChildExits(_) => w.phase.Exiting?
    case AppGone => w.phase.Blocked? || w.phase.Sending? || w.phase.Exiting?
  }

  function Next(w: Watch, step: Step): Watch
    requires Enabled(w, step)
  {
    match step
    case SetPaused(value) => w.(paused := value, late := if value && w.paused then w.late else 0)
    case Check => w.(phase := if w.paused then Blocked else Reading)
    case Wake => w.(phase := if w.paused then Blocked else Reading)
    case Read(n) => w.(phase := Sending(w.unread[..n]), unread := w.unread[n..])
    case Written(more) => w.(unread := w.unread + more)
    case EndOfOutput => w.(phase := Exiting)
    case Send =>
      w.(phase := Checking, sent := w.sent + [Output(w.phase.data)], late := if w.paused then w.late + 1 else 0)
    case ChildExits(status) => w.(phase := Done([]), sent := w.sent + [Exited(status)])
    case AppGone => w.(phase := Done(InHand(w.phase)))
  }

  function Play(w: Watch, steps: seq<Step>): Watch {
    if steps == [] then w
    else
      var before := Play(w, steps[..|steps| - 1]);
      var step := steps[|steps| - 1];
      if Enabled(before, step) then Next(before, step) else before
  }

  /** All that the process wrote. */
  function AllWritten(w: Watch, steps: seq<Step>): Bytes {
    if steps == [] then w.unread
    else
      var step := steps[|steps| - 1];
      AllWritten(w, steps[..|steps| - 1]) + (if step.Written? then step.more else [])
  }

  function OutputOf(events: seq<Event>): Bytes {
    if events == [] then []
    else
      var last := events[|events| - 1];
      OutputOf(events[..|events| - 1]) + (if last.Output? then last.data else [])
  }

  function InHand(p: Phase): Bytes { if p.Sending? || p.Done? then p.data else [] }

  predicate AllOutput(events: seq<Event>) {
    forall i :: 0 <= i < |events| ==> events[i].Output?
  }

  /** Only the last event can be an exit, and then no chunk was left behind. */
  predicate ExitIsLast(w: Watch) {
    && (w.sent != [] ==> AllOutput(w.sent[..|w.sent| - 1]))
    && (w.sent != [] && w.sent[|w.sent| - 1].Exited? ==> w.phase == Done([]))
  }

  /** A read that was under way when the pause came can still deliver its chunk, and no other. */
  predicate Late(w: Watch) {
    if !w.paused then w.late == 0
    else w.late <= (if w.phase.Reading? || w.phase.Sending? then 0 else 1)
  }

  /** Nothing the process wrote is lost, reordered or repeated. */
  predicate Forwards(w: Watch, all: Bytes) {
    OutputOf(w.sent) + InHand(w.phase) + w.unread == all
  }

  lemma StepKeepsExitLast(w: Watch, step: Step)
    requires Enabled(w, step) && ExitIsLast(w)
    ensures ExitIsLast(Next(w, step))
  {
    var r := Next(w, step);
    if r.sent != w.sent {
      assert r.sent[..|r.sent| - 1] == w.sent;
      assert w.sent == [] || w.sent == w.sent[..|w.sent| - 1] + [w.sent[|w.sent| - 1]];
    }
  }

  lemma StepKeepsLate(w: Watch, step: Step)
    requires Enabled(w, step) && Late(w)
    ensures Late(Next(w, step))
  {}

  lemma StepForwards(w: Watch, step: Step, all: Bytes)
    requires Enabled(w, step) && Forwards(w, all)
    ensures Forwards(Next(w, step), all + (if step.Written? then step.more else []))
  {
    hide OutputOf;
    match step
    case Read(n) => assert w.unread == w.unread[..n] + w.unread[n..];
    case Send => OneMore(w.sent, Output(w.phase.data));
    case ChildExits(status) => OneMore(w.sent, Exited(status));
    case _ =>
  }

  lemma OneMore(events: seq<Event>, e: Event)
    ensures OutputOf(events + [e]) == OutputOf(events) + (if e.Output? then e.data else [])
  {
    assert (events + [e])[..|events|] == events;
  }

  function Start(paused: bool): Watch { Watch(Checking, paused, [], [], 0) }

  lemma StartForwards(paused: bool)
    ensures var w := Start(paused); ExitIsLast(w) && Late(w) && Forwards(w, [])
  {}

  /**
   * However pausing, reading, sending and exiting interleave: the App gets the
   * process's output in order and whole, but for what is still unread and a chunk
   * in hand, then at most one exit, which is the last event; and once the view is scrolled back at most
   * one chunk more arrives until it returns to the bottom.
   */
  lemma {:induction false} WatcherForwards(paused: bool, steps: seq<Step>)
    ensures var w := Play(Start(paused), steps);
      ExitIsLast(w) && Late(w) && Forwards(w, AllWritten(Start(paused), steps))
  {
    hide Next, OutputOf, ExitIsLast, Late, Forwards;
    if steps == [] {
      StartForwards(paused);
    } else {
      var n := |steps| - 1;
      WatcherForwards(paused, steps[..n]);
      var before := Play(Start(paused), steps[..n]);
      if Enabled(before, steps[n]) {
        StepKeepsExitLast(before, steps[n]);
        StepKeepsLate(before, steps[n]);
        StepForwards(before, steps[n], AllWritten(Start(paused), steps[..n]));
      } else {
        assert AllWritten(Start(paused), steps) == AllWritten(Start(paused), steps[..n]);
      }
    }
  }

  /**
   * While the flag stays set a blocked watcher reports nothing, not even the
   * exit of its process: whoever stops a process has to clear the flag first.
   */
  lemma {:induction false} PausedIsSilent(w: Watch, steps: seq<Step>)
    requires w.phase.Blocked? && w.paused
    requires forall k :: 0 <= k < |steps| ==> steps[k] != SetPaused(false)
    ensures var r := Play(w, steps); r.sent == w.sent && (r.phase.Done? || (r.phase.Blocked? && r.paused))
  {
    if steps != [] { PausedIsSilent(w, steps[..|steps| - 1]); }
  }

  /** What a read from the PTY gives. */
  datatype ReadResult = Chunk(data: Bytes) | Failure

  /**
   * The task over the values it finds the pause flag to have and the results of
   * its reads: each look at a clear flag is followed by a read, a set flag by
   * waiting for the next value. The first empty chunk or error ends the output.
   */
  function Forwarded(flags: seq<bool>, results: seq<ReadResult>): (r: (seq<Event>, bool)) {
    if flags == [] || (!flags[0] && results == []) then ([], false)
    else if flags[0] then Forwarded(flags[1..], results)
    else if results[0].Failure? || results[0].data == [] then ([], true)
    else
      var (events, ended) := Forwarded(flags[1..], results[1..]);
      ([Output(results[0].data)] + events, ended)
  }

  /** The events of the whole task: the exit comes once the output has ended. */
  function Reported(flags: seq<bool>, results: seq<ReadResult>, status: Status): seq<Event> {
    var (events, ended) := Forwarded(flags, results);
    events + (if ended then [Exited(status)] else [])
  }

  /** Every look at a clear flag reads, so with enough of them all chunks are forwarded and the end is reported. */
  lemma {:induction false} ForwardsUntilTheEnd(flags: seq<bool>, chunks: seq<Bytes>, status: Status)
    requires forall k :: 0 <= k < |chunks| ==> chunks[k] != []
    requires |chunks| < Clear(flags)
    ensures Reported(flags, Chunks(chunks) + [Failure], status) == Outputs(chunks) + [Exited(status)]
    decreases |flags|
  {
    var results := Chunks(chunks) + [Failure];
    if flags[0] {
      ForwardsUntilTheEnd(flags[1..], chunks, status);
    } else if chunks != [] {
      ForwardsUntilTheEnd(flags[1..], chunks[1..], status);
      assert results[1..] == Chunks(chunks[1..]) + [Failure];
      assert Outputs(chunks) == [Output(chunks[0])] + Outputs(chunks[1..]);
      assert Reported(flags, results, status)
        == [Output(results[0].data)] + Reported(flags[1..], results[1..], status);
    }
  }

  /** How often the flag is found clear. */
  function Clear(flags: seq<bool>): nat {
    if flags == [] then 0 else (if flags[0] then 0 else 1) + Clear(flags[1..])
  }

  function Chunks(chunks: seq<Bytes>): (r: seq<ReadResult>)
    ensures |r| == |chunks|
  {
    seq(|chunks|, i requires 0 <= i < |chunks| => Chunk(chunks[i]))
  }

  function Outputs(chunks: seq<Bytes>): (r: seq<Event>)
    ensures |r| == |chunks|
  {
    seq(|chunks|, i requires 0 <= i < |chunks| => Output(chunks[i]))
  }

  lemma {:induction false} PlayCons(w: Watch, step: Step, rest: seq<Step>)
    requires Enabled(w, step)
    ensures Play(w, [step] + rest) == Play(Next(w, step), rest)
  {
    hide Next, Enabled;
    var all := [step] + rest;
    var n := |all| - 1;
    if rest == [] {
      assert all[..n] == [] && Play(w, all[..n]) == w;
    } else {
      PlayCons(w, step, rest[..|rest| - 1]);
      assert all[..n] == [step] + rest[..|rest| - 1];
    }
  }

  lemma {:induction false} PlayConcat(w: Watch, a: seq<Step>, b: seq<Step>)
    ensures Play(w, a + b) == Play(Play(w, a), b)
  {
    hide Next, Enabled;
    if b == [] {
      assert a + b == a;
    } else {
      var n := |b| - 1;
      PlayConcat(w, a, b[..n]);
      assert (a + b)[..|a + b| - 1] == a + b[..n];
    }
  }

  /** Looking at the flag: whether to read or to wait. */
  function Look(w: Watch, flag: bool): seq<Step> {
    [SetPaused(flag)] + [if w.phase.Blocked? then Wake else Check]
  }

  lemma Looks(w: Watch, flag: bool)
    requires w.phase.Checking? || w.phase.Blocked?
    ensures var r := Play(w, Look(w, flag));
      r.phase == (if flag then Blocked else Reading) && r.paused == flag && r.unread == w.unread && r.sent == w.sent
  {
    PlayCons(w, SetPaused(flag), [if w.phase.Blocked? then Wake else Check]);
    PlayCons(Next(w, SetPaused(flag)), if w.phase.Blocked? then Wake else Check, []);
    assert [if w.phase.Blocked? then Wake else Check] + [] == [if w.phase.Blocked? then Wake else Check];
  }

  /** Reading a chunk that the process has just written, and sending it. */
  function ForwardChunk(data: Bytes): seq<Step> { [Written(data)] + ([Read(|data|)] + ([Send] + [])) }

  lemma Forwards1(w: Watch, data: Bytes)
    requires w.phase.Reading? && w.unread == [] && data != []
    ensures var r := Play(w, ForwardChunk(data));
      r.phase.Checking? && r.unread == [] && r.sent == w.sent + [Output(data)]
  {
    var written := Next(w, Written(data));
    assert written.unread == data && data[..|data|] == data;
    var read := Next(written, Read(|data|));
    PlayCons(read, Send, []);
    PlayCons(written, Read(|data|), [Send] + []);
    PlayCons(w, Written(data), [Read(|data|)] + ([Send] + []));
  }

  function Finish(status: Status): seq<Step> { [EndOfOutput] + ([ChildExits(status)] + []) }

  lemma Finishes(w: Watch, status: Status)
    requires w.phase.Reading?
    ensures Play(w, Finish(status)).sent == w.sent + [Exited(status)]
  {
    var ended := Next(w, EndOfOutput);
    PlayCons(ended, ChildExits(status), []);
    PlayCons(w, EndOfOutput, [ChildExits(status)] + []);
  }

  /** What the task does is one of the interleaved runs: whatever holds of those holds of it. */
  lemma {:induction false} TaskIsARun(w: Watch, flags: seq<bool>, results: seq<ReadResult>, status: Status)
    returns (steps: seq<Step>)
    requires (w.phase.Checking? || w.phase.Blocked?) && w.unread == []
    ensures Play(w, steps).sent == w.sent + Reported(flags, results, status)
    decreases |flags|
  {
    hide Play, Next, Look, ForwardChunk, Finish;
    if flags == [] || (!flags[0] && results == []) {
      steps := [];
      NothingPlayed(w);
    } else {
      var looked := Play(w, Look(w, flags[0]));
      Looks(w, flags[0]);
      var rest;
      if flags[0] {
        rest := TaskIsARun(looked, flags[1..], results, status);
      } else if results[0].Failure? || results[0].data == [] {
        rest := Finish(status);
        Finishes(looked, status);
      } else {
        var data := results[0].data;
        Forwards1(looked, data);
        rest := TaskIsARun(Play(looked, ForwardChunk(data)), flags[1..], results[1..], status);
        PlayConcat(looked, ForwardChunk(data), rest);
        rest := ForwardChunk(data) + rest;
      }
      PlayConcat(w, Look(w, flags[0]), rest);
      steps := Look(w, flags[0]) + rest;
    }
  }

  lemma NothingPlayed(w: Watch)
    ensures Play(w, []) == w
  {}

  class Task {
    var events: seq<Event>

    /** The task's loops: wait while the flag is set, then read and forward one chunk. */
    method Run(flags: seq<bool>, results: seq<ReadResult>, status: Status)
      modifies this
      ensures events == old(events) + Reported(flags, results, status)
    {
      var i, k := 0, 0;
      while true
        invariant i <= |flags| && k <= |results|
        invariant events + Reported(flags[i..], results[k..], status) == old(events) + Reported(flags, results, status)
        decreases |flags| - i
      {
        while i < |flags| && flags[i]
          invariant i <= |flags|
          invariant events + Reported(flags[i..], results[k..], status) == old(events) + Reported(flags, results, status)
        {
          assert flags[i..][1..] == flags[i + 1..];
          i := i + 1;
        }
        if i == |flags| || k == |results| {
          return;
        }
        assert flags[i..][1..] == flags[i + 1..] && results[k..][1..] == results[k + 1..];
        if results[k].Failure? || results[k].data == [] {
          events := events + [Exited(status)];
          return;
        }
        events := events + [Output(results[k].data)];
        i, k := i + 1, k + 1;
      }
    }
  }
}
