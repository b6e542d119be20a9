/**
 * The life of one process: starting, stopping, restarting, its exits, its input
 * and whether reading its output is paused. `Proc` is its state as a value, the
 * class changes it in place. What the operating system and the emulator decide
 * (whether a spawn works, what the time is, what bytes do) is given.
 */
module Process {
  import opened Prelude
  import opened Emulation
  import opened Search
  import Terminal
  import InputQueue
  import Keys

  type Bytes = InputQueue.Bytes
  type Term = Terminal.Term

  /** Milliseconds. */
  const CRASH_LOOP_THRESHOLD: nat := 1000

  /** Banners mtack prints into a process's output. */
  datatype Notice = Restarted | FailedToStart | InputDropped

  datatype Emulator = Emulator(
    output: (Vt, Bytes) -> Change,
    notice: (Vt, Notice) -> Change,
    resized: (Vt, nat, nat) -> seq<Row>)

  datatype Life = Stopped | Running | Stopping(pendingRestart: bool) | Failed

  datatype Status = Success | ExitCode(code: int) | Signal

  /** What stays the same for a process. */
  datatype Config = Config(nameWidth: nat, autostart: bool, autorestart: bool, unfocus: Keys.UnfocusKey)

  /** Time and whether a spawn would work, as an event finds them. */
  datatype Moment = Moment(now: nat, spawns: bool)

  /**
   * `paused` is the value of the channel the watcher tasks listen to, and
   * `watchers` how many listen; sending to nobody changes nothing.
   */
  datatype Proc = Proc(
    config: Config, term: Term, life: Life, lastStart: Option<nat>,
    paused: bool, watchers: nat, queue: seq<Bytes>, dropping: bool)
  {
    ghost predicate Ok() { term.Ok() }

    predicate Live() { life.Running? || life.Stopping? }

    function SendPause(value: bool): (r: Proc)
      ensures r == this.(paused := r.paused)
    {
      if watchers > 0 then this.(paused := value) else this
    }

    function SyncPaused(): (r: Proc)
      ensures r == this.(paused := r.paused)
    {
      SendPause(term.ScrolledBack())
    }

    function Start(e: Emulator, m: Moment): (r: Proc)
      ensures Ok() ==> r.Ok()
      ensures r.config == config
    {
      if life.Running? then this
      else
        var shown := if lastStart.Some? then term.Banner(e.notice(term.vt, Restarted)) else term;
        if m.spawns then
          this.(term := shown, life := Running, lastStart := Some(m.now),
                watchers := watchers + 1, queue := [], dropping := false).SyncPaused()
        else
          this.(term := shown.Banner(e.notice(shown.vt, FailedToStart)), life := Failed)
    }

    function StartIfConfigured(e: Emulator, m: Moment): (r: Proc)
      ensures Ok() ==> r.Ok()
      ensures r.config == config
    {
      if config.autostart then Start(e, m) else this
    }

    function Stop(): (r: Proc)
      ensures Ok() ==> r.Ok()
      ensures r.config == config
    {
      if life.Running? then SendPause(false).(life := Stopping(false), queue := []) else this
    }

    /** Also returns whether the caller should start the process at once. */
    function Restart(): (r: (Proc, bool))
      ensures Ok() ==> r.0.Ok()
      ensures r.0.config == config
    {
      match life
      case Stopped => (this, true)
      case Failed => (this, true)
      case Running => (Stop().(life := Stopping(true)), false)
      case Stopping(_) => (this.(life := Stopping(true)), false)
    }

    function TooFast(now: nat): bool {
      lastStart.Some? && SatSub(now, lastStart.value) < CRASH_LOOP_THRESHOLD
    }

    /** Also returns whether to start the process again. */
    function HandleExit(status: Status, now: nat): (r: (Proc, bool))
      ensures Ok() ==> r.0.Ok()
      ensures r.0.config == config && r.0.term == term
    {
      match life
      case Stopped => (this, false)
      case Failed => (this, false)
      case Stopping(pending) => (this.(life := Stopped), pending)
      case Running =>
        (this.(life := if status.Success? then Stopped else Failed, queue := []),
         config.autorestart && !TooFast(now) && !status.Signal?)
    }

    function Exited(e: Emulator, status: Status, m: Moment): (r: Proc)
      ensures Ok() ==> r.Ok()
      ensures r.config == config
    {
      var (p, again) := HandleExit(status, m.now);
      if again then p.Start(e, m) else p
    }

    function Write(e: Emulator, data: Bytes): (r: Proc)
      ensures Ok() ==> r.Ok()
      ensures r.config == config
    {
      if !life.Running? then this
      else
        var (queue', dropping', entry) := InputQueue.Offer(queue, dropping, data);
        this.(queue := queue', dropping := dropping',
              term := if entry.banner then term.Banner(e.notice(term.vt, InputDropped)) else term)
    }

    function Resize(e: Emulator, rows: nat, cols: nat): (r: Proc)
      ensures Ok() ==> r.Ok()
      ensures r.config == config
    {
      this.(term := term.Resize(rows, cols, e.resized(term.vt, rows, cols)))
    }

    function HandleOutput(e: Emulator, data: Bytes): (r: Proc)
      ensures Ok() ==> r.Ok()
      ensures r.config == config
    {
      this.(term := term.Process(e.output(term.vt, data)))
    }
  }

  function NewProc(config: Config, scrollback: nat): Proc {
    Proc(config, Terminal.NewTerm(24, 80, scrollback), Stopped, None, false, 0, [], false)
  }

  // ----------------------------------------------------- starting, stopping, exiting

  /**
   * An exit starts the process again exactly if a restart was pending, or it ran
   * for at least a second, is to be restarted, and was not ended by a signal.
   */
  lemma ExitRestartsIff(p: Proc, status: Status, now: nat)
    ensures p.HandleExit(status, now).1 <==>
      || p.life == Stopping(true)
      || (p.life.Running? && p.config.autorestart && !status.Signal?
          && (p.lastStart.Some? ==> now >= p.lastStart.value + 1000))
  {}

  /** What is left when it does not: a stopped process, a failed one, or what was there. */
  lemma ExitEnds(p: Proc, e: Emulator, status: Status, m: Moment)
    requires !p.HandleExit(status, m.now).1
    ensures var q := p.Exited(e, status, m);
      && q.life == (if p.life.Stopping? || (p.life.Running? && status.Success?) then Stopped
                    else if p.life.Running? then Failed else p.life)
      && q.term == p.term && q.watchers == p.watchers && q.lastStart == p.lastStart
      && (p.life.Running? ==> q.queue == [])
  {}

  /** A stop asked for is final: however the process ends, and however long it ran, it stays stopped. */
  lemma StopIsFinal(p: Proc, e: Emulator, status: Status, m: Moment)
    requires p.life.Running?
    ensures p.Stop().life.Stopping? && p.Stop().queue == [] && p.Stop().term == p.term
    ensures p.Stop().Exited(e, status, m).life.Stopped?
    ensures p.watchers > 0 ==> !p.Stop().paused
  {}

  /** A restart runs the process again: at once if it has ended, after its exit if not, however it exits and however soon. */
  lemma RestartRunsAgain(p: Proc, e: Emulator, status: Status, m: Moment)
    ensures var (q, now) := p.Restart();
      && (now <==> !p.Live())
      && (now ==> q.Start(e, m).life == if m.spawns then Running else Failed)
      && (!now ==> q.life.Stopping? && q.Exited(e, status, m).life == if m.spawns then Running else Failed)
  {
    hide Term.Banner;
  }

  /** A started process takes input at once, whatever was dropped before, and its first start shows nothing of mtack's. */
  lemma StartTakesInput(p: Proc, e: Emulator, m: Moment, data: Bytes)
    requires !p.life.Running? && m.spawns
    ensures var q := p.Start(e, m);
      && q.life.Running? && q.lastStart == Some(m.now) && q.watchers == p.watchers + 1
      && q.paused == q.term.ScrolledBack()
      && (p.lastStart.None? ==> q.term == p.term)
      && (p.lastStart.Some? ==> q.term == p.term.Banner(e.notice(p.term.vt, Restarted)))
      && q.Write(e, data) == q.(queue := [data])
  {
    hide Term.Banner;
  }

  /** A start that fails says so after the word that it is a restart, if it is one, and leaves a failed process. */
  lemma StartThatFailsSaysSo(p: Proc, e: Emulator, m: Moment)
    requires !p.life.Running? && !m.spawns
    ensures var q := p.Start(e, m);
      var shown := if p.lastStart.Some? then p.term.Banner(e.notice(p.term.vt, Restarted)) else p.term;
      q.life.Failed? && q == p.(life := Failed, term := q.term) && q.term == shown.Banner(e.notice(shown.vt, FailedToStart))
  {
    hide Term.Banner;
  }

  /** A running process is not started again. */
  lemma RunningIsNotStarted(p: Proc, e: Emulator, m: Moment)
    requires p.life.Running?
    ensures p.Start(e, m) == p
  {}

  /** Input goes behind what is queued while there is room and nothing was dropped; a process that does not run gets none. */
  lemma InputIsQueued(p: Proc, e: Emulator, data: Bytes)
    ensures p.life.Running? && !p.dropping && |p.queue| < 65_536 ==> p.Write(e, data) == p.(queue := p.queue + [data])
    ensures p.life.Running? && !p.dropping && |p.queue| >= 65_536 ==>
      p.Write(e, data) == p.(dropping := true, term := p.term.Banner(e.notice(p.term.vt, InputDropped)))
    ensures !p.life.Running? ==> p.Write(e, data) == p
  {}

  // --------------------------------------------------------------- crash loops

  /** Everything that can happen to one process, and its time. */
  datatype Happening =
    | UserStart(m: Moment)
    | UserStop(m: Moment)
    | UserRestart(m: Moment)
    | ChildExit(status: Status, m: Moment)
    | Other(p: Proc, m: Moment)

  /** Anything else leaves the life and the start time alone. */
  predicate Possible(p: Proc, h: Happening) {
    h.Other? ==> h.p.life == p.life && h.p.lastStart == p.lastStart && h.p.config == p.config
  }

  function After(p: Proc, h: Happening, e: Emulator): Proc {
    match h
    case UserStart(m) => p.Start(e, m)
    case UserStop(m) => p.Stop()
    case UserRestart(m) => (var (q, now) := p.Restart(); if now then q.Start(e, m) else q)
    case ChildExit(status, m) => p.Exited(e, status, m)
    case Other(q, m) => q
  }

  /** A restart nobody asked for: a running process exits and is started again, whether that works or not. */
  predicate Automatic(p: Proc, h: Happening) {
    h.ChildExit? && p.life.Running? && p.HandleExit(h.status, h.m.now).1
  }

  /** A history: the process now, the time, and when it was restarted automatically. */
  datatype Past = Past(p: Proc, now: nat, restarts: seq<nat>)

  ghost predicate Happened(past: Past, h: Happening, e: Emulator, next: Past) {
    && h.m.now >= past.now && Possible(past.p, h)
    && next == Past(After(past.p, h, e), h.m.now,
                    if Automatic(past.p, h) then past.restarts + [h.m.now] else past.restarts)
  }

  /** States of a process from its creation on, one happening after the other. */
  ghost predicate History(pasts: seq<Past>, hs: seq<Happening>, config: Config, scrollback: nat, e: Emulator) {
    && |pasts| == |hs| + 1
    && pasts[0] == Past(NewProc(config, scrollback), pasts[0].now, [])
    && forall k :: 0 <= k < |hs| ==> Happened(pasts[k], hs[k], e, pasts[k + 1])
  }

  predicate Spaced(times: seq<nat>) {
    forall i, j :: 0 <= i < j < |times| ==> times[i] + (j - i) * CRASH_LOOP_THRESHOLD <= times[j]
  }

  /** A running process was started after its last automatic restart was decided. */
  ghost predicate PastInv(past: Past) {
    var n := |past.restarts|;
    && Spaced(past.restarts)
    && (n > 0 ==> past.restarts[n - 1] <= past.now)
    && (past.p.lastStart.Some? ==> past.p.lastStart.value <= past.now)
    && (past.p.life.Running? ==>
          past.p.lastStart.Some? && (n > 0 ==> past.restarts[n - 1] <= past.p.lastStart.value))
  }

  lemma SpacedExtends(times: seq<nat>, now: nat)
    requires Spaced(times) && (times != [] ==> times[|times| - 1] + CRASH_LOOP_THRESHOLD <= now)
    ensures Spaced(times + [now])
  {
    var n := |times|;
    var longer := times + [now];
    forall i, j | 0 <= i < j < n + 1
      ensures longer[i] + (j - i) * CRASH_LOOP_THRESHOLD <= longer[j]
    {
      if j == n && i < n - 1 {
        assert times[i] + (n - 1 - i) * CRASH_LOOP_THRESHOLD <= times[n - 1];
      }
    }
  }

  /** Whatever happened at this time, the process runs only if it did before or was started just now. */
  predicate Moves(p: Proc, q: Proc, now: nat) {
    (q.lastStart == p.lastStart && (q.life.Running? ==> p.life.Running?)) || q.lastStart == Some(now)
  }

  /** Nothing started or ended: at most the process was told to stop, or a watcher is gone. */
  predicate Quiet(p: Proc, q: Proc) {
    && q.lastStart == p.lastStart && (q.life.Running? ==> p.life.Running?)
    && q.Live() == p.Live() && q.watchers <= p.watchers
  }

  /** A start at this time, whether the spawn worked or not. */
  predicate StartTried(p: Proc, q: Proc, now: nat) {
    !p.life.Running? &&
    if q.life.Running? then q.lastStart == Some(now) && q.watchers == p.watchers + 1
    else q.life.Failed? && q.lastStart == p.lastStart && q.watchers == p.watchers
  }

  /** All that can happen to a process other than an exit. `forced` tells that it may be started while it is stopping. */
  predicate Kept(p: Proc, q: Proc, now: nat, forced: bool) {
    Quiet(p, q) || (StartTried(p, q, now) && (p.life.Stopping? ==> forced))
  }

  /** The process was running long enough to be restarted by itself, and runs again only if it was started just now. */
  predicate Restarts(p: Proc, q: Proc, now: nat) {
    p.life.Running? && !p.TooFast(now) && (q.life.Running? ==> q.lastStart == Some(now))
  }

  lemma MovesKeepPastInv(past: Past, q: Proc, now: nat, automatic: bool)
    requires PastInv(past) && past.now <= now && Moves(past.p, q, now)
    requires automatic ==> Restarts(past.p, q, now)
    ensures PastInv(Past(q, now, if automatic then past.restarts + [now] else past.restarts))
  {
    hide Spaced;
    if automatic {
      SpacedExtends(past.restarts, now);
    }
  }

  lemma HappenedKeepsPastInv(past: Past, h: Happening, e: Emulator, next: Past)
    requires PastInv(past) && Happened(past, h, e, next)
    ensures PastInv(next)
  {
    hide Spaced, Term.Banner, PastInv;
    MovesKeepPastInv(past, next.p, h.m.now, Automatic(past.p, h));
  }

  lemma {:induction false} HistoryKeepsPastInv(pasts: seq<Past>, hs: seq<Happening>, config: Config,
                                              scrollback: nat, e: Emulator, k: nat)
    requires History(pasts, hs, config, scrollback, e) && k < |pasts|
    ensures PastInv(pasts[k])
  {
    if k > 0 {
      HistoryKeepsPastInv(pasts, hs, config, scrollback, e, k - 1);
      HappenedKeepsPastInv(pasts[k - 1], hs[k - 1], e, pasts[k]);
    }
  }

  /**
   * However starts, stops, stale exits and failed spawns mix, automatic restarts
   * of one process are a threshold apart: within any span of time there are at
   * most one more than the span holds thresholds.
   */
  lemma CrashLoopBound(pasts: seq<Past>, hs: seq<Happening>, config: Config, scrollback: nat, e: Emulator,
                       i: nat, j: nat, span: nat)
    requires History(pasts, hs, config, scrollback, e)
    requires var times := pasts[|hs|].restarts; i <= j < |times| && times[j] - times[i] <= span
    ensures Spaced(pasts[|hs|].restarts)
    ensures j - i + 1 <= 1 + span / CRASH_LOOP_THRESHOLD
  {
    HistoryKeepsPastInv(pasts, hs, config, scrollback, e, |hs|);
  }

  // -------------------------------------------------------------- backpressure

  /** A running process that is being watched is paused while its view is scrolled back and, if `exact`, only then. */
  predicate Synced(p: Proc, exact: bool) {
    p.life.Running? && p.watchers > 0 ==>
      (p.term.ScrolledBack() ==> p.paused) && (exact && p.paused ==> p.term.ScrolledBack())
  }

  /** Output that neither resets the terminal nor switches screens. */
  predicate Plain(vt: Vt, c: Change) {
    !c.reset && (c.alt.Some? <==> vt.alt.Some?)
  }

  /** mtack's own banners are plain text. */
  ghost predicate PlainNotices(e: Emulator) {
    forall vt, n :: Plain(vt, e.notice(vt, n))
  }

  lemma PlainKeepsScrolledBack(t: Term, c: Change)
    requires Valid(t.vt) && Plain(t.vt, c)
    ensures t.Process(c).ScrolledBack() == t.ScrolledBack() == t.Banner(c).ScrolledBack()
  {}

  /** Output that leaves something to be scrolled back to: no alternate screen, and rows scrolled off after any reset. */
  predicate LeavesHistory(c: Change) {
    c.alt.None? && (c.reset ==> c.pushed != [])
  }

  /**
   * The pause is not updated after output. It stays right exactly if the view
   * followed the screen before, whatever the output is, or the output leaves a
   * history to be scrolled back to.
   */
  lemma OutputSyncedIff(p: Proc, e: Emulator, data: Bytes)
    requires Synced(p, true) && p.life.Running? && p.watchers > 0 && Valid(p.term.vt)
    ensures Synced(p.HandleOutput(e, data), true)
      <==> (p.term.ScrolledBack() ==> LeavesHistory(e.output(p.term.vt, data)))
  {}

  /** Where it goes wrong, the view is at the bottom and the process stays paused. */
  lemma OutputNeverUnpauses(p: Proc, e: Emulator, data: Bytes)
    requires Synced(p, false) && Valid(p.term.vt)
    ensures Synced(p.HandleOutput(e, data), false)
  {}

  lemma StartKeepsSynced(p: Proc, e: Emulator, m: Moment, exact: bool)
    requires Synced(p, exact)
    ensures Synced(p.Start(e, m), exact)
  {
    hide Terminal.Term.Banner;
  }

  lemma LifeKeepsSynced(p: Proc, e: Emulator, m: Moment, status: Status, exact: bool)
    requires Synced(p, exact)
    ensures Synced(p.Start(e, m), exact) && Synced(p.Stop(), exact) && Synced(p.Restart().0, exact)
    ensures Synced(p.Exited(e, status, m), exact) && Synced(p.SyncPaused(), exact)
  {
    hide Proc.Start;
    StartKeepsSynced(p, e, m, exact);
    StartKeepsSynced(p.HandleExit(status, m.now).0, e, m, exact);
  }

  lemma TerminalKeepsSynced(p: Proc, e: Emulator, data: Bytes, rows: nat, cols: nat, exact: bool)
    requires Synced(p, exact) && Valid(p.term.vt) && (exact ==> PlainNotices(e))
    ensures Synced(p.Write(e, data), exact) && Synced(p.Resize(e, rows, cols), exact)
  {
    if exact { PlainKeepsScrolledBack(p.term, e.notice(p.term.vt, InputDropped)); }
  }

  // ---------------------------------------------------------------- the object

  class Process {
    const config: Config
    var term: Term
    var lifecycle: Life
    var lastStartTime: Option<nat>
    var paused: bool
    var watchers: nat
    var queue: seq<Bytes>
    var droppingInput: bool

    function State(): Proc
      reads this
    {
      Proc(config, term, lifecycle, lastStartTime, paused, watchers, queue, droppingInput)
    }

    constructor (config: Config, scrollback: nat)
      ensures State() == NewProc(config, scrollback) && this.config == config
    {
      this.config := config;
      term := Terminal.NewTerm(24, 80, scrollback);
      lifecycle, lastStartTime := Stopped, None;
      paused, watchers := false, 0;
      queue, droppingInput := [], false;
    }

    method SendPause(value: bool)
      modifies this`paused
      ensures State() == old(State()).SendPause(value)
    {
      if watchers > 0 {
        paused := value;
      }
    }

    method SyncPaused()
      modifies this`paused
      ensures State() == old(State()).SyncPaused()
    {
      SendPause(term.ScrolledBack());
    }

    method Start(e: Emulator, m: Moment)
      modifies this
      ensures State() == old(State()).Start(e, m)
    {
      if lifecycle.Running? {
        return;
      }
      if lastStartTime.Some? {
        term := term.Banner(e.notice(term.vt, Restarted));
      }
      if m.spawns {
        watchers := watchers + 1;
        queue := [];
        lifecycle := Running;
        droppingInput := false;
        lastStartTime := Some(m.now);
        SyncPaused();
      } else {
        term := term.Banner(e.notice(term.vt, FailedToStart));
        lifecycle := Failed;
      }
    }

    method StartIfConfigured(e: Emulator, m: Moment)
      modifies this
      ensures State() == old(State()).StartIfConfigured(e, m)
    {
      if config.autostart {
        Start(e, m);
      }
    }

    method Stop()
      modifies this
      ensures State() == old(State()).Stop()
    {
      if !lifecycle.Running? {
        return;
      }
      SendPause(false);
      lifecycle := Stopping(false);
      queue := [];
    }

    method Restart() returns (startNow: bool)
      modifies this
      ensures (State(), startNow) == old(State()).Restart()
    {
      match lifecycle {
        case Stopped => return true;
        case Failed => return true;
        case Running => Stop();
        case Stopping(_) =>
      }
      lifecycle := Stopping(true);
      startNow := false;
    }

    method HandleExit(status: Status, now: nat) returns (again: bool)
      modifies this
      ensures (State(), again) == old(State()).HandleExit(status, now)
    {
      var wasStopping, pendingRestart := false, false;
      match lifecycle {
        case Stopped => return false;
        case Failed => return false;
        case Running =>
        case Stopping(pending) => wasStopping, pendingRestart := true, pending;
      }
      if wasStopping {
        lifecycle := Stopped;
      } else {
        lifecycle := if status.Success? then Stopped else Failed;
        queue := [];
      }
      if pendingRestart {
        return true;
      }
      var tooFast := lastStartTime.Some? && SatSub(now, lastStartTime.value) < CRASH_LOOP_THRESHOLD;
      again := !wasStopping && config.autorestart && !tooFast && !status.Signal?;
    }

    method Write(e: Emulator, data: Bytes)
      modifies this
      ensures State() == old(State()).Write(e, data)
    {
      if !lifecycle.Running? {
        return;
      }
      if droppingInput && queue != [] {
        return;
      }
      var full := |queue| >= InputQueue.INPUT_QUEUE_SIZE;
      if !full {
        queue := queue + [data];
      }
      if full && !droppingInput {
        term := term.Banner(e.notice(term.vt, InputDropped));
      }
      droppingInput := full;
    }

    method Resize(e: Emulator, rows: nat, cols: nat)
      modifies this`term
      ensures State() == old(State()).Resize(e, rows, cols)
    {
      term := term.Resize(rows, cols, e.resized(term.vt, rows, cols));
    }

    method HandleOutput(e: Emulator, data: Bytes)
      modifies this`term
      ensures State() == old(State()).HandleOutput(e, data)
    {
      term := term.Process(e.output(term.vt, data));
    }
  }
}
