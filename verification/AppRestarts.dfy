/** Crash loops over runs of the whole server: no process is restarted by itself twice within the threshold. */
module AppRestarts {
  import opened App
  import AppLives
  import Delivery
  import Process
  import Terminal

  /** What time it is after an event: only some carry a moment. */
  function Time(event: Event, before: nat): nat {
    match event
    case Msg(_, m) => m.now
    case ProcessExited(_, _, m) => m.now
    case _ => before
  }

  lemma ExitedMoves(p: Proc, env: Env, status: Process.Status, m: Moment)
    ensures Process.Moves(p, p.Exited(env.emulator, status, m), m.now)
  {
    hide Terminal.Term.Banner;
  }

  /** Each process was left alone, stopped, or started at this time. */
  lemma NextMoves(a: State, event: Event, env: Env, before: nat)
    requires Wf(a) && Talking(a) && Enabled(a, event)
    ensures var b := Next(a, event, env);
      && |b.procs| == |a.procs|
      && forall k :: 0 <= k < |a.procs| ==> Process.Moves(a.procs[k], b.procs[k], Time(event, before))
  {
    hide Next;
    if event.ProcessExited? {
      ExitMoves(a, event, env);
    } else {
      AppLives.NextKeeps(a, event, env, Time(event, before));
    }
  }

  lemma ExitMoves(a: State, event: Event, env: Env)
    requires Wf(a) && Talking(a) && Enabled(a, event) && event.ProcessExited?
    ensures var b := Next(a, event, env);
      && |b.procs| == |a.procs|
      && forall k :: 0 <= k < |a.procs| ==> Process.Moves(a.procs[k], b.procs[k], event.m.now)
  {
    hide Process.Proc.Exited, Draw, HandleClientMsg, BeginQuit, AttachClient, DropClient, Delivery.Next, HandleOutput;
    if event.id < |a.procs| { ExitedMoves(a.procs[event.id], env, event.status, event.m); }
  }

  // ---------------------------------------------------------------- whole runs

  /** This event makes the server restart process k although nobody asked for it. */
  predicate RestartsItself(a: State, event: Event, k: nat) {
    && event.ProcessExited? && event.id == k && k < |a.procs|
    && a.procs[k].life.Running? && a.procs[k].HandleExit(event.status, event.m.now).1
  }

  /** When process k was restarted by itself during a run. */
  ghost function RestartTimes(a: State, events: seq<Event>, env: Env, k: nat): seq<nat> {
    if events == [] then []
    else
      var n := |events| - 1;
      var before := Play(a, events[..n], env);
      RestartTimes(a, events[..n], env, k)
      + (if !Exits(before) && Wf(before) && Talking(before) && Enabled(before, events[n])
            && RestartsItself(before, events[n], k)
         then [Time(events[n], 0)] else [])
  }

  function Clock(start: nat, events: seq<Event>): nat {
    if events == [] then start else Time(events[|events| - 1], Clock(start, events[..|events| - 1]))
  }

  /** Time does not run backwards. */
  predicate Timely(start: nat, events: seq<Event>) {
    forall n :: 0 <= n < |events| ==> Clock(start, events[..n]) <= Time(events[n], Clock(start, events[..n]))
  }

  lemma ExitRestarts(a: State, event: Event, env: Env, k: nat)
    requires Wf(a) && Talking(a) && Enabled(a, event) && RestartsItself(a, event, k)
    ensures Process.Restarts(a.procs[k], Next(a, event, env).procs[k], event.m.now)
  {
    hide Terminal.Term.Banner;
  }

  /** The history of process k so far. */
  ghost function PastOf(a: State, start: nat, events: seq<Event>, env: Env, k: nat): Process.Past
    requires k < |Play(a, events, env).procs|
  {
    Process.Past(Play(a, events, env).procs[k], Clock(start, events), RestartTimes(a, events, env, k))
  }

  lemma StepKeepsPast(a: State, event: Event, env: Env, k: nat, past: Process.Past)
    requires Wf(a) && Talking(a) && Enabled(a, event)
    requires k < |a.procs| && past.p == a.procs[k] && Process.PastInv(past) && past.now <= Time(event, past.now)
    ensures var b := Next(a, event, env);
      k < |b.procs| && Process.PastInv(
        Process.Past(b.procs[k], Time(event, past.now),
                     past.restarts + (if RestartsItself(a, event, k) then [Time(event, 0)] else [])))
  {
    hide Wf, Enabled, Next, Process.PastInv, Process.Moves, RestartsItself, Time;
    NextMoves(a, event, env, past.now);
    if RestartsItself(a, event, k) {
      TimeOfRestart(a, event, k, past.now);
      ExitRestarts(a, event, env, k);
    }
    Process.MovesKeepPastInv(past, Next(a, event, env).procs[k], Time(event, past.now), RestartsItself(a, event, k));
    assert past.restarts + [] == past.restarts;
  }

  lemma {:induction false} PlayKeepsPast(a: State, start: nat, events: seq<Event>, env: Env, k: nat)
    requires k < |a.procs| && Timely(start, events) && Process.PastInv(Process.Past(a.procs[k], start, []))
    ensures k < |Play(a, events, env).procs| && Process.PastInv(PastOf(a, start, events, env, k))
  {
    hide Next, Enabled, Exits, Process.PastInv, Wf, RestartsItself, Time;
    if events != [] {
      var n := |events| - 1;
      assert forall i :: 0 <= i < n ==> events[..n][..i] == events[..i];
      PlayKeepsPast(a, start, events[..n], env, k);
      var before := Play(a, events[..n], env);
      var past := PastOf(a, start, events[..n], env, k);
      if !Exits(before) && Wf(before) && Talking(before) && Enabled(before, events[n]) {
        StepKeepsPast(before, events[n], env, k, past);
      } else {
        Stays(past.p, Clock(start, events));
        Process.MovesKeepPastInv(past, past.p, Clock(start, events), false);
        assert past.restarts + [] == past.restarts;
      }
    }
  }

  lemma Stays(p: Proc, now: nat)
    ensures Process.Moves(p, p, now)
  {}

  lemma TimeOfRestart(a: State, event: Event, k: nat, before: nat)
    requires RestartsItself(a, event, k)
    ensures Time(event, before) == event.m.now == Time(event, 0)
  {}

  lemma BootPast(configs: seq<Process.Config>, scrollback: seq<nat>, moments: seq<Moment>, env: Env, start: nat, k: nat)
    requires |configs| == |scrollback| == |moments| && k < |configs|
    requires forall i :: 0 <= i < |moments| ==> moments[i].now <= start
    ensures var a := Boot(configs, scrollback, moments, env);
      k < |a.procs| && Process.PastInv(Process.Past(a.procs[k], start, []))
  {
    hide Terminal.Term.Resize, Terminal.Term.Banner;
  }

  /**
   * Over any run of the server in which time does not run backwards, through
   * starts, stops, restarts, stale exits, failed spawns, clients and quitting: the
   * restarts of a process that nobody asked for are a threshold apart, so any
   * span of time holds at most one more of them than thresholds.
   */
  lemma RestartsAreSpaced(configs: seq<Process.Config>, scrollback: seq<nat>, moments: seq<Moment>, start: nat,
                          events: seq<Event>, env: Env, k: nat)
    requires |configs| == |scrollback| == |moments| && k < |configs|
    requires Timely(start, events) && forall i :: 0 <= i < |moments| ==> moments[i].now <= start
    ensures var times := RestartTimes(Boot(configs, scrollback, moments, env), events, env, k);
      && Process.Spaced(times)
      && forall i, j :: 0 <= i <= j < |times| ==>
           j - i + 1 <= 1 + (times[j] - times[i]) / Process.CRASH_LOOP_THRESHOLD
  {
    hide Boot, Play, Timely;
    BootPast(configs, scrollback, moments, env, start, k);
    PlayKeepsPast(Boot(configs, scrollback, moments, env), start, events, env, k);
  }
}
