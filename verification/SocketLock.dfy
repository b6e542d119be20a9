/**
 * Which server owns a config: any number of servers share one lock file and one
 * socket path, and start, exit and crash in any interleaving. The lock decides;
 * the socket file alone proves nothing.
 */
module SocketLock {
  import opened Prelude

  type Id = nat
  type Path = seq<nat>

  /**
   * Where a server is in its life. Locked to Bound follow the order in which it
   * starts; Unlinked is between removing its socket and letting go of the lock.
   * `clean` says whether removing the old socket file worked.
   */
  datatype Phase =
    | Idle
    | Locked
    | Writing(written: nat)
    | Written
    | Cleared(clean: bool)
    | Bound
    | Unlinked
    | Gone

  datatype Server = Server(config: Path, phase: Phase, listening: bool)

  /** The lock's holder, the lock file's contents, and whose listener the socket path leads to. */
  datatype World = World(servers: seq<Server>, holder: Option<Id>, contents: Path, socket: Option<Id>)

  datatype Step =
    | TryLock(i: Id)
    | Truncate(i: Id)
    | Write(i: Id, n: nat)
    | WriteDone(i: Id)
    | RemoveOld(i: Id, works: bool)
    | BindSocket(i: Id)
    | Fails(i: Id)
    | DropGuard(i: Id)
    | Release(i: Id)
    | ListenerCloses(i: Id)
    | Crash(i: Id)

  predicate HoldsLock(p: Phase) {
    p.Locked? || p.Writing? || p.Written? || p.Cleared? || p.Bound? || p.Unlinked?
  }

  predicate Enabled(w: World, step: Step) {
    step.i < |w.servers| &&
    var s := w.servers[step.i];
    match step
    case TryLock(_) => s.phase.Idle?
    case Truncate(_) => s.phase.Locked?
    case Write(_, n) => s.phase.Writing? && s.phase.written + n <= |s.config|
    case WriteDone(_) => s.phase == Writing(|s.config|)
    case RemoveOld(_, _) => s.phase.Written?
    case BindSocket(_) => s.phase.Cleared?
    case Fails(_) => s.phase.Idle? || (HoldsLock(s.phase) && !s.phase.Bound? && !s.phase.Unlinked?)
    case DropGuard(_) => s.phase.Bound?
    case Release(_) => s.phase.Unlinked?
    case ListenerCloses(_) => s.listening
    case Crash(_) => !s.phase.Gone? || s.listening
  }

  function SetPhase(w: World, i: Id, p: Phase): World
    requires i < |w.servers|
  {
    w.(servers := w.servers[i := w.servers[i].(phase := p)])
  }

  /** The operating system drops a lock whose file is closed. */
  function Unlock(w: World, i: Id): World {
    if w.holder == Some(i) then w.(holder := None) else w
  }

  function Next(w: World, step: Step): World
    requires Enabled(w, step)
  {
    var i := step.i;
    var s := w.servers[i];
    match step
    case TryLock(_) =>
      if w.holder.None? then SetPhase(w, i, Locked).(holder := Some(i)) else SetPhase(w, i, Gone)
    case Truncate(_) => SetPhase(w, i, Writing(0)).(contents := [])
    case Write(_, n) =>
      SetPhase(w, i, Writing(s.phase.written + n)).(contents := s.config[..s.phase.written + n])
    case WriteDone(_) => SetPhase(w, i, Written)
    case RemoveOld(_, works) => SetPhase(w, i, Cleared(works)).(socket := if works then None else w.socket)
    case BindSocket(_) =>
      if w.socket.None? then
        w.(socket := Some(i), servers := w.servers[i := Server(s.config, Bound, true)])
      else Unlock(SetPhase(w, i, Gone), i)
    case Fails(_) => Unlock(SetPhase(w, i, Gone), i)
    case DropGuard(_) => SetPhase(w, i, Unlinked).(socket := None)
    case Release(_) => Unlock(SetPhase(w, i, Gone), i)
    case ListenerCloses(_) => w.(servers := w.servers[i := s.(listening := false)])
    case Crash(_) => Unlock(w.(servers := w.servers[i := Server(s.config, Gone, false)]), i)
  }

  /** Nobody is running, though a server that died may have left its socket file. */
  predicate Starts(w: World) {
    && w.holder.None?
    && (forall i :: 0 <= i < |w.servers| ==>
          (w.servers[i].phase.Idle? || w.servers[i].phase.Gone?) && !w.servers[i].listening)
    && (w.socket.Some? ==> w.socket.value < |w.servers| && w.servers[w.socket.value].phase.Gone?)
  }

  /** The path leads to a listener that is still accepting. */
  predicate Connectable(w: World) {
    w.socket.Some? && w.socket.value < |w.servers| && w.servers[w.socket.value].listening
  }

  /** What one server knows about the shared files. */
  predicate Knows(w: World, i: Id)
    requires i < |w.servers|
  {
    var s := w.servers[i];
    && (HoldsLock(s.phase) <==> w.holder == Some(i))
    && (s.phase.Writing? ==> s.phase.written <= |s.config| && w.contents == s.config[..s.phase.written])
    && (s.phase.Written? || s.phase.Cleared? || s.phase.Bound? || s.phase.Unlinked? ==> w.contents == s.config)
    && (s.phase == Cleared(true) || s.phase.Unlinked? ==> w.socket.None?)
    && (s.phase.Bound? ==> w.socket == Some(i))
    && (s.listening ==> s.phase.Bound? || s.phase.Unlinked? || s.phase.Gone?)
    && (w.socket == Some(i) ==> s.phase.Bound? || (s.phase.Gone? && !s.listening))
  }

  predicate Inv(w: World) {
    && (forall i :: 0 <= i < |w.servers| ==> Knows(w, i))
    && (w.holder.Some? ==> w.holder.value < |w.servers|)
    && (w.socket.Some? ==> w.socket.value < |w.servers|)
  }

  lemma StepKeepsInv(w: World, step: Step)
    requires Inv(w) && Enabled(w, step)
    ensures Inv(Next(w, step))
  {
    var r := Next(w, step);
    assert Knows(w, step.i);
    forall i | 0 <= i < |r.servers|
      ensures Knows(r, i)
    {
      assert Knows(w, i);
      OthersKeepKnowing(w, step, i);
    }
  }

  lemma OthersKeepKnowing(w: World, step: Step, i: Id)
    requires Inv(w) && Enabled(w, step) && i < |w.servers|
    ensures Knows(Next(w, step), i)
  {
    assert Knows(w, i) && Knows(w, step.i);
  }

  function Play(w: World, steps: seq<Step>): World {
    if steps == [] then w
    else
      var before := Play(w, steps[..|steps| - 1]);
      var step := steps[|steps| - 1];
      if Enabled(before, step) then Next(before, step) else before
  }

  lemma {:induction false} PlayKeepsInv(w: World, steps: seq<Step>)
    requires Inv(w)
    ensures Inv(Play(w, steps))
  {
    if steps != [] {
      PlayKeepsInv(w, steps[..|steps| - 1]);
      var before := Play(w, steps[..|steps| - 1]);
      if Enabled(before, steps[|steps| - 1]) {
        StepKeepsInv(before, steps[|steps| - 1]);
      }
    }
  }

  /** At most one server holds the lock. */
  ghost predicate OneHolder(w: World) {
    forall i, j | 0 <= i < |w.servers| && 0 <= j < |w.servers| ::
      HoldsLock(w.servers[i].phase) && HoldsLock(w.servers[j].phase) ==> i == j
  }

  lemma InvMeans(w: World)
    requires Inv(w)
    ensures OneHolder(w)
    ensures forall i :: 0 <= i < |w.servers| && w.servers[i].phase.Bound? ==> w.socket == Some(i)
    ensures Connectable(w) ==>
      var s := w.servers[w.socket.value]; s.phase.Bound? && w.holder == w.socket && w.contents == s.config
  {
    forall i, j | 0 <= i < |w.servers| && 0 <= j < |w.servers|
      ensures HoldsLock(w.servers[i].phase) && HoldsLock(w.servers[j].phase) ==> i == j
    {
      assert Knows(w, i) && Knows(w, j);
    }
    forall i | 0 <= i < |w.servers| && w.servers[i].phase.Bound?
      ensures w.socket == Some(i)
    {
      assert Knows(w, i);
    }
    if Connectable(w) {
      assert Knows(w, w.socket.value);
    }
  }

  /**
   * In every interleaving: at most one server holds the lock; a bound server's
   * path leads to its own listener; whoever can be reached over the path is
   * bound, holds the lock, and is the one the lock file names.
   */
  lemma OneOwner(w0: World, steps: seq<Step>)
    requires Starts(w0)
    ensures var w := Play(w0, steps);
      && OneHolder(w)
      && (forall i :: 0 <= i < |w.servers| && w.servers[i].phase.Bound? ==> w.socket == Some(i))
      && (Connectable(w) ==>
            var s := w.servers[w.socket.value];
            s.phase.Bound? && w.holder == w.socket && w.contents == s.config)
  {
    PlayKeepsInv(w0, steps);
    InvMeans(Play(w0, steps));
  }

  /** Only the server that holds the lock removes the socket file or puts its own in place. */
  lemma OnlyHolderTouchesSocket(w: World, step: Step)
    requires Inv(w) && Enabled(w, step)
    ensures Next(w, step).socket != w.socket ==> w.holder == Some(step.i)
    ensures Next(w, step).contents != w.contents ==> w.holder == Some(step.i)
  {
    assert Knows(w, step.i);
  }

  /** A bound server keeps the lock, the path and its entry in the lock file until it drops its guard or crashes. */
  lemma {:induction false} BoundUntilGuardDrops(w: World, steps: seq<Step>, i: Id)
    requires Inv(w) && i < |w.servers| && w.servers[i].phase.Bound?
    requires forall k :: 0 <= k < |steps| ==> steps[k] != DropGuard(i) && steps[k] != Crash(i)
    ensures var r := Play(w, steps);
      && i < |r.servers| && r.servers[i].phase.Bound? && r.servers[i].config == w.servers[i].config
      && r.holder == Some(i) && r.socket == Some(i) && r.contents == w.servers[i].config
  {
    if steps == [] {
      assert Knows(w, i);
    } else {
      var n := |steps| - 1;
      BoundUntilGuardDrops(w, steps[..n], i);
      PlayKeepsInv(w, steps[..n]);
      PlayConcat(w, steps[..n], steps[n]);
      assert steps[..n] + [steps[n]] == steps;
      var before := Play(w, steps[..n]);
      if Enabled(before, steps[n]) {
        StaysBound(before, steps[n], i);
      }
    }
  }

  /**
   * Listing the running servers connects to a socket and then reads the lock
   * file beside it. Whatever other servers do in between, it reads the config of
   * the server it reached, as long as that one neither exits nor crashes.
   */
  lemma ListingNamesServer(w: World, between: seq<Step>)
    requires Inv(w) && Connectable(w)
    requires forall k :: 0 <= k < |between| ==>
      between[k] != DropGuard(w.socket.value) && between[k] != Crash(w.socket.value)
    ensures Play(w, between).contents == w.servers[w.socket.value].config
  {
    InvMeans(w);
    BoundUntilGuardDrops(w, between, w.socket.value);
  }

  /** If it does exit and another server starts in between, the entry read can be empty: the two reads are not one. */
  lemma ListingCanBeTorn(w: World, j: Id) returns (between: seq<Step>)
    requires Inv(w) && Connectable(w) && j < |w.servers| && w.servers[j].phase.Idle?
    ensures Play(w, between).contents == []
  {
    var i := w.socket.value;
    InvMeans(w);
    assert Knows(w, j);
    assert [DropGuard(i)] == [] + [DropGuard(i)];
    PlayConcat(w, [], DropGuard(i));
    PlayConcat(w, [DropGuard(i)], Release(i));
    PlayConcat(w, [DropGuard(i)] + [Release(i)], TryLock(j));
    between := [DropGuard(i)] + [Release(i)] + [TryLock(j)];
    PlayConcat(w, between, Truncate(j));
    between := between + [Truncate(j)];
  }

  /** Nobody can start any more, and who holds the lock has finished starting. */
  predicate Settled(w: World) {
    forall i :: 0 <= i < |w.servers| ==>
      !w.servers[i].phase.Idle?
      && (HoldsLock(w.servers[i].phase) ==> w.servers[i].phase.Bound? || w.servers[i].phase.Unlinked?)
  }

  lemma SettledStays(w: World, step: Step)
    requires Settled(w) && Enabled(w, step)
    ensures Settled(Next(w, step)) && Next(w, step).contents == w.contents
  {
    var r := Next(w, step);
    forall i | 0 <= i < |r.servers|
      ensures !r.servers[i].phase.Idle?
        && (HoldsLock(r.servers[i].phase) ==> r.servers[i].phase.Bound? || r.servers[i].phase.Unlinked?)
    {
      assert i < |w.servers|;
    }
  }

  lemma {:induction false} SettledKeepsEntry(w: World, steps: seq<Step>)
    requires Settled(w)
    ensures Settled(Play(w, steps)) && Play(w, steps).contents == w.contents
  {
    if steps != [] {
      hide Settled;
      var n := |steps| - 1;
      SettledKeepsEntry(w, steps[..n]);
      var before := Play(w, steps[..n]);
      if Enabled(before, steps[n]) { SettledStays(before, steps[n]); }
    }
  }

  /** Whoever can be reached holds the lock alone; with nobody idle everybody else is gone. */
  lemma NoneIdleIsSettled(w: World)
    requires Inv(w) && Connectable(w) && forall j :: 0 <= j < |w.servers| ==> !w.servers[j].phase.Idle?
    ensures Settled(w)
  {
    InvMeans(w);
  }

  /**
   * Listing reads the config of the server it reached, whatever happens between
   * its two reads, exactly if nobody is about to start: with another server
   * waiting to, the one it reached may leave and the other replace the entry.
   */
  lemma ListingNamesServerIff(w: World)
    requires Inv(w) && Connectable(w) && w.contents != []
    ensures (forall between :: Play(w, between).contents == w.servers[w.socket.value].config)
      <==> forall j :: 0 <= j < |w.servers| ==> !w.servers[j].phase.Idle?
  {
    InvMeans(w);
    if j :| 0 <= j < |w.servers| && w.servers[j].phase.Idle? {
      var between := ListingCanBeTorn(w, j);
      assert Play(w, between).contents != w.servers[w.socket.value].config;
    } else {
      NoneIdleIsSettled(w);
      forall between
        ensures Play(w, between).contents == w.servers[w.socket.value].config
      {
        SettledKeepsEntry(w, between);
      }
    }
  }

  lemma StaysBound(w: World, step: Step, i: Id)
    requires Inv(w) && i < |w.servers| && w.servers[i].phase.Bound?
    requires Enabled(w, step) && step != DropGuard(i) && step != Crash(i)
    ensures var r := Next(w, step);
      && i < |r.servers| && r.servers[i].phase.Bound? && r.servers[i].config == w.servers[i].config
      && r.holder == Some(i) && r.socket == Some(i) && r.contents == w.servers[i].config
  {
    assert Knows(w, i) && Knows(w, step.i);
  }

  lemma PlayConcat(w: World, a: seq<Step>, b: Step)
    ensures Play(w, a + [b]) ==
      var before := Play(w, a); if Enabled(before, b) then Next(before, b) else before
  {
    assert (a + [b])[..|a + [b]| - 1] == a;
  }

  // ------------------------------------------------------------ starting a server

  /** The first thing that goes wrong while a server starts. Not being able to remove the old socket is not an error. */
  datatype Fault = NoFault | LockFails | TruncateFails | WriteFails(n: nat) | RemoveFails | BindFails

  datatype Outcome = Listening | AlreadyRunning | Error

  /** The shared files, as the starting server leaves them. */
  datatype Files = Files(holder: Option<Id>, contents: Path, socket: Option<Id>)

  /** A start that nothing interleaves with. */
  function Started(f: Files, id: Id, config: Path, fault: Fault): (Files, Outcome) {
    if fault.LockFails? then (f, Error)
    else if f.holder.Some? then (f, AlreadyRunning)
    else if fault.TruncateFails? then (f, Error)
    else if fault.WriteFails? then (f.(contents := config[..Min(fault.n, |config|)]), Error)
    else
      var socket := if fault.RemoveFails? then f.socket else None;
      if socket.Some? || fault.BindFails? then (Files(None, config, socket), Error)
      else (Files(Some(id), config, Some(id)), Listening)
  }

  class Disk {
    var holder: Option<Id>
    var contents: Path
    var socket: Option<Id>

    function State(): Files
      reads this
    {
      Files(holder, contents, socket)
    }

    /** Claims the lock, names the config in it, and only then replaces the socket. */
    method Start(id: Id, config: Path, fault: Fault) returns (r: Outcome)
      modifies this
      ensures (State(), r) == Started(old(State()), id, config, fault)
    {
      if fault.LockFails? {
        return Error;
      }
      if holder.Some? {
        return AlreadyRunning;
      }
      holder := Some(id);
      if fault.TruncateFails? {
        holder := None;
        return Error;
      }
      contents := [];
      var written := 0;
      while written < |config|
        invariant written <= |config| && contents == config[..written]
        invariant fault.WriteFails? ==> written <= fault.n
        invariant holder == Some(id) && socket == old(socket)
      {
        if fault.WriteFails? && written == fault.n {
          holder := None;
          return Error;
        }
        contents := contents + [config[written]];
        written := written + 1;
      }
      assert config[..|config|] == config;
      if fault.WriteFails? {
        holder := None;
        return Error;
      }
      if !fault.RemoveFails? {
        socket := None;
      }
      if socket.Some? || fault.BindFails? {
        holder := None;
        return Error;
      }
      socket := Some(id);
      r := Listening;
    }

    /** Dropping the guard: the socket goes before the lock, so a server that is starting cannot lose its new one. */
    method DropGuard()
      modifies this
      ensures State() == Files(None, old(contents), None)
    {
      socket := None;
      holder := None;
    }
  }

  /** The steps of an undisturbed start: up to part of the config written, and the rest. */
  function ClaimSteps(i: Id, n: nat): seq<Step> {
    [TryLock(i), Truncate(i)] + [Write(i, n)]
  }

  function StartSteps(i: Id, config: Path): seq<Step> {
    ClaimSteps(i, |config|) + [WriteDone(i)] + [RemoveOld(i, true)] + [BindSocket(i)]
  }

  /** The world once a server has written part of its config to the lock file. */
  function Claimed(w: World, i: Id, n: nat): World
    requires i < |w.servers| && n <= |w.servers[i].config|
  {
    SetPhase(w, i, Writing(n)).(holder := Some(i), contents := w.servers[i].config[..n])
  }

  lemma ClaimStepsClaim(w: World, i: Id, n: nat)
    requires w.holder.None? && i < |w.servers| && w.servers[i].phase.Idle? && n <= |w.servers[i].config|
    ensures Play(w, ClaimSteps(i, n)) == Claimed(w, i, n)
  {
    ClaimNexts(w, i, n);
    hide Next, Enabled, Claimed;
    PlayThree(w, TryLock(i), Truncate(i), Write(i, n));
  }

  ghost predicate Threefold(w: World, a: Step, b: Step, c: Step, r: World) {
    Enabled(w, a) && Enabled(Next(w, a), b) && Enabled(Next(Next(w, a), b), c) && r == Next(Next(Next(w, a), b), c)
  }

  lemma ClaimNexts(w: World, i: Id, n: nat)
    requires w.holder.None? && i < |w.servers| && w.servers[i].phase.Idle? && n <= |w.servers[i].config|
    ensures Threefold(w, TryLock(i), Truncate(i), Write(i, n), Claimed(w, i, n))
  {
    var s := w.servers[i];
    var w1 := Next(w, TryLock(i));
    assert w1 == World(w.servers[i := s.(phase := Locked)], Some(i), w.contents, w.socket);
    var w2 := Next(w1, Truncate(i));
    assert w2 == World(w.servers[i := s.(phase := Writing(0))], Some(i), [], w.socket);
  }

  lemma PlayThree(w: World, a: Step, b: Step, c: Step)
    requires Enabled(w, a) && Enabled(Next(w, a), b) && Enabled(Next(Next(w, a), b), c)
    ensures Play(w, [a, b] + [c]) == Next(Next(Next(w, a), b), c)
  {
    hide Next, Enabled;
    assert [a, b] == [] + [a] + [b];
    PlayConcat(w, [], a);
    PlayConcat(w, [] + [a], b);
    PlayConcat(w, [a, b], c);
  }

  function FilesOf(w: World): Files { Files(w.holder, w.contents, w.socket) }

  /** What one server's own steps may come to: it listens and holds the lock, or it is gone and does not. */
  ghost predicate EndsAs(w: World, r: World, i: Id, f: Files, outcome: Outcome)
    requires i < |w.servers|
  {
    && FilesOf(r) == f && |r.servers| == |w.servers|
    && (if outcome.Listening? then r.servers[i].phase.Bound? && r.holder == Some(i)
        else r.servers[i].phase.Gone? && r.holder != Some(i))
    && forall j :: 0 <= j < |w.servers| && j != i ==> r.servers[j] == w.servers[j]
  }

  ghost predicate By(steps: seq<Step>, i: Id) {
    forall k :: 0 <= k < |steps| ==> steps[k].i == i
  }

  /**
   * Whatever goes wrong while a server starts, and whoever else is there: what it
   * does to the files is what some of its interleaved steps do, so all that holds
   * of every interleaving holds of it, and unless it listens it ends without the
   * lock.
   */
  lemma StartIsARun(w: World, i: Id, fault: Fault) returns (steps: seq<Step>)
    requires Inv(w) && i < |w.servers| && w.servers[i].phase.Idle?
    ensures By(steps, i)
    ensures var (f, outcome) := Started(FilesOf(w), i, w.servers[i].config, fault);
      EndsAs(w, Play(w, steps), i, f, outcome)
  {
    if fault.LockFails? {
      LockFailsIsARun(w, i);
      steps := [] + [Fails(i)];
    } else if w.holder.Some? {
      RefusedIsARun(w, i, fault);
      steps := [] + [TryLock(i)];
    } else if fault.TruncateFails? {
      TruncateFailsIsARun(w, i);
      steps := [] + [TryLock(i)] + [Fails(i)];
    } else if fault.WriteFails? {
      WriteFailsIsARun(w, i, fault.n);
      steps := ClaimSteps(i, Min(fault.n, |w.servers[i].config|)) + [Fails(i)];
    } else {
      steps := AfterClaim(w, i, fault);
    }
  }

  lemma LockFailsIsARun(w: World, i: Id)
    requires Inv(w) && i < |w.servers| && w.servers[i].phase.Idle?
    ensures var (f, outcome) := Started(FilesOf(w), i, w.servers[i].config, LockFails);
      EndsAs(w, Play(w, [] + [Fails(i)]), i, f, outcome)
  {
    assert Knows(w, i);
    PlayConcat(w, [], Fails(i));
  }

  lemma RefusedIsARun(w: World, i: Id, fault: Fault)
    requires Inv(w) && i < |w.servers| && w.servers[i].phase.Idle? && w.holder.Some? && !fault.LockFails?
    ensures var (f, outcome) := Started(FilesOf(w), i, w.servers[i].config, fault);
      EndsAs(w, Play(w, [] + [TryLock(i)]), i, f, outcome)
  {
    assert Knows(w, i);
    PlayConcat(w, [], TryLock(i));
  }

  lemma TruncateFailsIsARun(w: World, i: Id)
    requires Inv(w) && i < |w.servers| && w.servers[i].phase.Idle? && w.holder.None?
    ensures var (f, outcome) := Started(FilesOf(w), i, w.servers[i].config, TruncateFails);
      EndsAs(w, Play(w, [] + [TryLock(i)] + [Fails(i)]), i, f, outcome)
  {
    PlayConcat(w, [], TryLock(i));
    PlayConcat(w, [] + [TryLock(i)], Fails(i));
  }

  lemma WriteFailsIsARun(w: World, i: Id, n: nat)
    requires Inv(w) && i < |w.servers| && w.servers[i].phase.Idle? && w.holder.None?
    ensures var config := w.servers[i].config; var (f, outcome) := Started(FilesOf(w), i, config, WriteFails(n));
      EndsAs(w, Play(w, ClaimSteps(i, Min(n, |config|)) + [Fails(i)]), i, f, outcome)
  {
    var k := Min(n, |w.servers[i].config|);
    ClaimStepsClaim(w, i, k);
    PlayConcat(w, ClaimSteps(i, k), Fails(i));
    hide Play;
  }

  /** With the config in the lock file: removing the old socket, and binding its own. */
  lemma AfterClaim(w: World, i: Id, fault: Fault) returns (steps: seq<Step>)
    requires Inv(w) && i < |w.servers| && w.servers[i].phase.Idle? && w.holder.None?
    requires fault.NoFault? || fault.RemoveFails? || fault.BindFails?
    ensures By(steps, i)
    ensures var (f, outcome) := Started(FilesOf(w), i, w.servers[i].config, fault);
      EndsAs(w, Play(w, steps), i, f, outcome)
  {
    var config := w.servers[i].config;
    var claim := ClaimSteps(i, |config|);
    var remove := RemoveOld(i, !fault.RemoveFails?);
    var last := if fault.BindFails? then Fails(i) else BindSocket(i);
    ClaimStepsClaim(w, i, |config|);
    assert config[..|config|] == config;
    BindsOrNot(w, Claimed(w, i, |config|), i, fault);
    hide Next, Enabled, Claimed, EndsAs, Started;
    PlayConcat(w, claim, WriteDone(i));
    PlayConcat(w, claim + [WriteDone(i)], remove);
    PlayConcat(w, claim + [WriteDone(i)] + [remove], last);
    hide Play;
    steps := claim + [WriteDone(i)] + [remove] + [last];
  }

  lemma BindsOrNot(w: World, c: World, i: Id, fault: Fault)
    requires Inv(w) && i < |w.servers| && w.servers[i].phase.Idle? && w.holder.None?
    requires fault.NoFault? || fault.RemoveFails? || fault.BindFails?
    requires var config := w.servers[i].config; c == Claimed(w, i, |config|)
    ensures var remove := RemoveOld(i, !fault.RemoveFails?);
      var last := if fault.BindFails? then Fails(i) else BindSocket(i);
      Enabled(c, WriteDone(i)) && Enabled(Next(c, WriteDone(i)), remove)
      && Enabled(Next(Next(c, WriteDone(i)), remove), last)
      && var (f, outcome) := Started(FilesOf(w), i, w.servers[i].config, fault);
         EndsAs(w, Next(Next(Next(c, WriteDone(i)), remove), last), i, f, outcome)
  {
    var s, config := w.servers[i], w.servers[i].config;
    assert config[..|config|] == config;
    assert c == World(w.servers[i := s.(phase := Writing(|config|))], Some(i), config, w.socket);
    var written := Next(c, WriteDone(i));
    assert written == World(w.servers[i := s.(phase := Written)], Some(i), config, w.socket);
    var remove := RemoveOld(i, !fault.RemoveFails?);
    assert Next(written, remove)
      == World(w.servers[i := s.(phase := Cleared(!fault.RemoveFails?))], Some(i), config,
               if fault.RemoveFails? then w.socket else None);
  }

  /** A start that finds another server running does nothing to the files, whatever fails. */
  lemma RunningServerIsLeftAlone(w: World, i: Id, j: Id, fault: Fault)
    requires Inv(w) && i < |w.servers| && j < |w.servers| && w.servers[j].phase.Bound?
    ensures var (f, outcome) := Started(FilesOf(w), i, w.servers[i].config, fault);
      && f == FilesOf(w) && (fault.LockFails? || outcome.AlreadyRunning?)
      && f.holder == Some(j) && f.socket == Some(j) && f.contents == w.servers[j].config
  {
    assert Knows(w, j);
  }

  /** Dropping the guard is a run as well: the socket goes, then the lock. */
  lemma DropIsARun(w: World, i: Id)
    requires Inv(w) && i < |w.servers| && w.servers[i].phase.Bound?
    ensures var r := Play(w, [DropGuard(i)] + [Release(i)]);
      && FilesOf(r) == Files(None, w.contents, None) && |r.servers| == |w.servers|
      && r.servers[i].phase.Gone?
  {
    assert Knows(w, i);
    assert [DropGuard(i)] == [] + [DropGuard(i)];
    PlayConcat(w, [], DropGuard(i));
    PlayConcat(w, [DropGuard(i)], Release(i));
  }

  /**
   * A leftover socket file never blocks a start: in any reachable state in which
   * nobody holds the lock, a server that starts undisturbed ends up bound, as
   * the sequential program says.
   */
  lemma StartReplacesLeftovers(w: World, i: Id)
    requires Inv(w) && w.holder.None? && i < |w.servers| && w.servers[i].phase.Idle?
    ensures var r := Play(w, StartSteps(i, w.servers[i].config));
      var (f, outcome) := Started(Files(w.holder, w.contents, w.socket), i, w.servers[i].config, NoFault);
      && outcome.Listening? && Files(r.holder, r.contents, r.socket) == f
      && Connectable(r) && r.servers[r.socket.value].phase.Bound?
  {
    var config := w.servers[i].config;
    var claim := ClaimSteps(i, |config|);
    ClaimStepsClaim(w, i, |config|);
    assert config[..|config|] == config;
    PlayConcat(w, claim, WriteDone(i));
    PlayConcat(w, claim + [WriteDone(i)], RemoveOld(i, true));
    PlayConcat(w, claim + [WriteDone(i)] + [RemoveOld(i, true)], BindSocket(i));
    hide Play, ClaimSteps;
  }
}
