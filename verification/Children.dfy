/** The child processes behind one process: which have been spawned and not yet been reported to have ended. */
module Children {
  import Process
  import Terminal

  type Proc = Process.Proc
  type Moment = Process.Moment

  /** `live` are the children whose exit has not been handled, numbered as they were spawned; `next` is the next number. */
  datatype Family = Family(live: set<nat>, next: nat)

  /** A spawn shows in a new watcher. */
  function After(f: Family, p: Proc, q: Proc): Family {
    if q.watchers > p.watchers then Family(f.live + {f.next}, f.next + 1) else f
  }

  function Without(f: Family, child: nat): Family { f.(live := f.live - {child}) }

  /** A process that has not ended has exactly its last child, and one that has ended has none. */
  predicate OneChild(p: Proc, f: Family) {
    if p.Live() then f.next > 0 && f.live == {f.next - 1} else f.live == {}
  }

  /** No child is started beside another, and none is forgotten. */
  predicate Tame(p: Proc, q: Proc) {
    if q.watchers > p.watchers then !p.Live() && q.Live() else p.Live() == q.Live()
  }

  lemma TameIff(p: Proc, q: Proc, f: Family)
    requires OneChild(p, f)
    ensures OneChild(q, After(f, p, q)) <==> Tame(p, q)
  {
    var g := After(f, p, q);
    if q.watchers > p.watchers {
      assert f.next in g.live;
      if p.Live() { assert f.next - 1 in g.live; }
    } else if p.Live() {
      assert f.next - 1 in f.live;
    }
  }

  /** Of what keeps a process, only a start of a stopping one is not tame, whether the spawn works or not. */
  lemma KeptIsTameIff(p: Proc, q: Proc, now: nat, forced: bool)
    requires Process.Kept(p, q, now, forced)
    ensures Tame(p, q) <==> (Process.Quiet(p, q) || !p.life.Stopping?)
  {}

  lemma StartIsTameIff(p: Proc, e: Process.Emulator, m: Moment)
    ensures Tame(p, p.Start(e, m)) <==> !p.life.Stopping?
  {
    hide Terminal.Term.Banner;
  }

  // ------------------------------------------------------------ a process on its own

  /** What happens to a process and its children. An exit names a child, which the process does not look at. */
  datatype Deed =
    | Start(m: Moment)
    | Stop
    | Restart(m: Moment)
    | Exit(child: nat, status: Process.Status, m: Moment)

  predicate Enabled(f: Family, deed: Deed) {
    deed.Exit? ==> deed.child in f.live
  }

  function Done(p: Proc, deed: Deed, e: Process.Emulator): Proc {
    match deed
    case Start(m) => p.Start(e, m)
    case Stop => p.Stop()
    case Restart(m) => (var (q, now) := p.Restart(); if now then q.Start(e, m) else q)
    case Exit(_, status, m) => p.Exited(e, status, m)
  }

  function FamilyAfter(p: Proc, f: Family, deed: Deed, e: Process.Emulator): Family {
    After(if deed.Exit? then Without(f, deed.child) else f, p, Done(p, deed, e))
  }

  /** There is one child at a time, and it is the one the process knows, exactly as long as no stopping process is started. */
  lemma OneChildIff(p: Proc, f: Family, deed: Deed, e: Process.Emulator)
    requires OneChild(p, f) && Enabled(f, deed)
    ensures OneChild(Done(p, deed, e), FamilyAfter(p, f, deed, e)) <==> !(deed.Start? && p.life.Stopping?)
  {
    hide Process.Proc.Start, Process.Proc.Exited;
    match deed
    case Start(m) =>
      StartIsTameIff(p, e, m);
      TameIff(p, p.Start(e, m), f);
    case Stop => TameIff(p, p.Stop(), f);
    case Restart(m) =>
      StartIsTameIff(p, e, m);
      TameIff(p, Done(p, deed, e), f);
    case Exit(child, status, m) => ExitKeepsOneChild(p, f, child, e, status, m);
  }

  lemma ExitKeepsOneChild(p: Proc, f: Family, child: nat, e: Process.Emulator, status: Process.Status, m: Moment)
    requires OneChild(p, f) && child in f.live
    ensures var q := p.Exited(e, status, m); OneChild(q, After(Without(f, child), p, q))
  {
    assert Without(f, child).live == {};
    var (ended, again) := p.HandleExit(status, m.now);
    StartIsTameIff(ended, e, m);
    TameIff(ended, p.Exited(e, status, m), Without(f, child));
  }
}
