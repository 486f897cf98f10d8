/**
 * Routing generations across reloads: leases on a generation, its retirement
 * and its one cleanup, the published pointer that acceptors recheck, and the
 * bound on generations still draining.
 */
module Generations {
  import opened Sets

  const MAX_RETIRED := 8

  /** `retiring`: the first retire call is between its two critical sections. */
  datatype Gen = Gen(id: nat, retired: bool, retiring: bool, stopped: bool, refs: int, triggered: nat, done: bool)

  function Born(id: nat): Gen
  {
    Gen(id, false, false, false, 0, 0, false)
  }

  // ---------------------------------------------------- one generation's gate

  function TryAcquire(g: Gen): (Gen, bool)
  {
    if g.retired then (g, false) else (g.(refs := g.refs + 1), true)
  }

  function Trigger(g: Gen, cleanup: bool): Gen
  {
    if cleanup then g.(triggered := g.triggered + 1) else g
  }

  function Release(g: Gen): Gen
  {
    var less := g.(refs := if g.refs > 0 then g.refs - 1 else g.refs);
    Trigger(less, less.retired && less.stopped && less.refs == 0)
  }

  function RetireBegin(g: Gen): Gen
  {
    if g.retired then g else g.(retired := true, retiring := true)
  }

  function RetireEnd(g: Gen): Gen
  {
    if !g.retiring then g else Trigger(g.(stopped := true, retiring := false), g.refs == 0)
  }

  /** Cleanup runs once however often it is called. */
  function Cleanup(g: Gen): Gen
  {
    if g.triggered > 0 then g.(done := true) else g
  }

  class RoutingGeneration {
    const id: nat
    var retired: bool
    var retiring: bool
    var backgroundStopped: bool
    var refs: int
    var triggered: nat
    var done: bool

    ghost function View(): Gen
      reads this
    {
      Gen(id, retired, retiring, backgroundStopped, refs, triggered, done)
    }

    constructor (id: nat)
      ensures View() == Born(id)
    {
      this.id := id;
      retired, retiring, backgroundStopped, refs, triggered, done := false, false, false, 0, 0, false;
    }

    method TryAcquireLease() returns (ok: bool)
      modifies this`refs
      ensures (View(), ok) == TryAcquire(old(View()))
    {
      if retired {
        return false;
      }
      refs := refs + 1;
      ok := true;
    }

    method ReleaseLease() returns (cleanup: bool)
      modifies this`refs, this`triggered
      ensures View() == Release(old(View())) && cleanup == (triggered != old(triggered))
    {
      if refs > 0 {
        refs := refs - 1;
      }
      cleanup := retired && backgroundStopped && refs == 0;
      if cleanup {
        triggered := triggered + 1;
      }
    }

    /** The first critical section of retire; only its first caller goes on. */
    method BeginRetire() returns (first: bool)
      modifies this`retired, this`retiring
      ensures View() == RetireBegin(old(View())) && first == !old(retired)
    {
      if retired {
        return false;
      }
      retired, retiring := true, true;
      first := true;
    }

    /** The second one, after the background work has stopped. */
    method FinishRetire() returns (cleanup: bool)
      requires retiring
      modifies this`backgroundStopped, this`retiring, this`triggered
      ensures View() == RetireEnd(old(View())) && cleanup == (triggered != old(triggered))
    {
      backgroundStopped, retiring := true, false;
      cleanup := refs == 0;
      if cleanup {
        triggered := triggered + 1;
      }
    }
  }

  // --------------------------------------------------------------- the server

  /** Where a thread stands in acquireBinding, and afterwards. */
  datatype Phase =
    | Idle
    | Loaded(h: nat)
    | Acquired(h: nat)
    | Holding(h: nat)
    | Dropping(h: nat)

  /** Where the one reload that may be under way stands. */
  datatype Reload =
    | Quiescent
    | Prepared(from: nat, next: nat)
    | Staging(from: nat, next: nat)
    | Retiring(from: nat)

  /**
   * Generations are named by handles; `tracked` maps generation ids to retired
   * generations still draining, and `published` remembers every generation that
   * was ever current.
   */
  datatype Server = Server(
    gens: map<nat, Gen>, current: nat, closed: bool, tracked: map<nat, nat>, threads: map<nat, Phase>, reload: Reload,
    published: set<nat>)

  const START := Server(map[0 := Born(1)], 0, false, map[], map[], Quiescent, {0})

  function PhaseOf(s: Server, t: nat): Phase
  {
    if t in s.threads then s.threads[t] else Idle
  }

  datatype Event =
    | Load(t: nat, bound: bool)
    | Try(t: nat)
    | Recheck(t: nat)
    | Drop(t: nat)
    | FinishRetiring(h: nat)
    | Clean(h: nat)
    | Watch(id: nat)
    | Prune
    | Prepare(h: nat)
    | CheckBound
    | Abort
    | Commit
    | RetireOld
    | Close
    | RetireCurrent

  predicate Leased(p: Phase, h: nat)
  {
    !p.Idle? && !p.Loaded? && p.h == h
  }

  predicate Enabled(s: Server, e: Event)
  {
    match e
    case Load(t, _) => PhaseOf(s, t).Idle?
    case Try(t) => PhaseOf(s, t).Loaded? && PhaseOf(s, t).h in s.gens
    case Recheck(t) => PhaseOf(s, t).Acquired?
    case Drop(t) => (PhaseOf(s, t).Holding? || PhaseOf(s, t).Dropping?) && PhaseOf(s, t).h in s.gens
    case FinishRetiring(h) => h in s.gens && s.gens[h].retiring
    case Clean(h) => h in s.gens && s.gens[h].triggered > 0
    case Watch(id) => id in s.tracked && s.tracked[id] in s.gens && s.gens[s.tracked[id]].done
    case Prune => true
    case Prepare(h) => s.reload.Quiescent? && h !in s.gens && s.current in s.gens
    case CheckBound => s.reload.Prepared? && s.reload.next in s.gens
    case Abort => (s.reload.Prepared? || s.reload.Staging?) && s.reload.next in s.gens
    case Commit => s.reload.Staging? && !s.closed && s.current == s.reload.from && s.reload.from in s.gens
    case RetireOld => s.reload.Retiring? && s.reload.from in s.gens
    case Close => true
    case RetireCurrent => s.closed && s.current in s.gens
  }

  function Update(s: Server, h: nat, g: Gen): Server
  {
    s.(gens := s.gens[h := g])
  }

  /** The retired generations whose cleanup has not finished. */
  function Draining(s: Server): map<nat, nat>
  {
    map id | id in s.tracked && !(s.tracked[id] in s.gens && s.gens[s.tracked[id]].done) :: s.tracked[id]
  }

  /** The loop behind the count of draining generations: it forgets those whose cleanup has finished. */
  method PruneCompletedRetired(s: Server) returns (tracked: map<nat, nat>)
    ensures tracked == Draining(s)
  {
    tracked := s.tracked;
    var todo := s.tracked.Keys;
    while todo != {}
      invariant todo <= s.tracked.Keys
      invariant tracked == map id | id in s.tracked &&
        (id in todo || !(s.tracked[id] in s.gens && s.gens[s.tracked[id]].done)) :: s.tracked[id]
      decreases |todo|
    {
      var id :| id in todo;
      todo := todo - {id};
      if s.tracked[id] in s.gens && s.gens[s.tracked[id]].done {
        tracked := tracked - {id};
      }
    }
  }

  function Next(s: Server, e: Event): Server
  {
    if Enabled(s, e) then Step(s, e) else s
  }

  function Step(s: Server, e: Event): Server
    requires Enabled(s, e)
  {
    match e
    case Load(t, bound) => s.(threads := s.threads[t := if bound then Loaded(s.current) else Idle])
    case Try(t) =>
      var h := PhaseOf(s, t).h;
      var (g, ok) := TryAcquire(s.gens[h]);
      Update(s, h, g).(threads := s.threads[t := if ok then Acquired(h) else Idle])
    case Recheck(t) =>
      var h := PhaseOf(s, t).h;
      s.(threads := s.threads[t := if s.current == h then Holding(h) else Dropping(h)])
    case Drop(t) =>
      var h := PhaseOf(s, t).h;
      Update(s, h, Release(s.gens[h])).(threads := s.threads[t := Idle])
    case FinishRetiring(h) => Update(s, h, RetireEnd(s.gens[h]))
    case Clean(h) => Update(s, h, Cleanup(s.gens[h]))
    case Watch(id) => s.(tracked := s.tracked - {id})
    case Prune => s.(tracked := Draining(s))
    case Prepare(h) => Update(s, h, Born(s.gens[s.current].id + 1)).(reload := Prepared(s.current, h))
    case CheckBound =>
      var pruned := s.(tracked := Draining(s));
      if |pruned.tracked| >= MAX_RETIRED then
        Update(pruned, s.reload.next, RetireBegin(s.gens[s.reload.next])).(reload := Quiescent)
      else pruned.(reload := Staging(s.reload.from, s.reload.next))
    case Abort => Update(s, s.reload.next, RetireBegin(s.gens[s.reload.next])).(reload := Quiescent)
    case Commit =>
      s.(current := s.reload.next, tracked := s.tracked[s.gens[s.reload.from].id := s.reload.from],
         reload := Retiring(s.reload.from), published := s.published + {s.reload.next})
    case RetireOld => Update(s, s.reload.from, RetireBegin(s.gens[s.reload.from])).(reload := Quiescent)
    case Close => s.(closed := true)
    case RetireCurrent => Update(s, s.current, RetireBegin(s.gens[s.current]))
  }

  ghost predicate Legal(s: Server, run: seq<Event>)
  {
    run == [] || (Legal(s, run[..|run| - 1]) && Enabled(After(s, run[..|run| - 1]), run[|run| - 1]))
  }

  function After(s: Server, run: seq<Event>): Server
  {
    if run == [] then s else Next(After(s, run[..|run| - 1]), run[|run| - 1])
  }

  // ------------------------------------------------------------- invariants

  ghost function Leases(threads: map<nat, Phase>, h: nat): set<nat>
  {
    set t | t in threads && Leased(threads[t], h)
  }

  /** Cleanup is triggered exactly when retirement is complete and the last lease is gone. */
  predicate GateSound(g: Gen)
  {
    && g.refs >= 0
    && g.triggered == (if g.retired && g.stopped && g.refs == 0 then 1 else 0)
    && (g.retired <==> g.retiring || g.stopped) && !(g.retiring && g.stopped)
    && (g.done ==> g.triggered == 1)
  }

  ghost predicate Counted(s: Server)
  {
    forall h :: h in s.gens ==> GateSound(s.gens[h]) && s.gens[h].refs == |Leases(s.threads, h)|
  }

  ghost predicate Rooted(s: Server)
  {
    && s.current in s.gens && (!s.closed ==> !s.gens[s.current].retired)
    && (forall t :: t in s.threads && !s.threads[t].Idle? ==> s.threads[t].h in s.gens)
  }

  ghost predicate Reloading(s: Server)
  {
    match s.reload
    case Quiescent => true
    case Retiring(from) => from in s.gens && s.current in s.gens && from != s.current && s.gens[from].id < s.gens[s.current].id
    case Prepared(from, next) => from == s.current && Upcoming(s, from, next)
    case Staging(from, next) => from == s.current && Upcoming(s, from, next) && |s.tracked| < MAX_RETIRED
  }

  ghost predicate Upcoming(s: Server, from: nat, next: nat)
  {
    && from in s.gens && next in s.gens && next != from && !s.gens[next].retired
    && s.gens[next].id == s.gens[from].id + 1
  }

  /** What is tracked was published before, is retired or about to be, and is never more than eight. */
  ghost predicate Tracked(s: Server)
  {
    && |s.tracked| <= MAX_RETIRED
    && forall id :: id in s.tracked ==>
         && s.tracked[id] in s.gens && s.gens[s.tracked[id]].id == id
         && s.current in s.gens && id < s.gens[s.current].id
         && (s.gens[s.tracked[id]].retired || s.reload == Retiring(s.tracked[id]))
  }

  ghost predicate Inv(s: Server)
  {
    Counted(s) && Rooted(s) && Reloading(s) && Tracked(s)
  }

  // --------------------------------------------------- what each step keeps

  lemma LeaseAdded(threads: map<nat, Phase>, t: nat, p: Phase, h: nat)
    requires Leased(p, h) && (t in threads ==> !Leased(threads[t], h))
    ensures |Leases(threads[t := p], h)| == |Leases(threads, h)| + 1
  {
    assert Leases(threads[t := p], h) == Leases(threads, h) + {t};
  }

  lemma LeaseRemoved(threads: map<nat, Phase>, t: nat, p: Phase, h: nat)
    requires !Leased(p, h) && t in threads && Leased(threads[t], h)
    ensures |Leases(threads, h)| > 0 && |Leases(threads[t := p], h)| == |Leases(threads, h)| - 1
  {
    assert t in Leases(threads, h);
    assert Leases(threads[t := p], h) == Leases(threads, h) - {t};
  }

  lemma LeaseUnchanged(threads: map<nat, Phase>, t: nat, p: Phase, h: nat)
    requires Leased(p, h) <==> t in threads && Leased(threads[t], h)
    ensures Leases(threads[t := p], h) == Leases(threads, h)
  {
  }

  lemma ReleaseKeepsGate(g: Gen)
    requires GateSound(g) && g.refs > 0
    ensures GateSound(Release(g)) && Release(g).refs == g.refs - 1 && Release(g).id == g.id && Release(g).retired == g.retired
  {
  }

  lemma GateSteps(g: Gen)
    requires GateSound(g)
    ensures GateSound(TryAcquire(g).0) && TryAcquire(g).0.id == g.id && TryAcquire(g).0.retired == g.retired
    ensures TryAcquire(g).0.refs == g.refs + (if TryAcquire(g).1 then 1 else 0)
    ensures GateSound(RetireBegin(g)) && RetireBegin(g).refs == g.refs && RetireBegin(g).id == g.id && RetireBegin(g).retired
    ensures GateSound(RetireEnd(g)) && RetireEnd(g).refs == g.refs && RetireEnd(g).id == g.id && RetireEnd(g).retired == g.retired
    ensures GateSound(Cleanup(g)) && Cleanup(g).refs == g.refs && Cleanup(g).id == g.id && Cleanup(g).retired == g.retired
  {
  }

  lemma TryKeepsCounted(s: Server, t: nat)
    requires Counted(s) && Enabled(s, Try(t))
    ensures Counted(Next(s, Try(t)))
  {
    hide Leases, GateSound, TryAcquire;
    var r, h := Next(s, Try(t)), PhaseOf(s, t).h;
    GateSteps(s.gens[h]);
    forall k | k in r.gens ensures GateSound(r.gens[k]) && r.gens[k].refs == |Leases(r.threads, k)| {
      if k == h && TryAcquire(s.gens[h]).1 {
        LeaseAdded(s.threads, t, Acquired(h), h);
      } else {
        LeaseUnchanged(s.threads, t, r.threads[t], k);
      }
    }
  }

  lemma DropKeepsCounted(s: Server, t: nat)
    requires Counted(s) && Enabled(s, Drop(t))
    ensures Counted(Next(s, Drop(t)))
  {
    hide Leases, GateSound, Release;
    var r, h := Next(s, Drop(t)), PhaseOf(s, t).h;
    LeaseRemoved(s.threads, t, Idle, h);
    ReleaseKeepsGate(s.gens[h]);
    forall k | k in r.gens ensures GateSound(r.gens[k]) && r.gens[k].refs == |Leases(r.threads, k)| {
      if k != h {
        LeaseUnchanged(s.threads, t, Idle, k);
      }
    }
  }

  lemma WalkKeepsCounted(s: Server, t: nat, p: Phase)
    requires Counted(s)
    requires forall h :: Leased(p, h) <==> t in s.threads && Leased(s.threads[t], h)
    ensures Counted(s.(threads := s.threads[t := p]))
  {
    hide Leases, GateSound;
    forall h | h in s.gens ensures s.gens[h].refs == |Leases(s.threads[t := p], h)| {
      LeaseUnchanged(s.threads, t, p, h);
    }
  }

  lemma GateKeepsCounted(s: Server, h: nat, g: Gen)
    requires Counted(s) && h in s.gens && GateSound(g) && g.refs == s.gens[h].refs
    ensures Counted(Update(s, h, g))
  {
  }

  /** A new generation has no leases: no thread can name it yet. */
  lemma BirthKeepsCounted(s: Server, h: nat, id: nat)
    requires Counted(s) && Rooted(s) && h !in s.gens
    ensures Counted(Update(s, h, Born(id)))
  {
    assert Leases(s.threads, h) == {};
  }

  lemma StepKeepsCounted(s: Server, e: Event)
    requires Inv(s) && Enabled(s, e)
    ensures Counted(Next(s, e))
  {
    hide GateSound, Leases, Reloading, Tracked, Release, RetireBegin, RetireEnd, Cleanup;
    match e
    case Try(t) => TryKeepsCounted(s, t);
    case Drop(t) => DropKeepsCounted(s, t);
    case Load(t, bound) => WalkKeepsCounted(s, t, if bound then Loaded(s.current) else Idle);
    case Recheck(t) => WalkKeepsCounted(s, t, Next(s, e).threads[t]);
    case FinishRetiring(h) =>
      GateSteps(s.gens[h]);
      GateKeepsCounted(s, h, RetireEnd(s.gens[h]));
    case Clean(h) =>
      GateSteps(s.gens[h]);
      GateKeepsCounted(s, h, Cleanup(s.gens[h]));
    case Prepare(h) => BirthKeepsCounted(s, h, s.gens[s.current].id + 1);
    case CheckBound =>
      GateSteps(s.gens[s.reload.next]);
      GateKeepsCounted(s, s.reload.next, RetireBegin(s.gens[s.reload.next]));
    case Abort =>
      GateSteps(s.gens[s.reload.next]);
      GateKeepsCounted(s, s.reload.next, RetireBegin(s.gens[s.reload.next]));
    case RetireOld =>
      GateSteps(s.gens[s.reload.from]);
      GateKeepsCounted(s, s.reload.from, RetireBegin(s.gens[s.reload.from]));
    case RetireCurrent =>
      GateSteps(s.gens[s.current]);
      GateKeepsCounted(s, s.current, RetireBegin(s.gens[s.current]));
    case _ =>
  }

  lemma StepKeepsRooted(s: Server, e: Event)
    requires Inv(s) && Enabled(s, e)
    ensures Rooted(Next(s, e))
  {
    hide GateSound, Leases, Tracked, Counted;
  }

  /** Generations are never forgotten, keep their id, and stay retired once they are. */
  ghost predicate Extends(was: Server, s: Server)
  {
    forall h :: h in was.gens ==>
      h in s.gens && s.gens[h].id == was.gens[h].id && (was.gens[h].retired ==> s.gens[h].retired)
  }

  lemma StepExtends(s: Server, e: Event)
    requires Inv(s) && Enabled(s, e)
    ensures Extends(s, Next(s, e))
  {
    hide Leases, Rooted, Reloading, Tracked;
  }

  lemma ReloadingCarries(s: Server, r: Server)
    requires Reloading(s) && Extends(s, r) && r.reload == s.reload && r.current == s.current
    requires |r.tracked| <= |s.tracked|
    requires s.reload.Prepared? || s.reload.Staging? ==>
      s.reload.next in s.gens && s.reload.next in r.gens && r.gens[s.reload.next].retired == s.gens[s.reload.next].retired
    ensures Reloading(r)
  {
  }

  predicate Drives(e: Event)
  {
    e.Prepare? || e.CheckBound? || e.Abort? || e.Commit? || e.RetireOld?
  }

  /** Steps outside the reload leave its state, the pointer and the upcoming generation's gate alone. */
  lemma OutsideReload(s: Server, e: Event)
    requires Reloading(s) && Enabled(s, e) && !Drives(e)
    ensures Next(s, e).reload == s.reload && Next(s, e).current == s.current
    ensures s.reload.Prepared? || s.reload.Staging? ==>
      s.reload.next in s.gens && s.reload.next in Next(s, e).gens
        && Next(s, e).gens[s.reload.next].retired == s.gens[s.reload.next].retired
  {
    hide Draining;
  }

  lemma TrackedShrinks(s: Server, e: Event)
    requires Enabled(s, e) && !e.Commit?
    ensures |Next(s, e).tracked| <= |s.tracked|
    ensures forall id :: id in Next(s, e).tracked ==> id in s.tracked && Next(s, e).tracked[id] == s.tracked[id]
  {
    hide Draining, TryAcquire, Release, RetireBegin, RetireEnd, Cleanup;
    FewerDraining(s);
    if e.Watch? {
      OneFewer(s.tracked, e.id);
    }
  }

  lemma DrivenKeepsReloading(s: Server, e: Event)
    requires Inv(s) && Enabled(s, e) && Drives(e)
    ensures Reloading(Next(s, e))
  {
    hide Leases, Counted, Rooted, Draining, Tracked, GateSound, RetireBegin;
    RootedCurrent(s);
    if e.CheckBound? {
      FewerDraining(s);
    }
  }

  lemma StepKeepsReloading(s: Server, e: Event)
    requires Inv(s) && Enabled(s, e)
    ensures Reloading(Next(s, e))
  {
    if Drives(e) {
      DrivenKeepsReloading(s, e);
    } else {
      StepExtends(s, e);
      OutsideReload(s, e);
      TrackedShrinks(s, e);
      hide Next, Counted, Rooted, Tracked, Reloading, Extends;
      ReloadingCarries(s, Next(s, e));
    }
  }

  lemma RootedCurrent(s: Server)
    requires Rooted(s)
    ensures s.current in s.gens
  {
  }

  lemma OneFewer(m: map<nat, nat>, id: nat)
    requires id in m
    ensures |m - {id}| == |m| - 1
  {
    assert (m - {id}).Keys == m.Keys - {id};
    assert |(m - {id}).Keys| == |m - {id}| && |m.Keys| == |m|;
  }

  lemma FewerDraining(s: Server)
    ensures |Draining(s)| <= |s.tracked|
    ensures forall id :: id in Draining(s) ==> id in s.tracked && Draining(s)[id] == s.tracked[id]
  {
    var d := Draining(s);
    assert d.Keys <= s.tracked.Keys;
    SubsetSize(d.Keys, s.tracked.Keys);
    assert |d.Keys| == |d| && |s.tracked.Keys| == |s.tracked|;
  }

  lemma CommitTracks(tracked: map<nat, nat>, id: nat, h: nat)
    requires id !in tracked
    ensures |tracked[id := h]| == |tracked| + 1
  {
    var more := tracked[id := h];
    assert more.Keys == tracked.Keys + {id};
    assert |more.Keys| == |more| && |tracked.Keys| == |tracked|;
  }

  lemma TrackedCarries(s: Server, r: Server)
    requires Tracked(s) && Extends(s, r) && r.current == s.current && |r.tracked| <= |s.tracked|
    requires forall id :: id in r.tracked ==> id in s.tracked && r.tracked[id] == s.tracked[id]
    requires s.reload.Retiring? && r.reload != s.reload ==> s.reload.from in r.gens && r.gens[s.reload.from].retired
    ensures Tracked(r)
  {
  }

  lemma CommitKeepsTracked(s: Server)
    requires Inv(s) && Enabled(s, Commit)
    ensures Tracked(Next(s, Commit))
  {
    hide GateSound, Leases, Counted;
    assert s.gens[s.reload.from].id !in s.tracked;
    CommitTracks(s.tracked, s.gens[s.reload.from].id, s.reload.from);
  }

  lemma RetiringEndsRetired(s: Server, e: Event)
    requires Reloading(s) && Enabled(s, e) && !e.Commit?
    ensures Next(s, e).current == s.current
    ensures s.reload.Retiring? && Next(s, e).reload != s.reload ==>
      s.reload.from in Next(s, e).gens && Next(s, e).gens[s.reload.from].retired
  {
    hide Draining, TryAcquire, Release, RetireEnd, Cleanup;
  }

  lemma StepKeepsTracked(s: Server, e: Event)
    requires Inv(s) && Enabled(s, e)
    ensures Tracked(Next(s, e))
  {
    if e.Commit? {
      CommitKeepsTracked(s);
    } else {
      StepExtends(s, e);
      TrackedShrinks(s, e);
      RetiringEndsRetired(s, e);
      hide Next, Counted, Rooted, Tracked, Reloading, Extends;
      TrackedCarries(s, Next(s, e));
    }
  }

  lemma StepKeepsInv(s: Server, e: Event)
    requires Inv(s) && Enabled(s, e)
    ensures Inv(Next(s, e))
  {
    StepKeepsCounted(s, e);
    StepKeepsRooted(s, e);
    StepKeepsReloading(s, e);
    StepKeepsTracked(s, e);
  }

  lemma {:induction false} RunKeepsInv(run: seq<Event>)
    requires Legal(START, run)
    ensures Inv(After(START, run))
  {
    if run == [] {
      assert Leases(map[], 0) == {};
    } else {
      RunKeepsInv(run[..|run| - 1]);
      StepKeepsInv(After(START, run[..|run| - 1]), run[|run| - 1]);
    }
  }

  // ----------------------------------------------------------------- theorems

  /**
   * In every reachable state a generation's reference count is the number of
   * threads holding a lease on it, and its cleanup has been triggered exactly
   * once if it is retired, its background work has stopped and no lease is
   * left, and not at all otherwise: never early, never twice, never missed.
   */
  lemma CleanupExactlyOnce(run: seq<Event>, h: nat)
    requires Legal(START, run) && h in After(START, run).gens
    ensures var s := After(START, run);
      var g := s.gens[h];
      && g.refs == |Leases(s.threads, h)|
      && g.triggered <= 1
      && (g.triggered == 1 <==> g.retired && !g.retiring && Leases(s.threads, h) == {})
      && (g.done ==> g.triggered == 1)
  {
    RunKeepsInv(run);
    var s := After(START, run);
    assert GateSound(s.gens[h]);
  }

  /** Whoever holds a lease holds a generation that has not been cleaned up, until the lease is dropped. */
  lemma LeasedGenerationsStayUp(run: seq<Event>, t: nat)
    requires Legal(START, run)
    ensures var s := After(START, run);
      var p := PhaseOf(s, t);
      p.Acquired? || p.Holding? || p.Dropping? ==> p.h in s.gens && !s.gens[p.h].done && s.gens[p.h].triggered == 0
  {
    RunKeepsInv(run);
    var s := After(START, run);
    var p := PhaseOf(s, t);
    if p.Acquired? || p.Holding? || p.Dropping? {
      assert t in Leases(s.threads, p.h);
      assert GateSound(s.gens[p.h]);
    }
  }

  /**
   * A thread comes to hold a binding only by finding its generation still
   * published at the recheck, with its lease already counted; before a shutdown
   * such a generation is not retired.
   */
  lemma BindingIsPublishedAtRecheck(run: seq<Event>, e: Event, t: nat)
    requires Legal(START, run) && Enabled(After(START, run), e)
    requires !PhaseOf(After(START, run), t).Holding? && PhaseOf(Next(After(START, run), e), t).Holding?
    ensures var s := After(START, run);
      var h := PhaseOf(Next(s, e), t).h;
      && e == Recheck(t) && h == s.current && h in s.gens && s.gens[h].refs >= 1 && !s.gens[h].done
      && (!s.closed ==> !s.gens[h].retired)
  {
    RunKeepsInv(run);
    var s := After(START, run);
    LeasedGenerationsStayUp(run, t);
    assert t in Leases(s.threads, PhaseOf(s, t).h);
    assert Rooted(s);
  }

  /** At most eight retired generations are tracked, each of them published earlier, under its own id. */
  lemma RetiredAreBounded(run: seq<Event>)
    requires Legal(START, run)
    ensures var s := After(START, run);
      && |s.tracked| <= 8
      && forall id :: id in s.tracked ==>
           s.tracked[id] in s.gens && s.gens[s.tracked[id]].id == id && s.tracked[id] != s.current
  {
    RunKeepsInv(run);
  }

  lemma StepRaisesId(s: Server, e: Event)
    requires Inv(s) && Enabled(s, e)
    ensures s.current in s.gens && Next(s, e).current in Next(s, e).gens
    ensures s.gens[s.current].id <= Next(s, e).gens[Next(s, e).current].id
    ensures Next(s, e).current != s.current ==> s.gens[s.current].id < Next(s, e).gens[Next(s, e).current].id
  {
    hide Leases, Counted, Tracked;
    StepExtends(s, e);
    StepKeepsRooted(s, e);
  }

  /** Published generation ids only grow: once replaced, a generation is never published again. */
  lemma {:induction false} PublishedIdsGrow(run: seq<Event>, n: nat)
    requires Legal(START, run) && n <= |run| && Legal(START, run[..n])
    ensures var was, s := After(START, run[..n]), After(START, run);
      && was.current in was.gens && s.current in s.gens
      && was.gens[was.current].id <= s.gens[s.current].id
  {
    hide Next, Inv;
    if n == |run| {
      assert run[..n] == run;
      RunKeepsInv(run);
      InvCurrent(After(START, run));
    } else {
      var prior := run[..|run| - 1];
      assert prior[..n] == run[..n];
      PublishedIdsGrow(prior, n);
      RunKeepsInv(prior);
      StepRaisesId(After(START, prior), run[|run| - 1]);
    }
  }

  lemma InvCurrent(s: Server)
    requires Inv(s)
    ensures s.current in s.gens
  {
  }

  // ----------------------------------------------- exactly who is still draining

  /** Generations that were replaced and whose cleanup has not finished. */
  ghost function Replaced(s: Server): set<nat>
  {
    set h | h in s.published && h != s.current && !(h in s.gens && s.gens[h].done)
  }

  /** Everything replaced and unfinished is tracked, under its id. */
  ghost predicate Remembered(s: Server)
  {
    && s.current in s.published
    && (forall h :: h in s.published ==> h in s.gens)
    && (forall h :: h in Replaced(s) ==> s.gens[h].id in s.tracked && s.tracked[s.gens[h].id] == h)
    && (forall id :: id in s.tracked ==> s.tracked[id] in s.published)
  }

  lemma StepKeepsMemory(s: Server, e: Event)
    requires Inv(s) && Remembered(s) && Enabled(s, e)
    ensures Remembered(Next(s, e))
  {
    if e.Commit? {
      CommitKeepsMemory(s);
    } else {
      StepExtends(s, e);
      TrackedShrinks(s, e);
      OnlyDoneForgotten(s, e);
      hide Inv, Next, Enabled, Extends;
    }
  }

  lemma CommitKeepsMemory(s: Server)
    requires Inv(s) && Remembered(s) && Enabled(s, Commit)
    ensures Remembered(Next(s, Commit))
  {
    hide Counted;
  }

  lemma OnlyDoneForgotten(s: Server, e: Event)
    requires Inv(s) && Remembered(s) && Enabled(s, e) && !e.Commit?
    ensures
      var r := Next(s, e);
      && r.published == s.published && r.current == s.current
      && (forall h :: h in s.published ==> h in r.gens)
      && (forall h :: h in Replaced(r) ==> h in Replaced(s) && r.gens[h].id == s.gens[h].id && s.gens[h].id in r.tracked
                                           && r.tracked[s.gens[h].id] == h)
  {
    hide Leases, Reloading, Counted;
    var r := Next(s, e);
    StepExtends(s, e);
    DoneStays(s, e);
    hide TryAcquire, Release, RetireBegin, RetireEnd, Cleanup;
    TrackedLosesOnlyDone(s, e);
    hide Step, Extends;
  }

  lemma DoneStays(s: Server, e: Event)
    requires Enabled(s, e)
    ensures forall h :: h in s.gens && s.gens[h].done ==> h in Next(s, e).gens && Next(s, e).gens[h].done
  {
  }

  lemma TrackedLosesOnlyDone(s: Server, e: Event)
    requires Enabled(s, e) && !e.Commit?
    ensures forall id :: id in s.tracked && !(s.tracked[id] in s.gens && s.gens[s.tracked[id]].done) ==>
      id in Next(s, e).tracked && Next(s, e).tracked[id] == s.tracked[id]
    ensures Next(s, e).current == s.current && Next(s, e).published == s.published
  {
    hide TryAcquire, Release, RetireBegin, RetireEnd, Cleanup;
  }

  lemma {:induction false} RunRemembers(run: seq<Event>)
    requires Legal(START, run)
    ensures Inv(After(START, run)) && Remembered(After(START, run))
  {
    hide Inv, Next, Remembered, Enabled;
    RunKeepsInv(run);
    if run == [] {
      StartRemembers();
    } else {
      RunRemembers(run[..|run| - 1]);
      StepKeepsMemory(After(START, run[..|run| - 1]), run[|run| - 1]);
    }
  }

  lemma StartRemembers()
    ensures Remembered(START)
  {
  }

  lemma {:induction false} SameSize(m: map<nat, nat>, keys: set<nat>, values: set<nat>)
    requires keys <= m.Keys && (forall h :: h in values <==> exists k :: k in keys && m[k] == h)
    requires forall j, k :: j in keys && k in keys && j != k ==> m[j] != m[k]
    ensures |keys| == |values|
    decreases keys
  {
    if keys == {} {
      assert values == {};
    } else {
      var k :| k in keys;
      assert m[k] in values;
      SameSize(m, keys - {k}, values - {m[k]});
    }
  }

  lemma DrainingAreReplaced(s: Server)
    requires Inv(s) && Remembered(s)
    ensures |Draining(s)| == |Replaced(s)|
  {
    hide Counted, Reloading, Rooted;
    var d := Draining(s);
    forall h ensures h in Replaced(s) <==> exists k :: k in d.Keys && d[k] == h {
      if h in Replaced(s) {
        assert d[s.gens[h].id] == h;
      }
    }
    SameSize(d, d.Keys, Replaced(s));
    assert |d.Keys| == |d|;
  }

  /**
   * Every replaced generation stays tracked until its cleanup has finished, in
   * every run, and a reload is turned away exactly when eight are unfinished;
   * the generation it had prepared is then retired.
   */
  lemma ReloadBoundExactly(run: seq<Event>)
    requires Legal(START, run)
    ensures
      var s := After(START, run);
      && (forall h :: h in Replaced(s) ==> h in s.gens && s.gens[h].id in s.tracked && s.tracked[s.gens[h].id] == h)
      && |Replaced(s)| <= 8
      && (Enabled(s, CheckBound) ==>
            var r := Next(s, CheckBound);
            if |Replaced(s)| >= 8 then r.reload == Quiescent && s.reload.next in r.gens && r.gens[s.reload.next].retired
            else r.reload == Staging(s.reload.from, s.reload.next))
  {
    RunRemembers(run);
    var s := After(START, run);
    DrainingAreReplaced(s);
    FewerDraining(s);
    hide Counted, Rooted, Draining, Leases;
  }

  /** What a thread finds at each of its steps. */
  lemma ThreadGates(s: Server, t: nat)
    ensures
      var p := PhaseOf(s, t);
      && (Enabled(s, Load(t, true)) ==> PhaseOf(Next(s, Load(t, true)), t) == Loaded(s.current))
      && (Enabled(s, Try(t)) ==> PhaseOf(Next(s, Try(t)), t) == if s.gens[p.h].retired then Idle else Acquired(p.h))
      && (Enabled(s, Recheck(t)) ==>
            PhaseOf(Next(s, Recheck(t)), t) == if p.h == s.current then Holding(p.h) else Dropping(p.h))
  {
    hide Draining;
  }

  lemma ReloadGates(s: Server)
    requires Reloading(s)
    ensures Enabled(s, Commit) ==> Next(s, Commit).current == s.reload.next && Next(s, Commit).reload == Retiring(s.current)
    ensures Enabled(s, RetireOld) ==> Next(s, RetireOld).gens[s.reload.from].retired
  {
    hide Draining;
  }

  /**
   * The gates, exactly, in every reachable state: a lease is given unless the
   * generation is retired; a thread keeps it exactly if the generation is still
   * the published one at the recheck; a commit publishes the prepared generation.
   */
  lemma GatesExactly(run: seq<Event>, t: nat)
    requires Legal(START, run)
    ensures
      var s := After(START, run);
      var p := PhaseOf(s, t);
      && (Enabled(s, Load(t, true)) ==> PhaseOf(Next(s, Load(t, true)), t) == Loaded(s.current))
      && (Enabled(s, Try(t)) ==> PhaseOf(Next(s, Try(t)), t) == if s.gens[p.h].retired then Idle else Acquired(p.h))
      && (Enabled(s, Recheck(t)) ==>
            PhaseOf(Next(s, Recheck(t)), t) == if p.h == s.current then Holding(p.h) else Dropping(p.h))
      && (Enabled(s, Commit) ==> Next(s, Commit).current == s.reload.next && Next(s, Commit).reload == Retiring(s.current))
      && (Enabled(s, RetireOld) ==> Next(s, RetireOld).gens[s.reload.from].retired)
  {
    hide Next, Counted, Rooted, Reloading, Tracked, After;
    RunKeepsInv(run);
    ThreadGates(After(START, run), t);
    ReloadGates(After(START, run));
  }

  lemma ThreadSteps(s: Server, t: nat)
    requires Rooted(s)
    ensures Enabled(s, Try(t)) <==> PhaseOf(s, t).Loaded?
    ensures Enabled(s, Recheck(t)) <==> PhaseOf(s, t).Acquired?
    ensures Enabled(s, Drop(t)) <==> PhaseOf(s, t).Holding? || PhaseOf(s, t).Dropping?
  {
  }

  lemma ReloadSteps(s: Server, h: nat)
    requires Rooted(s) && Reloading(s)
    ensures Enabled(s, Prepare(h)) <==> s.reload == Quiescent && h !in s.gens
    ensures Enabled(s, CheckBound) <==> s.reload.Prepared?
    ensures Enabled(s, Abort) <==> s.reload.Prepared? || s.reload.Staging?
    ensures Enabled(s, Commit) <==> s.reload.Staging? && !s.closed
    ensures Enabled(s, RetireOld) <==> s.reload.Retiring?
    ensures Enabled(s, RetireCurrent) <==> s.closed
  {
  }

  lemma GenerationSteps(s: Server, h: nat)
    requires Counted(s) && h in s.gens
    ensures Enabled(s, FinishRetiring(h)) <==> s.gens[h].retired && !s.gens[h].stopped
    ensures Enabled(s, Clean(h)) <==> s.gens[h].triggered == 1
    ensures s.gens[h].triggered == 1 ==> h in Next(s, Clean(h)).gens && Next(s, Clean(h)).gens[h].done
  {
    hide Leases, Draining;
    assert GateSound(s.gens[h]);
  }

  lemma AnytimeSteps(s: Server)
    ensures Enabled(s, Close) && Next(s, Close).closed && Enabled(s, Prune)
  {
    hide Draining;
  }

  /**
   * What may happen next, in every reachable state, by where each thread, the
   * reload and each generation stand: nothing else is waited for, so no lease
   * is stuck and no reload is.
   */
  lemma StepsExactly(run: seq<Event>, t: nat, h: nat)
    requires Legal(START, run)
    ensures
      var s := After(START, run);
      && (Enabled(s, Try(t)) <==> PhaseOf(s, t).Loaded?)
      && (Enabled(s, Recheck(t)) <==> PhaseOf(s, t).Acquired?)
      && (Enabled(s, Drop(t)) <==> PhaseOf(s, t).Holding? || PhaseOf(s, t).Dropping?)
      && (Enabled(s, Prepare(h)) <==> s.reload == Quiescent && h !in s.gens)
      && (Enabled(s, CheckBound) <==> s.reload.Prepared?)
      && (Enabled(s, Abort) <==> s.reload.Prepared? || s.reload.Staging?)
      && (Enabled(s, Commit) <==> s.reload.Staging? && !s.closed)
      && (Enabled(s, RetireOld) <==> s.reload.Retiring?)
      && (Enabled(s, RetireCurrent) <==> s.closed)
      && Enabled(s, Close) && Next(s, Close).closed && Enabled(s, Prune)
      && (h in s.gens ==>
            && (Enabled(s, FinishRetiring(h)) <==> s.gens[h].retired && !s.gens[h].stopped)
            && (Enabled(s, Clean(h)) <==> s.gens[h].triggered == 1)
            && (s.gens[h].triggered == 1 ==> h in Next(s, Clean(h)).gens && Next(s, Clean(h)).gens[h].done))
  {
    hide After, Enabled, Next, Counted, Rooted, Reloading, Tracked;
    RunKeepsInv(run);
    var s := After(START, run);
    ThreadSteps(s, t);
    ReloadSteps(s, h);
    AnytimeSteps(s);
    if h in s.gens {
      GenerationSteps(s, h);
    }
  }

  lemma Longer(prior: seq<Event>, e: Event, run: seq<Event>)
    requires Legal(START, prior) && Enabled(After(START, prior), e) && run == prior + [e]
    ensures Legal(START, run) && After(START, run) == Next(After(START, prior), e)
  {
    assert run[..|run| - 1] == prior;
  }

  lemma FirstPrepared(h: nat)
    requires h != 0
    ensures Legal(START, [Prepare(h)])
    ensures After(START, [Prepare(h)]) ==
      Server(map[0 := Born(1), h := Born(2)], 0, false, map[], map[], Prepared(0, h), {0})
  {
    Longer([], Prepare(h), [Prepare(h)]);
    hide Draining;
  }

  lemma FirstStaged(h: nat)
    requires h != 0
    ensures Legal(START, [Prepare(h), CheckBound])
    ensures After(START, [Prepare(h), CheckBound]) ==
      Server(map[0 := Born(1), h := Born(2)], 0, false, map[], map[], Staging(0, h), {0})
  {
    FirstPrepared(h);
    hide After, Legal;
    Longer([Prepare(h)], CheckBound, [Prepare(h), CheckBound]);
    assert Draining(After(START, [Prepare(h)])) == map[];
  }

  /** The first reload: generation 2 is published, and generation 1 tracked until it is retired and cleaned up. */
  lemma FirstReload(h: nat)
    requires h != 0
    ensures Legal(START, [Prepare(h), CheckBound, Commit])
    ensures After(START, [Prepare(h), CheckBound, Commit]) ==
      Server(map[0 := Born(1), h := Born(2)], h, false, map[1 := 0], map[], Retiring(0), {0, h})
  {
    FirstStaged(h);
    hide After, Legal, Draining;
    Longer([Prepare(h), CheckBound], Commit, [Prepare(h), CheckBound, Commit]);
  }
}
