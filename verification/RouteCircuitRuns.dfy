/** What holds of the route circuits over every run of their operations. */
module RouteCircuitRuns {
  import opened Clock
  import opened Options
  import opened RouteCircuit

  /**
   * The registry with its history: the route of every attempt ever admitted,
   * the half-open attempts that have not ended, and when each open circuit was
   * last opened or reopened.
   */
  datatype World = World(
    g: Registry, keys: map<nat, RouteKey>, probes: map<nat, RouteKey>, openedAt: map<RouteKey, Time>, clock: Time)

  const START := World(NEW, map[], map[], map[], 0)

  datatype Op =
    | Starting(key: RouteKey)
    | Ending(id: nat, outcome: Outcome)
    | RelayFailed(id: nat, cancelled: bool)
    | RelayWorked(id: nat)

  datatype Event = Event(op: Op, now: Time)

  /** Time does not run backwards; reports name attempts that were admitted, in any order and number. */
  predicate Enabled(w: World, e: Event)
  {
    && w.clock <= e.now
    && match e.op
       case Starting(_) => true
       case Ending(id, _) => id in w.keys
       case RelayFailed(id, _) => id in w.keys
       case RelayWorked(id) => id in w.keys
  }

  function KeyOf(w: World, op: Op): RouteKey
  {
    match op
    case Starting(key) => key
    case _ => if op.id in w.keys then w.keys[op.id] else RouteKey("", "")
  }

  function Step(w: World, e: Event): Registry
  {
    match e.op
    case Starting(key) => Begin(w.g, key, e.now).0
    case Ending(id, o) => Observe(w.g, Attempt(KeyOf(w, e.op), id), o, e.now)
    case RelayFailed(id, cancelled) => ReportFailure(w.g, Attempt(KeyOf(w, e.op), id), cancelled, e.now)
    case RelayWorked(id) => ReportSuccess(w.g, Attempt(KeyOf(w, e.op), id))
  }

  function OpenedAt(w: World, e: Event): map<RouteKey, Time>
  {
    var key := KeyOf(w, e.op);
    var before, after := RouteOf(w.g, key), RouteOf(Step(w, e), key);
    if after.open && (!before.open || after.failures != before.failures) then w.openedAt[key := e.now] else w.openedAt
  }

  function Next(w: World, e: Event): World
  {
    var moved := w.(g := Step(w, e), openedAt := OpenedAt(w, e), clock := e.now);
    match e.op
    case Starting(key) =>
      var attempt := Begin(w.g, key, e.now).1;
      if attempt.NoAttempt? then moved
      else moved.(keys := w.keys[attempt.id := key],
                  probes := if RouteOf(w.g, key).open then w.probes[attempt.id := key] else w.probes)
    case Ending(id, _) => moved.(probes := w.probes - {id})
    case _ => moved
  }

  ghost predicate Legal(w: World, run: seq<Event>)
  {
    run == [] || (Legal(w, run[..|run| - 1]) && Enabled(After(w, run[..|run| - 1]), run[|run| - 1]))
  }

  function After(w: World, run: seq<Event>): World
  {
    if run == [] then w else Next(After(w, run[..|run| - 1]), run[|run| - 1])
  }

  // ------------------------------------------------------------- invariants

  /** Every cooldown the circuit can ever have. */
  predicate Scheduled(cooldown: nat)
  {
    cooldown in {0, 5 * SECOND, 10 * SECOND, 20 * SECOND, 40 * SECOND, 60 * SECOND}
  }

  predicate CircuitSound(r: Route)
  {
    && Scheduled(r.cooldown)
    && (r.open ==> r.observed && r.cooldown > 0)
    && (!r.open ==> r.failures < FAILURE_THRESHOLD && !r.halfOpen)
    && (!r.halfOpen ==> r.owner == 0)
    && (r.halfOpen ==> r.minValid <= r.owner && r.owner > 0)
  }

  ghost predicate Timed(r: Route, key: RouteKey, openedAt: map<RouteKey, Time>)
  {
    r.open ==> key in openedAt && r.openUntil == openedAt[key] + r.cooldown
  }

  /** A route's unfinished half-open attempts are its owner, and nobody else. */
  ghost predicate Owned(r: Route, key: RouteKey, probes: map<nat, RouteKey>)
  {
    && (r.halfOpen ==> r.owner in probes && probes[r.owner] == key)
    && (forall id :: id in probes && probes[id] == key ==> r.halfOpen && r.owner == id)
  }

  ghost predicate RouteInv(w: World, key: RouteKey)
  {
    var r := RouteOf(w.g, key);
    && CircuitSound(r)
    && Timed(r, key, w.openedAt)
    && Owned(r, key, w.probes)
    && r.minValid <= w.g.nextAttempt
  }

  ghost predicate Issued(w: World)
  {
    && (forall id :: id in w.keys ==> 1 <= id <= w.g.nextAttempt && w.keys[id] in w.g.routes)
    && (forall id :: id in w.probes ==> id in w.keys && w.keys[id] == w.probes[id])
  }

  ghost predicate Inv(w: World)
  {
    Issued(w) && forall key :: RouteInv(w, key)
  }

  // -------------------------------------------------- one circuit, one event

  lemma CooldownIsScheduled(previous: nat)
    requires Scheduled(previous)
    ensures Scheduled(NextCooldown(previous)) && NextCooldown(previous) > 0
  {
  }

  lemma SettlingKeepsSound(r: Route, id: nat, o: Outcome, now: Time)
    requires CircuitSound(r) && !o.Cancelled? && !Ignored(r, id)
    ensures CircuitSound(Settled(r, id, o, now))
    ensures !Settled(r, id, o, now).halfOpen
  {
    hide Scheduled, NextCooldown;
    CooldownIsScheduled(r.cooldown);
    assert Scheduled(0) by { ZeroIsScheduled(); }
  }

  lemma ZeroIsScheduled()
    ensures Scheduled(0)
  {
  }

  lemma SettlingIsTimed(r: Route, id: nat, o: Outcome, key: RouteKey, now: Time, openedAt: map<RouteKey, Time>)
    requires !o.Cancelled? && !Ignored(r, id) && CircuitSound(r)
    ensures var after := Settled(r, id, o, now);
      after.open ==> (!r.open || after.failures != r.failures) && after.openUntil == now + after.cooldown
  {
    hide Scheduled, NextCooldown;
  }

  lemma ReleasingKeepsSound(r: Route, id: nat)
    requires CircuitSound(r)
    ensures CircuitSound(ProbeReleased(r, id))
  {
  }

  lemma StartingKeepsSound(r: Route, id: nat, now: Time)
    requires CircuitSound(r) && id > 0 && r.minValid <= id
    ensures CircuitSound(Started(r, id, now))
  {
  }

  // ------------------------------------------------------ what a step keeps

  lemma OtherRoutesUntouched(w: World, e: Event, key: RouteKey)
    requires key != KeyOf(w, e.op)
    ensures RouteOf(Step(w, e), key) == RouteOf(w.g, key)
  {
    hide Settled, ProbeReleased, Started, Opened, Ignored, Duplicate, Claimed;
  }

  lemma StepKeepsIssued(w: World, e: Event)
    requires Issued(w) && Enabled(w, e)
    ensures Issued(Next(w, e)) && w.g.nextAttempt <= Next(w, e).g.nextAttempt
  {
    hide Settled, ProbeReleased, Started, Opened, Ignored, Duplicate, Claimed, OpenedAt;
  }

  lemma OthersStayTimed(w: World, e: Event, key: RouteKey)
    requires key != KeyOf(w, e.op) && Timed(RouteOf(w.g, key), key, w.openedAt)
    ensures Timed(RouteOf(w.g, key), key, Next(w, e).openedAt)
  {
    hide Step, Begin;
  }

  lemma StartsAtItsRoute(w: World, e: Event)
    ensures e.op.Starting? && Begin(w.g, e.op.key, e.now).1.Attempt? ==>
      Begin(w.g, e.op.key, e.now).1 == Attempt(e.op.key, w.g.nextAttempt + 1)
  {
  }

  lemma OtherRoutesKeepInv(w: World, e: Event, key: RouteKey)
    requires Inv(w) && Enabled(w, e) && key != KeyOf(w, e.op)
    ensures RouteInv(Next(w, e), key)
  {
    hide Step, CircuitSound, Begin, Timed;
    assert RouteInv(w, key);
    OtherRoutesUntouched(w, e, key);
    StepKeepsIssued(w, e);
    StartsAtItsRoute(w, e);
    OthersStayTimed(w, e, key);
  }

  lemma StartKeepsRoute(w: World, e: Event)
    requires Inv(w) && Enabled(w, e) && e.op.Starting?
    ensures RouteInv(Next(w, e), e.op.key)
  {
    hide CircuitSound;
    var key := e.op.key;
    assert RouteInv(w, key);
    var r := RouteOf(w.g, key);
    if key.addr != "" && !Refused(r, e.now) {
      var id := w.g.nextAttempt + 1;
      StartingKeepsSound(r, id, e.now);
      SoundClosedIsNotHalfOpen(r);
      assert id !in w.probes;
    }
  }

  lemma SoundClosedIsNotHalfOpen(r: Route)
    requires CircuitSound(r)
    ensures !r.open ==> !r.halfOpen
  {
  }

  lemma EndKeepsRoute(w: World, e: Event)
    requires Inv(w) && Enabled(w, e) && e.op.Ending?
    ensures RouteInv(Next(w, e), KeyOf(w, e.op))
  {
    hide CircuitSound, Settled;
    var key, id, o := KeyOf(w, e.op), e.op.id, e.op.outcome;
    assert RouteInv(w, key);
    var r := RouteOf(w.g, key);
    SoundOwner(r);
    if o.Cancelled? || (!Ignored(r, id) && Duplicate(w.g, key, o)) {
      ReleasingKeepsSound(r, id);
    } else if !Ignored(r, id) {
      SettlingKeepsSound(r, id, o, e.now);
      SettlingIsTimed(r, id, o, key, e.now, w.openedAt);
      SettledMinimum(r, id, o, e.now);
    }
  }

  lemma SettledMinimum(r: Route, id: nat, o: Outcome, now: Time)
    requires !o.Cancelled?
    ensures Settled(r, id, o, now).minValid == r.minValid || Settled(r, id, o, now).minValid == id
  {
  }

  lemma SoundOwner(r: Route)
    requires CircuitSound(r)
    ensures r.halfOpen ==> r.open && r.minValid <= r.owner
  {
  }

  lemma ReportKeepsRoute(w: World, e: Event)
    requires Inv(w) && Enabled(w, e) && (e.op.RelayFailed? || e.op.RelayWorked?)
    ensures RouteInv(Next(w, e), KeyOf(w, e.op))
  {
    hide NextCooldown, Scheduled;
    var key := KeyOf(w, e.op);
    assert RouteInv(w, key);
    CooldownIsScheduled(RouteOf(w.g, key).cooldown);
    ZeroIsScheduled();
  }

  lemma StepKeepsInv(w: World, e: Event)
    requires Inv(w) && Enabled(w, e)
    ensures Inv(Next(w, e))
  {
    hide RouteInv, Next;
    StepKeepsIssued(w, e);
    forall key ensures RouteInv(Next(w, e), key) {
      if key != KeyOf(w, e.op) {
        OtherRoutesKeepInv(w, e, key);
      } else {
        match e.op
        case Starting(_) => StartKeepsRoute(w, e);
        case Ending(_, _) => EndKeepsRoute(w, e);
        case _ => ReportKeepsRoute(w, e);
      }
    }
  }

  lemma {:induction false} RunFromKeepsInv(w: World, run: seq<Event>)
    requires Inv(w) && Legal(w, run)
    ensures Inv(After(w, run))
  {
    hide Inv, Next, Enabled;
    if run != [] {
      RunFromKeepsInv(w, run[..|run| - 1]);
      StepKeepsInv(After(w, run[..|run| - 1]), run[|run| - 1]);
    }
  }

  lemma RunKeepsInv(run: seq<Event>)
    requires Legal(START, run)
    ensures Inv(After(START, run))
  {
    ZeroIsScheduled();
    RunFromKeepsInv(START, run);
  }

  // ------------------------------------------------------------ inheritance

  /** What a new generation takes over of a route: everything but attempts and probe ownership. */
  function Inherited(r: Route): Route
  {
    r.(halfOpen := false, owner := 0, minValid := 0)
  }

  method InheritRoutes(previous: Registry, keys: seq<RouteKey>) returns (g: Registry)
    ensures g.nextAttempt == 0 && g.claims == {}
    ensures forall k :: k in g.routes <==> k in keys && k.addr != "" && k in previous.routes
    ensures forall k :: k in g.routes ==> g.routes[k] == Inherited(previous.routes[k])
  {
    g := NEW;
    for i := 0 to |keys|
      invariant g.nextAttempt == 0 && g.claims == {}
      invariant forall k :: k in g.routes <==> k in keys[..i] && k.addr != "" && k in previous.routes
      invariant forall k :: k in g.routes ==> g.routes[k] == Inherited(previous.routes[k])
    {
      var key := keys[i];
      assert keys[..i + 1] == keys[..i] + [key];
      if key.addr == "" || key !in previous.routes {
        continue;
      }
      g := g.(routes := g.routes[key := Inherited(previous.routes[key])]);
    }
    assert keys[..|keys|] == keys;
  }

  /**
   * A reload keeps every promise: a registry that inherits routes from a
   * reachable one starts with all invariants, open circuits still timed from
   * when they opened, and so keeps them over every run of its own.
   */
  lemma InheritedRunsKeepInv(w: World, g: Registry, run: seq<Event>)
    requires Inv(w) && g.nextAttempt == 0 && g.claims == {}
    requires forall k :: k in g.routes ==> k in w.g.routes && g.routes[k] == Inherited(w.g.routes[k])
    requires Legal(World(g, map[], map[], w.openedAt, w.clock), run)
    ensures Inv(After(World(g, map[], map[], w.openedAt, w.clock), run))
  {
    var heir := World(g, map[], map[], w.openedAt, w.clock);
    ZeroIsScheduled();
    forall key ensures RouteInv(heir, key) {
      assert RouteInv(w, key);
    }
    RunFromKeepsInv(heir, run);
  }

  // ------------------------------------------------------------------ theorems

  /** In every reachable state a route has at most one unfinished half-open attempt. */
  lemma AtMostOneProbe(run: seq<Event>, a: nat, b: nat)
    requires Legal(START, run)
    ensures var w := After(START, run);
      a in w.probes && b in w.probes && w.probes[a] == w.probes[b] ==> a == b
  {
    RunKeepsInv(run);
    var w := After(START, run);
    if a in w.probes && b in w.probes && w.probes[a] == w.probes[b] {
      assert RouteInv(w, w.probes[a]);
    }
  }

  /**
   * In every reachable state an open route admits an attempt exactly when its
   * scheduled cooldown, at least 5 s, has passed since it last opened and no
   * half-open attempt of it is unfinished.
   */
  lemma OpenRouteAdmission(run: seq<Event>, key: RouteKey, now: Time)
    requires Legal(START, run) && key.addr != ""
    ensures var w := After(START, run);
      var r := RouteOf(w.g, key);
      r.open ==>
        && key in w.openedAt && r.cooldown >= INITIAL_COOLDOWN
        && (Begin(w.g, key, now).2 <==>
            w.openedAt[key] + r.cooldown <= now && forall id :: id in w.probes ==> w.probes[id] != key)
  {
    RunKeepsInv(run);
    var w := After(START, run);
    assert RouteInv(w, key);
  }

  /** Nothing but its own half-open attempt's end moves an open circuit. */
  lemma OnlyTheProbeMovesAnOpenCircuit(run: seq<Event>, e: Event, key: RouteKey)
    requires Legal(START, run) && Enabled(After(START, run), e)
    ensures var w := After(START, run);
      var r, after := RouteOf(w.g, key), RouteOf(Next(w, e).g, key);
      r.open ==>
        || after == r
        || (e.op.Starting? && after == r.(halfOpen := true, owner := after.owner, lastAttempt := e.now))
        || (e.op.Ending? && e.op.id in w.probes && w.probes[e.op.id] == key)
  {
    hide Settled, Opened;
    RunKeepsInv(run);
    var w := After(START, run);
    assert RouteInv(w, key);
    if key != KeyOf(w, e.op) {
      OtherRoutesUntouched(w, e, key);
    }
  }

  predicate Recovers(w: World, e: Event)
  {
    && e.op.Ending? && e.op.id in w.keys
    && RouteOf(w.g, w.keys[e.op.id]).open && !RouteOf(Step(w, e), w.keys[e.op.id]).open
  }

  lemma RecoveryRaisesMinimum(w: World, e: Event)
    requires Inv(w) && Enabled(w, e) && Recovers(w, e)
    ensures RouteOf(Step(w, e), w.keys[e.op.id]).minValid == e.op.id
  {
  }

  lemma StepRaisesMinimum(w: World, e: Event, key: RouteKey)
    requires Inv(w) && Enabled(w, e)
    ensures RouteOf(w.g, key).minValid <= RouteOf(Next(w, e).g, key).minValid
  {
    hide NextCooldown;
    assert RouteInv(w, key);
    if key != KeyOf(w, e.op) {
      OtherRoutesUntouched(w, e, key);
    }
  }

  lemma {:induction false} RunRaisesMinimum(run: seq<Event>, n: nat, key: RouteKey)
    requires Legal(START, run) && n <= |run|
    ensures RouteOf(After(START, run[..n]).g, key).minValid <= RouteOf(After(START, run).g, key).minValid
  {
    if n < |run| {
      var shorter := run[..|run| - 1];
      assert shorter[..n] == run[..n];
      RunRaisesMinimum(shorter, n, key);
      RunKeepsInv(shorter);
      StepRaisesMinimum(After(START, shorter), run[|run| - 1], key);
    } else {
      assert run[..n] == run;
    }
  }

  predicate Reports(op: Op, id: nat)
  {
    !op.Starting? && op.id == id
  }

  lemma StaleReportChangesNothing(w: World, e: Event, id: nat)
    requires Inv(w) && Enabled(w, e) && Reports(e.op, id)
    requires id < RouteOf(w.g, w.keys[id]).minValid
    ensures Next(w, e).g == w.g
  {
    var key := w.keys[id];
    assert RouteInv(w, key);
    var r := w.g.routes[key];
    assert !IsProbe(r, id);
    assert w.g.routes[key := r] == w.g.routes;
  }

  lemma {:induction false} LegalPrefix(run: seq<Event>, n: nat)
    requires Legal(START, run) && n <= |run|
    ensures Legal(START, run[..n])
    ensures n < |run| ==> Enabled(After(START, run[..n]), run[n])
  {
    if n < |run| {
      var shorter := run[..|run| - 1];
      assert shorter[..n] == run[..n];
      if n < |shorter| {
        LegalPrefix(shorter, n);
      } else {
        assert run[..n] == shorter;
      }
    } else {
      assert run[..n] == run;
    }
  }

  /**
   * Once a half-open attempt recovers a route, no report of any attempt of that
   * route admitted before it ever changes anything again, however late it comes.
   */
  lemma RecoveryIsFinal(run: seq<Event>, n: nat, e: Event, id: nat)
    requires Legal(START, run) && n < |run|
    requires Recovers(After(START, run[..n]), run[n])
    requires Enabled(After(START, run), e) && Reports(e.op, id)
    requires id < run[n].op.id && After(START, run).keys[id] == After(START, run[..n]).keys[run[n].op.id]
    ensures Next(After(START, run), e).g == After(START, run).g
  {
    hide Next, Step, RouteInv, Recovers;
    RunKeepsInv(run);
    LegalPrefix(run, n);
    RunKeepsInv(run[..n]);
    var was := After(START, run[..n]);
    var key := RecoveredKey(was, run[n]);
    RecoveryRaisesMinimum(was, run[n]);
    assert run[..n + 1][..n] == run[..n] && run[..n + 1][n] == run[n];
    StepIs(was, run[n]);
    RunRaisesMinimum(run, n + 1, key);
    StaleReportChangesNothing(After(START, run), e, id);
  }

  ghost function RecoveredKey(w: World, e: Event): (key: RouteKey)
    requires Recovers(w, e)
    ensures key == w.keys[e.op.id]
  {
    w.keys[e.op.id]
  }

  lemma StepIs(w: World, e: Event)
    ensures Next(w, e).g == Step(w, e)
  {
  }

  /** Outcomes that carry the identity of one shared physical setup. */
  predicate Carries(op: Op, group: nat)
  {
    op.Ending? && Shared(op.outcome) == Some(group)
  }

  /** The circuit as failures move it: everything but probe ownership. */
  function Verdict(r: Route): Route
  {
    r.(halfOpen := false, owner := 0, lastAttempt := 0)
  }

  lemma ClaimsGrow(w: World, e: Event)
    ensures w.g.claims <= Next(w, e).g.claims
  {
  }

  lemma {:induction false} ClaimsGrowOverRun(run: seq<Event>, n: nat)
    requires n <= |run|
    ensures After(START, run[..n]).g.claims <= After(START, run).g.claims
  {
    if n < |run| {
      var shorter := run[..|run| - 1];
      assert shorter[..n] == run[..n];
      ClaimsGrowOverRun(shorter, n);
      ClaimsGrow(After(START, shorter), run[|run| - 1]);
    } else {
      assert run[..n] == run;
    }
  }

  lemma FirstVerdictClaims(w: World, e: Event, group: nat)
    requires Inv(w) && Enabled(w, e) && Carries(e.op, group)
    ensures var key := KeyOf(w, e.op);
      Verdict(RouteOf(Next(w, e).g, key)) == Verdict(RouteOf(w.g, key)) || (group, key) in Next(w, e).g.claims
  {
    hide Settled;
  }

  lemma DuplicateMovesNothing(w: World, e: Event, group: nat)
    requires Inv(w) && Enabled(w, e) && Carries(e.op, group) && (group, KeyOf(w, e.op)) in w.g.claims
    ensures var key := KeyOf(w, e.op); Verdict(RouteOf(Next(w, e).g, key)) == Verdict(RouteOf(w.g, key))
  {
    hide Settled;
  }

  /**
   * A physical failure shared by many attempts counts at most once per route:
   * after one of its results moved the route, no later one ever does.
   */
  lemma SharedFailureCountsOnce(run: seq<Event>, n: nat, e: Event, group: nat)
    requires Legal(START, run) && n < |run|
    requires Carries(run[n].op, group) && Carries(e.op, group)
    requires Enabled(After(START, run), e)
    requires KeyOf(After(START, run), e.op) == KeyOf(After(START, run[..n]), run[n].op)
    ensures var was, w := After(START, run[..n]), After(START, run);
      var key := KeyOf(w, e.op);
      Verdict(RouteOf(Next(was, run[n]).g, key)) != Verdict(RouteOf(was.g, key)) ==>
      Verdict(RouteOf(Next(w, e).g, key)) == Verdict(RouteOf(w.g, key))
  {
    hide Next, Inv, Verdict;
    var was, w := After(START, run[..n]), After(START, run);
    RunKeepsInv(run);
    LegalPrefix(run, n);
    RunKeepsInv(run[..n]);
    FirstVerdictClaims(was, run[n], group);
    assert run[..n + 1][..n] == run[..n] && run[..n + 1][n] == run[n];
    ClaimsGrowOverRun(run, n + 1);
    if (group, KeyOf(w, e.op)) in w.g.claims {
      DuplicateMovesNothing(w, e, group);
    }
  }

  // -------------------------------------------- the relay streak is different

  /**
   * Closing a circuit leaves its relay streak below the threshold exactly when
   * it already was, or the probe's answer was "reachable" rather than a success.
   */
  lemma RelayStreakAfterRecovery(w: World, e: Event)
    requires Inv(w) && Enabled(w, e) && Recovers(w, e)
    ensures var key := w.keys[e.op.id];
      RouteOf(Next(w, e).g, key).relayFailures < FAILURE_THRESHOLD <==>
      RouteOf(w.g, key).relayFailures < FAILURE_THRESHOLD || e.op.outcome.Reachable?
  {
  }

  const SAMPLE := RouteKey("rule", "host:443")

  const RELAY_RUN := [
    Event(Starting(SAMPLE), 0),
    Event(RelayFailed(1, false), 0), Event(RelayFailed(1, false), 0), Event(RelayFailed(1, false), 0),
    Event(Starting(SAMPLE), INITIAL_COOLDOWN),
    Event(Ending(2, Success(0)), INITIAL_COOLDOWN)]

  /** A closed circuit can carry a full relay streak: a successful half-open dial does not clear it. */
  lemma ClosedWithFullRelayStreak()
    ensures Legal(START, RELAY_RUN)
    ensures var r := RouteOf(After(START, RELAY_RUN).g, SAMPLE); !r.open && r.relayFailures == FAILURE_THRESHOLD
  {
    hide Next, Enabled;
    assert RELAY_RUN[..6] == RELAY_RUN;
    FirstSample();
    AfterOne(START, RELAY_RUN, 0);
    AfterOne(START, RELAY_RUN, 1);
    RelayFailureAt(After(START, RELAY_RUN[..1]), RELAY_RUN[1]);
    AfterOne(START, RELAY_RUN, 2);
    RelayFailureAt(After(START, RELAY_RUN[..2]), RELAY_RUN[2]);
    AfterOne(START, RELAY_RUN, 3);
    RelayFailureAt(After(START, RELAY_RUN[..3]), RELAY_RUN[3]);
    AfterOne(START, RELAY_RUN, 4);
    ProbeAt(After(START, RELAY_RUN[..4]), RELAY_RUN[4]);
    AfterOne(START, RELAY_RUN, 5);
    SuccessAt(After(START, RELAY_RUN[..5]), RELAY_RUN[5]);
  }

  ghost predicate At(w: World, id: nat, r: Route, clock: Time)
  {
    id in w.keys && w.keys[id] == SAMPLE && SAMPLE in w.g.routes && w.g.routes[SAMPLE] == r && w.clock == clock
      && w.g.nextAttempt == id
  }

  lemma FirstSample()
    ensures Enabled(START, RELAY_RUN[0]) && At(Next(START, RELAY_RUN[0]), 1, UNSEEN, 0)
  {
  }

  lemma RelayFailureAt(w: World, e: Event)
    requires At(w, 1, RouteOf(w.g, SAMPLE), 0) && e == Event(RelayFailed(1, false), 0)
    requires !RouteOf(w.g, SAMPLE).open && RouteOf(w.g, SAMPLE).minValid == 0
    ensures Enabled(w, e)
    ensures var r := RouteOf(w.g, SAMPLE).(observed := true, relayFailures := RouteOf(w.g, SAMPLE).relayFailures + 1);
      At(Next(w, e), 1, if r.relayFailures >= FAILURE_THRESHOLD then Opened(r, 0) else r, 0)
  {
  }

  lemma ProbeAt(w: World, e: Event)
    requires At(w, 1, RouteOf(w.g, SAMPLE), 0) && e == Event(Starting(SAMPLE), INITIAL_COOLDOWN)
    requires RouteOf(w.g, SAMPLE).open && !RouteOf(w.g, SAMPLE).halfOpen && RouteOf(w.g, SAMPLE).openUntil == INITIAL_COOLDOWN
    ensures Enabled(w, e)
    ensures At(Next(w, e), 2, Started(RouteOf(w.g, SAMPLE), 2, INITIAL_COOLDOWN), INITIAL_COOLDOWN)
  {
  }

  lemma SuccessAt(w: World, e: Event)
    requires At(w, 2, RouteOf(w.g, SAMPLE), INITIAL_COOLDOWN) && e == Event(Ending(2, Success(0)), INITIAL_COOLDOWN)
    requires IsProbe(RouteOf(w.g, SAMPLE), 2) && RouteOf(w.g, SAMPLE).minValid <= 2
    ensures Enabled(w, e)
    ensures !RouteOf(Next(w, e).g, SAMPLE).open
    ensures RouteOf(Next(w, e).g, SAMPLE).relayFailures == RouteOf(w.g, SAMPLE).relayFailures
  {
  }

  lemma AfterOne(w: World, run: seq<Event>, n: nat)
    requires n < |run|
    ensures After(w, run[..n + 1]) == Next(After(w, run[..n]), run[n])
    ensures Legal(w, run[..n + 1]) == (Legal(w, run[..n]) && Enabled(After(w, run[..n]), run[n]))
  {
    assert run[..n + 1][..n] == run[..n];
  }

  /** And recovery is the only step after which a closed route's relay streak can be full. */
  lemma OnlyRecoveryLeavesAFullStreak(w: World, e: Event, key: RouteKey)
    requires Enabled(w, e)
    requires !RouteOf(w.g, key).open && RouteOf(w.g, key).relayFailures < FAILURE_THRESHOLD
    requires !RouteOf(Step(w, e), key).open
    ensures RouteOf(Step(w, e), key).relayFailures < FAILURE_THRESHOLD
  {
    hide NextCooldown, Claimed, Duplicate;
    if key != KeyOf(w, e.op) {
      OtherRoutesUntouched(w, e, key);
    }
  }
}
