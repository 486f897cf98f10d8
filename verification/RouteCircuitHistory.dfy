/**
 * What a route does is a function of its history: its failures in a row, its
 * relay failures, how often it opened, and the latencies it showed. Times are
 * stated in numbers.
 */
module RouteCircuitHistory {
  import opened Clock
  import opened Options
  import opened RouteCircuit
  import opened RouteCircuitRuns

  /**
   * `streak` dial failures and `relay` failures in a row, `level` openings since
   * the cooldown was last forgiven, the oldest attempt that counts, the latency
   * average, and when the route was last tried, may be probed again and last
   * recovered from being open.
   */
  datatype Story = Story(
    open: bool, streak: nat, relay: nat, level: nat, oldest: nat, average: Option<nat>, tried: Time, seen: bool,
    until: Time, recovered: Time)

  const UNTOLD := Story(false, 0, 0, 0, 0, None, 0, false, 0, 0)

  /** The n-th opening in a row waits 5, 10, 20, 40, then 60 seconds. */
  function Wait(n: nat): nat
  {
    1_000_000_000 * (if n == 0 then 0 else if n == 1 then 5 else if n == 2 then 10 else if n == 3 then 20 else if n == 4 then 40 else 60)
  }

  /** Whether an attempt's result counts: not cancelled, not stale, the probe's own if the route is open, and no repetition. */
  predicate Counts(w: World, st: Story, id: nat, key: RouteKey, o: Outcome)
  {
    && !o.Cancelled? && st.oldest <= id && (st.open ==> id in w.probes)
    && !(Shared(o).Some? && (Shared(o).value, key) in w.g.claims)
  }

  function Averaged(average: Option<nat>, latency: int): nat
  {
    var sample := if latency > 0 then latency else 0;
    if average.None? then sample else (4 * average.value + sample) / 5
  }

  function Opens(st: Story, now: Time): Story
  {
    st.(open := true, level := st.level + 1, until := now + Wait(st.level + 1), seen := true)
  }

  function Result(st: Story, id: nat, o: Outcome, now: Time): Story
  {
    var closed := st.(open := false, until := 0, oldest := if st.open then id else st.oldest, seen := true,
                      recovered := if st.open then now else st.recovered);
    match o
    case Reachable(_) => closed.(streak := 0, relay := 0, level := 0)
    case Success(latency) =>
      closed.(streak := 0, level := if st.open then st.level else 0, average := Some(Averaged(st.average, latency)))
    case Failure(_) =>
      if st.open || st.streak + 1 >= 3 then Opens(st, now).(streak := st.streak + 1)
      else st.(streak := st.streak + 1, seen := true)
    case Cancelled => st
  }

  /** One event at the route it concerns. `admitted`: a start was admitted. */
  function Continued(w: World, st: Story, e: Event, admitted: bool): Story
  {
    match e.op
    case Starting(_) => if admitted then st.(tried := e.now) else st
    case Ending(id, o) => if Counts(w, st, id, KeyOf(w, e.op), o) then Result(st, id, o, e.now) else st
    case RelayFailed(id, cancelled) =>
      if cancelled || st.open || id < st.oldest then st
      else if st.relay + 1 >= 3 then Opens(st, e.now).(relay := st.relay + 1)
      else st.(relay := st.relay + 1, seen := true)
    case RelayWorked(id) =>
      if st.open || id < st.oldest then st else st.(streak := 0, relay := 0, level := 0, seen := true)
  }

  ghost predicate Told(r: Route, st: Story)
  {
    && r.open == st.open && r.failures == st.streak && r.relayFailures == st.relay
    && r.cooldown == Wait(st.level) && r.minValid == st.oldest
    && r.hasEwma == st.average.Some? && (r.hasEwma ==> r.ewma == st.average.value)
    && r.lastAttempt == st.tried && r.observed == st.seen && r.openUntil == st.until && r.lastRecovery == st.recovered
  }

  lemma LevelRises(level: nat)
    ensures NextCooldown(Wait(level)) == Wait(level + 1)
  {
  }

  lemma EndTold(w: World, e: Event, st: Story)
    requires Inv(w) && Enabled(w, e) && e.op.Ending? && Told(RouteOf(w.g, KeyOf(w, e.op)), st)
    ensures Told(RouteOf(Step(w, e), KeyOf(w, e.op)), Continued(w, st, e, false))
  {
    hide Wait, NextCooldown, Scheduled;
    var key, id, o := KeyOf(w, e.op), e.op.id, e.op.outcome;
    assert RouteInv(w, key);
    LevelRises(st.level);
    ZeroWait();
    ProbeIsOwner(w, id, key);
  }

  lemma ZeroWait()
    ensures Wait(0) == 0
  {
  }

  lemma ProbeIsOwner(w: World, id: nat, key: RouteKey)
    requires Inv(w) && id in w.keys && w.keys[id] == key
    ensures IsProbe(RouteOf(w.g, key), id) <==> RouteOf(w.g, key).open && id in w.probes
  {
    hide Scheduled;
    assert RouteInv(w, key);
  }

  lemma OthersTold(w: World, e: Event, st: Story)
    requires Inv(w) && Enabled(w, e) && !e.op.Ending? && Told(RouteOf(w.g, KeyOf(w, e.op)), st)
    ensures Told(RouteOf(Step(w, e), KeyOf(w, e.op)),
                 Continued(w, st, e, e.op.Starting? && Begin(w.g, e.op.key, e.now).1.Attempt?))
  {
    hide Wait, NextCooldown, Scheduled;
    assert RouteInv(w, KeyOf(w, e.op));
    LevelRises(st.level);
    ZeroWait();
  }

  // -------------------------------------------------------------- over runs

  function StoryOf(stories: map<RouteKey, Story>, key: RouteKey): Story
  {
    if key in stories then stories[key] else UNTOLD
  }

  function Stories(run: seq<Event>): map<RouteKey, Story>
  {
    if run == [] then map[]
    else
      var front, e := run[..|run| - 1], run[|run| - 1];
      var w, told := After(START, front), Stories(front);
      var key := KeyOf(w, e.op);
      told[key := Continued(w, StoryOf(told, key), e, e.op.Starting? && Begin(w.g, e.op.key, e.now).1.Attempt?)]
  }

  ghost predicate AllTold(w: World, stories: map<RouteKey, Story>)
  {
    forall key :: Told(RouteOf(w.g, key), StoryOf(stories, key))
  }

  lemma StepIsTold(w: World, stories: map<RouteKey, Story>, e: Event)
    requires Inv(w) && Enabled(w, e) && AllTold(w, stories)
    ensures
      var key := KeyOf(w, e.op);
      AllTold(Next(w, e),
        stories[key := Continued(w, StoryOf(stories, key), e, e.op.Starting? && Begin(w.g, e.op.key, e.now).1.Attempt?)])
  {
    hide Inv, Told, Step, Continued, Enabled, Begin;
    var key := KeyOf(w, e.op);
    StepIs(w, e);
    if e.op.Ending? {
      EndTold(w, e, StoryOf(stories, key));
      NotStarting(w, StoryOf(stories, key), e);
    } else {
      OthersTold(w, e, StoryOf(stories, key));
    }
    hide Next;
    forall k | k != key ensures RouteOf(Next(w, e).g, k) == RouteOf(w.g, k) {
      OtherRoutesUntouched(w, e, k);
    }
  }

  lemma NotStarting(w: World, st: Story, e: Event)
    requires e.op.Ending?
    ensures forall a, b :: Continued(w, st, e, a) == Continued(w, st, e, b)
  {
  }

  lemma {:induction false} RunIsTold(run: seq<Event>)
    requires Legal(START, run)
    ensures Inv(After(START, run)) && AllTold(After(START, run), Stories(run))
  {
    hide Inv, Next, Enabled, AllTold, Continued, Begin;
    RunKeepsInv(run);
    if run == [] {
      NothingTold();
    } else {
      var front, e := run[..|run| - 1], run[|run| - 1];
      RunIsTold(front);
      StepIsTold(After(START, front), Stories(front), e);
    }
  }

  lemma NothingTold()
    ensures AllTold(START, map[])
  {
  }

  // --------------------------------------------------------------- theorems

  /**
   * In every reachable state a route is what its history says: open or closed,
   * its streaks, its wait of 5, 10, 20, 40 or 60 s by the number of openings in
   * a row, its latency average, its last attempt, its next probe and its last recovery.
   */
  lemma RouteIsItsHistory(run: seq<Event>, key: RouteKey)
    requires Legal(START, run)
    ensures
      var r, st := RouteOf(After(START, run).g, key), StoryOf(Stories(run), key);
      && r.open == st.open && r.failures == st.streak && r.relayFailures == st.relay && r.cooldown == Wait(st.level)
      && r.observed == st.seen && r.lastAttempt == st.tried && r.hasEwma == st.average.Some?
      && (st.average.Some? ==> r.ewma == st.average.value)
      && r.openUntil == st.until && r.lastRecovery == st.recovered
  {
    RunIsTold(run);
    hide Inv, Stories, After, Wait;
    assert Told(RouteOf(After(START, run).g, key), StoryOf(Stories(run), key));
  }

  /**
   * When a closed route opens, in every run: at the third counted dial failure
   * in a row, or at the third relay failure since either kind of traffic was
   * last proved, and at nothing else.
   */
  lemma OpensExactlyAtThree(run: seq<Event>, e: Event, key: RouteKey)
    requires Legal(START, run) && Enabled(After(START, run), e) && !RouteOf(After(START, run).g, key).open
    ensures
      var w, st := After(START, run), StoryOf(Stories(run), key);
      RouteOf(Next(w, e).g, key).open <==>
        && KeyOf(w, e.op) == key
        && match e.op
           case Ending(id, o) => Counts(w, st, id, key, o) && o.Failure? && st.streak >= 2
           case RelayFailed(id, cancelled) => !cancelled && st.oldest <= id && st.relay >= 2
           case _ => false
  {
    hide Inv, Wait, Stories, After, Shared, Averaged;
    RunIsTold(run);
    var w, told := After(START, run), Stories(run);
    assert Told(RouteOf(w.g, key), StoryOf(told, key));
    StepIsTold(w, told, e);
    if key == KeyOf(w, e.op) {
      var st := StoryOf(told, key);
      var next := Continued(w, st, e, e.op.Starting? && Begin(w.g, e.op.key, e.now).1.Attempt?);
      hide Begin, Step, Next, Enabled, Counts;
      assert Told(RouteOf(Next(w, e).g, key), next);
    } else {
      OtherRoutesUntouched(w, e, key);
      StepIs(w, e);
    }
  }

  /** A closed route admits every attempt, and numbers it; a nameless target is let through without one. */
  lemma ClosedRouteAdmits(g: Registry, key: RouteKey, now: Time)
    requires !RouteOf(g, key).open
    ensures Begin(g, key, now).2
    ensures if key.addr == "" then Begin(g, key, now).0 == g && Begin(g, key, now).1 == NoAttempt
            else Begin(g, key, now).1 == Attempt(key, g.nextAttempt + 1)
  {
  }
}
