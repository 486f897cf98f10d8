/**
 * The passive circuit of one route: consecutive dial failures open it, a
 * single half-open attempt may probe it after its cooldown, and results of
 * attempts that predate the last recovery are ignored.
 */
module RouteCircuit {
  import opened Clock
  import opened Options

  const FAILURE_THRESHOLD := 3
  const INITIAL_COOLDOWN := 5 * SECOND
  const MAXIMUM_COOLDOWN := 60 * SECOND

  datatype RouteKey = RouteKey(rule: string, addr: string)

  datatype Route = Route(
    observed: bool, hasEwma: bool, ewma: nat, lastAttempt: Time,
    failures: nat, relayFailures: nat,
    open: bool, openUntil: Time, cooldown: nat,
    halfOpen: bool, owner: nat, minValid: nat, lastRecovery: Time)

  const UNSEEN := Route(false, false, 0, 0, 0, 0, false, 0, 0, false, 0, 0, 0)

  /** An invalid attempt has no route behind it: every report about it is dropped. */
  datatype Attempt = NoAttempt | Attempt(key: RouteKey, id: nat)

  /**
   * How an admitted attempt ended. A failure or a reachable answer may carry
   * the identity of a physical setup shared with other attempts.
   */
  datatype Outcome =
    | Cancelled
    | Success(latency: int)
    | Reachable(shared: Option<nat>)
    | Failure(shared: Option<nat>)

  datatype Registry = Registry(routes: map<RouteKey, Route>, nextAttempt: nat, claims: set<(nat, RouteKey)>)

  const NEW := Registry(map[], 0, {})

  function NextCooldown(previous: nat): nat
  {
    if previous < INITIAL_COOLDOWN then INITIAL_COOLDOWN
    else if previous * 2 > MAXIMUM_COOLDOWN then MAXIMUM_COOLDOWN
    else previous * 2
  }

  function RouteOf(g: Registry, key: RouteKey): Route
  {
    if key in g.routes then g.routes[key] else UNSEEN
  }

  predicate Refused(r: Route, now: Time)
  {
    r.open && (now < r.openUntil || r.halfOpen)
  }

  /** Even a refused attempt leaves an entry behind for its route. */
  function Begin(g: Registry, key: RouteKey, now: Time): (Registry, Attempt, bool)
  {
    if key.addr == "" then (g, NoAttempt, true)
    else
      var r := RouteOf(g, key);
      if Refused(r, now) then (g.(routes := g.routes[key := r]), NoAttempt, false)
      else
        var id := g.nextAttempt + 1;
        (g.(nextAttempt := id, routes := g.routes[key := Started(r, id, now)]), Attempt(key, id), true)
  }

  function Started(r: Route, id: nat, now: Time): Route
  {
    if r.open then r.(lastAttempt := now, halfOpen := true, owner := id) else r.(lastAttempt := now)
  }

  predicate IsProbe(r: Route, id: nat)
  {
    r.open && r.halfOpen && r.owner == id
  }

  function ProbeReleased(r: Route, id: nat): Route
  {
    if IsProbe(r, id) then r.(halfOpen := false, owner := 0) else r
  }

  function Opened(r: Route, now: Time): Route
  {
    var cooldown := NextCooldown(r.cooldown);
    r.(open := true, cooldown := cooldown, openUntil := now + cooldown)
  }

  function Recovered(r: Route, id: nat, probe: bool, now: Time): Route
  {
    if probe then r.(lastRecovery := now, minValid := id) else r
  }

  /** An outcome that is neither cancelled nor stale nor a duplicate. */
  function Settled(r: Route, id: nat, o: Outcome, now: Time): Route
    requires !o.Cancelled?
  {
    var probe := IsProbe(r, id);
    match o
    case Reachable(_) =>
      Recovered(r.(observed := true, failures := 0, relayFailures := 0, open := false, openUntil := 0, cooldown := 0,
                   halfOpen := false, owner := 0), id, probe, now)
    case Success(latency) =>
      var sample := if latency < 0 then 0 else latency;
      Recovered(r.(observed := true, hasEwma := true, ewma := if r.hasEwma then (4 * r.ewma + sample) / 5 else sample,
                   failures := 0, open := false, openUntil := 0, cooldown := if probe then r.cooldown else 0,
                   halfOpen := false, owner := 0), id, probe, now)
    case Failure(_) =>
      var counted := r.(observed := true, failures := r.failures + 1);
      if r.open then Opened(counted.(halfOpen := false, owner := 0), now)
      else if counted.failures >= FAILURE_THRESHOLD then Opened(counted, now)
      else counted
  }

  /** The shared physical setup behind an outcome, if any. */
  function Shared(o: Outcome): Option<nat>
  {
    match o
    case Reachable(shared) => shared
    case Failure(shared) => shared
    case _ => None
  }

  predicate Ignored(r: Route, id: nat)
  {
    id < r.minValid || (r.open && !IsProbe(r, id))
  }

  predicate Duplicate(g: Registry, key: RouteKey, o: Outcome)
  {
    Shared(o).Some? && (Shared(o).value, key) in g.claims
  }

  function Claimed(g: Registry, key: RouteKey, o: Outcome): set<(nat, RouteKey)>
  {
    if Shared(o).Some? then g.claims + {(Shared(o).value, key)} else g.claims
  }

  function Observe(g: Registry, a: Attempt, o: Outcome, now: Time): Registry
  {
    if a.NoAttempt? || a.key !in g.routes then g
    else
      var r := g.routes[a.key];
      if o.Cancelled? then g.(routes := g.routes[a.key := ProbeReleased(r, a.id)])
      else if Ignored(r, a.id) then g
      else if Duplicate(g, a.key, o) then g.(routes := g.routes[a.key := ProbeReleased(r, a.id)])
      else g.(claims := Claimed(g, a.key, o), routes := g.routes[a.key := Settled(r, a.id, o, now)])
  }

  /** Relay reports count only on a closed circuit and only since the last recovery. */
  predicate ReportCounts(g: Registry, a: Attempt)
  {
    a.Attempt? && a.key in g.routes && g.routes[a.key].minValid <= a.id && !g.routes[a.key].open
  }

  function ReportFailure(g: Registry, a: Attempt, cancelled: bool, now: Time): Registry
  {
    if cancelled || !ReportCounts(g, a) then g
    else
      var r := g.routes[a.key].(observed := true, relayFailures := g.routes[a.key].relayFailures + 1);
      g.(routes := g.routes[a.key := if r.relayFailures >= FAILURE_THRESHOLD then Opened(r, now) else r])
  }

  function ReportSuccess(g: Registry, a: Attempt): Registry
  {
    if !ReportCounts(g, a) then g
    else g.(routes := g.routes[a.key := g.routes[a.key].(observed := true, failures := 0, relayFailures := 0, cooldown := 0)])
  }

  // -------------------------------------------------------------- the object

  class RouteHealthRegistry {
    var states: map<RouteKey, Route>
    var nextAttempt: nat
    var claimed: set<(nat, RouteKey)>

    ghost function View(): Registry
      reads this
    {
      Registry(states, nextAttempt, claimed)
    }

    constructor ()
      ensures View() == NEW
    {
      states, nextAttempt, claimed := map[], 0, {};
    }

    method BeginAttempt(key: RouteKey, now: Time) returns (attempt: Attempt, admitted: bool)
      modifies this`states, this`nextAttempt
      ensures (View(), attempt, admitted) == Begin(old(View()), key, now)
    {
      if key.addr == "" {
        return NoAttempt, true;
      }
      if key !in states {
        states := states[key := UNSEEN];
      }
      var state := states[key];
      if state.open && (now < state.openUntil || state.halfOpen) {
        assert states == old(states)[key := state];
        return NoAttempt, false;
      }
      nextAttempt := nextAttempt + 1;
      state := state.(lastAttempt := now);
      if state.open {
        state := state.(halfOpen := true, owner := nextAttempt);
      }
      states := states[key := state];
      assert states == old(states)[key := state];
      return Attempt(key, nextAttempt), true;
    }

    /** One claim per physical failure and route. */
    method ClaimFailure(group: nat, key: RouteKey) returns (first: bool)
      modifies this`claimed
      ensures first == ((group, key) !in old(claimed))
      ensures claimed == old(claimed) + {(group, key)}
    {
      first := (group, key) !in claimed;
      claimed := claimed + {(group, key)};
    }

    method ReleaseProbe(key: RouteKey, id: nat)
      requires key in states
      modifies this`states
      ensures states == old(states)[key := ProbeReleased(old(states)[key], id)]
    {
      var state := states[key];
      if state.open && state.halfOpen && state.owner == id {
        state := state.(halfOpen := false, owner := 0);
      }
      states := states[key := state];
    }

    method RouteObserve(attempt: Attempt, outcome: Outcome, now: Time)
      modifies this`states, this`claimed
      ensures View() == Observe(old(View()), attempt, outcome, now)
    {
      if attempt.NoAttempt? || attempt.key !in states {
        return;
      }
      if outcome.Cancelled? {
        ReleaseProbe(attempt.key, attempt.id);
        return;
      }
      var state := states[attempt.key];
      if attempt.id < state.minValid {
        return;
      }
      var probe := state.open && state.halfOpen && state.owner == attempt.id;
      if state.open && !probe {
        return;
      }
      if Shared(outcome).Some? {
        var first := ClaimFailure(Shared(outcome).value, attempt.key);
        if !first {
          assert claimed == old(claimed);
          ReleaseProbe(attempt.key, attempt.id);
          return;
        }
      }
      state := SettleLocked(state, attempt.id, outcome, now, probe);
      states := states[attempt.key := state];
    }

    method SettleLocked(was: Route, id: nat, outcome: Outcome, now: Time, probe: bool) returns (state: Route)
      requires !outcome.Cancelled? && probe == IsProbe(was, id)
      ensures state == Settled(was, id, outcome, now)
    {
      state := was.(observed := true);
      match outcome
      case Reachable(_) =>
        state := state.(failures := 0, relayFailures := 0, open := false, openUntil := 0, cooldown := 0, halfOpen := false, owner := 0);
        if probe {
          state := state.(lastRecovery := now, minValid := id);
        }
      case Success(latency) =>
        var sample := if latency < 0 then 0 else latency;
        if !state.hasEwma {
          state := state.(ewma := sample, hasEwma := true);
        } else {
          state := state.(ewma := (4 * state.ewma + sample) / 5);
        }
        state := state.(failures := 0, open := false, openUntil := 0);
        if !probe {
          state := state.(cooldown := 0);
        }
        state := state.(halfOpen := false, owner := 0);
        if probe {
          state := state.(lastRecovery := now, minValid := id);
        }
      case Failure(_) =>
        state := state.(failures := state.failures + 1);
        if state.open {
          var cooldown := NextCooldown(state.cooldown);
          state := state.(halfOpen := false, owner := 0, cooldown := cooldown, openUntil := now + cooldown);
        } else if state.failures >= FAILURE_THRESHOLD {
          var cooldown := NextCooldown(state.cooldown);
          state := state.(open := true, cooldown := cooldown, openUntil := now + cooldown);
        }
    }

    method RouteReportFailure(attempt: Attempt, cancelled: bool, now: Time)
      modifies this`states
      ensures View() == ReportFailure(old(View()), attempt, cancelled, now)
    {
      if attempt.NoAttempt? || cancelled || attempt.key !in states {
        return;
      }
      var state := states[attempt.key];
      if attempt.id < state.minValid || state.open {
        return;
      }
      state := state.(observed := true, relayFailures := state.relayFailures + 1);
      if state.relayFailures >= FAILURE_THRESHOLD {
        var cooldown := NextCooldown(state.cooldown);
        state := state.(open := true, cooldown := cooldown, openUntil := now + cooldown);
      }
      states := states[attempt.key := state];
    }

    method RouteReportSuccess(attempt: Attempt)
      modifies this`states
      ensures View() == ReportSuccess(old(View()), attempt)
    {
      if attempt.NoAttempt? || attempt.key !in states {
        return;
      }
      var state := states[attempt.key];
      if attempt.id < state.minValid || state.open {
        return;
      }
      states := states[attempt.key := state.(observed := true, failures := 0, relayFailures := 0, cooldown := 0)];
    }
  }
}
