/**
 * One rule of the H3 breaker: closed, evaluating H2, cooling down, or on
 * probation. Each operation is given as a function of the rule, the clock and
 * the next unused token; the breaker's methods are proved against them.
 */
module RuleBreaker {
  import opened Clock
  import opened Endpoints

  const DEGRADATION_WINDOW := MINUTE
  const VALIDATION_GRACE := 30 * SECOND
  const BLACKHOLE_PROBE_TIMEOUT := 3 * SECOND
  const ABORT_DELAY := 30 * SECOND
  const TRIAL_MIN_DURATION := 30 * SECOND
  const TRIAL_MAX_DURATION := 90 * SECOND
  const TRIAL_MIN_PAYLOAD := 524288
  const TRIAL_MIN_PACKETS := 256
  const TRIAL_HEALTHY_COUNT := 3
  const SAMPLE_INTERVAL := 2 * SECOND
  const COOLDOWN_STEPS := 4

  /** Five, ten, twenty, then thirty minutes. */
  function CooldownStep(failures: nat): nat
  {
    if failures <= 1 then 5 * MINUTE
    else if failures == 2 then 10 * MINUTE
    else if failures == 3 then 20 * MINUTE
    else 30 * MINUTE
  }

  datatype Phase = Closed | Evaluating | CoolingDown | OnProbation

  datatype DegradationEvent = DegradationEvent(key: Key, remoteIP: string, generation: nat, at: Time)

  /** One blackholed physical connection; slot 0 stands for no slot. */
  datatype Scope = Scope(key: Key, slot: nat, connection: nat)

  datatype Sample = Sample(
    key: Key, generation: nat, at: Time, packetsSent: nat, payloadBytes: nat,
    broken: bool, sampled: bool, warmup: bool, rttBad: bool, lossBad: bool, stalled: bool, blockedWrites: nat)

  datatype Trial = NoTrial | Trial(
    token: nat, key: Key, generation: nat, establishedAt: Time, established: bool,
    initialPackets: nat, initialPayload: nat, payload: nat, packets: nat,
    healthySamples: nat, lastHealthyAt: Time)

  datatype Binding = Binding(generation: nat, packetsSent: nat, payloadBytes: nat)

  datatype Rule = Rule(
    phase: Phase, failures: nat, retryAt: Time, recent: seq<DegradationEvent>, trial: Trial,
    evalToken: nat, evalInFlight: int, evalDeadline: Time,
    scopes: seq<Scope>, scopesOwned: bool,
    committed: seq<Scope>, commitToken: nat, armInFlight: int, armed: bool,
    routeToken: nat, routeKey: Key)

  const NO_KEY := Key("", "")

  const FRESH_RULE := Rule(Closed, 0, 0, [], NoTrial, 0, 0, 0, [], false, [], 0, 0, false, 0, NO_KEY)

  /** The blackhole scopes, the arming ledger and the route lease cleared. */
  function Unleased(r: Rule): Rule
  {
    r.(scopes := [], scopesOwned := false, committed := [], commitToken := 0, armInFlight := 0, armed := false,
       routeToken := 0, routeKey := NO_KEY)
  }

  function BackToClosed(r: Rule): Rule
  {
    Unleased(r).(phase := Closed, failures := 0, retryAt := 0, evalToken := 0, evalInFlight := 0, evalDeadline := 0)
  }

  predicate Expired(r: Rule, now: Time)
  {
    r.phase == Evaluating && r.evalDeadline != 0 && r.evalDeadline <= now
  }

  function Expire(r: Rule, now: Time): Rule
  {
    if Expired(r, now) then BackToClosed(r) else r
  }

  function Reenter(r: Rule, now: Time): Rule
  {
    var failures := if r.failures < COOLDOWN_STEPS then r.failures + 1 else r.failures;
    Unleased(r).(phase := CoolingDown, failures := failures, retryAt := now + CooldownStep(failures), trial := NoTrial)
  }

  // -------------------------------------------------------------- admission

  datatype RuleAdmission = RuleAdmission(token: nat, probation: bool, allowed: bool)

  function BeginWithLease(r: Rule, key: Key, lease: nat, now: Time, next: nat): (Rule, RuleAdmission)
  {
    var e := Expire(r, now);
    match e.phase
    case Closed => (e, RuleAdmission(0, false, true))
    case Evaluating =>
      (e.(evalDeadline := if e.evalDeadline == 0 then now + VALIDATION_GRACE else e.evalDeadline,
          evalInFlight := e.evalInFlight + 1), RuleAdmission(e.evalToken, false, false))
    case OnProbation => (e, RuleAdmission(0, false, false))
    case CoolingDown =>
      if now < e.retryAt || (e.routeToken != 0 && (e.routeToken != lease || e.routeKey != key)) then
        (e, RuleAdmission(0, false, false))
      else
        (Unleased(e).(phase := OnProbation, retryAt := 0,
                      trial := Trial(next, key, 0, now, false, 0, 0, 0, 0, 0, 0)), RuleAdmission(next, true, true))
  }

  function ClaimRoute(r: Rule, key: Key, now: Time, next: nat): (Rule, nat)
  {
    if r.phase != CoolingDown || now < r.retryAt || r.routeToken != 0 then (r, 0)
    else (r.(routeToken := next, routeKey := key), next)
  }

  function ReleaseRoute(r: Rule, token: nat, now: Time): Rule
  {
    if token == 0 || r.routeToken != token then r
    else r.(routeToken := 0, routeKey := NO_KEY, retryAt := now + ABORT_DELAY)
  }

  // -------------------------------------------------------------- probation

  predicate Owns(r: Rule, token: nat)
  {
    r.phase == OnProbation && r.trial.Trial? && r.trial.token == token
  }

  function Establish(r: Rule, token: nat, key: Key, b: Binding, now: Time): (Rule, bool)
  {
    if !Owns(r, token) || r.trial.key != key || b.generation == 0 then (r, false)
    else
      (r.(trial := r.trial.(generation := b.generation, initialPackets := b.packetsSent, initialPayload := b.payloadBytes,
                            establishedAt := now, established := true)), true)
  }

  function Abort(r: Rule, token: nat, now: Time): Rule
  {
    if token == 0 || !Owns(r, token) then r
    else Unleased(r).(phase := CoolingDown, retryAt := now + ABORT_DELAY, trial := NoTrial)
  }

  function Fail(r: Rule, token: nat, now: Time): Rule
  {
    if token == 0 || !Owns(r, token) then r else Reenter(r, now)
  }

  function Max(a: nat, b: nat): nat
  {
    if a >= b then a else b
  }

  function UpdateEvidence(t: Trial, s: Sample): Trial
    requires t.Trial?
  {
    t.(payload := if s.payloadBytes >= t.initialPayload then Max(t.payload, s.payloadBytes - t.initialPayload) else t.payload,
       packets := if s.packetsSent >= t.initialPackets then Max(t.packets, s.packetsSent - t.initialPackets) else t.packets)
  }

  predicate Healthy(s: Sample)
  {
    !s.warmup && !s.rttBad && !s.lossBad && !s.stalled && s.blockedWrites == 0
  }

  /** The healthy streak after one sampled observation. */
  function CountHealthy(t: Trial, s: Sample): Trial
    requires t.Trial?
  {
    if !Healthy(s) then t.(healthySamples := 0, lastHealthyAt := 0)
    else if t.lastHealthyAt == 0 || s.at - t.lastHealthyAt >= SAMPLE_INTERVAL then
      t.(healthySamples := t.healthySamples + 1, lastHealthyAt := s.at)
    else t
  }

  predicate Observes(r: Rule, s: Sample)
  {
    && s.generation != 0
    && r.phase == OnProbation && r.trial.Trial? && r.trial.established
    && r.trial.key == s.key && r.trial.generation == s.generation
  }

  predicate Recovered(t: Trial, at: Time)
    requires t.Trial?
  {
    && at - t.establishedAt >= TRIAL_MIN_DURATION
    && (t.payload >= TRIAL_MIN_PAYLOAD || t.packets >= TRIAL_MIN_PACKETS)
    && t.healthySamples >= TRIAL_HEALTHY_COUNT
  }

  function NoteSample(r: Rule, s: Sample, now: Time): Rule
  {
    if !Observes(r, s) then r
    else
      var seen := UpdateEvidence(r.trial, s);
      if s.broken then Reenter(r, now)
      else if !s.sampled then r.(trial := seen)
      else
        var t := CountHealthy(seen, s);
        if Recovered(t, s.at) then
          Unleased(r).(phase := Closed, failures := 0, retryAt := 0, recent := [], trial := NoTrial)
        else if s.at - t.establishedAt >= TRIAL_MAX_DURATION then Reenter(r, now)
        else r.(trial := t)
  }

  // ------------------------------------------------------------ degradation

  function KeepRecent(events: seq<DegradationEvent>, cutoff: int): seq<DegradationEvent>
  {
    if events == [] then []
    else (if events[0].at >= cutoff then [events[0]] else []) + KeepRecent(events[1..], cutoff)
  }

  predicate SameGeneration(a: DegradationEvent, b: DegradationEvent)
  {
    a.key == b.key && a.generation != 0 && a.generation == b.generation
  }

  predicate Corroborates(previous: DegradationEvent, current: DegradationEvent)
  {
    && !(previous.generation == current.generation && previous.key == current.key)
    && -DEGRADATION_WINDOW <= current.at - previous.at <= DEGRADATION_WINDOW
    && (|| (current.remoteIP != "" && previous.remoteIP != "" && current.remoteIP != previous.remoteIP)
        || (previous.generation != 0 && current.generation != 0 && previous.generation != current.generation
            && (previous.key == current.key || (current.remoteIP != "" && current.remoteIP == previous.remoteIP))))
  }

  predicate ShouldOpen(events: seq<DegradationEvent>, current: DegradationEvent)
  {
    exists i :: 0 <= i < |events| && Corroborates(events[i], current)
  }

  predicate Duplicated(events: seq<DegradationEvent>, current: DegradationEvent)
  {
    exists i :: 0 <= i < |events| && SameGeneration(events[i], current)
  }

  function StartEvaluating(r: Rule, next: nat): Rule
  {
    Unleased(r).(phase := Evaluating, failures := 0, retryAt := 0, trial := NoTrial,
                 evalToken := next, evalInFlight := 0, evalDeadline := 0)
  }

  function NoteDegradation(r: Rule, ev: DegradationEvent, now: Time, next: nat): Rule
  {
    var e := Expire(r, ev.at);
    if e.phase == OnProbation && e.trial.Trial? && e.trial.generation == ev.generation && e.trial.key == ev.key then
      Reenter(e, now)
    else if e.phase != Closed then e
    else
      var kept := KeepRecent(e.recent, ev.at - DEGRADATION_WINDOW);
      if Duplicated(kept, ev) then e.(recent := kept)
      else
        var known := e.(recent := kept + [ev]);
        if ShouldOpen(known.recent, ev) then StartEvaluating(known, next) else known
  }

  // ------------------------------------------------------------- validation

  /** Cooldown entered on positive H2 evidence. */
  function Commit(r: Rule, token: nat, arming: bool, now: Time): Rule
  {
    r.(phase := CoolingDown, failures := 1, retryAt := now + CooldownStep(1),
       evalToken := 0, evalInFlight := 0, evalDeadline := 0,
       committed := r.scopes, scopes := [], scopesOwned := false,
       commitToken := if arming then token else 0, armInFlight := if arming then 1 else 0, armed := false,
       routeToken := 0, routeKey := NO_KEY)
  }

  predicate Validates(r: Rule, token: nat)
  {
    token != 0 && r.phase == Evaluating && r.evalToken == token && r.evalInFlight > 0
  }

  function ObserveValidation(r: Rule, token: nat, reachable: bool, now: Time): (Rule, bool)
  {
    if !Validates(r, token) then (r, false)
    else if Expired(r, now) then (BackToClosed(r), false)
    else if reachable then (Commit(r, token, r.scopes != [], now), true)
    else (r.(evalInFlight := r.evalInFlight - 1), false)
  }

  function AddScope(scopes: seq<Scope>, s: Scope): seq<Scope>
  {
    if s in scopes then scopes else scopes + [s]
  }

  datatype BlackholeClaim = BlackholeClaim(token: nat, claimed: bool, alreadyValidated: bool)

  function BeginBlackhole(r: Rule, s: Scope, now: Time, next: nat): (Rule, BlackholeClaim)
  {
    if s.slot == 0 then (r, BlackholeClaim(0, false, false))
    else
      var e := Expire(r, now);
      match e.phase
      case Closed =>
        (e.(phase := Evaluating, evalToken := next, evalInFlight := 1, evalDeadline := now + BLACKHOLE_PROBE_TIMEOUT,
            scopes := [s], committed := [], scopesOwned := true), BlackholeClaim(next, true, false))
      case Evaluating =>
        var joined := e.(scopes := AddScope(e.scopes, s));
        if e.evalInFlight > 0 then (joined, BlackholeClaim(e.evalToken, false, false))
        else
          (joined.(evalInFlight := e.evalInFlight + 1, evalDeadline := now + BLACKHOLE_PROBE_TIMEOUT),
           BlackholeClaim(e.evalToken, true, false))
      case CoolingDown =>
        if e.retryAt <= now then (Reenter(e, now), BlackholeClaim(0, false, true))
        else if e.commitToken != 0 then
          (e.(armInFlight := e.armInFlight + 1), BlackholeClaim(e.commitToken, false, true))
        else (e, BlackholeClaim(0, false, true))
      case OnProbation => (Reenter(e, now), BlackholeClaim(0, false, true))
  }

  datatype BlackholeVerdict = Stale | Pending | FailedOpen | Committed | AlreadyCommitted

  function CompleteBlackhole(r: Rule, token: nat, reachable: bool, now: Time): (Rule, BlackholeVerdict)
  {
    if token == 0 then (r, Stale)
    else if r.phase == CoolingDown then (r, AlreadyCommitted)
    else if !Validates(r, token) then (r, Stale)
    else if Expired(r, now) then (BackToClosed(r), Stale)
    else if reachable then (Commit(r, token, true, now), Committed)
    else if r.evalInFlight > 1 then (r.(evalInFlight := r.evalInFlight - 1), Pending)
    else (BackToClosed(r), FailedOpen)
  }

  // ----------------------------------------------------------------- scopes

  function TakeCommitted(r: Rule): (Rule, seq<Scope>)
  {
    (r.(committed := []), r.committed)
  }

  function WithoutStale(scopes: seq<Scope>, evaluated: seq<Scope>, active: seq<Scope>): seq<Scope>
  {
    if scopes == [] then []
    else
      (if scopes[0] in evaluated && scopes[0] !in active then [] else [scopes[0]])
      + WithoutStale(scopes[1..], evaluated, active)
  }

  /** The probe gives up its place in the cohort, and closes an evaluation it started. */
  function ProbeLeaves(r: Rule): Rule
  {
    if r.scopesOwned then BackToClosed(r)
    else r.(evalInFlight := if r.evalInFlight > 0 then r.evalInFlight - 1 else r.evalInFlight)
  }

  function Retain(r: Rule, token: nat, evaluated: seq<Scope>, active: seq<Scope>): (Rule, bool)
  {
    if token == 0 || r.phase != Evaluating || r.evalToken != token then (r, false)
    else
      var pruned := r.(scopes := WithoutStale(r.scopes, evaluated, active));
      if pruned.scopes != [] then (pruned, true) else (ProbeLeaves(pruned), false)
  }

  function AbandonProbe(r: Rule, token: nat): Rule
  {
    if token == 0 || r.phase != Evaluating || r.evalToken != token then r else ProbeLeaves(r)
  }

  function FinishArming(r: Rule, token: nat, armed: bool): (Rule, bool)
  {
    if token == 0 then (r, true)
    else if r.phase != CoolingDown || r.commitToken != token then (r, false)
    else
      var done := r.(armInFlight := if r.armInFlight > 0 then r.armInFlight - 1 else r.armInFlight, armed := r.armed || armed);
      if done.armInFlight == 0 && !done.armed then (BackToClosed(done), false) else (done, true)
  }
}
