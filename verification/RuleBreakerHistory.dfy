/**
 * What a rule does is a function of its history: when and why it last cooled
 * down, who holds its route lease, when its evaluation ends, and which
 * degradations it remembers. Times are stated in numbers.
 */
module RuleBreakerHistory {
  import opened Clock
  import opened Endpoints
  import opened RuleBreaker
  import opened RuleBreakerRuns

  /** `count` failures; cooling `until`; the lease and its endpoint; the end of the evaluation and whether a blackhole report opened it; remembered degradations. */
  datatype Story = Story(
    count: nat, until: Time, lease: nat, leaseKey: Key, deadline: Time, byReport: bool,
    recent: set<DegradationEvent>)

  const UNTOLD := Story(0, 0, 0, NO_KEY, 0, false, {})

  /** The length of the n-th cooldown: 5, 10, 20, then 30 minutes. */
  function Minutes(n: nat): nat
  {
    60_000_000_000 * (if n <= 1 then 5 else if n == 2 then 10 else if n == 3 then 20 else 30)
  }

  /** The phase an operation finds: an overdue evaluation counts as closed. */
  function Found(phase: Phase, st: Story, now: Time): Phase
  {
    if phase == Evaluating && st.deadline != 0 && st.deadline <= now then Closed else phase
  }

  function FailedAgain(st: Story, now: Time): Story
  {
    var n := if st.count < 4 then st.count + 1 else 4;
    st.(count := n, until := now + Minutes(n), lease := 0)
  }

  predicate SameConnection(a: DegradationEvent, b: DegradationEvent)
  {
    a.key == b.key && a.generation != 0 && a.generation == b.generation
  }

  /** The degradations remembered for a minute before the current one. */
  function Remembered(st: Story, ev: DegradationEvent): set<DegradationEvent>
  {
    set e | e in st.recent && e.at >= ev.at - 60_000_000_000
  }

  predicate Repeated(st: Story, ev: DegradationEvent)
  {
    exists e :: e in Remembered(st, ev) && SameConnection(e, ev)
  }

  /**
   * A second, independent sign: another remote address, or another generation
   * of the same endpoint or address, within a minute either way.
   */
  predicate Independent(e: DegradationEvent, ev: DegradationEvent)
  {
    && (e.generation != ev.generation || e.key != ev.key)
    && e.at - ev.at <= 60_000_000_000 && ev.at - e.at <= 60_000_000_000
    && (|| (e.remoteIP != "" && ev.remoteIP != "" && e.remoteIP != ev.remoteIP)
        || (e.generation != 0 && ev.generation != 0 && e.generation != ev.generation
            && (e.key == ev.key || (ev.remoteIP != "" && e.remoteIP == ev.remoteIP))))
  }

  /** The story goes on: told from the event and the phases around it. `idle`: nobody owes the evaluation a report. */
  function Continued(st: Story, phase: Phase, phase': Phase, idle: bool, ev: Event): Story
  {
    match ev.action
    case Begin(_, _) =>
      if phase' == Evaluating then st.(deadline := if st.deadline == 0 then ev.now + 30_000_000_000 else st.deadline)
      else if phase == CoolingDown && phase' == OnProbation then st.(lease := 0)
      else st
    case Claim(key) =>
      if phase == CoolingDown && st.until <= ev.now && st.lease == 0 then st.(lease := ev.next, leaseKey := key) else st
    case Release(lease) =>
      if phase == CoolingDown && lease != 0 && lease == st.lease then st.(lease := 0, until := ev.now + 30_000_000_000) else st
    case AbortTrial(_) =>
      if phase == OnProbation && phase' == CoolingDown then st.(until := ev.now + 30_000_000_000, lease := 0) else st
    case FailTrial(_) => if phase == OnProbation && phase' == CoolingDown then FailedAgain(st, ev.now) else st
    case Sampled(_) =>
      if phase == OnProbation && phase' == CoolingDown then FailedAgain(st, ev.now)
      else if phase == OnProbation && phase' == Closed then st.(recent := {})
      else st
    case Validated(_, _) => Committed(st, phase, phase', ev.now)
    case BlackholeDone(_, _) => Committed(st, phase, phase', ev.now)
    case Blackhole(scope) =>
      if scope.slot == 0 then st
      else if phase == OnProbation || (phase == CoolingDown && st.until <= ev.now) then FailedAgain(st, ev.now)
      else if Found(phase, st, ev.now) == Closed then st.(deadline := ev.now + 3_000_000_000, byReport := true)
      else if phase' == Evaluating && idle then st.(deadline := ev.now + 3_000_000_000)
      else st
    case Degraded(d) =>
      if phase == OnProbation then (if phase' == CoolingDown then FailedAgain(st, ev.now) else st)
      else if Found(phase, st, d.at) != Closed then st
      else
        st.(recent := if Repeated(st, d) then Remembered(st, d) else Remembered(st, d) + {d},
            deadline := if phase' == Evaluating then 0 else st.deadline, byReport := false)
    case _ => st
  }

  function Committed(st: Story, phase: Phase, phase': Phase, now: Time): Story
  {
    if phase == Evaluating && phase' == CoolingDown then st.(count := 1, until := now + 300_000_000_000, lease := 0) else st
  }

  ghost predicate Told(r: Rule, st: Story)
  {
    && (r.phase == CoolingDown || r.phase == OnProbation ==> r.failures == st.count)
    && (r.phase == CoolingDown ==> r.retryAt == st.until && r.routeToken == st.lease && (st.lease != 0 ==> r.routeKey == st.leaseKey))
    && (r.phase == Evaluating ==> r.evalDeadline == st.deadline && r.scopesOwned == st.byReport)
  }

  ghost predicate Recalls(r: Rule, st: Story)
  {
    forall e :: e in r.recent <==> e in st.recent
  }

  lemma AdmissionTold(r: Rule, st: Story, ev: Event)
    requires Shape(r) && Told(r, st) && ev.next > 0
    requires ev.action.Begin? || ev.action.Claim? || ev.action.Release? || ev.action.Look?
    ensures Told(RuleStep(r, ev), Continued(st, r.phase, RuleStep(r, ev).phase, r.evalInFlight == 0, ev))
    ensures RuleStep(r, ev).recent == r.recent
  {
  }

  lemma TrialTold(r: Rule, st: Story, ev: Event)
    requires Shape(r) && Told(r, st)
    requires ev.action.Bind? || ev.action.AbortTrial? || ev.action.FailTrial? || ev.action.Sampled?
    ensures Told(RuleStep(r, ev), Continued(st, r.phase, RuleStep(r, ev).phase, r.evalInFlight == 0, ev))
    ensures RuleStep(r, ev).recent == if r.phase == OnProbation && RuleStep(r, ev).phase == Closed then [] else r.recent
    ensures r.phase == OnProbation && RuleStep(r, ev).phase == Closed ==> ev.action.Sampled?
  {
    hide UpdateEvidence, CountHealthy, Recovered;
  }

  lemma ReportTold(r: Rule, st: Story, ev: Event)
    requires Shape(r) && Told(r, st)
    requires ev.action.Validated? || ev.action.BlackholeDone?
    ensures Told(RuleStep(r, ev), Continued(st, r.phase, RuleStep(r, ev).phase, r.evalInFlight == 0, ev))
    ensures RuleStep(r, ev).recent == r.recent
  {
  }

  lemma ScopesTold(r: Rule, st: Story, ev: Event)
    requires Shape(r) && Told(r, st)
    requires ev.action.Prune? || ev.action.ProbeAbandoned? || ev.action.Take? || ev.action.ArmingDone?
    ensures Told(RuleStep(r, ev), Continued(st, r.phase, RuleStep(r, ev).phase, r.evalInFlight == 0, ev))
    ensures RuleStep(r, ev).recent == r.recent
  {
    hide WithoutStale;
  }

  lemma BlackholeTold(r: Rule, st: Story, ev: Event)
    requires Shape(r) && Told(r, st) && ev.action.Blackhole? && ev.next > 0
    ensures Told(RuleStep(r, ev), Continued(st, r.phase, RuleStep(r, ev).phase, r.evalInFlight == 0, ev))
    ensures RuleStep(r, ev).recent == r.recent
  {
    hide AddScope;
  }

  lemma {:induction false} KeptIsRecent(events: seq<DegradationEvent>, cutoff: int, e: DegradationEvent)
    ensures e in KeepRecent(events, cutoff) <==> e in events && e.at >= cutoff
  {
    if events != [] {
      KeptIsRecent(events[1..], cutoff, e);
    }
  }

  lemma CorroborationIsIndependence(e: DegradationEvent, ev: DegradationEvent)
    ensures Corroborates(e, ev) <==> Independent(e, ev)
    ensures SameGeneration(e, ev) <==> SameConnection(e, ev)
  {
  }

  lemma KeptAreRemembered(r: Rule, st: Story, d: DegradationEvent)
    requires Recalls(r, st)
    ensures forall e :: e in KeepRecent(r.recent, d.at - DEGRADATION_WINDOW) <==> e in Remembered(st, d)
  {
    forall e ensures e in KeepRecent(r.recent, d.at - DEGRADATION_WINDOW) <==> e in Remembered(st, d) {
      KeptIsRecent(r.recent, d.at - DEGRADATION_WINDOW, e);
    }
  }

  lemma RepetitionIsDuplication(r: Rule, st: Story, d: DegradationEvent)
    requires Recalls(r, st)
    ensures Duplicated(KeepRecent(r.recent, d.at - DEGRADATION_WINDOW), d) <==> Repeated(st, d)
  {
    hide KeepRecent, Remembered, SameGeneration, SameConnection;
    var kept := KeepRecent(r.recent, d.at - DEGRADATION_WINDOW);
    KeptAreRemembered(r, st, d);
    if i :| 0 <= i < |kept| && SameGeneration(kept[i], d) {
      CorroborationIsIndependence(kept[i], d);
      assert kept[i] in kept;
    }
    if e :| e in Remembered(st, d) && SameConnection(e, d) {
      CorroborationIsIndependence(e, d);
      assert e in kept;
      var i :| 0 <= i < |kept| && kept[i] == e;
      assert SameGeneration(kept[i], d);
    }
  }

  lemma OpeningIsIndependence(r: Rule, st: Story, d: DegradationEvent)
    requires Recalls(r, st)
    ensures ShouldOpen(KeepRecent(r.recent, d.at - DEGRADATION_WINDOW) + [d], d) <==>
      exists e :: e in Remembered(st, d) && Independent(e, d)
  {
    hide KeepRecent, Remembered, Corroborates, Independent;
    var kept := KeepRecent(r.recent, d.at - DEGRADATION_WINDOW);
    var all := kept + [d];
    KeptAreRemembered(r, st, d);
    NotOnItsOwn(d);
    if i :| 0 <= i < |all| && Corroborates(all[i], d) {
      CorroborationIsIndependence(all[i], d);
      assert all[i] == d || all[i] in kept;
    }
    if e :| e in Remembered(st, d) && Independent(e, d) {
      CorroborationIsIndependence(e, d);
      assert e in all;
      var i :| 0 <= i < |all| && all[i] == e;
      assert Corroborates(all[i], d);
    }
  }

  lemma NotOnItsOwn(d: DegradationEvent)
    ensures !Corroborates(d, d)
  {
  }

  /** Where a degradation leaves a rule that it finds closed. */
  lemma DegradedTold(r: Rule, st: Story, ev: Event)
    requires Shape(r) && Told(r, st) && Recalls(r, st) && ev.action.Degraded? && ev.next > 0
    ensures
      var r' := RuleStep(r, ev);
      var st' := Continued(st, r.phase, r'.phase, r.evalInFlight == 0, ev);
      Told(r', st') && Recalls(r', st')
    ensures Found(r.phase, st, ev.action.event.at) == Closed ==>
      (RuleStep(r, ev).phase == Evaluating <==>
        !Repeated(st, ev.action.event) && exists e :: e in Remembered(st, ev.action.event) && Independent(e, ev.action.event))
  {
    hide KeepRecent, ShouldOpen, Duplicated, Remembered, Repeated, Independent;
    var d := ev.action.event;
    KeptAreRemembered(r, st, d);
    RepetitionIsDuplication(r, st, d);
    OpeningIsIndependence(r, st, d);
  }

  lemma StepIsTold(r: Rule, st: Story, ev: Event)
    requires Shape(r) && Told(r, st) && Recalls(r, st) && ev.next > 0
    ensures
      var r' := RuleStep(r, ev);
      var st' := Continued(st, r.phase, r'.phase, r.evalInFlight == 0, ev);
      Told(r', st') && Recalls(r', st')
  {
    hide Told, RuleStep, Shape;
    match ev.action
    case Degraded(_) => DegradedTold(r, st, ev);
    case Begin(_, _) => AdmissionTold(r, st, ev);
    case Claim(_) => AdmissionTold(r, st, ev);
    case Release(_) => AdmissionTold(r, st, ev);
    case Look => AdmissionTold(r, st, ev);
    case Bind(_, _, _) => TrialTold(r, st, ev);
    case AbortTrial(_) => TrialTold(r, st, ev);
    case FailTrial(_) => TrialTold(r, st, ev);
    case Sampled(_) => TrialTold(r, st, ev);
    case Validated(_, _) => ReportTold(r, st, ev);
    case BlackholeDone(_, _) => ReportTold(r, st, ev);
    case Blackhole(_) => BlackholeTold(r, st, ev);
    case _ => ScopesTold(r, st, ev);
  }

  // -------------------------------------------------------------- over runs

  /** Nobody owes the running evaluation a report. */
  predicate Idle(w: World)
  {
    w.b.validators[w.r.evalToken] == 0
  }

  function StoryOf(run: seq<Event>): Story
  {
    if run == [] then UNTOLD
    else
      var front, ev := run[..|run| - 1], run[|run| - 1];
      var w := After(START, front);
      Continued(StoryOf(front), w.r.phase, Next(w, ev).r.phase, Idle(w), ev)
  }

  lemma IdleIsNobody(w: World, st: Story, ev: Event)
    requires Inv(w)
    ensures Continued(st, w.r.phase, RuleStep(w.r, ev).phase, w.r.evalInFlight == 0, ev)
      == Continued(st, w.r.phase, RuleStep(w.r, ev).phase, Idle(w), ev)
  {
    hide RuleStep, FailedAgain, Remembered, Repeated;
    if w.r.phase != Evaluating && ev.action.Blackhole? {
      OnlyEvaluationsContinue(w.r, st, ev);
    }
  }

  lemma OnlyEvaluationsContinue(r: Rule, st: Story, ev: Event)
    requires Shape(r) && r.phase != Evaluating && ev.action.Blackhole?
    ensures RuleStep(r, ev).phase == Evaluating ==> r.phase == Closed
  {
  }

  lemma {:induction false} RunIsTold(run: seq<Event>)
    requires Legal(START, run)
    ensures Inv(After(START, run)) && Told(After(START, run).r, StoryOf(run)) && Recalls(After(START, run).r, StoryOf(run))
  {
    hide Inv, Next, Enabled, Told, Recalls, Continued, RuleStep;
    StartKeepsInv();
    RunKeepsInv(START, run);
    if run == [] {
      NothingTold();
    } else {
      var front, ev := run[..|run| - 1], run[|run| - 1];
      LastStep(run);
      RunIsTold(front);
      var w := After(START, front);
      DrawnTokens(w);
      UsedGrows(w, ev);
      StepIsTold(w.r, StoryOf(front), ev);
      IdleIsNobody(w, StoryOf(front), ev);
    }
  }

  lemma NothingTold()
    ensures Told(START.r, UNTOLD) && Recalls(START.r, UNTOLD)
  {
  }

  // --------------------------------------------------------------- theorems

  /**
   * What a dial gets in every reachable state, by the history alone: H3 of a
   * closed rule, an H2 validation of a running evaluation, nothing on probation,
   * and from a cooldown H3 on probation exactly when it is over and the route
   * lease, if one is held, is the caller's.
   */
  lemma AdmissionExactly(run: seq<Event>, key: Key, lease: nat, now: Time, next: nat)
    requires Legal(START, run) && next > After(START, run).used
    ensures
      var r, st := After(START, run).r, StoryOf(run);
      var (r', a) := BeginWithLease(r, key, lease, now, next);
      match Found(r.phase, st, now)
      case Closed => a == RuleAdmission(0, false, true) && r'.phase == Closed
      case Evaluating => a == RuleAdmission(r.evalToken, false, false) && r'.phase == Evaluating
      case OnProbation => a == RuleAdmission(0, false, false) && r' == r
      case CoolingDown =>
        if st.until <= now && (st.lease == 0 || (lease == st.lease && key == st.leaseKey)) then
          && a == RuleAdmission(next, true, true) && r'.phase == OnProbation && r'.failures == st.count
          && r'.trial == Trial(next, key, 0, now, false, 0, 0, 0, 0, 0, 0)
        else a == RuleAdmission(0, false, false) && r' == r
  {
    hide StoryOf, After, Inv, Recalls;
    RunIsTold(run);
    DrawnTokens(After(START, run));
  }

  /** A route lease is granted, in every reachable state, exactly by a cooldown that is over and has no holder. */
  lemma LeaseExactly(run: seq<Event>, key: Key, now: Time, next: nat)
    requires Legal(START, run) && next > After(START, run).used
    ensures
      var r, st := After(START, run).r, StoryOf(run);
      ClaimRoute(r, key, now, next).1 == if r.phase == CoolingDown && st.until <= now && st.lease == 0 then next else 0
  {
    hide StoryOf, After, Inv, Recalls;
    RunIsTold(run);
  }

  /**
   * A degradation opens an evaluation of a rule it finds closed, in every run,
   * exactly when no remembered report came from the same connection and some
   * remembered report is independent of it.
   */
  lemma DegradationOpensExactly(run: seq<Event>, d: DegradationEvent, now: Time, next: nat)
    requires Legal(START, run) && next > After(START, run).used
    requires Found(After(START, run).r.phase, StoryOf(run), d.at) == Closed
    ensures
      var st := StoryOf(run);
      NoteDegradation(After(START, run).r, d, now, next).phase == Evaluating <==>
        !Repeated(st, d) && exists e :: e in Remembered(st, d) && Independent(e, d)
  {
    hide StoryOf, After, Inv, Repeated, Remembered, Independent, NoteDegradation;
    RunIsTold(run);
    DrawnTokens(After(START, run));
    DegradedTold(After(START, run).r, StoryOf(run), Event(Degraded(d), now, next));
  }

  /**
   * What a validation report does in every run: nothing unless it is of the
   * running evaluation; it closes an overdue one; reachable in time, it commits
   * the cooldown; unreachable, a fallback's report just leaves, and a blackhole
   * probe's closes the evaluation when it was the last.
   */
  lemma ReportExactly(run: seq<Event>, token: nat, reachable: bool, now: Time)
    requires Legal(START, run) && token in After(START, run).b.validators
    ensures
      var w, st := After(START, run), StoryOf(run);
      var ours, overdue := w.r.phase == Evaluating && token == w.r.evalToken, Found(w.r.phase, st, now) == Closed;
      var (r1, committed) := ObserveValidation(w.r, token, reachable, now);
      var (r2, verdict) := CompleteBlackhole(w.r, token, reachable, now);
      && committed == (ours && !overdue && reachable)
      && (!ours ==> r1 == w.r && r2 == w.r && verdict == if w.r.phase == CoolingDown then AlreadyCommitted else Stale)
      && ObserveValidation(w.r, 0, reachable, now) == (w.r, false) && CompleteBlackhole(w.r, 0, reachable, now) == (w.r, Stale)
      && (ours && overdue ==> r1.phase == r2.phase == Closed && verdict == Stale)
      && (ours && !overdue && reachable ==>
            && r1.phase == r2.phase == CoolingDown && r1.failures == r2.failures == 1
            && r1.retryAt == r2.retryAt == now + 300_000_000_000
            && r1.committed == r2.committed == w.r.scopes && verdict == BlackholeVerdict.Committed
            && r2.commitToken == token && (r1.commitToken == if w.r.scopes == [] then 0 else token))
      && (ours && !overdue && !reachable ==>
            && r1 == w.r.(evalInFlight := w.b.validators[token] - 1)
            && (w.b.validators[token] > 1 ==> verdict == Pending && r2 == r1)
            && (w.b.validators[token] == 1 ==> verdict == FailedOpen && r2.phase == Closed))
  {
    hide StoryOf, After, Recalls;
    RunIsTold(run);
    DrawnTokens(After(START, run));
    hide Drawn, Proven;
  }

  /** Whoever may bind a probation binds it to the given generation, clock and counters, and nobody else changes anything. */
  lemma BindExactly(r: Rule, token: nat, key: Key, b: Binding, now: Time)
    ensures
      var (r', bound) := Establish(r, token, key, b, now);
      && (bound <==> r.phase == OnProbation && r.trial.Trial? && r.trial.token == token && r.trial.key == key && b.generation != 0)
      && (!bound ==> r' == r)
      && (bound ==>
            && r' == r.(trial := r'.trial) && r'.trial.Trial? && r'.trial.established && r'.trial.establishedAt == now
            && r'.trial.generation == b.generation && r'.trial.initialPackets == b.packetsSent
            && r'.trial.initialPayload == b.payloadBytes && r'.trial.token == token && r'.trial.key == key)
  {
  }

  /** A probation ended as failed: one more failure, of at most four, and the longer cooldown. */
  ghost predicate Fails(r: Rule, r': Rule, now: Time)
  {
    var n := if r.failures < 4 then r.failures + 1 else r.failures;
    r'.phase == CoolingDown && r'.failures == n && r'.retryAt == now + Minutes(n) && r'.trial == NoTrial && r'.routeToken == 0
  }

  /**
   * How a probation ends before it is earned: its owner aborts it for 30 s
   * without another failure, or fails it; a degradation of its own connection
   * fails it; nobody else's report touches it.
   */
  lemma ProbationEndsExactly(r: Rule, token: nat, d: DegradationEvent, now: Time, next: nat)
    requires r.phase == OnProbation && r.trial.Trial? && token != 0
    ensures r.trial.token == token ==>
      var r' := Abort(r, token, now);
      r'.phase == CoolingDown && r'.failures == r.failures && r'.retryAt == now + 30_000_000_000 && r'.trial == NoTrial
    ensures r.trial.token == token ==> Fails(r, Fail(r, token, now), now)
    ensures r.trial.token != token ==> Abort(r, token, now) == Fail(r, token, now) == r
    ensures
      var r' := NoteDegradation(r, d, now, next);
      if d.generation == r.trial.generation && d.key == r.trial.key then Fails(r, r', now) else r' == r
  {
  }

  /**
   * What a blackhole report gets in every run: a closed rule opens an evaluation
   * and the caller probes it; a running one is joined, and probed only if nobody
   * does; a running cooldown is joined for arming; an overdue cooldown and a
   * probation fail. A report without a slot gets nothing.
   */
  lemma BlackholeExactly(run: seq<Event>, s: Scope, now: Time, next: nat)
    requires Legal(START, run) && next > After(START, run).used
    ensures s.slot == 0 ==> BeginBlackhole(After(START, run).r, s, now, next) == (After(START, run).r, BlackholeClaim(0, false, false))
    ensures s.slot != 0 ==>
      var w, st := After(START, run), StoryOf(run);
      var (r', c) := BeginBlackhole(w.r, s, now, next);
      match Found(w.r.phase, st, now)
      case Closed => c == BlackholeClaim(next, true, false) && r'.phase == Evaluating && r'.scopes == [s]
      case Evaluating => c == BlackholeClaim(w.r.evalToken, Idle(w), false) && r'.phase == Evaluating && s in r'.scopes
      case OnProbation => c == BlackholeClaim(0, false, true) && Fails(w.r, r', now)
      case CoolingDown =>
        if st.until <= now then c == BlackholeClaim(0, false, true) && Fails(w.r, r', now)
        else c == BlackholeClaim(w.r.commitToken, false, true) && r'.retryAt == w.r.retryAt
  {
    hide StoryOf, After, Recalls;
    RunIsTold(run);
    DrawnTokens(After(START, run));
    hide Drawn, Proven;
  }

  /**
   * What a probe that leaves its evaluation does in every run: given up, or left
   * without scopes by a pruning, it closes an evaluation that a blackhole report
   * had opened, and only leaves the cohort of one that degradations had opened.
   */
  lemma ProbeLeavesExactly(run: seq<Event>, token: nat, evaluated: seq<Scope>, active: seq<Scope>)
    requires Legal(START, run) && token in After(START, run).b.validators
    ensures
      var w, st := After(START, run), StoryOf(run);
      var ours := w.r.phase == Evaluating && token == w.r.evalToken;
      var given := AbandonProbe(w.r, token);
      var (pruned, kept) := Retain(w.r, token, evaluated, active);
      && (kept <==> ours && exists s :: s in w.r.scopes && !(s in evaluated && s !in active))
      && (!ours ==> given == w.r && pruned == w.r)
      && (ours && st.byReport ==> given.phase == Closed && (!kept ==> pruned.phase == Closed))
      && (ours && !st.byReport ==>
            && given == w.r.(evalInFlight := w.b.validators[token] - 1)
            && (!kept ==> pruned == given.(scopes := [])))
      && (kept ==> pruned == w.r.(scopes := pruned.scopes))
  {
    hide StoryOf, After, Recalls, WithoutStale;
    RunIsTold(run);
    var w := After(START, run);
    DrawnTokens(w);
    hide Drawn, Proven;
    var rest := WithoutStale(w.r.scopes, evaluated, active);
    forall s ensures s in rest <==> s in w.r.scopes && !(s in evaluated && s !in active) {
      WithoutStaleIsExact(w.r.scopes, evaluated, active, s);
    }
    if rest != [] {
      assert rest[0] in rest;
    }
  }

  /**
   * What an arming report answers in every run: under a commit that is over,
   * nothing is kept; the cooldown is kept while others still arm or once anybody
   * has armed a drain; the last report of a commit nobody armed closes the rule.
   */
  lemma ArmingExactly(run: seq<Event>, token: nat, armed: bool)
    requires Legal(START, run) && token in After(START, run).b.arming
    ensures
      var w := After(START, run);
      var (r', kept) := FinishArming(w.r, token, armed);
      && FinishArming(w.r, 0, armed) == (w.r, true)
      && (kept <==> token == w.r.commitToken && (w.b.arming[token] > 1 || armed || token in w.b.armedBy))
      && (token != w.r.commitToken ==> r' == w.r)
      && (token == w.r.commitToken ==> r'.phase == if kept then CoolingDown else Closed)
      && (kept ==> r' == w.r.(armInFlight := w.b.arming[token] - 1, armed := armed || token in w.b.armedBy))
  {
    hide After;
    StartKeepsInv();
    RunKeepsInv(START, run);
    var w := After(START, run);
    DrawnTokens(w);
    hide Proven, Drawn;
  }

  // ------------------------------------------------- scopes to be handed out

  /** Only a cooldown has a retry time and scopes waiting for their drains; a lease that nobody holds names no endpoint. */
  ghost predicate Tidy(r: Rule)
  {
    && (r.phase != CoolingDown ==> r.retryAt == 0 && r.committed == [])
    && (r.routeToken == 0 ==> r.routeKey == NO_KEY)
    && Once(r.scopes)
  }

  ghost predicate Once(scopes: seq<Scope>)
  {
    forall i, j :: 0 <= i < j < |scopes| ==> scopes[i] != scopes[j]
  }

  lemma {:induction false} FilteredOnce(scopes: seq<Scope>, evaluated: seq<Scope>, active: seq<Scope>)
    requires Once(scopes)
    ensures Once(WithoutStale(scopes, evaluated, active))
  {
    if scopes != [] {
      FilteredOnce(scopes[1..], evaluated, active);
      WithoutStaleIsExact(scopes[1..], evaluated, active, scopes[0]);
    }
  }

  /** Scopes come to wait only from the evaluation that commits, all of them together, and leave together. */
  ghost predicate HandsOver(r: Rule, r': Rule)
  {
    || r'.committed == r.committed || r'.committed == []
    || (r.phase == Evaluating && r'.phase == CoolingDown && r'.committed == r.scopes)
  }

  lemma AdmissionTidy(r: Rule, key: Key, lease: nat, now: Time, next: nat)
    requires Shape(r) && Tidy(r) && next > 0
    ensures
      && var a, b, c, d := BeginWithLease(r, key, lease, now, next).0, ClaimRoute(r, key, now, next).0,
             ReleaseRoute(r, lease, now), Expire(r, now);
         Tidy(a) && Tidy(b) && Tidy(c) && Tidy(d) && HandsOver(r, a) && HandsOver(r, b) && HandsOver(r, c) && HandsOver(r, d)
  {
  }

  lemma TrialTidy(r: Rule, token: nat, key: Key, binding: Binding, sample: Sample, now: Time)
    requires Shape(r) && Tidy(r)
    ensures Tidy(Establish(r, token, key, binding, now).0) && HandsOver(r, Establish(r, token, key, binding, now).0)
    ensures Tidy(Abort(r, token, now)) && HandsOver(r, Abort(r, token, now))
    ensures Tidy(Fail(r, token, now)) && HandsOver(r, Fail(r, token, now))
    ensures Tidy(NoteSample(r, sample, now)) && HandsOver(r, NoteSample(r, sample, now))
  {
    hide Recovered;
  }

  lemma EvaluationTidy(r: Rule, event: DegradationEvent, scope: Scope, now: Time, next: nat)
    requires Shape(r) && Tidy(r)
    ensures Tidy(NoteDegradation(r, event, now, next)) && HandsOver(r, NoteDegradation(r, event, now, next))
    ensures Tidy(BeginBlackhole(r, scope, now, next).0) && HandsOver(r, BeginBlackhole(r, scope, now, next).0)
  {
    hide KeepRecent, ShouldOpen, Duplicated;
  }

  lemma ReportTidy(r: Rule, token: nat, reachable: bool, now: Time)
    requires Shape(r) && Tidy(r)
    ensures Tidy(ObserveValidation(r, token, reachable, now).0) && HandsOver(r, ObserveValidation(r, token, reachable, now).0)
    ensures Tidy(CompleteBlackhole(r, token, reachable, now).0) && HandsOver(r, CompleteBlackhole(r, token, reachable, now).0)
  {
  }

  lemma ScopesTidy(r: Rule, token: nat, evaluated: seq<Scope>, active: seq<Scope>, armed: bool)
    requires Shape(r) && Tidy(r)
    ensures Tidy(Retain(r, token, evaluated, active).0) && HandsOver(r, Retain(r, token, evaluated, active).0)
    ensures Tidy(AbandonProbe(r, token)) && HandsOver(r, AbandonProbe(r, token))
    ensures Tidy(TakeCommitted(r).0) && HandsOver(r, TakeCommitted(r).0)
    ensures Tidy(FinishArming(r, token, armed).0) && HandsOver(r, FinishArming(r, token, armed).0)
  {
    FilteredOnce(r.scopes, evaluated, active);
    hide WithoutStale;
  }

  lemma StepTidy(r: Rule, ev: Event)
    requires Shape(r) && Tidy(r) && ev.next > 0
    ensures Tidy(RuleStep(r, ev)) && HandsOver(r, RuleStep(r, ev))
  {
    hide Tidy, HandsOver, Shape, BeginWithLease, ClaimRoute, ReleaseRoute, Establish, Abort, Fail, ObserveValidation,
      NoteDegradation, NoteSample, BeginBlackhole, CompleteBlackhole, Retain, AbandonProbe, TakeCommitted, FinishArming, Expire;
    match ev.action
    case Begin(key, lease) => AdmissionTidy(r, key, lease, ev.now, ev.next);
    case Claim(key) => AdmissionTidy(r, key, 0, ev.now, ev.next);
    case Release(lease) => AdmissionTidy(r, NO_KEY, lease, ev.now, ev.next);
    case Look => AdmissionTidy(r, NO_KEY, 0, ev.now, ev.next);
    case Bind(token, key, binding) => TrialTidy(r, token, key, binding, NO_SAMPLE, ev.now);
    case AbortTrial(token) => TrialTidy(r, token, NO_KEY, NO_BINDING, NO_SAMPLE, ev.now);
    case FailTrial(token) => TrialTidy(r, token, NO_KEY, NO_BINDING, NO_SAMPLE, ev.now);
    case Sampled(sample) => TrialTidy(r, 0, NO_KEY, NO_BINDING, sample, ev.now);
    case Validated(token, reachable) => ReportTidy(r, token, reachable, ev.now);
    case BlackholeDone(token, reachable) => ReportTidy(r, token, reachable, ev.now);
    case Degraded(event) => EvaluationTidy(r, event, NO_SCOPE, ev.now, ev.next);
    case Blackhole(scope) => EvaluationTidy(r, NO_EVENT, scope, ev.now, ev.next);
    case Prune(token, evaluated, active) => ScopesTidy(r, token, evaluated, active, false);
    case ProbeAbandoned(token) => ScopesTidy(r, token, [], [], false);
    case Take => ScopesTidy(r, 0, [], [], false);
    case ArmingDone(token, armed) => ScopesTidy(r, token, [], [], armed);
  }

  lemma ShapeHolds(w: World)
    requires Inv(w)
    ensures Shape(w.r)
  {
  }

  lemma {:induction false} RunTidy(run: seq<Event>)
    requires Legal(START, run)
    ensures Inv(After(START, run)) && Shape(After(START, run).r) && Tidy(After(START, run).r)
  {
    hide Inv, Enabled, Tidy, RuleStep, BookStep, Shape;
    StartKeepsInv();
    RunKeepsInv(START, run);
    ShapeHolds(After(START, run));
    if run == [] {
      StartTidy();
    } else {
      var front, ev := run[..|run| - 1], run[|run| - 1];
      LastStep(run);
      RunTidy(front);
      NextToken(After(START, front), ev);
      StepTidy(After(START, front).r, ev);
    }
  }

  lemma StartTidy()
    ensures Tidy(START.r)
  {
  }

  lemma NextToken(w: World, ev: Event)
    requires Enabled(w, ev)
    ensures ev.next > 0
  {
  }

  /**
   * Scopes to be drained wait only while the rule cools down, in every run: the
   * evaluation that commits hands over all of its scopes, they are taken once
   * and together, and whatever ends the cooldown forgets them. No scope is
   * listed twice.
   */
  lemma CommittedScopesWaitInCooldown(run: seq<Event>, ev: Event)
    requires Legal(START, run) && Enabled(After(START, run), ev)
    ensures
      var r := After(START, run).r;
      var r' := RuleStep(r, ev);
      && (r.phase != CoolingDown ==> r.committed == [] && r.retryAt == 0)
      && (r.routeToken == 0 ==> r.routeKey == NO_KEY)
      && (forall i, j :: 0 <= i < j < |r.scopes| ==> r.scopes[i] != r.scopes[j])
      && (|| r'.committed == r.committed || r'.committed == []
          || (r.phase == Evaluating && r'.phase == CoolingDown && r'.committed == r.scopes))
      && TakeCommitted(r).1 == r.committed && TakeCommitted(r).0.committed == []
  {
    hide Inv, Shape, RuleStep, After;
    RunTidy(run);
    NextToken(After(START, run), ev);
    StepTidy(After(START, run).r, ev);
  }
}
