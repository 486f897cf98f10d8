/**
 * Every run of one rule of the H3 breaker: who may use H3, what must have been
 * seen before H3 is suppressed or restored, and who still owes a report.
 */
module RuleBreakerRuns {
  import opened Clock
  import opened Endpoints
  import opened RuleBreaker

  datatype Action =
    | Begin(key: Key, lease: nat)
    | Claim(key: Key)
    | Release(lease: nat)
    | Bind(token: nat, key: Key, binding: Binding)
    | AbortTrial(token: nat)
    | FailTrial(token: nat)
    | Validated(token: nat, reachable: bool)
    | Degraded(event: DegradationEvent)
    | Sampled(sample: Sample)
    | Blackhole(scope: Scope)
    | BlackholeDone(token: nat, reachable: bool)
    | Prune(token: nat, evaluated: seq<Scope>, active: seq<Scope>)
    | ProbeAbandoned(token: nat)
    | Take
    | ArmingDone(token: nat, armed: bool)
    | Look

  /** An action, the clock at that moment, and the next unused token of the breaker. */
  datatype Event = Event(action: Action, now: Time, next: nat)

  datatype Proof = NoProof | H2Reachable(token: nat, at: Time, deadline: Time)

  /**
   * What has happened around the rule: unreported H2 validations and arming
   * duties by token, tokens for which a drain was armed, the evaluation with
   * which it last left Closed and the H2 proof since then, and the observations
   * of the current probation with the positions of its healthy streak.
   */
  datatype Book = Book(
    validators: multiset<nat>, arming: multiset<nat>, armedBy: set<nat>,
    left: nat, proof: Proof,
    samples: seq<Sample>, streak: seq<nat>)

  datatype World = World(r: Rule, b: Book, used: nat)

  const START := World(FRESH_RULE, Book(multiset{}, multiset{}, {}, 0, NoProof, [], []), 0)

  function RuleStep(r: Rule, ev: Event): Rule
  {
    match ev.action
    case Begin(key, lease) => BeginWithLease(r, key, lease, ev.now, ev.next).0
    case Claim(key) => ClaimRoute(r, key, ev.now, ev.next).0
    case Release(lease) => ReleaseRoute(r, lease, ev.now)
    case Bind(token, key, binding) => Establish(r, token, key, binding, ev.now).0
    case AbortTrial(token) => Abort(r, token, ev.now)
    case FailTrial(token) => Fail(r, token, ev.now)
    case Validated(token, reachable) => ObserveValidation(r, token, reachable, ev.now).0
    case Degraded(event) => NoteDegradation(r, event, ev.now, ev.next)
    case Sampled(sample) => NoteSample(r, sample, ev.now)
    case Blackhole(scope) => BeginBlackhole(r, scope, ev.now, ev.next).0
    case BlackholeDone(token, reachable) => CompleteBlackhole(r, token, reachable, ev.now).0
    case Prune(token, evaluated, active) => Retain(r, token, evaluated, active).0
    case ProbeAbandoned(token) => AbandonProbe(r, token)
    case Take => TakeCommitted(r).0
    case ArmingDone(token, armed) => FinishArming(r, token, armed).0
    case Look => Expire(r, ev.now)
  }

  /** Reporters report what they hold, a probation is bound once, and observations carry a time. */
  predicate Enabled(w: World, ev: Event)
  {
    && ev.next > w.used
    && match ev.action
       case Validated(token, _) => token in w.b.validators
       case BlackholeDone(token, _) => token in w.b.validators
       case Prune(token, _, _) => token in w.b.validators
       case ProbeAbandoned(token) => token in w.b.validators
       case ArmingDone(token, _) => token in w.b.arming
       case Bind(token, _, _) => token != 0 && !(Owns(w.r, token) && w.r.trial.established)
       case Sampled(s) => s.at > 0
       case _ => true
  }

  /** The H2 validations still to be reported. */
  function Validators(w: World, ev: Event): multiset<nat>
  {
    var v := w.b.validators;
    match ev.action
    case Begin(key, lease) =>
      var a := BeginWithLease(w.r, key, lease, ev.now, ev.next).1;
      if !a.allowed && a.token != 0 then v + multiset{a.token} else v
    case Blackhole(scope) =>
      var c := BeginBlackhole(w.r, scope, ev.now, ev.next).1;
      if c.claimed then v + multiset{c.token} else v
    case Validated(token, _) => v - multiset{token}
    case BlackholeDone(token, _) => v - multiset{token}
    case Prune(token, evaluated, active) => if Retain(w.r, token, evaluated, active).1 then v else v - multiset{token}
    case ProbeAbandoned(token) => v - multiset{token}
    case _ => v
  }

  /** The committer of a cooldown and every later blackhole under it owe one arming report each. */
  function Arming(w: World, ev: Event): multiset<nat>
  {
    var a := w.b.arming;
    match ev.action
    case Validated(token, _) =>
      if RuleStep(w.r, ev).commitToken == token && w.r.commitToken != token then a + multiset{token} else a
    case BlackholeDone(token, _) =>
      if RuleStep(w.r, ev).commitToken == token && w.r.commitToken != token then a + multiset{token} else a
    case Blackhole(scope) =>
      var c := BeginBlackhole(w.r, scope, ev.now, ev.next).1;
      if c.alreadyValidated && c.token != 0 then a + multiset{c.token} else a
    case ArmingDone(token, _) => a - multiset{token}
    case _ => a
  }

  /** An H2 validation of the current evaluation reporting reachable strictly before its deadline. */
  predicate Proves(r: Rule, ev: Event)
  {
    && (ev.action.Validated? || ev.action.BlackholeDone?) && ev.action.reachable
    && r.phase == Evaluating && ev.action.token == r.evalToken && ev.now < r.evalDeadline
  }

  /** The positions of the healthy streak after observation n. */
  function Extended(t: Trial, s: Sample, n: nat, streak: seq<nat>): seq<nat>
    requires t.Trial?
  {
    if !s.sampled then streak
    else if !Healthy(s) then []
    else if t.lastHealthyAt == 0 || s.at - t.lastHealthyAt >= SAMPLE_INTERVAL then streak + [n]
    else streak
  }

  function BookStep(w: World, ev: Event): Book
  {
    var r, b := w.r, w.b;
    var r' := RuleStep(r, ev);
    var leftClosed := r'.phase == Evaluating && r'.evalToken != r.evalToken;
    var starts := (ev.action.Begin? || ev.action.Bind?) && r'.trial != r.trial;
    Book(
      Validators(w, ev),
      Arming(w, ev),
      if ev.action.ArmingDone? && ev.action.armed then b.armedBy + {ev.action.token} else b.armedBy,
      if r'.phase == Closed then 0 else if leftClosed then r'.evalToken else b.left,
      if r'.phase == Closed || leftClosed then NoProof
      else if Proves(r, ev) then H2Reachable(ev.action.token, ev.now, r.evalDeadline) else b.proof,
      if starts then []
      else if ev.action.Sampled? && Observes(r, ev.action.sample) then b.samples + [ev.action.sample] else b.samples,
      if starts then []
      else if ev.action.Sampled? && Observes(r, ev.action.sample) then
        Extended(r.trial, ev.action.sample, |b.samples|, b.streak) else b.streak)
  }

  /** Whether the step hands out the next token: to an evaluation, a route lease or a probation. */
  predicate HandsOut(r: Rule, next: nat)
  {
    r.evalToken == next || r.routeToken == next || (r.trial.Trial? && r.trial.token == next)
  }

  /** `used`: the greatest token handed out so far; it stays put when none is drawn. */
  function Next(w: World, ev: Event): World
  {
    var r := RuleStep(w.r, ev);
    World(r, BookStep(w, ev), if HandsOut(r, ev.next) then ev.next else w.used)
  }

  ghost predicate Legal(w: World, run: seq<Event>)
    decreases |run|
  {
    run == [] || (Enabled(w, run[0]) && Legal(Next(w, run[0]), run[1..]))
  }

  function After(w: World, run: seq<Event>): World
    decreases |run|
  {
    if run == [] then w else After(Next(w, run[0]), run[1..])
  }

  // ------------------------------------------------------------- invariants

  /** What each phase of a rule carries, on its own. */
  ghost predicate Shape(r: Rule)
  {
    && (r.phase == Closed || r.phase == Evaluating ==> r.failures == 0)
    && (r.phase == CoolingDown || r.phase == OnProbation ==> 1 <= r.failures <= COOLDOWN_STEPS)
    && (r.phase == Evaluating ==> r.evalToken > 0 && r.evalInFlight >= 0)
    && (r.phase == Evaluating && r.evalInFlight > 0 ==> r.evalDeadline > 0)
    && (r.phase != Evaluating ==> r.evalToken == 0 && r.evalInFlight == 0 && r.evalDeadline == 0 && r.scopes == [] && !r.scopesOwned)
    && (r.phase == OnProbation ==> r.trial.Trial? && r.trial.token > 0)
    && (r.phase != OnProbation ==> r.trial == NoTrial)
    && (r.phase != CoolingDown ==> r.routeToken == 0 && r.commitToken == 0)
    && (r.commitToken == 0 ==> r.armInFlight == 0 && !r.armed)
    && (r.commitToken != 0 ==> r.armInFlight >= 0 && (r.armInFlight > 0 || r.armed))
  }

  ghost predicate Accounted(w: World)
  {
    && Shape(w.r)
    && (w.r.phase == Evaluating ==> w.r.evalInFlight == w.b.validators[w.r.evalToken])
    && (w.r.commitToken != 0 ==> w.r.armInFlight == w.b.arming[w.r.commitToken])
    && (w.r.commitToken != 0 ==> (w.r.armed <==> w.r.commitToken in w.b.armedBy))
    && (w.r.evalToken != 0 ==> w.r.evalToken !in w.b.arming && w.r.evalToken !in w.b.armedBy)
  }

  /** Every token in play has been drawn from the counter. */
  ghost predicate Drawn(w: World)
  {
    && w.r.evalToken <= w.used && w.r.commitToken <= w.used && w.r.routeToken <= w.used
    && (w.r.trial.Trial? ==> w.r.trial.token <= w.used)
    && (forall t :: t in w.b.validators ==> 0 < t <= w.used)
    && (forall t :: t in w.b.arming ==> 0 < t <= w.used)
    && (forall t :: t in w.b.armedBy ==> 0 < t <= w.used)
  }

  /** H3 is held back only on an H2 validation of the evaluation that left Closed, in time. */
  ghost predicate Proven(w: World)
  {
    && (w.r.phase == Evaluating ==> w.b.left == w.r.evalToken)
    && (w.r.phase == CoolingDown || w.r.phase == OnProbation ==>
          && w.b.proof.H2Reachable? && w.b.proof.token == w.b.left != 0
          && w.b.proof.at < w.b.proof.deadline)
  }

  lemma AdmissionKeepsShape(r: Rule, key: Key, lease: nat, now: Time, next: nat)
    requires Shape(r) && next > 0
    ensures Shape(BeginWithLease(r, key, lease, now, next).0)
    ensures Shape(ClaimRoute(r, key, now, next).0) && Shape(ReleaseRoute(r, lease, now))
    ensures Shape(Expire(r, now))
  {
  }

  lemma TrialKeepsShape(r: Rule, token: nat, key: Key, binding: Binding, sample: Sample, now: Time)
    requires Shape(r)
    ensures Shape(Establish(r, token, key, binding, now).0)
    ensures Shape(Abort(r, token, now)) && Shape(Fail(r, token, now)) && Shape(NoteSample(r, sample, now))
  {
  }

  lemma ValidationKeepsShape(r: Rule, token: nat, reachable: bool, now: Time)
    requires Shape(r)
    ensures Shape(ObserveValidation(r, token, reachable, now).0)
    ensures Shape(CompleteBlackhole(r, token, reachable, now).0)
  {
  }

  lemma DegradationKeepsShape(r: Rule, event: DegradationEvent, now: Time, next: nat)
    requires Shape(r) && next > 0
    ensures Shape(NoteDegradation(r, event, now, next))
  {
    hide KeepRecent, ShouldOpen, Duplicated;
  }

  lemma BlackholeKeepsShape(r: Rule, scope: Scope, now: Time, next: nat)
    requires Shape(r) && next > 0
    ensures Shape(BeginBlackhole(r, scope, now, next).0)
  {
  }

  lemma ScopesKeepShape(r: Rule, token: nat, evaluated: seq<Scope>, active: seq<Scope>, armed: bool)
    requires Shape(r)
    ensures Shape(Retain(r, token, evaluated, active).0) && Shape(AbandonProbe(r, token))
    ensures Shape(TakeCommitted(r).0) && Shape(FinishArming(r, token, armed).0)
  {
  }

  lemma ShapeKept(r: Rule, ev: Event)
    requires Shape(r) && ev.next > 0
    ensures Shape(RuleStep(r, ev))
  {
    hide Shape, BeginWithLease, ClaimRoute, ReleaseRoute, Establish, Abort, Fail, ObserveValidation, NoteDegradation,
      NoteSample, BeginBlackhole, CompleteBlackhole, Retain, AbandonProbe, TakeCommitted, FinishArming, Expire;
    match ev.action
    case Begin(key, lease) => AdmissionKeepsShape(r, key, lease, ev.now, ev.next);
    case Claim(key) => AdmissionKeepsShape(r, key, 0, ev.now, ev.next);
    case Release(lease) => AdmissionKeepsShape(r, NO_KEY, lease, ev.now, ev.next);
    case Look => AdmissionKeepsShape(r, NO_KEY, 0, ev.now, ev.next);
    case Bind(token, key, binding) => TrialKeepsShape(r, token, key, binding, NO_SAMPLE, ev.now);
    case AbortTrial(token) => TrialKeepsShape(r, token, NO_KEY, NO_BINDING, NO_SAMPLE, ev.now);
    case FailTrial(token) => TrialKeepsShape(r, token, NO_KEY, NO_BINDING, NO_SAMPLE, ev.now);
    case Sampled(sample) => TrialKeepsShape(r, 0, NO_KEY, NO_BINDING, sample, ev.now);
    case Validated(token, reachable) => ValidationKeepsShape(r, token, reachable, ev.now);
    case BlackholeDone(token, reachable) => ValidationKeepsShape(r, token, reachable, ev.now);
    case Degraded(event) => DegradationKeepsShape(r, event, ev.now, ev.next);
    case Blackhole(scope) => BlackholeKeepsShape(r, scope, ev.now, ev.next);
    case Prune(token, evaluated, active) => ScopesKeepShape(r, token, evaluated, active, false);
    case ProbeAbandoned(token) => ScopesKeepShape(r, token, [], [], false);
    case Take => ScopesKeepShape(r, 0, [], [], false);
    case ArmingDone(token, armed) => ScopesKeepShape(r, token, [], [], armed);
  }

  const NO_BINDING := Binding(0, 0, 0)
  const NO_SAMPLE := Sample(NO_KEY, 0, 0, 0, 0, false, false, false, false, false, false, 0)

  ghost predicate Inv(w: World)
  {
    Accounted(w) && Proven(w) && Drawn(w)
  }

  /** What the proofs below use of Drawn: the next token is new to every ledger. */
  ghost predicate NextIsNew(w: World, ev: Event)
  {
    ev.next !in w.b.validators && ev.next !in w.b.arming && ev.next !in w.b.armedBy
    && ev.next != w.r.evalToken && ev.next != w.r.commitToken && ev.next > 0
  }

  lemma {:induction false} NewToken(w: World, ev: Event)
    requires Inv(w) && Enabled(w, ev)
    ensures NextIsNew(w, ev) && 0 !in w.b.validators && 0 !in w.b.arming
  {
    hide Accounted, Proven;
  }

  /** A step draws at most the next token, and commits only to the evaluation it closes. */
  ghost predicate DrawsOnly(r: Rule, r': Rule, next: nat)
  {
    && (r'.evalToken == 0 || r'.evalToken == r.evalToken || r'.evalToken == next)
    && (r'.routeToken == 0 || r'.routeToken == r.routeToken || r'.routeToken == next)
    && (r'.commitToken == 0 || r'.commitToken == r.commitToken || r'.commitToken == r.evalToken)
    && (r'.trial.Trial? ==> r'.trial.token == next || (r.trial.Trial? && r'.trial.token == r.trial.token))
  }

  lemma AdmissionDraws(r: Rule, key: Key, lease: nat, now: Time, next: nat)
    ensures DrawsOnly(r, BeginWithLease(r, key, lease, now, next).0, next)
    ensures DrawsOnly(r, ClaimRoute(r, key, now, next).0, next) && DrawsOnly(r, ReleaseRoute(r, lease, now), next)
    ensures DrawsOnly(r, Expire(r, now), next)
  {
  }

  lemma TrialDraws(r: Rule, token: nat, key: Key, binding: Binding, sample: Sample, now: Time, next: nat)
    ensures DrawsOnly(r, Establish(r, token, key, binding, now).0, next)
    ensures DrawsOnly(r, Abort(r, token, now), next) && DrawsOnly(r, Fail(r, token, now), next)
    ensures DrawsOnly(r, NoteSample(r, sample, now), next)
  {
    hide Recovered;
  }

  lemma EvaluationDraws(r: Rule, event: DegradationEvent, scope: Scope, now: Time, next: nat)
    ensures DrawsOnly(r, NoteDegradation(r, event, now, next), next)
    ensures DrawsOnly(r, BeginBlackhole(r, scope, now, next).0, next)
  {
    hide KeepRecent, ShouldOpen, Duplicated, AddScope;
  }

  lemma ReportDraws(r: Rule, token: nat, reachable: bool, now: Time, next: nat)
    ensures DrawsOnly(r, ObserveValidation(r, token, reachable, now).0, next)
    ensures DrawsOnly(r, CompleteBlackhole(r, token, reachable, now).0, next)
  {
  }

  lemma ScopesDraw(r: Rule, token: nat, evaluated: seq<Scope>, active: seq<Scope>, armed: bool, next: nat)
    ensures DrawsOnly(r, Retain(r, token, evaluated, active).0, next) && DrawsOnly(r, AbandonProbe(r, token), next)
    ensures DrawsOnly(r, TakeCommitted(r).0, next) && DrawsOnly(r, FinishArming(r, token, armed).0, next)
  {
    hide WithoutStale;
  }

  lemma StepDraws(r: Rule, ev: Event)
    ensures DrawsOnly(r, RuleStep(r, ev), ev.next)
  {
    hide DrawsOnly, BeginWithLease, ClaimRoute, ReleaseRoute, Establish, Abort, Fail, ObserveValidation, NoteDegradation,
      NoteSample, BeginBlackhole, CompleteBlackhole, Retain, AbandonProbe, TakeCommitted, FinishArming, Expire;
    match ev.action
    case Begin(key, lease) => AdmissionDraws(r, key, lease, ev.now, ev.next);
    case Claim(key) => AdmissionDraws(r, key, 0, ev.now, ev.next);
    case Release(lease) => AdmissionDraws(r, NO_KEY, lease, ev.now, ev.next);
    case Look => AdmissionDraws(r, NO_KEY, 0, ev.now, ev.next);
    case Bind(token, key, binding) => TrialDraws(r, token, key, binding, NO_SAMPLE, ev.now, ev.next);
    case AbortTrial(token) => TrialDraws(r, token, NO_KEY, NO_BINDING, NO_SAMPLE, ev.now, ev.next);
    case FailTrial(token) => TrialDraws(r, token, NO_KEY, NO_BINDING, NO_SAMPLE, ev.now, ev.next);
    case Sampled(sample) => TrialDraws(r, 0, NO_KEY, NO_BINDING, sample, ev.now, ev.next);
    case Validated(token, reachable) => ReportDraws(r, token, reachable, ev.now, ev.next);
    case BlackholeDone(token, reachable) => ReportDraws(r, token, reachable, ev.now, ev.next);
    case Degraded(event) => EvaluationDraws(r, event, NO_SCOPE, ev.now, ev.next);
    case Blackhole(scope) => EvaluationDraws(r, NO_EVENT, scope, ev.now, ev.next);
    case Prune(token, evaluated, active) => ScopesDraw(r, token, evaluated, active, false, ev.next);
    case ProbeAbandoned(token) => ScopesDraw(r, token, [], [], false, ev.next);
    case Take => ScopesDraw(r, 0, [], [], false, ev.next);
    case ArmingDone(token, armed) => ScopesDraw(r, token, [], [], armed, ev.next);
  }

  const NO_SCOPE := Scope(NO_KEY, 0, 0)
  const NO_EVENT := DegradationEvent(NO_KEY, "", 0, 0)

  /** Whoever joins a validation or an arming holds the rule's own token. */
  lemma JoinersHoldItsToken(r: Rule, key: Key, lease: nat, scope: Scope, now: Time, next: nat)
    requires Shape(r) && next > 0
    ensures var (r', a) := BeginWithLease(r, key, lease, now, next); !a.allowed && a.token != 0 ==> a.token == r'.evalToken
    ensures
      var (r', c) := BeginBlackhole(r, scope, now, next);
      && (c.claimed ==> c.token == r'.evalToken != 0)
      && (c.alreadyValidated && c.token != 0 ==> c.token == r'.commitToken)
  {
    hide AddScope, CooldownStep;
  }

  lemma ValidatorsDrawn(w: World, ev: Event, t: nat)
    requires Shape(w.r) && ev.next > 0 && t in Validators(w, ev)
    ensures t in w.b.validators || t == RuleStep(w.r, ev).evalToken != 0
  {
    hide BeginWithLease, BeginBlackhole, Retain, Shape;
    if ev.action.Begin? {
      JoinersHoldItsToken(w.r, ev.action.key, ev.action.lease, NO_SCOPE, ev.now, ev.next);
    } else if ev.action.Blackhole? {
      JoinersHoldItsToken(w.r, NO_KEY, 0, ev.action.scope, ev.now, ev.next);
    }
  }

  lemma ArmingDrawn(w: World, ev: Event, t: nat)
    requires Shape(w.r) && ev.next > 0 && t in Arming(w, ev) && Enabled(w, ev) && 0 !in w.b.validators
    ensures t in w.b.arming || t == RuleStep(w.r, ev).commitToken != 0
  {
    hide BeginBlackhole, ObserveValidation, CompleteBlackhole, Shape;
    if ev.action.Blackhole? {
      JoinersHoldItsToken(w.r, NO_KEY, 0, ev.action.scope, ev.now, ev.next);
    }
  }

  lemma DrawnKept(w: World, ev: Event)
    requires Inv(w) && Enabled(w, ev)
    ensures Drawn(Next(w, ev))
  {
    StepDraws(w.r, ev);
    hide Validators, Arming, RuleStep, Proven, Shape;
    var used := Next(w, ev).used;
    assert RuleStep(w.r, ev).evalToken <= used && RuleStep(w.r, ev).commitToken <= used;
    forall t: nat | t in Validators(w, ev)
      ensures 0 < t <= used
    {
      ValidatorsDrawn(w, ev, t);
    }
    forall t: nat | t in Arming(w, ev)
      ensures 0 < t <= used
    {
      ArmingDrawn(w, ev, t);
    }
  }

  lemma ValidationAccounted(w: World, ev: Event)
    requires Accounted(w) && Proven(w) && NextIsNew(w, ev) && Enabled(w, ev) && ev.action.Validated?
    ensures Accounted(Next(w, ev)) && Proven(Next(w, ev))
  {
    ValidationKeepsShape(w.r, ev.action.token, ev.action.reachable, ev.now);
  }

  lemma CompletionAccounted(w: World, ev: Event)
    requires Accounted(w) && Proven(w) && NextIsNew(w, ev) && Enabled(w, ev) && ev.action.BlackholeDone?
    ensures Accounted(Next(w, ev)) && Proven(Next(w, ev))
  {
    ValidationKeepsShape(w.r, ev.action.token, ev.action.reachable, ev.now);
  }

  lemma BeginAccounted(w: World, ev: Event)
    requires Accounted(w) && Proven(w) && NextIsNew(w, ev) && Enabled(w, ev) && ev.action.Begin?
    ensures Accounted(Next(w, ev)) && Proven(Next(w, ev))
  {
    AdmissionKeepsShape(w.r, ev.action.key, ev.action.lease, ev.now, ev.next);
  }

  lemma DegradationAccounted(w: World, ev: Event)
    requires Accounted(w) && Proven(w) && NextIsNew(w, ev) && Enabled(w, ev) && ev.action.Degraded?
    ensures Accounted(Next(w, ev)) && Proven(Next(w, ev))
  {
    DegradationKeepsShape(w.r, ev.action.event, ev.now, ev.next);
  }

  /** An overdue evaluation is closed before a blackhole is looked at. */
  lemma BlackholeAfterExpiry(w: World, ev: Event)
    requires Accounted(w) && Proven(w) && NextIsNew(w, ev) && Enabled(w, ev) && ev.action.Blackhole? && ev.action.scope.slot != 0
    ensures
      var e := w.(r := Expire(w.r, ev.now));
      Accounted(e) && Proven(e) && NextIsNew(e, ev) && !Expired(e.r, ev.now) && Enabled(e, ev) && Next(e, ev) == Next(w, ev)
  {
  }

  lemma BlackholeOnOpenRuleAccounted(w: World, ev: Event)
    requires Accounted(w) && Proven(w) && NextIsNew(w, ev) && Enabled(w, ev) && ev.action.Blackhole? && !Expired(w.r, ev.now)
    requires w.r.phase == Closed || w.r.phase == Evaluating
    ensures Accounted(Next(w, ev)) && Proven(Next(w, ev))
  {
    BlackholeKeepsShape(w.r, ev.action.scope, ev.now, ev.next);
  }

  lemma BlackholeOnHeldRuleAccounted(w: World, ev: Event)
    requires Accounted(w) && Proven(w) && NextIsNew(w, ev) && Enabled(w, ev) && ev.action.Blackhole?
    requires w.r.phase == CoolingDown || w.r.phase == OnProbation
    ensures Accounted(Next(w, ev)) && Proven(Next(w, ev))
  {
    BlackholeKeepsShape(w.r, ev.action.scope, ev.now, ev.next);
  }

  lemma BlackholeAccounted(w: World, ev: Event)
    requires Accounted(w) && Proven(w) && NextIsNew(w, ev) && Enabled(w, ev) && ev.action.Blackhole?
    ensures Accounted(Next(w, ev)) && Proven(Next(w, ev))
  {
    hide Accounted, Proven, NextIsNew, Enabled, Next;
    if ev.action.scope.slot == 0 {
      NoSlotAccounted(w, ev);
    } else {
      BlackholeAfterExpiry(w, ev);
      var e := w.(r := Expire(w.r, ev.now));
      if e.r.phase == Closed || e.r.phase == Evaluating {
        BlackholeOnOpenRuleAccounted(e, ev);
      } else {
        BlackholeOnHeldRuleAccounted(e, ev);
      }
    }
  }

  lemma NoSlotAccounted(w: World, ev: Event)
    requires Accounted(w) && Proven(w) && NextIsNew(w, ev) && Enabled(w, ev) && ev.action.Blackhole? && ev.action.scope.slot == 0
    ensures Accounted(Next(w, ev)) && Proven(Next(w, ev))
  {
  }

  lemma PruningAccounted(w: World, ev: Event)
    requires Accounted(w) && Proven(w) && NextIsNew(w, ev) && Enabled(w, ev) && ev.action.Prune?
    ensures Accounted(Next(w, ev)) && Proven(Next(w, ev))
  {
    hide WithoutStale, Observes, Extended;
    ScopesKeepShape(w.r, ev.action.token, ev.action.evaluated, ev.action.active, false);
  }

  lemma AbandoningAccounted(w: World, ev: Event)
    requires Accounted(w) && Proven(w) && NextIsNew(w, ev) && Enabled(w, ev) && ev.action.ProbeAbandoned?
    ensures Accounted(Next(w, ev)) && Proven(Next(w, ev))
  {
    ScopesKeepShape(w.r, ev.action.token, [], [], false);
  }

  lemma ArmingAccounted(w: World, ev: Event)
    requires Accounted(w) && Proven(w) && NextIsNew(w, ev) && Enabled(w, ev) && ev.action.ArmingDone?
    ensures Accounted(Next(w, ev)) && Proven(Next(w, ev))
  {
    ScopesKeepShape(w.r, ev.action.token, [], [], ev.action.armed);
  }

  lemma TrialAccounted(w: World, ev: Event)
    requires Accounted(w) && Proven(w) && NextIsNew(w, ev) && Enabled(w, ev)
    requires ev.action.Bind? || ev.action.AbortTrial? || ev.action.FailTrial? || ev.action.Sampled?
    ensures Accounted(Next(w, ev)) && Proven(Next(w, ev))
  {
    ShapeKept(w.r, ev);
  }

  lemma QuietAccounted(w: World, ev: Event)
    requires Accounted(w) && Proven(w) && NextIsNew(w, ev) && Enabled(w, ev)
    requires ev.action.Claim? || ev.action.Release? || ev.action.Take? || ev.action.Look?
    ensures Accounted(Next(w, ev)) && Proven(Next(w, ev))
  {
    ShapeKept(w.r, ev);
  }

  lemma StepKeepsInv(w: World, ev: Event)
    requires Inv(w) && Enabled(w, ev)
    ensures Inv(Next(w, ev))
  {
    NewToken(w, ev);
    DrawnKept(w, ev);
    hide Accounted, Proven, Drawn, NextIsNew, Enabled, Next;
    match ev.action
    case Begin(_, _) => BeginAccounted(w, ev);
    case Validated(_, _) => ValidationAccounted(w, ev);
    case BlackholeDone(_, _) => CompletionAccounted(w, ev);
    case Degraded(_) => DegradationAccounted(w, ev);
    case Blackhole(_) => BlackholeAccounted(w, ev);
    case Prune(_, _, _) => PruningAccounted(w, ev);
    case ProbeAbandoned(_) => AbandoningAccounted(w, ev);
    case ArmingDone(_, _) => ArmingAccounted(w, ev);
    case Bind(_, _, _) => TrialAccounted(w, ev);
    case AbortTrial(_) => TrialAccounted(w, ev);
    case FailTrial(_) => TrialAccounted(w, ev);
    case Sampled(_) => TrialAccounted(w, ev);
    case _ => QuietAccounted(w, ev);
  }

  lemma {:induction false} RunKeepsInv(w: World, run: seq<Event>)
    requires Inv(w) && Legal(w, run)
    ensures Inv(After(w, run))
    decreases |run|
  {
    hide Inv, Next, Enabled;
    if run != [] {
      StepKeepsInv(w, run[0]);
      RunKeepsInv(Next(w, run[0]), run[1..]);
    }
  }

  lemma {:induction false} RunSplits(w: World, run: seq<Event>, ev: Event)
    ensures Legal(w, run + [ev]) <==> Legal(w, run) && Enabled(After(w, run), ev)
    ensures After(w, run + [ev]) == Next(After(w, run), ev)
    decreases |run|
  {
    hide Next, Enabled;
    if run != [] {
      RunSplits(Next(w, run[0]), run[1..], ev);
      assert (run + [ev])[1..] == run[1..] + [ev];
    }
  }

  lemma StartKeepsInv()
    ensures Inv(START)
  {
  }

  // --------------------------------------------------------------- theorems

  /**
   * H3 is never locked out without proof: in every reachable state a rule that
   * is cooling down or on probation has, since it last left Closed, had an H2
   * validation of that very evaluation report reachable before its deadline.
   */
  lemma NoLockoutWithoutProof(run: seq<Event>)
    requires Legal(START, run)
    ensures
      var w := After(START, run);
      w.r.phase == CoolingDown || w.r.phase == OnProbation ==>
        && 1 <= w.r.failures <= 4
        && w.b.left != 0 && w.b.proof.H2Reachable? && w.b.proof.token == w.b.left
        && w.b.proof.at < w.b.proof.deadline
  {
    RunKeepsInv(START, run);
  }

  /** An evaluation counts exactly the H2 validations that still owe it a report. */
  lemma EvaluationCountsItsReporters(run: seq<Event>)
    requires Legal(START, run)
    ensures
      var w := After(START, run);
      w.r.phase == Evaluating ==>
        && w.r.evalInFlight == w.b.validators[w.r.evalToken]
        && (w.r.evalInFlight > 0 ==> w.r.evalDeadline > 0)
  {
    RunKeepsInv(START, run);
  }

  ghost predicate ExclusiveAdmission(r: Rule, r': Rule, a: RuleAdmission, key: Key, lease: nat, now: Time, next: nat)
  {
    && (a.allowed && r'.phase != Closed ==>
          && r.phase == CoolingDown && r.retryAt <= now
          && (r.routeToken != 0 ==> lease == r.routeToken && key == r.routeKey)
          && a.probation && a.token == next && Owns(r', a.token) && r'.trial.key == key)
    && (a.allowed && r'.phase == Closed ==> !a.probation && (r.phase == Closed || Expired(r, now)))
    && (r.phase == OnProbation ==> !a.allowed && r' == r)
    && (r.routeToken != 0 ==> r.phase == CoolingDown)
  }

  lemma AdmissionIsExclusive(r: Rule, key: Key, lease: nat, now: Time, next: nat)
    requires Shape(r)
    ensures var (r', a) := BeginWithLease(r, key, lease, now, next); ExclusiveAdmission(r, r', a, key, lease, now, next)
  {
  }

  /**
   * While a rule is not Closed, the only H3 admission is the one that makes its
   * caller the probation owner: from a due cooldown, under a new token, and with
   * the lease and endpoint of the route that holds the lease, if any does.
   */
  lemma H3AdmissionIsExclusive(run: seq<Event>, key: Key, lease: nat, now: Time, next: nat)
    requires Legal(START, run) && next > After(START, run).used
    ensures
      var r := After(START, run).r;
      var (r', a) := BeginWithLease(r, key, lease, now, next);
      ExclusiveAdmission(r, r', a, key, lease, now, next)
  {
    RunKeepsInv(START, run);
    AdmissionIsExclusive(After(START, run).r, key, lease, now, next);
  }

  /** An operation under a token the rule no longer holds leaves the rule exactly as it was. */
  lemma StaleTokensChangeNothing(r: Rule, token: nat, key: Key, binding: Binding, reachable: bool, armed: bool,
                                 evaluated: seq<Scope>, active: seq<Scope>, now: Time)
    requires Shape(r) && token != 0
    ensures !Owns(r, token) ==>
              Abort(r, token, now) == Fail(r, token, now) == Establish(r, token, key, binding, now).0 == r
    ensures r.evalToken != token ==>
              && ObserveValidation(r, token, reachable, now) == (r, false)
              && CompleteBlackhole(r, token, reachable, now).0 == r
              && Retain(r, token, evaluated, active) == (r, false) && AbandonProbe(r, token) == r
    ensures r.commitToken != token ==> FinishArming(r, token, armed) == (r, false)
    ensures r.routeToken != token ==> ReleaseRoute(r, token, now) == r
  {
  }

  /**
   * The last arming report of a cooldown decides it: the cooldown is kept exactly
   * when some participant of its commit token armed a drain.
   */
  lemma LastArmingReportDecides(run: seq<Event>, token: nat, armed: bool, now: Time, next: nat)
    requires Legal(START, run + [Event(ArmingDone(token, armed), now, next)])
    requires After(START, run).r.commitToken == token
    ensures
      var w' := After(START, run + [Event(ArmingDone(token, armed), now, next)]);
      && (w'.b.arming[token] == 0 ==> (w'.r.phase == CoolingDown <==> token in w'.b.armedBy))
      && (w'.b.arming[token] > 0 ==> w'.r.phase == CoolingDown && w'.r.commitToken == token)
  {
    StartKeepsInv();
    hide Inv, Next, Enabled;
    RunSplits(START, run, Event(ArmingDone(token, armed), now, next));
    RunKeepsInv(START, run);
    ArmingReportDecides(After(START, run), token, armed, now, next);
  }

  lemma ArmingReportDecides(w: World, token: nat, armed: bool, now: Time, next: nat)
    requires Inv(w) && Enabled(w, Event(ArmingDone(token, armed), now, next)) && w.r.commitToken == token
    ensures
      var w' := Next(w, Event(ArmingDone(token, armed), now, next));
      && (w'.b.arming[token] == 0 ==> (w'.r.phase == CoolingDown <==> token in w'.b.armedBy))
      && (w'.b.arming[token] > 0 ==> w'.r.phase == CoolingDown && w'.r.commitToken == token)
  {
  }

  // ------------------------------------------------------- pruning of scopes

  lemma {:induction false} WithoutStaleIsExact(scopes: seq<Scope>, evaluated: seq<Scope>, active: seq<Scope>, s: Scope)
    ensures s in WithoutStale(scopes, evaluated, active) <==> s in scopes && !(s in evaluated && s !in active)
    ensures |WithoutStale(scopes, evaluated, active)| <= |scopes|
  {
    if scopes != [] {
      WithoutStaleIsExact(scopes[1..], evaluated, active, s);
    }
  }

  /**
   * A check of physical connections works from a snapshot taken before it. However
   * old the snapshot, it removes exactly the scopes that were in it and were found
   * inactive: scopes joined since then stay, and scopes gone since then do not return.
   */
  lemma PruningIsExact(r: Rule, token: nat, snapshot: seq<Scope>, active: seq<Scope>, s: Scope)
    requires token != 0 && r.phase == Evaluating && r.evalToken == token
    ensures
      var (r', kept) := Retain(r, token, snapshot, active);
      && (s in r'.scopes <==> s in r.scopes && !(s in snapshot && s !in active))
      && (kept <==> r'.scopes != [])
      && (kept ==> r' == r.(scopes := r'.scopes))
  {
    WithoutStaleIsExact(r.scopes, snapshot, active, s);
  }

  /** An evaluated scope that was found inactive by this pruning of the evaluation. */
  predicate Prunes(action: Action, token: nat, s: Scope)
  {
    action.Prune? && action.token == token && s in action.evaluated && s !in action.active
  }

  /** One step that leaves the rule evaluating: only a report adds a scope, only a pruning removes one. */
  ghost predicate ScopeStep(r: Rule, r': Rule, action: Action, next: nat, s: Scope)
  {
    r'.phase == Evaluating ==>
      if r'.evalToken == r.evalToken then
        s in r'.scopes <==> action == Blackhole(s) || (s in r.scopes && !Prunes(action, r.evalToken, s))
      else r'.evalToken == next && (s in r'.scopes <==> action == Blackhole(s))
  }

  lemma BlackholeScopes(r: Rule, scope: Scope, now: Time, next: nat, s: Scope)
    requires Shape(r) && next > 0 && next != r.evalToken && s.slot != 0
    ensures ScopeStep(r, BeginBlackhole(r, scope, now, next).0, Blackhole(scope), next, s)
  {
  }

  lemma PruneScopes(r: Rule, token: nat, evaluated: seq<Scope>, active: seq<Scope>, next: nat, s: Scope)
    requires Shape(r)
    ensures ScopeStep(r, Retain(r, token, evaluated, active).0, Prune(token, evaluated, active), next, s)
  {
    hide WithoutStale;
    WithoutStaleIsExact(r.scopes, evaluated, active, s);
  }

  lemma DegradationScopes(r: Rule, event: DegradationEvent, now: Time, next: nat, s: Scope)
    requires Shape(r) && next != r.evalToken
    ensures ScopeStep(r, NoteDegradation(r, event, now, next), Degraded(event), next, s)
  {
    hide KeepRecent, ShouldOpen, Duplicated;
  }

  /** Whoever leaves the rule evaluating goes on with its evaluation and its scopes. */
  ghost predicate KeepsScopes(r: Rule, r': Rule)
  {
    r'.phase == Evaluating ==> r'.evalToken == r.evalToken && r'.scopes == r.scopes
  }

  lemma AdmissionScopes(r: Rule, key: Key, lease: nat, now: Time, next: nat)
    ensures KeepsScopes(r, BeginWithLease(r, key, lease, now, next).0) && KeepsScopes(r, ClaimRoute(r, key, now, next).0)
    ensures KeepsScopes(r, ReleaseRoute(r, lease, now)) && KeepsScopes(r, Expire(r, now))
  {
  }

  lemma TrialScopes(r: Rule, token: nat, key: Key, binding: Binding, sample: Sample, now: Time)
    ensures KeepsScopes(r, Establish(r, token, key, binding, now).0) && KeepsScopes(r, Abort(r, token, now))
    ensures KeepsScopes(r, Fail(r, token, now)) && KeepsScopes(r, NoteSample(r, sample, now))
  {
    hide UpdateEvidence, CountHealthy, Recovered, CooldownStep;
  }

  lemma ReportScopes(r: Rule, token: nat, reachable: bool, armed: bool, now: Time)
    ensures KeepsScopes(r, ObserveValidation(r, token, reachable, now).0)
    ensures KeepsScopes(r, CompleteBlackhole(r, token, reachable, now).0)
    ensures KeepsScopes(r, AbandonProbe(r, token)) && KeepsScopes(r, TakeCommitted(r).0)
    ensures KeepsScopes(r, FinishArming(r, token, armed).0)
  {
  }

  lemma OtherScopes(r: Rule, ev: Event)
    requires !ev.action.Blackhole? && !ev.action.Prune? && !ev.action.Degraded?
    ensures KeepsScopes(r, RuleStep(r, ev))
  {
    hide KeepsScopes, BeginWithLease, ClaimRoute, ReleaseRoute, Establish, Abort, Fail, ObserveValidation,
      NoteSample, CompleteBlackhole, AbandonProbe, TakeCommitted, FinishArming, Expire;
    match ev.action
    case Begin(key, lease) => AdmissionScopes(r, key, lease, ev.now, ev.next);
    case Claim(key) => AdmissionScopes(r, key, 0, ev.now, ev.next);
    case Release(lease) => AdmissionScopes(r, NO_KEY, lease, ev.now, ev.next);
    case Look => AdmissionScopes(r, NO_KEY, 0, ev.now, ev.next);
    case Bind(token, key, binding) => TrialScopes(r, token, key, binding, NO_SAMPLE, ev.now);
    case AbortTrial(token) => TrialScopes(r, token, NO_KEY, NO_BINDING, NO_SAMPLE, ev.now);
    case FailTrial(token) => TrialScopes(r, token, NO_KEY, NO_BINDING, NO_SAMPLE, ev.now);
    case Sampled(sample) => TrialScopes(r, 0, NO_KEY, NO_BINDING, sample, ev.now);
    case Validated(token, reachable) => ReportScopes(r, token, reachable, false, ev.now);
    case BlackholeDone(token, reachable) => ReportScopes(r, token, reachable, false, ev.now);
    case ProbeAbandoned(token) => ReportScopes(r, token, false, false, ev.now);
    case Take => ReportScopes(r, 0, false, false, ev.now);
    case ArmingDone(token, armed) => ReportScopes(r, token, false, armed, ev.now);
  }

  lemma StepScopes(r: Rule, ev: Event, s: Scope)
    requires Shape(r) && ev.next > 0 && ev.next != r.evalToken && s.slot != 0
    ensures ScopeStep(r, RuleStep(r, ev), ev.action, ev.next, s)
  {
    hide Shape, BeginWithLease, ClaimRoute, ReleaseRoute, Establish, Abort, Fail, ObserveValidation, NoteDegradation,
      NoteSample, BeginBlackhole, CompleteBlackhole, Retain, AbandonProbe, TakeCommitted, FinishArming, Expire;
    match ev.action
    case Blackhole(scope) => BlackholeScopes(r, scope, ev.now, ev.next, s);
    case Prune(token, evaluated, active) => PruneScopes(r, token, evaluated, active, ev.next, s);
    case Degraded(event) => DegradationScopes(r, event, ev.now, ev.next, s);
    case _ => OtherScopes(r, ev);
  }

  /** Report j put the scope into the evaluation, and no pruning since then took it out. */
  ghost predicate JoinedAndKept(run: seq<Event>, token: nat, s: Scope, j: nat)
  {
    && j < |run| && run[j].action == Blackhole(s) && After(START, run[..j + 1]).r.evalToken == token
    && forall k :: j < k < |run| ==> !Prunes(run[k].action, token, s)
  }

  lemma LastStep(run: seq<Event>)
    requires run != [] && Legal(START, run)
    ensures var front, ev := run[..|run| - 1], run[|run| - 1];
      Legal(START, front) && Enabled(After(START, front), ev) && After(START, run) == Next(After(START, front), ev)
  {
    var front, ev := run[..|run| - 1], run[|run| - 1];
    assert front + [ev] == run;
    RunSplits(START, front, ev);
  }

  lemma {:induction false} TokensWereDrawn(run: seq<Event>, n: nat)
    requires Legal(START, run) && n <= |run|
    ensures After(START, run[..n]).r.evalToken <= After(START, run).used
  {
    hide Next, Enabled;
    StartKeepsInv();
    RunKeepsInv(START, run);
    if n == |run| {
      assert run[..n] == run;
      DrawnTokens(After(START, run));
    } else {
      var front := run[..|run| - 1];
      LastStep(run);
      assert front[..n] == run[..n];
      TokensWereDrawn(front, n);
      UsedGrows(After(START, front), run[|run| - 1]);
    }
  }

  lemma DrawnTokens(w: World)
    requires Inv(w)
    ensures w.r.evalToken <= w.used && Shape(w.r)
  {
  }

  lemma UsedGrows(w: World, ev: Event)
    requires Enabled(w, ev)
    ensures w.used <= Next(w, ev).used && Next(w, ev).r == RuleStep(w.r, ev) && w.used < ev.next
  {
    hide RuleStep, BookStep;
  }

  lemma EvaluatingHoldsToken(r: Rule)
    requires Shape(r)
    ensures r.phase == Evaluating <==> r.evalToken != 0
  {
  }

  lemma KeptExtends(run: seq<Event>, token: nat, s: Scope, j: nat)
    requires run != [] && j < |run| - 1
    ensures JoinedAndKept(run, token, s, j) <==>
      JoinedAndKept(run[..|run| - 1], token, s, j) && !Prunes(run[|run| - 1].action, token, s)
  {
    hide Prunes;
    var front := run[..|run| - 1];
    assert front[..j + 1] == run[..j + 1];
    assert forall k :: 0 <= k < |front| ==> front[k] == run[k];
  }

  /**
   * Under any interleaving of reports, validations and prunings: the scopes of
   * the running evaluation are exactly those some report put into it and no
   * pruning since then both evaluated and found inactive. So scopes joined after
   * a pruning's snapshot stay, and a pruned scope returns only by a new report.
   */
  lemma {:induction false} ScopesAreTheUnprunedReports(run: seq<Event>, s: Scope)
    requires Legal(START, run) && s.slot != 0 && After(START, run).r.phase == Evaluating
    ensures s in After(START, run).r.scopes <==>
      exists j :: JoinedAndKept(run, After(START, run).r.evalToken, s, j)
  {
    hide Next, Enabled, RuleStep, Shape, JoinedAndKept, Inv, Prunes;
    StartKeepsInv();
    RunKeepsInv(START, run);
    var w := After(START, run);
    var T := w.r.evalToken;
    DrawnTokens(w);
    EvaluatingHoldsToken(w.r);
    if run == [] {
      NothingJoined(T, s);
    } else {
      var front, ev := run[..|run| - 1], run[|run| - 1];
      LastStep(run);
      var was := After(START, front);
      RunKeepsInv(START, front);
      DrawnTokens(was);
      EvaluatingHoldsToken(was.r);
      UsedGrows(was, ev);
      StepScopes(was.r, ev, s);
      JoinedNow(run, T, s);
      forall j: nat | j < |run| - 1
        ensures JoinedAndKept(run, T, s, j) <==> JoinedAndKept(front, T, s, j) && !Prunes(ev.action, T, s)
      {
        KeptExtends(run, T, s, j);
      }
      if was.r.evalToken == T {
        ScopesAreTheUnprunedReports(front, s);
        ContinuedScopes(run, front, T, s, s in was.r.scopes, s in w.r.scopes);
      } else {
        forall j: nat | j < |run| - 1 ensures !JoinedAndKept(run, T, s, j) {
          OlderTokens(front, T, s, j);
        }
        OnlyTheLast(run, T, s);
      }
    }
  }

  lemma NothingJoined(token: nat, s: Scope)
    requires token != 0
    ensures START.r.phase != Evaluating && !exists j :: JoinedAndKept([], token, s, j)
  {
  }

  /** The last event of a run joins the scope exactly when it reports it under the token. */
  lemma JoinedNow(run: seq<Event>, token: nat, s: Scope)
    requires run != [] && After(START, run).r.evalToken == token
    ensures JoinedAndKept(run, token, s, |run| - 1) <==> run[|run| - 1].action == Blackhole(s)
  {
    assert run[..|run|] == run;
  }

  lemma JoinedInside(run: seq<Event>, token: nat, s: Scope, j: nat)
    requires JoinedAndKept(run, token, s, j)
    ensures j < |run|
  {
  }

  lemma ContinuedScopes(run: seq<Event>, front: seq<Event>, token: nat, s: Scope, before: bool, after: bool)
    requires run != [] && front == run[..|run| - 1]
    requires JoinedAndKept(run, token, s, |run| - 1) <==> run[|run| - 1].action == Blackhole(s)
    requires forall j: nat :: j < |run| - 1 ==>
      (JoinedAndKept(run, token, s, j) <==>
       JoinedAndKept(front, token, s, j) && !Prunes(run[|run| - 1].action, token, s))
    requires before <==> exists j :: JoinedAndKept(front, token, s, j)
    requires after <==> run[|run| - 1].action == Blackhole(s) || (before && !Prunes(run[|run| - 1].action, token, s))
    ensures after <==> exists j :: JoinedAndKept(run, token, s, j)
  {
    hide JoinedAndKept, Prunes;
    if before && !Prunes(run[|run| - 1].action, token, s) {
      var j :| JoinedAndKept(front, token, s, j);
      JoinedInside(front, token, s, j);
      assert JoinedAndKept(run, token, s, j);
    }
    if j :| JoinedAndKept(run, token, s, j) {
      JoinedInside(run, token, s, j);
    }
  }

  lemma OnlyTheLast(run: seq<Event>, token: nat, s: Scope)
    requires run != [] && forall j: nat :: j < |run| - 1 ==> !JoinedAndKept(run, token, s, j)
    ensures (exists j :: JoinedAndKept(run, token, s, j)) <==> JoinedAndKept(run, token, s, |run| - 1)
  {
    hide JoinedAndKept;
    if j :| JoinedAndKept(run, token, s, j) {
      JoinedInside(run, token, s, j);
    }
  }

  /** A token drawn now was under no earlier report. */
  lemma OlderTokens(run: seq<Event>, token: nat, s: Scope, j: nat)
    requires Legal(START, run) && token > After(START, run).used
    ensures !JoinedAndKept(run, token, s, j)
  {
    hide Prunes;
    if j < |run| {
      TokensWereDrawn(run, j + 1);
    }
  }

  /** A scope pruned from an evaluation is listed in it again only after a newer report. */
  lemma PrunedReturnsOnlyByReport(run: seq<Event>, s: Scope, k: nat)
    requires Legal(START, run) && s.slot != 0 && After(START, run).r.phase == Evaluating
    requires k < |run| && Prunes(run[k].action, After(START, run).r.evalToken, s) && s in After(START, run).r.scopes
    ensures exists j :: k < j < |run| && run[j].action == Blackhole(s)
  {
    hide Prunes;
    ScopesAreTheUnprunedReports(run, s);
    var j :| JoinedAndKept(run, After(START, run).r.evalToken, s, j);
    assert j != k by {
      if j == k {
        PruningIsNoReport(run[k].action, After(START, run).r.evalToken, s);
      }
    }
  }

  lemma PruningIsNoReport(action: Action, token: nat, s: Scope)
    requires Prunes(action, token, s)
    ensures action != Blackhole(s)
  {
  }

  /** A scope reported after a snapshot stays, whatever prunings work from snapshots without it. */
  lemma ReportedSinceSnapshotStays(run: seq<Event>, s: Scope, j: nat)
    requires Legal(START, run) && s.slot != 0 && After(START, run).r.phase == Evaluating
    requires j < |run| && run[j].action == Blackhole(s)
    requires After(START, run[..j + 1]).r.evalToken == After(START, run).r.evalToken
    requires forall k :: j < k < |run| && run[k].action.Prune? ==> s !in run[k].action.evaluated
    ensures s in After(START, run).r.scopes
  {
    ScopesAreTheUnprunedReports(run, s);
    assert JoinedAndKept(run, After(START, run).r.evalToken, s, j);
  }

  // -------------------------------------------- what a recovery has observed

  predicate HealthyObservation(s: Sample)
  {
    s.sampled && Healthy(s)
  }

  /** Observations i, j and k are healthy, spaced, and nothing unhealthy was sampled since i. */
  ghost predicate HealthyStreak(samples: seq<Sample>, i: nat, j: nat, k: nat)
  {
    && i < j < k < |samples|
    && HealthyObservation(samples[i]) && HealthyObservation(samples[j]) && HealthyObservation(samples[k])
    && samples[j].at - samples[i].at >= SAMPLE_INTERVAL
    && samples[k].at - samples[j].at >= SAMPLE_INTERVAL
    && forall n :: i <= n < |samples| ==> samples[n].sampled ==> Healthy(samples[n])
  }

  ghost predicate StreakOf(samples: seq<Sample>, streak: seq<nat>)
  {
    && (forall a :: 0 <= a < |streak| ==> streak[a] < |samples| && HealthyObservation(samples[streak[a]]))
    && (forall a :: 0 < a < |streak| ==>
          streak[a - 1] < streak[a] && samples[streak[a]].at - samples[streak[a - 1]].at >= SAMPLE_INTERVAL)
    && (streak != [] ==> forall n :: streak[0] <= n < |samples| ==> samples[n].sampled ==> Healthy(samples[n]))
  }

  ghost predicate Carried(t: Trial, samples: seq<Sample>)
    requires t.Trial?
  {
    && (t.payload > 0 ==> exists i :: 0 <= i < |samples| && samples[i].payloadBytes - t.initialPayload >= t.payload)
    && (t.packets > 0 ==> exists i :: 0 <= i < |samples| && samples[i].packetsSent - t.initialPackets >= t.packets)
  }

  ghost predicate Observed(t: Trial, samples: seq<Sample>, streak: seq<nat>)
    requires t.Trial?
  {
    && (!t.established ==> samples == [] && t.payload == t.packets == 0 && t.healthySamples == 0)
    && Bound(t, samples)
    && Carried(t, samples)
    && |streak| == t.healthySamples && StreakOf(samples, streak)
    && t.lastHealthyAt == LastAt(samples, streak)
  }

  /** Everything observed came from the bound generation and none of it broke the probation. */
  ghost predicate Bound(t: Trial, samples: seq<Sample>)
    requires t.Trial?
  {
    forall i :: 0 <= i < |samples| ==>
      samples[i].key == t.key && samples[i].generation == t.generation && !samples[i].broken && samples[i].at > 0
  }

  ghost function LastAt(samples: seq<Sample>, streak: seq<nat>): Time
    requires StreakOf(samples, streak)
  {
    if streak == [] then 0 else samples[streak[|streak| - 1]].at
  }

  ghost predicate History(w: World)
  {
    w.r.trial.Trial? ==> Observed(w.r.trial, w.b.samples, w.b.streak)
  }

  lemma EvidenceObserved(t: Trial, samples: seq<Sample>, s: Sample)
    requires t.Trial? && Carried(t, samples)
    ensures Carried(UpdateEvidence(t, s), samples + [s])
  {
    var t', seen := UpdateEvidence(t, s), samples + [s];
    if t'.payload > 0 {
      if t'.payload == t.payload {
        var i :| 0 <= i < |samples| && samples[i].payloadBytes - t.initialPayload >= t.payload;
        assert seen[i].payloadBytes - t.initialPayload >= t'.payload;
      } else {
        assert seen[|samples|].payloadBytes - t.initialPayload >= t'.payload;
      }
    }
    if t'.packets > 0 {
      if t'.packets == t.packets {
        var i :| 0 <= i < |samples| && samples[i].packetsSent - t.initialPackets >= t.packets;
        assert seen[i].packetsSent - t.initialPackets >= t'.packets;
      } else {
        assert seen[|samples|].packetsSent - t.initialPackets >= t'.packets;
      }
    }
  }

  lemma StreakStays(samples: seq<Sample>, streak: seq<nat>, s: Sample)
    requires StreakOf(samples, streak) && (s.sampled ==> Healthy(s))
    ensures StreakOf(samples + [s], streak) && LastAt(samples + [s], streak) == LastAt(samples, streak)
  {
    assert forall a :: 0 <= a < |streak| ==> (samples + [s])[streak[a]] == samples[streak[a]];
  }

  lemma StreakGrows(samples: seq<Sample>, streak: seq<nat>, s: Sample)
    requires StreakOf(samples, streak) && HealthyObservation(s)
    requires streak != [] ==> s.at - LastAt(samples, streak) >= SAMPLE_INTERVAL
    ensures StreakOf(samples + [s], streak + [|samples|]) && LastAt(samples + [s], streak + [|samples|]) == s.at
  {
    StreakStays(samples, streak, s);
  }

  lemma LastAtIsSet(t: Trial, samples: seq<Sample>, streak: seq<nat>)
    requires t.Trial? && Bound(t, samples) && StreakOf(samples, streak)
    ensures LastAt(samples, streak) == 0 <==> streak == []
  {
  }

  lemma BoundExtends(t: Trial, t': Trial, samples: seq<Sample>, s: Sample)
    requires t.Trial? && t'.Trial? && t.key == t'.key && t.generation == t'.generation && Bound(t, samples)
    requires s.key == t.key && s.generation == t.generation && !s.broken && s.at > 0
    ensures Bound(t', samples + [s])
  {
  }

  lemma CarriedByTrial(t: Trial, samples: seq<Sample>, s: Sample)
    requires t.Trial? && Carried(t, samples)
    ensures Carried(CountHealthy(t, s), samples)
  {
  }

  /** One observation of the bound generation extends the history, the evidence and the streak. */
  lemma ObservationExtends(t: Trial, samples: seq<Sample>, streak: seq<nat>, s: Sample)
    requires t.Trial? && t.established && Observed(t, samples, streak)
    requires s.key == t.key && s.generation == t.generation && !s.broken && s.at > 0
    ensures
      var seen := UpdateEvidence(t, s);
      Observed(if s.sampled then CountHealthy(seen, s) else seen, samples + [s], Extended(t, s, |samples|, streak))
  {
    hide StreakOf, Carried, Bound, LastAt, Healthy;
    var seen := UpdateEvidence(t, s);
    var t' := if s.sampled then CountHealthy(seen, s) else seen;
    EvidenceObserved(t, samples, s);
    CarriedByTrial(seen, samples + [s], s);
    BoundExtends(t, t', samples, s);
    LastAtIsSet(t, samples, streak);
    if s.sampled && !Healthy(s) {
      EmptyStreak(samples + [s]);
    } else if s.sampled && (t.lastHealthyAt == 0 || s.at - t.lastHealthyAt >= SAMPLE_INTERVAL) {
      StreakGrows(samples, streak, s);
    } else {
      StreakStays(samples, streak, s);
    }
  }

  lemma EmptyStreak(samples: seq<Sample>)
    ensures StreakOf(samples, []) && LastAt(samples, []) == 0
  {
  }

  lemma SampleKeepsHistory(w: World, ev: Event)
    requires History(w) && Shape(w.r) && Enabled(w, ev) && ev.action.Sampled?
    ensures History(Next(w, ev))
  {
    hide Observed, Validators, Arming, Proves, Shape, Extended;
    var s := ev.action.sample;
    if Observes(w.r, s) && !s.broken {
      ObservationExtends(w.r.trial, w.b.samples, w.b.streak, s);
    }
  }

  lemma StartKeepsHistory(w: World, ev: Event)
    requires History(w) && Shape(w.r) && Enabled(w, ev) && (ev.action.Begin? || ev.action.Bind?)
    ensures History(Next(w, ev))
  {
    hide Validators, Arming, Proves, StreakOf, Bound, LastAt;
    EmptyStreak([]);
    NothingBound(Next(w, ev).r.trial);
  }

  lemma NothingBound(t: Trial)
    ensures t.Trial? ==> Bound(t, [])
  {
  }

  lemma OthersKeepHistory(w: World, ev: Event)
    requires History(w) && Shape(w.r) && Enabled(w, ev)
    requires !ev.action.Sampled? && !ev.action.Begin? && !ev.action.Bind?
    ensures History(Next(w, ev))
  {
    hide Validators, Arming, Proves, Observed;
    TrialOnlyEnds(w.r, ev);
  }

  lemma TrialOnlyEnds(r: Rule, ev: Event)
    requires Shape(r) && !ev.action.Sampled? && !ev.action.Begin? && !ev.action.Bind?
    ensures var t := RuleStep(r, ev).trial; t == r.trial || t == NoTrial
  {
    hide KeepRecent, ShouldOpen, Duplicated, WithoutStale, AddScope;
  }

  lemma {:induction false} RunKeepsHistory(w: World, run: seq<Event>)
    requires Inv(w) && History(w) && Legal(w, run)
    ensures History(After(w, run))
    decreases |run|
  {
    hide History, Next, Enabled;
    if run != [] {
      StepKeepsInv(w, run[0]);
      if run[0].action.Sampled? {
        SampleKeepsHistory(w, run[0]);
      } else if run[0].action.Begin? || run[0].action.Bind? {
        StartKeepsHistory(w, run[0]);
      } else {
        OthersKeepHistory(w, run[0]);
      }
      RunKeepsHistory(Next(w, run[0]), run[1..]);
    }
  }

  /** All that must have been observed for H3 to be restored at this sample. */
  ghost predicate RecoveryEarned(t: Trial, samples: seq<Sample>, at: Time)
    requires t.Trial?
  {
    && t.established && at - t.establishedAt >= 30 * SECOND
    && (forall i :: 0 <= i < |samples| ==> samples[i].key == t.key && samples[i].generation == t.generation && !samples[i].broken)
    && (|| (exists i :: 0 <= i < |samples| && samples[i].payloadBytes - t.initialPayload >= 512 * 1024)
        || (exists i :: 0 <= i < |samples| && samples[i].packetsSent - t.initialPackets >= 256))
    && exists i, j, k :: HealthyStreak(samples, i, j, k)
  }

  lemma ThreeInStreak(samples: seq<Sample>, streak: seq<nat>)
    requires StreakOf(samples, streak) && |streak| >= 3
    ensures exists i, j, k :: HealthyStreak(samples, i, j, k)
  {
    var n := |streak|;
    StreakRises(samples, streak, n - 3);
    assert HealthyStreak(samples, streak[n - 3], streak[n - 2], streak[n - 1]);
  }

  lemma {:induction false} StreakRises(samples: seq<Sample>, streak: seq<nat>, n: nat)
    requires StreakOf(samples, streak) && n < |streak|
    ensures streak[0] <= streak[n]
  {
    if n > 0 {
      StreakRises(samples, streak, n - 1);
    }
  }

  lemma RecoveryStepEarned(w: World, ev: Event)
    requires Inv(w) && History(w) && Enabled(w, ev)
    requires w.r.phase == OnProbation && Next(w, ev).r.phase == Closed
    ensures ev.action.Sampled? && w.r.trial.Trial? && RecoveryEarned(w.r.trial, Next(w, ev).b.samples, ev.action.sample.at)
  {
    hide Validators, Arming, Proves, KeepRecent, ShouldOpen, Duplicated, WithoutStale, Observed, Extended;
    assert ev.action.Sampled? && Observes(w.r, ev.action.sample);
    var s, t := ev.action.sample, w.r.trial;
    ObservationExtends(t, w.b.samples, w.b.streak, s);
    RecoveredIsEarned(CountHealthy(UpdateEvidence(t, s), s), t, w.b.samples + [s], Extended(t, s, |w.b.samples|, w.b.streak), s.at);
  }

  lemma RecoveredIsEarned(t': Trial, t: Trial, samples: seq<Sample>, streak: seq<nat>, at: Time)
    requires t'.Trial? && Observed(t', samples, streak) && Recovered(t', at) && t'.established
    requires t.Trial? && t.established && t.key == t'.key && t.generation == t'.generation
    requires t.establishedAt == t'.establishedAt && t.initialPayload == t'.initialPayload && t.initialPackets == t'.initialPackets
    ensures RecoveryEarned(t, samples, at)
  {
    ThreeInStreak(samples, streak);
  }

  /**
   * Probation gives H3 back only on an observation that comes at least 30 s after
   * the QUIC generation was bound, when everything observed was of that
   * generation, enough payload or packets moved, and three healthy observations at
   * least 2 s apart had nothing unhealthy sampled since the first of them.
   */
  lemma RecoveryNeedsEvidence(run: seq<Event>, ev: Event)
    requires Legal(START, run + [ev])
    requires After(START, run).r.phase == OnProbation && After(START, run + [ev]).r.phase == Closed
    ensures
      var w, w' := After(START, run), After(START, run + [ev]);
      ev.action.Sampled? && w.r.trial.Trial? && RecoveryEarned(w.r.trial, w'.b.samples, ev.action.sample.at)
  {
    StartKeepsInv();
    hide Inv, Next, Enabled, RecoveryEarned;
    RunSplits(START, run, ev);
    RunKeepsInv(START, run);
    RunKeepsHistory(START, run);
    RecoveryStepEarned(After(START, run), ev);
  }

  /** Any sampled observation of the bound generation from 90 s on ends the probation one way or the other. */
  lemma LateSampleEndsProbation(r: Rule, s: Sample, now: Time)
    requires Observes(r, s) && s.sampled && s.at - r.trial.establishedAt >= 90 * SECOND
    ensures NoteSample(r, s, now).phase in {Closed, CoolingDown}
  {
  }
}
