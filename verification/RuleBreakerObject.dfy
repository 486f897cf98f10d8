/** The breaker object: every rule under one lock and one token counter. */
module RuleBreakerObject {
  import opened Clock
  import opened Endpoints
  import opened RuleBreaker

  lemma DuplicateAppended(events: seq<DegradationEvent>, last: DegradationEvent, current: DegradationEvent)
    ensures Duplicated(events + [last], current) <==> Duplicated(events, current) || SameGeneration(last, current)
  {
    var all := events + [last];
    if Duplicated(events, current) {
      var i :| 0 <= i < |events| && SameGeneration(events[i], current);
      assert SameGeneration(all[i], current);
    }
    if SameGeneration(last, current) {
      assert SameGeneration(all[|events|], current);
    }
  }

  method FilterRecent(events: seq<DegradationEvent>, cutoff: int, current: DegradationEvent)
    returns (kept: seq<DegradationEvent>, duplicate: bool)
    ensures kept == KeepRecent(events, cutoff)
    ensures duplicate <==> Duplicated(kept, current)
  {
    hide Duplicated, SameGeneration;
    assert !Duplicated([], current) by { NoneDuplicated(current); }
    kept, duplicate := [], false;
    var i := 0;
    while i < |events|
      invariant 0 <= i <= |events|
      invariant kept + KeepRecent(events[i..], cutoff) == KeepRecent(events, cutoff)
      invariant duplicate <==> Duplicated(kept, current)
    {
      var previous := events[i];
      assert events[i..][1..] == events[i + 1..];
      if previous.at >= cutoff {
        DuplicateAppended(kept, previous, current);
        kept := kept + [previous];
        if SameGeneration(previous, current) {
          duplicate := true;
        }
      }
      i := i + 1;
    }
  }

  lemma NoneDuplicated(current: DegradationEvent)
    ensures !Duplicated([], current)
  {
  }

  method CorroboratedBy(events: seq<DegradationEvent>, current: DegradationEvent) returns (open: bool)
    ensures open <==> ShouldOpen(events, current)
  {
    var i := 0;
    while i < |events|
      invariant 0 <= i <= |events|
      invariant forall j :: 0 <= j < i ==> !Corroborates(events[j], current)
    {
      if Corroborates(events[i], current) {
        return true;
      }
      i := i + 1;
    }
    return false;
  }

  method PruneStale(scopes: seq<Scope>, evaluated: seq<Scope>, active: seq<Scope>) returns (retained: seq<Scope>)
    ensures retained == WithoutStale(scopes, evaluated, active)
  {
    var stale: set<Scope> := {};
    var i := 0;
    while i < |evaluated|
      invariant 0 <= i <= |evaluated|
      invariant forall s :: s in stale <==> s in evaluated[..i]
    {
      stale := stale + {evaluated[i]};
      i := i + 1;
    }
    assert evaluated[..i] == evaluated;
    i := 0;
    while i < |active|
      invariant 0 <= i <= |active|
      invariant forall s :: s in stale <==> s in evaluated && s !in active[..i]
    {
      stale := stale - {active[i]};
      i := i + 1;
    }
    assert active[..i] == active;
    retained := [];
    i := 0;
    while i < |scopes|
      invariant 0 <= i <= |scopes|
      invariant retained + WithoutStale(scopes[i..], evaluated, active) == WithoutStale(scopes, evaluated, active)
    {
      assert scopes[i..][1..] == scopes[i + 1..];
      if scopes[i] !in stale {
        retained := retained + [scopes[i]];
      }
      i := i + 1;
    }
  }

  /** Whether a degradation starts an evaluation of the rule, and so draws a token. */
  predicate Opens(r: Rule, ev: DegradationEvent)
  {
    var e := Expire(r, ev.at);
    var kept := KeepRecent(e.recent, ev.at - DEGRADATION_WINDOW);
    e.phase == Closed && !Duplicated(kept, ev) && ShouldOpen(kept + [ev], ev)
  }

  lemma TokenOnlyIfOpens(r: Rule, ev: DegradationEvent, now: Time, next: nat)
    ensures Opens(r, ev) ==> NoteDegradation(r, ev, now, next).evalToken == next
    ensures !Opens(r, ev) ==> NoteDegradation(r, ev, now, next) == NoteDegradation(r, ev, now, 0)
  {
    hide KeepRecent, Duplicated, ShouldOpen;
  }

  /** One rule's degradation: an evaluation starts under a token drawn in (from, to]; otherwise none is drawn for it. */
  ghost predicate Degrades(r: Rule, r': Rule, ev: DegradationEvent, now: Time, from: nat, to: nat)
  {
    if Opens(r, ev) then from < r'.evalToken <= to && r' == NoteDegradation(r, ev, now, r'.evalToken)
    else r' == NoteDegradation(r, ev, now, 0)
  }

  predicate FailedProbation(r: Rule, r': Rule)
  {
    r.phase == OnProbation && r'.phase == CoolingDown
  }

  ghost function OpenedBy(was: map<string, Rule>, members: set<string>, ev: DegradationEvent): set<string>
  {
    set r | r in was && r in members && Opens(was[r], ev)
  }

  /**
   * The rules in `done` have taken the degradation and the others nothing; one
   * token was drawn for each rule that opened; `ended` lists the failed probations.
   */
  ghost predicate Degraded(
    was: map<string, Rule>, rules: map<string, Rule>, done: set<string>, ev: DegradationEvent, now: Time,
    from: nat, to: nat, ended: seq<string>)
  {
    && rules.Keys == was.Keys
    && (forall r :: r in rules ==> if r in done then Degrades(was[r], rules[r], ev, now, from, to) else rules[r] == was[r])
    && to == from + |OpenedBy(was, done, ev)|
    && (forall r, q :: r in OpenedBy(was, done, ev) && q in OpenedBy(was, done, ev) && r != q ==>
          rules[r].evalToken != rules[q].evalToken)
    && (forall r :: r in ended <==> r in rules && FailedProbation(was[r], rules[r]))
    && (forall i, j :: 0 <= i < j < |ended| ==> ended[i] != ended[j])
  }

  lemma MoreTokens(r: Rule, r': Rule, ev: DegradationEvent, now: Time, from: nat, drawn: nat, to: nat)
    requires Degrades(r, r', ev, now, from, drawn) && drawn <= to
    ensures Degrades(r, r', ev, now, from, to)
    ensures Opens(r, ev) ==> r'.evalToken <= drawn
  {
    hide NoteDegradation, Opens;
  }

  lemma DegradesUnder(r: Rule, ev: DegradationEvent, now: Time, from: nat, drawn: nat)
    requires from <= drawn
    ensures
      var r' := NoteDegradation(r, ev, now, drawn + 1);
      && Degrades(r, r', ev, now, from, if Opens(r, ev) then drawn + 1 else drawn)
      && (Opens(r, ev) ==> r'.evalToken == drawn + 1)
  {
    TokenOnlyIfOpens(r, ev, now, drawn + 1);
    hide NoteDegradation, Opens;
  }

  lemma OneMoreOpened(was: map<string, Rule>, done: set<string>, ev: DegradationEvent, rule: string)
    requires rule !in done
    ensures OpenedBy(was, done + {rule}, ev) ==
      if rule in was && Opens(was[rule], ev) then OpenedBy(was, done, ev) + {rule} else OpenedBy(was, done, ev)
    ensures |OpenedBy(was, done + {rule}, ev)| ==
      |OpenedBy(was, done, ev)| + (if rule in was && Opens(was[rule], ev) then 1 else 0)
    ensures rule !in OpenedBy(was, done, ev)
    ensures forall r :: r in OpenedBy(was, done, ev) ==> r in was && r in done && Opens(was[r], ev)
  {
    hide Opens;
    var more := OpenedBy(was, done + {rule}, ev);
    if rule in was && Opens(was[rule], ev) {
      assert more == OpenedBy(was, done, ev) + {rule};
    } else {
      assert more == OpenedBy(was, done, ev);
    }
  }

  lemma OneMoreDegraded(
    was: map<string, Rule>, rules: map<string, Rule>, done: set<string>, ev: DegradationEvent, now: Time,
    from: nat, drawn: nat, to: nat, ended: seq<string>, rule: string, state: Rule)
    requires Degraded(was, rules, done, ev, now, from, drawn, ended)
    requires rule in rules && rule !in done && state == NoteDegradation(was[rule], ev, now, drawn + 1)
    requires to == if Opens(was[rule], ev) then drawn + 1 else drawn
    ensures Degraded(was, rules[rule := state], done + {rule}, ev, now, from, to,
                     if FailedProbation(was[rule], state) then ended + [rule] else ended)
  {
    hide NoteDegradation, Degrades, FailedProbation, Opens, OpenedBy;
    DegradesUnder(was[rule], ev, now, from, drawn);
    OneMoreOpened(was, done, ev, rule);
    forall r | r in rules && r in done
      ensures Degrades(was[r], rules[r], ev, now, from, to)
      ensures Opens(was[r], ev) ==> rules[r].evalToken <= drawn
    {
      MoreTokens(was[r], rules[r], ev, now, from, drawn, to);
    }
    SameIsNoFailure(was[rule]);
    assert rule !in ended;
  }

  lemma UntouchedYet(
    was: map<string, Rule>, rules: map<string, Rule>, done: set<string>, ev: DegradationEvent, now: Time,
    from: nat, to: nat, ended: seq<string>, rule: string)
    requires Degraded(was, rules, done, ev, now, from, to, ended) && rule in rules && rule !in done
    ensures rule in was && rules[rule] == was[rule]
  {
    hide Degrades, OpenedBy;
  }

  lemma SameIsNoFailure(r: Rule)
    ensures !FailedProbation(r, r)
  {
  }

  lemma SkippedDegraded(
    was: map<string, Rule>, rules: map<string, Rule>, done: set<string>, ev: DegradationEvent, now: Time,
    from: nat, to: nat, ended: seq<string>, rule: string)
    requires Degraded(was, rules, done, ev, now, from, to, ended) && rule !in rules && rule !in done
    ensures Degraded(was, rules, done + {rule}, ev, now, from, to, ended)
  {
    hide Degrades, FailedProbation, Opens, OpenedBy;
    OneMoreOpened(was, done, ev, rule);
  }

  lemma NoneDegraded(rules: map<string, Rule>, ev: DegradationEvent, now: Time, from: nat)
    ensures Degraded(rules, rules, {}, ev, now, from, from, [])
  {
    hide Degrades, Opens;
    assert OpenedBy(rules, {}, ev) == {};
  }

  class HTTP3RuleBreaker {
    var nextToken: nat
    var rules: map<string, Rule>
    var endpointRules: map<Key, set<string>>

    constructor ()
      ensures nextToken == 0 && rules == map[] && endpointRules == map[]
    {
      nextToken := 0;
      rules := map[];
      endpointRules := map[];
    }

    /** A rule starts closed and keeps its state when it is registered for further endpoints. */
    method Register(rule: string, key: Key)
      modifies this
      ensures rules == if rule in old(rules) || rule == "" then old(rules) else old(rules)[rule := FRESH_RULE]
      ensures rule != "" ==> key in endpointRules && rule in endpointRules[key]
      ensures forall k, r :: k in endpointRules && r in endpointRules[k] ==>
                (k in old(endpointRules) && r in old(endpointRules)[k]) || (k == key && r == rule)
      ensures nextToken == old(nextToken)
    {
      if rule == "" {
        return;
      }
      var memberships := if key in endpointRules then endpointRules[key] else {};
      endpointRules := endpointRules[key := memberships + {rule}];
      if rule !in rules {
        rules := rules[rule := FRESH_RULE];
      }
    }

    method NextToken() returns (token: nat)
      modifies this`nextToken
      ensures token == nextToken == old(nextToken) + 1
    {
      nextToken := nextToken + 1;
      token := nextToken;
    }

    method BeginLeased(rule: string, key: Key, lease: nat, now: Time) returns (admission: RuleAdmission)
      modifies this
      ensures rule !in old(rules) ==>
                admission == RuleAdmission(0, false, true) && rules == old(rules) && nextToken == old(nextToken)
      ensures rule in old(rules) ==>
                var (r, a) := BeginWithLease(old(rules)[rule], key, lease, now, old(nextToken) + 1);
                && admission == a && rules == old(rules)[rule := r]
                && nextToken == old(nextToken) + (if a.probation then 1 else 0)
      ensures endpointRules == old(endpointRules)
    {
      if rule !in rules {
        return RuleAdmission(0, false, true);
      }
      var state := rules[rule];
      admission := RuleAdmission(0, false, true);
      if state.phase == Evaluating {
        if Expired(state, now) {
          state := BackToClosed(state);
        } else {
          if state.evalDeadline == 0 {
            state := state.(evalDeadline := now + VALIDATION_GRACE);
          }
          state := state.(evalInFlight := state.evalInFlight + 1);
          admission := RuleAdmission(state.evalToken, false, false);
        }
      } else if state.phase != Closed {
        if state.phase == OnProbation || now < state.retryAt {
          admission := RuleAdmission(0, false, false);
        } else if state.routeToken != 0 && (state.routeToken != lease || state.routeKey != key) {
          admission := RuleAdmission(0, false, false);
        } else {
          state := state.(routeToken := 0, routeKey := NO_KEY);
          var token := NextToken();
          state := state.(phase := OnProbation, retryAt := 0, trial := Trial(token, key, 0, now, false, 0, 0, 0, 0, 0, 0));
          state := state.(scopes := [], scopesOwned := false, committed := []);
          state := state.(commitToken := 0, armInFlight := 0, armed := false);
          admission := RuleAdmission(token, true, true);
        }
      }
      rules := rules[rule := state];
    }

    method ClaimRecoveryRouteProbe(rule: string, key: Key, now: Time) returns (token: nat)
      modifies this
      ensures rule !in old(rules) ==> token == 0 && rules == old(rules) && nextToken == old(nextToken)
      ensures rule in old(rules) ==>
                var (r, t) := ClaimRoute(old(rules)[rule], key, now, old(nextToken) + 1);
                && token == t && rules == old(rules)[rule := r]
                && nextToken == old(nextToken) + (if t != 0 then 1 else 0)
      ensures endpointRules == old(endpointRules)
    {
      token := 0;
      if rule !in rules {
        return;
      }
      var state := rules[rule];
      if state.phase == CoolingDown && state.retryAt <= now && state.routeToken == 0 {
        token := NextToken();
        state := state.(routeToken := token, routeKey := key);
      }
      rules := rules[rule := state];
    }

    /** `taken`: a named rule and a route-probe token, released here or not; nobody else need look at it. */
    method ReleaseRecoveryRouteProbe(rule: string, token: nat, now: Time) returns (taken: bool)
      modifies this`rules
      ensures taken == (rule != "" && token != 0)
      ensures rules == if taken && rule in old(rules) then old(rules)[rule := ReleaseRoute(old(rules)[rule], token, now)] else old(rules)
    {
      if rule == "" || token == 0 {
        return false;
      }
      taken := true;
      if rule in rules && rules[rule].routeToken == token {
        var state := rules[rule];
        state := state.(routeToken := 0, routeKey := NO_KEY);
        state := state.(retryAt := now + ABORT_DELAY);
        rules := rules[rule := state];
      } else if rule in rules {
        assert rules[rule := rules[rule]] == rules;
      }
    }

    method EstablishProbation(rule: string, token: nat, key: Key, binding: Binding, now: Time) returns (bound: bool)
      modifies this`rules
      ensures rule !in old(rules) ==> !bound && rules == old(rules)
      ensures rule in old(rules) ==>
                var (r, ok) := Establish(old(rules)[rule], token, key, binding, now);
                bound == ok && rules == old(rules)[rule := r]
    {
      bound := false;
      if rule !in rules {
        return;
      }
      var state := rules[rule];
      if Owns(state, token) && state.trial.key == key && binding.generation != 0 {
        var trial := state.trial.(generation := binding.generation);
        trial := trial.(initialPackets := binding.packetsSent, initialPayload := binding.payloadBytes);
        state := state.(trial := trial.(establishedAt := now, established := true));
        bound := true;
      }
      rules := rules[rule := state];
    }

    method AbortProbation(rule: string, token: nat, now: Time)
      modifies this`rules
      ensures rules == if rule in old(rules) then old(rules)[rule := Abort(old(rules)[rule], token, now)] else old(rules)
    {
      if rule !in rules {
        return;
      }
      var state := rules[rule];
      if token != 0 && Owns(state, token) {
        state := state.(phase := CoolingDown, retryAt := now + ABORT_DELAY, trial := NoTrial);
        state := Unleased(state);
      }
      rules := rules[rule := state];
    }

    method FailProbation(rule: string, token: nat, now: Time)
      modifies this`rules
      ensures rules == if rule in old(rules) then old(rules)[rule := Fail(old(rules)[rule], token, now)] else old(rules)
    {
      if rule !in rules {
        return;
      }
      var state := rules[rule];
      if token != 0 && Owns(state, token) {
        state := ReenterCooldown(state, now);
      }
      rules := rules[rule := state];
    }

    method ReenterCooldown(entry: Rule, now: Time) returns (state: Rule)
      ensures state == Reenter(entry, now)
    {
      state := entry;
      if state.failures < COOLDOWN_STEPS {
        state := state.(failures := state.failures + 1);
      }
      var delay := CooldownStep(state.failures);
      state := state.(phase := CoolingDown, retryAt := now + delay, trial := NoTrial);
      state := Unleased(state);
    }

    method ObserveH2Validation(rule: string, token: nat, reachable: bool, now: Time) returns (committed: bool)
      modifies this`rules
      ensures rule !in old(rules) ==> !committed && rules == old(rules)
      ensures rule in old(rules) ==>
                var (r, c) := ObserveValidation(old(rules)[rule], token, reachable, now);
                committed == c && rules == old(rules)[rule := r]
    {
      committed := false;
      if rule !in rules {
        return;
      }
      var state := rules[rule];
      if Validates(state, token) {
        if Expired(state, now) {
          state := BackToClosed(state);
        } else {
          state := state.(evalInFlight := state.evalInFlight - 1);
          if reachable {
            var committing := state.evalToken;
            state := state.(phase := CoolingDown, failures := 1, retryAt := now + CooldownStep(1));
            state := state.(evalToken := 0, evalInFlight := 0, evalDeadline := 0);
            state := state.(committed := state.scopes, scopes := [], scopesOwned := false);
            if |state.committed| > 0 {
              state := state.(commitToken := committing, armInFlight := 1, armed := false);
            } else {
              state := state.(commitToken := 0, armInFlight := 0, armed := false);
            }
            state := state.(routeToken := 0, routeKey := NO_KEY);
            committed := true;
          }
        }
      }
      rules := rules[rule := state];
    }

    /** `ended`: the rules whose probation this degradation ended, each once, in no particular order. */
    method NoteRuleDegradation(event: DegradationEvent, now: Time) returns (ended: seq<string>)
      modifies this`rules, this`nextToken
      ensures rules.Keys == old(rules).Keys
      ensures
        var ev := event.(at := if event.at == 0 then now else event.at);
        var members := if event.key.address != "" && event.key in endpointRules then endpointRules[event.key] else {};
        && (forall r :: r in rules ==>
              if r in members then Degrades(old(rules)[r], rules[r], ev, now, old(nextToken), nextToken)
              else rules[r] == old(rules)[r])
        && nextToken == old(nextToken) + |OpenedBy(old(rules), members, ev)|
        && (forall r, q :: r in OpenedBy(old(rules), members, ev) && q in OpenedBy(old(rules), members, ev) && r != q ==>
              rules[r].evalToken != rules[q].evalToken)
      ensures forall r :: r in ended <==> r in rules && FailedProbation(old(rules)[r], rules[r])
      ensures forall i, j :: 0 <= i < j < |ended| ==> ended[i] != ended[j]
    {
      hide Degrades, NoteDegradation, Opens, OpenedBy;
      ended := [];
      if event.key.address == "" || event.key !in endpointRules {
        NoneDegraded(rules, event.(at := if event.at == 0 then now else event.at), now, nextToken);
        return;
      }
      var ev := event.(at := if event.at == 0 then now else event.at);
      ended := DegradeMembers(endpointRules[event.key], ev, now);
    }

    method DegradeMembers(members: set<string>, ev: DegradationEvent, now: Time) returns (ended: seq<string>)
      modifies this`rules, this`nextToken
      ensures Degraded(old(rules), rules, members, ev, now, old(nextToken), nextToken, ended)
    {
      hide Degrades, NoteDegradation, Degraded, FailedProbation, Opens;
      ended := [];
      var todo := members;
      ghost var done: set<string> := {};
      ghost var was, start := rules, nextToken;
      NoneDegraded(rules, ev, now, nextToken);
      while todo != {}
        invariant todo + done == members && todo !! done
        invariant Degraded(was, rules, done, ev, now, start, nextToken, ended)
        decreases |todo|
      {
        var rule :| rule in todo;
        todo := todo - {rule};
        if rule in rules {
          ghost var drawn := nextToken;
          UntouchedYet(was, rules, done, ev, now, start, drawn, ended, rule);
          var state, failed := DegradeRule(rules[rule], ev, now);
          OneMoreDegraded(was, rules, done, ev, now, start, drawn, nextToken, ended, rule, state);
          rules := rules[rule := state];
          if failed {
            ended := ended + [rule];
          }
        } else {
          SkippedDegraded(was, rules, done, ev, now, start, nextToken, ended, rule);
        }
        done := done + {rule};
      }
      assert done == members;
    }

    method DegradeRule(entry: Rule, ev: DegradationEvent, now: Time) returns (state: Rule, failed: bool)
      modifies this`nextToken
      ensures failed <==> FailedProbation(entry, state)
      ensures state == NoteDegradation(entry, ev, now, old(nextToken) + 1)
      ensures nextToken == old(nextToken) + (if Opens(entry, ev) then 1 else 0)
    {
      failed := false;
      state := if Expired(entry, ev.at) then BackToClosed(entry) else entry;
      if state.phase == OnProbation && state.trial.Trial? && state.trial.generation == ev.generation && state.trial.key == ev.key {
        state := ReenterCooldown(state, now);
        failed := true;
        return;
      }
      if state.phase != Closed {
        return;
      }
      var kept, duplicate := FilterRecent(state.recent, ev.at - DEGRADATION_WINDOW, ev);
      state := state.(recent := kept);
      if duplicate {
        return;
      }
      state := state.(recent := state.recent + [ev]);
      var open := CorroboratedBy(state.recent, ev);
      if !open {
        return;
      }
      var token := NextToken();
      state := state.(failures := 0, phase := Evaluating, retryAt := 0, trial := NoTrial);
      state := state.(evalToken := token, evalInFlight := 0, evalDeadline := 0);
      state := Unleased(state);
    }

    method NoteRuleSample(sample: Sample, now: Time)
      modifies this`rules
      ensures rules.Keys == old(rules).Keys
      ensures forall r :: r in old(rules) ==>
                rules[r] == if sample.key in endpointRules && r in endpointRules[sample.key]
                            then NoteSample(old(rules)[r], sample.(at := if sample.at == 0 then now else sample.at), now)
                            else old(rules)[r]
    {
      if sample.generation == 0 || sample.key !in endpointRules {
        return;
      }
      var s := sample.(at := if sample.at == 0 then now else sample.at);
      var todo := endpointRules[sample.key];
      while todo != {}
        invariant todo <= endpointRules[sample.key]
        invariant rules.Keys == old(rules).Keys
        invariant forall r :: r in old(rules) ==>
                    rules[r] == if r in endpointRules[sample.key] && r !in todo then NoteSample(old(rules)[r], s, now) else old(rules)[r]
        decreases |todo|
      {
        var rule :| rule in todo;
        todo := todo - {rule};
        if rule in rules {
          var state := SampleRule(rules[rule], s, now);
          rules := rules[rule := state];
        }
      }
    }

    method SampleRule(entry: Rule, s: Sample, now: Time) returns (state: Rule)
      ensures state == NoteSample(entry, s, now)
    {
      state := entry;
      if !Observes(state, s) {
        return;
      }
      var probe := UpdateEvidence(state.trial, s);
      if s.broken {
        state := ReenterCooldown(state, now);
        return;
      }
      if !s.sampled {
        state := state.(trial := probe);
        return;
      }
      var healthy := Healthy(s);
      if healthy && (probe.lastHealthyAt == 0 || s.at - probe.lastHealthyAt >= SAMPLE_INTERVAL) {
        probe := probe.(healthySamples := probe.healthySamples + 1, lastHealthyAt := s.at);
      } else if !healthy {
        probe := probe.(healthySamples := 0, lastHealthyAt := 0);
      }
      var elapsed := s.at - probe.establishedAt;
      var enoughData := probe.payload >= TRIAL_MIN_PAYLOAD || probe.packets >= TRIAL_MIN_PACKETS;
      if elapsed >= TRIAL_MIN_DURATION && enoughData && probe.healthySamples >= TRIAL_HEALTHY_COUNT {
        state := state.(phase := Closed, failures := 0, retryAt := 0, recent := [], trial := NoTrial);
        state := Unleased(state);
        return;
      }
      if elapsed >= TRIAL_MAX_DURATION {
        state := ReenterCooldown(state, now);
        return;
      }
      state := state.(trial := probe);
    }

    method BeginUDPBlackholeValidation(rule: string, scope: Scope, now: Time) returns (claim: BlackholeClaim)
      modifies this
      ensures endpointRules == old(endpointRules)
      ensures
        var registered := rule in old(rules) && scope.key in endpointRules && rule in endpointRules[scope.key];
        if !registered then claim == BlackholeClaim(0, false, false) && rules == old(rules) && nextToken == old(nextToken)
        else
          var (r, c) := BeginBlackhole(old(rules)[rule], scope, now, old(nextToken) + 1);
          && claim == c && rules == old(rules)[rule := r]
          && nextToken == old(nextToken) + (if scope.slot != 0 && Expire(old(rules)[rule], now).phase == Closed then 1 else 0)
    {
      claim := BlackholeClaim(0, false, false);
      if rule !in rules || scope.key !in endpointRules || rule !in endpointRules[scope.key] {
        return;
      }
      var state := rules[rule];
      if scope.slot == 0 {
        assert rules[rule := state] == rules;
        return;
      }
      if Expired(state, now) {
        state := BackToClosed(state);
      }
      if state.phase == CoolingDown {
        claim := BlackholeClaim(0, false, true);
        if state.retryAt <= now {
          state := ReenterCooldown(state, now);
        } else if state.commitToken != 0 {
          state := state.(armInFlight := state.armInFlight + 1);
          claim := BlackholeClaim(state.commitToken, false, true);
        }
        rules := rules[rule := state];
        return;
      }
      if state.phase == OnProbation {
        state := ReenterCooldown(state, now);
        rules := rules[rule := state];
        return BlackholeClaim(0, false, true);
      }
      if state.phase == Closed {
        var token := NextToken();
        state := state.(phase := Evaluating, evalToken := token, evalInFlight := 0, evalDeadline := 0);
        state := state.(scopes := [], committed := [], scopesOwned := true);
        assert AddScope([], scope) == [scope];
      } else {
        state := state.(scopes := AddScope(state.scopes, scope));
        assert scope in state.scopes;
        if state.evalInFlight > 0 {
          rules := rules[rule := state];
          return BlackholeClaim(state.evalToken, false, false);
        }
      }
      state := state.(scopes := AddScope(state.scopes, scope));
      state := state.(evalInFlight := state.evalInFlight + 1, evalDeadline := now + BLACKHOLE_PROBE_TIMEOUT);
      rules := rules[rule := state];
      claim := BlackholeClaim(state.evalToken, true, false);
    }

    method CompleteUDPBlackholeValidation(rule: string, token: nat, reachable: bool, now: Time) returns (verdict: BlackholeVerdict)
      modifies this`rules
      ensures rule !in old(rules) ==> verdict == Stale && rules == old(rules)
      ensures rule in old(rules) ==>
                var (r, v) := CompleteBlackhole(old(rules)[rule], token, reachable, now);
                verdict == v && rules == old(rules)[rule := r]
    {
      verdict := Stale;
      if rule !in rules {
        return;
      }
      var state := rules[rule];
      assert rules[rule := state] == rules;
      if token == 0 {
        return;
      }
      if state.phase == CoolingDown {
        return AlreadyCommitted;
      }
      if !Validates(state, token) {
        return;
      }
      if Expired(state, now) {
        rules := rules[rule := BackToClosed(state)];
        return;
      }
      state := state.(evalInFlight := state.evalInFlight - 1);
      if reachable {
        state := state.(committed := state.scopes, phase := CoolingDown, failures := 1, retryAt := now + CooldownStep(1));
        state := state.(evalToken := 0, evalInFlight := 0, evalDeadline := 0, scopes := [], scopesOwned := false);
        state := state.(commitToken := token, armInFlight := 1, armed := false, routeToken := 0, routeKey := NO_KEY);
        verdict := Committed;
      } else if state.evalInFlight > 0 {
        verdict := Pending;
      } else {
        state := BackToClosed(state);
        verdict := FailedOpen;
      }
      rules := rules[rule := state];
    }

    method RetainUDPBlackholeScopes(rule: string, token: nat, evaluated: seq<Scope>, active: seq<Scope>) returns (kept: bool)
      modifies this`rules
      ensures rule !in old(rules) ==> !kept && rules == old(rules)
      ensures rule in old(rules) ==>
                var (r, k) := Retain(old(rules)[rule], token, evaluated, active);
                kept == k && rules == old(rules)[rule := r]
    {
      kept := false;
      if rule !in rules {
        return;
      }
      var state := rules[rule];
      if token != 0 && state.phase == Evaluating && state.evalToken == token {
        var retained := PruneStale(state.scopes, evaluated, active);
        state := state.(scopes := retained);
        kept := |retained| > 0;
        if !kept {
          if state.evalInFlight > 0 {
            state := state.(evalInFlight := state.evalInFlight - 1);
          }
          if state.scopesOwned {
            state := BackToClosed(state);
          }
        }
      }
      rules := rules[rule := state];
    }

    method AbandonUDPBlackholeProbe(rule: string, token: nat)
      modifies this`rules
      ensures rules == if rule in old(rules) then old(rules)[rule := AbandonProbe(old(rules)[rule], token)] else old(rules)
    {
      if rule !in rules {
        return;
      }
      var state := rules[rule];
      if token != 0 && state.phase == Evaluating && state.evalToken == token {
        if state.evalInFlight > 0 {
          state := state.(evalInFlight := state.evalInFlight - 1);
        }
        if state.scopesOwned {
          state := BackToClosed(state);
        }
      }
      rules := rules[rule := state];
    }

    method TakeCommittedUDPBlackholes(rule: string) returns (scopes: seq<Scope>)
      modifies this`rules
      ensures rule !in old(rules) ==> scopes == [] && rules == old(rules)
      ensures rule in old(rules) ==>
                var (r, taken) := TakeCommitted(old(rules)[rule]);
                scopes == taken && rules == old(rules)[rule := r]
    {
      scopes := [];
      if rule in rules {
        var state := rules[rule];
        scopes := state.committed;
        rules := rules[rule := state.(committed := [])];
      }
    }

    method FinishUDPBlackholeArming(rule: string, token: nat, armed: bool) returns (retained: bool)
      modifies this`rules
      ensures rule !in old(rules) ==> retained == (token == 0) && rules == old(rules)
      ensures rule in old(rules) ==>
                var (r, k) := FinishArming(old(rules)[rule], token, armed);
                retained == k && rules == old(rules)[rule := r]
    {
      if token == 0 || rule !in rules {
        assert rule in rules ==> rules[rule := rules[rule]] == rules;
        return token == 0;
      }
      var state := rules[rule];
      retained := false;
      if state.phase == CoolingDown && state.commitToken == token {
        if state.armInFlight > 0 {
          state := state.(armInFlight := state.armInFlight - 1);
        }
        if armed {
          state := state.(armed := true);
        }
        if state.armInFlight == 0 && !state.armed {
          state := BackToClosed(state);
        } else {
          retained := true;
        }
      }
      rules := rules[rule := state];
    }
  }
}
