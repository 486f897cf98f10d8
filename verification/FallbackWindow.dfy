/**
 * The endpoint-level H3 -> H2 fallback window: every H3 attempt and every H2
 * fallback takes part in the epoch it was admitted under, and an epoch ends in
 * a reset, a committed cooldown, a fail-open expiry, or a cancelled probe.
 */
module FallbackWindow {
  import opened Clock

  datatype Cause = NoCause | Transport | Degradation

  /** The manager's tunables; a value that is not positive selects the default. */
  datatype Settings = Settings(
    cooldownBase: int, cooldownMax: int,
    degradedCooldownBase: int, degradedCooldownMax: int,
    degradationWindow: int)

  /** The delays the protocol uses, whatever they are. */
  datatype Policy = Policy(cooldown: (Cause, nat) -> nat, expiryDelay: nat, strikeWindow: nat)

  datatype Endpoint = Endpoint(
    epoch: nat, failures: nat, retryAt: Time,
    probing: bool, pending: bool,
    h3InFlight: int, fallbackPending: int, fallbackReady: bool,
    pendingCause: Cause, cooldownCause: Cause,
    strikes: nat, lastDegradation: Time, degradationActive: bool, degradationRetryAt: Time)

  datatype Admission = Admission(token: nat, managedProbe: bool, allowed: bool)

  // ---------------------------------------------------------------- cooldowns

  const COOLDOWN_BASE := 5 * SECOND
  const COOLDOWN_MAX := MINUTE
  const DEGRADED_COOLDOWN_BASE := MINUTE
  const DEGRADED_COOLDOWN_MAX := 5 * MINUTE
  const STRIKE_WINDOW := 5 * MINUTE

  function Positive(value: int, fallback: nat): nat
  {
    if value <= 0 then fallback else value
  }

  function Pow2(n: nat): nat
  {
    if n == 0 then 1 else 2 * Pow2(n - 1)
  }

  /** Exponential backoff in closed form: the base doubled once per repeated failure, capped. */
  function Backoff(base: nat, maximum: nat, failures: nat): nat
  {
    var delay := base * Pow2(if failures == 0 then 0 else failures - 1);
    if delay > maximum then maximum else delay
  }

  lemma {:induction false} Pow2Grows(m: nat, n: nat)
    requires m <= n
    ensures Pow2(m) <= Pow2(n)
  {
    if m < n {
      Pow2Grows(m, n - 1);
    }
  }

  /** The overflow-safe doubling loop returns the closed form for every base, cap and failure count. */
  method DoublingDelay(base: nat, maximum: nat, failures: nat) returns (delay: nat)
    requires base > 0 && maximum > 0
    ensures delay == Backoff(base, maximum, failures)
  {
    delay := base;
    var count := 1;
    var last := if failures == 0 then 0 else failures - 1;
    while count < failures && delay < maximum
      invariant 1 <= count && (count <= failures || count == 1)
      invariant delay == base * Pow2(count - 1)
    {
      if delay > maximum / 2 {
        Saturates(base, maximum, count, last);
        return maximum;
      }
      delay := delay * 2;
      count := count + 1;
    }
    if count < failures {
      Pow2Grows(count - 1, last);
      MulMonotone(base, Pow2(count - 1), Pow2(last));
    }
    if delay > maximum {
      return maximum;
    }
  }

  lemma MulMonotone(k: nat, a: nat, b: nat)
    requires a <= b
    ensures k * a <= k * b
  {
  }

  lemma Saturates(base: nat, maximum: nat, count: nat, last: nat)
    requires 1 <= count <= last
    requires base * Pow2(count - 1) > maximum / 2
    ensures base * Pow2(last) > maximum
  {
    Pow2Grows(count, last);
    MulMonotone(base, Pow2(count), Pow2(last));
    assert base * Pow2(count) == 2 * (base * Pow2(count - 1));
  }

  function CooldownFor(s: Settings, cause: Cause, failures: nat): nat
  {
    if cause == Degradation then
      Backoff(Positive(s.degradedCooldownBase, DEGRADED_COOLDOWN_BASE),
              Positive(s.degradedCooldownMax, DEGRADED_COOLDOWN_MAX), failures)
    else
      Backoff(Positive(s.cooldownBase, COOLDOWN_BASE), Positive(s.cooldownMax, COOLDOWN_MAX), failures)
  }

  function PolicyOf(s: Settings): Policy
  {
    Policy((cause, failures) => CooldownFor(s, cause, failures),
           Positive(s.cooldownBase, COOLDOWN_BASE), Positive(s.degradationWindow, STRIKE_WINDOW))
  }

  // ------------------------------------------------- one endpoint, one step each

  /** Every counter and flag of the window cleared, under a new epoch. */
  function NewEpoch(e: Endpoint, next: nat): Endpoint
  {
    e.(epoch := next, probing := false, pending := false, h3InFlight := 0, fallbackPending := 0,
       fallbackReady := false, pendingCause := NoCause)
  }

  function CommitCause(e: Endpoint): Cause
  {
    if e.pendingCause != NoCause then e.pendingCause
    else if e.cooldownCause != NoCause then e.cooldownCause
    else Transport
  }

  function Commit(p: Policy, e: Endpoint, now: Time, next: nat): Endpoint
  {
    var cause := CommitCause(e);
    NewEpoch(e, next).(
      cooldownCause := cause,
      degradationRetryAt := 0,
      failures := e.failures + 1,
      retryAt := now + p.cooldown(cause, e.failures + 1))
  }

  function Expire(p: Policy, e: Endpoint, now: Time, next: nat): Endpoint
  {
    NewEpoch(e, next).(
      degradationRetryAt :=
        if e.pendingCause == Degradation then now + p.expiryDelay else e.degradationRetryAt)
  }

  function Reset(e: Endpoint, next: nat, resetDegradation: bool): Endpoint
  {
    var r := NewEpoch(e, next).(failures := 0, cooldownCause := NoCause, retryAt := 0);
    if resetDegradation then
      r.(strikes := 0, lastDegradation := 0, degradationActive := false, degradationRetryAt := 0)
    else r
  }

  function StartDegradation(e: Endpoint, next: nat): Endpoint
  {
    NewEpoch(e, next).(pending := true, pendingCause := Degradation, degradationRetryAt := 0)
  }

  function Resolve(p: Policy, e: Endpoint, now: Time, next: nat): Endpoint
  {
    if e.h3InFlight > 0 then e
    else if e.fallbackReady then Commit(p, e, now, next)
    else if e.fallbackPending > 0 then e
    else Expire(p, e, now, next)
  }

  function NewEndpoint(next: nat): Endpoint
  {
    Endpoint(next, 0, 0, false, false, 0, 0, false, NoCause, NoCause, 0, 0, false, 0)
  }

  predicate DegradationRetryDue(e: Endpoint, now: Time)
  {
    e.failures == 0 && e.degradationActive && e.strikes >= 2 && e.degradationRetryAt != 0 && now >= e.degradationRetryAt
  }

  function Begin(e: Endpoint, now: Time, next: nat): (Endpoint, Admission)
  {
    if e.pending then
      (e.(fallbackPending := e.fallbackPending + 1), Admission(e.epoch, false, false))
    else if DegradationRetryDue(e, now) then
      (StartDegradation(e, next).(fallbackPending := 1), Admission(next, false, false))
    else if e.failures == 0 then
      (e.(h3InFlight := e.h3InFlight + 1), Admission(e.epoch, false, true))
    else if e.probing then
      (e.(fallbackPending := e.fallbackPending + 1), Admission(e.epoch, false, false))
    else if now < e.retryAt then
      (e, Admission(0, false, false))
    else
      (e.(probing := true, epoch := next, h3InFlight := 1, fallbackPending := 0, fallbackReady := false,
          pendingCause := NoCause), Admission(next, true, true))
  }

  function Join(e: Endpoint): (Endpoint, nat)
  {
    if !e.pending && !e.probing then (e, 0)
    else (e.(fallbackPending := e.fallbackPending + 1), e.epoch)
  }

  function MarkPending(p: Policy, e: Endpoint, token: nat, now: Time, next: nat): Endpoint
  {
    if e.epoch != token || e.h3InFlight <= 0 then e
    else
      var cause :=
        if e.probing && e.cooldownCause != NoCause then e.cooldownCause
        else if e.pendingCause == NoCause then Transport
        else e.pendingCause;
      Resolve(p, e.(h3InFlight := e.h3InFlight - 1, fallbackPending := e.fallbackPending + 1, pending := true,
                    pendingCause := cause, probing := false), now, next)
  }

  function Abandon(p: Policy, e: Endpoint, token: nat, now: Time, next: nat): Endpoint
  {
    if e.epoch != token || e.h3InFlight <= 0 then e
    else if e.probing then NewEpoch(e, next)
    else Resolve(p, e.(h3InFlight := e.h3InFlight - 1), now, next)
  }

  /** `usable`: the attempt returned a tunnel or any status that does not ask for another protocol. */
  function Observe(p: Policy, e: Endpoint, token: nat, managedProbe: bool, usable: bool,
                   parentAlive: bool, reachable: bool, now: Time, next: nat): Endpoint
  {
    if e.epoch != token then e
    else if usable then Reset(e, next, managedProbe)
    else if e.fallbackPending <= 0 then e
    else
      Resolve(p, e.(fallbackPending := e.fallbackPending - 1,
                    fallbackReady := e.fallbackReady || (parentAlive && reachable)), now, next)
  }

  function NoteDegradation(p: Policy, e: Endpoint, now: Time, next: nat): Endpoint
  {
    var aged :=
      if e.lastDegradation != 0 && now - e.lastDegradation > p.strikeWindow
      then e.(strikes := 0) else e;
    if aged.degradationActive then aged
    else
      var struck := aged.(degradationActive := true, lastDegradation := now,
                          strikes := if aged.strikes < 8 then aged.strikes + 1 else aged.strikes);
      if struck.strikes < 2 || struck.pending || struck.probing || (struck.failures > 0 && now < struck.retryAt)
      then struck
      else StartDegradation(struck, next)
  }

  function NoteRecovery(e: Endpoint): Endpoint
  {
    e.(degradationActive := false)
  }

  // ------------------------------------------- a window's ending, in any order

  /** What each member of an epoch's cohort will turn out to do. */
  datatype Fate = Succeeds | Abandons | FallsBack(parentAlive: bool, reachable: bool)

  datatype Ending = ResetEnd | ProbeCancelled | Cooldown | Expired

  /** Members still trying H3, and members whose H2 fallback is outstanding. */
  datatype Cohort = Cohort(flying: set<nat>, waiting: set<nat>)

  /** One settlement: which member moves, the clock then, and the next unused epoch then. */
  datatype Tick = Tick(who: nat, now: Time, next: nat)

  predicate Ready(f: Fate)
  {
    f.FallsBack? && f.parentAlive && f.reachable
  }

  /** The next operation of one member: its H3 result, or its H2 result once it has fallen back. */
  function Act(p: Policy, e: Endpoint, token: nat, managed: bool, flying: bool, f: Fate, now: Time, next: nat): Endpoint
  {
    match f
    case Succeeds => if flying then Observe(p, e, token, managed, true, true, false, now, next) else e
    case Abandons => if flying then Abandon(p, e, token, now, next) else e
    case FallsBack(alive, reachable) =>
      if flying then MarkPending(p, e, token, now, next)
      else Observe(p, e, token, managed, false, alive, reachable, now, next)
  }

  function MemberMoved(c: Cohort, fate: nat -> Fate, who: nat): Cohort
  {
    if who in c.flying then
      Cohort(c.flying - {who}, if fate(who).FallsBack? then c.waiting + {who} else c.waiting)
    else c.(waiting := c.waiting - {who})
  }

  function Settle(p: Policy, e: Endpoint, token: nat, managed: bool, c: Cohort, fate: nat -> Fate, schedule: seq<Tick>): Endpoint
    decreases |schedule|
  {
    if schedule == [] then e
    else
      var t := schedule[0];
      Settle(p, Act(p, e, token, managed, t.who in c.flying, fate(t.who), t.now, t.next), token, managed,
             MemberMoved(c, fate, t.who), fate, schedule[1..])
  }

  /** The schedule moves only outstanding members and leaves none outstanding. */
  ghost predicate Complete(token: nat, c: Cohort, fate: nat -> Fate, schedule: seq<Tick>)
    decreases |schedule|
  {
    if schedule == [] then c.flying == {} && c.waiting == {}
    else
      && schedule[0].who in c.flying + c.waiting
      && schedule[0].next > token
      && Complete(token, MemberMoved(c, fate, schedule[0].who), fate, schedule[1..])
  }

  /** How many members are where, and what some member will do: all that the ending depends on. */
  datatype Tally = Tally(flying: nat, waiting: nat, succeeds: bool, abandons: bool, ready: bool)

  ghost function TallyOf(c: Cohort, fate: nat -> Fate): Tally
  {
    Tally(|c.flying|, |c.waiting|,
          exists i :: i in c.flying && fate(i).Succeeds?,
          exists i :: i in c.flying && fate(i).Abandons?,
          exists i :: i in c.flying + c.waiting && Ready(fate(i)))
  }

  /** The ending as a function of the cohort alone: it never mentions an order. */
  function Verdict(e: Endpoint, t: Tally): Ending
  {
    if t.succeeds then ResetEnd
    else if e.probing && t.abandons then ProbeCancelled
    else if e.fallbackReady || t.ready then Cooldown
    else Expired
  }

  /** An endpoint up to the epoch number and the clock readings stored in it. */
  function Untimed(e: Endpoint): Endpoint
  {
    e.(epoch := 0, retryAt := 0, degradationRetryAt := 0)
  }

  /** What each ending leaves of the endpoint, field by field. */
  function EndedAs(e: Endpoint, ending: Ending, managed: bool): Endpoint
  {
    match ending
    case ResetEnd =>
      Endpoint(0, 0, 0, false, false, 0, 0, false, NoCause, NoCause,
               if managed then 0 else e.strikes, if managed then 0 else e.lastDegradation, !managed && e.degradationActive, 0)
    case Cooldown =>
      Endpoint(0, e.failures + 1, 0, false, false, 0, 0, false, NoCause,
               if e.pendingCause != NoCause then e.pendingCause else if e.cooldownCause != NoCause then e.cooldownCause else Transport,
               e.strikes, e.lastDegradation, e.degradationActive, 0)
    case _ =>
      Endpoint(0, e.failures, 0, false, false, 0, 0, false, NoCause, e.cooldownCause,
               e.strikes, e.lastDegradation, e.degradationActive, 0)
  }

  /** What every reachable endpoint satisfies on its own. */
  ghost predicate Shape(e: Endpoint)
  {
    && e.h3InFlight >= 0 && e.fallbackPending >= 0
    && (e.probing ==> e.h3InFlight == 1 && e.failures > 0 && !e.pending)
    && (e.failures > 0 && !e.probing ==> e.h3InFlight == 0)
    && (!e.pending && !e.probing ==> e.fallbackPending == 0)
    && (e.pending <==> e.pendingCause != NoCause)
    && (e.fallbackReady ==> e.h3InFlight > 0)
    && (e.failures == 0 <==> e.cooldownCause == NoCause)
    && (e.pending && e.pendingCause != Degradation ==> e.h3InFlight + e.fallbackPending > 0)
  }

  /**
   * A step that stays in its epoch moves the counters by the given amounts; one
   * that leaves it starts the next epoch with nobody in it.
   */
  ghost predicate Moved(e: Endpoint, e': Endpoint, next: nat, h3: int, h2: int)
  {
    && Shape(e')
    && if e'.epoch == e.epoch then e'.h3InFlight == e.h3InFlight + h3 && e'.fallbackPending == e.fallbackPending + h2
       else e'.epoch == next && e'.h3InFlight == 0 && e'.fallbackPending == 0 && !e'.fallbackReady
  }

  /** A settlement under a stale token changes nothing; under the current one it moves the counters. */
  ghost predicate SettlesAs(e: Endpoint, e': Endpoint, token: nat, next: nat, h3: int, h2: int)
  {
    if e.epoch == token then Moved(e, e', next, h3, h2) else e' == e
  }

  /** A window is ready after a step exactly if its epoch goes on and it was ready or was just proved so. */
  ghost predicate StaysReady(e: Endpoint, e': Endpoint, proved: bool)
  {
    && (e'.fallbackReady ==> e.fallbackReady || proved)
    && (e'.epoch == e.epoch && (e.fallbackReady || proved) ==> e'.fallbackReady)
  }

  lemma MarkSettles(p: Policy, e: Endpoint, token: nat, now: Time, next: nat)
    requires Shape(e) && e.epoch < next && (e.epoch == token ==> e.h3InFlight > 0)
    ensures SettlesAs(e, MarkPending(p, e, token, now, next), token, next, -1, 1)
    ensures StaysReady(e, MarkPending(p, e, token, now, next), false)
  {
  }

  lemma AbandonSettles(p: Policy, e: Endpoint, token: nat, now: Time, next: nat)
    requires Shape(e) && e.epoch < next && (e.epoch == token ==> e.h3InFlight > 0)
    ensures SettlesAs(e, Abandon(p, e, token, now, next), token, next, -1, 0)
    ensures StaysReady(e, Abandon(p, e, token, now, next), false)
  {
  }

  lemma SuccessSettles(p: Policy, e: Endpoint, token: nat, managed: bool, now: Time, next: nat)
    requires Shape(e) && e.epoch < next
    ensures SettlesAs(e, Observe(p, e, token, managed, true, true, false, now, next), token, next, -1, 0)
    ensures StaysReady(e, Observe(p, e, token, managed, true, true, false, now, next), false)
  {
  }

  lemma FallbackSettles(p: Policy, e: Endpoint, token: nat, alive: bool, reachable: bool, now: Time, next: nat)
    requires Shape(e) && e.epoch < next && (e.epoch == token ==> e.fallbackPending > 0)
    ensures SettlesAs(e, Observe(p, e, token, false, false, alive, reachable, now, next), token, next, 0, -1)
    ensures StaysReady(e, Observe(p, e, token, false, false, alive, reachable, now, next),
                       e.epoch == token && alive && reachable)
  {
  }

  lemma DegradationMoves(p: Policy, e: Endpoint, now: Time, next: nat)
    requires Shape(e) && e.epoch < next
    ensures Moved(e, NoteDegradation(p, e, now, next), next, 0, 0)
    ensures StaysReady(e, NoteDegradation(p, e, now, next), false)
  {
  }

  /** Only a window that is ready, or becomes ready with this very result, raises the failure count. */
  lemma OnlyReadinessCommits(p: Policy, e: Endpoint, token: nat, managed: bool, usable: bool, alive: bool, reachable: bool, now: Time, next: nat)
    ensures MarkPending(p, e, token, now, next).failures > e.failures ==> e.fallbackReady
    ensures Abandon(p, e, token, now, next).failures > e.failures ==> e.fallbackReady
    ensures Observe(p, e, token, managed, usable, alive, reachable, now, next).failures > e.failures
            ==> e.fallbackReady || (e.epoch == token && alive && reachable)
    ensures Begin(e, now, next).0.failures == Join(e).0.failures == e.failures
    ensures NoteDegradation(p, e, now, next).failures == NoteRecovery(e).failures == e.failures
  {
  }

  /** An admission adds exactly the participant its token stands for. */
  lemma BeginAdmits(e: Endpoint, now: Time, next: nat)
    requires Shape(e) && 0 < e.epoch < next
    ensures
      var (e', a) := Begin(e, now, next);
      && Shape(e') && (e'.fallbackReady <==> e.fallbackReady && e'.epoch == e.epoch)
      && if a.token == 0 then e' == e && !a.allowed
         else
           && a.token == e'.epoch && (a.token == e.epoch || a.token == next)
           && e'.h3InFlight == (if a.token == e.epoch then e.h3InFlight else 0) + (if a.allowed then 1 else 0)
           && e'.fallbackPending == (if a.token == e.epoch then e.fallbackPending else 0) + (if a.allowed then 0 else 1)
  {
  }

  /** The tally of a cohort that holds exactly the endpoint's current epoch. */
  ghost predicate TallyFits(e: Endpoint, token: nat, t: Tally)
  {
    && Shape(e) && e.epoch == token
    && e.h3InFlight == t.flying && e.fallbackPending == t.waiting
    && (t.succeeds || t.abandons ==> t.flying > 0)
    && (t.ready ==> t.flying + t.waiting > 0)
  }

  ghost predicate CohortOf(e: Endpoint, token: nat, c: Cohort, fate: nat -> Fate)
  {
    && Shape(e) && e.epoch == token
    && c.flying !! c.waiting
    && e.h3InFlight == |c.flying| && e.fallbackPending == |c.waiting|
    && forall i :: i in c.waiting ==> fate(i).FallsBack?
  }

  /** Once the epoch has moved on, the rest of the cohort changes nothing. */
  lemma {:induction false} LateSettlementsIgnored(p: Policy, e: Endpoint, token: nat, managed: bool, c: Cohort, fate: nat -> Fate, schedule: seq<Tick>)
    requires e.epoch != token
    ensures Settle(p, e, token, managed, c, fate, schedule) == e
    decreases |schedule|
  {
    if schedule != [] {
      LateSettlementsIgnored(p, e, token, managed, MemberMoved(c, fate, schedule[0].who), fate, schedule[1..]);
    }
  }

  /** A settlement either ends the window as its verdict says, or leaves the verdict and its effect alone. */
  ghost predicate FollowsVerdict(e: Endpoint, t: Tally, e': Endpoint, t': Tally, token: nat, managed: bool)
  {
    var v := Verdict(e, t);
    if e'.epoch != token then Untimed(e') == EndedAs(e, v, managed)
    else
      && TallyFits(e', token, t')
      && t'.flying + t'.waiting > 0
      && Verdict(e', t') == v
      && EndedAs(e', v, managed) == EndedAs(e, v, managed)
  }

  /** The tally before and after one member's move. */
  ghost predicate Moves(t: Tally, t': Tally, flying: bool, f: Fate)
  {
    && (t.flying == 0 ==> !t.succeeds && !t.abandons)
    && (t'.flying == 0 ==> !t'.succeeds && !t'.abandons)
    && (t'.flying + t'.waiting == 0 ==> !t'.ready)
    && match f
       case Succeeds => flying && t.succeeds
       case Abandons => flying && t.abandons && t' == t.(flying := t.flying - 1, abandons := t'.abandons)
       case FallsBack(alive, reachable) =>
         if flying then t.flying > 0 && t' == t.(flying := t.flying - 1, waiting := t.waiting + 1)
         else
           && t.waiting > 0 && t' == t.(waiting := t.waiting - 1, ready := t'.ready)
           && t.ready == (t'.ready || (alive && reachable))
  }

  lemma H3ResultFollows(p: Policy, e: Endpoint, token: nat, managed: bool, f: Fate, t: Tally, t': Tally, now: Time, next: nat)
    requires TallyFits(e, token, t) && next > token
    requires Moves(t, t', true, f) && !f.FallsBack?
    ensures FollowsVerdict(e, t, Act(p, e, token, managed, true, f, now, next), t', token, managed)
  {
  }

  lemma H3FailureFollows(p: Policy, e: Endpoint, token: nat, managed: bool, f: Fate, t: Tally, t': Tally, now: Time, next: nat)
    requires TallyFits(e, token, t) && next > token
    requires Moves(t, t', true, f) && f.FallsBack?
    ensures FollowsVerdict(e, t, Act(p, e, token, managed, true, f, now, next), t', token, managed)
  {
  }

  lemma H2ResultFollows(p: Policy, e: Endpoint, token: nat, managed: bool, f: Fate, t: Tally, t': Tally, now: Time, next: nat)
    requires TallyFits(e, token, t) && next > token
    requires Moves(t, t', false, f)
    ensures FollowsVerdict(e, t, Act(p, e, token, managed, false, f, now, next), t', token, managed)
  {
  }

  lemma MoveTallied(c: Cohort, fate: nat -> Fate, who: nat)
    requires who in c.flying + c.waiting && c.flying !! c.waiting
    requires forall i :: i in c.waiting ==> fate(i).FallsBack?
    ensures Moves(TallyOf(c, fate), TallyOf(MemberMoved(c, fate, who), fate), who in c.flying, fate(who))
  {
    var c' := MemberMoved(c, fate, who);
    if who in c.waiting {
      assert |c.waiting - {who}| == |c.waiting| - 1;
      assert forall i :: i in c.flying + c.waiting <==> i == who || i in c'.flying + c'.waiting;
    } else {
      assert |c.flying - {who}| == |c.flying| - 1;
      assert forall i :: i in c.flying <==> i == who || i in c'.flying;
      if fate(who).FallsBack? {
        assert c'.flying + c'.waiting == c.flying + c.waiting;
      } else {
        assert forall i :: i in c.flying + c.waiting <==> i == who || i in c'.flying + c'.waiting;
      }
    }
  }

  lemma TallyOfCohortFits(e: Endpoint, token: nat, c: Cohort, fate: nat -> Fate)
    requires CohortOf(e, token, c, fate)
    ensures TallyFits(e, token, TallyOf(c, fate))
  {
  }

  /** The same for the cohort itself: one settlement keeps the verdict until it ends the window that way. */
  lemma SettlementFollows(p: Policy, e: Endpoint, token: nat, managed: bool, c: Cohort, fate: nat -> Fate, t: Tick)
    requires CohortOf(e, token, c, fate) && t.next > token
    requires t.who in c.flying + c.waiting
    ensures
      var e' := Act(p, e, token, managed, t.who in c.flying, fate(t.who), t.now, t.next);
      var c' := MemberMoved(c, fate, t.who);
      FollowsVerdict(e, TallyOf(c, fate), e', TallyOf(c', fate), token, managed)
  {
    var c' := MemberMoved(c, fate, t.who);
    TallyOfCohortFits(e, token, c, fate);
    MoveTallied(c, fate, t.who);
    var before, after, f := TallyOf(c, fate), TallyOf(c', fate), fate(t.who);
    if t.who !in c.flying {
      H2ResultFollows(p, e, token, managed, f, before, after, t.now, t.next);
    } else if f.FallsBack? {
      H3FailureFollows(p, e, token, managed, f, before, after, t.now, t.next);
    } else {
      H3ResultFollows(p, e, token, managed, f, before, after, t.now, t.next);
    }
  }

  lemma CohortAfter(e': Endpoint, token: nat, c: Cohort, fate: nat -> Fate, who: nat)
    requires c.flying !! c.waiting && forall i :: i in c.waiting ==> fate(i).FallsBack?
    requires TallyFits(e', token, TallyOf(MemberMoved(c, fate, who), fate))
    ensures CohortOf(e', token, MemberMoved(c, fate, who), fate)
  {
  }

  /**
   * The ending of an epoch does not depend on the order in which its cohort
   * settles: whatever the schedule and the clock, the endpoint is left as the
   * order-free verdict says, under a new epoch.
   */
  lemma {:induction false} OutcomeIgnoresOrder(p: Policy, e: Endpoint, token: nat, managed: bool, c: Cohort, fate: nat -> Fate, schedule: seq<Tick>)
    requires CohortOf(e, token, c, fate)
    requires c.flying + c.waiting != {}
    requires Complete(token, c, fate, schedule)
    ensures
      var final := Settle(p, e, token, managed, c, fate, schedule);
      && final.epoch != token
      && Untimed(final) == EndedAs(e, Verdict(e, TallyOf(c, fate)), managed)
    decreases |schedule|
  {
    var t := schedule[0];
    var e' := Act(p, e, token, managed, t.who in c.flying, fate(t.who), t.now, t.next);
    var c' := MemberMoved(c, fate, t.who);
    SettlementFollows(p, e, token, managed, c, fate, t);
    if e'.epoch != token {
      LateSettlementsIgnored(p, e', token, managed, c', fate, schedule[1..]);
    } else {
      CohortAfter(e', token, c, fate, t.who);
      OutcomeIgnoresOrder(p, e', token, managed, c', fate, schedule[1..]);
    }
  }

  /**
   * Exactly when an epoch ends in a cooldown: some fallback was reachable with a
   * live parent (or one already had been), no H3 attempt succeeded, and no
   * half-open probe was given up.
   */
  lemma CooldownExactly(p: Policy, e: Endpoint, token: nat, managed: bool, c: Cohort, fate: nat -> Fate, schedule: seq<Tick>)
    requires CohortOf(e, token, c, fate)
    requires c.flying + c.waiting != {}
    requires Complete(token, c, fate, schedule)
    ensures Settle(p, e, token, managed, c, fate, schedule).failures == e.failures + 1 <==>
      && (forall i :: i in c.flying ==> !fate(i).Succeeds?)
      && (e.probing ==> forall i :: i in c.flying ==> !fate(i).Abandons?)
      && (e.fallbackReady || exists i :: i in c.flying + c.waiting && Ready(fate(i)))
  {
    hide Settle, Complete;
    OutcomeIgnoresOrder(p, e, token, managed, c, fate, schedule);
    var final := Settle(p, e, token, managed, c, fate, schedule);
    assert final.failures == Untimed(final).failures;
  }
}
