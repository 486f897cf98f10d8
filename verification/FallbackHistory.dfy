/**
 * What an endpoint does is a function of its history: when and why its failure
 * count last rose, which reports of degradation and recovery it had, and how
 * its current epoch began. Delays are stated in numbers.
 */
module FallbackHistory {
  import opened Clock
  import opened Options
  import opened Endpoints
  import opened FallbackWindow
  import opened FallbackManager

  /** How the current epoch began: as a degradation window, with a half-open probe, or otherwise. */
  datatype EpochKind = Ordinary | Degrading | HalfOpen

  /** A report about a transport, or a probe's success, which forgives all earlier reports. */
  datatype Notice = Worse(at: Time) | Better | Forgiven

  datatype Rise = Rise(at: Time, cause: Cause)

  /**
   * One endpoint's history: the kind of its epoch, the failures since the last
   * success and when and why they last rose, the notices, and when a fruitless
   * degradation window may be tried again (0 for never).
   */
  datatype Story = Story(kind: EpochKind, count: nat, rise: Option<Rise>, notices: seq<Notice>, retry: Time)

  const UNTOLD := Story(Ordinary, 0, None, [], 0)

  function CauseOf(st: Story): Cause
  {
    match st.kind
    case Degrading => Degradation
    case HalfOpen => if st.rise.Some? then st.rise.value.cause else Transport
    case Ordinary => Transport
  }

  /** The story goes on: told from the event, whether the epoch changed and whether the failure count rose. */
  function Continued(p: Policy, st: Story, action: Action, allowed: bool, now: Time, moved: bool, raised: bool): Story
  {
    var won := moved && action.H3Usable?;
    var forgiven := won && action.managedProbe;
    Story(
      if !moved then st.kind
      else if action.Dial? then (if allowed then HalfOpen else Degrading)
      else if action.Degraded? then Degrading
      else Ordinary,
      if raised then st.count + 1 else if won then 0 else st.count,
      if raised then Some(Rise(now, CauseOf(st))) else if won then None else st.rise,
      if action.Degraded? then st.notices + [Worse(now)]
      else if action.Recovered? then st.notices + [Better]
      else if forgiven then st.notices + [Forgiven]
      else st.notices,
      if raised || forgiven then 0
      else if moved && (action.Degraded? || (action.Dial? && !allowed)) then 0
      else if moved && action.H2Done? && CauseOf(st) == Degradation then now + p.expiryDelay
      else st.retry)
  }

  // ------------------------------------------------- strikes, from the notices

  predicate Active(notices: seq<Notice>)
  {
    notices != [] && notices[|notices| - 1].Worse?
  }

  /** When the last strike fell: the last bad report that did not follow another one directly. */
  function LastStrike(notices: seq<Notice>): Time
  {
    if notices == [] then 0
    else
      var front, last := notices[..|notices| - 1], notices[|notices| - 1];
      if last.Forgiven? then 0
      else if last.Worse? && !Active(front) then last.at
      else LastStrike(front)
  }

  /** Strikes add up to eight; a bad report later than `window` after the last strike starts over. */
  function Strikes(window: nat, notices: seq<Notice>): nat
  {
    if notices == [] then 0
    else
      var front, last := notices[..|notices| - 1], notices[|notices| - 1];
      match last
      case Forgiven => 0
      case Better => Strikes(window, front)
      case Worse(at) =>
        var kept := if LastStrike(front) != 0 && at - LastStrike(front) > window then 0 else Strikes(window, front);
        if Active(front) || kept >= 8 then kept else kept + 1
  }

  lemma Noticed(window: nat, notices: seq<Notice>, n: Notice)
    ensures Active(notices + [n]) == n.Worse?
    ensures LastStrike(notices + [n]) ==
      if n.Forgiven? then 0 else if n.Worse? && !Active(notices) then n.at else LastStrike(notices)
    ensures Strikes(window, notices + [n]) ==
      match n
      case Forgiven => 0
      case Better => Strikes(window, notices)
      case Worse(at) =>
        var kept := if LastStrike(notices) != 0 && at - LastStrike(notices) > window then 0 else Strikes(window, notices);
        if Active(notices) || kept >= 8 then kept else kept + 1
  {
    assert (notices + [n])[..|notices|] == notices;
  }

  // ------------------------------------------------- the endpoint, told again

  ghost predicate Suspected(p: Policy, e: Endpoint, notices: seq<Notice>)
  {
    && e.strikes == Strikes(p.strikeWindow, notices)
    && e.lastDegradation == LastStrike(notices)
    && e.degradationActive == Active(notices)
  }

  /** Every field the protocol decides by is what the history says. */
  ghost predicate Told(p: Policy, e: Endpoint, st: Story)
  {
    && e.failures == st.count && (st.count == 0 <==> st.rise.None?)
    && (st.rise.None? ==> e.retryAt == 0 && e.cooldownCause == NoCause)
    && (st.rise.Some? ==> st.rise.value.cause != NoCause && e.cooldownCause == st.rise.value.cause
                          && e.retryAt == st.rise.value.at + p.cooldown(st.rise.value.cause, st.count))
    && (e.pending ==> e.pendingCause == CauseOf(st))
    && (e.probing ==> st.kind == HalfOpen) && (st.kind == HalfOpen ==> st.count > 0)
    && (st.kind == Degrading ==> e.pending && e.h3InFlight == 0)
    && e.degradationRetryAt == st.retry
  }

  function After1(p: Policy, e: Endpoint, st: Story, action: Action, now: Time, next: nat): Story
  {
    var e' := EndpointStep(p, e, action, now, next);
    Continued(p, st, action, action.Dial? && Begin(e, now, next).1.allowed, now, e'.epoch != e.epoch, e'.failures > e.failures)
  }

  lemma DialTold(p: Policy, e: Endpoint, st: Story, now: Time, next: nat)
    requires Shape(e) && e.epoch < next && Told(p, e, st) && Suspected(p, e, st.notices)
    ensures Told(p, Begin(e, now, next).0, After1(p, e, st, Dial, now, next))
  {
  }

  lemma JoinTold(p: Policy, e: Endpoint, st: Story, now: Time, next: nat)
    requires Shape(e) && e.epoch < next && Told(p, e, st)
    ensures Told(p, Join(e).0, After1(p, e, st, Bypass, now, next))
  {
  }

  lemma FailureTold(p: Policy, e: Endpoint, st: Story, token: nat, now: Time, next: nat)
    requires Shape(e) && e.epoch < next && Told(p, e, st)
    ensures Told(p, MarkPending(p, e, token, now, next), After1(p, e, st, H3Failed(token), now, next))
  {
  }

  lemma AbandonTold(p: Policy, e: Endpoint, st: Story, token: nat, now: Time, next: nat)
    requires Shape(e) && e.epoch < next && Told(p, e, st)
    ensures Told(p, Abandon(p, e, token, now, next), After1(p, e, st, H3Abandoned(token), now, next))
  {
  }

  lemma UsableTold(p: Policy, e: Endpoint, st: Story, token: nat, managed: bool, now: Time, next: nat)
    requires Shape(e) && e.epoch < next && Told(p, e, st)
    ensures Told(p, EndpointStep(p, e, H3Usable(token, managed), now, next),
                 After1(p, e, st, H3Usable(token, managed), now, next))
  {
  }

  lemma FallbackTold(p: Policy, e: Endpoint, st: Story, token: nat, alive: bool, reachable: bool, now: Time, next: nat)
    requires Shape(e) && e.epoch < next && Told(p, e, st)
    ensures Told(p, EndpointStep(p, e, H2Done(token, alive, reachable), now, next),
                 After1(p, e, st, H2Done(token, alive, reachable), now, next))
  {
  }

  lemma DegradationTold(p: Policy, e: Endpoint, st: Story, now: Time, next: nat)
    requires Shape(e) && e.epoch < next && Told(p, e, st)
    ensures Told(p, NoteDegradation(p, e, now, next), After1(p, e, st, Degraded, now, next))
    ensures Told(p, NoteRecovery(e), After1(p, e, st, Recovered, now, next))
  {
  }

  lemma DialSuspected(p: Policy, e: Endpoint, notices: seq<Notice>, action: Action, now: Time, next: nat)
    requires Suspected(p, e, notices) && !action.Degraded? && !action.Recovered? && !action.H3Usable?
    ensures Suspected(p, EndpointStep(p, e, action, now, next), notices)
  {
    hide Strikes, LastStrike, Active;
  }

  lemma NoticesSuspected(p: Policy, e: Endpoint, notices: seq<Notice>, now: Time, next: nat)
    requires Suspected(p, e, notices)
    ensures Suspected(p, NoteDegradation(p, e, now, next), notices + [Worse(now)])
    ensures Suspected(p, NoteRecovery(e), notices + [Better])
  {
    hide Strikes, LastStrike, Active;
    Noticed(p.strikeWindow, notices, Worse(now));
    Noticed(p.strikeWindow, notices, Better);
  }

  lemma UsableSuspected(p: Policy, e: Endpoint, notices: seq<Notice>, token: nat, managed: bool, now: Time, next: nat)
    requires Suspected(p, e, notices) && e.epoch < next
    ensures Suspected(p, EndpointStep(p, e, H3Usable(token, managed), now, next),
                      if e.epoch == token && managed then notices + [Forgiven] else notices)
    ensures EndpointStep(p, e, H3Usable(token, managed), now, next).epoch != e.epoch <==> e.epoch == token
  {
    hide Strikes, LastStrike, Active;
    Noticed(p.strikeWindow, notices, Forgiven);
  }

  ghost predicate Faithful(p: Policy, e: Endpoint, st: Story)
  {
    Told(p, e, st) && Suspected(p, e, st.notices)
  }

  lemma NoticesContinued(p: Policy, st: Story, action: Action, allowed: bool, now: Time, moved: bool, raised: bool)
    ensures Continued(p, st, action, allowed, now, moved, raised).notices ==
      if action.Degraded? then st.notices + [Worse(now)]
      else if action.Recovered? then st.notices + [Better]
      else if moved && action.H3Usable? && action.managedProbe then st.notices + [Forgiven]
      else st.notices
  {
  }

  /** One event at one endpoint: its fields stay what the history says. */
  lemma StepIsTold(p: Policy, e: Endpoint, st: Story, action: Action, now: Time, next: nat)
    requires Shape(e) && e.epoch < next && Faithful(p, e, st)
    ensures Faithful(p, EndpointStep(p, e, action, now, next), After1(p, e, st, action, now, next))
  {
    hide Told, Suspected, Begin, Join, MarkPending, Abandon, Observe, NoteDegradation, Continued, Shape;
    var e' := EndpointStep(p, e, action, now, next);
    NoticesContinued(p, st, action, action.Dial? && Begin(e, now, next).1.allowed, now, e'.epoch != e.epoch, e'.failures > e.failures);
    match action
    case Dial =>
      DialTold(p, e, st, now, next);
      DialSuspected(p, e, st.notices, action, now, next);
    case Bypass =>
      JoinTold(p, e, st, now, next);
      DialSuspected(p, e, st.notices, action, now, next);
    case H3Failed(token) =>
      FailureTold(p, e, st, token, now, next);
      DialSuspected(p, e, st.notices, action, now, next);
    case H3Abandoned(token) =>
      AbandonTold(p, e, st, token, now, next);
      DialSuspected(p, e, st.notices, action, now, next);
    case H3Usable(token, managed) =>
      UsableTold(p, e, st, token, managed, now, next);
      UsableSuspected(p, e, st.notices, token, managed, now, next);
    case H2Done(token, alive, reachable) =>
      FallbackTold(p, e, st, token, alive, reachable, now, next);
      DialSuspected(p, e, st.notices, action, now, next);
    case _ =>
      DegradationTold(p, e, st, now, next);
      NoticesSuspected(p, e, st.notices, now, next);
  }

  // -------------------------------------------------------------- over runs

  function StoryOf(stories: map<Key, Story>, k: Key): Story
  {
    if k in stories then stories[k] else UNTOLD
  }

  /** A key's first event creates its endpoint, if it does, in its own epoch. */
  function StoryNext(p: Policy, w: World, st: Story, ev: Event): Story
  {
    if ev.key in w.m.endpoints then After1(p, w.m.endpoints[ev.key], st, ev.action, ev.now, w.m.epoch + 1)
    else if ev.action.Degraded? then UNTOLD.(notices := [Worse(ev.now)])
    else UNTOLD
  }

  function Stories(p: Policy, run: seq<Event>): map<Key, Story>
  {
    if run == [] then map[]
    else
      var front, ev := run[..|run| - 1], run[|run| - 1];
      var told := Stories(p, front);
      told[ev.key := StoryNext(p, After(p, START, front), StoryOf(told, ev.key), ev)]
  }

  ghost predicate AllFaithful(p: Policy, w: World, stories: map<Key, Story>)
  {
    forall k :: k in w.m.endpoints ==> Faithful(p, w.m.endpoints[k], StoryOf(stories, k))
  }

  lemma NewcomerFaithful(p: Policy, w: World, ev: Event)
    requires ev.key !in w.m.endpoints
    ensures ev.key in Next(p, w, ev).m.endpoints ==>
      Faithful(p, Next(p, w, ev).m.endpoints[ev.key], if ev.action.Degraded? then UNTOLD.(notices := [Worse(ev.now)]) else UNTOLD)
  {
    Noticed(p.strikeWindow, [], Worse(ev.now));
    assert [] + [Worse(ev.now)] == [Worse(ev.now)];
    hide Strikes, LastStrike;
    NoNotices(p);
  }

  lemma NoNotices(p: Policy)
    ensures Strikes(p.strikeWindow, []) == 0 && LastStrike([]) == 0 && !Active([])
  {
  }

  lemma StepKeepsFaith(p: Policy, w: World, stories: map<Key, Story>, ev: Event)
    requires Inv(w) && AllFaithful(p, w, stories)
    ensures AllFaithful(p, Next(p, w, ev), stories[ev.key := StoryNext(p, w, StoryOf(stories, ev.key), ev)])
  {
    hide Faithful, ManagerStep, EndpointStep, After1, Begin, Join;
    var w' := Next(p, w, ev);
    if ev.key in w.m.endpoints {
      KnownEndpointStep(p, w.m, ev);
      assert Accounted(w.m.epoch, w.m.endpoints[ev.key], BookOf(w, ev.key));
      StepIsTold(p, w.m.endpoints[ev.key], StoryOf(stories, ev.key), ev.action, ev.now, w.m.epoch + 1);
    } else {
      NewcomerFaithful(p, w, ev);
    }
    hide Accounted;
    forall k | k in w'.m.endpoints && k != ev.key
      ensures k in w.m.endpoints && w'.m.endpoints[k] == w.m.endpoints[k]
    {
      OthersUndisturbed(p, w, ev, k);
    }
  }

  lemma {:induction false} RunKeepsFaith(p: Policy, run: seq<Event>)
    requires Legal(p, START, run)
    ensures Inv(After(p, START, run)) && AllFaithful(p, After(p, START, run), Stories(p, run))
  {
    hide Inv, Next, AllFaithful, Enabled, StoryNext;
    StartIsInv();
    RunKeepsInv(p, START, run);
    if run == [] {
      EmptyIsFaithful(p);
    } else {
      var front, ev := run[..|run| - 1], run[|run| - 1];
      assert front + [ev] == run;
      RunSplits(p, START, front, ev);
      RunKeepsFaith(p, front);
      StepKeepsFaith(p, After(p, START, front), Stories(p, front), ev);
    }
  }

  lemma EmptyIsFaithful(p: Policy)
    ensures AllFaithful(p, START, map[])
  {
  }

  // --------------------------------------------------------------- theorems

  /** Doubled once per failure after the first, never above the cap. */
  function Doubled(base: nat, cap: nat, n: nat): nat
  {
    if n <= 1 then (if base > cap then cap else base)
    else
      var twice := 2 * Doubled(base, cap, n - 1);
      if twice > cap then cap else twice
  }

  lemma {:induction false} DoubledIsBackoff(base: nat, cap: nat, n: nat)
    requires base > 0
    ensures Doubled(base, cap, n) == Backoff(base, cap, n)
  {
    if n > 1 {
      DoubledIsBackoff(base, cap, n - 1);
      assert Pow2(n - 1) == 2 * Pow2(n - 2);
      assert base * Pow2(n - 1) == 2 * (base * Pow2(n - 2));
    }
  }

  /** How long a cooldown lasts, in nanoseconds: 5 s to 60 s, or 60 s to 300 s after a degradation, unless configured. */
  function Delay(s: Settings, cause: Cause, failures: nat): nat
  {
    if cause == Degradation then
      Doubled(if s.degradedCooldownBase > 0 then s.degradedCooldownBase else 60_000_000_000,
              if s.degradedCooldownMax > 0 then s.degradedCooldownMax else 300_000_000_000, failures)
    else
      Doubled(if s.cooldownBase > 0 then s.cooldownBase else 5_000_000_000,
              if s.cooldownMax > 0 then s.cooldownMax else 60_000_000_000, failures)
  }

  lemma DelayIsPolicy(s: Settings, cause: Cause, failures: nat)
    ensures PolicyOf(s).cooldown(cause, failures) == Delay(s, cause, failures)
  {
    hide Doubled, Backoff;
    DoubledIsBackoff(if s.degradedCooldownBase > 0 then s.degradedCooldownBase else 60_000_000_000,
                     if s.degradedCooldownMax > 0 then s.degradedCooldownMax else 300_000_000_000, failures);
    DoubledIsBackoff(if s.cooldownBase > 0 then s.cooldownBase else 5_000_000_000,
                     if s.cooldownMax > 0 then s.cooldownMax else 60_000_000_000, failures);
  }

  /** The unconfigured delays, in seconds: 5, 10, 20, 40, 60, ... and 60, 120, 240, 300, ... */
  lemma DefaultDelays(s: Settings, failures: nat)
    requires s.cooldownBase <= 0 && s.cooldownMax <= 0 && s.degradedCooldownBase <= 0 && s.degradedCooldownMax <= 0
    requires failures >= 1
    ensures Delay(s, Transport, failures) / 1_000_000_000 ==
      if failures == 1 then 5 else if failures == 2 then 10 else if failures == 3 then 20 else if failures == 4 then 40 else 60
    ensures Delay(s, Degradation, failures) / 1_000_000_000 ==
      if failures == 1 then 60 else if failures == 2 then 120 else if failures == 3 then 240 else 300
  {
    FirstDelays(5_000_000_000, 60_000_000_000);
    FirstDelays(60_000_000_000, 300_000_000_000);
    if failures > 5 {
      Capped(5_000_000_000, 60_000_000_000, failures);
      Capped(60_000_000_000, 300_000_000_000, failures);
    }
  }

  lemma FirstDelays(base: nat, cap: nat)
    ensures Doubled(base, cap, 1) == if base > cap then cap else base
    ensures Doubled(base, cap, 2) == if 2 * base > cap then cap else 2 * base
    ensures Doubled(base, cap, 3) == if 4 * base > cap then cap else 4 * base
    ensures Doubled(base, cap, 4) == if 8 * base > cap then cap else 8 * base
    ensures Doubled(base, cap, 5) == if 16 * base > cap then cap else 16 * base
  {
  }

  lemma Capped(base: nat, cap: nat, n: nat)
    requires n > 5 && base * 16 >= cap
    ensures Doubled(base, cap, n) == cap
  {
    FirstDelays(base, cap);
    if n > 6 {
      Capped(base, cap, n - 1);
    }
  }

  /** How long strikes are remembered and when a fruitless window may be retried: 300 s and 5 s, unless configured. */
  lemma PolicyNumbers(s: Settings)
    ensures PolicyOf(s).strikeWindow == if s.degradationWindow > 0 then s.degradationWindow else 300_000_000_000
    ensures PolicyOf(s).expiryDelay == if s.cooldownBase > 0 then s.cooldownBase else 5_000_000_000
  {
  }

  /** The end of the current cooldown, by the history: when the failure count last rose, plus the delay. */
  function Due(s: Settings, st: Story): Time
  {
    if st.rise.None? then 0 else st.rise.value.at + Delay(s, st.rise.value.cause, st.count)
  }

  lemma RetryAtIsDue(s: Settings, e: Endpoint, st: Story)
    requires Told(PolicyOf(s), e, st)
    ensures e.retryAt == Due(s, st) && e.failures == st.count
  {
    hide Doubled, Backoff, PolicyOf;
    if st.rise.Some? {
      DelayIsPolicy(s, st.rise.value.cause, st.count);
    }
  }

  /** Whether a fruitless window of degradation is due again, by the history. */
  predicate RetryDue(s: Settings, st: Story, now: Time)
  {
    && st.count == 0 && Active(st.notices) && st.retry != 0 && st.retry <= now
    && Strikes(PolicyOf(s).strikeWindow, st.notices) >= 2
  }

  /**
   * What a dial gets in every reachable state, by the history alone: H2 while a
   * window is pending or a probe is out, a new window when one is due again, H3
   * without failures, nothing during a cooldown, and a half-open probe after it.
   */
  lemma DialExactly(s: Settings, run: seq<Event>, k: Key, now: Time)
    requires Legal(PolicyOf(s), START, run) && k in After(PolicyOf(s), START, run).m.endpoints
    ensures
      var m := After(PolicyOf(s), START, run).m;
      var e, st := m.endpoints[k], StoryOf(Stories(PolicyOf(s), run), k);
      BeginAttempt(m, k, now).1 ==
        if e.pending then Admission(e.epoch, false, false)
        else if RetryDue(s, st, now) then Admission(m.epoch + 1, false, false)
        else if st.count == 0 then Admission(e.epoch, false, true)
        else if e.probing then Admission(e.epoch, false, false)
        else if now < Due(s, st) then Admission(0, false, false)
        else Admission(m.epoch + 1, true, true)
    ensures
      var m := After(PolicyOf(s), START, run).m;
      JoinPending(m, k).1 == if m.endpoints[k].pending || m.endpoints[k].probing then m.endpoints[k].epoch else 0
  {
    var p := PolicyOf(s);
    RunKeepsFaith(p, run);
    var m := After(p, START, run).m;
    var e, st := m.endpoints[k], StoryOf(Stories(p, run), k);
    assert Faithful(p, e, st);
    RetryAtIsDue(s, e, st);
    hide Doubled, Backoff, PolicyOf, Stories, After, Strikes, LastStrike, Inv, AllFaithful;
  }

  /**
   * A cooldown keeps H3 away: in every run, a dial on a failed endpoint with no
   * window pending and no probe out gets H3 if and only if the delay has passed
   * since the failure count last rose; before that the manager is unchanged.
   */
  lemma CooldownKeepsH3Away(s: Settings, run: seq<Event>, k: Key, now: Time)
    requires Legal(PolicyOf(s), START, run) && k in After(PolicyOf(s), START, run).m.endpoints
    requires
      var e := After(PolicyOf(s), START, run).m.endpoints[k];
      e.failures > 0 && !e.pending && !e.probing
    ensures
      var m := After(PolicyOf(s), START, run).m;
      var st := StoryOf(Stories(PolicyOf(s), run), k);
      var (m', a) := BeginAttempt(m, k, now);
      && st.rise.Some? && st.count == m.endpoints[k].failures
      && (a.allowed <==> st.rise.value.at + Delay(s, st.rise.value.cause, st.count) <= now)
      && (!a.allowed ==> a.token == 0 && m' == m)
  {
    var p := PolicyOf(s);
    RunKeepsFaith(p, run);
    var w := After(p, START, run);
    var e, st := w.m.endpoints[k], StoryOf(Stories(p, run), k);
    assert Faithful(p, e, st);
    assert Accounted(w.m.epoch, e, BookOf(w, k));
    RetryAtIsDue(s, e, st);
    hide Doubled, Backoff, PolicyOf, Stories, After, Strikes, LastStrike, Inv, AllFaithful;
    assert w.m.endpoints[k := e] == w.m.endpoints;
  }

  /**
   * A degradation report starts a window, in every run, exactly when it is a
   * fresh strike, at least the second within the memory of strikes, and nothing
   * else is under way: no window, no probe, no unfinished cooldown.
   */
  lemma DegradationWindowExactly(s: Settings, run: seq<Event>, k: Key, now: Time)
    requires Legal(PolicyOf(s), START, run) && k in After(PolicyOf(s), START, run).m.endpoints
    ensures
      var m := After(PolicyOf(s), START, run).m;
      var e, st := m.endpoints[k], StoryOf(Stories(PolicyOf(s), run), k);
      var e' := NoteDegraded(PolicyOf(s), m, k, now).endpoints[k];
      && (e'.epoch != e.epoch <==>
            && !Active(st.notices) && Strikes(PolicyOf(s).strikeWindow, st.notices + [Worse(now)]) >= 2
            && !e.pending && !e.probing && (st.count == 0 || Due(s, st) <= now))
      && (e'.epoch != e.epoch ==> e'.pending && e'.h3InFlight == 0)
  {
    var p := PolicyOf(s);
    RunKeepsFaith(p, run);
    var w := After(p, START, run);
    var e, st := w.m.endpoints[k], StoryOf(Stories(p, run), k);
    assert Faithful(p, e, st);
    assert Accounted(w.m.epoch, e, BookOf(w, k));
    RetryAtIsDue(s, e, st);
    Noticed(p.strikeWindow, st.notices, Worse(now));
    hide Doubled, Backoff, PolicyOf, Stories, After, Strikes, LastStrike, Inv, AllFaithful;
  }
}
