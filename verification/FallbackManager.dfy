/**
 * The manager that holds one fallback window per endpoint under a single epoch
 * counter, and what holds of it over every run: the counters of a window are
 * exactly the unsettled participants of its current epoch.
 */
module FallbackManager {
  import opened Clock
  import opened Endpoints
  import opened FallbackWindow

  datatype Manager = Manager(endpoints: map<Key, Endpoint>, epoch: nat)

  function Put(m: Manager, key: Key, e: Endpoint): Manager
  {
    Manager(m.endpoints[key := e], if e.epoch > m.epoch then e.epoch else m.epoch)
  }

  function BeginAttempt(m: Manager, key: Key, now: Time): (Manager, Admission)
  {
    if key !in m.endpoints then
      (Put(m, key, NewEndpoint(m.epoch + 1).(h3InFlight := 1)), Admission(m.epoch + 1, false, true))
    else
      var (e, admission) := Begin(m.endpoints[key], now, m.epoch + 1);
      (Put(m, key, e), admission)
  }

  function JoinPending(m: Manager, key: Key): (Manager, nat)
  {
    if key !in m.endpoints then (m, 0)
    else
      var (e, token) := Join(m.endpoints[key]);
      (Put(m, key, e), token)
  }

  function MarkFailurePending(p: Policy, m: Manager, key: Key, token: nat, now: Time): Manager
  {
    if key !in m.endpoints then m else Put(m, key, MarkPending(p, m.endpoints[key], token, now, m.epoch + 1))
  }

  function AbandonAttempt(p: Policy, m: Manager, key: Key, token: nat, now: Time): Manager
  {
    if key !in m.endpoints then m else Put(m, key, Abandon(p, m.endpoints[key], token, now, m.epoch + 1))
  }

  function ObserveAttempt(p: Policy, m: Manager, key: Key, token: nat, managedProbe: bool, usable: bool,
                          parentAlive: bool, reachable: bool, now: Time): Manager
  {
    if key !in m.endpoints then m
    else
      Put(m, key, Observe(p, m.endpoints[key], token, managedProbe, usable, parentAlive, reachable, now, m.epoch + 1))
  }

  function NoteDegraded(p: Policy, m: Manager, key: Key, now: Time): Manager
  {
    if key !in m.endpoints then
      Put(m, key, NoteDegradation(p, NewEndpoint(m.epoch + 1), now, m.epoch + 2))
    else
      Put(m, key, NoteDegradation(p, m.endpoints[key], now, m.epoch + 1))
  }

  function NoteRecovered(m: Manager, key: Key): Manager
  {
    if key !in m.endpoints then m else Put(m, key, NoteRecovery(m.endpoints[key]))
  }

  // ------------------------------------------------------------ the manager

  class ConnectProxyManager {
    const settings: Settings
    var endpoints: map<Key, Endpoint>
    var h3Epoch: nat

    ghost function View(): Manager
      reads this
    {
      Manager(endpoints, h3Epoch)
    }

    /** Every stored epoch was drawn from the counter. */
    ghost predicate Valid()
      reads this
    {
      forall k :: k in endpoints ==> endpoints[k].epoch <= h3Epoch
    }

    constructor (settings: Settings)
      ensures Valid() && this.settings == settings && View() == Manager(map[], 0)
    {
      this.settings := settings;
      endpoints := map[];
      h3Epoch := 0;
    }

    method NextEpoch() returns (epoch: nat)
      modifies this`h3Epoch
      ensures epoch == h3Epoch == old(h3Epoch) + 1
    {
      h3Epoch := h3Epoch + 1;
      epoch := h3Epoch;
    }

    method BeginHTTP3Attempt(key: Key, now: Time) returns (admission: Admission)
      requires Valid()
      modifies this
      ensures Valid()
      ensures (View(), admission) == BeginAttempt(old(View()), key, now)
    {
      if key !in endpoints {
        var token := NextEpoch();
        endpoints := endpoints[key := NewEndpoint(token).(h3InFlight := 1)];
        return Admission(token, false, true);
      }
      var state := endpoints[key];
      if state.pending {
        state := state.(fallbackPending := state.fallbackPending + 1);
        admission := Admission(state.epoch, false, false);
      } else if DegradationRetryDue(state, now) {
        var token := NextEpoch();
        state := StartDegradation(state, token);
        state := state.(fallbackPending := state.fallbackPending + 1);
        admission := Admission(token, false, false);
      } else if state.failures == 0 {
        state := state.(h3InFlight := state.h3InFlight + 1);
        admission := Admission(state.epoch, false, true);
      } else if state.probing {
        state := state.(fallbackPending := state.fallbackPending + 1);
        admission := Admission(state.epoch, false, false);
      } else if now < state.retryAt {
        admission := Admission(0, false, false);
      } else {
        state := state.(probing := true);
        var token := NextEpoch();
        state := state.(epoch := token, h3InFlight := 1, fallbackPending := 0);
        state := state.(fallbackReady := false, pendingCause := NoCause);
        admission := Admission(token, true, true);
      }
      endpoints := endpoints[key := state];
    }

    method JoinHTTP3PendingFallback(key: Key) returns (token: nat)
      requires Valid()
      modifies this
      ensures Valid()
      ensures (View(), token) == JoinPending(old(View()), key)
    {
      token := 0;
      if key in endpoints {
        var state := endpoints[key];
        if state.pending || state.probing {
          state := state.(fallbackPending := state.fallbackPending + 1);
          token := state.epoch;
        }
        endpoints := endpoints[key := state];
      }
    }

    method CooldownForCause(cause: Cause, failures: nat) returns (delay: nat)
      ensures delay == PolicyOf(settings).cooldown(cause, failures)
    {
      if cause != Degradation {
        delay := DoublingDelay(Positive(settings.cooldownBase, COOLDOWN_BASE),
                               Positive(settings.cooldownMax, COOLDOWN_MAX), failures);
      } else {
        delay := DoublingDelay(Positive(settings.degradedCooldownBase, DEGRADED_COOLDOWN_BASE),
                               Positive(settings.degradedCooldownMax, DEGRADED_COOLDOWN_MAX), failures);
      }
    }

    method ResolveFailureWindow(entry: Endpoint, now: Time) returns (state: Endpoint)
      requires entry.epoch <= h3Epoch
      modifies this`h3Epoch
      ensures state == Resolve(PolicyOf(settings), entry, now, old(h3Epoch) + 1)
      ensures h3Epoch == if state.epoch > old(h3Epoch) then state.epoch else old(h3Epoch)
    {
      state := entry;
      if state.h3InFlight > 0 {
        return;
      }
      if state.fallbackReady {
        state := CommitCooldown(state, now);
        return;
      }
      if state.fallbackPending > 0 {
        return;
      }
      state := state.(pending := false, probing := false, h3InFlight := 0, fallbackPending := 0, fallbackReady := false);
      if state.pendingCause == Degradation {
        var delay := Positive(settings.cooldownBase, COOLDOWN_BASE);
        state := state.(degradationRetryAt := now + delay);
      }
      state := state.(pendingCause := NoCause);
      var epoch := NextEpoch();
      state := state.(epoch := epoch);
    }

    method CommitCooldown(entry: Endpoint, now: Time) returns (state: Endpoint)
      modifies this`h3Epoch
      ensures state == Commit(PolicyOf(settings), entry, now, old(h3Epoch) + 1)
      ensures h3Epoch == old(h3Epoch) + 1
    {
      var cause := entry.pendingCause;
      if cause == NoCause {
        cause := entry.cooldownCause;
      }
      if cause == NoCause {
        cause := Transport;
      }
      state := entry.(pending := false, probing := false, h3InFlight := 0, fallbackPending := 0, fallbackReady := false);
      state := state.(pendingCause := NoCause, cooldownCause := cause, degradationRetryAt := 0);
      state := state.(failures := state.failures + 1);
      var delay := CooldownForCause(cause, state.failures);
      state := state.(retryAt := now + delay);
      var epoch := NextEpoch();
      state := state.(epoch := epoch);
    }

    method MarkHTTP3FailurePending(key: Key, token: nat, now: Time)
      requires Valid()
      modifies this
      ensures Valid()
      ensures View() == MarkFailurePending(PolicyOf(settings), old(View()), key, token, now)
    {
      hide Resolve;
      if key !in endpoints {
        return;
      }
      var state := endpoints[key];
      if state.epoch == token && state.h3InFlight > 0 {
        state := state.(h3InFlight := state.h3InFlight - 1);
        state := state.(fallbackPending := state.fallbackPending + 1, pending := true);
        if state.probing && state.cooldownCause != NoCause {
          state := state.(pendingCause := state.cooldownCause);
        } else if state.pendingCause == NoCause {
          state := state.(pendingCause := Transport);
        }
        state := state.(probing := false);
        state := ResolveFailureWindow(state, now);
      }
      endpoints := endpoints[key := state];
    }

    method AbandonHTTP3Attempt(key: Key, token: nat, now: Time)
      requires Valid()
      modifies this
      ensures Valid()
      ensures View() == AbandonAttempt(PolicyOf(settings), old(View()), key, token, now)
    {
      hide Resolve;
      if key !in endpoints {
        return;
      }
      var state := endpoints[key];
      if state.epoch == token && state.h3InFlight > 0 {
        state := state.(h3InFlight := state.h3InFlight - 1);
        if state.probing {
          state := state.(probing := false, pending := false, h3InFlight := 0, fallbackPending := 0);
          state := state.(fallbackReady := false, pendingCause := NoCause);
          var epoch := NextEpoch();
          state := state.(epoch := epoch);
        } else {
          state := ResolveFailureWindow(state, now);
        }
      }
      endpoints := endpoints[key := state];
    }

    method ObserveHTTP3Attempt(key: Key, token: nat, managedProbe: bool, usable: bool, parentAlive: bool, reachable: bool, now: Time)
      requires Valid()
      modifies this
      ensures Valid()
      ensures View() == ObserveAttempt(PolicyOf(settings), old(View()), key, token, managedProbe, usable, parentAlive, reachable, now)
    {
      hide Resolve;
      if key !in endpoints {
        return;
      }
      var state := endpoints[key];
      if state.epoch == token {
        if usable {
          var epoch := NextEpoch();
          state := Reset(state, epoch, managedProbe);
        } else if state.fallbackPending > 0 {
          state := state.(fallbackPending := state.fallbackPending - 1);
          if parentAlive && reachable {
            state := state.(fallbackReady := true);
          }
          state := ResolveFailureWindow(state, now);
        }
      }
      endpoints := endpoints[key := state];
    }

    method NoteHTTP3Degradation(key: Key, now: Time)
      requires Valid()
      modifies this
      ensures Valid()
      ensures View() == NoteDegraded(PolicyOf(settings), old(View()), key, now)
    {
      if key !in endpoints {
        var epoch := NextEpoch();
        endpoints := endpoints[key := NewEndpoint(epoch)];
      }
      var state := endpoints[key];
      var window := Positive(settings.degradationWindow, STRIKE_WINDOW);
      if state.lastDegradation != 0 && now - state.lastDegradation > window {
        state := state.(strikes := 0);
      }
      if !state.degradationActive {
        state := state.(degradationActive := true, lastDegradation := now);
        if state.strikes < 8 {
          state := state.(strikes := state.strikes + 1);
        }
        if !(state.strikes < 2 || state.pending || state.probing || (state.failures > 0 && now < state.retryAt)) {
          var epoch := NextEpoch();
          state := StartDegradation(state, epoch);
        }
      }
      endpoints := endpoints[key := state];
    }
  }

  // ----------------------------------------------- every run of the protocol

  datatype Kind = H3 | H2

  /** What an admitted dial holds until it settles. */
  datatype Ticket = Ticket(token: nat, kind: Kind)

  /** One endpoint's unsettled dials, and the epochs under which H2 was seen reachable with a live parent. */
  datatype Book = Book(held: multiset<Ticket>, proofs: set<nat>)

  datatype World = World(m: Manager, books: map<Key, Book>)

  datatype Action =
    | Dial
    | Bypass
    | H3Failed(token: nat)
    | H3Abandoned(token: nat)
    | H3Usable(token: nat, managedProbe: bool)
    | H2Done(token: nat, parentAlive: bool, reachable: bool)
    | Degraded
    | Recovered

  datatype Event = Event(key: Key, action: Action, now: Time)

  function BookOf(w: World, k: Key): Book
  {
    if k in w.books then w.books[k] else Book(multiset{}, {})
  }

  /** A dial settles only what it still holds; the environment is otherwise free. */
  predicate Enabled(w: World, ev: Event)
  {
    var held := BookOf(w, ev.key).held;
    match ev.action
    case H3Failed(token) => Ticket(token, H3) in held
    case H3Abandoned(token) => Ticket(token, H3) in held
    case H3Usable(token, _) => Ticket(token, H3) in held
    case H2Done(token, _, _) => Ticket(token, H2) in held
    case _ => true
  }

  function ManagerStep(p: Policy, m: Manager, ev: Event): Manager
  {
    match ev.action
    case Dial => BeginAttempt(m, ev.key, ev.now).0
    case Bypass => JoinPending(m, ev.key).0
    case H3Failed(token) => MarkFailurePending(p, m, ev.key, token, ev.now)
    case H3Abandoned(token) => AbandonAttempt(p, m, ev.key, token, ev.now)
    case H3Usable(token, managed) => ObserveAttempt(p, m, ev.key, token, managed, true, true, false, ev.now)
    case H2Done(token, alive, reachable) => ObserveAttempt(p, m, ev.key, token, false, false, alive, reachable, ev.now)
    case Degraded => NoteDegraded(p, m, ev.key, ev.now)
    case Recovered => NoteRecovered(m, ev.key)
  }

  /** The same step seen from the one endpoint it concerns. */
  function EndpointStep(p: Policy, e: Endpoint, action: Action, now: Time, next: nat): Endpoint
  {
    match action
    case Dial => Begin(e, now, next).0
    case Bypass => Join(e).0
    case H3Failed(token) => MarkPending(p, e, token, now, next)
    case H3Abandoned(token) => Abandon(p, e, token, now, next)
    case H3Usable(token, managed) => Observe(p, e, token, managed, true, true, false, now, next)
    case H2Done(token, alive, reachable) => Observe(p, e, token, false, false, alive, reachable, now, next)
    case Degraded => NoteDegradation(p, e, now, next)
    case Recovered => NoteRecovery(e)
  }

  lemma KnownEndpointStep(p: Policy, m: Manager, ev: Event)
    requires ev.key in m.endpoints
    ensures ManagerStep(p, m, ev) == Put(m, ev.key, EndpointStep(p, m.endpoints[ev.key], ev.action, ev.now, m.epoch + 1))
  {
    hide Begin, Join, MarkPending, Abandon, Observe, NoteDegradation;
  }

  function Admit(b: Book, a: Admission): Book
  {
    if a.token == 0 then b else b.(held := b.held + multiset{Ticket(a.token, if a.allowed then H3 else H2)})
  }

  /** The admission an action hands out; the zero token stands for none. */
  function Admitted(m: Manager, ev: Event): Admission
  {
    match ev.action
    case Dial => BeginAttempt(m, ev.key, ev.now).1
    case Bypass => Admission(JoinPending(m, ev.key).1, false, false)
    case _ => Admission(0, false, false)
  }

  function BookStep(b: Book, a: Admission, action: Action): Book
  {
    match action
    case Dial => Admit(b, a)
    case Bypass => Admit(b, a)
    case H3Failed(token) => b.(held := b.held - multiset{Ticket(token, H3)} + multiset{Ticket(token, H2)})
    case H3Abandoned(token) => b.(held := b.held - multiset{Ticket(token, H3)})
    case H3Usable(token, _) => b.(held := b.held - multiset{Ticket(token, H3)})
    case H2Done(token, alive, reachable) =>
      Book(b.held - multiset{Ticket(token, H2)}, if alive && reachable then b.proofs + {token} else b.proofs)
    case _ => b
  }

  function Next(p: Policy, w: World, ev: Event): World
  {
    World(ManagerStep(p, w.m, ev), w.books[ev.key := BookStep(BookOf(w, ev.key), Admitted(w.m, ev), ev.action)])
  }

  ghost predicate Legal(p: Policy, w: World, run: seq<Event>)
    decreases |run|
  {
    run == [] || (Enabled(w, run[0]) && Legal(p, Next(p, w, run[0]), run[1..]))
  }

  function After(p: Policy, w: World, run: seq<Event>): World
    decreases |run|
  {
    if run == [] then w else After(p, Next(p, w, run[0]), run[1..])
  }

  const START := World(Manager(map[], 0), map[])

  /** One endpoint's window agrees with its book, and is ready to cool down only with evidence. */
  ghost predicate Accounted(epoch: nat, e: Endpoint, b: Book)
  {
    && Shape(e)
    && 0 < e.epoch <= epoch
    && e.h3InFlight == b.held[Ticket(e.epoch, H3)]
    && e.fallbackPending == b.held[Ticket(e.epoch, H2)]
    && (e.fallbackReady <==> e.epoch in b.proofs)
    && (forall t :: t in b.proofs ==> t <= epoch)
    && forall t :: t in b.held ==> 0 < t.token <= epoch
  }

  ghost predicate Inv(w: World)
  {
    forall k :: if k in w.m.endpoints then Accounted(w.m.epoch, w.m.endpoints[k], BookOf(w, k))
                else BookOf(w, k) == Book(multiset{}, {})
  }

  /** A settlement that moves the book as it moves the counters keeps them in agreement. */
  lemma SettlementAccounted(epoch: nat, e: Endpoint, b: Book, token: nat, e': Endpoint, b': Book, h3: int, h2: int, proved: bool)
    requires Accounted(epoch, e, b) && 0 < token <= epoch
    requires SettlesAs(e, e', token, epoch + 1, h3, h2)
    requires forall t: Ticket :: b'.held[t] ==
               b.held[t] + (if t.token == token then (if t.kind == H3 then h3 else h2) else 0)
    requires b.proofs <= b'.proofs <= b.proofs + {token}
    requires StaysReady(e, e', proved) && (e.epoch in b'.proofs <==> e.epoch in b.proofs || proved)
    ensures Accounted(if e'.epoch > epoch then e'.epoch else epoch, e', b')
  {
  }

  lemma HeldCounts(epoch: nat, e: Endpoint, b: Book, token: nat, kind: Kind)
    requires Accounted(epoch, e, b) && Ticket(token, kind) in b.held
    ensures 0 < token <= epoch && Shape(e) && e.epoch <= epoch
    ensures e.epoch == token ==> (if kind == H3 then e.h3InFlight else e.fallbackPending) > 0
  {
  }

  lemma H3SettlementAccounted(p: Policy, epoch: nat, e: Endpoint, b: Book, token: nat, managed: bool, now: Time)
    requires Accounted(epoch, e, b) && Ticket(token, H3) in b.held
    ensures
      var rest := b.(held := b.held - multiset{Ticket(token, H3)});
      var marked := MarkPending(p, e, token, now, epoch + 1);
      var abandoned := Abandon(p, e, token, now, epoch + 1);
      var used := Observe(p, e, token, managed, true, true, false, now, epoch + 1);
      && Accounted(if marked.epoch > epoch then marked.epoch else epoch, marked,
                   rest.(held := rest.held + multiset{Ticket(token, H2)}))
      && Accounted(if abandoned.epoch > epoch then abandoned.epoch else epoch, abandoned, rest)
      && Accounted(if used.epoch > epoch then used.epoch else epoch, used, rest)
  {
    hide Accounted, SettlesAs, Shape, MarkPending, Abandon, Observe;
    HeldCounts(epoch, e, b, token, H3);
    MarkSettles(p, e, token, now, epoch + 1);
    AbandonSettles(p, e, token, now, epoch + 1);
    SuccessSettles(p, e, token, managed, now, epoch + 1);
    var rest := b.(held := b.held - multiset{Ticket(token, H3)});
    SettlementAccounted(epoch, e, b, token, MarkPending(p, e, token, now, epoch + 1),
                        rest.(held := rest.held + multiset{Ticket(token, H2)}), -1, 1, false);
    SettlementAccounted(epoch, e, b, token, Abandon(p, e, token, now, epoch + 1), rest, -1, 0, false);
    SettlementAccounted(epoch, e, b, token, Observe(p, e, token, managed, true, true, false, now, epoch + 1), rest, -1, 0, false);
  }

  lemma H2SettlementAccounted(p: Policy, epoch: nat, e: Endpoint, b: Book, token: nat, alive: bool, reachable: bool, now: Time)
    requires Accounted(epoch, e, b) && Ticket(token, H2) in b.held
    ensures
      var e' := Observe(p, e, token, false, false, alive, reachable, now, epoch + 1);
      Accounted(if e'.epoch > epoch then e'.epoch else epoch, e',
                Book(b.held - multiset{Ticket(token, H2)}, if alive && reachable then b.proofs + {token} else b.proofs))
  {
    hide Accounted, SettlesAs, Shape, Observe;
    HeldCounts(epoch, e, b, token, H2);
    FallbackSettles(p, e, token, alive, reachable, now, epoch + 1);
    SettlementAccounted(epoch, e, b, token, Observe(p, e, token, false, false, alive, reachable, now, epoch + 1),
                        Book(b.held - multiset{Ticket(token, H2)}, if alive && reachable then b.proofs + {token} else b.proofs), 0, -1,
                        e.epoch == token && alive && reachable);
  }

  lemma AdmissionKeepsAccount(epoch: nat, e: Endpoint, b: Book, now: Time)
    requires Accounted(epoch, e, b)
    ensures
      var (e', a) := Begin(e, now, epoch + 1);
      Accounted(if e'.epoch > epoch then e'.epoch else epoch, e', Admit(b, a))
  {
    hide Begin;
    BeginAdmits(e, now, epoch + 1);
  }

  lemma NoticeKeepsAccount(p: Policy, epoch: nat, e: Endpoint, b: Book, now: Time)
    requires Accounted(epoch, e, b)
    ensures e.epoch <= epoch && Accounted(epoch, NoteRecovery(e), b)
    ensures
      var degraded := NoteDegradation(p, e, now, epoch + 1);
      Accounted(if degraded.epoch > epoch then degraded.epoch else epoch, degraded, b)
  {
    hide NoteDegradation;
    DegradationMoves(p, e, now, epoch + 1);
    SettlementAccounted(epoch, e, b, e.epoch, NoteDegradation(p, e, now, epoch + 1), b, 0, 0, false);
  }

  lemma BypassKeepsAccount(epoch: nat, e: Endpoint, b: Book)
    requires Accounted(epoch, e, b)
    ensures Join(e).0.epoch == e.epoch <= epoch
    ensures Accounted(epoch, Join(e).0, Admit(b, Admission(Join(e).1, false, false)))
  {
  }

  lemma NewcomerAccounted(p: Policy, m: Manager, b: Book, ev: Event)
    requires ev.key !in m.endpoints && b == Book(multiset{}, {})
    requires ev.action.Dial? || ev.action.Bypass? || ev.action.Degraded? || ev.action.Recovered?
    ensures
      var m' := ManagerStep(p, m, ev);
      if ev.key in m'.endpoints then Accounted(m'.epoch, m'.endpoints[ev.key], BookStep(b, Admitted(m, ev), ev.action))
      else BookStep(b, Admitted(m, ev), ev.action) == b
  {
  }

  /** The endpoint an enabled event concerns stays in agreement with its book. */
  lemma EndpointKeepsAccount(p: Policy, epoch: nat, e: Endpoint, b: Book, a: Admission, action: Action, now: Time)
    requires Accounted(epoch, e, b)
    requires action.Dial? ==> a == Begin(e, now, epoch + 1).1
    requires action.Bypass? ==> a == Admission(Join(e).1, false, false)
    requires action.H3Failed? || action.H3Abandoned? || action.H3Usable? ==> Ticket(action.token, H3) in b.held
    requires action.H2Done? ==> Ticket(action.token, H2) in b.held
    ensures
      var e' := EndpointStep(p, e, action, now, epoch + 1);
      Accounted(if e'.epoch > epoch then e'.epoch else epoch, e', BookStep(b, a, action))
  {
    hide Accounted, Begin, Join, MarkPending, Abandon, Observe, NoteDegradation, Admit;
    match action
    case Dial => AdmissionKeepsAccount(epoch, e, b, now);
    case Bypass => BypassKeepsAccount(epoch, e, b);
    case H3Failed(token) => H3SettlementAccounted(p, epoch, e, b, token, false, now);
    case H3Abandoned(token) => H3SettlementAccounted(p, epoch, e, b, token, false, now);
    case H3Usable(token, managed) => H3SettlementAccounted(p, epoch, e, b, token, managed, now);
    case H2Done(token, alive, reachable) => H2SettlementAccounted(p, epoch, e, b, token, alive, reachable, now);
    case _ => NoticeKeepsAccount(p, epoch, e, b, now);
  }

  lemma StepKeepsInv(p: Policy, w: World, ev: Event)
    requires Inv(w) && Enabled(w, ev)
    ensures Inv(Next(p, w, ev))
  {
    hide Accounted, ManagerStep, EndpointStep, BookStep, Begin, Join;
    var k, b, a := ev.key, BookOf(w, ev.key), Admitted(w.m, ev);
    var w' := Next(p, w, ev);
    if k in w.m.endpoints {
      KnownEndpointStep(p, w.m, ev);
      EndpointKeepsAccount(p, w.m.epoch, w.m.endpoints[k], b, a, ev.action, ev.now);
    } else {
      NewcomerAccounted(p, w.m, b, ev);
    }
    forall k' | k' != k
      ensures if k' in w'.m.endpoints then Accounted(w'.m.epoch, w'.m.endpoints[k'], BookOf(w', k'))
              else BookOf(w', k') == Book(multiset{}, {})
    {
      OthersUndisturbed(p, w, ev, k');
    }
  }

  lemma OthersUndisturbed(p: Policy, w: World, ev: Event, k: Key)
    requires k != ev.key
    ensures
      var w' := Next(p, w, ev);
      && BookOf(w', k) == BookOf(w, k) && w.m.epoch <= w'.m.epoch
      && (k in w'.m.endpoints <==> k in w.m.endpoints)
      && (k in w.m.endpoints ==>
            && w'.m.endpoints[k] == w.m.endpoints[k]
            && (Accounted(w.m.epoch, w.m.endpoints[k], BookOf(w, k)) ==>
                  Accounted(w'.m.epoch, w'.m.endpoints[k], BookOf(w', k))))
  {
    hide Begin, Join, MarkPending, Abandon, Observe, NoteDegradation, Shape, BookStep;
  }

  lemma {:induction false} RunKeepsInv(p: Policy, w: World, run: seq<Event>)
    requires Inv(w) && Legal(p, w, run)
    ensures Inv(After(p, w, run))
    decreases |run|
  {
    if run != [] {
      StepKeepsInv(p, w, run[0]);
      RunKeepsInv(p, Next(p, w, run[0]), run[1..]);
    }
  }

  /**
   * Over every run from the start, the counters of a window are the unsettled
   * participants of its current epoch; a half-open probe is alone in flight;
   * and a cooling endpoint has no H3 attempt of its current epoch in flight.
   */
  lemma LedgerOverEveryRun(p: Policy, run: seq<Event>, k: Key)
    requires Legal(p, START, run)
    requires k in After(p, START, run).m.endpoints
    ensures
      var w := After(p, START, run);
      var e, held := w.m.endpoints[k], BookOf(w, k).held;
      && e.h3InFlight == held[Ticket(e.epoch, H3)]
      && e.fallbackPending == held[Ticket(e.epoch, H2)]
      && (e.probing ==> e.h3InFlight == 1 && e.failures > 0 && !e.pending)
      && (e.failures > 0 && !e.probing ==> e.h3InFlight == 0)
  {
    RunKeepsInv(p, START, run);
  }

  /** A dial whose epoch has ended changes nothing in the manager, whatever it reports. */
  lemma StaleResultsChangeNothing(p: Policy, m: Manager, k: Key, token: nat, managed: bool, usable: bool, alive: bool, reachable: bool, now: Time)
    requires k in m.endpoints ==> m.endpoints[k].epoch != token && m.endpoints[k].epoch <= m.epoch
    ensures MarkFailurePending(p, m, k, token, now) == m
    ensures AbandonAttempt(p, m, k, token, now) == m
    ensures ObserveAttempt(p, m, k, token, managed, usable, alive, reachable, now) == m
  {
    if k in m.endpoints {
      assert m.endpoints[k := m.endpoints[k]] == m.endpoints;
    }
  }

  lemma {:induction false} RunSplits(p: Policy, w: World, run: seq<Event>, ev: Event)
    ensures Legal(p, w, run + [ev]) <==> Legal(p, w, run) && Enabled(After(p, w, run), ev)
    ensures After(p, w, run + [ev]) == Next(p, After(p, w, run), ev)
    decreases |run|
  {
    hide Next, Enabled;
    if run != [] {
      RunSplits(p, Next(p, w, run[0]), run[1..], ev);
      assert (run + [ev])[1..] == run[1..] + [ev];
    }
  }

  /**
   * H3 is never suppressed without evidence: in every run, the step that raises
   * an endpoint's failure count closes an epoch under which some fallback with a
   * live parent reached H2.
   */
  lemma CooldownNeedsEvidence(p: Policy, run: seq<Event>, ev: Event, k: Key)
    requires Legal(p, START, run + [ev])
    requires k in After(p, START, run).m.endpoints
    ensures
      var w, w' := After(p, START, run), After(p, START, run + [ev]);
      && k in w'.m.endpoints
      && (w'.m.endpoints[k].failures > w.m.endpoints[k].failures ==> w.m.endpoints[k].epoch in BookOf(w', k).proofs)
  {
    RunSplits(p, START, run, ev);
    RunKeepsInv(p, START, run);
    var w := After(p, START, run);
    if k != ev.key {
      OthersUndisturbed(p, w, ev, k);
    } else {
      RaisedWithEvidence(p, w, ev);
    }
  }

  /**
   * Over every run, exactly when a settlement that ends an endpoint's epoch
   * raises its failure count: some fallback of that epoch with a live parent
   * reached H2, this very one included, and the settlement is not the giving up
   * of a half-open probe.
   */
  lemma CooldownExactlyOverRuns(p: Policy, run: seq<Event>, ev: Event)
    requires Legal(p, START, run + [ev]) && ev.key in After(p, START, run).m.endpoints
    requires ev.action.H3Failed? || ev.action.H3Abandoned? || ev.action.H2Done?
    requires
      var w, w' := After(p, START, run), After(p, START, run + [ev]);
      ev.key in w'.m.endpoints && w'.m.endpoints[ev.key].epoch != w.m.endpoints[ev.key].epoch
    ensures
      var w, w' := After(p, START, run), After(p, START, run + [ev]);
      var e, e' := w.m.endpoints[ev.key], w'.m.endpoints[ev.key];
      e'.failures > e.failures <==> e.epoch in BookOf(w', ev.key).proofs && !(ev.action.H3Abandoned? && e.probing)
  {
    hide Inv, Next, Enabled;
    RunSplits(p, START, run, ev);
    StartIsInv();
    RunKeepsInv(p, START, run);
    EndingSettlementExactly(p, After(p, START, run), ev);
  }

  lemma StartIsInv()
    ensures Inv(START)
  {
  }

  lemma EndingSettlementExactly(p: Policy, w: World, ev: Event)
    requires Inv(w) && Enabled(w, ev) && ev.key in w.m.endpoints
    requires ev.action.H3Failed? || ev.action.H3Abandoned? || ev.action.H2Done?
    requires ev.key in Next(p, w, ev).m.endpoints && Next(p, w, ev).m.endpoints[ev.key].epoch != w.m.endpoints[ev.key].epoch
    ensures
      var e, e' := w.m.endpoints[ev.key], Next(p, w, ev).m.endpoints[ev.key];
      e'.failures > e.failures <==>
        e.epoch in BookOf(Next(p, w, ev), ev.key).proofs && !(ev.action.H3Abandoned? && e.probing)
  {
    hide ManagerStep, EndpointStep, BookStep, Admitted, Shape, Enabled, Begin;
    var e, b := w.m.endpoints[ev.key], BookOf(w, ev.key);
    assert Accounted(w.m.epoch, e, b);
    hide Accounted, Inv;
    Stepped(p, w, ev, w.m.epoch, e, b);
    hide Next;
    EndingAccountExactly(p, w.m.epoch, e, b, Admitted(w.m, ev), ev.action, ev.now);
  }

  lemma EndingAccountExactly(p: Policy, epoch: nat, e: Endpoint, b: Book, a: Admission, action: Action, now: Time)
    requires Accounted(epoch, e, b) && (action.H3Failed? || action.H3Abandoned? || action.H2Done?)
    requires EndpointStep(p, e, action, now, epoch + 1).epoch != e.epoch
    ensures EndpointStep(p, e, action, now, epoch + 1).failures > e.failures <==>
      e.epoch in BookStep(b, a, action).proofs && !(action.H3Abandoned? && e.probing)
  {
    hide Shape, EndpointStep;
    EndingStepExactly(p, e, action, now, epoch + 1);
  }

  lemma EndingStepExactly(p: Policy, e: Endpoint, action: Action, now: Time, next: nat)
    requires action.H3Failed? || action.H3Abandoned? || action.H2Done?
    requires EndpointStep(p, e, action, now, next).epoch != e.epoch
    ensures action.token == e.epoch
    ensures EndpointStep(p, e, action, now, next).failures > e.failures <==>
      && (e.fallbackReady || (action.H2Done? && action.parentAlive && action.reachable))
      && !(action.H3Abandoned? && e.probing)
  {
  }

  lemma RaisedWithEvidence(p: Policy, w: World, ev: Event)
    requires Inv(w) && Enabled(w, ev) && ev.key in w.m.endpoints
    ensures
      var k, w' := ev.key, Next(p, w, ev);
      && k in w'.m.endpoints
      && (w'.m.endpoints[k].failures > w.m.endpoints[k].failures ==> w.m.endpoints[k].epoch in BookOf(w', k).proofs)
  {
    hide ManagerStep, EndpointStep, Admitted, Shape;
    assert Accounted(w.m.epoch, w.m.endpoints[ev.key], BookOf(w, ev.key));
    KnownEndpointStep(p, w.m, ev);
    EvidenceForRise(p, w.m.endpoints[ev.key], ev.action, ev.now, w.m.epoch + 1);
  }

  lemma EvidenceForRise(p: Policy, e: Endpoint, action: Action, now: Time, next: nat)
    ensures EndpointStep(p, e, action, now, next).failures > e.failures ==>
              e.fallbackReady || (action.H2Done? && action.token == e.epoch && action.parentAlive && action.reachable)
  {
    hide Begin, Join, MarkPending, Abandon, Observe, NoteDegradation;
    match action
    case H3Failed(token) => OnlyReadinessCommits(p, e, token, false, false, false, false, now, next);
    case H3Abandoned(token) => OnlyReadinessCommits(p, e, token, false, false, false, false, now, next);
    case H3Usable(token, managed) => OnlyReadinessCommits(p, e, token, managed, true, true, false, now, next);
    case H2Done(token, alive, reachable) => OnlyReadinessCommits(p, e, token, false, false, alive, reachable, now, next);
    case _ => OnlyReadinessCommits(p, e, 0, false, false, false, false, now, next);
  }

  /** Once every dial of an endpoint has settled, nothing is left half-open and no window waits for a result. */
  lemma SettledDialsLeaveNoWindow(p: Policy, run: seq<Event>, k: Key)
    requires Legal(p, START, run)
    requires k in After(p, START, run).m.endpoints && BookOf(After(p, START, run), k).held == multiset{}
    ensures
      var e := After(p, START, run).m.endpoints[k];
      && !e.probing && e.h3InFlight == 0 && e.fallbackPending == 0 && !e.fallbackReady
      && (e.pending ==> e.pendingCause == Degradation)
  {
    RunKeepsInv(p, START, run);
  }

  // ------------------------------------ reachable, and still no cooldown

  /** A failed dial with a reachable fallback; after its cooldown a half-open probe and one more dial beside it. */
  function ProbeRun(p: Policy, k: Key): seq<Event>
  {
    var due := p.cooldown(Transport, 1);
    [Event(k, Dial, 0), Event(k, H3Failed(1), 0), Event(k, H2Done(1, true, true), 0),
     Event(k, Dial, due), Event(k, Dial, due)]
  }

  /** The probe and the dial beside it, in the order chosen: the one gives up, the other reaches H2. */
  function Settlements(p: Policy, k: Key, probeFirst: bool): seq<Event>
  {
    var due := p.cooldown(Transport, 1);
    var gaveUp, reached := Event(k, H3Abandoned(3), due), Event(k, H2Done(3, true, true), due);
    if probeFirst then [gaveUp, reached] else [reached, gaveUp]
  }

  ghost predicate At(w: World, k: Key, epoch: nat, e: Endpoint, b: Book)
  {
    k in w.m.endpoints && w.m.epoch == epoch && w.m.endpoints[k] == e && BookOf(w, k) == b
  }

  /** One step at a known endpoint, seen from that endpoint and its book. */
  lemma Stepped(p: Policy, w: World, ev: Event, epoch: nat, e: Endpoint, b: Book)
    requires At(w, ev.key, epoch, e, b)
    ensures
      var e' := EndpointStep(p, e, ev.action, ev.now, epoch + 1);
      At(Next(p, w, ev), ev.key, if e'.epoch > epoch then e'.epoch else epoch, e', BookStep(b, Admitted(w.m, ev), ev.action))
    ensures ev.action.Dial? ==> Admitted(w.m, ev) == Begin(e, ev.now, epoch + 1).1
  {
    hide EndpointStep, BookStep, Begin, Join;
    KnownEndpointStep(p, w.m, ev);
    hide ManagerStep;
  }

  const DIALED := NewEndpoint(1).(h3InFlight := 1)
  const FALLING := NewEndpoint(1).(pending := true, pendingCause := Transport, fallbackPending := 1)

  function Cooled(due: Time): Endpoint
  {
    NewEndpoint(2).(failures := 1, retryAt := due, cooldownCause := Transport)
  }

  function Probed(due: Time): Endpoint
  {
    Cooled(due).(epoch := 3, probing := true, h3InFlight := 1)
  }

  lemma FirstDial(p: Policy, k: Key)
    ensures At(Next(p, START, Event(k, Dial, 0)), k, 1, DIALED, Book(multiset{Ticket(1, H3)}, {}))
    ensures Enabled(START, Event(k, Dial, 0))
  {
  }

  lemma FallsBackAndCools(p: Policy, k: Key, w: World)
    requires At(w, k, 1, DIALED, Book(multiset{Ticket(1, H3)}, {}))
    ensures
      var first, second := Event(k, H3Failed(1), 0), Event(k, H2Done(1, true, true), 0);
      var mid := Next(p, w, first);
      && Enabled(w, first) && Enabled(mid, second)
      && At(Next(p, mid, second), k, 2, Cooled(p.cooldown(Transport, 1)), Book(multiset{}, {1}))
  {
    hide Next, Admitted;
    var first, second := Event(k, H3Failed(1), 0), Event(k, H2Done(1, true, true), 0);
    Stepped(p, w, first, 1, DIALED, Book(multiset{Ticket(1, H3)}, {}));
    SettlesWithoutAdmission(w.m, first);
    var mid := Next(p, w, first);
    assert At(mid, k, 1, FALLING, Book(multiset{Ticket(1, H2)}, {}));
    Stepped(p, mid, second, 1, FALLING, Book(multiset{Ticket(1, H2)}, {}));
    SettlesWithoutAdmission(mid.m, second);
  }

  lemma ProbesAndJoins(p: Policy, k: Key, due: Time, w: World)
    requires At(w, k, 2, Cooled(due), Book(multiset{}, {1}))
    ensures
      var dial := Event(k, Dial, due);
      var mid := Next(p, w, dial);
      && Enabled(w, dial) && Enabled(mid, dial)
      && At(Next(p, mid, dial), k, 3, Probed(due).(fallbackPending := 1), Book(multiset{Ticket(3, H3), Ticket(3, H2)}, {1}))
  {
    hide Next, Admitted;
    var dial := Event(k, Dial, due);
    Stepped(p, w, dial, 2, Cooled(due), Book(multiset{}, {1}));
    var mid := Next(p, w, dial);
    assert At(mid, k, 3, Probed(due), Book(multiset{Ticket(3, H3)}, {1}));
    Stepped(p, mid, dial, 3, Probed(due), Book(multiset{Ticket(3, H3)}, {1}));
    assert multiset{Ticket(3, H3)} + multiset{Ticket(3, H2)} == multiset{Ticket(3, H3), Ticket(3, H2)};
  }

  lemma ProbeRunReaches(p: Policy, k: Key)
    ensures Legal(p, START, ProbeRun(p, k))
    ensures At(After(p, START, ProbeRun(p, k)), k, 3, Probed(p.cooldown(Transport, 1)).(fallbackPending := 1),
               Book(multiset{Ticket(3, H3), Ticket(3, H2)}, {1}))
  {
    hide Next, Enabled, At, Probed, Cooled;
    var run, due := ProbeRun(p, k), p.cooldown(Transport, 1);
    FirstDial(p, k);
    var w1 := Next(p, START, run[0]);
    FallsBackAndCools(p, k, w1);
    var w2 := Next(p, w1, run[1]);
    var w3 := Next(p, w2, run[2]);
    ProbesAndJoins(p, k, due, w3);
    var w4 := Next(p, w3, run[3]);
    FiveSteps(p, run, w1, w2, w3, w4, Next(p, w4, run[4]));
  }

  lemma SettlesWithoutAdmission(m: Manager, ev: Event)
    requires !ev.action.Dial? && !ev.action.Bypass?
    ensures Admitted(m, ev) == Admission(0, false, false)
  {
  }

  lemma FiveSteps(p: Policy, run: seq<Event>, w1: World, w2: World, w3: World, w4: World, w5: World)
    requires |run| == 5
    requires w1 == Next(p, START, run[0]) && w2 == Next(p, w1, run[1]) && w3 == Next(p, w2, run[2])
    requires w4 == Next(p, w3, run[3]) && w5 == Next(p, w4, run[4])
    requires Enabled(START, run[0]) && Enabled(w1, run[1]) && Enabled(w2, run[2]) && Enabled(w3, run[3]) && Enabled(w4, run[4])
    ensures Legal(p, START, run) && After(p, START, run) == w5
  {
    hide Next, Enabled;
    RunSplits(p, START, [], run[0]);
    RunSplits(p, START, run[..1], run[1]);
    RunSplits(p, START, run[..2], run[2]);
    RunSplits(p, START, run[..3], run[3]);
    RunSplits(p, START, run[..4], run[4]);
    assert [] + [run[0]] == run[..1] && run[..1] + [run[1]] == run[..2] && run[..2] + [run[2]] == run[..3];
    assert run[..3] + [run[3]] == run[..4] && run[..4] + [run[4]] == run;
  }

  /**
   * Reachability alone does not decide: in this run from the start, for every
   * policy and in either order of the last two settlements, a half-open probe
   * is given up while a fallback of its epoch is reachable with a live parent,
   * and the epoch ends without a cooldown.
   */
  lemma ReachableFallbackWithoutCooldown(p: Policy, k: Key, probeFirst: bool)
    ensures
      var run := ProbeRun(p, k);
      var final := After(p, START, run + Settlements(p, k, probeFirst));
      && Legal(p, START, run + Settlements(p, k, probeFirst))
      && Unpunished(After(p, START, run), final, k)
  {
    hide After, Legal, ProbeRun, Next, Enabled, At;
    var run, last, due := ProbeRun(p, k), Settlements(p, k, probeFirst), p.cooldown(Transport, 1);
    ProbeRunReaches(p, k);
    assert run + last == run + [last[0]] + [last[1]];
    RunSplits(p, START, run, last[0]);
    RunSplits(p, START, run + [last[0]], last[1]);
    var w := After(p, START, run);
    if probeFirst {
      ProbeGivesUpFirst(p, k, due, w);
    } else {
      FallbackReachesFirst(p, k, due, w);
    }
  }

  /** The endpoint after both settlements: a new epoch, and no further failure. */
  ghost predicate Unpunished(w: World, w': World, k: Key)
  {
    && k in w.m.endpoints && k in w'.m.endpoints && w.m.endpoints[k].epoch == 3 && 3 in BookOf(w', k).proofs
    && BookOf(w', k).held == multiset{} && w'.m.endpoints[k].epoch == 4
    && w'.m.endpoints[k].failures == w.m.endpoints[k].failures == 1
  }

  lemma ProbeGivesUpFirst(p: Policy, k: Key, due: Time, w: World)
    requires At(w, k, 3, Probed(due).(fallbackPending := 1), Book(multiset{Ticket(3, H3), Ticket(3, H2)}, {1}))
    ensures
      var first, second := Event(k, H3Abandoned(3), due), Event(k, H2Done(3, true, true), due);
      var mid := Next(p, w, first);
      Enabled(w, first) && Enabled(mid, second) && Unpunished(w, Next(p, mid, second), k)
  {
    hide Next, Admitted;
    var first, second := Event(k, H3Abandoned(3), due), Event(k, H2Done(3, true, true), due);
    Stepped(p, w, first, 3, Probed(due).(fallbackPending := 1), Book(multiset{Ticket(3, H3), Ticket(3, H2)}, {1}));
    SettlesWithoutAdmission(w.m, first);
    var mid := Next(p, w, first);
    var e := Cooled(due).(epoch := 4);
    assert At(mid, k, 4, e, Book(multiset{Ticket(3, H2)}, {1}));
    Stepped(p, mid, second, 4, e, Book(multiset{Ticket(3, H2)}, {1}));
    SettlesWithoutAdmission(mid.m, second);
  }

  lemma FallbackReachesFirst(p: Policy, k: Key, due: Time, w: World)
    requires At(w, k, 3, Probed(due).(fallbackPending := 1), Book(multiset{Ticket(3, H3), Ticket(3, H2)}, {1}))
    ensures
      var first, second := Event(k, H2Done(3, true, true), due), Event(k, H3Abandoned(3), due);
      var mid := Next(p, w, first);
      Enabled(w, first) && Enabled(mid, second) && Unpunished(w, Next(p, mid, second), k)
  {
    hide Next, Admitted;
    var first, second := Event(k, H2Done(3, true, true), due), Event(k, H3Abandoned(3), due);
    Stepped(p, w, first, 3, Probed(due).(fallbackPending := 1), Book(multiset{Ticket(3, H3), Ticket(3, H2)}, {1}));
    SettlesWithoutAdmission(w.m, first);
    var mid := Next(p, w, first);
    var e := Probed(due).(fallbackReady := true);
    assert At(mid, k, 3, e, Book(multiset{Ticket(3, H3)}, {1, 3}));
    Stepped(p, mid, second, 3, e, Book(multiset{Ticket(3, H3)}, {1, 3}));
    SettlesWithoutAdmission(mid.m, second);
  }
}
