/**
 * The fresh Boost race: at most two candidates dial at once, a failed slot is
 * refilled from targets not tried yet, and candidates turned away before
 * dialing give their attempt back.
 */
module BoostRace {
  import opened Clock
  import opened Sets
  import opened Options
  import opened RouteCircuit
  import opened TargetSelector

  const MAX_CONNECT_ATTEMPTS := 2

  /** CONNECT rules try at most two targets; every other rule may try all of its own. */
  function AttemptLimit(targets: nat, connect: bool): nat
  {
    if connect && targets >= MAX_CONNECT_ATTEMPTS then MAX_CONNECT_ATTEMPTS else targets
  }

  /**
   * What one launched candidate reports. The first five are local refusals:
   * they happen before the network dial. A failed dial may still hand over a
   * connection; a failed setup has closed its own.
   */
  datatype Outcome =
    | TargetSaturated
    | Saturated
    | MaintenanceSaturated
    | Unhealthy
    | CircuitOpen
    | DialFailed(cancelled: bool, withConn: bool)
    | SetupFailed(cancelled: bool)
    | Connected

  predicate NeverDialed(o: Outcome)
  {
    o.TargetSaturated? || o.Saturated? || o.MaintenanceSaturated? || o.Unhealthy? || o.CircuitOpen?
  }

  predicate Refunded(o: Outcome)
  {
    o.TargetSaturated? || o.Unhealthy? || o.CircuitOpen?
  }

  predicate CarriesConn(o: Outcome)
  {
    o.Connected? || (o.DialFailed? && o.withConn)
  }

  /** A network or setup error that is reported to the caller. */
  predicate DialError(o: Outcome)
  {
    (o.DialFailed? || o.SetupFailed?) && !o.cancelled
  }

  // ------------------------------------------------------- what is observed

  /** `Excluded` is a target found unhealthy before launch; `Closed` the race closing a connection it received. */
  datatype Event =
    | Launched(addr: string)
    | Excluded(addr: string)
    | Delivered(addr: string, outcome: Outcome)
    | Closed(addr: string)

  /**
   * What the trace so far amounts to: who was launched, is in flight, never
   * dialed, gave its attempt back, left a connection open, connected or failed;
   * whether local capacity refused anything, whether that halted the fan-out,
   * whether a target was unhealthy, and the last result.
   */
  datatype Ledger = Ledger(
    launched: set<string>, inFlight: set<string>, spared: set<string>, refunded: set<string>, open: set<string>,
    connected: set<string>, failed: set<string>,
    capacity: bool, maintenance: bool, halted: bool, unhealthy: bool, last: Option<Outcome>)

  const BLANK := Ledger({}, {}, {}, {}, {}, {}, {}, false, false, false, false, None)

  function Step(l: Ledger, e: Event): Ledger
  {
    match e
    case Launched(a) => l.(launched := l.launched + {a}, inFlight := l.inFlight + {a})
    case Excluded(_) => l.(unhealthy := true)
    case Closed(a) => l.(open := l.open - {a})
    case Delivered(a, o) =>
      var d := l.(inFlight := l.inFlight - {a}, last := Some(o));
      match o
      case TargetSaturated => d.(spared := l.spared + {a}, refunded := l.refunded + {a}, capacity := true)
      case Saturated => d.(spared := l.spared + {a}, capacity := true, halted := true)
      case MaintenanceSaturated => d.(spared := l.spared + {a}, maintenance := true, halted := true)
      case Unhealthy => d.(spared := l.spared + {a}, refunded := l.refunded + {a}, unhealthy := true)
      case CircuitOpen => d.(spared := l.spared + {a}, refunded := l.refunded + {a})
      case Connected => d.(open := l.open + {a}, connected := l.connected + {a})
      case SetupFailed(cancelled) => d.(failed := if cancelled then l.failed else l.failed + {a})
      case DialFailed(cancelled, withConn) =>
        d.(failed := if cancelled then l.failed else l.failed + {a}, open := if withConn then l.open + {a} else l.open)
  }

  function Replay(trace: seq<Event>): Ledger
  {
    if trace == [] then BLANK else Step(Replay(trace[..|trace| - 1]), trace[|trace| - 1])
  }

  function Addresses(targets: seq<Target>): set<string>
  {
    set i | 0 <= i < |targets| && targets[i].Target? && targets[i].address != "" :: targets[i].address
  }

  /** Local overload stops the fan-out; only a refusal for one target alone is answered by trying another. */
  predicate MayLaunch(l: Ledger)
  {
    l.halted ==> l.last == Some(TargetSaturated)
  }

  /** A target is launched once and only while the fan-out may go on, reports once, and only a received connection is closed. */
  predicate Proper(targets: seq<Target>, l: Ledger, e: Event)
  {
    match e
    case Launched(a) => a in Addresses(targets) && a !in l.launched && MayLaunch(l)
    case Excluded(a) => a in Addresses(targets) && a !in l.launched
    case Delivered(a, _) => a in l.inFlight
    case Closed(a) => a in l.open
  }

  /** At most two candidates in flight; all but the locally refused ones, which may have dialed, within the limit. */
  predicate Within(limit: nat, l: Ledger)
  {
    |l.inFlight| <= 2 && |l.launched - l.spared| <= limit
  }

  predicate Orderly(targets: seq<Target>, limit: nat, trace: seq<Event>)
  {
    trace == [] ||
    (&& Orderly(targets, limit, trace[..|trace| - 1])
     && Proper(targets, Replay(trace[..|trace| - 1]), trace[|trace| - 1])
     && Within(limit, Replay(trace)))
  }

  /** Orderliness is a statement about every moment of the race. */
  lemma {:induction false} OrderlyThroughout(targets: seq<Target>, limit: nat, trace: seq<Event>, k: nat)
    requires Orderly(targets, limit, trace) && k <= |trace|
    ensures |Replay(trace[..k]).inFlight| <= 2 && |Replay(trace[..k]).launched - Replay(trace[..k]).spared| <= limit
    ensures k < |trace| ==>
      var l := Replay(trace[..k]);
      match trace[k]
      case Launched(a) => a in Addresses(targets) && a !in l.launched && (l.halted ==> l.last == Some(TargetSaturated))
      case Excluded(a) => a in Addresses(targets) && a !in l.launched
      case Delivered(a, _) => a in l.inFlight
      case Closed(a) => a in l.open
  {
    if k < |trace| {
      var front := trace[..|trace| - 1];
      assert front[..k] == trace[..k];
      OrderlyThroughout(targets, limit, front, k);
    } else {
      assert trace[..k] == trace;
    }
  }

  lemma Appended(targets: seq<Target>, limit: nat, trace: seq<Event>, e: Event)
    ensures Replay(trace + [e]) == Step(Replay(trace), e)
    ensures Orderly(targets, limit, trace + [e]) <==>
      Orderly(targets, limit, trace) && Proper(targets, Replay(trace), e) && Within(limit, Step(Replay(trace), e))
  {
    assert (trace + [e])[..|trace|] == trace;
  }

  // -------------------------------------------------------- the race's state

  /** The variables the launcher and the receive loop share, and what has happened so far. */
  datatype Race = Race(
    attempted: set<string>, actual: nat, active: nat, outstanding: set<string>, unhealthySeen: bool, trace: seq<Event>)

  ghost predicate LedgerSound(l: Ledger)
  {
    && l.inFlight <= l.launched && l.spared <= l.launched && l.refunded <= l.spared
    && l.spared !! l.inFlight && l.open !! l.inFlight && l.open <= l.launched
  }

  /**
   * `held`: connections received and not yet closed. The attempts spent are the
   * launches not refunded (until the race is decided, when refunds stop mattering).
   */
  ghost predicate Inv(targets: seq<Target>, limit: nat, r: Race, held: set<string>)
  {
    var l := Replay(r.trace);
    && Orderly(targets, limit, r.trace)
    && LedgerSound(l)
    && l.inFlight == r.outstanding && |r.outstanding| == r.active <= 2
    && l.launched <= r.attempted <= Addresses(targets)
    && |l.launched - l.refunded| <= r.actual <= limit
    && l.open == held
  }

  /** Until the race is decided, the attempts spent are exactly the launches not given back. */
  ghost predicate Exact(r: Race)
  {
    var l := Replay(r.trace);
    r.actual == |l.launched - l.refunded| && r.unhealthySeen == l.unhealthy
  }

  ghost predicate SameResults(a: Race, b: Race)
  {
    var l, m := Replay(a.trace), Replay(b.trace);
    && l.connected == m.connected && l.failed == m.failed && l.last == m.last
    && l.capacity == m.capacity && l.maintenance == m.maintenance && l.halted == m.halted
  }

  function LaunchOf(r: Race, a: string): Race
  {
    r.(attempted := r.attempted + {a}, actual := r.actual + 1, active := r.active + 1,
       outstanding := r.outstanding + {a}, trace := r.trace + [Launched(a)])
  }

  function ReceiptOf(r: Race, a: string, o: Outcome, refund: bool): Race
    requires r.active > 0
  {
    r.(active := r.active - 1, outstanding := r.outstanding - {a}, trace := r.trace + [Delivered(a, o)],
       actual := if refund && r.actual > 0 then r.actual - 1 else r.actual,
       unhealthySeen := r.unhealthySeen || (refund && o.Unhealthy?))
  }

  function ExcludeOf(r: Race, a: string): Race
  {
    r.(unhealthySeen := true, trace := r.trace + [Excluded(a)])
  }

  function CloseOf(r: Race, a: string): Race
  {
    r.(trace := r.trace + [Closed(a)])
  }

  lemma LaunchCounts(l: Ledger, a: string)
    requires LedgerSound(l) && a !in l.launched
    ensures |l.inFlight + {a}| == |l.inFlight| + 1
    ensures |(l.launched + {a}) - l.refunded| == |l.launched - l.refunded| + 1
    ensures |(l.launched + {a}) - l.spared| <= |l.launched - l.refunded| + 1
  {
    assert (l.launched + {a}) - l.refunded == (l.launched - l.refunded) + {a};
    SubsetSize((l.launched + {a}) - l.spared, (l.launched + {a}) - l.refunded);
  }

  lemma LaunchKeepsInv(targets: seq<Target>, limit: nat, r: Race, a: string)
    requires Inv(targets, limit, r, {}) && r.active < 2 && r.actual < limit
    requires a in Addresses(targets) && a !in Replay(r.trace).launched && MayLaunch(Replay(r.trace))
    ensures Inv(targets, limit, LaunchOf(r, a), {})
    ensures Replay(LaunchOf(r, a).trace).launched == Replay(r.trace).launched + {a}
    ensures Exact(r) ==> Exact(LaunchOf(r, a))
    ensures SameResults(r, LaunchOf(r, a))
  {
    hide Orderly, Replay, Addresses;
    Appended(targets, limit, r.trace, Launched(a));
    LaunchCounts(Replay(r.trace), a);
  }

  lemma ReceiptCounts(l: Ledger, a: string, o: Outcome)
    requires LedgerSound(l) && a in l.inFlight
    ensures var next := Step(l, Delivered(a, o));
      && LedgerSound(next) && |next.inFlight| == |l.inFlight| - 1
      && |l.launched - l.refunded| > 0
      && |next.launched - next.refunded| == |l.launched - l.refunded| - (if Refunded(o) then 1 else 0)
      && |next.launched - next.spared| <= |l.launched - l.spared|
  {
    var next := Step(l, Delivered(a, o));
    DeliveredSets(l, a, o);
    hide Step, NeverDialed, CarriesConn, Refunded;
    RefusalsAreRefunded(o);
    assert a in l.launched - l.refunded;
    if Refunded(o) {
      assert next.launched - next.refunded == (l.launched - l.refunded) - {a};
    }
    SubsetSize(next.launched - next.spared, l.launched - l.spared);
  }

  lemma RefusalsAreRefunded(o: Outcome)
    ensures Refunded(o) ==> NeverDialed(o)
    ensures NeverDialed(o) ==> !CarriesConn(o)
  {
  }

  /** The classification of outcomes agrees with what the ledger records of them. */
  lemma DeliveredSets(l: Ledger, a: string, o: Outcome)
    ensures
      var next := Step(l, Delivered(a, o));
      && next.launched == l.launched && next.inFlight == l.inFlight - {a}
      && next.spared == (if NeverDialed(o) then l.spared + {a} else l.spared)
      && next.refunded == (if Refunded(o) then l.refunded + {a} else l.refunded)
      && next.open == (if CarriesConn(o) then l.open + {a} else l.open)
  {
  }

  lemma ReceiptKeepsInv(targets: seq<Target>, limit: nat, r: Race, a: string, o: Outcome, refund: bool, held: set<string>)
    requires Inv(targets, limit, r, held) && a in r.outstanding && (refund ==> Refunded(o))
    ensures r.active > 0
    ensures Inv(targets, limit, ReceiptOf(r, a, o, refund), if CarriesConn(o) then held + {a} else held)
    ensures Exact(r) && refund == Refunded(o) ==> Exact(ReceiptOf(r, a, o, refund))
    ensures Replay(ReceiptOf(r, a, o, refund).trace) == Step(Replay(r.trace), Delivered(a, o))
  {
    hide Orderly, Replay, Addresses, LedgerSound;
    NowWithin(targets, limit, r.trace);
    Appended(targets, limit, r.trace, Delivered(a, o));
    ReceiptCounts(Replay(r.trace), a, o);
  }

  lemma NowWithin(targets: seq<Target>, limit: nat, trace: seq<Event>)
    requires Orderly(targets, limit, trace)
    ensures Within(limit, Replay(trace))
  {
  }

  lemma ExcludeKeepsInv(targets: seq<Target>, limit: nat, r: Race, a: string)
    requires Inv(targets, limit, r, {}) && a in Addresses(targets) && a !in Replay(r.trace).launched
    ensures Inv(targets, limit, ExcludeOf(r, a), {})
    ensures Exact(r) ==> Exact(ExcludeOf(r, a))
    ensures SameResults(r, ExcludeOf(r, a)) && Replay(ExcludeOf(r, a).trace).launched == Replay(r.trace).launched
  {
    hide Orderly, Replay, Addresses;
    NowWithin(targets, limit, r.trace);
    Appended(targets, limit, r.trace, Excluded(a));
  }

  lemma CloseKeepsInv(targets: seq<Target>, limit: nat, r: Race, a: string, held: set<string>)
    requires Inv(targets, limit, r, held) && a in held
    ensures Inv(targets, limit, CloseOf(r, a), held - {a})
    ensures Exact(r) ==> Exact(CloseOf(r, a))
    ensures SameResults(r, CloseOf(r, a)) && Replay(CloseOf(r, a).trace) == Step(Replay(r.trace), Closed(a))
  {
    hide Orderly, Replay, Addresses;
    NowWithin(targets, limit, r.trace);
    Appended(targets, limit, r.trace, Closed(a));
  }

  // ------------------------------------------------------------ the launcher

  datatype Entrant = Entrant(addr: string, canary: bool, explorer: bool)

  ghost predicate Eligible(targets: seq<Target>, attempted: set<string>, es: seq<Entrant>)
  {
    && (forall k :: 0 <= k < |es| ==> es[k].addr in Addresses(targets) && es[k].addr !in attempted)
    && (forall i, j :: 0 <= i < j < |es| ==> es[i].addr != es[j].addr)
  }

  /** The registry, the penalties and the probe claims as they are at the moment of asking. */
  method CurrentView(targets: seq<Target>, attempted: set<string>) returns (view: Input)
    ensures WellFormed(view) && view.targets == targets && view.excluded == attempted
  {
    var routes: map<string, Route> := *;
    var penalties: seq<nat> := *;
    var refreshed: seq<nat> := *;
    var claims: seq<nat> := *;
    var none := seq(|targets|, _ => 0);
    view := Input(targets, attempted, routes,
                  if |penalties| == |targets| then penalties else none,
                  if |refreshed| == |targets| then refreshed else none,
                  if |claims| == |targets| then claims else none);
  }

  function EntrantsOf(selected: seq<Selection>): (es: seq<Entrant>)
    ensures |es| == |selected|
    ensures forall k :: 0 <= k < |es| ==> es[k].addr == selected[k].address
  {
    seq(|selected|, k requires 0 <= k < |selected| =>
      Entrant(selected[k].address, selected[k].probe != 0, selected[k].explorer))
  }

  lemma SelectedAreEligible(view: Input, reserve: bool, limit: nat, selected: seq<Selection>)
    requires WellFormed(view) && Sound(view, reserve, limit, selected)
    ensures Eligible(view.targets, view.excluded, EntrantsOf(selected))
    ensures selected == [] && limit >= |view.targets| ==> Offered(view, reserve, None) == {}
  {
    hide ProbeIs, Ranked;
    var probe := LeadingProbe(selected);
    assert probe.Some? ==> probe.value in Pool(view) by { ProbeInPool(view, reserve, probe); }
    OfferedInPool(view, reserve, probe);
    forall k | 0 <= k < |selected|
      ensures selected[k].address in Addresses(view.targets) && selected[k].address !in view.excluded
    {
      assert selected[k].index in Pool(view);
    }
  }

  lemma ProbeInPool(view: Input, reserve: bool, probe: Option<nat>)
    requires WellFormed(view) && ProbeIs(view, reserve, probe)
    ensures probe.Some? ==> probe.value in Pool(view)
  {
    hide Pool;
  }

  /** Whether the canary of the batch, if it has one, was launched. */
  ghost predicate CanaryOut(es: seq<Entrant>, launched: set<string>)
  {
    exists k :: 0 <= k < |es| && es[k].canary && es[k].addr in launched
  }

  /**
   * One pass over the candidates, in order. It stops only when the slots are
   * full, the attempts used up, or a canary launched, which then is the last.
   */
  method LaunchBatch(targets: seq<Target>, limit: nat, was: Race, es: seq<Entrant>) returns (r: Race, launched: nat)
    requires Inv(targets, limit, was, {}) && Exact(was) && was.active < 2 && was.actual < limit
    requires es != [] && Eligible(targets, was.attempted, es) && MayLaunch(Replay(was.trace))
    ensures Inv(targets, limit, r, {}) && Exact(r)
    ensures r.active == was.active + launched && SameResults(was, r)
    ensures was.attempted < r.attempted
    ensures forall i, j :: 0 <= i < j < |es| && es[j].addr in r.attempted ==> es[i].addr in r.attempted
    ensures
      || r.active == 2 || r.actual >= limit || CanaryOut(es, Replay(r.trace).launched)
      || forall k :: 0 <= k < |es| ==> es[k].addr in r.attempted
    ensures es[0].canary && es[0].addr in Replay(r.trace).launched ==> launched == 1
    ensures forall a :: a in Replay(r.trace).launched ==> a in Replay(was.trace).launched || a !in was.attempted
    ensures es[0].addr in r.attempted
    ensures forall k :: 0 <= k < |es| && es[k].addr in r.attempted && !es[k].explorer && !r.unhealthySeen ==>
      es[k].addr in Replay(r.trace).launched
    ensures was.unhealthySeen ==> r.unhealthySeen
  {
    hide Orderly, Replay, Addresses, Inv, Exact;
    r, launched := was, 0;
    var capacity := 2 - was.active;
    ghost var done := 0;
    NotLaunchedYet(targets, limit, was, es[0].addr);
    for n := 0 to |es|
      invariant Inv(targets, limit, r, {}) && Exact(r) && SameResults(was, r)
      invariant r.active == was.active + launched && launched <= capacity
      invariant was.attempted <= r.attempted && done == n
      invariant forall k :: 0 <= k < n ==> es[k].addr in r.attempted
      invariant forall k :: n <= k < |es| ==> es[k].addr !in r.attempted
      invariant n == 0 ==> r == was && launched == 0
      invariant was.unhealthySeen ==> r.unhealthySeen
      invariant forall k :: 0 <= k < n && !es[k].explorer && !r.unhealthySeen ==> es[k].addr in Replay(r.trace).launched
      invariant n > 0 && es[0].canary ==> es[0].addr !in Replay(r.trace).launched
      invariant forall a :: a in Replay(r.trace).launched ==> a in Replay(was.trace).launched || a !in was.attempted
    {
      if launched == capacity || r.actual >= limit {
        break;
      }
      var addr := es[n].addr;
      NotLaunchedYet(targets, limit, r, addr);
      r := r.(attempted := r.attempted + {addr});
      done := n + 1;
      var unhealthy: bool := *;
      if unhealthy {
        ExcludeKeepsInv(targets, limit, r, addr);
        r := ExcludeOf(r, addr);
        continue;
      }
      var claimed: bool := *;
      if es[n].explorer && !claimed {
        continue;
      }
      LaunchKeepsInv(targets, limit, r, addr);
      r := LaunchOf(r, addr);
      launched := launched + 1;
      if es[n].canary {
        assert CanaryOut(es, Replay(r.trace).launched);
        break;
      }
    }
  }

  lemma NotLaunchedYet(targets: seq<Target>, limit: nat, r: Race, a: string)
    requires Inv(targets, limit, r, {}) && a in Addresses(targets) && a !in r.attempted
    ensures a !in Replay(r.trace).launched
    ensures var marked := r.(attempted := r.attempted + {a});
      Inv(targets, limit, marked, {}) && (Exact(r) ==> Exact(marked))
  {
    hide Orderly, Replay, Addresses;
  }

  function RecoveryEntrant(targets: seq<Target>, attempted: set<string>, recovery: Option<string>): seq<Entrant>
  {
    if recovery.Some? && recovery.value !in attempted && recovery.value in Addresses(targets)
    then [Entrant(recovery.value, true, false)] else []
  }

  /** Why nothing more is launched: no slot, no attempt or no target left, or the selector offers none for `view`. */
  ghost predicate Idle(targets: seq<Target>, limit: nat, r: Race, view: Input)
  {
    r.active < 2 && r.actual < limit && |r.attempted| < |targets| ==>
      && WellFormed(view) && view.targets == targets && view.excluded == r.attempted
      && exists reserve :: Offered(view, reserve, None) == {}
  }

  /** The selector's last answer: a reserved probe at its head went alone, and only an explorer or an unhealthy target was passed over. */
  ghost predicate HeadTaken(offer: seq<Selection>, r: Race, launched: nat)
  {
    offer != [] ==>
      && (offer[0].probe > 0 && offer[0].address in Replay(r.trace).launched ==> launched == 1)
      && (!offer[0].explorer && !r.unhealthySeen ==> offer[0].address in Replay(r.trace).launched)
  }

  /** The same of the recovery candidate. */
  ghost predicate RecoveryTaken(a: string, r: Race, launched: nat)
  {
    && a in r.attempted && (a in Replay(r.trace).launched ==> launched == 1)
    && (!r.unhealthySeen ==> a in Replay(r.trace).launched)
  }

  /** One pass: the awaited recovery candidate alone, or what the selector offers; nothing changes if it offers nothing. */
  method LaunchPass(targets: seq<Target>, limit: nat, recovery: Option<string>, now: Time, was: Race)
    returns (r: Race, launched: nat, view: Input, offer: seq<Selection>)
    requires Inv(targets, limit, was, {}) && Exact(was) && was.active < 2 && was.actual < limit && |was.attempted| < |targets|
    requires MayLaunch(Replay(was.trace))
    ensures Inv(targets, limit, r, {}) && Exact(r) && SameResults(was, r)
    ensures r.active == was.active + launched && (was.unhealthySeen ==> r.unhealthySeen)
    ensures
      || was.attempted < r.attempted
      || (&& r == was && WellFormed(view) && view.targets == targets && view.excluded == r.attempted
          && exists reserve :: Offered(view, reserve, None) == {})
    ensures forall a :: a in Replay(r.trace).launched ==> a in Replay(was.trace).launched || a !in was.attempted
    ensures HeadTaken(offer, r, launched)
    ensures RecoveryEntrant(targets, was.attempted, recovery) != [] ==>
      was.attempted < r.attempted && RecoveryTaken(recovery.value, r, launched)
  {
    hide Inv, Exact, Addresses, Sound, Offered, Replay, ExplorerSound, FrontOfRanking, InRankOrder;
    r, launched, offer := was, 0, [];
    view := CurrentView(targets, r.attempted);
    var es := RecoveryEntrant(targets, r.attempted, recovery);
    if |es| == 0 {
      var reserve := recovery.None? && r.active == 0 && r.actual == 0;
      offer := SelectTargetSelections(view, |targets|, now, reserve);
      SelectedAreEligible(view, reserve, |targets|, offer);
      es := EntrantsOf(offer);
      if |es| == 0 {
        return;
      }
    }
    r, launched := LaunchBatch(targets, limit, r, es);
  }

  /**
   * Fills free slots: the recovery candidate, if one is awaited, first and
   * alone. When it launches nothing although a slot, an attempt and
   * an untried target remain, the selector had nothing to offer for `view`.
   */
  method LaunchAvailable(targets: seq<Target>, limit: nat, recovery: Option<string>, now: Time, was: Race)
    returns (r: Race, launched: nat, view: Input)
    requires Inv(targets, limit, was, {}) && Exact(was) && targets != [] && MayLaunch(Replay(was.trace))
    ensures Inv(targets, limit, r, {}) && Exact(r)
    ensures r.active == was.active + launched && was.attempted <= r.attempted && SameResults(was, r)
    ensures launched > 0 ==> was.attempted < r.attempted
    ensures launched == 0 ==> Idle(targets, limit, r, view)
    ensures
      var room := was.actual < limit && was.active < 2 && |was.attempted| < |targets|;
      room && RecoveryEntrant(targets, was.attempted, recovery) != [] ==> RecoveryTaken(recovery.value, r, launched)
  {
    hide Inv, Exact, Addresses, Offered, Replay, HeadTaken;
    r, launched := was, 0;
    view := CurrentView(targets, r.attempted);
    if r.actual >= limit || r.active >= 2 {
      return;
    }
    ghost var awaited := RecoveryEntrant(targets, was.attempted, recovery) != [];
    while launched == 0 && r.actual < limit && |r.attempted| < |targets|
      invariant Inv(targets, limit, r, {}) && Exact(r) && SameResults(was, r)
      invariant r.active == was.active + launched && was.attempted <= r.attempted
      invariant launched > 0 ==> was.attempted < r.attempted
      invariant awaited ==> (r == was && launched == 0) || RecoveryTaken(recovery.value, r, launched)
      decreases launched == 0, |targets| - |r.attempted|
    {
      var before, offer := r, [];
      r, launched, view, offer := LaunchPass(targets, limit, recovery, now, r);
      if r.attempted == before.attempted {
        break;
      }
      StrictlyMore(before.attempted, r.attempted);
    }
  }

  lemma StrictlyMore(a: set<string>, b: set<string>)
    requires a < b
    ensures |a| < |b|
  {
    assert b == a + (b - a);
    assert b - a != {};
  }

  // ----------------------------------------------------------------- the race

  datatype Reason =
    | DialsFailed
    | DialsFailedAndSaturated
    | OnlySaturated
    | OnlyMaintenance
    | OnlyUnhealthy
    | OnlyOpen

  datatype Ending = NoTargets | GaveUp | Won(addr: string) | Failed(reason: Reason)

  /** Receives every outstanding result and closes what it brings. */
  method Drain(targets: seq<Target>, limit: nat, was: Race, ghost held: set<string>) returns (r: Race)
    requires Inv(targets, limit, was, held)
    ensures Inv(targets, limit, r, held) && r.active == 0
    ensures Replay(was.trace).connected <= Replay(r.trace).connected
  {
    hide Orderly, Replay, Addresses, Inv, LedgerSound;
    r := was;
    while r.active > 0
      invariant Inv(targets, limit, r, held)
      invariant Replay(was.trace).connected <= Replay(r.trace).connected
      decreases r.active
    {
      r := ReceiveLoser(targets, limit, r, held);
    }
  }

  method ReceiveLoser(targets: seq<Target>, limit: nat, was: Race, ghost held: set<string>) returns (r: Race)
    requires Inv(targets, limit, was, held) && was.active > 0
    ensures Inv(targets, limit, r, held) && r.active == was.active - 1
    ensures Replay(was.trace).connected <= Replay(r.trace).connected
  {
    hide Orderly, Replay, Addresses, Inv, LedgerSound;
    var a, o := NextResult(targets, limit, was, held);
    ReceiptKeepsInv(targets, limit, was, a, o, false, held);
    r := ReceiptOf(was, a, o, false);
    if CarriesConn(o) {
      CloseKeepsInv(targets, limit, r, a, held + {a});
      r := CloseOf(r, a);
      assert held + {a} - {a} == held;
    }
  }

  /** Whichever candidate reports next, with whatever outcome. */
  method NextResult(targets: seq<Target>, limit: nat, r: Race, ghost held: set<string>) returns (a: string, o: Outcome)
    requires Inv(targets, limit, r, held) && r.active > 0
    ensures a in r.outstanding && a !in held
  {
    a :| a in r.outstanding;
    o := *;
  }

  /** The winner waits for the losers; a cancellation meanwhile costs it the race. */
  method Decide(targets: seq<Target>, limit: nat, was: Race, winner: string) returns (r: Race, ending: Ending)
    requires Inv(targets, limit, was, {winner}) && winner in Replay(was.trace).connected
    ensures r.active == 0
    ensures ending == GaveUp || ending == Won(winner)
    ensures Inv(targets, limit, r, if ending.Won? then {winner} else {})
    ensures winner in Replay(r.trace).connected
  {
    hide Orderly, Replay, Addresses, Inv, LedgerSound;
    r := was;
    while r.active > 0
      invariant Inv(targets, limit, r, {winner}) && winner in Replay(r.trace).connected
      decreases r.active
    {
      var done: bool := *;
      if done {
        CloseKeepsInv(targets, limit, r, winner, {winner});
        assert {winner} - {winner} == {};
        r := CloseOf(r, winner);
        r := Drain(targets, limit, r, {});
        return r, GaveUp;
      }
      r := ReceiveLoser(targets, limit, r, {winner});
    }
    ending := Won(winner);
  }

  /** What the receive loop remembers besides the shared state. */
  datatype Flags = Flags(maintenance: bool, saturated: bool, tryOnly: bool, capacityError: bool, dialErrors: seq<string>)

  /** The receive loop's reaction to an ordinary result, up to the decision whether to launch. */
  function React(f: Flags, a: string, o: Outcome): (Flags, bool)
  {
    match o
    case Unhealthy => (f, !f.maintenance && !f.saturated)
    case CircuitOpen => (f, !f.maintenance && !f.saturated)
    case TargetSaturated => (f.(capacityError := true, tryOnly := true), true)
    case Saturated => (f.(capacityError := true, saturated := true), false)
    case MaintenanceSaturated => (f.(maintenance := true), false)
    case _ =>
      (if DialError(o) then f.(dialErrors := f.dialErrors + [a]) else f, !f.maintenance && !f.saturated)
  }

  function Conclude(f: Flags, unhealthySeen: bool): Reason
  {
    if |f.dialErrors| == 0 then
      if f.capacityError then OnlySaturated
      else if f.maintenance then OnlyMaintenance
      else if unhealthySeen then OnlyUnhealthy
      else OnlyOpen
    else if f.capacityError then DialsFailedAndSaturated
    else DialsFailed
  }

  /** The flags say of the trace what the loop needs to know of it. */
  ghost predicate Tells(f: Flags, l: Ledger)
  {
    && f.maintenance == l.maintenance && f.capacityError == l.capacity
    && (f.maintenance || f.saturated) == l.halted
    && (f.dialErrors == [] <==> l.failed == {})
    && l.connected == {}
  }

  lemma ReactTells(f: Flags, l: Ledger, a: string, o: Outcome)
    requires Tells(f, l) && !o.Connected?
    ensures
      var (g, launch) := React(f, a, o);
      var m := Step(l, Delivered(a, o));
      Tells(g, m) && (launch ==> MayLaunch(m)) && (!launch ==> m.halted)
  {
  }

  /** Receives one result that does not win, closes what it brings and refunds it if it never dialed. */
  method Settle(targets: seq<Target>, limit: nat, was: Race, a: string, o: Outcome) returns (r: Race)
    requires Inv(targets, limit, was, {}) && Exact(was) && a in was.outstanding && !o.Connected?
    ensures Inv(targets, limit, r, {}) && Exact(r) && was.active > 0 && r.active == was.active - 1
    ensures r.attempted == was.attempted
    ensures
      var l, m := Replay(r.trace), Step(Replay(was.trace), Delivered(a, o));
      l == m || l == Step(m, Closed(a))
  {
    hide Orderly, Replay, Addresses, Inv, LedgerSound, Exact, Idle;
    ReceiptKeepsInv(targets, limit, was, a, o, Refunded(o), {});
    r := ReceiptOf(was, a, o, Refunded(o));
    assert {} + {a} == {a};
    if CarriesConn(o) {
      CloseKeepsInv(targets, limit, r, a, {a});
      r := CloseOf(r, a);
      assert {a} - {a} == {};
    }
  }

  /** Settles one result that does not win, and refills the free slots. */
  method Continue(
    targets: seq<Target>, limit: nat, recovery: Option<string>, now: Time, was: Race, f: Flags, a: string, o: Outcome)
    returns (r: Race, g: Flags, view: Input)
    requires targets != [] && Inv(targets, limit, was, {}) && Exact(was) && a in was.outstanding && !o.Connected?
    requires Tells(f, Replay(was.trace))
    ensures Inv(targets, limit, r, {}) && Exact(r) && Tells(g, Replay(r.trace))
    ensures was.attempted <= r.attempted && (was.attempted == r.attempted ==> r.active == was.active - 1)
    ensures r.active == 0 && !g.maintenance && !g.saturated ==> Idle(targets, limit, r, view)
  {
    hide Orderly, Replay, Addresses, Inv, LedgerSound, Exact, Idle, React;
    r := Settle(targets, limit, was, a, o);
    ReactTells(f, Replay(was.trace), a, o);
    var (h, launch) := React(f, a, o);
    g := h;
    view := CurrentView(targets, r.attempted);
    if launch {
      var launched;
      r, launched, view := LaunchAvailable(targets, limit, recovery, now, r);
      assert launched == 0 ==> r.active == was.active - 1;
    }
  }

  /**
   * The whole race, whatever the candidates report and whenever the caller
   * gives up. Its trace is orderly at every moment; at the end nobody is in
   * flight, and no connection is open but the one returned. A race fails only
   * when nothing connected and, local saturation aside, nothing was left to try.
   */
  method RaceBoostTargets(targets: seq<Target>, connect: bool, recovery: Option<string>, now: Time)
    returns (ending: Ending, trace: seq<Event>, attempted: set<string>, view: Input)
    ensures Orderly(targets, if connect && |targets| > 2 then 2 else |targets|, trace)
    ensures Replay(trace).inFlight == {}
    ensures Replay(trace).open == if ending.Won? then {ending.addr} else {}
    ensures ending.Won? ==> ending.addr in Replay(trace).connected
    ensures ending.Failed? ==> Replay(trace).connected == {}
    ensures ending.Failed? ==> ending.reason == ReasonOf(Replay(trace))
    ensures connect ==> |Replay(trace).launched - Replay(trace).spared| <= 2
    ensures ending.Failed? && !Replay(trace).halted ==>
      || |Replay(trace).launched - Replay(trace).refunded| == (if connect && |targets| > 2 then 2 else |targets|)
      || |attempted| >= |targets|
      || (&& WellFormed(view) && view.targets == targets && view.excluded == attempted
          && exists reserve :: Offered(view, reserve, None) == {})
    ensures Replay(trace).launched <= attempted <= Addresses(targets)
  {
    hide Orderly, Replay, Addresses, Inv, LedgerSound, Exact, Idle;
    var limit := AttemptLimit(|targets|, connect);
    view := CurrentView(targets, {});
    var r := Race({}, 0, 0, {}, false, []);
    BlankRace(targets, limit, r);
    ending, trace, attempted := GaveUp, [], {};
    if |targets| == 0 {
      ending := NoTargets;
      return;
    }
    var done: bool := *;
    if done {
      return;
    }
    var launched;
    r, launched, view := LaunchAvailable(targets, limit, recovery, now, r);
    var f := Flags(false, false, false, false, []);
    while r.active > 0
      invariant Inv(targets, limit, r, {}) && Exact(r) && Tells(f, Replay(r.trace))
      invariant r.active == 0 && !f.maintenance && !f.saturated ==> Idle(targets, limit, r, view)
      decreases |Addresses(targets) - r.attempted|, r.active
    {
      done := *;
      if done {
        r := Drain(targets, limit, r, {});
        Finished(targets, limit, r, {});
        return GaveUp, r.trace, r.attempted, view;
      }
      var a, o := NextResult(targets, limit, r, {});
      ghost var before := r;
      if o.Connected? {
        ReceiptKeepsInv(targets, limit, r, a, o, false, {});
        r := ReceiptOf(r, a, o, false);
        assert {} + {a} == {a};
        r, ending := Decide(targets, limit, r, a);
        Finished(targets, limit, r, if ending.Won? then {a} else {});
        return ending, r.trace, r.attempted, view;
      }
      r, f, view := Continue(targets, limit, recovery, now, r, f, a, o);
      FewerLeft(targets, limit, before.attempted, r);
    }
    done := *;
    Finished(targets, limit, r, {});
    trace, attempted := r.trace, r.attempted;
    if done {
      return;
    }
    ending := Failed(Conclude(f, r.unhealthySeen));
    ExactlyUnhealthy(r);
    if !f.maintenance && !f.saturated {
      IdleMeans(targets, limit, r, view);
    }
  }

  /** The error of a failed race, from what its candidates reported. */
  ghost function ReasonOf(l: Ledger): Reason
  {
    if l.failed != {} then (if l.capacity then DialsFailedAndSaturated else DialsFailed)
    else if l.capacity then OnlySaturated
    else if l.maintenance then OnlyMaintenance
    else if l.unhealthy then OnlyUnhealthy
    else OnlyOpen
  }

  lemma ExactlyUnhealthy(r: Race)
    requires Exact(r)
    ensures r.unhealthySeen == Replay(r.trace).unhealthy
  {
  }

  lemma BlankRace(targets: seq<Target>, limit: nat, r: Race)
    requires r == Race({}, 0, 0, {}, false, [])
    ensures Inv(targets, limit, r, {}) && Exact(r) && Replay([]) == BLANK && Orderly(targets, limit, [])
    ensures {} <= Addresses(targets)
  {
    assert |BLANK.launched - BLANK.refunded| == 0;
  }

  lemma Finished(targets: seq<Target>, limit: nat, r: Race, held: set<string>)
    requires Inv(targets, limit, r, held) && r.active == 0
    ensures Orderly(targets, limit, r.trace) && Replay(r.trace).inFlight == {} && Replay(r.trace).open == held
    ensures |Replay(r.trace).launched - Replay(r.trace).spared| <= limit
    ensures Replay(r.trace).launched <= r.attempted <= Addresses(targets)
  {
  }

  lemma FewerLeft(targets: seq<Target>, limit: nat, before: set<string>, r: Race)
    requires Inv(targets, limit, r, {}) && before <= r.attempted
    ensures |Addresses(targets) - r.attempted| <= |Addresses(targets) - before|
    ensures before != r.attempted ==> |Addresses(targets) - r.attempted| < |Addresses(targets) - before|
  {
    hide Replay, Orderly, Addresses;
    var all := Addresses(targets);
    SubsetSize(all - r.attempted, all - before);
    if before != r.attempted {
      assert before < r.attempted;
      assert all - r.attempted < all - before;
      StrictlyMore(all - r.attempted, all - before);
    }
  }

  lemma IdleMeans(targets: seq<Target>, limit: nat, r: Race, view: Input)
    requires Inv(targets, limit, r, {}) && Exact(r) && Idle(targets, limit, r, view) && r.active == 0
    ensures
      || |Replay(r.trace).launched - Replay(r.trace).refunded| == limit
      || |r.attempted| >= |targets|
      || (&& WellFormed(view) && view.targets == targets && view.excluded == r.attempted
          && exists reserve :: Offered(view, reserve, None) == {})
  {
    hide Orderly, Replay, Addresses, LedgerSound;
  }
}
