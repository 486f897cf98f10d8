/**
 * Which targets of a rule one inbound connection may try, and in which order:
 * at most one reserved protocol probe first, then the best known route, the
 * unknown routes and the other known ones, with a stale route moved up to the
 * second place now and then.
 */
module TargetSelector {
  import opened Clock
  import opened Options
  import opened RouteCircuit
  import RouteCircuitRuns

  const FAILURE_PENALTY := SECOND
  const EXPLORATION_AFTER := 30 * SECOND

  datatype Target = NoTarget | Target(address: string)

  /**
   * What the selector sees: the rule's targets, the addresses already tried,
   * the rule's routes, and per target the protocol penalty, the penalty if
   * asked again, and the token a probe claim would return (0 for a refusal).
   */
  datatype Input = Input(
    targets: seq<Target>, excluded: set<string>, routes: map<string, Route>,
    penalties: seq<nat>, refreshed: seq<nat>, claims: seq<nat>)

  predicate WellFormed(inp: Input)
  {
    |inp.penalties| == |inp.refreshed| == |inp.claims| == |inp.targets|
  }

  datatype Candidate = Candidate(index: nat, address: string, score: int, penalty: nat, lastAttempt: Time, hasEwma: bool)

  datatype Selection = Selection(index: nat, address: string, probe: nat, explorer: bool)

  // --------------------------------------------------------- reference sets

  function RouteAt(inp: Input, i: nat): Route
    requires i < |inp.targets| && inp.targets[i].Target?
  {
    if inp.targets[i].address in inp.routes then inp.routes[inp.targets[i].address] else UNSEEN
  }

  /** A named target, not tried yet, and the first of the rule with its address. */
  predicate Listed(inp: Input, i: nat)
  {
    && i < |inp.targets| && inp.targets[i].Target?
    && inp.targets[i].address != "" && inp.targets[i].address !in inp.excluded
    && forall j :: 0 <= j < i ==> inp.targets[j] != inp.targets[i]
  }

  predicate Admissible(inp: Input, i: nat)
  {
    Listed(inp, i) && !(RouteAt(inp, i).observed && RouteAt(inp, i).open)
  }

  ghost function Unknown(inp: Input): set<nat>
  {
    set i: nat | i < |inp.targets| && Admissible(inp, i) && !RouteAt(inp, i).observed
  }

  ghost function Known(inp: Input): set<nat>
  {
    set i: nat | i < |inp.targets| && Admissible(inp, i) && RouteAt(inp, i).observed
  }

  ghost function Pool(inp: Input): (s: set<nat>)
    ensures forall i :: i in s ==> i < |inp.targets| && inp.targets[i].Target?
  {
    set i: nat | i < |inp.targets| && Admissible(inp, i)
  }

  ghost predicate SomeUnpenalised(inp: Input, pens: seq<nat>)
    requires |pens| == |inp.targets|
  {
    exists i :: i in Pool(inp) && pens[i] == 0
  }

  /** The unpenalised part of a set whenever the pool has any unpenalised target. */
  ghost function Preferred(inp: Input, pens: seq<nat>, s: set<nat>): set<nat>
    requires |pens| == |inp.targets|
  {
    set i | i in s && (SomeUnpenalised(inp, pens) ==> i < |pens| && pens[i] == 0)
  }

  ghost predicate ClaimSucceeds(inp: Input, i: nat)
    requires WellFormed(inp)
  {
    i in Pool(inp) && inp.penalties[i] > 0 && inp.claims[i] != 0
  }

  function Base(inp: Input, i: nat): int
    requires i < |inp.targets| && inp.targets[i].Target?
  {
    var r := RouteAt(inp, i);
    if !r.observed then 0
    else
      var streak := if r.failures > r.relayFailures then r.failures else r.relayFailures;
      (if r.hasEwma then r.ewma else FAILURE_PENALTY) + streak * FAILURE_PENALTY
  }

  function CandidateAt(inp: Input, pens: seq<nat>, i: nat): Candidate
    requires i < |inp.targets| == |pens| && inp.targets[i].Target?
  {
    var r := RouteAt(inp, i);
    Candidate(i, inp.targets[i].address, Base(inp, i) + pens[i], pens[i], r.lastAttempt, r.observed && r.hasEwma)
  }

  /** The penalties in force: asked again when probes were wanted but none could be claimed. */
  ghost function Effective(inp: Input, reserve: bool, probe: Option<nat>): (pens: seq<nat>)
    ensures WellFormed(inp) ==> |pens| == |inp.targets|
  {
    if reserve && probe.None? && (exists i :: i in Pool(inp) && i < |inp.penalties| && inp.penalties[i] > 0) then inp.refreshed
    else inp.penalties
  }

  /** A probe is reserved exactly when one is wanted and some penalised target's claim succeeds; it is the cheapest such. */
  ghost predicate ProbeIs(inp: Input, reserve: bool, probe: Option<nat>)
    requires WellFormed(inp)
  {
    match probe
    case None => !reserve || forall i :: i in Pool(inp) ==> !ClaimSucceeds(inp, i)
    case Some(p) =>
      && reserve && ClaimSucceeds(inp, p)
      && forall i :: i in Pool(inp) && i != p && ClaimSucceeds(inp, i) ==>
           Precedes(false, CandidateAt(inp, inp.penalties, p), CandidateAt(inp, inp.penalties, i))
  }

  /** Everything the selection ranks besides the probe. */
  ghost function Ranked(inp: Input, reserve: bool, probe: Option<nat>): set<nat>
    requires WellFormed(inp)
  {
    Preferred(inp, Effective(inp, reserve, probe), Pool(inp)) - Whole(probe)
  }

  ghost function Whole(probe: Option<nat>): set<nat>
  {
    if probe.Some? then {probe.value} else {}
  }

  // ------------------------------------------------------- candidate lists

  ghost predicate Unique(cs: seq<Candidate>)
  {
    forall i, j :: 0 <= i < j < |cs| ==> cs[i].index != cs[j].index
  }

  /** The list holds exactly the candidates of the index set, each once. */
  ghost predicate Lists(inp: Input, pens: seq<nat>, cs: seq<Candidate>, s: set<nat>)
    requires |pens| == |inp.targets|
  {
    && Unique(cs)
    && (forall k :: 0 <= k < |cs| ==>
          cs[k].index in s && cs[k].index in Pool(inp) && cs[k] == CandidateAt(inp, pens, cs[k].index))
    && (forall i :: i in s ==> i in Pool(inp) && CandidateAt(inp, pens, i) in cs)
  }

  /** By score, then (for unknown routes) by last attempt with never tried first, then by position. */
  predicate Precedes(byAge: bool, a: Candidate, b: Candidate)
  {
    || a.score < b.score
    || (a.score == b.score && byAge && a.lastAttempt < b.lastAttempt)
    || (a.score == b.score && (byAge ==> a.lastAttempt == b.lastAttempt) && a.index < b.index)
  }

  ghost predicate Sorted(byAge: bool, cs: seq<Candidate>)
  {
    forall i, j :: 0 <= i < j < |cs| ==> Precedes(byAge, cs[i], cs[j])
  }

  lemma ListedOnce(inp: Input, pens: seq<nat>, cs: seq<Candidate>, s: set<nat>)
    requires |pens| == |inp.targets| && Lists(inp, pens, cs, s)
    ensures |cs| == |s|
    decreases |cs|
  {
    if cs == [] {
      assert s == {};
    } else {
      var last := cs[|cs| - 1];
      var front := cs[..|cs| - 1];
      forall i | i in s - {last.index} ensures CandidateAt(inp, pens, i) in front {
        assert CandidateAt(inp, pens, i) in cs;
      }
      ListedOnce(inp, pens, front, s - {last.index});
    }
  }

  /** Stable insertion sort; the orders are total on positions, so the result is the sorted list. */
  method SortCandidates(byAge: bool, cs: seq<Candidate>) returns (r: seq<Candidate>)
    requires Unique(cs)
    ensures Sorted(byAge, r) && Unique(r) && |r| == |cs|
    ensures forall c :: c in r <==> c in cs
  {
    r := [];
    for n := 0 to |cs|
      invariant Sorted(byAge, r) && Unique(r) && |r| == n
      invariant forall c :: c in r <==> c in cs[..n]
    {
      var k := n;
      while k > 0 && Precedes(byAge, cs[n], r[k - 1])
        invariant 0 <= k <= n
        invariant forall j :: k <= j < n ==> Precedes(byAge, cs[n], r[j])
      {
        k := k - 1;
      }
      SortedBefore(byAge, r, k, cs[n], cs[..n]);
      InsertionSorts(byAge, r, k, cs[n]);
      InsertionKeepsUnique(r, k, cs[n], cs[..n]);
      r := r[..k] + [cs[n]] + r[k..];
      assert cs[..n + 1] == cs[..n] + [cs[n]];
    }
    assert cs[..|cs|] == cs;
  }

  lemma SortedBefore(byAge: bool, r: seq<Candidate>, k: nat, c: Candidate, source: seq<Candidate>)
    requires k <= |r| && Sorted(byAge, r)
    requires forall d :: d in r <==> d in source
    requires forall i :: 0 <= i < |source| ==> source[i].index != c.index
    requires k > 0 ==> !Precedes(byAge, c, r[k - 1])
    ensures forall j :: 0 <= j < k ==> Precedes(byAge, r[j], c)
  {
    if k > 0 {
      assert r[k - 1] in source;
      assert Precedes(byAge, r[k - 1], c);
    }
  }

  lemma InsertionSorts(byAge: bool, r: seq<Candidate>, k: nat, c: Candidate)
    requires k <= |r| && Sorted(byAge, r)
    requires forall j :: 0 <= j < k ==> Precedes(byAge, r[j], c)
    requires forall j :: k <= j < |r| ==> Precedes(byAge, c, r[j])
    ensures Sorted(byAge, r[..k] + [c] + r[k..])
  {
    hide Precedes;
  }

  lemma InsertionKeepsUnique(r: seq<Candidate>, k: nat, c: Candidate, source: seq<Candidate>)
    requires k <= |r| && Unique(r)
    requires forall d :: d in r <==> d in source
    requires forall i :: 0 <= i < |source| ==> source[i].index != c.index
    ensures Unique(r[..k] + [c] + r[k..])
    ensures forall d :: d in r[..k] + [c] + r[k..] <==> d in r || d == c
  {
    forall j | 0 <= j < |r| ensures r[j].index != c.index {
      assert r[j] in source;
    }
    assert r == r[..k] + r[k..];
  }

  lemma SameListing(inp: Input, pens: seq<nat>, cs: seq<Candidate>, r: seq<Candidate>, s: set<nat>)
    requires |pens| == |inp.targets| && Lists(inp, pens, cs, s) && Unique(r)
    requires forall c :: c in r <==> c in cs
    ensures Lists(inp, pens, r, s)
  {
    forall k | 0 <= k < |r| ensures r[k] in cs {
      assert r[k] in r;
    }
  }

  // ----------------------------------------------------------- classification

  ghost function UpTo(s: set<nat>, n: nat): set<nat>
  {
    set i | i in s && i < n
  }

  ghost function SeenUpTo(inp: Input, n: nat): set<string>
    requires n <= |inp.targets|
  {
    set j | 0 <= j < n && inp.targets[j].Target? :: inp.targets[j].address
  }

  lemma ListExtended(inp: Input, pens: seq<nat>, cs: seq<Candidate>, s: set<nat>, n: nat)
    requires |pens| == |inp.targets| && Lists(inp, pens, cs, s) && n !in s && n in Pool(inp)
    ensures Lists(inp, pens, cs + [CandidateAt(inp, pens, n)], s + {n})
  {
    hide CandidateAt, Pool;
    CandidateIndex(inp, pens, n);
  }

  lemma CandidateIndex(inp: Input, pens: seq<nat>, n: nat)
    requires |pens| == |inp.targets| && n in Pool(inp)
    ensures CandidateAt(inp, pens, n).index == n
  {
  }

  method Classify(inp: Input, pens: seq<nat>) returns (unobserved: seq<Candidate>, observed: seq<Candidate>, any: bool)
    requires |pens| == |inp.targets|
    ensures Lists(inp, pens, unobserved, Unknown(inp)) && Lists(inp, pens, observed, Known(inp))
    ensures any == SomeUnpenalised(inp, pens)
  {
    hide Lists, Listed, Pool, Known, Unknown, UpTo, SeenUpTo, FreeUpTo, SomeUnpenalised;
    unobserved, observed, any := [], [], false;
    var seen: set<string> := {};
    EmptyLists(inp, pens);
    UpToEnds(inp);
    FreeEnds(inp, pens);
    for n := 0 to |inp.targets|
      invariant forall a :: a in seen <==> a in SeenUpTo(inp, n) && a != "" && a !in inp.excluded
      invariant Lists(inp, pens, unobserved, UpTo(Unknown(inp), n))
      invariant Lists(inp, pens, observed, UpTo(Known(inp), n))
      invariant any == FreeUpTo(inp, pens, n)
    {
      ClassifyStep(inp, n);
      FreeStep(inp, pens, n);
      var target := inp.targets[n];
      if target.NoTarget? || target.address == "" || target.address in inp.excluded || target.address in seen {
        continue;
      }
      seen := seen + {target.address};
      var state := RouteAt(inp, n);
      if !state.observed {
        ListExtended(inp, pens, unobserved, UpTo(Unknown(inp), n), n);
        unobserved := unobserved + [CandidateAt(inp, pens, n)];
        any := any || pens[n] == 0;
      } else if !state.open {
        ListExtended(inp, pens, observed, UpTo(Known(inp), n), n);
        observed := observed + [CandidateAt(inp, pens, n)];
        any := any || pens[n] == 0;
      }
    }
  }

  ghost predicate FreeUpTo(inp: Input, pens: seq<nat>, n: nat)
    requires |pens| == |inp.targets|
  {
    exists i :: i in Pool(inp) && i < n && pens[i] == 0
  }

  lemma FreeStep(inp: Input, pens: seq<nat>, n: nat)
    requires n < |pens| == |inp.targets|
    ensures FreeUpTo(inp, pens, n + 1) == (FreeUpTo(inp, pens, n) || (Admissible(inp, n) && pens[n] == 0))
  {
    hide Listed;
    assert Admissible(inp, n) <==> n in Pool(inp);
    if FreeUpTo(inp, pens, n + 1) {
      var i :| i in Pool(inp) && i < n + 1 && pens[i] == 0;
      assert i < n ==> FreeUpTo(inp, pens, n);
    }
  }

  lemma FreeEnds(inp: Input, pens: seq<nat>)
    requires |pens| == |inp.targets|
    ensures !FreeUpTo(inp, pens, 0) && FreeUpTo(inp, pens, |inp.targets|) == SomeUnpenalised(inp, pens)
  {
    if SomeUnpenalised(inp, pens) {
      var i :| i in Pool(inp) && pens[i] == 0;
      assert i < |inp.targets|;
    }
  }

  lemma UpToEnds(inp: Input)
    ensures UpTo(Unknown(inp), 0) == {} && UpTo(Known(inp), 0) == {} && UpTo(Pool(inp), 0) == {}
    ensures SeenUpTo(inp, 0) == {}
    ensures UpTo(Unknown(inp), |inp.targets|) == Unknown(inp) && UpTo(Known(inp), |inp.targets|) == Known(inp)
    ensures UpTo(Pool(inp), |inp.targets|) == Pool(inp)
  {
  }

  lemma EmptyLists(inp: Input, pens: seq<nat>)
    requires |pens| == |inp.targets|
    ensures Lists(inp, pens, [], {})
  {
  }

  lemma ClassifyStep(inp: Input, n: nat)
    requires n < |inp.targets|
    ensures Listed(inp, n) <==>
      && inp.targets[n].Target? && inp.targets[n].address != ""
      && inp.targets[n].address !in inp.excluded && inp.targets[n].address !in SeenUpTo(inp, n)
    ensures SeenUpTo(inp, n + 1) ==
      SeenUpTo(inp, n) + (if inp.targets[n].Target? then {inp.targets[n].address} else {})
    ensures UpTo(Pool(inp), n + 1) == if Admissible(inp, n) then UpTo(Pool(inp), n) + {n} else UpTo(Pool(inp), n)
    ensures UpTo(Known(inp), n + 1) ==
      if Admissible(inp, n) && RouteAt(inp, n).observed then UpTo(Known(inp), n) + {n} else UpTo(Known(inp), n)
    ensures UpTo(Unknown(inp), n + 1) ==
      if Admissible(inp, n) && !RouteAt(inp, n).observed then UpTo(Unknown(inp), n) + {n} else UpTo(Unknown(inp), n)
    ensures Admissible(inp, n) ==> n in Pool(inp)
    ensures n !in UpTo(Known(inp), n) && n !in UpTo(Unknown(inp), n)
  {
    if inp.targets[n].Target? && inp.targets[n].address in SeenUpTo(inp, n) {
      var j :| 0 <= j < n && inp.targets[j].Target? && inp.targets[j].address == inp.targets[n].address;
      assert inp.targets[j] == inp.targets[n];
    }
  }

  // ------------------------------------------------------------------ filters

  ghost function Free(pens: seq<nat>, s: set<nat>): set<nat>
  {
    set i | i in s && i < |pens| && pens[i] == 0
  }

  ghost function Charged(pens: seq<nat>, s: set<nat>): set<nat>
  {
    set i | i in s && i < |pens| && pens[i] > 0
  }

  /** Keeps the candidates whose penalty is zero (or, for probes, positive). */
  method FilterByPenalty(ghost inp: Input, ghost pens: seq<nat>, cs: seq<Candidate>, free: bool, ghost s: set<nat>) returns (r: seq<Candidate>)
    requires |pens| == |inp.targets| && Lists(inp, pens, cs, s)
    ensures Lists(inp, pens, r, if free then Free(pens, s) else Charged(pens, s))
  {
    hide Pool, Base;
    r := [];
    for n := 0 to |cs|
      invariant Unique(r)
      invariant forall c :: c in r <==> c in cs[..n] && (c.penalty == 0) == free
    {
      assert cs[..n + 1] == cs[..n] + [cs[n]];
      if (cs[n].penalty == 0) == free {
        assert forall c :: c in r ==> c.index != cs[n].index;
        r := r + [cs[n]];
      }
    }
    assert cs[..|cs|] == cs;
    FilteredLists(inp, pens, cs, r, s, if free then Free(pens, s) else Charged(pens, s));
  }

  lemma FilteredLists(inp: Input, pens: seq<nat>, cs: seq<Candidate>, r: seq<Candidate>, s: set<nat>, t: set<nat>)
    requires |pens| == |inp.targets| && Lists(inp, pens, cs, s) && Unique(r) && t <= s
    requires forall c :: c in r <==> c in cs && c.index in t
    ensures Lists(inp, pens, r, t)
  {
    hide Pool, Base;
    forall k | 0 <= k < |r| ensures r[k] in cs && r[k].index in t {
      assert r[k] in r;
    }
    forall i | i in t ensures i in Pool(inp) && CandidateAt(inp, pens, i) in r {
      CandidateIndex(inp, pens, i);
    }
  }

  lemma AddressesDiffer(inp: Input, i: nat, j: nat)
    requires i in Pool(inp) && j in Pool(inp) && i != j
    ensures inp.targets[i].address != inp.targets[j].address
  {
    assert inp.targets[i] != inp.targets[j];
  }

  method FilterAddress(inp: Input, ghost pens: seq<nat>, cs: seq<Candidate>, p: nat, ghost s: set<nat>) returns (r: seq<Candidate>)
    requires |pens| == |inp.targets| && Lists(inp, pens, cs, s) && p in Pool(inp)
    ensures Lists(inp, pens, r, s - {p})
  {
    hide Pool, Base;
    ghost var t := s - {p};
    r := [];
    for n := 0 to |cs|
      invariant Unique(r)
      invariant forall c :: c in r <==> c in cs[..n] && c.index in t
    {
      assert cs[..n + 1] == cs[..n] + [cs[n]];
      if cs[n].index != p {
        AddressesDiffer(inp, cs[n].index, p);
      }
      if cs[n].address != AddressOf(inp, p) {
        assert forall c :: c in r ==> c.index != cs[n].index;
        r := r + [cs[n]];
      }
    }
    assert cs[..|cs|] == cs;
    FilteredLists(inp, pens, cs, r, s, t);
  }

  function AddressOf(inp: Input, i: nat): string
  {
    if i < |inp.targets| && inp.targets[i].Target? then inp.targets[i].address else ""
  }

  /** The penalties are asked for again and the scores adjusted in place. */
  method Refresh(inp: Input, cs: seq<Candidate>, ghost s: set<nat>) returns (r: seq<Candidate>, any: bool)
    requires WellFormed(inp) && Lists(inp, inp.penalties, cs, s)
    ensures Lists(inp, inp.refreshed, r, s)
    ensures any == exists i :: i in s && i < |inp.refreshed| && inp.refreshed[i] == 0
  {
    hide Base, RouteAt, Pool;
    r, any := cs, false;
    for n := 0 to |cs|
      invariant |r| == |cs|
      invariant forall k :: 0 <= k < n ==> r[k] == CandidateAt(inp, inp.refreshed, cs[k].index)
      invariant forall k :: n <= k < |cs| ==> r[k] == cs[k]
      invariant any == exists k :: 0 <= k < n && inp.refreshed[cs[k].index] == 0
    {
      var penalty := inp.refreshed[cs[n].index];
      r := r[n := cs[n].(score := cs[n].score + penalty - cs[n].penalty, penalty := penalty)];
      any := any || penalty == 0;
    }
    RefreshedLists(inp, cs, r, s);
  }

  lemma RefreshedLists(inp: Input, cs: seq<Candidate>, r: seq<Candidate>, s: set<nat>)
    requires WellFormed(inp) && Lists(inp, inp.penalties, cs, s) && |r| == |cs|
    requires forall k :: 0 <= k < |cs| ==> r[k] == CandidateAt(inp, inp.refreshed, cs[k].index)
    ensures Lists(inp, inp.refreshed, r, s)
    ensures (exists k :: 0 <= k < |cs| && inp.refreshed[cs[k].index] == 0) <==>
      exists i :: i in s && i < |inp.refreshed| && inp.refreshed[i] == 0
  {
    hide Base, RouteAt, Pool;
    forall i | i in s ensures CandidateAt(inp, inp.refreshed, i) in r && exists k :: 0 <= k < |cs| && cs[k].index == i {
      assert CandidateAt(inp, inp.penalties, i) in cs;
      var k :| 0 <= k < |cs| && cs[k] == CandidateAt(inp, inp.penalties, i);
      assert r[k] == CandidateAt(inp, inp.refreshed, i);
    }
  }

  // -------------------------------------------------------------- the probe

  lemma ListsJoin(inp: Input, pens: seq<nat>, a: seq<Candidate>, b: seq<Candidate>, s: set<nat>, t: set<nat>)
    requires |pens| == |inp.targets| && Lists(inp, pens, a, s) && Lists(inp, pens, b, t) && s !! t
    ensures Lists(inp, pens, a + b, s + t)
  {
    hide CandidateAt, Pool;
  }

  lemma PoolSplits(inp: Input)
    ensures Pool(inp) == Unknown(inp) + Known(inp) && Unknown(inp) !! Known(inp)
  {
  }

  method ReserveProbe(inp: Input, unobserved: seq<Candidate>, observed: seq<Candidate>)
    returns (probe: Option<nat>, asked: bool)
    requires WellFormed(inp)
    requires Lists(inp, inp.penalties, unobserved, Unknown(inp)) && Lists(inp, inp.penalties, observed, Known(inp))
    ensures ProbeIs(inp, true, probe)
    ensures asked == exists i :: i in Pool(inp) && i < |inp.penalties| && inp.penalties[i] > 0
  {
    hide Lists, Base, Listed, Pool, Unknown, Known, Precedes, Sorted, Unique;
    var a := FilterByPenalty(inp, inp.penalties, unobserved, false, Unknown(inp));
    var b := FilterByPenalty(inp, inp.penalties, observed, false, Known(inp));
    PoolSplits(inp);
    ListsJoin(inp, inp.penalties, a, b, Charged(inp.penalties, Unknown(inp)), Charged(inp.penalties, Known(inp)));
    ghost var charged := Charged(inp.penalties, Pool(inp));
    assert charged == Charged(inp.penalties, Unknown(inp)) + Charged(inp.penalties, Known(inp));
    ListsAreUnique(inp, inp.penalties, a + b, charged);
    var cs := SortCandidates(false, a + b);
    SameListing(inp, inp.penalties, a + b, cs, charged);
    ListMembers(inp, inp.penalties, cs, charged);
    asked := cs != [];
    probe := None;
    for n := 0 to |cs|
      invariant forall k :: 0 <= k < n ==> inp.claims[cs[k].index] == 0
    {
      if inp.claims[cs[n].index] != 0 {
        FirstClaim(inp, cs, n);
        return Some(cs[n].index), asked;
      }
    }
    NoClaim(inp, cs);
  }

  lemma ListsAreUnique(inp: Input, pens: seq<nat>, cs: seq<Candidate>, s: set<nat>)
    requires |pens| == |inp.targets| && Lists(inp, pens, cs, s)
    ensures Unique(cs)
  {
  }

  lemma ListMembers(inp: Input, pens: seq<nat>, cs: seq<Candidate>, s: set<nat>)
    requires |pens| == |inp.targets| && Lists(inp, pens, cs, s)
    ensures forall k :: 0 <= k < |cs| ==> cs[k].index in s && cs[k].index in Pool(inp) && cs[k].index < |inp.targets|
    ensures forall k :: 0 <= k < |cs| ==> cs[k] == CandidateAt(inp, pens, cs[k].index)
    ensures cs == [] <==> s == {}
  {
    hide CandidateAt;
    if cs != [] {
      assert cs[0].index in s;
    }
    if s != {} {
      var i :| i in s;
      assert CandidateAt(inp, pens, i) in cs;
    }
  }

  lemma FirstClaim(inp: Input, cs: seq<Candidate>, n: nat)
    requires WellFormed(inp) && n < |cs|
    requires Lists(inp, inp.penalties, cs, Charged(inp.penalties, Pool(inp))) && Sorted(false, cs)
    requires forall k :: 0 <= k < |cs| ==> cs[k].index < |inp.claims|
    requires forall k :: 0 <= k < n ==> inp.claims[cs[k].index] == 0
    requires inp.claims[cs[n].index] != 0
    ensures ProbeIs(inp, true, Some(cs[n].index))
  {
    hide CandidateAt, Precedes, Pool;
    var p := cs[n].index;
    forall i | i in Pool(inp) && i != p && ClaimSucceeds(inp, i)
      ensures Precedes(false, CandidateAt(inp, inp.penalties, p), CandidateAt(inp, inp.penalties, i))
    {
      CandidateIndex(inp, inp.penalties, i);
      assert CandidateAt(inp, inp.penalties, i) in cs;
      var k :| 0 <= k < |cs| && cs[k] == CandidateAt(inp, inp.penalties, i);
      assert n < k;
    }
  }

  lemma NoClaim(inp: Input, cs: seq<Candidate>)
    requires WellFormed(inp)
    requires Lists(inp, inp.penalties, cs, Charged(inp.penalties, Pool(inp)))
    requires forall k :: 0 <= k < |cs| ==> cs[k].index < |inp.claims| && inp.claims[cs[k].index] == 0
    ensures ProbeIs(inp, true, None)
  {
    hide CandidateAt, Pool;
    forall i | i in Pool(inp) ensures !ClaimSucceeds(inp, i) {
      if inp.penalties[i] > 0 {
        CandidateIndex(inp, inp.penalties, i);
        assert CandidateAt(inp, inp.penalties, i) in cs;
      }
    }
  }

  // ------------------------------------------------------------ the ranking

  function Picked(c: Candidate): Selection
  {
    Selection(c.index, c.address, 0, false)
  }

  function Picks(cs: seq<Candidate>): (r: seq<Selection>)
    ensures |r| == |cs| && forall k :: 0 <= k < |cs| ==> r[k] == Picked(cs[k])
  {
    seq(|cs|, k requires 0 <= k < |cs| => Picked(cs[k]))
  }

  /** The first known route with a latency sample. */
  function BestKnown(observed: seq<Candidate>): (b: nat)
    ensures b <= |observed| && (b < |observed| ==> observed[b].hasEwma)
    ensures forall k :: 0 <= k < b ==> !observed[k].hasEwma
  {
    if observed == [] || observed[0].hasEwma then 0 else 1 + BestKnown(observed[1..])
  }

  /** With unknown routes present the best known one is served before them. */
  function Ordered(unobserved: seq<Candidate>, observed: seq<Candidate>): seq<Candidate>
  {
    var b := BestKnown(observed);
    if unobserved != [] && b < |observed| then
      [observed[b]] + unobserved + Skipping(observed, b)
    else unobserved + observed
  }

  function Skipping(cs: seq<Candidate>, b: nat): (r: seq<Candidate>)
    requires b < |cs|
    ensures |r| == |cs| - 1
    ensures forall n :: 0 <= n < b ==> r[n] == cs[n]
    ensures forall n :: b < n < |cs| ==> r[n - 1] == cs[n]
  {
    cs[..b] + cs[b + 1..]
  }

  function Ranking(lead: seq<Selection>, unobserved: seq<Candidate>, observed: seq<Candidate>): seq<Selection>
  {
    lead + Picks(Ordered(unobserved, observed))
  }

  predicate Promoted(unobserved: seq<Candidate>, observed: seq<Candidate>)
  {
    unobserved != [] && BestKnown(observed) < |observed|
  }

  function Lifted(unobserved: seq<Candidate>, observed: seq<Candidate>): nat
  {
    if Promoted(unobserved, observed) then 1 else 0
  }

  lemma RankingShape(lead: seq<Selection>, unobserved: seq<Candidate>, observed: seq<Candidate>)
    ensures |Ranking(lead, unobserved, observed)| == |lead| + |unobserved| + |observed|
    ensures Ranking(lead, unobserved, observed)[..|lead|] == lead
    ensures Promoted(unobserved, observed) ==>
      Ranking(lead, unobserved, observed)[|lead|] == Picked(observed[BestKnown(observed)])
  {
  }

  lemma UnknownAt(lead: seq<Selection>, unobserved: seq<Candidate>, observed: seq<Candidate>, n: nat)
    requires n < |unobserved|
    ensures |Ranking(lead, unobserved, observed)| == |lead| + |unobserved| + |observed|
    ensures |lead| + Lifted(unobserved, observed) + n < |Ranking(lead, unobserved, observed)|
    ensures Ranking(lead, unobserved, observed)[|lead| + Lifted(unobserved, observed) + n] == Picked(unobserved[n])
  {
  }

  lemma KnownAt(lead: seq<Selection>, unobserved: seq<Candidate>, observed: seq<Candidate>, n: nat)
    requires n < |observed| && !(Promoted(unobserved, observed) && n == BestKnown(observed))
    ensures |Ranking(lead, unobserved, observed)| == |lead| + |unobserved| + |observed|
    ensures var k := |lead| + |unobserved| + n + (if Promoted(unobserved, observed) && n < BestKnown(observed) then 1 else 0);
      k < |Ranking(lead, unobserved, observed)| && Ranking(lead, unobserved, observed)[k] == Picked(observed[n])
  {
    hide Ordered;
    OrderedAt(unobserved, observed, n);
  }

  lemma OrderedAt(unobserved: seq<Candidate>, observed: seq<Candidate>, n: nat)
    requires n < |observed| && !(Promoted(unobserved, observed) && n == BestKnown(observed))
    ensures |Ordered(unobserved, observed)| == |unobserved| + |observed|
    ensures var k := |unobserved| + n + (if Promoted(unobserved, observed) && n < BestKnown(observed) then 1 else 0);
      k < |unobserved| + |observed| && Ordered(unobserved, observed)[k] == observed[n]
  {
    hide BestKnown, Skipping;
    var b := BestKnown(observed);
    if Promoted(unobserved, observed) {
      var m := if n < b then n else n - 1;
      assert Skipping(observed, b)[m] == observed[n];
      PastHead([observed[b]] + unobserved, Skipping(observed, b), m);
    } else {
      PastHead(unobserved, observed, n);
    }
  }

  lemma PastHead(head: seq<Candidate>, cs: seq<Candidate>, m: nat)
    requires m < |cs|
    ensures (head + cs)[|head| + m] == cs[m]
  {
  }

  /** The append loops: a prefix of the ranking, as long as the limit allows. */
  method Assemble(lead: seq<Selection>, unobserved: seq<Candidate>, observed: seq<Candidate>, limit: nat)
    returns (selected: seq<Selection>)
    requires |lead| <= limit <= |lead| + |unobserved| + |observed|
    ensures |Ranking(lead, unobserved, observed)| == |lead| + |unobserved| + |observed|
    ensures selected == Ranking(lead, unobserved, observed)[..limit]
  {
    hide Ranking, Ordered;
    ghost var all := Ranking(lead, unobserved, observed);
    RankingShape(lead, unobserved, observed);
    selected := lead;
    var best := 0;
    while best < |observed| && !observed[best].hasEwma
      invariant 0 <= best <= BestKnown(observed)
    {
      best := best + 1;
    }
    var moved := unobserved != [] && best < |observed|;
    assert moved == Promoted(unobserved, observed);
    if |selected| < limit && moved {
      selected := selected + [Picked(observed[best])];
    }
    assert selected == all[..|selected|];
    for n := 0 to |unobserved|
      invariant |selected| <= limit && selected == all[..|selected|]
      invariant |selected| == |lead| + n + Lifted(unobserved, observed) || (n == 0 && |selected| == |lead| == limit)
    {
      if |selected| == limit {
        return;
      }
      UnknownAt(lead, unobserved, observed, n);
      selected := selected + [Picked(unobserved[n])];
    }
    selected := AppendKnown(lead, unobserved, observed, limit, best, moved, selected);
  }

  method AppendKnown(
    lead: seq<Selection>, unobserved: seq<Candidate>, observed: seq<Candidate>, limit: nat, best: nat, moved: bool,
    sofar: seq<Selection>) returns (selected: seq<Selection>)
    requires moved == Promoted(unobserved, observed) && best == BestKnown(observed)
    requires |sofar| == |lead| + |unobserved| + Lifted(unobserved, observed) <= limit <= |lead| + |unobserved| + |observed|
    requires |Ranking(lead, unobserved, observed)| == |lead| + |unobserved| + |observed|
    requires sofar == Ranking(lead, unobserved, observed)[..|sofar|]
    ensures selected == Ranking(lead, unobserved, observed)[..limit]
  {
    hide Ranking, Ordered;
    selected := sofar;
    for n := 0 to |observed|
      invariant |selected| == |sofar| + n - (if moved && best < n then 1 else 0) <= limit
      invariant selected == Ranking(lead, unobserved, observed)[..|selected|]
    {
      if |selected| == limit {
        break;
      }
      if n == best && moved {
        continue;
      }
      KnownAt(lead, unobserved, observed, n);
      selected := selected + [Picked(observed[n])];
    }
  }

  lemma OrderedMembers(unobserved: seq<Candidate>, observed: seq<Candidate>, c: Candidate)
    ensures c in Ordered(unobserved, observed) <==> c in unobserved + observed
  {
    var b := BestKnown(observed);
    if Promoted(unobserved, observed) {
      assert observed == observed[..b] + [observed[b]] + observed[b + 1..];
    }
  }

  lemma OrderedUnique(unobserved: seq<Candidate>, observed: seq<Candidate>)
    requires Unique(unobserved + observed)
    ensures Unique(Ordered(unobserved, observed))
  {
    var b := BestKnown(observed);
    var all := unobserved + observed;
    if Promoted(unobserved, observed) {
      var r := Ordered(unobserved, observed);
      forall i, j | 0 <= i < j < |r| ensures r[i].index != r[j].index {
        var x := Origin(|unobserved|, b, i);
        var y := Origin(|unobserved|, b, j);
        assert r[i] == all[x] && r[j] == all[y];
      }
    }
  }

  /** Where the ranked candidate at position i sits in the plain concatenation. */
  function Origin(unknown: nat, b: nat, i: nat): nat
  {
    if i == 0 then unknown + b
    else if i <= unknown + b then i - 1
    else i
  }

  lemma RankingLists(inp: Input, pens: seq<nat>, u: seq<Candidate>, o: seq<Candidate>, a: set<nat>, b: set<nat>)
    requires |pens| == |inp.targets| && Lists(inp, pens, u, a) && Lists(inp, pens, o, b) && a !! b
    ensures Lists(inp, pens, Ordered(u, o), a + b)
  {
    hide Lists, Ordered;
    ListsJoin(inp, pens, u, o, a, b);
    ListsAreUnique(inp, pens, u + o, a + b);
    OrderedUnique(u, o);
    forall c ensures c in Ordered(u, o) <==> c in u + o {
      OrderedMembers(u, o, c);
    }
    SameListing(inp, pens, u + o, Ordered(u, o), a + b);
  }

  // ----------------------------------------------------------- the explorer

  predicate Due(c: Candidate, now: Time)
  {
    c.lastAttempt == 0 || now - c.lastAttempt >= EXPLORATION_AFTER
  }

  predicate Staler(a: Candidate, b: Candidate)
  {
    a.lastAttempt < b.lastAttempt || (a.lastAttempt == b.lastAttempt && a.index < b.index)
  }

  /** The stalest due route besides the best one. */
  ghost predicate IsExplorer(observed: seq<Candidate>, best: string, now: Time, c: Candidate)
  {
    && c in observed && c.address != best && Due(c, now)
    && forall d :: d in observed && d.address != best && Due(d, now) && d != c ==> Staler(c, d)
  }

  method FindExplorer(observed: seq<Candidate>, best: string, now: Time) returns (explorer: Option<Candidate>)
    requires Unique(observed)
    ensures explorer.Some? ==> IsExplorer(observed, best, now, explorer.value)
    ensures explorer.None? ==> forall c :: c in observed ==> c.address == best || !Due(c, now)
  {
    explorer := None;
    for n := 0 to |observed|
      invariant explorer.Some? ==> IsExplorer(observed[..n], best, now, explorer.value)
      invariant explorer.None? ==> forall c :: c in observed[..n] ==> c.address == best || !Due(c, now)
    {
      var c := observed[n];
      assert observed[..n + 1] == observed[..n] + [c];
      assert forall d :: d in observed[..n] ==> d.index != c.index;
      if c.address == best {
        continue;
      }
      if c.lastAttempt != 0 && now - c.lastAttempt < EXPLORATION_AFTER {
        continue;
      }
      if explorer.None? || c.lastAttempt < explorer.value.lastAttempt
         || (c.lastAttempt == explorer.value.lastAttempt && c.index < explorer.value.index) {
        explorer := Some(c);
      }
    }
    assert observed[..|observed|] == observed;
  }

  /** The second place changes hands with a later one, or is given to a route the limit had cut off. */
  ghost predicate Explored(selected: seq<Selection>, r: seq<Selection>, c: Candidate)
  {
    && 1 < |selected| == |r|
    && (|| (exists k :: 1 < k < |selected| && selected[k].address == c.address
                    && r == selected[1 := selected[k].(explorer := true)][k := selected[1]])
        || (&& (forall k :: 1 <= k < |selected| ==> selected[k].address != c.address)
            && r == selected[1 := Selection(c.index, c.address, 0, true)]))
  }

  /** The explorer, if some route is due, holds the second place: it had it already, or it is given to it. */
  ghost predicate ExplorerPlaced(plain: seq<Selection>, r: seq<Selection>, observed: seq<Candidate>, now: Time)
    requires |plain| > 1
  {
    if forall c :: c in observed ==> c.address == plain[0].address || !Due(c, now) then r == plain
    else
      exists c :: c in observed && IsExplorer(observed, plain[0].address, now, c) &&
        if plain[1].address == c.address then r == plain else Explored(plain, r, c)
  }

  method PlaceExplorer(selected: seq<Selection>, observed: seq<Candidate>, now: Time) returns (r: seq<Selection>)
    requires |selected| > 1 && Unique(observed)
    ensures ExplorerPlaced(selected, r, observed, now)
  {
    r := selected;
    var explorer := FindExplorer(observed, selected[0].address, now);
    if explorer.Some? {
      var c := explorer.value;
      assert !(c.address == selected[0].address || !Due(c, now));
      var k := 1;
      while k < |selected| && selected[k].address != c.address
        invariant 1 <= k <= |selected|
        invariant forall j :: 1 <= j < k ==> selected[j].address != c.address
      {
        k := k + 1;
      }
      if k == 1 {
      } else if k < |selected| {
        r := selected[1 := selected[k].(explorer := true)][k := selected[1]];
        assert Explored(selected, r, c);
      } else {
        r := selected[1 := Selection(c.index, c.address, 0, true)];
        assert Explored(selected, r, c);
      }
    }
  }

  // ------------------------------------------------------------ the selection

  lemma PreferredIs(inp: Input, pens: seq<nat>, s: set<nat>, w: set<nat>)
    requires |pens| == |inp.targets| && s <= Pool(inp)
    ensures Preferred(inp, pens, s) - w == if SomeUnpenalised(inp, pens) then Free(pens, s - w) else s - w
  {
    hide Pool, SomeUnpenalised;
    if SomeUnpenalised(inp, pens) {
      assert Preferred(inp, pens, s) - w == Free(pens, s - w);
    } else {
      assert Preferred(inp, pens, s) == s;
    }
  }

  /** Classification, probe reservation, refresh and filters: the two lists that will be ranked. */
  method Narrow(inp: Input, reserve: bool)
    returns (probe: Option<nat>, unobserved: seq<Candidate>, observed: seq<Candidate>)
    requires WellFormed(inp)
    ensures ProbeIs(inp, reserve, probe) && (probe.Some? ==> probe.value in Pool(inp))
    ensures var pens := Effective(inp, reserve, probe);
      && Lists(inp, pens, unobserved, Preferred(inp, pens, Unknown(inp)) - Whole(probe))
      && Lists(inp, pens, observed, Preferred(inp, pens, Known(inp)) - Whole(probe))
  {
    hide Lists, Pool, Known, Unknown, Preferred, SomeUnpenalised, Free;
    var any;
    probe := None;
    unobserved, observed, any := Classify(inp, inp.penalties);
    ghost var pens, u, o := inp.penalties, Unknown(inp), Known(inp);
    PoolSplits(inp);
    if reserve {
      var asked;
      probe, asked := ReserveProbe(inp, unobserved, observed);
      if probe.None? && asked {
        var again, alsoAgain;
        unobserved, again := Refresh(inp, unobserved, u);
        observed, alsoAgain := Refresh(inp, observed, o);
        any := again || alsoAgain;
        pens := inp.refreshed;
        UnpenalisedSplits(inp, pens);
      }
      if probe.Some? {
        unobserved := FilterAddress(inp, pens, unobserved, probe.value, u);
        observed := FilterAddress(inp, pens, observed, probe.value, o);
      }
    }
    u, o := u - Whole(probe), o - Whole(probe);
    assert probe.None? ==> u == Unknown(inp) && o == Known(inp);
    if any {
      unobserved := FilterByPenalty(inp, pens, unobserved, true, u);
      observed := FilterByPenalty(inp, pens, observed, true, o);
    }
    PreferredIs(inp, pens, Unknown(inp), Whole(probe));
    PreferredIs(inp, pens, Known(inp), Whole(probe));
  }

  lemma UnpenalisedSplits(inp: Input, pens: seq<nat>)
    requires |pens| == |inp.targets|
    ensures SomeUnpenalised(inp, pens) <==>
      || (exists i :: i in Unknown(inp) && i < |pens| && pens[i] == 0)
      || (exists i :: i in Known(inp) && i < |pens| && pens[i] == 0)
  {
    hide Unknown, Known, Pool;
    PoolSplits(inp);
    if SomeUnpenalised(inp, pens) {
      var i :| i in Pool(inp) && pens[i] == 0;
      assert i in Unknown(inp) || i in Known(inp);
    }
  }

  function LeadingProbe(selected: seq<Selection>): Option<nat>
  {
    if selected != [] && selected[0].probe != 0 then Some(selected[0].index) else None
  }

  /** The admissible targets of this call: the ranked ones and the reserved probe. */
  ghost function Offered(inp: Input, reserve: bool, probe: Option<nat>): set<nat>
    requires WellFormed(inp)
  {
    Ranked(inp, reserve, probe) + Whole(probe)
  }

  /** Entries are offered targets under their own address, at most the first one a probe; addresses never repeat. */
  ghost predicate Distinct(inp: Input, offered: set<nat>, selected: seq<Selection>)
  {
    && (forall k :: 0 <= k < |selected| ==> selected[k].index in offered && selected[k].address == AddressOf(inp, selected[k].index))
    && (forall k :: 1 <= k < |selected| ==> selected[k].probe == 0)
    && (forall i, j :: 0 <= i < j < |selected| ==> selected[i].address != selected[j].address)
  }

  ghost predicate Complete(offered: set<nat>, selected: seq<Selection>)
  {
    forall i :: i in offered ==> exists k :: 0 <= k < |selected| && selected[k].index == i
  }

  function Min(a: int, b: int): int
  {
    if a < b then a else b
  }

  /** Only the second place may be an explorer: the stalest due route, when nothing is unknown and no probe is reserved. */
  ghost predicate ExplorerSound(inp: Input, reserve: bool, now: Time, selected: seq<Selection>)
    requires WellFormed(inp)
  {
    forall k :: 0 <= k < |selected| && selected[k].explorer ==>
      && k == 1 && LeadingProbe(selected).None? && Ranked(inp, reserve, None) <= Known(inp)
      && selected[1].index in Pool(inp) && Due(CandidateAt(inp, Effective(inp, reserve, None), selected[1].index), now)
      && forall i :: i in Ranked(inp, reserve, None) && i != selected[0].index && i != selected[1].index ==>
           var c := CandidateAt(inp, Effective(inp, reserve, None), i);
           Due(c, now) ==> Staler(CandidateAt(inp, Effective(inp, reserve, None), selected[1].index), c)
  }

  lemma RankedSplits(inp: Input, reserve: bool, probe: Option<nat>)
    requires WellFormed(inp)
    ensures var pens := Effective(inp, reserve, probe);
      var u, o := Preferred(inp, pens, Unknown(inp)) - Whole(probe), Preferred(inp, pens, Known(inp)) - Whole(probe);
      u !! o && Ranked(inp, reserve, probe) == u + o && o <= Known(inp)
  {
    hide Unknown, Known, Pool, SomeUnpenalised, Effective;
    PoolSplits(inp);
  }

  lemma SmallPool(inp: Input, s: set<nat>)
    requires s <= Pool(inp)
    ensures |s| <= |inp.targets|
  {
    hide Listed;
    BoundedSet(s, |inp.targets|);
  }

  lemma {:induction false} BoundedSet(s: set<nat>, n: nat)
    requires forall i :: i in s ==> i < n
    ensures |s| <= n
  {
    if n == 0 {
      assert s == {};
    } else {
      BoundedSet(s - {n - 1}, n - 1);
    }
  }

  function Lead(inp: Input, probe: Option<nat>): seq<Selection>
    requires WellFormed(inp) && (probe.Some? ==> probe.value < |inp.targets|)
  {
    if probe.Some? then [Selection(probe.value, AddressOf(inp, probe.value), inp.claims[probe.value], false)] else []
  }

  /** The full ranking: offered targets of the pool under their own address, each once. */
  ghost predicate Entries(inp: Input, s: set<nat>, r: seq<Selection>)
  {
    && (forall k :: 0 <= k < |r| ==>
          r[k].index in s && r[k].index in Pool(inp) && r[k].address == AddressOf(inp, r[k].index))
    && (forall k :: 1 <= k < |r| ==> r[k].probe == 0)
    && (forall i, j :: 0 <= i < j < |r| ==> r[i].index != r[j].index)
  }

  lemma ListedEntries(inp: Input, pens: seq<nat>, cs: seq<Candidate>, s: set<nat>)
    requires |pens| == |inp.targets| && Lists(inp, pens, cs, s)
    ensures Entries(inp, s, Picks(cs)) && Complete(s, Picks(cs))
    ensures forall k :: 0 <= k < |cs| ==> Picks(cs)[k].probe == 0 && !Picks(cs)[k].explorer
  {
    hide Pool, Base;
    forall i | i in s ensures exists k :: 0 <= k < |cs| && Picks(cs)[k].index == i {
      assert CandidateAt(inp, pens, i) in cs;
      var k :| 0 <= k < |cs| && cs[k] == CandidateAt(inp, pens, i);
      assert Picks(cs)[k].index == i;
    }
  }

  lemma LeadEntries(inp: Input, probe: Option<nat>, rest: seq<Selection>, s: set<nat>)
    requires WellFormed(inp) && (probe.Some? ==> probe.value in Pool(inp)) && s !! Whole(probe)
    requires Entries(inp, s, rest) && Complete(s, rest)
    requires forall k :: 0 <= k < |rest| ==> rest[k].probe == 0
    ensures Entries(inp, s + Whole(probe), Lead(inp, probe) + rest)
    ensures Complete(s + Whole(probe), Lead(inp, probe) + rest)
  {
    hide Pool, AddressOf;
    var r := Lead(inp, probe) + rest;
    if probe.None? {
      assert r == rest && s + Whole(probe) == s;
    } else {
      assert r[1..] == rest;
      forall i | i in s + Whole(probe) ensures exists k :: 0 <= k < |r| && r[k].index == i {
        if i in s {
          var k :| 0 <= k < |rest| && rest[k].index == i;
          assert r[k + 1].index == i;
        } else {
          assert r[0].index == i;
        }
      }
    }
  }

  lemma EntriesDistinct(inp: Input, s: set<nat>, r: seq<Selection>, n: nat)
    requires Entries(inp, s, r) && n <= |r|
    ensures Distinct(inp, s, r[..n])
  {
    hide Pool;
    forall i, j | 0 <= i < j < n ensures r[i].address != r[j].address {
      AddressesDiffer(inp, r[i].index, r[j].index);
    }
  }

  lemma ExploredDistinct(inp: Input, offered: set<nat>, selected: seq<Selection>, r: seq<Selection>, c: Candidate)
    requires Distinct(inp, offered, selected) && Explored(selected, r, c)
    requires c.index in offered && c.address == AddressOf(inp, c.index) && c.address != selected[0].address
    ensures Distinct(inp, offered, r)
  {
  }

  /** Swapping the explorer forward only permutes the list. */
  lemma ExploredPermutes(inp: Input, offered: set<nat>, selected: seq<Selection>, r: seq<Selection>, c: Candidate)
    requires Distinct(inp, offered, selected) && Complete(offered, selected) && Explored(selected, r, c)
    requires c.index in offered && c.address == AddressOf(inp, c.index) && c.address != selected[0].address
    ensures Complete(offered, r) && exists k :: 1 < k < |selected| && r == selected[1 := selected[k].(explorer := true)][k := selected[1]]
  {
    var at :| 0 <= at < |selected| && selected[at].index == c.index;
    assert selected[at].address == c.address;
    var k :| 1 < k < |selected| && r == selected[1 := selected[k].(explorer := true)][k := selected[1]];
    forall i | i in offered ensures exists j :: 0 <= j < |r| && r[j].index == i {
      var j :| 0 <= j < |selected| && selected[j].index == i;
      assert r[if j == 1 then k else if j == k then 1 else j].index == i;
    }
  }

  lemma LeadIsProbe(inp: Input, reserve: bool, probe: Option<nat>, rest: seq<Selection>, cut: nat)
    requires WellFormed(inp) && ProbeIs(inp, reserve, probe) && (probe.Some? ==> probe.value in Pool(inp))
    requires |Lead(inp, probe)| <= cut <= |Lead(inp, probe)| + |rest|
    requires forall k :: 0 <= k < |rest| ==> rest[k].probe == 0 && !rest[k].explorer
    ensures LeadingProbe((Lead(inp, probe) + rest)[..cut]) == probe
    ensures forall k :: 0 <= k < cut ==> !(Lead(inp, probe) + rest)[..cut][k].explorer
  {
    hide Pool;
  }

  lemma OfferedInPool(inp: Input, reserve: bool, probe: Option<nat>)
    requires WellFormed(inp) && (probe.Some? ==> probe.value in Pool(inp))
    ensures Offered(inp, reserve, probe) <= Pool(inp)
  {
    hide Pool, SomeUnpenalised, Effective;
  }

  lemma RankingSound(
    inp: Input, reserve: bool, probe: Option<nat>, unknown: seq<Candidate>, known: seq<Candidate>)
    requires WellFormed(inp) && (probe.Some? ==> probe.value in Pool(inp))
    requires var pens := Effective(inp, reserve, probe);
      && Lists(inp, pens, unknown, Preferred(inp, pens, Unknown(inp)) - Whole(probe))
      && Lists(inp, pens, known, Preferred(inp, pens, Known(inp)) - Whole(probe))
    ensures var r := Ranking(Lead(inp, probe), unknown, known);
      && Entries(inp, Offered(inp, reserve, probe), r) && Complete(Offered(inp, reserve, probe), r)
      && |Offered(inp, reserve, probe)| == |r| <= |inp.targets|
    ensures forall k :: 0 <= k < |Picks(Ordered(unknown, known))| ==>
      Picks(Ordered(unknown, known))[k].probe == 0 && !Picks(Ordered(unknown, known))[k].explorer
  {
    hide Lists, Pool, Preferred, Known, Unknown, Effective, Complete, Entries, Ordered;
    var pens := Effective(inp, reserve, probe);
    var u := Preferred(inp, pens, Unknown(inp)) - Whole(probe);
    var o := Preferred(inp, pens, Known(inp)) - Whole(probe);
    RankedSplits(inp, reserve, probe);
    RankingLists(inp, pens, unknown, known, u, o);
    ListedEntries(inp, pens, Ordered(unknown, known), u + o);
    LeadEntries(inp, probe, Picks(Ordered(unknown, known)), u + o);
    ListedOnce(inp, pens, Ordered(unknown, known), u + o);
    OfferedInPool(inp, reserve, probe);
    SmallPool(inp, Offered(inp, reserve, probe));
  }

  /** What one selection promises, the explorer aside. */
  ghost predicate Sound(inp: Input, reserve: bool, limit: nat, selected: seq<Selection>)
    requires WellFormed(inp)
  {
    var probe := LeadingProbe(selected);
    var offered := Offered(inp, reserve, probe);
    && ProbeIs(inp, reserve, probe)
    && Distinct(inp, offered, selected)
    && |selected| == Min(limit, |offered|)
    && (limit >= |inp.targets| ==> Complete(offered, selected))
  }

  /** The two lists a selection ranks, each complete and in its order. */
  ghost predicate InOrder(inp: Input, reserve: bool, probe: Option<nat>, unknown: seq<Candidate>, known: seq<Candidate>)
    requires WellFormed(inp)
  {
    var pens := Effective(inp, reserve, probe);
    && Sorted(true, unknown) && Sorted(false, known)
    && Lists(inp, pens, unknown, Preferred(inp, pens, Unknown(inp)) - Whole(probe))
    && Lists(inp, pens, known, Preferred(inp, pens, Known(inp)) - Whole(probe))
  }

  /** The front of the ranking: the probe, the best known route, the unknown routes, the other known ones. */
  ghost predicate PlainFront(
    inp: Input, reserve: bool, probe: Option<nat>, unknown: seq<Candidate>, known: seq<Candidate>, plain: seq<Selection>)
    requires WellFormed(inp)
  {
    && (probe.Some? ==> probe.value < |inp.targets|)
    && InOrder(inp, reserve, probe, unknown, known)
    && plain <= Ranking(Lead(inp, probe), unknown, known)
  }

  /** The selection is that front, with the explorer placed when nothing is unknown and no probe is reserved. */
  ghost predicate FrontOfRanking(
    inp: Input, reserve: bool, now: Time, unknown: seq<Candidate>, known: seq<Candidate>, plain: seq<Selection>,
    selected: seq<Selection>)
    requires WellFormed(inp)
  {
    && |plain| == |selected|
    && PlainFront(inp, reserve, LeadingProbe(selected), unknown, known, plain)
    && if LeadingProbe(selected).None? && unknown == [] && |plain| > 1 then ExplorerPlaced(plain, selected, known, now)
       else selected == plain
  }

  method RankTargets(inp: Input, limit: nat, reserve: bool)
    returns (selected: seq<Selection>, unknown: seq<Candidate>, known: seq<Candidate>, settled: bool)
    requires WellFormed(inp) && limit > 0
    ensures Sound(inp, reserve, limit, selected)
    ensures PlainFront(inp, reserve, LeadingProbe(selected), unknown, known, selected)
    ensures settled <==> LeadingProbe(selected).None? && unknown == []
    ensures forall k :: 0 <= k < |selected| ==> !selected[k].explorer
    ensures settled ==> LeadingProbe(selected).None? && Ranked(inp, reserve, None) <= Known(inp)
    ensures settled ==> Lists(inp, Effective(inp, reserve, None), known, Ranked(inp, reserve, None))
  {
    hide Lists, Pool, Preferred, Known, Unknown, Effective, ProbeIs, Sorted, Sound, PlainFront, Ranking, Ranked, Unique;
    var probe, unobserved, observed := Narrow(inp, reserve);
    ghost var pens := Effective(inp, reserve, probe);
    ghost var u := Preferred(inp, pens, Unknown(inp)) - Whole(probe);
    ghost var o := Preferred(inp, pens, Known(inp)) - Whole(probe);
    ListsAreUnique(inp, pens, unobserved, u);
    ListsAreUnique(inp, pens, observed, o);
    unknown := SortCandidates(true, unobserved);
    known := SortCandidates(false, observed);
    SameListing(inp, pens, unobserved, unknown, u);
    SameListing(inp, pens, observed, known, o);
    var lead := Lead(inp, probe);
    var available := |lead| + |unknown| + |known|;
    var cut := if limit > available then available else limit;
    selected := Assemble(lead, unknown, known, cut);
    FrontIsSound(inp, reserve, probe, limit, unknown, known, cut);
    settled := probe.None? && |unknown| == 0;
    if settled {
      NothingUnknown(inp, reserve, unknown, known);
    }
  }

  lemma FrontIsSound(
    inp: Input, reserve: bool, probe: Option<nat>, limit: nat, unknown: seq<Candidate>, known: seq<Candidate>, cut: nat)
    requires WellFormed(inp) && limit > 0 && ProbeIs(inp, reserve, probe) && (probe.Some? ==> probe.value in Pool(inp))
    requires InOrder(inp, reserve, probe, unknown, known)
    requires cut == Min(limit, |Lead(inp, probe)| + |unknown| + |known|)
    ensures
      var all := Ranking(Lead(inp, probe), unknown, known);
      && |all| == |Lead(inp, probe)| + |unknown| + |known|
      && Sound(inp, reserve, limit, all[..cut]) && LeadingProbe(all[..cut]) == probe
      && PlainFront(inp, reserve, probe, unknown, known, all[..cut])
      && forall k :: 0 <= k < cut ==> !all[..cut][k].explorer
  {
    hide Lists, Pool, Preferred, Known, Unknown, Effective, ProbeIs, Complete, Distinct, Entries, Ordered, Sorted;
    var lead := Lead(inp, probe);
    var all := Ranking(lead, unknown, known);
    RankingShape(lead, unknown, known);
    RankingSound(inp, reserve, probe, unknown, known);
    LeadIsProbe(inp, reserve, probe, Picks(Ordered(unknown, known)), cut);
    EntriesDistinct(inp, Offered(inp, reserve, probe), all, cut);
    assert cut == |all| ==> all[..cut] == all;
  }

  lemma NothingUnknown(inp: Input, reserve: bool, unknown: seq<Candidate>, known: seq<Candidate>)
    requires WellFormed(inp) && InOrder(inp, reserve, None, unknown, known) && unknown == []
    ensures Ranked(inp, reserve, None) <= Known(inp)
    ensures Lists(inp, Effective(inp, reserve, None), known, Ranked(inp, reserve, None))
  {
    hide Lists, Pool, Preferred, Known, Unknown, Effective, Sorted;
    var pens := Effective(inp, reserve, None);
    var u := Preferred(inp, pens, Unknown(inp)) - Whole(None);
    ListedOnce(inp, pens, unknown, u);
    RankedSplits(inp, reserve, None);
    assert u == {} && Ranked(inp, reserve, None) == Preferred(inp, pens, Known(inp)) - Whole(None);
  }

  lemma ExplorerOffered(inp: Input, reserve: bool, known: seq<Candidate>, c: Candidate)
    requires WellFormed(inp) && c in known
    requires Lists(inp, Effective(inp, reserve, None), known, Ranked(inp, reserve, None))
    ensures c.index in Offered(inp, reserve, None) && c.address == AddressOf(inp, c.index)
    ensures c.index in Pool(inp) && c == CandidateAt(inp, Effective(inp, reserve, None), c.index)
  {
    hide Pool, Base, Ranked;
  }

  lemma ExplorationKeepsSound(
    inp: Input, reserve: bool, limit: nat, known: seq<Candidate>, was: seq<Selection>, r: seq<Selection>, c: Candidate)
    requires WellFormed(inp) && Sound(inp, reserve, limit, was) && LeadingProbe(was).None? && c in known
    requires Lists(inp, Effective(inp, reserve, None), known, Ranked(inp, reserve, None))
    requires Explored(was, r, c) && c.address != was[0].address
    ensures Sound(inp, reserve, limit, r) && LeadingProbe(r).None?
  {
    hide ProbeIs, Lists, Ranked, Effective, Distinct, Complete;
    ExplorerOffered(inp, reserve, known, c);
    ExploredDistinct(inp, Offered(inp, reserve, None), was, r, c);
    if limit >= |inp.targets| {
      ExploredPermutes(inp, Offered(inp, reserve, None), was, r, c);
    }
    assert r[0] == was[0];
  }

  lemma ExploredMark(inp: Input, offered: set<nat>, was: seq<Selection>, r: seq<Selection>, c: Candidate)
    requires Explored(was, r, c) && forall k :: 0 <= k < |was| ==> !was[k].explorer
    requires Distinct(inp, offered, was) && offered <= Pool(inp) && c.index in Pool(inp) && c.address == AddressOf(inp, c.index)
    ensures r[0] == was[0] && r[1].index == c.index
    ensures forall k :: 0 <= k < |r| && r[k].explorer ==> k == 1
  {
    hide Pool;
    if k :| 1 < k < |was| && was[k].address == c.address && r == was[1 := was[k].(explorer := true)][k := was[1]] {
      if was[k].index != c.index {
        AddressesDiffer(inp, was[k].index, c.index);
      }
    }
  }

  lemma ExplorerIsStalest(inp: Input, reserve: bool, now: Time, known: seq<Candidate>, best: Selection, c: Candidate, i: nat)
    requires WellFormed(inp) && Lists(inp, Effective(inp, reserve, None), known, Ranked(inp, reserve, None))
    requires IsExplorer(known, best.address, now, c) && best.address == AddressOf(inp, best.index) && best.index in Pool(inp)
    requires i in Ranked(inp, reserve, None) && i != best.index && i != c.index
    ensures i in Pool(inp)
    ensures Due(CandidateAt(inp, Effective(inp, reserve, None), i), now) ==>
      Staler(c, CandidateAt(inp, Effective(inp, reserve, None), i))
  {
    hide Pool, Base, Ranked, Effective, Staler, Due;
    AddressesDiffer(inp, i, best.index);
    assert CandidateAt(inp, Effective(inp, reserve, None), i) in known;
  }

  lemma ExplorationIsSound(
    inp: Input, reserve: bool, now: Time, known: seq<Candidate>, was: seq<Selection>, r: seq<Selection>, c: Candidate)
    requires WellFormed(inp) && LeadingProbe(was).None? && c in known
    requires Distinct(inp, Offered(inp, reserve, None), was)
    requires Lists(inp, Effective(inp, reserve, None), known, Ranked(inp, reserve, None))
    requires Ranked(inp, reserve, None) <= Known(inp)
    requires forall k :: 0 <= k < |was| ==> !was[k].explorer
    requires Explored(was, r, c) && IsExplorer(known, was[0].address, now, c)
    ensures ExplorerSound(inp, reserve, now, r)
  {
    ExplorerOffered(inp, reserve, known, c);
    OfferedInPool(inp, reserve, None);
    ExploredMark(inp, Offered(inp, reserve, None), was, r, c);
    forall i | i in Ranked(inp, reserve, None) && i != r[0].index && i != r[1].index
      ensures i in Pool(inp)
      ensures Due(CandidateAt(inp, Effective(inp, reserve, None), i), now) ==>
        Staler(c, CandidateAt(inp, Effective(inp, reserve, None), i))
    {
      ExplorerIsStalest(inp, reserve, now, known, was[0], c, i);
    }
    hide Pool, Ranked, Effective, Staler, Due, Lists, Explored, Known, CandidateAt, Distinct;
  }

  lemma NothingSelected(inp: Input, reserve: bool, now: Time)
    requires WellFormed(inp) && |inp.targets| == 0
    ensures forall limit: nat :: Sound(inp, reserve, limit, [])
    ensures FrontOfRanking(inp, reserve, now, [], [], [], [])
  {
    hide Listed;
    assert Offered(inp, reserve, None) == {};
  }

  /**
   * The whole selection. With a limit of at least the number of targets it is
   * complete: every offered target, once. Smaller limits cut it short, and
   * addresses stay distinct.
   */
  method SelectTargetSelections(inp: Input, limit: int, now: Time, reserve: bool) returns (selected: seq<Selection>)
    requires WellFormed(inp)
    ensures limit <= 0 ==> selected == []
    ensures limit > 0 ==> Sound(inp, reserve, limit, selected)
    ensures ExplorerSound(inp, reserve, now, selected)
    ensures limit > 0 ==> exists unknown, known, plain :: FrontOfRanking(inp, reserve, now, unknown, known, plain, selected)
    ensures limit > 0 ==> exists order :: InRankOrder(inp, reserve, now, order, selected)
  {
    hide Lists, Pool, Known, Sound, Effective, IsExplorer, Explored, Ranked, PlainFront, ExplorerPlaced, InRankOrder;
    if limit <= 0 {
      return [];
    }
    if |inp.targets| == 0 {
      NothingSelected(inp, reserve, now);
      FrontIsInRankOrder(inp, reserve, now, [], [], [], []);
      return [];
    }
    var unknown, known, settled;
    selected, unknown, known, settled := RankTargets(inp, limit, reserve);
    ghost var plain := selected;
    if settled && |selected| > 1 {
      ListsAreUnique(inp, Effective(inp, reserve, None), known, Ranked(inp, reserve, None));
      selected := PlaceExplorer(selected, known, now);
      ExplorerMoves(plain, selected, known, now);
      if selected != plain {
        ghost var c :| c in known && IsExplorer(known, plain[0].address, now, c) && Explored(plain, selected, c);
        SoundIsDistinct(inp, reserve, limit, plain);
        ExplorerIsNotBest(known, plain[0].address, now, c);
        ExplorationKeepsSound(inp, reserve, limit, known, plain, selected, c);
        ExplorationIsSound(inp, reserve, now, known, plain, selected, c);
      }
    }
    assert FrontOfRanking(inp, reserve, now, unknown, known, plain, selected);
    FrontIsInRankOrder(inp, reserve, now, unknown, known, plain, selected);
  }

  lemma ExplorerMoves(plain: seq<Selection>, r: seq<Selection>, known: seq<Candidate>, now: Time)
    requires |plain| > 1 && ExplorerPlaced(plain, r, known, now)
    ensures |r| == |plain|
    ensures r == plain || exists c :: c in known && IsExplorer(known, plain[0].address, now, c) && Explored(plain, r, c)
  {
    hide IsExplorer, Due;
  }

  lemma {:induction false} SortedListingIsUnique(
    inp: Input, pens: seq<nat>, byAge: bool, a: seq<Candidate>, b: seq<Candidate>, s: set<nat>)
    requires |pens| == |inp.targets| && Lists(inp, pens, a, s) && Lists(inp, pens, b, s)
    requires Sorted(byAge, a) && Sorted(byAge, b)
    ensures a == b
    decreases |a|
  {
    hide Pool, CandidateAt, Lists;
    ListedOnce(inp, pens, a, s);
    ListedOnce(inp, pens, b, s);
    if a != [] {
      SameHead(inp, pens, byAge, a, b, s);
      TailListed(inp, pens, a, s);
      TailListed(inp, pens, b, s);
      SortedListingIsUnique(inp, pens, byAge, a[1..], b[1..], s - {a[0].index});
      assert a == [a[0]] + a[1..] && b == [b[0]] + b[1..];
    }
  }

  lemma SameHead(inp: Input, pens: seq<nat>, byAge: bool, a: seq<Candidate>, b: seq<Candidate>, s: set<nat>)
    requires |pens| == |inp.targets| && Lists(inp, pens, a, s) && Lists(inp, pens, b, s)
    requires Sorted(byAge, a) && Sorted(byAge, b) && a != [] && b != []
    ensures a[0] == b[0]
  {
    hide Pool, CandidateAt;
    assert a[0] in b && b[0] in a;
    var i :| 0 <= i < |b| && b[i] == a[0];
    var j :| 0 <= j < |a| && a[j] == b[0];
    assert i > 0 ==> Precedes(byAge, b[0], a[0]);
    assert j > 0 ==> Precedes(byAge, a[0], b[0]);
  }

  lemma TailListed(inp: Input, pens: seq<nat>, cs: seq<Candidate>, s: set<nat>)
    requires |pens| == |inp.targets| && Lists(inp, pens, cs, s) && cs != []
    ensures Lists(inp, pens, cs[1..], s - {cs[0].index})
  {
    hide Pool, Base;
    forall i | i in s - {cs[0].index} ensures i in Pool(inp) && CandidateAt(inp, pens, i) in cs[1..] {
      CandidateIndex(inp, pens, i);
      assert CandidateAt(inp, pens, i) in cs;
    }
  }

  /** The ranking behind a selection is no matter of choice: the ordered lists are unique. */
  lemma RankingIsUnique(
    inp: Input, reserve: bool, probe: Option<nat>, u1: seq<Candidate>, k1: seq<Candidate>, u2: seq<Candidate>, k2: seq<Candidate>)
    requires WellFormed(inp) && InOrder(inp, reserve, probe, u1, k1) && InOrder(inp, reserve, probe, u2, k2)
    ensures u1 == u2 && k1 == k2
  {
    hide Lists, Sorted, Preferred, Unknown, Known, Effective;
    var pens := Effective(inp, reserve, probe);
    SortedListingIsUnique(inp, pens, true, u1, u2, Preferred(inp, pens, Unknown(inp)) - Whole(probe));
    SortedListingIsUnique(inp, pens, false, k1, k2, Preferred(inp, pens, Known(inp)) - Whole(probe));
  }

  lemma SoundIsDistinct(inp: Input, reserve: bool, limit: nat, selected: seq<Selection>)
    requires WellFormed(inp) && Sound(inp, reserve, limit, selected)
    ensures Distinct(inp, Offered(inp, reserve, LeadingProbe(selected)), selected)
  {
  }

  lemma ExplorerIsNotBest(known: seq<Candidate>, best: string, now: Time, c: Candidate)
    requires IsExplorer(known, best, now, c)
    ensures c.address != best
  {
  }

  // ------------------------------------- the order, by the routes themselves

  /** What the registry knows of a target's route. */
  predicate IsKnown(inp: Input, i: nat)
  {
    && i < |inp.targets| && inp.targets[i].Target? && inp.targets[i].address in inp.routes
    && inp.routes[inp.targets[i].address].observed
  }

  predicate HasLatency(inp: Input, i: nat)
  {
    IsKnown(inp, i) && inp.routes[inp.targets[i].address].hasEwma
  }

  /** A known route's expected latency, 1 s without a sample, plus 1 s per failure of its longer streak, plus its penalty. */
  function Cost(inp: Input, pens: seq<nat>, i: nat): nat
    requires IsKnown(inp, i) && i < |pens|
  {
    var r := inp.routes[inp.targets[i].address];
    (if r.hasEwma then r.ewma else 1_000_000_000)
    + 1_000_000_000 * (if r.failures >= r.relayFailures then r.failures else r.relayFailures)
    + pens[i]
  }

  predicate Quicker(inp: Input, pens: seq<nat>, x: nat, y: nat)
    requires IsKnown(inp, x) && IsKnown(inp, y) && x < |pens| && y < |pens|
  {
    Cost(inp, pens, x) < Cost(inp, pens, y) || (Cost(inp, pens, x) == Cost(inp, pens, y) && x < y)
  }

  /** When an unknown route was last tried; never counts as longest ago. */
  function TriedAt(inp: Input, i: nat): Time
    requires i < |inp.targets| && inp.targets[i].Target?
  {
    if inp.targets[i].address in inp.routes then inp.routes[inp.targets[i].address].lastAttempt else 0
  }

  predicate Likelier(inp: Input, pens: seq<nat>, x: nat, y: nat)
    requires x < |inp.targets| && y < |inp.targets| && inp.targets[x].Target? && inp.targets[y].Target?
    requires x < |pens| && y < |pens|
  {
    || pens[x] < pens[y]
    || (pens[x] == pens[y] && TriedAt(inp, x) < TriedAt(inp, y))
    || (pens[x] == pens[y] && TriedAt(inp, x) == TriedAt(inp, y) && x < y)
  }

  /**
   * The order of the ranked targets: unknown routes by penalty, last attempt and
   * position; known routes by cost and position, behind the unknown ones; and
   * with both kinds present the cheapest known route with a latency leads.
   */
  ghost predicate RankOrder(inp: Input, pens: seq<nat>, order: seq<nat>)
    requires |pens| == |inp.targets|
  {
    var lifted := (exists x :: x in order && !IsKnown(inp, x)) && (exists x :: x in order && HasLatency(inp, x));
    && (forall a :: 0 <= a < |order| ==> order[a] < |inp.targets| && inp.targets[order[a]].Target?)
    && (forall a, b :: 0 <= a < b < |order| ==> order[a] != order[b])
    && (forall a, b :: 0 <= a < b < |order| && !IsKnown(inp, order[a]) && !IsKnown(inp, order[b]) ==>
          Likelier(inp, pens, order[a], order[b]))
    && (forall a, b :: 0 <= a < b < |order| && IsKnown(inp, order[a]) && IsKnown(inp, order[b]) && !(lifted && a == 0) ==>
          Quicker(inp, pens, order[a], order[b]))
    && (forall a, b :: 0 <= a < b < |order| && IsKnown(inp, order[a]) && !IsKnown(inp, order[b]) ==> lifted && a == 0)
    && (lifted ==> HasLatency(inp, order[0]))
    && (lifted ==> forall a :: 0 < a < |order| && HasLatency(inp, order[a]) ==> Quicker(inp, pens, order[0], order[a]))
  }

  lemma CandidateFacts(inp: Input, pens: seq<nat>, i: nat)
    requires |pens| == |inp.targets| && i < |inp.targets| && inp.targets[i].Target?
    ensures
      var c := CandidateAt(inp, pens, i);
      && c.index == i && c.address == inp.targets[i].address
      && c.score == (if IsKnown(inp, i) then Cost(inp, pens, i) else pens[i])
      && c.lastAttempt == TriedAt(inp, i) && c.hasEwma == HasLatency(inp, i)
      && RouteAt(inp, i).observed == IsKnown(inp, i)
  {
  }

  /** Which list, and where in it, the ranked candidate at position a comes from. */
  function Place(unknown: seq<Candidate>, known: seq<Candidate>, a: nat): (p: (bool, nat))
    requires a < |unknown| + |known|
    ensures if p.0 then p.1 < |unknown| else p.1 < |known|
  {
    var b := BestKnown(known);
    if !Promoted(unknown, known) then (if a < |unknown| then (true, a) else (false, a - |unknown|))
    else if a == 0 then (false, b)
    else if a <= |unknown| then (true, a - 1)
    else if a - 1 - |unknown| < b then (false, a - 1 - |unknown|)
    else (false, a - |unknown|)
  }

  lemma PlaceHolds(unknown: seq<Candidate>, known: seq<Candidate>, a: nat)
    requires a < |unknown| + |known|
    ensures |Ordered(unknown, known)| == |unknown| + |known|
    ensures
      var p := Place(unknown, known, a);
      Ordered(unknown, known)[a] == if p.0 then unknown[p.1] else known[p.1]
  {
    hide BestKnown, Skipping;
    var b := BestKnown(known);
    if Promoted(unknown, known) {
      var rest := Skipping(known, b);
      if a > |unknown| {
        PastHead([known[b]] + unknown, rest, a - 1 - |unknown|);
        var m := a - 1 - |unknown|;
        assert m >= b ==> rest[m] == known[m + 1];
      }
    }
  }

  lemma PlacesRise(unknown: seq<Candidate>, known: seq<Candidate>, a: nat, b: nat)
    requires a < b < |unknown| + |known|
    ensures
      var p, q := Place(unknown, known, a), Place(unknown, known, b);
      && (p.0 && q.0 ==> p.1 < q.1)
      && (!p.0 && !q.0 && !(Promoted(unknown, known) && a == 0) ==> p.1 < q.1)
      && (!p.0 && q.0 ==> Promoted(unknown, known) && a == 0)
      && (Promoted(unknown, known) && a == 0 ==> !p.0 && p.1 == BestKnown(known) && (!q.0 ==> q.1 != p.1))
  {
    hide BestKnown;
  }

  function Indexes(cs: seq<Candidate>): (r: seq<nat>)
    ensures |r| == |cs| && forall k :: 0 <= k < |cs| ==> r[k] == cs[k].index
  {
    seq(|cs|, k requires 0 <= k < |cs| => cs[k].index)
  }

  /** What the lists hold, by the routes. */
  ghost predicate ByRoutes(inp: Input, pens: seq<nat>, cs: seq<Candidate>, known: bool)
    requires |pens| == |inp.targets|
  {
    forall n :: 0 <= n < |cs| ==>
      && cs[n].index < |inp.targets| && inp.targets[cs[n].index].Target?
      && IsKnown(inp, cs[n].index) == known
      && cs[n].score == (if known then Cost(inp, pens, cs[n].index) else pens[cs[n].index])
      && cs[n].lastAttempt == TriedAt(inp, cs[n].index) && cs[n].hasEwma == HasLatency(inp, cs[n].index)
  }

  lemma ListsByRoutes(inp: Input, pens: seq<nat>, cs: seq<Candidate>, s: set<nat>, known: bool)
    requires |pens| == |inp.targets| && Lists(inp, pens, cs, s) && s <= (if known then Known(inp) else Unknown(inp))
    ensures ByRoutes(inp, pens, cs, known)
  {
    hide Listed, CandidateAt, IsKnown, Cost, TriedAt, HasLatency;
    forall n | 0 <= n < |cs|
      ensures cs[n].index < |inp.targets| && inp.targets[cs[n].index].Target? && IsKnown(inp, cs[n].index) == known
      ensures cs[n].score == (if known then Cost(inp, pens, cs[n].index) else pens[cs[n].index])
      ensures cs[n].lastAttempt == TriedAt(inp, cs[n].index) && cs[n].hasEwma == HasLatency(inp, cs[n].index)
    {
      CandidateFacts(inp, pens, cs[n].index);
      assert cs[n].index in (if known then Known(inp) else Unknown(inp));
    }
  }

  lemma SortedQuicker(inp: Input, pens: seq<nat>, known: seq<Candidate>, m: nat, n: nat)
    requires |pens| == |inp.targets| && ByRoutes(inp, pens, known, true) && Sorted(false, known) && m < n < |known|
    ensures Quicker(inp, pens, known[m].index, known[n].index)
  {
    hide IsKnown, Cost;
    assert Precedes(false, known[m], known[n]);
  }

  lemma SortedLikelier(inp: Input, pens: seq<nat>, unknown: seq<Candidate>, m: nat, n: nat)
    requires |pens| == |inp.targets| && ByRoutes(inp, pens, unknown, false) && Sorted(true, unknown) && m < n < |unknown|
    ensures Likelier(inp, pens, unknown[m].index, unknown[n].index)
  {
    hide IsKnown, TriedAt;
    assert Precedes(true, unknown[m], unknown[n]);
  }

  lemma LiftedIsPromoted(inp: Input, pens: seq<nat>, unknown: seq<Candidate>, known: seq<Candidate>)
    requires |pens| == |inp.targets| && ByRoutes(inp, pens, unknown, false) && ByRoutes(inp, pens, known, true)
    ensures
      var order := Indexes(Ordered(unknown, known));
      Promoted(unknown, known) <==>
        (exists x :: x in order && !IsKnown(inp, x)) && (exists x :: x in order && HasLatency(inp, x))
  {
    hide Ordered, Cost, TriedAt, BestKnown, IsKnown;
    var cs := Ordered(unknown, known);
    var order := Indexes(cs);
    forall c ensures c in cs <==> c in unknown + known {
      OrderedMembers(unknown, known, c);
    }
    if Promoted(unknown, known) {
      assert unknown[0] in cs && known[BestKnown(known)] in cs;
      var i :| 0 <= i < |cs| && cs[i] == unknown[0];
      var j :| 0 <= j < |cs| && cs[j] == known[BestKnown(known)];
      assert order[i] in order && order[j] in order;
    }
    if x :| x in order && !IsKnown(inp, x) {
      var i :| 0 <= i < |order| && order[i] == x;
      assert cs[i] in unknown + known;
      assert cs[i] in unknown;
    }
    if x :| x in order && HasLatency(inp, x) {
      var i :| 0 <= i < |order| && order[i] == x;
      assert cs[i] in unknown + known;
      LatencyIsKnown(inp, x);
      assert cs[i] in known;
      var n :| 0 <= n < |known| && known[n] == cs[i];
      assert known[n].hasEwma;
    }
  }

  lemma LatencyIsKnown(inp: Input, x: nat)
    requires HasLatency(inp, x)
    ensures IsKnown(inp, x)
  {
  }

  lemma RankingIsRankOrder(inp: Input, pens: seq<nat>, unknown: seq<Candidate>, known: seq<Candidate>)
    requires |pens| == |inp.targets| && ByRoutes(inp, pens, unknown, false) && ByRoutes(inp, pens, known, true)
    requires Sorted(true, unknown) && Sorted(false, known) && Unique(Ordered(unknown, known))
    ensures RankOrder(inp, pens, Indexes(Ordered(unknown, known)))
  {
    hide Ordered, Cost, TriedAt, BestKnown, IsKnown, Quicker, Likelier, HasLatency, Sorted, Place;
    var cs := Ordered(unknown, known);
    var order := Indexes(cs);
    LiftedIsPromoted(inp, pens, unknown, known);
    OrderedLength(unknown, known);
    forall a | 0 <= a < |order|
      ensures order[a] < |inp.targets| && inp.targets[order[a]].Target?
      ensures IsKnown(inp, order[a]) == !Place(unknown, known, a).0
    {
      PlaceHolds(unknown, known, a);
    }
    forall a, b | 0 <= a < b < |order|
      ensures !IsKnown(inp, order[a]) && !IsKnown(inp, order[b]) ==> Likelier(inp, pens, order[a], order[b])
      ensures IsKnown(inp, order[a]) && IsKnown(inp, order[b]) && !(Promoted(unknown, known) && a == 0) ==>
        Quicker(inp, pens, order[a], order[b])
      ensures IsKnown(inp, order[a]) && !IsKnown(inp, order[b]) ==> Promoted(unknown, known) && a == 0
    {
      PlaceHolds(unknown, known, a);
      PlaceHolds(unknown, known, b);
      PlacesRise(unknown, known, a, b);
      var p, q := Place(unknown, known, a), Place(unknown, known, b);
      if p.0 && q.0 {
        SortedLikelier(inp, pens, unknown, p.1, q.1);
      } else if !p.0 && !q.0 && p.1 < q.1 {
        SortedQuicker(inp, pens, known, p.1, q.1);
      }
    }
    if Promoted(unknown, known) {
      LeaderIsQuickest(inp, pens, unknown, known);
    }
  }

  lemma OrderedLength(unknown: seq<Candidate>, known: seq<Candidate>)
    ensures |Ordered(unknown, known)| == |unknown| + |known|
  {
  }

  lemma LeaderIsQuickest(inp: Input, pens: seq<nat>, unknown: seq<Candidate>, known: seq<Candidate>)
    requires |pens| == |inp.targets| && ByRoutes(inp, pens, unknown, false) && ByRoutes(inp, pens, known, true)
    requires Sorted(false, known) && Promoted(unknown, known)
    ensures
      var order := Indexes(Ordered(unknown, known));
      && |order| > 0 && HasLatency(inp, order[0]) && IsKnown(inp, order[0])
      && forall a :: 0 < a < |order| && HasLatency(inp, order[a]) ==>
           IsKnown(inp, order[a]) && Quicker(inp, pens, order[0], order[a])
  {
    hide Ordered, Cost, TriedAt, IsKnown, Quicker, Sorted, BestKnown;
    OrderedLength(unknown, known);
    var order := Indexes(Ordered(unknown, known));
    PlaceHolds(unknown, known, 0);
    forall a | 0 <= a < |order| ensures order[a] < |inp.targets| {
      PlaceHolds(unknown, known, a);
    }
    forall a | 0 < a < |order| && HasLatency(inp, order[a])
      ensures IsKnown(inp, order[a]) && Quicker(inp, pens, order[0], order[a])
    {
      LatencyIsKnown(inp, order[a]);
      PlaceHolds(unknown, known, a);
      PlacesRise(unknown, known, 0, a);
      var q := Place(unknown, known, a);
      assert !q.0;
      assert known[q.1].hasEwma;
      SortedQuicker(inp, pens, known, BestKnown(known), q.1);
    }
  }

  /** A route not tried for 30 s, or never. */
  predicate DueAgain(inp: Input, now: Time, i: nat)
    requires i < |inp.targets| && inp.targets[i].Target?
  {
    TriedAt(inp, i) == 0 || now - TriedAt(inp, i) >= 30_000_000_000
  }

  ghost predicate InRange(inp: Input, order: seq<nat>)
  {
    forall a :: 0 <= a < |order| ==> order[a] < |inp.targets| && inp.targets[order[a]].Target?
  }

  /** The route to explore: due, not the first, and tried longest ago; ties go by position. */
  ghost predicate ToExplore(inp: Input, now: Time, order: seq<nat>, d: nat)
    requires InRange(inp, order)
  {
    && (exists a :: 0 < a < |order| && order[a] == d && DueAgain(inp, now, d))
    && forall a :: 0 < a < |order| && order[a] != d && DueAgain(inp, now, order[a]) ==>
         TriedAt(inp, d) < TriedAt(inp, order[a]) || (TriedAt(inp, d) == TriedAt(inp, order[a]) && d < order[a])
  }

  ghost predicate NothingDue(inp: Input, now: Time, order: seq<nat>)
    requires InRange(inp, order)
  {
    forall a :: 0 < a < |order| ==> !DueAgain(inp, now, order[a])
  }

  /** The list with d in the second place: exchanged with what was there, or in its stead if d was cut off. */
  ghost predicate SecondIs(front: seq<nat>, d: nat, r: seq<nat>)
  {
    && |r| == |front| > 1
    && if d == front[1] then r == front
       else
         || (exists k :: 1 < k < |front| && front[k] == d && r == front[1 := d][k := front[1]])
         || ((forall k :: 1 < k < |front| ==> front[k] != d) && r == front[1 := d])
  }

  function Chosen(selected: seq<Selection>): (r: seq<nat>)
    ensures |r| == |selected| && forall k :: 0 <= k < |r| ==> r[k] == selected[k].index
  {
    seq(|selected|, k requires 0 <= k < |selected| => selected[k].index)
  }

  /**
   * The selection, by the routes alone: the front of the ranking behind the
   * reserved probe; and with no probe and nothing unknown, the route to explore,
   * if any, in the second place.
   */
  ghost predicate InRankOrder(inp: Input, reserve: bool, now: Time, order: seq<nat>, selected: seq<Selection>)
    requires WellFormed(inp)
  {
    var probe := LeadingProbe(selected);
    var all := (if probe.Some? then [probe.value] else []) + order;
    && RankOrder(inp, Effective(inp, reserve, probe), order)
    && (forall x :: x in order <==> x in Ranked(inp, reserve, probe))
    && |selected| <= |all|
    && var front := all[..|selected|];
       && Marked(inp, probe, front, selected)
       && if probe.None? && |selected| > 1 && (forall x :: x in order ==> IsKnown(inp, x)) && !NothingDue(inp, now, order)
          then exists d :: ToExplore(inp, now, order, d) && SecondIs(front, d, Chosen(selected))
          else Chosen(selected) == front
  }

  /** The probe carries the token its claim returned; a target moved into the second place, and no other, is an explorer. */
  ghost predicate Marked(inp: Input, probe: Option<nat>, front: seq<nat>, selected: seq<Selection>)
    requires |front| == |selected|
  {
    forall k :: 0 <= k < |selected| ==>
      && selected[k].probe == (if k == 0 && probe.Some? && probe.value < |inp.claims| then inp.claims[probe.value] else 0)
      && (selected[k].explorer <==> k == 1 && selected[1].index != front[1])
  }

  lemma PlainIsFront(
    inp: Input, reserve: bool, probe: Option<nat>, unknown: seq<Candidate>, known: seq<Candidate>, plain: seq<Selection>)
    requires WellFormed(inp) && PlainFront(inp, reserve, probe, unknown, known, plain)
    ensures
      var order := Indexes(Ordered(unknown, known));
      var all := (if probe.Some? then [probe.value] else []) + order;
      && RankOrder(inp, Effective(inp, reserve, probe), order)
      && (forall x :: x in order <==> x in Ranked(inp, reserve, probe))
      && |plain| <= |all| && Chosen(plain) == all[..|plain|] && Marked(inp, probe, all[..|plain|], plain)
      && Unique(Ordered(unknown, known))
  {
    hide Preferred, Known, Unknown, Effective, Lists, Sorted, Pool, RankOrder, Ordered, ByRoutes;
    var pens := Effective(inp, reserve, probe);
    var u := Preferred(inp, pens, Unknown(inp)) - Whole(probe);
    var o := Preferred(inp, pens, Known(inp)) - Whole(probe);
    RankedSplits(inp, reserve, probe);
    PreferredWithin(inp, pens, probe);
    ListsByRoutes(inp, pens, unknown, u, false);
    ListsByRoutes(inp, pens, known, o, true);
    RankingLists(inp, pens, unknown, known, u, o);
    ListsAreUnique(inp, pens, Ordered(unknown, known), u + o);
    RankingIsRankOrder(inp, pens, unknown, known);
    IndexesList(inp, pens, Ordered(unknown, known), u + o);
    hide Ranked;
    var all := Lead(inp, probe) + Picks(Ordered(unknown, known));
    assert Ranking(Lead(inp, probe), unknown, known) == all;
    assert plain == all[..|plain|];
  }

  lemma PreferredWithin(inp: Input, pens: seq<nat>, probe: Option<nat>)
    requires |pens| == |inp.targets|
    ensures Preferred(inp, pens, Unknown(inp)) - Whole(probe) <= Unknown(inp)
    ensures Preferred(inp, pens, Known(inp)) - Whole(probe) <= Known(inp)
  {
    hide Unknown, Known, SomeUnpenalised;
  }

  lemma IndexesList(inp: Input, pens: seq<nat>, cs: seq<Candidate>, s: set<nat>)
    requires |pens| == |inp.targets| && Lists(inp, pens, cs, s)
    ensures forall x :: x in Indexes(cs) <==> x in s
  {
    hide Pool, Base;
    forall x | x in s ensures x in Indexes(cs) {
      CandidateIndex(inp, pens, x);
      assert CandidateAt(inp, pens, x) in cs;
      var k :| 0 <= k < |cs| && cs[k] == CandidateAt(inp, pens, x);
      assert Indexes(cs)[k] == x;
    }
  }
  /** Known candidates by address and by position: the same thing. */
  ghost predicate ByAddress(inp: Input, known: seq<Candidate>)
  {
    && (forall n :: 0 <= n < |known| ==>
          && known[n].index < |inp.targets| && inp.targets[known[n].index].Target?
          && known[n].lastAttempt == TriedAt(inp, known[n].index))
    && (forall m, n :: 0 <= m < n < |known| ==> known[m].address != known[n].address && known[m].index != known[n].index)
  }

  lemma ListsByAddress(inp: Input, pens: seq<nat>, known: seq<Candidate>, s: set<nat>)
    requires |pens| == |inp.targets| && Lists(inp, pens, known, s)
    ensures ByAddress(inp, known)
  {
    hide Pool, TriedAt, Cost, HasLatency, IsKnown, CandidateAt;
    forall n | 0 <= n < |known|
      ensures known[n].index < |inp.targets| && inp.targets[known[n].index].Target?
      ensures known[n].lastAttempt == TriedAt(inp, known[n].index)
      ensures known[n].address == inp.targets[known[n].index].address
    {
      CandidateFacts(inp, pens, known[n].index);
    }
    forall m, n | 0 <= m < n < |known| ensures known[m].address != known[n].address {
      AddressesDiffer(inp, known[m].index, known[n].index);
    }
  }

  lemma ExplorerByRoutes(inp: Input, known: seq<Candidate>, now: Time)
    requires |known| > 0 && ByAddress(inp, known)
    ensures InRange(inp, Indexes(known))
    ensures (forall c :: c in known ==> c.address == known[0].address || !Due(c, now)) <==> NothingDue(inp, now, Indexes(known))
    ensures forall c :: c in known && IsExplorer(known, known[0].address, now, c) ==> ToExplore(inp, now, Indexes(known), c.index)
  {
    hide TriedAt;
    var order := Indexes(known);
    forall n | 0 <= n < |known| ensures Due(known[n], now) <==> DueAgain(inp, now, order[n]) {
    }
    if forall c :: c in known ==> c.address == known[0].address || !Due(c, now) {
      forall a | 0 < a < |order| ensures !DueAgain(inp, now, order[a]) {
        assert known[a] in known;
      }
    }
    forall c | c in known && IsExplorer(known, known[0].address, now, c) ensures ToExplore(inp, now, order, c.index) {
      var n :| 0 <= n < |known| && known[n] == c;
      assert n > 0 && order[n] == c.index;
      forall a | 0 < a < |order| && order[a] != c.index && DueAgain(inp, now, order[a])
        ensures TriedAt(inp, c.index) < TriedAt(inp, order[a]) || (TriedAt(inp, c.index) == TriedAt(inp, order[a]) && c.index < order[a])
      {
        assert known[a] in known && known[a] != c;
        assert Staler(c, known[a]);
      }
    }
  }

  lemma ExploredBySecond(inp: Input, known: seq<Candidate>, plain: seq<Selection>, r: seq<Selection>, c: Candidate)
    requires ByAddress(inp, known) && 1 < |plain| <= |known| && c in known
    requires forall k :: 0 <= k < |plain| ==> plain[k] == Picked(known[k])
    requires c.address != plain[0].address
    requires if plain[1].address == c.address then r == plain else Explored(plain, r, c)
    ensures SecondIs(Chosen(plain), c.index, Chosen(r)) && Marked(inp, None, Chosen(plain), r)
  {
    hide TriedAt;
    var front := Chosen(plain);
    var n :| 0 <= n < |known| && known[n] == c;
    forall k | 0 <= k < |plain| ensures plain[k].address == c.address <==> k == n {
    }
    if plain[1].address != c.address {
      if k :| 1 < k < |plain| && plain[k].address == c.address && r == plain[1 := plain[k].(explorer := true)][k := plain[1]] {
        assert front[k] == c.index;
        assert Chosen(r) == front[1 := c.index][k := front[1]];
      } else {
        assert Chosen(r) == front[1 := c.index];
        assert forall k :: 1 < k < |front| ==> front[k] != c.index;
      }
    }
  }

  lemma PickedUnmarked(inp: Input, known: seq<Candidate>, plain: seq<Selection>)
    requires |plain| <= |known| && forall k :: 0 <= k < |plain| ==> plain[k] == Picked(known[k])
    ensures Marked(inp, None, Chosen(plain), plain)
  {
  }

  /** Placing the explorer, by positions. */
  lemma PlacedByRoutes(inp: Input, now: Time, known: seq<Candidate>, plain: seq<Selection>, selected: seq<Selection>)
    requires ByAddress(inp, known) && 1 < |plain| <= |known|
    requires forall k :: 0 <= k < |plain| ==> plain[k] == Picked(known[k])
    requires ExplorerPlaced(plain, selected, known, now)
    ensures InRange(inp, Indexes(known)) && Chosen(plain) == Indexes(known)[..|plain|]
    ensures Marked(inp, None, Chosen(plain), selected)
    ensures if NothingDue(inp, now, Indexes(known)) then selected == plain
            else exists d :: ToExplore(inp, now, Indexes(known), d) && SecondIs(Chosen(plain), d, Chosen(selected))
  {
    hide ByAddress, IsExplorer, Explored, Due, TriedAt, ToExplore, SecondIs, NothingDue, Marked;
    PickedUnmarked(inp, known, plain);
    ExplorerByRoutes(inp, known, now);
    assert plain[0].address == known[0].address;
    if !NothingDue(inp, now, Indexes(known)) {
      var c :| c in known && IsExplorer(known, plain[0].address, now, c) &&
        if plain[1].address == c.address then selected == plain else Explored(plain, selected, c);
      ExplorerIsNotBest(known, plain[0].address, now, c);
      ExploredBySecond(inp, known, plain, selected, c);
    }
  }

  lemma PlainParts(
    inp: Input, reserve: bool, probe: Option<nat>, unknown: seq<Candidate>, known: seq<Candidate>, plain: seq<Selection>)
    requires WellFormed(inp) && PlainFront(inp, reserve, probe, unknown, known, plain)
    ensures InOrder(inp, reserve, probe, unknown, known) && (probe.Some? ==> probe.value < |inp.targets|)
    ensures plain <= Ranking(Lead(inp, probe), unknown, known)
  {
  }

  lemma KnownByAddress(inp: Input, reserve: bool, known: seq<Candidate>)
    requires WellFormed(inp) && InOrder(inp, reserve, None, [], known)
    ensures ByAddress(inp, known)
  {
    hide Preferred, Known, Unknown, Effective, Lists, Sorted, ByAddress;
    var pens := Effective(inp, reserve, None);
    ListsByAddress(inp, pens, known, Preferred(inp, pens, Known(inp)) - Whole(None));
  }

  lemma SettledIsInRankOrder(
    inp: Input, reserve: bool, now: Time, known: seq<Candidate>, plain: seq<Selection>, selected: seq<Selection>)
    requires WellFormed(inp) && |plain| == |selected| > 1 && LeadingProbe(selected).None?
    requires PlainFront(inp, reserve, None, [], known, plain) && ExplorerPlaced(plain, selected, known, now)
    ensures InRankOrder(inp, reserve, now, Indexes(known), selected)
  {
    hide Effective, RankOrder, InOrder, Ranked, IsKnown, Ordered, ByAddress, PlainFront, ExplorerPlaced, NothingDue, ToExplore,
      SecondIs, Unique, Ranking, Lead, LeadingProbe, Marked;
    PlainParts(inp, reserve, None, [], known, plain);
    PlainIsFront(inp, reserve, None, [], known, plain);
    OrderedKnown(known);
    KnownOnly(inp, reserve, known);
    KnownByAddress(inp, reserve, known);
    PlainArePicked(inp, known, plain);
    PlacedByRoutes(inp, now, known, plain, selected);
    assert [] + Indexes(known) == Indexes(known);
  }

  lemma OrderedKnown(known: seq<Candidate>)
    ensures Ordered([], known) == known
  {
  }

  lemma PlainArePicked(inp: Input, known: seq<Candidate>, plain: seq<Selection>)
    requires WellFormed(inp) && plain <= Ranking(Lead(inp, None), [], known)
    ensures |plain| <= |known| && forall k :: 0 <= k < |plain| ==> plain[k] == Picked(known[k])
  {
    assert Ordered([], known) == known;
    assert Ranking(Lead(inp, None), [], known) == Picks(known);
  }

  lemma KnownOnly(inp: Input, reserve: bool, known: seq<Candidate>)
    requires WellFormed(inp) && InOrder(inp, reserve, None, [], known)
    ensures forall x :: x in Indexes(known) ==> IsKnown(inp, x)
  {
    hide Preferred, Known, Unknown, Effective, Lists, Sorted, Cost, TriedAt, HasLatency, IsKnown;
    var pens := Effective(inp, reserve, None);
    PreferredWithin(inp, pens, None);
    ListsByRoutes(inp, pens, known, Preferred(inp, pens, Known(inp)) - Whole(None), true);
    assert forall k :: 0 <= k < |known| ==> IsKnown(inp, known[k].index);
  }

  lemma UnsettledIsInRankOrder(
    inp: Input, reserve: bool, now: Time, unknown: seq<Candidate>, known: seq<Candidate>, plain: seq<Selection>)
    requires WellFormed(inp) && PlainFront(inp, reserve, LeadingProbe(plain), unknown, known, plain)
    requires LeadingProbe(plain).Some? || unknown != [] || |plain| <= 1
    ensures InRankOrder(inp, reserve, now, Indexes(Ordered(unknown, known)), plain)
  {
    hide Effective, RankOrder, InOrder, Ranked, IsKnown, Ordered, PlainFront, NothingDue, ToExplore, SecondIs, Unique, Ranking,
      Lead, LeadingProbe, Marked;
    var probe := LeadingProbe(plain);
    PlainParts(inp, reserve, probe, unknown, known, plain);
    PlainIsFront(inp, reserve, probe, unknown, known, plain);
    if unknown != [] {
      SomethingUnknown(inp, reserve, probe, unknown, known);
    }
  }

  lemma SomethingUnknown(
    inp: Input, reserve: bool, probe: Option<nat>, unknown: seq<Candidate>, known: seq<Candidate>)
    requires WellFormed(inp) && InOrder(inp, reserve, probe, unknown, known) && unknown != []
    ensures exists x :: x in Indexes(Ordered(unknown, known)) && !IsKnown(inp, x)
  {
    hide Preferred, Known, Unknown, Effective, Lists, Sorted, Cost, TriedAt, HasLatency, IsKnown, Ordered;
    var pens := Effective(inp, reserve, probe);
    PreferredWithin(inp, pens, probe);
    ListsByRoutes(inp, pens, unknown, Preferred(inp, pens, Unknown(inp)) - Whole(probe), false);
    var cs := Ordered(unknown, known);
    OrderedMembers(unknown, known, unknown[0]);
    assert unknown[0] in cs;
    var k :| 0 <= k < |cs| && cs[k] == unknown[0];
    assert Indexes(cs)[k] == unknown[0].index;
  }

  lemma FrontIsInRankOrder(
    inp: Input, reserve: bool, now: Time, unknown: seq<Candidate>, known: seq<Candidate>, plain: seq<Selection>,
    selected: seq<Selection>)
    requires WellFormed(inp) && FrontOfRanking(inp, reserve, now, unknown, known, plain, selected)
    ensures exists order :: InRankOrder(inp, reserve, now, order, selected)
  {
    hide PlainFront, ExplorerPlaced, InRankOrder, Ordered;
    if LeadingProbe(selected).None? && unknown == [] && |plain| > 1 {
      SettledIsInRankOrder(inp, reserve, now, known, plain, selected);
    } else {
      UnsettledIsInRankOrder(inp, reserve, now, unknown, known, plain);
    }
  }

  // ------------------------------------------ who is offered, by the input

  /** Named, not tried yet, no earlier target of the rule has its address, and its route is not known to be open. */
  predicate Eligible(inp: Input, i: nat)
  {
    && i < |inp.targets| && inp.targets[i].Target? && |inp.targets[i].address| > 0
    && !(inp.targets[i].address in inp.excluded)
    && (forall j :: 0 <= j < i ==> inp.targets[j].NoTarget? || inp.targets[j].address != inp.targets[i].address)
    && (IsKnown(inp, i) ==> !inp.routes[inp.targets[i].address].open)
  }

  lemma PoolExactly(inp: Input, i: nat)
    ensures i in Pool(inp) <==> Eligible(inp, i)
  {
  }

  /** What a target costs: its penalty, and for a known route all of its cost. */
  function Price(inp: Input, pens: seq<nat>, i: nat): nat
    requires i < |pens|
  {
    if IsKnown(inp, i) then Cost(inp, pens, i) else pens[i]
  }

  ghost predicate Claimable(inp: Input, i: nat)
    requires WellFormed(inp)
  {
    Eligible(inp, i) && inp.penalties[i] > 0 && inp.claims[i] != 0
  }

  /** The reserved probe: the cheapest claimable target, ties by position; none exactly if none is wanted or claimable. */
  lemma ProbeExactly(inp: Input, reserve: bool, probe: Option<nat>)
    requires WellFormed(inp)
    ensures ProbeIs(inp, reserve, probe) <==>
      match probe
      case None => reserve ==> forall i: nat :: !Claimable(inp, i)
      case Some(p) =>
        && reserve && Claimable(inp, p)
        && forall i: nat :: Claimable(inp, i) && i != p ==>
             || Price(inp, inp.penalties, p) < Price(inp, inp.penalties, i)
             || (Price(inp, inp.penalties, p) == Price(inp, inp.penalties, i) && p < i)
  {
    hide Pool, Eligible, CandidateAt;
    forall i: nat ensures ClaimSucceeds(inp, i) <==> Claimable(inp, i) {
      PoolExactly(inp, i);
    }
    forall i | i in Pool(inp)
      ensures CandidateAt(inp, inp.penalties, i).index == i
      ensures CandidateAt(inp, inp.penalties, i).score == Price(inp, inp.penalties, i)
    {
      CandidateFacts(inp, inp.penalties, i);
    }
  }

  /**
   * The ranked targets: the eligible ones besides the probe, without the
   * penalised ones while an eligible one has no penalty. Penalties are asked
   * again when a probe was wanted, some eligible target is penalised and none could be claimed.
   */
  lemma RankedExactly(inp: Input, reserve: bool, probe: Option<nat>, i: nat)
    requires WellFormed(inp)
    ensures
      var again := reserve && probe.None? && exists j: nat :: Eligible(inp, j) && inp.penalties[j] > 0;
      var pens := if again then inp.refreshed else inp.penalties;
      && Effective(inp, reserve, probe) == pens
      && (i in Ranked(inp, reserve, probe) <==>
            Eligible(inp, i) && probe != Some(i) && (pens[i] > 0 ==> forall j: nat :: Eligible(inp, j) ==> pens[j] > 0))
  {
    hide Pool, Eligible;
    forall j: nat ensures j in Pool(inp) <==> Eligible(inp, j) {
      PoolExactly(inp, j);
    }
  }

  /** In every reachable state of the circuits, no target with an open circuit is ever selected. */
  lemma OpenCircuitsAreNotOffered(
    run: seq<RouteCircuitRuns.Event>, rule: string, inp: Input, reserve: bool, probe: Option<nat>, i: nat)
    requires RouteCircuitRuns.Legal(RouteCircuitRuns.START, run)
    requires var w := RouteCircuitRuns.After(RouteCircuitRuns.START, run);
      forall a :: a in inp.routes ==> inp.routes[a] == RouteOf(w.g, RouteKey(rule, a))
    requires WellFormed(inp) && (probe.Some? ==> probe.value in Pool(inp)) && i in Offered(inp, reserve, probe)
    ensures i in Pool(inp) && !RouteAt(inp, i).open
  {
    hide Ranked;
    var w := RouteCircuitRuns.After(RouteCircuitRuns.START, run);
    RouteCircuitRuns.RunKeepsInv(run);
    OfferedInPool(inp, reserve, probe);
    assert RouteCircuitRuns.RouteInv(w, RouteKey(rule, inp.targets[i].address));
  }
}
