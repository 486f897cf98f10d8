/**
 * The foreground dial bulkhead: one server-wide and one per-target limit over
 * the same slots, with a first-come queue of waiters and cancellation that may
 * race a grant.
 */
module DialBulkhead {

  datatype Limits = Limits(global: nat, perTarget: nat)

  datatype Waiter = Waiter(id: nat, target: string)

  datatype Scope = Unknown | Global | Target

  /** `granted`: waiters given a slot they have not picked up; `permits`: slots in use. */
  datatype State = State(
    active: int, waiting: int, byTarget: map<string, int>, queue: seq<Waiter>,
    granted: map<nat, string>, permits: map<nat, string>, nextId: nat)

  const EMPTY := State(0, 0, map[], [], map[], map[], 0)

  function Count(byTarget: map<string, int>, target: string): int
  {
    if target in byTarget then byTarget[target] else 0
  }

  predicate CanAdmit(l: Limits, s: State, target: string)
  {
    s.active < l.global && Count(s.byTarget, target) < l.perTarget
  }

  function SaturationScope(l: Limits, s: State, target: string): Scope
  {
    if s.active >= l.global then Global
    else if Count(s.byTarget, target) >= l.perTarget then Target
    else Unknown
  }

  function Occupy(s: State, target: string): State
  {
    s.(active := s.active + 1, byTarget := s.byTarget[target := Count(s.byTarget, target) + 1])
  }

  function Vacate(s: State, target: string): State
  {
    s.(active := if s.active > 0 then s.active - 1 else s.active,
       byTarget := if Count(s.byTarget, target) > 1 then s.byTarget[target := s.byTarget[target] - 1]
                   else s.byTarget - {target})
  }

  function Without(queue: seq<Waiter>, i: nat): seq<Waiter>
    requires i < |queue|
  {
    queue[..i] + queue[i + 1..]
  }

  /** The waiter at position i leaves the queue with a slot. */
  function GrantAt(s: State, i: nat): State
    requires i < |s.queue|
  {
    Occupy(s, s.queue[i].target).(
      queue := Without(s.queue, i), waiting := s.waiting - 1,
      granted := s.granted[s.queue[i].id := s.queue[i].target])
  }

  /** The granting scan from position i on: it may grant any number of waiters. */
  function Scan(l: Limits, s: State, i: nat): State
    requires i <= |s.queue|
    decreases |s.queue| - i
  {
    if i == |s.queue| || s.active >= l.global then s
    else if Count(s.byTarget, s.queue[i].target) >= l.perTarget then Scan(l, s, i + 1)
    else Scan(l, GrantAt(s, i), i)
  }

  lemma ScanStep(l: Limits, s: State, i: nat)
    requires i <= |s.queue|
    ensures Scan(l, s, i) ==
      if i == |s.queue| || s.active >= l.global then s
      else if Count(s.byTarget, s.queue[i].target) >= l.perTarget then Scan(l, s, i + 1)
      else Scan(l, GrantAt(s, i), i)
  {
  }

  function TryAcquire(l: Limits, s: State, target: string): (State, bool)
  {
    if CanAdmit(l, s, target) then
      (Occupy(s, target).(permits := s.permits[s.nextId := target], nextId := s.nextId + 1), true)
    else (s, false)
  }

  /** The first step of a waiting acquisition: a slot at once, or a place at the end of the queue. */
  function Enter(l: Limits, s: State, target: string): (State, bool)
  {
    if CanAdmit(l, s, target) then TryAcquire(l, s, target)
    else
      (s.(queue := s.queue + [Waiter(s.nextId, target)], waiting := s.waiting + 1, nextId := s.nextId + 1), false)
  }

  function Claim(s: State, id: nat): State
  {
    if id !in s.granted then s
    else s.(granted := s.granted - {id}, permits := s.permits[id := s.granted[id]])
  }

  function Position(queue: seq<Waiter>, id: nat): (i: nat)
    ensures i <= |queue| && (i < |queue| ==> queue[i].id == id)
    ensures forall j :: 0 <= j < i ==> queue[j].id != id
  {
    if queue == [] || queue[0].id == id then 0 else 1 + Position(queue[1..], id)
  }

  /** A granted waiter hands its slot on; a queued one leaves; a departed one is ignored. */
  function Cancel(l: Limits, s: State, id: nat): State
  {
    if id in s.granted then Scan(l, Vacate(s, s.granted[id]).(granted := s.granted - {id}), 0)
    else
      var i := Position(s.queue, id);
      if i < |s.queue| then s.(queue := Without(s.queue, i), waiting := s.waiting - 1) else s
  }

  /** A second release of the same permit does nothing. */
  function Release(l: Limits, s: State, id: nat): State
  {
    if id !in s.permits then s
    else Scan(l, Vacate(s, s.permits[id]).(permits := s.permits - {id}), 0)
  }

  // -------------------------------------------------------------- the object

  class Bulkhead {
    const globalLimit: nat
    const perTargetLimit: nat
    var active: int
    var waiting: int
    var activeByTarget: map<string, int>
    var waiters: seq<Waiter>
    var granted: map<nat, string>
    var permits: map<nat, string>
    var nextId: nat

    ghost function View(): State
      reads this
    {
      State(active, waiting, activeByTarget, waiters, granted, permits, nextId)
    }

    ghost function Bounds(): Limits
    {
      Limits(globalLimit, perTargetLimit)
    }

    constructor (global: int, perTarget: int)
      ensures View() == EMPTY
      ensures 1 <= perTargetLimit <= globalLimit
      ensures 1 <= perTarget <= global ==> globalLimit == global && perTargetLimit == perTarget
    {
      var g := if global < 1 then 1 else global;
      var p := if perTarget < 1 then 1 else perTarget;
      globalLimit := g;
      perTargetLimit := if p > g then g else p;
      active, waiting, activeByTarget, waiters := 0, 0, map[], [];
      granted, permits, nextId := map[], map[], 0;
    }

    method AdmitLocked(target: string) returns (id: nat)
      modifies this
      ensures View() == Occupy(old(View()), target).(permits := old(permits)[old(nextId) := target], nextId := old(nextId) + 1)
      ensures id == old(nextId)
    {
      active := active + 1;
      activeByTarget := activeByTarget[target := Count(activeByTarget, target) + 1];
      id := nextId;
      nextId := nextId + 1;
      permits := permits[id := target];
    }

    method TryAcquirePermit(target: string) returns (admitted: bool, id: nat, scope: Scope)
      modifies this
      ensures (View(), admitted) == TryAcquire(Bounds(), old(View()), target)
      ensures if admitted then id == old(nextId) && id in permits && permits[id] == target
              else scope == SaturationScope(Bounds(), old(View()), target) && scope != Unknown
    {
      admitted, id, scope := false, 0, Unknown;
      if active < globalLimit && Count(activeByTarget, target) < perTargetLimit {
        id := AdmitLocked(target);
        admitted := true;
      } else if active >= globalLimit {
        scope := Global;
      } else {
        scope := Target;
      }
    }

    method EnterAcquire(target: string) returns (admitted: bool, id: nat)
      modifies this
      ensures (View(), admitted) == Enter(Bounds(), old(View()), target)
      ensures id == old(nextId)
    {
      if active < globalLimit && Count(activeByTarget, target) < perTargetLimit {
        id := AdmitLocked(target);
        return true, id;
      }
      id := nextId;
      nextId := nextId + 1;
      waiters := waiters + [Waiter(id, target)];
      waiting := waiting + 1;
      admitted := false;
    }

    method ClaimGrant(id: nat)
      requires id in granted
      modifies this`granted, this`permits
      ensures View() == Claim(old(View()), id)
    {
      permits := permits[id := granted[id]];
      granted := granted - {id};
    }

    method ReleaseLocked(target: string)
      modifies this`active, this`activeByTarget
      ensures View() == Vacate(old(View()), target)
    {
      if active > 0 {
        active := active - 1;
      }
      if Count(activeByTarget, target) > 1 {
        activeByTarget := activeByTarget[target := activeByTarget[target] - 1];
      } else {
        activeByTarget := activeByTarget - {target};
      }
    }

    /** The linked-list walk: granted elements are removed while the walk goes on. */
    method GrantWaitersLocked()
      modifies this`active, this`activeByTarget, this`waiters, this`waiting, this`granted
      ensures View() == Scan(Bounds(), old(View()), 0)
    {
      hide Scan;
      ghost var was := View();
      var i := 0;
      while i < |waiters| && active < globalLimit
        invariant 0 <= i <= |waiters|
        invariant Scan(Bounds(), View(), i) == Scan(Bounds(), was, 0)
        decreases |waiters| - i
      {
        var waiter := waiters[i];
        ScanStep(Bounds(), View(), i);
        if Count(activeByTarget, waiter.target) >= perTargetLimit {
          i := i + 1;
        } else {
          ghost var next := GrantAt(View(), i);
          waiters := waiters[..i] + waiters[i + 1..];
          waiting := waiting - 1;
          active := active + 1;
          activeByTarget := activeByTarget[waiter.target := Count(activeByTarget, waiter.target) + 1];
          granted := granted[waiter.id := waiter.target];
          assert View() == next;
        }
      }
      ScanStep(Bounds(), View(), i);
    }

    method CancelWaiter(id: nat, target: string) returns (scope: Scope)
      modifies this
      ensures View() == Cancel(Bounds(), old(View()), id)
      ensures scope == SaturationScope(Bounds(), old(View()), target)
    {
      scope := SaturationScope(Limits(globalLimit, perTargetLimit), State(active, waiting, activeByTarget, waiters, granted, permits, nextId), target);
      if id in granted {
        var held := granted[id];
        granted := granted - {id};
        ReleaseLocked(held);
        GrantWaitersLocked();
      } else {
        var i := Position(waiters, id);
        if i < |waiters| {
          waiters := waiters[..i] + waiters[i + 1..];
          waiting := waiting - 1;
        }
      }
    }

    method ReleasePermit(id: nat)
      modifies this
      ensures View() == Release(Bounds(), old(View()), id)
    {
      if id in permits {
        var target := permits[id];
        permits := permits - {id};
        ReleaseLocked(target);
        GrantWaitersLocked();
      }
    }
  }

  // ------------------------------------------------------------- invariants

  ghost function On(slots: map<nat, string>, target: string): set<nat>
  {
    set id | id in slots && slots[id] == target
  }

  /** Grants not yet picked up plus permits not yet released, for one target. */
  ghost function Held(s: State, target: string): nat
  {
    |On(s.granted, target)| + |On(s.permits, target)|
  }

  /** The counters are the unpicked grants and the unreleased permits, within both limits. */
  ghost predicate Balanced(l: Limits, s: State)
  {
    && s.active == |s.granted| + |s.permits| <= l.global
    && (forall t :: Count(s.byTarget, t) == Held(s, t) <= l.perTarget)
    && s.waiting == |s.queue|
  }

  ghost predicate Distinct(s: State)
  {
    && (forall id :: id in s.granted ==> id < s.nextId && id !in s.permits)
    && (forall id :: id in s.permits ==> id < s.nextId)
    && (forall i :: 0 <= i < |s.queue| ==> s.queue[i].id < s.nextId && s.queue[i].id !in s.granted && s.queue[i].id !in s.permits)
  }

  /** The queue is in arrival order, and nobody who came later for the same target holds a slot. */
  ghost predicate NoOvertaking(s: State)
  {
    && (forall i, j :: 0 <= i < j < |s.queue| ==> s.queue[i].id < s.queue[j].id)
    && (forall i, id :: 0 <= i < |s.queue| && id in s.granted && s.granted[id] == s.queue[i].target ==> id < s.queue[i].id)
    && (forall i, id :: 0 <= i < |s.queue| && id in s.permits && s.permits[id] == s.queue[i].target ==> id < s.queue[i].id)
  }

  /** No waiter is left in the queue that could have a slot. */
  ghost predicate WorkConserving(l: Limits, s: State)
  {
    forall i :: 0 <= i < |s.queue| ==> !CanAdmit(l, s, s.queue[i].target)
  }

  ghost predicate Inv(l: Limits, s: State)
  {
    Balanced(l, s) && Distinct(s) && NoOvertaking(s) && WorkConserving(l, s)
  }

  /** Position i holds the first waiter, in queue order, that could have a slot. */
  ghost predicate FirstAdmissible(l: Limits, s: State, i: nat)
  {
    && i < |s.queue| && CanAdmit(l, s, s.queue[i].target)
    && forall j :: 0 <= j < i ==> !CanAdmit(l, s, s.queue[j].target)
  }

  // -------------------------------------------------------- counting of slots

  lemma SizeAdded(slots: map<nat, string>, id: nat, target: string)
    requires id !in slots
    ensures |slots[id := target]| == |slots| + 1
  {
    var more := slots[id := target];
    assert more.Keys == slots.Keys + {id};
    assert |more| == |more.Keys| && |slots| == |slots.Keys|;
  }

  lemma SizeRemoved(slots: map<nat, string>, id: nat)
    requires id in slots
    ensures |slots - {id}| == |slots| - 1
  {
    var less := slots - {id};
    assert less.Keys == slots.Keys - {id};
    assert |less| == |less.Keys| && |slots| == |slots.Keys|;
  }

  lemma OnAdded(slots: map<nat, string>, id: nat, target: string, t: string)
    requires id !in slots
    ensures |On(slots[id := target], t)| == |On(slots, t)| + (if t == target then 1 else 0)
  {
    if t == target {
      assert On(slots[id := target], t) == On(slots, t) + {id};
    } else {
      assert On(slots[id := target], t) == On(slots, t);
    }
  }

  lemma OnRemoved(slots: map<nat, string>, id: nat, t: string)
    requires id in slots
    ensures |On(slots - {id}, t)| == |On(slots, t)| - (if t == slots[id] then 1 else 0)
  {
    if t == slots[id] {
      assert On(slots - {id}, t) == On(slots, t) - {id};
    } else {
      assert On(slots - {id}, t) == On(slots, t);
    }
  }

  lemma CountOccupied(s: State, target: string, t: string)
    ensures Count(Occupy(s, target).byTarget, t) == Count(s.byTarget, t) + (if t == target then 1 else 0)
  {
  }

  lemma CountVacated(s: State, target: string, t: string)
    requires Count(s.byTarget, target) >= 1
    ensures Count(Vacate(s, target).byTarget, t) == Count(s.byTarget, t) - (if t == target then 1 else 0)
  {
  }

  // ------------------------------------------------- one release, one grant

  ghost function FirstFrom(l: Limits, s: State, i: nat): (k: nat)
    requires i <= |s.queue|
    ensures i <= k <= |s.queue|
    ensures k < |s.queue| ==> CanAdmit(l, s, s.queue[k].target)
    ensures forall j :: i <= j < k ==> !CanAdmit(l, s, s.queue[j].target)
    decreases |s.queue| - i
  {
    if i == |s.queue| || CanAdmit(l, s, s.queue[i].target) then i else FirstFrom(l, s, i + 1)
  }

  /** The independent reference for a release: the first admissible waiter, if any, and nobody else. */
  ghost function GrantFirst(l: Limits, s: State): State
  {
    var k := FirstFrom(l, s, 0);
    if k < |s.queue| then GrantAt(s, k) else s
  }

  /** One slot of `target` was just vacated in a state where nobody could be admitted. */
  ghost predicate RoomForOne(l: Limits, s: State, target: string)
  {
    s.active + 1 >= l.global || forall i :: 0 <= i < |s.queue| ==>
      Count(s.byTarget, s.queue[i].target) + (if s.queue[i].target == target then 1 else 0) >= l.perTarget
  }

  lemma {:induction false} ScanIdle(l: Limits, s: State, i: nat)
    requires i <= |s.queue|
    requires forall j :: i <= j < |s.queue| ==> !CanAdmit(l, s, s.queue[j].target)
    ensures Scan(l, s, i) == s
    decreases |s.queue| - i
  {
    if i < |s.queue| && s.active < l.global {
      assert !CanAdmit(l, s, s.queue[i].target);
      ScanIdle(l, s, i + 1);
    }
  }

  lemma {:induction false} ScanSkips(l: Limits, s: State, i: nat, k: nat)
    requires i <= k < |s.queue| && CanAdmit(l, s, s.queue[k].target)
    requires forall j :: i <= j < k ==> !CanAdmit(l, s, s.queue[j].target)
    ensures Scan(l, s, i) == Scan(l, GrantAt(s, k), k)
    decreases k - i
  {
    hide Scan;
    ScanStep(l, s, i);
    if i < k {
      ScanSkips(l, s, i + 1, k);
    }
  }

  lemma GrantSettles(l: Limits, s: State, target: string, k: nat)
    requires RoomForOne(l, s, target) && FirstAdmissible(l, s, k)
    ensures WorkConserving(l, GrantAt(s, k))
  {
    var r := GrantAt(s, k);
    forall i | 0 <= i < |r.queue| ensures !CanAdmit(l, r, r.queue[i].target) {
      var j := if i < k then i else i + 1;
      assert r.queue[i] == s.queue[j];
      CountOccupied(s, s.queue[k].target, s.queue[j].target);
    }
  }

  lemma ScanGrantsFirst(l: Limits, s: State, target: string)
    requires RoomForOne(l, s, target)
    ensures Scan(l, s, 0) == GrantFirst(l, s)
    ensures WorkConserving(l, GrantFirst(l, s))
  {
    hide Scan, GrantAt, RoomForOne;
    var k := FirstFrom(l, s, 0);
    if k < |s.queue| {
      GrantSettles(l, s, target, k);
      ScanSkips(l, s, 0, k);
      GrantLength(s, k);
      assert forall j :: k <= j < |GrantAt(s, k).queue| ==> !CanAdmit(l, GrantAt(s, k), GrantAt(s, k).queue[j].target);
      ScanIdle(l, GrantAt(s, k), k);
    } else {
      ScanIdle(l, s, 0);
    }
  }

  lemma GrantLength(s: State, k: nat)
    requires k < |s.queue|
    ensures |GrantAt(s, k).queue| == |s.queue| - 1
  {
  }

  // ------------------------------------------- what each operation preserves

  lemma OccupyBalances(l: Limits, s: State, target: string)
    requires Balanced(l, s) && Distinct(s) && CanAdmit(l, s, target)
    ensures Balanced(l, TryAcquire(l, s, target).0)
  {
    hide On;
    var r := TryAcquire(l, s, target).0;
    assert s.nextId !in s.permits;
    SizeAdded(s.permits, s.nextId, target);
    forall t ensures Count(r.byTarget, t) == Held(r, t) <= l.perTarget {
      CountOccupied(s, target, t);
      OnAdded(s.permits, s.nextId, target, t);
      assert Count(s.byTarget, t) == Held(s, t);
    }
  }

  lemma GrantBalances(l: Limits, s: State, k: nat)
    requires Balanced(l, s) && Distinct(s) && k < |s.queue| && CanAdmit(l, s, s.queue[k].target)
    ensures Balanced(l, GrantAt(s, k))
  {
    hide On;
    var r, w := GrantAt(s, k), s.queue[k];
    SizeAdded(s.granted, w.id, w.target);
    forall t ensures Count(r.byTarget, t) == Held(r, t) <= l.perTarget {
      CountOccupied(s, w.target, t);
      OnAdded(s.granted, w.id, w.target, t);
      assert Count(s.byTarget, t) == Held(s, t);
    }
  }

  lemma GrantKeepsOrder(l: Limits, s: State, k: nat)
    requires Distinct(s) && NoOvertaking(s) && FirstAdmissible(l, s, k)
    ensures Distinct(GrantAt(s, k)) && NoOvertaking(GrantAt(s, k))
  {
    hide Occupy, Without;
    var w := s.queue[k];
    forall i | 0 <= i < k ensures s.queue[i].target != w.target {
      assert !CanAdmit(l, s, s.queue[i].target);
    }
    hide CanAdmit;
    WithoutElements(s.queue, k);
    OccupiedFrame(s, w.target);
    GrantKeepsDistinct(s, k);
  }

  lemma OccupiedFrame(s: State, target: string)
    ensures var r := Occupy(s, target); r.permits == s.permits && r.granted == s.granted && r.nextId == s.nextId
  {
  }

  lemma GrantKeepsDistinct(s: State, k: nat)
    requires Distinct(s) && NoOvertaking(s) && k < |s.queue|
    ensures Distinct(GrantAt(s, k))
  {
    hide Occupy, Without;
    WithoutElements(s.queue, k);
    OccupiedFrame(s, s.queue[k].target);
  }

  /** A slot handed back: by a permit holder or by a waiter that gave up after its grant. */
  ghost function Freed(s: State, id: nat): State
  {
    if id in s.granted then Vacate(s, s.granted[id]).(granted := s.granted - {id})
    else if id in s.permits then Vacate(s, s.permits[id]).(permits := s.permits - {id})
    else s
  }

  lemma FreedBalances(l: Limits, s: State, id: nat)
    requires Balanced(l, s) && Distinct(s) && (id in s.granted || id in s.permits)
    ensures Balanced(l, Freed(s, id))
  {
    hide On, Distinct, Vacate, Count;
    var r := Freed(s, id);
    var slots := if id in s.granted then s.granted else s.permits;
    SizeRemoved(slots, id);
    Member(slots, id);
    assert Count(s.byTarget, slots[id]) == Held(s, slots[id]);
    VacatedFrame(s, slots[id]);
    forall t ensures Count(r.byTarget, t) == Held(r, t) <= l.perTarget {
      FreedCount(s, id, t);
      assert Count(s.byTarget, t) == Held(s, t);
    }
  }

  lemma VacatedFrame(s: State, target: string)
    ensures
      var r := Vacate(s, target);
      && r.queue == s.queue && r.waiting == s.waiting && r.granted == s.granted && r.permits == s.permits
      && (s.active > 0 ==> r.active == s.active - 1)
  {
  }

  lemma FreedCount(s: State, id: nat, t: string)
    requires id in s.granted || id in s.permits
    requires
      var slots := if id in s.granted then s.granted else s.permits;
      Count(s.byTarget, slots[id]) >= 1
    ensures Count(Freed(s, id).byTarget, t) - Held(Freed(s, id), t) == Count(s.byTarget, t) - Held(s, t)
    ensures Held(Freed(s, id), t) <= Held(s, t)
  {
    hide On, Vacate, Count;
    var slots := if id in s.granted then s.granted else s.permits;
    VacatedFrame(s, slots[id]);
    CountVacated(s, slots[id], t);
    OnRemoved(slots, id, t);
  }

  lemma Member(slots: map<nat, string>, id: nat)
    requires id in slots
    ensures id in On(slots, slots[id]) && |On(slots, slots[id])| >= 1
  {
    assert |On(slots, slots[id])| >= |{id}| by {
      assert On(slots, slots[id]) == (On(slots, slots[id]) - {id}) + {id};
    }
  }

  lemma FreedLeavesRoom(l: Limits, s: State, id: nat)
    requires Inv(l, s) && (id in s.granted || id in s.permits)
    ensures RoomForOne(l, Freed(s, id), (if id in s.granted then s.granted else s.permits)[id])
  {
    hide On, Distinct, NoOvertaking;
    var r := Freed(s, id);
    var slots := if id in s.granted then s.granted else s.permits;
    var target := slots[id];
    Member(slots, id);
    assert Count(s.byTarget, target) == Held(s, target) >= 1;
    forall i | 0 <= i < |r.queue| && s.active < l.global
      ensures Count(r.byTarget, r.queue[i].target) + (if r.queue[i].target == target then 1 else 0) >= l.perTarget
    {
      CountVacated(s, target, r.queue[i].target);
      assert !CanAdmit(l, s, s.queue[i].target);
    }
  }

  lemma FreedKeepsOrder(s: State, id: nat)
    requires Distinct(s) && NoOvertaking(s)
    ensures Distinct(Freed(s, id)) && NoOvertaking(Freed(s, id))
  {
  }

  /**
   * Handing back one slot serves at most one waiter, and that waiter is the
   * first in queue order that could be admitted; nobody admissible is left.
   */
  lemma ReleaseGrantsFirstAdmissible(l: Limits, s: State, id: nat)
    requires Inv(l, s) && (id in s.granted || id in s.permits)
    ensures Scan(l, Freed(s, id), 0) == GrantFirst(l, Freed(s, id))
    ensures Inv(l, GrantFirst(l, Freed(s, id)))
  {
    hide Scan, Balanced, Distinct, NoOvertaking, WorkConserving, GrantAt, RoomForOne, Freed;
    var f := Freed(s, id);
    FreedBalances(l, s, id);
    FreedKeepsOrder(s, id);
    FreedLeavesRoom(l, s, id);
    ScanGrantsFirst(l, f, (if id in s.granted then s.granted else s.permits)[id]);
    var k := FirstFrom(l, f, 0);
    if k < |f.queue| {
      GrantBalances(l, f, k);
      GrantKeepsOrder(l, f, k);
    }
  }

  /** Whoever is admitted on arrival, waiting or not, finds nobody queued for that target. */
  lemma NewcomerNeverOvertakes(l: Limits, s: State, target: string, i: nat)
    requires Inv(l, s) && i < |s.queue|
    requires TryAcquire(l, s, target).1 || Enter(l, s, target).1
    ensures s.queue[i].target != target
  {
    assert CanAdmit(l, s, target);
    assert !CanAdmit(l, s, s.queue[i].target);
  }

  // ---------------------------------------------------------------- all runs

  datatype Event =
    | Trying(target: string)
    | Entering(target: string)
    | Claiming(id: nat)
    | Cancelling(id: nat)
    | Releasing(id: nat)

  function Next(l: Limits, s: State, e: Event): State
  {
    match e
    case Trying(t) => TryAcquire(l, s, t).0
    case Entering(t) => Enter(l, s, t).0
    case Claiming(id) => Claim(s, id)
    case Cancelling(id) => Cancel(l, s, id)
    case Releasing(id) => Release(l, s, id)
  }

  function After(l: Limits, s: State, run: seq<Event>): State
  {
    if run == [] then s else Next(l, After(l, s, run[..|run| - 1]), run[|run| - 1])
  }

  lemma AdmissionKeepsInv(l: Limits, s: State, target: string)
    requires Inv(l, s)
    ensures Inv(l, TryAcquire(l, s, target).0)
  {
    hide Balanced;
    if CanAdmit(l, s, target) {
      OccupyBalances(l, s, target);
      var r := TryAcquire(l, s, target).0;
      forall i | 0 <= i < |r.queue| ensures !CanAdmit(l, r, r.queue[i].target) && r.queue[i].target != target {
        NewcomerNeverOvertakes(l, s, target, i);
        CountOccupied(s, target, s.queue[i].target);
        assert !CanAdmit(l, s, s.queue[i].target);
      }
    }
  }

  lemma EnterKeepsInv(l: Limits, s: State, target: string)
    requires Inv(l, s)
    ensures Inv(l, Enter(l, s, target).0)
  {
    if CanAdmit(l, s, target) {
      AdmissionKeepsInv(l, s, target);
    } else {
      hide On;
      var r := Enter(l, s, target).0;
      assert forall t :: Held(r, t) == Held(s, t);
    }
  }

  lemma ClaimBalances(l: Limits, s: State, id: nat)
    requires Balanced(l, s) && Distinct(s) && id in s.granted
    ensures Balanced(l, Claim(s, id))
  {
    hide On;
    var r := Claim(s, id);
    SizeAdded(s.permits, id, s.granted[id]);
    SizeRemoved(s.granted, id);
    forall t ensures Count(r.byTarget, t) == Held(r, t) <= l.perTarget {
      OnAdded(s.permits, id, s.granted[id], t);
      OnRemoved(s.granted, id, t);
      assert Count(s.byTarget, t) == Held(s, t);
    }
  }

  lemma ClaimKeepsInv(l: Limits, s: State, id: nat)
    requires Inv(l, s)
    ensures Inv(l, Claim(s, id))
  {
    hide Balanced;
    if id in s.granted {
      ClaimBalances(l, s, id);
    }
  }

  lemma LeavingKeepsInv(l: Limits, s: State, k: nat)
    requires Inv(l, s) && k < |s.queue|
    ensures Inv(l, s.(queue := Without(s.queue, k), waiting := s.waiting - 1))
  {
    LeavingBalances(l, s, k);
    LeavingKeepsOrder(s, k);
    hide Balanced, Distinct, NoOvertaking;
    WithoutElements(s.queue, k);
    hide Without;
  }

  lemma WithoutElements(queue: seq<Waiter>, k: nat)
    requires k < |queue|
    ensures |Without(queue, k)| == |queue| - 1
    ensures forall i :: 0 <= i < |queue| - 1 ==> Without(queue, k)[i] == queue[if i < k then i else i + 1]
  {
  }

  lemma LeavingBalances(l: Limits, s: State, k: nat)
    requires Balanced(l, s) && k < |s.queue|
    ensures Balanced(l, s.(queue := Without(s.queue, k), waiting := s.waiting - 1))
  {
    hide On;
    var r := s.(queue := Without(s.queue, k), waiting := s.waiting - 1);
    assert forall t :: Held(r, t) == Held(s, t);
  }

  lemma LeavingKeepsOrder(s: State, k: nat)
    requires Distinct(s) && NoOvertaking(s) && k < |s.queue|
    ensures var r := s.(queue := Without(s.queue, k), waiting := s.waiting - 1); Distinct(r) && NoOvertaking(r)
  {
    WithoutElements(s.queue, k);
    hide Without;
  }

  lemma StepKeepsInv(l: Limits, s: State, e: Event)
    requires Inv(l, s)
    ensures Inv(l, Next(l, s, e))
  {
    hide Inv, Scan, TryAcquire, Enter, Claim, Without;
    match e
    case Trying(t) => AdmissionKeepsInv(l, s, t);
    case Entering(t) => EnterKeepsInv(l, s, t);
    case Claiming(id) => ClaimKeepsInv(l, s, id);
    case Cancelling(id) =>
      if id in s.granted {
        ReleaseGrantsFirstAdmissible(l, s, id);
      } else if Position(s.queue, id) < |s.queue| {
        LeavingKeepsInv(l, s, Position(s.queue, id));
      }
    case Releasing(id) =>
      if id in s.permits {
        PermitIsNoGrant(l, s, id);
        ReleaseGrantsFirstAdmissible(l, s, id);
      }
  }

  lemma PermitIsNoGrant(l: Limits, s: State, id: nat)
    requires Inv(l, s) && id in s.permits
    ensures id !in s.granted
  {
  }

  /**
   * Over every run: the counters are exactly the slots in use, within both
   * limits; no admissible waiter is queued; and of two callers for the same
   * target the later one never holds a slot while the earlier one waits.
   */
  lemma {:induction false} RunKeepsInv(l: Limits, run: seq<Event>)
    ensures Inv(l, After(l, EMPTY, run))
  {
    if run == [] {
      assert forall t :: On(map[], t) == {};
      hide On;
      assert Balanced(l, EMPTY);
    } else {
      RunKeepsInv(l, run[..|run| - 1]);
      StepKeepsInv(l, After(l, EMPTY, run[..|run| - 1]), run[|run| - 1]);
    }
  }

  /** A release or a cancelled grant, in any reachable state, serves exactly the first admissible waiter. */
  lemma EveryReleaseServesFirst(l: Limits, run: seq<Event>, id: nat)
    ensures var s := After(l, EMPTY, run);
      id in s.permits ==> Next(l, s, Releasing(id)) == GrantFirst(l, Freed(s, id))
    ensures var s := After(l, EMPTY, run);
      id in s.granted ==> Next(l, s, Cancelling(id)) == GrantFirst(l, Freed(s, id))
  {
    hide Scan, GrantFirst, Inv;
    var s := After(l, EMPTY, run);
    RunKeepsInv(l, run);
    if id in s.permits {
      PermitIsNoGrant(l, s, id);
      ReleaseGrantsFirstAdmissible(l, s, id);
    } else if id in s.granted {
      ReleaseGrantsFirstAdmissible(l, s, id);
    }
  }

  /** Nobody waits forever by accounting alone: with every slot back, the queue is empty. */
  lemma IdleBulkheadHasNoWaiters(l: Limits, run: seq<Event>)
    requires 1 <= l.perTarget <= l.global
    ensures var s := After(l, EMPTY, run);
      s.granted == map[] && s.permits == map[] ==> s.active == 0 && s.queue == [] && s.waiting == 0
  {
    var s := After(l, EMPTY, run);
    RunKeepsInv(l, run);
    if s.granted == map[] && s.permits == map[] {
      forall t ensures Count(s.byTarget, t) == 0 {
        assert On(map[], t) == {};
        assert Count(s.byTarget, t) == Held(s, t);
      }
      assert s.queue != [] ==> CanAdmit(l, s, s.queue[0].target);
    }
  }

  ghost function Total(byTarget: map<string, int>, targets: set<string>): int
  {
    if targets == {} then 0
    else var t :| t in targets; Count(byTarget, t) + Total(byTarget, targets - {t})
  }

  ghost function Within(slots: map<nat, string>, targets: set<string>): set<nat>
  {
    set id | id in slots && slots[id] in targets
  }

  lemma WithinSplits(slots: map<nat, string>, targets: set<string>, t: string)
    requires t in targets
    ensures |Within(slots, targets)| == |On(slots, t)| + |Within(slots, targets - {t})|
  {
    assert Within(slots, targets) == On(slots, t) + Within(slots, targets - {t});
    assert On(slots, t) !! Within(slots, targets - {t});
  }

  lemma {:induction false} TotalCountsSlots(l: Limits, s: State, targets: set<string>)
    requires Balanced(l, s)
    ensures Total(s.byTarget, targets) == |Within(s.granted, targets)| + |Within(s.permits, targets)|
  {
    if targets != {} {
      var t :| t in targets && Total(s.byTarget, targets) == Count(s.byTarget, t) + Total(s.byTarget, targets - {t});
      assert Count(s.byTarget, t) == Held(s, t);
      TotalCountsSlots(l, s, targets - {t});
      WithinSplits(s.granted, targets, t);
      WithinSplits(s.permits, targets, t);
    } else {
      assert Within(s.granted, targets) == {} && Within(s.permits, targets) == {};
    }
  }

  lemma AllWithin(l: Limits, s: State, slots: map<nat, string>)
    requires Balanced(l, s) && (slots == s.granted || slots == s.permits)
    ensures |Within(slots, s.byTarget.Keys)| == |slots|
  {
    forall id | id in slots ensures slots[id] in s.byTarget {
      Member(slots, id);
      assert Count(s.byTarget, slots[id]) == Held(s, slots[id]);
    }
    assert Within(slots, s.byTarget.Keys) == slots.Keys;
    assert |slots.Keys| == |slots|;
  }

  /** The two levels agree: in every reachable state the per-target counters add up to the global one. */
  lemma LevelsAgree(l: Limits, run: seq<Event>)
    ensures var s := After(l, EMPTY, run); s.active == Total(s.byTarget, s.byTarget.Keys)
  {
    var s := After(l, EMPTY, run);
    RunKeepsInv(l, run);
    TotalCountsSlots(l, s, s.byTarget.Keys);
    AllWithin(l, s, s.granted);
    AllWithin(l, s, s.permits);
  }

  ghost predicate InUse(s: State)
  {
    forall t :: t in s.byTarget ==> s.byTarget[t] >= 1
  }

  lemma {:induction false} ScanKeepsInUse(l: Limits, s: State, i: nat)
    requires InUse(s) && i <= |s.queue|
    ensures InUse(Scan(l, s, i))
    decreases |s.queue| - i
  {
    hide InUse;
    if i < |s.queue| && s.active < l.global {
      if Count(s.byTarget, s.queue[i].target) >= l.perTarget {
        ScanKeepsInUse(l, s, i + 1);
      } else {
        OccupyKeepsInUse(s, GrantAt(s, i), s.queue[i].target);
        ScanKeepsInUse(l, GrantAt(s, i), i);
      }
    }
  }

  lemma OccupyKeepsInUse(s: State, r: State, target: string)
    requires InUse(s) && r.byTarget == Occupy(s, target).byTarget
    ensures InUse(r)
  {
  }

  /** No target keeps an entry without a slot in use: the bulkhead forgets targets nobody dials. */
  lemma {:induction false} EntriesAreInUse(l: Limits, run: seq<Event>)
    ensures forall t :: t in After(l, EMPTY, run).byTarget ==> After(l, EMPTY, run).byTarget[t] >= 1
  {
    if run != [] {
      var s, e := After(l, EMPTY, run[..|run| - 1]), run[|run| - 1];
      EntriesAreInUse(l, run[..|run| - 1]);
      assert InUse(s);
      StepKeepsInUse(l, s, e);
      assert InUse(Next(l, s, e));
    }
  }

  lemma StepKeepsInUse(l: Limits, s: State, e: Event)
    requires InUse(s)
    ensures InUse(Next(l, s, e))
  {
    hide Scan;
    match e
    case Trying(t) => OccupyKeepsInUse(s, Occupy(s, t), t);
    case Entering(t) => OccupyKeepsInUse(s, Occupy(s, t), t);
    case Claiming(id) =>
    case Cancelling(id) =>
      if id in s.granted {
        ScanKeepsInUse(l, Vacate(s, s.granted[id]).(granted := s.granted - {id}), 0);
      }
    case Releasing(id) =>
      if id in s.permits {
        ScanKeepsInUse(l, Vacate(s, s.permits[id]).(permits := s.permits - {id}), 0);
      }
  }

  /**
   * Who is admitted on arrival, in every reachable state: exactly whoever finds
   * fewer slots in use than the global limit and fewer for its target than the
   * target's. The others are refused, or wait at the end of the queue.
   */
  lemma AdmissionExactly(l: Limits, run: seq<Event>, target: string)
    ensures
      var s := After(l, EMPTY, run);
      var room := |s.granted| + |s.permits| < l.global && Held(s, target) < l.perTarget;
      var (tried, now) := TryAcquire(l, s, target);
      var (entered, atOnce) := Enter(l, s, target);
      && now == room && atOnce == room
      && (room ==> tried == entered && tried.permits == s.permits[s.nextId := target] && tried.granted == s.granted && tried.queue == s.queue)
      && (!room ==> tried == s && entered.queue == s.queue + [Waiter(s.nextId, target)]
                    && entered.permits == s.permits && entered.granted == s.granted)
      && (SaturationScope(l, s, target) ==
            if |s.granted| + |s.permits| >= l.global then Global else if Held(s, target) >= l.perTarget then Target else Unknown)
  {
    hide On, Distinct, NoOvertaking, WorkConserving;
    RunKeepsInv(l, run);
    var s := After(l, EMPTY, run);
    assert Count(s.byTarget, target) == Held(s, target);
  }

  /**
   * How a waiter leaves, in every reachable state: from the queue, with nobody
   * else moved; with its grant, which becomes its permit; and a second time, not
   * at all.
   */
  lemma LeavingExactly(l: Limits, run: seq<Event>, id: nat)
    ensures
      var s := After(l, EMPTY, run);
      var cancelled, claimed := Cancel(l, s, id), Claim(s, id);
      && (forall i :: 0 <= i < |s.queue| && s.queue[i].id == id ==>
            cancelled == s.(queue := s.queue[..i] + s.queue[i + 1..], waiting := |s.queue| - 1))
      && ((forall i :: 0 <= i < |s.queue| ==> s.queue[i].id != id) && id !in s.granted ==> cancelled == s)
      && (id in s.granted ==> claimed == s.(granted := s.granted - {id}, permits := s.permits[id := s.granted[id]]))
      && (id !in s.granted ==> claimed == s)
      && (id !in s.permits ==> Release(l, s, id) == s)
  {
    hide Scan, On, WorkConserving;
    RunKeepsInv(l, run);
  }
}
