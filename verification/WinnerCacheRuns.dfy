/** What holds of the winner cache over every run of its operations. */
module WinnerCacheRuns {
  import opened Clock
  import opened Sets
  import opened WinnerCache

  /** When an entry was stored: its key and address, how often the key had been touched by then, and the time. */
  datatype Stamp = Stamp(key: string, addr: string, touch: nat, at: Time)

  /**
   * The cache with its history: how often each key was touched by a store, a
   * deletion, an eviction or an expiry; the count of its key when each decision
   * began; and the stamp of every token handed out.
   */
  datatype World = World(c: Cache, touches: map<string, nat>, born: map<nat, nat>, stamps: map<nat, Stamp>)

  function Touches(w: World, key: string): nat
  {
    if key in w.touches then w.touches[key] else 0
  }

  function Touch(w: World, key: string): map<string, nat>
  {
    w.touches[key := Touches(w, key) + 1]
  }

  // ---------------------------------------------------- steps with history

  function Deleted(w: World, key: string): World
  {
    w.(c := Delete(w.c, key), touches := Touch(w, key))
  }

  function Stored(w: World, key: string, addr: string, now: Time, victim: string): World
  {
    var room := if Full(w.c, key) then Deleted(w, victim) else w;
    var (c, token) := Store(w.c, key, addr, now, victim);
    World(c, Touch(room, key), w.born, w.stamps[token.generation := Stamp(key, addr, Touches(room, key) + 1, now)])
  }

  function Aged(w: World, key: string, now: Time): World
  {
    if key in w.c.entries && !Live(w.c, key, now) then Deleted(w, key) else w
  }

  function Begun(w: World, key: string, now: Time): World
  {
    var aged := Aged(w, key, now);
    var (c, h) := Begin(w.c, key, now);
    aged.(c := c, born := w.born[h := Touches(aged, key)])
  }

  function Released(w: World, h: nat): World
  {
    w.(c := Release(w.c, h))
  }

  function Published(w: World, h: nat, addr: string, now: Time, victim: string): World
  {
    if Current(w.c, h, now) then Stored(Released(w, h), w.c.handles[h].key, addr, now, victim) else Released(w, h)
  }

  datatype Op =
    | Load(key: string)
    | Put(key: string, addr: string)
    | Drop(key: string)
    | Decide(key: string)
    | Forget(h: nat)
    | Announce(h: nat, addr: string)
    | Replace(token: Token, addr: string)
    | DropIf(token: Token)

  datatype Event = Event(op: Op, now: Time, victim: string)

  function Next(w: World, ev: Event): World
  {
    match ev.op
    case Load(key) => Aged(w, key, ev.now)
    case Put(key, addr) => Stored(w, key, addr, ev.now, ev.victim)
    case Drop(key) => Deleted(w, key)
    case Decide(key) => Begun(w, key, ev.now)
    case Forget(h) => Released(w, h)
    case Announce(h, addr) => Published(w, h, addr, ev.now, ev.victim)
    case Replace(token, addr) =>
      if Names(w.c, token) && Live(w.c, token.key, ev.now) then Stored(w, token.key, addr, ev.now, ev.victim) else w
    case DropIf(token) => if Names(w.c, token) then Deleted(w, token.key) else w
  }

  /** An eviction takes some entry that is there. */
  predicate Enabled(w: World, ev: Event)
  {
    |w.c.entries| >= CACHE_MAX ==> ev.victim in w.c.entries
  }

  ghost predicate Legal(w: World, run: seq<Event>)
    decreases |run|
  {
    run == [] || (Enabled(w, run[0]) && Legal(Next(w, run[0]), run[1..]))
  }

  function After(w: World, run: seq<Event>): World
    decreases |run|
  {
    if run == [] then w else After(Next(w, run[0]), run[1..])
  }

  // ------------------------------------------------------------- invariants

  /** The unreleased decisions that share one decision state. */
  ghost function Holders(handles: map<nat, Decision>, state: nat): set<nat>
  {
    set h | h in handles && !handles[h].released && handles[h].state == state
  }

  function Born(w: World, h: nat): nat
  {
    if h in w.born then w.born[h] else 0
  }

  /** The decision a handle stands for is still the registered one of its key. */
  predicate Registered(c: Cache, h: nat)
    requires h in c.handles
  {
    c.handles[h].key in c.decisions && c.decisions[c.handles[h].key] == c.handles[h].state
  }

  ghost predicate Identities(c: Cache)
  {
    && (forall h :: h in c.handles ==> h < c.nextId && c.handles[h].state in c.references)
    && (forall s :: s in c.references ==> s < c.nextId && c.references[s] == |Holders(c.handles, s)|)
    && (forall k :: k in c.decisions ==> c.decisions[k] in c.references && c.references[c.decisions[k]] > 0)
    && (forall k, h :: k in c.decisions && h in c.handles && c.handles[h].state == c.decisions[k] ==> c.handles[h].key == k)
  }

  ghost predicate Untouched(w: World)
  {
    && w.born.Keys == w.c.handles.Keys
    && forall h :: h in w.c.handles ==>
         && w.born[h] <= Touches(w, w.c.handles[h].key)
         && (!w.c.handles[h].released ==>
               (Registered(w.c, h) <==> w.born[h] == Touches(w, w.c.handles[h].key)))
  }

  ghost predicate Stamped(w: World)
  {
    && (forall k :: k in w.c.entries ==> w.c.entries[k].generation <= w.c.nextGeneration)
    && forall g :: g in w.stamps ==>
         && 0 < g <= w.c.nextGeneration
         && var s := w.stamps[g];
            && s.touch <= Touches(w, s.key)
            && (s.touch == Touches(w, s.key) <==> s.key in w.c.entries && w.c.entries[s.key].generation == g)
            && (s.key in w.c.entries && w.c.entries[s.key].generation == g ==>
                  w.c.entries[s.key].addr == s.addr && w.c.entries[s.key].expires == s.at + 30_000_000_000)
  }

  ghost predicate Inv(w: World)
  {
    Identities(w.c) && Untouched(w) && Stamped(w) && |w.c.entries| <= CACHE_MAX
  }

  /** A cache as a generation starts with it: possibly inherited entries, no decisions yet. */
  ghost predicate Start(w: World)
  {
    && w.c.decisions == map[] && w.c.references == map[] && w.c.handles == map[] && w.c.nextId == 0
    && w.touches == map[] && w.born == map[] && w.stamps == map[]
    && |w.c.entries| <= CACHE_MAX
    && forall k :: k in w.c.entries ==> w.c.entries[k].generation <= w.c.nextGeneration
  }

  lemma MapSizes(m: map<string, Entry>, key: string, e: Entry)
    ensures |m - {key}| == |m| - (if key in m then 1 else 0)
    ensures |m[key := e]| == |m| + (if key in m then 0 else 1)
  {
    assert (m - {key}).Keys == m.Keys - {key} && m[key := e].Keys == m.Keys + {key};
    assert |m - {key}| == |(m - {key}).Keys| && |m[key := e]| == |m[key := e].Keys| && |m| == |m.Keys|;
  }

  lemma FewerDecisionsKeepIdentities(c: Cache, c': Cache)
    requires Identities(c)
    requires c'.handles == c.handles && c'.references == c.references && c'.nextId == c.nextId
    requires forall k :: k in c'.decisions ==> k in c.decisions && c'.decisions[k] == c.decisions[k]
    ensures Identities(c')
  {
    hide Holders;
  }

  /** A touch of one key ends the claim of its decisions and of no others. */
  lemma TouchKeepsUntouched(w: World, w': World, key: string)
    requires Untouched(w) && w'.born == w.born && w'.c.handles == w.c.handles
    requires w'.touches == Touch(w, key)
    requires key !in w'.c.decisions
    requires forall k :: k != key ==> (k in w'.c.decisions <==> k in w.c.decisions)
    requires forall k :: k != key && k in w.c.decisions ==> w'.c.decisions[k] == w.c.decisions[k]
    ensures Untouched(w')
  {
    forall h | h in w'.c.handles
      ensures w'.born[h] <= Touches(w', w'.c.handles[h].key)
      ensures !w'.c.handles[h].released ==> (Registered(w'.c, h) <==> w'.born[h] == Touches(w', w'.c.handles[h].key))
    {
      var k := w.c.handles[h].key;
      assert Touches(w', k) == if k == key then Touches(w, k) + 1 else Touches(w, k);
    }
  }

  lemma DeletedStamped(w: World, key: string)
    requires Stamped(w)
    ensures Stamped(Deleted(w, key))
  {
  }

  lemma DeletedKeepsInv(w: World, key: string)
    requires Inv(w)
    ensures Inv(Deleted(w, key))
    ensures key in w.c.entries ==> |Deleted(w, key).c.entries| == |w.c.entries| - 1
  {
    hide Identities, Untouched, Stamped;
    MapSizes(w.c.entries, key, Entry("", 0, 0));
    FewerDecisionsKeepIdentities(w.c, Deleted(w, key).c);
    TouchKeepsUntouched(w, Deleted(w, key), key);
    DeletedStamped(w, key);
  }

  lemma PlainStoreStamped(w: World, key: string, addr: string, now: Time)
    requires Stamped(w) && !Full(w.c, key)
    ensures Stamped(Stored(w, key, addr, now, key))
  {
    var w' := Stored(w, key, addr, now, key);
    forall g | g in w'.stamps
      ensures
        && 0 < g <= w'.c.nextGeneration
        && var s := w'.stamps[g];
           && s.touch <= Touches(w', s.key)
           && (s.touch == Touches(w', s.key) <==> s.key in w'.c.entries && w'.c.entries[s.key].generation == g)
           && (s.key in w'.c.entries && w'.c.entries[s.key].generation == g ==>
                 w'.c.entries[s.key].addr == s.addr && w'.c.entries[s.key].expires == s.at + 30_000_000_000)
    {
      if g != w'.c.nextGeneration {
        assert g in w.stamps;
      }
    }
  }

  lemma PlainStoreKeepsInv(w: World, key: string, addr: string, now: Time)
    requires Inv(w) && !Full(w.c, key)
    ensures Inv(Stored(w, key, addr, now, key))
  {
    hide Identities, Untouched, Stamped;
    var w' := Stored(w, key, addr, now, key);
    MapSizes(w.c.entries, key, w'.c.entries[key]);
    FewerDecisionsKeepIdentities(w.c, w'.c);
    TouchKeepsUntouched(w, w', key);
    PlainStoreStamped(w, key, addr, now);
  }

  lemma StoredKeepsInv(w: World, key: string, addr: string, now: Time, victim: string)
    requires Inv(w) && (Full(w.c, key) ==> victim in w.c.entries)
    ensures Inv(Stored(w, key, addr, now, victim))
  {
    hide Identities, Untouched, Stamped;
    if Full(w.c, key) {
      DeletedKeepsInv(w, victim);
      PlainStoreKeepsInv(Deleted(w, victim), key, addr, now);
    } else {
      PlainStoreKeepsInv(w, key, addr, now);
    }
  }

  lemma HoldersAfterRelease(handles: map<nat, Decision>, h: nat, s: nat)
    requires h in handles && !handles[h].released
    ensures |Holders(handles[h := handles[h].(released := true)], s)| ==
              |Holders(handles, s)| - (if handles[h].state == s then 1 else 0)
  {
    var handles' := handles[h := handles[h].(released := true)];
    if handles[h].state == s {
      assert Holders(handles', s) == Holders(handles, s) - {h} && h in Holders(handles, s);
    } else {
      assert Holders(handles', s) == Holders(handles, s);
    }
  }

  lemma HoldersAfterBegin(handles: map<nat, Decision>, h: nat, d: Decision, s: nat)
    requires h !in handles && !d.released
    ensures |Holders(handles[h := d], s)| == |Holders(handles, s)| + (if d.state == s then 1 else 0)
  {
    if d.state == s {
      assert Holders(handles[h := d], s) == Holders(handles, s) + {h};
    } else {
      assert Holders(handles[h := d], s) == Holders(handles, s);
    }
  }

  lemma ReleasedCounts(c: Cache, h: nat, s: nat)
    requires Identities(c) && Releasable(c, h) && s in c.references
    ensures var c' := Release(c, h); c'.references[s] == |Holders(c'.handles, s)|
  {
    hide Holders;
    HoldersAfterRelease(c.handles, h, s);
  }

  lemma ReleasedIdentities(c: Cache, h: nat)
    requires Identities(c) && Releasable(c, h)
    ensures Identities(Release(c, h))
  {
    forall s | s in c.references
      ensures Release(c, h).references[s] == |Holders(Release(c, h).handles, s)|
    {
      ReleasedCounts(c, h, s);
    }
    hide Holders;
  }

  /** Releasing one decision leaves every other unreleased decision registered or not as it was. */
  lemma OthersStayRegistered(c: Cache, h: nat, i: nat)
    requires Identities(c) && Releasable(c, h) && i in c.handles && i != h && !c.handles[i].released
    ensures Registered(Release(c, h), i) <==> Registered(c, i)
  {
    var d := c.handles[h];
    if c.handles[i].state == d.state {
      assert {i, h} <= Holders(c.handles, d.state);
      SubsetSize({i, h}, Holders(c.handles, d.state));
    }
  }

  lemma ReleasedUntouched(w: World, h: nat)
    requires Identities(w.c) && Untouched(w) && Releasable(w.c, h)
    ensures Untouched(Released(w, h))
  {
    hide Identities, Registered;
    forall i | i in w.c.handles && i != h && !w.c.handles[i].released
      ensures Registered(Released(w, h).c, i) <==> Registered(w.c, i)
    {
      OthersStayRegistered(w.c, h, i);
    }
  }

  lemma ReleasedKeepsInv(w: World, h: nat)
    requires Inv(w)
    ensures Inv(Released(w, h))
  {
    hide Identities, Untouched, Stamped;
    if Releasable(w.c, h) {
      ReleasedIdentities(w.c, h);
      ReleasedUntouched(w, h);
      SameEntriesStamped(w, Released(w, h));
    }
  }

  lemma NobodyHolds(c: Cache, s: nat)
    requires Identities(c) && s !in c.references
    ensures Holders(c.handles, s) == {}
  {
  }

  lemma BegunCounts(c: Cache, key: string, now: Time, s: nat)
    requires Identities(c) && (key in c.entries ==> Live(c, key, now))
    requires s in Begin(c, key, now).0.references
    ensures var c' := Begin(c, key, now).0; s < c'.nextId && c'.references[s] == |Holders(c'.handles, s)|
  {
    hide Holders;
    var (c', h) := Begin(c, key, now);
    HoldersAfterBegin(c.handles, h, c'.handles[h], s);
    if s !in c.references {
      NobodyHolds(c, s);
    }
  }

  lemma BegunIdentities(c: Cache, key: string, now: Time)
    requires Identities(c) && (key in c.entries ==> Live(c, key, now))
    ensures Identities(Begin(c, key, now).0)
  {
    var c' := Begin(c, key, now).0;
    forall s | s in c'.references
      ensures s < c'.nextId && c'.references[s] == |Holders(c'.handles, s)|
    {
      BegunCounts(c, key, now, s);
    }
    hide Holders;
  }

  lemma AddedUntouched(w: World, w': World, h: nat, d: Decision)
    requires Untouched(w) && h !in w.c.handles
    requires w'.c.handles == w.c.handles[h := d] && w'.touches == w.touches && w'.born == w.born[h := Touches(w, d.key)]
    requires Registered(w'.c, h)
    requires forall i :: i in w.c.handles ==> (Registered(w'.c, i) <==> Registered(w.c, i))
    ensures Untouched(w')
  {
    hide Registered;
  }

  lemma BegunUntouched(w: World, key: string, now: Time)
    requires Identities(w.c) && Untouched(w) && (key in w.c.entries ==> Live(w.c, key, now))
    ensures Untouched(Begun(w, key, now))
  {
    hide Identities, Registered, Untouched;
    var w' := Begun(w, key, now);
    var h := Begin(w.c, key, now).1;
    assert h !in w.c.handles by { NextIsUnused(w.c); }
    BegunItself(w.c, key, now);
    forall i | i in w.c.handles
      ensures Registered(w'.c, i) <==> Registered(w.c, i)
    {
      BegunRegisters(w.c, key, now, i);
    }
    AddedUntouched(w, w', h, w'.c.handles[h]);
  }

  lemma NextIsUnused(c: Cache)
    requires Identities(c)
    ensures c.nextId + 1 !in c.handles
  {
  }

  lemma BegunRegisters(c: Cache, key: string, now: Time, h: nat)
    requires Identities(c) && h in c.handles && (key in c.entries ==> Live(c, key, now))
    ensures h != Begin(c, key, now).1 && (Registered(Begin(c, key, now).0, h) <==> Registered(c, h))
  {
    hide Holders;
  }

  lemma BegunItself(c: Cache, key: string, now: Time)
    requires key in c.entries ==> Live(c, key, now)
    ensures var (c', h) := Begin(c, key, now); h in c'.handles && Registered(c', h)
  {
  }

  lemma BegunKeepsInv(w: World, key: string, now: Time)
    requires Inv(w)
    ensures Inv(Begun(w, key, now))
  {
    hide Identities, Untouched, Stamped;
    var aged := Aged(w, key, now);
    if key in w.c.entries && !Live(w.c, key, now) {
      DeletedKeepsInv(w, key);
    }
    assert Begun(w, key, now) == Begun(aged, key, now);
    BegunIdentities(aged.c, key, now);
    BegunUntouched(aged, key, now);
    SameEntriesStamped(aged, Begun(aged, key, now));
  }

  lemma SameEntriesStamped(w: World, w': World)
    requires Stamped(w) && w'.c.entries == w.c.entries && w'.c.nextGeneration == w.c.nextGeneration
    requires w'.touches == w.touches && w'.stamps == w.stamps
    ensures Stamped(w')
  {
  }

  lemma StepKeepsInv(w: World, ev: Event)
    requires Inv(w) && Enabled(w, ev)
    ensures Inv(Next(w, ev))
  {
    hide Identities, Untouched, Stamped, Stored, Deleted, Begun;
    match ev.op
    case Load(key) => DeletedKeepsInv(w, key);
    case Put(key, addr) => StoredKeepsInv(w, key, addr, ev.now, ev.victim);
    case Drop(key) => DeletedKeepsInv(w, key);
    case Decide(key) => BegunKeepsInv(w, key, ev.now);
    case Forget(h) => ReleasedKeepsInv(w, h);
    case Announce(h, addr) =>
      ReleasedKeepsInv(w, h);
      if Current(w.c, h, ev.now) {
        StoredKeepsInv(Released(w, h), w.c.handles[h].key, addr, ev.now, ev.victim);
      }
    case Replace(token, addr) => StoredKeepsInv(w, token.key, addr, ev.now, ev.victim);
    case DropIf(token) => DeletedKeepsInv(w, token.key);
  }

  lemma {:induction false} RunKeepsInv(w: World, run: seq<Event>)
    requires Inv(w) && Legal(w, run)
    ensures Inv(After(w, run))
    decreases |run|
  {
    hide Inv, Next, Enabled;
    if run != [] {
      StepKeepsInv(w, run[0]);
      RunKeepsInv(Next(w, run[0]), run[1..]);
    }
  }

  lemma StartIsInv(w: World)
    requires Start(w)
    ensures Inv(w)
  {
  }

  // --------------------------------------------------------------- theorems

  /**
   * A decision publishes exactly when it is of this cache and unreleased, the
   * entry it saw has not expired, and no store, deletion, eviction or expiry has
   * touched its key since it began.
   */
  lemma PublishesIffUntouched(w0: World, run: seq<Event>, h: nat, addr: string, now: Time, victim: string)
    requires Start(w0) && Legal(w0, run)
    ensures
      var w := After(w0, run);
      var (c, token) := Publish(w.c, h, addr, now, victim);
      && (token != NO_TOKEN <==>
            && h in w.c.handles && !w.c.handles[h].released
            && (w.c.handles[h].expires == 0 || now < w.c.handles[h].expires)
            && Born(w, h) == Touches(w, w.c.handles[h].key))
      && (token != NO_TOKEN ==> token.key == w.c.handles[h].key && token.generation == w.c.nextGeneration + 1)
      && (token != NO_TOKEN && token.key != "" ==> Names(c, token))
  {
    StartIsInv(w0);
    RunKeepsInv(w0, run);
    hide Stamped, Holders, Publish, Store, After, Legal;
    PublishedTokenNames(After(w0, run).c, h, addr, now, victim);
  }

  lemma PublishedTokenNames(c: Cache, h: nat, addr: string, now: Time, victim: string)
    ensures var (c', token) := Publish(c, h, addr, now, victim);
            && (token != NO_TOKEN <==> Current(c, h, now))
            && (token != NO_TOKEN ==> token.key == c.handles[h].key && token.generation == c.nextGeneration + 1)
            && (token != NO_TOKEN && token.key != "" ==> Names(c', token))
  {
  }

  /** Touch counts only grow; a decision keeps its key and birth, and a token its stamp. */
  ghost predicate Continues(w: World, w': World)
  {
    && (forall k :: Touches(w, k) <= Touches(w', k))
    && (forall h :: h in w.c.handles ==> h in w'.c.handles && w'.c.handles[h].key == w.c.handles[h].key && Born(w', h) == Born(w, h))
    && (forall g :: g in w.stamps ==> g in w'.stamps && w'.stamps[g] == w.stamps[g])
  }

  lemma StoredContinues(w: World, key: string, addr: string, now: Time, victim: string)
    requires Stamped(w)
    ensures Continues(w, Stored(w, key, addr, now, victim))
    ensures Touches(Stored(w, key, addr, now, victim), key) > Touches(w, key)
  {
  }

  lemma BegunContinues(w: World, key: string, now: Time)
    requires Identities(w.c)
    ensures Continues(w, Begun(w, key, now))
  {
    NextIsUnused(w.c);
    hide Identities;
  }

  lemma DeletedContinues(w: World, key: string, h: nat)
    ensures Continues(w, Deleted(w, key)) && Continues(w, Released(w, h)) && Continues(w, w)
  {
  }

  lemma PublishedContinues(w: World, h: nat, addr: string, now: Time, victim: string)
    requires Inv(w)
    ensures Continues(w, Published(w, h, addr, now, victim))
    ensures Current(w.c, h, now) ==>
              Touches(Published(w, h, addr, now, victim), w.c.handles[h].key) > Touches(w, w.c.handles[h].key)
  {
    hide Identities, Untouched, Stamped, Stored;
    DeletedContinues(w, "", h);
    if Current(w.c, h, now) {
      var r := Released(w, h);
      SameEntriesStamped(w, r);
      StoredContinues(r, w.c.handles[h].key, addr, now, victim);
    }
  }

  lemma StepContinues(w: World, ev: Event)
    requires Inv(w)
    ensures Continues(w, Next(w, ev))
  {
    hide Identities, Untouched, Stamped, Stored, Begun, Deleted, Published, Released, Continues;
    DeletedContinues(w, "", 0);
    match ev.op
    case Load(key) => DeletedContinues(w, key, 0);
    case Put(key, addr) => StoredContinues(w, key, addr, ev.now, ev.victim);
    case Drop(key) => DeletedContinues(w, key, 0);
    case Decide(key) => BegunContinues(w, key, ev.now);
    case Forget(h) => DeletedContinues(w, "", h);
    case Announce(h, addr) => PublishedContinues(w, h, addr, ev.now, ev.victim);
    case Replace(token, addr) => StoredContinues(w, token.key, addr, ev.now, ev.victim);
    case DropIf(token) => DeletedContinues(w, token.key, 0);
  }

  lemma {:induction false} RunContinues(w: World, run: seq<Event>)
    requires Inv(w) && Legal(w, run)
    ensures Continues(w, After(w, run))
    decreases |run|
  {
    hide Inv, Next, Enabled;
    if run != [] {
      StepContinues(w, run[0]);
      StepKeepsInv(w, run[0]);
      RunContinues(Next(w, run[0]), run[1..]);
    }
  }

  /**
   * Of the decisions that share one view of a key, at most one publishes: once
   * one has, no run whatsoever lets another publish.
   */
  lemma OneWinnerPerView(w: World, first: Event, run: seq<Event>, h: nat, addr: string, now: Time, victim: string)
    requires Inv(w) && Enabled(w, first) && first.op.Announce? && Current(w.c, first.op.h, first.now)
    requires h in w.c.handles && w.c.handles[h].key == w.c.handles[first.op.h].key && Born(w, h) == Born(w, first.op.h)
    requires Legal(Next(w, first), run)
    ensures Publish(After(Next(w, first), run).c, h, addr, now, victim).1 == NO_TOKEN
  {
    hide Inv, Enabled, Current, Published, Publish;
    StepKeepsInv(w, first);
    StepContinues(w, first);
    PublishedContinues(w, first.op.h, first.op.addr, first.now, first.victim);
    RunKeepsInv(Next(w, first), run);
    RunContinues(Next(w, first), run);
    StaleCannotPublish(w, After(Next(w, first), run), first.op.h, h, addr, now, victim, first.now);
  }

  lemma StaleCannotPublish(w: World, w': World, first: nat, h: nat, addr: string, now: Time, victim: string, earlier: Time)
    requires Inv(w) && Inv(w') && Current(w.c, first, earlier)
    requires h in w.c.handles && w.c.handles[h].key == w.c.handles[first].key && Born(w, h) == Born(w, first)
    requires h in w'.c.handles && w'.c.handles[h].key == w.c.handles[h].key && Born(w', h) == Born(w, h)
    requires Touches(w', w.c.handles[h].key) > Touches(w, w.c.handles[h].key)
    ensures Publish(w'.c, h, addr, now, victim).1 == NO_TOKEN
  {
    hide Identities, Stamped, Publish;
    PublishedTokenNames(w'.c, h, addr, now, victim);
  }

  /**
   * A token names the very entry it was issued for and nothing else: whatever the
   * run, it deletes an entry exactly when its key has not been touched since, even
   * if the same address was stored again, and it replaces one only if that entry
   * has not expired either.
   */
  lemma TokenNamesOneStore(w: World, key: string, addr: string, stored: Time, victim: string, run: seq<Event>, replacement: string, now: Time)
    requires Inv(w) && (Full(w.c, key) ==> victim in w.c.entries) && key != ""
    requires Legal(Stored(w, key, addr, stored, victim), run)
    ensures
      var w1 := Stored(w, key, addr, stored, victim);
      var w2, token := After(w1, run), Token(key, addr, w.c.nextGeneration + 1);
      && (DeleteIfCurrent(w2.c, token).1 <==> Touches(w2, key) == Touches(w1, key))
      && (ReplaceIfCurrent(w2.c, token, replacement, now, victim).1 != NO_TOKEN <==>
            Touches(w2, key) == Touches(w1, key) && Live(w2.c, key, now))
  {
    hide Identities, Untouched;
    var w1 := Stored(w, key, addr, stored, victim);
    StoredKeepsInv(w, key, addr, stored, victim);
    RunKeepsInv(w1, run);
    RunContinues(w1, run);
    assert w1.stamps[w.c.nextGeneration + 1] == Stamp(key, addr, Touches(w1, key), stored);
    StampDecides(After(w1, run), Token(key, addr, w.c.nextGeneration + 1), Touches(w1, key), replacement, now, victim);
  }

  lemma StampDecides(w: World, token: Token, touch: nat, replacement: string, now: Time, victim: string)
    requires Stamped(w) && token.key != "" && token.generation in w.stamps
    requires
      var s := w.stamps[token.generation];
      s.key == token.key && s.addr == token.addr && s.touch == touch
    ensures DeleteIfCurrent(w.c, token).1 <==> Touches(w, token.key) == touch
    ensures ReplaceIfCurrent(w.c, token, replacement, now, victim).1 != NO_TOKEN <==>
              Touches(w, token.key) == touch && Live(w.c, token.key, now)
  {
  }

  lemma ReconcileCases(c: Cache, token: Token, o: CachedOutcome, succeeded: bool, now: Time, victim: string)
    ensures var (c', hit, winner) := Reconcile(c, token, o, succeeded, now, victim);
      && (c' != c ==> Names(c, token))
      && (c' != c ==> (!succeeded && o.cachedFailed) || (succeeded && o.winner != token.addr && !o.cachedNeutral))
      && (hit ==> succeeded && o.winner == token.addr && winner == token && c' == c)
  {
  }

  /**
   * What such a request does to the cache: a confirmed failure of the cached
   * winner deletes it, another winner takes its place, and nothing else happens.
   */
  lemma ReconcileExactly(c: Cache, token: Token, o: CachedOutcome, succeeded: bool, now: Time, victim: string)
    ensures
      var (c', hit, winner) := Reconcile(c, token, o, succeeded, now, victim);
      var drops := !succeeded && o.cachedFailed && Names(c, token);
      var moves := succeeded && o.winner != token.addr && !o.cachedNeutral && Names(c, token) && now < c.entries[token.key].expires;
      && hit == (succeeded && o.winner == token.addr)
      && (drops ==> c'.entries == c.entries - {token.key} && winner == NO_TOKEN)
      && (moves ==>
            && token.key in c'.entries && c'.entries[token.key].addr == o.winner && Names(c', winner)
            && forall k :: k != token.key && k in c.entries && k !in c'.entries ==> k == victim && |c.entries| >= 256)
      && (!drops && !moves ==> c' == c)
  {
  }

  /**
   * A request that began from a cached winner changes the cache only while that
   * very entry is still there: whatever was stored, deleted or refreshed in the
   * meantime survives it. A destination's own failure never changes the cache.
   */
  lemma ReconcilingSparesNewerWinners(
    w: World, key: string, addr: string, stored: Time, run: seq<Event>,
    o: CachedOutcome, succeeded: bool, now: Time, victim: string)
    requires Inv(w) && (Full(w.c, key) ==> victim in w.c.entries) && key != ""
    requires Legal(Stored(w, key, addr, stored, victim), run)
    ensures
      var w1 := Stored(w, key, addr, stored, victim);
      var w2, token := After(w1, run), Token(key, addr, w.c.nextGeneration + 1);
      var c := Reconcile(w2.c, token, o, succeeded, now, victim).0;
      && (Touches(w2, key) != Touches(w1, key) ==> c == w2.c)
      && (succeeded && o.cachedNeutral ==> c == w2.c)
  {
    hide Inv, Touches, Stored, DeleteIfCurrent, ReplaceIfCurrent, Names, Reconcile;
    var w1 := Stored(w, key, addr, stored, victim);
    var w2, token := After(w1, run), Token(key, addr, w.c.nextGeneration + 1);
    ReconcileCases(w2.c, token, o, succeeded, now, victim);
    TokenNamesOneStore(w, key, addr, stored, victim, run, o.winner, now);
    NamedIsDeletable(w2.c, token);
  }

  lemma NamedIsDeletable(c: Cache, token: Token)
    ensures DeleteIfCurrent(c, token).1 <==> Names(c, token)
  {
  }

  /**
   * How long a stored winner lives: whatever the run, while nothing touches its
   * key, the key holds the stored address, and a load finds it if and only if
   * less than 30 s have passed.
   */
  lemma StoredWinnerLives(w: World, key: string, addr: string, stored: Time, victim: string, run: seq<Event>, now: Time)
    requires Inv(w) && (Full(w.c, key) ==> victim in w.c.entries)
    requires Legal(Stored(w, key, addr, stored, victim), run)
    ensures
      var w1 := Stored(w, key, addr, stored, victim);
      var w2 := After(w1, run);
      Touches(w2, key) == Touches(w1, key) ==>
        && key in w2.c.entries && w2.c.entries[key].addr == addr
        && (Live(w2.c, key, now) <==> now < stored + 30_000_000_000)
  {
    hide Identities, Untouched;
    var w1 := Stored(w, key, addr, stored, victim);
    StoredKeepsInv(w, key, addr, stored, victim);
    RunKeepsInv(w1, run);
    RunContinues(w1, run);
    var g := w.c.nextGeneration + 1;
    assert w1.stamps[g] == Stamp(key, addr, Touches(w1, key), stored);
    assert After(w1, run).stamps[g] == Stamp(key, addr, Touches(w1, key), stored);
  }

  // ------------------------------------------------- what a decision captured

  /** An untouched decision captured the expiry of the entry that is still there, or of none. */
  ghost predicate Captured(w: World)
  {
    forall h :: h in w.c.handles && Born(w, h) == Touches(w, w.c.handles[h].key) ==>
      var k := w.c.handles[h].key;
      w.c.handles[h].expires == if k in w.c.entries then w.c.entries[k].expires else 0
  }

  lemma DeletedCaptured(w: World, key: string)
    requires Untouched(w) && Captured(w)
    ensures Captured(Deleted(w, key))
  {
  }

  lemma PlainStoreCaptured(w: World, key: string, addr: string, now: Time)
    requires Untouched(w) && Captured(w) && !Full(w.c, key)
    ensures Captured(Stored(w, key, addr, now, key))
  {
  }

  lemma StoredCaptured(w: World, key: string, addr: string, now: Time, victim: string)
    requires Inv(w) && Captured(w) && (Full(w.c, key) ==> victim in w.c.entries)
    ensures Captured(Stored(w, key, addr, now, victim))
  {
    hide Identities, Stamped, Untouched, Captured;
    if Full(w.c, key) {
      DeletedCaptured(w, victim);
      DeletedKeepsInv(w, victim);
      PlainStoreCaptured(Deleted(w, victim), key, addr, now);
    } else {
      PlainStoreCaptured(w, key, addr, now);
    }
  }

  lemma BegunCaptured(w: World, key: string, now: Time)
    requires Inv(w) && Captured(w)
    ensures Captured(Begun(w, key, now))
  {
    NextIsUnused(w.c);
    hide Identities, Stamped, Touches;
    if key in w.c.entries && !Live(w.c, key, now) {
      DeletedCaptured(w, key);
    }
  }

  lemma ReleasedCaptured(w: World, h: nat)
    requires Captured(w)
    ensures Captured(Released(w, h))
  {
  }

  lemma StepCaptured(w: World, ev: Event)
    requires Inv(w) && Captured(w) && Enabled(w, ev)
    ensures Captured(Next(w, ev))
  {
    hide Identities, Stamped, Captured, Stored, Begun, Deleted, Released, Untouched;
    match ev.op
    case Load(key) => DeletedCaptured(w, key);
    case Put(key, addr) => StoredCaptured(w, key, addr, ev.now, ev.victim);
    case Drop(key) => DeletedCaptured(w, key);
    case Decide(key) => BegunCaptured(w, key, ev.now);
    case Forget(h) => ReleasedCaptured(w, h);
    case Announce(h, addr) =>
      ReleasedCaptured(w, h);
      ReleasedKeepsInv(w, h);
      ReleasedEntries(w, h);
      if Current(w.c, h, ev.now) {
        StoredCaptured(Released(w, h), w.c.handles[h].key, addr, ev.now, ev.victim);
      }
    case Replace(token, addr) =>
      if Names(w.c, token) && Live(w.c, token.key, ev.now) {
        StoredCaptured(w, token.key, addr, ev.now, ev.victim);
      }
    case DropIf(token) => DeletedCaptured(w, token.key);
  }

  lemma ReleasedEntries(w: World, h: nat)
    ensures Released(w, h).c.entries == w.c.entries
  {
  }

  lemma {:induction false} RunCaptured(w: World, run: seq<Event>)
    requires Inv(w) && Captured(w) && Legal(w, run)
    ensures Captured(After(w, run))
    decreases |run|
  {
    hide Inv, Next, Enabled, Captured;
    if run != [] {
      StepCaptured(w, run[0]);
      StepKeepsInv(w, run[0]);
      RunCaptured(Next(w, run[0]), run[1..]);
    }
  }

  /**
   * Publication without reference to anything captured: over every run, a
   * decision publishes if and only if it is unreleased, nothing touched its key
   * since it began, and the key's entry, if it has one, has not expired.
   */
  lemma PublishesIffCurrentEntryLives(w0: World, run: seq<Event>, h: nat, addr: string, now: Time, victim: string)
    requires Start(w0) && Legal(w0, run)
    requires forall k :: k in w0.c.entries ==> w0.c.entries[k].expires > 0
    ensures
      var w := After(w0, run);
      Publish(w.c, h, addr, now, victim).1 != NO_TOKEN <==>
        && h in w.c.handles && !w.c.handles[h].released && Born(w, h) == Touches(w, w.c.handles[h].key)
        && (w.c.handles[h].key in w.c.entries ==> now < w.c.entries[w.c.handles[h].key].expires)
  {
    StartIsInv(w0);
    RunCaptured(w0, run);
    hide Publish, After, Legal, Start;
    PublishesIffUntouched(w0, run, h, addr, now, victim);
    EntriesExpire(w0, run);
  }

  ghost predicate Expiring(w: World)
  {
    forall k :: k in w.c.entries ==> w.c.entries[k].expires > 0
  }

  lemma StepExpires(w: World, ev: Event)
    requires Expiring(w)
    ensures Expiring(Next(w, ev))
  {
    hide Begun, Stored, Deleted, Released, Expiring, Touches;
    OperationsExpire(w, ev.now);
    match ev.op
    case Load(key) =>
    case Put(key, addr) => StoreExpires(w, key, addr, ev.now, ev.victim);
    case Drop(key) =>
    case Decide(key) =>
    case Forget(h) =>
    case Announce(h, addr) =>
      if Current(w.c, h, ev.now) {
        StoreExpires(Released(w, h), w.c.handles[h].key, addr, ev.now, ev.victim);
      }
    case Replace(token, addr) => StoreExpires(w, token.key, addr, ev.now, ev.victim);
    case DropIf(token) =>
  }

  lemma StoreExpires(w: World, key: string, addr: string, now: Time, victim: string)
    requires Expiring(w)
    ensures Expiring(Stored(w, key, addr, now, victim))
  {
  }

  /** Nothing but a store adds an entry. */
  lemma OperationsExpire(w: World, now: Time)
    requires Expiring(w)
    ensures forall key :: Expiring(Deleted(w, key)) && Expiring(Begun(w, key, now))
    ensures forall h :: Expiring(Released(w, h))
  {
  }

  lemma {:induction false} EntriesExpire(w: World, run: seq<Event>)
    requires Expiring(w)
    ensures Expiring(After(w, run))
    decreases |run|
  {
    hide Next, Expiring;
    if run != [] {
      StepExpires(w, run[0]);
      EntriesExpire(Next(w, run[0]), run[1..]);
    }
  }

  /** Each decision state counts its unreleased decisions, and the registry empties with the last of them. */
  lemma ReferencesAreUnreleasedDecisions(w0: World, run: seq<Event>)
    requires Start(w0) && Legal(w0, run)
    ensures
      var c := After(w0, run).c;
      && (forall s :: s in c.references ==> c.references[s] == |Holders(c.handles, s)|)
      && (forall h :: h in c.handles ==> c.handles[h].state in c.references)
      && ((forall h :: h in c.handles ==> c.handles[h].released) ==> c.decisions == map[])
  {
    StartIsInv(w0);
    RunKeepsInv(w0, run);
    var c := After(w0, run).c;
    if forall h :: h in c.handles ==> c.handles[h].released {
      assert forall s :: Holders(c.handles, s) == {};
      assert forall k :: k !in c.decisions;
    }
  }

  /** The cache never holds more than 256 winners. */
  lemma CacheIsBounded(w0: World, run: seq<Event>)
    requires Start(w0) && Legal(w0, run)
    ensures |After(w0, run).c.entries| <= 256
  {
    StartIsInv(w0);
    RunKeepsInv(w0, run);
  }

  // ------------------------------------------------------------ inheritance

  /** A new generation takes over the unexpired winners of unchanged rules, never more than the old one had. */
  method InheritWinners(previous: Cache, keys: seq<string>, now: Time) returns (c: Cache)
    requires |previous.entries| <= CACHE_MAX
    ensures c.decisions == map[] && c.references == map[] && c.handles == map[] && c.nextId == 0
    ensures forall k :: k in c.entries <==> k in keys && Live(previous, k, now)
    ensures forall k :: k in c.entries ==> k in previous.entries && c.entries[k] == previous.entries[k] && c.entries[k].generation <= c.nextGeneration
    ensures Start(World(c, map[], map[], map[]))
  {
    c := Cache(map[], 0, map[], map[], map[], 0);
    var i := 0;
    while i < |keys|
      invariant 0 <= i <= |keys|
      invariant c.decisions == map[] && c.references == map[] && c.handles == map[] && c.nextId == 0
      invariant forall k :: k in c.entries <==> k in keys[..i] && Live(previous, k, now)
      invariant forall k :: k in c.entries ==> c.entries[k] == previous.entries[k] && c.entries[k].generation <= c.nextGeneration
    {
      var key := keys[i];
      if key in previous.entries && now < previous.entries[key].expires {
        var entry := previous.entries[key];
        c := c.(entries := c.entries[key := entry]);
        if entry.generation > c.nextGeneration {
          c := c.(nextGeneration := entry.generation);
        }
      }
      i := i + 1;
    }
    assert keys[..i] == keys;
    SubMapSize(c.entries, previous.entries);
  }

  lemma SubMapSize(a: map<string, Entry>, b: map<string, Entry>)
    requires a.Keys <= b.Keys
    ensures |a| <= |b|
  {
    SubsetSize(a.Keys, b.Keys);
    assert |a| == |a.Keys| && |b| == |b.Keys|;
  }
}
