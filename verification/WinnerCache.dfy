/**
 * The Boost winner cache: a bounded map of winners, generation tokens that name
 * one stored entry, and reference-counted decisions that may publish a winner
 * only if nothing touched their key since they began.
 */
module WinnerCache {
  import opened Clock

  const WINNER_TTL := 30 * SECOND
  const CACHE_MAX := 256

  datatype Entry = Entry(addr: string, expires: Time, generation: nat)

  /** Names one stored entry; generation 0 stands for no token. */
  datatype Token = Token(key: string, addr: string, generation: nat)

  const NO_TOKEN := Token("", "", 0)

  /** A decision in flight; `state` is the identity it shares with decisions of the same view. */
  datatype Decision = Decision(key: string, state: nat, expires: Time, released: bool)

  /** `references` and `handles` are the decision states and decisions ever created, by identity. */
  datatype Cache = Cache(
    entries: map<string, Entry>, nextGeneration: nat,
    decisions: map<string, nat>, references: map<nat, int>, handles: map<nat, Decision>, nextId: nat)

  predicate Live(c: Cache, key: string, now: Time)
  {
    key in c.entries && now < c.entries[key].expires
  }

  function Delete(c: Cache, key: string): Cache
  {
    c.(entries := c.entries - {key}, decisions := c.decisions - {key})
  }

  /** Whether a store must first evict some entry. */
  predicate Full(c: Cache, key: string)
  {
    key !in c.entries && |c.entries| >= CACHE_MAX
  }

  /** `victim`: the entry the map iteration happens to yield first when one must go. */
  function Store(c: Cache, key: string, addr: string, now: Time, victim: string): (Cache, Token)
  {
    var room := if Full(c, key) then Delete(c, victim) else c;
    var generation := c.nextGeneration + 1;
    (room.(nextGeneration := generation, decisions := room.decisions - {key},
           entries := room.entries[key := Entry(addr, now + WINNER_TTL, generation)]),
     Token(key, addr, generation))
  }

  function DropExpired(c: Cache, key: string, now: Time): Cache
  {
    if key in c.entries && !Live(c, key, now) then Delete(c, key) else c
  }

  function Begin(c: Cache, key: string, now: Time): (Cache, nat)
  {
    var d := DropExpired(c, key, now);
    var state := if key in d.decisions then d.decisions[key] else d.nextId;
    var count := if state in d.references then d.references[state] else 0;
    var decision := Decision(key, state, if key in d.entries then d.entries[key].expires else 0, false);
    (d.(decisions := d.decisions[key := state], references := d.references[state := count + 1],
        handles := d.handles[d.nextId + 1 := decision], nextId := d.nextId + 2), d.nextId + 1)
  }

  /** A handle of another cache is unknown here and ignored. */
  predicate Releasable(c: Cache, h: nat)
  {
    h in c.handles && !c.handles[h].released && c.handles[h].state in c.references
  }

  function Release(c: Cache, h: nat): Cache
  {
    if !Releasable(c, h) then c
    else
      var d := c.handles[h];
      var count := c.references[d.state] - 1;
      var last := count == 0 && d.key in c.decisions && c.decisions[d.key] == d.state;
      c.(handles := c.handles[h := d.(released := true)], references := c.references[d.state := count],
         decisions := if last then c.decisions - {d.key} else c.decisions)
  }

  predicate Current(c: Cache, h: nat, now: Time)
  {
    && Releasable(c, h)
    && var d := c.handles[h];
       && d.key in c.decisions && c.decisions[d.key] == d.state
       && (d.expires == 0 || now < d.expires)
  }

  function Publish(c: Cache, h: nat, addr: string, now: Time, victim: string): (Cache, Token)
  {
    if Current(c, h, now) then Store(Release(c, h), c.handles[h].key, addr, now, victim)
    else (Release(c, h), NO_TOKEN)
  }

  predicate Names(c: Cache, token: Token)
  {
    && token.key != "" && token.generation != 0
    && token.key in c.entries
    && c.entries[token.key].generation == token.generation && c.entries[token.key].addr == token.addr
  }

  function ReplaceIfCurrent(c: Cache, token: Token, addr: string, now: Time, victim: string): (Cache, Token)
  {
    if Names(c, token) && Live(c, token.key, now) then Store(c, token.key, addr, now, victim) else (c, NO_TOKEN)
  }

  function DeleteIfCurrent(c: Cache, token: Token): (Cache, bool)
  {
    if Names(c, token) then (Delete(c, token.key), true) else (c, false)
  }

  /** How a request that started from a cached winner ended. */
  datatype CachedOutcome = CachedOutcome(winner: string, cachedFailed: bool, cachedNeutral: bool)

  /** What such a request does to the cache, whether it hit, and the token of its winner. */
  function Reconcile(c: Cache, token: Token, o: CachedOutcome, succeeded: bool, now: Time, victim: string): (Cache, bool, Token)
  {
    if !succeeded then (if o.cachedFailed then DeleteIfCurrent(c, token).0 else c, false, NO_TOKEN)
    else if o.winner == token.addr then (c, true, token)
    else if o.cachedNeutral then (c, false, NO_TOKEN)
    else
      var (next, winner) := ReplaceIfCurrent(c, token, o.winner, now, victim);
      (next, false, winner)
  }

  // -------------------------------------------------------------- the object

  class WinnerCacheRegistry {
    var entries: map<string, Entry>
    var nextGeneration: nat
    var decisions: map<string, nat>
    var references: map<nat, int>
    var handles: map<nat, Decision>
    var nextId: nat

    ghost function View(): Cache
      reads this
    {
      Cache(entries, nextGeneration, decisions, references, handles, nextId)
    }

    constructor ()
      ensures View() == Cache(map[], 0, map[], map[], map[], 0)
    {
      entries, nextGeneration := map[], 0;
      decisions, references, handles, nextId := map[], map[], map[], 0;
    }

    method DeleteLocked(key: string)
      modifies this`entries, this`decisions
      ensures View() == Delete(old(View()), key)
    {
      entries := entries - {key};
      decisions := decisions - {key};
    }

    method Load(key: string, now: Time) returns (found: bool, entry: Entry)
      modifies this`entries, this`decisions
      ensures View() == DropExpired(old(View()), key, now)
      ensures found == Live(old(View()), key, now)
      ensures found ==> key in entries && entry == entries[key]
    {
      found, entry := false, Entry("", 0, 0);
      if key !in entries {
        return;
      }
      if entries[key].expires <= now {
        DeleteLocked(key);
        return;
      }
      return true, entries[key];
    }

    method StoreLocked(key: string, addr: string, now: Time) returns (token: Token, ghost victim: string)
      modifies this`entries, this`decisions, this`nextGeneration
      ensures (View(), token) == Store(old(View()), key, addr, now, victim)
      ensures Full(old(View()), key) ==> victim in old(entries)
    {
      victim := key;
      if key !in entries && |entries| >= CACHE_MAX {
        assert entries.Keys != {};
        var oldKey :| oldKey in entries.Keys;
        DeleteLocked(oldKey);
        victim := oldKey;
      }
      nextGeneration := nextGeneration + 1;
      token := Token(key, addr, nextGeneration);
      decisions := decisions - {key};
      entries := entries[key := Entry(addr, now + WINNER_TTL, token.generation)];
    }

    method BeginDecision(key: string, now: Time) returns (h: nat)
      modifies this
      ensures (View(), h) == Begin(old(View()), key, now)
    {
      if key in entries && entries[key].expires <= now {
        DeleteLocked(key);
      }
      var state := nextId;
      if key in decisions {
        state := decisions[key];
      } else {
        decisions := decisions[key := state];
      }
      var count := if state in references then references[state] else 0;
      references := references[state := count + 1];
      h := nextId + 1;
      nextId := nextId + 2;
      handles := handles[h := Decision(key, state, if key in entries then entries[key].expires else 0, false)];
      assert decisions == old(View()).decisions[key := state] || decisions == (old(View()).decisions - {key})[key := state];
    }

    method ReleaseDecision(h: nat)
      modifies this`decisions, this`references, this`handles
      ensures View() == Release(old(View()), h)
    {
      if h !in handles || handles[h].released || handles[h].state !in references {
        return;
      }
      var d := handles[h];
      handles := handles[h := d.(released := true)];
      references := references[d.state := references[d.state] - 1];
      if references[d.state] == 0 && d.key in decisions && decisions[d.key] == d.state {
        decisions := decisions - {d.key};
      }
    }

    method PublishDecision(h: nat, addr: string, now: Time) returns (token: Token, ghost victim: string)
      modifies this
      ensures (View(), token) == Publish(old(View()), h, addr, now, victim)
      ensures token != NO_TOKEN && Full(Release(old(View()), h), old(handles)[h].key) ==> victim in old(entries)
    {
      token, victim := NO_TOKEN, "";
      if h !in handles || handles[h].released || handles[h].state !in references {
        return;
      }
      var d := handles[h];
      var current := d.key in decisions && decisions[d.key] == d.state && (d.expires == 0 || now < d.expires);
      ReleaseDecision(h);
      if !current {
        return;
      }
      token, victim := StoreLocked(d.key, addr, now);
    }

    method ReplaceWinnerIfCurrent(token: Token, addr: string, now: Time) returns (replacement: Token, ghost victim: string)
      modifies this`entries, this`decisions, this`nextGeneration
      ensures (View(), replacement) == ReplaceIfCurrent(old(View()), token, addr, now, victim)
    {
      replacement, victim := NO_TOKEN, "";
      if token.key == "" || token.generation == 0 || token.key !in entries {
        return;
      }
      var entry := entries[token.key];
      if entry.generation != token.generation || entry.addr != token.addr || entry.expires <= now {
        return;
      }
      replacement, victim := StoreLocked(token.key, addr, now);
    }

    method DeleteWinnerIfCurrent(token: Token) returns (deleted: bool)
      modifies this`entries, this`decisions
      ensures (View(), deleted) == DeleteIfCurrent(old(View()), token)
    {
      if token.key == "" || token.generation == 0 || token.key !in entries {
        return false;
      }
      var entry := entries[token.key];
      if entry.generation != token.generation || entry.addr != token.addr {
        return false;
      }
      DeleteLocked(token.key);
      deleted := true;
    }

    method ReconcileCachedWinner(token: Token, o: CachedOutcome, succeeded: bool, now: Time)
      returns (hit: bool, winner: Token, ghost victim: string)
      modifies this`entries, this`decisions, this`nextGeneration
      ensures (View(), hit, winner) == Reconcile(old(View()), token, o, succeeded, now, victim)
    {
      hide Store, Delete;
      hit, winner, victim := false, NO_TOKEN, "";
      if !succeeded {
        if o.cachedFailed {
          var _ := DeleteWinnerIfCurrent(token);
        }
        return;
      }
      hit := o.winner == token.addr;
      if hit {
        winner := token;
        return;
      }
      if o.cachedNeutral {
        return;
      }
      winner, victim := ReplaceWinnerIfCurrent(token, o.winner, now);
    }
  }
}
