/**
 The token cache as the mutable object of internal/auth/cache.go, used by one thread at a time.
 A ghost history of the calls says which state the object is in: `Replay` of that history.
 */
module TokenCaches {
  import opened Wrappers
  import opened CacheModel
  import opened CacheHistory

  class TokenCache {
    var entries: Entries
    var ttl: Duration
    var maxEntries: int
    ghost var history: seq<CacheCall>

    ghost predicate Valid()
      reads this
    {
      && maxEntries >= 1
      && WellTimed(Cfg(), history)
      && entries == Replay(Cfg(), history)
    }

    function Cfg(): Config
      reads this
    {
      Config(ttl, maxEntries)
    }

    /** `NewTokenCache`: the options are applied in order, and a non-positive capacity is ignored. */
    constructor (options: seq<CacheOption>)
      ensures Valid() && history == [] && entries == map[]
      ensures Cfg() == Configured(options)
    {
      entries := map[];
      ttl := DEFAULT_TTL;
      maxEntries := DEFAULT_MAX_ENTRIES;
      history := [];
      new;
      for i := 0 to |options|
        invariant entries == map[] && history == []
        invariant Cfg() == Configured(options[..i])
        invariant maxEntries >= 1
      {
        assert options[..i + 1][..i] == options[..i];
        match options[i] {
          case WithCacheTTL(d) => ttl := d;
          case WithMaxEntries(n) =>
            if n > 0 {
              maxEntries := n;
            }
        }
      }
      assert options[..|options|] == options;
    }

    method Get(key: Key, now: Instant) returns (found: Option<IntrospectionResult>)
      requires Valid() && LastReading(history) <= now
      modifies this`entries, this`history
      ensures Valid()
      ensures found == Lookup(old(entries), key, now)
      ensures entries == AfterGet(old(entries), key, now)
      ensures history == old(history) + [GetCall(key, now)]
    {
      history := history + [GetCall(key, now)];
      if key !in entries {
        return None;
      }
      var entry := entries[key];
      if now > entry.expiresAt {
        entries := entries - {key};
        return None;
      }
      return Some(entry.result);
    }

    /** `order` is the order in which Go ranges over the map if it has to look for a victim. */
    method Set(key: Key, result: IntrospectionResult, clock: SetClock, order: seq<Key>)
      requires Valid() && clock.Valid() && LastReading(history) <= clock.prepare && Covers(order, entries)
      modifies this`entries, this`history
      ensures Valid()
      ensures entries == AfterSet(old(entries), Cfg(), key, result, clock, order)
      ensures history == old(history) + [SetCall(key, result, clock, order)]
    {
      SetExtendsHistory(Cfg(), history, key, result, clock, order);
      history := history + [SetCall(key, result, clock, order)];
      StoreResult(key, result, clock, order);
    }

    /** The body of `Set`, apart from the ghost bookkeeping. */
    method StoreResult(key: Key, result: IntrospectionResult, clock: SetClock, order: seq<Key>)
      modifies this`entries
      ensures entries == AfterSet(old(entries), Cfg(), key, result, clock, order)
    {
      var lifetime: Duration := ttl;
      if result.expiresAt > 0 {
        var remaining := Sub(TokenExpiry(result), clock.prepare);
        if remaining <= 0 {
          return;
        }
        if remaining < lifetime {
          lifetime := remaining;
        }
      }
      if key !in entries && |entries| >= maxEntries {
        EvictExpiredLocked(clock.purge);
        if |entries| >= maxEntries {
          EvictOldestLocked(order);
        }
      }
      entries := entries[key := CacheEntry(result, clock.commit + lifetime)];
    }

    /** Go visits the keys in an arbitrary order; deleting the current key while ranging is allowed. */
    method EvictExpiredLocked(now: Instant)
      modifies this`entries
      ensures entries == Purge(old(entries), now)
    {
      var todo := entries.Keys;
      while todo != {}
        invariant todo <= old(entries).Keys
        invariant forall k :: k in entries <==> k in old(entries) && (k in todo || !Expired(old(entries)[k], now))
        invariant forall k | k in entries :: entries[k] == old(entries)[k]
      {
        var key :| key in todo;
        todo := todo - {key};
        if now > entries[key].expiresAt {
          entries := entries - {key};
        }
      }
    }

    method EvictOldestLocked(order: seq<Key>)
      modifies this`entries
      ensures entries == EvictOldest(old(entries), order)
    {
      var oldestKey: Key := "";
      var oldestTime: Instant := 0;
      var first := true;
      ghost var m := entries;
      for i := 0 to |order|
        invariant entries == m
        invariant !first ==> oldestKey in m && oldestTime == m[oldestKey].expiresAt
        invariant EarliestFrom(m, order, None) == EarliestFrom(m, order[i..], if first then None else Some(oldestKey))
      {
        var key := order[i];
        assert order[i..][0] == key && order[i..][1..] == order[i + 1..];
        if key in entries && (first || entries[key].expiresAt < oldestTime) {
          oldestKey := key;
          oldestTime := entries[key].expiresAt;
          first := false;
        }
      }
      assert order[|order|..] == [];
      if !first {
        entries := entries - {oldestKey};
      }
    }

    method Len() returns (n: nat)
      requires Valid()
      ensures n == |entries| && n <= maxEntries
    {
      ReplayKeepsCapacity(Cfg(), history);
      n := |entries|;
    }
  }
}
