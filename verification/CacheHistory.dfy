/**
 Whole sequential runs of the token cache, for an arbitrary nondecreasing clock. The bounded cache
 is compared with an unbounded TTL map that remembers the last effective `Set` of every key.
 */
module CacheHistory {
  import opened Wrappers
  import opened CacheModel

  const DEFAULT_TTL: Duration := 300 * SECOND
  const DEFAULT_MAX_ENTRIES: int := 10000

  datatype CacheOption = WithCacheTTL(ttl: Duration) | WithMaxEntries(n: int)

  /** The configuration after the options were applied in order to the defaults. */
  function Configured(options: seq<CacheOption>): (cfg: Config)
    ensures cfg.Valid()
  {
    if options == [] then Config(DEFAULT_TTL, DEFAULT_MAX_ENTRIES)
    else
      var cfg := Configured(options[..|options| - 1]);
      match options[|options| - 1]
      case WithCacheTTL(d) => cfg.(ttl := d)
      case WithMaxEntries(n) => if n > 0 then cfg.(maxEntries := n) else cfg
  }

  /** Without options the cache keeps 10000 results for five minutes; later options win, and a capacity must be positive. */
  lemma ConfiguredMeans(options: seq<CacheOption>, d: Duration, n: int)
    ensures Configured([]) == Config(300_000_000_000, 10000)
    ensures Configured(options + [WithCacheTTL(d)]) == Config(d, Configured(options).maxEntries)
    ensures Configured(options + [WithMaxEntries(n)]) == Config(Configured(options).ttl, if n >= 1 then n else Configured(options).maxEntries)
  {
    assert (options + [WithCacheTTL(d)])[..|options|] == options;
    assert (options + [WithMaxEntries(n)])[..|options|] == options;
  }

  datatype CacheCall =
    | GetCall(key: Key, now: Instant)
    | SetCall(key: Key, result: IntrospectionResult, clock: SetClock, order: seq<Key>)
  {
    function FirstReading(): Instant {
      if GetCall? then now else clock.prepare
    }

    function FinalReading(): Instant {
      if GetCall? then now else clock.commit
    }
  }

  /** The state of the bounded cache after the calls. */
  function Replay(cfg: Config, calls: seq<CacheCall>): Entries {
    if calls == [] then map[]
    else
      var before := Replay(cfg, calls[..|calls| - 1]);
      match calls[|calls| - 1]
      case GetCall(key, now) => AfterGet(before, key, now)
      case SetCall(key, result, clock, order) => AfterSet(before, cfg, key, result, clock, order)
  }

  /** The unbounded TTL map: the last effective `Set` per key, never purged and never full. */
  function Unbounded(cfg: Config, calls: seq<CacheCall>): Entries {
    if calls == [] then map[]
    else
      var before := Unbounded(cfg, calls[..|calls| - 1]);
      match calls[|calls| - 1]
      case GetCall(_, _) => before
      case SetCall(key, result, clock, _) =>
        match Lifetime(result, cfg.ttl, clock.prepare)
        case None => before
        case Some(lifetime) => before[key := CacheEntry(result, clock.commit + lifetime)]
  }

  /** The keys that lost a live entry to a full cache and were not stored again since. */
  function Sacrificed(cfg: Config, calls: seq<CacheCall>): set<Key> {
    if calls == [] then {}
    else
      var prefix := calls[..|calls| - 1];
      match calls[|calls| - 1]
      case GetCall(_, _) => Sacrificed(cfg, prefix)
      case SetCall(key, result, clock, order) =>
        var m := Replay(cfg, prefix);
        if Lifetime(result, cfg.ttl, clock.prepare).None? then Sacrificed(cfg, prefix)
        else if key in m then Sacrificed(cfg, prefix) - {key}
        else Sacrificed(cfg, prefix) - {key} + CapacityVictims(m, cfg.maxEntries, clock.purge, order)
  }

  function LastReading(calls: seq<CacheCall>): Instant {
    if calls == [] then 0 else calls[|calls| - 1].FinalReading()
  }

  /** The clock never goes back and every victim search ranges over the whole map. */
  ghost predicate WellTimed(cfg: Config, calls: seq<CacheCall>) {
    calls == [] ||
    var prefix := calls[..|calls| - 1];
    var last := calls[|calls| - 1];
    && WellTimed(cfg, prefix)
    && LastReading(prefix) <= last.FirstReading()
    && (last.SetCall? ==> last.clock.Valid() && Covers(last.order, Replay(cfg, prefix)))
  }

  lemma SetExtendsHistory(cfg: Config, calls: seq<CacheCall>, key: Key, result: IntrospectionResult, clock: SetClock, order: seq<Key>)
    requires WellTimed(cfg, calls) && LastReading(calls) <= clock.prepare && clock.Valid()
    requires Covers(order, Replay(cfg, calls))
    ensures var longer := calls + [SetCall(key, result, clock, order)];
            WellTimed(cfg, longer) && Replay(cfg, longer) == AfterSet(Replay(cfg, calls), cfg, key, result, clock, order)
  {
  }

  /** In every reachable state the cache holds at most `maxEntries` entries. */
  lemma {:induction false} ReplayKeepsCapacity(cfg: Config, calls: seq<CacheCall>)
    requires cfg.Valid() && WellTimed(cfg, calls)
    ensures |Replay(cfg, calls)| <= cfg.maxEntries
  {
    if calls != [] {
      var prefix := calls[..|calls| - 1];
      ReplayKeepsCapacity(cfg, prefix);
      var before := Replay(cfg, prefix);
      match calls[|calls| - 1]
      case GetCall(key, now) =>
        SubsetCardinality(AfterGet(before, key, now).Keys, before.Keys);
      case SetCall(key, result, clock, order) =>
        SetKeepsCapacity(before, cfg, key, result, clock, order);
    }
  }

  /** A key that the unbounded map still knows is cached as is, or expired, or was sacrificed. */
  ghost predicate Accounted(cfg: Config, calls: seq<CacheCall>, key: Key) {
    var wanted := Unbounded(cfg, calls);
    var actual := Replay(cfg, calls);
    && (key in actual ==> key in wanted && actual[key] == wanted[key])
    && (key in wanted && key !in actual ==> key in Sacrificed(cfg, calls) || wanted[key].expiresAt < LastReading(calls))
  }

  lemma {:induction false} EveryKeyAccounted(cfg: Config, calls: seq<CacheCall>, key: Key)
    requires cfg.Valid() && WellTimed(cfg, calls)
    ensures Accounted(cfg, calls, key)
  {
    if calls != [] {
      var prefix := calls[..|calls| - 1];
      EveryKeyAccounted(cfg, prefix, key);
      match calls[|calls| - 1]
      case GetCall(_, _) =>
      case SetCall(stored, result, clock, order) =>
        var before := Replay(cfg, prefix);
        if Lifetime(result, cfg.ttl, clock.prepare).Some? && stored !in before {
          ReplayKeepsCapacity(cfg, prefix);
          MakeRoomMeansRoom(before, cfg.maxEntries, clock.purge, order);
        }
    }
  }

  /**
   The bounded cache refines the unbounded TTL map: at every instant after the run, for every key,
   it answers what the unbounded map answers, or it misses an entry that was a capacity victim.
   */
  lemma {:induction false} BoundedCacheRefinesTtlMap(cfg: Config, calls: seq<CacheCall>, key: Key, now: Instant)
    requires cfg.Valid() && WellTimed(cfg, calls) && LastReading(calls) <= now
    ensures var bounded := Lookup(Replay(cfg, calls), key, now);
            var unbounded := Lookup(Unbounded(cfg, calls), key, now);
            || bounded == unbounded
            || (bounded == None && key in Sacrificed(cfg, calls))
  {
    EveryKeyAccounted(cfg, calls, key);
  }

  /** A cache that never held back an entry for want of room is exactly the unbounded map. */
  lemma {:induction false} RoomyCacheIsTtlMap(cfg: Config, calls: seq<CacheCall>, key: Key, now: Instant)
    requires cfg.Valid() && WellTimed(cfg, calls) && LastReading(calls) <= now
    requires |calls| <= cfg.maxEntries
    ensures Lookup(Replay(cfg, calls), key, now) == Lookup(Unbounded(cfg, calls), key, now)
  {
    FewCallsSacrificeNothing(cfg, calls);
    BoundedCacheRefinesTtlMap(cfg, calls, key, now);
  }

  lemma {:induction false} FewCallsSacrificeNothing(cfg: Config, calls: seq<CacheCall>)
    requires cfg.Valid() && WellTimed(cfg, calls) && |calls| <= cfg.maxEntries
    ensures Sacrificed(cfg, calls) == {} && |Replay(cfg, calls)| <= |calls|
  {
    if calls != [] {
      var prefix := calls[..|calls| - 1];
      FewCallsSacrificeNothing(cfg, prefix);
      var before := Replay(cfg, prefix);
      match calls[|calls| - 1]
      case GetCall(key, now) =>
        SubsetCardinality(AfterGet(before, key, now).Keys, before.Keys);
      case SetCall(key, result, clock, order) =>
        var lifetime := Lifetime(result, cfg.ttl, clock.prepare);
        if lifetime.Some? {
          assert CapacityVictims(before, cfg.maxEntries, clock.purge, order) == {};
          assert before[key := CacheEntry(result, clock.commit + lifetime.value)].Keys == before.Keys + {key};
        }
    }
  }

  /**
   A result read back at `now` was stored by the last effective `Set` of its key. It is at most the
   TTL old, and it outlives the token's own exp by no more than the delay between the two clock
   readings of that `Set`.
   */
  lemma {:induction false} HitComesFromLastSet(cfg: Config, calls: seq<CacheCall>, key: Key, now: Instant)
    returns (i: nat)
    requires cfg.Valid() && WellTimed(cfg, calls) && LastReading(calls) <= now
    requires Lookup(Replay(cfg, calls), key, now).Some?
    ensures i < |calls| && calls[i].SetCall? && calls[i].key == key
    ensures Lookup(Replay(cfg, calls), key, now) == Some(calls[i].result)
    ensures forall j | i < j < |calls| && calls[j].SetCall? && calls[j].key == key ::
              Lifetime(calls[j].result, cfg.ttl, calls[j].clock.prepare).None?
    ensures now <= calls[i].clock.commit + cfg.ttl
    ensures calls[i].result.expiresAt > 0 ==>
              now <= TokenExpiry(calls[i].result) + (calls[i].clock.commit - calls[i].clock.prepare)
  {
    EveryKeyAccounted(cfg, calls, key);
    i := LastEffectiveSet(cfg, calls, key);
  }

  lemma {:induction false} LastEffectiveSet(cfg: Config, calls: seq<CacheCall>, key: Key) returns (i: nat)
    requires WellTimed(cfg, calls) && key in Unbounded(cfg, calls)
    ensures i < |calls| && calls[i].SetCall? && calls[i].key == key
    ensures var lifetime := Lifetime(calls[i].result, cfg.ttl, calls[i].clock.prepare);
            lifetime.Some? && Unbounded(cfg, calls)[key] == CacheEntry(calls[i].result, calls[i].clock.commit + lifetime.value)
    ensures forall j | i < j < |calls| && calls[j].SetCall? && calls[j].key == key ::
              Lifetime(calls[j].result, cfg.ttl, calls[j].clock.prepare).None?
  {
    var last := calls[|calls| - 1];
    if last.SetCall? && last.key == key && Lifetime(last.result, cfg.ttl, last.clock.prepare).Some? {
      i := |calls| - 1;
    } else {
      i := LastEffectiveSet(cfg, calls[..|calls| - 1], key);
    }
  }
}
