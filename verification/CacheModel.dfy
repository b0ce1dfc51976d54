/**
 The contents of the token cache as a value, and what one `Get` or `Set` does to it.

 Instants and durations are nanoseconds. A duration is a Go int64, so the subtraction of two
 instants saturates. A region that runs under the write lock reads the clock more than once, and
 every reading is a separate parameter. `order` is the order in which Go happens to range over the
 map: any sequence that mentions every key.
 */
module CacheModel {
  import opened Wrappers

  type Key = string
  type Instant = int

  const MIN_DURATION: int := -0x8000_0000_0000_0000
  const MAX_DURATION: int := 0x7FFF_FFFF_FFFF_FFFF
  const SECOND: int := 1_000_000_000

  type Duration = d: int | MIN_DURATION <= d <= MAX_DURATION

  /** `expiresAt` is the token's exp claim in Unix seconds; zero or less means that there is none. */
  datatype IntrospectionResult = IntrospectionResult(clientID: string, scope: string, expiresAt: int, active: bool)

  datatype CacheEntry = CacheEntry(result: IntrospectionResult, expiresAt: Instant)

  type Entries = map<Key, CacheEntry>

  datatype Config = Config(ttl: Duration, maxEntries: int) {
    predicate Valid() {
      maxEntries >= 1
    }
  }

  /** The clock readings of one `Set`: before the lock, in the purge, and at the insertion. */
  datatype SetClock = SetClock(prepare: Instant, purge: Instant, commit: Instant) {
    predicate Valid() {
      prepare <= purge <= commit
    }
  }

  predicate Expired(entry: CacheEntry, now: Instant) {
    now > entry.expiresAt
  }

  /** time.Time.Sub, which saturates at the ends of the int64 range. */
  function Sub(a: Instant, b: Instant): Duration {
    if a - b < MIN_DURATION then MIN_DURATION
    else if a - b > MAX_DURATION then MAX_DURATION
    else a - b
  }

  /** The instant at which the token itself says it ends. */
  function TokenExpiry(result: IntrospectionResult): Instant {
    result.expiresAt * SECOND
  }

  /** How long `Set` may keep a result, or None when the token is already over. */
  function Lifetime(result: IntrospectionResult, ttl: Duration, now: Instant): (r: Option<Duration>)
    ensures r.None? <==> result.expiresAt > 0 && TokenExpiry(result) <= now
    ensures r.Some? ==> r.value <= ttl
    ensures r.Some? && result.expiresAt > 0 ==> now + r.value <= TokenExpiry(result)
    ensures r.Some? && r.value != ttl ==> result.expiresAt > 0 && now + r.value == TokenExpiry(result)
  {
    if result.expiresAt > 0 then
      var remaining := Sub(TokenExpiry(result), now);
      if remaining <= 0 then None
      else if remaining < ttl then Some(remaining)
      else Some(ttl)
    else
      Some(ttl)
  }

  function Lookup(m: Entries, key: Key, now: Instant): Option<IntrospectionResult> {
    if key in m && !Expired(m[key], now) then Some(m[key].result) else None
  }

  /** A `Get` removes the entry it found expired and nothing else. */
  function AfterGet(m: Entries, key: Key, now: Instant): Entries {
    if key in m && Expired(m[key], now) then m - {key} else m
  }

  function Purge(m: Entries, now: Instant): Entries {
    map k | k in m && !Expired(m[k], now) :: m[k]
  }

  predicate Covers(order: seq<Key>, m: Entries) {
    forall k | k in m :: k in order
  }

  /** No entry expires before `victim` does. */
  predicate IsEarliest(m: Entries, victim: Key) {
    && victim in m
    && forall k | k in m :: m[victim].expiresAt <= m[k].expiresAt
  }

  /** The scan of `evictOldestLocked` over the rest of the iteration order. */
  function EarliestFrom(m: Entries, order: seq<Key>, best: Option<Key>): (r: Option<Key>)
    requires best.Some? ==> best.value in m
    ensures r.Some? ==> r.value in m
    ensures r.None? <==> best.None? && forall k | k in m :: k !in order
    ensures forall k | k in m && (k in order || best == Some(k)) :: m[r.value].expiresAt <= m[k].expiresAt
  {
    if order == [] then best
    else
      var k := order[0];
      assert order == [k] + order[1..];
      if k in m && (best.None? || m[k].expiresAt < m[best.value].expiresAt) then
        EarliestFrom(m, order[1..], Some(k))
      else
        EarliestFrom(m, order[1..], best)
  }

  /** Removes the entry nearest to its expiry, if there is an entry at all. */
  function EvictOldest(m: Entries, order: seq<Key>): Entries {
    match EarliestFrom(m, order, None)
    case None => m
    case Some(victim) => m - {victim}
  }

  /** Two-stage eviction: the expired entries first, then the oldest one if that was not enough. */
  function MakeRoom(m: Entries, maxEntries: int, now: Instant, order: seq<Key>): Entries {
    if |m| < maxEntries then m
    else
      var live := Purge(m, now);
      if |live| < maxEntries then live else EvictOldest(live, order)
  }

  /** The entries that are kept when this key is stored: only a new key may need room. */
  function KeptFor(m: Entries, maxEntries: int, key: Key, now: Instant, order: seq<Key>): Entries {
    if key in m then m else MakeRoom(m, maxEntries, now, order)
  }

  function AfterSet(m: Entries, cfg: Config, key: Key, result: IntrospectionResult, clock: SetClock, order: seq<Key>): Entries {
    match Lifetime(result, cfg.ttl, clock.prepare)
    case None => m
    case Some(lifetime) =>
      KeptFor(m, cfg.maxEntries, key, clock.purge, order)[key := CacheEntry(result, clock.commit + lifetime)]
  }

  lemma AfterLiveSet(m: Entries, cfg: Config, key: Key, result: IntrospectionResult, clock: SetClock, order: seq<Key>, lifetime: Duration)
    requires Lifetime(result, cfg.ttl, clock.prepare) == Some(lifetime)
    ensures AfterSet(m, cfg, key, result, clock, order)
         == KeptFor(m, cfg.maxEntries, key, clock.purge, order)[key := CacheEntry(result, clock.commit + lifetime)]
  {
  }

  /** The keys whose entries were still live and were removed only for want of room. */
  function CapacityVictims(m: Entries, maxEntries: int, now: Instant, order: seq<Key>): set<Key> {
    Purge(m, now).Keys - MakeRoom(m, maxEntries, now, order).Keys
  }

  lemma PurgeShrinks(m: Entries, now: Instant)
    ensures |Purge(m, now)| <= |m|
  {
    assert Purge(m, now).Keys <= m.Keys;
    SubsetCardinality(Purge(m, now).Keys, m.Keys);
  }

  lemma SubsetCardinality<T>(a: set<T>, b: set<T>)
    requires a <= b
    ensures |a| <= |b|
  {
    assert b == a + (b - a);
  }

  /** For every iteration order that visits the whole map, the victim expires no later than any other entry. */
  lemma EvictOldestRemovesEarliest(m: Entries, order: seq<Key>)
    requires m != map[] && Covers(order, m)
    ensures exists v :: IsEarliest(m, v) && EvictOldest(m, order) == m - {v} && |EvictOldest(m, order)| == |m| - 1
  {
    var victim := EarliestFrom(m, order, None);
    var any :| any in m;
    assert IsEarliest(m, victim.value);
    assert (m - {victim.value}).Keys == m.Keys - {victim.value};
  }

  /** What eviction may do to a cache that is within its bound, whatever the iteration order. */
  lemma MakeRoomMeansRoom(m: Entries, maxEntries: int, now: Instant, order: seq<Key>)
    requires maxEntries >= 1 && |m| <= maxEntries && Covers(order, m)
    ensures |MakeRoom(m, maxEntries, now, order)| < maxEntries
    ensures forall k | k in MakeRoom(m, maxEntries, now, order) :: k in m && MakeRoom(m, maxEntries, now, order)[k] == m[k]
  {
    var live := Purge(m, now);
    PurgeShrinks(m, now);
    if |m| >= maxEntries && |live| >= maxEntries {
      EvictOldestRemovesEarliest(live, order);
    }
  }

  /** Eviction starts only in a full cache, and then no expired entry survives it. */
  lemma MakeRoomPurges(m: Entries, maxEntries: int, now: Instant, order: seq<Key>)
    ensures |m| < maxEntries ==> MakeRoom(m, maxEntries, now, order) == m
    ensures |m| >= maxEntries ==> forall k | k in MakeRoom(m, maxEntries, now, order) :: k in m && now <= m[k].expiresAt
  {
  }

  /** The bound holds after every `Set`, for every configuration with room for at least one entry. */
  lemma SetKeepsCapacity(m: Entries, cfg: Config, key: Key, result: IntrospectionResult, clock: SetClock, order: seq<Key>)
    requires cfg.Valid() && |m| <= cfg.maxEntries && Covers(order, m)
    ensures |AfterSet(m, cfg, key, result, clock, order)| <= cfg.maxEntries
  {
    var room := if key in m then m else MakeRoom(m, cfg.maxEntries, clock.purge, order);
    if key !in m {
      MakeRoomMeansRoom(m, cfg.maxEntries, clock.purge, order);
    }
    var lifetime := Lifetime(result, cfg.ttl, clock.prepare);
    if lifetime.Some? {
      var entry := CacheEntry(result, clock.commit + lifetime.value);
      assert room[key := entry].Keys == room.Keys + {key};
    }
  }

  /**
   A `Set` costs another key its entry only if the key is new, the cache was full, and either that
   entry was expired or the purge left the cache full and no surviving entry expires before it.
   */
  lemma SetRemovesOnlyWhatItMust(m: Entries, cfg: Config, key: Key, result: IntrospectionResult, clock: SetClock, order: seq<Key>, lost: Key)
    requires cfg.Valid() && |m| <= cfg.maxEntries && Covers(order, m)
    requires lost in m && lost !in AfterSet(m, cfg, key, result, clock, order)
    ensures key !in m && |m| == cfg.maxEntries
    ensures Expired(m[lost], clock.purge) ||
            (|Purge(m, clock.purge)| == cfg.maxEntries && IsEarliest(m, lost))
  {
    var live := Purge(m, clock.purge);
    PurgeShrinks(m, clock.purge);
    if !Expired(m[lost], clock.purge) {
      EvictOldestRemovesEarliest(live, order);
      assert live.Keys <= m.Keys && |live.Keys| == |m.Keys|;
      if live.Keys != m.Keys {
        assert live.Keys < m.Keys;
        ProperSubsetCardinality(live.Keys, m.Keys);
      }
      assert forall k | k in m :: k in live;
    }
  }

  lemma ProperSubsetCardinality<T>(a: set<T>, b: set<T>)
    requires a < b
    ensures |a| < |b|
  {
    assert b == a + (b - a);
    var x :| x in b - a;
    assert |b - a| > 0;
  }

  /** One `Set` sacrifices at most one live entry. */
  lemma SetSacrificesAtMostOneLiveEntry(m: Entries, cfg: Config, key: Key, result: IntrospectionResult, clock: SetClock, order: seq<Key>, k1: Key, k2: Key)
    requires cfg.Valid() && |m| <= cfg.maxEntries && Covers(order, m)
    requires k1 in m && !Expired(m[k1], clock.purge) && k1 !in AfterSet(m, cfg, key, result, clock, order)
    requires k2 in m && !Expired(m[k2], clock.purge) && k2 !in AfterSet(m, cfg, key, result, clock, order)
    ensures k1 == k2
  {
    EvictOldestRemovesEarliest(Purge(m, clock.purge), order);
  }

  /** Reading back: the entry is a hit up to and including its deadline, and a dead token changes nothing. */
  lemma GetAfterSet(m: Entries, cfg: Config, key: Key, result: IntrospectionResult, clock: SetClock, order: seq<Key>, now: Instant)
    ensures var lifetime := Lifetime(result, cfg.ttl, clock.prepare);
            Lookup(AfterSet(m, cfg, key, result, clock, order), key, now) ==
              if lifetime.None? then Lookup(m, key, now)
              else if now <= clock.commit + lifetime.value then Some(result)
              else None
  {
  }

  /**
   The comment on `Set` says that no token is cached beyond its expiry. Exactly when that holds for the
   entry it makes: the TTL ends first, or no time passed between the two clock readings.
   */
  lemma DeadlineRespectsExpiryExactlyWhen(cfg: Config, result: IntrospectionResult, clock: SetClock)
    requires clock.Valid() && result.expiresAt > 0
    requires Lifetime(result, cfg.ttl, clock.prepare).Some?
    ensures clock.commit + Lifetime(result, cfg.ttl, clock.prepare).value <= TokenExpiry(result) <==>
            clock.commit + cfg.ttl <= TokenExpiry(result) || clock.commit == clock.prepare
  {
  }

  /** A token that expires at second 1, stored with a delay of 5 ns, is still a hit 5 ns after its expiry. */
  lemma TokenCanOutliveItsExpiry()
    ensures var result := IntrospectionResult("c", "", 1, true);
            var cache := AfterSet(map[], Config(300 * SECOND, 1), "k", result, SetClock(0, 0, 5), []);
            TokenExpiry(result) < SECOND + 5 && Lookup(cache, "k", SECOND + 5) == Some(result)
  {
  }
}
