/**
 The token cache under concurrency. Each thread is at some point of a `Get` or a `Set`; a step moves
 one thread, or the clock, and every interleaving is a run. `Get` gives up the read lock before it
 looks at the clock and takes the write lock again to delete. `Set` computes the lifetime before it
 takes the write lock and reads the clock twice while it holds it; other threads may still pass
 their lock-free points meanwhile.
 */
module CacheSteps {
  import opened Wrappers
  import opened CacheModel

  type Tid = nat

  /** An inserted entry, with the instants at which its lifetime was computed and its deadline set. */
  datatype Commit = Commit(key: Key, result: IntrospectionResult, preparedAt: Instant, committedAt: Instant, expiresAt: Instant)

  /** A successful `Get`: the clock it checked, and how many commits there were when it read the map. */
  datatype Hit = Hit(key: Key, result: IntrospectionResult, checkedAt: Instant, seen: nat)

  datatype Local =
    | Idle
    | GetRead(key: Key, entry: CacheEntry, seen: nat)
    | GetStale(key: Key)
    | GetDone(key: Key, hit: Option<Hit>)
    | SetPrepared(key: Key, result: IntrospectionResult, lifetime: Duration, preparedAt: Instant)
    | SetLocked(key: Key, result: IntrospectionResult, lifetime: Duration, preparedAt: Instant)

  /** Why a key is not cached although it was once committed. */
  datatype Loss = WasExpired | CapacityVictim | LateDelete

  datatype State = State(
    entries: Entries,
    clock: Instant,
    writer: Option<Tid>,
    locals: map<Tid, Local>,
    commits: seq<Commit>,
    hits: seq<Hit>,
    losses: map<Key, Loss>)
  {
    function At(t: Tid): Local {
      if t in locals then locals[t] else Idle
    }
  }

  datatype Step =
    | Tick(to: Instant)
    | GetLookup(t: Tid, key: Key)
    | GetCheck(t: Tid)
    | GetDelete(t: Tid)
    | GetReturn(t: Tid)
    | SetPrepare(t: Tid, key: Key, result: IntrospectionResult)
    | SetLock(t: Tid, order: seq<Key>)
    | SetCommit(t: Tid)

  function Initial(start: Instant): State {
    State(map[], start, None, map[], [], [], map[])
  }

  ghost predicate Enabled(s: State, step: Step) {
    match step
    case Tick(to) => s.clock <= to
    case GetLookup(t, _) => s.At(t).Idle? && s.writer.None?
    case GetCheck(t) => s.At(t).GetRead?
    case GetDelete(t) => s.At(t).GetStale? && s.writer.None?
    case GetReturn(t) => s.At(t).GetDone?
    case SetPrepare(t, _, _) => s.At(t).Idle?
    case SetLock(t, order) => s.At(t).SetPrepared? && s.writer.None? && Covers(order, s.entries)
    case SetCommit(t) => s.At(t).SetLocked?
  }

  function Move(s: State, t: Tid, to: Local): State {
    s.(locals := s.locals[t := to])
  }

  /** The keys that eviction takes out, each with the reason. */
  function Evictions(before: Entries, after: Entries, now: Instant): map<Key, Loss> {
    map k | k in before && k !in after :: if Expired(before[k], now) then WasExpired else CapacityVictim
  }

  /** `Get` reads the map under the read lock. */
  function Read(s: State, t: Tid, key: Key): State {
    if key in s.entries then Move(s, t, GetRead(key, s.entries[key], |s.commits|))
    else Move(s, t, GetDone(key, None))
  }

  /** `Get` compares the entry it read with the clock, holding no lock. */
  function Check(s: State, t: Tid): State
    requires s.At(t).GetRead?
  {
    var GetRead(key, entry, seen) := s.At(t);
    if Expired(entry, s.clock) then Move(s, t, GetStale(key))
    else
      var hit := Hit(key, entry.result, s.clock, seen);
      Move(s, t, GetDone(key, Some(hit))).(hits := s.hits + [hit])
  }

  /** `Get` deletes the key it saw expired, whatever is stored under it by now. */
  function Delete(s: State, t: Tid): State
    requires s.At(t).GetStale?
  {
    var key := s.At(t).key;
    if key in s.entries then
      Move(s, t, GetDone(key, None))
        .(entries := s.entries - {key},
          losses := s.losses[key := if Expired(s.entries[key], s.clock) then WasExpired else LateDelete])
    else
      Move(s, t, GetDone(key, None))
  }

  /** `Set` computes the lifetime before it takes the lock; it returns at once for a dead token. */
  function Prepare(cfg: Config, s: State, t: Tid, key: Key, result: IntrospectionResult): State {
    match Lifetime(result, cfg.ttl, s.clock)
    case None => s
    case Some(lifetime) => Move(s, t, SetPrepared(key, result, lifetime, s.clock))
  }

  /** `Set` takes the write lock and keeps these entries. */
  function Keep(s: State, t: Tid, kept: Entries): State
    requires s.At(t).SetPrepared?
  {
    var SetPrepared(key, result, lifetime, preparedAt) := s.At(t);
    Move(s, t, SetLocked(key, result, lifetime, preparedAt))
      .(writer := Some(t), entries := kept, losses := s.losses + Evictions(s.entries, kept, s.clock))
  }

  /** `Set` takes the write lock and makes room. */
  function Lock(cfg: Config, s: State, t: Tid, order: seq<Key>): State
    requires s.At(t).SetPrepared?
  {
    Keep(s, t, KeptFor(s.entries, cfg.maxEntries, s.At(t).key, s.clock, order))
  }

  /** `Set` reads the clock again, inserts and unlocks. */
  function Insert(s: State, t: Tid): State
    requires s.At(t).SetLocked?
  {
    var SetLocked(key, result, lifetime, preparedAt) := s.At(t);
    var c := Commit(key, result, preparedAt, s.clock, s.clock + lifetime);
    Move(s, t, Idle)
      .(writer := None,
        entries := s.entries[key := CacheEntry(result, c.expiresAt)],
        losses := s.losses - {key},
        commits := s.commits + [c])
  }

  function Next(cfg: Config, s: State, step: Step): State
    requires Enabled(s, step)
  {
    match step
    case Tick(to) => s.(clock := to)
    case GetLookup(t, key) => Read(s, t, key)
    case GetCheck(t) => Check(s, t)
    case GetDelete(t) => Delete(s, t)
    case GetReturn(t) => Move(s, t, Idle)
    case SetPrepare(t, key, result) => Prepare(cfg, s, t, key, result)
    case SetLock(t, order) => Lock(cfg, s, t, order)
    case SetCommit(t) => Insert(s, t)
  }

  /** The states reached by taking the steps one after another. */
  ghost predicate IsRun(cfg: Config, steps: seq<Step>, states: seq<State>) {
    && |states| == |steps| + 1
    && states[0] == Initial(states[0].clock)
    && forall i {:trigger steps[i]} | 0 <= i < |steps| :: Enabled(states[i], steps[i]) && states[i + 1] == Next(cfg, states[i], steps[i])
  }

  /** Lets the clock advance. */
  function Later(s: State, to: Instant): State {
    s.(clock := to)
  }

  lemma KeepThenInsert(s: State, t: Tid, kept: Entries, commit: Instant)
    requires s.At(t).SetPrepared?
    ensures var done := Insert(Later(Keep(s, t, kept), commit), t);
            && done.entries == kept[s.At(t).key := CacheEntry(s.At(t).result, commit + s.At(t).lifetime)]
            && done.At(t).Idle? && done.writer.None?
  {
  }

  lemma PreparedPoint(cfg: Config, s: State, t: Tid, key: Key, result: IntrospectionResult)
    requires s.At(t).Idle?
    ensures var s' := Prepare(cfg, s, t, key, result);
            && s'.entries == s.entries && s'.writer == s.writer
            && match Lifetime(result, cfg.ttl, s.clock)
               case None => s'.At(t).Idle?
               case Some(lifetime) => s'.At(t) == SetPrepared(key, result, lifetime, s.clock)
  {
  }

  /** The steps of a `Set` that takes the lock, at these clock readings. */
  function LockedSet(cfg: Config, prepared: State, t: Tid, purge: Instant, commit: Instant, order: seq<Key>): State
    requires prepared.At(t).SetPrepared?
  {
    Insert(Later(Lock(cfg, Later(prepared, purge), t, order), commit), t)
  }

  lemma LockedSetStores(cfg: Config, s: State, t: Tid, purge: Instant, commit: Instant, order: seq<Key>, kept: Entries)
    requires s.At(t).SetPrepared? && kept == KeptFor(s.entries, cfg.maxEntries, s.At(t).key, purge, order)
    ensures var done := LockedSet(cfg, s, t, purge, commit, order);
            && done.entries == kept[s.At(t).key := CacheEntry(s.At(t).result, commit + s.At(t).lifetime)]
            && done.At(t).Idle? && done.writer.None?
  {
    KeepThenInsert(Later(s, purge), t, kept, commit);
  }

  lemma DeadSetIsSequential(cfg: Config, s: State, t: Tid, key: Key, result: IntrospectionResult, clock: SetClock, order: seq<Key>)
    requires s.At(t).Idle? && Lifetime(result, cfg.ttl, clock.prepare).None?
    ensures Prepare(cfg, Later(s, clock.prepare), t, key, result) == Later(s, clock.prepare)
    ensures AfterSet(s.entries, cfg, key, result, clock, order) == s.entries
  {
  }

  lemma LiveSetIsSequential(cfg: Config, t: Tid, result: IntrospectionResult, clock: SetClock, order: seq<Key>, prepared: State, lifetime: Duration)
    requires Lifetime(result, cfg.ttl, clock.prepare) == Some(lifetime)
    requires prepared.At(t).SetPrepared? && prepared.At(t).result == result && prepared.At(t).lifetime == lifetime
    ensures var done := LockedSet(cfg, prepared, t, clock.purge, clock.commit, order);
            && done.entries == AfterSet(prepared.entries, cfg, prepared.At(t).key, result, clock, order)
            && done.At(t).Idle? && done.writer.None?
  {
    var key := prepared.At(t).key;
    var kept := KeptFor(prepared.entries, cfg.maxEntries, key, clock.purge, order);
    AfterLiveSet(prepared.entries, cfg, key, result, clock, order, lifetime);
    LockedSetStores(cfg, prepared, t, clock.purge, clock.commit, order, kept);
  }

  /** A `Set` whose steps nothing interrupts but the clock does to the map what the sequential `Set` does. */
  lemma UninterruptedSetIsSequential(cfg: Config, s: State, t: Tid, key: Key, result: IntrospectionResult, clock: SetClock, order: seq<Key>)
    requires s.At(t).Idle? && s.writer.None?
    ensures var prepared := Prepare(cfg, Later(s, clock.prepare), t, key, result);
            if prepared.At(t).SetPrepared? then
              var done := LockedSet(cfg, prepared, t, clock.purge, clock.commit, order);
              done.entries == AfterSet(s.entries, cfg, key, result, clock, order) && done.At(t).Idle? && done.writer.None?
            else
              prepared.entries == AfterSet(s.entries, cfg, key, result, clock, order) && prepared.At(t).Idle?
  {
    if Lifetime(result, cfg.ttl, clock.prepare).Some? {
      PreparedPoint(cfg, Later(s, clock.prepare), t, key, result);
      LiveSetIsSequential(cfg, t, result, clock, order,
                          Prepare(cfg, Later(s, clock.prepare), t, key, result), Lifetime(result, cfg.ttl, clock.prepare).value);
    } else {
      DeadSetIsSequential(cfg, s, t, key, result, clock, order);
    }
  }

  /** A `Get` whose steps nothing interrupts answers and deletes as the sequential `Get` does. */
  lemma UninterruptedGetIsSequential(s: State, t: Tid, key: Key, now: Instant)
    requires s.At(t).Idle? && s.writer.None?
    ensures var read := Read(s, t, key);
            var checked := if read.At(t).GetRead? then Check(Later(read, now), t) else read;
            var done := if checked.At(t).GetStale? then Delete(checked, t) else checked;
            && done.At(t).GetDone?
            && done.entries == AfterGet(s.entries, key, now)
            && Lookup(s.entries, key, now) == (match done.At(t).hit case Some(hit) => Some(hit.result) case None => None)
  {
  }

  /** The index of the latest commit for a key, or -1. */
  function LastCommit(commits: seq<Commit>, key: Key): (i: int)
    ensures -1 <= i < |commits|
    ensures i >= 0 ==> commits[i].key == key
    ensures forall j | i < j < |commits| :: commits[j].key != key
  {
    if commits == [] then -1
    else if commits[|commits| - 1].key == key then |commits| - 1
    else LastCommit(commits[..|commits| - 1], key)
  }

  predicate CommitSound(cfg: Config, c: Commit, now: Instant) {
    && c.preparedAt <= c.committedAt <= now
    && c.expiresAt <= c.committedAt + cfg.ttl
    && (c.result.expiresAt > 0 ==> c.expiresAt <= TokenExpiry(c.result) + (c.committedAt - c.preparedAt))
  }

  /** The entry is the one that the latest of these commits for the key stored. */
  predicate Backed(commits: seq<Commit>, key: Key, entry: CacheEntry) {
    var i := LastCommit(commits, key);
    i >= 0 && entry == CacheEntry(commits[i].result, commits[i].expiresAt)
  }

  predicate HitSound(commits: seq<Commit>, h: Hit) {
    && h.seen <= |commits|
    && var i := LastCommit(commits[..h.seen], h.key);
       i >= 0 && commits[i].result == h.result && h.checkedAt <= commits[i].expiresAt
  }

  ghost predicate LocalSound(cfg: Config, s: State, t: Tid) {
    && (s.writer == Some(t) <==> s.At(t).SetLocked?)
    && match s.At(t)
       case GetRead(key, entry, seen) => seen <= |s.commits| && Backed(s.commits[..seen], key, entry)
       case GetDone(key, Some(hit)) => hit.key == key && HitSound(s.commits, hit)
       case SetPrepared(key, result, lifetime, preparedAt) =>
         preparedAt <= s.clock && Lifetime(result, cfg.ttl, preparedAt) == Some(lifetime)
       case SetLocked(key, result, lifetime, preparedAt) =>
         && preparedAt <= s.clock && Lifetime(result, cfg.ttl, preparedAt) == Some(lifetime)
         && (key in s.entries || |s.entries| < cfg.maxEntries)
       case _ => true
  }

  /** A committed key that is not cached was expired, was a capacity victim, or met a late delete. */
  ghost predicate LossSound(s: State, key: Key) {
    var i := LastCommit(s.commits, key);
    i >= 0 && key !in s.entries ==>
      key in s.losses && (s.losses[key].WasExpired? ==> s.commits[i].expiresAt < s.clock)
  }

  ghost predicate MapSound(cfg: Config, s: State) {
    && |s.entries| <= cfg.maxEntries
    && forall k | k in s.entries :: Backed(s.commits, k, s.entries[k])
  }

  ghost predicate HistorySound(cfg: Config, s: State) {
    && (forall i | 0 <= i < |s.commits| :: CommitSound(cfg, s.commits[i], s.clock))
    && (forall i | 0 <= i < |s.hits| :: HitSound(s.commits, s.hits[i]))
  }

  ghost predicate Inv(cfg: Config, s: State) {
    && MapSound(cfg, s)
    && HistorySound(cfg, s)
    && (forall t :: LocalSound(cfg, s, t))
    && (forall k: Key :: LossSound(s, k))
  }

  lemma HitStaysSound(commits: seq<Commit>, c: Commit, h: Hit)
    requires HitSound(commits, h)
    ensures HitSound(commits + [c], h)
  {
    assert (commits + [c])[..h.seen] == commits[..h.seen];
  }

  lemma DeleteKeepsMap(cfg: Config, s: State, t: Tid)
    requires MapSound(cfg, s) && s.At(t).GetStale?
    ensures MapSound(cfg, Delete(s, t))
  {
  }

  lemma LockKeepsMap(cfg: Config, s: State, t: Tid, order: seq<Key>)
    requires cfg.Valid() && MapSound(cfg, s) && s.At(t).SetPrepared? && Covers(order, s.entries)
    ensures var s' := Lock(cfg, s, t, order);
            MapSound(cfg, s') && (s.At(t).key in s'.entries || |s'.entries| < cfg.maxEntries)
  {
    if s.At(t).key !in s.entries {
      MakeRoomMeansRoom(s.entries, cfg.maxEntries, s.clock, order);
    }
  }

  lemma InsertKeepsMap(cfg: Config, s: State, t: Tid)
    requires MapSound(cfg, s) && s.At(t).SetLocked?
    requires s.At(t).key in s.entries || |s.entries| < cfg.maxEntries
    ensures MapSound(cfg, Insert(s, t))
  {
  }

  /** The map stays bounded, and every entry stays the latest commit of its key. */
  lemma StepKeepsMap(cfg: Config, s: State, step: Step)
    requires cfg.Valid() && MapSound(cfg, s) && Enabled(s, step)
    requires step.SetCommit? ==> LocalSound(cfg, s, step.t)
    ensures MapSound(cfg, Next(cfg, s, step))
  {
    match step
    case GetDelete(t) => DeleteKeepsMap(cfg, s, t);
    case SetLock(t, order) => LockKeepsMap(cfg, s, t, order);
    case SetCommit(t) =>
      assert LocalSound(cfg, s, t);
      InsertKeepsMap(cfg, s, t);
    case _ =>
  }

  lemma StepKeepsHistory(cfg: Config, s: State, step: Step)
    requires HistorySound(cfg, s) && Enabled(s, step)
    requires !step.Tick? ==> LocalSound(cfg, s, step.t)
    ensures HistorySound(cfg, Next(cfg, s, step))
  {
    var s' := Next(cfg, s, step);
    match step
    case SetCommit(t) =>
      var c := s'.commits[|s.commits|];
      forall i | 0 <= i < |s'.hits| ensures HitSound(s'.commits, s'.hits[i]) {
        HitStaysSound(s.commits, c, s.hits[i]);
      }
    case _ =>
  }

  /** A step inside `Get` or `Set` stays with the key of the call, and leaves the clock alone. */
  lemma ActorKeepsKey(cfg: Config, s: State, step: Step)
    requires Enabled(s, step) && (step.GetLookup? || step.GetCheck? || step.GetDelete? || step.SetLock? || step.SetCommit?)
    ensures var point := Next(cfg, s, step).At(step.t);
            && Next(cfg, s, step).clock == s.clock
            && (step.GetLookup? ==> (point.GetRead? || point.GetDone?) && point.key == step.key)
            && (step.GetCheck? || step.GetDelete? ==> (point.GetStale? || point.GetDone?) && point.key == s.At(step.t).key)
            && (step.SetLock? ==>
                  && point.SetLocked? && point.key == s.At(step.t).key
                  && point.result == s.At(step.t).result && point.preparedAt == s.At(step.t).preparedAt)
            && (step.SetCommit? ==> point.Idle?)
  {
    match step
    case GetLookup(_, _) =>
    case GetCheck(_) =>
    case GetDelete(_) =>
    case SetLock(_, _) =>
    case SetCommit(_) =>
  }

  lemma KeepKeepsOthers(s: State, t: Tid, kept: Entries, other: Tid)
    requires s.At(t).SetPrepared? && other != t
    ensures Keep(s, t, kept).At(other) == s.At(other)
  {
  }

  lemma OthersKeepPoint(cfg: Config, s: State, step: Step, t: Tid)
    requires Enabled(s, step) && (step.Tick? || step.t != t)
    ensures Next(cfg, s, step).At(t) == s.At(t)
  {
    if step.SetLock? {
      KeepKeepsOthers(s, step.t, KeptFor(s.entries, cfg.maxEntries, s.At(step.t).key, s.clock, step.order), t);
    }
  }

  lemma LocalSurvivesCommit(commits: seq<Commit>, c: Commit, local: Local)
    ensures local.GetRead? && local.seen <= |commits| ==> (commits + [c])[..local.seen] == commits[..local.seen]
    ensures local.GetDone? && local.hit.Some? && HitSound(commits, local.hit.value) ==> HitSound(commits + [c], local.hit.value)
  {
    if local.GetDone? && local.hit.Some? && HitSound(commits, local.hit.value) {
      HitStaysSound(commits, c, local.hit.value);
    }
  }

  lemma OthersSurviveInsert(cfg: Config, s: State, actor: Tid, t: Tid)
    requires s.At(actor).SetLocked? && actor != t && LocalSound(cfg, s, t) && LocalSound(cfg, s, actor)
    ensures LocalSound(cfg, Insert(s, actor), t)
  {
    var s' := Insert(s, actor);
    var c := s'.commits[|s.commits|];
    assert s'.commits == s.commits + [c] && s'.At(t) == s.At(t) && !s.At(t).SetLocked?;
    LocalSurvivesCommit(s.commits, c, s.At(t));
  }

  /** A thread that waits keeps its facts: only the lock holder adds to what a locked `Set` relies on. */
  lemma OthersKeepLocal(cfg: Config, s: State, step: Step, t: Tid)
    requires cfg.Valid() && Enabled(s, step) && (step.Tick? || step.t != t)
    requires LocalSound(cfg, s, t) && (!step.Tick? ==> LocalSound(cfg, s, step.t))
    ensures LocalSound(cfg, Next(cfg, s, step), t)
  {
    OthersKeepPoint(cfg, s, step, t);
    if step.SetCommit? {
      OthersSurviveInsert(cfg, s, step.t, t);
    }
  }

  lemma LockKeepsLocal(cfg: Config, s: State, t: Tid, order: seq<Key>)
    requires cfg.Valid() && MapSound(cfg, s) && s.At(t).SetPrepared? && Covers(order, s.entries)
    requires LocalSound(cfg, s, t)
    ensures LocalSound(cfg, Lock(cfg, s, t, order), t)
  {
    LockKeepsMap(cfg, s, t, order);
  }

  lemma ReadKeepsLocal(cfg: Config, s: State, t: Tid, key: Key)
    requires MapSound(cfg, s) && LocalSound(cfg, s, t) && s.At(t).Idle? && s.writer.None?
    ensures LocalSound(cfg, Read(s, t, key), t)
  {
    assert s.commits[..|s.commits|] == s.commits;
  }

  lemma ActorKeepsLocal(cfg: Config, s: State, step: Step)
    requires cfg.Valid() && MapSound(cfg, s) && Enabled(s, step) && !step.Tick?
    requires LocalSound(cfg, s, step.t)
    ensures LocalSound(cfg, Next(cfg, s, step), step.t)
  {
    if step.SetLock? {
      LockKeepsLocal(cfg, s, step.t, step.order);
    } else if step.GetLookup? {
      ReadKeepsLocal(cfg, s, step.t, step.key);
    }
  }

  lemma DeleteKeepsLosses(s: State, t: Tid, key: Key)
    requires LossSound(s, key) && s.At(t).GetStale?
    requires key in s.entries ==> Backed(s.commits, key, s.entries[key])
    ensures LossSound(Delete(s, t), key)
  {
  }

  lemma LockKeepsLosses(cfg: Config, s: State, t: Tid, order: seq<Key>, key: Key)
    requires LossSound(s, key) && s.At(t).SetPrepared?
    requires key in s.entries ==> Backed(s.commits, key, s.entries[key])
    ensures LossSound(Lock(cfg, s, t, order), key)
  {
  }

  lemma InsertKeepsLosses(s: State, t: Tid, key: Key)
    requires LossSound(s, key) && s.At(t).SetLocked?
    ensures LossSound(Insert(s, t), key)
  {
  }

  lemma StepKeepsLosses(cfg: Config, s: State, step: Step, key: Key)
    requires LossSound(s, key) && Enabled(s, step) && MapSound(cfg, s)
    ensures LossSound(Next(cfg, s, step), key)
  {
    match step
    case GetDelete(t) => DeleteKeepsLosses(s, t, key);
    case SetLock(t, order) => LockKeepsLosses(cfg, s, t, order, key);
    case SetCommit(t) => InsertKeepsLosses(s, t, key);
    case _ =>
  }

  /** Every step of every thread, in any state, keeps the invariant. */
  lemma StepKeepsInv(cfg: Config, s: State, step: Step)
    requires cfg.Valid() && Inv(cfg, s) && Enabled(s, step)
    ensures Inv(cfg, Next(cfg, s, step))
  {
    StepKeepsMap(cfg, s, step);
    StepKeepsHistory(cfg, s, step);
    forall t ensures LocalSound(cfg, Next(cfg, s, step), t) {
      if step.Tick? || step.t != t {
        OthersKeepLocal(cfg, s, step, t);
      } else {
        ActorKeepsLocal(cfg, s, step);
      }
    }
    forall k: Key ensures LossSound(Next(cfg, s, step), k) {
      StepKeepsLosses(cfg, s, step, k);
    }
  }

  lemma {:induction false} RunKeepsInv(cfg: Config, steps: seq<Step>, states: seq<State>, i: nat)
    requires cfg.Valid() && IsRun(cfg, steps, states) && i < |states|
    ensures Inv(cfg, states[i])
  {
    if i > 0 {
      RunKeepsInv(cfg, steps, states, i - 1);
      assert Enabled(states[i - 1], steps[i - 1]);
      StepKeepsInv(cfg, states[i - 1], steps[i - 1]);
    }
  }

  ghost predicate Reaches(cfg: Config, s: State) {
    exists steps, states :: IsRun(cfg, steps, states) && states[|steps|] == s
  }

  lemma ReachableIsSound(cfg: Config, s: State)
    requires cfg.Valid() && Reaches(cfg, s)
    ensures Inv(cfg, s)
  {
    var steps, states :| IsRun(cfg, steps, states) && states[|steps|] == s;
    RunKeepsInv(cfg, steps, states, |steps|);
  }

  /** What a hit owes to the commits: the latest of its key when it read the map, and still young enough. */
  ghost predicate FreshHit(cfg: Config, commits: seq<Commit>, h: Hit, c: nat) {
    && c < h.seen <= |commits|
    && commits[c].key == h.key && commits[c].result == h.result
    && (forall later | c < later < h.seen :: commits[later].key != h.key)
    && h.checkedAt <= commits[c].committedAt + cfg.ttl
    && (h.result.expiresAt > 0 ==>
          h.checkedAt <= TokenExpiry(h.result) + (commits[c].committedAt - commits[c].preparedAt))
  }

  lemma SoundHitIsFresh(cfg: Config, s: State, h: Hit) returns (c: nat)
    requires HistorySound(cfg, s) && HitSound(s.commits, h)
    ensures FreshHit(cfg, s.commits, h, c)
  {
    c := LastCommit(s.commits[..h.seen], h.key);
    assert CommitSound(cfg, s.commits[c], s.clock);
    assert forall i | 0 <= i < h.seen :: s.commits[i] == s.commits[..h.seen][i];
  }

  /**
   In every interleaving, a hit returns the result of the latest `Set` of its key that was committed
   when the hit read the map; it is at most the TTL old, and later than the token's exp by at most the
   time that `Set` took from computing the lifetime to inserting the entry.
   */
  lemma HitIsNeverWrongOrStale(cfg: Config, s: State, h: Hit)
    requires cfg.Valid() && Reaches(cfg, s) && h in s.hits
    ensures exists c: nat :: FreshHit(cfg, s.commits, h, c)
  {
    ReachableIsSound(cfg, s);
    var c := SoundHitIsFresh(cfg, s, h);
  }

  lemma {:induction false} ReaderHasItsLookup(cfg: Config, steps: seq<Step>, states: seq<State>, n: nat, t: Tid) returns (i: nat)
    requires IsRun(cfg, steps, states) && n < |states| && states[n].At(t).GetRead?
    ensures i < n && steps[i] == GetLookup(t, states[n].At(t).key) && states[n].At(t).seen == |states[i].commits|
  {
    assert n > 0;
    var s := states[n - 1];
    assert Enabled(s, steps[n - 1]);
    if s.At(t) == states[n].At(t) {
      i := ReaderHasItsLookup(cfg, steps, states, n - 1, t);
    } else {
      if steps[n - 1].Tick? || steps[n - 1].t != t {
        OthersKeepPoint(cfg, s, steps[n - 1], t);
      }
      i := n - 1;
    }
  }

  /** In every run a hit names the key of its lookup, the commits at that moment, and the clock at its check. */
  lemma {:induction false} HitHasItsSteps(cfg: Config, steps: seq<Step>, states: seq<State>, n: nat, k: nat) returns (i: nat, j: nat, t: Tid)
    requires IsRun(cfg, steps, states) && n < |states| && k < |states[n].hits|
    ensures i < j < n
    ensures steps[i] == GetLookup(t, states[n].hits[k].key) && states[n].hits[k].seen == |states[i].commits|
    ensures steps[j] == GetCheck(t) && states[n].hits[k].checkedAt == states[j].clock
  {
    assert n > 0;
    var s := states[n - 1];
    assert Enabled(s, steps[n - 1]);
    if k < |s.hits| {
      i, j, t := HitHasItsSteps(cfg, steps, states, n - 1, k);
    } else {
      j, t := n - 1, steps[n - 1].t;
      i := ReaderHasItsLookup(cfg, steps, states, j, t);
    }
  }

  /** The thread is inside this `Set`, which read the clock at this instant. */
  predicate InsideSet(local: Local, key: Key, result: IntrospectionResult, lifetime: Duration, preparedAt: Instant) {
    local == SetPrepared(key, result, lifetime, preparedAt) || local == SetLocked(key, result, lifetime, preparedAt)
  }

  /** A thread gets into a `Set` by its first step only. */
  lemma SetBegins(cfg: Config, s: State, step: Step, t: Tid, key: Key, result: IntrospectionResult, lifetime: Duration, preparedAt: Instant)
    requires Enabled(s, step) && InsideSet(Next(cfg, s, step).At(t), key, result, lifetime, preparedAt)
    ensures InsideSet(s.At(t), key, result, lifetime, preparedAt) ||
            (step == SetPrepare(t, key, result) && preparedAt == s.clock && Lifetime(result, cfg.ttl, preparedAt) == Some(lifetime))
  {
    if step.Tick? || step.t != t {
      OthersKeepPoint(cfg, s, step, t);
    }
  }

  lemma {:induction false} SetHasItsStart(cfg: Config, steps: seq<Step>, states: seq<State>, n: nat, t: Tid,
                                          key: Key, result: IntrospectionResult, lifetime: Duration, preparedAt: Instant) returns (i: nat)
    requires IsRun(cfg, steps, states) && n < |states|
    requires InsideSet(states[n].At(t), key, result, lifetime, preparedAt)
    ensures i < n && steps[i] == SetPrepare(t, key, result)
    ensures preparedAt == states[i].clock && Lifetime(result, cfg.ttl, preparedAt) == Some(lifetime)
  {
    assert n > 0;
    i := n - 1;
    assert Enabled(states[i], steps[i]);
    SetBegins(cfg, states[i], steps[i], t, key, result, lifetime, preparedAt);
    if InsideSet(states[i].At(t), key, result, lifetime, preparedAt) {
      i := SetHasItsStart(cfg, steps, states, i, t, key, result, lifetime, preparedAt);
    }
  }

  /**
   In every run a commit stores the key and the result of one `Set` call, with the clock values at the
   start of that call and at the insertion, and with the lifetime computed at the start.
   */
  lemma {:induction false} CommitHasItsSteps(cfg: Config, steps: seq<Step>, states: seq<State>, n: nat, k: nat) returns (i: nat, j: nat, t: Tid)
    requires IsRun(cfg, steps, states) && n < |states| && k < |states[n].commits|
    ensures i < j < n
    ensures var c := states[n].commits[k];
            && steps[i] == SetPrepare(t, c.key, c.result) && c.preparedAt == states[i].clock
            && steps[j] == SetCommit(t) && c.committedAt == states[j].clock
            && Lifetime(c.result, cfg.ttl, c.preparedAt) == Some(c.expiresAt - c.committedAt)
  {
    assert n > 0;
    var s := states[n - 1];
    assert Enabled(s, steps[n - 1]);
    if k < |s.commits| {
      i, j, t := CommitHasItsSteps(cfg, steps, states, n - 1, k);
    } else {
      j, t := n - 1, steps[n - 1].t;
      var SetLocked(key, result, lifetime, preparedAt) := s.At(t);
      i := SetHasItsStart(cfg, steps, states, j, t, key, result, lifetime, preparedAt);
    }
  }

  /**
   The capacity bound holds in every reachable state. A key whose latest commit is still live and
   which is not cached was a capacity victim, or it was deleted in the window that `Get` leaves
   between its clock check and its delete.
   */
  lemma MissOfLiveEntryIsExplained(cfg: Config, s: State, key: Key)
    requires cfg.Valid() && Reaches(cfg, s)
    ensures |s.entries| <= cfg.maxEntries
    ensures var c := LastCommit(s.commits, key);
            && (key in s.entries ==> c >= 0 && s.entries[key] == CacheEntry(s.commits[c].result, s.commits[c].expiresAt))
            && (key !in s.entries && c >= 0 && s.clock <= s.commits[c].expiresAt ==>
                  key in s.losses && (s.losses[key].CapacityVictim? || s.losses[key].LateDelete?))
  {
    ReachableIsSound(cfg, s);
    assert LossSound(s, key);
  }

  lemma ReachesNext(cfg: Config, s: State, step: Step)
    requires Reaches(cfg, s) && Enabled(s, step)
    ensures Reaches(cfg, Next(cfg, s, step))
  {
    var steps, states :| IsRun(cfg, steps, states) && states[|steps|] == s;
    var longer, reached := steps + [step], states + [Next(cfg, s, step)];
    assert IsRun(cfg, longer, reached);
    assert reached[|longer|] == Next(cfg, s, step);
  }

  /** A thread that runs undisturbed stores its result. */
  lemma UndisturbedSet(cfg: Config, s: State, t: Tid, key: Key, result: IntrospectionResult, order: seq<Key>)
    requires Reaches(cfg, s) && s.At(t).Idle? && s.writer.None? && Covers(order, s.entries)
    requires key in s.entries || |s.entries| < cfg.maxEntries
    requires result.expiresAt == 0
    ensures var s' := s.(entries := s.entries[key := CacheEntry(result, s.clock + cfg.ttl)],
                         losses := s.losses - {key},
                         locals := s.locals[t := Idle],
                         commits := s.commits + [Commit(key, result, s.clock, s.clock, s.clock + cfg.ttl)]);
            Reaches(cfg, s')
  {
    ReachesNext(cfg, s, SetPrepare(t, key, result));
    var s1 := Prepare(cfg, s, t, key, result);
    ReachesNext(cfg, s1, SetLock(t, order));
    var s2 := Lock(cfg, s1, t, order);
    assert Evictions(s1.entries, s2.entries, s1.clock) == map[];
    assert s2.losses == s.losses;
    ReachesNext(cfg, s2, SetCommit(t));
    assert s.locals[t := Idle] == s.locals[t := s1.At(t)][t := s2.At(t)][t := Idle];
  }

  /** Thread 1 has found the entry of "k" expired and is about to delete it. */
  lemma ReachStaleReader(r: IntrospectionResult) returns (s: State)
    requires r.expiresAt == 0
    ensures Reaches(Config(10, 1), s)
    ensures s == State(map["k" := CacheEntry(r, 10)], 11, None, map[2 := Idle, 1 := GetStale("k")],
                       [Commit("k", r, 0, 0, 10)], [], map[])
  {
    var cfg := Config(10, 1);
    var s0 := Initial(0);
    var none: seq<Step>, start := [], [s0];
    assert IsRun(cfg, none, start) && start[|none|] == s0;
    UndisturbedSet(cfg, s0, 2, "k", r, []);
    var s1 := State(map["k" := CacheEntry(r, 10)], 0, None, map[2 := Idle], [Commit("k", r, 0, 0, 10)], [], map[]);
    assert s1 == s0.(entries := s1.entries, losses := s0.losses - {"k"}, locals := s1.locals, commits := s1.commits);
    ReachesNext(cfg, s1, Tick(11));
    var s2 := s1.(clock := 11);
    ReachesNext(cfg, s2, GetLookup(1, "k"));
    var s3 := Read(s2, 1, "k");
    ReachesNext(cfg, s3, GetCheck(1));
    s := Check(s3, 1);
  }

  /**
   The window is real: thread 1 finds an expired entry, thread 2 stores a fresh one, and thread 1
   then deletes the fresh one. The next reader misses although the token was introspected just now.
   */
  lemma LateDeleteCausesExtraMiss() returns (s: State)
    ensures Reaches(Config(10, 1), s)
    ensures |s.commits| == 2 && s.commits[1].key == "k" && s.clock < s.commits[1].expiresAt
    ensures "k" !in s.entries && "k" in s.losses && s.losses["k"] == LateDelete
  {
    var cfg := Config(10, 1);
    var r := IntrospectionResult("c", "", 0, true);
    var s4 := ReachStaleReader(r);
    UndisturbedSet(cfg, s4, 2, "k", r, ["k"]);
    var s5 := s4.(entries := s4.entries["k" := CacheEntry(r, 21)],
                  losses := s4.losses - {"k"},
                  locals := s4.locals[2 := Idle],
                  commits := s4.commits + [Commit("k", r, 11, 11, 21)]);
    ReachesNext(cfg, s5, GetDelete(1));
    s := Delete(s5, 1);
  }
}
