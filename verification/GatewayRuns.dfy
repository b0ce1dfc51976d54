/**
 The running gateway: the server objects take one exchange after another, and the management API then
 reads the audit store they filled. What `ChainRuns` proves of runs on values holds of the objects.
 */
module GatewayRuns {
  import opened Wrappers
  import opened CacheModel
  import CacheHistory
  import opened Headers
  import opened HttpObjects
  import opened AuditStores
  import Listing = AuditListing
  import opened Chain
  import opened ChainTheorems
  import opened ChainRuns
  import opened GatewayServer

  /** The last clock reading of the exchanges. */
  function Until(start: Instant, xs: seq<Exchange>): Instant {
    if xs == [] then start else xs[|xs| - 1].env.setAt.commit
  }

  /** The clock never goes back, and every map order covers the cache that its exchange finds. */
  ghost predicate Scheduled(g: Setup, world: World, start: Instant, xs: seq<Exchange>) {
    xs == [] ||
    var prefix := xs[..|xs| - 1];
    var env := xs[|xs| - 1].env;
    && Scheduled(g, world, start, prefix)
    && Until(start, prefix) <= env.getAt <= env.setAt.prepare && env.setAt.Valid()
    && Covers(env.order, Run(g, world, prefix).cache)
  }

  lemma {:induction false} PrefixIsScheduled(g: Setup, world: World, start: Instant, xs: seq<Exchange>, i: nat)
    requires Scheduled(g, world, start, xs) && i <= |xs|
    ensures Scheduled(g, world, start, xs[..i])
  {
    if i < |xs| {
      PrefixIsScheduled(g, world, start, xs[..|xs| - 1], i);
      assert xs[..|xs| - 1][..i] == xs[..i];
    } else {
      assert xs[..i] == xs;
    }
  }

  /** What net/http hands over. */
  ghost predicate IsServable(x: Exchange) {
    IsCanonical(x.request.header) && Deliverable(x.env.upstream)
  }

  /** One exchange, with the objects that net/http makes for it. */
  method ServeOne(server: Server, x: Exchange)
    requires server.Valid() && server.Timely(x.env) && IsServable(x)
    modifies server`upstream, server`queries, server.cache`entries, server.cache`history, server.store, server.store.entries
    ensures server.Valid() && server.store.entries == old(server.store.entries)
    ensures CacheHistory.LastReading(server.cache.history) <= x.env.setAt.commit
    ensures server.State() == Gateway(server.setup)(x.request, SceneOf(old(server.State()), x)).world
  {
    var r := new HttpRequest(x.request);
    var w := new ResponseWriter(x.room);
    assert server.Now(x.env, w) == SceneOf(server.State(), x);
    server.Serve(r, w, x.env);
  }

  /** The exchanges in order: the objects end in the state of the run on values. */
  method ServeAll(server: Server, xs: seq<Exchange>, ghost start: Instant)
    requires server.Valid() && CacheHistory.LastReading(server.cache.history) <= start
    requires Scheduled(server.setup, server.State(), start, xs) && forall x | x in xs :: IsServable(x)
    modifies server`upstream, server`queries, server.cache`entries, server.cache`history, server.store, server.store.entries
    ensures server.Valid() && server.store.entries == old(server.store.entries)
    ensures server.State() == Run(server.setup, old(server.State()), xs)
  {
    ghost var world := server.State();
    for i := 0 to |xs|
      invariant server.Valid() && server.store.entries == old(server.store.entries)
      invariant CacheHistory.LastReading(server.cache.history) <= Until(start, xs[..i])
      invariant server.State() == Run(server.setup, world, xs[..i])
    {
      PrefixIsScheduled(server.setup, world, start, xs, i + 1);
      assert xs[..i + 1][..i] == xs[..i];
      ServeOne(server, xs[i]);
    }
    assert xs[..|xs|] == xs;
  }

  /**
   A gateway from its start: it serves the exchanges, and an operator lists the audit log. The log and
   the calls are balanced, every call was cleared, none carries an excluded header, the cache is within
   its bound, and the answer shows the last entries of this log.
   */
  method ServeAndList(setup: Setup, options: seq<CacheHistory.CacheOption>, capacity: nat, xs: seq<Exchange>, req: Listing.Request)
    returns (server: Server, answer: Result<Listing.Response, Listing.Status>)
    requires setup.cache == CacheHistory.Configured(options) && capacity >= 1
    requires Scheduled(setup, Empty(), 0, xs) && forall x | x in xs :: WellFormed(x) && IsServable(x)
    ensures server.Valid() && server.State() == Run(setup, Empty(), xs)
    ensures |server.store.log| == |xs| - Skips(xs)
    ensures |server.upstream| == TallyOf(setup, Empty(), xs).forwarded
    ensures Denials(server.store.log) == TallyOf(setup, Empty(), xs).refused + TallyOf(setup, Empty(), xs).deniedUpstream
    ensures forall call | call in server.upstream ::
              IsCleared(setup, server.State(), call) && forall key | key in call.header :: !IsSecret(key)
    ensures |server.cache.entries| <= setup.cache.maxEntries
    ensures answer == Listing.Listing(Newest(server.store.log, capacity), req)
    ensures var offset := Listing.ParseToken(req.pageToken);
            offset.Ok? ==> answer.Ok? && Listing.IsPage(answer.value.auditLogs, Newest(server.store.log, capacity), offset.value, req.pageSize)
  {
    server := new Server(setup, options, capacity);
    ServeAll(server, xs, 0);
    RunIsSound(setup, xs);
    CacheHistory.ReplayKeepsCapacity(setup.cache, server.cache.history);
    var api := new Listing.Server(server.store);
    answer := api.ListAuditLogs(req);
    if Listing.ParseToken(req.pageToken).Ok? {
      Listing.ListingIsPage(Newest(server.store.log, capacity), req, Listing.ParseToken(req.pageToken).value);
    }
  }

  lemma RunIsSound(g: Setup, xs: seq<Exchange>)
    requires forall x | x in xs :: WellFormed(x) && IsCanonical(x.request.header)
    ensures var world := Run(g, Empty(), xs);
            var tally := TallyOf(g, Empty(), xs);
            && |world.audit| == |xs| - Skips(xs)
            && |world.upstream| == tally.forwarded
            && Denials(world.audit) == tally.refused + tally.deniedUpstream
            && forall call | call in world.upstream :: IsCleared(g, world, call) && forall key | key in call.header :: !IsSecret(key)
  {
    AuditIsConserved(g, xs);
    forall call | call in Run(g, Empty(), xs).upstream
      ensures IsCleared(g, Run(g, Empty(), xs), call) && forall key | key in call.header :: !IsSecret(key)
    {
      EveryCallWasCleared(g, xs, call);
      forall key | key in call.header ensures !IsSecret(key) {
        NoCallCarriesSecrets(g, xs, call, key);
      }
    }
  }

  /** How many handled exchanges came after this one. */
  function Behind(xs: seq<Exchange>, i: nat): int
    requires i < |xs|
  {
    (|xs| - Skips(xs)) - (i - Skips(xs[..i])) - 1
  }

  lemma PlaceIsShown(logs: seq<Listing.AuditLog>, log: seq<Entry>, behind: nat, e: Entry, capacity: nat, offset: nat, pageSize: int)
    requires behind < |log| && log[|log| - 1 - behind] == e && offset <= behind < Min(capacity, offset + Listing.PageSize(pageSize))
    requires Listing.IsPage(logs, Newest(log, capacity), offset, pageSize)
    ensures behind - offset < |logs| && Listing.Shows(logs[behind - offset], e)
  {
    assert Newest(log, capacity)[behind] == e;
  }

  /** The listed record tells of this request in this state: who, what, when, and with which decision and status. */
  predicate Tells(record: Listing.AuditLog, g: Setup, r: Request, s: Scene) {
    && record.id == s.env.entryID && record.timestamp == s.env.timestamp
    && TellsOf(record.clientID, record.toolName, record.decision, record.metadata, g, r, s)
  }

  lemma ShownRecordTells(record: Listing.AuditLog, e: Entry, g: Setup, r: Request, s: Scene)
    requires Listing.Shows(record, e) && Records(g, r, s, e)
    ensures Tells(record, g, r, s)
  {
  }

  /** The place of a handled exchange in the log: what shows the entry there tells of that exchange. */
  lemma PlaceInLog(g: Setup, xs: seq<Exchange>, i: nat) returns (log: seq<Entry>, before: World, e: Entry)
    requires forall x | x in xs :: WellFormed(x)
    requires i < |xs| && !Skipped(xs[i])
    ensures log == Run(g, Empty(), xs).audit && before == Run(g, Empty(), xs[..i])
    ensures 0 <= Behind(xs, i) < |log| && log[|log| - 1 - Behind(xs, i)] == e
    ensures forall record | Listing.Shows(record, e) :: Tells(record, g, xs[i].request, SceneOf(before, xs[i]))
  {
    before, e := EachExchangeIsRecorded(g, xs, i);
    log := Run(g, Empty(), xs).audit;
    var k := i - Skips(xs[..i]);
    assert log[k] == e;
    AuditIsConserved(g, xs);
    assert |log| == |xs| - Skips(xs);
    assert |log| - 1 - Behind(xs, i) == k;
    var r, s := xs[i].request, SceneOf(before, xs[i]);
    forall record | Listing.Shows(record, e) ensures Tells(record, g, r, s) {
      ShownRecordTells(record, e, g, r, s);
    }
  }

  /**
   What the listing then shows, which `ServeAndList` promises to be a page of the store. An exchange is on
   the page that its place from the end falls into, as long as the store still holds it, and the record
   there tells of this very exchange.
   */
  lemma RecentExchangeIsListed(g: Setup, xs: seq<Exchange>, i: nat, capacity: nat, logs: seq<Listing.AuditLog>, offset: nat, pageSize: int)
    returns (before: World, record: Listing.AuditLog)
    requires forall x | x in xs :: WellFormed(x)
    requires i < |xs| && !Skipped(xs[i])
    requires Listing.IsPage(logs, Newest(Run(g, Empty(), xs).audit, capacity), offset, pageSize)
    requires offset <= Behind(xs, i) < Min(capacity, offset + Listing.PageSize(pageSize))
    ensures before == Run(g, Empty(), xs[..i])
    ensures Behind(xs, i) - offset < |logs| && record == logs[Behind(xs, i) - offset]
    ensures Tells(record, g, xs[i].request, SceneOf(before, xs[i]))
  {
    var log, e;
    log, before, e := PlaceInLog(g, xs, i);
    PlaceIsShown(logs, log, Behind(xs, i), e, capacity, offset, pageSize);
    record := logs[Behind(xs, i) - offset];
  }
}
