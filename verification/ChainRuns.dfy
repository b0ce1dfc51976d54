/** Whole runs of the gateway: any number of requests, one after another, over the shared state. */
module ChainRuns {
  import opened Wrappers
  import opened CacheModel
  import opened Headers
  import opened Http
  import opened Policy
  import opened AuditStores
  import opened Chain
  import opened ChainFacts
  import opened ChainTerms
  import opened ChainTheorems

  /** A request as it arrives, what the environment will answer, and how much the connection takes. */
  datatype Exchange = Exchange(request: Request, env: Env, room: Option<nat>)

  function SceneOf(world: World, x: Exchange): Scene {
    Scene(x.env, world, Writer(map[], None, 0, "", [], x.room, None))
  }

  predicate WellFormed(x: Exchange) {
    x.request.info.None? && x.request.body.limit.None? && ValidReply(x.env.upstream)
  }

  predicate Skipped(x: Exchange) {
    x.request.path == HEALTH_PATH
  }

  /** The state after the exchanges, in order. */
  function Run(g: Setup, world: World, xs: seq<Exchange>): World
    decreases |xs|, 1
  {
    if xs == [] then world else AfterLast(g, world, xs)
  }

  /** The state after the last exchange, which starts in the state that the others left. */
  function AfterLast(g: Setup, world: World, xs: seq<Exchange>): World
    requires xs != []
    decreases |xs|, 0
  {
    var x := xs[|xs| - 1];
    Gateway(g)(x.request, SceneOf(Run(g, world, xs[..|xs| - 1]), x)).world
  }

  function Empty(): World {
    World(map[], [], [], [])
  }

  function Bit(b: bool): nat {
    if b then 1 else 0
  }

  function Denials(entries: seq<Entry>): nat {
    if entries == [] then 0
    else Denials(entries[..|entries| - 1]) + Bit(entries[|entries| - 1].decision == Deny)
  }

  /** How the exchanges of a run ended. */
  datatype Tally = Tally(handled: nat, refused: nat, forwarded: nat, deniedUpstream: nat)

  /** Adds one exchange that starts in this state. Health checks are not handled by the four layers. */
  function Count(g: Setup, tally: Tally, world: World, x: Exchange): Tally {
    if Skipped(x) then tally
    else
      var s := SceneOf(world, x);
      Tally(tally.handled + 1,
            tally.refused + Bit(!Mediated(g, x.request, s)),
            tally.forwarded + Bit(IsForwarded(g, x.request, s)),
            tally.deniedUpstream + Bit(DeniedByUpstream(g, x.request, s)))
  }

  function TallyOf(g: Setup, world: World, xs: seq<Exchange>): Tally {
    if xs == [] then Tally(0, 0, 0, 0)
    else
      var prefix := xs[..|xs| - 1];
      Count(g, TallyOf(g, world, prefix), Run(g, world, prefix), xs[|xs| - 1])
  }

  predicate Balanced(world: World, tally: Tally) {
    && |world.audit| == tally.handled
    && |world.upstream| == tally.forwarded
    && Denials(world.audit) == tally.refused + tally.deniedUpstream
    && tally.forwarded + tally.refused <= tally.handled
  }

  lemma DenialsGrow(entries: seq<Entry>, e: Entry)
    ensures Denials(entries + [e]) == Denials(entries) + Bit(e.decision == Deny)
  {
    assert (entries + [e])[..|entries|] == entries;
  }

  lemma ExchangeStaysBalanced(g: Setup, world: World, tally: Tally, x: Exchange)
    requires WellFormed(x) && Balanced(world, tally)
    ensures Balanced(Gateway(g)(x.request, SceneOf(world, x)).world, Count(g, tally, world, x))
  {
    var s := SceneOf(world, x);
    if Skipped(x) {
      SkippedPathOnlyReachesHealth(g, x.request, s);
    } else {
      GatewayFacts(g, x.request, s);
      var e :| Gateway(g)(x.request, s).world.audit == world.audit + [e] && Records(g, x.request, s, e);
      EntryKeepsBalance(g, world, tally, x, Gateway(g)(x.request, s).world, e);
    }
  }

  lemma EntryKeepsBalance(g: Setup, world: World, tally: Tally, x: Exchange, world': World, e: Entry)
    requires WellFormed(x) && Balanced(world, tally) && !Skipped(x)
    requires world'.audit == world.audit + [e] && Records(g, x.request, SceneOf(world, x), e)
    requires world'.upstream == world.upstream + NewCalls(g, x.request, SceneOf(world, x))
    ensures Balanced(world', Count(g, tally, world, x))
  {
    DeniedExactlyWhen(g, x.request, SceneOf(world, x));
    DenialsGrow(world.audit, e);
  }

  function Skips(xs: seq<Exchange>): nat {
    if xs == [] then 0 else Skips(xs[..|xs| - 1]) + Bit(Skipped(xs[|xs| - 1]))
  }

  lemma {:induction false} HandledIsAllButHealthChecks(g: Setup, world: World, xs: seq<Exchange>)
    ensures TallyOf(g, world, xs).handled == |xs| - Skips(xs)
  {
    if xs != [] {
      HandledIsAllButHealthChecks(g, world, xs[..|xs| - 1]);
    }
  }

  /**
   Conservation. In every run from an empty state the audit log has one entry per request that is not a
   health check, the calls to upstream are the forwarded requests, no refused request is among them, and
   the denials in the log are the refusals by auth or policy plus the 401 and 403 answers of upstream.
   */
  lemma {:induction false} AuditIsConserved(g: Setup, xs: seq<Exchange>)
    requires forall x | x in xs :: WellFormed(x)
    ensures var world := Run(g, Empty(), xs);
            var tally := TallyOf(g, Empty(), xs);
            && |world.audit| == tally.handled == |xs| - Skips(xs)
            && |world.upstream| == tally.forwarded
            && Denials(world.audit) == tally.refused + tally.deniedUpstream
            && tally.forwarded + tally.refused <= tally.handled
  {
    if xs != [] {
      var prefix := xs[..|xs| - 1];
      AuditIsConserved(g, prefix);
      ExchangeStaysBalanced(g, Run(g, Empty(), prefix), TallyOf(g, Empty(), prefix), xs[|xs| - 1]);
    }
    HandledIsAllButHealthChecks(g, Empty(), xs);
  }

  /**
   The log says what happened: the entry of every handled exchange is in its place, with the client, the
   method, the decision and the status of that very exchange in the state it found.
   */
  lemma {:induction false} EachExchangeIsRecorded(g: Setup, xs: seq<Exchange>, i: nat) returns (before: World, e: Entry)
    requires forall x | x in xs :: WellFormed(x)
    requires i < |xs| && !Skipped(xs[i])
    ensures before == Run(g, Empty(), xs[..i])
    ensures 0 <= i - Skips(xs[..i]) < |Run(g, Empty(), xs).audit| && Run(g, Empty(), xs).audit[i - Skips(xs[..i])] == e
    ensures Records(g, xs[i].request, SceneOf(before, xs[i]), e)
  {
    var prefix, x := xs[..|xs| - 1], xs[|xs| - 1];
    var start := Run(g, Empty(), prefix);
    ExchangeIsRecorded(g, start, x);
    if i < |prefix| {
      assert prefix[..i] == xs[..i];
      before, e := EachExchangeIsRecorded(g, prefix, i);
    } else {
      AuditIsConserved(g, prefix);
      before, e := start, Run(g, Empty(), xs).audit[|start.audit|];
    }
  }

  lemma ExchangeIsRecorded(g: Setup, world: World, x: Exchange)
    requires WellFormed(x)
    ensures var s := SceneOf(world, x);
            var log := Gateway(g)(x.request, s).world.audit;
            && world.audit <= log
            && (!Skipped(x) ==> |log| == |world.audit| + 1 && Records(g, x.request, s, log[|world.audit|]))
  {
    if Skipped(x) {
      SkippedPathOnlyReachesHealth(g, x.request, SceneOf(world, x));
    } else {
      GatewayFacts(g, x.request, SceneOf(world, x));
    }
  }

  /** The call has an authenticated client. A readable POST has an approval in the query log; any other asked for an event stream. */
  ghost predicate IsCleared(g: Setup, world: World, call: UpstreamCall) {
    && call.caller.Some?
    && (call.verb == POST ==>
          if IsReadable(g, call.header, call.body) then exists q | q in world.queries :: Approves(g, q, call)
          else call.streaming)
  }

  /** One more exchange: the queries only grow, and a new call is one that this exchange makes. */
  lemma ExchangeAddsCalls(g: Setup, world: World, x: Exchange, call: UpstreamCall)
    requires WellFormed(x)
    ensures var s := SceneOf(world, x);
            var world' := Gateway(g)(x.request, s).world;
            && world.queries <= world'.queries
            && (call in world'.upstream && call !in world.upstream ==>
                  && !Skipped(x) && Arriving(x.request, s) && call in NewCalls(g, x.request, s)
                  && world'.queries == world.queries + NewQueries(g, x.request, s))
  {
    var s := SceneOf(world, x);
    if Skipped(x) {
      SkippedPathOnlyReachesHealth(g, x.request, s);
    } else {
      GatewayFacts(g, x.request, s);
    }
  }

  lemma ExchangeKeepsCleared(g: Setup, world: World, x: Exchange, call: UpstreamCall)
    requires WellFormed(x) && call in Gateway(g)(x.request, SceneOf(world, x)).world.upstream
    requires call in world.upstream ==> IsCleared(g, world, call)
    ensures IsCleared(g, Gateway(g)(x.request, SceneOf(world, x)).world, call)
  {
    ExchangeAddsCalls(g, world, x, call);
    if call !in world.upstream {
      ForwardedCallsAreMediated(g, x.request, SceneOf(world, x), call);
    }
  }

  /** In every run, every call that ever reached upstream was authenticated and, if a readable POST, approved. */
  lemma {:induction false} EveryCallWasCleared(g: Setup, xs: seq<Exchange>, call: UpstreamCall)
    requires forall x | x in xs :: WellFormed(x)
    requires call in Run(g, Empty(), xs).upstream
    ensures IsCleared(g, Run(g, Empty(), xs), call)
  {
    if xs != [] {
      var prefix := xs[..|xs| - 1];
      var before := Run(g, Empty(), prefix);
      if call in before.upstream {
        EveryCallWasCleared(g, prefix, call);
      }
      ExchangeKeepsCleared(g, before, xs[|xs| - 1], call);
    }
  }

  /** In every run under the default policy, every readable POST that reached upstream was granted to its caller. */
  lemma {:induction false} EveryReadablePostWasGranted(g: Setup, xs: seq<Exchange>, call: UpstreamCall, permissions: Permissions)
    requires forall x | x in xs :: WellFormed(x) && RunsDefaultPolicy(x.env.opa, permissions)
    requires call in Run(g, Empty(), xs).upstream && call.verb == POST && IsReadable(g, call.header, call.body)
    ensures call.caller.Some? && IsGranted(g, permissions, call.caller.value.clientID, call.body)
  {
    if xs != [] {
      var prefix, x := xs[..|xs| - 1], xs[|xs| - 1];
      var before := Run(g, Empty(), prefix);
      if call in before.upstream {
        EveryReadablePostWasGranted(g, prefix, call, permissions);
      } else {
        ExchangeAddsCalls(g, before, x, call);
        DefaultPolicyGuardsUpstream(g, x.request, SceneOf(before, x), call, permissions);
      }
    }
  }

  /** In every run, no call to upstream carries a header that must stay behind, and each key it has was sent by a client. */
  lemma {:induction false} CallHeadersComeFromClients(g: Setup, xs: seq<Exchange>, call: UpstreamCall)
    requires forall x | x in xs :: WellFormed(x)
    requires call in Run(g, Empty(), xs).upstream
    ensures call.header.Keys !! EXCLUDED
    ensures exists x | x in xs :: call.header.Keys <= x.request.header.Keys
  {
    if xs != [] {
      var prefix, x := xs[..|xs| - 1], xs[|xs| - 1];
      var before := Run(g, Empty(), prefix);
      if call in before.upstream {
        CallHeadersComeFromClients(g, prefix, call);
      } else {
        ExchangeAddsCalls(g, before, x, call);
        CallsCarryNoSecrets(g, x.request, SceneOf(before, x), call);
      }
    }
  }

  /** A header name that must not reach upstream, in any letter case. */
  predicate IsSecret(key: string) {
    Lower(key) in {
      "connection", "keep-alive", "proxy-authenticate", "proxy-authorization", "te", "trailer",
      "transfer-encoding", "upgrade", "authorization", "x-audit-client-id"
    }
  }

  /** Every secret name is one of the excluded ones in some letter case. */
  lemma SecretIsExcluded(key: string) returns (name: string)
    requires IsSecret(key)
    ensures name in EXCLUDED && Lower(name) == Lower(key)
  {
    ExcludedInLowerCase();
    name :| name in EXCLUDED && Lower(name) == Lower(key);
  }

  /**
   In every run of requests as net/http reads them, no call to upstream carries a client's credentials, the
   internal header, or a hop-by-hop header, however a client spelled its name.
   */
  lemma NoCallCarriesSecrets(g: Setup, xs: seq<Exchange>, call: UpstreamCall, key: string)
    requires forall x | x in xs :: WellFormed(x) && IsCanonical(x.request.header)
    requires call in Run(g, Empty(), xs).upstream && key in call.header
    ensures !IsSecret(key)
  {
    CallHeadersComeFromClients(g, xs, call);
    if IsSecret(key) {
      var name := SecretIsExcluded(key);
      OnlyExactNames(key, name);
    }
  }

  // ---------------------------------------------------------------- the token cache

  /** In this exchange the service gave this result, alive, to a token with this key. */
  ghost predicate Answered(g: Setup, x: Exchange, key: Key, result: IntrospectionResult) {
    && !Skipped(x)
    && (exists token :: Bears(x.request.header, token) && g.hash(token) == key)
    && x.env.introspection == Some(result) && IsAlive(result, x.env.setAt)
  }

  /** This exchange was answered with the result that the entry holds, and the entry ends with that answer's deadline. */
  ghost predicate StemsFrom(g: Setup, x: Exchange, key: Key, entry: CacheEntry) {
    Answered(g, x, key, entry.result) && entry.expiresAt == Deadline(g, entry.result, x.env.setAt)
  }

  /** The entry was there before, or this exchange was answered with it. */
  ghost predicate IsOldOrAnswered(g: Setup, before: Entries, after: Entries, x: Exchange, key: Key) {
    key in after ==> (key in before && after[key] == before[key]) || StemsFrom(g, x, key, after[key])
  }

  lemma TokenExchangeCaches(g: Setup, world: World, x: Exchange, token: string, key: Key)
    requires WellFormed(x) && !Skipped(x) && Bears(x.request.header, token)
    ensures IsOldOrAnswered(g, world.cache, Gateway(g)(x.request, SceneOf(world, x)).world.cache, x, key)
  {
    CacheChangesExactly(g, x.request, SceneOf(world, x), token);
  }

  lemma ExchangeCaches(g: Setup, world: World, x: Exchange, key: Key)
    requires WellFormed(x)
    ensures IsOldOrAnswered(g, world.cache, Gateway(g)(x.request, SceneOf(world, x)).world.cache, x, key)
  {
    var s := SceneOf(world, x);
    if Skipped(x) {
      SkippedPathOnlyReachesHealth(g, x.request, s);
    } else if token :| Bears(x.request.header, token) {
      TokenExchangeCaches(g, world, x, token, key);
    } else {
      TokenlessLeavesCache(g, x.request, s);
    }
  }

  lemma LastExchangeCaches(g: Setup, xs: seq<Exchange>, key: Key, entry: CacheEntry)
    requires xs != [] && WellFormed(xs[|xs| - 1])
    requires key in Run(g, Empty(), xs).cache && Run(g, Empty(), xs).cache[key] == entry
    ensures var before := Run(g, Empty(), xs[..|xs| - 1]).cache;
            StemsFrom(g, xs[|xs| - 1], key, entry) || (key in before && before[key] == entry)
  {
    ExchangeCaches(g, Run(g, Empty(), xs[..|xs| - 1]), xs[|xs| - 1], key);
  }

  /**
   In every run each cached entry is the answer that the introspection service gave, in an earlier
   exchange, about a well-formed bearer token with that key, and it ends when that answer's deadline says.
   */
  lemma {:induction false} EveryEntryIsAnAnswer(g: Setup, xs: seq<Exchange>, key: Key, entry: CacheEntry) returns (i: nat)
    requires forall x | x in xs :: WellFormed(x)
    requires key in Run(g, Empty(), xs).cache && Run(g, Empty(), xs).cache[key] == entry
    ensures i < |xs| && StemsFrom(g, xs[i], key, entry)
  {
    i := |xs| - 1;
    LastExchangeCaches(g, xs, key, entry);
    if !StemsFrom(g, xs[i], key, entry) {
      i := EveryEntryIsAnAnswer(g, xs[..i], key, entry);
    }
  }

  /**
   In every run an accepted request was vouched for by the service: by an active answer to this request,
   or by one that an earlier request with a token of the same key got and whose deadline has not passed.
   */
  lemma {:induction false} EveryAcceptanceWasIntrospected(g: Setup, xs: seq<Exchange>, i: nat, info: TokenInfo)
    returns (j: nat, token: string, result: IntrospectionResult)
    requires forall x | x in xs :: WellFormed(x)
    requires i < |xs| && Outcome(g, xs[i].request, SceneOf(Run(g, Empty(), xs[..i]), xs[i])) == Accepted(info)
    ensures Bears(xs[i].request.header, token) && result.active && info.clientID == result.clientID
    ensures j <= i && xs[j].env.introspection == Some(result)
    ensures j < i ==> Answered(g, xs[j], g.hash(token), result) && xs[i].env.getAt <= Deadline(g, result, xs[j].env.setAt)
  {
    var s := SceneOf(Run(g, Empty(), xs[..i]), xs[i]);
    AcceptedExactlyWhen(g, xs[i].request, s, info);
    token, result :| Bears(xs[i].request.header, token) && JudgedBy(g, token, s) == Some(result)
                  && result.active && info.clientID == result.clientID;
    if Lookup(s.world.cache, g.hash(token), s.env.getAt).Some? {
      j := EveryEntryIsAnAnswer(g, xs[..i], g.hash(token), s.world.cache[g.hash(token)]);
    } else {
      j := i;
    }
  }
}
