# Verification model of secure-mcp-gateway

The gateway sits in front of an MCP server. It authenticates bearer tokens against an introspection
service behind a bounded cache, asks a policy engine about every JSON-RPC POST, forwards what is allowed,
and writes one audit entry per request into a ring buffer that a management API pages through. This
project models those parts in Dafny and proves what they promise, for every input and every run.

Three parts carry the weight:

* **Token cache and auth.** `CacheModel` is the cache as a value, `TokenCache` the mutable object proved
  against it, `CacheHistory` its sequential runs compared with an unbounded TTL map. `CacheSteps` lets
  threads interleave at every point where `Get` and `Set` hold no lock, and `AuthSteps` runs whole
  requests on top of it against an introspection service that may answer anything or fail.
* **Audit store and listing.** `AuditStore` is the circular array, `AuditListing` the API call with its
  decimal page tokens (`Decimal`), and `Pagination` a client that follows tokens while entries arrive.
* **The request chain.** `Chain` gives every layer as a handler on values. `ChainTerms` says what requests,
  bytes and policy questions mean without using the layers; in these terms `ChainFacts`, `ChainTheorems` and
  `ChainAnswers` prove what one request does, and `ChainRuns` what every run does. `HttpObjects` and
  `GatewayServer` are the same handlers as methods on mutable objects, each proved equal to its layer, and
  `GatewayRuns` serves whole runs on these objects and lists the log they fill.
  `Http`, `Headers`, `Policy`, `Bearer` and `Wiring` hold the pieces.

Conventions. A Go string or byte slice is a Dafny `string` whose elements stand for bytes. Time is in
nanoseconds on one nondecreasing clock, and each reading of it is a separate value. Map iteration order is
arbitrary: either a loop picks any remaining key, or the order is a parameter. Answers of remote services,
fresh identifiers, JSON coding and SHA-256 are parameters; SHA-256 is assumed injective only where a
result speaks of tokens instead of keys (`AuthSteps.Setup.Valid`).

Where the comments of the repository promise more than the code does, the model follows the code:

* internal/auth/cache.go:106-108 says that no token is cached beyond its expiry. An entry can outlive it by
  the time between the two clock readings of `Set`; `CacheModel.DeadlineRespectsExpiryExactlyWhen` gives
  the exact condition and `CacheModel.TokenCanOutliveItsExpiry` an instance.
* internal/policy/middleware.go:73-74 and 143-144 say that the proxy rejects malformed bodies and POSTs
  without a JSON content type. It does not when the request asks for an event stream, so these reach
  upstream without a policy question. Call a POST readable if its content type begins with application/json
  and its body is empty or parses as JSON-RPC. Every readable POST is evaluated, whatever it accepts;
  `ChainTheorems.PostIsForwardedExactlyWhen` and `ChainTheorems.UnevaluatedPostsAreStreams` give the exact
  conditions. `ChainTheorems.MalformedStreamingPostIsForwarded` is an instance with a malformed body, and
  `ChainTheorems.UngrantedStreamingToolCallIsForwarded` one with a tool call that the default policy would
  deny.
* internal/audit/middleware.go:186-190 and internal/policy/middleware.go:150 expect the proxy to answer an
  oversized JSON body with its size-limit error. The audit layer has already replaced the body by its first
  1 MiB, so that error is never reached; see `ChainTheorems.BodiesAreCoherent`. Such a request can be
  evaluated and forwarded while the log names its method "unknown";
  `ChainTheorems.EvaluatedMethodIsLoggedAsUnknown` is an instance.

## Model

| member | source | states |
|---|---|---|
| CacheModel.Lifetime | internal/auth/cache.go:115-126 | the lifetime is at most the TTL, never runs past exp counted from the first clock reading, and is refused exactly for tokens already over |
| CacheModel.EvictOldestRemovesEarliest | internal/auth/cache.go:168-184 | for every iteration order exactly one entry goes, and none that stays expires before it |
| CacheModel.MakeRoomMeansRoom | internal/auth/cache.go:131-140 | after eviction there is room for one entry, and what stays is unchanged |
| CacheModel.MakeRoomPurges | internal/auth/cache.go:131-140 | eviction starts only in a full cache, and no expired entry survives it |
| CacheModel.SetKeepsCapacity | internal/auth/cache.go:112-146 | the capacity bound survives every `Set`, for every bound of at least one |
| CacheModel.SetRemovesOnlyWhatItMust | internal/auth/cache.go:131-140 | another key is removed only if the key is new, the cache was full, and the removed entry was expired or nearest to expiry in a cache with nothing to purge |
| CacheModel.SetSacrificesAtMostOneLiveEntry | internal/auth/cache.go:128-184 | one `Set` costs at most one live entry |
| CacheModel.GetAfterSet | internal/auth/cache.go:83-146 | a stored result is a hit up to and including its deadline; storing a dead token leaves an older entry in place |
| CacheModel.DeadlineRespectsExpiryExactlyWhen | internal/auth/cache.go:106-108 | an entry's deadline respects the exp claim if and only if the TTL ends first or no time passes between the clock readings |
| CacheModel.TokenCanOutliveItsExpiry | internal/auth/cache.go:118-144 | a concrete entry that is still a hit after its token's expiry |
| TokenCaches.TokenCache.constructor | internal/auth/cache.go:43-79 | options apply in order to the defaults, and a non-positive capacity is ignored |
| CacheHistory.ConfiguredMeans | internal/auth/cache.go:13-79 | without options 10000 results for five minutes; a later option wins, and a capacity below one changes nothing |
| TokenCaches.TokenCache.Get | internal/auth/cache.go:83-103 | returns the unexpired entry or nothing, and deletes exactly an expired entry |
| TokenCaches.TokenCache.Set | internal/auth/cache.go:112-146 | the new contents are the sequential specification's, and the call extends the history |
| TokenCaches.TokenCache.EvictExpiredLocked | internal/auth/cache.go:157-164 | exactly the expired entries go, in whatever order the map is visited |
| TokenCaches.TokenCache.EvictOldestLocked | internal/auth/cache.go:168-184 | the scan with its running minimum removes the entry that the specification removes |
| TokenCaches.TokenCache.Len | internal/auth/cache.go:149-153 | the count, which is within the capacity in every reachable state |
| CacheHistory.ReplayKeepsCapacity | internal/auth/cache.go:50-146 | the capacity bound in every sequential run |
| CacheHistory.BoundedCacheRefinesTtlMap | internal/auth/cache.go:83-184 | after every run the bounded cache answers as the unbounded TTL map does, or misses a capacity victim |
| CacheHistory.RoomyCacheIsTtlMap | internal/auth/cache.go:83-184 | with no more calls than capacity there is no difference from the unbounded map |
| CacheHistory.HitComesFromLastSet | internal/auth/cache.go:83-146 | a hit is the result of the last effective `Set`, at most the TTL old, and past exp by at most that `Set`'s own delay |
| CacheSteps.UninterruptedSetIsSequential | internal/auth/cache.go:112-146 | a `Set` that only the clock interrupts is the sequential `Set` |
| CacheSteps.UninterruptedGetIsSequential | internal/auth/cache.go:83-103 | a `Get` that only the clock interrupts is the sequential `Get` |
| CacheSteps.StepKeepsInv | internal/auth/cache.go:83-146 | every step of every thread keeps the invariant of the shared cache |
| CacheSteps.HitIsNeverWrongOrStale | internal/auth/cache.go:83-103 | in every interleaving a hit is the latest commit of its key at its read, at most the TTL old, and past exp by at most the delay of that `Set` |
| CacheSteps.HitHasItsSteps | internal/auth/cache.go:86-102 | in every run a hit names the key and the commits of its own lookup, and the clock of its own check |
| CacheSteps.CommitHasItsSteps | internal/auth/cache.go:112-146 | in every run a commit stores the key and result of one `Set`, with the clock values of that call's own steps and the lifetime computed at its start |
| CacheSteps.MissOfLiveEntryIsExplained | internal/auth/cache.go:94-100 | in every interleaving the bound holds, and a live latest commit is missing only as a capacity victim or through a late delete |
| CacheSteps.LateDeleteCausesExtraMiss | internal/auth/cache.go:86-99 | a run in which the unlocked window before the delete costs a fresh entry |
| AuthSteps.StepKeepsInv | internal/auth/middleware.go:87-149 | every step of every concurrent request keeps the link from cached entries to introspection answers |
| AuthSteps.BoundedStaleness | internal/auth/middleware.go:87-149 | in every run each acceptance rests on an active answer about that very token and names its client and scope, and each inactive-reject on an inactive one, given to this request or cached no longer ago than the TTL |
| AuthSteps.LookupDecides | internal/auth/middleware.go:87-109 | in every run a hit decides as the latest commit under the token's key says, at the clock of the check, and a miss decides nothing |
| AuthSteps.FinishDecides | internal/auth/middleware.go:124-149 | in every run the end of a handler decides as the answer to this request's own question says |
| AuthSteps.AnswerIsRecorded | internal/auth/middleware.go:112 | in every run an answer is kept with the token of the request that asked, and decides nothing yet |
| AuthSteps.CacheIsReachable | internal/auth/middleware.go:87-124 | the cache inside every such run is a reachable cache of the step model, so its guarantees hold here |
| AuthSteps.FailedIntrospectionIsFinal | internal/auth/middleware.go:112-121 | in every run a request whose introspection failed has that rejection as its only decision ever after, and nothing was ever cached on an answer to it |
| AuditStores.PhysicalIndex | internal/audit/store.go:63 | the modular index is in range, its operand is never negative, and it finds the right entry |
| AuditStores.AppendRepresents | internal/audit/store.go:30-34 | writing at head and advancing represents the log with one more entry, for every capacity |
| AuditStores.Store.Append | internal/audit/store.go:26-35 | the log grows by the entry and the ring keeps representing its last N entries |
| AuditStores.Store.List | internal/audit/store.go:40-67 | the page is the slice of the last N entries, newest first, with the clamped limit |
| AuditStores.Store.Count | internal/audit/store.go:70-74 | the number of entries held |
| Decimal.AtoiOfItoa | internal/grpcserver/server.go:92-121 | every 64-bit page offset survives printing and parsing |
| Decimal.AtoiMeans | internal/grpcserver/server.go:92 | digits with or without a sign parse to their value exactly if it is in range |
| Decimal.AtoiRejects | internal/grpcserver/server.go:92-95 | anything else than digits with at most one sign is rejected |
| Decimal.DigitsOfValue | internal/grpcserver/server.go:92 | digits without a leading zero are the printed form of their value |
| AuditListing.Server.ListAuditLogs | internal/grpcserver/server.go:80-132 | the method answers what `ListingMeans` describes, for every request and store |
| AuditListing.ListingMeans | internal/grpcserver/server.go:81-131 | a bad token is an error of its own kind; otherwise each entry of the page is shown field by field, the next token parses to where the page ends, and the total is capped at the int32 maximum |
| Pagination.PageIsContiguous | internal/grpcserver/server.go:102-122 | each page is a contiguous newest-first run, full unless it is the last, and its token stands for where it ends |
| Pagination.PaginationOmitsNothing | internal/grpcserver/server.go:80-122 | with any appends between calls, every entry present at the first and the last call is shown |
| Pagination.RepeatsAfterAppends | internal/grpcserver/server.go:119-121 | exactly which items of the next page were on the previous one, and which are older |
| Pagination.PaginationTerminates | internal/grpcserver/server.go:81-122 | following tokens with page size p takes at most ceil(N / p) calls, whatever is appended |
| Pagination.PaginationTerminatesForAnySizes | internal/grpcserver/server.go:81-122 | with varying page sizes it takes at most N calls |
| Pagination.QuietSessionListsEverythingOnce | internal/grpcserver/server.go:81-122 | without appends the pages together are the store, each entry once |
| Bearer.DecodeOfEncode | internal/auth/token.go:147 | every Unicode scalar value is decoded from its UTF-8 form, with the width of that form |
| Bearer.DecodeRune | internal/auth/token.go:147 | decoding yields an ASCII rune exactly for an ASCII byte, one byte wide |
| Bearer.ScanRunes | internal/auth/token.go:146-151 | the rune-wise scan accepts exactly the strings of bytes 0x20 to 0x7E |
| Bearer.ExtractBearerToken | internal/auth/token.go:127-154 | accepts exactly "Bearer " and 1 to 2048 such bytes, returns them, and otherwise names the first failing check |
| Bearer.ExtractedOfHeader | internal/auth/token.go:133-153 | putting a token into a header and extracting it returns it exactly if it is well formed |
| Headers.CopiedBut | internal/proxy/proxy.go:377-384 | each key ends with its old values and then the source's, and excluded keys keep theirs |
| Headers.FirstValueCounts | internal/proxy/proxy.go:344 | of several values of a header the first one counts |
| Headers.HeaderMap.CopyFrom | internal/proxy/proxy.go:357-385 | the copying loops reach that result for every order of the source map |
| Headers.CanonicalIgnoresCase | internal/proxy/proxy.go:377-384 | names that differ only in case have one canonical form |
| Headers.ExcludedNameIsCanonical | internal/proxy/proxy.go:358-375 | the excluded names are listed in that form |
| Http.SmallerLimitCounts | internal/audit/middleware.go:122 | under nested limits a body is read up to the smaller one, with an error exactly if there is more |
| Http.RelaySendsPayload | internal/proxy/proxy.go:304-321 | the client gets the reads in order up to the terminating one, or the prefix the connection takes |
| Http.RelayFlushesEachWrite | internal/proxy/proxy.go:308-314 | one flush after each successful write of a non-empty read, and none else |
| Http.RelayKeepsHead | internal/proxy/proxy.go:304-321 | relaying a body never touches the response head |
| HttpObjects.ResponseWriter.WriteHeader | internal/audit/middleware.go:68-78 | the recorder notes the status, keeps the client id, and strips the internal header before the head goes out |
| HttpObjects.ResponseWriter.WriteBytes | internal/audit/middleware.go:84-90 | an implicit 200 goes through the recorder too |
| Http.ImplicitHeadIsRecorded | internal/audit/middleware.go:84-90 | a body without a head commits a recorded 200, with the client id kept and the internal header stripped |
| Http.LateHeadKeepsClient | internal/audit/middleware.go:68-78 | a second head changes nothing on the wire and does not lose the client id |
| HttpObjects.ResponseWriter.RelayStream | internal/proxy/proxy.go:305-321 | the loop over one reused buffer relays exactly the bytes read, and no stale ones |
| HttpObjects.UpstreamBody.Read | internal/proxy/proxy.go:307 | a read may leave anything behind the bytes it returns |
| Policy.Evaluate | internal/policy/policy.go:81-120 | the answer is yes only for status 200 with the result true |
| Policy.EncodeIsInjective | internal/policy/policy.go:30-39 | leaving empty fields out of the document never makes two questions the same |
| Policy.DefaultPolicyMeaning | policies/default.rego:20-45 | the default policy allows exactly discovery methods and tool calls with a grant for the non-empty name or the wildcard |
| Policy.EmptyMethodIsDenied | policies/default.rego:24-31 | a request without a payload is denied |
| Wiring.Wrap | internal/proxy/proxy.go:91-95 | the backward loop is the right fold of the middlewares |
| Wiring.LayersNest | internal/proxy/proxy.go:54-60 | the first middleware added enters first and leaves last |
| ChainFacts.NewHandler | cmd/secure-mcp-gateway/main.go:72-78 | wrapping main's four middlewares gives request id outside audit outside auth outside policy |
| ChainFacts.CopiedKeepsAuditHeader | internal/proxy/proxy.go:251-253 | no upstream header can set or change the internal client header |
| ChainFacts.StreamHeadersAreFixed | internal/proxy/proxy.go:296-301 | the three stream headers have their fixed values whatever upstream sent, and every other key is as copied |
| ChainFacts.ProxyFacts | internal/proxy/proxy.go:163-322 | one head goes out with the right status, and upstream is called exactly when the checks pass |
| ChainFacts.PolicyFacts | internal/policy/middleware.go:75-133 | the question that is asked, and that only a yes or no question at all lets the request on |
| ChainFacts.OnlyReadBodiesAreAsked | internal/policy/middleware.go:141-152 | on its own, too, the policy layer asks only about JSON bodies read in full within the limit |
| ChainTheorems.GatewayFacts | internal/audit/middleware.go:106-170 | everything one request leaves behind, with exactly one audit entry that tells id, time, client, name, decision and status |
| ChainTheorems.UnansweredIsLoggedAsOK | internal/audit/middleware.go:137-156 | without a written response the log says 200 and the client of the context or "unknown" |
| ChainTheorems.RecorderIsFaithful | internal/audit/middleware.go:62-171 | one head, recorded status equal to the wire status, no internal header on the wire, and the entry names the authenticated client or "unknown" |
| ChainTheorems.SkippedPathOnlyReachesHealth | internal/proxy/proxy.go:149-156 | the skipped path gets the fixed 200 answer with the correlation id, and no state changes |
| ChainTheorems.BodiesAreCoherent | internal/audit/middleware.go:175-201 | policy, proxy and upstream see the same bytes, the first MiB of the body |
| ChainTheorems.QuestionsAreExact | internal/policy/middleware.go:141-213 | the policy is asked once about each readable POST of an accepted request and about nothing else, with the client and scopes that auth found and the method and tool that the bytes name |
| ChainTheorems.CallsAreFaithful | internal/proxy/proxy.go:222-289 | upstream gets the verb, path, client, body bytes and each header value of the request itself, but for the ten headers that stay behind; the streaming client serves exactly the requests whose Accept contains text/event-stream |
| ChainTheorems.LoggedMethodIsEvaluatedMethod | internal/audit/middleware.go:175-201 | the logged method is the evaluated one, cut to 256 bytes, if there is a payload and audit read it without error, and otherwise "unknown" |
| ChainTheorems.EvaluatedMethodIsLoggedAsUnknown | internal/audit/middleware.go:185-194 | a concrete request over 1 MiB that is evaluated as a ping, forwarded, and logged as "unknown" |
| ChainTheorems.ForwardedCallsAreMediated | internal/policy/middleware.go:96-131 | a forwarded call carries the accepted client; a POST, streaming or not, carries a yes to the question built from its bytes if and only if it is readable, and any other asked for an event stream |
| ChainTheorems.DefaultPolicyGuardsUpstream | policies/default.rego:20-45 | under the default policy every forwarded readable POST, streaming or not, has a payload and a granted method or tool |
| ChainTheorems.DefaultPolicyForwardsExactlyWhen | policies/default.rego:20-45 | under the default policy an accepted POST is sent upstream if and only if it is readable, granted and the engine answers, or it is unreadable and asks for an event stream |
| ChainTheorems.PostIsForwardedExactlyWhen | internal/proxy/proxy.go:163-219 | the exact condition for a POST to reach upstream, in terms of token, content type, body, policy and Accept |
| ChainTheorems.OtherIsForwardedExactlyWhen | internal/proxy/proxy.go:163-201 | the exact condition for any other request to reach upstream |
| ChainTheorems.UnevaluatedPostsAreStreams | internal/policy/middleware.go:141-176 | a forwarded POST went without a question if and only if it asks for an event stream and its content type is not JSON or its body does not parse |
| ChainTheorems.MalformedStreamingPostIsForwarded | internal/policy/middleware.go:166-171 | a concrete POST with a JSON content type and a malformed body that reaches upstream though the policy allows nothing |
| ChainTheorems.UngrantedStreamingToolCallIsForwarded | internal/policy/middleware.go:142-146 | a concrete well-formed tool call without a JSON content type that reaches upstream though the default policy grants its client nothing |
| ChainTheorems.DeniedExactlyWhen | internal/audit/middleware.go:147-156 | DENY is logged exactly for refusals by auth or policy and for upstream's own 401 and 403, and refusals never reach upstream |
| ChainTheorems.AcceptedExactlyWhen | internal/auth/middleware.go:74-149 | auth accepts exactly a well-formed token whose cached or else fresh result is active, as the client and with the scopes which that result names |
| ChainTheorems.CacheChangesExactly | internal/auth/middleware.go:87-124 | a hit changes nothing; after a miss a live answer is stored under the key of that very token until its deadline, a dead or missing one is not, and no other entry is added or changed |
| ChainTheorems.TokenlessLeavesCache | internal/auth/middleware.go:75-84 | without a well-formed token the cache stays as it is |
| ChainTheorems.AnswersAreRelayed | internal/proxy/proxy.go:251-257 | the client of a forwarded request gets upstream's status, its body in order, and of its headers exactly those not excluded, value by value |
| ChainTheorems.StreamsAreRelayed | internal/proxy/proxy.go:293-321 | the client of an event stream gets upstream's status, its body in order, the three stream headers, the other headers value by value, and one flush at each read boundary within what was sent |
| ChainTheorems.IntrospectionFailureRefuses | internal/auth/middleware.go:112-121 | a failed introspection gives 401, no upstream call, and a cache without the expired entry at most |
| ChainAnswers.RefusalSays | internal/auth/middleware.go:153-169 | a refused request reads 401 with the first fault of its header or token, in the challenge and in the body |
| ChainAnswers.DenialSays | internal/policy/middleware.go:96-123 | a request the policy does not clear is a readable POST without a yes, and reads 403 and whether the policy denied it or gave no decision |
| ChainAnswers.FaultSays | internal/proxy/proxy.go:178-209 | a plain request with a wrong content type, a body too long, unreadable or not JSON-RPC reads the JSON-RPC error with the right code, and is not forwarded |
| ChainAnswers.UnansweredSays | internal/proxy/proxy.go:233-288 | any other request that is let through reads the right error when upstream cannot be asked or does not answer |
| ChainAnswers.RequestIDIsEchoed | internal/audit/requestid.go:37-50 | every answer carries the correlation id of its audit entry, the client's own cut to 256 bytes or else a fresh one |
| ChainAnswers.StatusIsExact | internal/audit/middleware.go:147-156 | the status on the wire and in the log, case by case |
| ChainRuns.AuditIsConserved | internal/audit/logger.go:75-95 | over every run there is one entry per request that is not a health check, calls equal forwarded requests, and denials equal refusals plus upstream's own |
| ChainRuns.EachExchangeIsRecorded | internal/audit/middleware.go:106-170 | over every run the entry of each handled exchange is in its place and tells its own client, method, decision and status |
| ChainRuns.EveryCallWasCleared | internal/policy/middleware.go:75-133 | over every run each call was authenticated, each readable POST approved, and every other POST asked for an event stream |
| ChainRuns.EveryReadablePostWasGranted | policies/default.rego:20-45 | over every run under the default policy each readable POST that reached upstream had a payload and a grant |
| ChainRuns.NoCallCarriesSecrets | internal/proxy/proxy.go:358-375 | over every run no call to upstream carries credentials, the internal header or a hop-by-hop header, in whatever case a client spelled its name |
| ChainRuns.EveryEntryIsAnAnswer | internal/auth/middleware.go:112-124 | over every run each cached entry is the answer to an earlier request whose bearer token has that key, with that answer's deadline |
| ChainRuns.EveryAcceptanceWasIntrospected | internal/auth/middleware.go:87-149 | over every run each accepted request had an active answer of its own, or of an earlier request with the same key whose deadline has not passed |
| GatewayServer.Server.ForwardRequest | internal/proxy/proxy.go:222-258 | the method does what the value-level handler does |
| GatewayServer.Server.HandleSSE | internal/proxy/proxy.go:262-322 | the same for the streaming path |
| GatewayServer.Server.HandleProxy | internal/proxy/proxy.go:163-219 | the same for the routing and checks |
| GatewayServer.Server.ReadBody | internal/policy/middleware.go:180-197 | reads under the limit and puts back exactly what was read |
| GatewayServer.Server.BuildPolicyInput | internal/policy/middleware.go:141-176 | the question and the restored request |
| GatewayServer.Server.ServePolicy | internal/policy/middleware.go:75-133 | the policy layer, failing closed |
| GatewayServer.Server.CheckToken | internal/auth/middleware.go:74-139 | outcome and cache contents of the token check |
| GatewayServer.Server.ServeAuth | internal/auth/middleware.go:66-151 | the auth layer with the client handed on in context and header |
| GatewayServer.Server.ExtractToolName | internal/audit/middleware.go:175-201 | the logged name, with the body restored on every path that reads it |
| GatewayServer.Server.ServeAudit | internal/audit/middleware.go:106-171 | the audit layer around the rest, ending with one append |
| GatewayServer.Server.Serve | cmd/secure-mcp-gateway/main.go:72-78 | one request through all objects is the whole gateway on values |
| GatewayRuns.ServeAll | cmd/secure-mcp-gateway/main.go:93-95 | serving exchanges one after another on the objects ends in the state of the run on values |
| GatewayRuns.ServeAndList | cmd/secure-mcp-gateway/main.go:72-99 | a gateway served from its start has a balanced log, cleared calls without secrets and a bounded cache, and the management API lists the last entries of that log |
| GatewayRuns.RecentExchangeIsListed | internal/grpcserver/server.go:102-115 | the page that the place of an exchange from the end falls into lists that exchange's own id, time, client, method, decision and status there, while the store still holds it |

## Left out

- Interleaving of whole requests: the cache is modelled at the level of single steps (`CacheSteps`, `AuthSteps`); the other layers run one request after another (`ChainRuns`), which is enough for the append-only audit log but does not show two chains side by side.
- Transport: TLS, timeouts, write deadlines, connection closing, suppressed bodies of HEAD, 204 and 304 responses, redirects followed by the HTTP client, and 1xx heads other than 101.
- A request without a body object, which net/http never hands to a handler, and panics.
- URL joining, query strings and the path cleaning of the mux; paths are compared as they are.
- JSON coding, status texts, splitting of scope strings, UUIDs and log output are parameters; the only fact used about decoding is that the empty string is not JSON, and only for the logged method name.
- time.Time wrap-around for exp values within 62135596800 seconds of the int64 maximum; the saturation of time differences is modelled.
- The difference between wall clock and monotonic clock: there is one nondecreasing clock, which starts at or after the epoch.
- The HTTP clients of the introspection service and of the policy engine, beyond how the policy reply is judged.
- Header canonicalisation beyond ASCII rules, and non-canonical keys, which net/http does not deliver.
- Configuration loading, gRPC transport, shutdown, and files of the audit logger.
- HttpObjects.ResponseWriter: one object stands for net/http's writer together with the recorder around it, and a connection that fails once keeps failing.
- HttpObjects.HttpRequest: a request handed on with a new context gets its own copy of the body value, so the model does not show that both copies share one reader; no layer reads a body again after handing it on.
