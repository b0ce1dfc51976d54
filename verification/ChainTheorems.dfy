/** Properties of one request through the whole gateway. */
module ChainTheorems {
  import opened Wrappers
  import opened CacheModel
  import Bearer
  import opened Headers
  import opened Http
  import opened Policy
  import opened AuditStores
  import opened Chain
  import opened ChainTerms
  import opened ChainFacts

  /** The writer as net/http hands it to the outermost layer. */
  predicate Untouched(w: Writer) {
    && w.wire.None? && w.heads == 0 && w.recorder.None?
    && AUDIT_CLIENT_ID !in w.header
  }

  /** A request as it arrives: nobody is authenticated and no limit is on its body yet. */
  predicate Arriving(r: Request, s: Scene) {
    r.path != HEALTH_PATH && r.info.None? && r.body.limit.None? && Untouched(s.w) && ValidReply(s.env.upstream)
  }

  function Outcome(g: Setup, r: Request, s: Scene): AuthOutcome {
    Authenticate(g, r.header, s.world.cache, s.env).0
  }

  /** The request with its id, as the audit layer gets it. */
  function Identified(r: Request, s: Scene): Request {
    r.(requestID := CorrelationID(r, s.env))
  }

  /** The request as the audit layer hands it to auth. */
  function Audited(g: Setup, r: Request, s: Scene): Request {
    AuditPrepare(g, Identified(r, s)).0
  }

  /** The request as it reaches the policy layer once auth has accepted it. */
  function Admitted(g: Setup, r: Request, s: Scene): Request
    requires Outcome(g, r, s).Accepted?
  {
    Audited(g, r, s).(info := Some(Outcome(g, r, s).info))
  }

  /** Auth accepted the request and policy let it pass. */
  predicate Mediated(g: Setup, r: Request, s: Scene) {
    Outcome(g, r, s).Accepted? && Cleared(g, Admitted(g, r, s), s.env)
  }

  predicate IsForwarded(g: Setup, r: Request, s: Scene) {
    Mediated(g, r, s) && Forwards(g, PassedOn(g, Admitted(g, r, s)), s.env)
  }

  /** The status that the gateway answers with. */
  function FinalStatus(g: Setup, r: Request, s: Scene): int {
    if Outcome(g, r, s).Refused? then STATUS_UNAUTHORIZED
    else if !Mediated(g, r, s) then STATUS_FORBIDDEN
    else ProxyStatus(g, PassedOn(g, Admitted(g, r, s)), s.env)
  }

  /** The client that the audit entry names. */
  function LoggedClient(g: Setup, r: Request, s: Scene): string {
    if Outcome(g, r, s).Accepted? && Outcome(g, r, s).info.clientID != "" then Outcome(g, r, s).info.clientID else UNKNOWN
  }

  /** The policy questions this request causes. */
  function NewQueries(g: Setup, r: Request, s: Scene): seq<PolicyQuery> {
    if Outcome(g, r, s).Refused? || Question(g, Admitted(g, r, s)).None? then []
    else
      var input := Question(g, Admitted(g, r, s)).value;
      [PolicyQuery(input, Evaluate(s.env.opa(input)))]
  }

  /** The upstream calls this request causes. */
  function NewCalls(g: Setup, r: Request, s: Scene): seq<UpstreamCall> {
    if IsForwarded(g, r, s) then [ForwardedCall(PassedOn(g, Admitted(g, r, s)))] else []
  }

  /** The scene in which auth gets the request. */
  function AuditScene(r: Request, s: Scene): Scene {
    var s0 := SetHeader(s, REQUEST_ID, Identified(r, s).requestID);
    s0.(w := s0.w.(recorder := Some(FRESH_RECORDER)))
  }

  lemma RefusedByAuth(g: Setup, r: Request, s: Scene)
    requires r.path != HEALTH_PATH && Ready(s.w) && Outcome(g, r, s).Refused?
    ensures var s' := AfterAudit(g)(r, s);
            && Answered(s.w, s'.w, STATUS_UNAUTHORIZED)
            && s'.world == s.world.(cache := Authenticate(g, r.header, s.world.cache, s.env).1)
  {
    assert AfterAudit(g)(r, s) == AuthLayer(g, AfterAuth(g), r, s);
    var (outcome, cache) := Authenticate(g, r.header, s.world.cache, s.env);
    UnauthorizedAnswers(g, s.(world := s.world.(cache := cache)), outcome.description);
  }

  lemma AdmittedByAuth(g: Setup, r: Request, s: Scene)
    requires r.path != HEALTH_PATH && Ready(s.w) && ValidReply(s.env.upstream) && Outcome(g, r, s).Accepted?
    ensures var s' := AfterAudit(g)(r, s);
            var info := Outcome(g, r, s).info;
            var r1 := r.(info := Some(info));
            && s'.w.heads == 1 && s'.w.wire.Some? && AUDIT_CLIENT_ID !in s'.w.wire.value.header
            && s'.w.wire.value.status == (if Cleared(g, r1, s.env) then ProxyStatus(g, PassedOn(g, r1), s.env) else STATUS_FORBIDDEN)
            && s'.w.recorder == Some(Recorder(info.clientID, s'.w.wire.value.status))
            && s'.world.cache == Authenticate(g, r.header, s.world.cache, s.env).1
            && s'.world.audit == s.world.audit
            && s'.world.queries == s.world.queries +
                 (if Question(g, r1).Some? then [PolicyQuery(Question(g, r1).value, Evaluate(s.env.opa(Question(g, r1).value)))] else [])
            && s'.world.upstream == s.world.upstream +
                 (if Cleared(g, r1, s.env) && Forwards(g, PassedOn(g, r1), s.env) then [ForwardedCall(PassedOn(g, r1))] else [])
  {
    assert AfterAudit(g)(r, s) == AuthLayer(g, AfterAuth(g), r, s);
    var (outcome, cache) := Authenticate(g, r.header, s.world.cache, s.env);
    var s1 := SetHeader(s.(world := s.world.(cache := cache)), AUDIT_CLIENT_ID, outcome.info.clientID);
    PolicyFacts(g, r.(info := Some(outcome.info)), s1);
  }

  /** What one request leaves behind, apart from its audit entry. */
  predicate Served(g: Setup, r: Request, s: Scene, s': Scene) {
    && s'.w.heads == 1 && s'.w.wire.Some? && s'.w.recorder.Some?
    && s'.w.wire.value.status == s'.w.recorder.value.status == FinalStatus(g, r, s) != 0
    && AUDIT_CLIENT_ID !in s'.w.wire.value.header
    && s'.w.recorder.value.clientID == (if Outcome(g, r, s).Accepted? then Outcome(g, r, s).info.clientID else "")
    && s'.world.cache == Authenticate(g, r.header, s.world.cache, s.env).1
    && s'.world.queries == s.world.queries + NewQueries(g, r, s)
    && s'.world.upstream == s.world.upstream + NewCalls(g, r, s)
  }

  /** Audit changes neither what auth looks at nor the internal header. */
  lemma AuditIsTransparent(g: Setup, r: Request, s: Scene)
    requires Arriving(r, s)
    ensures var r1, s1 := Audited(g, r, s), AuditScene(r, s);
            && r1.header == r.header && r1.path == r.path
            && Ready(s1.w) && Get(s1.w.header, AUDIT_CLIENT_ID) == "" && s1.env == s.env && s1.world == s.world
  {
  }

  lemma ServedInsideAudit(g: Setup, r: Request, s: Scene)
    requires Arriving(r, s)
    ensures var s' := AfterAudit(g)(Audited(g, r, s), AuditScene(r, s));
            Served(g, r, s, s') && s'.world.audit == s.world.audit
  {
    if Outcome(g, r, s).Refused? {
      RefusedInsideAudit(g, r, s);
    } else {
      AdmittedInsideAudit(g, r, s);
    }
  }

  lemma RefusedInsideAudit(g: Setup, r: Request, s: Scene)
    requires Arriving(r, s) && Outcome(g, r, s).Refused?
    ensures var s' := AfterAudit(g)(Audited(g, r, s), AuditScene(r, s));
            Served(g, r, s, s') && s'.world.audit == s.world.audit
  {
    AuditIsTransparent(g, r, s);
    RefusedByAuth(g, Audited(g, r, s), AuditScene(r, s));
    assert s.world.upstream + [] == s.world.upstream && s.world.queries + [] == s.world.queries;
  }

  lemma AdmittedInsideAudit(g: Setup, r: Request, s: Scene)
    requires Arriving(r, s) && Outcome(g, r, s).Accepted?
    ensures var s' := AfterAudit(g)(Audited(g, r, s), AuditScene(r, s));
            Served(g, r, s, s') && s'.world.audit == s.world.audit
  {
    AuditIsTransparent(g, r, s);
    AdmittedByAuth(g, Audited(g, r, s), AuditScene(r, s));
  }

  lemma GatewayUnfolds(g: Setup, r: Request, s: Scene)
    requires r.path != HEALTH_PATH
    ensures var s1 := AfterAudit(g)(Audited(g, r, s), AuditScene(r, s));
            Gateway(g)(r, s) == Logged(g, Identified(r, s), AuditPrepare(g, Identified(r, s)).1, s.env, s1)
  {
    var r0, s0 := Identified(r, s), SetHeader(s, REQUEST_ID, Identified(r, s).requestID);
    TruncateMeans(Get(r.header, REQUEST_ID));
    assert Gateway(g)(r, s) == AfterRequestID(g)(r0, s0);
    assert AfterRequestID(g)(r0, s0) == AuditLayer(g, AfterAudit(g), r0, s0);
  }

  lemma EntryRecords(g: Setup, r: Request, s: Scene, rec: Recorder)
    requires r.info.None? && r.body.limit.None? && rec.status == FinalStatus(g, r, s) != 0
    requires rec.clientID == if Outcome(g, r, s).Accepted? then Outcome(g, r, s).info.clientID else ""
    ensures Records(g, r, s, EntryFor(g, Identified(r, s), AuditPrepare(g, Identified(r, s)).1, s.env, rec))
  {
    LoggedNameMeans(g, Identified(r, s));
  }

  /** The entry that audit appends once the request has been served. */
  function NewEntry(g: Setup, r: Request, s: Scene): Entry {
    var s1 := AfterAudit(g)(Audited(g, r, s), AuditScene(r, s));
    var rec := if s1.w.recorder.Some? then s1.w.recorder.value else FRESH_RECORDER;
    EntryFor(g, Identified(r, s), AuditPrepare(g, Identified(r, s)).1, s.env, rec)
  }

  lemma GatewayServes(g: Setup, r: Request, s: Scene)
    requires Arriving(r, s)
    ensures Served(g, r, s, Gateway(g)(r, s))
    ensures Gateway(g)(r, s).world.audit == s.world.audit + [NewEntry(g, r, s)]
  {
    GatewayUnfolds(g, r, s);
    ServedInsideAudit(g, r, s);
  }

  lemma NewEntryRecords(g: Setup, r: Request, s: Scene)
    requires Arriving(r, s)
    ensures Records(g, r, s, NewEntry(g, r, s))
  {
    ServedInsideAudit(g, r, s);
    var s1 := AfterAudit(g)(Audited(g, r, s), AuditScene(r, s));
    EntryRecords(g, r, s, s1.w.recorder.value);
  }

  /**
   What audit falls back to when no handler wrote a response: it counts as a 200, and the client is the one
   in the request's context, or "unknown".
   */
  lemma UnansweredIsLoggedAsOK(g: Setup, r: Request, toolName: string, env: Env)
    ensures var e := EntryFor(g, r, toolName, env, FRESH_RECORDER);
            && e.decision == Allow && e.metadata["status_code"] == g.statusText(200)
            && (r.info.None? ==> e.clientID == "unknown")
            && (r.info.Some? ==> e.clientID == r.info.value.clientID)
  {
  }

  /** Everything one request does: it is served, and then exactly one audit entry is appended. */
  lemma GatewayFacts(g: Setup, r: Request, s: Scene)
    requires Arriving(r, s)
    ensures var s' := Gateway(g)(r, s);
            && Served(g, r, s, s')
            && exists e :: s'.world.audit == s.world.audit + [e] && Records(g, r, s, e)
  {
    GatewayServes(g, r, s);
    NewEntryRecords(g, r, s);
  }

  /** What an entry says besides its id and time: who asked for what, and whether it was let through. */
  predicate TellsOf(clientID: string, toolName: string, decision: Decision, metadata: map<string, string>, g: Setup, r: Request, s: Scene) {
    && clientID == LoggedClient(g, r, s)
    && toolName == LoggedName(g, r)
    && decision == (if FinalStatus(g, r, s) in {401, 403} then Deny else Allow)
    && metadata == map[
         "http_method" := r.verb,
         "path" := r.path,
         "remote_addr" := r.remoteAddr,
         "status_code" := g.statusText(FinalStatus(g, r, s))]
  }

  predicate Records(g: Setup, r: Request, s: Scene, e: Entry) {
    && e.id == s.env.entryID && e.timestamp == s.env.timestamp && e.requestID == CorrelationID(r, s.env)
    && TellsOf(e.clientID, e.toolName, e.decision, e.metadata, g, r, s)
  }

  /**
   The recorder is faithful. On every path exactly one head goes out, its status is the recorded one,
   the internal header is not in it, and the entry names the authenticated client if it has a name.
   */
  lemma RecorderIsFaithful(g: Setup, r: Request, s: Scene)
    requires Arriving(r, s)
    ensures var s' := Gateway(g)(r, s);
            && s'.w.heads == 1 && s'.w.wire.Some? && s'.w.recorder.Some?
            && s'.w.recorder.value.status == s'.w.wire.value.status
            && "X-Audit-Client-Id" !in s'.w.wire.value.header
            && |s'.world.audit| == |s.world.audit| + 1
            && var e := s'.world.audit[|s.world.audit|];
               && e.clientID == (match Outcome(g, r, s)
                                 case Accepted(info) => if info.clientID == "" then UNKNOWN else info.clientID
                                 case Refused(_) => UNKNOWN)
               && (e.decision == Deny <==> s'.w.wire.value.status in {401, 403})
  {
    GatewayFacts(g, r, s);
  }

  /**
   The skipped path reaches the health handler and nothing else: no layer acts on it, no state changes,
   and the answer is the fixed one.
   */
  lemma SkippedPathOnlyReachesHealth(g: Setup, r: Request, s: Scene)
    requires r.path == "/health"
    ensures Gateway(g)(r, s).world == s.world
    ensures Untouched(s.w) ==>
              var w := Gateway(g)(r, s).w;
              && w.wire == Some(WireHead(200, s.w.header["X-Request-Id" := [CorrelationID(r, s.env)]]["Content-Type" := ["application/json"]]))
              && w.heads == 1 && w.recorder.None?
              && w.sent == s.w.sent + "{\"status\":\"ok\"}"[..Accepts(s.w, 15)]
  {
    var r0, s0 := Identified(r, s), SetHeader(s, REQUEST_ID, Identified(r, s).requestID);
    TruncateMeans(Get(r.header, REQUEST_ID));
    assert Gateway(g)(r, s) == AfterRequestID(g)(r0, s0);
    assert AfterRequestID(g)(r0, s0) == AuditLayer(g, AfterAudit(g), r0, s0) == AfterAudit(g)(r0, s0);
    assert AfterAudit(g)(r0, s0) == AuthLayer(g, AfterAuth(g), r0, s0) == AfterAuth(g)(r0, s0);
    assert AfterAuth(g)(r0, s0) == PolicyLayer(g, Mux(g), r0, s0) == Mux(g)(r0, s0);
    assert Mux(g)(r0, s0) == Health(s0);
  }

  // ---------------------------------------------------------------- bodies

  /** A restored body of at most the limit is read in full, without an error, by every later layer. */
  lemma RestoredIsReadInFull(data: string)
    requires |data| <= 1048576
    ensures ReadData(Limited(Restored(data), MAX_REQUEST_SIZE)) == data
    ensures ReadStatus(Limited(Restored(data), MAX_REQUEST_SIZE)) == NoError
    ensures ReadData(Restored(data)) == data
  {
  }

  lemma JsonPostIsShared(g: Setup, r: Request, s: Scene)
    requires Arriving(r, s) && r.verb == POST && IsJson(r)
    ensures Audited(g, r, s).body == Restored(FirstMiB(r.body.data))
    ensures Outcome(g, r, s).Accepted? ==>
              var r1 := Admitted(g, r, s);
              var data := FirstMiB(r.body.data);
              && PassedOn(g, r1).body == Restored(data)
              && Question(g, r1) == (if data == "" || Parse(g, data).Ok? then Some(InputFor(g, r1.info, data)) else None)
  {
    LimitMeans(r.body);
    RestoredIsReadInFull(FirstMiB(r.body.data));
  }

  /**
   Body coherence. For every JSON POST the policy is asked about, the proxy parses, and upstream
   receives the same bytes: the first MiB of the client's body. The proxy's own read never fails, so its
   size-limit error is never reached.
   */
  lemma BodiesAreCoherent(g: Setup, r: Request, s: Scene)
    requires Arriving(r, s) && r.verb == "POST" && HasJsonType(r.header)
    ensures var data := FirstMiB(r.body.data);
            && (forall q | q in NewQueries(g, r, s) ::
                  (data == "" || IsRpc(g, data)) && IsQuestionAbout(g, q.input, Outcome(g, r, s).info, data))
            && (forall c | c in NewCalls(g, r, s) :: c.body == data)
            && (Outcome(g, r, s).Accepted? ==>
                  var body := Limited(PassedOn(g, Admitted(g, r, s)).body, MAX_REQUEST_SIZE);
                  ReadStatus(body) == NoError && ReadData(body) == data)
  {
    var data := FirstMiB(r.body.data);
    JsonPostIsShared(g, r, s);
    RestoredIsReadInFull(data);
    ParseMeans(g, data);
    if Outcome(g, r, s).Accepted? && (data == "" || IsRpc(g, data)) {
      QuestionMeans(g, Outcome(g, r, s).info, data, InputFor(g, Some(Outcome(g, r, s).info), data));
    }
  }

  /**
   The policy is asked exactly about the readable POSTs of accepted requests, once each: about the
   authenticated client and its scopes, and about the method and the tool that the shared bytes name. The
   verdict is a yes exactly when the engine's answer is one.
   */
  lemma QuestionsAreExact(g: Setup, r: Request, s: Scene)
    requires Arriving(r, s)
    ensures var data := FirstMiB(r.body.data);
            var queries := NewQueries(g, r, s);
            if Outcome(g, r, s).Accepted? && r.verb == "POST" && IsReadable(g, r.header, data) then
              && |queries| == 1
              && IsQuestionAbout(g, queries[0].input, Outcome(g, r, s).info, data)
              && (queries[0].verdict == Ok(true) <==> SaysYes(s.env.opa, queries[0].input))
            else queries == []
  {
    ParseMeans(g, FirstMiB(r.body.data));
    if r.verb == POST && IsJson(r) {
      JsonPostIsShared(g, r, s);
      BodiesAreCoherent(g, r, s);
    }
  }

  /**
   The method that audit logs is the one the policy was asked about, cut to 256 bytes, if there is a
   payload and audit's own read of it succeeded. Otherwise the log says "unknown".
   */
  lemma LoggedMethodIsEvaluatedMethod(g: Setup, r: Request, s: Scene, q: PolicyQuery)
    requires Arriving(r, s) && q in NewQueries(g, r, s)
    requires g.unmarshal("").Err? // no JSON value is empty
    ensures LoggedName(g, r) == if FitsLimit(r.body) && r.body.data != "" then Cut(q.input.rpcMethod) else "unknown"
  {
    QuestionsAreExact(g, r, s);
  }

  // ---------------------------------------------------------------- mediation

  /** The policy said yes to exactly this call: to its caller, and to the method and tool name in its bytes. */
  predicate Approves(g: Setup, q: PolicyQuery, call: UpstreamCall) {
    && (call.body == "" || IsRpc(g, call.body))
    && q.verdict == Ok(true)
    && call.caller.Some? && IsQuestionAbout(g, q.input, call.caller.value, call.body)
  }

  predicate SameApartFromBody(a: Request, b: Request) {
    a.verb == b.verb && a.path == b.path && a.header == b.header && a.info == b.info
  }

  lemma PolicyPassesOn(g: Setup, r: Request)
    ensures SameApartFromBody(PassedOn(g, r), r)
  {
  }

  lemma AuditPassesOn(g: Setup, r: Request, s: Scene)
    ensures SameApartFromBody(Audited(g, r, s), r)
  {
  }

  lemma ForwardedCallsComeFromAuth(g: Setup, r: Request, s: Scene, call: UpstreamCall)
    requires Arriving(r, s) && call in NewCalls(g, r, s)
    ensures Outcome(g, r, s).Accepted? && call.caller == Some(Outcome(g, r, s).info)
    ensures call.verb == r.verb && call.path == r.path && (call.streaming <==> IsSSE(r)) && call.header == Copied(map[], r.header)
  {
    AuditPassesOn(g, r, s);
    PolicyPassesOn(g, Admitted(g, r, s));
    assert call == ForwardedCall(PassedOn(g, Admitted(g, r, s)));
  }

  /** The headers that stay behind: hop-by-hop ones, the client's credentials, and the internal audit header. */
  predicate StaysBehind(key: string) {
    key in {
      "Connection", "Keep-Alive", "Proxy-Authenticate", "Proxy-Authorization", "Te", "Trailer",
      "Transfer-Encoding", "Upgrade", "Authorization", "X-Audit-Client-Id"
    }
  }

  /**
   What upstream receives. The verb, the path and the accepted client are the request's own, and so is
   every header but those that stay behind, value by value. The body is the client's, up to the first MiB
   for a POST. The streaming client is used exactly for the requests that ask for an event stream.
   */
  lemma CallsAreFaithful(g: Setup, r: Request, s: Scene, call: UpstreamCall, key: string)
    requires Arriving(r, s) && call in NewCalls(g, r, s)
    ensures call.verb == r.verb && call.path == r.path
    ensures Outcome(g, r, s).Accepted? && call.caller == Some(Outcome(g, r, s).info)
    ensures Values(call.header, key) == if StaysBehind(key) then [] else Values(r.header, key)
    ensures call.body == if r.verb == "POST" then FirstMiB(r.body.data) else r.body.data
    ensures call.streaming <==> AsksForStream(r)
  {
    ForwardedCallsComeFromAuth(g, r, s, call);
    CopiedHeader(r.header, key);
    StreamMeans(r);
    BodyPassesOn(g, r, s, call);
  }

  lemma CopiedHeader(header: Header, key: string)
    ensures Values(Copied(map[], header), key) == if StaysBehind(key) then [] else Values(header, key)
  {
    CopiedValues(EXCLUDED, map[], header, key);
  }

  lemma BodyPassesOn(g: Setup, r: Request, s: Scene, call: UpstreamCall)
    requires Arriving(r, s) && call in NewCalls(g, r, s)
    ensures call.body == if r.verb == POST then FirstMiB(r.body.data) else r.body.data
  {
    LimitMeans(r.body);
    if r.verb == POST && IsJson(r) {
      BodiesAreCoherent(g, r, s);
    } else {
      UnreadBodyPassesOn(g, r, s);
    }
  }

  /** The body of any other request reaches the proxy as it came, but for the limit that audit puts on a POST. */
  lemma UnreadBodyPassesOn(g: Setup, r: Request, s: Scene)
    requires Arriving(r, s) && !(r.verb == POST && IsJson(r)) && Outcome(g, r, s).Accepted?
    ensures var r1 := PassedOn(g, Admitted(g, r, s));
            r1.body == if r.verb == POST then Limited(r.body, MAX_REQUEST_SIZE) else r.body
    ensures Question(g, Admitted(g, r, s)).None?
  {
  }

  lemma CallsCarryNoSecrets(g: Setup, r: Request, s: Scene, call: UpstreamCall)
    requires Arriving(r, s) && call in NewCalls(g, r, s)
    ensures call.header.Keys !! EXCLUDED
    ensures call.header.Keys <= r.header.Keys
  {
    ForwardedCallsComeFromAuth(g, r, s, call);
    NothingExcluded(EXCLUDED, r.header);
  }

  /**
   Complete mediation. Every call to upstream carries the client that auth accepted for this request. A
   POST carries a fresh yes of the policy engine, to the question built from the very bytes sent, if and
   only if it is readable. One that is not was sent without a question, to open an event stream.
   */
  lemma ForwardedCallsAreMediated(g: Setup, r: Request, s: Scene, call: UpstreamCall)
    requires Arriving(r, s) && call in NewCalls(g, r, s)
    ensures Outcome(g, r, s).Accepted? && call.caller == Some(Outcome(g, r, s).info)
    ensures call.verb == POST ==>
              (IsReadable(g, call.header, call.body) <==>
                 |NewQueries(g, r, s)| == 1 && Approves(g, NewQueries(g, r, s)[0], call))
    ensures call.verb == POST && !IsReadable(g, call.header, call.body) ==>
              call.streaming && NewQueries(g, r, s) == []
  {
    CallsAreFaithful(g, r, s, call, "Content-Type");
    if r.verb == POST {
      QuestionsAreExact(g, r, s);
      UnevaluatedPostsAreStreams(g, r, s);
      if IsReadable(g, r.header, FirstMiB(r.body.data)) {
        MediatedPostWasAllowed(g, r, s);
      }
    }
  }

  lemma MediatedPostWasAllowed(g: Setup, r: Request, s: Scene)
    requires Arriving(r, s) && Mediated(g, r, s) && NewQueries(g, r, s) != []
    ensures NewQueries(g, r, s)[0].verdict == Ok(true)
  {
  }

  /** Under the default policy every readable POST that reaches upstream is granted to its caller. */
  lemma DefaultPolicyGuardsUpstream(g: Setup, r: Request, s: Scene, call: UpstreamCall, permissions: Permissions)
    requires Arriving(r, s) && call in NewCalls(g, r, s) && call.verb == POST
    requires RunsDefaultPolicy(s.env.opa, permissions)
    ensures call.caller.Some?
    ensures if IsReadable(g, call.header, call.body) then IsGranted(g, permissions, call.caller.value.clientID, call.body)
            else call.streaming
  {
    CallsAreFaithful(g, r, s, call, "Content-Type");
    DefaultPolicyForwardsExactlyWhen(g, r, s, permissions);
  }

  /**
   Exactly when a POST is sent upstream. A readable one needs the policy's yes, with or without an event
   stream. Any other, whether its content type is not JSON or its body does not decode, is sent on
   without a question if it asks for an event stream, and is never sent on otherwise.
   */
  lemma PostIsForwardedExactlyWhen(g: Setup, r: Request, s: Scene)
    requires Arriving(r, s) && r.verb == "POST"
    ensures var data := FirstMiB(r.body.data);
            IsForwarded(g, r, s) <==>
              && Outcome(g, r, s).Accepted?
              && !s.env.upstream.NoRequest?
              && if IsReadable(g, r.header, data) then Allows(g, s.env.opa, Outcome(g, r, s).info, data)
                 else AsksForStream(r)
  {
    var data := FirstMiB(r.body.data);
    StreamMeans(r);
    ParseMeans(g, data);
    if IsJson(r) && Outcome(g, r, s).Accepted? {
      JsonPostIsShared(g, r, s);
      RestoredIsReadInFull(data);
      if data == "" || Parse(g, data).Ok? {
        AllowsMeans(g, s.env.opa, Outcome(g, r, s).info, data);
      }
    }
  }

  /** Exactly when any other request is sent upstream: the policy is not asked, and only a plain one has its body read. */
  lemma OtherIsForwardedExactlyWhen(g: Setup, r: Request, s: Scene)
    requires Arriving(r, s) && r.verb != "POST"
    ensures IsForwarded(g, r, s) <==>
              Outcome(g, r, s).Accepted? && !s.env.upstream.NoRequest? && (AsksForStream(r) || FitsLimit(r.body))
  {
    StreamMeans(r);
    LimitMeans(r.body);
    if Outcome(g, r, s).Accepted? {
      UnreadBodyPassesOn(g, r, s);
    }
  }

  /** The same under the default policy: a readable POST needs an answer of the engine and a grant to the client. */
  lemma DefaultPolicyForwardsExactlyWhen(g: Setup, r: Request, s: Scene, permissions: Permissions)
    requires Arriving(r, s) && r.verb == POST && Outcome(g, r, s).Accepted? && !s.env.upstream.NoRequest?
    requires RunsDefaultPolicy(s.env.opa, permissions)
    ensures var data := FirstMiB(r.body.data);
            var info := Outcome(g, r, s).info;
            IsForwarded(g, r, s) <==>
              if IsReadable(g, r.header, data)
              then IsGranted(g, permissions, info.clientID, data) && NewQueries(g, r, s)[0].verdict.Ok?
              else AsksForStream(r)
  {
    var data := FirstMiB(r.body.data);
    PostIsForwardedExactlyWhen(g, r, s);
    QuestionsAreExact(g, r, s);
    if IsReadable(g, r.header, data) {
      ParseMeans(g, data);
      DefaultPolicyReads(g, Outcome(g, r, s).info, data, s.env.opa, permissions);
      QuestionMeans(g, Outcome(g, r, s).info, data, NewQueries(g, r, s)[0].input);
    }
  }

  /** So a forwarded POST went without a policy question exactly when it asks for an event stream and is not readable. */
  lemma UnevaluatedPostsAreStreams(g: Setup, r: Request, s: Scene)
    requires Arriving(r, s) && r.verb == POST && IsForwarded(g, r, s)
    ensures NewQueries(g, r, s) == [] <==> AsksForStream(r) && !IsReadable(g, r.header, FirstMiB(r.body.data))
  {
    PostIsForwardedExactlyWhen(g, r, s);
    QuestionsAreExact(g, r, s);
  }

  // ---------------------------------------------------------------- instances

  lemma UnreadableStreamIsForwarded(g: Setup, r: Request, s: Scene)
    requires Arriving(r, s) && r.verb == POST && Outcome(g, r, s).Accepted? && !s.env.upstream.NoRequest?
    requires AsksForStream(r) && !IsReadable(g, r.header, FirstMiB(r.body.data))
    ensures IsForwarded(g, r, s) && NewQueries(g, r, s) == []
  {
    PostIsForwardedExactlyWhen(g, r, s);
    UnevaluatedPostsAreStreams(g, r, s);
  }

  function SampleSetup(unmarshal: string -> Result<Rpc, string>): Setup {
    Setup(Config(1, 1), t => t, unmarshal, p => Some(p), t => [], (c, m) => "", (e, d) => "", c => "")
  }

  /** A POST of a client with the token "t", with these other headers. */
  function SampleRequest(header: Header, data: string): Request {
    Request(POST, "/", header["Authorization" := [Bearer.PREFIX + "t"]], Body(data, false, None), "", "", None)
  }

  /** A first request, which the introspection service lets in as the client "c". */
  function SampleScene(opa: Input -> OpaReply): Scene {
    var result := IntrospectionResult("c", "", 0, true);
    var env := Env("", "", "", 0, SetClock(0, 0, 0), [], Some(result), opa, UpstreamReply.Unreachable);
    Scene(env, World(map[], [], [], []), Writer(map[], None, 0, "", [], None, None))
  }

  lemma AcceptsStream(r: Request)
    requires Get(r.header, "Accept") == EVENT_STREAM
    ensures AsksForStream(r)
  {
    assert EVENT_STREAM == "" + "text/event-stream" + "";
  }

  lemma SampleIsAccepted(g: Setup, r: Request, s: Scene)
    requires Get(r.header, "Authorization") == Bearer.PREFIX + "t" && s == SampleScene(s.env.opa)
    ensures Outcome(g, r, s) == Accepted(TokenInfo("c", []))
  {
    Bearer.ExtractedOfHeader("t");
  }

  /** An engine that always answers, with the default policy's decision. */
  function DefaultEngine(permissions: Permissions): Input -> OpaReply {
    input => Reply(200, Some(Some(DefaultAllow(permissions, Encode(input)))))
  }

  lemma DefaultEngineRunsDefaultPolicy(permissions: Permissions)
    ensures RunsDefaultPolicy(DefaultEngine(permissions), permissions)
  {
  }

  /**
   The comment on the policy handler says that a malformed body is never forwarded. It is, when the
   request asks for an event stream: here is one with a JSON content type, which no policy allows.
   */
  lemma MalformedStreamingPostIsForwarded() returns (g: Setup, r: Request, s: Scene)
    ensures Arriving(r, s) && r.verb == POST && HasJsonType(r.header) && r.body.data != "" && g.unmarshal(r.body.data).Err?
    ensures IsForwarded(g, r, s) && NewQueries(g, r, s) == []
    ensures forall input :: Evaluate(s.env.opa(input)) == Ok(false)
  {
    g := SampleSetup(d => Err("bad"));
    r := SampleRequest(map[CONTENT_TYPE := [JSON_TYPE], "Accept" := [EVENT_STREAM]], "{");
    s := SampleScene(i => Reply(200, Some(Some(false))));
    SampleIsAccepted(g, r, s);
    AcceptsStream(r);
    UnreadableStreamIsForwarded(g, r, s);
  }

  /**
   The comments also say that the proxy rejects a POST without a JSON content type. On the event stream
   path it does not, so even under the default policy a well-formed tool call of a client without any
   grant reaches upstream: here is one.
   */
  lemma UngrantedStreamingToolCallIsForwarded() returns (g: Setup, r: Request, s: Scene)
    ensures Arriving(r, s) && r.verb == POST && RunsDefaultPolicy(s.env.opa, map[])
    ensures IsRpc(g, r.body.data) && g.unmarshal(r.body.data).value == Rpc("2.0", "tools/call", "tool")
    ensures IsToolOf(g, Rpc("2.0", "tools/call", "tool"), "tool")
    ensures Outcome(g, r, s).Accepted? && !IsGranted(g, map[], Outcome(g, r, s).info.clientID, r.body.data)
    ensures IsForwarded(g, r, s) && NewQueries(g, r, s) == []
  {
    g := SampleSetup(d => Ok(Rpc("2.0", TOOL_CALL, "tool")));
    r := SampleRequest(map["Accept" := [EVENT_STREAM]], "{}");
    s := SampleScene(DefaultEngine(map[]));
    DefaultEngineRunsDefaultPolicy(map[]);
    ToolCallNeedsGrant(g, "c", r.body.data);
    UnlabelledStreamIsForwarded(g, r, s);
  }

  lemma ToolCallNeedsGrant(g: Setup, clientID: string, data: string)
    requires IsRpc(g, data) ==> g.unmarshal(data).value.name == TOOL_CALL
    ensures !IsGranted(g, map[], clientID, data)
  {
  }

  lemma UnlabelledStreamIsForwarded(g: Setup, r: Request, s: Scene)
    requires r == SampleRequest(map["Accept" := [EVENT_STREAM]], r.body.data) && s == SampleScene(s.env.opa)
    ensures Arriving(r, s) && Outcome(g, r, s) == Accepted(TokenInfo("c", []))
    ensures IsForwarded(g, r, s) && NewQueries(g, r, s) == []
  {
    SampleIsAccepted(g, r, s);
    AcceptsStream(r);
    UnreadableStreamIsForwarded(g, r, s);
  }

  /** Log and policy can disagree: a body one byte over the limit whose prefix the policy allows. */
  lemma EvaluatedMethodIsLoggedAsUnknown() returns (g: Setup, r: Request, s: Scene)
    ensures Arriving(r, s) && r.verb == POST && |r.body.data| == 1048577 && g.unmarshal("").Err?
    ensures IsForwarded(g, r, s)
    ensures |NewQueries(g, r, s)| == 1 && NewQueries(g, r, s)[0].input.rpcMethod == "ping"
    ensures LoggedName(g, r) == "unknown"
  {
    g := SampleSetup(d => if d == "" then Err("empty") else Ok(Rpc("2.0", "ping", "")));
    r := SampleRequest(map[CONTENT_TYPE := [JSON_TYPE]], seq(1048577, i => ' '));
    s := SampleScene(i => Reply(200, Some(Some(true))));
    SampleIsAccepted(g, r, s);
    LongPingIsForwarded(g, r, s, TokenInfo("c", []));
  }

  lemma LongPingIsForwarded(g: Setup, r: Request, s: Scene, info: TokenInfo)
    requires Arriving(r, s) && r.verb == POST && HasJsonType(r.header) && |r.body.data| == 1048577
    requires Outcome(g, r, s) == Accepted(info) && !s.env.upstream.NoRequest?
    requires g.unmarshal(FirstMiB(r.body.data)) == Ok(Rpc("2.0", "ping", ""))
    requires forall input :: SaysYes(s.env.opa, input)
    ensures IsForwarded(g, r, s) && LoggedName(g, r) == "unknown"
    ensures |NewQueries(g, r, s)| == 1 && NewQueries(g, r, s)[0].input.rpcMethod == "ping"
  {
    PostIsForwardedExactlyWhen(g, r, s);
    QuestionsAreExact(g, r, s);
    var input := NewQueries(g, r, s)[0].input;
    assert IsQuestionAbout(g, input, info, FirstMiB(r.body.data)) && SaysYes(s.env.opa, input);
  }

  // ---------------------------------------------------------------- refusals

  /** Upstream itself answered with one of the two statuses that the audit log counts as denials. */
  predicate DeniedByUpstream(g: Setup, r: Request, s: Scene) {
    && IsForwarded(g, r, s)
    && s.env.upstream.Answer? && s.env.upstream.status in {401, 403}
  }

  /**
   A request is logged as denied exactly when auth or policy refused it or upstream itself answered 401
   or 403. A refused request is never sent upstream.
   */
  lemma DeniedExactlyWhen(g: Setup, r: Request, s: Scene)
    requires Arriving(r, s)
    ensures DecisionOf(FinalStatus(g, r, s)) == Deny <==> !Mediated(g, r, s) || DeniedByUpstream(g, r, s)
    ensures !Mediated(g, r, s) ==> NewCalls(g, r, s) == []
  {
  }

  /** The introspection result a token is judged by: the cached one, or else the fresh answer. */
  function JudgedBy(g: Setup, token: string, s: Scene): Option<IntrospectionResult> {
    var cached := Lookup(s.world.cache, g.hash(token), s.env.getAt);
    if cached.Some? then cached else s.env.introspection
  }

  /**
   Auth accepts exactly the well-formed tokens whose result is active, as the client and with the scopes
   that the result names.
   */
  lemma AcceptedExactlyWhen(g: Setup, r: Request, s: Scene, info: TokenInfo)
    ensures Outcome(g, r, s) == Accepted(info) <==>
            exists token, result ::
              && Bears(r.header, token) && JudgedBy(g, token, s) == Some(result)
              && result.active && info.clientID == result.clientID
              && info.scopes == (if result.scope == "" then [] else g.splitScopes(result.scope))
  {
    var value := Get(r.header, "Authorization");
    if Bearer.Extracted(value).Ok? {
      var token := Bearer.Extracted(value).value;
      BearsMeans(r.header, token);
      if JudgedBy(g, token, s).Some? {
        assert JudgedBy(g, token, s) == Some(JudgedBy(g, token, s).value);
      }
    }
    forall token | Bears(r.header, token) ensures Bearer.Extracted(value) == Ok(token) {
      BearsMeans(r.header, token);
    }
  }

  // ---------------------------------------------------------------- the token cache

  /** When an answer that is cached now stops being a hit: after the TTL, or when the token itself ends if that is sooner. */
  function Deadline(g: Setup, result: IntrospectionResult, clock: SetClock): Instant {
    var remaining := result.expiresAt * 1_000_000_000 - clock.prepare;
    clock.commit + if result.expiresAt > 0 && remaining < g.cache.ttl then remaining else g.cache.ttl
  }

  /** The token has not ended yet when its answer is about to be cached. */
  predicate IsAlive(result: IntrospectionResult, clock: SetClock) {
    result.expiresAt <= 0 || clock.prepare < result.expiresAt * 1_000_000_000
  }

  /** Lookups of the token's key give the result, up to the deadline; an entry under any other key was there before. */
  ghost predicate IsStored(before: Entries, after: Entries, key: Key, result: IntrospectionResult, deadline: Instant) {
    && key in after && after[key] == CacheEntry(result, deadline)
    && forall k | k in after && k != key :: k in before && after[k] == before[k]
  }

  lemma SetStores(m: Entries, g: Setup, key: Key, result: IntrospectionResult, clock: SetClock, order: seq<Key>)
    requires key !in m
    ensures var after := AfterSet(m, g.cache, key, result, clock, order);
            if IsAlive(result, clock) then
              && IsStored(m, after, key, result, Deadline(g, result, clock))
              && (|m| < g.cache.maxEntries ==> forall k | k in m :: k in after)
            else after == m
  {
    var lifetime := Lifetime(result, g.cache.ttl, clock.prepare);
    if lifetime.Some? {
      var room := MakeRoom(m, g.cache.maxEntries, clock.purge, order);
      assert forall k | k in room :: k in m && room[k] == m[k];
    }
  }

  /**
   What one request does to the token cache. Without a well-formed token, or on a hit, nothing. On a miss
   the key of the token loses its entry, if it had one, and a live answer of the introspection service is
   stored under that key, and only there, until its deadline; nothing else is added or changed.
   */
  lemma CacheChangesExactly(g: Setup, r: Request, s: Scene, token: string)
    requires Arriving(r, s) && Bears(r.header, token)
    ensures var key, cache, cache' := g.hash(token), s.world.cache, Gateway(g)(r, s).world.cache;
            if key in cache && s.env.getAt <= cache[key].expiresAt then cache' == cache
            else
              match s.env.introspection
              case None => cache' == cache - {key}
              case Some(result) =>
                if IsAlive(result, s.env.setAt) then
                  && IsStored(cache, cache', key, result, Deadline(g, result, s.env.setAt))
                  && (|cache - {key}| < g.cache.maxEntries ==> forall k | k in cache && k != key :: k in cache')
                else cache' == cache - {key}
  {
    GatewayFacts(g, r, s);
    BearsMeans(r.header, token);
    AuthenticateChangesCache(g, r.header, s.world.cache, s.env, token);
  }

  lemma AuthenticateChangesCache(g: Setup, header: Header, cache: Entries, env: Env, token: string)
    requires Bearer.Extracted(Get(header, "Authorization")) == Ok(token)
    ensures var key, cache' := g.hash(token), Authenticate(g, header, cache, env).1;
            if key in cache && env.getAt <= cache[key].expiresAt then cache' == cache
            else
              match env.introspection
              case None => cache' == cache - {key}
              case Some(result) =>
                if IsAlive(result, env.setAt) then
                  && IsStored(cache, cache', key, result, Deadline(g, result, env.setAt))
                  && (|cache - {key}| < g.cache.maxEntries ==> forall k | k in cache && k != key :: k in cache')
                else cache' == cache - {key}
  {
    var key := g.hash(token);
    var cache1 := AfterGet(cache, key, env.getAt);
    if key !in cache || env.getAt > cache[key].expiresAt {
      assert cache1 == cache - {key};
      if env.introspection.Some? {
        SetStores(cache1, g, key, env.introspection.value, env.setAt, env.order);
      }
    }
  }

  /** Without a well-formed token the cache is left alone. */
  lemma TokenlessLeavesCache(g: Setup, r: Request, s: Scene)
    requires Arriving(r, s) && forall token :: !Bears(r.header, token)
    ensures Gateway(g)(r, s).world.cache == s.world.cache
  {
    GatewayFacts(g, r, s);
    if Bearer.Extracted(Get(r.header, "Authorization")).Ok? {
      BearsMeans(r.header, Bearer.Extracted(Get(r.header, "Authorization")).value);
    }
  }

  /** A failed introspection refuses the request; the cache only loses the entry that was found expired. */
  lemma IntrospectionFailureRefuses(g: Setup, r: Request, s: Scene, token: string)
    requires Arriving(r, s) && s.env.introspection.None? && Bears(r.header, token)
    requires Lookup(s.world.cache, g.hash(token), s.env.getAt).None?
    ensures var s' := Gateway(g)(r, s);
            && s'.world.cache == s.world.cache - {g.hash(token)}
            && s'.world.upstream == s.world.upstream && s'.world.queries == s.world.queries
            && s'.w.wire.Some? && s'.w.wire.value.status == 401
  {
    BearsMeans(r.header, token);
    GatewayFacts(g, r, s);
    CacheChangesExactly(g, r, s, token);
    assert s.world.upstream + [] == s.world.upstream && s.world.queries + [] == s.world.queries;
  }

  // ---------------------------------------------------------------- transparent relay

  /** The writer on which the proxy answers a request that auth accepted. */
  function AdmittedWriter(g: Setup, r: Request, s: Scene): Writer
    requires Outcome(g, r, s).Accepted?
  {
    var w := AuditScene(r, s).w;
    w.(header := Set(w.header, AUDIT_CLIENT_ID, Outcome(g, r, s).info.clientID))
  }

  /** Audit hides nothing from auth, so auth decides as it would on the request itself. */
  lemma AdmissionMatches(g: Setup, r: Request, s: Scene)
    requires Arriving(r, s) && Outcome(g, r, s).Accepted?
    ensures var r1, s1 := Audited(g, r, s), AuditScene(r, s);
            && Outcome(g, r1, s1) == Outcome(g, r, s) && r1.path == r.path
            && Admission(g, r1, s1).w == AdmittedWriter(g, r, s) && Admission(g, r1, s1).env == s.env
  {
    AuditIsTransparent(g, r, s);
  }

  lemma ProxyAnswersMediated(g: Setup, r: Request, s: Scene)
    requires Arriving(r, s) && Mediated(g, r, s)
    ensures exists world ::
              AfterAudit(g)(Audited(g, r, s), AuditScene(r, s)).w
              == Proxy(g, PassedOn(g, Admitted(g, r, s)), Scene(s.env, world, AdmittedWriter(g, r, s))).w
  {
    var r1, s1 := Audited(g, r, s), AuditScene(r, s);
    AdmissionMatches(g, r, s);
    AuthLetsPass(g, r1, s1);
    PolicyLetsPass(g, Admitted(g, r, s), Admission(g, r1, s1));
  }

  lemma AuditKeepsWriter(g: Setup, r: Request, s: Scene)
    requires r.path != HEALTH_PATH
    ensures Gateway(g)(r, s).w == AfterAudit(g)(Audited(g, r, s), AuditScene(r, s)).w
  {
    GatewayUnfolds(g, r, s);
  }

  /** The scene after auth has accepted a request. */
  function Admission(g: Setup, r: Request, s: Scene): Scene
    requires Outcome(g, r, s).Accepted?
  {
    var cache := Authenticate(g, r.header, s.world.cache, s.env).1;
    SetHeader(s.(world := s.world.(cache := cache)), AUDIT_CLIENT_ID, Outcome(g, r, s).info.clientID)
  }

  lemma AuthLetsPass(g: Setup, r: Request, s: Scene)
    requires r.path != HEALTH_PATH && Outcome(g, r, s).Accepted?
    ensures AfterAudit(g)(r, s) == AfterAuth(g)(r.(info := Some(Outcome(g, r, s).info)), Admission(g, r, s))
  {
    assert AfterAudit(g)(r, s) == AuthLayer(g, AfterAuth(g), r, s);
  }

  lemma PolicyLetsPass(g: Setup, r: Request, s: Scene)
    requires r.path != HEALTH_PATH && Cleared(g, r, s.env)
    ensures exists world :: AfterAuth(g)(r, s).w == Proxy(g, PassedOn(g, r), Scene(s.env, world, s.w)).w
  {
    assert AfterAuth(g)(r, s) == PolicyLayer(g, Mux(g), r, s);
    var s1 := if Question(g, r).Some? then Ask(s, Question(g, r).value) else s;
    assert AfterAuth(g)(r, s) == Proxy(g, PassedOn(g, r), s1);
    assert s1 == Scene(s.env, s1.world, s.w);
  }

  /** The same bytes were sent and flushed, and the connection takes as much more. */
  predicate SameConnection(a: Writer, b: Writer) {
    a.sent == b.sent && a.room == b.room && a.flushes == b.flushes
  }

  /** No value of this key was set before upstream answered, apart from the internal header, which is stripped. */
  predicate IsUpstreamKey(w: Writer, key: string) {
    key in w.header ==> key == AUDIT_CLIENT_ID
  }

  /** The proxy handler gives the request its answer, on the writer that auth left. */
  lemma ForwardedByProxy(g: Setup, r: Request, s: Scene)
    requires Arriving(r, s) && IsForwarded(g, r, s)
    ensures var r1 := PassedOn(g, Admitted(g, r, s));
            && Forwards(g, r1, s.env) && (IsSSE(r1) <==> AsksForStream(r)) && Ready(AdmittedWriter(g, r, s))
            && exists world :: Gateway(g)(r, s).w == Proxy(g, r1, Scene(s.env, world, AdmittedWriter(g, r, s))).w
    ensures forall key | key != REQUEST_ID && key !in s.w.header :: IsUpstreamKey(AdmittedWriter(g, r, s), key)
    ensures SameConnection(s.w, AdmittedWriter(g, r, s))
  {
    AuditKeepsWriter(g, r, s);
    ProxyAnswersMediated(g, r, s);
    StreamMeans(r);
    AuditPassesOn(g, r, s);
    PolicyPassesOn(g, Admitted(g, r, s));
  }

  /** The client got upstream's status and, in order, as much of the payload as the connection takes. */
  predicate Relays(before: Writer, w: Writer, reply: UpstreamReply)
    requires reply.Answer?
  {
    && w.wire.Some? && w.wire.value.status == reply.status
    && w.sent == before.sent + Payload(reply.chunks)[..Accepts(before, |Payload(reply.chunks)|)]
  }

  /**
   The relay is transparent. When a request was forwarded outside the streaming path and upstream
   answered, the client receives upstream's status, the in-order payload up to what the connection takes,
   and, of the headers that the gateway does not set, exactly those not excluded, value by value.
   */
  lemma AnswersAreRelayed(g: Setup, r: Request, s: Scene, key: string)
    requires Arriving(r, s) && IsForwarded(g, r, s) && !AsksForStream(r) && s.env.upstream.Answer?
    requires key != "X-Request-Id" && key !in s.w.header
    ensures var reply := s.env.upstream;
            var w := Gateway(g)(r, s).w;
            && Relays(s.w, w, reply)
            && Values(w.wire.value.header, key) == if StaysBehind(key) then [] else Values(reply.header, key)
  {
    ForwardedByProxy(g, r, s);
    var w := AdmittedWriter(g, r, s);
    var r1 := PassedOn(g, Admitted(g, r, s));
    var world :| Gateway(g)(r, s).w == Proxy(g, r1, Scene(s.env, world, w)).w;
    ForwardedAnswer(g, r1, Scene(s.env, world, w), key);
  }

  lemma ForwardedAnswer(g: Setup, r: Request, s: Scene, key: string)
    requires Ready(s.w) && Forwards(g, r, s.env) && !IsSSE(r) && s.env.upstream.Answer? && ValidReply(s.env.upstream)
    requires IsUpstreamKey(s.w, key)
    ensures var reply := s.env.upstream;
            var w := Proxy(g, r, s).w;
            && Relays(s.w, w, reply)
            && Values(w.wire.value.header, key) == if StaysBehind(key) then [] else Values(reply.header, key)
  {
    var reply := s.env.upstream;
    var header := Copied(s.w.header, reply.header);
    var head := WriteHead(s.w.(header := header), reply.status);
    assert Proxy(g, r, s) == Forward(g, r, ReadData(Limited(r.body, MAX_REQUEST_SIZE)), s);
    assert Proxy(g, r, s).w == Relayed(head, reply.chunks, false);
    RelayKeepsHead(head, reply.chunks, false);
    RelaySendsPayload(head, reply.chunks, false);
    CopiedValues(EXCLUDED, s.w.header, reply.header, key);
  }

  /** What the client of an event stream got: the three stream headers are fixed. */
  predicate Streams(before: Writer, w: Writer, reply: UpstreamReply, key: string, k: nat)
    requires reply.Answer?
  {
    && Relays(before, w, reply)
    && StreamedValues(w.wire.value.header, reply.header, key)
    && FlushedUpTo(before, w, reply.chunks, k)
  }

  /**
   The same for an event stream, with its three headers fixed. There is one flush after every read that
   the connection took in full, at the boundary of that read, and none else.
   */
  lemma StreamsAreRelayed(g: Setup, r: Request, s: Scene, key: string) returns (k: nat)
    requires Arriving(r, s) && IsForwarded(g, r, s) && AsksForStream(r) && s.env.upstream.Answer?
    requires key != "X-Request-Id" && key !in s.w.header
    ensures Streams(s.w, Gateway(g)(r, s).w, s.env.upstream, key, k)
  {
    ForwardedByProxy(g, r, s);
    var w := AdmittedWriter(g, r, s);
    var r1 := PassedOn(g, Admitted(g, r, s));
    var world :| Gateway(g)(r, s).w == Proxy(g, r1, Scene(s.env, world, w)).w;
    k := StreamedFrom(g, r1, Scene(s.env, world, w), s.w, key);
  }

  lemma StreamedFrom(g: Setup, r: Request, s: Scene, before: Writer, key: string) returns (k: nat)
    requires Ready(s.w) && IsSSE(r) && s.env.upstream.Answer? && ValidReply(s.env.upstream) && IsUpstreamKey(s.w, key)
    requires SameConnection(before, s.w)
    ensures Streams(before, Proxy(g, r, s).w, s.env.upstream, key, k)
  {
    k := StreamedAnswer(r, s, key);
  }

  predicate StreamedValues(header: Header, upstream: Header, key: string) {
    Values(header, key) ==
      if key == "Content-Type" then ["text/event-stream"]
      else if key == "Cache-Control" then ["no-cache"]
      else if key == "Connection" then ["keep-alive"]
      else if StaysBehind(key) then []
      else Values(upstream, key)
  }

  /** The head of an event stream. */
  lemma StreamHead(w: Writer, header: Header, status: int, key: string)
    requires Ready(w) && IsUpstreamKey(w, key) && status != 0
    ensures var head := WriteHead(w.(header := StreamHeader(Copied(w.header, header))), status);
            && HeadIsOut(head) && SameConnection(w, head)
            && head.wire.value.status == status && StreamedValues(head.wire.value.header, header, key)
  {
    StreamHeadersAreFixed(w.header, header, key);
  }

  lemma StreamedAnswer(r: Request, s: Scene, key: string) returns (k: nat)
    requires Ready(s.w) && s.env.upstream.Answer? && ValidReply(s.env.upstream) && IsUpstreamKey(s.w, key)
    ensures Streams(s.w, Stream(r, s).w, s.env.upstream, key, k)
  {
    var reply := s.env.upstream;
    var head := WriteHead(s.w.(header := StreamHeader(Copied(s.w.header, reply.header))), reply.status);
    StreamHead(s.w, reply.header, reply.status, key);
    k := RelayedStream(s.w, head, reply, key);
    assert Stream(r, s).w == Relayed(head, reply.chunks, true);
  }

  lemma RelayedStream(before: Writer, head: Writer, reply: UpstreamReply, key: string) returns (k: nat)
    requires reply.Answer? && HeadIsOut(head) && SameConnection(before, head)
    requires head.wire.value.status == reply.status && StreamedValues(head.wire.value.header, reply.header, key)
    ensures Streams(before, Relayed(head, reply.chunks, true), reply, key, k)
  {
    RelayKeepsHead(head, reply.chunks, true);
    RelaySendsPayload(head, reply.chunks, true);
    k := RelayFlushesEachWrite(head, reply.chunks);
  }
}
