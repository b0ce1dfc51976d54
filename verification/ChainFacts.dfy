/** What each layer of the chain does to the shared state and the response, from the inside out. */
module ChainFacts {
  import opened Wrappers
  import opened Headers
  import opened Http
  import opened Policy
  import opened Chain
  import Wiring

  /** main's wiring is the fold of the four middlewares, with audit outside auth outside policy. */
  lemma GatewayIsTheFold(g: Setup)
    ensures Wiring.RightFold([RequestIDMiddleware(), AuditMiddleware(g), AuthMiddleware(g), PolicyMiddleware(g)], Mux(g))
         == Gateway(g)
  {
    var m := [RequestIDMiddleware(), AuditMiddleware(g), AuthMiddleware(g), PolicyMiddleware(g)];
    assert m[1..] == [AuditMiddleware(g), AuthMiddleware(g), PolicyMiddleware(g)];
    assert m[1..][1..] == [AuthMiddleware(g), PolicyMiddleware(g)];
    assert m[1..][1..][1..] == [PolicyMiddleware(g)];
    assert m[1..][1..][1..][1..] == [];
    assert Wiring.RightFold(m[1..][1..][1..], Mux(g)) == AfterAuth(g);
    assert Wiring.RightFold(m[1..][1..], Mux(g)) == AfterAudit(g);
    assert Wiring.RightFold(m[1..], Mux(g)) == AfterRequestID(g);
  }

  /** `proxy.New` with the middlewares that main adds, in main's order. */
  method NewHandler(g: Setup) returns (handler: Handler)
    ensures handler == Gateway(g)
  {
    GatewayIsTheFold(g);
    handler := Wiring.Wrap([RequestIDMiddleware(), AuditMiddleware(g), AuthMiddleware(g), PolicyMiddleware(g)], Mux(g));
  }

  /** A final status as net/http's client reports it and its server accepts it. */
  predicate ValidReply(reply: UpstreamReply) {
    reply.Answer? ==> reply.status == 101 || 200 <= reply.status <= 999
  }

  /** Nothing of the response has been written yet. */
  predicate Ready(w: Writer) {
    w.recorder == Some(FRESH_RECORDER) && w.wire.None? && w.heads == 0
  }

  /** Exactly one head went out, the recorder saw it, and the internal header is not in it. */
  predicate Answered(before: Writer, after: Writer, status: int) {
    && after.heads == 1
    && after.wire.Some? && after.wire.value.status == status
    && AUDIT_CLIENT_ID !in after.wire.value.header
    && after.recorder == Some(Recorder(Get(before.header, AUDIT_CLIENT_ID), status))
  }

  lemma HeadAnswers(before: Writer, w: Writer, status: int)
    requires Ready(w) && status != 0
    requires Get(w.header, AUDIT_CLIENT_ID) == Get(before.header, AUDIT_CLIENT_ID)
    ensures Answered(before, WriteHead(w, status), status) && HeadIsOut(WriteHead(w, status))
  {
  }

  lemma RespondAnswers(s: Scene, contentType: string, status: int, data: string)
    requires Ready(s.w) && status != 0
    ensures var s' := Respond(s, contentType, status, data);
            Answered(s.w, s'.w, status) && s'.world == s.world && s'.env == s.env
  {
  }

  lemma HttpFailureAnswers(s: Scene, message: string, status: int)
    requires Ready(s.w) && status != 0
    ensures var s' := HttpFailure(s, message, status);
            Answered(s.w, s'.w, status) && s'.world == s.world && s'.env == s.env
  {
  }

  lemma UnauthorizedAnswers(g: Setup, s: Scene, description: string)
    requires Ready(s.w)
    ensures var s' := Unauthorized(g, s, description);
            Answered(s.w, s'.w, STATUS_UNAUTHORIZED) && s'.world == s.world
  {
  }

  /** Upstream's headers are copied in, its status is passed on, and its body is relayed. */
  lemma RelayAnswers(before: Writer, header: Header, status: int, chunks: seq<Chunk>, flush: bool)
    requires Ready(before) && status != 0
    requires Get(header, AUDIT_CLIENT_ID) == Get(before.header, AUDIT_CLIENT_ID)
    ensures Answered(before, Relayed(WriteHead(before.(header := header), status), chunks, flush), status)
  {
    HeadAnswers(before, before.(header := header), status);
    RelayKeepsHead(WriteHead(before.(header := header), status), chunks, flush);
  }

  /** Whatever upstream sends, copying its headers cannot change the internal header. */
  lemma CopiedKeepsAuditHeader(dst: Header, src: Header)
    ensures Get(Copied(dst, src), AUDIT_CLIENT_ID) == Get(dst, AUDIT_CLIENT_ID)
    ensures Get(StreamHeader(Copied(dst, src)), AUDIT_CLIENT_ID) == Get(dst, AUDIT_CLIENT_ID)
  {
  }

  /** On the streaming path the three stream headers are fixed, and every other copied value passes. */
  lemma StreamHeadersAreFixed(dst: Header, src: Header, key: string)
    ensures var h := StreamHeader(Copied(dst, src));
            Values(h, key) ==
              if key == CONTENT_TYPE then [EVENT_STREAM]
              else if key == "Cache-Control" then ["no-cache"]
              else if key == "Connection" then ["keep-alive"]
              else if key in EXCLUDED then Values(dst, key)
              else Values(dst, key) + Values(src, key)
  {
  }

  /** The proxy handler sends this request upstream. */
  predicate Forwards(g: Setup, r: Request, env: Env) {
    var body := Limited(r.body, MAX_REQUEST_SIZE);
    && !env.upstream.NoRequest?
    && (IsSSE(r) ||
        (&& ReadStatus(body) == NoError
         && (r.verb == POST ==> IsJson(r) && (ReadData(body) == "" || Parse(g, ReadData(body)).Ok?))))
  }

  function ForwardedCall(r: Request): UpstreamCall {
    UpstreamCall(
      r.verb, r.path, Copied(map[], r.header),
      if IsSSE(r) then ReadData(r.body) else ReadData(Limited(r.body, MAX_REQUEST_SIZE)),
      IsSSE(r), r.info)
  }

  /** The status that the client sees for a forwarded or locally answered request. */
  function ProxyStatus(g: Setup, r: Request, env: Env): int {
    if Forwards(g, r, env) && env.upstream.Answer? then env.upstream.status
    else if !IsSSE(r) then STATUS_OK
    else if env.upstream.NoRequest? then STATUS_INTERNAL_ERROR
    else STATUS_BAD_GATEWAY
  }

  lemma ForwardFacts(g: Setup, r: Request, data: string, s: Scene)
    requires Ready(s.w) && ValidReply(s.env.upstream)
    ensures var s' := Forward(g, r, data, s);
            && Answered(s.w, s'.w, if s.env.upstream.Answer? then s.env.upstream.status else STATUS_OK)
            && s'.world == if s.env.upstream.NoRequest? then s.world else CallUpstream(s, r, data, false).world
  {
    var s1 := CallUpstream(s, r, data, false);
    match s.env.upstream
    case NoRequest => RespondAnswers(s, JSON_TYPE, STATUS_OK, g.rpcError(CODE_INTERNAL_ERROR, "internal proxy error"));
    case Unreachable => RespondAnswers(s1, JSON_TYPE, STATUS_OK, g.rpcError(CODE_INTERNAL_ERROR, "upstream server unavailable"));
    case Answer(status, header, chunks) =>
      CopiedKeepsAuditHeader(s.w.header, header);
      RelayAnswers(s.w, Copied(s.w.header, header), status, chunks, false);
  }

  lemma StreamFacts(r: Request, s: Scene)
    requires Ready(s.w) && ValidReply(s.env.upstream)
    ensures var s' := Stream(r, s);
            && Answered(s.w, s'.w,
                 if s.env.upstream.Answer? then s.env.upstream.status
                 else if s.env.upstream.NoRequest? then STATUS_INTERNAL_ERROR else STATUS_BAD_GATEWAY)
            && s'.world == if s.env.upstream.NoRequest? then s.world else CallUpstream(s, r, ReadData(r.body), true).world
  {
    var s1 := CallUpstream(s, r, ReadData(r.body), true);
    match s.env.upstream
    case NoRequest => HttpFailureAnswers(s, "internal proxy error", STATUS_INTERNAL_ERROR);
    case Unreachable => HttpFailureAnswers(s1, "upstream server unavailable", STATUS_BAD_GATEWAY);
    case Answer(status, header, chunks) =>
      CopiedKeepsAuditHeader(s.w.header, header);
      RelayAnswers(s.w, StreamHeader(Copied(s.w.header, header)), status, chunks, true);
  }

  lemma ProxyFacts(g: Setup, r: Request, s: Scene)
    requires Ready(s.w) && ValidReply(s.env.upstream)
    ensures var s' := Proxy(g, r, s);
            && Answered(s.w, s'.w, ProxyStatus(g, r, s.env))
            && s'.world == s.world.(upstream := s.world.upstream + if Forwards(g, r, s.env) then [ForwardedCall(r)] else [])
  {
    var body := Limited(r.body, MAX_REQUEST_SIZE);
    var data := ReadData(body);
    assert s.world.upstream + [] == s.world.upstream;
    if IsSSE(r) {
      StreamFacts(r, s);
    } else if r.verb == POST && !IsJson(r) {
      RespondAnswers(s, JSON_TYPE, STATUS_OK, g.rpcError(CODE_INVALID_REQUEST, "Content-Type must be application/json"));
    } else if ReadStatus(body) == TooLarge {
      RespondAnswers(s, JSON_TYPE, STATUS_OK, g.rpcError(CODE_INVALID_REQUEST, "request body exceeds 1MB limit"));
    } else if ReadStatus(body) == ReadFailed {
      RespondAnswers(s, JSON_TYPE, STATUS_OK, g.rpcError(CODE_PARSE_ERROR, "failed to read request body"));
    } else if r.verb == POST && |data| > 0 && Parse(g, data).Err? {
      RespondAnswers(s, JSON_TYPE, STATUS_OK, g.rpcError(CODE_PARSE_ERROR, Parse(g, data).error));
    } else {
      ForwardFacts(g, r, data, s);
    }
  }

  /** The question the policy layer asks about this request, if it asks one. */
  function Question(g: Setup, r: Request): Option<Input> {
    if r.verb == POST then BuildInput(g, r).1 else None
  }

  /** On its own, too, the policy layer asks only about JSON bodies that it could read to their end within the limit. */
  lemma OnlyReadBodiesAreAsked(g: Setup, r: Request)
    requires Question(g, r).Some?
    ensures r.verb == "POST" && "application/json" <= Get(r.header, "Content-Type")
    ensures ReadStatus(Limited(r.body, 1048576)) == NoError
  {
  }

  /** The request as the policy layer passes it on. */
  function PassedOn(g: Setup, r: Request): Request {
    if r.verb == POST then BuildInput(g, r).0 else r
  }

  predicate Cleared(g: Setup, r: Request, env: Env) {
    Question(g, r).Some? ==> Evaluate(env.opa(Question(g, r).value)) == Ok(true)
  }

  lemma PolicyFacts(g: Setup, r: Request, s: Scene)
    requires r.path != HEALTH_PATH && Ready(s.w) && ValidReply(s.env.upstream)
    ensures var s' := AfterAuth(g)(r, s);
            var r1 := PassedOn(g, r);
            && Answered(s.w, s'.w, if Cleared(g, r, s.env) then ProxyStatus(g, r1, s.env) else STATUS_FORBIDDEN)
            && s'.world == s.world.(
                 queries := s.world.queries +
                   if Question(g, r).Some? then [PolicyQuery(Question(g, r).value, Evaluate(s.env.opa(Question(g, r).value)))] else [],
                 upstream := s.world.upstream +
                   if Cleared(g, r, s.env) && Forwards(g, r1, s.env) then [ForwardedCall(r1)] else [])
  {
    assert AfterAuth(g)(r, s) == PolicyLayer(g, Mux(g), r, s);
    assert s.world.upstream + [] == s.world.upstream && s.world.queries + [] == s.world.queries;
    var r1 := PassedOn(g, r);
    var question := Question(g, r);
    if question.None? {
      ProxyFacts(g, r1, s);
    } else {
      var s1 := Ask(s, question.value);
      match Evaluate(s.env.opa(question.value)) {
        case Err(_) => RespondAnswers(s1, JSON_TYPE, STATUS_FORBIDDEN, g.denial("forbidden", "policy evaluation unavailable"));
        case Ok(allowed) =>
          if allowed {
            ProxyFacts(g, r1, s1);
          } else {
            RespondAnswers(s1, JSON_TYPE, STATUS_FORBIDDEN, g.denial("forbidden", "denied by policy"));
          }
      }
    }
  }
}
