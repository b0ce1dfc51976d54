/** What the client reads: every answer that the gateway gives itself, and the correlation id on all answers. */
module ChainAnswers {
  import opened Wrappers
  import Bearer
  import opened Headers
  import opened Http
  import opened Policy
  import opened Chain
  import opened ChainFacts
  import opened ChainTerms
  import opened ChainTheorems

  /** An answer with this status, content type and body, as much of the body as the connection takes, and the correlation id. */
  predicate Says(before: Writer, w: Writer, id: string, status: int, contentType: string, body: string) {
    && w.wire.Some? && w.wire.value.status == status
    && Values(w.wire.value.header, "Content-Type") == [contentType]
    && Values(w.wire.value.header, "X-Request-Id") == [id]
    && w.sent == before.sent + body[..Accepts(before, |body|)]
  }

  /** A writer that carries the correlation id and on which nothing has been answered. */
  predicate Carries(w: Writer, id: string) {
    Ready(w) && Values(w.header, "X-Request-Id") == [id]
  }

  lemma RespondSays(s: Scene, id: string, contentType: string, status: int, data: string)
    requires Carries(s.w, id) && status != 0
    ensures Says(s.w, Respond(s, contentType, status, data).w, id, status, contentType, data)
    ensures Values(Respond(s, contentType, status, data).w.wire.value.header, "WWW-Authenticate") == Values(s.w.header, "WWW-Authenticate")
  {
  }

  lemma HttpFailureSays(s: Scene, id: string, message: string, status: int)
    requires Carries(s.w, id) && status != 0
    ensures Says(s.w, HttpFailure(s, message, status).w, id, status, "text/plain; charset=utf-8", message + "\n")
    ensures var header := HttpFailure(s, message, status).w.wire.value.header;
            Values(header, "X-Content-Type-Options") == ["nosniff"] && Values(header, "Content-Length") == []
  {
    var s1 := s.(w := s.w.(header := s.w.header - {"Content-Length"}));
    var s2 := SetHeader(s1, "X-Content-Type-Options", "nosniff");
    RespondSays(s2, id, "text/plain; charset=utf-8", status, message + "\n");
  }

  lemma AdmittedWriterCarries(g: Setup, r: Request, s: Scene)
    requires Arriving(r, s)
    ensures Carries(AuditScene(r, s).w, CorrelationID(r, s.env)) && SameConnection(s.w, AuditScene(r, s).w)
    ensures Outcome(g, r, s).Accepted? ==>
              Carries(AdmittedWriter(g, r, s), CorrelationID(r, s.env)) && SameConnection(s.w, AdmittedWriter(g, r, s))
  {
  }

  // ---------------------------------------------------------------- auth

  /** What is wrong with an Authorization header: the first check that fails. */
  function HeaderFault(value: string): Option<string> {
    if value == "" then Some("missing Authorization header")
    else if !("Bearer " <= value) then Some("authorization header must use Bearer scheme")
    else if |value| == 7 then Some("empty Bearer token")
    else if |value| > 2055 then Some("token exceeds maximum length of 2048 characters")
    else if exists c | c in value[7..] :: !(' ' <= c <= '~') then Some("token contains invalid characters")
    else None
  }

  /** Why auth refuses a request: a fault of its header, or its token. */
  function Reason(g: Setup, r: Request, s: Scene): string {
    var value := Get(r.header, "Authorization");
    match HeaderFault(value)
    case Some(fault) => fault
    case None => if |value| >= 7 && JudgedBy(g, value[7..], s).Some? then "token is not active" else "token verification failed"
  }

  lemma ExtractionNamesFault(value: string)
    ensures match Bearer.Extracted(value)
            case Ok(token) => HeaderFault(value).None? && |value| >= 7 && token == value[7..]
            case Err(e) => HeaderFault(value) == Some(FaultMessage(e))
  {
    assert |Bearer.PREFIX| == 7;
    if Bearer.PREFIX <= value {
      assert |value| == 7 <==> value == Bearer.PREFIX;
    }
  }

  lemma OutcomeNamesReason(g: Setup, r: Request, s: Scene)
    requires Outcome(g, r, s).Refused?
    ensures Outcome(g, r, s).description == Reason(g, r, s)
  {
    ExtractionNamesFault(Get(r.header, "Authorization"));
  }

  lemma RefusedWriter(g: Setup, r: Request, s: Scene)
    requires r.path != HEALTH_PATH && Outcome(g, r, s).Refused?
    ensures exists world :: AfterAudit(g)(r, s).w == Unauthorized(g, Scene(s.env, world, s.w), Outcome(g, r, s).description).w
  {
    assert AfterAudit(g)(r, s) == AuthLayer(g, AfterAuth(g), r, s);
    var cache := Authenticate(g, r.header, s.world.cache, s.env).1;
    var s1 := s.(world := s.world.(cache := cache));
    assert s1 == Scene(s.env, s1.world, s.w);
  }

  lemma UnauthorizedSays(g: Setup, s: Scene, id: string, reason: string)
    requires Carries(s.w, id)
    ensures var w := Unauthorized(g, s, reason).w;
            && Says(s.w, w, id, 401, "application/json", g.denial("unauthorized", reason))
            && Values(w.wire.value.header, "WWW-Authenticate") == ["Bearer error=\"invalid_token\", error_description=\"" + reason + "\""]
  {
    var s1 := SetHeader(s, "WWW-Authenticate", "Bearer error=\"invalid_token\", error_description=\"" + reason + "\"");
    RespondSays(s1, id, JSON_TYPE, STATUS_UNAUTHORIZED, g.denial("unauthorized", reason));
  }

  /** A request that auth refuses is answered with 401 and the reason, in the challenge and in the body. */
  lemma RefusalSays(g: Setup, r: Request, s: Scene)
    requires Arriving(r, s) && Outcome(g, r, s).Refused?
    ensures var w, reason := Gateway(g)(r, s).w, Reason(g, r, s);
            && Says(s.w, w, CorrelationID(r, s.env), 401, "application/json", g.denial("unauthorized", reason))
            && Values(w.wire.value.header, "WWW-Authenticate") == ["Bearer error=\"invalid_token\", error_description=\"" + reason + "\""]
  {
    var r1, s1 := Audited(g, r, s), AuditScene(r, s);
    AuditKeepsWriter(g, r, s);
    AuditIsTransparent(g, r, s);
    AdmittedWriterCarries(g, r, s);
    OutcomeNamesReason(g, r, s);
    RefusedWriter(g, r1, s1);
    var world :| AfterAudit(g)(r1, s1).w == Unauthorized(g, Scene(s1.env, world, s1.w), Outcome(g, r1, s1).description).w;
    UnauthorizedSays(g, Scene(s1.env, world, s1.w), CorrelationID(r, s.env), Reason(g, r, s));
  }

  // ---------------------------------------------------------------- policy

  /** What the policy layer makes of its verdict. */
  function DenialMessage(reply: OpaReply): string {
    if Evaluate(reply).Err? then "policy evaluation unavailable" else "denied by policy"
  }

  lemma DeniedWriter(g: Setup, r: Request, s: Scene)
    requires r.path != HEALTH_PATH && !Cleared(g, r, s.env)
    ensures exists world ::
              AfterAuth(g)(r, s).w
              == Forbidden(g, Scene(s.env, world, s.w), DenialMessage(s.env.opa(Question(g, r).value))).w
  {
    assert AfterAuth(g)(r, s) == PolicyLayer(g, Mux(g), r, s);
    var s1 := Ask(s, Question(g, r).value);
    assert s1 == Scene(s.env, s1.world, s.w);
  }

  /** The engine gave no decision at all: it failed, or its reply is not the expected one. */
  predicate IsUndecided(opa: Input -> OpaReply, input: Input) {
    !(opa(input).Reply? && opa(input).status == 200 && opa(input).body.Some? && opa(input).body.value.Some?)
  }

  lemma PolicySays(g: Setup, r: Request, s: Scene, id: string)
    requires r.path != HEALTH_PATH && !Cleared(g, r, s.env) && Carries(s.w, id)
    ensures Says(s.w, AfterAuth(g)(r, s).w, id, 403, "application/json",
                 g.denial("forbidden", DenialMessage(s.env.opa(Question(g, r).value))))
  {
    DeniedWriter(g, r, s);
    var message := DenialMessage(s.env.opa(Question(g, r).value));
    var world :| AfterAuth(g)(r, s).w == Forbidden(g, Scene(s.env, world, s.w), message).w;
    RespondSays(Scene(s.env, world, s.w), id, JSON_TYPE, STATUS_FORBIDDEN, g.denial("forbidden", message));
  }

  lemma MessageMeans(opa: Input -> OpaReply, input: Input)
    ensures DenialMessage(opa(input)) == if IsUndecided(opa, input) then "policy evaluation unavailable" else "denied by policy"
  {
  }

  /**
   A request that the policy does not clear is a readable POST that was asked about without a yes. It is
   answered with 403, and the body says whether the policy denied it or gave no decision.
   */
  lemma DenialSays(g: Setup, r: Request, s: Scene)
    requires Arriving(r, s) && Outcome(g, r, s).Accepted? && !Mediated(g, r, s)
    ensures r.verb == "POST" && IsReadable(g, r.header, FirstMiB(r.body.data)) && |NewQueries(g, r, s)| == 1
    ensures var input := NewQueries(g, r, s)[0].input;
            && !SaysYes(s.env.opa, input)
            && Says(s.w, Gateway(g)(r, s).w, CorrelationID(r, s.env), 403, "application/json",
                 g.denial("forbidden", if IsUndecided(s.env.opa, input) then "policy evaluation unavailable" else "denied by policy"))
  {
    QuestionsAreExact(g, r, s);
    MessageMeans(s.env.opa, NewQueries(g, r, s)[0].input);
    AuditKeepsWriter(g, r, s);
    AdmissionMatches(g, r, s);
    AdmittedWriterCarries(g, r, s);
    AuthLetsPass(g, Audited(g, r, s), AuditScene(r, s));
    PolicySays(g, Admitted(g, r, s), Admission(g, Audited(g, r, s), AuditScene(r, s)), CorrelationID(r, s.env));
  }

  // ---------------------------------------------------------------- proxy

  /** An answer of the proxy itself. */
  datatype Local = Local(status: int, contentType: string, body: string)

  function RpcError(g: Setup, code: int, message: string): Local {
    Local(200, "application/json", g.rpcError(code, message))
  }

  /** What is wrong with bytes that are no JSON-RPC request. */
  function RpcFault(g: Setup, data: string): string
    requires !IsRpc(g, data)
  {
    match g.unmarshal(data)
    case Err(e) => "invalid JSON: " + e
    case Ok(rpc) => if rpc.version != "2.0" then "jsonrpc field must be \"2.0\"" else "method field is required"
  }

  /** Why a request that auth and policy let pass gets no answer from upstream, and what it is told. */
  ghost function LocalAnswer(g: Setup, r: Request, reply: UpstreamReply): Local
    requires !reply.Answer?
  {
    if AsksForStream(r) then
      if reply.NoRequest? then Local(500, "text/plain; charset=utf-8", "internal proxy error\n")
      else Local(502, "text/plain; charset=utf-8", "upstream server unavailable\n")
    else if reply.NoRequest? then RpcError(g, -32603, "internal proxy error")
    else RpcError(g, -32603, "upstream server unavailable")
  }

  /** What is wrong with a plain request itself, so that it is not forwarded. */
  function Fault(g: Setup, r: Request): Option<Local> {
    var data := FirstMiB(r.body.data);
    if r.verb == "POST" then
      if !HasJsonType(r.header) then Some(RpcError(g, -32600, "Content-Type must be application/json"))
      else if data != "" && !IsRpc(g, data) then Some(RpcError(g, -32700, RpcFault(g, data)))
      else None
    else if |r.body.data| > 1048576 then Some(RpcError(g, -32600, "request body exceeds 1MB limit"))
    else if r.body.broken then Some(RpcError(g, -32700, "failed to read request body"))
    else None
  }

  lemma StreamSays(r: Request, s: Scene, id: string)
    requires Carries(s.w, id) && !s.env.upstream.Answer?
    ensures var local := if s.env.upstream.NoRequest? then Local(500, "text/plain; charset=utf-8", "internal proxy error\n")
                         else Local(502, "text/plain; charset=utf-8", "upstream server unavailable\n");
            Says(s.w, Stream(r, s).w, id, local.status, local.contentType, local.body)
  {
    if s.env.upstream.NoRequest? {
      HttpFailureSays(s, id, "internal proxy error", STATUS_INTERNAL_ERROR);
    } else {
      HttpFailureSays(CallUpstream(s, r, ReadData(r.body), true), id, "upstream server unavailable", STATUS_BAD_GATEWAY);
    }
  }

  lemma RpcFailureSays(g: Setup, s: Scene, id: string, code: int, message: string)
    requires Carries(s.w, id)
    ensures Says(s.w, RpcFailure(g, s, code, message).w, id, 200, "application/json", g.rpcError(code, message))
  {
    RespondSays(s, id, JSON_TYPE, STATUS_OK, g.rpcError(code, message));
  }

  lemma ForwardSays(g: Setup, r: Request, data: string, s: Scene, id: string)
    requires Carries(s.w, id) && !s.env.upstream.Answer?
    ensures Says(s.w, Forward(g, r, data, s).w, id, 200, "application/json",
                 g.rpcError(-32603, if s.env.upstream.NoRequest? then "internal proxy error" else "upstream server unavailable"))
  {
    if s.env.upstream.NoRequest? {
      RpcFailureSays(g, s, id, CODE_INTERNAL_ERROR, "internal proxy error");
    } else {
      RpcFailureSays(g, CallUpstream(s, r, data, false), id, CODE_INTERNAL_ERROR, "upstream server unavailable");
    }
  }

  lemma ParseNamesFault(g: Setup, data: string)
    ensures IsRpc(g, data) || Parse(g, data) == Err(RpcFault(g, data))
  {
  }

  /** The proxy's answer to a request whose body is as the other layers left it. */
  lemma ProxySays(g: Setup, r: Request, r1: Request, s: Scene, id: string)
    requires Carries(s.w, id) && r.body.limit.None? && r1.verb == r.verb && r1.header == r.header
    requires r1.body == if r.verb == POST && IsJson(r) then Restored(FirstMiB(r.body.data))
                        else if r.verb == POST then Limited(r.body, MAX_REQUEST_SIZE) else r.body
    requires !AsksForStream(r) && Fault(g, r).Some?
    ensures var local := Fault(g, r).value;
            Says(s.w, Proxy(g, r1, s).w, id, local.status, local.contentType, local.body)
  {
    StreamMeans(r);
    assert IsSSE(r1) <==> IsSSE(r);
    LimitMeans(r.body);
    if r.verb == POST {
      if !IsJson(r) {
        RpcFailureSays(g, s, id, CODE_INVALID_REQUEST, "Content-Type must be application/json");
      } else {
        var data := FirstMiB(r.body.data);
        RestoredIsReadInFull(data);
        ParseNamesFault(g, data);
        RpcFailureSays(g, s, id, CODE_PARSE_ERROR, RpcFault(g, data));
      }
    } else if |r.body.data| > 1048576 {
      RpcFailureSays(g, s, id, CODE_INVALID_REQUEST, "request body exceeds 1MB limit");
    } else {
      RpcFailureSays(g, s, id, CODE_PARSE_ERROR, "failed to read request body");
    }
  }

  /** The request as the proxy gets it. */
  lemma ProxyGets(g: Setup, r: Request, s: Scene)
    requires Arriving(r, s) && Outcome(g, r, s).Accepted?
    ensures var r1 := PassedOn(g, Admitted(g, r, s));
            && r1.verb == r.verb && r1.header == r.header && r1.path == r.path
            && r1.body == if r.verb == POST && IsJson(r) then Restored(FirstMiB(r.body.data))
                          else if r.verb == POST then Limited(r.body, MAX_REQUEST_SIZE) else r.body
  {
    AuditPassesOn(g, r, s);
    PolicyPassesOn(g, Admitted(g, r, s));
    if r.verb == POST && IsJson(r) {
      JsonPostIsShared(g, r, s);
    } else {
      UnreadBodyPassesOn(g, r, s);
    }
  }

  /** A plain request with a fault of its own is told so, and is not forwarded. */
  lemma FaultSays(g: Setup, r: Request, s: Scene)
    requires Arriving(r, s) && Mediated(g, r, s) && !AsksForStream(r) && Fault(g, r).Some?
    ensures !IsForwarded(g, r, s)
    ensures var local := Fault(g, r).value;
            Says(s.w, Gateway(g)(r, s).w, CorrelationID(r, s.env), local.status, local.contentType, local.body)
  {
    NotForwarded(g, r, s);
    AuditKeepsWriter(g, r, s);
    ProxyAnswersMediated(g, r, s);
    AdmittedWriterCarries(g, r, s);
    ProxyGets(g, r, s);
    var w, r1 := AdmittedWriter(g, r, s), PassedOn(g, Admitted(g, r, s));
    var world :| AfterAudit(g)(Audited(g, r, s), AuditScene(r, s)).w == Proxy(g, r1, Scene(s.env, world, w)).w;
    ProxySays(g, r, r1, Scene(s.env, world, w), CorrelationID(r, s.env));
  }

  lemma NotForwarded(g: Setup, r: Request, s: Scene)
    requires Arriving(r, s) && !AsksForStream(r) && Fault(g, r).Some?
    ensures !IsForwarded(g, r, s)
  {
    if r.verb == POST {
      PostIsForwardedExactlyWhen(g, r, s);
    } else {
      OtherIsForwardedExactlyWhen(g, r, s);
    }
  }

  lemma ProxyUnanswered(g: Setup, r: Request, r1: Request, s: Scene, id: string)
    requires Carries(s.w, id) && r.body.limit.None? && r1.verb == r.verb && r1.header == r.header
    requires r1.body == if r.verb == POST && IsJson(r) then Restored(FirstMiB(r.body.data))
                        else if r.verb == POST then Limited(r.body, MAX_REQUEST_SIZE) else r.body
    requires !s.env.upstream.Answer? && (AsksForStream(r) || Fault(g, r).None?)
    ensures var local := LocalAnswer(g, r, s.env.upstream);
            Says(s.w, Proxy(g, r1, s).w, id, local.status, local.contentType, local.body)
  {
    StreamMeans(r);
    assert IsSSE(r1) <==> IsSSE(r);
    if AsksForStream(r) {
      StreamSays(r1, s, id);
    } else {
      ForwardSays(g, r1, ReadData(Limited(r1.body, MAX_REQUEST_SIZE)), s, id);
      FaultlessIsForwarded(g, r, r1, s);
    }
  }

  /** Any other request that is let through is told when upstream cannot be asked or does not answer. */
  lemma UnansweredSays(g: Setup, r: Request, s: Scene)
    requires Arriving(r, s) && Mediated(g, r, s) && !s.env.upstream.Answer?
    requires AsksForStream(r) || Fault(g, r).None?
    ensures var local := LocalAnswer(g, r, s.env.upstream);
            Says(s.w, Gateway(g)(r, s).w, CorrelationID(r, s.env), local.status, local.contentType, local.body)
  {
    AuditKeepsWriter(g, r, s);
    ProxyAnswersMediated(g, r, s);
    AdmittedWriterCarries(g, r, s);
    ProxyGets(g, r, s);
    var w, r1 := AdmittedWriter(g, r, s), PassedOn(g, Admitted(g, r, s));
    var world :| AfterAudit(g)(Audited(g, r, s), AuditScene(r, s)).w == Proxy(g, r1, Scene(s.env, world, w)).w;
    ProxyUnanswered(g, r, r1, Scene(s.env, world, w), CorrelationID(r, s.env));
  }

  lemma FaultlessIsForwarded(g: Setup, r: Request, r1: Request, s: Scene)
    requires r.body.limit.None? && r1.verb == r.verb && r1.header == r.header
    requires r1.body == if r.verb == POST && IsJson(r) then Restored(FirstMiB(r.body.data))
                        else if r.verb == POST then Limited(r.body, MAX_REQUEST_SIZE) else r.body
    requires !AsksForStream(r) && Fault(g, r).None?
    ensures Proxy(g, r1, s) == Forward(g, r1, ReadData(Limited(r1.body, MAX_REQUEST_SIZE)), s)
  {
    StreamMeans(r);
    assert IsSSE(r1) <==> IsSSE(r);
    LimitMeans(r.body);
    if r.verb == POST {
      RestoredIsReadInFull(FirstMiB(r.body.data));
      ParseMeans(g, FirstMiB(r.body.data));
    }
  }

  // ---------------------------------------------------------------- the correlation id

  lemma RelayKeepsID(g: Setup, r: Request, s: Scene, id: string)
    requires Carries(s.w, id) && Forwards(g, r, s.env) && s.env.upstream.Answer? && ValidReply(s.env.upstream)
    ensures var w := Proxy(g, r, s).w;
            w.wire.Some? && Values(w.wire.value.header, "X-Request-Id") == [id] + Values(s.env.upstream.header, "X-Request-Id")
  {
    var reply := s.env.upstream;
    var copied := Copied(s.w.header, reply.header);
    assert Values(copied, "X-Request-Id") == [id] + Values(reply.header, "X-Request-Id");
    var header := if IsSSE(r) then StreamHeader(copied) else copied;
    var head := WriteHead(s.w.(header := header), reply.status);
    RelayKeepsHead(head, reply.chunks, IsSSE(r));
    assert Proxy(g, r, s).w == Relayed(head, reply.chunks, IsSSE(r));
  }

  /**
   Every answer but that of a health check carries the correlation id that the audit entry has, before any
   value that upstream sent: the client's own id, cut to 256 bytes, or else a fresh one.
   */
  lemma RequestIDIsEchoed(g: Setup, r: Request, s: Scene)
    requires Arriving(r, s)
    ensures var w := Gateway(g)(r, s).w;
            && w.wire.Some?
            && Values(w.wire.value.header, "X-Request-Id") == [CorrelationID(r, s.env)] +
                 if IsForwarded(g, r, s) && s.env.upstream.Answer? then Values(s.env.upstream.header, "X-Request-Id") else []
  {
    var id := CorrelationID(r, s.env);
    assert [id] + [] == [id];
    if Outcome(g, r, s).Refused? {
      RefusalSays(g, r, s);
    } else if !Mediated(g, r, s) {
      DenialSays(g, r, s);
    } else if IsForwarded(g, r, s) && s.env.upstream.Answer? {
      ForwardedByProxy(g, r, s);
      AdmittedWriterCarries(g, r, s);
      var w, r1 := AdmittedWriter(g, r, s), PassedOn(g, Admitted(g, r, s));
      var world :| Gateway(g)(r, s).w == Proxy(g, r1, Scene(s.env, world, w)).w;
      RelayKeepsID(g, r1, Scene(s.env, world, w), id);
    } else {
      LocalSaysID(g, r, s);
    }
  }

  lemma LocalSaysID(g: Setup, r: Request, s: Scene)
    requires Arriving(r, s) && Mediated(g, r, s) && !(IsForwarded(g, r, s) && s.env.upstream.Answer?)
    ensures var w := Gateway(g)(r, s).w;
            w.wire.Some? && Values(w.wire.value.header, "X-Request-Id") == [CorrelationID(r, s.env)]
  {
    if !AsksForStream(r) && Fault(g, r).Some? {
      FaultSays(g, r, s);
    } else {
      if s.env.upstream.Answer? {
        FaultlessReachesUpstream(g, r, s);
      }
      UnansweredSays(g, r, s);
    }
  }

  lemma FaultlessReachesUpstream(g: Setup, r: Request, s: Scene)
    requires Arriving(r, s) && Mediated(g, r, s) && (AsksForStream(r) || Fault(g, r).None?) && !s.env.upstream.NoRequest?
    ensures IsForwarded(g, r, s)
  {
    ProxyGets(g, r, s);
    StreamMeans(r);
    LimitMeans(r.body);
    if r.verb == POST {
      RestoredIsReadInFull(FirstMiB(r.body.data));
      ParseMeans(g, FirstMiB(r.body.data));
    }
  }

  /** The status of every answer, and so the status in the log. */
  lemma StatusIsExact(g: Setup, r: Request, s: Scene)
    requires Arriving(r, s)
    ensures FinalStatus(g, r, s) ==
              if Outcome(g, r, s).Refused? then 401
              else if !Mediated(g, r, s) then 403
              else if !AsksForStream(r) && Fault(g, r).Some? then 200
              else if s.env.upstream.Answer? then s.env.upstream.status
              else LocalAnswer(g, r, s.env.upstream).status
  {
    if Mediated(g, r, s) {
      StreamMeans(r);
      ProxyGets(g, r, s);
      if !AsksForStream(r) && Fault(g, r).Some? {
        NotForwarded(g, r, s);
      } else if s.env.upstream.Answer? {
        FaultlessReachesUpstream(g, r, s);
      }
    }
  }
}
