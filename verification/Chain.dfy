/**
 The request chain RequestID -> Audit -> Auth -> Policy -> proxy handler, as handlers on values. A
 handler gets a request and a scene (the shared state, the response writer, and what the environment
 will answer) and yields the scene afterwards. A layer may hand a changed copy of the request to the
 next handler; nothing of that copy comes back except through the scene.
 */
module Chain {
  import opened Wrappers
  import opened CacheModel
  import opened Bearer
  import opened Headers
  import opened Http
  import opened Policy
  import opened AuditStores

  const POST: string := "POST"
  const HEALTH_PATH: string := "/health"
  const JSON_TYPE: string := "application/json"
  const EVENT_STREAM: string := "text/event-stream"
  const UNKNOWN: string := "unknown"
  const MAX_VALUE_LENGTH: nat := 256

  const CONTENT_TYPE: string := "Content-Type"
  const REQUEST_ID: string := "X-Request-Id"

  const CODE_PARSE_ERROR: int := -32700
  const CODE_INVALID_REQUEST: int := -32600
  const CODE_INTERNAL_ERROR: int := -32603

  datatype TokenInfo = TokenInfo(clientID: string, scopes: seq<string>)

  /** `verb` is the HTTP method. `info` and `requestID` travel in the request's context. */
  datatype Request = Request(
    verb: string,
    path: string,
    header: Header,
    body: Body,
    remoteAddr: string,
    requestID: string,
    info: Option<TokenInfo>)

  /** The fields of a decoded JSON-RPC request that the gateway looks at. */
  datatype Rpc = Rpc(version: string, name: string, params: string)

  datatype UpstreamCall = UpstreamCall(verb: string, path: string, header: Header, body: string, streaming: bool, caller: Option<TokenInfo>)

  datatype PolicyQuery = PolicyQuery(input: Input, verdict: Result<bool, EvaluationError>)

  /** The state that requests share. `audit` is every entry ever appended to the audit store. */
  datatype World = World(cache: Entries, audit: seq<Entry>, upstream: seq<UpstreamCall>, queries: seq<PolicyQuery>)

  datatype UpstreamReply =
    | NoRequest
    | Unreachable
    | Answer(status: int, header: Header, chunks: seq<Chunk>)

  /** What the outside gives to one request: fresh ids, clock readings, map order, and remote answers. */
  datatype Env = Env(
    freshID: string,
    entryID: string,
    timestamp: string,
    getAt: Instant,
    setAt: SetClock,
    order: seq<Key>,
    introspection: Option<IntrospectionResult>,
    opa: Input -> OpaReply,
    upstream: UpstreamReply)

  datatype Scene = Scene(env: Env, world: World, w: Writer)

  type Handler = (Request, Scene) -> Scene

  /** Configuration and library code: hashing, JSON decoding and encoding, and status texts. */
  datatype Setup = Setup(
    cache: Config,
    hash: string -> Key,
    unmarshal: string -> Result<Rpc, string>,
    paramsName: string -> Option<string>,
    splitScopes: string -> seq<string>,
    rpcError: (int, string) -> string,
    denial: (string, string) -> string,
    statusText: int -> string)

  function Truncate(s: string): string {
    if |s| <= MAX_VALUE_LENGTH then s else s[..MAX_VALUE_LENGTH]
  }

  predicate IsJson(r: Request) {
    JSON_TYPE <= Get(r.header, CONTENT_TYPE)
  }

  predicate Contains(s: string, part: string) {
    exists i | 0 <= i <= |s| :: part <= s[i..]
  }

  predicate IsSSE(r: Request) {
    Contains(Get(r.header, "Accept"), EVENT_STREAM)
  }

  /** jsonrpc.Parse: the version must be 2.0 and the method must not be empty. */
  function Parse(g: Setup, data: string): Result<Rpc, string> {
    match g.unmarshal(data)
    case Err(e) => Err("invalid JSON: " + e)
    case Ok(rpc) =>
      if rpc.version != "2.0" then Err("jsonrpc field must be \"2.0\"")
      else if rpc.name == "" then Err("method field is required")
      else Ok(rpc)
  }

  function ToolName(g: Setup, rpc: Rpc): string {
    if rpc.name != TOOL_CALL || rpc.params == "" then ""
    else
      match g.paramsName(rpc.params)
      case None => ""
      case Some(name) => name
  }

  // ---------------------------------------------------------------- responses

  function SetHeader(s: Scene, key: string, value: string): Scene {
    s.(w := s.w.(header := Set(s.w.header, key, value)))
  }

  /** Sets the content type, writes the head, and writes the body, ignoring write errors. */
  function Respond(s: Scene, contentType: string, status: int, data: string): Scene {
    var s1 := SetHeader(s, CONTENT_TYPE, contentType);
    s1.(w := Write(WriteHead(s1.w, status), data))
  }

  function Unauthorized(g: Setup, s: Scene, description: string): Scene {
    Respond(
      SetHeader(s, "WWW-Authenticate", "Bearer error=\"invalid_token\", error_description=\"" + description + "\""),
      JSON_TYPE, STATUS_UNAUTHORIZED, g.denial("unauthorized", description))
  }

  function Forbidden(g: Setup, s: Scene, description: string): Scene {
    Respond(s, JSON_TYPE, STATUS_FORBIDDEN, g.denial("forbidden", description))
  }

  function RpcFailure(g: Setup, s: Scene, code: int, message: string): Scene {
    Respond(s, JSON_TYPE, STATUS_OK, g.rpcError(code, message))
  }

  /** http.Error. */
  function HttpFailure(s: Scene, message: string, status: int): Scene {
    var s1 := s.(w := s.w.(header := s.w.header - {"Content-Length"}));
    Respond(SetHeader(s1, "X-Content-Type-Options", "nosniff"), "text/plain; charset=utf-8", status, message + "\n")
  }

  // ---------------------------------------------------------------- proxy

  function Health(s: Scene): Scene {
    Respond(s, JSON_TYPE, STATUS_OK, "{\"status\":\"ok\"}")
  }

  function CallUpstream(s: Scene, r: Request, data: string, streaming: bool): Scene {
    var call := UpstreamCall(r.verb, r.path, Copied(map[], r.header), data, streaming, r.info);
    s.(world := s.world.(upstream := s.world.upstream + [call]))
  }

  function Forward(g: Setup, r: Request, data: string, s: Scene): Scene {
    match s.env.upstream
    case NoRequest => RpcFailure(g, s, CODE_INTERNAL_ERROR, "internal proxy error")
    case Unreachable =>
      RpcFailure(g, CallUpstream(s, r, data, false), CODE_INTERNAL_ERROR, "upstream server unavailable")
    case Answer(status, header, chunks) =>
      var s1 := CallUpstream(s, r, data, false);
      var w := s1.w.(header := Copied(s1.w.header, header));
      s1.(w := Relayed(WriteHead(w, status), chunks, false))
  }

  function StreamHeader(h: Header): Header {
    Set(Set(Set(h, CONTENT_TYPE, EVENT_STREAM), "Cache-Control", "no-cache"), "Connection", "keep-alive")
  }

  function Stream(r: Request, s: Scene): Scene {
    match s.env.upstream
    case NoRequest => HttpFailure(s, "internal proxy error", STATUS_INTERNAL_ERROR)
    case Unreachable =>
      HttpFailure(CallUpstream(s, r, ReadData(r.body), true), "upstream server unavailable", STATUS_BAD_GATEWAY)
    case Answer(status, header, chunks) =>
      var s1 := CallUpstream(s, r, ReadData(r.body), true);
      var w := s1.w.(header := StreamHeader(Copied(s1.w.header, header)));
      s1.(w := Relayed(WriteHead(w, status), chunks, true))
  }

  function Proxy(g: Setup, r: Request, s: Scene): Scene {
    if IsSSE(r) then Stream(r, s)
    else if r.verb == POST && !IsJson(r) then
      RpcFailure(g, s, CODE_INVALID_REQUEST, "Content-Type must be application/json")
    else
      var body := Limited(r.body, MAX_REQUEST_SIZE);
      var data := ReadData(body);
      match ReadStatus(body)
      case TooLarge => RpcFailure(g, s, CODE_INVALID_REQUEST, "request body exceeds 1MB limit")
      case ReadFailed => RpcFailure(g, s, CODE_PARSE_ERROR, "failed to read request body")
      case NoError =>
        if r.verb == POST && |data| > 0 && Parse(g, data).Err? then
          RpcFailure(g, s, CODE_PARSE_ERROR, Parse(g, data).error)
        else
          Forward(g, r, data, s)
  }

  function Mux(g: Setup): Handler {
    (r: Request, s: Scene) => if r.path == HEALTH_PATH then Health(s) else Proxy(g, r, s)
  }

  // ---------------------------------------------------------------- policy

  /** The question about these body bytes. */
  function InputFor(g: Setup, info: Option<TokenInfo>, data: string): Input
    requires data == "" || Parse(g, data).Ok?
  {
    var clientID := if info.Some? then info.value.clientID else "";
    var scopes := if info.Some? then info.value.scopes else [];
    if data == "" then Input(clientID, "", "", scopes)
    else
      var rpc := Parse(g, data).value;
      Input(clientID, rpc.name, ToolName(g, rpc), scopes)
  }

  /** The request for the next layer, and the question if the policy has to be asked. */
  function BuildInput(g: Setup, r: Request): (Request, Option<Input>) {
    if !IsJson(r) then (r, None)
    else
      var body := Limited(r.body, MAX_REQUEST_SIZE);
      var data := ReadData(body);
      var r1 := r.(body := Restored(data));
      if ReadStatus(body) != NoError then (r1, None)
      else if data == "" || Parse(g, data).Ok? then (r1, Some(InputFor(g, r.info, data)))
      else (r1, None)
  }

  function Ask(s: Scene, input: Input): Scene {
    s.(world := s.world.(queries := s.world.queries + [PolicyQuery(input, Evaluate(s.env.opa(input)))]))
  }

  function PolicyLayer(g: Setup, next: Handler, r: Request, s: Scene): Scene {
    if r.path == HEALTH_PATH || r.verb != POST then next(r, s)
    else
      var (r1, question) := BuildInput(g, r);
      match question
      case None => next(r1, s)
      case Some(input) =>
        var s1 := Ask(s, input);
        match Evaluate(s.env.opa(input))
        case Err(_) => Forbidden(g, s1, "policy evaluation unavailable")
        case Ok(allowed) => if allowed then next(r1, s1) else Forbidden(g, s1, "denied by policy")
  }

  // ---------------------------------------------------------------- auth

  datatype AuthOutcome = Refused(description: string) | Accepted(info: TokenInfo)

  function FaultMessage(e: TokenError): string {
    match e
    case MissingHeader => "missing Authorization header"
    case WrongScheme => "authorization header must use Bearer scheme"
    case EmptyToken => "empty Bearer token"
    case TokenTooLong => "token exceeds maximum length of 2048 characters"
    case InvalidCharacters => "token contains invalid characters"
  }

  function OutcomeOf(g: Setup, result: IntrospectionResult): AuthOutcome {
    if result.active then
      Accepted(TokenInfo(result.clientID, if result.scope == "" then [] else g.splitScopes(result.scope)))
    else Refused("token is not active")
  }

  /** The cache first, then the introspection service; the outcome and the cache afterwards. */
  function Authenticate(g: Setup, header: Header, cache: Entries, env: Env): (AuthOutcome, Entries) {
    match Extracted(Get(header, "Authorization"))
    case Err(e) => (Refused(FaultMessage(e)), cache)
    case Ok(token) =>
      var key := g.hash(token);
      var cache1 := AfterGet(cache, key, env.getAt);
      match Lookup(cache, key, env.getAt)
      case Some(result) => (OutcomeOf(g, result), cache1)
      case None =>
        match env.introspection
        case None => (Refused("token verification failed"), cache1)
        case Some(result) => (OutcomeOf(g, result), AfterSet(cache1, g.cache, key, result, env.setAt, env.order))
  }

  function AuthLayer(g: Setup, next: Handler, r: Request, s: Scene): Scene {
    if r.path == HEALTH_PATH then next(r, s)
    else
      var (outcome, cache) := Authenticate(g, r.header, s.world.cache, s.env);
      var s1 := s.(world := s.world.(cache := cache));
      match outcome
      case Refused(description) => Unauthorized(g, s1, description)
      case Accepted(info) =>
        next(r.(info := Some(info)), SetHeader(s1, AUDIT_CLIENT_ID, info.clientID))
  }

  // ---------------------------------------------------------------- audit

  /** The name to log for a POST, and the request with its body restored. */
  function ExtractMethod(g: Setup, r: Request): (Request, string) {
    if !IsJson(r) then (r, UNKNOWN)
    else
      var data := ReadData(r.body);
      var r1 := r.(body := Restored(data));
      if ReadStatus(r.body) != NoError || Parse(g, data).Err? then (r1, UNKNOWN)
      else (r1, Truncate(Parse(g, data).value.name))
  }

  function AuditPrepare(g: Setup, r: Request): (Request, string) {
    if r.verb == POST then ExtractMethod(g, r.(body := Limited(r.body, MAX_REQUEST_SIZE)))
    else (r, Truncate(r.verb + " " + r.path))
  }

  function DecisionOf(status: int): Decision {
    if status == STATUS_UNAUTHORIZED || status == STATUS_FORBIDDEN then Deny else Allow
  }

  /** The audit entry for a request that has been answered; `r` is the request as audit got it. */
  function EntryFor(g: Setup, r: Request, toolName: string, env: Env, rec: Recorder): Entry {
    var status := if rec.status == 0 then STATUS_OK else rec.status;
    Entry(
      env.entryID,
      if rec.clientID != "" then rec.clientID else if r.info.Some? then r.info.value.clientID else UNKNOWN,
      toolName,
      DecisionOf(status),
      env.timestamp,
      r.requestID,
      map["http_method" := r.verb, "path" := r.path, "remote_addr" := r.remoteAddr, "status_code" := g.statusText(status)])
  }

  /** The scene with the entry of this request appended; it does not depend on the request's body. */
  function Logged(g: Setup, r: Request, toolName: string, env: Env, s: Scene): Scene {
    var rec := if s.w.recorder.Some? then s.w.recorder.value else FRESH_RECORDER;
    s.(world := s.world.(audit := s.world.audit + [EntryFor(g, r, toolName, env, rec)]))
  }

  /** The recorder stays on the writer, so that its record can be compared with the wire. */
  function AuditLayer(g: Setup, next: Handler, r: Request, s: Scene): Scene {
    if r.path == HEALTH_PATH then next(r, s)
    else
      var (r1, toolName) := AuditPrepare(g, r);
      Logged(g, r, toolName, s.env, next(r1, s.(w := s.w.(recorder := Some(FRESH_RECORDER)))))
  }

  // ---------------------------------------------------------------- request id

  function RequestIDLayer(next: Handler, r: Request, s: Scene): Scene {
    var given := Get(r.header, REQUEST_ID);
    var id := if given == "" then s.env.freshID else Truncate(given);
    next(r.(requestID := id), SetHeader(s, REQUEST_ID, id))
  }

  // ---------------------------------------------------------------- wiring

  function RequestIDMiddleware(): Handler -> Handler {
    next => (r: Request, s: Scene) => RequestIDLayer(next, r, s)
  }

  function AuditMiddleware(g: Setup): Handler -> Handler {
    next => (r: Request, s: Scene) => AuditLayer(g, next, r, s)
  }

  function AuthMiddleware(g: Setup): Handler -> Handler {
    next => (r: Request, s: Scene) => AuthLayer(g, next, r, s)
  }

  function PolicyMiddleware(g: Setup): Handler -> Handler {
    next => (r: Request, s: Scene) => PolicyLayer(g, next, r, s)
  }

  function AfterAuth(g: Setup): Handler {
    PolicyMiddleware(g)(Mux(g))
  }

  function AfterAudit(g: Setup): Handler {
    AuthMiddleware(g)(AfterAuth(g))
  }

  function AfterRequestID(g: Setup): Handler {
    AuditMiddleware(g)(AfterAudit(g))
  }

  /** The whole gateway, as main wires it. */
  function Gateway(g: Setup): Handler {
    RequestIDMiddleware()(AfterRequestID(g))
  }
}
