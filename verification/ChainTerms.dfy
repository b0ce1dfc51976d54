/**
 The words in which the promises about the request chain are stated: what a request asks for, what its
 bytes mean, and what a policy question is about. None of them uses the code of a layer; the lemmas say
 that the code means the same.
 */
module ChainTerms {
  import opened Wrappers
  import Bearer
  import opened Headers
  import opened Http
  import opened Policy
  import opened Chain

  ghost predicate Mentions(s: string, part: string) {
    exists pre, post :: s == pre + part + post
  }

  ghost predicate AsksForStream(r: Request) {
    Mentions(Get(r.header, "Accept"), "text/event-stream")
  }

  lemma ContainsMeans(s: string, part: string)
    ensures Contains(s, part) <==> Mentions(s, part)
  {
    if Contains(s, part) {
      var i :| 0 <= i <= |s| && part <= s[i..];
      assert s == s[..i] + part + s[i + |part|..];
    }
    if Mentions(s, part) {
      var pre, post :| s == pre + part + post;
      assert s[|pre|..] == part + post;
    }
  }

  lemma StreamMeans(r: Request)
    ensures IsSSE(r) <==> AsksForStream(r)
  {
    ContainsMeans(Get(r.header, "Accept"), EVENT_STREAM);
  }

  predicate HasJsonType(header: Header) {
    "application/json" <= Get(header, "Content-Type")
  }

  /** The bytes decode to a JSON-RPC 2.0 request with a method. */
  predicate IsRpc(g: Setup, data: string) {
    && g.unmarshal(data).Ok?
    && g.unmarshal(data).value.version == "2.0"
    && g.unmarshal(data).value.name != ""
  }

  lemma ParseMeans(g: Setup, data: string)
    ensures Parse(g, data).Ok? <==> IsRpc(g, data)
    ensures IsRpc(g, data) ==> Parse(g, data).value == g.unmarshal(data).value
  {
  }

  /** What the policy layer can read as JSON-RPC: a JSON content type, and a body that is empty or decodes. */
  predicate IsReadable(g: Setup, header: Header, data: string) {
    HasJsonType(header) && (data == "" || IsRpc(g, data))
  }

  /** The tool that a call names: the name in the params of tools/call, and no name for anything else. */
  predicate IsToolOf(g: Setup, rpc: Rpc, tool: string) {
    if rpc.name == "tools/call" && rpc.params != "" && g.paramsName(rpc.params).Some?
    then g.paramsName(rpc.params) == Some(tool)
    else tool == ""
  }

  /** The question is about this client and these bytes. */
  predicate IsQuestionAbout(g: Setup, input: Input, info: TokenInfo, data: string) {
    && input.clientID == info.clientID && input.scopes == info.scopes
    && if data == "" then input.rpcMethod == "" && input.toolName == ""
       else
         && g.unmarshal(data).Ok?
         && input.rpcMethod == g.unmarshal(data).value.name
         && IsToolOf(g, g.unmarshal(data).value, input.toolName)
  }

  lemma QuestionMeans(g: Setup, info: TokenInfo, data: string, input: Input)
    requires data == "" || Parse(g, data).Ok?
    ensures input == InputFor(g, Some(info), data) <==> IsQuestionAbout(g, input, info, data)
  {
    ParseMeans(g, data);
  }

  /** The engine's answer to the question is a clear yes. */
  predicate SaysYes(opa: Input -> OpaReply, input: Input) {
    opa(input) == Reply(200, Some(Some(true)))
  }

  /** The engine says yes to the question about this client and these bytes. */
  ghost predicate Allows(g: Setup, opa: Input -> OpaReply, info: TokenInfo, data: string) {
    exists input :: IsQuestionAbout(g, input, info, data) && SaysYes(opa, input)
  }

  lemma AllowsMeans(g: Setup, opa: Input -> OpaReply, info: TokenInfo, data: string)
    requires data == "" || Parse(g, data).Ok?
    ensures Allows(g, opa, info, data) <==> Evaluate(opa(InputFor(g, Some(info), data))) == Ok(true)
  {
    var asked := InputFor(g, Some(info), data);
    QuestionMeans(g, info, data, asked);
    if Allows(g, opa, info, data) {
      var input :| IsQuestionAbout(g, input, info, data) && SaysYes(opa, input);
      QuestionMeans(g, info, data, input);
    }
  }

  /** The payload calls a discovery method, or a tool whose non-empty name, or the wildcard, is granted to the client. */
  predicate IsGranted(g: Setup, permissions: Permissions, clientID: string, data: string) {
    && data != "" && IsRpc(g, data)
    && var rpc := g.unmarshal(data).value;
       || rpc.name in {"initialize", "notifications/initialized", "ping", "tools/list"}
       || (rpc.name == "tools/call" &&
             (Granted(permissions, clientID, "*") ||
              (rpc.params != "" && g.paramsName(rpc.params).Some? && g.paramsName(rpc.params).value != "" &&
                 Granted(permissions, clientID, g.paramsName(rpc.params).value))))
  }

  /** Under the default policy a body is allowed exactly when it is granted and the engine answers. */
  lemma DefaultPolicyReads(g: Setup, info: TokenInfo, data: string, opa: Input -> OpaReply, permissions: Permissions)
    requires data == "" || Parse(g, data).Ok?
    requires RunsDefaultPolicy(opa, permissions)
    ensures var reply := Evaluate(opa(InputFor(g, Some(info), data)));
            Allows(g, opa, info, data) <==> reply.Ok? && IsGranted(g, permissions, info.clientID, data)
  {
    var input := InputFor(g, Some(info), data);
    ParseMeans(g, data);
    AllowsMeans(g, opa, info, data);
    DefaultPolicyMeaning(permissions, input);
    if data == "" {
      EmptyMethodIsDenied(permissions, input);
    }
  }

  /** The request carries this bearer token, and it is well formed: 1 to 2048 printable ASCII bytes. */
  predicate Bears(header: Header, token: string) {
    && Get(header, "Authorization") == "Bearer " + token
    && 1 <= |token| <= 2048 && forall c | c in token :: ' ' <= c <= '~'
  }

  lemma BearsMeans(header: Header, token: string)
    ensures Bearer.Extracted(Get(header, "Authorization")) == Ok(token) <==> Bears(header, token)
  {
    var value := Get(header, "Authorization");
    if Bearer.Extracted(value) == Ok(token) {
      assert value == "Bearer " + token;
    }
    if value == "Bearer " + token {
      Bearer.ExtractedOfHeader(token);
    }
  }

  function FirstMiB(data: string): string {
    if |data| <= 1048576 then data else data[..1048576]
  }

  /** The request's body can be read to its end within the limit. */
  predicate FitsLimit(body: Body) {
    |body.data| <= 1048576 && !body.broken
  }

  lemma LimitMeans(body: Body)
    requires body.limit.None?
    ensures ReadData(Limited(body, MAX_REQUEST_SIZE)) == FirstMiB(body.data)
    ensures ReadStatus(Limited(body, MAX_REQUEST_SIZE)) == NoError <==> FitsLimit(body)
    ensures ReadStatus(Limited(body, MAX_REQUEST_SIZE)) == TooLarge <==> |body.data| > 1048576
  {
  }

  function Cut(s: string): string {
    if |s| <= 256 then s else s[..256]
  }

  lemma TruncateMeans(s: string)
    ensures Truncate(s) == Cut(s)
  {
  }

  /** The correlation id: the client's own, cut to 256 bytes, or a fresh one. */
  function CorrelationID(r: Request, env: Env): string {
    var given := Get(r.header, "X-Request-Id");
    if given == "" then env.freshID else Cut(given)
  }

  /** The name to log: the JSON-RPC method of a readable POST, and for other verbs the verb and the path. */
  function LoggedName(g: Setup, r: Request): string {
    if r.verb != "POST" then Cut(r.verb + " " + r.path)
    else if HasJsonType(r.header) && FitsLimit(r.body) && IsRpc(g, r.body.data) then Cut(g.unmarshal(r.body.data).value.name)
    else "unknown"
  }

  lemma LoggedNameMeans(g: Setup, r: Request)
    requires r.body.limit.None?
    ensures AuditPrepare(g, r).1 == LoggedName(g, r)
  {
    LimitMeans(r.body);
    ParseMeans(g, FirstMiB(r.body.data));
    TruncateMeans(r.verb + " " + r.path);
    if IsRpc(g, FirstMiB(r.body.data)) {
      TruncateMeans(g.unmarshal(FirstMiB(r.body.data)).value.name);
    }
  }
}
