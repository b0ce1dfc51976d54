/** The policy question, how the OPA client reads the reply, and the default Rego policy. */
module Policy {
  import opened Wrappers

  const TOOL_CALL: string := "tools/call"

  const DISCOVERY_METHODS: set<string> := {"initialize", "notifications/initialized", "ping", "tools/list"}

  const WILDCARD: string := "*"

  /** The question, as the gateway builds it. */
  datatype Input = Input(clientID: string, rpcMethod: string, toolName: string, scopes: seq<string>)

  /** The JSON document that OPA sees: empty `omitempty` fields are not there. */
  datatype Document = Document(clientID: string, rpcMethod: string, toolName: Option<string>, scopes: Option<seq<string>>)

  function Encode(input: Input): Document {
    Document(
      input.clientID,
      input.rpcMethod,
      if input.toolName == "" then None else Some(input.toolName),
      if input.scopes == [] then None else Some(input.scopes))
  }

  /** Leaving empty fields out loses nothing: different questions are different documents. */
  lemma EncodeIsInjective(a: Input, b: Input)
    requires Encode(a) == Encode(b)
    ensures a == b
  {
  }

  /** `body` is None if it does not decode, and Some(None) if it has no result field. */
  datatype OpaReply = TransportFailed | Reply(status: int, body: Option<Option<bool>>)

  datatype EvaluationError = Unreachable | BadStatus | Undecodable | DecisionUndefined

  function Evaluate(reply: OpaReply): (r: Result<bool, EvaluationError>)
    ensures r == Ok(true) <==> reply == Reply(200, Some(Some(true)))
    ensures r == Ok(false) <==> reply == Reply(200, Some(Some(false)))
  {
    match reply
    case TransportFailed => Err(Unreachable)
    case Reply(status, body) =>
      if status != 200 then Err(BadStatus)
      else
        match body
        case None => Err(Undecodable)
        case Some(None) => Err(DecisionUndefined)
        case Some(Some(allowed)) => Ok(allowed)
  }

  /** data.gateway.permissions: the tools granted to each client. */
  type Permissions = map<string, seq<string>>

  /** The `allow` rule of policies/default.rego. A rule that reads a missing field is undefined. */
  predicate DefaultAllow(permissions: Permissions, doc: Document) {
    || doc.rpcMethod in DISCOVERY_METHODS
    || (doc.rpcMethod == TOOL_CALL && doc.clientID in permissions &&
        exists tool | tool in permissions[doc.clientID] :: doc.toolName == Some(tool))
    || (doc.rpcMethod == TOOL_CALL && doc.clientID in permissions &&
        exists tool | tool in permissions[doc.clientID] :: tool == WILDCARD)
  }

  predicate Granted(permissions: Permissions, clientID: string, tool: string) {
    clientID in permissions && tool in permissions[clientID]
  }

  /** An OPA that has the default policy loaded, if it answers at all, answers with its decision. */
  ghost predicate RunsDefaultPolicy(opa: Input -> OpaReply, permissions: Permissions) {
    forall input :: Evaluate(opa(input)).Ok? ==> Evaluate(opa(input)).value == DefaultAllow(permissions, Encode(input))
  }

  /**
   What the default policy means for a question: a discovery method, or a tool call whose client holds
   a grant for that non-empty tool name, or the wildcard. A call without a tool name needs the wildcard,
   even where the empty name itself is listed among the grants.
   */
  lemma DefaultPolicyMeaning(permissions: Permissions, input: Input)
    ensures DefaultAllow(permissions, Encode(input)) <==>
            || input.rpcMethod in {"initialize", "notifications/initialized", "ping", "tools/list"}
            || (input.rpcMethod == "tools/call" && Granted(permissions, input.clientID, "*"))
            || (input.rpcMethod == "tools/call" && input.toolName != "" && Granted(permissions, input.clientID, input.toolName))
  {
  }

  /** An empty method is never allowed, so a request without a JSON-RPC payload is denied. */
  lemma EmptyMethodIsDenied(permissions: Permissions, input: Input)
    requires input.rpcMethod == ""
    ensures !DefaultAllow(permissions, Encode(input))
  {
  }
}
