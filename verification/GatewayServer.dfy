/**
 The gateway as the objects that serve requests. Every handler changes the request, the response, the
 cache, the audit store and the logs of remote calls step by step, and is proved to do what the layer of
 the same name does on values. What the outside answers comes in as `env`.
 */
module GatewayServer {
  import opened Wrappers
  import opened CacheModel
  import CacheHistory
  import opened TokenCaches
  import Bearer
  import opened Headers
  import opened Http
  import opened HttpObjects
  import opened Policy
  import opened AuditStores
  import opened Chain

  /** Upstream's reply as net/http's client delivers it: canonical header keys, and reads that fit the buffer. */
  ghost predicate Deliverable(reply: UpstreamReply) {
    reply.Answer? ==> IsCanonical(reply.header) && forall c | c in reply.chunks :: |c.data| <= STREAM_BUFFER_SIZE
  }

  class Server {
    const setup: Setup
    const cache: TokenCache
    const store: Store
    var upstream: seq<UpstreamCall>
    var queries: seq<PolicyQuery>

    constructor (setup: Setup, options: seq<CacheHistory.CacheOption>, capacity: nat)
      requires setup.cache == CacheHistory.Configured(options) && capacity >= 1
      ensures Valid() && this.setup == setup
      ensures fresh(cache) && fresh(store) && fresh(store.entries)
      ensures State() == World(map[], [], [], []) && cache.history == [] && store.entries.Length == capacity
    {
      this.setup := setup;
      cache := new TokenCache(options);
      store := new Store(capacity);
      upstream, queries := [], [];
    }

    ghost predicate Valid()
      reads this, cache, store, store.entries
    {
      cache.Valid() && cache.Cfg() == setup.cache && store.Valid()
    }

    /** The clock readings and the map order that the environment will give to this request's cache calls. */
    ghost predicate Timely(env: Env)
      reads this, cache
    {
      && CacheHistory.LastReading(cache.history) <= env.getAt <= env.setAt.prepare
      && env.setAt.Valid()
      && Covers(env.order, cache.entries)
    }

    /** The state that requests share. */
    ghost function State(): World
      reads this, cache, store
    {
      World(cache.entries, store.log, upstream, queries)
    }

    ghost function Now(env: Env, w: ResponseWriter): Scene
      reads this, cache, store, w, w.headers
    {
      Scene(env, State(), w.Value())
    }

    // -------------------------------------------------------------- responses

    method Answer(w: ResponseWriter, contentType: string, status: int, data: string, ghost env: Env)
      modifies w, w.headers
      ensures Now(env, w) == Respond(old(Now(env, w)), contentType, status, data)
    {
      w.headers.SetField(CONTENT_TYPE, contentType);
      w.WriteHeader(status);
      var _ := w.WriteBytes(data);
    }

    method WriteUnauthorized(w: ResponseWriter, description: string, ghost env: Env)
      modifies w, w.headers
      ensures Now(env, w) == Unauthorized(setup, old(Now(env, w)), description)
    {
      w.headers.SetField("WWW-Authenticate", "Bearer error=\"invalid_token\", error_description=\"" + description + "\"");
      Answer(w, JSON_TYPE, STATUS_UNAUTHORIZED, setup.denial("unauthorized", description), env);
    }

    method WriteForbidden(w: ResponseWriter, description: string, ghost env: Env)
      modifies w, w.headers
      ensures Now(env, w) == Forbidden(setup, old(Now(env, w)), description)
    {
      Answer(w, JSON_TYPE, STATUS_FORBIDDEN, setup.denial("forbidden", description), env);
    }

    method WriteJSONRPCError(w: ResponseWriter, code: int, message: string, ghost env: Env)
      modifies w, w.headers
      ensures Now(env, w) == RpcFailure(setup, old(Now(env, w)), code, message)
    {
      Answer(w, JSON_TYPE, STATUS_OK, setup.rpcError(code, message), env);
    }

    method WriteHttpError(w: ResponseWriter, message: string, status: int, ghost env: Env)
      modifies w, w.headers
      ensures Now(env, w) == HttpFailure(old(Now(env, w)), message, status)
    {
      w.headers.DelField("Content-Length");
      w.headers.SetField("X-Content-Type-Options", "nosniff");
      Answer(w, "text/plain; charset=utf-8", status, message + "\n", env);
    }

    // -------------------------------------------------------------- proxy

    /** Builds the upstream request and sends it. */
    method SendUpstream(r: HttpRequest, data: string, streaming: bool, w: ResponseWriter, ghost env: Env)
      requires IsCanonical(r.header)
      modifies this`upstream
      ensures Now(env, w) == CallUpstream(old(Now(env, w)), r.Value(), data, streaming)
    {
      var headers := new HeaderMap(map[]);
      headers.CopyFrom(r.header);
      upstream := upstream + [UpstreamCall(r.verb, r.path, headers.fields, data, streaming, r.info)];
    }

    method ForwardRequest(r: HttpRequest, data: string, w: ResponseWriter, env: Env)
      requires IsCanonical(r.header) && Deliverable(env.upstream)
      modifies this`upstream, w, w.headers
      ensures Now(env, w) == Forward(setup, old(r.Value()), data, old(Now(env, w)))
    {
      if env.upstream.NoRequest? {
        WriteJSONRPCError(w, CODE_INTERNAL_ERROR, "internal proxy error", env);
        return;
      }
      SendUpstream(r, data, false, w, env);
      if env.upstream.Unreachable? {
        WriteJSONRPCError(w, CODE_INTERNAL_ERROR, "upstream server unavailable", env);
        return;
      }
      w.headers.CopyFrom(env.upstream.header);
      w.WriteHeader(env.upstream.status);
      w.CopyBody(env.upstream.chunks);
    }

    method HandleSSE(r: HttpRequest, w: ResponseWriter, env: Env)
      requires IsCanonical(r.header) && Deliverable(env.upstream)
      modifies this`upstream, w, w.headers, r`body
      ensures Now(env, w) == Stream(old(r.Value()), old(Now(env, w)))
    {
      if env.upstream.NoRequest? {
        WriteHttpError(w, "internal proxy error", STATUS_INTERNAL_ERROR, env);
        return;
      }
      var data, _ := r.ReadAll();
      SendUpstream(r, data, true, w, env);
      if env.upstream.Unreachable? {
        WriteHttpError(w, "upstream server unavailable", STATUS_BAD_GATEWAY, env);
        return;
      }
      w.headers.CopyFrom(env.upstream.header);
      w.headers.SetField(CONTENT_TYPE, EVENT_STREAM);
      w.headers.SetField("Cache-Control", "no-cache");
      w.headers.SetField("Connection", "keep-alive");
      w.WriteHeader(env.upstream.status);
      var body := new UpstreamBody(env.upstream.chunks);
      w.RelayStream(body);
    }

    method HandleProxy(r: HttpRequest, w: ResponseWriter, env: Env)
      requires IsCanonical(r.header) && Deliverable(env.upstream)
      modifies this`upstream, w, w.headers, r`body
      ensures Now(env, w) == Proxy(setup, old(r.Value()), old(Now(env, w)))
    {
      if IsSSE(r.Value()) {
        HandleSSE(r, w, env);
        return;
      }
      if r.verb == POST && !IsJson(r.Value()) {
        WriteJSONRPCError(w, CODE_INVALID_REQUEST, "Content-Type must be application/json", env);
        return;
      }
      r.body := Limited(r.body, MAX_REQUEST_SIZE);
      var data, err := r.ReadAll();
      if err == TooLarge {
        WriteJSONRPCError(w, CODE_INVALID_REQUEST, "request body exceeds 1MB limit", env);
        return;
      }
      if err == ReadFailed {
        WriteJSONRPCError(w, CODE_PARSE_ERROR, "failed to read request body", env);
        return;
      }
      if r.verb == POST && |data| > 0 {
        var rpc := Parse(setup, data);
        if rpc.Err? {
          WriteJSONRPCError(w, CODE_PARSE_ERROR, rpc.error, env);
          return;
        }
      }
      ForwardRequest(r, data, w, env);
    }

    method HandleHealth(w: ResponseWriter, ghost env: Env)
      modifies w, w.headers
      ensures Now(env, w) == Health(old(Now(env, w)))
    {
      Answer(w, JSON_TYPE, STATUS_OK, "{\"status\":\"ok\"}", env);
    }

    method ServeMux(r: HttpRequest, w: ResponseWriter, env: Env)
      requires IsCanonical(r.header) && Deliverable(env.upstream)
      modifies this`upstream, w, w.headers, r`body
      ensures Now(env, w) == Mux(setup)(old(r.Value()), old(Now(env, w)))
    {
      if r.path == HEALTH_PATH {
        HandleHealth(w, env);
      } else {
        HandleProxy(r, w, env);
      }
    }

    // -------------------------------------------------------------- policy

    /** Reads the body under the limit and puts back what was read. */
    method ReadBody(r: HttpRequest) returns (data: string, ok: bool)
      modifies r`body
      ensures data == ReadData(Limited(old(r.body), MAX_REQUEST_SIZE))
      ensures ok == (ReadStatus(Limited(old(r.body), MAX_REQUEST_SIZE)) == NoError)
      ensures r.body == Restored(data)
    {
      r.body := Limited(r.body, MAX_REQUEST_SIZE);
      var err;
      data, err := r.ReadAll();
      r.body := Restored(data);
      ok := err == NoError;
    }

    method BuildPolicyInput(r: HttpRequest) returns (question: Option<Input>)
      modifies r`body
      ensures (r.Value(), question) == BuildInput(setup, old(r.Value()))
    {
      if !IsJson(r.Value()) {
        return None;
      }
      var data, ok := ReadBody(r);
      if !ok {
        return None;
      }
      var input := Input("", "", "", []);
      if r.info.Some? {
        input := input.(clientID := r.info.value.clientID, scopes := r.info.value.scopes);
      }
      if |data| == 0 {
        return Some(input);
      }
      var rpc := Parse(setup, data);
      if rpc.Err? {
        return None;
      }
      return Some(input.(rpcMethod := rpc.value.name, toolName := ToolName(setup, rpc.value)));
    }

    method ServePolicy(r: HttpRequest, w: ResponseWriter, env: Env)
      requires IsCanonical(r.header) && Deliverable(env.upstream)
      modifies this`upstream, this`queries, w, w.headers, r`body
      ensures Now(env, w) == AfterAuth(setup)(old(r.Value()), old(Now(env, w)))
    {
      assert AfterAuth(setup)(r.Value(), Now(env, w)) == PolicyLayer(setup, Mux(setup), r.Value(), Now(env, w));
      if r.path == HEALTH_PATH || r.verb != POST {
        ServeMux(r, w, env);
        return;
      }
      var question := BuildPolicyInput(r);
      if question.None? {
        ServeMux(r, w, env);
        return;
      }
      var verdict := Evaluate(env.opa(question.value));
      queries := queries + [PolicyQuery(question.value, verdict)];
      if verdict.Err? {
        WriteForbidden(w, "policy evaluation unavailable", env);
        return;
      }
      if !verdict.value {
        WriteForbidden(w, "denied by policy", env);
        return;
      }
      ServeMux(r, w, env);
    }

    // -------------------------------------------------------------- auth

    /** Passes the request on with the client in its context and in the internal header. */
    method Admit(r: HttpRequest, info: TokenInfo, w: ResponseWriter, env: Env)
      requires IsCanonical(r.header) && Deliverable(env.upstream)
      modifies this`upstream, this`queries, w, w.headers
      ensures Now(env, w)
           == AfterAuth(setup)(r.Value().(info := Some(info)), SetHeader(old(Now(env, w)), AUDIT_CLIENT_ID, info.clientID))
    {
      var admitted := new HttpRequest(r.Value().(info := Some(info)));
      w.headers.SetField(AUDIT_CLIENT_ID, info.clientID);
      ServePolicy(admitted, w, env);
    }

    /** Decides on the token: the cache first, then the introspection service. */
    method CheckToken(header: Header, env: Env) returns (outcome: AuthOutcome)
      requires Valid() && Timely(env)
      modifies cache`entries, cache`history
      ensures Valid()
      ensures (outcome, cache.entries) == Authenticate(setup, header, old(cache.entries), env)
      ensures CacheHistory.LastReading(cache.history) <= env.setAt.commit
    {
      var extracted := Bearer.ExtractBearerToken(Get(header, "Authorization"));
      if extracted.Err? {
        return Refused(FaultMessage(extracted.error));
      }
      var key := setup.hash(extracted.value);
      var found := cache.Get(key, env.getAt);
      if found.Some? {
        return OutcomeOf(setup, found.value);
      }
      if env.introspection.None? {
        return Refused("token verification failed");
      }
      cache.Set(key, env.introspection.value, env.setAt, env.order);
      return OutcomeOf(setup, env.introspection.value);
    }

    method ServeAuth(r: HttpRequest, w: ResponseWriter, env: Env)
      requires Valid() && Timely(env) && IsCanonical(r.header) && Deliverable(env.upstream)
      modifies this`upstream, this`queries, cache`entries, cache`history, w, w.headers, r`body
      ensures Valid() && CacheHistory.LastReading(cache.history) <= env.setAt.commit
      ensures Now(env, w) == AfterAudit(setup)(old(r.Value()), old(Now(env, w)))
    {
      assert AfterAudit(setup)(r.Value(), Now(env, w)) == AuthLayer(setup, AfterAuth(setup), r.Value(), Now(env, w));
      if r.path == HEALTH_PATH {
        ServePolicy(r, w, env);
        return;
      }
      var outcome := CheckToken(r.header, env);
      if outcome.Refused? {
        WriteUnauthorized(w, outcome.description, env);
        return;
      }
      Admit(r, outcome.info, w, env);
    }

    // -------------------------------------------------------------- audit

    /** The method name of a JSON POST, with the body put back for the next reader. */
    method ExtractToolName(r: HttpRequest) returns (name: string)
      modifies r`body
      ensures (r.Value(), name) == ExtractMethod(setup, old(r.Value()))
    {
      if !IsJson(r.Value()) {
        return UNKNOWN;
      }
      var data, err := r.ReadAll();
      r.body := Restored(data);
      if err != NoError {
        return UNKNOWN;
      }
      var rpc := Parse(setup, data);
      if rpc.Err? {
        return UNKNOWN;
      }
      return Truncate(rpc.value.name);
    }

    method NameForAudit(r: HttpRequest) returns (name: string)
      modifies r`body
      ensures (r.Value(), name) == AuditPrepare(setup, old(r.Value()))
    {
      if r.verb == POST {
        r.body := Limited(r.body, MAX_REQUEST_SIZE);
        name := ExtractToolName(r);
      } else {
        name := Truncate(r.verb + " " + r.path);
      }
    }

    /** Appends the audit entry of an answered request. */
    method LogRequest(r: HttpRequest, toolName: string, w: ResponseWriter, env: Env)
      requires store.Valid()
      modifies store, store.entries
      ensures store.Valid() && store.entries == old(store.entries)
      ensures Now(env, w) == Logged(setup, r.Value(), toolName, env, old(Now(env, w)))
    {
      var rec := if w.recorder.Some? then w.recorder.value else FRESH_RECORDER;
      store.Append(EntryFor(setup, r.Value(), toolName, env, rec));
    }

    /** Puts the recorder around the writer, lets auth serve the request, and logs what the recorder saw. */
    method ServeRecorded(r: HttpRequest, w: ResponseWriter, env: Env)
      requires r.path != HEALTH_PATH
      requires Valid() && Timely(env) && IsCanonical(r.header) && Deliverable(env.upstream)
      modifies this`upstream, this`queries, cache`entries, cache`history, store, store.entries, w, w.headers, r`body
      ensures Valid() && store.entries == old(store.entries) && CacheHistory.LastReading(cache.history) <= env.setAt.commit
      ensures Now(env, w) == AuditLayer(setup, AfterAudit(setup), old(r.Value()), old(Now(env, w)))
    {
      ghost var r0, s0 := r.Value(), Now(env, w);
      var toolName := NameForAudit(r);
      w.recorder := Some(FRESH_RECORDER);
      assert Now(env, w) == s0.(w := s0.w.(recorder := Some(FRESH_RECORDER)));
      ServeAuth(r, w, env);
      ghost var s1 := Now(env, w);
      LogRequest(r, toolName, w, env);
      assert Logged(setup, r.Value(), toolName, env, s1) == Logged(setup, r0, toolName, env, s1);
    }

    method ServeAudit(r: HttpRequest, w: ResponseWriter, env: Env)
      requires Valid() && Timely(env) && IsCanonical(r.header) && Deliverable(env.upstream)
      modifies this`upstream, this`queries, cache`entries, cache`history, store, store.entries, w, w.headers, r`body
      ensures Valid() && store.entries == old(store.entries) && CacheHistory.LastReading(cache.history) <= env.setAt.commit
      ensures Now(env, w) == AfterRequestID(setup)(old(r.Value()), old(Now(env, w)))
    {
      assert AfterRequestID(setup)(r.Value(), Now(env, w)) == AuditLayer(setup, AfterAudit(setup), r.Value(), Now(env, w));
      if r.path == HEALTH_PATH {
        ServeAuth(r, w, env);
      } else {
        ServeRecorded(r, w, env);
      }
    }

    // -------------------------------------------------------------- the whole chain

    /** One request through the gateway. */
    method Serve(r: HttpRequest, w: ResponseWriter, env: Env)
      requires Valid() && Timely(env) && IsCanonical(r.header) && Deliverable(env.upstream)
      modifies this`upstream, this`queries, cache`entries, cache`history, store, store.entries, w, w.headers
      ensures Valid() && store.entries == old(store.entries) && CacheHistory.LastReading(cache.history) <= env.setAt.commit
      ensures Now(env, w) == Gateway(setup)(old(r.Value()), old(Now(env, w)))
    {
      var id := Get(r.header, REQUEST_ID);
      if id == "" {
        id := env.freshID;
      } else if |id| > MAX_VALUE_LENGTH {
        id := id[..MAX_VALUE_LENGTH];
      }
      w.headers.SetField(REQUEST_ID, id);
      var identified := new HttpRequest(r.Value().(requestID := id));
      ServeAudit(identified, w, env);
    }
  }
}
