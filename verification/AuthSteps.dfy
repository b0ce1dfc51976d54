/**
 Concurrent requests through the auth middleware. Every request is a thread that looks its token up
 in the shared cache, asks the introspection service on a miss, stores the answer, and decides. The
 cache steps of all requests interleave as in `CacheSteps`; the service may answer anything, or fail.
 */
module AuthSteps {
  import opened Wrappers
  import opened CacheModel
  import Cache = CacheSteps

  type RequestID = Cache.Tid

  /** An answer of the introspection service and the request that asked. */
  datatype Introspection = Introspection(request: RequestID, token: string, result: IntrospectionResult, at: Instant)

  datatype Verdict =
    | Accept(clientID: string, scope: string)
    | RejectInactive
    | RejectUnverified

  /** `at` is the clock value the decision rests on: the cache check, or the end of the handler. */
  datatype Decision = Decision(request: RequestID, token: string, verdict: Verdict, at: Instant)

  datatype Phase =
    | Arriving
    | Looking(token: string)
    | Asking(token: string)
    | Storing(token: string, result: IntrospectionResult, source: nat)
    | Committing(token: string, result: IntrospectionResult, source: nat)
    | Decided

  /** `sources` runs parallel to the commits of the cache: the introspection that each one stored. */
  datatype State = State(
    cache: Cache.State,
    phases: map<RequestID, Phase>,
    answers: seq<Introspection>,
    sources: seq<nat>,
    decisions: seq<Decision>)
  {
    function At(t: RequestID): Phase {
      if t in phases then phases[t] else Arriving
    }
  }

  datatype Setup = Setup(cache: Config, hash: string -> Key) {
    /** SHA-256 as the model needs it: different tokens get different keys. */
    ghost predicate Valid() {
      cache.Valid() && forall a, b :: hash(a) == hash(b) ==> a == b
    }
  }

  datatype Step =
    | Tick(to: Instant)
    | Arrive(t: RequestID, token: string)
    | Inside(t: RequestID, step: Cache.Step)
    | TakeLookup(t: RequestID)
    | Introspect(t: RequestID, answer: Option<IntrospectionResult>)
    | Prepare(t: RequestID)
    | Finish(t: RequestID)

  function Initial(start: Instant): State {
    State(Cache.Initial(start), map[], [], [], [])
  }

  function VerdictOf(result: IntrospectionResult): Verdict {
    if result.active then Accept(result.clientID, result.scope) else RejectInactive
  }

  /** The cache steps that a request in this phase takes inside `Get` or `Set`. */
  predicate Permits(setup: Setup, phase: Phase, t: RequestID, step: Cache.Step) {
    match phase
    case Looking(token) => step == Cache.GetLookup(t, setup.hash(token)) || step == Cache.GetCheck(t) || step == Cache.GetDelete(t)
    case Committing(_, _, _) => (step.SetLock? && step.t == t) || step == Cache.SetCommit(t)
    case _ => false
  }

  ghost predicate Enabled(setup: Setup, s: State, step: Step) {
    match step
    case Tick(to) => s.cache.clock <= to
    case Arrive(t, _) => s.At(t).Arriving?
    case Inside(t, inner) => Permits(setup, s.At(t), t, inner) && Cache.Enabled(s.cache, inner)
    case TakeLookup(t) => s.At(t).Looking? && s.cache.At(t).GetDone?
    case Introspect(t, _) => s.At(t).Asking?
    case Prepare(t) => s.At(t).Storing? && s.cache.At(t).Idle?
    case Finish(t) => s.At(t).Committing? && s.cache.At(t).Idle?
  }

  function Decide(s: State, t: RequestID, token: string, verdict: Verdict, at: Instant): State {
    s.(phases := s.phases[t := Decided], decisions := s.decisions + [Decision(t, token, verdict, at)])
  }

  function Next(setup: Setup, s: State, step: Step): State
    requires Enabled(setup, s, step)
  {
    match step
    case Tick(to) => s.(cache := Cache.Next(setup.cache, s.cache, Cache.Tick(to)))

    case Arrive(t, token) => s.(phases := s.phases[t := Looking(token)])

    case Inside(t, inner) =>
      var s' := s.(cache := Cache.Next(setup.cache, s.cache, inner));
      if inner.SetCommit? then s'.(sources := s.sources + [s.At(t).source]) else s'

    case TakeLookup(t) =>
      var token := s.At(t).token;
      var s' := s.(cache := Cache.Next(setup.cache, s.cache, Cache.GetReturn(t)));
      (match s.cache.At(t).hit
       case Some(hit) => Decide(s', t, token, VerdictOf(hit.result), hit.checkedAt)
       case None => s'.(phases := s.phases[t := Asking(token)]))

    case Introspect(t, answer) =>
      var token := s.At(t).token;
      (match answer
       case None => Decide(s, t, token, RejectUnverified, s.cache.clock)
       case Some(result) =>
         s.(phases := s.phases[t := Storing(token, result, |s.answers|)],
            answers := s.answers + [Introspection(t, token, result, s.cache.clock)]))

    case Prepare(t) =>
      var Storing(token, result, source) := s.At(t);
      s.(cache := Cache.Next(setup.cache, s.cache, Cache.SetPrepare(t, setup.hash(token), result)),
         phases := s.phases[t := Committing(token, result, source)])

    case Finish(t) =>
      var Committing(token, result, _) := s.At(t);
      Decide(s, t, token, VerdictOf(result), s.cache.clock)
  }

  ghost predicate IsRun(setup: Setup, steps: seq<Step>, states: seq<State>) {
    && |states| == |steps| + 1
    && states[0] == Initial(states[0].cache.clock)
    && forall i {:trigger steps[i]} | 0 <= i < |steps| :: Enabled(setup, states[i], steps[i]) && states[i + 1] == Next(setup, states[i], steps[i])
  }

  ghost predicate Reaches(setup: Setup, s: State) {
    exists steps, states :: IsRun(setup, steps, states) && states[|steps|] == s
  }

  /** The request holds the answer that the service gave to its own question. */
  predicate Asked(s: State, t: RequestID, token: string, result: IntrospectionResult, source: nat) {
    && source < |s.answers|
    && s.answers[source].request == t
    && s.answers[source].token == token
    && s.answers[source].result == result
    && s.answers[source].at <= s.cache.clock
  }

  /** The cache point of a request belongs to the token the request carries. */
  ghost predicate RequestSound(setup: Setup, s: State, t: RequestID) {
    var local := s.cache.At(t);
    match s.At(t)
    case Looking(token) =>
      && !local.SetPrepared? && !local.SetLocked?
      && (!local.Idle? ==> local.key == setup.hash(token))
    case Storing(token, result, source) => local.Idle? && Asked(s, t, token, result, source)
    case Committing(token, result, source) =>
      && Asked(s, t, token, result, source)
      && (local.Idle? || local.SetPrepared? || local.SetLocked?)
      && (!local.Idle? ==>
            local.key == setup.hash(token) && local.result == result && s.answers[source].at <= local.preparedAt)
    case _ => local.Idle?
  }

  /** Each commit stored an answer about the token that its key stands for, given before. */
  predicate SourceSound(setup: Setup, s: State, i: nat)
    requires i < |s.cache.commits| == |s.sources|
  {
    && s.sources[i] < |s.answers|
    && var a := s.answers[s.sources[i]];
       var c := s.cache.commits[i];
       setup.hash(a.token) == c.key && a.result == c.result && a.at <= c.preparedAt
  }

  /** What each verdict says about the introspection result it rests on. */
  predicate Fits(verdict: Verdict, result: IntrospectionResult) {
    match verdict
    case Accept(clientID, scope) => result.active && clientID == result.clientID && scope == result.scope
    case RejectInactive => !result.active
    case RejectUnverified => false
  }

  /** The answer `a` supports the verdict, and it is this request's own or was cached recently enough. */
  ghost predicate Supports(setup: Setup, s: State, d: Decision, a: nat) {
    && a < |s.answers|
    && s.answers[a].token == d.token
    && Fits(d.verdict, s.answers[a].result)
    && (s.answers[a].request == d.request || exists c: nat :: CachedFor(setup, s, d, a, c))
  }

  predicate CachedFor(setup: Setup, s: State, d: Decision, a: nat, c: nat) {
    && a < |s.answers|
    && c < |s.cache.commits| && c < |s.sources| && s.sources[c] == a
    && d.at - setup.cache.ttl <= s.cache.commits[c].committedAt
    && (s.answers[a].result.expiresAt > 0 ==>
          d.at <= TokenExpiry(s.answers[a].result) + (s.cache.commits[c].committedAt - s.cache.commits[c].preparedAt))
  }

  ghost predicate DecisionSound(setup: Setup, s: State, d: Decision) {
    d.verdict.RejectUnverified? || exists a: nat :: Supports(setup, s, d, a)
  }

  ghost predicate Inv(setup: Setup, s: State) {
    && Cache.Inv(setup.cache, s.cache)
    && |s.sources| == |s.cache.commits|
    && (forall i | 0 <= i < |s.sources| :: SourceSound(setup, s, i))
    && (forall t :: RequestSound(setup, s, t))
    && (forall i | 0 <= i < |s.decisions| :: DecisionSound(setup, s, s.decisions[i]))
  }

  /** Everything a decision rests on is only ever added to. */
  ghost predicate Grows(s: State, s': State) {
    && s.answers <= s'.answers
    && s.sources <= s'.sources
    && s.cache.commits <= s'.cache.commits
  }

  lemma StepGrows(setup: Setup, s: State, step: Step)
    requires Enabled(setup, s, step)
    ensures Grows(s, Next(setup, s, step))
    ensures s.cache.clock <= Next(setup, s, step).cache.clock
  {
  }

  lemma DecisionStaysSound(setup: Setup, s: State, s': State, d: Decision)
    requires DecisionSound(setup, s, d) && Grows(s, s')
    ensures DecisionSound(setup, s', d)
  {
    if !d.verdict.RejectUnverified? {
      var a: nat :| Supports(setup, s, d, a);
      if s.answers[a].request != d.request {
        var c: nat :| CachedFor(setup, s, d, a, c);
        assert CachedFor(setup, s', d, a, c);
      }
      assert Supports(setup, s', d, a);
    }
  }

  lemma CacheStaysSound(setup: Setup, s: State, step: Step)
    requires setup.Valid() && Cache.Inv(setup.cache, s.cache) && Enabled(setup, s, step)
    ensures Cache.Inv(setup.cache, Next(setup, s, step).cache)
  {
    match step
    case Tick(to) => Cache.StepKeepsInv(setup.cache, s.cache, Cache.Tick(to));
    case Inside(_, inner) => Cache.StepKeepsInv(setup.cache, s.cache, inner);
    case TakeLookup(t) => Cache.StepKeepsInv(setup.cache, s.cache, Cache.GetReturn(t));
    case Prepare(t) =>
      var Storing(token, result, _) := s.At(t);
      Cache.StepKeepsInv(setup.cache, s.cache, Cache.SetPrepare(t, setup.hash(token), result));
    case _ =>
  }

  lemma OthersAreUntouched(setup: Setup, s: State, step: Step, t: RequestID)
    requires Enabled(setup, s, step) && (step.Tick? || step.t != t)
    ensures Next(setup, s, step).At(t) == s.At(t)
    ensures Next(setup, s, step).cache.At(t) == s.cache.At(t)
  {
    match step
    case Tick(to) => Cache.OthersKeepPoint(setup.cache, s.cache, Cache.Tick(to), t);
    case Inside(_, inner) => Cache.OthersKeepPoint(setup.cache, s.cache, inner, t);
    case TakeLookup(actor) => Cache.OthersKeepPoint(setup.cache, s.cache, Cache.GetReturn(actor), t);
    case Prepare(actor) =>
      var Storing(token, result, _) := s.At(actor);
      Cache.OthersKeepPoint(setup.cache, s.cache, Cache.SetPrepare(actor, setup.hash(token), result), t);
    case _ =>
  }

  lemma RequestStaysSound(setup: Setup, s: State, step: Step, t: RequestID)
    requires setup.Valid() && Enabled(setup, s, step) && RequestSound(setup, s, t)
    ensures RequestSound(setup, Next(setup, s, step), t)
  {
    StepGrows(setup, s, step);
    if step.Tick? || step.t != t {
      OthersAreUntouched(setup, s, step, t);
    } else if step.Inside? {
      InsideKeepsRequest(setup, s, t, step.step);
    }
  }

  lemma InsideKeepsRequest(setup: Setup, s: State, t: RequestID, inner: Cache.Step)
    requires Enabled(setup, s, Inside(t, inner)) && RequestSound(setup, s, t)
    ensures RequestSound(setup, Next(setup, s, Inside(t, inner)), t)
  {
    var s' := Next(setup, s, Inside(t, inner));
    Cache.ActorKeepsKey(setup.cache, s.cache, inner);
    assert s'.At(t) == s.At(t) && s'.answers == s.answers && s'.cache == Cache.Next(setup.cache, s.cache, inner);
  }

  lemma SourcesStaySound(setup: Setup, s: State, step: Step)
    requires setup.Valid() && Enabled(setup, s, step) && |s.sources| == |s.cache.commits|
    requires forall i | 0 <= i < |s.sources| :: SourceSound(setup, s, i)
    requires step.Inside? ==> RequestSound(setup, s, step.t)
    ensures var s' := Next(setup, s, step);
            |s'.sources| == |s'.cache.commits| && forall i | 0 <= i < |s'.sources| :: SourceSound(setup, s', i)
  {
    var s' := Next(setup, s, step);
    StepGrows(setup, s, step);
    CommitsCome(setup, s, step);
    forall i | 0 <= i < |s'.sources| ensures SourceSound(setup, s', i) {
      if i < |s.sources| {
        assert SourceSound(setup, s, i);
      }
    }
  }

  /** Only a commit adds to the commits, and it adds what its request was storing. */
  lemma CommitsCome(setup: Setup, s: State, step: Step)
    requires Enabled(setup, s, step)
    ensures var s' := Next(setup, s, step);
            if step.Inside? && step.step.SetCommit? then
              var local := s.cache.At(step.t);
              && s.At(step.t).Committing? && local.SetLocked? && s'.sources == s.sources + [s.At(step.t).source]
              && s'.cache.commits == s.cache.commits +
                   [Cache.Commit(local.key, local.result, local.preparedAt, s.cache.clock, s.cache.clock + local.lifetime)]
            else
              s'.sources == s.sources && s'.cache.commits == s.cache.commits
  {
  }

  /** A verdict taken from the cache rests on the introspection that the hit entry came from. */
  lemma CachedVerdictIsSound(setup: Setup, s: State, t: RequestID)
    requires setup.Valid() && Inv(setup, s) && Enabled(setup, s, TakeLookup(t)) && s.cache.At(t).hit.Some?
    ensures var hit := s.cache.At(t).hit.value;
            DecisionSound(setup, s, Decision(t, s.At(t).token, VerdictOf(hit.result), hit.checkedAt))
  {
    var hit := s.cache.At(t).hit.value;
    var d := Decision(t, s.At(t).token, VerdictOf(hit.result), hit.checkedAt);
    assert RequestSound(setup, s, t) && Cache.LocalSound(setup.cache, s.cache, t);
    var c := Cache.SoundHitIsFresh(setup.cache, s.cache, hit);
    assert SourceSound(setup, s, c);
    assert CachedFor(setup, s, d, s.sources[c], c);
    assert Supports(setup, s, d, s.sources[c]);
  }

  lemma DecisionsStaySound(setup: Setup, s: State, step: Step, i: nat)
    requires setup.Valid() && Inv(setup, s) && Enabled(setup, s, step)
    requires i < |Next(setup, s, step).decisions|
    ensures DecisionSound(setup, Next(setup, s, step), Next(setup, s, step).decisions[i])
  {
    var s' := Next(setup, s, step);
    StepGrows(setup, s, step);
    if i < |s.decisions| {
      DecisionStaysSound(setup, s, s', s.decisions[i]);
    } else {
      assert RequestSound(setup, s, step.t);
      if step.TakeLookup? {
        CachedVerdictIsSound(setup, s, step.t);
        DecisionStaysSound(setup, s, s', s'.decisions[i]);
      } else if step.Finish? {
        assert Supports(setup, s', s'.decisions[i], s.At(step.t).source);
      }
    }
  }

  lemma StepKeepsInv(setup: Setup, s: State, step: Step)
    requires setup.Valid() && Inv(setup, s) && Enabled(setup, s, step)
    ensures Inv(setup, Next(setup, s, step))
  {
    var s' := Next(setup, s, step);
    CacheStaysSound(setup, s, step);
    forall t ensures RequestSound(setup, s', t) {
      RequestStaysSound(setup, s, step, t);
    }
    if step.Inside? {
      assert RequestSound(setup, s, step.t);
    }
    SourcesStaySound(setup, s, step);
    forall i | 0 <= i < |s'.decisions| ensures DecisionSound(setup, s', s'.decisions[i]) {
      DecisionsStaySound(setup, s, step, i);
    }
  }

  lemma {:induction false} RunKeepsInv(setup: Setup, steps: seq<Step>, states: seq<State>, i: nat)
    requires setup.Valid() && IsRun(setup, steps, states) && i < |states|
    ensures Inv(setup, states[i])
  {
    if i > 0 {
      RunKeepsInv(setup, steps, states, i - 1);
      assert Enabled(setup, states[i - 1], steps[i - 1]);
      StepKeepsInv(setup, states[i - 1], steps[i - 1]);
    }
  }

  /**
   Bounded staleness. In every run, every accepted request rests on an active answer of the introspection
   service about that very token and names that answer's client and scope, and every request rejected as
   inactive rests on an inactive one: an answer to this request, or one that was committed to the cache no earlier than the TTL before the decision. The exp claim is
   overrun by at most the time between the two clock readings of the `Set` that cached it.
   */
  lemma BoundedStaleness(setup: Setup, s: State, d: Decision)
    requires setup.Valid() && Reaches(setup, s) && d in s.decisions
    ensures d.verdict.RejectUnverified? || exists a: nat :: Supports(setup, s, d, a)
  {
    var steps, states :| IsRun(setup, steps, states) && states[|steps|] == s;
    RunKeepsInv(setup, steps, states, |steps|);
    var i :| 0 <= i < |s.decisions| && s.decisions[i] == d;
    assert DecisionSound(setup, s, s.decisions[i]);
  }

  /**
   What a lookup decides, in every run. A hit decides the request at once, as the result of the latest
   commit under the token's key when the map was read says, at the clock value of the check. A miss
   decides nothing and sends the request on to the introspection service.
   */
  lemma LookupDecides(setup: Setup, steps: seq<Step>, states: seq<State>, i: nat, t: RequestID)
    requires setup.Valid() && IsRun(setup, steps, states) && i < |steps| && steps[i] == TakeLookup(t)
    ensures states[i].At(t).Looking? && states[i].cache.At(t).GetDone?
    ensures var s, s' := states[i], states[i + 1];
            var token := s.At(t).token;
            match s.cache.At(t).hit
            case None => s'.decisions == s.decisions && s'.At(t) == Asking(token)
            case Some(hit) =>
              && |s'.decisions| == |s.decisions| + 1 && s.decisions <= s'.decisions
              && var d := s'.decisions[|s.decisions|];
                 && d.request == t && d.token == token && d.at == hit.checkedAt && s'.At(t) == Decided
                 && exists c: nat :: Cache.FreshHit(setup.cache, s.cache.commits, hit, c) &&
                      s.cache.commits[c].key == setup.hash(token) && Fits(d.verdict, s.cache.commits[c].result)
  {
    RunKeepsInv(setup, steps, states, i);
    var s := states[i];
    assert Enabled(setup, s, steps[i]) && RequestSound(setup, s, t) && Cache.LocalSound(setup.cache, s.cache, t);
    if s.cache.At(t).hit.Some? {
      var c := Cache.SoundHitIsFresh(setup.cache, s.cache, s.cache.At(t).hit.value);
    }
  }

  /** What the end of a handler decides, in every run: as the answer to this request's own question says. */
  lemma FinishDecides(setup: Setup, steps: seq<Step>, states: seq<State>, i: nat, t: RequestID)
    requires setup.Valid() && IsRun(setup, steps, states) && i < |steps| && steps[i] == Finish(t)
    ensures states[i].At(t).Committing?
    ensures var s, s' := states[i], states[i + 1];
            && |s'.decisions| == |s.decisions| + 1 && s.decisions <= s'.decisions
            && var d := s'.decisions[|s.decisions|];
               && d.request == t && d.token == s.At(t).token && d.at == s.cache.clock && s'.At(t) == Decided
               && exists a: nat :: a < |s.answers| && s.answers[a].request == t && s.answers[a].token == d.token &&
                    Fits(d.verdict, s.answers[a].result)
  {
    RunKeepsInv(setup, steps, states, i);
    var s := states[i];
    assert Enabled(setup, s, steps[i]) && RequestSound(setup, s, t);
    assert s.answers[s.At(t).source].request == t;
  }

  /** What an answer of the service does, in every run: it is recorded with the token that the request carries, and decides nothing yet. */
  lemma AnswerIsRecorded(setup: Setup, steps: seq<Step>, states: seq<State>, i: nat, t: RequestID, result: IntrospectionResult)
    requires IsRun(setup, steps, states) && i < |steps| && steps[i] == Introspect(t, Some(result))
    ensures var s, s' := states[i], states[i + 1];
            && s.At(t).Asking?
            && s'.answers == s.answers + [Introspection(t, s.At(t).token, result, s.cache.clock)]
            && s'.decisions == s.decisions && s'.cache == s.cache
            && s'.At(t) == Storing(s.At(t).token, result, |s.answers|)
  {
    assert Enabled(setup, states[i], steps[i]);
  }

  /** The cache inside these runs is a cache of `CacheSteps`, so all that is proved there of reachable caches holds. */
  lemma {:induction false} CacheIsReachable(setup: Setup, steps: seq<Step>, states: seq<State>, i: nat)
    requires IsRun(setup, steps, states) && i < |states|
    ensures Cache.Reaches(setup.cache, states[i].cache)
  {
    if i == 0 {
      var none: seq<Cache.Step>, start := [], [states[0].cache];
      assert Cache.IsRun(setup.cache, none, start) && start[|none|] == states[0].cache;
    } else {
      CacheIsReachable(setup, steps, states, i - 1);
      var s := states[i - 1];
      assert Enabled(setup, s, steps[i - 1]);
      match steps[i - 1]
      case Tick(to) => Cache.ReachesNext(setup.cache, s.cache, Cache.Tick(to));
      case Inside(_, inner) => Cache.ReachesNext(setup.cache, s.cache, inner);
      case TakeLookup(t) => Cache.ReachesNext(setup.cache, s.cache, Cache.GetReturn(t));
      case Prepare(t) =>
        Cache.ReachesNext(setup.cache, s.cache, Cache.SetPrepare(t, setup.hash(s.At(t).token), s.At(t).result));
      case _ =>
    }
  }

  /** A failed introspection rejects the request and changes nothing that other requests can see. */
  lemma FailedIntrospectionFailsClosed(setup: Setup, s: State, t: RequestID)
    requires Enabled(setup, s, Introspect(t, None))
    ensures var s' := Next(setup, s, Introspect(t, None));
            && s'.cache == s.cache && s'.answers == s.answers && s'.sources == s.sources
            && |s'.decisions| == |s.decisions| + 1
            && s'.decisions[|s.decisions|] == Decision(t, s.At(t).token, RejectUnverified, s.cache.clock)
            && s'.At(t).Decided?
  {
  }

  /** Requests in these phases have asked the introspection service, or are over. */
  predicate IsPastAsking(phase: Phase) {
    phase.Storing? || phase.Committing? || phase.Decided?
  }

  /** Every request is decided at most once, and one that was rejected unverified never got an answer. */
  predicate Closed(s: State) {
    && (forall i | 0 <= i < |s.decisions| :: s.At(s.decisions[i].request).Decided?)
    && (forall i, j | 0 <= i < j < |s.decisions| :: s.decisions[i].request != s.decisions[j].request)
    && (forall a | 0 <= a < |s.answers| :: IsPastAsking(s.At(s.answers[a].request)))
    && (forall i, a | 0 <= i < |s.decisions| && 0 <= a < |s.answers| ::
          s.decisions[i].verdict.RejectUnverified? ==> s.answers[a].request != s.decisions[i].request)
  }

  /** Deciding a request that is not over closes it; without a verdict on an answer it must not have one. */
  lemma DecideKeepsClosed(s: State, t: RequestID, token: string, verdict: Verdict, at: Instant)
    requires Closed(s) && !s.At(t).Decided?
    requires verdict.RejectUnverified? ==> s.At(t).Asking?
    ensures Closed(Decide(s, t, token, verdict, at))
  {
  }

  /** A request in mid-course moves on without losing what it has. */
  lemma AdvanceKeepsClosed(s: State, s': State, t: RequestID)
    requires Closed(s) && !s.At(t).Decided?
    requires s'.decisions == s.decisions && s'.phases == s.phases[t := s'.At(t)] && !s'.At(t).Decided?
    requires IsPastAsking(s.At(t)) ==> IsPastAsking(s'.At(t))
    requires s'.answers == s.answers || (IsPastAsking(s'.At(t)) && AddsAnswerOf(s, s', t))
    ensures Closed(s')
  {
  }

  predicate AddsAnswerOf(s: State, s': State, t: RequestID) {
    |s'.answers| == |s.answers| + 1 && s.answers <= s'.answers && s'.answers[|s.answers|].request == t
  }

  lemma StepKeepsClosed(setup: Setup, s: State, step: Step)
    requires Closed(s) && Enabled(setup, s, step)
    ensures Closed(Next(setup, s, step))
  {
    var s' := Next(setup, s, step);
    match step
    case Tick(_) =>
    case Inside(_, _) =>
    case Arrive(t, _) => AdvanceKeepsClosed(s, s', t);
    case Prepare(t) => AdvanceKeepsClosed(s, s', t);
    case TakeLookup(t) =>
      var s1 := s.(cache := Cache.Next(setup.cache, s.cache, Cache.GetReturn(t)));
      if s.cache.At(t).hit.Some? {
        var hit := s.cache.At(t).hit.value;
        DecideKeepsClosed(s1, t, s.At(t).token, VerdictOf(hit.result), hit.checkedAt);
      } else {
        AdvanceKeepsClosed(s, s', t);
      }
    case Introspect(t, answer) =>
      if answer.None? {
        DecideKeepsClosed(s, t, s.At(t).token, RejectUnverified, s.cache.clock);
      } else {
        AdvanceKeepsClosed(s, s', t);
      }
    case Finish(t) => DecideKeepsClosed(s, t, s.At(t).token, VerdictOf(s.At(t).result), s.cache.clock);
  }

  lemma {:induction false} RunKeepsClosed(setup: Setup, steps: seq<Step>, states: seq<State>, i: nat)
    requires IsRun(setup, steps, states) && i < |states|
    ensures Closed(states[i])
  {
    if i > 0 {
      RunKeepsClosed(setup, steps, states, i - 1);
      assert Enabled(setup, states[i - 1], steps[i - 1]);
      StepKeepsClosed(setup, states[i - 1], steps[i - 1]);
    }
  }

  lemma {:induction false} DecisionsStay(setup: Setup, steps: seq<Step>, states: seq<State>, i: nat, j: nat)
    requires IsRun(setup, steps, states) && i <= j < |states|
    ensures states[i].decisions <= states[j].decisions
  {
    if i < j {
      DecisionsStay(setup, steps, states, i, j - 1);
      assert Enabled(setup, states[j - 1], steps[j - 1]);
    }
  }

  /**
   A failed introspection fails closed for good. Once it has happened to a request, then in every later
   state of every run the request has that rejection as its only decision, and no commit to the cache
   ever stored an answer to it.
   */
  lemma FailedIntrospectionIsFinal(setup: Setup, steps: seq<Step>, states: seq<State>, i: nat, j: nat, t: RequestID)
    requires setup.Valid() && IsRun(setup, steps, states)
    requires i < j < |states| && steps[i] == Introspect(t, None)
    ensures states[i].At(t).Asking?
    ensures var d := Decision(t, states[i].At(t).token, RejectUnverified, states[i].cache.clock);
            d in states[j].decisions && forall other | other in states[j].decisions && other.request == t :: other == d
    ensures var s := states[j];
            |s.sources| == |s.cache.commits| && forall c | 0 <= c < |s.sources| ::
              s.sources[c] < |s.answers| && s.answers[s.sources[c]].request != t
  {
    var s := states[j];
    assert Enabled(setup, states[i], steps[i]);
    FailedIntrospectionFailsClosed(setup, states[i], t);
    var d := states[i + 1].decisions[|states[i].decisions|];
    DecisionsStay(setup, steps, states, i + 1, j);
    assert d == s.decisions[|states[i].decisions|];
    RunKeepsInv(setup, steps, states, j);
    RunKeepsClosed(setup, steps, states, j);
    forall c | 0 <= c < |s.sources| ensures s.sources[c] < |s.answers| && s.answers[s.sources[c]].request != t {
      assert SourceSound(setup, s, c);
    }
  }
}
