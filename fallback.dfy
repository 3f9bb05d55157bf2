/**
 * `ModelFallbackOrchestrator`: pick the enabled models in priority order
 * and try each of them up to `maxRetries + 1` times, waiting between the
 * attempts of one model, until one of them returns a non-empty reply.
 *
 * The remote models are the parameter `server`: `server(i, a, req)` is
 * what the `i`-th prioritised model answers to request `req` on its
 * `a`-th attempt.  Waits are counted, not timed.  Every user-visible
 * feedback message is recorded in order.
 */
module Fallback {
  import opened Wrappers
  import opened Text
  import opened Sorting
  import opened ModelRegistry
  import opened AIProviders

  const RetryDelaySeconds: nat := 5
  const MaxRetriesPerModel: nat := 1

  /** `MODEL_PRIORITY`, with 0 for ids it does not list. */
  function Priority(id: string): int {
    if id == "gemini-1.5-pro" then 100
    else if id == "grok-2-1212" then 95
    else if id == "groq-llama-70b" then 90
    else if id == "claude-3.5-sonnet-openrouter" then 85
    else if id == "gemini-1.5-flash" then 80
    else if id == "deepseek-r1-openrouter" then 75
    else if id == "llama-3.3-70b-openrouter" then 70
    else if id == "gpt-4" then 60
    else if id == "groq-llama-8b" then 50
    else if id == "groq-mixtral" then 40
    else if id == "qwen3-72b-openrouter" then 30
    else 0
  }

  function PriorityOf(m: ModelConfig): int { Priority(m.id) }

  /** `m.get('enabled', False)` is truthy: a missing flag means disabled. */
  predicate EnabledStrict(m: ModelConfig) { m.enabled == Some(true) }

  function EnabledModels(ms: seq<ModelConfig>): (r: seq<ModelConfig>)
    ensures forall m :: m in r <==> m in ms && EnabledStrict(m)
  {
    if |ms| == 0 then []
    else (if EnabledStrict(ms[0]) then [ms[0]] else []) + EnabledModels(ms[1..])
  }

  /** The filter keeps order and multiplicity: filtering a concatenation filters each part. */
  lemma {:induction false} EnabledModelsAppend(a: seq<ModelConfig>, b: seq<ModelConfig>)
    ensures EnabledModels(a + b) == EnabledModels(a) + EnabledModels(b)
    decreases |a|
  {
    if |a| == 0 {
      assert a + b == b;
    } else {
      assert (a + b)[0] == a[0] && (a + b)[1..] == a[1..] + b;
      EnabledModelsAppend(a[1..], b);
    }
  }

  /** A single entry is kept exactly when it passes the test. */
  lemma EnabledModelsSingle(x: ModelConfig)
    ensures EnabledModels([x]) == if EnabledStrict(x) then [x] else []
  {
    assert [x][1..] == [];
  }

  /** `_get_prioritized_models`. */
  function Prioritized(registry: seq<ModelConfig>): seq<ModelConfig> {
    SortDesc(EnabledModels(registry), PriorityOf)
  }

  /**
   * The candidates are exactly the enabled models, in descending priority,
   * and equal priorities keep the order of the enabled list, which itself
   * keeps registry order and multiplicity (`EnabledModelsAppend`,
   * `EnabledModelsSingle`).
   */
  lemma PrioritizedSpec(registry: seq<ModelConfig>)
    ensures forall m :: m in Prioritized(registry) <==> m in registry && EnabledStrict(m)
    ensures multiset(Prioritized(registry)) == multiset(EnabledModels(registry))
    ensures SortedDesc(Prioritized(registry), PriorityOf)
    ensures forall k :: WithKey(Prioritized(registry), PriorityOf, k) == WithKey(EnabledModels(registry), PriorityOf, k)
  {
    var e := EnabledModels(registry);
    SortDescPermutation(e, PriorityOf);
    SortDescSorted(e, PriorityOf);
    forall k ensures WithKey(Prioritized(registry), PriorityOf, k) == WithKey(e, PriorityOf, k) {
      SortDescStable(e, PriorityOf, k);
    }
    forall m ensures m in Prioritized(registry) <==> m in e {
      assert m in multiset(Prioritized(registry)) <==> m in multiset(e);
    }
  }

  // ---------------------------------------------------------------
  // One attempt (`_try_model`)
  // ---------------------------------------------------------------

  /** `model_config.get('schema', model_config.get('provider'))`. */
  function SchemaTag(m: ModelConfig): Option<string> {
    match m.schema
    case Some(v) => v
    case None => Some(m.provider)
  }

  /** Whether an attempt reaches the remote model: a supported tag and a non-empty API key. */
  predicate MakesCall(m: ModelConfig) {
    ProviderKind(SchemaTag(m)).Ok? && Truthy(m.apiKey)
  }

  /** The text an attempt yields, `None` for every kind of failure. */
  function AttemptResult(m: ModelConfig, i: nat, a: nat, system: string, user: string,
                         server: (nat, nat, Request) -> Outcome): (r: Option<string>)
    ensures r.Some? ==> MakesCall(m) && r.value != ""
    ensures !MakesCall(m) ==> r.None?
  {
    match ProviderKind(SchemaTag(m))
    case Err(_) => None
    case Ok(k) =>
      if !Truthy(m.apiKey) then None
      else match server(i, a, TextRequestOf(k, m.modelId, user, Some(system)))
        case Success(t) => if t != "" then Some(t) else None
        case Failure(_) => None
  }

  /**
   * `_try_model`: build a driver, configure it, ask it; any exception,
   * missing key or empty reply is `None`.
   */
  method TryModel(m: ModelConfig, i: nat, a: nat, system: string, user: string,
                  server: (nat, nat, Request) -> Outcome) returns (r: Option<string>, called: bool)
    ensures r == AttemptResult(m, i, a, system, user, server)
    ensures called <==> MakesCall(m)
  {
    var p := GetProvider(SchemaTag(m));
    if p.Err? {
      return None, false;
    }
    if !Truthy(m.apiKey) {
      return None, false;
    }
    var provider := p.value;
    provider.Configure(m.apiKey.value, m.modelId, if Truthy(m.baseUrl) then m.baseUrl else None);
    var reply := provider.GenerateText(user, Some(system), req => server(i, a, req));
    called := true;
    r := if reply.Ok? && reply.value != "" then Some(reply.value) else None;
  }

  // ---------------------------------------------------------------
  // The fallback loop (`execute_with_fallback`)
  // ---------------------------------------------------------------

  /** The messages sent to the feedback callback. */
  datatype Feedback =
    | Trying(model: string)
    | Retrying(model: string, attempt: nat, maxAttempts: nat)
    | Switching(model: string)
    | Waiting(seconds: nat)
    | Succeeded(model: string)
    | AllFailed

  /** `UserFeedbackMessages` rendered. */
  function FeedbackText(f: Feedback): string {
    match f
    case Trying(n) => "🤖 Intentando con " + n + "..."
    case Retrying(n, a, mx) => "🔄 Reintentando con " + n + " (intento " + NatToString(a) + "/" + NatToString(mx) + ")..."
    case Switching(n) => "⚠️ Cambiando a modelo alternativo: " + n
    case Waiting(s) => "⏳ Esperando " + NatToString(s) + " segundos antes de reintentar..."
    case Succeeded(n) => "✅ Consulta generada correctamente con " + n
    case AllFailed => AllModelsFailedText
  }

  const AllModelsFailedText: string :=
    "❌ No se pudo generar la consulta con ningún modelo disponible. Por favor, inténtalo más tarde."

  /** What a run did besides its result: feedback, waits, remote calls and the id of each attempt. */
  datatype Trace = Trace(events: seq<Feedback>, waits: nat, calls: nat, tried: seq<string>)

  datatype Run = Run(response: Option<string>, modelId: Option<string>, trace: Trace)

  function Then(t: Trace, u: Trace): Trace {
    Trace(t.events + u.events, t.waits + u.waits, t.calls + u.calls, t.tried + u.tried)
  }

  function Prepend(t: Trace, r: Run): Run { r.(trace := Then(t, r.trace)) }

  /**
   * What each attempt yields: `Attempts(ms, system, user, server)(i, a)`
   * is the result of attempt `a` of candidate `i`.  The run below depends
   * on the remote models only through these results.
   */
  function Attempts(ms: seq<ModelConfig>, system: string, user: string,
                    server: (nat, nat, Request) -> Outcome): (nat, nat) -> Option<string>
  {
    (i: nat, a: nat) => if i < |ms| then AttemptResult(ms[i], i, a, system, user, server) else None
  }

  /** The run from the start of model `i` onward (including its SWITCHING message). */
  function FromModel(ms: seq<ModelConfig>, maxRetries: nat, delay: nat, results: (nat, nat) -> Option<string>,
                     i: nat): Run
    requires i <= |ms|
    decreases |ms| - i, maxRetries + 1
  {
    if i == |ms| then Run(None, None, Trace([AllFailed], 0, 0, []))
    else
      var sw := if i > 0 then [Switching(ms[i].name)] else [];
      Prepend(Trace(sw, 0, 0, []), FromAttempt(ms, maxRetries, delay, results, i, 1))
  }

  /** The TRYING or RETRYING message of attempt `a`, its call if the model makes one, and the model's id. */
  function AttemptTrace(m: ModelConfig, a: nat, maxRetries: nat): Trace {
    var ev := if a == 1 then Trying(m.name) else Retrying(m.name, a, maxRetries + 1);
    Trace([ev], 0, if MakesCall(m) then 1 else 0, [m.id])
  }

  /** The run from attempt `a` of model `i` onward. */
  function FromAttempt(ms: seq<ModelConfig>, maxRetries: nat, delay: nat, results: (nat, nat) -> Option<string>,
                       i: nat, a: nat): Run
    requires i < |ms| && 1 <= a <= maxRetries + 1
    decreases |ms| - i, maxRetries + 1 - a
  {
    var m := ms[i];
    var step := AttemptTrace(m, a, maxRetries);
    var resp := results(i, a);
    if resp.Some? then Run(resp, Some(m.id), Then(step, Trace([Succeeded(m.name)], 0, 0, [])))
    else if a < maxRetries + 1 then
      Prepend(Then(step, Trace([Waiting(delay)], 1, 0, [])),
              FromAttempt(ms, maxRetries, delay, results, i, a + 1))
    else Prepend(step, FromModel(ms, maxRetries, delay, results, i + 1))
  }

  /** The specification of `execute_with_fallback` over a registry snapshot. */
  function FallbackRun(registry: seq<ModelConfig>, maxRetries: nat, delay: nat, system: string, user: string,
                       server: (nat, nat, Request) -> Outcome): Run
  {
    var ms := Prioritized(registry);
    FromModel(ms, maxRetries, delay, Attempts(ms, system, user, server), 0)
  }

  lemma PrependThen(t: Trace, u: Trace, r: Run)
    ensures Prepend(Then(t, u), r) == Prepend(t, Prepend(u, r))
  {}

  /** `execute_with_fallback`: the candidates in priority order, then the fallback loop over them. */
  method ExecuteWithFallback(registry: seq<ModelConfig>, maxRetries: nat, delay: nat, system: string, user: string,
                             server: (nat, nat, Request) -> Outcome) returns (run: Run)
    ensures run == FallbackRun(registry, maxRetries, delay, system, user, server)
  {
    var ms := Prioritized(registry);
    run := RunCandidates(ms, maxRetries, delay, system, user, server);
  }

  /** The loop over the candidates `ms`, each after a SWITCHING message but the first. */
  method RunCandidates(ms: seq<ModelConfig>, maxRetries: nat, delay: nat, system: string, user: string,
                       server: (nat, nat, Request) -> Outcome) returns (run: Run)
    ensures run == FromModel(ms, maxRetries, delay, Attempts(ms, system, user, server), 0)
  {
    ghost var results := Attempts(ms, system, user, server);
    ghost var goal := FromModel(ms, maxRetries, delay, results, 0);
    var acc := Trace([], 0, 0, []);
    var i := 0;
    while i < |ms|
      invariant 0 <= i <= |ms|
      invariant Prepend(acc, FromModel(ms, maxRetries, delay, results, i)) == goal
    {
      var sw := Trace(if i > 0 then [Switching(ms[i].name)] else [], 0, 0, []);
      PrependThen(acc, sw, FromAttempt(ms, maxRetries, delay, results, i, 1));
      var resp, t := TryCandidate(ms, maxRetries, delay, system, user, server, i);
      if resp.Some? {
        return Run(resp, Some(ms[i].id), Then(Then(acc, sw), t));
      }
      PrependThen(Then(acc, sw), t, FromModel(ms, maxRetries, delay, results, i + 1));
      acc := Then(Then(acc, sw), t);
      i := i + 1;
    }
    run := Prepend(acc, Run(None, None, Trace([AllFailed], 0, 0, [])));
  }

  /**
   * The attempts of candidate `i`, with a wait after each failed one but
   * the last: the reply and what was done up to it, or `None` and what
   * was done before moving to the next candidate.
   */
  method TryCandidate(ms: seq<ModelConfig>, maxRetries: nat, delay: nat, system: string, user: string,
                      server: (nat, nat, Request) -> Outcome, i: nat) returns (resp: Option<string>, t: Trace)
    requires i < |ms|
    ensures var results := Attempts(ms, system, user, server);
      && (resp.Some? ==> FromAttempt(ms, maxRetries, delay, results, i, 1) == Run(resp, Some(ms[i].id), t))
      && (resp.None? ==> FromAttempt(ms, maxRetries, delay, results, i, 1)
                         == Prepend(t, FromModel(ms, maxRetries, delay, results, i + 1)))
  {
    ghost var results := Attempts(ms, system, user, server);
    ghost var goal := FromAttempt(ms, maxRetries, delay, results, i, 1);
    t := Trace([], 0, 0, []);
    var a := 1;
    while true
      invariant 1 <= a <= maxRetries + 1
      invariant Prepend(t, FromAttempt(ms, maxRetries, delay, results, i, a)) == goal
      decreases maxRetries + 1 - a
    {
      var r, step := AttemptOnce(ms, maxRetries, system, user, server, i, a);
      if r.Some? {
        return r, Then(t, Then(step, Trace([Succeeded(ms[i].name)], 0, 0, [])));
      }
      if a == maxRetries + 1 {
        LastAttemptStep(ms, maxRetries, delay, results, i, a);
        PrependThen(t, step, FromModel(ms, maxRetries, delay, results, i + 1));
        return None, Then(t, step);
      }
      var wait := Trace([Waiting(delay)], 1, 0, []);
      RetryStep(ms, maxRetries, delay, results, i, a);
      PrependThen(t, Then(step, wait), FromAttempt(ms, maxRetries, delay, results, i, a + 1));
      t := Then(t, Then(step, wait));
      a := a + 1;
    }
  }

  /** Attempt `a` of candidate `i`: its TRYING or RETRYING message, then `_try_model`. */
  method AttemptOnce(ms: seq<ModelConfig>, maxRetries: nat, system: string, user: string,
                     server: (nat, nat, Request) -> Outcome, i: nat, a: nat) returns (r: Option<string>, step: Trace)
    requires i < |ms|
    ensures r == Attempts(ms, system, user, server)(i, a)
    ensures step == AttemptTrace(ms[i], a, maxRetries)
  {
    var m := ms[i];
    var ev := if a == 1 then Trying(m.name) else Retrying(m.name, a, maxRetries + 1);
    var called;
    r, called := TryModel(m, i, a, system, user, server);
    step := Trace([ev], 0, if called then 1 else 0, [m.id]);
  }

  // ---------------------------------------------------------------
  // Properties of the fallback run
  // ---------------------------------------------------------------

  function Repeat<T>(x: T, n: nat): (r: seq<T>)
    ensures |r| == n && forall k :: 0 <= k < n ==> r[k] == x
  {
    if n == 0 then [] else [x] + Repeat(x, n - 1)
  }

  /** The order attempts are made in when none succeeds: each model's id, `attempts` times. */
  function Schedule(ms: seq<ModelConfig>, attempts: nat): seq<string> {
    if |ms| == 0 then [] else Repeat(ms[0].id, attempts) + Schedule(ms[1..], attempts)
  }

  /** The remote calls the models in `ms` make when each is tried `attempts` times. */
  function ExpectedCalls(ms: seq<ModelConfig>, attempts: nat): nat {
    if |ms| == 0 then 0 else (if MakesCall(ms[0]) then attempts else 0) + ExpectedCalls(ms[1..], attempts)
  }

  predicate IsPrefix<T(==)>(p: seq<T>, s: seq<T>) { |p| <= |s| && s[..|p|] == p }

  /** Every attempt of models `j..` fails. */
  predicate AllAttemptsFail(ms: seq<ModelConfig>, maxRetries: nat, results: (nat, nat) -> Option<string>, j: nat) {
    forall i, a :: j <= i < |ms| && 1 <= a <= maxRetries + 1 ==> results(i, a).None?
  }

  lemma {:induction false} ScheduleLength(ms: seq<ModelConfig>, attempts: nat)
    ensures |Schedule(ms, attempts)| == |ms| * attempts
  {
    if |ms| > 0 {
      ScheduleLength(ms[1..], attempts);
      assert |ms| * attempts == attempts + (|ms| - 1) * attempts;
    }
  }

  lemma {:induction false} PrefixFromModel(ms: seq<ModelConfig>, maxRetries: nat, delay: nat,
                                           results: (nat, nat) -> Option<string>, j: nat)
    requires j <= |ms|
    ensures IsPrefix(FromModel(ms, maxRetries, delay, results, j).trace.tried, Schedule(ms[j..], maxRetries + 1))
    decreases |ms| - j, maxRetries + 1
  {
    if j < |ms| {
      PrefixFromAttempt(ms, maxRetries, delay, results, j, 1);
      assert ms[j..][1..] == ms[j + 1..];
    }
  }

  lemma {:induction false} PrefixFromAttempt(ms: seq<ModelConfig>, maxRetries: nat, delay: nat,
                                             results: (nat, nat) -> Option<string>, i: nat, a: nat)
    requires i < |ms| && 1 <= a <= maxRetries + 1
    ensures IsPrefix(FromAttempt(ms, maxRetries, delay, results, i, a).trace.tried,
                     Repeat(ms[i].id, maxRetries + 2 - a) + Schedule(ms[i + 1..], maxRetries + 1))
    decreases |ms| - i, maxRetries + 1 - a
  {
    var id := ms[i].id;
    var later := Schedule(ms[i + 1..], maxRetries + 1);
    var rest := Repeat(id, maxRetries + 1 - a);
    assert Repeat(id, maxRetries + 2 - a) == [id] + rest;
    if results(i, a).Some? {
      SuccessStep(ms, maxRetries, delay, results, i, a);
      assert FromAttempt(ms, maxRetries, delay, results, i, a).trace.tried == [id] + [];
      PrefixCons(id, [], rest, later);
    } else if a < maxRetries + 1 {
      RetryStep(ms, maxRetries, delay, results, i, a);
      PrefixFromAttempt(ms, maxRetries, delay, results, i, a + 1);
      var r := FromAttempt(ms, maxRetries, delay, results, i, a + 1);
      assert FromAttempt(ms, maxRetries, delay, results, i, a).trace.tried == [id] + r.trace.tried;
      PrefixCons(id, r.trace.tried, rest, later);
    } else {
      LastAttemptStep(ms, maxRetries, delay, results, i, a);
      PrefixFromModel(ms, maxRetries, delay, results, i + 1);
      var r := FromModel(ms, maxRetries, delay, results, i + 1);
      assert FromAttempt(ms, maxRetries, delay, results, i, a).trace.tried == [id] + r.trace.tried;
      assert rest + later == later;
      PrefixCons(id, r.trace.tried, rest, later);
    }
  }

  lemma ConsConcat<T>(x: T, r: seq<T>, t: seq<T>)
    ensures [x] + (r + t) == ([x] + r) + t
  {}

  lemma PrefixCons<T>(x: T, p: seq<T>, r: seq<T>, t: seq<T>)
    requires IsPrefix(p, r + t)
    ensures IsPrefix([x] + p, ([x] + r) + t)
  {
    assert ([x] + r) + t == [x] + (r + t);
    assert ([x] + (r + t))[..|p| + 1] == [x] + (r + t)[..|p|];
  }

  /** A successful attempt ends the run with SUCCESS. */
  lemma SuccessStep(ms: seq<ModelConfig>, maxRetries: nat, delay: nat, results: (nat, nat) -> Option<string>,
                    i: nat, a: nat)
    requires i < |ms| && 1 <= a <= maxRetries + 1 && results(i, a).Some?
    ensures FromAttempt(ms, maxRetries, delay, results, i, a)
      == Run(results(i, a), Some(ms[i].id), Then(AttemptTrace(ms[i], a, maxRetries), Trace([Succeeded(ms[i].name)], 0, 0, [])))
  {}

  lemma {:induction false} NoneFromModel(ms: seq<ModelConfig>, maxRetries: nat, delay: nat,
                                         results: (nat, nat) -> Option<string>, j: nat)
    requires j <= |ms|
    ensures var r := FromModel(ms, maxRetries, delay, results, j);
      && (r.response.None? <==> AllAttemptsFail(ms, maxRetries, results, j))
      && (r.response.None? <==> r.modelId.None?)
    decreases |ms| - j, maxRetries + 1
  {
    if j < |ms| {
      NoneFromAttempt(ms, maxRetries, delay, results, j, 1);
    }
  }

  lemma {:induction false} NoneFromAttempt(ms: seq<ModelConfig>, maxRetries: nat, delay: nat,
                                           results: (nat, nat) -> Option<string>, i: nat, a: nat)
    requires i < |ms| && 1 <= a <= maxRetries + 1
    ensures var r := FromAttempt(ms, maxRetries, delay, results, i, a);
      && (r.response.None? <==>
            (forall b :: a <= b <= maxRetries + 1 ==> results(i, b).None?)
            && AllAttemptsFail(ms, maxRetries, results, i + 1))
      && (r.response.None? <==> r.modelId.None?)
    decreases |ms| - i, maxRetries + 1 - a
  {
    if results(i, a).None? {
      if a < maxRetries + 1 {
        NoneFromAttempt(ms, maxRetries, delay, results, i, a + 1);
      } else {
        NoneFromModel(ms, maxRetries, delay, results, i + 1);
      }
    }
  }

  /** A run that fails after trying `tried`, waiting `waits` times and calling `calls` times, ending with ALL_MODELS_FAILED. */
  predicate Exhausted(r: Run, tried: seq<string>, waits: nat, calls: nat) {
    && r.response.None? && r.modelId.None?
    && r.trace.tried == tried && r.trace.waits == waits && r.trace.calls == calls
    && |r.trace.events| > 0 && r.trace.events[|r.trace.events| - 1] == AllFailed
  }

  /** The waits of `models` candidates that each fail every attempt: `maxRetries` each. */
  function WaitsOf(models: nat, maxRetries: nat): nat { models * maxRetries }

  lemma ExhaustedPrepend(t: Trace, r: Run, tried: seq<string>, waits: nat, calls: nat)
    requires Exhausted(r, r.trace.tried, r.trace.waits, r.trace.calls)
    requires tried == t.tried + r.trace.tried && waits == t.waits + r.trace.waits && calls == t.calls + r.trace.calls
    ensures Exhausted(Prepend(t, r), tried, waits, calls)
  {
    assert Then(t, r.trace).events[|Then(t, r.trace).events| - 1] == r.trace.events[|r.trace.events| - 1];
  }

  lemma {:induction false} ExhaustFromModel(ms: seq<ModelConfig>, maxRetries: nat, delay: nat,
                                            results: (nat, nat) -> Option<string>, j: nat)
    requires j <= |ms| && AllAttemptsFail(ms, maxRetries, results, j)
    ensures Exhausted(FromModel(ms, maxRetries, delay, results, j), Schedule(ms[j..], maxRetries + 1),
                      WaitsOf(|ms| - j, maxRetries), ExpectedCalls(ms[j..], maxRetries + 1))
    decreases |ms| - j, maxRetries + 1
  {
    if j < |ms| {
      ExhaustFromAttempt(ms, maxRetries, delay, results, j, 1);
      var sw := if j > 0 then [Switching(ms[j].name)] else [];
      var r := FromAttempt(ms, maxRetries, delay, results, j, 1);
      assert ms[j..][1..] == ms[j + 1..];
      assert WaitsOf(|ms| - j, maxRetries) == maxRetries + WaitsOf(|ms| - j - 1, maxRetries);
      assert [] + r.trace.tried == r.trace.tried;
      ExhaustedPrepend(Trace(sw, 0, 0, []), r, Schedule(ms[j..], maxRetries + 1),
                       WaitsOf(|ms| - j, maxRetries), ExpectedCalls(ms[j..], maxRetries + 1));
    }
  }

  lemma {:induction false} ExhaustFromAttempt(ms: seq<ModelConfig>, maxRetries: nat, delay: nat,
                                              results: (nat, nat) -> Option<string>, i: nat, a: nat)
    requires i < |ms| && 1 <= a <= maxRetries + 1
    requires forall b :: a <= b <= maxRetries + 1 ==> results(i, b).None?
    requires AllAttemptsFail(ms, maxRetries, results, i + 1)
    ensures Exhausted(FromAttempt(ms, maxRetries, delay, results, i, a),
                      Repeat(ms[i].id, maxRetries + 2 - a) + Schedule(ms[i + 1..], maxRetries + 1),
                      (maxRetries + 1 - a) + WaitsOf(|ms| - i - 1, maxRetries),
                      (if MakesCall(ms[i]) then maxRetries + 2 - a else 0) + ExpectedCalls(ms[i + 1..], maxRetries + 1))
    decreases |ms| - i, maxRetries + 1 - a
  {
    var step := AttemptTrace(ms[i], a, maxRetries);
    var id := ms[i].id;
    var later := Schedule(ms[i + 1..], maxRetries + 1);
    var laterCalls := ExpectedCalls(ms[i + 1..], maxRetries + 1);
    if a < maxRetries + 1 {
      RetryStep(ms, maxRetries, delay, results, i, a);
      ExhaustFromAttempt(ms, maxRetries, delay, results, i, a + 1);
      var t := Then(step, Trace([Waiting(delay)], 1, 0, []));
      var r := FromAttempt(ms, maxRetries, delay, results, i, a + 1);
      assert t.tried == [id] && t.waits == 1 && t.calls == if MakesCall(ms[i]) then 1 else 0;
      assert Repeat(id, maxRetries + 2 - a) == [id] + Repeat(id, maxRetries + 1 - a);
      ConsConcat(id, Repeat(id, maxRetries + 1 - a), later);
      ExhaustedPrepend(t, r, Repeat(id, maxRetries + 2 - a) + later,
                       (maxRetries + 1 - a) + WaitsOf(|ms| - i - 1, maxRetries),
                       (if MakesCall(ms[i]) then maxRetries + 2 - a else 0) + laterCalls);
    } else {
      LastAttemptStep(ms, maxRetries, delay, results, i, a);
      ExhaustFromModel(ms, maxRetries, delay, results, i + 1);
      var r := FromModel(ms, maxRetries, delay, results, i + 1);
      assert step.tried == [id] && step.waits == 0 && step.calls == if MakesCall(ms[i]) then 1 else 0;
      ExhaustedPrepend(step, r, [id] + later, WaitsOf(|ms| - i - 1, maxRetries),
                       (if MakesCall(ms[i]) then 1 else 0) + laterCalls);
      assert Repeat(id, 1) == [id];
    }
  }

  /** A failed attempt that is not the last one is followed by a wait and the next attempt. */
  lemma RetryStep(ms: seq<ModelConfig>, maxRetries: nat, delay: nat, results: (nat, nat) -> Option<string>,
                  i: nat, a: nat)
    requires i < |ms| && 1 <= a < maxRetries + 1 && results(i, a).None?
    ensures FromAttempt(ms, maxRetries, delay, results, i, a)
      == Prepend(Then(AttemptTrace(ms[i], a, maxRetries), Trace([Waiting(delay)], 1, 0, [])),
                 FromAttempt(ms, maxRetries, delay, results, i, a + 1))
  {}

  /** A failed last attempt is followed by the next model. */
  lemma LastAttemptStep(ms: seq<ModelConfig>, maxRetries: nat, delay: nat, results: (nat, nat) -> Option<string>,
                        i: nat, a: nat)
    requires i < |ms| && a == maxRetries + 1 && results(i, a).None?
    ensures FromAttempt(ms, maxRetries, delay, results, i, a)
      == Prepend(AttemptTrace(ms[i], a, maxRetries), FromModel(ms, maxRetries, delay, results, i + 1))
  {}

  lemma {:induction false} NoEnabledModels(ms: seq<ModelConfig>)
    requires forall k :: 0 <= k < |ms| ==> !EnabledStrict(ms[k])
    ensures EnabledModels(ms) == []
  {
    if |ms| > 0 {
      NoEnabledModels(ms[1..]);
    }
  }

  /** With no enabled model the run ends at once: no attempt, no wait, ALL_MODELS_FAILED. */
  lemma FallbackNoCandidates(registry: seq<ModelConfig>, maxRetries: nat, delay: nat, system: string, user: string,
                             server: (nat, nat, Request) -> Outcome)
    requires forall k :: 0 <= k < |registry| ==> !EnabledStrict(registry[k])
    ensures FallbackRun(registry, maxRetries, delay, system, user, server) == Run(None, None, Trace([AllFailed], 0, 0, []))
  {
    NoEnabledModels(registry);
  }

  /**
   * Exhaustion: when every attempt fails, each candidate is tried exactly
   * `maxRetries + 1` times in candidate order, with a wait after every
   * attempt but the last of each model, and the run reports ALL_MODELS_FAILED.
   */
  lemma FallbackExhausted(registry: seq<ModelConfig>, maxRetries: nat, delay: nat, system: string, user: string,
                          server: (nat, nat, Request) -> Outcome)
    requires var ms := Prioritized(registry);
      forall i, a :: 0 <= i < |ms| && 1 <= a <= maxRetries + 1 ==> AttemptResult(ms[i], i, a, system, user, server).None?
    ensures var ms := Prioritized(registry);
      var r := FallbackRun(registry, maxRetries, delay, system, user, server);
      && r.response.None? && r.modelId.None?
      && r.trace.tried == Schedule(ms, maxRetries + 1)
      && |r.trace.tried| == |ms| * (maxRetries + 1)
      && r.trace.waits == |ms| * maxRetries
      && r.trace.calls == ExpectedCalls(ms, maxRetries + 1)
      && |r.trace.events| > 0 && r.trace.events[|r.trace.events| - 1] == AllFailed
  {
    var ms := Prioritized(registry);
    var results := Attempts(ms, system, user, server);
    assert AllAttemptsFail(ms, maxRetries, results, 0) by {
      forall i, a | 0 <= i < |ms| && 1 <= a <= maxRetries + 1 ensures results(i, a).None? {
        assert results(i, a) == AttemptResult(ms[i], i, a, system, user, server);
      }
    }
    ExhaustFromModel(ms, maxRetries, delay, results, 0);
    assert ms[0..] == ms;
    ScheduleLength(ms, maxRetries + 1);
  }

  /** The run succeeds exactly when some attempt of some candidate succeeds. */
  lemma FallbackSucceedsIff(registry: seq<ModelConfig>, maxRetries: nat, delay: nat, system: string, user: string,
                            server: (nat, nat, Request) -> Outcome)
    ensures var ms := Prioritized(registry);
      FallbackRun(registry, maxRetries, delay, system, user, server).response.Some?
      <==> exists i, a :: 0 <= i < |ms| && 1 <= a <= maxRetries + 1
                          && AttemptResult(ms[i], i, a, system, user, server).Some?
  {
    var ms := Prioritized(registry);
    var results := Attempts(ms, system, user, server);
    NoneFromModel(ms, maxRetries, delay, results, 0);
    forall i, a | 0 <= i < |ms| && 1 <= a <= maxRetries + 1
      ensures results(i, a) == AttemptResult(ms[i], i, a, system, user, server)
    {}
  }

  /** Attempts are made in candidate order: the ids tried are a prefix of the exhaustion schedule. */
  lemma FallbackTriesInOrder(registry: seq<ModelConfig>, maxRetries: nat, delay: nat, system: string, user: string,
                             server: (nat, nat, Request) -> Outcome)
    ensures IsPrefix(FallbackRun(registry, maxRetries, delay, system, user, server).trace.tried,
                     Schedule(Prioritized(registry), maxRetries + 1))
  {
    var ms := Prioritized(registry);
    PrefixFromModel(ms, maxRetries, delay, Attempts(ms, system, user, server), 0);
    assert ms[0..] == ms;
  }

  lemma {:induction false} FirstSuccessFromModel(ms: seq<ModelConfig>, maxRetries: nat, delay: nat,
                                                 results: (nat, nat) -> Option<string>, j: nat)
    returns (i: nat, a: nat)
    requires j <= |ms| && FromModel(ms, maxRetries, delay, results, j).response.Some?
    ensures var r := FromModel(ms, maxRetries, delay, results, j);
      && j <= i < |ms| && 1 <= a <= maxRetries + 1
      && r.response == results(i, a)
      && r.modelId == Some(ms[i].id)
      && |r.trace.events| > 0 && r.trace.events[|r.trace.events| - 1] == Succeeded(ms[i].name)
      && (forall i', a' :: j <= i' < |ms| && 1 <= a' <= maxRetries + 1 && (i' < i || (i' == i && a' < a))
            ==> results(i', a').None?)
    decreases |ms| - j, maxRetries + 1
  {
    i, a := FirstSuccessFromAttempt(ms, maxRetries, delay, results, j, 1);
  }

  lemma {:induction false} FirstSuccessFromAttempt(ms: seq<ModelConfig>, maxRetries: nat, delay: nat,
                                                   results: (nat, nat) -> Option<string>, j: nat, b: nat)
    returns (i: nat, a: nat)
    requires j < |ms| && 1 <= b <= maxRetries + 1
    requires FromAttempt(ms, maxRetries, delay, results, j, b).response.Some?
    ensures var r := FromAttempt(ms, maxRetries, delay, results, j, b);
      && j <= i < |ms| && 1 <= a <= maxRetries + 1 && (i == j ==> b <= a)
      && r.response == results(i, a)
      && r.modelId == Some(ms[i].id)
      && |r.trace.events| > 0 && r.trace.events[|r.trace.events| - 1] == Succeeded(ms[i].name)
      && (forall i', a' :: j <= i' < |ms| && 1 <= a' <= maxRetries + 1
            && (i' < i || (i' == i && a' < a)) && (i' == j ==> b <= a')
            ==> results(i', a').None?)
    decreases |ms| - j, maxRetries + 1 - b
  {
    if results(j, b).Some? {
      i, a := j, b;
    } else if b < maxRetries + 1 {
      i, a := FirstSuccessFromAttempt(ms, maxRetries, delay, results, j, b + 1);
      forall i', a' | j <= i' < |ms| && 1 <= a' <= maxRetries + 1 && (i' < i || (i' == i && a' < a))
                      && (i' == j ==> b <= a')
        ensures results(i', a').None?
      {
        if i' == j && a' == b {
        }
      }
    } else {
      i, a := FirstSuccessFromModel(ms, maxRetries, delay, results, j + 1);
      forall i', a' | j <= i' < |ms| && 1 <= a' <= maxRetries + 1 && (i' < i || (i' == i && a' < a))
                      && (i' == j ==> b <= a')
        ensures results(i', a').None?
      {
        if i' == j {
          assert a' == b;
        }
      }
    }
  }

  /**
   * A successful run returns the first successful attempt in candidate
   * order, with that model's id, and stops there with SUCCESS.
   */
  lemma FallbackFirstSuccess(registry: seq<ModelConfig>, maxRetries: nat, delay: nat, system: string, user: string,
                             server: (nat, nat, Request) -> Outcome) returns (i: nat, a: nat)
    requires FallbackRun(registry, maxRetries, delay, system, user, server).response.Some?
    ensures var ms := Prioritized(registry);
      var r := FallbackRun(registry, maxRetries, delay, system, user, server);
      && i < |ms| && 1 <= a <= maxRetries + 1
      && r.response == AttemptResult(ms[i], i, a, system, user, server)
      && r.response.value != ""
      && r.modelId == Some(ms[i].id)
      && |r.trace.events| > 0 && r.trace.events[|r.trace.events| - 1] == Succeeded(ms[i].name)
      && (forall i', a' :: 0 <= i' < |ms| && 1 <= a' <= maxRetries + 1 && (i' < i || (i' == i && a' < a))
            ==> AttemptResult(ms[i'], i', a', system, user, server).None?)
  {
    i, a := CandidatesFirstSuccess(Prioritized(registry), maxRetries, delay, system, user, server);
  }

  /** The same for any candidate list, in terms of the attempts themselves. */
  lemma CandidatesFirstSuccess(ms: seq<ModelConfig>, maxRetries: nat, delay: nat, system: string, user: string,
                               server: (nat, nat, Request) -> Outcome) returns (i: nat, a: nat)
    requires FromModel(ms, maxRetries, delay, Attempts(ms, system, user, server), 0).response.Some?
    ensures var r := FromModel(ms, maxRetries, delay, Attempts(ms, system, user, server), 0);
      && i < |ms| && 1 <= a <= maxRetries + 1
      && r.response == AttemptResult(ms[i], i, a, system, user, server)
      && r.response.value != ""
      && r.modelId == Some(ms[i].id)
      && |r.trace.events| > 0 && r.trace.events[|r.trace.events| - 1] == Succeeded(ms[i].name)
      && (forall i', a' :: 0 <= i' < |ms| && 1 <= a' <= maxRetries + 1 && (i' < i || (i' == i && a' < a))
            ==> AttemptResult(ms[i'], i', a', system, user, server).None?)
  {
    var results := Attempts(ms, system, user, server);
    i, a := FirstSuccessFromModel(ms, maxRetries, delay, results, 0);
    assert results(i, a) == AttemptResult(ms[i], i, a, system, user, server);
    forall i', a' | 0 <= i' < |ms| && 1 <= a' <= maxRetries + 1 && (i' < i || (i' == i && a' < a))
      ensures AttemptResult(ms[i'], i', a', system, user, server).None?
    {
      assert results(i', a') == AttemptResult(ms[i'], i', a', system, user, server);
    }
  }

  /**
   * With the default budget, one candidate that keeps failing is tried
   * twice: TRYING, one wait, RETRYING 2/2, then ALL_MODELS_FAILED.
   */
  lemma DefaultBudgetSingleModel(m: ModelConfig, system: string, user: string, server: (nat, nat, Request) -> Outcome)
    requires EnabledStrict(m)
    requires AttemptResult(m, 0, 1, system, user, server).None? && AttemptResult(m, 0, 2, system, user, server).None?
    ensures var r := FallbackRun([m], MaxRetriesPerModel, RetryDelaySeconds, system, user, server);
      && r.response.None?
      && r.trace.events == [Trying(m.name), Waiting(5), Retrying(m.name, 2, 2), AllFailed]
      && r.trace.tried == [m.id, m.id]
      && r.trace.waits == 1
  {
    assert [m][1..] == [];
    assert EnabledModels([m]) == [m];
    assert SortDesc([m], PriorityOf) == [m];
    var ms := [m];
    var results := Attempts(ms, system, user, server);
    assert FromModel(ms, 1, 5, results, 1) == Run(None, None, Trace([AllFailed], 0, 0, []));
    var a2 := FromAttempt(ms, 1, 5, results, 0, 2);
    assert a2.trace.events == [Retrying(m.name, 2, 2), AllFailed];
    var a1 := FromAttempt(ms, 1, 5, results, 0, 1);
    assert a1.trace.events == [Trying(m.name), Waiting(5)] + a2.trace.events;
  }

  /** A candidate without an API key is never called, yet still uses up its attempts and waits. */
  lemma MissingKeyStillRetried(registry: seq<ModelConfig>, maxRetries: nat, delay: nat, system: string, user: string,
                               server: (nat, nat, Request) -> Outcome)
    requires forall m :: m in registry ==> !Truthy(m.apiKey)
    ensures var ms := Prioritized(registry);
      var r := FallbackRun(registry, maxRetries, delay, system, user, server);
      && r.response.None? && r.trace.calls == 0
      && r.trace.waits == |ms| * maxRetries
      && |r.trace.tried| == |ms| * (maxRetries + 1)
  {
    var ms := Prioritized(registry);
    PrioritizedSpec(registry);
    assert forall k :: 0 <= k < |ms| ==> ms[k] in registry;
    NoCallsWithoutKeys(ms, maxRetries + 1);
    FallbackExhausted(registry, maxRetries, delay, system, user, server);
  }

  lemma {:induction false} NoCallsWithoutKeys(ms: seq<ModelConfig>, attempts: nat)
    requires forall k :: 0 <= k < |ms| ==> !Truthy(ms[k].apiKey)
    ensures ExpectedCalls(ms, attempts) == 0
  {
    if |ms| > 0 {
      NoCallsWithoutKeys(ms[1..], attempts);
    }
  }
}
