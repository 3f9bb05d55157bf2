/**
 * The database service (`DatabaseService`): connection parameters sent
 * by the client, and the AI description of one table (`analyze_table`)
 * built from a prompt template, a preferred model with a fallback over
 * the other enabled models, and the JSON object cut out of the reply.
 *
 * The column and sample queries are the parameters `columns` and
 * `samples` (the text of `str(rows)`, `None` when that query failed);
 * the stored prompt is `stored`; the models are `server` (position of
 * the model in the enabled list, request) and `json.loads` is `loads`.
 */
module DatabaseService {
  import opened Wrappers
  import opened Text
  import opened Dicts
  import opened ModelRegistry
  import opened AIProviders

  // ---------------------------------------------------------------------
  // Connection parameters
  // ---------------------------------------------------------------------

  /** `username` becomes `user`, at the end of the dict, unless `user` is already there. */
  function MappedParams<V(==)>(d: Dict<V>): Dict<V> {
    if "username" in Keys(d) && "user" !in Keys(d) then Put(Remove(d, "username"), "user", Get(d, "username").value)
    else d
  }

  /** The client's value moves from `username` to `user`; every other key is untouched. */
  lemma MappedParamsSpec<V>(d: Dict<V>)
    requires DistinctKeys(d)
    ensures DistinctKeys(MappedParams(d))
    ensures "username" in Keys(d) && "user" !in Keys(d) ==>
              Get(MappedParams(d), "user") == Get(d, "username") && Get(MappedParams(d), "username") == None
    ensures !("username" in Keys(d) && "user" !in Keys(d)) ==> MappedParams(d) == d
    ensures forall k :: k != "user" && k != "username" ==> Get(MappedParams(d), k) == Get(d, k)
  {
    if "username" in Keys(d) && "user" !in Keys(d) {
      var v := Get(d, "username").value;
      RemoveGet(d, "username");
      PutGet(Remove(d, "username"), "user", v);
      PutDistinct(Remove(d, "username"), "user", v);
    }
  }

  /** The parameters the client sent; the service changes the caller's own dict. */
  class ParamDict<V(==)> {
    var entries: Dict<V>

    constructor(entries: Dict<V>)
      ensures this.entries == entries
    {
      this.entries := entries;
    }

    /** `db_params['user'] = db_params.pop('username')` under its guard. */
    method MapUsername()
      modifies this
      ensures entries == MappedParams(old(entries))
    {
      var g := Get(entries, "username");
      if g.Some? && Get(entries, "user").None? {
        entries := Remove(entries, "username");
        entries := Put(entries, "user", g.value);
      }
    }
  }

  // ---------------------------------------------------------------------
  // The prompt
  // ---------------------------------------------------------------------

  const DefaultTemplate :=
    "Act\U{00FA}a como un experto en bases de datos. Genera una entrada JSON para la documentaci\U{00F3}n de la tabla '{table_name}'.\n                \n                Columnas detectadas: {col_names}\n                Datos de ejemplo: {samples}\n                \n                Formato JSON requerido:\n                {{\n                    \"{table_name}\": {{\n                        \"category\": \"categor\U{00ED}a_sugerida\",\n                        \"record_count\": 0,\n                        \"description\": \"Descripci\U{00F3}n breve de la tabla\",\n                        \"primary_keys\": [\"CLAVE_PRIMARIA_SUGERIDA\"],\n                        \"columns\": {{\n                            \"COLUMNA1\": \"TIPO - Descripci\U{00F3}n\",\n                            \"COLUMNA2\": \"TIPO - Descripci\U{00F3}n\"\n                        }},\n                        \"consultas_comunes\": [\n                            \"ejemplo de consulta 1\",\n                            \"ejemplo de consulta 2\"\n                        ]\n                    }}\n                }}\n                \n                Responde SOLO con el JSON v\U{00E1}lido."

  const NoneReplace := "'NoneType' object has no attribute 'replace'"

  /**
   * The template: the stored `database_analysis` prompt's `system_prompt`
   * when a non-empty prompt is stored, else the built-in one.  A stored
   * prompt without `system_prompt` fails at the first `replace`.
   */
  function Template(stored: Option<Dict<string>>): (r: Result<string>)
    ensures stored.None? || |stored.value| == 0 ==> r == Ok(DefaultTemplate)
    ensures stored.Some? && |stored.value| > 0 ==>
              r == (if Get(stored.value, "system_prompt").Some? then Ok(Get(stored.value, "system_prompt").value)
                    else Err(NoneReplace))
  {
    if stored.None? || |stored.value| == 0 then Ok(DefaultTemplate)
    else match Get(stored.value, "system_prompt")
      case None => Err(NoneReplace)
      case Some(t) => Ok(t)
  }

  /** Every `{table_name}`, then every `{col_names}`, then every `{samples}` replaced. */
  function Prompt(template: string, table: string, cols: seq<string>, samples: string): string {
    ReplaceAll(ReplaceAll(ReplaceAll(template, "{table_name}", table), "{col_names}", Join(cols, ", ")),
               "{samples}", samples)
  }

  /** A template without placeholders is the prompt itself. */
  lemma PromptWithoutPlaceholders(template: string, table: string, cols: seq<string>, samples: string)
    requires !Contains(template, "{table_name}") && !Contains(template, "{col_names}") && !Contains(template, "{samples}")
    ensures Prompt(template, table, cols, samples) == template
  {
    ReplaceAbsent(template, "{table_name}", table);
    ReplaceAbsent(template, "{col_names}", Join(cols, ", "));
    ReplaceAbsent(template, "{samples}", samples);
  }

  /** A head without braces followed by `{table_name}` gets the table name, and a name without braces is not touched again. */
  lemma TableNameFilled(head: string, table: string, cols: seq<string>, samples: string)
    requires forall j :: 0 <= j < |head| ==> head[j] != '{'
    requires forall j :: 0 <= j < |table| ==> table[j] != '{'
    ensures Prompt(head + "{table_name}", table, cols, samples) == head + table
  {
    ReplaceAtEnd(head, "{table_name}", table);
    var t := head + table;
    assert forall j :: 0 <= j < |t| ==> t[j] != '{';
    IndexOfNotBefore(t, "{col_names}", |t|);
    IndexOfNotBefore(t, "{samples}", |t|);
    ReplaceAbsent(t, "{col_names}", Join(cols, ", "));
    ReplaceAbsent(t, "{samples}", samples);
  }

  // ---------------------------------------------------------------------
  // Model selection
  // ---------------------------------------------------------------------

  const Preferred: seq<string> := ["gemini-1.5-flash", "gemini-1.5-pro", "grok-2-1212", "groq-llama-70b"]
  const NoModels := "No AI models enabled for analysis"

  /** `[m for m in model_manager.list_models() if m.get('enabled')]`: an absent flag means disabled here. */
  function Enabled(ms: seq<ModelConfig>): (r: seq<ModelConfig>)
    ensures forall m :: m in r <==> m in ms && m.enabled == Some(true)
    ensures |r| <= |ms|
  {
    if |ms| == 0 then []
    else (if ms[0].enabled == Some(true) then [ms[0]] else []) + Enabled(ms[1..])
  }

  /** The filter keeps order and multiplicity: filtering a concatenation filters each part. */
  lemma {:induction false} EnabledAppend(a: seq<ModelConfig>, b: seq<ModelConfig>)
    ensures Enabled(a + b) == Enabled(a) + Enabled(b)
    decreases |a|
  {
    if |a| == 0 {
      assert a + b == b;
    } else {
      assert (a + b)[0] == a[0] && (a + b)[1..] == a[1..] + b;
      EnabledAppend(a[1..], b);
    }
  }

  /** A single entry is kept exactly when it passes the test. */
  lemma EnabledSingle(x: ModelConfig)
    ensures Enabled([x]) == if x.enabled == Some(true) then [x] else []
  {
    assert [x][1..] == [];
  }

  lemma {:induction false} NoneEnabled(s: seq<ModelConfig>)
    requires forall j :: 0 <= j < |s| ==> s[j].enabled != Some(true)
    ensures Enabled(s) == []
    decreases |s|
  {
    if |s| > 0 {
      assert forall j :: 0 <= j < |s[1..]| ==> s[1..][j] == s[j + 1];
      NoneEnabled(s[1..]);
    }
  }

  /** The head of the enabled list is the registry's first enabled model. */
  lemma EnabledFirst(ms: seq<ModelConfig>, i: nat)
    requires i < |ms| && ms[i].enabled == Some(true)
    requires forall j :: 0 <= j < i ==> ms[j].enabled != Some(true)
    ensures |Enabled(ms)| > 0 && Enabled(ms)[0] == ms[i]
  {
    assert ms == ms[..i] + ms[i..];
    EnabledAppend(ms[..i], ms[i..]);
    NoneEnabled(ms[..i]);
    assert ms[i..][0] == ms[i];
  }

  predicate Matches(m: ModelConfig, pref: string) { m.id == pref || m.modelId == pref }

  /** The first model at or after `j` matching `pref`. */
  function FirstMatch(ms: seq<ModelConfig>, pref: string, j: nat): (r: Option<nat>)
    requires j <= |ms|
    ensures r.Some? ==> j <= r.value < |ms| && Matches(ms[r.value], pref)
                        && forall i :: j <= i < r.value ==> !Matches(ms[i], pref)
    ensures r.None? ==> forall i :: j <= i < |ms| ==> !Matches(ms[i], pref)
    decreases |ms| - j
  {
    if j == |ms| then None else if Matches(ms[j], pref) then Some(j) else FirstMatch(ms, pref, j + 1)
  }

  /** The position of the chosen model: the first match of the first preferred name that has one, else 0. */
  function ChosenFrom(ms: seq<ModelConfig>, p: nat): nat
    requires p <= |Preferred|
    decreases |Preferred| - p
  {
    if p == |Preferred| then 0
    else match FirstMatch(ms, Preferred[p], 0)
      case Some(i) => i
      case None => ChosenFrom(ms, p + 1)
  }

  function Chosen(ms: seq<ModelConfig>): nat { ChosenFrom(ms, 0) }

  /**
   * The choice is a real position; with a preferred model present, it is
   * the first model matching the earliest preferred name that matches
   * any; otherwise it is the first enabled model.
   */
  lemma {:induction false} ChosenSpec(ms: seq<ModelConfig>, p: nat)
    requires |ms| > 0 && p <= |Preferred|
    ensures ChosenFrom(ms, p) < |ms|
    ensures (forall q, i :: p <= q < |Preferred| && 0 <= i < |ms| ==> !Matches(ms[i], Preferred[q])) ==>
              ChosenFrom(ms, p) == 0
    ensures forall q :: p <= q < |Preferred| && FirstMatch(ms, Preferred[q], 0).Some?
                        && (forall q' :: p <= q' < q ==> FirstMatch(ms, Preferred[q'], 0).None?) ==>
              ChosenFrom(ms, p) == FirstMatch(ms, Preferred[q], 0).value
    decreases |Preferred| - p
  {
    if p < |Preferred| {
      ChosenSpec(ms, p + 1);
      if FirstMatch(ms, Preferred[p], 0).None? {
        assert ChosenFrom(ms, p) == ChosenFrom(ms, p + 1);
      }
    }
  }

  /** The nested loops with `break` that pick the model, and the fallback to the first. */
  method SelectModel(ms: seq<ModelConfig>) returns (k: nat)
    requires |ms| > 0
    ensures k == Chosen(ms)
  {
    var found: Option<nat> := None;
    var p := 0;
    while p < |Preferred| && found.None?
      invariant 0 <= p <= |Preferred|
      invariant found.None? ==> ChosenFrom(ms, p) == Chosen(ms)
      invariant found.Some? ==> found.value == Chosen(ms)
      decreases |Preferred| - p
    {
      var i := 0;
      while i < |ms|
        invariant 0 <= i <= |ms|
        invariant FirstMatch(ms, Preferred[p], i) == FirstMatch(ms, Preferred[p], 0)
      {
        if Matches(ms[i], Preferred[p]) {
          found := Some(i);
          break;
        }
        i := i + 1;
      }
      p := p + 1;
    }
    k := if found.Some? then found.value else 0;
  }

  // ---------------------------------------------------------------------
  // Generation with fallback
  // ---------------------------------------------------------------------

  /**
   * `model_config['api_key']` on an entry without the key.  The text names
   * the exception; its `str(e)` is only the quoted key, `'api_key'`.
   */
  const MissingKey := "KeyError: 'api_key'"

  /** One model's attempt: the factory, the key lookup, then `generate_text(prompt)`. */
  function Attempt(m: ModelConfig, j: nat, prompt: string, server: (nat, Request) -> Outcome): Result<string> {
    match ProviderKind(Some(m.provider))
    case Err(e) => Err(e)
    case Ok(k) =>
      if m.apiKey.None? then Err(MissingKey)
      else match server(j, TextRequestOf(k, m.modelId, prompt, None))
        case Success(t) => Ok(t)
        case Failure(e) => Err(e)
  }

  /** The `for ... else` over the other models from position `j`: the first success, else the original error. */
  function FallbackFrom(ms: seq<ModelConfig>, j: nat, chosenId: string, prompt: string,
                        server: (nat, Request) -> Outcome, aiError: string): Result<string>
    requires j <= |ms|
    decreases |ms| - j
  {
    if j == |ms| then Err(aiError)
    else if ms[j].id == chosenId then FallbackFrom(ms, j + 1, chosenId, prompt, server, aiError)
    else match Attempt(ms[j], j, prompt, server)
      case Ok(t) => Ok(t)
      case Err(_) => FallbackFrom(ms, j + 1, chosenId, prompt, server, aiError)
  }

  /** The reply: the chosen model's, or after its generation error the fallback's. */
  function Reply(ms: seq<ModelConfig>, prompt: string, server: (nat, Request) -> Outcome): Result<string>
    requires |ms| > 0
  {
    var c := Chosen(ms);
    ChosenSpec(ms, 0);
    var m := ms[c];
    match ProviderKind(Some(m.provider))
    case Err(e) => Err(e)
    case Ok(k) =>
      if m.apiKey.None? then Err(MissingKey)
      else match server(c, TextRequestOf(k, m.modelId, prompt, None))
        case Success(t) => Ok(t)
        case Failure(e) => if |ms| > 1 then FallbackFrom(ms, 0, m.id, prompt, server, e) else Err(e)
  }

  /** The fallback answers with the first other model, in list order, whose attempt succeeds. */
  lemma {:induction false} FallbackFirst(ms: seq<ModelConfig>, j: nat, k: nat, chosenId: string, prompt: string,
                                         server: (nat, Request) -> Outcome, aiError: string)
    requires j <= k < |ms| && ms[k].id != chosenId && Attempt(ms[k], k, prompt, server).Ok?
    requires forall i :: j <= i < k && ms[i].id != chosenId ==> Attempt(ms[i], i, prompt, server).Err?
    ensures FallbackFrom(ms, j, chosenId, prompt, server, aiError) == Attempt(ms[k], k, prompt, server)
    decreases k - j
  {
    if j < k {
      assert FallbackFrom(ms, j, chosenId, prompt, server, aiError)
             == FallbackFrom(ms, j + 1, chosenId, prompt, server, aiError);
      FallbackFirst(ms, j + 1, k, chosenId, prompt, server, aiError);
    }
  }

  /** When no other model succeeds, the chosen model's own error is raised again. */
  lemma {:induction false} FallbackAllFail(ms: seq<ModelConfig>, j: nat, chosenId: string, prompt: string,
                                           server: (nat, Request) -> Outcome, aiError: string)
    requires j <= |ms|
    requires forall i :: j <= i < |ms| && ms[i].id != chosenId ==> Attempt(ms[i], i, prompt, server).Err?
    ensures FallbackFrom(ms, j, chosenId, prompt, server, aiError) == Err(aiError)
    decreases |ms| - j
  {
    if j < |ms| {
      assert FallbackFrom(ms, j, chosenId, prompt, server, aiError)
             == FallbackFrom(ms, j + 1, chosenId, prompt, server, aiError);
      FallbackAllFail(ms, j + 1, chosenId, prompt, server, aiError);
    }
  }

  /** The entries sharing the chosen id are never retried, so a lone model's error is final. */
  lemma LoneModelError(ms: seq<ModelConfig>, prompt: string, server: (nat, Request) -> Outcome, aiError: string)
    requires |ms| > 0 && forall i :: 0 <= i < |ms| ==> ms[i].id == ms[Chosen(ms)].id
    ensures FallbackFrom(ms, 0, ms[Chosen(ms)].id, prompt, server, aiError) == Err(aiError)
  {
    ChosenSpec(ms, 0);
    FallbackAllFail(ms, 0, ms[Chosen(ms)].id, prompt, server, aiError);
  }

  /** The fallback loop. */
  method Fallback(ms: seq<ModelConfig>, chosenId: string, prompt: string,
                  server: (nat, Request) -> Outcome, aiError: string) returns (r: Result<string>)
    ensures r == FallbackFrom(ms, 0, chosenId, prompt, server, aiError)
  {
    for j := 0 to |ms|
      invariant FallbackFrom(ms, j, chosenId, prompt, server, aiError) == FallbackFrom(ms, 0, chosenId, prompt, server, aiError)
    {
      if ms[j].id != chosenId {
        var p := GetProvider(Some(ms[j].provider));
        if p.Ok? && ms[j].apiKey.Some? {
          var provider := p.value;
          provider.Configure(ms[j].apiKey.value, ms[j].modelId, ms[j].baseUrl);
          var reply := provider.GenerateText(prompt, None, req => server(j, req));
          if reply.Ok? {
            return Ok(reply.value);
          }
        }
      }
    }
    r := Err(aiError);
  }

  /** The chosen model's call and, after a generation error, the fallback. */
  method Generate(ms: seq<ModelConfig>, prompt: string, server: (nat, Request) -> Outcome) returns (r: Result<string>)
    requires |ms| > 0
    ensures r == Reply(ms, prompt, server)
  {
    var c := SelectModel(ms);
    ChosenSpec(ms, 0);
    var m := ms[c];
    var p := GetProvider(Some(m.provider));
    if p.Err? {
      return Err(p.error);
    }
    if m.apiKey.None? {
      return Err(MissingKey);
    }
    var provider := p.value;
    provider.Configure(m.apiKey.value, m.modelId, m.baseUrl);
    r := provider.GenerateText(prompt, None, req => server(c, req));
    if r.Err? && |ms| > 1 {
      r := Fallback(ms, m.id, prompt, server, r.error);
    }
  }

  // ---------------------------------------------------------------------
  // The JSON object in the reply
  // ---------------------------------------------------------------------

  const NoJson := "AI did not return valid JSON"

  /** The position of the last `c` in `s`. */
  function LastIndex(s: string, c: char): (r: Option<nat>)
    ensures r.Some? ==> r.value < |s| && s[r.value] == c && forall k :: r.value < k < |s| ==> s[k] != c
    ensures r.None? ==> forall k :: 0 <= k < |s| ==> s[k] != c
    decreases |s|
  {
    if |s| == 0 then None
    else if s[|s| - 1] == c then Some(|s| - 1)
    else LastIndex(s[..|s| - 1], c)
  }

  /** `re.search(r'\{.*\}', s, re.DOTALL)`: from the first `{` to the last `}`, when that `}` comes after it. */
  function JsonSpan(s: string): Option<string> {
    match IndexOf(s, "{")
    case None => None
    case Some(i) =>
      match LastIndex(s, '}')
      case None => None
      case Some(l) => if i < l then Some(s[i..l + 1]) else None
  }

  /**
   * There is a span exactly when some `}` follows some `{`; it then runs
   * from the first `{` to the last `}`.
   */
  lemma JsonSpanSpec(s: string)
    ensures JsonSpan(s).Some? <==> exists i, j :: 0 <= i < j < |s| && s[i] == '{' && s[j] == '}'
    ensures JsonSpan(s).Some? ==>
              exists i, j :: 0 <= i < j < |s| && JsonSpan(s).value == s[i..j + 1]
                             && s[i] == '{' && s[j] == '}'
                             && (forall k :: 0 <= k < i ==> s[k] != '{')
                             && (forall k :: j < k < |s| ==> s[k] != '}')
  {
    var f := IndexOf(s, "{");
    var l := LastIndex(s, '}');
    if f.Some? {
      assert s[f.value..f.value + 1] == "{";
      assert s[f.value] == s[f.value..f.value + 1][0];
      forall k | 0 <= k < f.value ensures s[k] != '{' {
        assert !OccursAt(s, "{", k);
        assert s[k..k + 1] == [s[k]];
      }
      if l.Some? && f.value < l.value {
        assert JsonSpan(s) == Some(s[f.value..l.value + 1]);
        assert s[f.value] == '{' && s[l.value] == '}';
        assert 0 <= f.value < l.value < |s|;
      }
    } else {
      forall k | 0 <= k < |s| ensures s[k] != '{' {
        assert !OccursAt(s, "{", k);
        assert s[k..k + 1] == [s[k]];
      }
    }
  }

  // ---------------------------------------------------------------------
  // analyze_table
  // ---------------------------------------------------------------------

  /**
   * `analyze_table(table_name)` once the database has answered: the column
   * query's result, the sample rows when that query succeeded, and the
   * error of the disconnect that follows the queries, if any (the second
   * disconnect in `finally` swallows its own errors).
   */
  function AnalyzeTable(table: string, columns: Result<seq<string>>, samples: Option<string>,
                        closeError: Option<string>,
                        stored: Option<Dict<string>>, registry: seq<ModelConfig>,
                        server: (nat, Request) -> Outcome, loads: string -> Result<string>): Result<string>
  {
    match columns
    case Err(e) => Err(e)
    case Ok(cols) =>
      if closeError.Some? then Err(closeError.value)
      else
      match Template(stored)
      case Err(e) => Err(e)
      case Ok(t) =>
        var prompt := Prompt(t, table, cols, samples.GetOr("[]"));
        var ms := Enabled(registry);
        if |ms| == 0 then Err(NoModels)
        else match Reply(ms, prompt, server)
          case Err(e) => Err(e)
          case Ok(text) =>
            match JsonSpan(text)
            case None => Err(NoJson)
            case Some(j) => loads(j)
  }

  /** With no enabled model, analysis fails once the prompt is built, before any model is called. */
  lemma NoEnabledModelFails(table: string, cols: seq<string>, samples: Option<string>, stored: Option<Dict<string>>,
                            registry: seq<ModelConfig>, server: (nat, Request) -> Outcome, loads: string -> Result<string>)
    requires Template(stored).Ok? && forall m :: m in registry ==> m.enabled != Some(true)
    ensures AnalyzeTable(table, Ok(cols), samples, None, stored, registry, server, loads) == Err(NoModels)
  {
    assert |Enabled(registry)| == 0 by {
      if |Enabled(registry)| > 0 {
        assert Enabled(registry)[0] in Enabled(registry);
      }
    }
  }

  /** A failing disconnect after good queries aborts the analysis with its own error, before any model is called. */
  lemma DisconnectErrorRaised(table: string, cols: seq<string>, samples: Option<string>, e: string,
                              stored: Option<Dict<string>>, registry: seq<ModelConfig>,
                              server: (nat, Request) -> Outcome, loads: string -> Result<string>)
    ensures AnalyzeTable(table, Ok(cols), samples, Some(e), stored, registry, server, loads) == Err(e)
  {}

  /** `analyze_table` after the queries: disconnect, prompt, model choice, generation with fallback, JSON. */
  method Analyze(table: string, columns: Result<seq<string>>, samples: Option<string>, closeError: Option<string>,
                 stored: Option<Dict<string>>, registry: seq<ModelConfig>,
                 server: (nat, Request) -> Outcome, loads: string -> Result<string>) returns (r: Result<string>)
    ensures r == AnalyzeTable(table, columns, samples, closeError, stored, registry, server, loads)
  {
    if columns.Err? {
      return Err(columns.error);
    }
    if closeError.Some? {
      return Err(closeError.value);
    }
    var template := Template(stored);
    if template.Err? {
      return Err(template.error);
    }
    var prompt := Prompt(template.value, table, columns.value, samples.GetOr("[]"));
    var ms := Enabled(registry);
    if |ms| == 0 {
      return Err(NoModels);
    }
    var response := Generate(ms, prompt, server);
    if response.Err? {
      return Err(response.error);
    }
    var span := JsonSpan(response.value);
    if span.None? {
      return Err(NoJson);
    }
    r := loads(span.value);
  }
}
