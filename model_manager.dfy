/**
 * The AI model registry (`ModelManager`): an in-memory list of model
 * entries loaded from the registry file and enriched with the provider
 * configuration and API keys from the settings, plus the CRUD operations
 * that write the persisted projection back and reload.
 *
 * The registry file is the field `stored`: it holds exactly what
 * `_save_models` writes (or what the file held at start-up).
 */
module ModelRegistry {
  import opened Wrappers

  /** A JSON object whose values the registry never inspects. */
  type Params = map<string, string>
  type Headers = map<string, string>

  /**
   * One registry entry.  `None` stands for a key the dict does not have.
   * `schema` has two levels because the provider configuration may store
   * `null`: `Some(None)` is a present key holding `null`.
   */
  datatype ModelConfig = ModelConfig(
    id: string, name: string, provider: string, modelId: string,
    description: Option<string>, enabled: Option<bool>, parameters: Option<Params>,
    apiKey: Option<string>, baseUrl: Option<string>, schema: Option<Option<string>>,
    headers: Option<Headers>)

  /** An entry of the provider configuration file. */
  datatype ProviderConfig = ProviderConfig(
    baseUrl: Option<string>, schema: Option<string>, apiKeyEnv: string, headers: Option<Headers>)

  /** The API keys the settings object exposes. */
  datatype Settings = Settings(
    groq: Option<string>, openrouter: Option<string>, gemini: Option<string>, openai: Option<string>)

  /** The fields of an add or update request; `None` is an absent key. */
  datatype ModelFields = ModelFields(
    id: Option<string>, name: Option<string>, provider: Option<string>, modelId: Option<string>,
    description: Option<string>, enabled: Option<bool>, parameters: Option<Params>,
    apiKey: Option<string>, baseUrl: Option<string>)

  predicate HeadersTruthy(h: Option<Headers>) { h.Some? && |h.value| > 0 }

  /** `_get_api_key_from_env`: four known variable names, anything else has no key. */
  function ApiKeyFromEnv(env: Settings, name: string): (r: Option<string>)
    ensures name !in {"GROQ_API_KEY", "OPENROUTER_API_KEY", "GEMINI_API_KEY", "OPENAI_API_KEY"} ==> r == None
    ensures name == "GROQ_API_KEY" ==> r == env.groq
    ensures name == "OPENROUTER_API_KEY" ==> r == env.openrouter
    ensures name == "GEMINI_API_KEY" ==> r == env.gemini
    ensures name == "OPENAI_API_KEY" ==> r == env.openai
  {
    if name == "GROQ_API_KEY" then env.groq
    else if name == "OPENROUTER_API_KEY" then env.openrouter
    else if name == "GEMINI_API_KEY" then env.gemini
    else if name == "OPENAI_API_KEY" then env.openai
    else None
  }

  /** The persisted projection `_save_models` writes for one entry. */
  function Project(m: ModelConfig): (r: ModelConfig)
    ensures r.id == m.id && r.name == m.name && r.provider == m.provider && r.modelId == m.modelId
    ensures r.apiKey.None? && r.baseUrl.None? && r.schema.None? && r.headers.None?
    ensures r.description == Some(m.description.GetOr(""))
    ensures r.enabled == Some(m.enabled.GetOr(true))
    ensures r.parameters == Some(m.parameters.GetOr(map[]))
  {
    ModelConfig(m.id, m.name, m.provider, m.modelId,
                Some(m.description.GetOr("")), Some(m.enabled.GetOr(true)), Some(m.parameters.GetOr(map[])),
                None, None, None, None)
  }

  function ProjectAll(ms: seq<ModelConfig>): (r: seq<ModelConfig>)
    ensures |r| == |ms| && forall i :: 0 <= i < |ms| ==> r[i] == Project(ms[i])
  {
    seq(|ms|, i requires 0 <= i < |ms| => Project(ms[i]))
  }

  predicate KnownProvider(m: ModelConfig, providers: map<string, ProviderConfig>) {
    m.provider != "" && m.provider in providers
  }

  /** The provider merge `_load_models` applies to one file entry. */
  function Enrich(m: ModelConfig, providers: map<string, ProviderConfig>, env: Settings): (r: ModelConfig)
    ensures !KnownProvider(m, providers) ==> r == m
    ensures KnownProvider(m, providers) ==>
      var p := providers[m.provider];
      var key := ApiKeyFromEnv(env, p.apiKeyEnv);
      && r.baseUrl == p.baseUrl && r.schema == Some(p.schema)
      && r.apiKey == (if Truthy(key) then key else m.apiKey)
      && r.headers == (if HeadersTruthy(p.headers) then p.headers else m.headers)
    ensures Project(r) == Project(m)
  {
    if !KnownProvider(m, providers) then m
    else
      var p := providers[m.provider];
      var key := ApiKeyFromEnv(env, p.apiKeyEnv);
      m.(baseUrl := p.baseUrl, schema := Some(p.schema),
         apiKey := if Truthy(key) then key else m.apiKey,
         headers := if HeadersTruthy(p.headers) then p.headers else m.headers)
  }

  /** `_load_models` over the entries of the registry file. */
  function Load(file: seq<ModelConfig>, providers: map<string, ProviderConfig>, env: Settings): (r: seq<ModelConfig>)
    ensures |r| == |file| && forall i :: 0 <= i < |file| ==> r[i] == Enrich(file[i], providers, env)
  {
    seq(|file|, i requires 0 <= i < |file| => Enrich(file[i], providers, env))
  }

  /** Loading never changes what would be persisted. */
  lemma LoadKeepsPersistedFields(file: seq<ModelConfig>, providers: map<string, ProviderConfig>, env: Settings)
    ensures ProjectAll(Load(file, providers, env)) == ProjectAll(file)
  {}

  /** Saving twice writes the same file: the projection is idempotent. */
  lemma ProjectIdempotent(ms: seq<ModelConfig>)
    ensures ProjectAll(ProjectAll(ms)) == ProjectAll(ms)
  {}

  /** Entry `m` is the first one with `id` in `ms`. */
  predicate FirstWithId(ms: seq<ModelConfig>, id: string, i: int) {
    0 <= i < |ms| && ms[i].id == id && forall j :: 0 <= j < i ==> ms[j].id != id
  }

  predicate HasId(ms: seq<ModelConfig>, id: string) {
    exists i :: 0 <= i < |ms| && ms[i].id == id
  }

  /** The entry `get_model` returns: the first one with `id`, or `None`. */
  function ModelWithId(ms: seq<ModelConfig>, id: string): (r: Option<ModelConfig>)
    ensures r.Some? ==> exists i :: FirstWithId(ms, id, i) && r.value == ms[i]
    ensures r.None? <==> !HasId(ms, id)
  {
    if |ms| == 0 then None
    else if ms[0].id == id then (assert FirstWithId(ms, id, 0); Some(ms[0]))
    else
      var r := ModelWithId(ms[1..], id);
      if r.Some? then
        var i :| FirstWithId(ms[1..], id, i) && r.value == ms[1..][i];
        assert FirstWithId(ms, id, i + 1);
        r
      else
        assert forall i :: 1 <= i < |ms| ==> ms[i] == ms[1..][i - 1];
        r
  }

  /** Ids are pairwise distinct. */
  predicate UniqueIds(ms: seq<ModelConfig>) {
    forall i, j :: 0 <= i < j < |ms| ==> ms[i].id != ms[j].id
  }

  /** Saving then loading keeps every entry's id in place. */
  lemma LoadSavedIds(ms: seq<ModelConfig>, providers: map<string, ProviderConfig>, env: Settings)
    ensures var r := Load(ProjectAll(ms), providers, env);
      |r| == |ms| && forall i :: 0 <= i < |ms| ==> r[i].id == ms[i].id
  {
    var r := Load(ProjectAll(ms), providers, env);
    forall i | 0 <= i < |ms| ensures r[i].id == ms[i].id {
      assert Project(r[i]) == Project(ProjectAll(ms)[i]);
    }
  }

  /** Appending an entry whose id is new to a list with unique ids, then saving and loading, keeps the ids unique. */
  lemma AppendNewIdUnique(ms: seq<ModelConfig>, m: ModelConfig, providers: map<string, ProviderConfig>, env: Settings)
    requires UniqueIds(ms) && !HasId(ms, m.id)
    ensures UniqueIds(Load(ProjectAll(ms + [m]), providers, env))
  {
    var x := ms + [m];
    LoadSavedIds(x, providers, env);
    assert UniqueIds(x) by {
      forall i, j | 0 <= i < j < |x| ensures x[i].id != x[j].id {
        if j == |ms| {
          assert x[i] == ms[i];
        } else {
          assert x[i] == ms[i] && x[j] == ms[j];
        }
      }
    }
  }

  /** The entry `add_model` appends, with its defaults; `None` when a required key is missing. */
  function NewEntry(d: ModelFields): Option<ModelConfig> {
    if d.id.None? || d.name.None? || d.provider.None? || d.modelId.None? then None
    else Some(ModelConfig(d.id.value, d.name.value, d.provider.value, d.modelId.value,
                          d.description, Some(d.enabled.GetOr(true)), Some(d.parameters.GetOr(map[])),
                          d.apiKey, d.baseUrl, None, None))
  }

  /** The first required key `add_model` finds missing, in its check order. */
  function MissingField(d: ModelFields): Option<string> {
    if d.id.None? then Some("id")
    else if d.name.None? then Some("name")
    else if d.provider.None? then Some("provider")
    else if d.modelId.None? then Some("model_id")
    else None
  }

  /** `dict.update`: every key present in the update overwrites the entry's value. */
  function Merge(m: ModelConfig, u: ModelFields): (r: ModelConfig)
    ensures u.name.Some? ==> r.name == u.name.value
    ensures u.name.None? ==> r.name == m.name
    ensures u.enabled.Some? ==> r.enabled == u.enabled
    ensures u.enabled.None? ==> r.enabled == m.enabled
    ensures r.schema == m.schema && r.headers == m.headers
  {
    m.(id := u.id.GetOr(m.id), name := u.name.GetOr(m.name), provider := u.provider.GetOr(m.provider),
       modelId := u.modelId.GetOr(m.modelId),
       description := if u.description.Some? then u.description else m.description,
       enabled := if u.enabled.Some? then u.enabled else m.enabled,
       parameters := if u.parameters.Some? then u.parameters else m.parameters,
       apiKey := if u.apiKey.Some? then u.apiKey else m.apiKey,
       baseUrl := if u.baseUrl.Some? then u.baseUrl else m.baseUrl)
  }

  class ModelManager {
    /** `self.models`, the enriched in-memory registry. */
    var models: seq<ModelConfig>
    /** The registry file. */
    var stored: seq<ModelConfig>
    const providers: map<string, ProviderConfig>
    const env: Settings

    /** The in-memory registry and the file agree on every persisted field. */
    predicate Valid()
      reads this
    {
      ProjectAll(models) == ProjectAll(stored)
    }

    constructor(file: seq<ModelConfig>, providers: map<string, ProviderConfig>, env: Settings)
      ensures Valid()
      ensures this.stored == file && this.providers == providers && this.env == env
      ensures models == Load(file, providers, env)
    {
      this.stored := file;
      this.providers := providers;
      this.env := env;
      this.models := Load(file, providers, env);
      new;
      LoadKeepsPersistedFields(file, providers, env);
    }

    /** `reload`: rebuild the in-memory list from the file. */
    method Reload()
      modifies this
      ensures stored == old(stored)
      ensures models == Load(stored, providers, env)
      ensures Valid()
    {
      models := Load(stored, providers, env);
      LoadKeepsPersistedFields(stored, providers, env);
    }

    /** `_save_models`: write the projection of the in-memory list. */
    method Save()
      modifies this
      ensures models == old(models)
      ensures stored == ProjectAll(models)
      ensures Valid()
    {
      stored := ProjectAll(models);
      ProjectIdempotent(models);
    }

    /** `list_models`: all entries, or those whose `enabled` is absent or true. */
    function ListModels(enabledOnly: bool): (r: seq<ModelConfig>)
      reads this
      ensures !enabledOnly ==> r == models
      ensures enabledOnly ==> forall m :: m in r <==> m in models && m.enabled != Some(false)
      ensures enabledOnly ==> r == EnabledByDefault(models)
      ensures |r| <= |models|
    {
      if enabledOnly then EnabledByDefault(models) else models
    }

    /** `get_model`: the first entry with the id, found by a linear scan. */
    method GetModel(id: string) returns (r: Option<ModelConfig>)
      ensures r.Some? ==> exists i :: FirstWithId(models, id, i) && r.value == models[i]
      ensures r.None? <==> !HasId(models, id)
      ensures r == ModelWithId(models, id)
    {
      var k := FindIndex(models, id);
      r := if k.Some? then Some(models[k.value]) else None;
    }

    /** `add_model`. */
    method AddModel(data: ModelFields) returns (r: Result<ModelConfig>)
      requires Valid()
      modifies this
      ensures Valid()
      ensures MissingField(data).Some? ==>
        r == Err("Missing required field: " + MissingField(data).value) && models == old(models) && stored == old(stored)
      ensures MissingField(data).None? && HasId(old(models), data.id.value) ==>
        r == Err("Model with ID '" + data.id.value + "' already exists") && models == old(models) && stored == old(stored)
      ensures MissingField(data).None? && !HasId(old(models), data.id.value) ==>
        && stored == ProjectAll(old(models) + [NewEntry(data).value])
        && models == Load(stored, providers, env)
        && r == Ok(Enrich(Project(NewEntry(data).value), providers, env))
      ensures UniqueIds(old(models)) ==> UniqueIds(models)
    {
      var missing := MissingField(data);
      if missing.Some? {
        return Err("Missing required field: " + missing.value);
      }
      var existing := GetModel(data.id.value);
      if existing.Some? {
        return Err("Model with ID '" + data.id.value + "' already exists");
      }
      var entry := NewEntry(data).value;
      ghost var before := models;
      models := models + [entry];
      Save();
      Reload();
      assert stored == ProjectAll(before + [entry]);
      assert models[|before|] == Enrich(Project(entry), providers, env);
      if UniqueIds(before) {
        AppendNewIdUnique(before, entry, providers, env);
      }
      var found := GetModel(data.id.value);
      assert FirstWithId(models, data.id.value, |before|);
      r := Ok(found.value);
    }

    /** `update_model`. */
    method UpdateModel(id: string, updates: ModelFields) returns (r: Result<ModelConfig>)
      requires Valid()
      modifies this
      ensures Valid()
      ensures !HasId(old(models), id) ==>
        r == Err("Model with ID '" + id + "' not found") && models == old(models) && stored == old(stored)
      ensures forall i :: FirstWithId(old(models), id, i) ==>
        if updates.id.Some? && updates.id.value != id then
          r == Err("Cannot change model ID") && models == old(models) && stored == old(stored)
        else
          && stored == ProjectAll(old(models)[i := Merge(old(models)[i], updates)])
          && models == Load(stored, providers, env)
          && r == Ok(models[i])
    {
      var k := FindIndex(models, id);
      if k.None? {
        return Err("Model with ID '" + id + "' not found");
      }
      var i := k.value;
      if updates.id.Some? && updates.id.value != id {
        return Err("Cannot change model ID");
      }
      ghost var before := models;
      models := models[i := Merge(models[i], updates)];
      Save();
      Reload();
      r := Ok(models[i]);
    }

    /** `delete_model`: removes the first entry with the id and saves, without reloading. */
    method DeleteModel(id: string) returns (removed: bool)
      requires Valid()
      modifies this
      ensures Valid()
      ensures removed <==> HasId(old(models), id)
      ensures !removed ==> models == old(models) && stored == old(stored)
      ensures forall i :: FirstWithId(old(models), id, i) ==>
        models == old(models)[..i] + old(models)[i + 1..] && stored == ProjectAll(models)
    {
      var k := FindIndex(models, id);
      if k.None? {
        return false;
      }
      models := models[..k.value] + models[k.value + 1..];
      Save();
      removed := true;
    }
  }

  /** The entries whose `enabled` key is absent or true (`m.get('enabled', True)`). */
  function EnabledByDefault(ms: seq<ModelConfig>): (r: seq<ModelConfig>)
    ensures forall m :: m in r <==> m in ms && m.enabled != Some(false)
    ensures |r| <= |ms|
  {
    if |ms| == 0 then []
    else (if ms[0].enabled != Some(false) then [ms[0]] else []) + EnabledByDefault(ms[1..])
  }

  /** The filter keeps order and multiplicity: filtering a concatenation filters each part. */
  lemma {:induction false} EnabledByDefaultAppend(a: seq<ModelConfig>, b: seq<ModelConfig>)
    ensures EnabledByDefault(a + b) == EnabledByDefault(a) + EnabledByDefault(b)
    decreases |a|
  {
    if |a| == 0 {
      assert a + b == b;
    } else {
      assert (a + b)[0] == a[0] && (a + b)[1..] == a[1..] + b;
      EnabledByDefaultAppend(a[1..], b);
    }
  }

  /** A single entry is kept exactly when it passes the test. */
  lemma EnabledByDefaultSingle(x: ModelConfig)
    ensures EnabledByDefault([x]) == if x.enabled != Some(false) then [x] else []
  {
    assert [x][1..] == [];
  }

  /** The scan of `for i, model in enumerate(models)` looking for `id`. */
  method FindIndex(ms: seq<ModelConfig>, id: string) returns (k: Option<nat>)
    ensures k.Some? ==> FirstWithId(ms, id, k.value)
    ensures k.None? <==> !HasId(ms, id)
  {
    var i := 0;
    while i < |ms|
      invariant 0 <= i <= |ms|
      invariant forall j :: 0 <= j < i ==> ms[j].id != id
    {
      if ms[i].id == id {
        return Some(i);
      }
      i := i + 1;
    }
    return None;
  }
}
