/**
 * The model-registry HTTP endpoints (`models/router.py`): the list and
 * get responses hide the API key behind a `has_api_key` flag, and the
 * manager's failures become HTTP statuses.
 */
module ModelsApi {
  import opened Wrappers
  import opened ModelRegistry

  /** A registry entry as the list and get endpoints return it: every key but `api_key`, plus `has_api_key`. */
  datatype ModelView = ModelView(
    id: string, name: string, provider: string, modelId: string,
    description: Option<string>, enabled: Option<bool>, parameters: Option<Params>,
    baseUrl: Option<string>, schema: Option<Option<string>>, headers: Option<Headers>,
    hasApiKey: bool)

  /** An HTTP reply: a body, or an `HTTPException` with its status and detail. */
  datatype Response<T> = Reply(body: T) | HttpError(status: nat, detail: string)

  const NotFound := "Model not found"

  /** The redaction of one entry. */
  function Redact(m: ModelConfig): (v: ModelView)
    ensures v.hasApiKey <==> Truthy(m.apiKey)
    ensures v.id == m.id && v.name == m.name && v.provider == m.provider && v.modelId == m.modelId
    ensures v.description == m.description && v.enabled == m.enabled && v.parameters == m.parameters
    ensures v.baseUrl == m.baseUrl && v.schema == m.schema && v.headers == m.headers
  {
    ModelView(m.id, m.name, m.provider, m.modelId, m.description, m.enabled, m.parameters,
              m.baseUrl, m.schema, m.headers, Truthy(m.apiKey))
  }

  /** The entry a view came from, given back its key. */
  function Restore(v: ModelView, apiKey: Option<string>): ModelConfig {
    ModelConfig(v.id, v.name, v.provider, v.modelId, v.description, v.enabled, v.parameters,
                apiKey, v.baseUrl, v.schema, v.headers)
  }

  /** Redaction loses the key and nothing else. */
  lemma RedactRestore(m: ModelConfig)
    ensures Restore(Redact(m), m.apiKey) == m
  {}

  /** Two entries that differ only in their key have the same view up to the flag. */
  lemma RedactIgnoresKeyValue(m: ModelConfig, key: string)
    requires Truthy(m.apiKey) && key != ""
    ensures Redact(m.(apiKey := Some(key))) == Redact(m)
  {}

  function RedactAll(ms: seq<ModelConfig>): (r: seq<ModelView>)
    ensures |r| == |ms| && forall i :: 0 <= i < |ms| ==> r[i] == Redact(ms[i])
  {
    seq(|ms|, i requires 0 <= i < |ms| => Redact(ms[i]))
  }

  /** `GET /`: the redacted entries, all of them or the enabled ones. */
  function ListModels(mm: ModelManager, enabledOnly: bool): (r: Response<seq<ModelView>>)
    reads mm
    ensures r.Reply? && |r.body| == |mm.ListModels(enabledOnly)|
    ensures forall i :: 0 <= i < |r.body| ==> r.body[i] == Redact(mm.ListModels(enabledOnly)[i])
  {
    Reply(RedactAll(mm.ListModels(enabledOnly)))
  }

  /** `GET /{model_id}`: 404 for an unknown id, else the redacted entry. */
  method GetModel(mm: ModelManager, id: string) returns (r: Response<ModelView>)
    ensures r.HttpError? <==> !HasId(mm.models, id)
    ensures r.HttpError? ==> r == HttpError(404, NotFound)
    ensures r.Reply? ==> r.body == Redact(ModelWithId(mm.models, id).value)
  {
    var m := mm.GetModel(id);
    if m.None? {
      return HttpError(404, NotFound);
    }
    r := Reply(Redact(m.value));
  }

  /**
   * The request body of create and update, after validation: name,
   * provider and model id are required, `enabled` defaults to true and
   * the other fields to `None`.
   */
  datatype ModelRequest = ModelRequest(
    id: Option<string>, name: string, provider: string, apiKey: Option<string>, baseUrl: Option<string>,
    modelId: string, description: Option<string>, enabled: Option<bool>, parameters: Option<Params>)

  /** `model_data.dict(exclude_none=True)`: the fields holding `None` are left out. */
  function FieldsOf(q: ModelRequest): (d: ModelFields)
    ensures d.name == Some(q.name) && d.provider == Some(q.provider) && d.modelId == Some(q.modelId)
    ensures d.id == q.id && d.apiKey == q.apiKey && d.baseUrl == q.baseUrl
    ensures d.description == q.description && d.enabled == q.enabled && d.parameters == q.parameters
  {
    ModelFields(q.id, Some(q.name), Some(q.provider), Some(q.modelId), q.description, q.enabled,
                q.parameters, q.apiKey, q.baseUrl)
  }

  /** A request without an id is refused by the manager: the id is the only required field that can be missing. */
  lemma MissingIdOnly(q: ModelRequest)
    ensures MissingField(FieldsOf(q)) == if q.id.None? then Some("id") else None
  {}

  /**
   * `POST /`: the manager's `ValueError` becomes 400.  The success body
   * carries the stored entry as the manager returns it, key included.
   */
  method CreateModel(mm: ModelManager, q: ModelRequest) returns (r: Response<ModelConfig>)
    requires mm.Valid()
    modifies mm
    ensures mm.Valid()
    ensures q.id.None? ==> r == HttpError(400, "Missing required field: id")
    ensures q.id.Some? && HasId(old(mm.models), q.id.value) ==>
              r == HttpError(400, "Model with ID '" + q.id.value + "' already exists")
    ensures q.id.Some? && !HasId(old(mm.models), q.id.value) ==>
              r == Reply(Enrich(Project(NewEntry(FieldsOf(q)).value), mm.providers, mm.env))
    ensures q.id.None? || HasId(old(mm.models), q.id.value) ==>
              mm.models == old(mm.models) && mm.stored == old(mm.stored)
    ensures q.id.Some? && !HasId(old(mm.models), q.id.value) ==>
              && mm.stored == ProjectAll(old(mm.models) + [NewEntry(FieldsOf(q)).value])
              && mm.models == Load(mm.stored, mm.providers, mm.env)
    ensures r.Reply? ==> q.id.Some? && HasId(mm.models, q.id.value)
  {
    ghost var before := mm.models;
    var res := mm.AddModel(FieldsOf(q));
    r := if res.Ok? then Reply(res.value) else HttpError(400, res.error);
    if res.Ok? {
      var entry := NewEntry(FieldsOf(q)).value;
      LoadSavedIds(before + [entry], mm.providers, mm.env);
      assert (before + [entry])[|before|] == entry;
      assert mm.models[|before|].id == q.id.value;
    }
  }

  /** `PUT /{model_id}`: unknown id or an id change is a `ValueError`, hence 400. */
  method UpdateModel(mm: ModelManager, id: string, q: ModelRequest) returns (r: Response<ModelConfig>)
    requires mm.Valid()
    modifies mm
    ensures mm.Valid()
    ensures !HasId(old(mm.models), id) ==> r == HttpError(400, "Model with ID '" + id + "' not found")
    ensures forall i :: FirstWithId(old(mm.models), id, i) ==>
              if q.id.Some? && q.id.value != id then r == HttpError(400, "Cannot change model ID")
              else i < |mm.models| && r == Reply(mm.models[i])
    ensures !HasId(old(mm.models), id) ==> mm.models == old(mm.models) && mm.stored == old(mm.stored)
    ensures forall i :: FirstWithId(old(mm.models), id, i) ==>
              if q.id.Some? && q.id.value != id then mm.models == old(mm.models) && mm.stored == old(mm.stored)
              else
                && mm.stored == ProjectAll(old(mm.models)[i := Merge(old(mm.models)[i], FieldsOf(q))])
                && mm.models == Load(mm.stored, mm.providers, mm.env)
  {
    var res := mm.UpdateModel(id, FieldsOf(q));
    r := if res.Ok? then Reply(res.value) else HttpError(400, res.error);
  }

  /**
   * An update always sends `enabled` (true unless given): updating a
   * disabled entry without saying `enabled` enables it again.
   */
  lemma UpdateReenables(m: ModelConfig, q: ModelRequest)
    requires q.enabled == Some(true)
    ensures Merge(m, FieldsOf(q)).enabled == Some(true)
  {}

  /** `DELETE /{model_id}`: 404 when nothing was removed. */
  method DeleteModel(mm: ModelManager, id: string) returns (r: Response<bool>)
    requires mm.Valid()
    modifies mm
    ensures mm.Valid()
    ensures r.HttpError? <==> !HasId(old(mm.models), id)
    ensures r.HttpError? ==> r == HttpError(404, NotFound)
    ensures r.Reply? ==> r.body
    ensures r.HttpError? ==> mm.models == old(mm.models) && mm.stored == old(mm.stored)
    ensures forall i :: FirstWithId(old(mm.models), id, i) ==>
              mm.models == old(mm.models)[..i] + old(mm.models)[i + 1..] && mm.stored == ProjectAll(mm.models)
  {
    var removed := mm.DeleteModel(id);
    if !removed {
      return HttpError(404, NotFound);
    }
    r := Reply(true);
  }
}
