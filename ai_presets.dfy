/**
 * The AI presets (`ai_presets.py`): a constant table of provider
 * presets and a constant table of task prompts whose user template is
 * filled with the article name.
 */
module AiPresets {
  import opened Wrappers
  import opened Text
  import opened Dicts

  /** One entry of `AI_PROVIDERS`. */
  datatype ProviderPreset = ProviderPreset(
    name: string, model: string, apiKeyEnv: string, priority: nat, capabilities: seq<string>,
    maxTokens: nat, temperature: real, description: string)

  /** One entry of `PROMPTS`. */
  datatype PromptPreset = PromptPreset(system: string, userTemplate: string)

  /** What `get_prompt` returns. */
  datatype Prompt = Prompt(system: string, user: string)

  const Providers: Dict<ProviderPreset> := [
    ("gemini", ProviderPreset("Google Gemini", "gemini-2.0-flash-exp", "GEMINI_API_KEY", 1,
       ["identificacion_material", "clasificacion", "extraccion_marca", "extraccion_modelo", "extraccion_atributos"],
       8000, 0.3, "Google Gemini - Modelo flash optimizado")),
    ("groq", ProviderPreset("Groq", "llama-3.3-70b-versatile", "GROQ_API_KEY", 2,
       ["identificacion_material", "clasificacion", "extraccion_marca", "extraccion_modelo", "analisis_tecnico"],
       4096, 0.2, "Groq - Modelo Llama optimizado")),
    ("openai", ProviderPreset("OpenAI", "gpt-4o", "OPENAI_API_KEY", 3,
       ["identificacion_material", "clasificacion", "extraccion_marca", "extraccion_modelo", "extraccion_atributos",
        "analisis_tecnico", "interpretacion_compleja"],
       16000, 0.1, "OpenAI GPT-4o"))
  ]

  const MaterialSystem :=
    "Eres un experto en identificaci\U{00F3}n de materiales de construcci\U{00F3}n, climatizaci\U{00F3}n y fontaner\U{00ED}a.\n" +
    "Tu tarea es identificar el tipo de material principal a partir del nombre del art\U{00ED}culo.\n" +
    "\n" +
    "Responde SOLO con el tipo de material en formato JSON:\n" +
    "{\n" +
    "    \"material_principal\": \"NOMBRE_MATERIAL\",\n" +
    "    \"confianza\": \"ALTA|MEDIA|BAJA\",\n" +
    "    \"razonamiento\": \"breve explicaci\U{00F3}n\"\n" +
    "}"
  const MaterialHead := "Identifica el material principal en: "

  const FullSystem :=
    "Eres un experto en an\U{00E1}lisis completo de materiales t\U{00E9}cnicos.\n" +
    "Analiza el art\U{00ED}culo y proporciona:\n" +
    "1. Material Principal\n" +
    "2. Categor\U{00ED}a, Subcategor\U{00ED}as y Familia\n" +
    "3. Marca y Modelo\n" +
    "4. Atributos T\U{00E9}cnicos\n" +
    "5. URLs de Verificaci\U{00F3}n\n" +
    "\n" +
    "Responde en formato JSON:\n" +
    "{\n" +
    "    \"material_principal\": \"NOMBRE_IDENTIFICADOR\",\n" +
    "    \"categoria\": \"CATEGORIA\",\n" +
    "    \"subcategorias\": [\"NIVEL1\", \"NIVEL2\"],\n" +
    "    \"familia\": \"FAMILIA\",\n" +
    "    \"marca\": \"MARCA o null\",\n" +
    "    \"modelo\": \"MODELO o null\",\n" +
    "    \"atributos\": {\n" +
    "        \"diametro\": \"valor\",\n" +
    "        \"potencia\": \"valor\"\n" +
    "    },\n" +
    "    \"urls_verificacion\": [],\n" +
    "    \"confianza\": \"ALTA|MEDIA|BAJA\"\n" +
    "}"
  const FullHead := "Analiza completamente este art\U{00ED}culo: "

  /** The one replacement field of the user templates. */
  const ArticleField := "{nombre_articulo}"

  const MaterialPreset := PromptPreset(MaterialSystem, MaterialHead + ArticleField)
  const FullPreset := PromptPreset(FullSystem, FullHead + ArticleField)

  const Prompts: Dict<PromptPreset> := [
    ("identificacion_material", MaterialPreset),
    ("analisis_completo", FullPreset)
  ]

  /** `get_provider_config(name)`: the preset of a known provider, `None` otherwise. */
  function GetProviderConfig(name: string): (r: Option<ProviderPreset>)
    ensures r.Some? <==> name == "gemini" || name == "groq" || name == "openai"
    ensures r.Some? ==> (name, r.value) in Providers
  {
    Get(Providers, name)
  }

  /** Each known provider's preset names the environment variable of its key. */
  lemma ProviderKeyNames()
    ensures GetProviderConfig("gemini").value.apiKeyEnv == "GEMINI_API_KEY"
    ensures GetProviderConfig("groq").value.apiKeyEnv == "GROQ_API_KEY"
    ensures GetProviderConfig("openai").value.apiKeyEnv == "OPENAI_API_KEY"
  {}

  /**
   * `template.format(**kwargs)` for a template whose only replacement
   * field is `{nombre_articulo}`: a missing keyword raises `KeyError`.
   * The error text names the exception; its `str(e)` is only `'nombre_articulo'`.
   */
  function FormatArticle(template: string, kwargs: Dict<string>): Result<string> {
    if !Contains(template, ArticleField) then Ok(template)
    else match Get(kwargs, "nombre_articulo")
      case None => Err("KeyError: 'nombre_articulo'")
      case Some(v) => Ok(ReplaceAll(template, ArticleField, v))
  }

  /** `get_prompt(task, **kwargs)`: `None` for an unknown task, else the system text and the filled template. */
  function GetPrompt(task: string, kwargs: Dict<string>): (r: Result<Option<Prompt>>)
    ensures Get(Prompts, task).None? ==> r == Ok(None)
    ensures r.Ok? && r.value.Some? ==> r.value.value.system == Get(Prompts, task).value.system
  {
    match Get(Prompts, task)
    case None => Ok(None)
    case Some(cfg) =>
      match FormatArticle(cfg.userTemplate, kwargs)
      case Err(e) => Err(e)
      case Ok(u) => Ok(Some(Prompt(cfg.system, u)))
  }

  /** Only the two tasks of the table have prompts. */
  lemma UnknownTaskHasNoPrompt(task: string, kwargs: Dict<string>)
    requires task != "identificacion_material" && task != "analisis_completo"
    ensures GetPrompt(task, kwargs) == Ok(None)
  {}

  /** A task whose template is a head without braces followed by the field gets the article name in place of it. */
  lemma FilledTemplate(task: string, p: PromptPreset, head: string, kwargs: Dict<string>, name: string)
    requires Get(Prompts, task) == Some(p) && p.userTemplate == head + ArticleField
    requires forall j :: 0 <= j < |head| ==> head[j] != '{'
    requires Get(kwargs, "nombre_articulo") == Some(name)
    ensures GetPrompt(task, kwargs) == Ok(Some(Prompt(p.system, head + name)))
  {
    FieldOccurs(head);
    ReplaceAtEnd(head, ArticleField, name);
  }

  /** The material task returns its stored system text verbatim and the article name after its fixed head. */
  lemma MaterialPrompt(kwargs: Dict<string>, name: string)
    requires Get(kwargs, "nombre_articulo") == Some(name)
    ensures GetPrompt("identificacion_material", kwargs) == Ok(Some(Prompt(MaterialSystem, MaterialHead + name)))
  {
    PresetEntries();
    HeadsWithoutBraces();
    FilledTemplate("identificacion_material", MaterialPreset, MaterialHead, kwargs, name);
  }

  /** The full-analysis task likewise. */
  lemma FullPrompt(kwargs: Dict<string>, name: string)
    requires Get(kwargs, "nombre_articulo") == Some(name)
    ensures GetPrompt("analisis_completo", kwargs) == Ok(Some(Prompt(FullSystem, FullHead + name)))
  {
    PresetEntries();
    HeadsWithoutBraces();
    FilledTemplate("analisis_completo", FullPreset, FullHead, kwargs, name);
  }

  lemma PresetEntries()
    ensures Get(Prompts, "identificacion_material") == Some(MaterialPreset)
    ensures Get(Prompts, "analisis_completo") == Some(FullPreset)
  {
    assert Prompts[1..] == [("analisis_completo", FullPreset)];
  }

  lemma HeadsWithoutBraces()
    ensures forall j :: 0 <= j < |MaterialHead| ==> MaterialHead[j] != '{'
    ensures forall j :: 0 <= j < |FullHead| ==> FullHead[j] != '{'
  {}

  /** Without the `nombre_articulo` keyword a known task raises `KeyError`. */
  lemma MissingKeywordRaises(task: string, kwargs: Dict<string>)
    requires task == "identificacion_material" || task == "analisis_completo"
    requires Get(kwargs, "nombre_articulo").None?
    ensures GetPrompt(task, kwargs) == Err("KeyError: 'nombre_articulo'")
  {
    FieldOccurs(MaterialHead);
    FieldOccurs(FullHead);
  }

  lemma FieldOccurs(head: string)
    ensures Contains(head + ArticleField, ArticleField)
  {
    assert OccursAt(head + ArticleField, ArticleField, |head|) by {
      assert (head + ArticleField)[|head|..|head| + |ArticleField|] == ArticleField;
    }
    ContainsIff(head + ArticleField, ArticleField);
  }
}
