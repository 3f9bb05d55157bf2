/**
 * The AI provider drivers (Gemini and OpenAI-compatible) and the factory
 * that picks one from a provider tag.  The remote model is a parameter
 * `server` that maps the request a driver sends to what comes back; the
 * drivers' own logic (configured-state check, request assembly, JSON
 * mode choice, Markdown fence stripping) is modelled exactly.
 */
module AIProviders {
  import opened Wrappers
  import opened Text

  datatype Kind = Gemini | OpenAICompatible

  /** The text `str(provider_name)` gives inside the factory's error message. */
  function TagText(tag: Option<string>): string {
    match tag
    case Some(t) => t
    case None => "None"
  }

  /** `AIFactory.get_provider`: which driver class a provider tag selects. */
  function ProviderKind(tag: Option<string>): (r: Result<Kind>)
    ensures r == Ok(Gemini) <==> tag == Some("gemini") || tag == Some("gemini_native")
    ensures r == Ok(OpenAICompatible) <==> tag == Some("openai_compatible") || tag == Some("openrouter")
    ensures r.Err? ==> r.error == "Unsupported AI provider: " + TagText(tag)
  {
    if tag == Some("gemini") || tag == Some("gemini_native") then Ok(Gemini)
    else if tag == Some("openai_compatible") || tag == Some("openrouter") then Ok(OpenAICompatible)
    else Err("Unsupported AI provider: " + TagText(tag))
  }

  /** Tags outside the four known ones, such as "groq" and "openai", are refused. */
  lemma GroqAndOpenAiTagsRefused()
    ensures ProviderKind(Some("groq")).Err? && ProviderKind(Some("openai")).Err?
  {}

  datatype Message = Message(role: string, content: string)

  /** What a driver hands to the remote model. */
  datatype Request =
    | ChatRequest(model: string, messages: seq<Message>, jsonObjectFormat: bool)
    | PromptRequest(model: string, prompt: string)

  /** The chat messages of the OpenAI-compatible driver. */
  function ChatMessages(prompt: string, system: Option<string>): (r: seq<Message>)
    ensures |r| > 0 && r[|r| - 1] == Message("user", prompt)
    ensures |r| == 2 <==> Truthy(system)
    ensures Truthy(system) ==> r[0] == Message("system", system.value)
    ensures |r| <= 2
  {
    (if Truthy(system) then [Message("system", system.value)] else []) + [Message("user", prompt)]
  }

  /** The single prompt the Gemini driver sends for `generate_text`. */
  function GeminiPrompt(prompt: string, system: Option<string>): (r: string)
    ensures EndsWith(r, prompt)
    ensures !Truthy(system) ==> r == prompt
    ensures Truthy(system) ==> StartsWith(r, "System Instruction: " + system.value + "\n\n")
  {
    if Truthy(system) then "System Instruction: " + system.value + "\n\nUser Prompt: " + prompt else prompt
  }

  /** The JSON instruction the OpenAI-compatible driver appends to the prompt. */
  function OpenAiJsonPrompt(prompt: string, schemaText: string): string {
    prompt + "\n\nYou must respond with valid JSON matching this schema:\n" + schemaText
    + "\n\nResponse must be ONLY the JSON object, no markdown formatting."
  }

  /** The Gemini driver's indented JSON instruction, prefixed by the system text when there is one. */
  function GeminiJsonPrompt(prompt: string, schemaText: string, system: Option<string>): (r: string)
    ensures Truthy(system) ==> StartsWith(r, "System Instruction: " + system.value + "\n\n")
    ensures !Truthy(system) ==> StartsWith(r, "\n        " + prompt)
  {
    var body := "\n        " + prompt + "\n        \n        You must respond with valid JSON matching this schema:\n        "
                + schemaText + "\n        \n        Response must be ONLY the JSON object, no markdown formatting.\n        ";
    if Truthy(system) then "System Instruction: " + system.value + "\n\n" + body else body
  }

  /** `response_format={"type": "json_object"}` only for model names containing "gpt" in any case. */
  predicate WantsJsonObject(modelName: string) { Contains(Lower(modelName), "gpt") }

  /** The fence clean-up both drivers apply to a JSON reply before parsing it. */
  function CleanJsonText(text: string): string {
    var t0 := Strip(text);
    var t1 := if StartsWith(t0, "```json") then t0[7..] else t0;
    var t2 := if StartsWith(t1, "```") then t1[3..] else t1;
    var t3 := if EndsWith(t2, "```") then t2[..|t2| - 3] else t2;
    Strip(t3)
  }

  /** A reply fenced as a json block gives its trimmed body. */
  lemma CleanJsonFenced(body: string)
    requires |body| > 0 && body[0] != '`'
    ensures CleanJsonText("```json" + body + "```") == Strip(body)
  {
    var text := "```json" + body + "```";
    TrimLeftNoSpace(text, IsPySpace);
    TrimRightNoSpace(text, IsPySpace);
    assert Strip(text) == text;
    assert text[..7] == "```json";
    var t1 := text[7..];
    assert t1 == body + "```";
    assert t1[..3] != "```" by { assert t1[0] == body[0]; }
    assert t1[|t1| - 3..] == "```";
    assert t1[..|t1| - 3] == body;
  }

  /** A reply fenced without a language tag gives its trimmed body. */
  lemma CleanPlainFenced(body: string)
    requires |body| > 0 && body[0] != '`' && body[0] != 'j'
    ensures CleanJsonText("```" + body + "```") == Strip(body)
  {
    var text := "```" + body + "```";
    FencedIsStripped(text);
    assert !StartsWith(text, "```json") by {
      assert text[3] == body[0];
      if |text| >= 7 { assert text[..7][3] == text[3]; }
    }
    CleanUntagged(text, body);
  }

  /** Text between backticks has nothing for `strip` to remove. */
  lemma FencedIsStripped(t: string)
    requires |t| > 0 && t[0] == '`' && t[|t| - 1] == '`'
    ensures Strip(t) == t
  {
    TrimLeftNoSpace(t, IsPySpace);
    TrimRightNoSpace(t, IsPySpace);
  }

  /** The untagged steps of the clean-up on an already stripped fence. */
  lemma CleanUntagged(t: string, body: string)
    requires t == "```" + body + "```" && Strip(t) == t && !StartsWith(t, "```json")
    ensures CleanJsonText(t) == Strip(body)
  {
    assert t[..3] == "```";
    var t2 := t[3..];
    assert t2 == body + "```";
    assert t2[|t2| - 3..] == "```";
    assert t2[..|t2| - 3] == body;
  }

  /** Text that neither starts nor ends with a backtick has no fence to remove. */
  lemma NoBacktickNoFence(t: string)
    requires |t| == 0 || (t[0] != '`' && t[|t| - 1] != '`')
    ensures !StartsWith(t, "```json") && !StartsWith(t, "```") && !EndsWith(t, "```")
  {
    if |t| >= 3 {
      assert t[..3][0] == t[0];
      assert t[|t| - 3..][2] == t[|t| - 1];
    }
  }

  /** A reply with no fence at either end is only trimmed. */
  lemma CleanUnfenced(text: string)
    requires |Strip(text)| == 0 || (Strip(text)[0] != '`' && Strip(text)[|Strip(text)| - 1] != '`')
    ensures CleanJsonText(text) == Strip(text)
  {
    NoBacktickNoFence(Strip(text));
    StripIdempotent(text);
  }

  /** The request `generate_text` sends from a driver of `kind` configured with `modelName`. */
  function TextRequestOf(kind: Kind, modelName: string, prompt: string, system: Option<string>): Request {
    match kind
    case OpenAICompatible => ChatRequest(modelName, ChatMessages(prompt, system), false)
    case Gemini => PromptRequest(modelName, GeminiPrompt(prompt, system))
  }

  /** The request `generate_json` sends. */
  function JsonRequestOf(kind: Kind, modelName: string, prompt: string, schemaText: string,
                         system: Option<string>): Request {
    match kind
    case OpenAICompatible =>
      ChatRequest(modelName, ChatMessages(OpenAiJsonPrompt(prompt, schemaText), system), WantsJsonObject(modelName))
    case Gemini => PromptRequest(modelName, GeminiJsonPrompt(prompt, schemaText, system))
  }

  /** The message a driver raises when it is used before `configure`. */
  function NotConfiguredMessage(kind: Kind): string {
    match kind
    case Gemini => "Gemini provider not configured"
    case OpenAICompatible => "Provider not configured"
  }

  /** One driver instance: `GeminiProvider` or `OpenAICompatibleProvider`. */
  class Provider {
    const kind: Kind
    /** Whether `configure` has run (the client or model object is set). */
    var configured: bool
    var apiKey: string
    var modelName: string
    /** The base URL the OpenAI client was created with. */
    var baseUrl: Option<string>

    constructor(kind: Kind)
      ensures this.kind == kind && !configured && baseUrl.None?
    {
      this.kind := kind;
      configured := false;
      apiKey := "";
      modelName := "";
      baseUrl := None;
    }

    /** `configure`: the OpenAI client receives the base URL only when it is non-empty; Gemini ignores it. */
    method Configure(key: string, model: string, url: Option<string>)
      modifies this
      ensures configured && apiKey == key && modelName == model
      ensures baseUrl == (if kind == OpenAICompatible && Truthy(url) then url else None)
    {
      configured := true;
      apiKey := key;
      modelName := model;
      baseUrl := if kind == OpenAICompatible && Truthy(url) then url else None;
    }

    /** `generate_text`: refuses before `configure`, otherwise returns the remote reply. */
    function GenerateText(prompt: string, system: Option<string>, server: Request -> Outcome): (r: Result<string>)
      reads this
      ensures !configured ==> r == Err(NotConfiguredMessage(kind))
      ensures configured && server(TextRequestOf(kind, modelName, prompt, system)).Success? ==>
                r == Ok(server(TextRequestOf(kind, modelName, prompt, system)).text)
      ensures configured && server(TextRequestOf(kind, modelName, prompt, system)).Failure? ==>
                r == Err(server(TextRequestOf(kind, modelName, prompt, system)).message)
    {
      if !configured then Err(NotConfiguredMessage(kind))
      else match server(TextRequestOf(kind, modelName, prompt, system))
        case Success(t) => Ok(t)
        case Failure(e) => Err(e)
    }

    /**
     * `generate_json` up to the call of `json.loads`: the text handed to the
     * parser, which is the reply with its Markdown fences removed.
     */
    function GenerateJsonText(prompt: string, schemaText: string, system: Option<string>,
                              server: Request -> Outcome): (r: Result<string>)
      reads this
      ensures !configured ==> r == Err(NotConfiguredMessage(kind))
      ensures configured && server(JsonRequestOf(kind, modelName, prompt, schemaText, system)).Success? ==>
                r == Ok(CleanJsonText(server(JsonRequestOf(kind, modelName, prompt, schemaText, system)).text))
      ensures configured && server(JsonRequestOf(kind, modelName, prompt, schemaText, system)).Failure? ==>
                r == Err(server(JsonRequestOf(kind, modelName, prompt, schemaText, system)).message)
    {
      if !configured then Err(NotConfiguredMessage(kind))
      else match server(JsonRequestOf(kind, modelName, prompt, schemaText, system))
        case Success(t) => Ok(CleanJsonText(t))
        case Failure(e) => Err(e)
    }
  }

  /** `AIFactory.get_provider`: a fresh, unconfigured driver of the selected kind. */
  method GetProvider(tag: Option<string>) returns (r: Result<Provider>)
    ensures ProviderKind(tag).Err? ==> r == Err(ProviderKind(tag).error)
    ensures ProviderKind(tag).Ok? ==> r.Ok? && fresh(r.value) && r.value.kind == ProviderKind(tag).value
                                      && !r.value.configured
  {
    match ProviderKind(tag)
    case Ok(k) =>
      var p := new Provider(k);
      r := Ok(p);
    case Err(e) =>
      r := Err(e);
  }
}
