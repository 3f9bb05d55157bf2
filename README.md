# DEVIA text-to-SQL assistant — a Dafny model of its core

DEVIA answers questions about a Firebird 2.5 business database (articles,
customers, invoices, suppliers) in natural language. A chat turn turns
the question into SQL with a language model and runs that SQL. Failing
queries are repaired by asking a model for a correction. Finally a model
narrates the rows back. Two parts make this robust:

- the **model fallback orchestrator** ranks the enabled models and tries
  each one a bounded number of times;
- the **SQL corrector** classifies database errors and runs a bounded
  execute-and-repair recursion.

Around them sit the pieces that feed a turn:

- the model registry and its HTTP endpoints;
- the AI provider drivers and their factory;
- the schema-context producers: the keyword-indexed metadata manager, the
  constant semantic schema and the metadata extraction script;
- the decoding of database bytes (UTF-8, then ISO/IEC 8859-1);
- the database-table and data-quality services;
- the e-mail analyzer and its attachment analyzer;
- the mail view of the web client (HTML escaping, the analysis tree, the
  polled list of e-mails).

Each source module is one Dafny module:

- Pure code is written as datatypes, functions and lemmas.
- Code that changes state step by step is written as methods with loops.
  These are proved against specification functions.
- An object whose fields its methods update is a `class`: the registry,
  the metadata manager, a configured provider and the view's e-mail list.

Whatever lies outside the process is a function-valued parameter fixed
for the run:

- language models: call number and request to the reply or exception;
- the database: query to rows or exception;
- `json.loads`, date parsing and the document text extractors.

Waits are counted, not timed. Shared helpers model the exact behaviour
of the Python and JavaScript built-ins the code relies on:

- `Text`: `strip`, `split`, `join`, `replace`, `find`, ASCII case
  mapping and integer rendering;
- `Dicts`: insertion-ordered dictionaries;
- `Sorting`: the stable `sorted(..., reverse=True)`;
- `Wrappers`: `Option`, `Result` and the outcome of an external call.

Some behaviours of the code are easy to miss when reading it; the model
follows the code in each of them:

- **Missing API key.** In the orchestrator, a candidate without an API key
  is not skipped. Each of its attempts counts, fails and is followed by
  the usual wait (`Fallback.MissingKeyStillRetried`). The e-mail
  analyzer, by contrast, does skip such models.
- **Waits.** The orchestrator waits only between two attempts of the same
  model, never after a model's last attempt. It reports SWITCHING only
  when it moves to a later model.
- **Failure message.** When correction or interpretation fails, the
  message quotes the normalised query as the model first produced it, not
  the query the corrector last ran.
- **`enabled` flag.** The orchestrator and the database service treat an
  absent `enabled` as disabled. `list_models(enabled_only=True)` treats it
  as enabled, and so do the e-mail and attachment analyzers, which use it.
- **Update re-enables.** An update through the HTTP endpoint always sends
  `enabled`, defaulting to true, so it re-enables a disabled model
  (`ModelsApi.UpdateReenables`). Create and update responses include the
  stored API key; only list and get redact it.
- **`analysis_service.py` cannot be imported.** Line 81 uses `//` as a
  comment. `analyze_content` is defined three times, and only the last
  definition (lines 336-393) takes effect. The model follows
  `calculate_stats` and that last definition, and leaves the
  unreachable code out.
- **Unreachable decoding branches.** In `safe_decode`, ISO/IEC 8859-1
  decoding never fails, so the cp1252, ISO-8859-15 and `str()` branches
  cannot be reached (`Encoding.SafeDecodeLatin1`).

## Model

| member | source | states |
|---|---|---|
| AIProviders.ProviderKind | backend/core/factory/ai_factory.py:9-16 | "gemini" and "gemini_native" select the Gemini driver, "openai_compatible" and "openrouter" the OpenAI-compatible one, each in both directions; any other tag fails with "Unsupported AI provider: " and the tag |
| AIProviders.GroqAndOpenAiTagsRefused | backend/core/factory/ai_factory.py:11-16 | the tags "groq" and "openai" are not accepted by the factory |
| AIProviders.GetProvider | backend/core/factory/ai_factory.py:9-16 | an accepted tag yields a fresh, unconfigured driver of the selected kind; a refused tag yields the factory's error |
| AIProviders.ChatMessages | backend/drivers/ai/openai_compatible_provider.py:33-36 | the user message with the prompt is always last; a system message comes first exactly when the system instruction is non-empty; never more than two messages |
| AIProviders.GeminiPrompt | backend/drivers/ai/gemini_provider.py:24-26 | the sent text ends with the prompt; without a system instruction it is the prompt itself, with one it starts with "System Instruction: ", the instruction and a blank line |
| AIProviders.GeminiJsonPrompt | backend/drivers/ai/gemini_provider.py:37-47 | the JSON instruction is prefixed by the system instruction when there is one, and otherwise starts with the indented prompt |
| AIProviders.CleanJsonFenced | backend/drivers/ai/gemini_provider.py:50-60 | a reply fenced as a json code block is reduced to its trimmed body |
| AIProviders.CleanPlainFenced | backend/drivers/ai/openai_compatible_provider.py:68-78 | a reply fenced without a language tag is reduced to its trimmed body |
| AIProviders.NoBacktickNoFence | backend/drivers/ai/openai_compatible_provider.py:71-76 | a text that neither starts nor ends with a backtick matches none of the three fence tests |
| AIProviders.CleanUnfenced | backend/drivers/ai/openai_compatible_provider.py:68-78 | a reply without a fence at either end is only trimmed |
| AIProviders.Provider.constructor | backend/drivers/ai/openai_compatible_provider.py:13-15 | a new driver has its kind and is not configured |
| AIProviders.Provider.Configure | backend/drivers/ai/openai_compatible_provider.py:17-27 | the driver becomes configured with the key and model; the base URL is kept only by the OpenAI-compatible driver and only when non-empty |
| AIProviders.Provider.GenerateText | backend/drivers/ai/gemini_provider.py:16-29 | before configure the call fails with the driver's not-configured message; afterwards the remote reply to the driver's text request is returned, or its failure propagated |
| AIProviders.Provider.GenerateJsonText | backend/drivers/ai/openai_compatible_provider.py:45-78 | before configure the call fails; afterwards the text handed to the JSON parser is the remote reply with its fences removed, or the remote failure |
| ModelRegistry.ApiKeyFromEnv | backend/core/config/model_manager.py:29-37 | the four known variable names give the matching settings key; any other name gives no key |
| ModelRegistry.Project | backend/core/config/model_manager.py:84-95 | the saved form of an entry keeps id, name, provider and model id, fills description, enabled and parameters with their defaults ("", true, {}) when absent, and drops key, base URL, schema and headers |
| ModelRegistry.ProjectAll | backend/core/config/model_manager.py:84-95 | every entry is projected, in order |
| ModelRegistry.ProjectIdempotent | backend/core/config/model_manager.py:80-101 | saving what was just saved writes the same file |
| ModelRegistry.Enrich | backend/core/config/model_manager.py:51-73 | an entry whose provider is unknown or empty is kept as is; otherwise base URL and schema come from the provider, the key from the settings when that key is non-empty, the headers from the provider when they are non-empty; the persisted fields never change |
| ModelRegistry.Load | backend/core/config/model_manager.py:39-75 | loading enriches every file entry, in order |
| ModelRegistry.LoadKeepsPersistedFields | backend/core/config/model_manager.py:39-101 | loading then saving writes back the same persisted fields |
| ModelRegistry.ModelWithId | backend/core/config/model_manager.py:109-114 | the result is the first entry with the id, and none exactly when no entry has it |
| ModelRegistry.Merge | backend/core/config/model_manager.py:151 | every field present in the update overwrites the entry's value, every absent one is kept; schema and headers are untouched |
| ModelRegistry.ModelManager.constructor | backend/core/config/model_manager.py:10-14 | the in-memory registry is the enriched file and agrees with it |
| ModelRegistry.ModelManager.Reload | backend/core/config/model_manager.py:167-170 | the registry is rebuilt from the unchanged file |
| ModelRegistry.ModelManager.Save | backend/core/config/model_manager.py:80-101 | the file becomes the projection of the unchanged registry |
| ModelRegistry.ModelManager.ListModels | backend/core/config/model_manager.py:103-107 | all entries, or `EnabledByDefault` of them: exactly those whose enabled key is absent or true, in registry order |
| ModelRegistry.ModelManager.GetModel | backend/core/config/model_manager.py:109-114 | the first entry with the id, or none exactly when the id is absent |
| ModelRegistry.ModelManager.AddModel | backend/core/config/model_manager.py:120-141 | the first missing required key, or an existing id, fails with the source's message and changes nothing; otherwise the defaulted entry is appended, saved and reloaded, the enriched new entry is returned, and distinct ids stay distinct |
| ModelRegistry.ModelManager.UpdateModel | backend/core/config/model_manager.py:143-156 | an unknown id fails with "not found", a changed id with "Cannot change model ID", neither changing anything; otherwise the first matching entry is merged, saved and reloaded, and the reloaded entry returned |
| ModelRegistry.ModelManager.DeleteModel | backend/core/config/model_manager.py:158-165 | the result is true exactly when the id was present; then the first matching entry is removed and the file saved without reloading; otherwise nothing changes |
| ModelRegistry.EnabledByDefault | backend/core/config/model_manager.py:106 | exactly the entries whose enabled key is absent or true |
| ModelRegistry.EnabledByDefaultAppend | backend/core/config/model_manager.py:106 | the filter distributes over concatenation, so it keeps registry order and each entry's multiplicity |
| ModelRegistry.EnabledByDefaultSingle | backend/core/config/model_manager.py:106 | one entry is kept exactly when its enabled key is absent or true |
| ModelRegistry.FindIndex | backend/core/config/model_manager.py:145-146 | the index of the first entry with the id, or none exactly when no entry has it |
| ModelRegistry.LoadSavedIds | backend/core/config/model_manager.py:39-101 | saving then loading keeps every entry's id in place |
| ModelRegistry.AppendNewIdUnique | backend/core/config/model_manager.py:120-141 | an entry with a new id, appended to a list of distinct ids and reloaded, keeps the ids distinct |
| ModelsApi.Redact | backend/modules/models/router.py:35-41 | the view keeps every field but the key, and has_api_key is true exactly when the key is non-empty |
| ModelsApi.RedactRestore | backend/modules/models/router.py:54-55 | redaction loses the key and nothing else |
| ModelsApi.RedactIgnoresKeyValue | backend/modules/models/router.py:54-55 | the view does not depend on which non-empty key an entry holds |
| ModelsApi.RedactAll | backend/modules/models/router.py:35-41 | every entry is redacted, in order |
| ModelsApi.ListModels | backend/modules/models/router.py:29-41 | the listing is the manager's list with each entry redacted |
| ModelsApi.GetModel | backend/modules/models/router.py:45-56 | 404 "Model not found" exactly when the id is unknown, else the redacted entry |
| ModelsApi.FieldsOf | backend/modules/models/router.py:18-27 | the request fields holding None are left out; name, provider and model id are always present |
| ModelsApi.MissingIdOnly | backend/modules/models/router.py:62-70 | a create request can only fail validation on the id |
| ModelsApi.CreateModel | backend/modules/models/router.py:62-72 | a missing or duplicate id becomes 400 with the manager's message and changes nothing; otherwise the entry is appended, the file saved and the registry reloaded from it, the new id is then in the registry, and the body is the stored entry, key included |
| ModelsApi.UpdateModel | backend/modules/models/router.py:74-84 | an unknown id or a changed id becomes 400 with the manager's message and changes nothing; otherwise the first entry with the id is merged with the request, the file saved and the registry reloaded, and the body is the reloaded entry |
| ModelsApi.UpdateReenables | backend/modules/models/router.py:26 | an update that does not give enabled sends true and so re-enables the entry |
| ModelsApi.DeleteModel | backend/modules/models/router.py:86-97 | 404 "Model not found" exactly when the id is unknown, and then nothing changes; otherwise the first entry with the id is removed and the file saved |
| AiPresets.GetProviderConfig | backend/core/config/ai_presets.py:89-90 | a preset exists exactly for "gemini", "groq" and "openai", and it is the table's entry for that name |
| AiPresets.ProviderKeyNames | backend/core/config/ai_presets.py:8-34 | each known provider's preset names the environment variable of its key |
| AiPresets.GetPrompt | backend/core/config/ai_presets.py:92-99 | an unknown task gives None; a known one gives its stored system text with the filled user template |
| AiPresets.UnknownTaskHasNoPrompt | backend/core/config/ai_presets.py:93-95 | only the two tasks of the table have prompts |
| AiPresets.FilledTemplate | backend/core/config/ai_presets.py:96-99 | a template made of a brace-free head and the article field becomes the head followed by the article name |
| AiPresets.MaterialPrompt | backend/core/config/ai_presets.py:49-59 | the material task gives its system text verbatim and "Identifica el material principal en: " followed by the article name |
| AiPresets.FullPrompt | backend/core/config/ai_presets.py:61-85 | the full-analysis task gives its system text verbatim and "Analiza completamente este artículo: " followed by the article name |
| AiPresets.MissingKeywordRaises | backend/core/config/ai_presets.py:98 | without the nombre_articulo keyword a known task raises KeyError |
| Attachments.PiecesConcat | backend/modules/outlook/attachment_analyzer.py:24-32 | the slices taken every max characters, joined, give back the text |
| Attachments.PiecesCount | backend/modules/outlook/attachment_analyzer.py:27-30 | there are no slices exactly for the empty text, and otherwise the smallest number of max-character slices that hold the whole text |
| Attachments.PiecesSizes | backend/modules/outlook/attachment_analyzer.py:28 | every slice but the last has exactly max characters; the last has between 1 and max |
| Attachments.PiecesAt | backend/modules/outlook/attachment_analyzer.py:28-30 | slice i is the text from i·max to (i+1)·max, cut at the end of the text |
| Attachments.ChunksSpec | backend/modules/outlook/attachment_analyzer.py:16-32 | the chunks joined are the text; a text that fits, the empty one included, is its own single chunk; a longer one gives at least two chunks, each but the last of exactly max characters, none longer |
| Attachments.ChunkText | backend/modules/outlook/attachment_analyzer.py:16-32 | the loop produces exactly the chunks ChunksSpec describes |
| Attachments.FirstReplyAnswered | backend/modules/outlook/attachment_analyzer.py:196-214 | when model j is the first enabled model whose attempt answers, its stripped answer is the reply |
| Attachments.FirstReplyAllFailed | backend/modules/outlook/attachment_analyzer.py:216-220 | when no enabled model answers, the reply is the fixed "todos los modelos AI fallaron" text |
| Attachments.GenerateWithFallback | backend/modules/outlook/attachment_analyzer.py:190-220 | the loop over the enabled models returns the first answer in list order, or the fixed failure text |
| Attachments.PartSummaries | backend/modules/outlook/attachment_analyzer.py:53-63 | one line per chunk, in order: "Parte i+1: " and the answer to that chunk's prompt |
| Attachments.TextPromptsSpec | backend/modules/outlook/attachment_analyzer.py:34-72 | a text of at most 15000 characters is sent in one prompt carrying at most its first 10000; a longer one in k ≥ 2 part prompts, part i carrying the i-th 15000-character slice, followed by one combining prompt |
| Attachments.AnalyzeTextAttachment | backend/modules/outlook/attachment_analyzer.py:34-72 | the method returns the answer to the last prompt the analysis sends |
| Attachments.DecodeIgnoreWellFormed | backend/modules/outlook/attachment_analyzer.py:170 | decoding with errors ignored drops nothing from well-formed UTF-8 |
| Attachments.RouteOf | backend/modules/outlook/attachment_analyzer.py:169-184 | text, json or csv types go to the text analyzer, then pdf, then image, then Word or Excel by type or extension, each only when the earlier tests fail; anything else is unsupported |
| Attachments.DocumentRouteIsRead | backend/modules/outlook/attachment_analyzer.py:118-163 | an attachment routed to the document analyzer is always read by the Word reader or, failing the Word tests, the Excel one: the analyzer's own refusal is unreachable from here |
| Attachments.TextAttachmentAnalysed | backend/modules/outlook/attachment_analyzer.py:169-171 | a text attachment holding well-formed UTF-8 is analysed on exactly the text it encodes |
| Attachments.Chunks | backend/modules/outlook/attachment_analyzer.py:16-32 | `_chunk_text`; pinned down by `ChunksSpec`, `PiecesConcat`, `PiecesCount`, `PiecesSizes` and `PiecesAt` |
| Attachments.FirstReply | backend/modules/outlook/attachment_analyzer.py:190-220 | `_generate_with_fallback` from model j on; pinned down by `FirstReplyAnswered`, `FirstReplyAllFailed` and `GenerateWithFallback` |
| Attachments.TextPrompts | backend/modules/outlook/attachment_analyzer.py:34-72 | the prompts `analyze_text_attachment` sends; pinned down by `TextPromptsSpec` and `PartSummaries` |
| Attachments.AnalyzeText | backend/modules/outlook/attachment_analyzer.py:34-72 | `analyze_text_attachment`; pinned down by `TextPromptsSpec` and `AnalyzeTextAttachment` |
| Attachments.AnalyzeAttachment | backend/modules/outlook/attachment_analyzer.py:165-188 | `analyze_attachment`: the dispatch by type and extension; pinned down by `RouteOf`, `DocumentRouteIsRead`, `TextAttachmentAnalysed` and `DecodeIgnoreWellFormed` |
| ChatService.RecentHistory | backend/modules/chat/service.py:121-125 | the window is the last ten messages of the history, or all of them when there are at most ten |
| ChatService.HistoryLinesConcat | backend/modules/chat/service.py:131-137 | the lines of two runs of messages are the lines of the first followed by those of the second |
| ChatService.BuildHistoryContext | backend/modules/chat/service.py:128-138 | the loop builds the header, one line per message of the window in order, and the footer, or nothing for an empty window |
| ChatService.OtherRolesSkipped | backend/modules/chat/service.py:132-137 | a message whose role (default "user") is neither user nor assistant adds nothing |
| ChatService.OlderHistoryIgnored | backend/modules/chat/service.py:124-125 | messages older than the last ten never reach the prompt |
| ChatService.EmptyHistoryNoBlock | backend/modules/chat/service.py:128-129 | the history block is empty exactly when there is no history |
| ChatService.ConnectionParams | backend/modules/chat/service.py:459-462 | the connection parameters drop "username", carry its value as "user" when it was present, and keep every other key; without "username" they are the input |
| ChatService.ExecuteSql | backend/modules/chat/service.py:445-497 | the retry loop makes the attempts, waits and result that the three-attempt specification describes |
| ChatService.ExecuteSqlSucceedsIff | backend/modules/chat/service.py:452-485 | the call succeeds exactly when one of its three attempts does; it then returns the rows of the first successful attempt, every earlier attempt having failed and been followed by a wait of its number times half a second |
| ChatService.ExecuteSqlAllFail | backend/modules/chat/service.py:494-497 | when all three attempts fail the error is "Error después de 3 intentos: " and the last attempt's error, after waits of 0.5 s and 1 s |
| ChatService.InjectFirst | backend/modules/chat/service.py:239-242 | a SELECT without FIRST (upper-cased test) gets " FIRST 100" after its first six characters; any other query is unchanged |
| ChatService.InjectFirstLimits | backend/modules/chat/service.py:239-242 | after the insertion a SELECT still starts with SELECT and contains FIRST, so a second insertion changes nothing |
| ChatService.InjectFirstOnlySelect | backend/modules/chat/service.py:240 | a query that is not a SELECT is never touched |
| ChatService.RouteOf | backend/modules/chat/service.py:36-78 | a message trimmed to "DEBUG_TABLES" lists tables; otherwise one whose trimmed text starts with "DEBUG_COLUMNS" inspects columns; anything else is a question |
| ChatService.CandidateLinesShape | backend/modules/chat/service.py:55-69 | a table yields candidate lines only when its name contains FACT, VENT, CAB or ALB, and then at least one, each opening with the table name and " (" |
| ChatService.CandidatesAreInvoiceTables | backend/modules/chat/service.py:57-69 | every candidate line reports an invoice table of the list |
| ChatService.InvoiceTablesAreCandidates | backend/modules/chat/service.py:57-69 | every invoice table of the list is reported by at least one candidate line |
| ChatService.ColumnsTarget | backend/modules/chat/service.py:80 | the table is the second space-separated piece of the command, and there is one exactly when the command splits into at least two pieces |
| ChatService.DebugColumnsWithoutTable | backend/modules/chat/service.py:79-112 | a command without a space replies with Python's list index error |
| ChatService.ProviderFor | backend/modules/chat/service.py:207-227 | no provider when no model answered or its id is not in the registry; the factory's error can only come from a registered model |
| ChatService.DebugBypassesModels | backend/modules/chat/service.py:36-112 | a debug command's reply does not depend on the history, the schema text, the models or the query database, and it never raises |
| ChatService.NoModelNoDatabase | backend/modules/chat/service.py:199-201 | when no model replies the turn gives the fixed failure text, whatever the database would answer |
| ChatService.PlainReplyVerbatim | backend/modules/chat/service.py:230-289 | a reply without a "```sql" block is returned verbatim, and an empty one gives the fixed failure text |
| ChatService.UnsupportedProviderRaises | backend/modules/chat/service.py:210-212 | an unsupported provider tag on the winning model escapes the turn as an exception |
| ChatService.FailureReportsFirstQuery | backend/modules/chat/service.py:282-285 | a query that still fails after correction is reported with the normalised first query, never with a corrected one |
| ChatService.FirstQueryAnswered | backend/modules/chat/service.py:249-281 | when the first execution succeeds its rows, the question and the query go to the provider, whose text is the reply; without a provider the turn reports the missing provider |
| ChatService.NoProviderNoCorrection | backend/modules/chat/service.py:249-256 | without a configured provider only the first query is run |
| ChatService.ExecuteSqlSpec | backend/modules/chat/service.py:445-497 | the three-attempt run of `_execute_sql` (attempts, waits, result); pinned down by `ExecuteSql`, `ExecuteSqlSucceedsIff` and `ExecuteSqlAllFail` |
| ChatService.TurnSql | backend/modules/chat/service.py:230-242 | the query of a turn: the first fenced block of the reply, cleaned, then `InjectFirst`; pinned down by `SqlCorrector.FencedSqlOfBlock`, `InjectFirst`, `InjectFirstLimits` and `InjectFirstOnlySelect` |
| ChatService.DebugTablesReply | backend/modules/chat/service.py:36-78 | the DEBUG_TABLES reply: the tables, then the invoice candidates, or the "Error debug: " text; pinned down by `CandidateLinesShape`, `CandidatesAreInvoiceTables`, `InvoiceTablesAreCandidates` and `DebugBypassesModels` |
| ChatService.DebugColumnsReply | backend/modules/chat/service.py:79-112 | the DEBUG_COLUMNS reply: the columns of the named table and an optional sample, or the "Error debug columns: " text; pinned down by `ColumnsTarget`, `DebugColumnsWithoutTable` and `DebugBypassesModels` |
| ChatService.Generation | backend/modules/chat/service.py:114-196 | the orchestrator run on the system prompt built from the history window and the schema text; pinned down by `RecentHistory`, `BuildHistoryContext` and the `Fallback` lemmas on `FallbackRun` |
| ChatService.SqlTurn | backend/modules/chat/service.py:243-289 | the SQL part of a turn: correction run, then interpretation or the failure message; pinned down by `FailureReportsFirstQuery`, `FirstQueryAnswered` and `NoProviderNoCorrection` |
| ChatService.Answer | backend/modules/chat/service.py:197-289 | a question turn after generation: the no-model text, the provider's error, the verbatim reply, or the SQL part; pinned down by `NoModelNoDatabase`, `UnsupportedProviderRaises`, `PlainReplyVerbatim` and `ProviderFor` |
| ChatService.TurnWith | backend/modules/chat/service.py:27-289 | a turn with a given schema text: the debug replies or the question branch; pinned down by `RouteOf` and `DebugBypassesModels` |
| ChatService.ProcessMessage | backend/modules/chat/service.py:27-289 | `process_message`: `TurnWith` on the semantic schema; pinned down by the lemmas of `TurnWith`, `Answer` and `SqlTurn` |
| DataQuality.DefaultQueryUnchanged | backend/modules/data_quality/service.py:20 | with the table and field the stored query was written for, the query sent is the stored one |
| DataQuality.QueryWithoutNames | backend/modules/data_quality/service.py:20 | a stored query mentioning neither ARTICULO nor NOMBRE is sent unchanged |
| DataQuality.DuplicatesSpec | backend/modules/data_quality/service.py:25-28 | the filter fails exactly when a row lacks TOTAL_DUPLICADOS; otherwise it keeps exactly the rows counted more than once |
| DataQuality.DuplicatesAppend | backend/modules/data_quality/service.py:26-28 | filtering two runs of rows one after the other is filtering their concatenation, so the kept rows keep their order |
| DataQuality.DuplicatesAt | backend/modules/data_quality/service.py:27 | the first row without the count makes the whole search fail with KeyError |
| DataQuality.CollectDuplicates | backend/modules/data_quality/service.py:25-28 | the loop collects exactly the filtered rows, or fails on the first row without the count |
| DataQuality.ReportSpec | backend/modules/data_quality/service.py:30-34 | the report's total counts every duplicated group while its list holds the first hundred of them, in order |
| DataQuality.Report | backend/modules/data_quality/service.py:30-34 | the report dictionary of the duplicated groups; pinned down by `ReportSpec` |
| DataQuality.FindDuplicatesExact | backend/modules/data_quality/service.py:9-36 | an error from the disconnect in `finally` replaces the result; otherwise a database error propagates, and without one the report of the duplicated groups of the rows the substituted query returns |
| DataQuality.AnalyzeImpact | backend/modules/data_quality/service.py:38-46 | the table and record are echoed with impact 0 and no dependencies |
| DatabaseMetadata.LoweredConcepts | backend/core/config/database_metadata.py:111 | each concept lower-cased, in order |
| DatabaseMetadata.FirstTableFor | backend/core/config/database_metadata.py:110-114 | none exactly when no table lists the concept; otherwise a table that lists it |
| DatabaseMetadata.FirstTableForUnique | backend/core/config/database_metadata.py:110-114 | with disjoint concept lists the lookup finds the one table that lists the concept |
| DatabaseMetadata.ConceptsAreLower | backend/core/config/database_metadata.py:6-96 | every concept of the table is already lower case |
| DatabaseMetadata.TablesConceptsDisjoint | backend/core/config/database_metadata.py:6-96 | no concept belongs to two tables |
| DatabaseMetadata.TablesNamesDistinct | backend/core/config/database_metadata.py:6-96 | the five tables have five different names |
| DatabaseMetadata.FoundTableListsConcept | backend/core/config/database_metadata.py:110-112 | the table the lookup names lists the concept |
| DatabaseMetadata.TableForConceptIff | backend/core/config/database_metadata.py:98-114 | the lookup answers table k exactly when the lower-cased concept is one of table k's concepts |
| DatabaseMetadata.ConceptExamples | backend/core/config/database_metadata.py:98-114 | "productos" names ARTICULO and "ventas" names FACTURA |
| DatabaseMetadata.TableForConcept | backend/core/config/database_metadata.py:98-114 | `get_table_for_concept`; pinned down by `TableForConceptIff`, `FirstTableFor` and `FoundTableListsConcept` |
| DatabaseMetadata.ColumnLines | backend/core/config/database_metadata.py:131-132 | one line per key column, in order: the indent, the name, ": " and the description |
| DatabaseMetadata.BlocksListColumns | backend/core/config/database_metadata.py:126-132 | every key column of every table has its bullet line in the table blocks |
| DatabaseMetadata.SemanticSchemaListsColumns | backend/core/config/database_metadata.py:116-140 | for any table list (the schema is built from `Tables`), the lines open with the header, list every key column of every table, and end with the rules heading and four rules |
| DatabaseMetadata.SemanticSchema | backend/core/config/database_metadata.py:116-140 | `get_semantic_schema`; pinned down by `SemanticSchemaListsColumns`, `BlocksListColumns` and `ColumnLines` |
| DatabaseMetadata.TableNamed | backend/core/config/database_metadata.py:152-155 | the entry with the name, or none exactly when no entry has it |
| DatabaseMetadata.QueryLines | backend/core/config/database_metadata.py:166-167 | one "  - " line per common query, in order |
| DatabaseMetadata.DetailedSchemaUnknown | backend/core/config/database_metadata.py:152-153 | an unknown table gets the fixed "no tiene metadatos definidos." sentence |
| DatabaseMetadata.DetailedLinesShape | backend/core/config/database_metadata.py:155-169 | a known table's text lists every key column and holds the common-queries heading exactly when the table has common queries |
| DatabaseMetadata.DetailedSchemaForTable | backend/core/config/database_metadata.py:142-169 | `get_detailed_schema_for_table`; pinned down by `DetailedSchemaUnknown`, `DetailedLinesShape`, `TableNamed` and `QueryLines` |
| DbFactory.GetDriver | backend/core/factory/db_factory.py:10-23 | Firebird exactly when the value (or the text) is "firebird" or the text mentions TYPE_FIREBIRD; otherwise the ValueError naming the argument, its type and its normalised text |
| DbFactory.FirebirdAccepted | backend/core/factory/db_factory.py:19-20 | the string "firebird" and the enum member TYPE_FIREBIRD both give Firebird |
| DbFactory.TypeFirebirdTextAccepted | backend/core/factory/db_factory.py:19 | any argument whose text mentions TYPE_FIREBIRD gives Firebird |
| DbFactory.PlainTextIffFirebird | backend/core/factory/db_factory.py:12-20 | a plain string without TYPE_FIREBIRD is accepted exactly when it is "firebird" |
| DbFactory.OthersRefused | backend/core/factory/db_factory.py:22-23 | postgres and mysql, as strings or enum members, are refused |
| DatabaseService.MappedParamsSpec | backend/modules/database/service.py:84-87 | when "username" is present and "user" is not, the value moves from "username" to "user"; otherwise the parameters are unchanged; every other key keeps its value and keys stay distinct |
| DatabaseService.ParamDict.constructor | backend/modules/database/service.py:76 | the dict holds the caller's parameters |
| DatabaseService.ParamDict.MapUsername | backend/modules/database/service.py:49-50 | the caller's own dict is changed in place into its mapped form |
| DatabaseService.Template | backend/modules/database/service.py:121-152 | no stored prompt, or an empty one, gives the built-in template; a stored prompt gives its system_prompt, and one without system_prompt fails at the first replace |
| DatabaseService.PromptWithoutPlaceholders | backend/modules/database/service.py:155-157 | a template without the three placeholders is the prompt itself |
| DatabaseService.TableNameFilled | backend/modules/database/service.py:155 | a brace-free head followed by {table_name} gets the table name, which later replacements do not touch |
| DatabaseService.Enabled | backend/modules/database/service.py:165 | exactly the models whose enabled flag is present and true |
| DatabaseService.EnabledAppend | backend/modules/database/service.py:165 | the filter distributes over concatenation, so it keeps registry order and each model's multiplicity |
| DatabaseService.EnabledSingle | backend/modules/database/service.py:165 | one model is kept exactly when its enabled flag is present and true |
| DatabaseService.EnabledFirst | backend/modules/database/service.py:165-180 | the fallback choice `enabled_models[0]` is the registry's first model whose enabled flag is true |
| DatabaseService.FirstMatch | backend/modules/database/service.py:171-174 | the first model at or after the position whose id or model id is the preferred name, or none when no later model matches |
| DatabaseService.ChosenSpec | backend/modules/database/service.py:169-180 | the choice is a real position: the first model matching the earliest preferred name that matches any model, or the first enabled model when none does |
| DatabaseService.SelectModel | backend/modules/database/service.py:161-180 | the nested loops with break pick exactly the position ChosenSpec describes |
| DatabaseService.FallbackFirst | backend/modules/database/service.py:205-218 | the fallback answers with the first model, in list order and with another id than the chosen one, whose attempt succeeds |
| DatabaseService.FallbackAllFail | backend/modules/database/service.py:219-223 | when no other model succeeds the chosen model's own error is raised again |
| DatabaseService.LoneModelError | backend/modules/database/service.py:203-225 | entries sharing the chosen id are never retried, so a lone model's error is final |
| DatabaseService.Fallback | backend/modules/database/service.py:205-223 | the for-else loop returns the first successful attempt, else the original error |
| DatabaseService.Generate | backend/modules/database/service.py:187-225 | the chosen model's factory and key errors propagate; its reply is returned; after its generation error the fallback runs when there is more than one enabled model |
| DatabaseService.LastIndex | backend/modules/database/service.py:230 | the position of the last occurrence of the character, or none when it does not occur |
| DatabaseService.JsonSpanSpec | backend/modules/database/service.py:229-234 | a JSON span exists exactly when some "}" follows some "{", and it runs from the first "{" to the last "}" |
| DatabaseService.JsonSpan | backend/modules/database/service.py:229-234 | the JSON text cut from the reply; pinned down by `JsonSpanSpec` and `LastIndex` |
| DatabaseService.NoEnabledModelFails | backend/modules/database/service.py:164-167 | with no enabled model the analysis fails with "No AI models enabled for analysis" before any model is called |
| DatabaseService.Analyze | backend/modules/database/service.py:100-239 | the method computes what the analysis of the table's columns and samples specifies: a failing disconnect after the reads, then template, prompt, model choice, generation with fallback and JSON extraction, each error propagating |
| DatabaseService.DisconnectErrorRaised | backend/modules/database/service.py:117 | an error from the disconnect after the column and sample reads is the analysis's error |
| DatabaseService.AnalyzeTable | backend/modules/database/service.py:100-239 | `analyze_table` after the reads; pinned down by `Analyze`, `NoEnabledModelFails`, `DisconnectErrorRaised`, `Template`, `ChosenSpec`, `Generate` and `JsonSpanSpec` |
| EmailAnalysis.SenderAddress | backend/modules/outlook/analysis_service.py:36-38 | a sender of the form "Name <address>" without inner angle brackets is reduced to the address |
| EmailAnalysis.DailyConsistent | backend/modules/outlook/analysis_service.py:52-68 | the loop keeps every day's counters consistent: read plus unread is the total, one sender per e-mail, each day filed under its own key |
| EmailAnalysis.AddEmailTotals | backend/modules/outlook/analysis_service.py:40-70 | one e-mail adds one to the total of its day and to the grand total when its date parses, and changes no total otherwise |
| EmailAnalysis.DailyTotalOn | backend/modules/outlook/analysis_service.py:33-70 | each day's total is the number of e-mails dated that day |
| EmailAnalysis.DailySum | backend/modules/outlook/analysis_service.py:40-70 | the day totals add up to the e-mails whose date parses: an unparseable date drops the e-mail from the breakdown |
| EmailAnalysis.DailyDistinct | backend/modules/outlook/analysis_service.py:52-60 | each day appears once in the daily counters |
| EmailAnalysis.CollectDaily | backend/modules/outlook/analysis_service.py:31-70 | the loop builds exactly the daily counters the specification describes |
| EmailAnalysis.TallySpec | backend/modules/outlook/analysis_service.py:77 | the counter holds each sender's number of occurrences, every sender has an entry, and entries stay distinct |
| EmailAnalysis.RankedSpec | backend/modules/outlook/analysis_service.py:77 | the ranked counter is ordered by descending count, each entry carries its sender's true count, and every sender appears |
| EmailAnalysis.TopSendersCounts | backend/modules/outlook/analysis_service.py:77 | at most five senders, largest count first, each with its true count |
| EmailAnalysis.TopSendersExcluded | backend/modules/outlook/analysis_service.py:77 | a sender left out means five were shown, none with a smaller count than it |
| EmailAnalysis.TopSenders | backend/modules/outlook/analysis_service.py:77 | `Counter(senders).most_common(5)`; pinned down by `TallySpec`, `RankedSpec`, `TopSendersCounts` and `TopSendersExcluded` |
| EmailAnalysis.SenderLabels | backend/modules/outlook/analysis_service.py:78 | one label per sender, in order: "name (n)" when the count is above one, else the name |
| EmailAnalysis.Timeline | backend/modules/outlook/analysis_service.py:73-85 | one breakdown line per day |
| EmailAnalysis.TimelineSpec | backend/modules/outlook/analysis_service.py:74-85 | the breakdown lists every day once, newest first, each line built from that day's counters |
| EmailAnalysis.PaddedIsFixed | backend/modules/outlook/analysis_service.py:47 | a number below 10^w, zero-padded to w characters, is its w-digit decimal text |
| EmailAnalysis.KeyOrder | backend/modules/outlook/analysis_service.py:47-74 | two dates compare by position in time exactly as their "YYYY-MM-DD" keys compare as Python strings, and equal keys are equal dates |
| EmailAnalysis.TimelineKeyOrder | backend/modules/outlook/analysis_service.py:74 | the breakdown lists the day keys in descending string order, as `sorted(daily_stats.keys(), reverse=True)` does |
| EmailAnalysis.CalculateStats | backend/modules/outlook/analysis_service.py:17-94 | no e-mails give the fixed empty statistics; otherwise the total is the number of e-mails, the unread total is passed through, and the rest is the specified breakdown and attachment count |
| EmailAnalysis.StatsSpec | backend/modules/outlook/analysis_service.py:31-94 | one breakdown line per distinct day among the parsed dates; day totals are the e-mails of that day and add up to the parsed ones; every day's counters agree |
| EmailAnalysis.StatsOf | backend/modules/outlook/analysis_service.py:17-94 | the dictionary `calculate_stats` returns; pinned down by `StatsSpec`, `CalculateStats`, `DailySum` and `TimelineSpec` |
| EmailAnalysis.TryOrderSpec | backend/modules/outlook/analysis_service.py:105-113 | the try order is a permutation of the enabled models, by ascending rank (flash, gemini, gpt, the rest), with equal ranks in their original order |
| EmailAnalysis.TryOrder | backend/modules/outlook/analysis_service.py:105-113 | the try order of `_try_generate`; pinned down by `TryOrderSpec` |
| EmailAnalysis.TryModel | backend/modules/outlook/analysis_service.py:117-149 | an unknown provider raises even without a key, a known one without a key is skipped, and only a keyed model of a known provider can answer |
| EmailAnalysis.TryFromFirst | backend/modules/outlook/analysis_service.py:117-145 | the first model, in try order, that answers gives the result |
| EmailAnalysis.TryFromNoAnswer | backend/modules/outlook/analysis_service.py:146-151 | with no answer the result is an error: the last exception, or the raise None error when every model was skipped |
| EmailAnalysis.KeylessModelsRaiseNone | backend/modules/outlook/analysis_service.py:115-151 | when every enabled model lacks a key nothing is called and raise None fails |
| EmailAnalysis.TryFrom | backend/modules/outlook/analysis_service.py:115-151 | the model loop of `_try_generate` from model j on; pinned down by `TryFromFirst`, `TryFromNoAnswer`, `KeylessModelsRaiseNone` and `TryGenerate` |
| EmailAnalysis.TryOne | backend/modules/outlook/analysis_service.py:118-149 | the loop body gives the specified step for one model |
| EmailAnalysis.TryGenerate | backend/modules/outlook/analysis_service.py:96-151 | the loop, with last_error updated on every exception, gives the specified result |
| EmailAnalysis.ErrorRecord | backend/modules/outlook/analysis_service.py:382-389 | the error record has category "Error", priority "Baja", attachments "Error", and a summary "no se pudo analizar: " followed by at most 100 characters of the message |
| EmailAnalysis.ItemFor | backend/modules/outlook/analysis_service.py:353-391 | each item carries the e-mail's id, its subject or "(Sin Asunto)", its sender or "Desconocido", and its date or "" |
| EmailAnalysis.FailedItemShape | backend/modules/outlook/analysis_service.py:382-389 | an e-mail whose analysis fails carries the error record, never an exception |
| EmailAnalysis.NoModelsItem | backend/modules/outlook/analysis_service.py:101-103 | with no enabled model every e-mail with a body gets the error record of "No AI models enabled in configuration." |
| EmailAnalysis.BuildContext | backend/modules/outlook/analysis_service.py:365-376 | the loop over the attachments builds the specified context, or fails on a missing body |
| EmailAnalysis.AnalyzeContent | backend/modules/outlook/analysis_service.py:336-393 | one result per e-mail, in order, e-mail i being analysed as generation call i |
| Encoding.DecodeFirst | backend/core/utils/encoding_utils.py:33 | a well-formed first sequence takes between one and four bytes of the input |
| Encoding.EncodeChar | backend/core/utils/encoding_utils.py:33 | a character's UTF-8 encoding takes one to four bytes |
| Encoding.DecodeFirstOfEncode | backend/core/utils/encoding_utils.py:33 | the encoding of a character decodes back to it, whatever follows |
| Encoding.EncodeOfDecodeFirst | backend/core/utils/encoding_utils.py:33 | a well-formed first sequence is the encoding of the character it decodes to |
| Encoding.DecodeOfEncode | backend/core/utils/encoding_utils.py:32-36 | every string survives a UTF-8 round trip |
| Encoding.EncodeOfDecode | backend/core/utils/encoding_utils.py:32-36 | bytes that decode are exactly the encoding of what they decode to |
| Encoding.WellFormedIffEncoding | backend/core/utils/encoding_utils.py:32-37 | the bytes the UTF-8 branch accepts are exactly the encodings of strings |
| Encoding.DecodeLatin1 | backend/core/utils/encoding_utils.py:42-46 | one character per byte, with the byte's code |
| Encoding.SafeDecode | backend/core/utils/encoding_utils.py:11-77 | bytes always become text; every other value, null included, is returned unchanged |
| Encoding.SafeDecodeUtf8 | backend/core/utils/encoding_utils.py:32-36 | the text of a UTF-8 encoding is recovered exactly |
| Encoding.SafeDecodeLatin1 | backend/core/utils/encoding_utils.py:41-46 | bytes that are not UTF-8 are read one character per byte, so the later fallbacks are never reached |
| Encoding.AsciiIsLatin1 | backend/core/utils/encoding_utils.py:32-46 | ASCII bytes read the same under UTF-8 and Latin-1 |
| Encoding.RowToDictSafe | backend/core/utils/encoding_utils.py:80-97 | the loop over the zipped columns and values builds the specified row dictionary |
| Encoding.RowToDictDistinct | backend/core/utils/encoding_utils.py:92-96 | the row dictionary never repeats a column name |
| Encoding.RowToDictKeys | backend/core/utils/encoding_utils.py:93 | the row dictionary has exactly one entry per zipped column name, zip stopping at the shorter list |
| Encoding.RowToDictValues | backend/core/utils/encoding_utils.py:96 | each name holds the decoded value of the last zipped pair with that name |
| Encoding.RowToDictKeeps | backend/core/utils/encoding_utils.py:93-96 | a key the pairs never name keeps its value |
| Encoding.GetFieldValueSafe | backend/core/utils/encoding_utils.py:100-119 | a missing field gives ""; bytes are decoded; any other value gives its text when truthy and "" otherwise |
| Encoding.FalsyFieldsAreEmpty | backend/core/utils/encoding_utils.py:119 | a zero, an empty text and a null all read as "" |
| MetadataExtraction.FirstCategoryIsFirstMatch | backend/scripts/extract_db_metadata.py:133-155 | the category is that of the first rule with a word in the upper-cased name |
| MetadataExtraction.NoMatchIsOther | backend/scripts/extract_db_metadata.py:154-155 | a name matching no rule is "otros" |
| MetadataExtraction.ClienteArticuloIsProduct | backend/scripts/extract_db_metadata.py:138-141 | a name mentioning two categories gets the one whose rule comes first: CLIENTE_ARTICULO is "productos" |
| MetadataExtraction.ClassifyTable | backend/scripts/extract_db_metadata.py:133-155 | `classify_table_by_name`; pinned down by `FirstCategoryIsFirstMatch`, `NoMatchIsOther` and `ClienteArticuloIsProduct` |
| MetadataExtraction.FieldType | backend/scripts/extract_db_metadata.py:54-72 | an unknown code gives "TYPE_" and the code; CHAR and VARCHAR carry their length in parentheses; every other known code gives its name |
| MetadataExtraction.FieldTypeExamples | backend/scripts/extract_db_metadata.py:54-72 | code 37 with length 40 is "VARCHAR(40)" and code 9 is "TYPE_9" |
| MetadataExtraction.ColumnOf | backend/scripts/extract_db_metadata.py:74-79 | a column keeps its name and type text, is nullable exactly when the null flag is missing, and has a default exactly when a default source is present |
| MetadataExtraction.TableColumns | backend/scripts/extract_db_metadata.py:68-81 | one column per row, in row order |
| MetadataExtraction.RecordCount | backend/scripts/extract_db_metadata.py:125-131 | the count, or 0 when the count query fails |
| MetadataExtraction.PutWhereLoop | backend/scripts/extract_db_metadata.py:241-243 | the loop assigns name to type for each accepted column, in order, as specified |
| MetadataExtraction.EssentialColumnsLoop | backend/scripts/extract_db_metadata.py:233-243 | the two loops build the specified essential columns |
| MetadataExtraction.GenerateOptimizedMetadata | backend/scripts/extract_db_metadata.py:221-250 | the loop over the tables builds the specified optimised metadata |
| MetadataExtraction.PutWhereFacts | backend/scripts/extract_db_metadata.py:237-243 | the keys added are exactly the accepted column names, each entry being one of those columns with its type |
| MetadataExtraction.EssentialColumnsSpec | backend/scripts/extract_db_metadata.py:232-243 | the optimised columns are columns of the table with their own types, and they are exactly the first ten columns and every primary-key and foreign-key column |
| MetadataExtraction.EssentialKeys | backend/scripts/extract_db_metadata.py:232-243 | the optimised column names are the leading names together with the key names among the columns |
| MetadataExtraction.SmallTableKeepsAll | backend/scripts/extract_db_metadata.py:237-238 | a table whose columns fit in the first ten keeps all of them, in order |
| MetadataExtraction.OptimizeFromSpec | backend/scripts/extract_db_metadata.py:229-250 | the tables added are exactly those with records, each with its optimised entry |
| MetadataExtraction.OptimizedTablesHaveRecords | backend/scripts/extract_db_metadata.py:229-250 | the optimised metadata holds exactly the tables with records, each with its essential columns and its own keys, category and count |
| MetadataExtraction.OptimizeFrom | backend/scripts/extract_db_metadata.py:221-250 | the table loop of `generate_optimized_metadata`; pinned down by `OptimizeFromSpec`, `OptimizedTablesHaveRecords` and `GenerateOptimizedMetadata` |
| Fallback.EnabledModels | backend/modules/chat/model_fallback_orchestrator.py:59-60 | the candidates are exactly the registry entries whose `enabled` flag is present and true |
| Fallback.EnabledModelsAppend | backend/modules/chat/model_fallback_orchestrator.py:59-60 | the filter distributes over concatenation, so the candidates keep registry order and each entry's multiplicity |
| Fallback.EnabledModelsSingle | backend/modules/chat/model_fallback_orchestrator.py:59-60 | one entry is a candidate exactly when its `enabled` flag is present and true |
| Fallback.Prioritized | backend/modules/chat/model_fallback_orchestrator.py:52-74 | `_get_prioritized_models`; pinned down by `PrioritizedSpec`, `EnabledModelsAppend` and `EnabledModelsSingle` |
| Fallback.PrioritizedSpec | backend/modules/chat/model_fallback_orchestrator.py:52-74 | the prioritised list is a permutation of the enabled entries, sorted by descending `MODEL_PRIORITY` (0 for unlisted ids), stable for equal priorities |
| Fallback.AttemptResult | backend/modules/chat/model_fallback_orchestrator.py:95-150 | an attempt yields text only when the entry has a supported tag and a non-empty key, and the text is never empty; without a key or tag it yields nothing |
| Fallback.TryModel | backend/modules/chat/model_fallback_orchestrator.py:76-150 | one attempt returns the attempt's result and reaches the remote model exactly when the entry has a supported tag and a key |
| Fallback.ExecuteWithFallback | backend/modules/chat/model_fallback_orchestrator.py:152-241 | the orchestration of the prioritised candidates produces exactly the run described by the recursive specification: result, model id, feedback, waits, calls and ids tried |
| Fallback.RunCandidates | backend/modules/chat/model_fallback_orchestrator.py:178-241 | the loop over the candidates, each announced by SWITCHING after the first, yields the specified run from the first candidate on |
| Fallback.TryCandidate | backend/modules/chat/model_fallback_orchestrator.py:189-231 | the attempts of one candidate either end in its success, giving the specified run, or exhaust it, leaving the trace that precedes the specified run of the next candidate |
| Fallback.AttemptOnce | backend/modules/chat/model_fallback_orchestrator.py:190-211 | one attempt announces TRYING on the first try and RETRYING n/max after, records the id, counts a call only when one is made, and returns that attempt's result |
| Fallback.ScheduleLength | backend/modules/chat/model_fallback_orchestrator.py:178-189 | the exhaustion schedule has one entry per candidate per attempt |
| Fallback.PrefixFromModel | backend/modules/chat/model_fallback_orchestrator.py:178-231 | from any candidate on, the ids tried are a prefix of that candidate's remaining schedule |
| Fallback.PrefixFromAttempt | backend/modules/chat/model_fallback_orchestrator.py:189-231 | from any attempt on, the ids tried are a prefix of the remaining attempts of this candidate followed by the later candidates' schedule |
| Fallback.NoneFromModel | backend/modules/chat/model_fallback_orchestrator.py:178-241 | from any candidate on, the run fails exactly when every later attempt fails |
| Fallback.NoneFromAttempt | backend/modules/chat/model_fallback_orchestrator.py:189-241 | from any attempt on, the run fails exactly when this and every later attempt fails |
| Fallback.ExhaustFromModel | backend/modules/chat/model_fallback_orchestrator.py:178-241 | when every attempt from a candidate on fails, the run tries the full remaining schedule, waits after all but each model's last attempt and ends with ALL_MODELS_FAILED |
| Fallback.ExhaustFromAttempt | backend/modules/chat/model_fallback_orchestrator.py:189-241 | the same exhaustion account from any attempt of a candidate on |
| Fallback.NoEnabledModels | backend/modules/chat/model_fallback_orchestrator.py:60 | a registry without enabled entries gives no candidates |
| Fallback.FallbackNoCandidates | backend/modules/chat/model_fallback_orchestrator.py:169-175 | with no enabled model the run returns (None, None) at once, with only the ALL_MODELS_FAILED message, no wait and no call |
| Fallback.FallbackExhausted | backend/modules/chat/model_fallback_orchestrator.py:178-241 | when every attempt fails, each candidate is tried `max_retries + 1` times in order, with `max_retries` waits per candidate, and the run ends in (None, None) with ALL_MODELS_FAILED |
| Fallback.FallbackSucceedsIff | backend/modules/chat/model_fallback_orchestrator.py:178-241 | the run returns a response exactly when some attempt of some candidate succeeds |
| Fallback.FallbackTriesInOrder | backend/modules/chat/model_fallback_orchestrator.py:178-211 | the attempts are made in candidate order, each candidate's attempts consecutively |
| Fallback.FirstSuccessFromModel | backend/modules/chat/model_fallback_orchestrator.py:178-219 | a success from some candidate on is the first successful attempt from there on |
| Fallback.FirstSuccessFromAttempt | backend/modules/chat/model_fallback_orchestrator.py:189-219 | a success from some attempt on is the first successful attempt from there on |
| Fallback.FallbackFirstSuccess | backend/modules/chat/model_fallback_orchestrator.py:206-219 | a successful run returns the first successful attempt in candidate order with that candidate's id, and its last message is SUCCESS for that candidate |
| Fallback.CandidatesFirstSuccess | backend/modules/chat/model_fallback_orchestrator.py:178-219 | for any candidate list, a successful run names a candidate and attempt whose result it returns, non-empty, with that candidate's id and a final SUCCESS message, and every earlier attempt failed |
| Fallback.DefaultBudgetSingleModel | backend/core/utils/constants.py:47-50 | with the default budget (5 s delay, one retry) a single failing candidate gets TRYING, one wait, RETRYING 2/2, then ALL_MODELS_FAILED |
| Fallback.MissingKeyStillRetried | backend/modules/chat/model_fallback_orchestrator.py:108-111 | candidates without an API key are never called, yet each still uses up all its attempts and waits |
| Fallback.NoCallsWithoutKeys | backend/modules/chat/model_fallback_orchestrator.py:108-111 | entries without a key contribute no remote calls to the schedule |
| Fallback.FallbackRun | backend/modules/chat/model_fallback_orchestrator.py:152-241 | `execute_with_fallback` on a registry snapshot; pinned down by `ExecuteWithFallback`, `FallbackSucceedsIff`, `FallbackFirstSuccess`, `FallbackExhausted`, `FallbackNoCandidates` and `FallbackTriesInOrder` |
| MetadataManager.Expansions | backend/core/config/metadata_manager.py:83-98 | a keyword is added by expansion exactly when some part is one of the ten known abbreviations and the keyword is its expansion |
| MetadataManager.ExtractKeywords | backend/core/config/metadata_manager.py:69-100 | the keywords are exactly the upper-cased text, its `_`-separated parts, and the expansions of the parts that are abbreviations |
| MetadataManager.UpperIdempotent | backend/core/config/metadata_manager.py:104-105 | upper-casing twice is upper-casing once |
| MetadataManager.KeywordsOfUpper | backend/core/config/metadata_manager.py:104-105 | upper-casing the concept before extracting its keywords changes nothing |
| MetadataManager.TableKeywords | backend/core/config/metadata_manager.py:46-58 | a table is indexed under exactly the keywords of its name and its category (`otros` when absent) |
| MetadataManager.AddKeyListSpec | backend/core/config/metadata_manager.py:49-52 | adding a name under a list of keys keeps every old key and name and adds the name under exactly those keys |
| MetadataManager.IndexFromSpec | backend/core/config/metadata_manager.py:46-67 | an index holds a key exactly when some entry has it, and lists under it exactly the names of the entries that have it |
| MetadataManager.TableIndexSpec | backend/core/config/metadata_manager.py:46-58 | the table index maps each keyword or category to exactly the tables that have it |
| MetadataManager.LastInfo | backend/core/config/metadata_manager.py:61-67 | the entry a later assignment of the same table name leaves behind: absent exactly when the name is not in the metadata |
| MetadataManager.ColumnIndexSpec | backend/core/config/metadata_manager.py:60-67 | the column index has an entry exactly for the table names in the metadata, each the keyword index of that table's columns |
| MetadataManager.FindTablesSpec | backend/core/config/metadata_manager.py:102-112 | the tables found are exactly those sharing a keyword (or category) with the concept's keywords |
| MetadataManager.FindColumnsSpec | backend/core/config/metadata_manager.py:114-127 | an unknown table gives no columns; otherwise exactly the columns sharing a keyword with the concept |
| MetadataManager.AddKeyListAppend | backend/core/config/metadata_manager.py:49-52 | adding keys in two runs is adding them in one |
| MetadataManager.AddKeysLoop | backend/core/config/metadata_manager.py:49-52 | the loop adds the name under every key of the list, as the specification function does |
| MetadataManager.IndexTable | backend/core/config/metadata_manager.py:46-58 | one table is indexed under its name's keywords and then its category |
| MetadataManager.IndexColumns | backend/core/config/metadata_manager.py:60-67 | the column loop builds the keyword index of one table's columns |
| MetadataManager.IndexTables | backend/core/config/metadata_manager.py:41-67 | the loop over tables builds both indexes the specification functions describe |
| MetadataManager.DatabaseMetadataManager.constructor | backend/core/config/metadata_manager.py:14-22 | an existing file is loaded and indexed; otherwise the manager starts empty; either way the table names are distinct, as in a JSON object, and the indexes describe the metadata |
| MetadataManager.DatabaseMetadataManager.BuildIndexes | backend/core/config/metadata_manager.py:41-67 | rebuilds both indexes from scratch so that they describe the metadata, which is left unchanged |
| MetadataManager.DatabaseMetadataManager.SaveMetadata | backend/core/config/metadata_manager.py:34-39 | replaces the metadata, stores it and re-indexes |
| MetadataManager.DatabaseMetadataManager.GetTableInfo | backend/core/config/metadata_manager.py:129-131 | none exactly for an unknown table name; otherwise an entry the metadata holds under that name |
| MetadataManager.DatabaseMetadataManager.GetStatistics | backend/core/config/metadata_manager.py:229-249 | the statistics are those of the current metadata: table, column and record totals and the per-category counts |
| MetadataManager.DatabaseMetadataManager.FindTablesByConcept | backend/core/config/metadata_manager.py:102-112 | `find_tables_by_concept`, as a set; pinned down by `FindTablesByConceptSpec` and `FindTablesSpec` |
| MetadataManager.DatabaseMetadataManager.FindColumnsInTable | backend/core/config/metadata_manager.py:114-127 | `find_columns_in_table`, as a set; pinned down by `FindColumnsInTableSpec` and `FindColumnsSpec` |
| MetadataManager.DatabaseMetadataManager.GetTablesByCategory | backend/core/config/metadata_manager.py:133-135 | `get_tables_by_category`, as a set; pinned down by `GetTablesByCategorySpec` |
| MetadataManager.FindTablesByConceptSpec | backend/core/config/metadata_manager.py:102-112 | on an indexed manager, a table is found exactly when its name's keywords or its category meet the concept's keywords |
| MetadataManager.FindColumnsInTableSpec | backend/core/config/metadata_manager.py:114-127 | on an indexed manager, nothing for an unknown table, else exactly the columns whose keywords meet the concept's |
| MetadataManager.LastInfoIsGet | backend/core/config/metadata_manager.py:129-131 | without repeated table names the indexed entry is the one `get_table_info` returns |
| MetadataManager.IndexedInfoIsTableInfo | backend/core/config/metadata_manager.py:129-131 | in a valid manager, the table entry the column index was built from is the one `get_table_info` returns |
| MetadataManager.GetLast | backend/core/config/metadata_manager.py:129-131 | a name held only by the last entry is looked up there |
| MetadataManager.GetInit | backend/core/config/metadata_manager.py:129-131 | a lookup that misses the last entry is a lookup in the others |
| MetadataManager.GetTablesByCategorySpec | backend/core/config/metadata_manager.py:133-135 | the tables of the category, and also any table with a name keyword spelled like the category, since both share the index |
| MetadataManager.InCategories | backend/core/config/metadata_manager.py:151-157 | the filter keeps exactly the tables whose category is present and among the chosen ones |
| MetadataManager.InCategoriesAppend | backend/core/config/metadata_manager.py:151-157 | the filter distributes over concatenation, so it keeps the tables' order, on which the stable sort and the cut to `max_tables` depend |
| MetadataManager.InCategoriesSingle | backend/core/config/metadata_manager.py:151-157 | one table is kept exactly when its category is present and among the chosen ones |
| MetadataManager.PyPrefix | backend/core/config/metadata_manager.py:164 | Python's `[:max_tables]`: a non-negative bound keeps that many, a negative one drops that many from the end |
| MetadataManager.SortedCandidates | backend/core/config/metadata_manager.py:159-164 | sorting by record count (0 when absent) gives a descending list with the same tables |
| MetadataManager.SelectTablesSpec | backend/core/config/metadata_manager.py:148-164 | the tables shown are at most `max_tables`, all from the chosen categories (every table when none is chosen), largest first |
| MetadataManager.SelectTablesLargest | backend/core/config/metadata_manager.py:159-164 | no candidate left out has more records than a table shown |
| MetadataManager.DropCommas | backend/core/config/metadata_manager.py:171 | removing commas leaves no comma |
| MetadataManager.DropCommasAppend | backend/core/config/metadata_manager.py:171 | removing commas distributes over concatenation |
| MetadataManager.DropCommasDigits | backend/core/config/metadata_manager.py:171 | a string of digits has no comma to remove |
| MetadataManager.NatToStringSplit | backend/core/config/metadata_manager.py:171 | the decimal form of a number of four or more digits ends in its last three digits, zero-padded |
| MetadataManager.GroupDigitsIsDecimal | backend/core/config/metadata_manager.py:171 | grouping the digits of a natural number in threes only adds commas to its decimal form |
| MetadataManager.ThousandsIsDecimal | backend/core/config/metadata_manager.py:171 | `f"{n:,}"` without its commas is `str(n)`, negative numbers included |
| MetadataManager.ColumnLines | backend/core/config/metadata_manager.py:182-183 | at most fifteen column lines, the first columns in order |
| MetadataManager.TableBlockShape | backend/core/config/metadata_manager.py:169-186 | a table takes its name line, its record line, a key line only when it has keys, and for a non-empty column list a count line, up to fifteen columns and a remainder line exactly when columns are left out |
| MetadataManager.SchemaForAi | backend/core/config/metadata_manager.py:137-188 | `get_schema_for_ai`; pinned down by `SelectTablesSpec`, `SelectTablesLargest`, `SortedCandidates`, `InCategoriesAppend` and `TableBlockShape` |
| MetadataManager.FocusCategories | backend/core/config/metadata_manager.py:200-225 | the categories are those of the concepts the upper-cased question contains, or the main three when none; never empty |
| MetadataManager.FocusedSchemaSelection | backend/core/config/metadata_manager.py:190-227 | the focused schema shows at most five tables, each in one of the focus categories |
| MetadataManager.InvoicesMeanSales | backend/core/config/metadata_manager.py:208 | a question mentioning FACTURA focuses on `ventas` |
| MetadataManager.FocusedSchema | backend/core/config/metadata_manager.py:190-227 | `get_focused_schema`; pinned down by `FocusCategories`, `FocusedSchemaSelection` and `InvoicesMeanSales` |
| MetadataManager.SumPut | backend/core/config/metadata_manager.py:240 | setting one counter changes the sum of the counters by the difference |
| MetadataManager.CountFromSpec | backend/core/config/metadata_manager.py:237-240 | counting tables into the counters adds one per table, exactly to its category's counter, and adds keys only for new categories |
| MetadataManager.CountCategories | backend/core/config/metadata_manager.py:237-240 | the loop computes the category counts the specification function describes |
| MetadataManager.StatisticsSpec | backend/core/config/metadata_manager.py:229-246 | the category counts have one entry per category, each counting exactly the tables of that category, and together they count every table once |
| SqlCorrector.ExtractToken | backend/modules/chat/sql_corrector.py:33-36 | the first whitespace-free word after the exact-case marker; none when the marker is absent or only blanks follow it |
| SqlCorrector.DetectErrorType | backend/modules/chat/sql_corrector.py:18-73 | the checks run in order on the upper-cased message: TABLE UNKNOWN, then COLUMN UNKNOWN, then SYNTAX or TOKEN UNKNOWN, else unknown carrying the message; the name or token comes from the exact-case marker |
| SqlCorrector.ExtractTokenOfWord | backend/modules/chat/sql_corrector.py:33-36 | the marker followed by a space and one word yields that word |
| SqlCorrector.TableUnknownNamesTable | backend/modules/chat/sql_corrector.py:31-41 | "Table unknown" followed by one word is a table_unknown error naming that word |
| SqlCorrector.LowerCaseMarkerNoToken | backend/modules/chat/sql_corrector.py:31-36 | a marker present only in another case classifies the error but names no table |
| SqlCorrector.NonBlankLines | backend/modules/chat/sql_corrector.py:150 | every kept line is stripped and non-empty |
| SqlCorrector.ExtractCorrection | backend/modules/chat/sql_corrector.py:140-157 | a failed call to the model proposes nothing |
| SqlCorrector.PieceAfterOpening | backend/modules/chat/sql_corrector.py:145 | cutting a fenced reply at its first "```sql" keeps the block body and, beyond it, a whole closing fence or nothing |
| SqlCorrector.FencedSqlOfBlock | backend/modules/chat/sql_corrector.py:144-147 | a reply opening with a "```sql" block yields the block's body, stripped and without trailing `;` |
| SqlCorrector.ExtractFencedBlock | backend/modules/chat/sql_corrector.py:140-147 | the same reply, through the whole extraction, proposes that cleaned body |
| SqlCorrector.FencedSql | backend/modules/chat/sql_corrector.py:144-147 | the first "```sql" block, stripped and without trailing `;`; pinned down by `PieceAfterOpening` and `FencedSqlOfBlock` |
| SqlCorrector.ExtractFirstLine | backend/modules/chat/sql_corrector.py:148-152 | a reply without a block proposes its first non-blank line, cleaned |
| SqlCorrector.ExtractEmptyReply | backend/modules/chat/sql_corrector.py:150-157 | an empty reply proposes nothing |
| SqlCorrector.Decide | backend/modules/chat/sql_corrector.py:201-222 | an unrecognised error gives up without asking; a retry uses a non-empty correction that differs from the failing query after trimming, and is what the model proposed |
| SqlCorrector.Repair | backend/modules/chat/sql_corrector.py:187-236 | the recursion runs the given query first, makes at most `max_retries - attempt` corrections and `max_retries - attempt + 1` executions, and none once the budget is spent |
| SqlCorrector.ResultOfLastQuery | backend/modules/chat/sql_corrector.py:187-236 | the run's outcome is what executing its last query gave, results or the re-raised error |
| SqlCorrector.QueriesFollowSteps | backend/modules/chat/sql_corrector.py:220-236 | each query after the first answers the failure of the one before it |
| SqlCorrector.FirstExecutionSucceeds | backend/modules/chat/sql_corrector.py:187-190 | a query that runs the first time is returned as is, with no correction requested |
| SqlCorrector.UnknownErrorNotCorrected | backend/modules/chat/sql_corrector.py:205-207 | an unrecognised error is re-raised unchanged without asking the model |
| SqlCorrector.SameCorrectionStops | backend/modules/chat/sql_corrector.py:220-222 | a correction equal to the failing query after trimming ends the run with the original error after one request |
| SqlCorrector.RetryChainAccepted | backend/modules/chat/sql_corrector.py:201-236 | a chain of retries by the corrector's step is a chain of accepted corrections |
| SqlCorrector.CorrectionsAreAccepted | backend/modules/chat/sql_corrector.py:159-236 | every query after the first is a correction the model proposed for a recognised failure of the one before: non-empty and different after trimming |
| SqlCorrector.DefaultBudgetBound | backend/modules/chat/sql_corrector.py:166 | with the default budget of 2, at most three executions and two correction requests happen |
| SqlCorrector.ExecuteWithCorrection | backend/modules/chat/sql_corrector.py:159-236 | `execute_with_correction` from attempt 0; pinned down by `Repair`, `ResultOfLastQuery`, `CorrectionsAreAccepted`, `FirstExecutionSucceeds` and `DefaultBudgetBound` |
| OutlookView.ReplaceCharConcat | frontend/assets/js/modules/outlook.js:867-872 | a global single-character replacement distributes over concatenation |
| OutlookView.Escaped | frontend/assets/js/modules/outlook.js:865-873 | escaping each character on its own leaves no raw `<`, `>`, `"` or `'`, and leaves a text without special characters unchanged |
| OutlookView.ReplaceChainConcat | frontend/assets/js/modules/outlook.js:867-872 | the chain of five replacements distributes over concatenation |
| OutlookView.ChainOfSpecial | frontend/assets/js/modules/outlook.js:867-872 | the chain turns one special character into its entity, the later replacements leaving the earlier entities alone |
| OutlookView.ChainOfPlain | frontend/assets/js/modules/outlook.js:867-872 | the chain leaves any other character alone |
| OutlookView.ReplaceChainChar | frontend/assets/js/modules/outlook.js:867-872 | the chain writes each character as its entity or as itself |
| OutlookView.ReplaceChainEscapes | frontend/assets/js/modules/outlook.js:865-873 | because `&` is replaced first, the chain escapes every character exactly once: no entity it introduces is escaped again |
| OutlookView.UnescapeEntity | frontend/assets/js/modules/outlook.js:865-873 | an entity followed by anything reads back as its character followed by the rest read back |
| OutlookView.UnescapeEscaped | frontend/assets/js/modules/outlook.js:865-873 | the escaped text reads back as the original |
| OutlookView.EscapeHtmlSpec | frontend/assets/js/modules/outlook.js:865-873 | a falsy text gives `''`; otherwise no raw `<`, `>`, `"` or `'` is left, a text without special characters is unchanged, and the escaped text reads back as the original |
| OutlookView.EscapeHtml | frontend/assets/js/modules/outlook.js:865-873 | `escapeHtml`; pinned down by `EscapeHtmlSpec`, `Escaped` and `UnescapeEscaped` |
| OutlookView.BreakdownOf | frontend/assets/js/modules/outlook.js:331 | the daily breakdown when present (an empty array is truthy), else the timeline, else nothing |
| OutlookView.DigitRunEnd | frontend/assets/js/modules/outlook.js:349 | the end of the maximal run of digits starting at a position |
| OutlookView.SpaceRunEnd | frontend/assets/js/modules/outlook.js:349 | the end of the maximal run of `\s` characters starting at a position |
| OutlookView.ReadSum | frontend/assets/js/modules/outlook.js:336-353 | entries in the old plain-text form add nothing |
| OutlookView.ReadSumAppend | frontend/assets/js/modules/outlook.js:336-353 | the figure over two runs of entries is the sum of their figures |
| OutlookView.ReadSinceMonday | frontend/assets/js/modules/outlook.js:330-354 | the `forEach` adds up exactly the read counts the regular expression captures in the object entries |
| OutlookView.DigitRunEndAt | frontend/assets/js/modules/outlook.js:349 | a maximal run of digits ends where the run-end function says |
| OutlookView.SpaceRunEndAt | frontend/assets/js/modules/outlook.js:349 | a maximal run of spaces ends where the run-end function says |
| OutlookView.FirstMatchSkips | frontend/assets/js/modules/outlook.js:349 | the leftmost-match search passes over positions where nothing matches |
| OutlookView.NoMatchBeforeRead | frontend/assets/js/modules/outlook.js:349 | in a `"<unread> sin leer, "` prefix no match of the pattern starts |
| OutlookView.CountsShape | frontend/assets/js/modules/outlook.js:349-352 | a text shaped `<digits> sin leer, <digits> leídos` captures its second number |
| OutlookView.BackendCountsRead | backend/modules/outlook/analysis_service.py:83 | the `counts` text the analysis service writes for a day reads back in the view as that day's read count |
| OutlookView.DateKeySpec | frontend/assets/js/modules/outlook.js:412 | a falsy date gives "Fecha Desconocida"; otherwise the key holds no comma and has no surrounding whitespace |
| OutlookView.Bumped | frontend/assets/js/modules/outlook.js:441-444 | the priority counters grow by one exactly when the priority is Alta, Media or Baja |
| OutlookView.BuildTree | frontend/assets/js/modules/outlook.js:406-445 | the `forEach` builds the tree the specification function describes |
| OutlookView.AddToCatOk | frontend/assets/js/modules/outlook.js:430-444 | one e-mail keeps a category node consistent |
| OutlookView.SubBump | frontend/assets/js/modules/outlook.js:433-438 | one e-mail added to a subcategory keeps the subcategory counts summing to the category total |
| OutlookView.AddToStatusOk | frontend/assets/js/modules/outlook.js:427-444 | one e-mail keeps a status node consistent |
| OutlookView.AddToDateOk | frontend/assets/js/modules/outlook.js:424-444 | one e-mail keeps a date node consistent |
| OutlookView.TreeSpec | frontend/assets/js/modules/outlook.js:406-445 | every level of the tree is consistent (each total the sum of the totals below it, priority counts within the category total, each count the length of its list), the date totals sum to the number of e-mails, and each date's total is the number of e-mails on that date |
| OutlookView.TallyOk | frontend/assets/js/modules/outlook.js:409-445 | one e-mail keeps the whole tree consistent |
| OutlookView.TallyTotals | frontend/assets/js/modules/outlook.js:424-425 | one e-mail adds one to its own date's total and to no other |
| OutlookView.TreeOf | frontend/assets/js/modules/outlook.js:406-445 | the date, status, category and subcategory tree; pinned down by `TreeSpec`, `TallyOk`, `TallyTotals` and `BuildTree` |
| OutlookView.PolledSpec | frontend/assets/js/modules/outlook.js:126-160 | a poll prepends its latest e-mail exactly when a latest id is known and differs; a successful non-empty poll always records the latest id; anything else changes nothing |
| OutlookView.FirstPollRecordsOnly | frontend/assets/js/modules/outlook.js:147-155 | the first poll after loading only records the latest id |
| OutlookView.PollIdempotent | frontend/assets/js/modules/outlook.js:126-160 | polling twice with the same reply is polling once |
| OutlookView.FetchThenPoll | frontend/assets/js/modules/outlook.js:175-217 | after a successful fetch, a poll that sees the same latest e-mail adds nothing |
| OutlookView.FetchFailureKeepsState | frontend/assets/js/modules/outlook.js:179-187 | a failed fetch, or one stopped for missing credentials, leaves the list as it was |
| OutlookView.Polled | frontend/assets/js/modules/outlook.js:126-160 | the state after `checkNewEmails`; pinned down by `PolledSpec`, `FirstPollRecordsOnly`, `PollIdempotent` and `CheckNewEmails` |
| OutlookView.Fetched | frontend/assets/js/modules/outlook.js:175-232 | the state after `fetchEmails`; pinned down by `FetchThenPoll`, `FetchFailureKeepsState` and `FetchEmails` |
| OutlookView.EmailList.constructor | frontend/assets/js/modules/outlook.js:2-9 | the view starts with no e-mails, no latest id and no source |
| OutlookView.EmailList.CheckNewEmails | frontend/assets/js/modules/outlook.js:126-160 | the new state is the poll's; a notification is sent exactly when a new latest e-mail is reported |
| OutlookView.EmailList.FetchEmails | frontend/assets/js/modules/outlook.js:175-232 | the new state is the fetch's: the reply's messages, source and latest id on success, no change otherwise |
| Sorting.SortDescSorted | backend/modules/chat/model_fallback_orchestrator.py:67 | `sorted(..., key, reverse=True)` yields a list in descending key order |
| Sorting.SortDescPermutation | backend/modules/chat/model_fallback_orchestrator.py:67 | the sorted list is a permutation of the input |
| Sorting.SortDescStable | backend/modules/chat/model_fallback_orchestrator.py:67 | the sort is stable: the elements of any one key keep their input order |
| Sorting.SortDescOfSorted | backend/core/config/metadata_manager.py:160-164 | a list already in descending order is left as it is |

## Left out

- Input and output: the registry, provider, metadata and prompt files are fields or parameters, not a file system. Logging, `print`, the HTTP transport and FastAPI routing are left out.
- Language-model SDKs (`genai`, `OpenAI`): every remote call is a parameter that maps the call to a reply or an exception message. The wording of model replies is not modelled.
- `AIProviders.Provider.Configure`: the model never fails. In the source, `configure` raises `ImportError` when the `openai` package is missing, and `OpenAI(**kwargs)` can raise (`backend/drivers/ai/openai_compatible_provider.py:18-26`). In the chat turn that call sits outside the `try` (`backend/modules/chat/service.py:212-223`), so such an error would escape `process_message`; the model has no such path.
- The database driver and its wire protocol: a query maps to rows or an exception message through a parameter. `firebird_queries.py` is not part of this model; its query templates are parameters.
- `json.loads` and `json.dumps`: parsing is a parameter. Only the text cut out in front of it (fence stripping, the `{...}` span) is modelled.
- Sleeps: `asyncio.sleep` and `time.sleep` are counted as waits. Their durations appear only as the numbers recorded. Concurrency between requests is out of scope.
- Date parsing (section 3.3 of RFC 2822) and conversion to local time are a parameter that gives a calendar date or nothing. The date's year, month and day lie in the ranges of Python's `datetime`. `datetime.now()` and `new Date()` are left out.
- PDF, Word and Excel text extraction (PyPDF2, python-docx, openpyxl) are parameters. Their `ImportError` branches are not modelled.
- Case mapping covers ASCII letters only. Python and JavaScript also map accented letters, so the two differ on non-ASCII text.
- The long Firebird rule block that closes the text-to-SQL system prompt is kept only as its heading. No property depends on its wording.
- `chat/service.py` lines 290-377 are unreachable after the `return` at line 289 and are not modelled. The same holds for the dead code of `analysis_service.py` (lines 208-244 and 301-334, and the two earlier `analyze_content` definitions).
- `ChatService.HistoryMessage`: `None` in `role` and `content` stands for an absent key, read as "user" and "". A message whose role is present but null is skipped by the source and read as a user message by the model. A present null content is written as "None" by the source and as the empty text by the model.
- `ChatService`: the orchestrator's feedback callback is not passed in by the chat turn, so the feedback messages are recorded in the orchestrator's trace only.
- `ModelsApi`: the 500 responses for unexpected exceptions are not modelled. The modelled manager operations raise only `ValueError`. FastAPI's `response_model` filtering of the response body is not modelled.
- `DatabaseService`: the connection settings used when no `db_params` are given come from `settings.py` and are not modelled. Only the mapping of the client's parameters is modelled.
- `Attachments.ChunkText` requires a positive chunk size. The source always passes 15000; with 0 its loop would not terminate.
- `OutlookView.Bumped`: only the three keys Alta, Media and Baja are counted. In JavaScript, a priority named after an `Object.prototype` property (such as `constructor`) also passes the `!== undefined` test and writes a non-numeric entry. The same inherited keys are not modelled for the date, status, category and subcategory keys of the tree.
- `OutlookView.ReadSum`: the sum is exact. JavaScript's `parseInt` and `+=` work on floating-point numbers and lose precision above 2^53.
- `OutlookView.BreakdownOf`: an entry that is `null` (for which `typeof` is `'object'`), or an object whose `counts` is not a string, would make the view throw. Only object entries with a text `counts` and plain-text entries are modelled.
- `OutlookView.DateKeySpec`: a truthy date that is not a string would make `split` throw. Dates are modelled as optional strings.
- The DOM, rendering, notifications, timers and `fetch` calls of `outlook.js` are left out. The replies of `/api/outlook/messages` are parameters.
- `MetadataManager.DatabaseMetadataManager.GetStatistics`: the file name and file size entries are left out, because they come from the file system.
- `ModelRegistry.Enrich`: every provider entry is assumed to hold `base_url`, `schema` and `api_key_env`. In the source a missing one raises `KeyError`, which `_load_models` catches, so the whole registry loads as empty (`backend/core/config/model_manager.py:58-62, 75-77`). That path is not modelled.
- `ModelRegistry.ProviderConfig`: `None` in `baseUrl` and `schema` stands for a JSON `null`, not for a missing key.
- `ModelRegistry.ModelConfig`: `id`, `name`, `provider` and `model_id` are always present strings. Subscripting a missing `model_id` (`backend/modules/chat/model_fallback_orchestrator.py:116`, `backend/modules/database/service.py:172`) would raise `KeyError`; that is not modelled.
- `EmailAnalysis.DateKey`: years below 1000 are zero-padded to four digits. Some C libraries behind `strftime('%Y')` write them without the zeros, and `KeyOrder` does not cover those.
- `EmailAnalysis.Email`: `None` in `date` stands for an absent key. The IMAP reader stores a present `None` when a message has no Date header (`backend/modules/outlook/service.py:175, 188`).
- `EmailAnalysis.ItemFor`: for such a present `None` date the source copies `None` into the item, while the model gives the empty text.
- `EmailAnalysis.DateText`: for such a present `None` date `calculate_stats` parses the text `"None"`, while the model parses the empty text. Both fail to parse unless the date parser accepts one of them.
- `Encoding.Value`: the driver's floating-point, decimal and date values are not modelled, nor their rendering through `str()`.
- Python set iteration order: `find_tables_by_concept`, `find_columns_in_table` and `get_tables_by_category` are modelled as sets. The source returns them as lists in an unspecified order.
