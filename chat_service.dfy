/**
 * `ChatService.process_message`: one chat turn of the text-to-SQL
 * assistant, and `_execute_sql`, the database call it retries.
 *
 * A turn is either a debug command answered straight from the database,
 * or a question: the recent conversation and the semantic schema go into
 * the system prompt, the fallback orchestrator produces a reply, and a
 * "```sql" block in that reply is normalised, run with automatic
 * correction, and interpreted by the model that answered.
 *
 * Everything outside the process is a parameter: the remote models of the
 * orchestrator (`server`), the correction and interpretation replies of
 * the configured provider (`ask`, `interpret`), and the database
 * (`db(k, a, q)`: what the `a`-th connection attempt of the `k`-th
 * `_execute_sql` call gives for query `q`).
 */
module ChatService {
  import opened Wrappers
  import opened Text
  import opened ModelRegistry
  import opened AIProviders
  import opened Fallback
  import opened SqlCorrector
  import opened DatabaseMetadata

  // ---------------------------------------------------------------------
  // Conversation history
  // ---------------------------------------------------------------------

  /** `UILimits.CONVERSATION_MEMORY_MESSAGES`. */
  const ConversationMemoryMessages: nat := 10

  /** One message of `context['conversation_history']`; `None` is a missing key. */
  datatype HistoryMessage = HistoryMessage(role: Option<string>, content: Option<string>)

  /** The window of history the prompt sees: the last ten messages, or all of them. */
  function RecentHistory(h: seq<HistoryMessage>): (r: seq<HistoryMessage>)
    ensures |r| == if |h| > ConversationMemoryMessages then ConversationMemoryMessages else |h|
    ensures r == h[|h| - |r|..]
  {
    if |h| > ConversationMemoryMessages then h[|h| - ConversationMemoryMessages..] else h
  }

  const HistoryHeader: string := "\n\n=== CONTEXTO DE CONVERSACI\U{00D3}N ANTERIOR ===\n"
  const HistoryFooter: string := "=== FIN DEL CONTEXTO ===\n"

  /** The line one message contributes: users and the assistant are labelled, other roles are skipped. */
  function HistoryLine(m: HistoryMessage): string {
    var role := m.role.GetOr("user");
    var content := m.content.GetOr("");
    if role == "user" then "Usuario: " + content + "\n"
    else if role == "assistant" then "Asistente: " + content + "\n"
    else ""
  }

  function HistoryLines(h: seq<HistoryMessage>): string {
    if |h| == 0 then "" else HistoryLine(h[0]) + HistoryLines(h[1..])
  }

  /** The `history_context` block for a window of messages; no block at all for an empty window. */
  function HistoryText(recent: seq<HistoryMessage>): string {
    if |recent| == 0 then "" else HistoryHeader + HistoryLines(recent) + HistoryFooter
  }

  lemma {:induction false} HistoryLinesConcat(a: seq<HistoryMessage>, b: seq<HistoryMessage>)
    ensures HistoryLines(a + b) == HistoryLines(a) + HistoryLines(b)
  {
    if |a| > 0 {
      assert (a + b)[1..] == a[1..] + b;
      HistoryLinesConcat(a[1..], b);
    } else {
      assert a + b == b;
    }
  }

  lemma ConcatAssoc(a: string, b: string, c: string)
    ensures (a + b) + c == a + (b + c)
  {}

  lemma LinesStep(h: seq<HistoryMessage>, i: nat)
    requires i < |h|
    ensures HistoryLines(h[..i + 1]) == HistoryLines(h[..i]) + HistoryLine(h[i])
  {
    assert h[..i + 1] == h[..i] + [h[i]];
    HistoryLinesConcat(h[..i], [h[i]]);
    assert HistoryLines([h[i]]) == HistoryLine(h[i]) + HistoryLines([]);
  }

  /** The history block is built by appending one line per message, in order. */
  method BuildHistoryContext(history: seq<HistoryMessage>) returns (ctx: string)
    ensures ctx == HistoryText(RecentHistory(history))
  {
    var recent := if |history| > ConversationMemoryMessages
                  then history[|history| - ConversationMemoryMessages..] else history;
    ctx := "";
    if |recent| > 0 {
      ctx := HistoryHeader;
      var i := 0;
      while i < |recent|
        invariant 0 <= i <= |recent|
        invariant ctx == HistoryHeader + HistoryLines(recent[..i])
      {
        var msg := recent[i];
        var role := msg.role.GetOr("user");
        var content := msg.content.GetOr("");
        var line := "";
        if role == "user" {
          line := "Usuario: " + content + "\n";
        } else if role == "assistant" {
          line := "Asistente: " + content + "\n";
        }
        assert line == HistoryLine(msg);
        LinesStep(recent, i);
        ConcatAssoc(HistoryHeader, HistoryLines(recent[..i]), line);
        ctx := ctx + line;
        i := i + 1;
      }
      assert recent[..i] == recent;
      ctx := ctx + HistoryFooter;
    }
  }

  /** A message whose role is neither "user" nor "assistant" adds nothing to the prompt. */
  lemma OtherRolesSkipped(h: seq<HistoryMessage>, m: HistoryMessage)
    requires m.role.GetOr("user") != "user" && m.role.GetOr("user") != "assistant"
    ensures HistoryLines(h + [m]) == HistoryLines(h)
  {
    HistoryLinesConcat(h, [m]);
    assert HistoryLines([m]) == "";
  }

  /** Only the last ten messages matter: older ones never reach the prompt. */
  lemma OlderHistoryIgnored(older: seq<HistoryMessage>, h: seq<HistoryMessage>)
    requires |h| >= ConversationMemoryMessages
    ensures HistoryText(RecentHistory(older + h)) == HistoryText(RecentHistory(h))
  {
    var all := older + h;
    var k := ConversationMemoryMessages;
    var a, b := all[|all| - k..], h[|h| - k..];
    assert a == b by {
      forall i | 0 <= i < k
        ensures a[i] == b[i]
      {
        assert all[|all| - k + i] == h[|h| - k + i];
      }
    }
    assert RecentHistory(all) == RecentHistory(h);
  }

  /** The history block is empty exactly when there is no history. */
  lemma EmptyHistoryNoBlock(h: seq<HistoryMessage>)
    ensures HistoryText(RecentHistory(h)) == "" <==> |h| == 0
  {
    if |h| > 0 {
      assert |HistoryText(RecentHistory(h))| >= |HistoryHeader| > 0;
    }
  }

  // ---------------------------------------------------------------------
  // Database parameters and `_execute_sql`
  // ---------------------------------------------------------------------

  /**
   * The connection parameters `DBConfig` receives: a copy of `db_params`
   * in which a "username" key, when present, replaces "user".
   */
  function ConnectionParams(p: map<string, string>): (r: map<string, string>)
    ensures "username" !in r
    ensures "username" in p ==> "user" in r && r["user"] == p["username"]
    ensures forall k :: k in p && k != "username" && k != "user" ==> k in r && r[k] == p[k]
    ensures forall k :: k in r ==> k in p || k == "user"
    ensures "username" !in p ==> r == p
  {
    if "username" in p then (p - {"username"})["user" := p["username"]] else p
  }

  /** `max_retries` of `_execute_sql`. */
  const MaxDbAttempts: nat := 3

  const DbFailurePrefix: string := "Error despu\U{00E9}s de 3 intentos: "

  /**
   * What one `_execute_sql` call does: its outcome, how many connection
   * attempts it made (each one closes its connection), and the waits
   * between attempts, in half-second units.
   */
  datatype DbRun<R> = DbRun(result: Result<R>, attempts: nat, waits: seq<nat>)

  function DbAttempts<R>(query: string, db: (nat, nat, string) -> Result<R>, call: nat, retry: nat): (r: DbRun<R>)
    requires retry < MaxDbAttempts
    decreases MaxDbAttempts - retry
  {
    match db(call, retry, query)
    case Ok(rows) => DbRun(Ok(rows), retry + 1, [])
    case Err(e) =>
      if retry + 1 < MaxDbAttempts then
        var rest := DbAttempts(query, db, call, retry + 1);
        DbRun(rest.result, rest.attempts, [retry + 1] + rest.waits)
      else DbRun(Err(DbFailurePrefix + e), MaxDbAttempts, [])
  }

  /** The `call`-th `_execute_sql(query, …)`. */
  function ExecuteSqlSpec<R>(query: string, db: (nat, nat, string) -> Result<R>, call: nat): DbRun<R> {
    DbAttempts(query, db, call, 0)
  }

  /** `_execute_sql`: the retry loop over `retry_count` and `last_error`. */
  method ExecuteSql<R>(query: string, db: (nat, nat, string) -> Result<R>, call: nat)
    returns (result: Result<R>, attempts: nat, waits: seq<nat>)
    ensures DbRun(result, attempts, waits) == ExecuteSqlSpec(query, db, call)
  {
    var retryCount: nat := 0;
    var lastError := "";
    waits := [];
    while retryCount < MaxDbAttempts
      invariant retryCount <= MaxDbAttempts
      invariant retryCount < MaxDbAttempts ==>
        var rest := DbAttempts(query, db, call, retryCount);
        ExecuteSqlSpec(query, db, call) == DbRun(rest.result, rest.attempts, waits + rest.waits)
      invariant retryCount == MaxDbAttempts ==>
        ExecuteSqlSpec(query, db, call) == DbRun(Err(DbFailurePrefix + lastError), MaxDbAttempts, waits)
    {
      var r := db(call, retryCount, query);
      if r.Ok? {
        return r, retryCount + 1, waits;
      }
      lastError := r.error;
      retryCount := retryCount + 1;
      if retryCount < MaxDbAttempts {
        waits := waits + [retryCount];
      }
    }
    result := Err(DbFailurePrefix + lastError);
    attempts := MaxDbAttempts;
  }

  /**
   * `_execute_sql` succeeds exactly when one of its three attempts does;
   * it then returns the rows of the first successful attempt, after one
   * wait of `i` half-seconds behind each failed attempt `i`.
   */
  lemma ExecuteSqlSucceedsIff<R>(query: string, db: (nat, nat, string) -> Result<R>, call: nat)
    ensures var r := ExecuteSqlSpec(query, db, call);
      r.result.Ok? <==> (db(call, 0, query).Ok? || db(call, 1, query).Ok? || db(call, 2, query).Ok?)
    ensures var r := ExecuteSqlSpec(query, db, call);
      r.result.Ok? ==>
        1 <= r.attempts <= MaxDbAttempts && r.result == db(call, r.attempts - 1, query) &&
        (forall a :: 0 <= a < r.attempts - 1 ==> db(call, a, query).Err?) &&
        r.waits == seq(r.attempts - 1, i => i + 1)
  {
    var r0 := DbAttempts(query, db, call, 0);
    var r1 := DbAttempts(query, db, call, 1);
    var r2 := DbAttempts(query, db, call, 2);
    if db(call, 0, query).Err? && db(call, 1, query).Err? {
      assert r1 == DbRun(r2.result, r2.attempts, [2] + r2.waits);
    }
    if db(call, 0, query).Err? {
      assert r0 == DbRun(r1.result, r1.attempts, [1] + r1.waits);
    }
  }

  /** All three attempts fail: the error names the last one, after waits of 0.5 s and 1 s. */
  lemma ExecuteSqlAllFail<R>(query: string, db: (nat, nat, string) -> Result<R>, call: nat)
    requires db(call, 0, query).Err? && db(call, 1, query).Err? && db(call, 2, query).Err?
    ensures ExecuteSqlSpec(query, db, call) ==
      DbRun(Err(DbFailurePrefix + db(call, 2, query).error), MaxDbAttempts, [1, 2])
  {
    var r1 := DbAttempts(query, db, call, 1);
    var r2 := DbAttempts(query, db, call, 2);
    assert r2 == DbRun(Err(DbFailurePrefix + db(call, 2, query).error), MaxDbAttempts, []);
    assert r1 == DbRun(r2.result, r2.attempts, [2] + r2.waits);
  }

  /** The `execute_func` handed to the corrector: the `k`-th call of `_execute_sql`. */
  function DbExec<R>(db: (nat, nat, string) -> Result<R>): (nat, string) -> Result<R> {
    (k: nat, q: string) => ExecuteSqlSpec(q, db, k).result
  }

  // ---------------------------------------------------------------------
  // SQL normalisation
  // ---------------------------------------------------------------------

  const SqlStart: string := "```sql"

  /** `SQLLimits.DEFAULT_FIRST`, as the clause inserted after SELECT. */
  const FirstClause: string := " FIRST 100"

  /** The query is a SELECT that does not limit its rows with FIRST (tested on the upper-cased text). */
  predicate NeedsFirst(sql: string) {
    StartsWith(Upper(sql), "SELECT") && !Contains(Upper(sql), "FIRST")
  }

  /** Insert " FIRST 100" after the first six characters of a SELECT without FIRST. */
  function InjectFirst(sql: string): (r: string)
    ensures NeedsFirst(sql) ==> |sql| >= 6 && r == sql[..6] + FirstClause + sql[6..]
    ensures !NeedsFirst(sql) ==> r == sql
  {
    if NeedsFirst(sql) then sql[..6] + FirstClause + sql[6..] else sql
  }

  /** After the insertion every upper-cased SELECT contains FIRST, so the step is idempotent. */
  lemma InjectFirstLimits(sql: string)
    requires StartsWith(Upper(sql), "SELECT")
    ensures StartsWith(Upper(InjectFirst(sql)), "SELECT")
    ensures Contains(Upper(InjectFirst(sql)), "FIRST")
    ensures InjectFirst(InjectFirst(sql)) == InjectFirst(sql)
  {
    var r := InjectFirst(sql);
    if NeedsFirst(sql) {
      var u := Upper(r);
      assert u[..6] == Upper(sql)[..6];
      assert u[7..12] == "FIRST";
      assert OccursAt(u, "FIRST", 7);
      ContainsIff(u, "FIRST");
    }
  }

  /** Normalisation never touches a query that is not a SELECT. */
  lemma InjectFirstOnlySelect(sql: string)
    requires !StartsWith(Upper(sql), "SELECT")
    ensures InjectFirst(sql) == sql
  {}

  /** The query of the turn: the fenced block of the reply, cleaned, with FIRST added when needed. */
  function TurnSql(resp: string): string
    requires Contains(resp, SqlStart)
  {
    InjectFirst(FencedSql(resp))
  }

  // ---------------------------------------------------------------------
  // Debug commands
  // ---------------------------------------------------------------------

  datatype Route = DebugTables | DebugColumns | Question

  /** Which branch a message takes: the two debug commands are recognised after trimming. */
  function RouteOf(message: string): (r: Route)
    ensures r == DebugTables <==> Strip(message) == "DEBUG_TABLES"
    ensures r == DebugColumns <==> Strip(message) != "DEBUG_TABLES" && StartsWith(Strip(message), "DEBUG_COLUMNS")
  {
    var m := Strip(message);
    if m == "DEBUG_TABLES" then DebugTables
    else if StartsWith(m, "DEBUG_COLUMNS") then DebugColumns
    else Question
  }

  /**
   * What the debug commands read from the database: the table list (or the
   * error that aborted it), per table the row count and whether its column
   * query succeeded, its columns and a sample row (`Ok(None)` for an empty
   * table), and the error of the final disconnect, if any.
   */
  datatype DebugDb = DebugDb(
    tables: Result<seq<string>>,
    count: string -> Result<nat>,
    columnQueryOk: string -> bool,
    columns: string -> Result<seq<string>>,
    sample: string -> Result<Option<string>>,
    closeError: Option<string>)

  /** A table is an invoice candidate when its name contains FACT, VENT, CAB or ALB. */
  predicate InvoiceTable(t: string) {
    Contains(t, "FACT") || Contains(t, "VENT") || Contains(t, "CAB") || Contains(t, "ALB")
  }

  /**
   * The candidate lines of one table.  A failed count gives one error line;
   * a failed column query after a good count gives the count line AND an
   * error line, because both appends happen.
   */
  function CandidateLines(db: DebugDb, t: string): seq<string> {
    if !InvoiceTable(t) then []
    else match db.count(t)
      case Err(_) => [t + " (Error leyendo)"]
      case Ok(n) =>
        [t + " (" + NatToString(n) + " filas)"] + (if db.columnQueryOk(t) then [] else [t + " (Error leyendo)"])
  }

  function Candidates(db: DebugDb, ts: seq<string>): seq<string> {
    if |ts| == 0 then [] else CandidateLines(db, ts[0]) + Candidates(db, ts[1..])
  }

  lemma PrefixOfConcat(a: string, b: string)
    ensures StartsWith(a + b, a)
  {
    assert (a + b)[..|a|] == a;
  }

  /** The lines of one table: none unless it is a candidate, and each one opens with "<table> (". */
  lemma CandidateLinesShape(db: DebugDb, t: string)
    ensures forall line :: line in CandidateLines(db, t) ==> InvoiceTable(t) && StartsWith(line, t + " (")
    ensures InvoiceTable(t) ==> |CandidateLines(db, t)| > 0
  {
    var head := t + " (";
    PrefixOfConcat(head, "Error leyendo)");
    if InvoiceTable(t) && db.count(t).Ok? {
      PrefixOfConcat(head, NatToString(db.count(t).value) + " filas)");
      assert head + (NatToString(db.count(t).value) + " filas)") == t + " (" + NatToString(db.count(t).value) + " filas)";
    }
    assert head + "Error leyendo)" == t + " (Error leyendo)";
  }

  /** Every candidate line reports an invoice table of the list. */
  lemma {:induction false} CandidatesAreInvoiceTables(db: DebugDb, ts: seq<string>)
    ensures forall line :: line in Candidates(db, ts) ==>
      exists t :: t in ts && InvoiceTable(t) && StartsWith(line, t + " (")
  {
    if |ts| > 0 {
      CandidatesAreInvoiceTables(db, ts[1..]);
      CandidateLinesShape(db, ts[0]);
      assert forall t :: t in ts[1..] ==> t in ts;
    }
  }

  /** Every invoice table of the list is reported by at least one line. */
  lemma {:induction false} InvoiceTablesAreCandidates(db: DebugDb, ts: seq<string>)
    ensures forall t :: t in ts && InvoiceTable(t) ==>
      exists line :: line in Candidates(db, ts) && StartsWith(line, t + " (")
  {
    if |ts| > 0 {
      InvoiceTablesAreCandidates(db, ts[1..]);
      CandidateLinesShape(db, ts[0]);
      var rest := Candidates(db, ts[1..]);
      assert Candidates(db, ts) == CandidateLines(db, ts[0]) + rest;
      if InvoiceTable(ts[0]) {
        assert CandidateLines(db, ts[0])[0] in Candidates(db, ts);
      }
      assert forall line :: line in rest ==> line in Candidates(db, ts);
    }
  }

  /** The `DEBUG_TABLES` reply. */
  function DebugTablesReply(db: DebugDb): string {
    match db.tables
    case Err(e) => "Error debug: " + e
    case Ok(ts) =>
      if db.closeError.Some? then "Error debug: " + db.closeError.value
      else "Tablas encontradas (" + NatToString(|ts|) + "): " + Join(ts, ", ") +
           "\n\nCandidatos facturas:\n" + Join(Candidates(db, ts), "\n")
  }

  /** The table a `DEBUG_COLUMNS` command names: the second space-separated piece. */
  function ColumnsTarget(command: string): (r: Result<string>)
    ensures r.Ok? <==> |Split(command, " ")| >= 2
    ensures r.Ok? ==> r.value == Split(command, " ")[1]
  {
    var parts := Split(command, " ");
    if |parts| >= 2 then Ok(parts[1]) else Err("list index out of range")
  }

  /** The `DEBUG_COLUMNS <table>` reply, for the trimmed command. */
  function DebugColumnsReply(command: string, db: DebugDb): string {
    match ColumnsTarget(command)
    case Err(e) => "Error debug columns: " + e
    case Ok(t) =>
      match db.columns(t)
      case Err(e) => "Error debug columns: " + e
      case Ok(cols) =>
        var sample :=
          match db.sample(t)
          case Ok(Some(row)) => "\nEjemplo de datos:\n" + row
          case Ok(None) => ""
          case Err(_) => "\nNo se pudo obtener datos de ejemplo";
        if db.closeError.Some? then "Error debug columns: " + db.closeError.value
        else "Columnas de " + t + ":\n" + Join(cols, "\n") + sample
  }

  /** A command with no space names no table: Python's list index error is the reply. */
  lemma DebugColumnsWithoutTable(command: string, db: DebugDb)
    requires !Contains(command, " ")
    ensures DebugColumnsReply(command, db) == "Error debug columns: list index out of range"
  {
    NoTableNamed(command);
  }

  lemma NoTableNamed(command: string)
    requires !Contains(command, " ")
    ensures ColumnsTarget(command) == Err("list index out of range")
  {
    assert Split(command, " ") == [command];
  }

  // ---------------------------------------------------------------------
  // A question turn
  // ---------------------------------------------------------------------

  const PromptOpening: string :=
    "\nEres un asistente experto en bases de datos Firebird SQL.\n" +
    "Convierte preguntas en lenguaje natural a consultas SQL v\U{00E1}lidas.\n"

  /** Stands for the numbered Firebird rule block that closes the prompt; only its heading is kept. */
  const TextToSqlRules: string := "INSTRUCCIONES CR\U{00CD}TICAS:\n"

  function SystemPrompt(historyContext: string, dbContext: string): string {
    PromptOpening + historyContext + "\n" + dbContext + "\n\n" + TextToSqlRules
  }

  const NoModelMessage: string :=
    "\U{274C} No se pudo generar la consulta con ning\U{00FA}n modelo disponible. Por favor, int\U{00E9}ntalo m\U{00E1}s tarde."

  /** What calling a method on the missing provider raises. */
  const NoProviderError: string := "'NoneType' object has no attribute 'generate_text'"

  /** The corrector's view of a missing provider: every request raises. */
  function Unconfigured(n: nat, req: CorrectionRequest): Outcome {
    Failure(NoProviderError)
  }

  /** The data of the interpretation prompt: the question, the query as extracted, and the rows. */
  datatype InterpretRequest<R> = InterpretRequest(question: string, sql: string, rows: R)

  /** Everything a turn talks to. `orchestratorModels` is the orchestrator's own registry snapshot. */
  datatype Services<!R> = Services(
    orchestratorModels: seq<ModelConfig>,
    globalModels: seq<ModelConfig>,
    server: (nat, nat, Request) -> Outcome,
    ask: (nat, CorrectionRequest) -> Outcome,
    db: (nat, nat, string) -> Result<R>,
    interpret: InterpretRequest<R> -> Outcome,
    debug: DebugDb)

  /** How a turn ends: a reply string, or an exception leaving `process_message`. */
  datatype Turn = Reply(text: string) | Raised(error: string)

  function FailureMessage(e: string, sql: string): string {
    "Intent\U{00E9} ejecutar una consulta pero fall\U{00F3}: " + e + "\nConsulta: " + sql
  }

  /** The orchestrator run of a question, with the history window and the schema text in the prompt. */
  function Generation<R>(message: string, history: seq<HistoryMessage>, dbContext: string, s: Services<R>): Run {
    FallbackRun(s.orchestratorModels, MaxRetriesPerModel, RetryDelaySeconds,
                SystemPrompt(HistoryText(RecentHistory(history)), dbContext), message, s.server)
  }

  /**
   * The provider for correction and interpretation: the driver for the
   * winning model's entry in the global registry, `None` when that has no
   * such entry, and the factory's error for an unsupported tag.
   */
  function ProviderFor(ms: seq<ModelConfig>, modelId: Option<string>): (r: Result<Option<Kind>>)
    ensures modelId.None? ==> r == Ok(None)
    ensures modelId.Some? ==> (r == Ok(None) <==> !HasId(ms, modelId.value))
    ensures r.Err? ==> modelId.Some? && HasId(ms, modelId.value)
  {
    match modelId
    case None => Ok(None)
    case Some(id) =>
      match ModelWithId(ms, id)
      case None => Ok(None)
      case Some(cfg) =>
        match ProviderKind(SchemaTag(cfg))
        case Ok(k) => Ok(Some(k))
        case Err(e) => Err(e)
  }

  /** The SQL part of a turn, from the normalised query on. */
  function SqlTurn<R>(message: string, sql: string, dbContext: string, hasProvider: bool, s: Services<R>): Turn {
    var ask := if hasProvider then s.ask else Unconfigured;
    var run := ExecuteWithCorrection(sql, message, dbContext, ask, DbExec(s.db), MaxSqlCorrectionRetries);
    match run.result
    case Err(e) => Reply(FailureMessage(e, sql))
    case Ok(rows) =>
      if !hasProvider then Reply(FailureMessage(NoProviderError, sql))
      else match s.interpret(InterpretRequest(message, sql, rows))
        case Success(text) => Reply(text)
        case Failure(e) => Reply(FailureMessage(e, sql))
  }

  /** A question turn, once the orchestrator has produced `run`. */
  function Answer<R>(message: string, run: Run, dbContext: string, s: Services<R>): Turn {
    if run.response.None? || run.response.value == "" then Reply(NoModelMessage)
    else
      var resp := run.response.value;
      match ProviderFor(s.globalModels, run.modelId)
      case Err(e) => Raised(e)
      case Ok(provider) =>
        if !Contains(resp, SqlStart) then Reply(resp)
        else SqlTurn(message, TurnSql(resp), dbContext, provider.Some?, s)
  }

  /** A turn whose question branch puts the schema text `schema` into the prompt. */
  function TurnWith<R>(message: string, history: seq<HistoryMessage>, schema: string, s: Services<R>): Turn {
    match RouteOf(message)
    case DebugTables => Reply(DebugTablesReply(s.debug))
    case DebugColumns => Reply(DebugColumnsReply(Strip(message), s.debug))
    case Question => Answer(message, Generation(message, history, schema, s), schema, s)
  }

  /** `process_message`: the schema text of a question turn is the semantic schema. */
  function ProcessMessage<R>(message: string, history: seq<HistoryMessage>, s: Services<R>): Turn {
    TurnWith(message, history, SemanticSchema(), s)
  }

  // ---------------------------------------------------------------------
  // Properties of a turn
  // ---------------------------------------------------------------------

  /** The debug commands never consult the models, the history, the schema or the query database. */
  lemma DebugBypassesModels<R>(message: string, h1: seq<HistoryMessage>, h2: seq<HistoryMessage>,
                               schema1: string, schema2: string, s1: Services<R>, s2: Services<R>)
    requires RouteOf(message) != Question && s1.debug == s2.debug
    ensures TurnWith(message, h1, schema1, s1) == TurnWith(message, h2, schema2, s2)
    ensures TurnWith(message, h1, schema1, s1).Reply?
  {}

  /** Without a reply from any model the turn gives the fixed message and touches no database. */
  lemma NoModelNoDatabase<R>(message: string, run: Run, dbContext: string, s: Services<R>,
                             db: (nat, nat, string) -> Result<R>)
    requires run.response.None?
    ensures Answer(message, run, dbContext, s) == Reply(NoModelMessage)
    ensures Answer(message, run, dbContext, s.(db := db)) == Reply(NoModelMessage)
  {}

  /** A reply without a "```sql" block is returned verbatim. */
  lemma PlainReplyVerbatim<R>(message: string, run: Run, dbContext: string, s: Services<R>)
    requires run.response.Some? && !Contains(run.response.value, SqlStart)
    requires ProviderFor(s.globalModels, run.modelId).Ok?
    ensures Answer(message, run, dbContext, s) ==
      if run.response.value == "" then Reply(NoModelMessage) else Reply(run.response.value)
  {}

  /** An unsupported provider tag on the winning model escapes the turn as an exception. */
  lemma UnsupportedProviderRaises<R>(message: string, run: Run, dbContext: string, s: Services<R>)
    requires run.response.Some? && run.response.value != ""
    requires ProviderFor(s.globalModels, run.modelId).Err?
    ensures Answer(message, run, dbContext, s) == Raised(ProviderFor(s.globalModels, run.modelId).error)
  {}

  /**
   * A failed query is reported with the normalised query as first run,
   * never with a later correction, whatever the corrector tried.
   */
  lemma FailureReportsFirstQuery<R>(message: string, sql: string, dbContext: string, hasProvider: bool, s: Services<R>)
    requires
      var ask := if hasProvider then s.ask else Unconfigured;
      ExecuteWithCorrection(sql, message, dbContext, ask, DbExec(s.db), MaxSqlCorrectionRetries).result.Err?
    ensures
      var ask := if hasProvider then s.ask else Unconfigured;
      var run := ExecuteWithCorrection(sql, message, dbContext, ask, DbExec(s.db), MaxSqlCorrectionRetries);
      run.queries[0] == sql &&
      SqlTurn(message, sql, dbContext, hasProvider, s) == Reply(FailureMessage(run.result.error, run.queries[0]))
  {}

  /**
   * When the first `_execute_sql` call succeeds the rows go, with the
   * question and the query, to the configured provider, whose text is the
   * reply; without a provider the turn reports the missing provider.
   */
  lemma FirstQueryAnswered<R>(message: string, sql: string, dbContext: string, hasProvider: bool, s: Services<R>)
    requires ExecuteSqlSpec(sql, s.db, 0).result.Ok?
    ensures var rows := ExecuteSqlSpec(sql, s.db, 0).result.value;
      SqlTurn(message, sql, dbContext, hasProvider, s) ==
        if !hasProvider then Reply(FailureMessage(NoProviderError, sql))
        else match s.interpret(InterpretRequest(message, sql, rows))
          case Success(text) => Reply(text)
          case Failure(e) => Reply(FailureMessage(e, sql))
  {
    var ask := if hasProvider then s.ask else Unconfigured;
    FirstExecutionSucceeds(sql, message, dbContext, ask, DbExec(s.db), MaxSqlCorrectionRetries);
  }

  /** Without a configured provider nothing is corrected: the first query is the only one run. */
  lemma NoProviderNoCorrection<R>(message: string, sql: string, dbContext: string, s: Services<R>)
    ensures |ExecuteWithCorrection(sql, message, dbContext, Unconfigured, DbExec(s.db), MaxSqlCorrectionRetries).queries| == 1
  {
    var step := CorrectionStep(message, dbContext, Unconfigured);
    match DbExec(s.db)(0, sql)
    case Ok(_) =>
    case Err(e) =>
      assert Decide(sql, message, dbContext, e, Unconfigured, 0).GiveUp?;
      assert step(0, sql, e).GiveUp?;
  }
}
