/**
 * `SQLCorrector`: classify a Firebird error message, pull a corrected
 * query out of a model reply, and run the bounded execute-and-repair
 * recursion of `execute_with_correction`.
 *
 * The database is the parameter `exec`: `exec(n, sql)` is what the n-th
 * execution of `sql` gives.  The model that proposes corrections is the
 * parameter `ask`: `ask(n, req)` is its reply to the n-th correction request.
 */
module SqlCorrector {
  import opened Wrappers
  import opened Text

  /** The dict `detect_error_type` returns. */
  datatype ErrorInfo =
    | TableUnknown(table: Option<string>)
    | ColumnUnknown(column: Option<string>)
    | SyntaxError(token: Option<string>)
    | UnknownError(message: string)
  {
    /** The 'type' entry. */
    function TypeName(): string {
      match this
      case TableUnknown(_) => "table_unknown"
      case ColumnUnknown(_) => "column_unknown"
      case SyntaxError(_) => "syntax_error"
      case UnknownError(_) => "unknown"
    }

    /** The 'message' entry. */
    function Message(): string {
      match this
      case TableUnknown(_) => "La tabla especificada no existe en la base de datos"
      case ColumnUnknown(_) => "La columna especificada no existe en la tabla"
      case SyntaxError(_) => "Error de sintaxis SQL"
      case UnknownError(m) => m
    }
  }

  /**
   * `parts[1].strip().split()[0]` after splitting on the exact-case `marker`:
   * the first word after the marker, or `None` when the marker is absent or
   * nothing follows it.
   */
  function ExtractToken(msg: string, marker: string): (r: Option<string>)
    requires |marker| > 0
    ensures !Contains(msg, marker) ==> r.None?
    ensures Contains(msg, marker) ==> (r.None? <==> Strip(Piece1(msg, marker)) == "")
    ensures r.Some? ==> |r.value| > 0 && forall i :: 0 <= i < |r.value| ==> !IsPySpace(r.value[i])
    ensures r.Some? ==> Contains(msg, marker) && r.value == TakeWord(Strip(Piece1(msg, marker)))
  {
    if !Contains(msg, marker) then None
    else
      var rest := Strip(Piece1(msg, marker));
      if rest == "" then None
      else
        StripShape(Piece1(msg, marker));
        Some(TakeWord(rest))
  }

  /** `detect_error_type`: ordered, case-insensitive substring tests. */
  function DetectErrorType(msg: string): (r: ErrorInfo)
    ensures r.TableUnknown? <==> Contains(Upper(msg), "TABLE UNKNOWN")
    ensures r.ColumnUnknown? <==> !Contains(Upper(msg), "TABLE UNKNOWN") && Contains(Upper(msg), "COLUMN UNKNOWN")
    ensures r.SyntaxError? <==>
      && !Contains(Upper(msg), "TABLE UNKNOWN") && !Contains(Upper(msg), "COLUMN UNKNOWN")
      && (Contains(Upper(msg), "SYNTAX") || Contains(Upper(msg), "TOKEN UNKNOWN"))
    ensures r.UnknownError? ==> r.message == msg
    ensures r.TableUnknown? ==> r.table == ExtractToken(msg, "Table unknown")
    ensures r.ColumnUnknown? ==> r.column == ExtractToken(msg, "Column unknown")
    ensures r.SyntaxError? ==> r.token == ExtractToken(msg, "Token unknown")
  {
    var u := Upper(msg);
    if Contains(u, "TABLE UNKNOWN") then TableUnknown(ExtractToken(msg, "Table unknown"))
    else if Contains(u, "COLUMN UNKNOWN") then ColumnUnknown(ExtractToken(msg, "Column unknown"))
    else if Contains(u, "SYNTAX") || Contains(u, "TOKEN UNKNOWN") then SyntaxError(ExtractToken(msg, "Token unknown"))
    else UnknownError(msg)
  }

  /** Text that starts with a separator has the rest as what follows its first occurrence. */
  lemma AfterLeadingSep(sep: string, rest: string)
    requires |sep| > 0
    ensures Contains(sep + rest, sep) && After(sep + rest, sep) == rest
  {
    assert (sep + rest)[..|sep|] == sep;
    IndexOfAt(sep + rest, sep, 0);
  }

  /** The marker followed by a space and one word yields that word. */
  lemma ExtractTokenOfWord(marker: string, w: string)
    requires |marker| > 0 && |w| > 0
    requires forall i :: 0 <= i < |w| ==> !IsPySpace(w[i])
    requires !Contains(" " + w, marker)
    ensures ExtractToken(marker + " " + w, marker) == Some(w)
  {
    assert marker + " " + w == marker + (" " + w);
    AfterLeadingSep(marker, " " + w);
    assert Piece1(marker + " " + w, marker) == " " + w;
    StripSpacedWord(w);
    TakeWordOfWord(w);
  }

  /** A word after one space strips to the word. */
  lemma StripSpacedWord(w: string)
    requires forall i :: 0 <= i < |w| ==> !IsPySpace(w[i])
    ensures Strip(" " + w) == w
  {
    assert (" " + w)[1..] == w;
    TrimLeftNoSpace(w, IsPySpace);
    assert StripLeft(" " + w) == w;
    TrimRightNoSpace(w, IsPySpace);
  }

  /** "Table unknown " followed by one word names that word as the unknown table. */
  lemma TableUnknownNamesTable(w: string)
    requires |w| > 0 && forall i :: 0 <= i < |w| ==> !IsPySpace(w[i])
    requires !Contains(" " + w, "Table unknown")
    ensures DetectErrorType("Table unknown " + w) == TableUnknown(Some(w))
  {
    var msg := "Table unknown " + w;
    assert msg == "Table unknown" + " " + w;
    assert Upper(msg)[..13] == "TABLE UNKNOWN";
    IndexOfAt(Upper(msg), "TABLE UNKNOWN", 0);
    ExtractTokenOfWord("Table unknown", w);
  }

  /** A marker present only in another case classifies the error but yields no token. */
  lemma LowerCaseMarkerNoToken(rest: string)
    requires forall i :: 0 <= i < |rest| ==> rest[i] != 'T'
    ensures DetectErrorType("table unknown" + rest) == TableUnknown(None)
  {
    var msg := "table unknown" + rest;
    assert Upper(msg)[..13] == "TABLE UNKNOWN";
    IndexOfAt(Upper(msg), "TABLE UNKNOWN", 0);
    IndexOfNotBefore(msg, "Table unknown", |msg|);
  }

  /** The five values a correction request interpolates into its fixed prompt. */
  datatype CorrectionRequest = CorrectionRequest(
    question: string, failedSql: string, errorMessage: string, errorType: string, dbContext: string)

  predicate AllClean(r: seq<string>) {
    forall k :: 0 <= k < |r| ==> Strip(r[k]) == r[k] && r[k] != ""
  }

  lemma CleanCons(x: string, r: seq<string>)
    requires Strip(x) == x && x != "" && AllClean(r)
    ensures AllClean([x] + r)
  {
    var s := [x] + r;
    forall k | 0 <= k < |s| ensures Strip(s[k]) == s[k] && s[k] != "" {
      if k == 0 { assert s[k] == x; } else { assert s[k] == r[k - 1]; }
    }
  }

  /** The stripped, non-blank lines of a reply, in order. */
  function NonBlankLines(lines: seq<string>): (r: seq<string>)
    ensures AllClean(r)
  {
    if |lines| == 0 then []
    else if Strip(lines[0]) == "" then NonBlankLines(lines[1..])
    else
      StripIdempotent(lines[0]);
      CleanCons(Strip(lines[0]), NonBlankLines(lines[1..]));
      [Strip(lines[0])] + NonBlankLines(lines[1..])
  }

  /** Python `s.rstrip(';').strip()`. */
  function CleanSql(s: string): string { Strip(RStripChar(s, ';')) }

  /**
   * `resp.split("```sql")[1].split("```")[0].strip().rstrip(';').strip()`:
   * the text between the first "```sql" and the next "```", cleaned.
   */
  function FencedSql(resp: string): string
    requires Contains(resp, "```sql")
  {
    CleanSql(Strip(Before(Piece1(resp, "```sql"), "```")))
  }

  /**
   * The SQL part of `request_correction`: the first "```sql" block, or
   * else the first non-blank line; `None` for a failed call or a blank reply.
   */
  function ExtractCorrection(reply: Outcome): (r: Option<string>)
    ensures reply.Failure? ==> r.None?
  {
    match reply
    case Failure(_) => None
    case Success(resp) =>
      if Contains(resp, "```sql") then Some(FencedSql(resp))
      else
        var lines := NonBlankLines(Split(resp, "\n"));
        if |lines| == 0 then None else Some(CleanSql(lines[0]))
  }

  predicate NoBacktick(s: string) { forall i :: 0 <= i < |s| ==> s[i] != '`' }

  /** Cutting `body + "```" + post` at its first "```sql" keeps all of `body` and, beyond it, a whole fence or nothing. */
  lemma PieceAfterOpening(body: string, post: string)
    requires NoBacktick(body)
    requires |post| == 0 || post[0] != '`'
    ensures var piece := Before(body + "```" + post, "```sql");
      piece == body || (|piece| >= |body| + 3 && piece[..|body| + 3] == body + "```")
  {
    var u := body + "```" + post;
    IndexOfNotBefore(u, "```sql", |body|);
    if IndexOf(u, "```sql").Some? {
      var k := IndexOf(u, "```sql").value;
      OccursAtStart(u, "```sql", k);
      assert k != |body| + 1 && k != |body| + 2 by {
        assert "```sql"[1] == '`' && "```sql"[2] == '`';
        assert OccursAt(u, "```sql", k);
        assert k + 6 <= |u|;
        assert u[k..k + 6][1] == u[k + 1] && u[k..k + 6][2] == u[k + 2];
        assert u[k + 1] == '`' && u[k + 2] == '`';
        assert |post| > 0 && u[|body| + 3] == post[0];
      }
      if k >= |body| + 3 {
        assert u[..k][..|body| + 3] == u[..|body| + 3];
      }
    }
  }

  /** A backtick-free body, alone or followed by a fence, is what comes before the first fence. */
  lemma BeforeFence(body: string, piece: string)
    requires NoBacktick(body)
    requires piece == body || (|piece| >= |body| + 3 && piece[..|body| + 3] == body + "```")
    ensures Before(piece, "```") == body
  {
    if piece == body {
      IndexOfNotBefore(piece, "```", |piece|);
    } else {
      assert piece[..|body| + 3][|body|..] == "```";
      assert OccursAt(piece, "```", |body|);
      IndexOfAt(piece, "```", |body|);
      assert piece[..|body| + 3][..|body|] == body;
    }
  }

  /** A reply that opens with a "```sql" block yields the block's body, trimmed and without trailing ';'. */
  lemma FencedSqlOfBlock(body: string, post: string)
    requires NoBacktick(body)
    requires |post| == 0 || post[0] != '`'
    ensures var resp := "```sql" + body + "```" + post;
      Contains(resp, "```sql") && FencedSql(resp) == CleanSql(Strip(body))
  {
    var u := body + "```" + post;
    assert "```sql" + body + "```" + post == "```sql" + u;
    AfterLeadingSep("```sql", u);
    PieceAfterOpening(body, post);
    BeforeFence(body, Before(u, "```sql"));
  }

  /** The same reply, as a correction. */
  lemma ExtractFencedBlock(body: string, post: string)
    requires NoBacktick(body)
    requires |post| == 0 || post[0] != '`'
    ensures ExtractCorrection(Success("```sql" + body + "```" + post)) == Some(CleanSql(Strip(body)))
  {
    FencedSqlOfBlock(body, post);
  }

  /** A reply without a block gives its first non-blank line, cleaned. */
  lemma ExtractFirstLine(line: string, rest: string)
    requires forall i :: 0 <= i < |line| ==> line[i] != '\n'
    requires Strip(line) != ""
    requires !Contains(line + "\n" + rest, "```sql")
    ensures ExtractCorrection(Success(line + "\n" + rest)) == Some(CleanSql(Strip(line)))
  {
    var resp := line + "\n" + rest;
    IndexOfAt(resp, "\n", |line|);
    assert resp[..|line|] == line;
    var parts := Split(resp, "\n");
    assert parts[0] == line;
  }

  /** An empty reply proposes nothing. */
  lemma ExtractEmptyReply()
    ensures ExtractCorrection(Success("")) == None
  {
    assert !Contains("", "```sql");
    assert !Contains("", "\n");
    assert Split("", "\n") == [""];
    assert Strip("") == "";
  }

  /** What `execute_with_correction` does after a failure below its budget. */
  datatype Decision = GiveUp(asked: bool) | RetryWith(fixed: string)

  /**
   * The step after a failure with message `e`: give up at once on an
   * unrecognised error; otherwise ask for a correction and give up when
   * there is none, it is empty, or it equals the failing query after trimming.
   */
  function Decide(sql: string, question: string, dbContext: string, e: string,
                  ask: (nat, CorrectionRequest) -> Outcome, n: nat): (r: Decision)
    ensures DetectErrorType(e).UnknownError? <==> r == GiveUp(false)
    ensures r.RetryWith? ==> r.fixed != "" && Strip(r.fixed) != Strip(sql)
    ensures r.RetryWith? ==>
      ExtractCorrection(ask(n, CorrectionRequest(question, sql, e, DetectErrorType(e).TypeName(), dbContext))) == Some(r.fixed)
  {
    var info := DetectErrorType(e);
    if info.UnknownError? then GiveUp(false)
    else
      var fixed := ExtractCorrection(ask(n, CorrectionRequest(question, sql, e, info.TypeName(), dbContext)));
      if fixed.None? || fixed.value == "" || Strip(fixed.value) == Strip(sql) then GiveUp(true) else RetryWith(fixed.value)
  }

  /** One run of `execute_with_correction`: its outcome, the queries executed and the corrections asked for. */
  datatype CorrectionRun<R> = CorrectionRun(result: Result<R>, queries: seq<string>, corrections: nat)

  /**
   * The recursion of `execute_with_correction`, entered at attempt `attempt`,
   * for any rule `step(n, query, error)` that decides what follows the n-th failure.
   */
  function Repair<R>(sql: string, step: (nat, string, string) -> Decision, exec: (nat, string) -> Result<R>,
                     maxRetries: nat, attempt: nat): (r: CorrectionRun<R>)
    ensures 1 <= |r.queries| && r.queries[0] == sql
    ensures attempt >= maxRetries ==> |r.queries| == 1 && r.corrections == 0
    ensures attempt < maxRetries ==> |r.queries| <= maxRetries - attempt + 1 && r.corrections <= maxRetries - attempt
    ensures r.corrections == |r.queries| - 1 || r.corrections == |r.queries|
    decreases maxRetries - attempt
  {
    match exec(attempt, sql)
    case Ok(rows) => CorrectionRun(Ok(rows), [sql], 0)
    case Err(e) =>
      if attempt >= maxRetries then CorrectionRun(Err(e), [sql], 0)
      else match step(attempt, sql, e)
        case GiveUp(asked) => CorrectionRun(Err(e), [sql], if asked then 1 else 0)
        case RetryWith(fixed) =>
          var rest := Repair(fixed, step, exec, maxRetries, attempt + 1);
          CorrectionRun(rest.result, [sql] + rest.queries, rest.corrections + 1)
  }

  /** The run's outcome is what executing its last query gave, at that query's execution number. */
  lemma {:induction false} ResultOfLastQuery<R>(sql: string, step: (nat, string, string) -> Decision,
                                               exec: (nat, string) -> Result<R>, maxRetries: nat, attempt: nat)
    ensures var r := Repair(sql, step, exec, maxRetries, attempt);
      r.result == exec(attempt + |r.queries| - 1, r.queries[|r.queries| - 1])
    decreases maxRetries - attempt
  {
    if attempt < maxRetries && exec(attempt, sql).Err? {
      var d := step(attempt, sql, exec(attempt, sql).error);
      if d.RetryWith? {
        ResultOfLastQuery(d.fixed, step, exec, maxRetries, attempt + 1);
      }
    }
  }

  /** The n-th execution of `q` fails and `step` answers that failure with `next`. */
  predicate StepRetries<R>(step: (nat, string, string) -> Decision, exec: (nat, string) -> Result<R>,
                           n: nat, q: string, next: string)
  {
    exec(n, q).Err? && step(n, q, exec(n, q).error) == RetryWith(next)
  }

  /** Each query of `qs` but the last fails at its execution number and `step` answers with the next. */
  predicate RetryChain<R>(step: (nat, string, string) -> Decision, exec: (nat, string) -> Result<R>,
                          n: nat, qs: seq<string>)
    decreases |qs|
  {
    |qs| <= 1 || (StepRetries(step, exec, n, qs[0], qs[1]) && RetryChain(step, exec, n + 1, qs[1..]))
  }

  /** Every query after the first is the answer of `step` to the failure of the one before it. */
  lemma {:induction false} QueriesFollowSteps<R>(sql: string, step: (nat, string, string) -> Decision,
                                                exec: (nat, string) -> Result<R>, maxRetries: nat, attempt: nat)
    ensures RetryChain(step, exec, attempt, Repair(sql, step, exec, maxRetries, attempt).queries)
    decreases maxRetries - attempt
  {
    if attempt < maxRetries && exec(attempt, sql).Err? {
      var d := step(attempt, sql, exec(attempt, sql).error);
      if d.RetryWith? {
        QueriesFollowSteps(d.fixed, step, exec, maxRetries, attempt + 1);
        var rest := Repair(d.fixed, step, exec, maxRetries, attempt + 1);
        var r := Repair(sql, step, exec, maxRetries, attempt);
        assert r.queries == [sql] + rest.queries;
        assert r.queries[1..] == rest.queries;
      }
    }
  }

  /** The step `execute_with_correction` takes: `Decide`, asking the model with the attempt number. */
  function CorrectionStep(question: string, dbContext: string, ask: (nat, CorrectionRequest) -> Outcome)
    : (nat, string, string) -> Decision
  {
    (n: nat, q: string, e: string) => Decide(q, question, dbContext, e, ask, n)
  }

  /** `execute_with_correction(sql, question, db_context, max_retries)`, from attempt 0. */
  function ExecuteWithCorrection<R>(sql: string, question: string, dbContext: string,
                                    ask: (nat, CorrectionRequest) -> Outcome, exec: (nat, string) -> Result<R>,
                                    maxRetries: nat): CorrectionRun<R>
  {
    Repair(sql, CorrectionStep(question, dbContext, ask), exec, maxRetries, 0)
  }

  const MaxSqlCorrectionRetries: nat := 2

  /** A query that runs the first time is returned as is, and no correction is requested. */
  lemma FirstExecutionSucceeds<R>(sql: string, question: string, dbContext: string,
                                  ask: (nat, CorrectionRequest) -> Outcome, exec: (nat, string) -> Result<R>,
                                  maxRetries: nat)
    requires exec(0, sql).Ok?
    ensures ExecuteWithCorrection(sql, question, dbContext, ask, exec, maxRetries)
            == CorrectionRun(exec(0, sql), [sql], 0)
  {}

  /** An error no rule recognises is re-raised unchanged without asking the model. */
  lemma UnknownErrorNotCorrected<R>(sql: string, question: string, dbContext: string,
                                    ask: (nat, CorrectionRequest) -> Outcome, exec: (nat, string) -> Result<R>,
                                    maxRetries: nat, attempt: nat)
    requires exec(attempt, sql).Err? && DetectErrorType(exec(attempt, sql).error).UnknownError?
    ensures Repair(sql, CorrectionStep(question, dbContext, ask), exec, maxRetries, attempt)
            == CorrectionRun(exec(attempt, sql), [sql], 0)
  {}

  /** A correction equal to the failing query after trimming ends the recursion with the original error. */
  lemma SameCorrectionStops<R>(sql: string, question: string, dbContext: string,
                               ask: (nat, CorrectionRequest) -> Outcome, exec: (nat, string) -> Result<R>,
                               maxRetries: nat, attempt: nat)
    requires attempt < maxRetries && exec(attempt, sql).Err?
    requires var e := exec(attempt, sql).error;
      var fixed := ExtractCorrection(ask(attempt, CorrectionRequest(question, sql, e, DetectErrorType(e).TypeName(), dbContext)));
      !DetectErrorType(e).UnknownError? && fixed.Some? && Strip(fixed.value) == Strip(sql)
    ensures Repair(sql, CorrectionStep(question, dbContext, ask), exec, maxRetries, attempt)
            == CorrectionRun(exec(attempt, sql), [sql], 1)
  {}

  /**
   * Each query of `qs` but the last fails at its execution number with an
   * error of a known kind, and the next is the correction the model proposed
   * for it: non-empty and different from the failing query after trimming.
   */
  predicate AcceptedChain<R>(question: string, dbContext: string, ask: (nat, CorrectionRequest) -> Outcome,
                             exec: (nat, string) -> Result<R>, n: nat, qs: seq<string>)
    decreases |qs|
  {
    |qs| <= 1 ||
    (&& exec(n, qs[0]).Err?
     && var e := exec(n, qs[0]).error;
        && !DetectErrorType(e).UnknownError?
        && ExtractCorrection(ask(n, CorrectionRequest(question, qs[0], e, DetectErrorType(e).TypeName(), dbContext))) == Some(qs[1])
        && qs[1] != "" && Strip(qs[1]) != Strip(qs[0])
        && AcceptedChain(question, dbContext, ask, exec, n + 1, qs[1..]))
  }

  lemma {:induction false} RetryChainAccepted<R>(question: string, dbContext: string,
                                                ask: (nat, CorrectionRequest) -> Outcome,
                                                exec: (nat, string) -> Result<R>, n: nat, qs: seq<string>)
    requires RetryChain(CorrectionStep(question, dbContext, ask), exec, n, qs)
    ensures AcceptedChain(question, dbContext, ask, exec, n, qs)
    decreases |qs|
  {
    if |qs| > 1 {
      RetryChainAccepted(question, dbContext, ask, exec, n + 1, qs[1..]);
      var e := exec(n, qs[0]).error;
      assert CorrectionStep(question, dbContext, ask)(n, qs[0], e) == Decide(qs[0], question, dbContext, e, ask, n);
    }
  }

  /** Every query after the first is a correction the model proposed for the failure of the one before it. */
  lemma CorrectionsAreAccepted<R>(sql: string, question: string, dbContext: string,
                                  ask: (nat, CorrectionRequest) -> Outcome, exec: (nat, string) -> Result<R>,
                                  maxRetries: nat)
    ensures AcceptedChain(question, dbContext, ask, exec, 0,
                          ExecuteWithCorrection(sql, question, dbContext, ask, exec, maxRetries).queries)
  {
    QueriesFollowSteps(sql, CorrectionStep(question, dbContext, ask), exec, maxRetries, 0);
    RetryChainAccepted(question, dbContext, ask, exec, 0,
                       ExecuteWithCorrection(sql, question, dbContext, ask, exec, maxRetries).queries);
  }

  /** With the default budget of 2, at most 3 executions and 2 correction requests happen. */
  lemma DefaultBudgetBound<R>(sql: string, question: string, dbContext: string,
                              ask: (nat, CorrectionRequest) -> Outcome, exec: (nat, string) -> Result<R>)
    ensures var r := ExecuteWithCorrection(sql, question, dbContext, ask, exec, MaxSqlCorrectionRetries);
      |r.queries| <= 3 && r.corrections <= 2
  {}
}
