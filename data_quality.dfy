/**
 * The data-quality service (`DataQualityService`): exact duplicates of
 * one field of one table, found by a predefined grouping query, and a
 * placeholder impact analysis.
 *
 * The predefined query text lives in `firebird_queries.py`, which is not
 * part of this model: it is the parameter `template`.  The database is
 * the parameter `execute` (query text to rows, or the exception raised by
 * connecting or querying).
 */
module DataQuality {
  import opened Wrappers
  import opened Text
  import opened Dicts

  /** One result row: its `TOTAL_DUPLICADOS` column (absent: `None`) and the other columns. */
  datatype Row = Row(totalDuplicados: Option<int>, columns: Dict<string>)

  datatype DuplicateReport = DuplicateReport(strategy: string, totalDuplicates: nat, groups: seq<Row>)

  datatype ImpactReport = ImpactReport(table: string, recordId: string, impactScore: int, dependencies: seq<string>)

  const MaxGroups := 100
  /**
   * `row['TOTAL_DUPLICADOS']` on a row without the count.  The text names the
   * exception; its `str(e)`, which a 500 response would carry, is only `'TOTAL_DUPLICADOS'`.
   */
  const MissingTotal := "KeyError: 'TOTAL_DUPLICADOS'"

  /** The query: every `ARTICULO` replaced by the table, then every `NOMBRE` by the field. */
  function DuplicatesQuery(template: string, table: string, field: string): string {
    ReplaceAll(ReplaceAll(template, "ARTICULO", table), "NOMBRE", field)
  }

  /** With the table and field the template was written for, the query is the template itself. */
  lemma DefaultQueryUnchanged(template: string)
    ensures DuplicatesQuery(template, "ARTICULO", "NOMBRE") == template
  {
    ReplaceIdentity(template, "ARTICULO");
    ReplaceIdentity(template, "NOMBRE");
  }

  /** A template mentioning neither name is sent as it is. */
  lemma QueryWithoutNames(template: string, table: string, field: string)
    requires !Contains(template, "ARTICULO") && !Contains(template, "NOMBRE")
    ensures DuplicatesQuery(template, table, field) == template
  {
    ReplaceAbsent(template, "ARTICULO", table);
    ReplaceAbsent(template, "NOMBRE", field);
  }

  /** The rows of a group that really is duplicated, in order; a row without the count column raises. */
  function Duplicates(rows: seq<Row>): Result<seq<Row>>
    decreases |rows|
  {
    if |rows| == 0 then Ok([])
    else if rows[0].totalDuplicados.None? then Err(MissingTotal)
    else match Duplicates(rows[1..])
      case Err(e) => Err(e)
      case Ok(rest) => Ok((if rows[0].totalDuplicados.value > 1 then [rows[0]] else []) + rest)
  }

  predicate HasCounts(rows: seq<Row>) {
    forall i :: 0 <= i < |rows| ==> rows[i].totalDuplicados.Some?
  }

  /** The filter fails exactly when a row lacks the count; otherwise it keeps exactly the rows counted more than once. */
  lemma {:induction false} DuplicatesSpec(rows: seq<Row>)
    ensures Duplicates(rows).Ok? <==> HasCounts(rows)
    ensures Duplicates(rows).Ok? ==>
              (forall r :: r in Duplicates(rows).value <==> r in rows && r.totalDuplicados.value > 1)
              && |Duplicates(rows).value| <= |rows|
    decreases |rows|
  {
    if |rows| > 0 {
      DuplicatesSpec(rows[1..]);
      assert forall r :: r in rows <==> r == rows[0] || r in rows[1..];
      if !HasCounts(rows[1..]) {
        var i :| 0 <= i < |rows[1..]| && rows[1..][i].totalDuplicados.None?;
        assert rows[i + 1].totalDuplicados.None?;
      }
      if HasCounts(rows) {
        assert HasCounts(rows[1..]) by {
          forall i | 0 <= i < |rows[1..]| ensures rows[1..][i].totalDuplicados.Some? {
            assert rows[1..][i] == rows[i + 1];
          }
        }
      }
    }
  }

  /** The kept rows keep their order: filtering two runs of rows one after the other is filtering their concatenation. */
  lemma {:induction false} DuplicatesAppend(a: seq<Row>, b: seq<Row>)
    requires HasCounts(a) && HasCounts(b)
    ensures Duplicates(a + b).Ok? && Duplicates(a).Ok? && Duplicates(b).Ok?
    ensures Duplicates(a + b).value == Duplicates(a).value + Duplicates(b).value
    decreases |a|
  {
    CountedOk(b);
    if |a| == 0 {
      assert a + b == b;
    } else {
      assert (a + b)[0] == a[0] && (a + b)[1..] == a[1..] + b;
      CountsTail(a);
      DuplicatesAppend(a[1..], b);
    }
  }

  lemma CountedOk(rows: seq<Row>)
    requires HasCounts(rows)
    ensures Duplicates(rows).Ok?
  {
    DuplicatesSpec(rows);
  }

  lemma CountsTail(rows: seq<Row>)
    requires |rows| > 0 && HasCounts(rows)
    ensures HasCounts(rows[1..])
  {
    forall i | 0 <= i < |rows[1..]| ensures rows[1..][i].totalDuplicados.Some? {
      assert rows[1..][i] == rows[i + 1];
    }
  }

  /** The loop of `find_duplicates_exact` that collects the groups. */
  method CollectDuplicates(rows: seq<Row>) returns (r: Result<seq<Row>>)
    ensures r == Duplicates(rows)
  {
    var groups: seq<Row> := [];
    var i := 0;
    while i < |rows|
      invariant 0 <= i <= |rows|
      invariant Duplicates(rows[..i]).Ok? && Duplicates(rows[..i]).value == groups
      invariant HasCounts(rows[..i])
    {
      if rows[i].totalDuplicados.None? {
        DuplicatesAt(rows, i);
        return Err(MissingTotal);
      }
      assert rows[..i + 1] == rows[..i] + [rows[i]];
      DuplicatesAppend(rows[..i], [rows[i]]);
      if rows[i].totalDuplicados.value > 1 {
        groups := groups + [rows[i]];
      }
      i := i + 1;
    }
    assert rows[..i] == rows;
    r := Ok(groups);
  }

  /** The first row without the count decides the failure. */
  lemma {:induction false} DuplicatesAt(rows: seq<Row>, i: nat)
    requires i < |rows| && HasCounts(rows[..i]) && rows[i].totalDuplicados.None?
    ensures Duplicates(rows) == Err(MissingTotal)
    decreases i
  {
    if i > 0 {
      assert rows[0] == rows[..i][0];
      assert rows[1..][..i - 1] == rows[..i][1..];
      var t := rows[1..][..i - 1];
      assert HasCounts(t) by {
        forall j | 0 <= j < |t| ensures t[j].totalDuplicados.Some? {
          assert t[j] == rows[..i][j + 1];
        }
      }
      DuplicatesAt(rows[1..], i - 1);
    }
  }

  function Report(groups: seq<Row>): DuplicateReport {
    DuplicateReport("exact", |groups|, groups[..if |groups| <= MaxGroups then |groups| else MaxGroups])
  }

  /** The total counts every group; the list shows the first hundred of them. */
  lemma ReportSpec(groups: seq<Row>)
    ensures Report(groups).totalDuplicates == |groups|
    ensures |Report(groups).groups| <= MaxGroups && Report(groups).groups <= groups
    ensures |groups| <= MaxGroups ==> Report(groups).groups == groups
    ensures |groups| > MaxGroups ==> |Report(groups).groups| == MaxGroups
  {}

  /**
   * `find_duplicates_exact(params, table_name, field_name)`.  `disconnect`
   * is the error the `finally` clause's disconnect raises, if any: it
   * replaces whatever the body returned or raised.
   */
  method FindDuplicatesExact(template: string, table: string, field: string,
                             execute: string -> Result<seq<Row>>, disconnect: Option<string>)
    returns (r: Result<DuplicateReport>)
    ensures disconnect.Some? ==> r == Err(disconnect.value)
    ensures disconnect.None? ==>
              r == match execute(DuplicatesQuery(template, table, field))
                   case Err(e) => Err(e)
                   case Ok(rows) => (if Duplicates(rows).Ok? then Ok(Report(Duplicates(rows).value))
                                     else Err(Duplicates(rows).error))
  {
    var query := DuplicatesQuery(template, table, field);
    var rows := execute(query);
    if rows.Err? {
      r := Err(rows.error);
    } else {
      var groups := CollectDuplicates(rows.value);
      if groups.Err? {
        r := Err(groups.error);
      } else {
        r := Ok(Report(groups.value));
      }
    }
    if disconnect.Some? {
      r := Err(disconnect.value);
    }
  }

  /** `analyze_impact`: a placeholder that echoes the table and record with no impact. */
  function AnalyzeImpact(table: string, recordId: string, pkField: string): (r: ImpactReport)
    ensures r.table == table && r.recordId == recordId
    ensures r.impactScore == 0 && r.dependencies == []
  {
    ImpactReport(table, recordId, 0, [])
  }
}
