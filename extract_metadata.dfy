/**
 * The metadata extraction script: how a table is classified by its name,
 * how a Firebird column row becomes a column description, the record
 * count fallback, and the projection that produces the optimised
 * metadata the assistant reads.
 *
 * The catalogue queries themselves are inputs: a column row, the outcome
 * of a count query, and the full metadata of every table.
 */
module MetadataExtraction {
  import opened Wrappers
  import opened Text
  import opened Dicts

  // ---------------------------------------------------------------------
  // Classification by name
  // ---------------------------------------------------------------------

  /** The category rules of `classify_table_by_name`, in the order they are tried. */
  const CategoryRules: seq<(seq<string>, string)> := [
    (["ARTICULO", "PRODUCTO", "ITEM"], "productos"),
    (["CLIENTE", "CUSTOMER"], "clientes"),
    (["FACTURA", "INVOICE", "VENTA", "SALE"], "ventas"),
    (["PROVEEDOR", "SUPPLIER"], "proveedores"),
    (["PEDIDO", "ORDER", "COMPRA"], "compras"),
    (["STOCK", "INVENTARIO", "ALMACEN"], "inventario"),
    (["USUARIO", "USER", "EMPLEADO"], "usuarios"),
    (["CONFIG", "PARAM", "SETTING"], "configuracion")
  ]

  predicate AnyIn(s: string, words: seq<string>) {
    exists w :: w in words && Contains(s, w)
  }

  /** The category of the first rule with a word inside `u`, or "otros". */
  function FirstCategory(u: string, rules: seq<(seq<string>, string)>): string {
    if |rules| == 0 then "otros"
    else if AnyIn(u, rules[0].0) then rules[0].1
    else FirstCategory(u, rules[1..])
  }

  /** `classify_table_by_name`: matched on the upper-cased name. */
  function ClassifyTable(name: string): string {
    FirstCategory(Upper(name), CategoryRules)
  }

  /**
   * The category is the one of the first rule that matches: rule `i`
   * wins exactly when it matches and no earlier rule does, and "otros"
   * comes out exactly when no rule matches.
   */
  lemma {:induction false} FirstCategoryIsFirstMatch(u: string, rules: seq<(seq<string>, string)>, i: nat)
    requires i < |rules| && AnyIn(u, rules[i].0)
    requires forall j :: 0 <= j < i ==> !AnyIn(u, rules[j].0)
    ensures FirstCategory(u, rules) == rules[i].1
  {
    if i > 0 {
      assert !AnyIn(u, rules[0].0);
      FirstCategoryIsFirstMatch(u, rules[1..], i - 1);
    }
  }

  lemma {:induction false} NoMatchIsOther(u: string, rules: seq<(seq<string>, string)>)
    requires forall j :: 0 <= j < |rules| ==> !AnyIn(u, rules[j].0)
    ensures FirstCategory(u, rules) == "otros"
  {
    if |rules| > 0 {
      assert !AnyIn(u, rules[0].0);
      NoMatchIsOther(u, rules[1..]);
    }
  }

  lemma UpperOfUpperCase(s: string)
    requires forall i :: 0 <= i < |s| ==> !('a' <= s[i] <= 'z')
    ensures Upper(s) == s
  {}

  /** A table named after two categories gets the one whose rule comes first. */
  lemma ClienteArticuloIsProduct()
    ensures ClassifyTable("CLIENTE_ARTICULO") == "productos"
  {
    var s := "CLIENTE_ARTICULO";
    UpperOfUpperCase(s);
    assert s[8..16] == "ARTICULO";
    IndexOfAt(s, "ARTICULO", 8);
    assert "ARTICULO" in CategoryRules[0].0;
    FirstCategoryIsFirstMatch(s, CategoryRules, 0);
  }

  // ---------------------------------------------------------------------
  // Columns and record counts
  // ---------------------------------------------------------------------

  /** The Firebird type codes the script names. */
  function KnownTypeName(code: int): Option<string> {
    if code == 7 then Some("SMALLINT")
    else if code == 8 then Some("INTEGER")
    else if code == 10 then Some("FLOAT")
    else if code == 12 then Some("DATE")
    else if code == 13 then Some("TIME")
    else if code == 14 then Some("CHAR")
    else if code == 16 then Some("BIGINT")
    else if code == 27 then Some("DOUBLE")
    else if code == 35 then Some("TIMESTAMP")
    else if code == 37 then Some("VARCHAR")
    else if code == 261 then Some("BLOB")
    else None
  }

  /** The type text of a column: an unknown code is "TYPE_<code>", text types carry their length. */
  function FieldType(code: int, length: int): (r: string)
    ensures KnownTypeName(code).None? ==> r == "TYPE_" + IntToString(code)
    ensures (code == 14 || code == 37) ==> r == KnownTypeName(code).value + "(" + IntToString(length) + ")"
    ensures KnownTypeName(code).Some? && code != 14 && code != 37 ==> r == KnownTypeName(code).value
  {
    match KnownTypeName(code)
    case None => "TYPE_" + IntToString(code)
    case Some(t) => if t == "CHAR" || t == "VARCHAR" then t + "(" + IntToString(length) + ")" else t
  }

  lemma FieldTypeExamples()
    ensures FieldType(37, 40) == "VARCHAR(40)"
    ensures FieldType(9, 0) == "TYPE_9"
  {
    assert NatToString(40) == "40";
  }

  /** One row of the column query: name, type code, length, null flag and default source. */
  datatype ColumnRow = ColumnRow(name: string, typeCode: int, length: int, notNull: Option<int>, defaultSource: Option<string>)

  datatype Column = Column(name: string, colType: string, nullable: bool, hasDefault: bool)

  /** A column is nullable when the null flag is missing, and has a default when a default source is present. */
  function ColumnOf(row: ColumnRow): (c: Column)
    ensures c.name == row.name && c.colType == FieldType(row.typeCode, row.length)
    ensures c.nullable <==> row.notNull.None?
    ensures c.hasDefault <==> row.defaultSource.Some?
  {
    Column(row.name, FieldType(row.typeCode, row.length), row.notNull.None?, row.defaultSource.Some?)
  }

  /** `get_table_columns`: one column per row, in row order. */
  method TableColumns(rows: seq<ColumnRow>) returns (cols: seq<Column>)
    ensures |cols| == |rows|
    ensures forall i :: 0 <= i < |rows| ==> cols[i] == ColumnOf(rows[i])
  {
    cols := [];
    var i := 0;
    while i < |rows|
      invariant 0 <= i <= |rows| && |cols| == i
      invariant forall j :: 0 <= j < i ==> cols[j] == ColumnOf(rows[j])
    {
      cols := cols + [ColumnOf(rows[i])];
      i := i + 1;
    }
  }

  /** `get_table_record_count`: the count, or 0 when the count query fails. */
  function RecordCount(count: Result<int>): (n: int)
    ensures count.Err? ==> n == 0
    ensures count.Ok? ==> n == count.value
  {
    match count
    case Ok(c) => c
    case Err(_) => 0
  }

  // ---------------------------------------------------------------------
  // The optimised projection
  // ---------------------------------------------------------------------

  datatype ForeignKey = ForeignKey(name: string, sourceField: string, targetTable: string, targetField: string)

  datatype FullTable = FullTable(columns: seq<Column>, primaryKeys: seq<string>, foreignKeys: seq<ForeignKey>,
                                 recordCount: int, category: string, columnCount: nat)

  /** An optimised entry: column name to type, plus the copied keys, category and count. */
  datatype OptimizedTable = OptimizedTable(columns: Dict<string>, primaryKeys: seq<string>, category: string, recordCount: int)

  /** How many leading columns are always kept. */
  const LeadingColumns: nat := 10

  function Leading(cols: seq<Column>): seq<Column> {
    if |cols| <= LeadingColumns then cols else cols[..LeadingColumns]
  }

  /** Assign `name -> type` for each column, in order, whose name `keep` accepts. */
  function PutWhere(d: Dict<string>, cols: seq<Column>, keep: string -> bool): Dict<string>
    decreases |cols|
  {
    if |cols| == 0 then d
    else PutWhere(if keep(cols[0].name) then Put(d, cols[0].name, cols[0].colType) else d, cols[1..], keep)
  }

  function KeepAll(name: string): bool { true }

  /** The primary-key fields and foreign-key source fields of a table. */
  function KeyFields(t: FullTable): string -> bool {
    (name: string) => name in t.primaryKeys || exists fk :: fk in t.foreignKeys && fk.sourceField == name
  }

  /** `essential_columns`: the first ten columns, then every key column. */
  function EssentialColumns(t: FullTable): Dict<string> {
    PutWhere(PutWhere([], Leading(t.columns), KeepAll), t.columns, KeyFields(t))
  }

  method PutWhereLoop(d0: Dict<string>, cols: seq<Column>, keep: string -> bool) returns (d: Dict<string>)
    ensures d == PutWhere(d0, cols, keep)
  {
    d := d0;
    var i := 0;
    while i < |cols|
      invariant 0 <= i <= |cols|
      invariant PutWhere(d, cols[i..], keep) == PutWhere(d0, cols, keep)
    {
      assert cols[i..][1..] == cols[i + 1..];
      if keep(cols[i].name) {
        d := Put(d, cols[i].name, cols[i].colType);
      }
      i := i + 1;
    }
  }

  method EssentialColumnsLoop(t: FullTable) returns (d: Dict<string>)
    ensures d == EssentialColumns(t)
  {
    d := PutWhereLoop([], Leading(t.columns), KeepAll);
    d := PutWhereLoop(d, t.columns, KeyFields(t));
  }

  function Optimized(t: FullTable): OptimizedTable {
    OptimizedTable(EssentialColumns(t), t.primaryKeys, t.category, t.recordCount)
  }

  /** Add the optimised entry of each table, in order, that has records. */
  function OptimizeFrom(d: Dict<OptimizedTable>, full: Dict<FullTable>): Dict<OptimizedTable>
    decreases |full|
  {
    if |full| == 0 then d
    else OptimizeFrom(if full[0].1.recordCount > 0 then Put(d, full[0].0, Optimized(full[0].1)) else d, full[1..])
  }

  /** `generate_optimized_metadata` (without writing the file). */
  method GenerateOptimizedMetadata(full: Dict<FullTable>) returns (optimized: Dict<OptimizedTable>)
    ensures optimized == OptimizeFrom([], full)
  {
    optimized := [];
    var i := 0;
    while i < |full|
      invariant 0 <= i <= |full|
      invariant OptimizeFrom(optimized, full[i..]) == OptimizeFrom([], full)
    {
      assert full[i..][1..] == full[i + 1..];
      var (name, info) := full[i];
      if info.recordCount > 0 {
        var cols := EssentialColumnsLoop(info);
        optimized := Put(optimized, name, OptimizedTable(cols, info.primaryKeys, info.category, info.recordCount));
      }
      i := i + 1;
    }
  }

  // ---------------------------------------------------------------------
  // Properties of the projection
  // ---------------------------------------------------------------------

  /** The keys added are the accepted column names, and every entry added is one of those columns. */
  lemma {:induction false} PutWhereFacts(d: Dict<string>, cols: seq<Column>, keep: string -> bool)
    ensures Keys(PutWhere(d, cols, keep)) == Keys(d) + (set c | c in cols && keep(c.name) :: c.name)
    ensures forall e :: e in PutWhere(d, cols, keep) ==>
      e in d || exists c :: c in cols && keep(c.name) && e == (c.name, c.colType)
    decreases |cols|
  {
    if |cols| > 0 {
      var d' := if keep(cols[0].name) then Put(d, cols[0].name, cols[0].colType) else d;
      PutWhereFacts(d', cols[1..], keep);
      assert forall c :: c in cols <==> c == cols[0] || c in cols[1..];
    }
  }

  /**
   * The optimised columns are columns of the table with their own types;
   * they hold the first ten columns and every primary-key and
   * foreign-key column, and nothing else.
   */
  lemma EssentialColumnsSpec(t: FullTable)
    ensures forall e :: e in EssentialColumns(t) ==> exists c :: c in t.columns && e == (c.name, c.colType)
    ensures forall c :: c in Leading(t.columns) ==> c.name in Keys(EssentialColumns(t))
    ensures forall c :: c in t.columns && c.name in t.primaryKeys ==> c.name in Keys(EssentialColumns(t))
    ensures forall c :: c in t.columns && (exists fk :: fk in t.foreignKeys && fk.sourceField == c.name) ==>
      c.name in Keys(EssentialColumns(t))
    ensures forall n :: n in Keys(EssentialColumns(t)) ==>
      (exists c :: c in Leading(t.columns) && c.name == n) || n in t.primaryKeys ||
      (exists fk :: fk in t.foreignKeys && fk.sourceField == n)
  {
    EssentialEntries(t);
    EssentialKeys(t);
  }

  lemma EssentialEntries(t: FullTable)
    ensures forall e :: e in EssentialColumns(t) ==> exists c :: c in t.columns && e == (c.name, c.colType)
  {
    var lead := Leading(t.columns);
    var first := PutWhere([], lead, KeepAll);
    var all := PutWhere(first, t.columns, KeyFields(t));
    PutWhereFacts([], lead, KeepAll);
    PutWhereFacts(first, t.columns, KeyFields(t));
    LeadingIn(t.columns);
    forall e | e in all ensures exists c :: c in t.columns && e == (c.name, c.colType) {
      if e !in first {
        var c :| c in t.columns && KeyFields(t)(c.name) && e == (c.name, c.colType);
      } else {
        var c :| c in lead && KeepAll(c.name) && e == (c.name, c.colType);
        assert c in t.columns;
      }
    }
  }

  lemma LeadingIn(cols: seq<Column>)
    ensures forall c :: c in Leading(cols) ==> c in cols
  {
    if |cols| > LeadingColumns {
      forall c | c in cols[..LeadingColumns] ensures c in cols {
        var i :| 0 <= i < LeadingColumns && cols[..LeadingColumns][i] == c;
        assert cols[i] == c;
      }
    }
  }

  /** The keys of the optimised columns: the leading names, then the key names among the columns. */
  lemma EssentialKeys(t: FullTable)
    ensures Keys(EssentialColumns(t)) ==
      (set c | c in Leading(t.columns) :: c.name) + (set c | c in t.columns && KeyFields(t)(c.name) :: c.name)
  {
    var lead := Leading(t.columns);
    var first := PutWhere([], lead, KeepAll);
    PutWhereFacts([], lead, KeepAll);
    PutWhereFacts(first, t.columns, KeyFields(t));
    assert Keys(first) == (set c | c in lead :: c.name) by {
      assert Keys<string>([]) == {};
      assert (set c | c in lead && KeepAll(c.name) :: c.name) == (set c | c in lead :: c.name);
    }
  }

  /** A table whose columns fit in the leading ten keeps all of them, in order. */
  lemma {:induction false} SmallTableKeepsAll(d: Dict<string>, cols: seq<Column>)
    requires forall i, j :: 0 <= i < j < |cols| ==> cols[i].name != cols[j].name
    requires forall c :: c in cols ==> c.name !in Keys(d)
    ensures PutWhere(d, cols, KeepAll) == d + seq(|cols|, i requires 0 <= i < |cols| => (cols[i].name, cols[i].colType))
    decreases |cols|
  {
    if |cols| > 0 {
      var d' := d + [(cols[0].name, cols[0].colType)];
      assert Keys(d') == Keys(d) + {cols[0].name} by { KeysAppend(d, (cols[0].name, cols[0].colType)); }
      assert forall c :: c in cols[1..] ==> c.name !in Keys(d') by {
        forall c | c in cols[1..] ensures c.name != cols[0].name {
          var k :| 0 <= k < |cols[1..]| && cols[1..][k] == c;
          assert cols[k + 1] == c;
        }
      }
      SmallTableKeepsAll(d', cols[1..]);
    }
  }

  lemma KeysAppend(d: Dict<string>, e: (string, string))
    ensures Keys(d + [e]) == Keys(d) + {e.0}
  {
    assert forall x :: x in d + [e] <==> x in d || x == e;
  }

  /** The optimised metadata holds exactly the tables with records, each copying its keys, category and count. */
  lemma {:induction false} OptimizeFromSpec(d: Dict<OptimizedTable>, full: Dict<FullTable>)
    ensures Keys(OptimizeFrom(d, full)) == Keys(d) + (set e | e in full && e.1.recordCount > 0 :: e.0)
    ensures forall e :: e in OptimizeFrom(d, full) ==>
      e in d || exists f :: f in full && f.1.recordCount > 0 && e == (f.0, Optimized(f.1))
    decreases |full|
  {
    if |full| > 0 {
      var d' := if full[0].1.recordCount > 0 then Put(d, full[0].0, Optimized(full[0].1)) else d;
      OptimizeFromSpec(d', full[1..]);
      assert forall f :: f in full <==> f == full[0] || f in full[1..];
    }
  }

  lemma OptimizedTablesHaveRecords(full: Dict<FullTable>)
    ensures Keys(OptimizeFrom([], full)) == set e | e in full && e.1.recordCount > 0 :: e.0
    ensures forall e :: e in OptimizeFrom([], full) ==>
      exists f :: f in full && f.1.recordCount > 0 && e.0 == f.0 &&
        e.1.primaryKeys == f.1.primaryKeys && e.1.category == f.1.category &&
        e.1.recordCount == f.1.recordCount && e.1.columns == EssentialColumns(f.1)
  {
    OptimizeFromSpec([], full);
  }
}
