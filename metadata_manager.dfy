/**
 * `DatabaseMetadataManager`: the optimised table metadata of the
 * database, two keyword indexes built from it, the concept lookups over
 * those indexes, and the schema texts handed to the AI.
 *
 * The metadata file is the field `stored` (`None` when it does not exist).
 */
module MetadataManager {
  import opened Wrappers
  import opened Text
  import opened Dicts
  import opened Sorting

  /** One entry of `tables`: column name to type, keys, and the optional category and record count. */
  datatype TableInfo = TableInfo(columns: Dict<string>, primaryKeys: seq<string>,
                                 category: Option<string>, recordCount: Option<int>)

  type Tables = Dict<TableInfo>

  // ---------------------------------------------------------------------
  // Keywords
  // ---------------------------------------------------------------------

  /** The Spanish abbreviations `_extract_keywords` expands. */
  const Abbreviations: Dict<string> := [
    ("COD", "CODIGO"), ("NOM", "NOMBRE"), ("DESC", "DESCRIPCION"), ("FEC", "FECHA"),
    ("IMP", "IMPORTE"), ("CANT", "CANTIDAD"), ("PVP", "PRECIO"), ("CLI", "CLIENTE"),
    ("PROV", "PROVEEDOR"), ("ART", "ARTICULO")
  ]

  function Parts(text: string): seq<string> {
    Split(Upper(text), "_")
  }

  /** The expansions of the parts that `abbr` knows, in order. */
  function ExpandWith(abbr: Dict<string>, parts: seq<string>): (r: seq<string>)
    ensures forall k :: k in r <==> exists p :: p in parts && Get(abbr, p) == Some(k)
    decreases |parts|
  {
    if |parts| == 0 then []
    else
      assert forall p :: p in parts <==> p == parts[0] || p in parts[1..];
      match Get(abbr, parts[0])
      case Some(full) => [full] + ExpandWith(abbr, parts[1..])
      case None => ExpandWith(abbr, parts[1..])
  }

  /** The expansions of the parts that are known abbreviations, in order. */
  function Expansions(parts: seq<string>): (r: seq<string>)
    ensures forall k :: k in r <==> exists p :: p in parts && Get(Abbreviations, p) == Some(k)
  {
    ExpandWith(Abbreviations, parts)
  }

  /**
   * The keywords of `_extract_keywords`, listed in one iteration order of
   * the set the source builds (duplicates are harmless: every use adds
   * them to sets).
   */
  function KeywordList(text: string): seq<string> {
    [Upper(text)] + Parts(text) + Expansions(Parts(text))
  }

  /**
   * `_extract_keywords`: the upper-cased text, its '_'-separated parts, and
   * the expansion of every part that is a known abbreviation.
   */
  function ExtractKeywords(text: string): (r: set<string>)
    ensures forall k :: k in r <==>
      k == Upper(text) || k in Parts(text) ||
      exists p :: p in Parts(text) && Get(Abbreviations, p) == Some(k)
  {
    set k | k in KeywordList(text)
  }

  lemma UpperIdempotent(s: string)
    ensures Upper(Upper(s)) == Upper(s)
  {}

  /** Upper-casing first changes nothing: the lookups upper-case the concept twice. */
  lemma KeywordsOfUpper(text: string)
    ensures ExtractKeywords(Upper(text)) == ExtractKeywords(text)
  {
    UpperIdempotent(text);
  }

  // ---------------------------------------------------------------------
  // Indexes
  // ---------------------------------------------------------------------

  type Index = map<string, set<string>>

  /** `index.setdefault(k, set()).add(name)`. */
  function AddKey(idx: Index, k: string, name: string): Index {
    idx[k := (if k in idx then idx[k] else {}) + {name}]
  }

  /** Add `name` under every key of `ks`, in order. */
  function AddKeyList(idx: Index, ks: seq<string>, name: string): Index
    decreases |ks|
  {
    if |ks| == 0 then idx else AddKeyList(AddKey(idx, ks[0], name), ks[1..], name)
  }

  /** The keys of an entry, for a table or for a column. */
  function TableKeys(name: string, info: TableInfo): seq<string> {
    KeywordList(name) + [info.category.GetOr("otros")]
  }

  function ColumnKeys(name: string, colType: string): seq<string> {
    KeywordList(name)
  }

  /** Index every entry, in order, under its keys. */
  function IndexEntries<V>(idx: Index, es: Dict<V>, keysOf: (string, V) -> seq<string>): Index
    decreases |es|
  {
    if |es| == 0 then idx else IndexEntries(AddKeyList(idx, keysOf(es[0].0, es[0].1), es[0].0), es[1..], keysOf)
  }

  /** The keywords of a table's name together with its category. */
  function TableKeywords(name: string, info: TableInfo): (r: set<string>)
    ensures forall k :: k in r <==> k in TableKeys(name, info)
  {
    ExtractKeywords(name) + {info.category.GetOr("otros")}
  }

  /** `table_index`: keyword or category to the names of the tables it describes. */
  function TableIndexOf(ts: Tables): Index {
    IndexEntries(map[], ts, TableKeys)
  }

  /** Adding keys keeps what was there and adds `name` under exactly those keys. */
  lemma {:induction false} AddKeyListSpec(idx: Index, ks: seq<string>, name: string)
    ensures forall k :: k in AddKeyList(idx, ks, name) <==> k in idx || k in ks
    ensures forall k, n :: k in AddKeyList(idx, ks, name) ==>
      (n in AddKeyList(idx, ks, name)[k] <==> (k in idx && n in idx[k]) || (k in ks && n == name))
    decreases |ks|
  {
    if |ks| > 0 {
      AddKeyListSpec(AddKey(idx, ks[0], name), ks[1..], name);
      assert forall k :: k in ks <==> k == ks[0] || k in ks[1..];
    }
  }

  /** `column_index`: table name to (keyword to column names). */
  function ColumnIndexOf(ts: Tables): map<string, Index>
    decreases |ts|
  {
    if |ts| == 0 then map[]
    else ColumnIndexOf(ts[..|ts| - 1])[ts[|ts| - 1].0 := IndexEntries(map[], ts[|ts| - 1].1.columns, ColumnKeys)]
  }

  /**
   * What an index holds: a key is present exactly when some entry has it,
   * and it lists exactly the names of the entries that have it.
   */
  lemma {:induction false} IndexFromSpec<V>(idx: Index, es: Dict<V>, keysOf: (string, V) -> seq<string>)
    ensures forall k :: k in IndexEntries(idx, es, keysOf) <==>
      k in idx || exists e :: e in es && k in keysOf(e.0, e.1)
    ensures forall k, n :: k in IndexEntries(idx, es, keysOf) ==>
      (n in IndexEntries(idx, es, keysOf)[k] <==>
        (k in idx && n in idx[k]) || exists e :: e in es && e.0 == n && k in keysOf(e.0, e.1))
    decreases |es|
  {
    if |es| > 0 {
      AddKeyListSpec(idx, keysOf(es[0].0, es[0].1), es[0].0);
      IndexFromSpec(AddKeyList(idx, keysOf(es[0].0, es[0].1), es[0].0), es[1..], keysOf);
      assert forall e :: e in es <==> e == es[0] || e in es[1..];
    }
  }

  lemma TableIndexSpec(ts: Tables)
    ensures forall k :: k in TableIndexOf(ts) <==> exists e :: e in ts && k in TableKeys(e.0, e.1)
    ensures forall k, n :: k in TableIndexOf(ts) ==>
      (n in TableIndexOf(ts)[k] <==> exists e :: e in ts && e.0 == n && k in TableKeys(e.0, e.1))
  {
    IndexFromSpec(map[], ts, TableKeys);
  }

  /** The info of the last entry named `name`: the one a later assignment leaves in the index. */
  function LastInfo(ts: Tables, name: string): (r: Option<TableInfo>)
    ensures r.None? <==> name !in Keys(ts)
    ensures r.Some? ==> (name, r.value) in ts
    decreases |ts|
  {
    if |ts| == 0 then None
    else
      assert forall e :: e in ts <==> e in ts[..|ts| - 1] || e == ts[|ts| - 1];
      if ts[|ts| - 1].0 == name then Some(ts[|ts| - 1].1) else LastInfo(ts[..|ts| - 1], name)
  }

  /** The column index holds, for every table name, the index of its last entry's columns. */
  lemma {:induction false} ColumnIndexSpec(ts: Tables, name: string)
    ensures name in ColumnIndexOf(ts) <==> name in Keys(ts)
    ensures name in ColumnIndexOf(ts) ==>
      ColumnIndexOf(ts)[name] == IndexEntries(map[], LastInfo(ts, name).value.columns, ColumnKeys)
    decreases |ts|
  {
    if |ts| > 0 {
      ColumnIndexSpec(ts[..|ts| - 1], name);
    }
  }

  /** Tables sharing a keyword with the concept. */
  function TablesMatching(idx: Index, concept: string): set<string> {
    set k, n | k in ExtractKeywords(Upper(concept)) && k in idx && n in idx[k] :: n
  }

  /** The table lookup over the index of the tables. */
  lemma FindTablesSpec(ts: Tables, concept: string, n: string)
    ensures n in TablesMatching(TableIndexOf(ts), concept) <==>
      exists e :: e in ts && e.0 == n && TableKeywords(e.0, e.1) * ExtractKeywords(concept) != {}
  {
    TableIndexSpec(ts);
    KeywordsOfUpper(concept);
    var idx := TableIndexOf(ts);
    if n in TablesMatching(idx, concept) {
      var k :| k in ExtractKeywords(Upper(concept)) && k in idx && n in idx[k];
      var e :| e in ts && e.0 == n && k in TableKeys(e.0, e.1);
      assert k in TableKeywords(e.0, e.1) * ExtractKeywords(concept);
    }
    if exists e :: e in ts && e.0 == n && TableKeywords(e.0, e.1) * ExtractKeywords(concept) != {} {
      var e :| e in ts && e.0 == n && TableKeywords(e.0, e.1) * ExtractKeywords(concept) != {};
      var k :| k in TableKeywords(e.0, e.1) * ExtractKeywords(concept);
      assert k in idx && n in idx[k];
    }
  }

  /** Columns of one table sharing a keyword with the concept; none for a table without an index. */
  function ColumnsMatching(ci: map<string, Index>, table: string, concept: string): set<string> {
    if table !in ci then {}
    else set k, n | k in ExtractKeywords(Upper(concept)) && k in ci[table] && n in ci[table][k] :: n
  }

  /** The column lookup over the index of the columns. */
  lemma FindColumnsSpec(ts: Tables, table: string, concept: string, n: string)
    ensures table !in Keys(ts) ==> ColumnsMatching(ColumnIndexOf(ts), table, concept) == {}
    ensures table in Keys(ts) ==>
      (n in ColumnsMatching(ColumnIndexOf(ts), table, concept) <==>
        exists c :: c in LastInfo(ts, table).value.columns && c.0 == n &&
          ExtractKeywords(c.0) * ExtractKeywords(concept) != {})
  {
    ColumnIndexSpec(ts, table);
    KeywordsOfUpper(concept);
    if table in Keys(ts) {
      var cols := LastInfo(ts, table).value.columns;
      var idx := ColumnIndexOf(ts)[table];
      IndexFromSpec(map[], cols, ColumnKeys);
      if n in ColumnsMatching(ColumnIndexOf(ts), table, concept) {
        var k :| k in ExtractKeywords(Upper(concept)) && k in idx && n in idx[k];
        var c :| c in cols && c.0 == n && k in ColumnKeys(c.0, c.1);
        assert k in ExtractKeywords(c.0) * ExtractKeywords(concept);
      }
      if exists c :: c in cols && c.0 == n && ExtractKeywords(c.0) * ExtractKeywords(concept) != {} {
        var c :| c in cols && c.0 == n && ExtractKeywords(c.0) * ExtractKeywords(concept) != {};
        var k :| k in ExtractKeywords(c.0) * ExtractKeywords(concept);
        assert k in idx && n in idx[k];
      }
    }
  }

  // ---------------------------------------------------------------------
  // The manager
  // ---------------------------------------------------------------------

  lemma {:induction false} AddKeyListAppend(idx: Index, a: seq<string>, b: seq<string>, name: string)
    ensures AddKeyList(AddKeyList(idx, a, name), b, name) == AddKeyList(idx, a + b, name)
    decreases |a|
  {
    if |a| > 0 {
      AddKeyListAppend(AddKey(idx, a[0], name), a[1..], b, name);
      assert (a + b)[0] == a[0] && (a + b)[1..] == a[1..] + b;
    } else {
      assert a + b == b;
    }
  }

  /** Add `name` under every key of `ks`, one key at a time. */
  method AddKeysLoop(idx: Index, ks: seq<string>, name: string) returns (r: Index)
    ensures r == AddKeyList(idx, ks, name)
  {
    r := idx;
    var i := 0;
    while i < |ks|
      invariant 0 <= i <= |ks|
      invariant AddKeyList(r, ks[i..], name) == AddKeyList(idx, ks, name)
    {
      assert ks[i..][1..] == ks[i + 1..];
      r := r[ks[i] := (if ks[i] in r then r[ks[i]] else {}) + {name}];
      i := i + 1;
    }
  }

  /** Index one table under the keywords of its name, then under its category. */
  method IndexTable(ti: Index, name: string, info: TableInfo) returns (r: Index)
    ensures r == AddKeyList(ti, TableKeys(name, info), name)
  {
    var keywords := KeywordList(name);
    r := AddKeysLoop(ti, keywords, name);
    var category := info.category.GetOr("otros");
    AddKeyListAppend(ti, keywords, [category], name);
    assert AddKeyList(r, [category], name) == AddKey(r, category, name) by {
      assert [category][1..] == [];
    }
    r := r[category := (if category in r then r[category] else {}) + {name}];
  }

  /** The column index of one table, built column by column. */
  method IndexColumns(cols: Dict<string>) returns (ci: Index)
    ensures ci == IndexEntries(map[], cols, ColumnKeys)
  {
    ci := map[];
    var i := 0;
    while i < |cols|
      invariant 0 <= i <= |cols|
      invariant IndexEntries(ci, cols[i..], ColumnKeys) == IndexEntries(map[], cols, ColumnKeys)
    {
      assert cols[i..][1..] == cols[i + 1..];
      ci := AddKeysLoop(ci, KeywordList(cols[i].0), cols[i].0);
      i := i + 1;
    }
  }

  /** Both indexes of a list of tables, table by table. */
  method IndexTables(ts: Tables) returns (ti: Index, ci: map<string, Index>)
    ensures ti == TableIndexOf(ts) && ci == ColumnIndexOf(ts)
  {
    ti, ci := map[], map[];
    var i := 0;
    while i < |ts|
      invariant 0 <= i <= |ts|
      invariant IndexEntries(ti, ts[i..], TableKeys) == TableIndexOf(ts)
      invariant ci == ColumnIndexOf(ts[..i])
    {
      var (name, info) := ts[i];
      assert ts[i..][1..] == ts[i + 1..];
      ti := IndexTable(ti, name, info);
      var columns := IndexColumns(info.columns);
      ci := ci[name := columns];
      assert ts[..i + 1][..i] == ts[..i];
      i := i + 1;
    }
    assert ts[..i] == ts && ts[i..] == [];
  }

  class DatabaseMetadataManager {
    var metadata: Tables
    var stored: Option<Tables>
    var tableIndex: Index
    var columnIndex: map<string, Index>

    /** The metadata is a JSON object, so no table name repeats, and both indexes describe it. */
    predicate Valid()
      reads this
    {
      DistinctKeys(metadata) && tableIndex == TableIndexOf(metadata) && columnIndex == ColumnIndexOf(metadata)
    }

    /** Load the file when it exists and index it; otherwise start empty. */
    constructor(file: Option<Tables>)
      requires file.Some? ==> DistinctKeys(file.value)
      ensures Valid()
      ensures metadata == file.GetOr([]) && stored == file
    {
      metadata := file.GetOr([]);
      stored := file;
      tableIndex := map[];
      columnIndex := map[];
      new;
      if file.Some? {
        BuildIndexes();
      }
    }

    /** `_build_indexes`: rebuild both indexes from scratch. */
    method BuildIndexes()
      requires DistinctKeys(metadata)
      modifies this
      ensures Valid()
      ensures metadata == old(metadata) && stored == old(stored)
    {
      tableIndex, columnIndex := IndexTables(metadata);
    }

    /** `save_metadata`: replace the metadata, write it to the file, and re-index. */
    method SaveMetadata(m: Tables)
      requires DistinctKeys(m)
      modifies this
      ensures Valid()
      ensures metadata == m && stored == Some(m)
    {
      metadata := m;
      stored := Some(m);
      BuildIndexes();
    }

    /** `find_tables_by_concept`, as a set (the source returns it in set order). */
    function FindTablesByConcept(concept: string): set<string>
      reads this
    {
      TablesMatching(tableIndex, concept)
    }

    /** `find_columns_in_table`, as a set; an unindexed table gives none. */
    function FindColumnsInTable(table: string, concept: string): set<string>
      reads this
    {
      ColumnsMatching(columnIndex, table, concept)
    }

    /** `get_table_info`. */
    function GetTableInfo(name: string): (r: Option<TableInfo>)
      reads this
      ensures r.None? <==> name !in Keys(metadata)
      ensures r.Some? ==> (name, r.value) in metadata
    {
      Get(metadata, name)
    }

    /** `get_tables_by_category`, as a set. */
    function GetTablesByCategory(category: string): set<string>
      reads this
    {
      if category in tableIndex then tableIndex[category] else {}
    }

    /** `get_statistics`. */
    method GetStatistics() returns (st: Statistics)
      ensures st == StatisticsOf(metadata)
    {
      var ts := metadata;
      var counts := CountCategories(ts);
      st := Statistics(|ts|, TotalColumns(ts), TotalRecords(ts), counts);
    }
  }

  /**
   * `find_tables_by_concept` on an indexed manager: a table is found
   * exactly when one of its keywords or its category is a keyword of the
   * concept.
   */
  lemma FindTablesByConceptSpec(m: DatabaseMetadataManager, concept: string, n: string)
    requires m.Valid()
    ensures n in m.FindTablesByConcept(concept) <==>
      exists e :: e in m.metadata && e.0 == n && TableKeywords(e.0, e.1) * ExtractKeywords(concept) != {}
  {
    FindTablesSpec(m.metadata, concept, n);
  }

  /**
   * `find_columns_in_table` on an indexed manager: nothing for an unknown
   * table; otherwise exactly the columns of the table whose keywords meet
   * the concept's.
   */
  lemma FindColumnsInTableSpec(m: DatabaseMetadataManager, table: string, concept: string, n: string)
    requires m.Valid()
    ensures table !in Keys(m.metadata) ==> m.FindColumnsInTable(table, concept) == {}
    ensures table in Keys(m.metadata) ==>
      (n in m.FindColumnsInTable(table, concept) <==>
        exists c :: c in LastInfo(m.metadata, table).value.columns && c.0 == n &&
          ExtractKeywords(c.0) * ExtractKeywords(concept) != {})
  {
    FindColumnsSpec(m.metadata, table, concept, n);
  }

  /** In metadata without repeated names the last entry of a name is its only one. */
  lemma {:induction false} LastInfoIsGet(ts: Tables, name: string)
    requires DistinctKeys(ts)
    ensures LastInfo(ts, name) == Get(ts, name)
    decreases |ts|
  {
    if |ts| > 0 {
      var init := ts[..|ts| - 1];
      assert DistinctKeys(init);
      LastInfoIsGet(init, name);
      if ts[|ts| - 1].0 == name {
        assert forall e :: e in init ==> e.0 != name by {
          forall e | e in init ensures e.0 != name {
            var k :| 0 <= k < |init| && init[k] == e;
            assert ts[k] == e;
          }
        }
        GetLast(ts, name);
      } else {
        GetInit(ts, name);
      }
    }
  }

  /** In a valid manager the entry the column index was built from is the one `get_table_info` returns. */
  lemma IndexedInfoIsTableInfo(m: DatabaseMetadataManager, name: string)
    requires m.Valid()
    ensures LastInfo(m.metadata, name) == m.GetTableInfo(name)
  {
    LastInfoIsGet(m.metadata, name);
  }

  /** A name found only in the last entry is looked up there. */
  lemma {:induction false} GetLast(ts: Tables, name: string)
    requires |ts| > 0 && ts[|ts| - 1].0 == name
    requires forall e :: e in ts[..|ts| - 1] ==> e.0 != name
    ensures Get(ts, name) == Some(ts[|ts| - 1].1)
    decreases |ts|
  {
    if |ts| > 1 {
      assert ts[0] in ts[..|ts| - 1];
      var mid, init := ts[1..|ts| - 1], ts[..|ts| - 1];
      assert ts[1..][..|ts[1..]| - 1] == mid;
      assert forall e :: e in mid ==> e in init;
      GetLast(ts[1..], name);
    }
  }

  /** A lookup that misses the last entry is a lookup in the others. */
  lemma {:induction false} GetInit(ts: Tables, name: string)
    requires |ts| > 0 && ts[|ts| - 1].0 != name
    ensures Get(ts, name) == Get(ts[..|ts| - 1], name)
    decreases |ts|
  {
    if |ts| > 1 {
      assert ts[1..][..|ts[1..]| - 1] == ts[..|ts| - 1][1..];
      GetInit(ts[1..], name);
    }
  }

  /**
   * `get_tables_by_category` on an indexed manager: the tables of that
   * category, and also any table one of whose name keywords is spelled
   * like the category (the two share one index).
   */
  lemma GetTablesByCategorySpec(m: DatabaseMetadataManager, category: string, n: string)
    requires m.Valid()
    ensures n in m.GetTablesByCategory(category) <==>
      exists e :: e in m.metadata && e.0 == n &&
        (e.1.category.GetOr("otros") == category || category in ExtractKeywords(e.0))
  {
    TableIndexSpec(m.metadata);
  }

  // ---------------------------------------------------------------------
  // Schema text for the AI
  // ---------------------------------------------------------------------

  /** The most columns a table lists in the schema text. */
  const MaxSchemaColumns := 15

  const SchemaHeader := "=== ESQUEMA DE BASE DE DATOS ===\n"

  /** `t.get('record_count', 0)`: the sort key. */
  function RecordKey(e: (string, TableInfo)): int {
    e.1.recordCount.GetOr(0)
  }

  /** The tables whose category is one of `categories`; a table without a category never is. */
  function InCategories(ts: Tables, categories: set<string>): (r: Tables)
    ensures forall e :: e in r <==> e in ts && e.1.category.Some? && e.1.category.value in categories
    decreases |ts|
  {
    if |ts| == 0 then []
    else
      assert forall e :: e in ts <==> e == ts[0] || e in ts[1..];
      (if ts[0].1.category.Some? && ts[0].1.category.value in categories then [ts[0]] else [])
      + InCategories(ts[1..], categories)
  }

  /** The filter keeps the tables' order: filtering a concatenation filters each part. */
  lemma {:induction false} InCategoriesAppend(a: Tables, b: Tables, categories: set<string>)
    ensures InCategories(a + b, categories) == InCategories(a, categories) + InCategories(b, categories)
    decreases |a|
  {
    if |a| == 0 {
      assert a + b == b;
    } else {
      assert (a + b)[0] == a[0] && (a + b)[1..] == a[1..] + b;
      InCategoriesAppend(a[1..], b, categories);
    }
  }

  /** A single table is kept exactly when it has one of the categories. */
  lemma InCategoriesSingle(e: (string, TableInfo), categories: set<string>)
    ensures InCategories([e], categories) ==
      if e.1.category.Some? && e.1.category.value in categories then [e] else []
  {
    assert [e][1..] == [];
  }

  /** Python `s[:n]`: a negative `n` counts from the end. */
  function PyPrefix<T>(s: seq<T>, n: int): (r: seq<T>)
    ensures n >= 0 ==> |r| == if n < |s| then n else |s|
    ensures n < 0 ==> |r| == if |s| + n > 0 then |s| + n else 0
    ensures r == s[..|r|]
  {
    if n >= 0 then (if n < |s| then s[..n] else s)
    else if |s| + n > 0 then s[..|s| + n] else []
  }

  /** The tables `get_schema_for_ai` writes out: filtered, largest first, at most `maxTables`. */
  function Candidates(ts: Tables, categories: set<string>): Tables {
    if categories != {} then InCategories(ts, categories) else ts
  }

  function SelectTables(ts: Tables, maxTables: int, categories: set<string>): Tables {
    PyPrefix(SortDesc(Candidates(ts, categories), RecordKey), maxTables)
  }

  /** The sorted candidates hold the same tables as the candidates. */
  lemma SortedCandidates(ts: Tables, categories: set<string>)
    ensures SortedDesc(SortDesc(Candidates(ts, categories), RecordKey), RecordKey)
    ensures forall e :: e in SortDesc(Candidates(ts, categories), RecordKey) <==> e in Candidates(ts, categories)
  {
    var cands := Candidates(ts, categories);
    var sorted := SortDesc(cands, RecordKey);
    SortDescPermutation(cands, RecordKey);
    SortDescSorted(cands, RecordKey);
    forall e ensures e in sorted <==> e in cands {
      assert e in sorted <==> e in multiset(sorted);
      assert e in cands <==> e in multiset(cands);
    }
  }

  /**
   * The choice of tables: never more than asked for, all from the chosen
   * categories, and largest first.
   */
  lemma SelectTablesSpec(ts: Tables, maxTables: int, categories: set<string>)
    ensures maxTables >= 0 ==>
      |SelectTables(ts, maxTables, categories)| ==
        (if maxTables < |Candidates(ts, categories)| then maxTables else |Candidates(ts, categories)|)
    ensures forall e :: e in SelectTables(ts, maxTables, categories) ==>
      e in ts && (categories != {} ==> e.1.category.Some? && e.1.category.value in categories)
    ensures SortedDesc(SelectTables(ts, maxTables, categories), RecordKey)
  {
    SortedCandidates(ts, categories);
    SortDescPermutation(Candidates(ts, categories), RecordKey);
    var sorted := SortDesc(Candidates(ts, categories), RecordKey);
    var r := SelectTables(ts, maxTables, categories);
    forall e | e in r ensures e in sorted {
      var i :| 0 <= i < |r| && r[i] == e;
      assert sorted[i] == e;
    }
  }

  /** No candidate left out has more records than a table that is shown. */
  lemma SelectTablesLargest(ts: Tables, maxTables: int, categories: set<string>, e: (string, TableInfo), c: (string, TableInfo))
    requires e in Candidates(ts, categories) && e !in SelectTables(ts, maxTables, categories)
    requires c in SelectTables(ts, maxTables, categories)
    ensures RecordKey(c) >= RecordKey(e)
  {
    SortedCandidates(ts, categories);
    var sorted := SortDesc(Candidates(ts, categories), RecordKey);
    var r := SelectTables(ts, maxTables, categories);
    var j :| 0 <= j < |sorted| && sorted[j] == e;
    var i :| 0 <= i < |r| && r[i] == c;
    assert sorted[i] == c;
    assert forall k :: 0 <= k < |r| ==> r[k] != e;
    assert j >= |r|;
  }

  /** The three digits of `d`, zero-padded. */
  function ThreeDigits(d: nat): string
    requires d < 1000
  {
    [DigitChar(d / 100), DigitChar(d / 10 % 10), DigitChar(d % 10)]
  }

  function GroupDigits(n: nat): string {
    if n < 1000 then NatToString(n) else GroupDigits(n / 1000) + "," + ThreeDigits(n % 1000)
  }

  /** Python's `f"{n:,}"`: the decimal digits in groups of three separated by commas. */
  function Thousands(n: int): string {
    if n < 0 then "-" + GroupDigits(-n) else GroupDigits(n)
  }

  function DropCommas(s: string): (r: string)
    ensures forall i :: 0 <= i < |r| ==> r[i] != ','
  {
    if |s| == 0 then "" else (if s[0] == ',' then "" else [s[0]]) + DropCommas(s[1..])
  }

  lemma {:induction false} DropCommasAppend(a: string, b: string)
    ensures DropCommas(a + b) == DropCommas(a) + DropCommas(b)
  {
    if |a| == 0 {
      assert a + b == b;
    } else {
      var h := if a[0] == ',' then "" else [a[0]];
      assert (a + b)[0] == a[0] && (a + b)[1..] == a[1..] + b;
      assert DropCommas(a + b) == h + DropCommas(a[1..] + b);
      DropCommasAppend(a[1..], b);
      assert DropCommas(a) == h + DropCommas(a[1..]);
    }
  }

  lemma {:induction false} DropCommasDigits(s: string)
    requires forall i :: 0 <= i < |s| ==> IsDigit(s[i])
    ensures DropCommas(s) == s
  {
    if |s| > 0 {
      DropCommasDigits(s[1..]);
    }
  }

  /** The last three digits of a number of four or more digits. */
  lemma NatToStringSplit(n: nat)
    requires n >= 1000
    ensures NatToString(n) == NatToString(n / 1000) + ThreeDigits(n % 1000)
  {
    var r := n % 1000;
    DigitsOfSplit(n);
    LastDigit(n);
    LastDigit(n / 10);
    LastDigit(n / 100);
    assert NatToString(n) == NatToString(n / 1000) + [DigitChar(r / 100)] + [DigitChar(r / 10 % 10)] + [DigitChar(r % 10)];
  }

  /** `str(n)` for `n ≥ 10` is `str(n // 10)` followed by the last digit. */
  lemma LastDigit(n: nat)
    requires n >= 10
    ensures NatToString(n) == NatToString(n / 10) + [DigitChar(n % 10)]
  {}

  /** The three low digits of `n` are those of `n mod 1000`. */
  lemma DigitsOfSplit(n: nat)
    requires n >= 1000
    ensures n / 10 >= 10 && n / 100 >= 10
    ensures n / 10 / 10 == n / 100 && n / 100 / 10 == n / 1000
    ensures n % 10 == n % 1000 % 10
    ensures n / 10 % 10 == n % 1000 / 10 % 10
    ensures n / 100 % 10 == n % 1000 / 100
  {
    var q, r := n / 1000, n % 1000;
    assert n == 1000 * q + r;
    assert n / 10 == 100 * q + r / 10;
    assert n / 100 == 10 * q + r / 100;
  }

  /** The grouping only adds commas: without them it is `str(n)`. */
  lemma {:induction false} GroupDigitsIsDecimal(n: nat)
    ensures DropCommas(GroupDigits(n)) == NatToString(n)
  {
    if n < 1000 {
      DropCommasDigits(NatToString(n));
    } else {
      GroupDigitsIsDecimal(n / 1000);
      NatToStringSplit(n);
      DropCommasAppend(GroupDigits(n / 1000) + ",", ThreeDigits(n % 1000));
      DropCommasAppend(GroupDigits(n / 1000), ",");
      DropCommasDigits(ThreeDigits(n % 1000));
    }
  }

  lemma ThousandsIsDecimal(n: int)
    ensures DropCommas(Thousands(n)) == IntToString(n)
  {
    if n < 0 {
      GroupDigitsIsDecimal(-n);
      DropCommasAppend("-", GroupDigits(-n));
    } else {
      GroupDigitsIsDecimal(n);
    }
  }

  function ColumnLine(c: (string, string)): string {
    "     \U{2022} " + c.0 + ": " + c.1
  }

  /** The lines of the first (at most fifteen) columns, in order. */
  function ColumnLines(cols: Dict<string>): (r: seq<string>)
    ensures |r| == if |cols| < MaxSchemaColumns then |cols| else MaxSchemaColumns
    ensures forall i :: 0 <= i < |r| ==> r[i] == ColumnLine(cols[i])
  {
    var shown := if |cols| < MaxSchemaColumns then cols else cols[..MaxSchemaColumns];
    seq(|shown|, i requires 0 <= i < |shown| => ColumnLine(shown[i]))
  }

  /** The lines `get_schema_for_ai` writes for one table. */
  function TableBlock(name: string, info: TableInfo): seq<string> {
    var cols := info.columns;
    ["\n\U{1F4CA} " + name + " (" + info.category.GetOr("otros") + ")",
     "   Registros: " + Thousands(info.recordCount.GetOr(0))]
    + (if |info.primaryKeys| > 0 then ["   PK: " + Join(info.primaryKeys, ", ")] else [])
    + (if |cols| > 0 then
         ["   Columnas (" + NatToString(|cols|) + "):"] + ColumnLines(cols)
         + (if |cols| > MaxSchemaColumns then ["     ... y " + NatToString(|cols| - MaxSchemaColumns) + " m\U{00E1}s"] else [])
       else [])
  }

  /**
   * A table takes at most nineteen lines: its name, its records, its keys,
   * the column count, fifteen columns and the line counting the rest,
   * which appears exactly when some columns are not shown.
   */
  lemma TableBlockShape(name: string, info: TableInfo)
    ensures |TableBlock(name, info)| == 2 + (if |info.primaryKeys| > 0 then 1 else 0) +
      (if |info.columns| == 0 then 0
       else 1 + |ColumnLines(info.columns)| + (if |info.columns| > MaxSchemaColumns then 1 else 0))
    ensures |TableBlock(name, info)| <= 2 + 1 + 1 + MaxSchemaColumns + 1
    ensures |info.columns| > MaxSchemaColumns <==>
      |TableBlock(name, info)| == 2 + (if |info.primaryKeys| > 0 then 1 else 0) + 1 + MaxSchemaColumns + 1
  {}

  function SchemaLines(chosen: Tables): seq<string>
    decreases |chosen|
  {
    if |chosen| == 0 then [] else TableBlock(chosen[0].0, chosen[0].1) + SchemaLines(chosen[1..])
  }

  /** `get_schema_for_ai(max_tables, categories)`; an empty `categories` means all. */
  function SchemaForAi(ts: Tables, maxTables: int, categories: set<string>): string {
    Join([SchemaHeader] + SchemaLines(SelectTables(ts, maxTables, categories)), "\n")
  }

  // ---------------------------------------------------------------------
  // Focused schema
  // ---------------------------------------------------------------------

  /** Words of the question and the category each one points to. */
  const ConceptCategories: Dict<string> := [
    ("PRODUCTO", "productos"), ("ARTICULO", "productos"), ("CLIENTE", "clientes"),
    ("FACTURA", "ventas"), ("VENTA", "ventas"), ("PROVEEDOR", "proveedores"),
    ("PEDIDO", "compras"), ("COMPRA", "compras"), ("STOCK", "inventario"),
    ("INVENTARIO", "inventario")
  ]

  const DefaultCategories: set<string> := {"productos", "clientes", "ventas"}

  const FocusedMaxTables := 5

  function DetectedCategories(query: string): set<string> {
    set e | e in ConceptCategories && Contains(Upper(query), e.0) :: e.1
  }

  /** The categories of the concepts the question mentions, or the main three when none. */
  function FocusCategories(query: string): (r: set<string>)
    ensures r != {}
    ensures forall c :: c in r <==>
      (exists e :: e in ConceptCategories && Contains(Upper(query), e.0) && e.1 == c) ||
      (DetectedCategories(query) == {} && c in DefaultCategories)
  {
    var found := DetectedCategories(query);
    if found != {} then found
    else
      assert "productos" in DefaultCategories;
      DefaultCategories
  }

  /** `get_focused_schema(user_query)`. */
  function FocusedSchema(ts: Tables, query: string): string {
    SchemaForAi(ts, FocusedMaxTables, FocusCategories(query))
  }

  /**
   * The focused schema shows at most five tables, every one of them in a
   * category the question points to (or in a main category).
   */
  lemma FocusedSchemaSelection(ts: Tables, query: string)
    ensures |SelectTables(ts, FocusedMaxTables, FocusCategories(query))| <= FocusedMaxTables
    ensures forall e :: e in SelectTables(ts, FocusedMaxTables, FocusCategories(query)) ==>
      e in ts && e.1.category.Some? && e.1.category.value in FocusCategories(query)
  {
    SelectTablesSpec(ts, FocusedMaxTables, FocusCategories(query));
  }

  /** A question about invoices focuses on sales. */
  lemma InvoicesMeanSales(query: string)
    requires Contains(Upper(query), "FACTURA")
    ensures "ventas" in FocusCategories(query)
  {
    assert ("FACTURA", "ventas") in ConceptCategories;
  }

  // ---------------------------------------------------------------------
  // Statistics
  // ---------------------------------------------------------------------

  /** `get_statistics()` without the file's name and size. */
  datatype Statistics = Statistics(totalTables: nat, totalColumns: nat, totalRecords: int,
                                   categories: Dict<nat>)

  function TotalColumns(ts: Tables): nat
    decreases |ts|
  {
    if |ts| == 0 then 0 else |ts[0].1.columns| + TotalColumns(ts[1..])
  }

  function TotalRecords(ts: Tables): int
    decreases |ts|
  {
    if |ts| == 0 then 0 else RecordKey(ts[0]) + TotalRecords(ts[1..])
  }

  function CategoryOf(e: (string, TableInfo)): string {
    e.1.category.GetOr("otros")
  }

  /** `counts.get(c, 0)`. */
  function CountIn(counts: Dict<nat>, c: string): nat {
    Get<nat>(counts, c).GetOr(0)
  }

  /** `categories[cat] = categories.get(cat, 0) + 1`. */
  function Bump(counts: Dict<nat>, c: string): Dict<nat> {
    Put<nat>(counts, c, CountIn(counts, c) + 1)
  }

  /** The counter update over the tables, in order. */
  function CountFrom(counts: Dict<nat>, ts: Tables): Dict<nat>
    decreases |ts|
  {
    if |ts| == 0 then counts else CountFrom(Bump(counts, CategoryOf(ts[0])), ts[1..])
  }

  function StatisticsOf(ts: Tables): Statistics {
    Statistics(|ts|, TotalColumns(ts), TotalRecords(ts), CountFrom([], ts))
  }

  /** The loop of `get_statistics` that counts the tables of each category. */
  method CountCategories(ts: Tables) returns (counts: Dict<nat>)
    ensures counts == CountFrom([], ts)
  {
    counts := [];
    var i := 0;
    while i < |ts|
      invariant 0 <= i <= |ts|
      invariant CountFrom(counts, ts[i..]) == CountFrom([], ts)
    {
      assert ts[i..][1..] == ts[i + 1..];
      var cat := ts[i].1.category.GetOr("otros");
      counts := Put<nat>(counts, cat, CountIn(counts, cat) + 1);
      i := i + 1;
    }
    assert ts[i..] == [];
  }

  /** How many of the tables have category `c`. */
  function CountCategory(ts: Tables, c: string): nat
    decreases |ts|
  {
    if |ts| == 0 then 0 else (if CategoryOf(ts[0]) == c then 1 else 0) + CountCategory(ts[1..], c)
  }

  function SumValues(d: Dict<nat>): nat
    decreases |d|
  {
    if |d| == 0 then 0 else d[0].1 + SumValues(d[1..])
  }

  lemma {:induction false} SumPut(d: Dict<nat>, k: string, v: nat)
    ensures SumValues(Put<nat>(d, k, v)) == SumValues(d) - CountIn(d, k) + v
    decreases |d|
  {
    if |d| > 0 {
      if d[0].0 == k {
        assert Put<nat>(d, k, v)[1..] == d[1..];
      } else {
        SumPut(d[1..], k, v);
        assert Put<nat>(d, k, v)[1..] == Put<nat>(d[1..], k, v);
      }
    }
  }

  lemma CountFromSpec(counts: Dict<nat>, ts: Tables)
    ensures SumValues(CountFrom(counts, ts)) == SumValues(counts) + |ts|
    ensures forall c :: CountIn(CountFrom(counts, ts), c) == CountIn(counts, c) + CountCategory(ts, c)
    ensures Keys(CountFrom(counts, ts)) == Keys(counts) + Categories(ts)
    ensures DistinctKeys(counts) ==> DistinctKeys(CountFrom(counts, ts))
  {
    CountFromSum(counts, ts);
    forall c ensures CountIn(CountFrom(counts, ts), c) == CountIn(counts, c) + CountCategory(ts, c) {
      CountFromCount(counts, ts, c);
    }
    CountFromKeys(counts, ts);
    if DistinctKeys(counts) {
      CountFromDistinct(counts, ts);
    }
  }

  lemma {:induction false} CountFromSum(counts: Dict<nat>, ts: Tables)
    ensures SumValues(CountFrom(counts, ts)) == SumValues(counts) + |ts|
    decreases |ts|
  {
    if |ts| > 0 {
      var c0 := CategoryOf(ts[0]);
      CountFromStep(counts, ts);
      SumBump(counts, c0);
      CountFromSum(Bump(counts, c0), ts[1..]);
    }
  }

  lemma {:induction false} CountFromCount(counts: Dict<nat>, ts: Tables, c: string)
    ensures CountIn(CountFrom(counts, ts), c) == CountIn(counts, c) + CountCategory(ts, c)
    decreases |ts|
  {
    if |ts| > 0 {
      var c0 := CategoryOf(ts[0]);
      CountFromStep(counts, ts);
      BumpCount(counts, c0, c);
      CountFromCount(Bump(counts, c0), ts[1..], c);
    }
  }

  lemma CountFromStep(counts: Dict<nat>, ts: Tables)
    requires |ts| > 0
    ensures CountFrom(counts, ts) == CountFrom(Bump(counts, CategoryOf(ts[0])), ts[1..])
  {}

  /** Bumping a category adds one to the total. */
  lemma SumBump(counts: Dict<nat>, c: string)
    ensures SumValues(Bump(counts, c)) == SumValues(counts) + 1
  {
    SumPut(counts, c, CountIn(counts, c) + 1);
  }

  /** Bumping a category adds one to its counter and leaves the others. */
  lemma BumpCount(counts: Dict<nat>, c0: string, c: string)
    ensures CountIn(Bump(counts, c0), c) == CountIn(counts, c) + if c0 == c then 1 else 0
  {
    PutGet<nat>(counts, c0, CountIn(counts, c0) + 1);
  }

  lemma {:induction false} CountFromKeys(counts: Dict<nat>, ts: Tables)
    ensures Keys(CountFrom(counts, ts)) == Keys(counts) + Categories(ts)
    decreases |ts|
  {
    if |ts| > 0 {
      CountFromStep(counts, ts);
      CountFromKeys(Bump(counts, CategoryOf(ts[0])), ts[1..]);
      CategoriesCons(ts);
    } else {
      assert Categories(ts) == {};
    }
  }

  /** The categories of the tables, as a set. */
  function Categories(ts: Tables): set<string> {
    set e | e in ts :: CategoryOf(e)
  }

  lemma CategoriesCons(ts: Tables)
    requires |ts| > 0
    ensures Categories(ts) == {CategoryOf(ts[0])} + Categories(ts[1..])
  {
    forall x | x in Categories(ts) ensures x in {CategoryOf(ts[0])} + Categories(ts[1..]) {
      var e :| e in ts && CategoryOf(e) == x;
      if e != ts[0] {
        assert e in ts[1..];
      }
    }
    forall x | x in Categories(ts[1..]) ensures x in Categories(ts) {
      var e :| e in ts[1..] && CategoryOf(e) == x;
      assert e in ts;
    }
    assert ts[0] in ts;
  }

  lemma {:induction false} CountFromDistinct(counts: Dict<nat>, ts: Tables)
    requires DistinctKeys(counts)
    ensures DistinctKeys(CountFrom(counts, ts))
    decreases |ts|
  {
    if |ts| > 0 {
      var c0 := CategoryOf(ts[0]);
      CountFromStep(counts, ts);
      PutDistinct<nat>(counts, c0, CountIn(counts, c0) + 1);
      CountFromDistinct(Bump(counts, c0), ts[1..]);
    }
  }

  /**
   * The category counts: one entry per category, each counting exactly
   * the tables of that category, together counting every table once.
   */
  lemma StatisticsSpec(ts: Tables)
    ensures SumValues(StatisticsOf(ts).categories) == StatisticsOf(ts).totalTables
    ensures forall c :: CountIn(StatisticsOf(ts).categories, c) == CountCategory(ts, c)
    ensures Keys(StatisticsOf(ts).categories) == Categories(ts)
    ensures DistinctKeys(StatisticsOf(ts).categories)
  {
    CountFromSpec([], ts);
  }
}
