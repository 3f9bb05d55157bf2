/**
 * `database_metadata`: the constant semantic description of the five main
 * tables of the Firebird database (their description, the business concepts
 * that name them, their key columns and common queries), the concept lookup
 * and the two schema texts built from it.
 */
module DatabaseMetadata {
  import opened Wrappers
  import opened Text

  /** One entry of `DATABASE_METADATA`; `keyColumns` keeps the dict's order. */
  datatype TableMeta = TableMeta(
    name: string,
    description: string,
    concepts: seq<string>,
    keyColumns: seq<(string, string)>,
    commonQueries: seq<string>)

  /** `DATABASE_METADATA`, in declaration order. */
  const Tables: seq<TableMeta> := [ArticuloMeta, ClienteMeta, FacturaMeta, ProveedorMeta, PedidoMeta]

  const ArticuloMeta := TableMeta("ARTICULO", "Productos/art\U{00ED}culos del inventario",
      ["productos", "art\U{00ED}culos", "items", "mercanc\U{00ED}a", "inventario"],
      [("CODIGO", "C\U{00F3}digo \U{00FA}nico del art\U{00ED}culo"),
       ("NOMBRE", "Nombre/descripci\U{00F3}n del producto"),
       ("PVPIVA", "Precio de venta con IVA"),
       ("PVPSIVA", "Precio de venta sin IVA"),
       ("PRECIOCMPONDERADO", "Precio de compra ponderado"),
       ("COSTE", "Precio de coste"),
       ("STOCK", "Cantidad en stock/inventario"),
       ("CODFAMILIA", "C\U{00F3}digo de familia/categor\U{00ED}a"),
       ("CODMARCA", "C\U{00F3}digo de marca"),
       ("OBSERVACIONES", "Observaciones del art\U{00ED}culo")],
      ["productos m\U{00E1}s caros: ORDER BY PVPIVA DESC FIRST 10",
       "productos por precio compra: ORDER BY PRECIOCMPONDERADO DESC",
       "productos con stock: WHERE STOCK > 0",
       "productos sin stock: WHERE STOCK = 0 OR STOCK IS NULL",
       "productos por familia: WHERE CODFAMILIA = 'X'",
       "contar productos: COUNT(*)",
       "productos por nombre: WHERE NOMBRE LIKE '%texto%'"])

  const ClienteMeta := TableMeta("CLIENTE", "Clientes de la empresa",
      ["clientes", "compradores", "consumidores"],
      [("CODIGO", "C\U{00F3}digo \U{00FA}nico del cliente"),
       ("NOMBRE", "Nombre o raz\U{00F3}n social"),
       ("NIF", "NIF/CIF"),
       ("DIRECCION", "Direcci\U{00F3}n postal"),
       ("TELEFONO", "Tel\U{00E9}fono de contacto"),
       ("EMAIL", "Email de contacto"),
       ("DESCUENTO", "Descuento aplicable")],
      ["buscar cliente por nombre: WHERE NOMBRE LIKE '%X%'",
       "clientes con descuento: WHERE DESCUENTO > 0"])

  const FacturaMeta := TableMeta("FACTURA", "Facturas de venta",
      ["facturas", "ventas", "pedidos facturados"],
      [("NUMERO", "N\U{00FA}mero de factura"),
       ("FECHA", "Fecha de emisi\U{00F3}n"),
       ("CLIENTE", "C\U{00F3}digo del cliente"),
       ("TOTAL", "Importe total"),
       ("IVA", "Importe de IVA"),
       ("PAGADO", "Estado de pago")],
      ["facturas por cliente: WHERE CLIENTE = X",
       "facturas pendientes: WHERE PAGADO = 'N'",
       "total facturado: SUM(TOTAL)",
       "facturas por fecha: WHERE FECHA BETWEEN X AND Y"])

  const ProveedorMeta := TableMeta("PROVEEDOR", "Proveedores de productos",
      ["proveedores", "suministradores", "distribuidores"],
      [("CODIGO", "C\U{00F3}digo \U{00FA}nico del proveedor"),
       ("NOMBRE", "Nombre o raz\U{00F3}n social"),
       ("NIF", "NIF/CIF"),
       ("CONTACTO", "Persona de contacto"),
       ("TELEFONO", "Tel\U{00E9}fono")],
      ["buscar proveedor: WHERE NOMBRE LIKE '%X%'"])

  const PedidoMeta := TableMeta("PEDIDO", "Pedidos de compra a proveedores",
      ["pedidos", "\U{00F3}rdenes de compra", "compras"],
      [("NUMERO", "N\U{00FA}mero de pedido"),
       ("FECHA", "Fecha del pedido"),
       ("PROVEEDOR", "C\U{00F3}digo del proveedor"),
       ("TOTAL", "Importe total"),
       ("RECIBIDO", "Estado de recepci\U{00F3}n")],
      ["pedidos pendientes: WHERE RECIBIDO = 'N'",
       "pedidos por proveedor: WHERE PROVEEDOR = X"])

  // ---------------------------------------------------------------
  // get_table_for_concept
  // ---------------------------------------------------------------

  /** The concept names of a table, lower-cased. */
  function LoweredConcepts(cs: seq<string>): (r: seq<string>)
    ensures |r| == |cs| && forall k :: 0 <= k < |cs| ==> r[k] == Lower(cs[k])
  {
    if |cs| == 0 then [] else [Lower(cs[0])] + LoweredConcepts(cs[1..])
  }

  /** The first table of `ts` one of whose lower-cased concepts is `c`. */
  function FirstTableFor(ts: seq<TableMeta>, c: string): (r: Option<string>)
    ensures r.None? <==> forall k :: 0 <= k < |ts| ==> c !in LoweredConcepts(ts[k].concepts)
    ensures r.Some? ==> exists k :: 0 <= k < |ts| && ts[k].name == r.value && c in LoweredConcepts(ts[k].concepts)
  {
    if |ts| == 0 then None
    else if c in LoweredConcepts(ts[0].concepts) then Some(ts[0].name)
    else
      var r := FirstTableFor(ts[1..], c);
      assert forall k :: 1 <= k < |ts| ==> ts[k] == ts[1..][k - 1];
      r
  }

  /** `get_table_for_concept`: a case-insensitive exact match against the concept lists. */
  function TableForConcept(concept: string): Option<string> {
    FirstTableFor(Tables, Lower(concept))
  }

  /** A string without upper-case ASCII letters is its own lower-case form. */
  lemma LowerOfLower(s: string)
    requires forall i :: 0 <= i < |s| ==> !('A' <= s[i] <= 'Z')
    ensures Lower(s) == s
  {}

  /** The concept lists are already lower case and no concept belongs to two tables. */
  predicate ConceptsDisjoint(ts: seq<TableMeta>) {
    forall j, k :: 0 <= j < k < |ts| ==>
      forall c :: c in LoweredConcepts(ts[j].concepts) ==> c !in LoweredConcepts(ts[k].concepts)
  }

  /** With disjoint concept lists, the table found is the one table that lists the concept. */
  lemma {:induction false} FirstTableForUnique(ts: seq<TableMeta>, c: string, k: nat)
    requires ConceptsDisjoint(ts)
    requires k < |ts| && c in LoweredConcepts(ts[k].concepts)
    ensures FirstTableFor(ts, c) == Some(ts[k].name)
  {
    if k > 0 {
      assert c !in LoweredConcepts(ts[0].concepts);
      assert ConceptsDisjoint(ts[1..]) by {
        forall j, m | 0 <= j < m < |ts[1..]|
          ensures forall c' :: c' in LoweredConcepts(ts[1..][j].concepts) ==> c' !in LoweredConcepts(ts[1..][m].concepts)
        {
          assert ts[1..][j] == ts[j + 1] && ts[1..][m] == ts[m + 1];
        }
      }
      assert ts[1..][k - 1] == ts[k];
      FirstTableForUnique(ts[1..], c, k - 1);
    }
  }

  /** A list of strings without upper-case ASCII letters is its own lower-case form. */
  lemma {:induction false} LoweredConceptsOfLower(cs: seq<string>)
    requires forall k, i :: 0 <= k < |cs| && 0 <= i < |cs[k]| ==> !('A' <= cs[k][i] <= 'Z')
    ensures LoweredConcepts(cs) == cs
  {
    if |cs| > 0 {
      LowerOfLower(cs[0]);
      LoweredConceptsOfLower(cs[1..]);
    }
  }

  /** Each table's concepts are written in lower case already. */
  lemma ConceptsAreLower(k: nat)
    requires k < |Tables|
    ensures LoweredConcepts(Tables[k].concepts) == Tables[k].concepts
  {
    LoweredConceptsOfLower(Tables[k].concepts);
  }

  /** No string of `a` occurs in `b`, checked element by element. */
  predicate NoneIn(a: seq<string>, b: seq<string>) {
    |a| == 0 || (a[0] !in b && NoneIn(a[1..], b))
  }

  lemma {:induction false} NoneInDisjoint(a: seq<string>, b: seq<string>)
    requires NoneIn(a, b)
    ensures forall c :: c in a ==> c !in b
  {
    if |a| > 0 {
      NoneInDisjoint(a[1..], b);
      assert forall c :: c in a ==> c == a[0] || c in a[1..];
    }
  }

  /** No concept string of table `j` is a concept string of table `k`. */
  lemma ConceptPairDisjoint(j: nat, k: nat)
    requires j < k < |Tables|
    ensures forall c :: c in Tables[j].concepts ==> c !in Tables[k].concepts
  {
    if j == 0 && k == 1 {
      Pair01();
    } else if j == 0 && k == 2 {
      Pair02();
    } else if j == 0 && k == 3 {
      Pair03();
    } else if j == 0 && k == 4 {
      Pair04();
    } else if j == 1 && k == 2 {
      Pair12();
    } else if j == 1 && k == 3 {
      Pair13();
    } else if j == 1 && k == 4 {
      Pair14();
    } else if j == 2 && k == 3 {
      Pair23();
    } else if j == 2 && k == 4 {
      Pair24();
    } else {
      Pair34();
    }
    NoneInDisjoint(Tables[j].concepts, Tables[k].concepts);
  }

  // One lemma per pair of tables keeps each comparison of literal lists small.

  lemma Pair01()
    ensures NoneIn(Tables[0].concepts, Tables[1].concepts)
  {}

  lemma Pair02()
    ensures NoneIn(Tables[0].concepts, Tables[2].concepts)
  {}

  lemma Pair03()
    ensures NoneIn(Tables[0].concepts, Tables[3].concepts)
  {}

  lemma Pair04()
    ensures NoneIn(Tables[0].concepts, Tables[4].concepts)
  {}

  lemma Pair12()
    ensures NoneIn(Tables[1].concepts, Tables[2].concepts)
  {}

  lemma Pair13()
    ensures NoneIn(Tables[1].concepts, Tables[3].concepts)
  {}

  lemma Pair14()
    ensures NoneIn(Tables[1].concepts, Tables[4].concepts)
  {}

  lemma Pair23()
    ensures NoneIn(Tables[2].concepts, Tables[3].concepts)
  {}

  lemma Pair24()
    ensures NoneIn(Tables[2].concepts, Tables[4].concepts)
  {}

  lemma Pair34()
    ensures NoneIn(Tables[3].concepts, Tables[4].concepts)
  {}


  /** The concept lists of `DATABASE_METADATA` are pairwise disjoint. */
  lemma TablesConceptsDisjoint()
    ensures ConceptsDisjoint(Tables)
  {
    forall j, k | 0 <= j < k < |Tables|
      ensures forall c :: c in Tables[j].concepts ==> c !in Tables[k].concepts
    {
      ConceptPairDisjoint(j, k);
    }
    forall k | 0 <= k < |Tables|
      ensures LoweredConcepts(Tables[k].concepts) == Tables[k].concepts
    {
      ConceptsAreLower(k);
    }
    DisjointLowerLists(Tables);
  }

  /** Lists that are their own lower-case forms and pairwise disjoint stay disjoint once lowered. */
  lemma DisjointLowerLists(ts: seq<TableMeta>)
    requires forall j, k :: 0 <= j < k < |ts| ==> forall c :: c in ts[j].concepts ==> c !in ts[k].concepts
    requires forall k :: 0 <= k < |ts| ==> LoweredConcepts(ts[k].concepts) == ts[k].concepts
    ensures ConceptsDisjoint(ts)
  {}

  /** The table names, checked one by one against the later ones. */
  predicate NamesDistinct(ts: seq<TableMeta>) {
    |ts| == 0 || ((forall k :: 1 <= k < |ts| ==> ts[k].name != ts[0].name) && NamesDistinct(ts[1..]))
  }

  lemma {:induction false} NamesDistinctAt(ts: seq<TableMeta>, x: nat, y: nat)
    requires NamesDistinct(ts) && x < |ts| && y < |ts| && ts[x].name == ts[y].name
    ensures x == y
  {
    if x > 0 && y > 0 {
      assert ts[1..][x - 1] == ts[x] && ts[1..][y - 1] == ts[y];
      NamesDistinctAt(ts[1..], x - 1, y - 1);
    }
  }

  /** The five tables have five different names. */
  lemma TablesNamesDistinct()
    ensures NamesDistinct(Tables)
  {
    TableNamesAre();
    FiveNamesDistinct(Tables);
  }

  lemma TableNamesAre()
    ensures |Tables| == 5
    ensures Tables[0].name == "ARTICULO" && Tables[1].name == "CLIENTE" && Tables[2].name == "FACTURA"
    ensures Tables[3].name == "PROVEEDOR" && Tables[4].name == "PEDIDO"
  {}

  lemma FiveNamesDistinct(ts: seq<TableMeta>)
    requires |ts| == 5
    requires ts[0].name == "ARTICULO" && ts[1].name == "CLIENTE" && ts[2].name == "FACTURA"
    requires ts[3].name == "PROVEEDOR" && ts[4].name == "PEDIDO"
    ensures NamesDistinct(ts)
  {
    assert ts[4..][1..] == [];
    assert NamesDistinct(ts[4..]);
    assert ts[3..][1..] == ts[4..];
    assert NamesDistinct(ts[3..]);
    assert ts[2..][1..] == ts[3..];
    assert NamesDistinct(ts[2..]);
    assert ts[1..][1..] == ts[2..];
    assert NamesDistinct(ts[1..]);
  }

  /** With distinct names, the table the lookup names is one that lists the concept. */
  lemma FoundTableListsConcept(ts: seq<TableMeta>, c: string, k: nat)
    requires NamesDistinct(ts) && k < |ts| && FirstTableFor(ts, c) == Some(ts[k].name)
    ensures c in LoweredConcepts(ts[k].concepts)
  {
    var m :| 0 <= m < |ts| && ts[m].name == ts[k].name && c in LoweredConcepts(ts[m].concepts);
    NamesDistinctAt(ts, m, k);
  }

  /**
   * Because the concept lists are disjoint, the lookup answers table `k`
   * exactly when the lower-cased concept is one of table `k`'s concepts,
   * whatever the order of the tables.
   */
  lemma TableForConceptIff(concept: string, k: nat)
    requires k < |Tables|
    ensures TableForConcept(concept) == Some(Tables[k].name) <==> Lower(concept) in LoweredConcepts(Tables[k].concepts)
  {
    var c := Lower(concept);
    if c in LoweredConcepts(Tables[k].concepts) {
      TablesConceptsDisjoint();
      FirstTableForUnique(Tables, c, k);
    }
    if FirstTableFor(Tables, c) == Some(Tables[k].name) {
      TablesNamesDistinct();
      FoundTableListsConcept(Tables, c, k);
    }
  }

  /** "productos" names ARTICULO and "ventas" names FACTURA. */
  lemma ConceptExamples()
    ensures TableForConcept("productos") == Some("ARTICULO")
    ensures TableForConcept("ventas") == Some("FACTURA")
  {
    TablesConceptsDisjoint();
    LowerOfLower("productos");
    LowerOfLower("ventas");
    assert Tables[0] == ArticuloMeta && ArticuloMeta.concepts[0] == "productos";
    FirstTableForUnique(Tables, "productos", 0);
    assert Tables[2] == FacturaMeta && FacturaMeta.concepts[1] == "ventas";
    FirstTableForUnique(Tables, "ventas", 2);
  }

  // ---------------------------------------------------------------
  // get_semantic_schema
  // ---------------------------------------------------------------

  const SchemaHeader := "=== ESQUEMA DE BASE DE DATOS ===\n"

  /** The four rule lines, after their own heading. */
  const RuleLines: seq<string> := [
    "\n=== REGLAS ===",
    "\U{2022} Usa SOLO las tablas y columnas listadas arriba",
    "\U{2022} Para 'productos' usa tabla ARTICULO",
    "\U{2022} Para ordenar por precio: ORDER BY PRECIO DESC",
    "\U{2022} Para contar: SELECT COUNT(*) FROM tabla"
  ]

  /** One line per key column, each `indent + name + ": " + description`. */
  function ColumnLines(cols: seq<(string, string)>, indent: string): (r: seq<string>)
    ensures |r| == |cols| && forall k :: 0 <= k < |cols| ==> r[k] == indent + cols[k].0 + ": " + cols[k].1
  {
    if |cols| == 0 then [] else [indent + cols[0].0 + ": " + cols[0].1] + ColumnLines(cols[1..], indent)
  }

  /** The block of one table in the semantic schema. */
  function TableBlock(t: TableMeta): seq<string> {
    ["\n\U{1F4CA} " + t.name + ": " + t.description,
     "   Conceptos: " + Join(t.concepts, ", "),
     "   Columnas principales:"]
    + ColumnLines(t.keyColumns, "     \U{2022} ")
  }

  function TableBlocks(ts: seq<TableMeta>): seq<string> {
    if |ts| == 0 then [] else TableBlock(ts[0]) + TableBlocks(ts[1..])
  }

  /** The schema's lines for the tables `ts`: the header, one block per table, then the rules. */
  function SchemaLinesOf(ts: seq<TableMeta>): seq<string> {
    [SchemaHeader] + TableBlocks(ts) + RuleLines
  }

  function SemanticSchemaLines(): seq<string> {
    SchemaLinesOf(Tables)
  }

  /** `get_semantic_schema()`: takes no input, so every call gives the same text. */
  function SemanticSchema(): string {
    Join(SemanticSchemaLines(), "\n")
  }

  /** Every key column of every table of `ts` has its line in the blocks. */
  lemma {:induction false} BlocksListColumns(ts: seq<TableMeta>)
    ensures forall k, i :: 0 <= k < |ts| && 0 <= i < |ts[k].keyColumns| ==>
      "     \U{2022} " + ts[k].keyColumns[i].0 + ": " + ts[k].keyColumns[i].1 in TableBlocks(ts)
  {
    if |ts| > 0 {
      BlocksListColumns(ts[1..]);
      var cl := ColumnLines(ts[0].keyColumns, "     \U{2022} ");
      forall k, i | 0 <= k < |ts| && 0 <= i < |ts[k].keyColumns|
        ensures "     \U{2022} " + ts[k].keyColumns[i].0 + ": " + ts[k].keyColumns[i].1 in TableBlocks(ts)
      {
        if k == 0 {
          assert cl[i] == TableBlock(ts[0])[3 + i];
        } else {
          assert ts[k] == ts[1..][k - 1];
        }
      }
    }
  }

  /**
   * The schema starts with its header, lists every key column of every
   * table, and ends with the four rules; `SemanticSchemaLines()` is this
   * for `Tables`.
   */
  lemma SemanticSchemaListsColumns(ts: seq<TableMeta>)
    ensures var lines := SchemaLinesOf(ts);
      && lines[0] == SchemaHeader
      && lines[|lines| - 5..] == RuleLines
      && forall k, i :: 0 <= k < |ts| && 0 <= i < |ts[k].keyColumns| ==>
           "     \U{2022} " + ts[k].keyColumns[i].0 + ": " + ts[k].keyColumns[i].1 in lines
  {
    BlocksListColumns(ts);
  }

  // ---------------------------------------------------------------
  // get_detailed_schema_for_table
  // ---------------------------------------------------------------

  /** The entry named `name`, if any. */
  function TableNamed(ts: seq<TableMeta>, name: string): (r: Option<TableMeta>)
    ensures r.Some? ==> r.value in ts && r.value.name == name
    ensures r.None? <==> forall k :: 0 <= k < |ts| ==> ts[k].name != name
  {
    if |ts| == 0 then None
    else if ts[0].name == name then Some(ts[0])
    else
      assert forall k :: 1 <= k < |ts| ==> ts[k] == ts[1..][k - 1];
      TableNamed(ts[1..], name)
  }

  const QueriesHeading := "\nConsultas comunes:"

  function QueryLines(qs: seq<string>): (r: seq<string>)
    ensures |r| == |qs| && forall k :: 0 <= k < |qs| ==> r[k] == "  - " + qs[k]
  {
    if |qs| == 0 then [] else ["  - " + qs[0]] + QueryLines(qs[1..])
  }

  function DetailedLines(t: TableMeta): seq<string> {
    ["Tabla: " + t.name,
     "Descripci\U{00F3}n: " + t.description,
     "Conceptos relacionados: " + Join(t.concepts, ", "),
     "\nColumnas:"]
    + ColumnLines(t.keyColumns, "  ")
    + (if |t.commonQueries| > 0 then [QueriesHeading] + QueryLines(t.commonQueries) else [])
  }

  /** `get_detailed_schema_for_table(name)`. */
  function DetailedSchemaForTable(name: string): string {
    match TableNamed(Tables, name)
    case None => "Tabla " + name + " no tiene metadatos definidos."
    case Some(t) => Join(DetailedLines(t), "\n")
  }

  /** An unknown table gets the fixed "no metadata" sentence. */
  lemma DetailedSchemaUnknown(name: string)
    requires forall k :: 0 <= k < |Tables| ==> Tables[k].name != name
    ensures DetailedSchemaForTable(name) == "Tabla " + name + " no tiene metadatos definidos."
  {}

  /**
   * A known table's text lists every key column, and holds the common-queries
   * heading exactly when the table has common queries.
   */
  lemma DetailedLinesShape(t: TableMeta)
    ensures forall i :: 0 <= i < |t.keyColumns| ==> "  " + t.keyColumns[i].0 + ": " + t.keyColumns[i].1 in DetailedLines(t)
    ensures QueriesHeading in DetailedLines(t) <==> |t.commonQueries| > 0
  {
    var lines := DetailedLines(t);
    var cl := ColumnLines(t.keyColumns, "  ");
    forall i | 0 <= i < |t.keyColumns|
      ensures "  " + t.keyColumns[i].0 + ": " + t.keyColumns[i].1 in lines
    {
      assert lines[4 + i] == cl[i];
    }
    if |t.commonQueries| == 0 {
      forall j | 0 <= j < |lines| ensures lines[j] != QueriesHeading {
        if j == 0 {
          assert lines[j][0] == 'T';
        } else if j == 1 {
          assert lines[j][0] == 'D';
        } else if j == 2 {
          assert lines[j][0] == 'C';
        } else if j == 3 {
          assert lines[j][3] == 'l';
          assert QueriesHeading[3] == 'n';
        } else {
          assert lines[j] == cl[j - 4];
          assert lines[j][0] == ' ';
        }
      }
    } else {
      assert lines[4 + |cl|] == QueriesHeading;
    }
  }
}
