/**
 * `get_all_tables_schema`: the schema description both agents put into
 * their SQL-writing prompt.  Every table of every listed database schema
 * becomes a block "Table: <schema>.<table>" followed by one line per
 * column; blocks are separated by a blank line.
 */
module SchemaText {
  import opened Wrappers
  import opened Indices
  import opened Strings

  /** What the database inspector reports for one column; the type is its printed form. */
  datatype Column = Column(name: string, typeName: string, comment: Option<string>, nullable: Option<bool>)

  datatype Table = Table(name: string, columns: seq<Column>)

  /** The schemas the current agent describes. */
  const BackendSchemas: seq<string> := ["parcels", "geographic_features", "infrastructure_features"]

  /** The schemas the legacy agent describes. */
  const LegacySchemas: seq<string> := ["parcels", "geographic_features"]

  const NotNullMark: string := " (NOT NULL)"

  /** Python's rendering of an optional comment inside an f-string. */
  function CommentText(comment: Option<string>): string {
    match comment
    case Some(c) => c
    case None => "None"
  }

  /** The head of a column line: name, type and comment. */
  function ColumnHead(c: Column): string {
    "  - " + c.name + ": " + c.typeName + ", comments: " + CommentText(c.comment)
  }

  /** One column line; the NOT NULL mark is added only when the inspector says `nullable` is `False`. */
  function ColumnLine(c: Column): (r: string)
    ensures StartsWith(r, ColumnHead(c))
    ensures c.nullable == Some(false) <==> |r| == |ColumnHead(c)| + |NotNullMark|
    ensures c.nullable == Some(false) ==> r[|ColumnHead(c)|..] == NotNullMark
    ensures c.nullable != Some(false) ==> r == ColumnHead(c)
  {
    var head := ColumnHead(c);
    if c.nullable == Some(false) then
      assert (head + NotNullMark)[..|head|] == head;
      head + NotNullMark
    else
      head
  }

  function ColumnLines(columns: seq<Column>): (r: seq<string>)
    ensures |r| == |columns|
    ensures forall k :: 0 <= k < |columns| ==> r[k] == ColumnLine(columns[k])
  {
    seq(|columns|, k requires 0 <= k < |columns| => ColumnLine(columns[k]))
  }

  function TableHeader(schema: string, t: Table): string {
    "Table: " + schema + "." + t.name + "\nColumns:\n"
  }

  /** One table's block: its header, then the column lines joined by newlines. */
  function TableBlock(schema: string, t: Table): (r: string)
    ensures StartsWith(r, TableHeader(schema, t)) && r != ""
  {
    var h := TableHeader(schema, t);
    assert (h + Join("\n", ColumnLines(t.columns)))[..|h|] == h;
    h + Join("\n", ColumnLines(t.columns))
  }

  /** The blocks of one schema's tables, in the inspector's order. */
  function SchemaBlocks(schema: string, tables: seq<Table>): (r: seq<string>)
    ensures |r| == |tables|
    ensures forall k :: 0 <= k < |tables| ==> r[k] == TableBlock(schema, tables[k])
  {
    seq(|tables|, k requires 0 <= k < |tables| => TableBlock(schema, tables[k]))
  }

  /** The blocks of all tables of the schemas in order; `inspect` lists a schema's tables. */
  function Blocks(schemas: seq<string>, inspect: string -> seq<Table>): (r: seq<string>)
    ensures forall k :: 0 <= k < |r| ==> r[k] != ""
  {
    if |schemas| == 0 then []
    else
      var last := schemas[|schemas| - 1];
      Blocks(schemas[..|schemas| - 1], inspect) + SchemaBlocks(last, inspect(last))
  }

  /** The number of blocks is the number of tables. */
  function TableCount(schemas: seq<string>, inspect: string -> seq<Table>): nat {
    if |schemas| == 0 then 0
    else TableCount(schemas[..|schemas| - 1], inspect) + |inspect(schemas[|schemas| - 1])|
  }

  lemma {:induction false} BlocksPerTable(schemas: seq<string>, inspect: string -> seq<Table>)
    ensures |Blocks(schemas, inspect)| == TableCount(schemas, inspect)
  {
    if |schemas| > 0 {
      BlocksPerTable(schemas[..|schemas| - 1], inspect);
    }
  }

  /**
   * The blocks come schema by schema in the listed order and, within a
   * schema, table by table: the `k`-th table of the `i`-th schema has the
   * block after those of all tables of the earlier schemas.
   */
  lemma {:induction false} BlockAt(schemas: seq<string>, inspect: string -> seq<Table>, i: int, k: int)
    requires 0 <= i < |schemas| && 0 <= k < |inspect(schemas[i])|
    ensures TableCount(schemas[..i], inspect) + k < |Blocks(schemas, inspect)|
    ensures Blocks(schemas, inspect)[TableCount(schemas[..i], inspect) + k] == TableBlock(schemas[i], inspect(schemas[i])[k])
    decreases |schemas|, 1
  {
    if i == |schemas| - 1 {
      BlockInLast(schemas, inspect, k);
    } else {
      BlockInFront(schemas, inspect, i, k);
    }
  }

  lemma {:induction false} BlockInLast(schemas: seq<string>, inspect: string -> seq<Table>, k: int)
    requires |schemas| > 0 && 0 <= k < |inspect(schemas[|schemas| - 1])|
    ensures TableCount(schemas[..|schemas| - 1], inspect) + k < |Blocks(schemas, inspect)|
    ensures Blocks(schemas, inspect)[TableCount(schemas[..|schemas| - 1], inspect) + k]
            == TableBlock(schemas[|schemas| - 1], inspect(schemas[|schemas| - 1])[k])
  {
    var last := schemas[|schemas| - 1];
    BlocksPerTable(schemas[..|schemas| - 1], inspect);
    AppendIndex(Blocks(schemas[..|schemas| - 1], inspect), SchemaBlocks(last, inspect(last)), k);
  }

  lemma {:induction false} BlockInFront(schemas: seq<string>, inspect: string -> seq<Table>, i: int, k: int)
    requires 0 <= i < |schemas| - 1 && 0 <= k < |inspect(schemas[i])|
    ensures TableCount(schemas[..i], inspect) + k < |Blocks(schemas, inspect)|
    ensures Blocks(schemas, inspect)[TableCount(schemas[..i], inspect) + k] == TableBlock(schemas[i], inspect(schemas[i])[k])
    decreases |schemas|, 0
  {
    var front := schemas[..|schemas| - 1];
    var last := schemas[|schemas| - 1];
    assert front[i] == schemas[i];
    BlockAt(front, inspect, i, k);
    assert front[..i] == schemas[..i];
    AppendIndexFront(Blocks(front, inspect), SchemaBlocks(last, inspect(last)), TableCount(schemas[..i], inspect) + k);
  }

  /** The schema text is empty exactly when no listed schema has a table. */
  lemma {:induction false} SchemaTextEmptyIffNoTables(schemas: seq<string>, inspect: string -> seq<Table>)
    ensures Join("\n\n", Blocks(schemas, inspect)) == "" <==> TableCount(schemas, inspect) == 0
  {
    BlocksPerTable(schemas, inspect);
    JoinEmptyIffNoParts("\n\n", Blocks(schemas, inspect));
  }

  /** The innermost loop: one line per column of the table. */
  method DescribeColumns(table: Table) returns (columnInfo: seq<string>)
    ensures columnInfo == ColumnLines(table.columns)
  {
    columnInfo := [];
    var n := 0;
    while n < |table.columns|
      invariant 0 <= n <= |table.columns|
      invariant columnInfo == ColumnLines(table.columns[..n])
    {
      var col := table.columns[n];
      var colStr := ColumnHead(col);
      if col.nullable == Some(false) {
        colStr := colStr + NotNullMark;
      }
      columnInfo := columnInfo + [colStr];
      n := n + 1;
    }
    assert table.columns[..n] == table.columns;
  }

  /** The loop over one schema's tables, appending each table's block. */
  method DescribeTables(schema: string, tables: seq<Table>, before: seq<string>) returns (allTablesInfo: seq<string>)
    ensures allTablesInfo == before + SchemaBlocks(schema, tables)
  {
    allTablesInfo := before;
    var j := 0;
    while j < |tables|
      invariant 0 <= j <= |tables|
      invariant |allTablesInfo| == |before| + j
      invariant allTablesInfo[..|before|] == before
      invariant forall k :: 0 <= k < j ==> allTablesInfo[|before| + k] == TableBlock(schema, tables[k])
    {
      var table := tables[j];
      var columnInfo := DescribeColumns(table);
      var tableInfo := "Table: " + schema + "." + table.name + "\nColumns:\n" + Join("\n", columnInfo);
      allTablesInfo := allTablesInfo + [tableInfo];
      j := j + 1;
    }
  }

  /** `get_all_tables_schema`: walks schemas, tables and columns and joins the table blocks. */
  method RenderSchema(schemas: seq<string>, inspect: string -> seq<Table>) returns (text: string)
    ensures text == Join("\n\n", Blocks(schemas, inspect))
  {
    var allTablesInfo: seq<string> := [];
    var i := 0;
    while i < |schemas|
      invariant 0 <= i <= |schemas|
      invariant allTablesInfo == Blocks(schemas[..i], inspect)
    {
      var schema := schemas[i];
      allTablesInfo := DescribeTables(schema, inspect(schema), allTablesInfo);
      assert schemas[..i + 1][..i] == schemas[..i];
      i := i + 1;
    }
    assert schemas[..i] == schemas;
    text := Join("\n\n", allTablesInfo);
  }
}
