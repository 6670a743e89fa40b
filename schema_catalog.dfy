/**
 * Schema discovery: the text that describes the database to the SQL writer.
 * The catalog lists every base table with its columns; each table becomes one
 * line `schema.table: col1 (type1), col2 (type2), ...` and the lines are joined
 * by newlines. Any failure while reading the catalog yields the empty text, and
 * the schema-discovery stage replaces an empty text by a fixed sentence.
 */
module SchemaCatalog {
  import opened Text
  import opened Executors

  /** One base table of the catalog with its (column name, data type) pairs, in catalog order. */
  datatype TableColumns = TableColumns(schema: string, table: string, columns: seq<(string, string)>)

  /** `col (type)` for each column, joined by ", ". */
  function ColumnDetails(columns: seq<(string, string)>): string
  {
    Join(", ", ColumnItems(columns))
  }

  /** `col (type)` for each column, in order. */
  function ColumnItems(columns: seq<(string, string)>): (items: seq<string>)
    ensures |items| == |columns|
    ensures forall i :: 0 <= i < |columns| ==> items[i] == columns[i].0 + " (" + columns[i].1 + ")"
  {
    seq(|columns|, i requires 0 <= i < |columns| => columns[i].0 + " (" + columns[i].1 + ")")
  }

  /** The line describing one table: `schema.table: ` and then the column details. */
  function SchemaLine(t: TableColumns): (line: string)
    ensures |line| >= |t.schema| + 1 + |t.table| + 2
    ensures line[..|t.schema| + 1 + |t.table| + 2] == t.schema + "." + t.table + ": "
    ensures line[|t.schema| + 1 + |t.table| + 2..] == ColumnDetails(t.columns)
  {
    var head := t.schema + "." + t.table + ": ";
    var line := head + ColumnDetails(t.columns);
    assert line[..|head|] == head;
    assert line[|head|..] == ColumnDetails(t.columns);
    line
  }

  /** No column name or type contains a comma. */
  predicate NoComma(columns: seq<(string, string)>)
  {
    forall i :: 0 <= i < |columns| ==> ',' !in columns[i].0 && ',' !in columns[i].1
  }

  /**
   * The column details read back item by item: splitting them at each comma
   * gives the first `name (type)` item, then every other item behind the
   * space that followed its comma, as long as no name or type has a comma.
   */
  lemma ColumnDetailsSplit(columns: seq<(string, string)>)
    requires |columns| >= 1
    requires NoComma(columns)
    ensures var items := ColumnItems(columns);
            Split(ColumnDetails(columns), ',') == [items[0]] + Prefixed(" ", items[1..])
  {
    var items := ColumnItems(columns);
    forall k | 0 <= k < |items|
      ensures ',' !in items[k]
    {
      assert items[k] == columns[k].0 + " (" + columns[k].1 + ")";
    }
    SplitJoin(',', " ", items);
    assert [','] + " " == ", ";
  }

  /** One line per table, in catalog order. */
  function SchemaLines(tables: seq<TableColumns>): (lines: seq<string>)
    ensures |lines| == |tables|
    ensures forall i :: 0 <= i < |tables| ==> lines[i] == SchemaLine(tables[i])
  {
    seq(|tables|, i requires 0 <= i < |tables| => SchemaLine(tables[i]))
  }

  /**
   * The text the catalog yields: the table lines joined by newlines, or "" on
   * any error. It is empty exactly when reading failed or no table was
   * listed, and, when no name or type holds a newline, splitting it at the
   * newlines gives back the table lines.
   */
  function CatalogText(catalog: ExecResult<seq<TableColumns>>): (text: string)
    ensures catalog.Raised? ==> text == ""
    ensures text == "" <==> (catalog.Raised? || catalog.value == [])
    ensures catalog.Ok? && |catalog.value| >= 1 && (forall i :: 0 <= i < |catalog.value| ==> NoNewline(catalog.value[i]))
            ==> Split(text, '\n') == SchemaLines(catalog.value)
  {
    match catalog
    case Raised(_) => ""
    case Ok(tables) =>
      JoinedLinesEmpty(tables);
      if |tables| >= 1 && (forall i :: 0 <= i < |tables| ==> NoNewline(tables[i])) then
        JoinedLinesSplit(tables);
        Join("\n", SchemaLines(tables))
      else
        Join("\n", SchemaLines(tables))
  }

  /**
   * The formatting loop of `get_postgres_schemas_and_tables`: append one line
   * per table, then join the lines with newlines.
   */
  method FormatSchemasAndTables(tables: seq<TableColumns>) returns (text: string)
    ensures text == Join("\n", SchemaLines(tables))
  {
    var schemasAndTables: seq<string> := [];
    for i := 0 to |tables|
      invariant |schemasAndTables| == i
      invariant forall k :: 0 <= k < i ==> schemasAndTables[k] == SchemaLine(tables[k])
    {
      var t := tables[i];
      var columnDetails := ColumnDetails(t.columns);
      schemasAndTables := schemasAndTables + [t.schema + "." + t.table + ": " + columnDetails];
    }
    assert schemasAndTables == SchemaLines(tables);
    text := Join("\n", schemasAndTables);
  }

  /** `get_postgres_schemas_and_tables`: the formatted catalog, or "" when reading it failed. */
  method GetPostgresSchemasAndTables(catalog: ExecResult<seq<TableColumns>>) returns (text: string)
    ensures text == CatalogText(catalog)
    ensures catalog.Raised? ==> text == ""
  {
    match catalog {
      case Raised(_) =>
        text := "";
      case Ok(tables) =>
        text := FormatSchemasAndTables(tables);
    }
  }

  /** What the SQL writer is told when the catalog gave nothing. */
  const NoSchemaAvailable := "Nenhuma tabela, esquema ou coluna disponível."

  /**
   * The branch of `search_tables_and_schemas`: a non-empty catalog text is
   * kept verbatim, an empty one is replaced by the fixed sentence. The result
   * is never empty.
   */
  function SchemaFallback(text: string): (schemas: string)
    ensures text != "" ==> schemas == text
    ensures text == "" ==> schemas == NoSchemaAvailable
    ensures schemas != ""
  {
    if text != "" then text else NoSchemaAvailable
  }

  /** The joined table lines are empty exactly when there is no table. */
  lemma JoinedLinesEmpty(tables: seq<TableColumns>)
    ensures Join("\n", SchemaLines(tables)) == "" <==> tables == []
  {
    if tables != [] {
      var lines := SchemaLines(tables);
      var first := lines[0];
      assert |first| >= 3;
      if |lines| > 1 {
        assert Join("\n", lines) == first + "\n" + Join("\n", lines[1..]);
      }
    }
  }

  /** Splitting the joined table lines at newlines gives them back, when no name or type has a newline. */
  lemma JoinedLinesSplit(tables: seq<TableColumns>)
    requires |tables| >= 1
    requires forall i :: 0 <= i < |tables| ==> NoNewline(tables[i])
    ensures Split(Join("\n", SchemaLines(tables)), '\n') == SchemaLines(tables)
  {
    forall i | 0 <= i < |tables|
      ensures '\n' !in SchemaLine(tables[i])
    {
      SchemaLineNoNewline(tables[i]);
    }
    SplitJoinChar('\n', SchemaLines(tables));
    assert "\n" == ['\n'];
  }

  /** No name or type of the table contains a newline. */
  predicate NoNewline(t: TableColumns)
  {
    && '\n' !in t.schema && '\n' !in t.table
    && forall i :: 0 <= i < |t.columns| ==> '\n' !in t.columns[i].0 && '\n' !in t.columns[i].1
  }

  /** A table line has no newline of its own when the table's names and types have none. */
  lemma SchemaLineNoNewline(t: TableColumns)
    requires NoNewline(t)
    ensures '\n' !in SchemaLine(t)
  {
    var details := ColumnItems(t.columns);
    forall k | 0 <= k < |details|
      ensures '\n' !in details[k]
    {
      assert details[k] == t.columns[k].0 + " (" + t.columns[k].1 + ")";
    }
    JoinAvoids('\n', ", ", details);
    var head := t.schema + "." + t.table + ": ";
    assert '\n' !in head;
    assert SchemaLine(t) == head + Join(", ", details);
  }
}
