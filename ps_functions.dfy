/**
 * The SQL text builders used to load a CSV file with a JSON schema into
 * PostgreSQL: the JSON-to-PostgreSQL type lookup, the CREATE TABLE and INSERT
 * statements, and the CSV row normalisation that turns empty cells into NULL.
 *
 * Each builder is paired with a small parser of the text it produces, and the
 * lemmas show that the parser recovers exactly what the builder was given
 * (one clause per field, in order; one placeholder per header).
 */
module PsFunctions {
  import opened Text

  datatype Option<T> = None | Some(value: T)

  // ---------------------------------------------------------------------------
  // Type mapping
  // ---------------------------------------------------------------------------

  /**
   * Python's `str.upper()` for one character: ASCII letters, plus the
   * lower-case characters whose upper-case form is made of ASCII letters only
   * (sharp s, dotless i, long s and the Latin "ff"/"fi"/"fl"/"st" ligatures).
   * Every other character is kept as it is. An ASCII letter is shifted to
   * upper case and every other ASCII character is its own upper case.
   */
  function UpperChar(ch: char): (r: string)
    ensures 1 <= |r| <= 3
    ensures 'a' <= ch <= 'z' ==> |r| == 1 && r[0] as int == ch as int - 32
    ensures ch as int < 128 && !('a' <= ch <= 'z') ==> r == [ch]
  {
    if 'a' <= ch <= 'z' then [(ch as int - 32) as char]
    else if ch == '\U{DF}' then "SS"
    else if ch == '\U{131}' then "I"
    else if ch == '\U{17F}' then "S"
    else if ch == '\U{FB00}' then "FF"
    else if ch == '\U{FB01}' then "FI"
    else if ch == '\U{FB02}' then "FL"
    else if ch == '\U{FB03}' then "FFI"
    else if ch == '\U{FB04}' then "FFL"
    else if ch == '\U{FB05}' || ch == '\U{FB06}' then "ST"
    else [ch]
  }

  /** Python's `str.upper()`, character by character; it never shortens a text. */
  function Upper(s: string): (r: string)
    ensures |r| >= |s|
    decreases |s|
  {
    if |s| == 0 then "" else UpperChar(s[0]) + Upper(s[1..])
  }

  /** No ASCII lower-case letter survives upper-casing. */
  lemma {:induction false} UpperHasNoLower(s: string)
    ensures forall i :: 0 <= i < |Upper(s)| ==> !('a' <= Upper(s)[i] <= 'z')
    decreases |s|
  {
    if |s| > 0 {
      UpperHasNoLower(s[1..]);
      var head := UpperChar(s[0]);
      assert forall i :: 0 <= i < |head| ==> !('a' <= head[i] <= 'z');
    }
  }

  /** Every character `UpperChar` produces is its own upper case. */
  lemma UpperCharFixed(ch: char)
    ensures forall i :: 0 <= i < |UpperChar(ch)| ==> UpperChar(UpperChar(ch)[i]) == [UpperChar(ch)[i]]
  {
  }

  /** Upper-casing goes character by character, so it distributes over concatenation. */
  lemma {:induction false} UpperAppend(x: string, y: string)
    ensures Upper(x + y) == Upper(x) + Upper(y)
    decreases |x|
  {
    if |x| > 0 {
      UpperAppend(x[1..], y);
      UpperCons(x[0], x[1..] + y);
      assert x + y == [x[0]] + (x[1..] + y);
      UpperCons(x[0], x[1..]);
      assert x == [x[0]] + x[1..];
    } else {
      assert x + y == y;
    }
  }

  /** Upper-casing a text with a first character: that character's upper case, then the rest's. */
  lemma UpperCons(ch: char, rest: string)
    ensures Upper([ch] + rest) == UpperChar(ch) + Upper(rest)
  {
    assert ([ch] + rest)[0] == ch;
    assert ([ch] + rest)[1..] == rest;
  }

  /** A text whose every character is its own upper case is unchanged by upper-casing. */
  lemma {:induction false} UpperOfFixed(t: string)
    requires forall i :: 0 <= i < |t| ==> UpperChar(t[i]) == [t[i]]
    ensures Upper(t) == t
    decreases |t|
  {
    if |t| > 0 {
      UpperOfFixed(t[1..]);
      assert t == [t[0]] + t[1..];
    }
  }

  /** Upper-casing twice is upper-casing once. */
  lemma {:induction false} UpperIdempotent(s: string)
    ensures Upper(Upper(s)) == Upper(s)
    decreases |s|
  {
    if |s| > 0 {
      var head := UpperChar(s[0]);
      UpperCharFixed(s[0]);
      UpperOfFixed(head);
      UpperIdempotent(s[1..]);
      UpperAppend(head, Upper(s[1..]));
    }
  }

  /** ASCII lower-casing, used to state that the type lookup ignores case. */
  function AsciiLower(s: string): (r: string)
    ensures |r| == |s|
    ensures forall i :: 0 <= i < |s| && !('A' <= s[i] <= 'Z') ==> r[i] == s[i]
    decreases |s|
  {
    if |s| == 0 then ""
    else [if 'A' <= s[0] <= 'Z' then (s[0] as int + 32) as char else s[0]] + AsciiLower(s[1..])
  }

  /** The JSON schema type names the loader knows, with their PostgreSQL types. */
  const TypeMapping: map<string, string> :=
    map["STRING" := "TEXT", "INTEGER" := "INTEGER", "FLOAT" := "REAL",
        "BOOLEAN" := "BOOLEAN", "DATETIME" := "TIMESTAMP"]

  /** Every type name the lookup can produce. */
  const PostgresTypes: set<string> := {"TEXT", "INTEGER", "REAL", "BOOLEAN", "TIMESTAMP"}

  /**
   * `map_json_type_to_postgres`: upper-case the JSON type and look it up,
   * defaulting to TEXT. The lookup is total and always yields one of the five
   * PostgreSQL type names, none of which contains a space.
   */
  function MapJsonTypeToPostgres(jsonType: string): (pgType: string)
    ensures pgType in PostgresTypes
    ensures ' ' !in pgType
  {
    var key := Upper(jsonType);
    if key in TypeMapping then TypeMapping[key] else "TEXT"
  }

  /** The five known names map as listed; every other name maps to TEXT. */
  lemma MapJsonTypeCases(jsonType: string)
    ensures Upper(jsonType) == "STRING" ==> MapJsonTypeToPostgres(jsonType) == "TEXT"
    ensures Upper(jsonType) == "INTEGER" ==> MapJsonTypeToPostgres(jsonType) == "INTEGER"
    ensures Upper(jsonType) == "FLOAT" ==> MapJsonTypeToPostgres(jsonType) == "REAL"
    ensures Upper(jsonType) == "BOOLEAN" ==> MapJsonTypeToPostgres(jsonType) == "BOOLEAN"
    ensures Upper(jsonType) == "DATETIME" ==> MapJsonTypeToPostgres(jsonType) == "TIMESTAMP"
    ensures Upper(jsonType) !in {"STRING", "INTEGER", "FLOAT", "BOOLEAN", "DATETIME"}
            ==> MapJsonTypeToPostgres(jsonType) == "TEXT"
  {
  }

  /** Upper-casing forgets any ASCII lower-casing done before it. */
  lemma {:induction false} UpperOfAsciiLower(s: string)
    ensures Upper(AsciiLower(s)) == Upper(s)
    decreases |s|
  {
    if |s| > 0 {
      UpperOfAsciiLower(s[1..]);
      assert AsciiLower(s)[1..] == AsciiLower(s[1..]);
    }
  }

  /**
   * The lookup is case-insensitive: "float", "Float" and "FLOAT" all give
   * REAL, and so does the upper-cased form of any name.
   */
  lemma MapJsonTypeIgnoresCase(jsonType: string)
    ensures MapJsonTypeToPostgres(AsciiLower(jsonType)) == MapJsonTypeToPostgres(jsonType)
    ensures MapJsonTypeToPostgres(Upper(jsonType)) == MapJsonTypeToPostgres(jsonType)
  {
    UpperOfAsciiLower(jsonType);
    UpperIdempotent(jsonType);
  }

  // ---------------------------------------------------------------------------
  // CREATE TABLE
  // ---------------------------------------------------------------------------

  /** One entry of the JSON schema: `name`, `type` and the optional `mode`. */
  datatype Field = Field(name: string, fieldType: string, mode: Option<string>)

  /**
   * The column constraint: NOT NULL exactly when the mode is the string
   * "REQUIRED" (compared case-sensitively; a missing mode reads as
   * "NULLABLE"), and nothing otherwise.
   */
  function ColumnMode(field: Field): (mode: string)
    ensures mode == "NOT NULL" <==> field.mode == Some("REQUIRED")
    ensures mode == "" <==> field.mode != Some("REQUIRED")
  {
    var given := match field.mode case Some(m) => m case None => "NULLABLE";
    if given == "REQUIRED" then "NOT NULL" else ""
  }

  /** A name in double quotes, as both statements write column names. */
  function Quote(name: string): string
  {
    "\"" + name + "\""
  }

  /** A column clause: quoted name, mapped type and constraint, space-separated. */
  function ColumnClause(field: Field): string
  {
    Quote(field.name) + " " + MapJsonTypeToPostgres(field.fieldType) + " " + ColumnMode(field)
  }

  /** The column clauses of a schema, one per field and in field order. */
  function ColumnClauses(schema: seq<Field>): (clauses: seq<string>)
    ensures |clauses| == |schema|
    ensures forall i :: 0 <= i < |schema| ==> clauses[i] == ColumnClause(schema[i])
    decreases |schema|
  {
    if |schema| == 0 then [] else [ColumnClause(schema[0])] + ColumnClauses(schema[1..])
  }

  const CreateTablePrefix := "CREATE TABLE IF NOT EXISTS "

  /**
   * `generate_create_table_query`: collect one clause per field in a loop,
   * join them with ", " and wrap them in the CREATE TABLE statement.
   */
  method GenerateCreateTableQuery(tableName: string, schema: seq<Field>) returns (query: string)
    ensures query == CreateTablePrefix + tableName + " (" + Join(", ", ColumnClauses(schema)) + ");"
  {
    var columns: seq<string> := [];
    for i := 0 to |schema|
      invariant |columns| == i
      invariant forall k :: 0 <= k < i ==> columns[k] == ColumnClause(schema[k])
    {
      columns := columns + [ColumnClause(schema[i])];
    }
    assert columns == ColumnClauses(schema);
    var columnsSql := Join(", ", columns);
    query := CreateTablePrefix + tableName + " (" + columnsSql + ");";
  }

  /** What one column clause declares. */
  datatype ColumnDef = ColumnDef(name: string, pgType: string, notNull: bool)

  /** The column a schema field should declare. */
  function Declared(field: Field): ColumnDef
  {
    ColumnDef(field.name, MapJsonTypeToPostgres(field.fieldType), field.mode == Some("REQUIRED"))
  }

  /** A double-quoted name at the front of `s`, and what follows its closing quote. */
  function ParseQuoted(s: string): (r: Option<(string, string)>)
    ensures r.Some? ==> |r.value.1| < |s|
  {
    if |s| == 0 || s[0] != '"' then None
    else
      var body := s[1..];
      var i := IndexOf(body, '"');
      if i == |body| then None else Some((body[..i], body[i + 1..]))
  }

  /** The type and the optional NOT NULL that follow a column name, and what follows them. */
  function ParseTypeAndMode(s: string): (r: Option<(string, bool, string)>)
    ensures r.Some? ==> |r.value.2| < |s|
  {
    if |s| == 0 || s[0] != ' ' then None
    else
      var typed := s[1..];
      var i := IndexOf(typed, ' ');
      if i == |typed| then None
      else ParseMode(typed[..i], typed[i + 1..])
  }

  /** An optional NOT NULL at the front of `s`. */
  function ParseMode(ty: string, s: string): (r: Option<(string, bool, string)>)
    ensures r.Some? ==> r.value.0 == ty && |r.value.2| <= |s|
  {
    if |s| >= 8 && s[..8] == "NOT NULL" then Some((ty, true, s[8..])) else Some((ty, false, s))
  }

  /** One column clause at the front of `s`, and what follows it. */
  function ParseColumnDef(s: string): (r: Option<(ColumnDef, string)>)
    ensures r.Some? ==> |r.value.1| < |s|
  {
    match ParseQuoted(s)
    case None => None
    case Some((name, afterName)) =>
      match ParseTypeAndMode(afterName)
      case None => None
      case Some((ty, notNull, rest)) => Some((ColumnDef(name, ty, notNull), rest))
  }

  /** A ", "-separated list of column clauses. */
  function ParseColumnDefs(s: string): Option<seq<ColumnDef>>
    decreases |s|
  {
    if |s| == 0 then Some([])
    else
      match ParseColumnDef(s)
      case None => None
      case Some((def, rest)) =>
        if |rest| == 0 then Some([def])
        else if |rest| >= 2 && rest[..2] == ", " then
          match ParseColumnDefs(rest[2..])
          case None => None
          case Some(defs) => Some([def] + defs)
        else None
  }

  /** A quoted name without inner quotes is read back from the front of any text. */
  lemma ParseQuotedOf(name: string, tail: string)
    requires '"' !in name
    ensures ParseQuoted(Quote(name) + tail) == Some((name, tail))
  {
    var s := Quote(name) + tail;
    assert s[1..] == name + ['"'] + tail;
    IndexOfAfter(name, '"', tail);
    assert s[1..][..|name|] == name;
    assert s[1..][|name| + 1..] == tail;
  }

  /** A space-free type and a constraint are read back from the front of any text but another constraint. */
  lemma ParseTypeAndModeOf(ty: string, mode: string, tail: string)
    requires ' ' !in ty
    requires mode == "NOT NULL" || mode == ""
    requires |tail| == 0 || tail[0] == ','
    ensures ParseTypeAndMode(" " + ty + " " + mode + tail) == Some((ty, mode == "NOT NULL", tail))
  {
    var s := " " + ty + " " + mode + tail;
    var typed := s[1..];
    assert typed == ty + [' '] + (mode + tail);
    IndexOfAfter(ty, ' ', mode + tail);
    assert typed[..|ty|] == ty;
    assert typed[|ty| + 1..] == mode + tail;
    if mode == "NOT NULL" {
      assert (mode + tail)[..8] == "NOT NULL";
      assert (mode + tail)[8..] == tail;
    } else {
      assert mode + tail == tail;
    }
  }

  /** A column clause followed by nothing or by ", " is read back as its field's declaration. */
  lemma ParseColumnDefOfClause(field: Field, tail: string)
    requires '"' !in field.name
    requires |tail| == 0 || tail[0] == ','
    ensures ParseColumnDef(ColumnClause(field) + tail) == Some((Declared(field), tail))
  {
    var ty := MapJsonTypeToPostgres(field.fieldType);
    var mode := ColumnMode(field);
    var afterName := " " + ty + " " + mode + tail;
    assert ColumnClause(field) + tail == Quote(field.name) + afterName;
    ParseQuotedOf(field.name, afterName);
    ParseTypeAndModeOf(ty, mode, tail);
  }

  /**
   * The column list of the CREATE TABLE statement reads back as exactly the
   * schema's fields, in order: each name, its mapped type and whether it is
   * NOT NULL (when no field name contains a double quote).
   */
  lemma {:induction false} ColumnListRoundTrip(schema: seq<Field>)
    requires forall i :: 0 <= i < |schema| ==> '"' !in schema[i].name
    ensures ParseColumnDefs(Join(", ", ColumnClauses(schema))) == Some(Declarations(schema))
    decreases |schema|
  {
    if |schema| == 1 {
      ColumnListSingle(schema[0]);
      assert schema == [schema[0]];
    } else if |schema| > 1 {
      var rest := Join(", ", ColumnClauses(schema[1..]));
      ColumnListRoundTrip(schema[1..]);
      ParseColumnDefOfClause(schema[0], ", " + rest);
      ParseColumnDefsCons(ColumnClause(schema[0]), Declared(schema[0]), rest, Declarations(schema[1..]));
      ColumnClausesCons(schema);
    }
  }

  /** The column list of a longer schema is its first clause, ", " and the list of the others. */
  lemma ColumnClausesCons(schema: seq<Field>)
    requires |schema| > 1
    ensures Join(", ", ColumnClauses(schema))
            == ColumnClause(schema[0]) + (", " + Join(", ", ColumnClauses(schema[1..])))
    ensures Declarations(schema) == [Declared(schema[0])] + Declarations(schema[1..])
  {
    JoinCons(", ", ColumnClauses(schema));
  }

  /** A one-field schema's column list is its single clause, read back as that field. */
  lemma ColumnListSingle(field: Field)
    requires '"' !in field.name
    ensures ParseColumnDefs(Join(", ", ColumnClauses([field]))) == Some(Declarations([field]))
  {
    var clause := ColumnClause(field);
    ParseColumnDefOfClause(field, "");
    assert clause + "" == clause;
    assert ColumnClauses([field]) == [clause];
    assert Declarations([field]) == [Declared(field)];
  }

  /** A clause, ", " and a parsable list parse as the clause's declaration in front of the list. */
  lemma ParseColumnDefsCons(clause: string, def: ColumnDef, rest: string, defs: seq<ColumnDef>)
    requires ParseColumnDef(clause + (", " + rest)) == Some((def, ", " + rest))
    requires ParseColumnDefs(rest) == Some(defs)
    ensures ParseColumnDefs(clause + (", " + rest)) == Some([def] + defs)
  {
    var tail := ", " + rest;
    assert tail[..2] == ", ";
    assert tail[2..] == rest;
  }

  /** The declarations of a schema's fields, in order. */
  function Declarations(schema: seq<Field>): (defs: seq<ColumnDef>)
    ensures |defs| == |schema|
    ensures forall i :: 0 <= i < |schema| ==> defs[i] == Declared(schema[i])
    decreases |schema|
  {
    if |schema| == 0 then [] else [Declared(schema[0])] + Declarations(schema[1..])
  }

  // ---------------------------------------------------------------------------
  // INSERT
  // ---------------------------------------------------------------------------

  /** The headers, each in double quotes, joined by ", "; it reads back as the headers when none holds a double quote. */
  function QuotedColumns(headers: seq<string>): (columns: string)
    ensures (forall i :: 0 <= i < |headers| ==> '"' !in headers[i]) ==> ParseColumnNames(columns) == Some(headers)
  {
    if forall i :: 0 <= i < |headers| ==> '"' !in headers[i] then
      QuotedNamesRoundTrip(headers);
      Join(", ", QuotedNames(headers))
    else
      Join(", ", QuotedNames(headers))
  }

  /** Each header in double quotes, in order. */
  function QuotedNames(headers: seq<string>): (quoted: seq<string>)
    ensures |quoted| == |headers|
    ensures forall i :: 0 <= i < |headers| ==> quoted[i] == Quote(headers[i])
  {
    seq(|headers|, i requires 0 <= i < |headers| => Quote(headers[i]))
  }

  /** `n` placeholders %s. */
  function Marks(n: nat): seq<string>
  {
    seq(n, _ => "%s")
  }

  /** `n` copies of the placeholder %s, joined by ", "; it holds exactly `n` placeholders. */
  function Placeholders(n: nat): (placeholders: string)
    ensures ParsePlaceholders(placeholders) == Some(n)
  {
    MarksRoundTrip(n);
    Join(", ", Marks(n))
  }

  /**
   * `generate_insert_query`: a parameterised INSERT naming every header. The
   * column list reads back as the headers, in order (when none holds a double
   * quote), and there is exactly one placeholder per header.
   */
  function GenerateInsertQuery(tableName: string, headers: seq<string>): (query: string)
    ensures var columns := QuotedColumns(headers);
            var placeholders := Placeholders(|headers|);
            && query == "INSERT INTO " + tableName + " (" + columns + ") VALUES (" + placeholders + ");"
            && ParsePlaceholders(placeholders) == Some(|headers|)
            && ((forall i :: 0 <= i < |headers| ==> '"' !in headers[i]) ==> ParseColumnNames(columns) == Some(headers))
  {
    "INSERT INTO " + tableName + " (" + QuotedColumns(headers) + ") VALUES (" + Placeholders(|headers|) + ");"
  }

  /** A ", "-separated list of quoted names. */
  function ParseColumnNames(s: string): Option<seq<string>>
    decreases |s|
  {
    if |s| == 0 then Some([])
    else
      match ParseQuoted(s)
      case None => None
      case Some((name, rest)) =>
        if |rest| == 0 then Some([name])
        else if |rest| >= 2 && rest[..2] == ", " then
          match ParseColumnNames(rest[2..])
          case None => None
          case Some(names) => Some([name] + names)
        else None
  }

  /** The number of placeholders in a ", "-separated list of %s. */
  function ParsePlaceholders(s: string): Option<nat>
    decreases |s|
  {
    if |s| == 0 then Some(0)
    else if s == "%s" then Some(1)
    else if |s| >= 4 && s[..4] == "%s, " then
      match ParsePlaceholders(s[4..])
      case None => None
      case Some(n) => Some(n + 1)
    else None
  }

  /** The quoted names joined by ", " read back as the headers, in order. */
  lemma {:induction false} QuotedNamesRoundTrip(headers: seq<string>)
    requires forall i :: 0 <= i < |headers| ==> '"' !in headers[i]
    ensures ParseColumnNames(Join(", ", QuotedNames(headers))) == Some(headers)
    decreases |headers|
  {
    if |headers| == 1 {
      ParseQuotedOf(headers[0], "");
      assert Quote(headers[0]) + "" == Quote(headers[0]);
      assert QuotedNames(headers) == [Quote(headers[0])];
      assert headers == [headers[0]];
    } else if |headers| > 1 {
      QuotedNamesRoundTrip(headers[1..]);
      QuotedNamesCons(headers);
      ParseColumnNamesCons(headers[0], Join(", ", QuotedNames(headers[1..])), headers[1..]);
      assert headers == [headers[0]] + headers[1..];
    }
  }

  /** The quoted list of several headers is the first quoted, ", " and the list of the others. */
  lemma QuotedNamesCons(headers: seq<string>)
    requires |headers| > 1
    ensures Join(", ", QuotedNames(headers)) == Quote(headers[0]) + (", " + Join(", ", QuotedNames(headers[1..])))
  {
    assert QuotedNames(headers)[1..] == QuotedNames(headers[1..]);
  }

  /** A quoted name, ", " and a readable list read back as the name in front of the list. */
  lemma ParseColumnNamesCons(name: string, rest: string, names: seq<string>)
    requires '"' !in name
    requires ParseColumnNames(rest) == Some(names)
    ensures ParseColumnNames(Quote(name) + (", " + rest)) == Some([name] + names)
  {
    var tail := ", " + rest;
    ParseQuotedOf(name, tail);
    assert tail[..2] == ", ";
    assert tail[2..] == rest;
  }

  /** `n` placeholders joined by ", " read back as `n`. */
  lemma {:induction false} MarksRoundTrip(n: nat)
    ensures ParsePlaceholders(Join(", ", Marks(n))) == Some(n)
    decreases n
  {
    if n > 1 {
      assert Marks(n)[1..] == Marks(n - 1);
      MarksRoundTrip(n - 1);
      var s := Join(", ", Marks(n));
      assert s == "%s, " + Join(", ", Marks(n - 1));
      assert s[..4] == "%s, ";
      assert s[4..] == Join(", ", Marks(n - 1));
    }
  }

  // ---------------------------------------------------------------------------
  // CSV rows
  // ---------------------------------------------------------------------------

  /**
   * The row normalisation in `csv_to_postgres`: an empty cell becomes NULL
   * (None) and every other cell is passed on as it is.
   */
  function NormalizeRow(row: seq<string>): (values: seq<Option<string>>)
    ensures |values| == |row|
    ensures forall i :: 0 <= i < |row| ==> (values[i] == None <==> row[i] == "")
    ensures forall i :: 0 <= i < |row| && values[i].Some? ==> values[i].value == row[i]
  {
    seq(|row|, i requires 0 <= i < |row| => if row[i] == "" then None else Some(row[i]))
  }

  /** The CSV text a value came from: NULL was an empty cell. */
  function CellText(value: Option<string>): string
  {
    match value case None => "" case Some(s) => s
  }

  /** Normalising loses nothing: reading the values back as text gives the row. */
  lemma NormalizeRowRoundTrip(row: seq<string>)
    ensures seq(|row|, i requires 0 <= i < |row| => CellText(NormalizeRow(row)[i])) == row
  {
  }

  /** Normalising a row read back from values gives the values again, unless one was an empty string. */
  lemma NormalizeRowInverse(values: seq<Option<string>>)
    requires forall i :: 0 <= i < |values| ==> values[i] != Some("")
    ensures NormalizeRow(seq(|values|, i requires 0 <= i < |values| => CellText(values[i]))) == values
  {
  }
}
