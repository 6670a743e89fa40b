# SQLAgent pipeline in Dafny

This project models the core of SQLAgent. SQLAgent turns a natural-language question into a PostgreSQL query. It then turns the query's result into a chart-drawing Python program. Two things are modelled:

- **The pipeline** (`workflow_ps.py`). Six nodes share one mutable state record:
  - schema discovery;
  - the SQL writer;
  - the SQL validator, which runs the query and repairs it on failure;
  - the BI expert;
  - the Python code generator;
  - the Python validator, which executes the code and repairs it on failure.

  Conditional edges re-enter each validator until it reports "Pass" or its retry counter reaches the budget `max_num_retries_debug`.
- **The loader's SQL text builders** (`ps_functions.py`):
  - the JSON-type-to-PostgreSQL-type lookup;
  - the `CREATE TABLE` and `INSERT` statements;
  - the CSV row normalisation that turns empty cells into NULL.

Modules:

| file | module | contents |
|---|---|---|
| `text.dfy` | `Text` | Python's `sep.join`, and a one-character split that reads a join back |
| `executors.dfy` | `Executors` | `ExecResult<T>`: a call into outside code either returns a value or raises with a message |
| `ps_functions.dfy` | `PsFunctions` | type lookup, the CREATE TABLE and INSERT builders with parsers of their output, row normalisation |
| `schema_catalog.dfy` | `SchemaCatalog` | the catalog text built by `get_postgres_schemas_and_tables`, and the fallback sentence of `search_tables_and_schemas` |
| `repair_loop.dfy` | `RepairLoop` | the retry-bounded repair loop both validators follow: one execution (`Validate`), the re-entry until exit (`Loop`), and its trace and bounds |
| `workflow.dfy` | `Workflow` | the state record as a class whose node methods update its fields, the graph (`Next`, `RunFrom`), the `run_workflow` driver, and the end-to-end lemmas |

Every node method is proved against a function on the record's value. The method's `ensures` has the form `Snapshot() == XStep(old(Snapshot()), o)`. `RunFrom` is the graph's meaning: it executes a node, follows its edge, and repeats until END. The driver `RunWorkflow` is proved to compute `RunFrom` from the initial state. Lemmas then show three things:

- the graph runs the two repair loops to their exits (`SqlValidatorRunsLoop`, `PythonValidatorRunsLoop`, `GraphRunsPipeline`);
- what a run delivers (`PipelineOutcome`);
- what each loop does (`LoopTrace`, `LoopOutcome`, `LoopExecutions`, `LoopFromZero`).

The collaborators are the parameters of an `Oracles` value:

- the database catalog;
- query execution, covering both `EXPLAIN` and the query itself;
- each language-model step, covering prompt, completion and code-block extraction;
- Python's `exec`.

These parameters are functions, so each collaborator gives the same answer to the same input.

Some behaviours of the code differ from what a reader of the retry settings might expect; the model follows the code:

- **The counter can end above the budget.** One might expect the retry counter never to exceed `max_num_retries_debug`. The code tests for exit only after an execution, so with a budget of 0 a failing first execution leaves the counter at 1 (`LoopFromZero`).
- **A "Not Pass" exit comes after `max(1, budget)` executions.** One might expect "budget + 1" executions (a first try plus `budget` retries). The counter is raised on the first failure, so the code gives `max(1, budget)` (`LoopExecutions`, `LoopFromZero`).
- **An empty error does not mean "Pass".** One might expect the error text to be empty exactly when the result is "Pass". An exception whose text is empty breaks this, so the model proves only the "Pass ⇒ empty error" direction (`Validate`, `ValidateKeepsConsistent`).
- **The store is whatever `exec` left.** After "Pass", the stored variables are the globals `exec` left behind, starting from `{"df": df}`. Those globals need not still bind `df`, because the code may rebind or delete it.

## Model

| member | source | states |
|---|---|---|
| PsFunctions.MapJsonTypeToPostgres | ps_functions.py:111-130 | the lookup is total: every JSON type maps to one of TEXT, INTEGER, REAL, BOOLEAN, TIMESTAMP, none containing a space |
| PsFunctions.MapJsonTypeCases | ps_functions.py:121-128 | STRING→TEXT, INTEGER→INTEGER, FLOAT→REAL, BOOLEAN→BOOLEAN, DATETIME→TIMESTAMP after upper-casing; every other name → TEXT |
| PsFunctions.UpperChar | ps_functions.py:128 | `str.upper()` of one character: one to three characters; an ASCII lower-case letter is shifted by 32 to its capital; every other ASCII character is kept |
| PsFunctions.Upper | ps_functions.py:128 | `str.upper()` of a text, character by character; never shorter than its input |
| PsFunctions.UpperHasNoLower | ps_functions.py:128 | no ASCII lower-case letter is left after upper-casing |
| PsFunctions.UpperIdempotent | ps_functions.py:128 | upper-casing an upper-cased name changes nothing |
| PsFunctions.UpperOfAsciiLower | ps_functions.py:128 | `upper()` forgets any earlier ASCII lower-casing |
| PsFunctions.MapJsonTypeIgnoresCase | ps_functions.py:128 | the lookup gives the same type for a name, its ASCII lower-cased form and its upper-cased form |
| PsFunctions.ColumnMode | ps_functions.py:105 | NOT NULL exactly when `mode` is present and equals "REQUIRED"; the empty constraint otherwise (a missing mode counts as NULLABLE) |
| PsFunctions.ColumnClauses | ps_functions.py:102-106 | one clause per schema field, in field order: quoted name, mapped type, constraint |
| PsFunctions.GenerateCreateTableQuery | ps_functions.py:90-109 | the loop builds `CREATE TABLE IF NOT EXISTS <table> (<clauses joined by ", ">);` with exactly the clauses of the schema's fields in order |
| PsFunctions.ParseColumnDefOfClause | ps_functions.py:103-106 | a column clause (`ColumnClause`: quoted name, mapped type, constraint) reads back as its field's name, mapped type and NOT NULL flag |
| PsFunctions.ColumnListRoundTrip | ps_functions.py:101-109 | the column list of the CREATE TABLE statement parses back to exactly the declarations of the schema's fields, in order, when no name contains a double quote |
| PsFunctions.QuotedNames | ps_functions.py:143 | each header in double quotes, one per header, in order |
| PsFunctions.QuotedColumns | ps_functions.py:143 | the quoted column list of the INSERT statement parses back to exactly the headers, in order, when no header contains a double quote |
| PsFunctions.QuotedNamesRoundTrip | ps_functions.py:143 | the quoted headers joined by ", " parse back to the headers |
| PsFunctions.Placeholders | ps_functions.py:144 | the placeholder list parses back to exactly `n` `%s` |
| PsFunctions.MarksRoundTrip | ps_functions.py:144 | `n` placeholders joined by ", " are read back as `n` |
| PsFunctions.GenerateInsertQuery | ps_functions.py:132-145 | `INSERT INTO <table> (<columns>) VALUES (<placeholders>);` where the columns read back as the headers, in order (no header containing a double quote), and there is exactly one placeholder per header |
| PsFunctions.NormalizeRow | ps_functions.py:71 | same length as the row; a cell becomes NULL exactly when it is empty, otherwise it is passed on unchanged |
| PsFunctions.NormalizeRowRoundTrip | ps_functions.py:71 | normalisation loses nothing: NULL read back as "" gives the row again |
| PsFunctions.NormalizeRowInverse | ps_functions.py:71 | normalising the text of values that hold no empty string gives those values again |
| SchemaCatalog.ColumnItems | workflow_ps.py:83 | one `name (type)` item per column, in catalog order |
| SchemaCatalog.SchemaLine | workflow_ps.py:83-84 | a table's line is `schema.table: ` followed by its column details, the `name (type)` items joined by ", " |
| SchemaCatalog.ColumnDetailsSplit | workflow_ps.py:83 | splitting the column details on "," gives back the first item and every further item after its one-space separator, when no name or type contains a comma |
| SchemaCatalog.SchemaLines | workflow_ps.py:74-85 | one line per table, in catalog order |
| SchemaCatalog.FormatSchemasAndTables | workflow_ps.py:73-87 | the formatting loop yields the table lines joined by newlines |
| SchemaCatalog.GetPostgresSchemasAndTables | workflow_ps.py:50-96 | the formatted catalog, or "" when reading the catalog raised |
| SchemaCatalog.CatalogText | workflow_ps.py:73-91 | the function's result: "" when reading the catalog raised; empty exactly when the catalog raised or lists no table; when it lists tables without newlines in their names, splitting it on newlines gives one line per table, in order |
| SchemaCatalog.JoinedLinesEmpty | workflow_ps.py:87-91 | the table lines joined by newlines are empty exactly when there is no table |
| SchemaCatalog.SchemaLineNoNewline | workflow_ps.py:83-84 | a table's line has no newline when its names and types have none |
| SchemaCatalog.JoinedLinesSplit | workflow_ps.py:87 | splitting the joined table lines on newlines gives back one line per table, in order |
| SchemaCatalog.SchemaFallback | workflow_ps.py:102-108 | a non-empty catalog text is kept; an empty one becomes the fixed "Nenhuma tabela…" sentence; the schema text is never empty |
| Text.SplitJoinChar | workflow_ps.py:87 | splitting on a one-character separator undoes joining with it, when no part contains it |
| Text.JoinAvoids | workflow_ps.py:83-87 | a character found in neither the separator nor any part is absent from the joined text |
| RepairLoop.Truncate | workflow_ps.py:156 | `s[:n]`: a prefix of `s` whose length is the smaller of `|s|` and `n` |
| RepairLoop.Validate | workflow_ps.py:130-174 | one validator execution: "Pass" exactly when execution returns; then the output is stored, the error cleared, and the counter and candidate are kept. On a raise: counter + 1, "Not Pass", an error of at most 300 characters that is a prefix of the exception text, the candidate replaced by the repair of it with that error (exactly the first 300 characters of the exception text), and the output kept |
| RepairLoop.ValidateKeepsConsistent | workflow_ps.py:130-174 | one validator execution keeps the record consistent: counter ≥ 0; an unset result has counter 0, no error and the initial output; "Pass" has no error; "Not Pass" has counter ≥ 1; the error is at most 300 characters |
| RepairLoop.Loop | workflow_ps.py:275-281 | re-entering the validator until "Pass" or counter ≥ budget terminates, executes at least the entry candidate first, and ends where the exit test holds with a result other than unset |
| RepairLoop.LoopTrace | workflow_ps.py:153-171 | every executed candidate but the last raised, and the next one is the repair of it with its truncated error; the counter grew by exactly the number of failures |
| RepairLoop.LoopOutcome | workflow_ps.py:143-174 | "Pass" exactly when the last executed candidate returned; then that candidate is current and its output is stored. On "Not Pass" the output is the entry output, the error is the last failure's, and the current candidate is an unexecuted repair |
| RepairLoop.LoopExecutions | workflow_ps.py:275-281 | at most max(1, budget − counter) executions, and exactly that many on "Not Pass" |
| RepairLoop.LoopFromZero | workflow_ps.py:275-281 | from a zero counter: 1 to max(1, budget) executions; on "Not Pass" the counter ends at max(1, budget); on "Pass" it counts the failures before it |
| Workflow.SqlValidatorNodeEffect | workflow_ps.py:127-180 | the SQL validator's whole effect per branch (rows, "Pass", "" on success; counter + 1, "Not Pass", truncated error, repaired query on failure); no other field changes |
| Workflow.PythonValidatorNodeEffect | workflow_ps.py:219-258 | the Python validator's whole effect per branch (globals left by exec with only `df` bound stored on success; counter + 1, "Not Pass", truncated error, repaired code on failure); no other field changes |
| Workflow.RouteAfterSqlValidator | workflow_ps.py:275-281 | to the BI expert exactly when "Pass" or counter ≥ budget, else back to the SQL validator |
| Workflow.RouteAfterPythonValidator | workflow_ps.py:285-291 | to END exactly when "Pass" or counter ≥ budget, else back to the Python validator |
| Workflow.InitialState | workflow_ps.py:301-316 | the initial record holds the question, budget 3, both results unset, and is consistent |
| Workflow.ExecGlobals | workflow_ps.py:226 | the globals `exec` starts from bind exactly `df`, to the state's table |
| Workflow.Next | workflow_ps.py:272-291 | every edge moves to a later node, except a validator's re-entry into itself and END's; only the Python validator leads to END |
| Workflow.Execute | workflow_ps.py:99-258 | running a node keeps the question and budget; a counter rises by one exactly when its validator runs and the execution raises; every other node leaves the table, the SQL result, the store and the Python result alone; a consistent record stays consistent |
| Workflow.RunFrom | workflow_ps.py:261-296 | a run from any node keeps the question and budget, never lowers a counter, and keeps a consistent record consistent |
| Workflow.StepDecreases | workflow_ps.py:272-291 | every edge moves forward, or re-enters a validator after a failure that used up one unit of its budget: the graph always reaches END |
| Workflow.SqlValidatorRunsLoop | workflow_ps.py:275-281 | entering the SQL validator in the graph runs the SQL repair loop to its exit, then continues at the BI expert |
| Workflow.PythonValidatorRunsLoop | workflow_ps.py:285-291 | entering the Python validator runs the Python repair loop against the unchanged table to its exit, then ends |
| Workflow.RunFromStep | workflow_ps.py:261-296 | a run from a node other than END executes that node and continues from the node its edge leads to |
| Workflow.GraphRunsPipeline | workflow_ps.py:261-296 | the graph from its entry point computes: discovery, writer, SQL loop, BI expert, generator, Python loop |
| Workflow.PipelineOutcome | workflow_ps.py:300-318 | a run keeps the question and budget 3 and sets the schema text. Each loop runs 1–3 executions with its counter in 0..3. "Not Pass" means counter 3 plus the empty table or the empty store. "Pass" means the final query returns the stored rows and the final code, run against them, leaves the stored globals |
| Workflow.AgentState.constructor | workflow_ps.py:301-316 | the initial record: the question, budget 3, zero counters, empty texts, unset results, empty table and empty store |
| Workflow.AgentState.SearchTablesAndSchemas | workflow_ps.py:99-110 | writes only the schema text: the catalog text, or the fixed sentence when it is empty |
| Workflow.AgentState.AgentSqlWriterNode | workflow_ps.py:113-123 | writes only the query, from the question and the schema text |
| Workflow.AgentState.AgentSqlValidatorNode | workflow_ps.py:127-180 | the new record is one SQL validator execution on the old one |
| Workflow.AgentState.AgentBiExpertNode | workflow_ps.py:184-199 | writes only the visualization request, from question, query and table |
| Workflow.AgentState.AgentPythonCodeDataVisualizationGeneratorNode | workflow_ps.py:202-216 | writes only the code, from the request and the table |
| Workflow.AgentState.AgentPythonCodeDataVisualizationValidatorNode | workflow_ps.py:219-258 | the new record is one Python validator execution on the old one, with exec given only `df` |
| Workflow.RunWorkflow | workflow_ps.py:300-318 | the driver loop over the one record computes the graph's run from the initial state |

## Left out

- Prompt text (`prompts_ps.py`), the language model, and `utils.extract_code_block` are each one opaque function of the inputs the prompt is filled with. `utils.py` is not part of this model. The model does not capture the sampling randomness of a temperature-0.3 model: the same inputs always give the same completion.
- Both validators catch only Python's `Exception` (workflow_ps.py:152, 235). Code that calls `exit()` raises `SystemExit`, and an interrupt raises `KeyboardInterrupt`; neither is caught, so either ends the whole run. The model turns every raise into `Raised`, which becomes "Not Pass" and a repair.
- A query or an `exec` that never returns hangs the run: the source sets no time-out. The model's collaborators are total functions, so the termination results (`Workflow.StepDecreases`, `Workflow.RunFrom`, `Workflow.RunWorkflow`) hold only for calls that return or raise an `Exception`.
- An exception raised by a language-model call, including inside a validator's repair branch, stops the run in the source. The model has no such failure.
- psycopg2 connections and cursors, their closing in `finally`, and the SQL sent to the catalog are left out. Reading the catalog is one `ExecResult` of tables with their columns. Running a query is one `ExecResult` of a table, covering both `EXPLAIN` and the query itself.
- pandas is not modelled. A table is its column names and rows as text, and `dtypes` and `head(5)` are left to the language-model functions.
- `exec` is one function from code and globals to the globals after the run, or an exception. Python adds `__builtins__` to the globals, and exec runs unsandboxed. The model also leaves out the aliasing between `exec_globals["df"]` and `state["df"]`: code that mutates the table in place would change the state's table too, but the model treats the table as a value.
- langgraph's engine, its recursion limit, and its copying of state between nodes are not modelled. The graph is the explicit `Next`/`RunFrom` over one record.
- `print` output is not modelled.
- `csv_to_postgres` itself is left out. That covers opening and decoding the files, JSON parsing, the connection, executing, truncating, committing, and each early `return` on error. Only its row normalisation (line 71) and the two builders it calls are modelled.
- `test_postgres_connection`, the `__main__` block of `ps_functions.py`, and `upload_datasets_in_ps.py` are not part of this model.
- PsFunctions.MapJsonTypeToPostgres: Python's `str.upper()` is modelled for ASCII letters and for the characters whose upper-case form is plain ASCII (sharp s, dotless i, long s, the ff/fi/fl/ffi/ffl/st ligatures). Every other character is kept unchanged; full Unicode case mapping could only affect whether a name matches one of the five keys through such characters.
- PsFunctions.GenerateCreateTableQuery: a schema entry without `name` or `type` raises KeyError in the source. The model's `Field` always has both. A `mode` of JSON null is the same as an absent mode here.
- Field names and headers containing a double quote are written unescaped by the source. The round-trip lemmas therefore require names without `"`, and the builders themselves accept any name.
