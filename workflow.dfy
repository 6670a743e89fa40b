/**
 * The question-to-chart pipeline: one state record threaded through six
 * nodes, with a conditional edge after each validator.
 *
 *   search_tables_and_schemas -> agent_sql_writer_node -> agent_sql_validator_node
 *     -> (again, until "Pass" or the budget is used) -> agent_bi_expert_node
 *     -> agent_python_code_data_visualization_generator_node
 *     -> agent_python_code_data_visualization_validator_node
 *     -> (again, until "Pass" or the budget is used) -> END
 *
 * `AgentState` is the mutable record; each node is a method that updates its
 * fields in place. `State` is the record's value, the node functions say what
 * each method does to it, and `RunFrom` is the graph's meaning: execute a
 * node, follow its edge, repeat until END. The database, the language model
 * (with the extraction of its code block) and Python's `exec` are the
 * functions of an `Oracles` value.
 */
module Workflow {
  import opened Executors
  import opened RepairLoop
  import opened SchemaCatalog

  /** A query result: column names and rows. */
  datatype DataFrame = DataFrame(columns: seq<string>, rows: seq<seq<string>>)

  /** `pd.DataFrame()`, the empty table the state starts with. */
  const EmptyFrame := DataFrame([], [])

  /** A value bound by the executed Python code. */
  datatype PyValue = Frame(frame: DataFrame) | Opaque(repr: string)

  /** A Python globals dictionary. */
  type Env = map<string, PyValue>

  /** The value of the pipeline state record, field by field. */
  datatype State = State(
    question: string,
    databaseSchemas: string,
    query: string,
    maxNumRetriesDebug: int,
    numRetriesDebugSql: int,
    resultDebugSql: DebugResult,
    errorMsgDebugSql: string,
    df: DataFrame,
    visualizationRequest: string,
    pythonCodeDataVisualization: string,
    pythonCodeStoreVariablesDict: Env,
    numRetriesDebugPythonCodeDataVisualization: int,
    resultDebugPythonCodeDataVisualization: DebugResult,
    errorMsgDebugPythonCodeDataVisualization: string)

  /**
   * The collaborators the nodes call. Each language-model entry stands for a
   * prompt, the completion and the extraction of its code block.
   */
  datatype Oracles = Oracles(
    catalog: ExecResult<seq<TableColumns>>,
    writeSql: (string, string) -> string,               // question, schemas -> query
    runQuery: string -> ExecResult<DataFrame>,          // EXPLAIN, then execute and fetch
    repairSql: (string, string) -> string,              // query, error -> query
    biExpert: (string, string, DataFrame) -> string,    // question, query, df -> request
    writePython: (string, DataFrame) -> string,         // request, df -> code
    execPython: (string, Env) -> ExecResult<Env>,       // code, globals -> globals after exec
    repairPython: (string, string) -> string)           // code, error -> code

  /** The retry budget `run_workflow` gives both loops. */
  const DefaultMaxNumRetriesDebug := 3

  /**
   * The state `run_workflow` starts from: the question, a budget of three,
   * and both loops consistent with nothing recorded yet.
   */
  function InitialState(question: string): (s: State)
    ensures s.question == question && s.maxNumRetriesDebug == DefaultMaxNumRetriesDebug
    ensures s.resultDebugSql == Unset && s.resultDebugPythonCodeDataVisualization == Unset
    ensures Coherent(s)
  {
    State(question, "", "", DefaultMaxNumRetriesDebug, 0, Unset, "", EmptyFrame,
          "", "", map[], 0, Unset, "")
  }

  // ---------------------------------------------------------------------------
  // The two repair loops seen as attempts
  // ---------------------------------------------------------------------------

  /** The fields the SQL validator owns. */
  function SqlAttempt(s: State): Attempt<DataFrame>
  {
    Attempt(s.query, s.numRetriesDebugSql, s.resultDebugSql, s.errorMsgDebugSql, s.df)
  }

  function WithSqlAttempt(s: State, a: Attempt<DataFrame>): State
  {
    s.(query := a.candidate, numRetriesDebugSql := a.retries, resultDebugSql := a.result,
       errorMsgDebugSql := a.error, df := a.output)
  }

  /** The fields the Python validator owns. */
  function PythonAttempt(s: State): Attempt<Env>
  {
    Attempt(s.pythonCodeDataVisualization, s.numRetriesDebugPythonCodeDataVisualization,
            s.resultDebugPythonCodeDataVisualization, s.errorMsgDebugPythonCodeDataVisualization,
            s.pythonCodeStoreVariablesDict)
  }

  function WithPythonAttempt(s: State, a: Attempt<Env>): State
  {
    s.(pythonCodeDataVisualization := a.candidate,
       numRetriesDebugPythonCodeDataVisualization := a.retries,
       resultDebugPythonCodeDataVisualization := a.result,
       errorMsgDebugPythonCodeDataVisualization := a.error,
       pythonCodeStoreVariablesDict := a.output)
  }

  /**
   * Both loops' fields are consistent: the SQL loop's output starts as the
   * empty table and the Python loop's as the empty store.
   */
  predicate Coherent(s: State)
  {
    Consistent(SqlAttempt(s), EmptyFrame) && Consistent(PythonAttempt(s), map[])
  }

  /** The globals the generated code runs in: only `df`, bound to the query result. */
  function ExecGlobals(df: DataFrame): (globals: Env)
    ensures globals.Keys == {"df"}
    ensures globals["df"] == Frame(df)
  {
    map["df" := Frame(df)]
  }

  /** Executing generated code against a table. */
  function PythonRunner(o: Oracles, df: DataFrame): string -> ExecResult<Env>
  {
    code => o.execPython(code, ExecGlobals(df))
  }

  // ---------------------------------------------------------------------------
  // What each node does to the state
  // ---------------------------------------------------------------------------

  function SearchStep(s: State, o: Oracles): State
  {
    s.(databaseSchemas := SchemaFallback(CatalogText(o.catalog)))
  }

  function SqlWriterStep(s: State, o: Oracles): State
  {
    s.(query := o.writeSql(s.question, s.databaseSchemas))
  }

  function SqlValidatorStep(s: State, o: Oracles): State
  {
    WithSqlAttempt(s, Validate(SqlAttempt(s), o.runQuery, o.repairSql))
  }

  function BiExpertStep(s: State, o: Oracles): State
  {
    s.(visualizationRequest := o.biExpert(s.question, s.query, s.df))
  }

  function PythonGeneratorStep(s: State, o: Oracles): State
  {
    s.(pythonCodeDataVisualization := o.writePython(s.visualizationRequest, s.df))
  }

  function PythonValidatorStep(s: State, o: Oracles): State
  {
    WithPythonAttempt(s, Validate(PythonAttempt(s), PythonRunner(o, s.df), o.repairPython))
  }

  /**
   * The SQL validator node, field by field. On success: "Pass", no error and
   * the new rows, with the counter and the query untouched. On failure: the
   * counter up by one, "Not Pass", the exception text cut to its first 300
   * characters, the query replaced by the repair of the old query with that
   * error, and the rows untouched. Nothing else
   * changes in either case.
   */
  lemma SqlValidatorNodeEffect(s: State, o: Oracles)
    ensures var t := SqlValidatorStep(s, o);
            match o.runQuery(s.query)
            case Ok(rows) =>
              t == s.(resultDebugSql := Pass, errorMsgDebugSql := "", df := rows)
            case Raised(e) =>
              var msg := Truncate(e, MaxCharactersErrorMsgDebug);
              t == s.(numRetriesDebugSql := s.numRetriesDebugSql + 1,
                      resultDebugSql := NotPass,
                      errorMsgDebugSql := msg,
                      query := o.repairSql(s.query, msg))
  {
  }

  /**
   * The Python validator node, field by field. On success the store becomes
   * the globals the code left behind after running with only `df` bound;
   * on failure the store is untouched and the code is replaced by its repair.
   */
  lemma PythonValidatorNodeEffect(s: State, o: Oracles)
    ensures var t := PythonValidatorStep(s, o);
            match o.execPython(s.pythonCodeDataVisualization, ExecGlobals(s.df))
            case Ok(globals) =>
              t == s.(resultDebugPythonCodeDataVisualization := Pass,
                      errorMsgDebugPythonCodeDataVisualization := "",
                      pythonCodeStoreVariablesDict := globals)
            case Raised(e) =>
              var msg := Truncate(e, MaxCharactersErrorMsgDebug);
              t == s.(numRetriesDebugPythonCodeDataVisualization := s.numRetriesDebugPythonCodeDataVisualization + 1,
                      resultDebugPythonCodeDataVisualization := NotPass,
                      errorMsgDebugPythonCodeDataVisualization := msg,
                      pythonCodeDataVisualization := o.repairPython(s.pythonCodeDataVisualization, msg))
  {
  }

  // ---------------------------------------------------------------------------
  // The graph
  // ---------------------------------------------------------------------------

  datatype Node =
    | SearchTablesAndSchemas
    | AgentSqlWriter
    | AgentSqlValidator
    | AgentBiExpert
    | AgentPythonCodeDataVisualizationGenerator
    | AgentPythonCodeDataVisualizationValidator
    | End

  /** The conditional edge after the SQL validator. */
  function RouteAfterSqlValidator(s: State): (next: Node)
    ensures next == AgentBiExpert || next == AgentSqlValidator
    ensures next == AgentBiExpert <==>
              (s.resultDebugSql == Pass || s.numRetriesDebugSql >= s.maxNumRetriesDebug)
  {
    if s.resultDebugSql == Pass || s.numRetriesDebugSql >= s.maxNumRetriesDebug
    then AgentBiExpert else AgentSqlValidator
  }

  /** The conditional edge after the Python validator. */
  function RouteAfterPythonValidator(s: State): (next: Node)
    ensures next == End || next == AgentPythonCodeDataVisualizationValidator
    ensures next == End <==>
              (s.resultDebugPythonCodeDataVisualization == Pass
               || s.numRetriesDebugPythonCodeDataVisualization >= s.maxNumRetriesDebug)
  {
    if s.resultDebugPythonCodeDataVisualization == Pass
       || s.numRetriesDebugPythonCodeDataVisualization >= s.maxNumRetriesDebug
    then End else AgentPythonCodeDataVisualizationValidator
  }

  /**
   * The edge taken after `node` has left the state `s`. Every edge moves
   * forward except the validators' loops back to themselves (and END, which
   * stays put), and only the Python validator leads to END.
   */
  function Next(node: Node, s: State): (next: Node)
    ensures Rank(next) < Rank(node) || next == node
    ensures next == node ==>
              node == AgentSqlValidator || node == AgentPythonCodeDataVisualizationValidator || node == End
    ensures next == End ==> node == AgentPythonCodeDataVisualizationValidator || node == End
  {
    match node
    case SearchTablesAndSchemas => AgentSqlWriter
    case AgentSqlWriter => AgentSqlValidator
    case AgentSqlValidator => RouteAfterSqlValidator(s)
    case AgentBiExpert => AgentPythonCodeDataVisualizationGenerator
    case AgentPythonCodeDataVisualizationGenerator => AgentPythonCodeDataVisualizationValidator
    case AgentPythonCodeDataVisualizationValidator => RouteAfterPythonValidator(s)
    case End => End
  }

  /**
   * What executing `node` does to the state. No node writes the question or
   * the budget. A retry counter goes up by one exactly when its validator
   * runs and the execution raises, and only that validator records an outcome
   * and a table or a store. Every node keeps both loops consistent.
   */
  function Execute(node: Node, s: State, o: Oracles): (t: State)
    ensures t.question == s.question && t.maxNumRetriesDebug == s.maxNumRetriesDebug
    ensures t.numRetriesDebugSql == s.numRetriesDebugSql
              + (if node == AgentSqlValidator && o.runQuery(s.query).Raised? then 1 else 0)
    ensures t.numRetriesDebugPythonCodeDataVisualization == s.numRetriesDebugPythonCodeDataVisualization
              + (if node == AgentPythonCodeDataVisualizationValidator
                    && o.execPython(s.pythonCodeDataVisualization, ExecGlobals(s.df)).Raised? then 1 else 0)
    ensures node != AgentSqlValidator ==> t.resultDebugSql == s.resultDebugSql && t.df == s.df
    ensures node != AgentPythonCodeDataVisualizationValidator ==>
              && t.resultDebugPythonCodeDataVisualization == s.resultDebugPythonCodeDataVisualization
              && t.pythonCodeStoreVariablesDict == s.pythonCodeStoreVariablesDict
    ensures Coherent(s) ==> Coherent(t)
  {
    match node
    case SearchTablesAndSchemas => SearchStep(s, o)
    case AgentSqlWriter => SqlWriterStep(s, o)
    case AgentSqlValidator =>
      ValidateKeepsConsistent(SqlAttempt(s), o.runQuery, o.repairSql, EmptyFrame);
      SqlValidatorStep(s, o)
    case AgentBiExpert => BiExpertStep(s, o)
    case AgentPythonCodeDataVisualizationGenerator => PythonGeneratorStep(s, o)
    case AgentPythonCodeDataVisualizationValidator =>
      ValidateKeepsConsistent(PythonAttempt(s), PythonRunner(o, s.df), o.repairPython, map[]);
      PythonValidatorStep(s, o)
    case End => s
  }

  /** How many nodes lie ahead on the straight path to END. */
  function Rank(node: Node): nat
  {
    match node
    case SearchTablesAndSchemas => 6
    case AgentSqlWriter => 5
    case AgentSqlValidator => 4
    case AgentBiExpert => 3
    case AgentPythonCodeDataVisualizationGenerator => 2
    case AgentPythonCodeDataVisualizationValidator => 1
    case End => 0
  }

  /**
   * Every edge either moves forward, or re-enters a validator after a failure
   * that raised its counter while the budget still allowed more.
   */
  lemma StepDecreases(node: Node, s: State, o: Oracles)
    requires node != End
    ensures var t := Execute(node, s, o);
            var next := Next(node, t);
            || Rank(next) < Rank(node)
            || (&& next == node == AgentSqlValidator
                && Left(SqlAttempt(t), t.maxNumRetriesDebug) < Left(SqlAttempt(s), s.maxNumRetriesDebug))
            || (&& next == node == AgentPythonCodeDataVisualizationValidator
                && Left(SqlAttempt(t), t.maxNumRetriesDebug) == Left(SqlAttempt(s), s.maxNumRetriesDebug)
                && Left(PythonAttempt(t), t.maxNumRetriesDebug) < Left(PythonAttempt(s), s.maxNumRetriesDebug))
  {
  }

  /**
   * The graph's meaning: execute a node, follow its edge, and so on until END.
   * A run never writes the question or the budget, never lowers a retry
   * counter, and keeps both loops consistent.
   */
  function RunFrom(node: Node, s: State, o: Oracles): (final: State)
    ensures final.question == s.question && final.maxNumRetriesDebug == s.maxNumRetriesDebug
    ensures final.numRetriesDebugSql >= s.numRetriesDebugSql
    ensures final.numRetriesDebugPythonCodeDataVisualization >= s.numRetriesDebugPythonCodeDataVisualization
    ensures Coherent(s) ==> Coherent(final)
    decreases Rank(node), Left(SqlAttempt(s), s.maxNumRetriesDebug),
              Left(PythonAttempt(s), s.maxNumRetriesDebug)
  {
    if node == End then s
    else
      var t := Execute(node, s, o);
      StepDecreases(node, s, o);
      RunFrom(Next(node, t), t, o)
  }

  // ---------------------------------------------------------------------------
  // The graph runs the two repair loops
  // ---------------------------------------------------------------------------

  /** The SQL repair loop from state `s`. */
  function SqlLoop(s: State, o: Oracles): LoopRun<DataFrame>
  {
    Loop(SqlAttempt(s), s.maxNumRetriesDebug, o.runQuery, o.repairSql)
  }

  /** The Python repair loop from state `s`; the table it runs against does not change. */
  function PythonLoop(s: State, o: Oracles): LoopRun<Env>
  {
    Loop(PythonAttempt(s), s.maxNumRetriesDebug, PythonRunner(o, s.df), o.repairPython)
  }

  /** Entering the SQL validator runs the SQL repair loop to its exit and then continues at the BI node. */
  lemma {:induction false} SqlValidatorRunsLoop(s: State, o: Oracles)
    ensures RunFrom(AgentSqlValidator, s, o) == RunFrom(AgentBiExpert, WithSqlAttempt(s, SqlLoop(s, o).last), o)
    decreases Left(SqlAttempt(s), s.maxNumRetriesDebug)
  {
    var t := SqlValidatorStep(s, o);
    assert SqlAttempt(t) == Validate(SqlAttempt(s), o.runQuery, o.repairSql);
    if RouteAfterSqlValidator(t) == AgentSqlValidator {
      SqlValidatorRunsLoop(t, o);
      assert WithSqlAttempt(t, SqlLoop(t, o).last) == WithSqlAttempt(s, SqlLoop(t, o).last);
    }
  }

  /** Entering the Python validator runs the Python repair loop to its exit and then ends. */
  lemma {:induction false} PythonValidatorRunsLoop(s: State, o: Oracles)
    ensures RunFrom(AgentPythonCodeDataVisualizationValidator, s, o)
            == WithPythonAttempt(s, PythonLoop(s, o).last)
    decreases Left(PythonAttempt(s), s.maxNumRetriesDebug)
  {
    var t := PythonValidatorStep(s, o);
    assert t.df == s.df;
    assert PythonAttempt(t) == Validate(PythonAttempt(s), PythonRunner(o, s.df), o.repairPython);
    if RouteAfterPythonValidator(t) == AgentPythonCodeDataVisualizationValidator {
      PythonValidatorRunsLoop(t, o);
      assert WithPythonAttempt(t, PythonLoop(t, o).last) == WithPythonAttempt(s, PythonLoop(t, o).last);
    }
  }

  /** The stage sequence, each repair loop run to its exit. */
  function Pipeline(question: string, o: Oracles): State
  {
    var discovered := SearchStep(InitialState(question), o);
    var written := SqlWriterStep(discovered, o);
    var queried := WithSqlAttempt(written, SqlLoop(written, o).last);
    var planned := BiExpertStep(queried, o);
    var coded := PythonGeneratorStep(planned, o);
    WithPythonAttempt(coded, PythonLoop(coded, o).last)
  }

  /** The graph, started at schema discovery, computes the stage sequence. */
  lemma GraphRunsPipeline(question: string, o: Oracles)
    ensures RunFrom(SearchTablesAndSchemas, InitialState(question), o) == Pipeline(question, o)
  {
    var discovered := SearchStep(InitialState(question), o);
    RunFromStep(SearchTablesAndSchemas, InitialState(question), o);
    var written := SqlWriterStep(discovered, o);
    RunFromStep(AgentSqlWriter, discovered, o);
    SqlValidatorRunsLoop(written, o);
    var queried := WithSqlAttempt(written, SqlLoop(written, o).last);
    var planned := BiExpertStep(queried, o);
    RunFromStep(AgentBiExpert, queried, o);
    var coded := PythonGeneratorStep(planned, o);
    RunFromStep(AgentPythonCodeDataVisualizationGenerator, planned, o);
    PythonValidatorRunsLoop(coded, o);
  }

  /** One step of the graph: execute the node, then run on from the node its edge leads to. */
  lemma RunFromStep(node: Node, s: State, o: Oracles)
    requires node != End
    ensures RunFrom(node, s, o) == RunFrom(Next(node, Execute(node, s, o)), Execute(node, s, o), o)
  {
  }

  /**
   * What a run delivers. The question and the budget are never written. The
   * schema text is the catalog text, or the fixed sentence when that is
   * empty. Each loop executed between one and three candidates and its
   * counter is at most three; a loop that ends "Not Pass" ends with its
   * counter at three. After "Pass" the rows are those of the final query and
   * the store is what the final code left behind with `df` bound to them.
   * After "Not Pass" the rows are still the empty table and the store is still
   * empty.
   */
  lemma PipelineOutcome(question: string, o: Oracles)
    ensures var discovered := SearchStep(InitialState(question), o);
            var written := SqlWriterStep(discovered, o);
            var sqlRun := SqlLoop(written, o);
            var queried := WithSqlAttempt(written, sqlRun.last);
            var coded := PythonGeneratorStep(BiExpertStep(queried, o), o);
            var pythonRun := PythonLoop(coded, o);
            var final := Pipeline(question, o);
            && final.question == question
            && final.maxNumRetriesDebug == DefaultMaxNumRetriesDebug
            && final.databaseSchemas == SchemaFallback(CatalogText(o.catalog))
            && sqlRun.tried[0] == o.writeSql(question, final.databaseSchemas)
            && 1 <= |sqlRun.tried| <= 3 && 1 <= |pythonRun.tried| <= 3
            && 0 <= final.numRetriesDebugSql <= 3
            && 0 <= final.numRetriesDebugPythonCodeDataVisualization <= 3
            && (final.resultDebugSql == Pass || final.resultDebugSql == NotPass)
            && (final.resultDebugSql == Pass ==>
                  && o.runQuery(final.query) == Ok(final.df)
                  && final.errorMsgDebugSql == "")
            && (final.resultDebugSql == NotPass ==>
                  && final.numRetriesDebugSql == 3
                  && final.df == EmptyFrame
                  && |final.errorMsgDebugSql| <= MaxCharactersErrorMsgDebug)
            && (final.resultDebugPythonCodeDataVisualization == Pass
                || final.resultDebugPythonCodeDataVisualization == NotPass)
            && (final.resultDebugPythonCodeDataVisualization == Pass ==>
                  o.execPython(final.pythonCodeDataVisualization, ExecGlobals(final.df))
                  == Ok(final.pythonCodeStoreVariablesDict))
            && (final.resultDebugPythonCodeDataVisualization == NotPass ==>
                  && final.numRetriesDebugPythonCodeDataVisualization == 3
                  && final.pythonCodeStoreVariablesDict == map[]
                  && |final.errorMsgDebugPythonCodeDataVisualization| <= MaxCharactersErrorMsgDebug)
  {
    var discovered := SearchStep(InitialState(question), o);
    var written := SqlWriterStep(discovered, o);
    var sqlRun := SqlLoop(written, o);
    LoopFromZero(SqlAttempt(written), written.maxNumRetriesDebug, o.runQuery, o.repairSql);
    LoopOutcome(SqlAttempt(written), written.maxNumRetriesDebug, o.runQuery, o.repairSql);
    var queried := WithSqlAttempt(written, sqlRun.last);
    var coded := PythonGeneratorStep(BiExpertStep(queried, o), o);
    var runner := PythonRunner(o, coded.df);
    LoopFromZero(PythonAttempt(coded), coded.maxNumRetriesDebug, runner, o.repairPython);
    LoopOutcome(PythonAttempt(coded), coded.maxNumRetriesDebug, runner, o.repairPython);
    var final := Pipeline(question, o);
    assert final.df == queried.df;
    if final.resultDebugPythonCodeDataVisualization == Pass {
      var lastTried := PythonLoop(coded, o).tried[|PythonLoop(coded, o).tried| - 1];
      assert final.pythonCodeDataVisualization == lastTried;
      assert runner(lastTried) == o.execPython(lastTried, ExecGlobals(final.df));
    }
  }

  // ---------------------------------------------------------------------------
  // The state record and its nodes
  // ---------------------------------------------------------------------------

  /** The pipeline state record, updated in place by each node. */
  class AgentState {
    var question: string
    var databaseSchemas: string
    var query: string
    var maxNumRetriesDebug: int
    var numRetriesDebugSql: int
    var resultDebugSql: DebugResult
    var errorMsgDebugSql: string
    var df: DataFrame
    var visualizationRequest: string
    var pythonCodeDataVisualization: string
    var pythonCodeStoreVariablesDict: Env
    var numRetriesDebugPythonCodeDataVisualization: int
    var resultDebugPythonCodeDataVisualization: DebugResult
    var errorMsgDebugPythonCodeDataVisualization: string

    /** The record's current value. */
    function Snapshot(): State
      reads this
    {
      State(question, databaseSchemas, query, maxNumRetriesDebug, numRetriesDebugSql, resultDebugSql,
            errorMsgDebugSql, df, visualizationRequest, pythonCodeDataVisualization,
            pythonCodeStoreVariablesDict, numRetriesDebugPythonCodeDataVisualization,
            resultDebugPythonCodeDataVisualization, errorMsgDebugPythonCodeDataVisualization)
    }

    /** The initial state of `run_workflow`. */
    constructor (question: string)
      ensures Snapshot() == InitialState(question)
      ensures this.question == question && maxNumRetriesDebug == 3
      ensures numRetriesDebugSql == 0 && numRetriesDebugPythonCodeDataVisualization == 0
      ensures databaseSchemas == query == errorMsgDebugSql == visualizationRequest == ""
      ensures pythonCodeDataVisualization == errorMsgDebugPythonCodeDataVisualization == ""
      ensures resultDebugSql == resultDebugPythonCodeDataVisualization == Unset
      ensures df == EmptyFrame && pythonCodeStoreVariablesDict == map[]
    {
      this.question := question;
      databaseSchemas := "";
      query := "";
      numRetriesDebugSql := 0;
      maxNumRetriesDebug := DefaultMaxNumRetriesDebug;
      resultDebugSql := Unset;
      errorMsgDebugSql := "";
      df := EmptyFrame;
      visualizationRequest := "";
      pythonCodeDataVisualization := "";
      pythonCodeStoreVariablesDict := map[];
      numRetriesDebugPythonCodeDataVisualization := 0;
      resultDebugPythonCodeDataVisualization := Unset;
      errorMsgDebugPythonCodeDataVisualization := "";
    }

    /** `search_tables_and_schemas`. */
    method SearchTablesAndSchemas(o: Oracles)
      modifies this
      ensures Snapshot() == SearchStep(old(Snapshot()), o)
    {
      var schemasAndTables := GetPostgresSchemasAndTables(o.catalog);
      if schemasAndTables != "" {
        databaseSchemas := schemasAndTables;
      } else {
        databaseSchemas := NoSchemaAvailable;
      }
    }

    /** `agent_sql_writer_node`: writes only the query. */
    method AgentSqlWriterNode(o: Oracles)
      modifies this
      ensures Snapshot() == SqlWriterStep(old(Snapshot()), o)
    {
      query := o.writeSql(question, databaseSchemas);
    }

    /** `agent_sql_validator_node`. */
    method AgentSqlValidatorNode(o: Oracles)
      modifies this
      ensures Snapshot() == SqlValidatorStep(old(Snapshot()), o)
    {
      match o.runQuery(query) {
        case Ok(rows) =>
          df := rows;
          resultDebugSql := Pass;
          errorMsgDebugSql := "";
        case Raised(e) =>
          numRetriesDebugSql := numRetriesDebugSql + 1;
          resultDebugSql := NotPass;
          errorMsgDebugSql := Truncate(e, MaxCharactersErrorMsgDebug);
          query := o.repairSql(query, errorMsgDebugSql);
      }
    }

    /** `agent_bi_expert_node`: writes only the visualization request. */
    method AgentBiExpertNode(o: Oracles)
      modifies this
      ensures Snapshot() == BiExpertStep(old(Snapshot()), o)
    {
      visualizationRequest := o.biExpert(question, query, df);
    }

    /** `agent_python_code_data_visualization_generator_node`: writes only the code. */
    method AgentPythonCodeDataVisualizationGeneratorNode(o: Oracles)
      modifies this
      ensures Snapshot() == PythonGeneratorStep(old(Snapshot()), o)
    {
      pythonCodeDataVisualization := o.writePython(visualizationRequest, df);
    }

    /** `agent_python_code_data_visualization_validator_node`. */
    method AgentPythonCodeDataVisualizationValidatorNode(o: Oracles)
      modifies this
      ensures Snapshot() == PythonValidatorStep(old(Snapshot()), o)
    {
      var execGlobals := ExecGlobals(df);
      match o.execPython(pythonCodeDataVisualization, execGlobals) {
        case Ok(globals) =>
          pythonCodeStoreVariablesDict := globals;
          resultDebugPythonCodeDataVisualization := Pass;
          errorMsgDebugPythonCodeDataVisualization := "";
        case Raised(e) =>
          numRetriesDebugPythonCodeDataVisualization := numRetriesDebugPythonCodeDataVisualization + 1;
          resultDebugPythonCodeDataVisualization := NotPass;
          errorMsgDebugPythonCodeDataVisualization := Truncate(e, MaxCharactersErrorMsgDebug);
          pythonCodeDataVisualization :=
            o.repairPython(pythonCodeDataVisualization, errorMsgDebugPythonCodeDataVisualization);
      }
    }
  }

  /**
   * `run_workflow`: build the initial state and walk the graph from schema
   * discovery to END, executing each node on the one state record.
   */
  method RunWorkflow(question: string, o: Oracles) returns (state: AgentState)
    ensures fresh(state)
    ensures state.Snapshot() == RunFrom(SearchTablesAndSchemas, InitialState(question), o)
  {
    state := new AgentState(question);
    var node := SearchTablesAndSchemas;
    while node != End
      invariant RunFrom(node, state.Snapshot(), o) == RunFrom(SearchTablesAndSchemas, InitialState(question), o)
      decreases Rank(node), Left(SqlAttempt(state.Snapshot()), state.maxNumRetriesDebug),
                Left(PythonAttempt(state.Snapshot()), state.maxNumRetriesDebug)
    {
      ghost var before := state.Snapshot();
      match node {
        case SearchTablesAndSchemas => state.SearchTablesAndSchemas(o);
        case AgentSqlWriter => state.AgentSqlWriterNode(o);
        case AgentSqlValidator => state.AgentSqlValidatorNode(o);
        case AgentBiExpert => state.AgentBiExpertNode(o);
        case AgentPythonCodeDataVisualizationGenerator => state.AgentPythonCodeDataVisualizationGeneratorNode(o);
        case AgentPythonCodeDataVisualizationValidator => state.AgentPythonCodeDataVisualizationValidatorNode(o);
      }
      assert state.Snapshot() == Execute(node, before, o);
      StepDecreases(node, before, o);
      node := Next(node, state.Snapshot());
    }
  }
}
