/**
 * The retry-bounded repair loop that both validator nodes follow.
 *
 * A validator executes the current candidate (a SQL query or a piece of
 * Python). On success it records "Pass", clears the error and stores what the
 * execution produced. On failure it adds one to its retry counter, records
 * "Not Pass", keeps the first 300 characters of the exception text and
 * replaces the candidate by the repair step's answer (the language model's
 * completion, with its code block extracted). The graph re-enters the
 * validator until it passes or the counter reaches the retry budget.
 *
 * `Attempt` gathers the five fields of the pipeline state that one loop owns;
 * the workflow projects the state onto it for the SQL loop and for the Python
 * loop.
 */
module RepairLoop {
  import opened Executors

  /** The outcome of the latest execution: "", "Pass" or "Not Pass". */
  datatype DebugResult = Unset | Pass | NotPass

  /** The longest error text a validator keeps. */
  const MaxCharactersErrorMsgDebug: nat := 300

  /** Python's `s[:n]`: the first `n` characters, or all of `s` when it is shorter. */
  function Truncate(s: string, n: nat): (r: string)
    ensures r <= s
    ensures |r| == if |s| <= n then |s| else n
  {
    if |s| <= n then s else s[..n]
  }

  /**
   * The fields one repair loop owns: the candidate to execute, the retry
   * counter, the latest outcome, the latest (truncated) error text and what
   * the latest successful execution produced.
   */
  datatype Attempt<R> = Attempt(candidate: string, retries: int, result: DebugResult, error: string, output: R)

  /**
   * One execution of a validator node. `run` executes a candidate; `repair`
   * maps the failing candidate and the truncated error to a new candidate.
   */
  function Validate<R>(a: Attempt<R>, run: string -> ExecResult<R>, repair: (string, string) -> string)
    : (b: Attempt<R>)
    ensures b.result != Unset
    ensures b.result == Pass <==> run(a.candidate).Ok?
    ensures b.result == Pass ==>
              && b.output == run(a.candidate).value
              && b.error == ""
              && b.retries == a.retries
              && b.candidate == a.candidate
    ensures b.result == NotPass ==>
              && b.retries == a.retries + 1
              && b.error == Truncate(run(a.candidate).message, MaxCharactersErrorMsgDebug)
              && |b.error| <= MaxCharactersErrorMsgDebug
              && b.error <= run(a.candidate).message
              && b.candidate == repair(a.candidate, b.error)
              && b.output == a.output
  {
    match run(a.candidate)
    case Ok(v) => a.(result := Pass, error := "", output := v)
    case Raised(e) =>
      var msg := Truncate(e, MaxCharactersErrorMsgDebug);
      a.(retries := a.retries + 1, result := NotPass, error := msg, candidate := repair(a.candidate, msg))
  }

  /**
   * What holds of a loop's fields at any time, starting from `initial` as
   * the stored output: the counter is never negative; before the first
   * execution nothing is recorded; "Pass" goes with an empty error; "Not
   * Pass" follows at least one counted failure; and the error text never
   * exceeds 300 characters.
   */
  predicate Consistent<R(==)>(a: Attempt<R>, initial: R)
  {
    && a.retries >= 0
    && (a.result == Unset ==> a.retries == 0 && a.error == "" && a.output == initial)
    && (a.result == Pass ==> a.error == "")
    && (a.result == NotPass ==> a.retries >= 1)
    && |a.error| <= MaxCharactersErrorMsgDebug
  }

  /** One execution of a validator keeps its fields consistent. */
  lemma ValidateKeepsConsistent<R>(a: Attempt<R>, run: string -> ExecResult<R>,
                                   repair: (string, string) -> string, initial: R)
    ensures Consistent(a, initial) ==> Consistent(Validate(a, run, repair), initial)
  {
  }

  /** The exit test of the conditional edge after a validator. */
  predicate Exits<R>(a: Attempt<R>, budget: int)
  {
    a.result == Pass || a.retries >= budget
  }

  /** How many more failures the budget allows. */
  function Left<R>(a: Attempt<R>, budget: int): nat
  {
    if a.retries < budget then budget - a.retries else 0
  }

  /** Where a loop ended, and every candidate it executed, in order. */
  datatype LoopRun<R> = LoopRun(last: Attempt<R>, tried: seq<string>)

  /**
   * The validator re-entered until the exit test holds. Every re-entry follows
   * a failure that raised the counter, so the loop stops; it executes at least
   * one candidate, the one it was entered with, and ends where the exit test
   * holds.
   */
  function Loop<R>(a: Attempt<R>, budget: int, run: string -> ExecResult<R>, repair: (string, string) -> string)
    : (r: LoopRun<R>)
    ensures |r.tried| >= 1 && r.tried[0] == a.candidate
    ensures Exits(r.last, budget)
    ensures r.last.result != Unset
    decreases Left(a, budget)
  {
    var b := Validate(a, run, repair);
    if Exits(b, budget) then LoopRun(b, [a.candidate])
    else
      var rest := Loop(b, budget, run, repair);
      LoopRun(rest.last, [a.candidate] + rest.tried)
  }

  /** The larger of 1 and the retry budget. */
  function AtLeastOne(budget: int): nat
  {
    if budget < 1 then 1 else budget
  }

  /**
   * The trace of a loop: each executed candidate but the last failed, and the
   * next one is the repair of it with its truncated error; the counter grew
   * by one per failure.
   */
  lemma {:induction false} LoopTrace<R>(a: Attempt<R>, budget: int, run: string -> ExecResult<R>,
                                        repair: (string, string) -> string)
    ensures var r := Loop(a, budget, run, repair);
            && r.last.retries == a.retries + |r.tried| - (if r.last.result == Pass then 1 else 0)
            && forall k :: 0 <= k < |r.tried| - 1 ==>
                 && run(r.tried[k]).Raised?
                 && r.tried[k + 1] == repair(r.tried[k], Truncate(run(r.tried[k]).message, MaxCharactersErrorMsgDebug))
    decreases Left(a, budget)
  {
    var b := Validate(a, run, repair);
    if !Exits(b, budget) {
      LoopTrace(b, budget, run, repair);
      var rest := Loop(b, budget, run, repair);
      assert rest.tried[0] == b.candidate;
    }
  }

  /**
   * How a loop ends. With "Pass" the stored output is what the last executed
   * candidate produced and that candidate is still the current one. With
   * "Not Pass" the output is the one the loop was entered with, the error is
   * the last failure's truncated text, and the current candidate is the repair
   * of the last executed one: it was never executed.
   */
  lemma {:induction false} LoopOutcome<R>(a: Attempt<R>, budget: int, run: string -> ExecResult<R>,
                                          repair: (string, string) -> string)
    ensures var r := Loop(a, budget, run, repair);
            var lastTried := r.tried[|r.tried| - 1];
            && (r.last.result == Pass <==> run(lastTried).Ok?)
            && (r.last.result == Pass ==>
                  && r.last.candidate == lastTried
                  && r.last.output == run(lastTried).value
                  && r.last.error == "")
            && (r.last.result == NotPass ==>
                  && r.last.output == a.output
                  && r.last.error == Truncate(run(lastTried).message, MaxCharactersErrorMsgDebug)
                  && r.last.candidate == repair(lastTried, r.last.error))
    decreases Left(a, budget)
  {
    var b := Validate(a, run, repair);
    if !Exits(b, budget) {
      LoopOutcome(b, budget, run, repair);
    }
  }

  /**
   * The number of executions. A loop entered with a non-negative counter
   * executes at most max(1, budget - counter) candidates, and exactly that
   * many when it ends with "Not Pass".
   */
  lemma {:induction false} LoopExecutions<R>(a: Attempt<R>, budget: int, run: string -> ExecResult<R>,
                                             repair: (string, string) -> string)
    requires a.retries >= 0
    ensures var r := Loop(a, budget, run, repair);
            && |r.tried| <= AtLeastOne(budget - a.retries)
            && (r.last.result == NotPass ==> |r.tried| == AtLeastOne(budget - a.retries))
    decreases Left(a, budget)
  {
    var b := Validate(a, run, repair);
    if !Exits(b, budget) {
      LoopExecutions(b, budget, run, repair);
    }
  }

  /**
   * A loop entered with a zero counter, as both validators are, runs at most
   * max(1, budget) executions. Its counter ends at most at max(1, budget),
   * and exactly there when it ends with "Not Pass": with a budget of 0 one
   * execution still happens and a failure leaves the counter at 1, above the
   * budget.
   */
  lemma LoopFromZero<R>(a: Attempt<R>, budget: int, run: string -> ExecResult<R>,
                        repair: (string, string) -> string)
    requires a.retries == 0
    ensures var r := Loop(a, budget, run, repair);
            && 1 <= |r.tried| <= AtLeastOne(budget)
            && 0 <= r.last.retries <= AtLeastOne(budget)
            && (r.last.result == NotPass ==> r.last.retries == |r.tried| == AtLeastOne(budget))
            && (r.last.result == Pass ==> r.last.retries == |r.tried| - 1)
  {
    LoopTrace(a, budget, run, repair);
    LoopExecutions(a, budget, run, repair);
  }
}
