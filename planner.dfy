/**
 * `PlannerAgent`: builds a fixed financial-QA plan for a query, executes it step by step
 * while recording every step in its memory store, and summarises the store.
 *
 * The wall clock and the memory-id generator are one injected source: the agent's `k`-th
 * reading of either yields `stamp(k)`. Step execution is an injected `Runner`; the agent's
 * own simulated executor is `BuiltIn`.
 */
module Planner {
  import opened Wrappers
  import opened Text
  import opened PyValue
  import opened DateTimes
  import opened Memories
  import opened MemoryStores

  datatype StepStatus = Pending | Executing | Completed | Failed

  datatype PlanStep = PlanStep(
    stepId: int,
    action: string,
    description: string,
    parameters: map<string, Value>,
    status: StepStatus,
    result: Option<string>,
    startTime: Option<DateTime>,
    endTime: Option<DateTime>)

  /** An entry of `executed_actions`. */
  datatype ExecutedAction = ExecutedAction(stepId: int, action: string, status: StepStatus, result: string)

  datatype PlannerState = PlannerState(
    query: string,
    currentStep: int,
    plan: seq<PlanStep>,
    executedActions: seq<ExecutedAction>,
    context: map<string, Value>,
    error: Option<string>,
    finalResult: Option<string>)

  /** One reading of the clock and id generator. */
  datatype Stamp = Stamp(id: string, time: DateTime)

  /** Executes the step with the given action and parameters for the query; `Err` is a raised exception. */
  type Runner = (string, map<string, Value>, string) -> Result<string>

  datatype MemorySummary = MemorySummary(
    totalRecentMemories: nat,
    memoryTypes: map<string, nat>,
    latestMemory: Option<map<string, Value>>)

  /** `_initialize_actions`. */
  const AvailableActions: map<string, string> := map[
    "query_understanding" := "理解和解析用户查询",
    "information_retrieval" := "检索相关信息",
    "sql_generation" := "生成SQL查询",
    "data_analysis" := "分析数据",
    "answer_generation" := "生成最终答案",
    "validation" := "验证结果",
    "error_handling" := "处理错误"]

  /** The plan of every query, in order; `sql_generation` goes third when the query asks for data. */
  const BaseSteps: seq<(string, string)> := [
    ("query_understanding", "解析用户查询，提取关键信息"),
    ("information_retrieval", "检索相关的金融数据和信息"),
    ("data_analysis", "分析数据，执行必要的计算"),
    ("answer_generation", "基于分析结果生成答案"),
    ("validation", "验证答案的准确性和完整性")]

  const SqlStep: (string, string) := ("sql_generation", "生成SQL查询语句")

  const SqlKeywords: seq<string> := ["查询", "数据", "股票", "价格", "日期"]

  /** Some keyword occurs in the lower-cased query. */
  predicate NeedsSql(query: string)
  {
    exists k :: k in SqlKeywords && Contains(Lower(query), k)
  }

  /** The (action, description) pairs of the plan for `query`, in execution order. */
  function PlanTemplate(query: string): seq<(string, string)>
  {
    if NeedsSql(query) then BaseSteps[..2] + [SqlStep] + BaseSteps[2..] else BaseSteps
  }

  /** The action-specific parameters added by `_get_step_parameters`. */
  function ExtraParameters(action: string): map<string, Value>
  {
    if action == "sql_generation" then
      map["database_schema" := Str("financial_data"),
          "table_hints" := List([Str("stock_data"), Str("company_info"), Str("market_data")])]
    else if action == "information_retrieval" then
      map["search_domains" := List([Str("financial"), Str("market"), Str("company")]),
          "max_results" := Int(10)]
    else map[]
  }

  /**
   * `_get_step_parameters`: the query, overridden by the context's entries, overridden in turn
   * by the action's own parameters. A missing context and an empty one are the same here.
   */
  function StepParameters(action: string, query: string, context: map<string, Value>): map<string, Value>
  {
    map["query" := Str(query)] + context + ExtraParameters(action)
  }

  /** Which keys the step parameters hold and which source wins for each. */
  lemma StepParametersFacts(action: string, query: string, context: map<string, Value>)
    ensures var r := StepParameters(action, query, context);
      && r.Keys == {"query"} + context.Keys + ExtraParameters(action).Keys
      && (forall k :: k in ExtraParameters(action) ==> r[k] == ExtraParameters(action)[k])
      && (forall k :: k in context && k !in ExtraParameters(action) ==> r[k] == context[k])
      && r["query"] == if "query" in context then context["query"] else Str(query)
  {
  }

  /** Step `i` (counted from 0) of a fresh plan: numbered from 1, pending, with its parameters. */
  function PendingStep(i: nat, action: string, description: string, query: string, context: map<string, Value>): PlanStep
  {
    PlanStep(i + 1, action, description, StepParameters(action, query, context), Pending, None, None, None)
  }

  /** The plan `create_plan` returns. */
  function PlanSteps(query: string, context: map<string, Value>): seq<PlanStep>
  {
    var t := PlanTemplate(query);
    seq(|t|, i requires 0 <= i < |t| => PendingStep(i, t[i].0, t[i].1, query, context))
  }

  /**
   * The plan has five steps, or six when the query asks for data; steps are numbered from 1,
   * pending, not yet started, and carry the parameters of their action.
   */
  lemma PlanShape(query: string, context: map<string, Value>)
    ensures var r := PlanSteps(query, context);
      && |r| == (if NeedsSql(query) then 6 else 5)
      && forall i :: 0 <= i < |r| ==>
           r[i].stepId == i + 1 && r[i].status == Pending && r[i].result.None?
           && r[i].startTime.None? && r[i].endTime.None?
           && r[i].parameters == StepParameters(r[i].action, query, context)
  {
  }

  /** Every planned action is one of the agent's available actions. */
  lemma PlanActionsKnown(query: string, context: map<string, Value>)
    ensures forall s :: s in PlanSteps(query, context) ==> s.action in AvailableActions
  {
    var t := PlanTemplate(query);
    assert forall p :: p in t ==> p.0 in AvailableActions;
  }

  /** The actions of a plan, in order. */
  function ActionsOf(steps: seq<PlanStep>): (r: seq<string>)
    ensures |r| == |steps| && forall i :: 0 <= i < |steps| ==> r[i] == steps[i].action
  {
    seq(|steps|, i requires 0 <= i < |steps| => steps[i].action)
  }

  /**
   * The plan runs the five base actions in their fixed order, with `sql_generation` inserted as
   * the third step exactly when the query asks for data; each step keeps its template description.
   */
  lemma PlanOrder(query: string, context: map<string, Value>)
    ensures var r := PlanSteps(query, context);
      && ActionsOf(r) == (if NeedsSql(query)
           then ["query_understanding", "information_retrieval", "sql_generation",
                 "data_analysis", "answer_generation", "validation"]
           else ["query_understanding", "information_retrieval",
                 "data_analysis", "answer_generation", "validation"])
      && (NeedsSql(query) ==> r[2] == PendingStep(2, SqlStep.0, SqlStep.1, query, context))
      && (forall i :: 0 <= i < |r| ==> r[i].description == PlanTemplate(query)[i].1)
      && r[0].action == "query_understanding" && r[|r| - 1].action == "validation"
      && (NeedsSql(query) <==> exists i :: 0 <= i < |r| && r[i].action == "sql_generation")
  {
    var r := PlanSteps(query, context);
    var t := PlanTemplate(query);
    var a := ActionsOf(r);
    if NeedsSql(query) {
      assert t == [BaseSteps[0], BaseSteps[1], SqlStep, BaseSteps[2], BaseSteps[3], BaseSteps[4]];
      assert r[2].action == "sql_generation";
      assert a == [a[0], a[1], a[2], a[3], a[4], a[5]];
    } else {
      assert a == [a[0], a[1], a[2], a[3], a[4]];
      assert forall i :: 0 <= i < |r| ==> r[i].action != "sql_generation";
    }
  }

  /** `_execute_step`, the simulated executor: a canned result per known action. */
  function ExecuteStep(action: string, query: string): (r: string)
    ensures r != ""
  {
    if action == "query_understanding" then "解析查询: " + PyTake(query, 50) + "..."
    else if action == "information_retrieval" then "检索到相关金融数据"
    else if action == "sql_generation" then "生成SQL查询: SELECT * FROM stock_data WHERE..."
    else if action == "data_analysis" then "完成数据分析，发现关键指标"
    else if action == "answer_generation" then "基于分析结果生成详细答案"
    else if action == "validation" then "验证答案准确性通过"
    else "执行了 " + action
  }

  const BuiltIn: Runner := (action: string, parameters: map<string, Value>, query: string) => Ok(ExecuteStep(action, query))

  /** The bullet lines of the final answer: one per non-empty step result, in order. */
  function ResultLines(actions: seq<ExecutedAction>): seq<string>
  {
    if actions == [] then []
    else (if actions[0].result != "" then ["- " + actions[0].result] else []) + ResultLines(actions[1..])
  }

  /** Every non-empty result has its bullet line, every line is a bullet, and there are at most as many lines as actions. */
  lemma {:induction false} ResultLinesFacts(actions: seq<ExecutedAction>)
    ensures |ResultLines(actions)| <= |actions|
    ensures forall i :: 0 <= i < |actions| && actions[i].result != "" ==> "- " + actions[i].result in ResultLines(actions)
    ensures forall l :: l in ResultLines(actions) ==> StartsWith(l, "- ")
  {
    if actions != [] {
      ResultLinesFacts(actions[1..]);
      assert forall i :: 1 <= i < |actions| ==> actions[i] == actions[1..][i - 1];
    }
  }

  /** `_generate_final_result`. */
  function FinalResult(actions: seq<ExecutedAction>, query: string): string
  {
    if actions == [] then "未能生成有效结果"
    else Header(|actions|, query) + "生成的答案：\n" + Join("\n", ResultLines(actions))
  }

  /** The opening of the final answer: how many steps ran, for which query. */
  function Header(steps: nat, query: string): string
  {
    "基于" + NatToString(steps) + "个步骤的执行结果，为查询'" + query + "'"
  }

  function PlanSummary(query: string, steps: nat): string
  {
    "为查询'" + PyTake(query, 50) + "...'生成了" + NatToString(steps) + "步计划"
  }

  /** `not state.get("error")`: no error, or an empty message. */
  predicate ErrorTruthy(e: Option<string>) { e.Some? && e.value != "" }

  function StampedMemory(stamp: nat -> Stamp, tick: nat, content: string, kind: string,
                         metadata: map<string, Value>): Memory
  {
    Memory(stamp(tick).id, content, kind, stamp(tick).time, 0.0, metadata)
  }

  function Outcome(s: PlanStep, query: string, run: Runner): Result<string>
  {
    run(s.action, s.parameters, query)
  }

  /** How many steps succeed before the first one that raises. */
  function CompletedCount(steps: seq<PlanStep>, query: string, run: Runner): (k: nat)
    ensures k <= |steps|
    ensures k < |steps| ==> Outcome(steps[k], query, run).Err?
  {
    if steps == [] || Outcome(steps[0], query, run).Err? then 0
    else 1 + CompletedCount(steps[1..], query, run)
  }

  /** Every step before the first one that raises completes. */
  lemma {:induction false} CompletedBefore(steps: seq<PlanStep>, query: string, run: Runner, j: nat)
    requires j < CompletedCount(steps, query, run)
    ensures Outcome(steps[j], query, run).Ok?
  {
    if j > 0 {
      CompletedBefore(steps[1..], query, run, j - 1);
      assert steps[1..][j - 1] == steps[j];
    }
  }

  function StartContent(s: PlanStep): string
  {
    "执行步骤 " + IntToString(s.stepId) + ": " + s.action + " - " + s.description
  }

  function DoneContent(s: PlanStep, result: string): string
  {
    "步骤 " + IntToString(s.stepId) + " 执行完成: " + result
  }

  function ErrorMessage(s: PlanStep, e: string): string
  {
    "步骤 " + IntToString(s.stepId) + " 执行失败: " + e
  }

  /** The memory recorded when step `s` starts, at clock reading `tick`. */
  function StartMemory(stamp: nat -> Stamp, tick: nat, s: PlanStep): Memory
  {
    StampedMemory(stamp, tick, StartContent(s), "action", map["step_id" := Int(s.stepId), "action" := Str(s.action)])
  }

  /** The memory recorded when step `s` ends with `outcome`, at clock reading `tick`. */
  function EndMemory(stamp: nat -> Stamp, tick: nat, s: PlanStep, outcome: Result<string>): Memory
  {
    match outcome
    case Ok(r) =>
      StampedMemory(stamp, tick, DoneContent(s, r), "result", map["step_id" := Int(s.stepId), "action" := Str(s.action)])
    case Err(e) =>
      StampedMemory(stamp, tick, ErrorMessage(s, e), "result", map["step_id" := Int(s.stepId), "error" := Bool(true)])
  }

  /** The two memories one step leaves when it starts at clock reading `tick`. */
  function StepTrail(stamp: nat -> Stamp, s: PlanStep, outcome: Result<string>, tick: nat): seq<Memory>
  {
    [StartMemory(stamp, tick + 1, s), EndMemory(stamp, tick + 3, s, outcome)]
  }

  /** The step once started at clock reading `tick`. */
  function StartedStep(s: PlanStep, stamp: nat -> Stamp, tick: nat): PlanStep
  {
    s.(startTime := Some(stamp(tick).time), status := Executing)
  }

  /** The started step once it ended with `outcome` at clock reading `tick`. */
  function FinishedStep(s: PlanStep, outcome: Result<string>, stamp: nat -> Stamp, tick: nat): PlanStep
  {
    match outcome
    case Ok(r) => s.(endTime := Some(stamp(tick).time), result := Some(r), status := Completed)
    case Err(_) => s.(status := Failed, endTime := Some(stamp(tick).time))
  }

  /** The memories of running `steps` one after another from clock reading `tick`. */
  function RunTrail(stamp: nat -> Stamp, steps: seq<PlanStep>, query: string, run: Runner, tick: nat): (r: seq<Memory>)
    ensures |r| == 2 * |steps|
  {
    if steps == [] then []
    else
      var n := |steps| - 1;
      RunTrail(stamp, steps[..n], query, run, tick) + StepTrail(stamp, steps[n], Outcome(steps[n], query, run), tick + 4 * n)
  }

  function DoneStep(s: PlanStep, result: string, stamp: nat -> Stamp, tick: nat): PlanStep
  {
    s.(status := Completed, result := Some(result),
       startTime := Some(stamp(tick).time), endTime := Some(stamp(tick + 2).time))
  }

  function FailedStep(s: PlanStep, stamp: nat -> Stamp, tick: nat): PlanStep
  {
    s.(status := Failed, startTime := Some(stamp(tick).time), endTime := Some(stamp(tick + 2).time))
  }

  function ResultOf(o: Result<string>): string
  {
    if o.Ok? then o.value else ""
  }

  /** `executed_actions` after the given steps all completed. */
  function ExecutedActions(steps: seq<PlanStep>, query: string, run: Runner): (r: seq<ExecutedAction>)
    ensures |r| == |steps|
  {
    seq(|steps|, j requires 0 <= j < |steps| =>
      ExecutedAction(steps[j].stepId, steps[j].action, Completed, ResultOf(Outcome(steps[j], query, run))))
  }

  /** Step `j` of the plan after `execute_plan`, which started at clock reading `tick`. */
  function ExecutedStep(steps: seq<PlanStep>, query: string, run: Runner, stamp: nat -> Stamp, tick: nat, j: nat): PlanStep
    requires j < |steps|
  {
    var k := CompletedCount(steps, query, run);
    if j < k then DoneStep(steps[j], ResultOf(Outcome(steps[j], query, run)), stamp, tick + 4 * j)
    else if j == k then FailedStep(steps[j], stamp, tick + 4 * j)
    else steps[j]
  }

  /** The plan after `execute_plan`. */
  function ExecutedSteps(steps: seq<PlanStep>, query: string, run: Runner, stamp: nat -> Stamp, tick: nat): (r: seq<PlanStep>)
    ensures |r| == |steps|
  {
    seq(|steps|, j requires 0 <= j < |steps| => ExecutedStep(steps, query, run, stamp, tick, j))
  }

  /** How many steps `execute_plan` attempts: the completed ones and the one that fails. */
  function Attempted(steps: seq<PlanStep>, query: string, run: Runner): (n: nat)
    ensures n <= |steps|
  {
    var k := CompletedCount(steps, query, run);
    if k < |steps| then k + 1 else k
  }

  /** The error message of the step that raised, if one did. */
  function Failure(steps: seq<PlanStep>, query: string, run: Runner): Option<string>
  {
    var k := CompletedCount(steps, query, run);
    if k < |steps| then Some(ErrorMessage(steps[k], Outcome(steps[k], query, run).error)) else None
  }

  /** `state["error"]` after `execute_plan`: the failure, or else the error the state already had. */
  function ExecutionError(steps: seq<PlanStep>, error: Option<string>, query: string, run: Runner): Option<string>
  {
    var f := Failure(steps, query, run);
    if f.Some? then f else error
  }

  /** The step as `execute_plan` leaves it after attempting it from clock reading `tick`. */
  function AttemptedStep(s: PlanStep, outcome: Result<string>, stamp: nat -> Stamp, tick: nat): PlanStep
  {
    if outcome.Ok? then DoneStep(s, outcome.value, stamp, tick) else FailedStep(s, stamp, tick)
  }

  /** The state `execute_plan` returns. */
  function ExecutedState(steps: seq<PlanStep>, state: PlannerState, run: Runner, stamp: nat -> Stamp, tick: nat): PlannerState
  {
    var k := CompletedCount(steps, state.query, run);
    ConcludedState(state, ExecutedSteps(steps, state.query, run, stamp, tick), ExecutedActions(steps[..k], state.query, run),
                   ExecutionError(steps, state.error, state.query, run), k)
  }

  /** The state `execute_plan` builds after its loop: the final answer is set only when no error is. */
  function ConcludedState(state: PlannerState, plan: seq<PlanStep>, executed: seq<ExecutedAction>, error: Option<string>,
                          completed: nat): PlannerState
  {
    state.(currentStep := completed + 1, executedActions := executed, plan := plan, error := error,
           finalResult := if ErrorTruthy(error) then state.finalResult else Some(FinalResult(executed, state.query)))
  }

  /** The memory `execute_plan` stores at the end: the final answer, unless an error is set. */
  function FinalMemories(steps: seq<PlanStep>, state: PlannerState, run: Runner, stamp: nat -> Stamp, tick: nat): seq<Memory>
  {
    var k := CompletedCount(steps, state.query, run);
    CompletionMemories(stamp, tick + 4 * Attempted(steps, state.query, run), ExecutedActions(steps[..k], state.query, run),
                       state.query, ExecutionError(steps, state.error, state.query, run))
  }

  /** The final-answer memory for the given executed actions, stored at clock reading `tick` unless `error` is set. */
  function CompletionMemories(stamp: nat -> Stamp, tick: nat, executed: seq<ExecutedAction>, query: string,
                              error: Option<string>): seq<Memory>
  {
    if ErrorTruthy(error) then []
    else [StampedMemory(stamp, tick, "计划执行完成，最终结果: " + FinalResult(executed, query), "result",
                        map["query" := Str(query), "steps_completed" := Int(|executed|)])]
  }

  /** The clock readings `execute_plan` makes: four per attempted step, one more for the final memory. */
  function ExecutionTicks(steps: seq<PlanStep>, state: PlannerState, run: Runner): nat
  {
    4 * Attempted(steps, state.query, run)
    + (if ErrorTruthy(ExecutionError(steps, state.error, state.query, run)) then 0 else 1)
  }

  lemma RunTrailSnoc(stamp: nat -> Stamp, steps: seq<PlanStep>, query: string, run: Runner, tick: nat, i: nat)
    requires i < |steps|
    ensures RunTrail(stamp, steps[..i + 1], query, run, tick)
      == RunTrail(stamp, steps[..i], query, run, tick) + StepTrail(stamp, steps[i], Outcome(steps[i], query, run), tick + 4 * i)
  {
    assert steps[..i + 1][..i] == steps[..i];
  }

  /** The memories after one more attempted step. */
  lemma TrailStep(stamp: nat -> Stamp, steps: seq<PlanStep>, query: string, run: Runner, tick: nat, m0: seq<Memory>, i: nat)
    requires i < |steps|
    ensures m0 + RunTrail(stamp, steps[..i], query, run, tick) + StepTrail(stamp, steps[i], Outcome(steps[i], query, run), tick + 4 * i)
      == m0 + RunTrail(stamp, steps[..i + 1], query, run, tick)
  {
    RunTrailSnoc(stamp, steps, query, run, tick, i);
  }

  /** Memories that extend the trail of the first `i` steps by the trail of step `i` are the trail of the first `i + 1`. */
  lemma TrailExtends(stamp: nat -> Stamp, steps: seq<PlanStep>, query: string, run: Runner, tick: nat,
                     m0: seq<Memory>, i: nat, before: seq<Memory>, outcome: Result<string>, after: seq<Memory>)
    requires i < |steps|
    requires before == m0 + RunTrail(stamp, steps[..i], query, run, tick)
    requires outcome == Outcome(steps[i], query, run)
    requires after == before + StepTrail(stamp, steps[i], outcome, tick + 4 * i)
    ensures after == m0 + RunTrail(stamp, steps[..i + 1], query, run, tick)
  {
    TrailStep(stamp, steps, query, run, tick, m0, i);
  }

  lemma ExecutedActionsSnoc(steps: seq<PlanStep>, query: string, run: Runner, i: nat)
    requires i < |steps| && Outcome(steps[i], query, run).Ok?
    ensures ExecutedActions(steps[..i + 1], query, run)
      == ExecutedActions(steps[..i], query, run)
         + [ExecutedAction(steps[i].stepId, steps[i].action, Completed, Outcome(steps[i], query, run).value)]
  {
  }

  /**
   * Where the loop of `execute_plan` stands: steps attempted, steps completed, the failure
   * message, the executed actions, the plan and the memories stored so far.
   */
  datatype Run = Run(done: nat, completed: nat, failure: Option<string>, executed: seq<ExecutedAction>,
                     plan: seq<PlanStep>, memories: seq<Memory>)

  /** `n` is the loop state after attempting step `g.completed`, `step`, with the given outcome. */
  ghost predicate Stepped(g: Run, n: Run, step: PlanStep, outcome: Result<string>, stamp: nat -> Stamp, tick: nat)
  {
    var i := g.completed;
    && i < |g.plan|
    && n.done == i + 1 && n.completed == (if outcome.Ok? then i + 1 else i)
    && n.failure == (if outcome.Ok? then None else Some(ErrorMessage(step, outcome.error)))
    && n.executed == (if outcome.Ok? then g.executed + [ExecutedAction(step.stepId, step.action, Completed, outcome.value)]
                      else g.executed)
    && n.plan == g.plan[i := AttemptedStep(step, outcome, stamp, tick + 4 * i)]
    && n.memories == g.memories + StepTrail(stamp, step, outcome, tick + 4 * i)
  }

  /** The plan once the first `d` steps have been attempted. */
  function PlanAfter(steps: seq<PlanStep>, query: string, run: Runner, stamp: nat -> Stamp, tick: nat, d: nat): (r: seq<PlanStep>)
    ensures |r| == |steps|
  {
    seq(|steps|, j requires 0 <= j < |steps| => if j < d then ExecutedStep(steps, query, run, stamp, tick, j) else steps[j])
  }

  /** Attempting step `d` changes that step and no other. */
  lemma PlanAfterStep(steps: seq<PlanStep>, query: string, run: Runner, stamp: nat -> Stamp, tick: nat, d: nat)
    requires d < |steps|
    ensures PlanAfter(steps, query, run, stamp, tick, d)[d] == steps[d]
    ensures PlanAfter(steps, query, run, stamp, tick, d + 1)
      == PlanAfter(steps, query, run, stamp, tick, d)[d := ExecutedStep(steps, query, run, stamp, tick, d)]
  {
  }

  /** Once every attempted step has been attempted, the plan is the executed plan. */
  lemma PlanAfterAll(steps: seq<PlanStep>, query: string, run: Runner, stamp: nat -> Stamp, tick: nat)
    ensures PlanAfter(steps, query, run, stamp, tick, Attempted(steps, query, run)) == ExecutedSteps(steps, query, run, stamp, tick)
  {
    var p, r := PlanAfter(steps, query, run, stamp, tick, Attempted(steps, query, run)), ExecutedSteps(steps, query, run, stamp, tick);
    forall j | 0 <= j < |steps| ensures p[j] == r[j] {
      assert r[j] == ExecutedStep(steps, query, run, stamp, tick, j);
    }
  }

  /** A step up to the first failure completes iff it comes before the failure. */
  lemma CompletesIff(steps: seq<PlanStep>, query: string, run: Runner, i: nat)
    requires i <= CompletedCount(steps, query, run) && i < |steps|
    ensures Outcome(steps[i], query, run).Ok? <==> i < CompletedCount(steps, query, run)
  {
    if i < CompletedCount(steps, query, run) {
      CompletedBefore(steps, query, run, i);
    }
  }

  /** A step attempted before the first failure ends as `AttemptedStep` says. */
  lemma StepOutcome(steps: seq<PlanStep>, query: string, run: Runner, stamp: nat -> Stamp, tick: nat, i: nat)
    requires i <= CompletedCount(steps, query, run) && i < |steps|
    ensures ExecutedStep(steps, query, run, stamp, tick, i)
      == AttemptedStep(steps[i], Outcome(steps[i], query, run), stamp, tick + 4 * i)
  {
    CompletesIff(steps, query, run, i);
  }

  /** How far the loop has come: completed steps, attempted steps and the failure, if any, agree with `steps`. */
  ghost predicate Counted(steps: seq<PlanStep>, query: string, run: Runner, g: Run)
  {
    && g.completed <= CompletedCount(steps, query, run) <= |steps| == |g.plan|
    && g.done == (if g.failure.Some? then g.completed + 1 else g.completed)
    && (g.failure.Some? ==> g.completed == CompletedCount(steps, query, run) < |steps|
                            && g.failure == Failure(steps, query, run))
  }

  /** The loop state agrees with running `steps` from clock reading `tick`. */
  ghost predicate Progress(steps: seq<PlanStep>, query: string, run: Runner, stamp: nat -> Stamp, tick: nat,
                           m0: seq<Memory>, g: Run)
  {
    && Counted(steps, query, run, g)
    && g.executed == ExecutedActions(steps[..g.completed], query, run)
    && g.plan == PlanAfter(steps, query, run, stamp, tick, g.done)
    && g.memories == m0 + RunTrail(stamp, steps[..g.done], query, run, tick)
  }

  /** The counts after attempting step `g.completed`, given the new completed count, attempt count and failure. */
  lemma CountedStep(steps: seq<PlanStep>, query: string, run: Runner, g: Run, outcome: Result<string>, n: Run)
    requires Counted(steps, query, run, g) && g.failure.None? && g.completed < |steps|
    requires outcome == Outcome(steps[g.completed], query, run)
    requires n.done == g.completed + 1 && n.completed == (if outcome.Ok? then g.completed + 1 else g.completed)
    requires n.failure == (if outcome.Ok? then None else Some(ErrorMessage(steps[g.completed], outcome.error)))
    requires |n.plan| == |g.plan|
    ensures Counted(steps, query, run, n)
  {
    CompletesIff(steps, query, run, g.completed);
  }

  /** The executed actions grow by step `i` exactly when it completes. */
  lemma ExecutedStepped(steps: seq<PlanStep>, query: string, run: Runner, i: nat, before: seq<ExecutedAction>,
                        outcome: Result<string>, k: nat, after: seq<ExecutedAction>)
    requires i < |steps| && before == ExecutedActions(steps[..i], query, run)
    requires outcome == Outcome(steps[i], query, run)
    requires k == (if outcome.Ok? then i + 1 else i)
    requires after == if outcome.Ok? then before + [ExecutedAction(steps[i].stepId, steps[i].action, Completed, outcome.value)]
                      else before
    ensures after == ExecutedActions(steps[..k], query, run)
  {
    if outcome.Ok? {
      ExecutedActionsSnoc(steps, query, run, i);
    }
  }

  /** Replacing step `i` by its attempted form extends the attempted prefix of the plan by one. */
  lemma PlanStepped(steps: seq<PlanStep>, query: string, run: Runner, stamp: nat -> Stamp, tick: nat,
                    i: nat, before: seq<PlanStep>, outcome: Result<string>, after: seq<PlanStep>)
    requires i <= CompletedCount(steps, query, run) && i < |steps|
    requires before == PlanAfter(steps, query, run, stamp, tick, i)
    requires outcome == Outcome(steps[i], query, run)
    requires after == before[i := AttemptedStep(steps[i], outcome, stamp, tick + 4 * i)]
    ensures after == PlanAfter(steps, query, run, stamp, tick, i + 1)
  {
    PlanAfterStep(steps, query, run, stamp, tick, i);
    StepOutcome(steps, query, run, stamp, tick, i);
  }

  /** Attempting the next step keeps `Progress`, whether it succeeds or raises. */
  lemma ProgressStep(steps: seq<PlanStep>, query: string, run: Runner, stamp: nat -> Stamp, tick: nat,
                     m0: seq<Memory>, g: Run, step: PlanStep, outcome: Result<string>, n: Run)
    requires Progress(steps, query, run, stamp, tick, m0, g)
    requires g.failure.None? && g.completed < |steps|
    requires step == g.plan[g.completed] && outcome == Outcome(step, query, run)
    requires Stepped(g, n, step, outcome, stamp, tick)
    ensures Progress(steps, query, run, stamp, tick, m0, n)
  {
    var i := g.completed;
    assert g.done == i && i < |steps|;
    assert g.plan == PlanAfter(steps, query, run, stamp, tick, i);
    PlanAfterStep(steps, query, run, stamp, tick, i);
    assert step == steps[i];
    CountedStep(steps, query, run, g, outcome, n);
    ExecutedStepped(steps, query, run, i, g.executed, outcome, n.completed, n.executed);
    PlanStepped(steps, query, run, stamp, tick, i, g.plan, outcome, n.plan);
    TrailExtends(stamp, steps, query, run, tick, m0, i, g.memories, outcome, n.memories);
    assert n.done == i + 1;
    assert Counted(steps, query, run, n);
    assert n.executed == ExecutedActions(steps[..n.completed], query, run);
    assert n.plan == PlanAfter(steps, query, run, stamp, tick, n.done);
    assert n.memories == m0 + RunTrail(stamp, steps[..n.done], query, run, tick);
  }

  /** When the loop of `execute_plan` stops, it has attempted exactly the steps up to the first failure. */
  lemma ProgressExit(steps: seq<PlanStep>, query: string, run: Runner, stamp: nat -> Stamp, tick: nat,
                     m0: seq<Memory>, g: Run)
    requires Progress(steps, query, run, stamp, tick, m0, g)
    requires g.completed == |steps| || g.failure.Some?
    ensures g.completed == CompletedCount(steps, query, run) && g.done == Attempted(steps, query, run)
    ensures g.failure == Failure(steps, query, run)
    ensures g.plan == ExecutedSteps(steps, query, run, stamp, tick)
    ensures g.memories == m0 + RunTrail(stamp, steps[..Attempted(steps, query, run)], query, run, tick)
  {
    PlanAfterAll(steps, query, run, stamp, tick);
  }

  class PlannerAgent {
    const store: InMemoryStore
    const stamp: nat -> Stamp
    /** The number of clock and id readings made so far. */
    var clock: nat

    constructor (store: InMemoryStore, stamp: nat -> Stamp)
      ensures this.store == store && this.stamp == stamp && clock == 0
    {
      this.store := store;
      this.stamp := stamp;
      clock := 0;
    }

    /** `datetime.now()`. */
    method Now() returns (t: DateTime)
      modifies this
      ensures clock == old(clock) + 1
      ensures t == stamp(old(clock)).time
    {
      t := stamp(clock).time;
      clock := clock + 1;
    }

    /** `store_memory`: appends a fresh memory with relevance 0 and returns its id. */
    method StoreMemory(content: string, memoryType: string, metadata: map<string, Value>) returns (id: string)
      modifies this, store
      ensures clock == old(clock) + 1
      ensures id == stamp(old(clock)).id
      ensures store.memories == old(store.memories) + [StampedMemory(stamp, old(clock), content, memoryType, metadata)]
    {
      var s := stamp(clock);
      clock := clock + 1;
      var _ := store.Store(Memory(s.id, content, memoryType, s.time, 0.0, metadata));
      id := s.id;
    }

    /** `retrieve_relevant_memories`. */
    method RetrieveRelevantMemories(query: string, topK: int, memoryType: Option<string>) returns (r: seq<Memory>)
      modifies store
      ensures store.memories == Rescored(old(store.memories), query, memoryType)
      ensures r == RetrieveResult(old(store.memories), query, topK, memoryType)
    {
      r := store.Retrieve(query, topK, memoryType);
    }

    /** `_generate_plan_steps`: the memories found are not used to shape the plan. */
    method GeneratePlanSteps(query: string, strategyMemories: seq<Memory>, contextMemories: seq<Memory>,
                             context: map<string, Value>) returns (steps: seq<PlanStep>)
      ensures steps == PlanSteps(query, context)
    {
      var base := BaseSteps;
      if exists k :: k in SqlKeywords && Contains(Lower(query), k) {
        base := base[..2] + [SqlStep] + base[2..];
      }
      steps := NumberSteps(base, query, context);
    }

    /** `create_plan`: consults the strategy and context memories, records the start and the plan size. */
    method CreatePlan(query: string, context: map<string, Value>) returns (plan: array<PlanStep>)
      modifies this, store
      ensures fresh(plan)
      ensures plan[..] == PlanSteps(query, context)
      ensures clock == old(clock) + 2
      ensures store.memories == PlanningMemories(old(store.memories), stamp, old(clock), query, context)
    {
      var steps := PlanQuery(query, context);
      plan := StepArray(steps);
    }

    /** The work of `create_plan` before the plan is handed out. */
    method PlanQuery(query: string, context: map<string, Value>) returns (steps: seq<PlanStep>)
      modifies this, store
      ensures steps == PlanSteps(query, context)
      ensures clock == old(clock) + 2
      ensures store.memories == PlanningMemories(old(store.memories), stamp, old(clock), query, context)
    {
      var strategyMemories := RetrieveRelevantMemories(query, 3, Some("strategy"));
      var contextMemories := RetrieveRelevantMemories(query, 3, Some("context"));
      var _ := StoreMemory("开始为查询创建计划: " + query, "action", map["context" := Dict(context)]);
      steps := GeneratePlanSteps(query, strategyMemories, contextMemories, context);
      var _ := StoreMemory(PlanSummary(query, |steps|), "strategy", map["plan_steps" := Int(|steps|)]);
    }

    /** One attempted step of `execute_plan`: marked executing, recorded, run, then marked completed or failed and recorded again. */
    method AttemptStep(plan: array<PlanStep>, i: nat, query: string, run: Runner) returns (outcome: Result<string>)
      requires i < plan.Length
      modifies this, store, plan
      ensures outcome == Outcome(old(plan[i]), query, run)
      ensures plan[..] == old(plan[..])[i := AttemptedStep(old(plan[i]), outcome, stamp, old(clock))]
      ensures clock == old(clock) + 4
      ensures store.memories == old(store.memories) + StepTrail(stamp, old(plan[i]), outcome, old(clock))
    {
      ghost var s0, t0, p0 := plan[i], clock, plan[..];
      var step := BeginStep(plan, i);
      outcome := run(step.action, step.parameters, query);
      EndStep(plan, i, step, outcome);
      AttemptedParts(s0, outcome, stamp, t0);
      assert p0[i := step][i := FinishedStep(step, outcome, stamp, t0 + 2)] == p0[i := AttemptedStep(s0, outcome, stamp, t0)];
    }

    /** The start of a step: its start time and status are set, and the start is recorded. */
    method BeginStep(plan: array<PlanStep>, i: nat) returns (step: PlanStep)
      requires i < plan.Length
      modifies this, store, plan
      ensures step == StartedStep(old(plan[i]), stamp, old(clock))
      ensures plan[..] == old(plan[..])[i := step]
      ensures clock == old(clock) + 2
      ensures store.memories == old(store.memories) + [StartMemory(stamp, old(clock) + 1, step)]
    {
      step := plan[i];
      var start := Now();
      step := step.(startTime := Some(start), status := Executing);
      plan[i] := step;
      var _ := StoreMemory(StartContent(step), "action", map["step_id" := Int(step.stepId), "action" := Str(step.action)]);
    }

    /** The end of a step: completed with its result, or failed, with the end time set, and the end recorded. */
    method EndStep(plan: array<PlanStep>, i: nat, started: PlanStep, outcome: Result<string>)
      requires i < plan.Length
      modifies this, store, plan
      ensures plan[..] == old(plan[..])[i := FinishedStep(started, outcome, stamp, old(clock))]
      ensures clock == old(clock) + 2
      ensures store.memories == old(store.memories) + [EndMemory(stamp, old(clock) + 1, started, outcome)]
    {
      var step := started;
      match outcome {
        case Ok(result) =>
          var end := Now();
          step := step.(endTime := Some(end), result := Some(result), status := Completed);
          plan[i] := step;
          var _ := StoreMemory(DoneContent(step, result), "result",
                               map["step_id" := Int(step.stepId), "action" := Str(step.action)]);
        case Err(e) =>
          step := step.(status := Failed);
          var end := Now();
          step := step.(endTime := Some(end));
          plan[i] := step;
          var _ := StoreMemory(ErrorMessage(step, e), "result", map["step_id" := Int(step.stepId), "error" := Bool(true)]);
      }
    }

    /**
     * The loop of `execute_plan`: attempts the steps in order and stops at the first that raises.
     * Returns the executed actions, the error message of the failed step if one failed, and how
     * many steps completed.
     */
    method RunSteps(plan: array<PlanStep>, query: string, run: Runner)
      returns (executed: seq<ExecutedAction>, failure: Option<string>, completed: nat)
      modifies this, store, plan
      ensures completed == CompletedCount(old(plan[..]), query, run)
      ensures executed == ExecutedActions(old(plan[..])[..completed], query, run)
      ensures failure == Failure(old(plan[..]), query, run)
      ensures plan[..] == ExecutedSteps(old(plan[..]), query, run, stamp, old(clock))
      ensures clock == old(clock) + 4 * Attempted(old(plan[..]), query, run)
      ensures store.memories == old(store.memories)
        + RunTrail(stamp, old(plan[..])[..Attempted(old(plan[..]), query, run)], query, run, old(clock))
    {
      ghost var steps := plan[..];
      ghost var t0 := clock;
      ghost var m0 := store.memories;
      ghost var g := Run(0, 0, None, [], steps, m0);
      executed := [];
      failure := None;
      completed := 0;
      while completed < plan.Length && failure.None?
        invariant Progress(steps, query, run, stamp, t0, m0, g)
        invariant plan[..] == g.plan && clock == t0 + 4 * g.done && store.memories == g.memories
        invariant executed == g.executed && failure == g.failure && completed == g.completed
        decreases plan.Length - g.done
      {
        ghost var step, before := plan[completed], g;
        ghost var outcome;
        g, outcome, executed, failure, completed := Advance(plan, query, run, t0, g, executed, completed);
        ProgressStep(steps, query, run, stamp, t0, m0, before, step, outcome, g);
      }
      ProgressExit(steps, query, run, stamp, t0, m0, g);
    }

    /** One turn of the loop of `execute_plan`: attempts step `completed` and reports the new loop state. */
    method Advance(plan: array<PlanStep>, query: string, run: Runner, ghost t0: nat, ghost g: Run,
                   executed: seq<ExecutedAction>, completed: nat)
      returns (ghost g': Run, ghost outcome: Result<string>,
               executed': seq<ExecutedAction>, failure': Option<string>, completed': nat)
      requires completed < plan.Length == |g.plan| && g.done == g.completed == completed
      requires plan[..] == g.plan && clock == t0 + 4 * g.done && store.memories == g.memories
      requires executed == g.executed
      modifies this, store, plan
      ensures outcome == Outcome(old(plan[completed]), query, run)
      ensures Stepped(g, g', old(plan[completed]), outcome, stamp, t0)
      ensures plan[..] == g'.plan && clock == t0 + 4 * g'.done && store.memories == g'.memories
      ensures executed' == g'.executed && failure' == g'.failure && completed' == g'.completed
    {
      var step := plan[completed];
      var result := AttemptStep(plan, completed, query, run);
      outcome := result;
      match result {
        case Ok(value) =>
          executed', failure', completed' := executed + [ExecutedAction(step.stepId, step.action, Completed, value)], None, completed + 1;
        case Err(e) =>
          executed', failure', completed' := executed, Some(ErrorMessage(step, e)), completed;
      }
      g' := Run(completed + 1, completed', failure', executed', plan[..], store.memories);
    }

    /**
     * `execute_plan`: runs the steps in order until one raises, marking each completed (or the
     * failing one failed), recording two memories per attempted step, and, when no error is
     * left in the state, the final answer and a memory of it.
     */
    method ExecutePlan(plan: array<PlanStep>, state: PlannerState, run: Runner) returns (st: PlannerState)
      modifies this, store, plan
      ensures plan[..] == ExecutedSteps(old(plan[..]), state.query, run, stamp, old(clock))
      ensures st == ExecutedState(old(plan[..]), state, run, stamp, old(clock))
      ensures store.memories == old(store.memories)
        + RunTrail(stamp, old(plan[..])[..Attempted(old(plan[..]), state.query, run)], state.query, run, old(clock))
        + FinalMemories(old(plan[..]), state, run, stamp, old(clock))
      ensures clock == old(clock) + ExecutionTicks(old(plan[..]), state, run)
    {
      ghost var steps := plan[..];
      var executed, failure, completed := RunSteps(plan, state.query, run);
      ResultsOfRun(steps, state, run, stamp, old(clock), executed, failure, completed, clock, plan[..]);
      st := Conclude(state, plan[..], executed, if failure.Some? then failure else state.error, completed);
    }

    /** The end of `execute_plan`: the state it returns and, unless an error is set, the final answer's memory. */
    method Conclude(state: PlannerState, plan: seq<PlanStep>, executed: seq<ExecutedAction>, error: Option<string>,
                    completed: nat) returns (st: PlannerState)
      modifies this, store
      ensures st == ConcludedState(state, plan, executed, error, completed)
      ensures store.memories == old(store.memories) + CompletionMemories(stamp, old(clock), executed, state.query, error)
      ensures clock == old(clock) + if ErrorTruthy(error) then 0 else 1
    {
      var finalResult := if ErrorTruthy(error) then state.finalResult else Some(FinalResult(executed, state.query));
      st := state.(currentStep := completed + 1, executedActions := executed, plan := plan, error := error,
                   finalResult := finalResult);
      if !ErrorTruthy(error) {
        var _ := StoreMemory("计划执行完成，最终结果: " + finalResult.value, "result",
                             map["query" := Str(state.query), "steps_completed" := Int(|executed|)]);
      }
    }

    /**
     * `plan_and_execute` with the simulated executor: every planned step completes; the store
     * gains the planning memories, two memories per step and the final answer's memory.
     */
    method PlanAndExecute(query: string, context: map<string, Value>) returns (st: PlannerState)
      modifies this, store
      ensures store.memories == BuiltInMemories(PlanningMemories(old(store.memories), stamp, old(clock), query, context),
                                                PlanSteps(query, context), query, stamp, old(clock) + 2)
      ensures clock == old(clock) + 2 + 4 * |PlanSteps(query, context)| + 1
      ensures st.query == query && st.context == context && st.error.None?
      ensures |st.plan| == |PlanSteps(query, context)| && st.currentStep == |st.plan| + 1
      ensures forall j :: 0 <= j < |st.plan| ==>
        st.plan[j].status == Completed && st.plan[j].result == Some(ExecuteStep(st.plan[j].action, query))
      ensures st.executedActions == ExecutedActions(PlanSteps(query, context), query, BuiltIn)
      ensures st.finalResult == Some(FinalResult(st.executedActions, query))
    {
      var state := PlannerState(query, 0, [], [], context, None, None);
      var plan := CreatePlan(query, context);
      st := ExecuteBuiltIn(plan, state);
    }

    /** `execute_plan` with the simulated executor and no earlier error: every step completes. */
    method ExecuteBuiltIn(plan: array<PlanStep>, state: PlannerState) returns (st: PlannerState)
      requires state.error.None?
      modifies this, store, plan
      ensures store.memories == BuiltInMemories(old(store.memories), old(plan[..]), state.query, stamp, old(clock))
      ensures clock == old(clock) + 4 * plan.Length + 1
      ensures st.query == state.query && st.context == state.context && st.error.None?
      ensures |st.plan| == plan.Length && st.currentStep == |st.plan| + 1
      ensures forall j :: 0 <= j < |st.plan| ==>
        st.plan[j].status == Completed && st.plan[j].result == Some(ExecuteStep(st.plan[j].action, state.query))
      ensures st.executedActions == ExecutedActions(old(plan[..]), state.query, BuiltIn)
      ensures st.finalResult == Some(FinalResult(st.executedActions, state.query))
    {
      st := ExecutePlan(plan, state, BuiltIn);
      BuiltInExecution(old(plan[..]), state, stamp, old(clock), st, old(store.memories), store.memories, clock);
    }

    /** `get_memory_summary` over the 20 most recent memories. */
    method GetMemorySummary() returns (s: MemorySummary)
      ensures var recent := store.RecentMemories(20, None);
        && s.totalRecentMemories == |recent|
        && s.memoryTypes.Keys == TypesOf(recent)
        && (forall t :: t in s.memoryTypes ==> s.memoryTypes[t] == CountOf(recent, t))
        && s.latestMemory == if recent == [] then None else Some(ToDict(recent[0]))
    {
      var recent := store.RecentMemories(20, None);
      var counts := CountTypes(recent);
      s := MemorySummary(|recent|, counts, if recent == [] then None else Some(ToDict(recent[0])));
    }
  }

  /** The plan as the mutable list `execute_plan` updates in place. */
  method StepArray(steps: seq<PlanStep>) returns (a: array<PlanStep>)
    ensures fresh(a) && a[..] == steps
  {
    a := new PlanStep[|steps|](i requires 0 <= i < |steps| => steps[i]);
  }

  /** The memories after `create_plan`: both retrievals rescore, then the start and the plan size are recorded. */
  function PlanningMemories(ms: seq<Memory>, stamp: nat -> Stamp, tick: nat, query: string, context: map<string, Value>): seq<Memory>
  {
    Rescored(Rescored(ms, query, Some("strategy")), query, Some("context"))
    + [StampedMemory(stamp, tick, "开始为查询创建计划: " + query, "action", map["context" := Dict(context)])]
    + [StampedMemory(stamp, tick + 1, PlanSummary(query, |PlanSteps(query, context)|), "strategy",
                     map["plan_steps" := Int(|PlanSteps(query, context)|)])]
  }

  /** What `execute_plan` does after its loop, in terms of what the loop returned. */
  lemma ResultsOfRun(steps: seq<PlanStep>, state: PlannerState, run: Runner, stamp: nat -> Stamp, tick: nat,
                     executed: seq<ExecutedAction>, failure: Option<string>, completed: nat, clock: nat, plan: seq<PlanStep>)
    requires completed == CompletedCount(steps, state.query, run)
    requires executed == ExecutedActions(steps[..completed], state.query, run)
    requires failure == Failure(steps, state.query, run)
    requires clock == tick + 4 * Attempted(steps, state.query, run)
    requires plan == ExecutedSteps(steps, state.query, run, stamp, tick)
    ensures var error := if failure.Some? then failure else state.error;
      && FinalMemories(steps, state, run, stamp, tick) == CompletionMemories(stamp, clock, executed, state.query, error)
      && tick + ExecutionTicks(steps, state, run) == clock + (if ErrorTruthy(error) then 0 else 1)
      && ExecutedState(steps, state, run, stamp, tick) == ConcludedState(state, plan, executed, error, completed)
  {
    var error := if failure.Some? then failure else state.error;
    assert ExecutionError(steps, state.error, state.query, run) == error;
    assert FinalMemories(steps, state, run, stamp, tick) == CompletionMemories(stamp, clock, executed, state.query, error);
    assert ExecutionTicks(steps, state, run) == 4 * Attempted(steps, state.query, run) + (if ErrorTruthy(error) then 0 else 1);
  }

  /** Starting and then finishing a step is attempting it; its records depend only on its id, action and description. */
  lemma AttemptedParts(s: PlanStep, outcome: Result<string>, stamp: nat -> Stamp, tick: nat)
    ensures var started := StartedStep(s, stamp, tick);
      && FinishedStep(started, outcome, stamp, tick + 2) == AttemptedStep(s, outcome, stamp, tick)
      && [StartMemory(stamp, tick + 1, started), EndMemory(stamp, tick + 3, started, outcome)] == StepTrail(stamp, s, outcome, tick)
  {
  }

  /** The counting loop of `get_memory_summary`: how many of `ms` have each memory type. */
  method CountTypes(ms: seq<Memory>) returns (counts: map<string, nat>)
    ensures counts.Keys == TypesOf(ms)
    ensures forall t :: t in counts ==> counts[t] == CountOf(ms, t)
  {
    counts := map[];
    var i := 0;
    while i < |ms|
      invariant 0 <= i <= |ms|
      invariant counts.Keys == TypesOf(ms[..i])
      invariant forall t :: t in counts ==> counts[t] == CountOf(ms[..i], t)
    {
      var kind := ms[i].memoryType;
      assert ms[..i + 1][..i] == ms[..i];
      TypesOfSnoc(ms[..i], ms[i]);
      assert ms[..i] + [ms[i]] == ms[..i + 1];
      if kind !in counts {
        CountOfAbsent(ms[..i], kind);
      }
      counts := counts[kind := (if kind in counts then counts[kind] else 0) + 1];
      i := i + 1;
    }
    assert ms[..i] == ms;
  }

  /** The loop of `_generate_plan_steps`: turns each (action, description) pair into a pending step. */
  method NumberSteps(base: seq<(string, string)>, query: string, context: map<string, Value>) returns (steps: seq<PlanStep>)
    ensures |steps| == |base|
    ensures forall j :: 0 <= j < |base| ==> steps[j] == PendingStep(j, base[j].0, base[j].1, query, context)
  {
    steps := [];
    var i := 0;
    while i < |base|
      invariant 0 <= i <= |base|
      invariant |steps| == i
      invariant forall j :: 0 <= j < i ==> steps[j] == PendingStep(j, base[j].0, base[j].1, query, context)
    {
      var (action, description) := base[i];
      steps := steps + [PendingStep(i, action, description, query, context)];
      i := i + 1;
    }
  }

  /** The memory types occurring in `ms`. */
  function TypesOf(ms: seq<Memory>): set<string>
  {
    set m | m in ms :: m.memoryType
  }

  /** How many memories of `ms` have type `t`. */
  function CountOf(ms: seq<Memory>, t: string): nat
  {
    if ms == [] then 0
    else CountOf(ms[..|ms| - 1], t) + (if ms[|ms| - 1].memoryType == t then 1 else 0)
  }

  lemma TypesOfSnoc(ms: seq<Memory>, m: Memory)
    ensures TypesOf(ms + [m]) == TypesOf(ms) + {m.memoryType}
  {
    assert forall x :: x in ms + [m] <==> x in ms || x == m;
  }

  lemma {:induction false} CountOfAbsent(ms: seq<Memory>, t: string)
    requires t !in TypesOf(ms)
    ensures CountOf(ms, t) == 0
  {
    if ms != [] {
      assert forall x :: x in ms[..|ms| - 1] ==> x in ms;
      CountOfAbsent(ms[..|ms| - 1], t);
    }
  }

  /** A type is counted at least once exactly when it occurs, and never more often than there are memories. */
  lemma {:induction false} CountOfBounds(ms: seq<Memory>, t: string)
    ensures CountOf(ms, t) <= |ms|
    ensures t in TypesOf(ms) <==> CountOf(ms, t) >= 1
  {
    if ms != [] {
      var init := ms[..|ms| - 1];
      CountOfBounds(init, t);
      assert ms == init + [ms[|ms| - 1]];
      TypesOfSnoc(init, ms[|ms| - 1]);
    }
  }

  /** The simulated executor never raises, so every step of any plan completes. */
  lemma {:induction false} BuiltInCompletes(steps: seq<PlanStep>, query: string)
    ensures CompletedCount(steps, query, BuiltIn) == |steps|
  {
    if steps != [] {
      BuiltInCompletes(steps[1..], query);
    }
  }

  /** With the simulated executor and no earlier error, `execute_plan` completes every step and produces the final answer. */
  lemma BuiltInRun(steps: seq<PlanStep>, state: PlannerState, stamp: nat -> Stamp, tick: nat)
    requires state.error.None?
    ensures var st := ExecutedState(steps, state, BuiltIn, stamp, tick);
      && st.query == state.query && st.context == state.context && st.error.None?
      && |st.plan| == |steps| && st.currentStep == |steps| + 1
      && (forall j :: 0 <= j < |st.plan| ==>
            st.plan[j].action == steps[j].action && st.plan[j].status == Completed
            && st.plan[j].result == Some(ExecuteStep(steps[j].action, state.query)))
      && st.executedActions == ExecutedActions(steps, state.query, BuiltIn)
      && st.finalResult == Some(FinalResult(st.executedActions, state.query))
  {
    BuiltInCompletes(steps, state.query);
    assert steps[..|steps|] == steps;
    var st := ExecutedState(steps, state, BuiltIn, stamp, tick);
    forall j | 0 <= j < |st.plan|
      ensures st.plan[j].action == steps[j].action && st.plan[j].status == Completed
              && st.plan[j].result == Some(ExecuteStep(steps[j].action, state.query))
    {
      CompletedStepsFacts(steps, state.query, BuiltIn, stamp, tick, j);
    }
  }

  /**
   * With the simulated executor and no earlier error, `execute_plan` attempts every step, records
   * both memories of each, stores the final answer's memory, and reads the clock 4n + 1 times.
   */
  lemma BuiltInTrail(steps: seq<PlanStep>, state: PlannerState, stamp: nat -> Stamp, tick: nat)
    requires state.error.None?
    ensures Attempted(steps, state.query, BuiltIn) == |steps|
    ensures steps[..Attempted(steps, state.query, BuiltIn)] == steps
    ensures FinalMemories(steps, state, BuiltIn, stamp, tick)
      == CompletionMemories(stamp, tick + 4 * |steps|, ExecutedActions(steps, state.query, BuiltIn), state.query, None)
    ensures ExecutionTicks(steps, state, BuiltIn) == 4 * |steps| + 1
  {
    BuiltInCompletes(steps, state.query);
    assert steps[..|steps|] == steps;
  }

  /** The memories after a run of the simulated executor from clock reading `t`: both of every step's, then the final answer's. */
  function BuiltInMemories(before: seq<Memory>, steps: seq<PlanStep>, query: string, stamp: nat -> Stamp, t: nat): seq<Memory>
  {
    before + RunTrail(stamp, steps, query, BuiltIn, t)
    + CompletionMemories(stamp, t + 4 * |steps|, ExecutedActions(steps, query, BuiltIn), query, None)
  }

  /** What `execute_plan` leaves after a run with the simulated executor, in closed form. */
  lemma BuiltInExecution(steps: seq<PlanStep>, state: PlannerState, stamp: nat -> Stamp, t: nat,
                         st: PlannerState, before: seq<Memory>, after: seq<Memory>, c: nat)
    requires state.error.None?
    requires st == ExecutedState(steps, state, BuiltIn, stamp, t)
    requires after == before + RunTrail(stamp, steps[..Attempted(steps, state.query, BuiltIn)], state.query, BuiltIn, t)
      + FinalMemories(steps, state, BuiltIn, stamp, t)
    requires c == t + ExecutionTicks(steps, state, BuiltIn)
    ensures after == BuiltInMemories(before, steps, state.query, stamp, t)
    ensures c == t + 4 * |steps| + 1
    ensures st.query == state.query && st.context == state.context && st.error.None?
    ensures |st.plan| == |steps| && st.currentStep == |st.plan| + 1
    ensures forall j :: 0 <= j < |st.plan| ==>
      st.plan[j].status == Completed && st.plan[j].result == Some(ExecuteStep(st.plan[j].action, state.query))
    ensures st.executedActions == ExecutedActions(steps, state.query, BuiltIn)
    ensures st.finalResult == Some(FinalResult(st.executedActions, state.query))
  {
    BuiltInRun(steps, state, stamp, t);
    BuiltInTrail(steps, state, stamp, t);
  }

  /** The final answer is a fixed message when nothing ran, and otherwise opens with the step count and the query. */
  lemma FinalResultHeader(actions: seq<ExecutedAction>, query: string)
    ensures actions == [] ==> FinalResult(actions, query) == "未能生成有效结果"
    ensures actions != [] ==>
      StartsWith(FinalResult(actions, query), "基于" + NatToString(|actions|) + "个步骤的执行结果，为查询'" + query + "'")
  {
    if actions != [] {
      var h, rest := Header(|actions|, query), "生成的答案：\n" + Join("\n", ResultLines(actions));
      assert FinalResult(actions, query) == h + rest;
      StartsWithConcat(h, rest);
    }
  }

  /** The final answer carries a bullet for every non-empty step result. */
  lemma FinalResultMentions(actions: seq<ExecutedAction>, query: string, i: nat)
    requires i < |actions| && actions[i].result != ""
    ensures Contains(FinalResult(actions, query), "- " + actions[i].result)
  {
    var head := Header(|actions|, query) + "生成的答案：\n";
    var lines := ResultLines(actions);
    ResultLinesFacts(actions);
    var k :| 0 <= k < |lines| && lines[k] == "- " + actions[i].result;
    JoinContains("\n", lines, k);
    ContainsAfter(head, Join("\n", lines), lines[k]);
  }

  /** After `execute_plan`, the steps before the first failure are completed, carrying their results. */
  lemma CompletedStepsFacts(steps: seq<PlanStep>, query: string, run: Runner, stamp: nat -> Stamp, tick: nat, j: nat)
    requires j < CompletedCount(steps, query, run)
    ensures var r := ExecutedSteps(steps, query, run, stamp, tick)[j];
      && Outcome(steps[j], query, run).Ok?
      && r.status == Completed && r.result == Some(Outcome(steps[j], query, run).value)
      && r.stepId == steps[j].stepId && r.action == steps[j].action && r.parameters == steps[j].parameters
  {
    CompletedBefore(steps, query, run, j);
    assert ExecutedSteps(steps, query, run, stamp, tick)[j] == ExecutedStep(steps, query, run, stamp, tick, j);
  }

  /** The failing step is marked failed, its result untouched; the steps after it are not touched at all. */
  lemma FailedStepFacts(steps: seq<PlanStep>, query: string, run: Runner, stamp: nat -> Stamp, tick: nat, j: nat)
    requires CompletedCount(steps, query, run) <= j < |steps|
    ensures var r := ExecutedSteps(steps, query, run, stamp, tick)[j];
      if j == CompletedCount(steps, query, run) then r.status == Failed && r.result == steps[j].result
      else r == steps[j]
  {
    assert ExecutedSteps(steps, query, run, stamp, tick)[j] == ExecutedStep(steps, query, run, stamp, tick, j);
  }

  /** An error is reported exactly when a step failed or the state already carried one; a failure always blocks the final answer. */
  lemma ExecutionErrorFacts(steps: seq<PlanStep>, state: PlannerState, run: Runner, stamp: nat -> Stamp, tick: nat)
    ensures var k := CompletedCount(steps, state.query, run);
      var after := ExecutedState(steps, state, run, stamp, tick);
      && (after.error.Some? <==> k < |steps| || state.error.Some?)
      && (k < |steps| ==> after.finalResult == state.finalResult)
      && (!ErrorTruthy(state.error) && k == |steps| ==> after.finalResult.Some?)
  {
  }
}
