/** The loop state as the JSON text it is saved as between steps, and the state a fresh process loads from it. */
module Persistence {
  import opened Prelude
  import opened LoopVocabulary
  import opened Json
  import opened JsonStructs

  // ---- The goal

  const REPOSITORY_NAMES := ["url"]
  const GOAL_NAMES := ["objective", "repository", "correlationId"]

  function GoalJson(g: Goal): Json {
    Struct(GOAL_NAMES,
           [Text(g.objective), Some(Struct(REPOSITORY_NAMES, [Text(g.repositoryURL)])), Text(g.correlationID)])
  }

  function ReadGoal(v: Option<Json>): Option<Goal> {
    match Values(v, GOAL_NAMES)
    case None => None
    case Some(vs) =>
      var (objective, repository, correlation) := (ReadText(vs[0]), Values(vs[1], REPOSITORY_NAMES), ReadText(vs[2]));
      var url := if repository.Some? then ReadText(repository.value[0]) else None;
      if objective.Some? && url.Some? && correlation.Some?
      then Some(Goal(objective.value, url.value, correlation.value))
      else None
  }

  lemma GoalReadsBack(g: Goal, depth: nat)
    ensures ReadGoal(Some(GoalJson(g))) == Some(g) && Readable(GoalJson(g), depth + 2, AS_WRITTEN)
  {
    assert Distinct(GOAL_NAMES) by {
      var n := GOAL_NAMES;
      assert |n[0]| == 9 && |n[1]| == 10 && |n[2]| == 13;
    }
    TextsReadBack();
    hide Struct, Values, Text, ReadText, ReadableIfAny, Readable;
    var url := [Text(g.repositoryURL)];
    var repository := Some(Struct(REPOSITORY_NAMES, url));
    StructReadsBack(REPOSITORY_NAMES, url);
    StructIsReadable(REPOSITORY_NAMES, url, depth);
    Given(repository.value, depth + 1);
    var values := [Text(g.objective), repository, Text(g.correlationID)];
    StructReadsBack(GOAL_NAMES, values);
    StructIsReadable(GOAL_NAMES, values, depth + 1);
  }

  // ---- Tasks and plans

  const TASK_NAMES := ["id", "type", "description", "instructions", "dependsOn"]

  function TextJson(t: string): Json {
    Str(t)
  }

  function TaskValues(t: Task): (vs: seq<Option<Json>>)
    ensures |vs| == |TASK_NAMES|
  {
    [Text(t.id), Text(t.kind), Text(t.description), Text(t.instructions), SliceIfAny(t.dependsOn, TextJson)]
  }

  function TaskJson(t: Task): Json {
    Struct(TASK_NAMES, TaskValues(t))
  }

  function ReadTask(v: Option<Json>): Option<Task> {
    match Values(v, TASK_NAMES)
    case None => None
    case Some(vs) =>
      var (id, kind, description) := (ReadText(vs[0]), ReadText(vs[1]), ReadText(vs[2]));
      var (instructions, dependsOn) := (ReadText(vs[3]), ReadSlice(vs[4], ReadText));
      if id.Some? && kind.Some? && description.Some? && instructions.Some? && dependsOn.Some?
      then Some(Task(id.value, kind.value, description.value, instructions.value, dependsOn.value))
      else None
  }

  lemma TaskNamesDiffer()
    ensures |TASK_NAMES| == 5 && Distinct(TASK_NAMES)
  {
    var n := TASK_NAMES;
    assert |n[0]| == 2 && |n[1]| == 4 && |n[2]| == 11 && |n[3]| == 12 && |n[4]| == 9;
  }

  lemma TaskReadsBack(t: Task, depth: nat)
    ensures ReadTask(Some(TaskJson(t))) == Some(t) && Readable(TaskJson(t), depth + 2, AS_WRITTEN)
  {
    TaskNamesDiffer();
    TextsReadBack();
    SliceReadsBack(t.dependsOn, TextJson, ReadText, depth);
    hide TASK_NAMES, Values, Struct, Text, SliceIfAny, ReadText, ReadSlice, ReadableIfAny, Readable;
    StructReadsBack(TASK_NAMES, TaskValues(t));
    StructIsReadable(TASK_NAMES, TaskValues(t), depth + 1);
  }

  const PLAN_NAMES := ["rationale", "tasks"]

  /** A plan not made yet has no slice of tasks, which is written as null. */
  function TasksJson(tasks: seq<Task>): Json {
    if tasks == [] then Null else Arr(WriteAll(tasks, TaskJson))
  }

  function PlanJson(p: Plan): Json {
    Struct(PLAN_NAMES, [Text(p.rationale), Some(TasksJson(p.tasks))])
  }

  function ReadPlan(v: Option<Json>): Option<Plan> {
    match Values(v, PLAN_NAMES)
    case None => None
    case Some(vs) =>
      var (rationale, tasks) := (ReadText(vs[0]), ReadSlice(vs[1], ReadTask));
      if rationale.Some? && tasks.Some? then Some(Plan(rationale.value, tasks.value)) else None
  }

  lemma TasksReadBack(tasks: seq<Task>, depth: nat)
    ensures ReadSlice(Some(TasksJson(tasks)), ReadTask) == Some(tasks)
    ensures ReadableIfAny(Some(TasksJson(tasks)), depth + 3)
  {
    hide Readable, TaskJson, ReadTask;
    forall i | 0 <= i < |tasks|
      ensures ReadTask(Some(TaskJson(tasks[i]))) == Some(tasks[i]) && Readable(TaskJson(tasks[i]), depth + 2, AS_WRITTEN)
    {
      TaskReadsBack(tasks[i], depth);
    }
    AllReadBack(tasks, TaskJson, ReadTask);
    AllAreReadable(tasks, TaskJson, depth + 2);
    NullIsReadable(depth + 3);
  }

  lemma NullIsReadable(depth: nat)
    ensures Readable(Null, depth, AS_WRITTEN)
  {
  }

  lemma PlanReadsBack(p: Plan, depth: nat)
    ensures ReadPlan(Some(PlanJson(p))) == Some(p) && Readable(PlanJson(p), depth + 4, AS_WRITTEN)
  {
    assert Distinct(PLAN_NAMES) by {
      assert |PLAN_NAMES[0]| == 9 && |PLAN_NAMES[1]| == 5;
    }
    TextsReadBack();
    TasksReadBack(p.tasks, depth);
    hide Values, Struct, Text, TasksJson, ReadText, ReadSlice, ReadableIfAny, Readable;
    var values := [Text(p.rationale), Some(TasksJson(p.tasks))];
    StructReadsBack(PLAN_NAMES, values);
    StructIsReadable(PLAN_NAMES, values, depth + 3);
  }

  // ---- What the stages report

  const OUTCOME_NAMES := ["taskId", "success", "output", "error", "transient", "costUsd", "executionId"]

  function OutcomeValues(o: Outcome, f: Formats): (vs: seq<Option<Json>>)
    ensures |vs| == |OUTCOME_NAMES|
  {
    [Text(o.taskID), Flag(o.success), TextIfAny(o.output), TextIfAny(o.error), FlagIfSet(o.transient),
     FloatIfAny(o.costUSD, f), TextIfAny(o.executionID)]
  }

  function OutcomeJson(o: Outcome, f: Formats): Json {
    Struct(OUTCOME_NAMES, OutcomeValues(o, f))
  }

  function ReadOutcome(v: Option<Json>, f: Formats): Option<Outcome> {
    match Values(v, OUTCOME_NAMES)
    case None => None
    case Some(vs) =>
      var (taskID, success, output, error) := (ReadText(vs[0]), ReadBool(vs[1]), ReadText(vs[2]), ReadText(vs[3]));
      var (transient, cost, executionID) := (ReadBool(vs[4]), ReadFloat(vs[5], f), ReadText(vs[6]));
      if taskID.Some? && success.Some? && output.Some? && error.Some? && transient.Some? && cost.Some? && executionID.Some?
      then Some(Outcome(taskID.value, success.value, output.value, error.value, transient.value, cost.value, executionID.value))
      else None
  }

  lemma OutcomeNamesDiffer()
    ensures |OUTCOME_NAMES| == 7 && Distinct(OUTCOME_NAMES)
  {
    var n := OUTCOME_NAMES;
    assert |n[0]| == 6 && |n[1]| == 7 && |n[2]| == 6 && |n[3]| == 5 && |n[4]| == 9 && |n[5]| == 7 && |n[6]| == 11;
    assert n[0][0] == 't' && n[2][0] == 'o' && n[1][0] == 's' && n[5][0] == 'c';
  }

  lemma OutcomeReadsBack(o: Outcome, f: Formats, depth: nat)
    requires Faithful(f) && f.exact(o.costUSD)
    ensures ReadOutcome(Some(OutcomeJson(o, f)), f) == Some(o) && Readable(OutcomeJson(o, f), depth + 1, AS_WRITTEN)
  {
    OutcomeNamesDiffer();
    TextsReadBack();
    FlagsReadBack();
    FloatsReadBack(o.costUSD, f, depth);
    hide OUTCOME_NAMES, Values, Struct, Text, TextIfAny, Flag, FlagIfSet, FloatIfAny, Faithful;
    hide ReadText, ReadBool, ReadFloat, ReadableIfAny, Readable;
    StructReadsBack(OUTCOME_NAMES, OutcomeValues(o, f));
    StructIsReadable(OUTCOME_NAMES, OutcomeValues(o, f), depth);
  }

  const EVALUATION_NAMES := ["taskSucceeded", "goalAchieved", "retry", "replan", "humanRequired", "confidence", "reason"]

  function EvaluationValues(e: Evaluation, f: Formats): (vs: seq<Option<Json>>)
    ensures |vs| == |EVALUATION_NAMES|
  {
    [Flag(e.taskSucceeded), Flag(e.goalAchieved), Flag(e.retry), Flag(e.replan), Flag(e.humanRequired),
     Float(e.confidence, f), Text(e.reason)]
  }

  function EvaluationJson(e: Evaluation, f: Formats): Json {
    Struct(EVALUATION_NAMES, EvaluationValues(e, f))
  }

  function ReadEvaluation(v: Option<Json>, f: Formats): Option<Evaluation> {
    match Values(v, EVALUATION_NAMES)
    case None => None
    case Some(vs) =>
      var (succeeded, achieved, retry, replan) := (ReadBool(vs[0]), ReadBool(vs[1]), ReadBool(vs[2]), ReadBool(vs[3]));
      var (human, confidence, reason) := (ReadBool(vs[4]), ReadFloat(vs[5], f), ReadText(vs[6]));
      if succeeded.Some? && achieved.Some? && retry.Some? && replan.Some? && human.Some? && confidence.Some? && reason.Some?
      then Some(Evaluation(succeeded.value, achieved.value, retry.value, replan.value, human.value, confidence.value, reason.value))
      else None
  }

  lemma EvaluationNamesDiffer()
    ensures |EVALUATION_NAMES| == 7 && Distinct(EVALUATION_NAMES)
  {
    var n := EVALUATION_NAMES;
    assert |n[0]| == 13 && |n[1]| == 12 && |n[2]| == 5 && |n[3]| == 6 && |n[4]| == 13 && |n[5]| == 10 && |n[6]| == 6;
    assert n[0][0] == 't' && n[4][0] == 'h' && n[3][2] == 'p' && n[6][2] == 'a';
  }

  lemma EvaluationIsReadable(e: Evaluation, f: Formats, depth: nat)
    requires Faithful(f) && f.exact(e.confidence)
    ensures Readable(EvaluationJson(e, f), depth + 1, AS_WRITTEN)
  {
    EvaluationNamesDiffer();
    TextsReadBack();
    FlagsReadBack();
    FloatsReadBack(e.confidence, f, depth);
    hide EVALUATION_NAMES, Text, Flag, Float, Faithful, ReadText, ReadBool, ReadFloat, ReadableIfAny, Readable;
    StructIsReadable(EVALUATION_NAMES, EvaluationValues(e, f), depth);
  }

  lemma EvaluationReadsBack(e: Evaluation, f: Formats, depth: nat)
    requires Faithful(f) && f.exact(e.confidence)
    ensures ReadEvaluation(Some(EvaluationJson(e, f)), f) == Some(e)
    ensures Readable(EvaluationJson(e, f), depth + 1, AS_WRITTEN)
  {
    EvaluationNamesDiffer();
    TextsReadBack();
    FlagsReadBack();
    FloatsReadBack(e.confidence, f, depth);
    hide EVALUATION_NAMES, Values, Struct, Text, Flag, Float, Faithful, ReadText, ReadBool, ReadFloat, ReadableIfAny, Readable;
    StructReadsBack(EVALUATION_NAMES, EvaluationValues(e, f));
    EvaluationIsReadable(e, f, depth);
  }

  const REFLECTION_NAMES := ["analysis", "revisedInstructions", "adjustment"]

  function ReflectionJson(r: Reflection): Json {
    Struct(REFLECTION_NAMES, [Text(r.analysis), TextIfAny(r.revisedInstructions), TextIfAny(r.adjustment)])
  }

  function ReadReflection(v: Option<Json>): Option<Reflection> {
    match Values(v, REFLECTION_NAMES)
    case None => None
    case Some(vs) =>
      var (analysis, revised, adjustment) := (ReadText(vs[0]), ReadText(vs[1]), ReadText(vs[2]));
      if analysis.Some? && revised.Some? && adjustment.Some?
      then Some(Reflection(analysis.value, revised.value, adjustment.value))
      else None
  }

  lemma ReflectionReadsBack(r: Reflection, depth: nat)
    ensures ReadReflection(Some(ReflectionJson(r))) == Some(r) && Readable(ReflectionJson(r), depth + 1, AS_WRITTEN)
  {
    assert Distinct(REFLECTION_NAMES) by {
      var n := REFLECTION_NAMES;
      assert |n[0]| == 8 && |n[1]| == 19 && |n[2]| == 10;
    }
    TextsReadBack();
    hide Values, Struct, Text, TextIfAny, ReadText, ReadableIfAny, Readable;
    var values := [Text(r.analysis), TextIfAny(r.revisedInstructions), TextIfAny(r.adjustment)];
    StructReadsBack(REFLECTION_NAMES, values);
    StructIsReadable(REFLECTION_NAMES, values, depth);
  }

  const SUMMARY_NAMES := ["outcome", "narrative", "result"]

  function SummaryJson(m: Summary): Json {
    Struct(SUMMARY_NAMES, [Text(m.outcome), Text(m.narrative), TextIfAny(m.result)])
  }

  function ReadSummary(v: Option<Json>): Option<Summary> {
    match Values(v, SUMMARY_NAMES)
    case None => None
    case Some(vs) =>
      var (outcome, narrative, result) := (ReadText(vs[0]), ReadText(vs[1]), ReadText(vs[2]));
      if outcome.Some? && narrative.Some? && result.Some?
      then Some(Summary(outcome.value, narrative.value, result.value))
      else None
  }

  lemma SummaryReadsBack(m: Summary, depth: nat)
    ensures ReadSummary(Some(SummaryJson(m))) == Some(m) && Readable(SummaryJson(m), depth + 1, AS_WRITTEN)
  {
    assert Distinct(SUMMARY_NAMES) by {
      var n := SUMMARY_NAMES;
      assert |n[0]| == 7 && |n[1]| == 9 && |n[2]| == 6;
    }
    TextsReadBack();
    hide Values, Struct, Text, TextIfAny, ReadText, ReadableIfAny, Readable;
    var values := [Text(m.outcome), Text(m.narrative), TextIfAny(m.result)];
    StructReadsBack(SUMMARY_NAMES, values);
    StructIsReadable(SUMMARY_NAMES, values, depth);
  }

  // ---- The state

  function PhaseText(p: Phase): string {
    match p
    case Planning => "planning"
    case Executing => "executing"
    case Evaluating => "evaluating"
    case Reflecting => "reflecting"
    case Summarising => "summarising"
    case Done => "done"
    case Stopped => "stopped"
    case Failed => "failed"
    case Unknown(name) => name
  }

  function PhaseOf(name: string): Phase {
    match name
    case "planning" => Planning
    case "executing" => Executing
    case "evaluating" => Evaluating
    case "reflecting" => Reflecting
    case "summarising" => Summarising
    case "done" => Done
    case "stopped" => Stopped
    case "failed" => Failed
    case _ => Unknown(name)
  }

  function StopOf(text: string): Option<StopReason> {
    match text
    case "" => Some(StopNone)
    case "goal-achieved" => Some(StopGoalAchieved)
    case "max-iterations" => Some(StopMaxIterations)
    case "max-retries" => Some(StopMaxRetries)
    case "max-replans" => Some(StopMaxReplans)
    case "timeout" => Some(StopTimeout)
    case "cost-exceeded" => Some(StopCostExceeded)
    case "human-required" => Some(StopHumanRequired)
    case "critical-failure" => Some(StopCriticalFailure)
    case _ => None
  }

  /** Unknown is for the names of no other phase. */
  predicate ProperPhase(p: Phase) {
    p.Unknown? ==> PhaseOf(p.name).Unknown?
  }

  lemma PhaseReadsBack(p: Phase)
    requires ProperPhase(p)
    ensures PhaseOf(PhaseText(p)) == p
  {
    var t := PhaseText(p);
    assert match p
      case Planning => |t| == 8
      case Executing => |t| == 9
      case Evaluating => |t| == 10 && t[0] == 'e'
      case Reflecting => |t| == 10 && t[0] == 'r'
      case Summarising => |t| == 11
      case Done => |t| == 4
      case Stopped => |t| == 7
      case Failed => |t| == 6
      case Unknown(name) => t == name;
  }

  lemma StopReadsBack(r: StopReason)
    ensures StopOf(r.Text()) == Some(r)
  {
    var t := r.Text();
    assert match r
      case StopNone => |t| == 0
      case StopGoalAchieved => |t| == 13 && t[0] == 'g'
      case StopMaxIterations => |t| == 14 && t[0] == 'm'
      case StopMaxRetries => |t| == 11 && t[6] == 't'
      case StopMaxReplans => |t| == 11 && t[6] == 'p'
      case StopTimeout => |t| == 7
      case StopCostExceeded => |t| == 13 && t[0] == 'c'
      case StopHumanRequired => |t| == 14 && t[0] == 'h'
      case StopCriticalFailure => |t| == 16;
  }

  const STATE_NAMES :=
    ["goal", "phase", "plan", "currentTaskId", "pendingOutcome", "pendingEvaluation", "completed", "failed",
     "reflectionHistory", "iterations", "retryCount", "replans", "costUsd", "startedAt", "stop", "summary"]

  function OutcomeWriter(f: Formats): Outcome -> Json {
    (o: Outcome) => OutcomeJson(o, f)
  }

  function OutcomeReader(f: Formats): Option<Json> -> Option<Outcome> {
    (v: Option<Json>) => ReadOutcome(v, f)
  }

  function EvaluationWriter(f: Formats): Evaluation -> Json {
    (e: Evaluation) => EvaluationJson(e, f)
  }

  function EvaluationReader(f: Formats): Option<Json> -> Option<Evaluation> {
    (v: Option<Json>) => ReadEvaluation(v, f)
  }

  function StateValues(s: State, f: Formats): (vs: seq<Option<Json>>)
    ensures |vs| == |STATE_NAMES|
  {
    [Some(GoalJson(s.goal)), Text(PhaseText(s.phase)), Some(PlanJson(s.plan)), TextIfAny(s.currentTaskID)]
    + [PointerIfAny(s.pendingOutcome, OutcomeWriter(f)), PointerIfAny(s.pendingEvaluation, EvaluationWriter(f)),
       SliceIfAny(s.completed, OutcomeWriter(f)), SliceIfAny(s.failed, OutcomeWriter(f)),
       SliceIfAny(s.reflections, ReflectionJson)]
    + [Count(s.iterations), Count(s.retryCount), Count(s.replans), Float(s.costUSD, f), Text(f.time(s.startedAt)),
       TextIfAny(s.stop.Text()), PointerIfAny(s.summary, SummaryJson)]
  }

  function StateJson(s: State, f: Formats): Json {
    Struct(STATE_NAMES, StateValues(s, f))
  }

  function ReadStop(v: Option<Json>): Option<StopReason> {
    var text := ReadText(v);
    if text.Some? then StopOf(text.value) else None
  }

  function ReadState(v: Option<Json>, f: Formats): Option<State> {
    match Values(v, STATE_NAMES)
    case None => None
    case Some(vs) =>
      var (goal, phase, plan, current) := (ReadGoal(vs[0]), ReadText(vs[1]), ReadPlan(vs[2]), ReadText(vs[3]));
      var (outcome, evaluation) := (ReadPointer(vs[4], OutcomeReader(f)), ReadPointer(vs[5], EvaluationReader(f)));
      var (completed, failed) := (ReadSlice(vs[6], OutcomeReader(f)), ReadSlice(vs[7], OutcomeReader(f)));
      var reflections := ReadSlice(vs[8], ReadReflection);
      var (iterations, retries, replans) := (ReadNat(vs[9]), ReadNat(vs[10]), ReadNat(vs[11]));
      var (cost, started) := (ReadFloat(vs[12], f), ReadTime(vs[13], f));
      var (stop, summary) := (ReadStop(vs[14]), ReadPointer(vs[15], ReadSummary));
      if && goal.Some? && phase.Some? && plan.Some? && current.Some? && outcome.Some? && evaluation.Some?
         && completed.Some? && failed.Some? && reflections.Some? && iterations.Some? && retries.Some? && replans.Some?
         && cost.Some? && started.Some? && stop.Some? && summary.Some?
      then
        Some(State(goal.value, PhaseOf(phase.value), plan.value, current.value, outcome.value, evaluation.value,
                   completed.value, failed.value, reflections.value, iterations.value, retries.value, replans.value,
                   cost.value, started.value, stop.value, summary.value))
      else None
  }

  /** State.Marshal and Load. */
  function Marshal(s: State, f: Formats): string {
    Encode(StateJson(s, f))
  }

  function Load(data: string, f: Formats): Option<State> {
    match Parse(data, AS_WRITTEN)
    case None => None
    case Some(v) => ReadState(Some(v), f)
  }

  ghost predicate ExactOutcomes(os: seq<Outcome>, f: Formats) {
    forall i :: 0 <= i < |os| ==> f.exact(os[i].costUSD)
  }

  /** Every number in the state is a float. */
  ghost predicate Exact(s: State, f: Formats) {
    && f.exact(s.costUSD) && ExactOutcomes(s.completed, f) && ExactOutcomes(s.failed, f)
    && (s.pendingOutcome.Some? ==> f.exact(s.pendingOutcome.value.costUSD))
    && (s.pendingEvaluation.Some? ==> f.exact(s.pendingEvaluation.value.confidence))
  }

  lemma StateNamesDiffer()
    ensures |STATE_NAMES| == 16 && Distinct(STATE_NAMES)
  {
    var n := STATE_NAMES;
    assert |n[0]| == 4 && |n[1]| == 5 && |n[2]| == 4 && |n[3]| == 13 && |n[4]| == 14 && |n[5]| == 17 && |n[6]| == 9;
    assert |n[7]| == 6 && |n[8]| == 17 && |n[9]| == 10 && |n[10]| == 10 && |n[11]| == 7 && |n[12]| == 7 && |n[13]| == 9;
    assert |n[14]| == 4 && |n[15]| == 7;
    assert n[0][0] == 'g' && n[2][0] == 'p' && n[14][0] == 's' && n[5][0] == 'p' && n[8][0] == 'r' && n[6][0] == 'c';
    assert n[13][0] == 's' && n[9][0] == 'i' && n[10][0] == 'r' && n[11][0] == 'r' && n[12][0] == 'c' && n[15][0] == 's';
  }

  lemma CountsReadBack(n: nat, depth: nat)
    ensures ReadNat(Count(n)) == Some(n) && ReadableIfAny(Count(n), depth)
  {
    hide DecimalValue;
    NumbersReadBack(n);
  }

  lemma OutcomesReadBack(os: seq<Outcome>, f: Formats, depth: nat)
    requires Faithful(f) && ExactOutcomes(os, f)
    ensures ReadSlice(SliceIfAny(os, OutcomeWriter(f)), OutcomeReader(f)) == Some(os)
    ensures ReadableIfAny(SliceIfAny(os, OutcomeWriter(f)), depth + 2)
  {
    hide OutcomeJson, ReadOutcome, Readable, ReadSlice, SliceIfAny, ReadableIfAny, Faithful;
    forall i | 0 <= i < |os|
      ensures ReadOutcome(Some(OutcomeJson(os[i], f)), f) == Some(os[i])
      ensures Readable(OutcomeJson(os[i], f), depth + 1, AS_WRITTEN)
    {
      OutcomeReadsBack(os[i], f, depth);
    }
    SliceReadsBack(os, OutcomeWriter(f), OutcomeReader(f), depth + 1);
  }

  lemma ReflectionsReadBack(rs: seq<Reflection>, depth: nat)
    ensures ReadSlice(SliceIfAny(rs, ReflectionJson), ReadReflection) == Some(rs)
    ensures ReadableIfAny(SliceIfAny(rs, ReflectionJson), depth + 2)
  {
    hide ReflectionJson, ReadReflection, Readable, ReadSlice, SliceIfAny, ReadableIfAny;
    forall i | 0 <= i < |rs|
      ensures ReadReflection(Some(ReflectionJson(rs[i]))) == Some(rs[i])
      ensures Readable(ReflectionJson(rs[i]), depth + 1, AS_WRITTEN)
    {
      ReflectionReadsBack(rs[i], depth);
    }
    SliceReadsBack(rs, ReflectionJson, ReadReflection, depth + 1);
  }

  lemma PendingReadsBack(s: State, f: Formats, depth: nat)
    requires Faithful(f) && Exact(s, f)
    ensures ReadPointer(PointerIfAny(s.pendingOutcome, OutcomeWriter(f)), OutcomeReader(f)) == Some(s.pendingOutcome)
    ensures ReadPointer(PointerIfAny(s.pendingEvaluation, EvaluationWriter(f)), EvaluationReader(f))
         == Some(s.pendingEvaluation)
    ensures ReadableIfAny(PointerIfAny(s.pendingOutcome, OutcomeWriter(f)), depth + 1)
    ensures ReadableIfAny(PointerIfAny(s.pendingEvaluation, EvaluationWriter(f)), depth + 1)
  {
    hide ReadOutcome, ReadEvaluation, Readable, Faithful;
    if s.pendingOutcome.Some? {
      OutcomeReadsBack(s.pendingOutcome.value, f, depth);
    }
    if s.pendingEvaluation.Some? {
      EvaluationReadsBack(s.pendingEvaluation.value, f, depth);
    }
  }

  lemma EndReadsBack(s: State, f: Formats, depth: nat)
    requires Faithful(f)
    ensures ReadPointer(PointerIfAny(s.summary, SummaryJson), ReadSummary) == Some(s.summary)
    ensures ReadableIfAny(PointerIfAny(s.summary, SummaryJson), depth + 1)
    ensures ReadStop(TextIfAny(s.stop.Text())) == Some(s.stop)
    ensures ReadTime(Text(f.time(s.startedAt)), f) == Some(s.startedAt)
  {
    StopReadsBack(s.stop);
    TextsReadBack();
    hide ReadSummary, Readable, StopOf, TextIfAny, ReadText;
    if s.summary.Some? {
      SummaryReadsBack(s.summary.value, depth);
    }
  }

  lemma StateFields(s: State, f: Formats)
    ensures var vs := StateValues(s, f);
            && |vs| == 16
            && vs[0] == Some(GoalJson(s.goal)) && vs[1] == Text(PhaseText(s.phase)) && vs[2] == Some(PlanJson(s.plan))
            && vs[3] == TextIfAny(s.currentTaskID) && vs[4] == PointerIfAny(s.pendingOutcome, OutcomeWriter(f))
            && vs[5] == PointerIfAny(s.pendingEvaluation, EvaluationWriter(f))
            && vs[6] == SliceIfAny(s.completed, OutcomeWriter(f)) && vs[7] == SliceIfAny(s.failed, OutcomeWriter(f))
            && vs[8] == SliceIfAny(s.reflections, ReflectionJson) && vs[9] == Count(s.iterations)
            && vs[10] == Count(s.retryCount) && vs[11] == Count(s.replans) && vs[12] == Float(s.costUSD, f)
            && vs[13] == Text(f.time(s.startedAt)) && vs[14] == TextIfAny(s.stop.Text())
            && vs[15] == PointerIfAny(s.summary, SummaryJson)
  {
    StateNamesDiffer();
    hide STATE_NAMES, GoalJson, PhaseText, PlanJson, Text, TextIfAny, PointerIfAny, SliceIfAny, Count, Float;
  }

  /** These values read, field by field, as this state. */
  ghost predicate ReadsAs(s: State, f: Formats, vs: seq<Option<Json>>)
    requires |vs| == 16
  {
    && ReadGoal(vs[0]) == Some(s.goal) && ReadText(vs[1]) == Some(PhaseText(s.phase)) && ReadPlan(vs[2]) == Some(s.plan)
    && ReadText(vs[3]) == Some(s.currentTaskID)
    && ReadPointer(vs[4], OutcomeReader(f)) == Some(s.pendingOutcome)
    && ReadPointer(vs[5], EvaluationReader(f)) == Some(s.pendingEvaluation)
    && ReadSlice(vs[6], OutcomeReader(f)) == Some(s.completed) && ReadSlice(vs[7], OutcomeReader(f)) == Some(s.failed)
    && ReadSlice(vs[8], ReadReflection) == Some(s.reflections)
    && ReadNat(vs[9]) == Some(s.iterations) && ReadNat(vs[10]) == Some(s.retryCount) && ReadNat(vs[11]) == Some(s.replans)
    && ReadFloat(vs[12], f) == Some(s.costUSD) && ReadTime(vs[13], f) == Some(s.startedAt)
    && ReadStop(vs[14]) == Some(s.stop) && ReadPointer(vs[15], ReadSummary) == Some(s.summary)
  }

  lemma StateOfFields(s: State, f: Formats, v: Option<Json>, vs: seq<Option<Json>>)
    requires |vs| == 16 && Values(v, STATE_NAMES) == Some(vs) && ReadsAs(s, f, vs) && ProperPhase(s.phase)
    ensures ReadState(v, f) == Some(s)
  {
    PhaseReadsBack(s.phase);
    hide STATE_NAMES, Values, PhaseText, PhaseOf, OutcomeReader, EvaluationReader, ReadGoal, ReadText, ReadPlan, ReadPointer;
    hide ReadSlice, ReadNat, ReadFloat, ReadTime, ReadStop;
  }

  /** Read off its values, a state is what it was. */
  lemma StateReadsBack(s: State, f: Formats)
    requires Faithful(f) && Exact(s, f)
    ensures |StateValues(s, f)| == 16 && ReadsAs(s, f, StateValues(s, f))
  {
    StateFields(s, f);
    GoalReadsBack(s.goal, 0);
    PlanReadsBack(s.plan, 0);
    TextsReadBack();
    PendingReadsBack(s, f, 0);
    OutcomesReadBack(s.completed, f, 0);
    OutcomesReadBack(s.failed, f, 0);
    ReflectionsReadBack(s.reflections, 0);
    CountsReadBack(s.iterations, 0);
    CountsReadBack(s.retryCount, 0);
    CountsReadBack(s.replans, 0);
    FloatsReadBack(s.costUSD, f, 0);
    EndReadsBack(s, f, 0);
    hide STATE_NAMES, StateValues, GoalJson, PhaseText, PlanJson, Text, TextIfAny, PointerIfAny, SliceIfAny, Count, Float;
    hide OutcomeWriter, OutcomeReader, EvaluationWriter, EvaluationReader, ReadGoal, ReadText, ReadPlan, ReadPointer;
    hide ReadSlice, ReadNat, ReadFloat, ReadTime, ReadStop, ReadableIfAny, Readable, Faithful, Exact;
  }

  const FIELD_DEPTH: nat := MAX_DEPTH - 1

  ghost predicate ReadableFields(vs: seq<Option<Json>>, from: nat, to: nat)
    requires from <= to <= |vs|
  {
    forall i :: from <= i < to ==> ReadableIfAny(vs[i], FIELD_DEPTH)
  }

  lemma WorkIsReadable(s: State, f: Formats)
    requires Faithful(f) && Exact(s, f)
    ensures |StateValues(s, f)| == 16 && ReadableFields(StateValues(s, f), 0, 9)
  {
    StateFields(s, f);
    TextsReadBack();
    hide STATE_NAMES, StateValues, GoalJson, PhaseText, PlanJson, Text, TextIfAny, PointerIfAny, SliceIfAny, Count, Float;
    hide OutcomeWriter, OutcomeReader, EvaluationWriter, EvaluationReader, ReadGoal, ReadText, ReadPlan, ReadPointer;
    hide ReadSlice, ReadReflection, Readable, ReadableIfAny, Faithful;
    GoalReadsBack(s.goal, FIELD_DEPTH - 2);
    Given(GoalJson(s.goal), FIELD_DEPTH);
    PlanReadsBack(s.plan, FIELD_DEPTH - 4);
    Given(PlanJson(s.plan), FIELD_DEPTH);
    PendingReadsBack(s, f, FIELD_DEPTH - 1);
    OutcomesReadBack(s.completed, f, FIELD_DEPTH - 2);
    OutcomesReadBack(s.failed, f, FIELD_DEPTH - 2);
    ReflectionsReadBack(s.reflections, FIELD_DEPTH - 2);
  }

  lemma BooksAreReadable(s: State, f: Formats)
    requires Faithful(f) && Exact(s, f)
    ensures |StateValues(s, f)| == 16 && ReadableFields(StateValues(s, f), 9, 16)
  {
    StateFields(s, f);
    TextsReadBack();
    hide STATE_NAMES, StateValues, GoalJson, PhaseText, PlanJson, Text, TextIfAny, PointerIfAny, SliceIfAny, Count, Float;
    hide OutcomeWriter, EvaluationWriter, ReadText, ReadPointer, ReadNat, ReadFloat, ReadTime, ReadStop, ReadableIfAny;
    hide Readable, Faithful;
    CountsReadBack(s.iterations, FIELD_DEPTH);
    CountsReadBack(s.retryCount, FIELD_DEPTH);
    CountsReadBack(s.replans, FIELD_DEPTH);
    FloatsReadBack(s.costUSD, f, FIELD_DEPTH);
    EndReadsBack(s, f, FIELD_DEPTH - 1);
  }

  lemma StateIsReadable(s: State, f: Formats)
    requires Faithful(f) && Exact(s, f)
    ensures Readable(StateJson(s, f), MAX_DEPTH, AS_WRITTEN)
  {
    StateNamesDiffer();
    WorkIsReadable(s, f);
    BooksAreReadable(s, f);
    hide STATE_NAMES, StateValues, ReadableIfAny, Readable, Faithful, Exact, Struct;
    StructIsReadable(STATE_NAMES, StateValues(s, f), FIELD_DEPTH);
  }

  /**
   * A state saved by Marshal is loaded back exactly, the pending outcome and verdict, the histories and every
   * counter included: nothing omitempty leaves out, or writes as null, is lost.
   */
  lemma SavedStateIsLoaded(s: State, f: Formats)
    requires Faithful(f) && Exact(s, f) && ProperPhase(s.phase)
    ensures Load(Marshal(s, f), f) == Some(s)
  {
    StateNamesDiffer();
    StateReadsBack(s, f);
    hide STATE_NAMES, StateValues, ReadsAs, Struct, Readable, Faithful, Exact, Encode, Parse, ReadState, Values;
    StructReadsBack(STATE_NAMES, StateValues(s, f));
    StateOfFields(s, f, Some(StateJson(s, f)), StateValues(s, f));
    StateIsReadable(s, f);
    RoundTrip(StateJson(s, f), AS_WRITTEN);
  }
}
