/**
 * The reducer: Decide turns a state into the next action, Advance folds an action's result back in.
 * The source passes State by value, so its field assignments are datatype updates here.
 */
module Controller {
  import opened Prelude
  import opened LoopVocabulary
  import opened PlanCheck
  import opened Scheduler
  import opened Retry

  datatype Action =
    | ActPlan
    | ActExecute(task: Task, delay: Time)
    | ActEvaluate(judged: Task, outcome: Outcome)
    | ActReflect(task: Task, outcome: Outcome, evaluation: Evaluation)
    | ActSummarise(reason: StopReason)
    | ActStop(stop: StopReason)

  predicate CostTripped(s: State, cfg: Config) {
    cfg.maxCostUSD > 0.0 && s.costUSD >= cfg.maxCostUSD
  }

  predicate TimeTripped(s: State, cfg: Config, now: Time) {
    cfg.timeout > 0 && s.startedAt != ZERO_TIME && now - s.startedAt >= cfg.timeout
  }

  /** Every configurable bound, most severe first; a bound of zero is disabled. */
  function CheckStops(s: State, cfg: Config, now: Time): StopReason {
    if CostTripped(s, cfg) then StopCostExceeded
    else if TimeTripped(s, cfg, now) then StopTimeout
    else if cfg.maxIterations > 0 && s.iterations >= cfg.maxIterations then StopMaxIterations
    else if cfg.maxReplans > 0 && s.replans >= cfg.maxReplans then StopMaxReplans
    else StopNone
  }

  function CurrentTask(s: State): Option<Task> {
    TaskByID(s.plan.tasks, s.currentTaskID)
  }

  function MustTask(s: State): Task {
    if CurrentTask(s).Some? then CurrentTask(s).value else ZERO_TASK
  }

  function Decide(s: State, cfg: Config, now: Time): Action {
    if s.phase.Terminal() then ActStop(s.stop)
    else if CheckStops(s, cfg, now).Terminal() then
      if s.phase.Summarising? || s.summary.Some?
      then ActStop(CheckStops(s, cfg, now))
      else ActSummarise(CheckStops(s, cfg, now))
    else
      match s.phase
      case Planning => ActPlan
      case Executing =>
        if CurrentTask(s).None? then ActStop(StopCriticalFailure)
        else ActExecute(CurrentTask(s).value, if s.retryCount > 0 then Backoff(cfg.retry, s.retryCount) else 0)
      case Evaluating =>
        if s.pendingOutcome.None? then ActStop(StopCriticalFailure)
        else ActEvaluate(MustTask(s), s.pendingOutcome.value)
      case Reflecting =>
        if s.pendingOutcome.None? || s.pendingEvaluation.None? then ActStop(StopCriticalFailure)
        else ActReflect(MustTask(s), s.pendingOutcome.value, s.pendingEvaluation.value)
      case Summarising => ActSummarise(s.stop)
      case _ => ActStop(StopCriticalFailure)
  }

  /** Exactly one of the five products is set by a driver; Advance looks at them in this order. */
  datatype StepResult = StepResult(
    plan: Option<Plan>,
    outcome: Option<Outcome>,
    evaluation: Option<Evaluation>,
    reflection: Option<Reflection>,
    summary: Option<Summary>,
    cost: real,
    engineErr: bool)

  const NO_RESULT := StepResult(None, None, None, None, None, 0.0, false)

  function Fail(s: State): State {
    s.(phase := Failed, stop := StopCriticalFailure)
  }

  function Paid(s: State, cost: real): State {
    s.(costUSD := s.costUSD + cost)
  }

  function Advance(s: State, cfg: Config, r: StepResult, now: Time): State {
    if r.engineErr then Fail(s)
    else
      var s := Paid(s, r.cost);
      if r.plan.Some? then AdvancePlan(s, r.plan.value)
      else if r.outcome.Some? then AdvanceExecute(s, r.outcome.value)
      else if r.evaluation.Some? then AdvanceEvaluate(s, cfg, r.evaluation.value)
      else if r.reflection.Some? then AdvanceReflect(s, r.reflection.value)
      else if r.summary.Some? then AdvanceSummarise(s, cfg, r.summary.value, now)
      else Fail(s)
  }

  function AdvancePlan(s: State, plan: Plan): State {
    if !ValidPlan(plan) then Fail(s)
    else
      var s := s.(plan := plan, currentTaskID := "", retryCount := 0);
      match NextTask(plan.tasks, s.completed)
      case None => s.(phase := Summarising)
      case Some(t) => s.(currentTaskID := t.id, phase := Executing)
  }

  function AdvanceExecute(s: State, outcome: Outcome): State {
    s.(iterations := s.iterations + 1,
       costUSD := s.costUSD + outcome.costUSD,
       pendingOutcome := Some(outcome.(taskID := s.currentTaskID)),
       phase := Evaluating)
  }

  function File(s: State, o: Outcome, success: bool): State {
    if success then s.(completed := s.completed + [o.(success := true)])
    else s.(failed := s.failed + [o.(success := false)])
  }

  /** The confidence gate: a claimed success below the threshold becomes a failure worth another look. */
  function Gated(cfg: Config, e: Evaluation): Evaluation {
    if e.taskSucceeded && cfg.minConfidence > 0.0 && e.confidence < cfg.minConfidence
    then e.(taskSucceeded := false, retry := true, reason := "downgraded: " + e.reason)
    else e
  }

  function AdvanceEvaluate(s: State, cfg: Config, evaluation: Evaluation): State {
    if s.pendingOutcome.None? then Fail(s)
    else
      var outcome := s.pendingOutcome.value;
      var eval := Gated(cfg, evaluation);
      if eval.humanRequired then
        File(s, outcome, eval.taskSucceeded).(pendingOutcome := None, phase := Summarising, stop := StopHumanRequired)
      else if eval.taskSucceeded then
        AfterSuccess(File(s, outcome, true).(pendingOutcome := None, retryCount := 0), eval)
      else
        AfterFailure(File(s, outcome, false), cfg, outcome, eval)
  }

  function AfterSuccess(s: State, eval: Evaluation): State {
    if eval.goalAchieved then s.(phase := Summarising, stop := StopGoalAchieved)
    else
      match NextTask(s.plan.tasks, s.completed)
      case None => s.(phase := Summarising)
      case Some(next) => s.(currentTaskID := next.id, phase := Executing)
  }

  function AfterFailure(s: State, cfg: Config, outcome: Outcome, eval: Evaluation): State {
    if ShouldRetry(outcome, eval, s.retryCount, cfg.retry) then
      var s := s.(retryCount := s.retryCount + 1);
      if cfg.reflection
      then s.(pendingOutcome := Some(outcome), pendingEvaluation := Some(eval), phase := Reflecting)
      else s.(pendingOutcome := None, pendingEvaluation := None, phase := Executing)
    else
      var s := s.(pendingOutcome := None, pendingEvaluation := None);
      if eval.replan then
        s.(replans := s.replans + 1, retryCount := 0, currentTaskID := "", phase := Planning)
      else
        s.(stop := if eval.retry then StopMaxRetries else StopCriticalFailure, phase := Summarising)
  }

  function AdvanceReflect(s: State, refl: Reflection): State {
    s.(reflections := s.reflections + [refl],
       plan := if refl.revisedInstructions != ""
               then s.plan.(tasks := Revised(s.plan.tasks, s.currentTaskID, refl.revisedInstructions))
               else s.plan,
       pendingOutcome := None,
       pendingEvaluation := None,
       phase := Executing)
  }

  function AdvanceSummarise(s: State, cfg: Config, summary: Summary, now: Time): State {
    var s := s.(summary := Some(summary));
    var reason := if s.stop == StopNone then CheckStops(s, cfg, now) else s.stop;
    if reason == StopGoalAchieved then s.(phase := Done)
    else if reason.Terminal() then s.(phase := Stopped, stop := reason)
    else s.(phase := Done)
  }
}
