/**
 * The code as it runs: the reducer calling its validation and search loops, and the driver loop around it.
 * The methods return what the definitions the theorems are about say; their contracts also say what that
 * means for the state's owner: what is filed, what is billed, and what is left alone.
 */
module Driver {
  import opened Prelude
  import opened LoopVocabulary
  import opened PlanCheck
  import opened Scheduler
  import opened Retry
  import opened Controller
  import opened Runner
  import opened Safety
  import opened Accounting
  import opened Termination
  import opened WorkBound

  /** A plan is taken in only if valid, with its first ready task; what has been done is not forgotten. */
  method ReducePlan(s0: State, plan: Plan) returns (s: State)
    ensures s == AdvancePlan(s0, plan)
    ensures ValidPlan(plan) <==> !s.phase.Failed?
    ensures s.phase.Executing? ==> CurrentTask(s).Some? && Ready(CurrentTask(s).value, s0.completed)
    ensures s.phase.Summarising? ==> forall i :: 0 <= i < |plan.tasks| ==> !Ready(plan.tasks[i], s0.completed)
    ensures s.completed == s0.completed && s.failed == s0.failed && s.costUSD == s0.costUSD
  {
    var err := Validate(plan);
    if err.Some? {
      s := Fail(s0);
      return;
    }
    s := s0;
    s := s.(plan := plan);
    s := s.(currentTaskID := "");
    s := s.(retryCount := 0);
    var task, ok := SelectNext(s.plan.tasks, s.completed);
    ghost var _ := NextIsFirstReady(plan.tasks, s0.completed);
    if !ok {
      s := s.(phase := Summarising);
      return;
    }
    s := s.(currentTaskID := task.id);
    s := s.(phase := Executing);
    NextIsFound(plan.tasks, s0.completed);
    hide ValidPlan, NextTask, Ready;
  }

  lemma NextIsFound(tasks: seq<Task>, completed: seq<Outcome>)
    requires Schedulable(tasks) && NextTask(tasks, completed).Some?
    ensures TaskByID(tasks, NextTask(tasks, completed).value.id) == NextTask(tasks, completed)
    ensures Ready(NextTask(tasks, completed).value, completed)
  {
    var i := NextIsFirstReady(tasks, completed);
    FoundByItsID(tasks, i);
  }

  /** After a success: the objective is met, or the next ready task is up, or nothing is ready. */
  method ReduceSuccess(s0: State, eval: Evaluation) returns (s: State)
    ensures s == AfterSuccess(s0, eval)
    ensures !eval.goalAchieved && s.phase.Executing? ==>
      exists i :: 0 <= i < |s.plan.tasks| && s.plan.tasks[i].id == s.currentTaskID && Ready(s.plan.tasks[i], s.completed)
    ensures !eval.goalAchieved && !s.phase.Executing? ==>
      s.phase.Summarising? && forall i :: 0 <= i < |s.plan.tasks| ==> !Ready(s.plan.tasks[i], s.completed)
    ensures s.plan == s0.plan && s.completed == s0.completed && s.failed == s0.failed
  {
    hide Ready;
    s := s0;
    if eval.goalAchieved {
      s := s.(phase := Summarising);
      s := s.(stop := StopGoalAchieved);
      return;
    }
    var next, ok := SelectNext(s.plan.tasks, s.completed);
    ghost var _ := NextIsFirstReady(s.plan.tasks, s.completed);
    hide NextTask;
    if !ok {
      s := s.(phase := Summarising);
      return;
    }
    s := s.(currentTaskID := next.id);
    s := s.(phase := Executing);
  }

  /** A verdict files the waiting outcome, in one list, with the verdict as its flag; it bills nothing. */
  method ReduceEvaluate(s0: State, cfg: Config, evaluation: Evaluation) returns (s: State)
    ensures s == AdvanceEvaluate(s0, cfg, evaluation)
    ensures s0.pendingOutcome.Some? ==>
      var o := s0.pendingOutcome.value;
      if Gated(cfg, evaluation).taskSucceeded
      then s.completed == s0.completed + [o.(success := true)] && s.failed == s0.failed
      else s.completed == s0.completed && s.failed == s0.failed + [o.(success := false)]
    ensures s.iterations == s0.iterations && s.costUSD == s0.costUSD && s.plan == s0.plan
    ensures Shape(s0) && s0.phase.Evaluating? ==> Shape(s) && !s.phase.Evaluating? && !Unjudged(s)
  {
    if Shape(s0) && s0.phase.Evaluating? {
      EvaluateKeepsShape(s0, cfg, evaluation);
      EvaluateSettles(s0, cfg, evaluation);
      VerdictMovesOn(s0, cfg, evaluation);
    }
    EvaluateLeaves(s0, cfg, evaluation);
    hide Shape, AfterSuccess, AfterFailure;
    s := s0;
    if s.pendingOutcome.None? {
      s := Fail(s);
      return;
    }
    EvaluateFiles(s0, cfg, evaluation);
    var eval, outcome := evaluation, s.pendingOutcome.value;
    var succeeded := eval.taskSucceeded;
    if succeeded && cfg.minConfidence > 0.0 && eval.confidence < cfg.minConfidence {
      succeeded := false;
      eval := eval.(taskSucceeded := false);
      eval := eval.(retry := true);
      eval := eval.(reason := "downgraded: " + eval.reason);
    }
    assert eval == Gated(cfg, evaluation) && succeeded == eval.taskSucceeded;
    if eval.humanRequired {
      s := File(s, outcome, succeeded);
      s := s.(pendingOutcome := None);
      s := s.(phase := Summarising);
      s := s.(stop := StopHumanRequired);
      return;
    }
    if succeeded {
      s := File(s, outcome, true);
      s := s.(pendingOutcome := None);
      s := s.(retryCount := 0);
      s := ReduceSuccess(s, eval);
      return;
    }
    s := AfterFailure(File(s, outcome, false), cfg, outcome, eval);
  }

  lemma VerdictMovesOn(s: State, cfg: Config, e: Evaluation)
    requires s.phase.Evaluating? && s.pendingOutcome.Some?
    ensures !AdvanceEvaluate(s, cfg, e).phase.Evaluating?
  {
    hide NextTask;
  }

  /** A reflection is recorded; only the current task's instructions may change, and the task runs again. */
  method ReduceReflect(s0: State, refl: Reflection) returns (s: State)
    ensures s == AdvanceReflect(s0, refl)
    ensures s.phase.Executing? && s.currentTaskID == s0.currentTaskID && s.reflections == s0.reflections + [refl]
    ensures |s.plan.tasks| == |s0.plan.tasks|
    ensures forall i :: 0 <= i < |s.plan.tasks| ==>
      var t, t' := s0.plan.tasks[i], s.plan.tasks[i];
      && t' == t.(instructions := t'.instructions)
      && (t'.instructions != t.instructions ==> t.id == s0.currentTaskID && t'.instructions == refl.revisedInstructions)
  {
    s := s0;
    s := s.(reflections := s.reflections + [refl]);
    if refl.revisedInstructions != "" {
      var tasks := WithRevisedInstructions(s.plan.tasks, s.currentTaskID, refl.revisedInstructions);
      s := s.(plan := s.plan.(tasks := tasks));
    }
    s := s.(pendingOutcome := None);
    s := s.(pendingEvaluation := None);
    s := s.(phase := Executing);
  }

  /** The result is one the phase asked for, going by the first product set. */
  predicate Expected(s: State, r: StepResult) {
    if r.engineErr then true
    else if r.plan.Some? then s.phase.Planning?
    else if r.outcome.Some? then s.phase.Executing?
    else if r.evaluation.Some? then s.phase.Evaluating?
    else if r.reflection.Some? then s.phase.Reflecting?
    else r.summary.Some? ==> !s.phase.Terminal() && !s.phase.Unknown?
  }

  /** What Advance bills to reasoning; an execution's cost travels on its outcome. */
  function Billed(r: StepResult): real {
    if r.engineErr then 0.0 else r.cost
  }

  ghost predicate OnlyAdds(s: State, s': State) {
    && s'.goal == s.goal && s'.startedAt == s.startedAt
    && s.completed <= s'.completed && s.failed <= s'.failed && s.reflections <= s'.reflections
    && |s'.completed| + |s'.failed| <= |s.completed| + |s.failed| + 1
    && s.iterations <= s'.iterations <= s.iterations + 1
    && s.replans <= s'.replans <= s.replans + 1
  }

  /**
   * One result folded in. Histories only grow, by at most one outcome, and the goal and the start stay. A
   * result the phase asked for keeps the state in shape and the books balanced, with its cost added once.
   */
  method Reduce(s0: State, cfg: Config, r: StepResult, now: Time) returns (s: State)
    ensures s == Advance(s0, cfg, r, now)
    ensures OnlyAdds(s0, s)
    ensures Shape(s0) && Expected(s0, r) ==> Shape(s)
    ensures forall x :: Shape(s0) && Expected(s0, r) && Balanced(s0, x) ==> Balanced(s, x + Billed(r))
  {
    AdvanceOnlyAdds(s0, cfg, r, now);
    if Shape(s0) && Expected(s0, r) {
      AdvanceKeepsShape(s0, cfg, r, now);
      forall x | Balanced(s0, x) ensures Balanced(Advance(s0, cfg, r, now), x + Billed(r)) {
        AdvanceBalances(s0, cfg, r, now, x);
      }
    }
    hide AdvancePlan, AdvanceExecute, AdvanceEvaluate, AdvanceReflect, AdvanceSummarise;
    hide Shape, Expected, Balanced, OnlyAdds, Billed;
    if r.engineErr {
      s := Fail(s0);
      return;
    }
    s := Paid(s0, r.cost);
    hide Paid, Fail;
    if r.plan.Some? {
      s := ReducePlan(s, r.plan.value);
    } else if r.outcome.Some? {
      s := AdvanceExecute(s, r.outcome.value);
    } else if r.evaluation.Some? {
      s := ReduceEvaluate(s, cfg, r.evaluation.value);
    } else if r.reflection.Some? {
      s := ReduceReflect(s, r.reflection.value);
    } else if r.summary.Some? {
      s := AdvanceSummarise(s, cfg, r.summary.value, now);
    } else {
      s := Fail(s);
    }
  }

  lemma AdvanceOnlyAdds(s: State, cfg: Config, r: StepResult, now: Time)
    ensures OnlyAdds(s, Advance(s, cfg, r, now))
  {
    hide ValidPlan, NextTask, Revised, CheckStops, AfterSuccess, AfterFailure, AdvanceEvaluate;
    if !r.engineErr && r.plan.None? && r.outcome.None? && r.evaluation.Some? {
      EvaluateOnlyAdds(Paid(s, r.cost), cfg, r.evaluation.value);
    }
  }

  lemma EvaluateOnlyAdds(s: State, cfg: Config, e: Evaluation)
    ensures OnlyAdds(s, AdvanceEvaluate(s, cfg, e))
  {
    hide NextTask, Gated, ShouldRetry;
  }

  lemma AdvanceKeepsShape(s: State, cfg: Config, r: StepResult, now: Time)
    requires Shape(s) && Expected(s, r)
    ensures Shape(Advance(s, cfg, r, now))
  {
    hide AdvancePlan, AdvanceExecute, AdvanceEvaluate, AdvanceReflect, AdvanceSummarise, Fail, Shape;
    FailKeepsShape(s);
    if !r.engineErr {
      PaidKeepsShape(s, r.cost);
      var p := Paid(s, r.cost);
      FailKeepsShape(p);
      if r.plan.Some? {
        PlanKeepsShape(p, r.plan.value);
      } else if r.outcome.Some? {
        ExecuteKeepsShape(p, r.outcome.value);
      } else if r.evaluation.Some? {
        EvaluateKeepsShape(p, cfg, r.evaluation.value);
      } else if r.reflection.Some? {
        ReflectKeepsShape(p, r.reflection.value);
      } else if r.summary.Some? {
        SummariseKeepsShape(p, cfg, r.summary.value, now);
      }
    }
  }

  lemma AdvanceBalances(s: State, cfg: Config, r: StepResult, now: Time, reasoning: real)
    requires Shape(s) && Expected(s, r) && Balanced(s, reasoning)
    ensures Balanced(Advance(s, cfg, r, now), reasoning + Billed(r))
  {
    hide AdvanceEvaluate, Scheduled, History, Total, NextTask, ValidPlan, Revised, CheckStops;
    if !r.engineErr && r.plan.None? && r.outcome.None? && r.evaluation.Some? {
      PaidKeepsShape(s, r.cost);
      EvaluateBalances(Paid(s, r.cost), cfg, r.evaluation.value, reasoning + r.cost);
    }
  }

  method FinishRun(s0: State, stop: StopReason) returns (s: State, err: RunError)
    ensures s == Finish(s0, stop) && s.phase.Terminal() && err == FinishError(s)
  {
    s := s0.(stop := stop);
    if !s.phase.Terminal() {
      s := s.(phase := Stopped);
    }
    if s.phase.Done? {
      err := NoError;
    } else {
      err := StoppedShort(s.stop);
    }
  }

  // ---- When the driver returns

  /** Turn n is where Run returns: told to stop, or cancelled in a backoff. */
  ghost predicate ReturnsAt(cfg: Config, goal: Goal, w: World, n: nat) {
    var a := ActionAt(cfg, goal, w, n);
    a.ActStop? || (Sleeps(a) && w.interrupted(n))
  }

  ghost predicate Returns(cfg: Config, goal: Goal, w: World) {
    exists n :: ReturnsAt(cfg, goal, w, n)
  }

  /** Run is certain to return, whatever the engines, the clock and the caller do, iff one of the two caps is set. */
  lemma ReturnsForSureIffCapped(cfg: Config, goal: Goal)
    ensures (forall w :: Returns(cfg, goal, w)) <==> cfg.maxIterations >= 1 || cfg.maxReplans >= 1
  {
    hide StateAt, Decide;
    if cfg.maxIterations >= 1 || cfg.maxReplans >= 1 {
      EndsForSureIffCapped(cfg, goal);
      forall w ensures Returns(cfg, goal, w) {
        assert Ends(cfg, goal, w);
        var n :| EndsAt(cfg, goal, w, n);
        assert ReturnsAt(cfg, goal, w, n);
      }
    } else {
      CirclesForever(cfg, goal);
      forall n: nat ensures !ReturnsAt(cfg, goal, CIRCLES, n) {
        assert GoesOnAt(cfg, goal, CIRCLES, n);
      }
      assert !Returns(cfg, goal, CIRCLES);
    }
  }

  lemma RunLength(cfg: Config, goal: Goal, w: World, n: nat)
    requires Going(cfg, goal, w, n)
    ensures cfg.maxIterations >= 1 ==> n <= 3 * cfg.maxIterations
  {
    hide StateAt, ActionAt;
    if cfg.maxIterations >= 1 {
      CallsAreCounted(cfg, goal, w, n);
    }
  }

  /** A run still going after n turns that does not return now is still going after one more. */
  lemma GoesOn(cfg: Config, goal: Goal, w: World, n: nat)
    requires Going(cfg, goal, w, n)
    ensures !ReturnsAt(cfg, goal, w, n) ==> Going(cfg, goal, w, n + 1)
  {
    hide StateAt, ActionAt;
  }

  /**
   * Run returns after n turns, the first turn that tells it to. It refuses an invalid goal before any engine
   * is called; it gives up as it stands when a backoff is cancelled; and otherwise it hands back the finished
   * state, with no error exactly when the phase is done. Under an iteration cap of M it makes at most 3M
   * calls. What it needs is that there be such a turn: on any other world the source does not return either.
   */
  method Run(cfg: Config, goal: Goal, w: World) returns (s: State, err: RunError, n: nat)
    requires ValidGoal(goal) ==> Returns(cfg, goal, w)
    ensures err.InvalidGoal? <==> !ValidGoal(goal)
    ensures err.InvalidGoal? ==> s == ZERO_STATE
    ensures ValidGoal(goal) ==> Going(cfg, goal, w, n)
    ensures err.Interrupted? ==>
              Sleeps(ActionAt(cfg, goal, w, n)) && w.interrupted(n) && s == StateAt(cfg, goal, w, n)
    ensures err.NoError? || err.StoppedShort? ==>
              && ActionAt(cfg, goal, w, n).ActStop? && s == FinalState(cfg, goal, w, n)
              && s.phase.Terminal() && err == FinishError(s) && (err.NoError? <==> s.phase.Done?)
    ensures ValidGoal(goal) && cfg.maxIterations >= 1 ==> n <= 3 * cfg.maxIterations
  {
    n := 0;
    if !ValidGoal(goal) {
      return ZERO_STATE, InvalidGoal, 0;
    }
    s := Initial(goal, w.started);
    ghost var last: nat :| ReturnsAt(cfg, goal, w, last);
    hide Step, Decide, ValidGoal, Perform, Advance, Going, Returns, OnlyAdds, Shape, Balanced, Expected, Billed;
    hide StateAt, ActionAt, Initial;
    NothingYet(cfg, goal, w);
    while true
      invariant s == StateAt(cfg, goal, w, n) && Going(cfg, goal, w, n) && n <= last
      decreases last - n
    {
      RunLength(cfg, goal, w, n);
      GoesOn(cfg, goal, w, n);
      NextState(cfg, goal, w, n);
      var action := Decide(s, cfg, w.decideAt(n));
      if action.ActStop? {
        s, err := FinishRun(s, action.stop);
        return s, err, n;
      }
      if action.ActExecute? && action.delay > 0 {
        var cancelled := w.interrupted(n);
        if cancelled {
          return s, Interrupted, n;
        }
      }
      assert !ReturnsAt(cfg, goal, w, n) && n != last;
      var result := Perform(s, action, w.answers(n));
      StepIsReduction(cfg, s, w.decideAt(n), w.answers(n), w.advanceAt(n));
      s := Reduce(s, cfg, result, w.advanceAt(n));
      n := n + 1;
    }
  }

  lemma NothingYet(cfg: Config, goal: Goal, w: World)
    ensures Going(cfg, goal, w, 0) && StateAt(cfg, goal, w, 0) == Initial(goal, w.started)
  {
  }

  lemma StepIsReduction(cfg: Config, s: State, decided: Time, ans: Answers, advanced: Time)
    requires !Decide(s, cfg, decided).ActStop?
    ensures Step(cfg, s, decided, ans, advanced) == Advance(s, cfg, Perform(s, Decide(s, cfg, decided), ans), advanced)
  {
    hide Decide, Advance, Perform;
  }
}
