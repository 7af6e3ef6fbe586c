/** What every reachable state of the loop satisfies, and what that says about scheduling. */
module Safety {
  import opened Prelude
  import opened LoopVocabulary
  import opened PlanCheck
  import opened Scheduler
  import opened Retry
  import opened Controller
  import opened Runner

  /** The current task is in the plan, has not succeeded, and everything it depends on has. */
  ghost predicate Scheduled(s: State) {
    && Schedulable(s.plan.tasks)
    && CurrentTask(s).Some?
    && Ready(CurrentTask(s).value, s.completed)
  }

  /** No ID succeeds twice. */
  ghost predicate SucceedsOnce(s: State) {
    forall i, j :: 0 <= i < j < |s.completed| ==> s.completed[i].taskID != s.completed[j].taskID
  }

  /** Completed holds only successes, Failed only failures, and no task is completed twice. */
  ghost predicate History(s: State) {
    && (forall i :: 0 <= i < |s.completed| ==> s.completed[i].success)
    && (forall i :: 0 <= i < |s.failed| ==> !s.failed[i].success)
    && SucceedsOnce(s)
  }

  /** What each phase may assume about the fields it reads. */
  ghost predicate Shape(s: State) {
    && History(s)
    && (s.phase.Working() ==> Scheduled(s))
    && (!s.phase.Terminal() ==> s.summary.None?)
    && (s.phase.Planning? || s.phase.Working() ==> s.stop.StopNone?)
    && match s.phase
       case Planning =>
         s.pendingOutcome.None? && s.pendingEvaluation.None? && s.currentTaskID == "" && s.retryCount == 0
       case Executing =>
         s.pendingOutcome.None? && s.pendingEvaluation.None?
       case Evaluating =>
         s.pendingOutcome.Some? && s.pendingOutcome.value.taskID == s.currentTaskID && s.pendingEvaluation.None?
       case Reflecting =>
         s.pendingOutcome.Some? && s.pendingOutcome.value.taskID == s.currentTaskID && s.pendingEvaluation.Some?
         && s.retryCount > 0
       case Summarising =>
         && s.pendingOutcome.None? && s.pendingEvaluation.None?
         && s.stop in {StopNone, StopGoalAchieved, StopHumanRequired, StopMaxRetries, StopCriticalFailure}
         && (s.stop.StopNone? ==> Schedulable(s.plan.tasks) && NextTask(s.plan.tasks, s.completed).None?)
       case Done => s.stop in {StopNone, StopGoalAchieved}
       case Stopped => s.stop !in {StopNone, StopGoalAchieved}
       case Failed => s.stop.StopCriticalFailure?
       case Unknown(_) => false
  }

  /** Each action is only ever asked for in the phase it belongs to; a summary may be asked for in any. */
  ghost predicate Fits(s: State, a: Action) {
    match a
    case ActPlan => s.phase.Planning?
    case ActExecute(t, _) => s.phase.Executing? && CurrentTask(s) == Some(t)
    case ActEvaluate(t, o) => s.phase.Evaluating? && CurrentTask(s) == Some(t) && s.pendingOutcome == Some(o)
    case ActReflect(t, o, e) =>
      && s.phase.Reflecting? && CurrentTask(s) == Some(t)
      && s.pendingOutcome == Some(o) && s.pendingEvaluation == Some(e)
    case ActSummarise(_) => !s.phase.Terminal() && !s.phase.Unknown?
    case ActStop(_) => s.phase.Terminal() || s.phase.Summarising?
  }

  lemma DecisionsFit(cfg: Config, s: State, decided: Time)
    requires Shape(s)
    ensures Fits(s, Decide(s, cfg, decided))
  {
  }

  lemma NextIsScheduled(s: State)
    requires Schedulable(s.plan.tasks) && NextTask(s.plan.tasks, s.completed).Some?
    ensures var t := NextTask(s.plan.tasks, s.completed).value;
            Scheduled(s.(currentTaskID := t.id)) && CurrentTask(s.(currentTaskID := t.id)) == Some(t)
  {
    var t := NextTask(s.plan.tasks, s.completed).value;
    var i := NextIsFirstReady(s.plan.tasks, s.completed);
    hide Ready, NextTask;
    FoundByItsID(s.plan.tasks, i);
  }

  lemma PlanKeepsShape(s: State, plan: Plan)
    requires Shape(s) && s.phase.Planning?
    ensures Shape(AdvancePlan(s, plan))
  {
    if ValidPlan(plan) && NextTask(plan.tasks, s.completed).Some? {
      NextIsScheduled(s.(plan := plan));
    }
  }

  lemma CompletedStaysDistinct(s: State, o: Outcome)
    requires Shape(s) && s.phase.Evaluating? && o == s.pendingOutcome.value
    ensures History(File(s, o, true)) && History(File(s, o, false))
  {
    assert !IsDone(s.completed, s.currentTaskID);
  }

  lemma SuccessKeepsShape(s: State, e: Evaluation)
    requires History(s) && Schedulable(s.plan.tasks) && s.summary.None? && s.stop.StopNone?
    requires s.pendingOutcome.None? && s.pendingEvaluation.None?
    ensures Shape(AfterSuccess(s, e))
  {
    if NextTask(s.plan.tasks, s.completed).Some? {
      NextIsScheduled(s);
    }
  }

  lemma FailureKeepsShape(s: State, cfg: Config, o: Outcome, e: Evaluation)
    requires History(s) && Scheduled(s) && s.summary.None? && s.stop.StopNone?
    requires o.taskID == s.currentTaskID && s.pendingEvaluation.None?
    ensures Shape(AfterFailure(s, cfg, o, e))
  {
  }

  lemma EvaluateKeepsShape(s: State, cfg: Config, e: Evaluation)
    requires Shape(s) && s.phase.Evaluating?
    ensures Shape(AdvanceEvaluate(s, cfg, e))
  {
    hide AfterSuccess, AfterFailure, Schedulable, NextTask, Ready;
    var o := s.pendingOutcome.value;
    CompletedStaysDistinct(s, o);
    var g := Gated(cfg, e);
    SuccessKeepsShape(File(s, o, true).(pendingOutcome := None, retryCount := 0), g);
    FailureKeepsShape(File(s, o, false), cfg, o, g);
  }

  lemma ReflectKeepsShape(s: State, r: Reflection)
    requires Shape(s) && s.phase.Reflecting?
    ensures Shape(AdvanceReflect(s, r))
  {
    hide TaskByID, Revised, Schedulable;
    var t := CurrentTask(s).value;
    var i :| 0 <= i < |s.plan.tasks| && s.plan.tasks[i] == t;
    RevisedStaysSchedulable(s.plan.tasks, s.currentTaskID, r.revisedInstructions);
    FoundByItsID(Revised(s.plan.tasks, s.currentTaskID, r.revisedInstructions), i);
    FoundByItsID(s.plan.tasks, i);
  }

  lemma ExecuteKeepsShape(s: State, o: Outcome)
    requires Shape(s) && s.phase.Executing?
    ensures Shape(AdvanceExecute(s, o))
  {
  }

  lemma SummariseKeepsShape(s: State, cfg: Config, m: Summary, now: Time)
    requires Shape(s) && !s.phase.Terminal()
    ensures Shape(AdvanceSummarise(s, cfg, m, now))
  {
  }

  lemma FailKeepsShape(s: State)
    requires Shape(s)
    ensures Shape(Fail(s))
  {
  }

  lemma PaidKeepsShape(s: State, cost: real)
    requires Shape(s)
    ensures Shape(Paid(s, cost))
  {
  }

  lemma TurnKeepsShape(cfg: Config, s: State, a: Action, ans: Answers, advanced: Time)
    requires Shape(s) && Fits(s, a)
    ensures Shape(Turn(cfg, s, a, ans, advanced))
  {
    hide AdvancePlan, AdvanceExecute, AdvanceEvaluate, AdvanceReflect, AdvanceSummarise, Fail;
    FailKeepsShape(s);
    match a
    case ActPlan =>
      if ans.plan.Answered? {
        PaidKeepsShape(s, ans.plan.cost);
        PlanKeepsShape(Paid(s, ans.plan.cost), ans.plan.value);
      }
    case ActExecute(t, _) => ExecuteKeepsShape(s, Ran(t, ans));
    case ActEvaluate(_, _) =>
      if ans.evaluation.Answered? {
        PaidKeepsShape(s, ans.evaluation.cost);
        EvaluateKeepsShape(Paid(s, ans.evaluation.cost), cfg, ans.evaluation.value);
      }
    case ActReflect(_, _, _) =>
      if ans.reflection.Answered? {
        PaidKeepsShape(s, ans.reflection.cost);
        ReflectKeepsShape(Paid(s, ans.reflection.cost), ans.reflection.value);
      }
    case ActSummarise(_) =>
      var (m, c) := Account(s, ans);
      PaidKeepsShape(s, c);
      SummariseKeepsShape(Paid(s, c), cfg, m, advanced);
    case ActStop(_) =>
  }

  lemma StepKeepsShape(cfg: Config, s: State, decided: Time, ans: Answers, advanced: Time)
    requires Shape(s)
    ensures Shape(Step(cfg, s, decided, ans, advanced))
  {
    hide Step, Decide, Turn, Shape;
    DecisionsFit(cfg, s, decided);
    StepIsTurn(cfg, s, decided, ans, advanced);
    TurnKeepsShape(cfg, s, Decide(s, cfg, decided), ans, advanced);
  }

  lemma {:induction false} EveryStateHasShape(cfg: Config, goal: Goal, w: World, n: nat)
    ensures Shape(StateAt(cfg, goal, w, n))
  {
    hide Step;
    if n > 0 {
      EveryStateHasShape(cfg, goal, w, n - 1);
      StepKeepsShape(cfg, StateAt(cfg, goal, w, n - 1), w.decideAt(n - 1), w.answers(n - 1), w.advanceAt(n - 1));
    }
  }

  /** What is worked on is ready, it is what the action names, and only a finished or cut-off run is stopped. */
  ghost predicate WorksOnReadyTask(s: State, a: Action, cfg: Config, now: Time) {
    && (s.phase.Working() ==>
          && CurrentTask(s).Some? && CurrentTask(s).value in s.plan.tasks
          && Ready(CurrentTask(s).value, s.completed))
    && (a.ActExecute? ==> s.phase.Executing? && CurrentTask(s) == Some(a.task))
    && (a.ActEvaluate? ==> s.phase.Evaluating? && CurrentTask(s) == Some(a.judged)
                           && a.outcome.taskID == a.judged.id)
    && (a.ActReflect? ==> s.phase.Reflecting? && CurrentTask(s) == Some(a.task))
    && (a.ActStop? ==> s.phase.Terminal() || (s.phase.Summarising? && CheckStops(s, cfg, now).Terminal()))
  }

  lemma DecisionWorksOnReadyTask(s: State, cfg: Config, now: Time)
    requires Shape(s)
    ensures WorksOnReadyTask(s, Decide(s, cfg, now), cfg, now)
  {
    hide History, CheckStops;
  }

  ghost predicate TurnWorksOnReadyTask(cfg: Config, goal: Goal, w: World, n: nat) {
    WorksOnReadyTask(StateAt(cfg, goal, w, n), ActionAt(cfg, goal, w, n), cfg, w.decideAt(n))
  }

  /**
   * Scheduling safety, at every turn of every run: a working phase always has a current task of the plan
   * that has not succeeded and whose dependencies have; it is the task the action names; and the stops that
   * guard against a corrupted state never fire.
   */
  lemma {:induction false} OnlyReadyTasksAreWorkedOn(cfg: Config, goal: Goal, w: World)
    ensures forall n: nat :: TurnWorksOnReadyTask(cfg, goal, w, n)
  {
    forall n: nat ensures TurnWorksOnReadyTask(cfg, goal, w, n) {
      hide Step, StateAt, Shape, Decide, WorksOnReadyTask;
      EveryStateHasShape(cfg, goal, w, n);
      DecisionWorksOnReadyTask(StateAt(cfg, goal, w, n), cfg, w.decideAt(n));
    }
  }

  /** A verdict bills nothing, counts nothing and leaves the plan alone. */
  lemma EvaluateLeaves(s: State, cfg: Config, e: Evaluation)
    ensures var s' := AdvanceEvaluate(s, cfg, e);
            s'.iterations == s.iterations && s'.costUSD == s.costUSD && s'.plan == s.plan
  {
    hide NextTask;
  }

  lemma EvaluateFiles(s: State, cfg: Config, e: Evaluation)
    requires s.pendingOutcome.Some?
    ensures var o, s' := s.pendingOutcome.value, AdvanceEvaluate(s, cfg, e);
            if Gated(cfg, e).taskSucceeded
            then s'.completed == s.completed + [o.(success := true)] && s'.failed == s.failed
            else s'.completed == s.completed && s'.failed == s.failed + [o.(success := false)]
  {
  }

  /** Completed grew by one success of a task that was ready under the plan of the state before. */
  ghost predicate CompletedReadyTask(s: State, s': State) {
    exists t: Task, o: Outcome ::
      && s'.completed == s.completed + [o]
      && o.taskID == t.id && o.success
      && t in s.plan.tasks && Ready(t, s.completed)
  }

  lemma TurnCompletesReadyTasks(cfg: Config, s: State, a: Action, ans: Answers, advanced: Time)
    requires Shape(s) && Fits(s, a)
    ensures var s' := Turn(cfg, s, a, ans, advanced);
            s'.completed == s.completed || CompletedReadyTask(s, s')
  {
    hide AdvanceEvaluate;
    if a.ActEvaluate? && ans.evaluation.Answered? {
      var s' := AdvanceEvaluate(Paid(s, ans.evaluation.cost), cfg, ans.evaluation.value);
      EvaluateFiles(Paid(s, ans.evaluation.cost), cfg, ans.evaluation.value);
      var o := a.outcome.(success := true);
      assert s'.completed == s.completed || s'.completed == s.completed + [o];
      assert o.taskID == a.judged.id;
      assert s'.completed == s.completed || CompletedReadyTask(s, s');
    }
  }

  lemma StepCompletesReadyTasks(cfg: Config, s: State, decided: Time, ans: Answers, advanced: Time)
    requires Shape(s)
    ensures var s' := Step(cfg, s, decided, ans, advanced);
            s'.completed == s.completed || CompletedReadyTask(s, s')
  {
    hide Step, Decide, Turn, CompletedReadyTask, Shape;
    DecisionsFit(cfg, s, decided);
    StepIsTurn(cfg, s, decided, ans, advanced);
    TurnCompletesReadyTasks(cfg, s, Decide(s, cfg, decided), ans, advanced);
  }

  /** Turn n leaves Completed alone or adds a task that was ready, and nothing in it is there twice. */
  ghost predicate CompletesInOrder(cfg: Config, goal: Goal, w: World, n: nat) {
    var s, s' := StateAt(cfg, goal, w, n), StateAt(cfg, goal, w, n + 1);
    SucceedsOnce(s) && (s'.completed == s.completed || CompletedReadyTask(s, s'))
  }

  /**
   * Over a whole run, replans included: Completed only ever grows, by successes filed while their task was
   * current, after everything that task depended on under its own plan, and never twice for one ID.
   */
  lemma SuccessFollowsItsDependencies(cfg: Config, goal: Goal, w: World)
    ensures forall n: nat :: CompletesInOrder(cfg, goal, w, n)
  {
    forall n: nat ensures CompletesInOrder(cfg, goal, w, n) {
      hide Step, CompletedReadyTask;
      EveryStateHasShape(cfg, goal, w, n);
      StepCompletesReadyTasks(cfg, StateAt(cfg, goal, w, n), w.decideAt(n), w.answers(n), w.advanceAt(n));
    }
  }

  // ---- Retry discipline

  /** The last RetryCount failures are transient failures of the task being worked on. */
  ghost predicate RetriesEarned(s: State, cfg: Config) {
    && (s.retryCount > 0 ==> s.retryCount <= cfg.retry.maxRetries)
    && (s.phase.Working() ==>
          && s.retryCount <= |s.failed|
          && forall i :: |s.failed| - s.retryCount <= i < |s.failed| ==>
               s.failed[i].transient && s.failed[i].taskID == s.currentTaskID)
  }

  lemma SuccessKeepsRetriesEarned(s: State, cfg: Config, e: Evaluation)
    requires s.retryCount == 0
    ensures RetriesEarned(AfterSuccess(s, e), cfg)
  {
    hide NextTask;
  }

  lemma FailureKeepsRetriesEarned(s: State, cfg: Config, o: Outcome, e: Evaluation)
    requires s.phase.Evaluating? && RetriesEarned(s, cfg) && o.taskID == s.currentTaskID
    ensures RetriesEarned(AfterFailure(File(s, o, false), cfg, o, e), cfg)
  {
  }

  lemma EvaluateKeepsRetriesEarned(s: State, cfg: Config, e: Evaluation)
    requires Shape(s) && s.phase.Evaluating? && RetriesEarned(s, cfg)
    ensures RetriesEarned(AdvanceEvaluate(s, cfg, e), cfg)
  {
    hide NextTask, AfterSuccess, AfterFailure, History, Scheduled;
    var o, g := s.pendingOutcome.value, Gated(cfg, e);
    SuccessKeepsRetriesEarned(File(s, o, true).(pendingOutcome := None, retryCount := 0), cfg, g);
    FailureKeepsRetriesEarned(s, cfg, o, g);
  }

  lemma OtherTurnsLeaveFailures(cfg: Config, s: State, a: Action, ans: Answers, advanced: Time)
    requires Fits(s, a) && !a.ActEvaluate?
    ensures var s' := Turn(cfg, s, a, ans, advanced);
            && s'.failed == s.failed
            && (|| s'.retryCount == 0
                || (s'.retryCount == s.retryCount && s'.currentTaskID == s.currentTaskID
                    && (s'.phase.Working() ==> s.phase.Working())))
  {
    hide NextTask, ValidPlan, Revised, CheckStops, FallbackSummary, CurrentTask, AdvanceEvaluate;
  }

  lemma TurnKeepsRetriesEarned(cfg: Config, s: State, a: Action, ans: Answers, advanced: Time)
    requires Shape(s) && Fits(s, a) && RetriesEarned(s, cfg)
    ensures RetriesEarned(Turn(cfg, s, a, ans, advanced), cfg)
  {
    if a.ActEvaluate? {
      if ans.evaluation.Answered? {
        hide AdvanceEvaluate, Shape;
        PaidKeepsShape(s, ans.evaluation.cost);
        EvaluateKeepsRetriesEarned(Paid(s, ans.evaluation.cost), cfg, ans.evaluation.value);
      }
    } else {
      hide Turn, Shape;
      OtherTurnsLeaveFailures(cfg, s, a, ans, advanced);
    }
  }

  lemma StepKeepsRetriesEarned(cfg: Config, s: State, decided: Time, ans: Answers, advanced: Time)
    requires Shape(s) && RetriesEarned(s, cfg)
    ensures RetriesEarned(Step(cfg, s, decided, ans, advanced), cfg)
  {
    hide Step, Decide, Turn, RetriesEarned, Shape;
    DecisionsFit(cfg, s, decided);
    StepIsTurn(cfg, s, decided, ans, advanced);
    TurnKeepsRetriesEarned(cfg, s, Decide(s, cfg, decided), ans, advanced);
  }

  lemma {:induction false} RetriesAreAlwaysEarned(cfg: Config, goal: Goal, w: World, n: nat)
    ensures RetriesEarned(StateAt(cfg, goal, w, n), cfg)
  {
    hide Step, Shape;
    if n > 0 {
      RetriesAreAlwaysEarned(cfg, goal, w, n - 1);
      EveryStateHasShape(cfg, goal, w, n - 1);
      StepKeepsRetriesEarned(cfg, StateAt(cfg, goal, w, n - 1), w.decideAt(n - 1), w.answers(n - 1), w.advanceAt(n - 1));
    }
  }

  /** The wait before an execution grows with the run of failures just behind it, of this very task. */
  ghost predicate WaitsItsTurn(s: State, a: Action, p: RetryPolicy, m: nat) {
    a.ActExecute? ==>
      && (s.retryCount == 0 ==> a.delay == 0)
      && (s.retryCount > 0 ==>
            var uncapped := p.baseDelay * Power(m, s.retryCount - 1);
            a.delay == if p.maxDelay > 0 && uncapped > p.maxDelay then p.maxDelay else uncapped)
      && s.retryCount <= |s.failed|
      && forall i :: |s.failed| - s.retryCount <= i < |s.failed| ==>
           s.failed[i].transient && s.failed[i].taskID == a.task.id
  }

  lemma DecisionWaitsItsTurn(s: State, cfg: Config, now: Time, m: nat)
    requires Shape(s) && RetriesEarned(s, cfg)
    requires cfg.retry.baseDelay >= 0 && m >= 1 && cfg.retry.multiplier == m as real
    ensures WaitsItsTurn(s, Decide(s, cfg, now), cfg.retry, m)
  {
    var a := Decide(s, cfg, now);
    assert a.ActExecute? ==> a.delay == if s.retryCount > 0 then Backoff(cfg.retry, s.retryCount) else 0;
    DecisionsFit(cfg, s, now);
    hide Decide, Shape, Backoff, Power, CheckStops;
    if s.retryCount > 0 {
      BackoffClosedForm(cfg.retry, m, s.retryCount);
    }
  }

  /**
   * At every turn of every run, a first attempt starts at once and the k-th retry waits Base * m^(k-1), cut
   * off at MaxDelay, where the k failures before it were transient failures of the same task.
   */
  lemma RetriesWaitTheirTurn(cfg: Config, goal: Goal, w: World, m: nat)
    requires cfg.retry.baseDelay >= 0 && m >= 1 && cfg.retry.multiplier == m as real
    ensures forall n: nat :: WaitsItsTurn(StateAt(cfg, goal, w, n), ActionAt(cfg, goal, w, n), cfg.retry, m)
  {
    forall n: nat ensures WaitsItsTurn(StateAt(cfg, goal, w, n), ActionAt(cfg, goal, w, n), cfg.retry, m) {
      hide StateAt, Shape, RetriesEarned, Decide, WaitsItsTurn;
      RetriesAreAlwaysEarned(cfg, goal, w, n);
      EveryStateHasShape(cfg, goal, w, n);
      DecisionWaitsItsTurn(StateAt(cfg, goal, w, n), cfg, w.decideAt(n), m);
    }
  }

  /** Between plans, or past the work altogether. */
  predicate Idle(s: State) {
    s.phase.Planning? || s.phase.Summarising? || s.phase.Terminal()
  }

  lemma IdleTurn(cfg: Config, s: State, a: Action, ans: Answers, advanced: Time)
    requires Idle(s) && Fits(s, a) && !a.ActPlan?
    ensures Idle(Turn(cfg, s, a, ans, advanced))
  {
  }

  lemma IdleUntilPlanned(cfg: Config, s: State, decided: Time, ans: Answers, advanced: Time)
    requires Shape(s) && Idle(s) && !Decide(s, cfg, decided).ActPlan?
    ensures Idle(Step(cfg, s, decided, ans, advanced))
  {
    hide Step, Decide, Turn, Shape;
    DecisionsFit(cfg, s, decided);
    StepIsTurn(cfg, s, decided, ans, advanced);
    IdleTurn(cfg, s, Decide(s, cfg, decided), ans, advanced);
  }

  lemma {:induction false} ExecutionNeedsAPlan(cfg: Config, goal: Goal, w: World, i: nat, j: nat)
    requires i <= j && Idle(StateAt(cfg, goal, w, i)) && ActionAt(cfg, goal, w, j).ActExecute?
    ensures exists k :: i <= k < j && ActionAt(cfg, goal, w, k).ActPlan?
    decreases j - i
  {
    hide Step;
    EveryStateHasShape(cfg, goal, w, i);
    if !ActionAt(cfg, goal, w, i).ActPlan? {
      IdleUntilPlanned(cfg, StateAt(cfg, goal, w, i), w.decideAt(i), w.answers(i), w.advanceAt(i));
      assert StateAt(cfg, goal, w, i + 1) ==
        Step(cfg, StateAt(cfg, goal, w, i), w.decideAt(i), w.answers(i), w.advanceAt(i));
      ExecutionNeedsAPlan(cfg, goal, w, i + 1, j);
    }
  }

  lemma DeterministicFailureIdles(s: State, cfg: Config, e: Evaluation)
    requires s.phase.Evaluating? && s.pendingOutcome.Some? && !s.pendingOutcome.value.transient
    requires !Gated(cfg, e).taskSucceeded
    ensures Idle(AdvanceEvaluate(s, cfg, e))
  {
  }

  lemma FailedTurnIdles(cfg: Config, s: State, decided: Time, ans: Answers, advanced: Time)
    requires Decide(s, cfg, decided).ActEvaluate? && !Decide(s, cfg, decided).outcome.transient
    requires Step(cfg, s, decided, ans, advanced).failed != s.failed
    ensures Idle(Step(cfg, s, decided, ans, advanced))
  {
    hide Advance, AdvanceEvaluate;
    StepIsTurn(cfg, s, decided, ans, advanced);
    if ans.evaluation.Answered? {
      var paid := Paid(s, ans.evaluation.cost);
      EvaluateFiles(paid, cfg, ans.evaluation.value);
      if !Gated(cfg, ans.evaluation.value).taskSucceeded {
        DeterministicFailureIdles(paid, cfg, ans.evaluation.value);
      }
    }
  }

  /** At turn i an outcome that was not transient was judged a failure, a downgraded success included. */
  ghost predicate FailsForGood(cfg: Config, goal: Goal, w: World, i: nat) {
    && ActionAt(cfg, goal, w, i).ActEvaluate? && !ActionAt(cfg, goal, w, i).outcome.transient
    && StateAt(cfg, goal, w, i + 1).failed != StateAt(cfg, goal, w, i).failed
  }

  ghost predicate PlansBetween(cfg: Config, goal: Goal, w: World, i: nat, j: nat) {
    exists k :: i < k < j && ActionAt(cfg, goal, w, k).ActPlan?
  }

  lemma PlanComesBetween(cfg: Config, goal: Goal, w: World, i: nat, j: nat)
    requires i < j
    ensures FailsForGood(cfg, goal, w, i) && ActionAt(cfg, goal, w, j).ActExecute? ==> PlansBetween(cfg, goal, w, i, j)
  {
    hide Step, Idle, Decide;
    if FailsForGood(cfg, goal, w, i) && ActionAt(cfg, goal, w, j).ActExecute? {
      FailedTurnIdles(cfg, StateAt(cfg, goal, w, i), w.decideAt(i), w.answers(i), w.advanceAt(i));
      ExecutionNeedsAPlan(cfg, goal, w, i + 1, j);
    }
  }

  /** After a failure that was not transient, nothing executes again until a new plan has been made. */
  lemma DeterministicFailureEndsThePlan(cfg: Config, goal: Goal, w: World)
    ensures forall i: nat, j: nat :: i < j && FailsForGood(cfg, goal, w, i) && ActionAt(cfg, goal, w, j).ActExecute? ==>
      PlansBetween(cfg, goal, w, i, j)
  {
    forall i: nat, j: nat | i < j && FailsForGood(cfg, goal, w, i) && ActionAt(cfg, goal, w, j).ActExecute?
      ensures PlansBetween(cfg, goal, w, i, j)
    {
      hide FailsForGood, ActionAt, PlansBetween;
      PlanComesBetween(cfg, goal, w, i, j);
    }
  }
}
