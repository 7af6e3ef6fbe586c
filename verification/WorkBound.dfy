/** How much a loop may execute and plan when only replans and retries are bounded, and why a cap is needed. */
module WorkBound {
  import opened Prelude
  import opened LoopVocabulary
  import opened PlanCheck
  import opened Scheduler
  import opened Controller
  import opened Runner
  import opened Safety
  import opened Termination

  /** The attempts one task can get: the first, and its retries. */
  function Attempts(cfg: Config): nat {
    1 + Monus(cfg.retry.maxRetries, 0)
  }

  lemma Multiply(a: int, b: int, c: nat)
    requires a <= b
    ensures a * c <= b * c && (a + 1) * c == a * c + c && (0 <= a ==> 0 <= a * c)
  {
  }

  /** The executions a plan of t tasks can take. */
  function Allowance(cfg: Config, t: nat): nat {
    t * Attempts(cfg)
  }

  /** Executions still possible: whole plans to come, then tasks of this plan, then retries of this task. */
  function Potential(cfg: Config, s: State, perPlan: nat): int {
    var k := Attempts(cfg);
    if s.phase.Planning? then (cfg.maxReplans - s.replans) * perPlan
    else if s.phase.Working() then
      (cfg.maxReplans - 1 - s.replans) * perPlan
      + (Undone(s.plan.tasks, s.completed) - 1) * k
      + k - s.retryCount - (if s.phase.Evaluating? then 1 else 0)
    else 0
  }

  /** The next verdict cannot take the work past the bound. */
  ghost predicate WithinWork(cfg: Config, s: State, perPlan: nat, plans: nat) {
    && s.replans <= cfg.maxReplans
    && (s.phase.Working() ==> s.replans < cfg.maxReplans)
    && plans <= (if s.phase.Planning? then s.replans else if s.phase.Working() then s.replans + 1 else cfg.maxReplans)
    && s.iterations + Potential(cfg, s, perPlan) <= cfg.maxReplans * perPlan
  }

  lemma PotentialIsNatural(cfg: Config, s: State, perPlan: nat)
    requires Shape(s) && RetriesEarned(s, cfg)
    requires s.replans <= cfg.maxReplans && (s.phase.Working() ==> s.replans < cfg.maxReplans)
    ensures Potential(cfg, s, perPlan) >= 0
    ensures s.phase.Working() ==> Undone(s.plan.tasks, s.completed) >= 1
  {
    if s.phase.Planning? {
      Multiply(0, cfg.maxReplans - s.replans, perPlan);
    } else if s.phase.Working() {
      SuccessLeavesLess(s, Success(CurrentTask(s).value));
      Multiply(0, cfg.maxReplans - 1 - s.replans, perPlan);
      Multiply(0, Undone(s.plan.tasks, s.completed) - 1, Attempts(cfg));
    }
  }

  lemma EndsWithinWork(cfg: Config, s: State, s': State, perPlan: nat, plans: nat)
    requires Shape(s) && RetriesEarned(s, cfg) && WithinWork(cfg, s, perPlan, plans)
    requires !s'.phase.Planning? && !s'.phase.Working()
    requires s'.replans == s.replans && s'.iterations == s.iterations
    ensures WithinWork(cfg, s', perPlan, plans)
  {
    PotentialIsNatural(cfg, s, perPlan);
  }

  lemma PlanWithinWork(cfg: Config, s: State, plan: Plan, perPlan: nat, plans: nat, t: nat)
    requires Shape(s) && RetriesEarned(s, cfg) && WithinWork(cfg, s, perPlan, plans)
    requires s.phase.Planning? && s.replans < cfg.maxReplans
    requires |plan.tasks| <= t && perPlan == Allowance(cfg, t)
    ensures WithinWork(cfg, AdvancePlan(s, plan), perPlan, plans + 1)
  {
    var s' := AdvancePlan(s, plan);
    if s'.phase.Executing? {
      hide NextTask, ValidPlan, Shape, RetriesEarned, Undone, Attempts;
      var u: int, k: nat := Undone(plan.tasks, s.completed), Attempts(cfg);
      UndoneNeverGrows(plan.tasks, s.completed, Success(ZERO_TASK));
      Multiply(u, t, k);
      assert (u - 1) * k == u * k - k;
      Multiply(cfg.maxReplans - 1 - s.replans, cfg.maxReplans - s.replans, perPlan);
      assert s'.replans == s.replans && s'.iterations == s.iterations && s'.retryCount == 0;
      assert s'.plan == plan && s'.completed == s.completed;
    } else {
      PotentialIsNatural(cfg, s, perPlan);
    }
  }

  lemma NextWithinWork(cfg: Config, s: State, s': State, perPlan: nat, plans: nat)
    requires s.phase.Evaluating? && s'.phase.Executing? && WithinWork(cfg, s, perPlan, plans)
    requires s'.replans == s.replans && s'.iterations == s.iterations && s'.retryCount == 0
    requires s.retryCount < Attempts(cfg)
    requires Undone(s'.plan.tasks, s'.completed) < Undone(s.plan.tasks, s.completed)
    ensures WithinWork(cfg, s', perPlan, plans)
  {
    var u: int, u': int, k: nat := Undone(s.plan.tasks, s.completed), Undone(s'.plan.tasks, s'.completed), Attempts(cfg);
    hide Undone, Attempts;
    Multiply(u', u - 1, k);
    assert (u' - 1) * k == u' * k - k;
  }

  lemma SuccessWithinWork(cfg: Config, s: State, e: Evaluation, perPlan: nat, plans: nat)
    requires Shape(s) && RetriesEarned(s, cfg) && WithinWork(cfg, s, perPlan, plans) && s.phase.Evaluating?
    ensures WithinWork(cfg, AfterSuccess(File(s, s.pendingOutcome.value, true).(pendingOutcome := None, retryCount := 0), e),
                       perPlan, plans)
  {
    hide NextTask, Undone, WithinWork, Scheduled, History;
    var o := s.pendingOutcome.value.(success := true);
    var s1 := File(s, s.pendingOutcome.value, true).(pendingOutcome := None, retryCount := 0);
    var s' := AfterSuccess(s1, e);
    assert s'.replans == s.replans && s'.iterations == s.iterations;
    if s'.phase.Executing? {
      SuccessLeavesLess(s, o);
      assert s'.plan == s.plan && s'.completed == s.completed + [o] && s'.retryCount == 0;
      NextWithinWork(cfg, s, s', perPlan, plans);
    } else {
      EndsWithinWork(cfg, s, s', perPlan, plans);
    }
  }

  lemma FailureWithinWork(cfg: Config, s: State, e: Evaluation, perPlan: nat, plans: nat)
    requires Shape(s) && RetriesEarned(s, cfg) && WithinWork(cfg, s, perPlan, plans) && s.phase.Evaluating?
    ensures WithinWork(cfg, AfterFailure(File(s, s.pendingOutcome.value, false), cfg, s.pendingOutcome.value, e), perPlan, plans)
  {
    PotentialIsNatural(cfg, s, perPlan);
    Multiply(0, Undone(s.plan.tasks, s.completed) - 1, Attempts(cfg));
    hide Shape, Undone;
  }

  lemma EvaluateWithinWork(cfg: Config, s: State, e: Evaluation, perPlan: nat, plans: nat)
    requires Shape(s) && RetriesEarned(s, cfg) && WithinWork(cfg, s, perPlan, plans) && s.phase.Evaluating?
    ensures WithinWork(cfg, AdvanceEvaluate(s, cfg, e), perPlan, plans)
  {
    hide AfterSuccess, AfterFailure, Shape, RetriesEarned, WithinWork;
    var g := Gated(cfg, e);
    EvaluatingShape(s);
    SuccessWithinWork(cfg, s, g, perPlan, plans);
    FailureWithinWork(cfg, s, g, perPlan, plans);
    if g.humanRequired {
      EndsWithinWork(cfg, s, AdvanceEvaluate(s, cfg, e), perPlan, plans);
    }
  }

  lemma ReflectWithinWork(cfg: Config, s: State, r: Reflection, perPlan: nat, plans: nat)
    requires WithinWork(cfg, s, perPlan, plans) && s.phase.Reflecting?
    ensures WithinWork(cfg, AdvanceReflect(s, r), perPlan, plans)
  {
    UndoneSameIDs(s.plan.tasks, Revised(s.plan.tasks, s.currentTaskID, r.revisedInstructions), s.completed);
    hide Undone;
  }

  lemma ExecuteWithinWork(cfg: Config, s: State, o: Outcome, perPlan: nat, plans: nat)
    requires WithinWork(cfg, s, perPlan, plans) && s.phase.Executing?
    ensures WithinWork(cfg, AdvanceExecute(s, o), perPlan, plans)
  {
    hide Undone;
  }

  lemma PaidWithinWork(cfg: Config, s: State, cost: real, perPlan: nat, plans: nat)
    requires Shape(s) && RetriesEarned(s, cfg) && WithinWork(cfg, s, perPlan, plans)
    ensures Shape(Paid(s, cost)) && RetriesEarned(Paid(s, cost), cfg) && WithinWork(cfg, Paid(s, cost), perPlan, plans)
  {
    PaidKeepsShape(s, cost);
    hide Undone;
  }

  function PlannedNow(a: Action): nat {
    if a.ActPlan? then 1 else 0
  }

  lemma MoreRoom(cfg: Config, s: State, perPlan: nat, plans: nat)
    requires WithinWork(cfg, s, perPlan, plans) && s.phase.Failed? && plans < cfg.maxReplans
    ensures WithinWork(cfg, s, perPlan, plans + 1)
  {
  }

  lemma PlanTurnWithinWork(cfg: Config, s: State, ans: Answers, perPlan: nat, plans: nat, t: nat)
    requires Shape(s) && RetriesEarned(s, cfg) && WithinWork(cfg, s, perPlan, plans)
    requires s.phase.Planning? && s.replans < cfg.maxReplans
    requires ans.plan.Answered? ==> |ans.plan.value.tasks| <= t
    requires perPlan == Allowance(cfg, t)
    ensures ans.plan.Broken? ==> WithinWork(cfg, Fail(s), perPlan, plans + 1)
    ensures ans.plan.Answered? ==>
              WithinWork(cfg, AdvancePlan(Paid(s, ans.plan.cost), ans.plan.value), perPlan, plans + 1)
  {
    assert plans < cfg.maxReplans;
    hide Shape, RetriesEarned, WithinWork, AdvancePlan;
    if ans.plan.Answered? {
      PaidWithinWork(cfg, s, ans.plan.cost, perPlan, plans);
      PlanWithinWork(cfg, Paid(s, ans.plan.cost), ans.plan.value, perPlan, plans, t);
    } else {
      EndsWithinWork(cfg, s, Fail(s), perPlan, plans);
      MoreRoom(cfg, Fail(s), perPlan, plans);
    }
  }

  lemma TurnWithinWork(cfg: Config, s: State, a: Action, ans: Answers, advanced: Time, perPlan: nat, plans: nat, t: nat)
    requires Shape(s) && RetriesEarned(s, cfg) && WithinWork(cfg, s, perPlan, plans)
    requires cfg.maxReplans >= 1 && Fits(s, a) && Unbounded(s, cfg, a)
    requires ans.plan.Answered? ==> |ans.plan.value.tasks| <= t
    requires perPlan == Allowance(cfg, t)
    ensures WithinWork(cfg, Turn(cfg, s, a, ans, advanced), perPlan, plans + PlannedNow(a))
  {
    hide AdvancePlan, AdvanceExecute, AdvanceEvaluate, AdvanceReflect, Shape, RetriesEarned, WithinWork, CheckStops;
    hide FallbackSummary, Undone, Attempts;
    EndsWithinWork(cfg, s, Fail(s), perPlan, plans);
    match a
    case ActPlan =>
      PlanTurnWithinWork(cfg, s, ans, perPlan, plans, t);
    case ActExecute(task, _) => ExecuteWithinWork(cfg, s, Ran(task, ans), perPlan, plans);
    case ActEvaluate(_, _) =>
      if ans.evaluation.Answered? {
        PaidWithinWork(cfg, s, ans.evaluation.cost, perPlan, plans);
        EvaluateWithinWork(cfg, Paid(s, ans.evaluation.cost), ans.evaluation.value, perPlan, plans);
      }
    case ActReflect(_, _, _) =>
      if ans.reflection.Answered? {
        PaidWithinWork(cfg, s, ans.reflection.cost, perPlan, plans);
        ReflectWithinWork(cfg, Paid(s, ans.reflection.cost), ans.reflection.value, perPlan, plans);
      }
    case ActSummarise(_) => EndsWithinWork(cfg, s, Turn(cfg, s, a, ans, advanced), perPlan, plans);
    case ActStop(_) =>
  }

  lemma StepWithinWork(cfg: Config, s: State, decided: Time, ans: Answers, advanced: Time, perPlan: nat, plans: nat, t: nat)
    requires Shape(s) && RetriesEarned(s, cfg) && WithinWork(cfg, s, perPlan, plans)
    requires cfg.maxReplans >= 1
    requires ans.plan.Answered? ==> |ans.plan.value.tasks| <= t
    requires perPlan == Allowance(cfg, t)
    ensures WithinWork(cfg, Step(cfg, s, decided, ans, advanced), perPlan, plans + PlannedNow(Decide(s, cfg, decided)))
  {
    hide Step, Turn, Decide, Shape, RetriesEarned, WithinWork, Fits, Unbounded;
    DecisionsFit(cfg, s, decided);
    DecisionsAreBounded(cfg, s, decided);
    StepIsTurn(cfg, s, decided, ans, advanced);
    TurnWithinWork(cfg, s, Decide(s, cfg, decided), ans, advanced, perPlan, plans, t);
  }

  /** How often the planner has been called in the first n turns. */
  function PlannerCalls(cfg: Config, goal: Goal, w: World, n: nat): nat {
    if n == 0 then 0 else PlannerCalls(cfg, goal, w, n - 1) + PlannedNow(ActionAt(cfg, goal, w, n - 1))
  }

  lemma {:induction false} EveryStateIsWithinWork(cfg: Config, goal: Goal, w: World, t: nat, n: nat)
    requires cfg.maxReplans >= 1
    requires forall i :: w.answers(i).plan.Answered? ==> |w.answers(i).plan.value.tasks| <= t
    ensures WithinWork(cfg, StateAt(cfg, goal, w, n), Allowance(cfg, t), PlannerCalls(cfg, goal, w, n))
  {
    hide Step, Shape, RetriesEarned, Decide;
    if n > 0 {
      hide WithinWork;
      EveryStateIsWithinWork(cfg, goal, w, t, n - 1);
      EveryStateHasShape(cfg, goal, w, n - 1);
      RetriesAreAlwaysEarned(cfg, goal, w, n - 1);
      StepWithinWork(cfg, StateAt(cfg, goal, w, n - 1), w.decideAt(n - 1), w.answers(n - 1), w.advanceAt(n - 1),
                     Allowance(cfg, t), PlannerCalls(cfg, goal, w, n - 1), t);
    }
  }

  /**
   * With the iteration cap disabled, a replan cap of R and plans of at most T tasks, the loop ends, having
   * planned at most R times and executed at most R * T * (1 + MaxRetries) times.
   */
  lemma ReplansBoundTheWork(cfg: Config, goal: Goal, w: World, t: nat)
    requires cfg.maxReplans >= 1
    requires forall i :: w.answers(i).plan.Answered? ==> |w.answers(i).plan.value.tasks| <= t
    ensures exists n :: EndsAt(cfg, goal, w, n)
    ensures forall n: nat :: StateAt(cfg, goal, w, n).iterations <= cfg.maxReplans * (t * Attempts(cfg))
    ensures forall n: nat :: PlannerCalls(cfg, goal, w, n) <= cfg.maxReplans
  {
    hide Step, Decide;
    ReplanCappedRunEnds(cfg, goal, w);
    forall n: nat
      ensures StateAt(cfg, goal, w, n).iterations <= cfg.maxReplans * (t * Attempts(cfg))
      ensures PlannerCalls(cfg, goal, w, n) <= cfg.maxReplans
    {
      EveryStateIsWithinWork(cfg, goal, w, t, n);
      EveryStateHasShape(cfg, goal, w, n);
      RetriesAreAlwaysEarned(cfg, goal, w, n);
      PotentialIsNatural(cfg, StateAt(cfg, goal, w, n), Allowance(cfg, t));
    }
  }

  // ---- Without either cap

  const CIRCLING_PLAN := Plan("", [Task("a", "k", "", "go", [])])

  /** Engines that always plan the same task, fail it for good, and ask for a new plan. */
  const CIRCLING := Answers(
    Answered(CIRCLING_PLAN, 0.0),
    Answered(Outcome("a", false, "", "no", false, 0.0, ""), 0.0),
    Answered(Evaluation(false, false, false, true, false, 1.0, ""), 0.0),
    Broken(""),
    Broken(""))

  /** The clock stands still, at an instant that is not the zero one. */
  const CIRCLES := World(1, i => 1, i => 1, i => CIRCLING, i => false)

  ghost predicate Circling(s: State) {
    && s.completed == [] && s.pendingEvaluation.None? && s.retryCount == 0
    && s.costUSD == 0.0 && s.startedAt == CIRCLES.started
    && match s.phase
       case Planning => s.pendingOutcome.None?
       case Executing => s.plan == CIRCLING_PLAN && s.currentTaskID == "a" && s.pendingOutcome.None?
       case Evaluating => s.pendingOutcome == Some(CIRCLING.outcome.value)
       case _ => false
  }

  lemma CirclingPlanIsValid()
    ensures ValidPlan(CIRCLING_PLAN)
    ensures NextTask(CIRCLING_PLAN.tasks, []) == Some(CIRCLING_PLAN.tasks[0])
    ensures TaskByID(CIRCLING_PLAN.tasks, "a") == Some(CIRCLING_PLAN.tasks[0])
  {
    assert "a"[0] == 'a' && "k"[0] == 'k' && "go"[0] == 'g';
    assert !Blank("a") && !Blank("k") && !Blank("go");
    hide Blank;
    assert Ready(CIRCLING_PLAN.tasks[0], []);
  }

  lemma CirclingStep(cfg: Config, s: State)
    requires cfg.maxIterations <= 0 && cfg.maxReplans <= 0
    requires Circling(s)
    ensures !Decide(s, cfg, 1).ActStop?
    ensures Circling(Step(cfg, s, 1, CIRCLING, 1))
  {
    CirclingPlanIsValid();
    hide ValidPlan, NextTask, TaskByID, Advance, Step, Perform;
    StepIsTurn(cfg, s, 1, CIRCLING, 1);
  }

  lemma {:induction false} KeepsCircling(cfg: Config, goal: Goal, n: nat)
    requires cfg.maxIterations <= 0 && cfg.maxReplans <= 0
    ensures Circling(StateAt(cfg, goal, CIRCLES, n))
    ensures !ActionAt(cfg, goal, CIRCLES, n).ActStop?
  {
    hide Step, Decide;
    if n > 0 {
      KeepsCircling(cfg, goal, n - 1);
      CirclingStep(cfg, StateAt(cfg, goal, CIRCLES, n - 1));
    }
    CirclingStep(cfg, StateAt(cfg, goal, CIRCLES, n));
  }

  ghost predicate GoesOnAt(cfg: Config, goal: Goal, w: World, n: nat) {
    !ActionAt(cfg, goal, w, n).ActStop?
  }

  /**
   * With neither iterations nor replans capped there are engines that keep the loop busy at every turn,
   * whatever the cost cap and the timeout: they bill nothing, and no time passes.
   */
  lemma {:induction false} CirclesForever(cfg: Config, goal: Goal)
    requires cfg.maxIterations <= 0 && cfg.maxReplans <= 0
    ensures forall n: nat :: GoesOnAt(cfg, goal, CIRCLES, n)
  {
    forall n: nat ensures GoesOnAt(cfg, goal, CIRCLES, n) {
      KeepsCircling(cfg, goal, n);
    }
  }

  ghost predicate Ends(cfg: Config, goal: Goal, w: World) {
    exists n :: EndsAt(cfg, goal, w, n)
  }

  /** For every configuration: the loop is certain to end if and only if iterations or replans are capped. */
  lemma EndsForSureIffCapped(cfg: Config, goal: Goal)
    ensures (forall w :: Ends(cfg, goal, w)) <==> cfg.maxIterations >= 1 || cfg.maxReplans >= 1
  {
    hide Step, Decide;
    if cfg.maxIterations >= 1 || cfg.maxReplans >= 1 {
      forall w ensures Ends(cfg, goal, w) {
        if cfg.maxIterations >= 1 {
          CappedRunEnds(cfg, goal, w);
        } else {
          ReplanCappedRunEnds(cfg, goal, w);
        }
      }
    } else {
      CirclesForever(cfg, goal);
      forall n: nat ensures !EndsAt(cfg, goal, CIRCLES, n) {
        assert GoesOnAt(cfg, goal, CIRCLES, n);
      }
      assert !Ends(cfg, goal, CIRCLES);
    }
  }
}
