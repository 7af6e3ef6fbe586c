/**
 * What "done" is worth, on every plan and at concrete runs. Validation lets dependency cycles through; the
 * loop does not deadlock on them, it runs out of ready tasks and reports success.
 */
module StuckPlans {
  import opened Prelude
  import opened LoopVocabulary
  import opened PlanCheck
  import opened Scheduler
  import opened Controller
  import opened Runner
  import opened ConfidenceGate
  import opened Termination
  import opened Accounting
  import opened Endings

  /** A configuration that bounds nothing, and one that bounds the cost at a dollar. */
  const FREE := Config(0, 0, 0, 0.0, RetryPolicy(0, 0, 0, 1.0), false, 0.0)
  const A_DOLLAR := FREE.(maxCostUSD := 1.0)

  /** One that allows a single execution, and one that doubts successes and allows three retries. */
  const ONE_RUN := FREE.(maxIterations := 1)
  const CAUTIOUS := FREE.(minConfidence := 0.5, retry := RetryPolicy(3, 0, 0, 1.0))

  /** Engines that make one plan, do whatever they are asked, and bill a verdict and a summary as told. */
  function Obliging(plan: Plan, achieved: bool, verdictCost: real, summaryCost: real): Answers {
    Answers(
      Answered(plan, 0.0),
      Answered(Outcome("", true, "", "", false, 0.0, ""), 0.0),
      Answered(Evaluation(true, achieved, false, false, false, 1.0, ""), verdictCost),
      Broken(""),
      Answered(Summary("", "", ""), summaryCost))
  }

  function Always(ans: Answers): World {
    World(1, (i: nat) => 1, (i: nat) => 1, (i: nat) => ans, (i: nat) => false)
  }

  // ---- A run of any valid plan, as far as its dependencies let it go

  function Unbilled(plan: Plan): Answers {
    Obliging(plan, false, 0.0, 0.0)
  }

  function Willing(plan: Plan): World {
    Always(Unbilled(plan))
  }

  /** What has been completed can be ranked, and the next thing to do, if any, is ready. */
  ghost predicate OnCourse(s: State, plan: Plan, rank: map<string, nat>) {
    && s.plan == plan && RanksDone(plan.tasks, s.completed, rank)
    && s.stop.StopNone? && s.pendingEvaluation.None? && s.retryCount == 0
    && match s.phase
       case Executing => s.pendingOutcome.None? && HasReady(plan.tasks, s)
       case Evaluating =>
         s.pendingOutcome.Some? && s.pendingOutcome.value.taskID == s.currentTaskID && HasReady(plan.tasks, s)
       case Summarising => NextTask(plan.tasks, s.completed).None?
       case _ => false
  }

  ghost predicate HasReady(tasks: seq<Task>, s: State) {
    exists i :: 0 <= i < |tasks| && tasks[i].id == s.currentTaskID && Ready(tasks[i], s.completed)
  }

  function Distance(s: State): nat {
    2 * Undone(s.plan.tasks, s.completed) + (if s.phase.Executing? then 1 else 0)
  }

  lemma PlanStep(cfg: Config, s: State, ans: Answers)
    requires s.phase.Planning? && !CheckStops(s, cfg, 1).Terminal() && ans.plan.Answered? && ans.plan.cost == 0.0
    ensures Decide(s, cfg, 1).ActPlan? && Step(cfg, s, 1, ans, 1) == AdvancePlan(s, ans.plan.value)
  {
    hide Advance, AdvancePlan, CheckStops, Step;
    StepIsTurn(cfg, s, 1, ans, 1);
    assert Paid(s, 0.0) == s;
  }

  lemma ExecuteStep(cfg: Config, s: State, ans: Answers)
    requires s.phase.Executing? && CurrentTask(s).Some? && !CheckStops(s, cfg, 1).Terminal() && ans.outcome.Answered?
    ensures Decide(s, cfg, 1).ActExecute? && Step(cfg, s, 1, ans, 1) == AdvanceExecute(s, ans.outcome.value)
  {
    hide Advance, AdvanceExecute, CheckStops, Step, CurrentTask;
    StepIsTurn(cfg, s, 1, ans, 1);
  }

  lemma PlanStarts(goal: Goal, plan: Plan)
    requires ValidPlan(plan)
    ensures OnCourse(StateAt(FREE, goal, Willing(plan), 1), plan, map[])
  {
    var s := Initial(goal, 1);
    assert StateAt(FREE, goal, Willing(plan), 0) == s;
    NextState(FREE, goal, Willing(plan), 0);
    PlanStep(FREE, s, Unbilled(plan));
    NothingRanked(plan.tasks);
    hide Step, StateAt, ValidPlan, RanksDone, OnCourse, Decide;
    PlanOnCourse(s, plan);
  }

  lemma PlanOnCourse(s: State, plan: Plan)
    requires ValidPlan(plan) && s.completed == [] && s.stop.StopNone? && s.pendingOutcome.None? && s.pendingEvaluation.None?
    requires RanksDone(plan.tasks, [], map[])
    ensures OnCourse(AdvancePlan(s, plan), plan, map[])
  {
    hide ValidPlan, RanksDone, Ready;
    var next := NextTask(plan.tasks, []);
    if next.Some? {
      var i := NextIsFirstReady(plan.tasks, []);
      hide NextTask;
      assert plan.tasks[i].id == AdvancePlan(s, plan).currentTaskID;
    }
  }

  lemma NothingRanked(tasks: seq<Task>)
    ensures RanksDone(tasks, [], map[])
  {
  }

  lemma ExecuteStaysOnCourse(s: State, plan: Plan, rank: map<string, nat>)
    requires ValidPlan(plan) && OnCourse(s, plan, rank) && s.phase.Executing?
    ensures var s' := Step(FREE, s, 1, Unbilled(plan), 1);
            OnCourse(s', plan, rank) && s'.phase.Evaluating? && Distance(s') < Distance(s)
  {
    var i :| 0 <= i < |plan.tasks| && plan.tasks[i].id == s.currentTaskID && Ready(plan.tasks[i], s.completed);
    hide Step, Undone, RanksDone, ValidPlan, Ready, NextTask, TaskByID, Decide;
    FoundByItsID(plan.tasks, i);
    ExecuteStep(FREE, s, Unbilled(plan));
  }

  lemma JudgeStep(cfg: Config, s: State, ans: Answers)
    requires s.phase.Evaluating? && s.pendingOutcome.Some? && !CheckStops(s, cfg, 1).Terminal()
    requires ans.evaluation.Answered? && ans.evaluation.cost == 0.0
    ensures Decide(s, cfg, 1).ActEvaluate? && Step(cfg, s, 1, ans, 1) == AdvanceEvaluate(s, cfg, ans.evaluation.value)
  {
    hide Advance, AdvanceEvaluate, CheckStops, TaskByID, Step;
    StepIsTurn(cfg, s, 1, ans, 1);
    assert Paid(s, 0.0) == s;
  }

  /** An obliging verdict files the outcome as a success and moves on. */
  lemma VerdictFiles(cfg: Config, s: State, ans: Answers)
    requires s.phase.Evaluating? && s.pendingOutcome.Some? && !CheckStops(s, cfg, 1).Terminal()
    requires ans.evaluation.Answered? && ans.evaluation.cost == 0.0 && cfg.minConfidence <= 0.0
    requires ans.evaluation.value.taskSucceeded && !ans.evaluation.value.humanRequired
    ensures Decide(s, cfg, 1).ActEvaluate?
    ensures Step(cfg, s, 1, ans, 1)
         == AfterSuccess(s.(completed := s.completed + [s.pendingOutcome.value.(success := true)],
                            pendingOutcome := None, retryCount := 0), ans.evaluation.value)
  {
    JudgeStep(cfg, s, ans);
    hide AfterSuccess, CheckStops, Step, Decide;
  }

  lemma EvaluateStaysOnCourse(s: State, plan: Plan, rank: map<string, nat>)
    requires ValidPlan(plan) && OnCourse(s, plan, rank) && s.phase.Evaluating?
    ensures var s' := Step(FREE, s, 1, Unbilled(plan), 1);
            OnCourse(s', plan, rank[s.currentTaskID := |s.completed|]) && Distance(s') < Distance(s)
  {
    var i :| 0 <= i < |plan.tasks| && plan.tasks[i].id == s.currentTaskID && Ready(plan.tasks[i], s.completed);
    ScheduleOne(plan.tasks, s.completed, rank, i, s.pendingOutcome.value.(success := true));
    hide Step, Undone, RanksDone, ValidPlan, Ready, TaskByID, Decide;
    VerdictFiles(FREE, s, Unbilled(plan));
    NextOnCourse(s.(completed := s.completed + [s.pendingOutcome.value.(success := true)],
                    pendingOutcome := None, retryCount := 0),
                 plan, rank[s.currentTaskID := |s.completed|]);
  }

  lemma NextOnCourse(s: State, plan: Plan, rank: map<string, nat>)
    requires s.plan == plan && RanksDone(plan.tasks, s.completed, rank)
    requires s.stop.StopNone? && s.pendingEvaluation.None? && s.retryCount == 0 && s.pendingOutcome.None?
    ensures var s' := AfterSuccess(s, Unbilled(plan).evaluation.value);
            OnCourse(s', plan, rank) && s'.completed == s.completed
  {
    hide RanksDone, Ready;
    var next := NextTask(plan.tasks, s.completed);
    if next.Some? {
      var k := NextIsFirstReady(plan.tasks, s.completed);
      hide NextTask;
      var s' := AfterSuccess(s, Unbilled(plan).evaluation.value);
      assert plan.tasks[k].id == s'.currentTaskID;
    }
  }

  lemma {:induction false} RunsOut(goal: Goal, plan: Plan, n: nat, rank: map<string, nat>)
    returns (end: nat, order: map<string, nat>)
    requires ValidPlan(plan) && OnCourse(StateAt(FREE, goal, Willing(plan), n), plan, rank)
    ensures var s := StateAt(FREE, goal, Willing(plan), end); s.phase.Summarising? && OnCourse(s, plan, order)
    decreases Distance(StateAt(FREE, goal, Willing(plan), n))
  {
    hide Step, ValidPlan, RanksDone, HasReady, Distance;
    var s := StateAt(FREE, goal, Willing(plan), n);
    assert StateAt(FREE, goal, Willing(plan), n + 1) == Step(FREE, s, 1, Unbilled(plan), 1);
    if s.phase.Summarising? {
      return n, rank;
    } else if s.phase.Executing? {
      ExecuteStaysOnCourse(s, plan, rank);
      end, order := RunsOut(goal, plan, n + 1, rank);
    } else {
      EvaluateStaysOnCourse(s, plan, rank);
      end, order := RunsOut(goal, plan, n + 1, rank[s.currentTaskID := |s.completed|]);
    }
  }

  lemma SummaryClosesUp(s: State, ans: Answers)
    requires s.phase.Summarising? && s.stop.StopNone? && ans.summary.Answered?
    ensures Decide(s, FREE, 1).ActSummarise?
    ensures var s' := Step(FREE, s, 1, ans, 1);
            s'.phase.Done? && s'.stop.StopNone? && s'.plan == s.plan && s'.completed == s.completed
            && s'.iterations == s.iterations
  {
    hide Advance, Step;
    StepIsTurn(FREE, s, 1, ans, 1);
  }

  // ---- Done means completed, ID by ID, on exactly the acyclic plans

  /** An orderly run that is over after n turns, done with nothing recorded against it, on these tasks. */
  ghost predicate DoneOn(tasks: seq<Task>, cfg: Config, goal: Goal, w: World, n: nat) {
    && OrderlyWorld(w) && ActionAt(cfg, goal, w, n).ActStop?
    && var f := FinalState(cfg, goal, w, n);
       f.phase.Done? && f.stop.StopNone? && f.plan.tasks == tasks
  }

  ghost predicate CompletedAt(tasks: seq<Task>, cfg: Config, goal: Goal, w: World, n: nat) {
    AllDone(tasks, StateAt(cfg, goal, w, n).completed)
  }

  lemma WillingIsOrderly(plan: Plan)
    ensures OrderlyWorld(Willing(plan))
  {
  }

  lemma SummaryEndsTheRun(goal: Goal, plan: Plan, end: nat, rank: map<string, nat>)
    requires var s := StateAt(FREE, goal, Willing(plan), end); s.phase.Summarising? && OnCourse(s, plan, rank)
    ensures var s' := StateAt(FREE, goal, Willing(plan), end + 1);
            s'.phase.Done? && s'.stop.StopNone? && s'.plan == plan && RanksDone(plan.tasks, s'.completed, rank)
  {
    hide RanksDone, Step, NextTask;
    var s := StateAt(FREE, goal, Willing(plan), end);
    assert StateAt(FREE, goal, Willing(plan), end + 1) == Step(FREE, s, 1, Unbilled(plan), 1);
    SummaryClosesUp(s, Unbilled(plan));
  }

  /** A valid plan can be run to "done", having completed no more than can be ranked. */
  lemma RunsToDone(goal: Goal, plan: Plan) returns (n: nat, order: map<string, nat>)
    requires ValidPlan(plan)
    ensures DoneOn(plan.tasks, FREE, goal, Willing(plan), n)
    ensures RanksDone(plan.tasks, StateAt(FREE, goal, Willing(plan), n).completed, order)
  {
    hide ValidPlan, RanksDone, OnCourse, StateAt, Willing, ActionAt, FinalState;
    PlanStarts(goal, plan);
    var end, rank := RunsOut(goal, plan, 1, map[]);
    SummaryEndsTheRun(goal, plan, end, rank);
    n, order := end + 1, rank;
    WillingIsOrderly(plan);
    EndsWhenTerminal(FREE, goal, Willing(plan), n);
  }

  /**
   * Every orderly run that ends done with no reason on a valid plan has a recorded success for each of its
   * task IDs, if and only if the plan is acyclic. The success may be older than the plan: see Replans.
   */
  lemma DoneMeansCompletedIffAcyclic(plan: Plan)
    requires ValidPlan(plan)
    ensures (forall cfg, goal, w, n: nat :: DoneOn(plan.tasks, cfg, goal, w, n) ==> CompletedAt(plan.tasks, cfg, goal, w, n))
            <==> Acyclic(plan.tasks)
  {
    if Acyclic(plan.tasks) {
      forall cfg, goal, w, n: nat | DoneOn(plan.tasks, cfg, goal, w, n) ensures CompletedAt(plan.tasks, cfg, goal, w, n) {
        hide ValidPlan, StateAt, ActionAt, Acyclic, AllDone, OrderlyWorld;
        DoneMeansEveryTaskCompleted(cfg, goal, w, n);
      }
    }
    if forall cfg, goal, w, n: nat :: DoneOn(plan.tasks, cfg, goal, w, n) ==> CompletedAt(plan.tasks, cfg, goal, w, n) {
      var goal := Goal("", "", "");
      var n, order := RunsToDone(goal, plan);
      hide DoneOn, StateAt, Schedulable;
      assert CompletedAt(plan.tasks, FREE, goal, Willing(plan), n);
      assert Ranks(plan.tasks, order);
    }
  }

  // ---- Concrete runs

  /** A two-task cycle validates, runs nothing, and is reported as done with no error. */
  lemma CycleEndsDone(goal: Goal)
    ensures ValidPlan(TWO_CYCLE) && DoneOn(TWO_CYCLE.tasks, FREE, goal, Willing(TWO_CYCLE), 2)
    ensures var f := FinalState(FREE, goal, Willing(TWO_CYCLE), 2);
            FinishError(f) == NoError && f.iterations == 0 && !AllDone(TWO_CYCLE.tasks, f.completed)
  {
    ValidationAdmitsACycle();
    hide ValidPlan, NextTask, AllDone, Advance;
    var w, ans := Willing(TWO_CYCLE), Unbilled(TWO_CYCLE);
    var s := Initial(goal, 1);
    StepIsTurn(FREE, s, 1, ans, 1);
    assert StateAt(FREE, goal, w, 1) == s.(plan := TWO_CYCLE, phase := Summarising);
    SummaryClosesUp(StateAt(FREE, goal, w, 1), ans);
    assert StateAt(FREE, goal, w, 2) == Step(FREE, StateAt(FREE, goal, w, 1), 1, ans, 1);
    hide StateAt, Step;
    EndsWhenTerminal(FREE, goal, w, 2);
  }

  const ONE_TASK := Plan("", [Task("a", "k", "", "go", [])])

  lemma OneTaskIsReady()
    ensures ValidPlan(ONE_TASK)
    ensures NextTask(ONE_TASK.tasks, []) == Some(ONE_TASK.tasks[0])
    ensures TaskByID(ONE_TASK.tasks, "a") == Some(ONE_TASK.tasks[0])
  {
    assert "a"[0] == 'a' && "k"[0] == 'k' && "go"[0] == 'g';
    assert !Blank("a") && !Blank("k") && !Blank("go");
    hide Blank;
    assert Ready(ONE_TASK.tasks[0], []);
  }

  /** The one task planned, executed, and up for its verdict. */
  function Pending(goal: Goal): State {
    Initial(goal, 1).(plan := ONE_TASK, currentTaskID := "a", iterations := 1,
                      pendingOutcome := Some(Outcome("a", true, "", "", false, 0.0, "")), phase := Evaluating)
  }

  lemma ReachesTheVerdict(cfg: Config, goal: Goal, ans: Answers)
    requires cfg in {A_DOLLAR, ONE_RUN, CAUTIOUS}
    requires ans.plan == Answered(ONE_TASK, 0.0)
    requires ans.outcome == Answered(Outcome("", true, "", "", false, 0.0, ""), 0.0)
    ensures StateAt(cfg, goal, Always(ans), 2) == Pending(goal)
    ensures forall i :: 0 <= i < 2 ==> !ActionAt(cfg, goal, Always(ans), i).ActStop?
  {
    OneTaskIsReady();
    hide ValidPlan, NextTask, TaskByID, Advance;
    var s0 := Initial(goal, 1);
    assert StateAt(cfg, goal, Always(ans), 0) == s0;
    StepIsTurn(cfg, s0, 1, ans, 1);
    var s1 := s0.(plan := ONE_TASK, currentTaskID := "a", phase := Executing);
    assert Step(cfg, s0, 1, ans, 1) == s1;
    StepIsTurn(cfg, s1, 1, ans, 1);
    assert Step(cfg, s1, 1, ans, 1) == Pending(goal);
    hide Step;
    assert StateAt(cfg, goal, Always(ans), 1) == s1;
  }

  /** A verdict that meets the goal, and costs a dollar: the run ends over budget, and not achieved. */
  lemma AchievedButOverBudget(goal: Goal)
    ensures var w := Always(Obliging(ONE_TASK, true, 1.0, 0.0));
            && AchievedAt(A_DOLLAR, goal, w, 2) && EndsAt(A_DOLLAR, goal, w, 3)
            && FinalState(A_DOLLAR, goal, w, 3).stop.StopCostExceeded?
            && FinalState(A_DOLLAR, goal, w, 3).phase.Stopped?
  {
    var ans := Obliging(ONE_TASK, true, 1.0, 0.0);
    var w := Always(ans);
    ReachesTheVerdict(A_DOLLAR, goal, ans);
    OneTaskIsReady();
    hide ValidPlan, NextTask, TaskByID, Advance;
    var s2 := Pending(goal);
    assert ActionAt(A_DOLLAR, goal, w, 2).ActEvaluate?;
    StepIsTurn(A_DOLLAR, s2, 1, ans, 1);
    var s3 := Step(A_DOLLAR, s2, 1, ans, 1);
    assert StateAt(A_DOLLAR, goal, w, 3) == s3;
    assert s3.phase.Summarising? && s3.costUSD == 1.0;
    assert ActionAt(A_DOLLAR, goal, w, 3) == ActStop(StopCostExceeded);
    hide StateAt, Step;
  }

  lemma OneTaskIsAll(done: seq<Outcome>)
    requires done == [Outcome("a", true, "", "", false, 0.0, "")]
    ensures AllDone(ONE_TASK.tasks, done) && NextTask(ONE_TASK.tasks, done).None?
  {
    assert done[0].taskID == "a" && IsDone(done, "a");
  }

  /** The one task done, and the summary to come. */
  function Closing(goal: Goal): State {
    Pending(goal).(completed := [Outcome("a", true, "", "", false, 0.0, "")], pendingOutcome := None, phase := Summarising)
  }

  lemma ReachesTheSummary(goal: Goal, ans: Answers)
    requires ans == Obliging(ONE_TASK, false, 0.0, 1.0)
    ensures StateAt(A_DOLLAR, goal, Always(ans), 3) == Closing(goal)
    ensures forall i :: 0 <= i < 3 ==> !ActionAt(A_DOLLAR, goal, Always(ans), i).ActStop?
  {
    ReachesTheVerdict(A_DOLLAR, goal, ans);
    var s2 := Pending(goal);
    OneTaskIsAll(Closing(goal).completed);
    assert [] + [s2.pendingOutcome.value] == Closing(goal).completed;
    hide NextTask;
    VerdictFiles(A_DOLLAR, s2, ans);
    assert StateAt(A_DOLLAR, goal, Always(ans), 3) == Step(A_DOLLAR, s2, 1, ans, 1);
    assert ActionAt(A_DOLLAR, goal, Always(ans), 2) == Decide(s2, A_DOLLAR, 1);
    hide StateAt, Step, ActionAt, Decide;
  }

  /** Every task done, and a summary that costs a dollar: the run ends stopped by cost, and not done. */
  lemma FinishedButOverBudget(goal: Goal)
    ensures var w := Always(Obliging(ONE_TASK, false, 0.0, 1.0));
            && FinishedAt(A_DOLLAR, goal, w, 3) && EndsAt(A_DOLLAR, goal, w, 4)
            && FinalState(A_DOLLAR, goal, w, 4).stop.StopCostExceeded?
            && FinalState(A_DOLLAR, goal, w, 4).phase.Stopped?
            && AllDone(ONE_TASK.tasks, FinalState(A_DOLLAR, goal, w, 4).completed)
  {
    var ans := Obliging(ONE_TASK, false, 0.0, 1.0);
    var w, s := Always(ans), Closing(goal);
    OneTaskIsAll(s.completed);
    hide AllDone, NextTask;
    ReachesTheSummary(goal, ans);
    DearSummary(s, ans);
    assert StateAt(A_DOLLAR, goal, w, 4) == Step(A_DOLLAR, s, 1, ans, 1);
    assert ActionAt(A_DOLLAR, goal, w, 3) == Decide(s, A_DOLLAR, 1);
    hide StateAt, Step, Decide;
    EndsWhenTerminal(A_DOLLAR, goal, w, 4);
    hide ActionAt, FinalState;
  }

  lemma DearSummary(s: State, ans: Answers)
    requires s.phase.Summarising? && s.stop.StopNone? && s.costUSD == 0.0 && s.startedAt == 1
    requires ans.summary.Answered? && ans.summary.cost == 1.0
    ensures !Decide(s, A_DOLLAR, 1).ActStop?
    ensures var s' := Step(A_DOLLAR, s, 1, ans, 1);
            s'.phase.Stopped? && s'.stop.StopCostExceeded? && s'.completed == s.completed
  {
    hide Advance, Step;
    StepIsTurn(A_DOLLAR, s, 1, ans, 1);
  }

  /** One execution allowed, and made: the run ends with its outcome unjudged. */
  lemma TheOnlyRunIsUnjudged(goal: Goal)
    ensures var w := Willing(ONE_TASK);
            && EndsAt(ONE_RUN, goal, w, 3) && GivesUpOn(ONE_RUN, goal, w, 2)
            && var f := FinalState(ONE_RUN, goal, w, 3);
               Unjudged(f) && f.iterations == 1 && f.stop.StopMaxIterations? && f.completed == [] && f.failed == []
  {
    var w, ans, s := Willing(ONE_TASK), Unbilled(ONE_TASK), Pending(goal);
    ReachesTheVerdict(ONE_RUN, goal, ans);
    CutOff(s, ans);
    NextState(ONE_RUN, goal, w, 2);
    hide StateAt, Step, Decide;
    EndsWhenTerminal(ONE_RUN, goal, w, 3);
    hide ActionAt, FinalState;
  }

  lemma CutOff(s: State, ans: Answers)
    requires s.phase.Evaluating? && s.summary.None? && s.stop.StopNone? && s.iterations >= 1
    requires ans.summary.Answered? && ans.summary.cost == 0.0
    ensures CheckStops(s, ONE_RUN, 1).Terminal() && !Decide(s, ONE_RUN, 1).ActStop?
    ensures var s' := Step(ONE_RUN, s, 1, ans, 1);
            && s'.phase.Stopped? && s'.stop.StopMaxIterations? && s'.pendingOutcome == s.pendingOutcome
            && s'.iterations == s.iterations && s'.completed == s.completed && s'.failed == s.failed
  {
    hide Advance, Step;
    StepIsTurn(ONE_RUN, s, 1, ans, 1);
  }

  /** A verdict on the one task that is not sure of its success. */
  const UNSURE := Evaluation(true, false, false, false, false, 0.0, "")

  lemma UnsureVerdict(s: State)
    requires s.phase.Evaluating? && s.pendingOutcome.Some? && !s.pendingOutcome.value.transient
    ensures Doubted(CAUTIOUS, UNSURE)
    ensures var s' := AdvanceEvaluate(s, CAUTIOUS, UNSURE);
            && s'.phase.Summarising? && s'.stop.StopMaxRetries?
            && s'.iterations == s.iterations && s'.retryCount == s.retryCount
  {
  }

  /** A task done, and a verdict that is not sure: with three retries left it runs once, and is given up. */
  lemma DoubtedAndGivenUp(goal: Goal)
    ensures var w := Always(Unbilled(ONE_TASK).(evaluation := Answered(UNSURE, 0.0)));
            && DoubtsAt(CAUTIOUS, goal, w, 2)
            && StateAt(CAUTIOUS, goal, w, 3).phase.Summarising? && StateAt(CAUTIOUS, goal, w, 3).stop.StopMaxRetries?
            && StateAt(CAUTIOUS, goal, w, 3).iterations == 1 && StateAt(CAUTIOUS, goal, w, 3).retryCount == 0
  {
    var ans := Unbilled(ONE_TASK).(evaluation := Answered(UNSURE, 0.0));
    var s := Pending(goal);
    ReachesTheVerdict(CAUTIOUS, goal, ans);
    JudgeStep(CAUTIOUS, s, ans);
    UnsureVerdict(s);
    NextState(CAUTIOUS, goal, Always(ans), 2);
    hide StateAt, Step, Decide, ActionAt, AdvanceEvaluate, Doubted;
  }
}
