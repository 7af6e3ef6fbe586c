/** How a run's end is reported, and what a reported end can be trusted to mean. */
module Endings {
  import opened LoopVocabulary
  import opened PlanCheck
  import opened Scheduler
  import opened Controller
  import opened Runner
  import opened Safety
  import opened Termination
  import opened Accounting

  const BUDGETS := {StopCostExceeded, StopTimeout, StopMaxIterations, StopMaxReplans}

  /** Done is a success, failed a critical failure, and stopped something that is neither. */
  lemma EndsAreClassified(cfg: Config, goal: Goal, w: World, n: nat)
    requires ActionAt(cfg, goal, w, n).ActStop?
    ensures var f := FinalState(cfg, goal, w, n);
            && f.phase.Terminal()
            && (f.phase.Done? ==> f.stop in {StopNone, StopGoalAchieved})
            && (f.phase.Failed? ==> f.stop == StopCriticalFailure)
            && (f.phase.Stopped? ==> f.stop !in {StopNone, StopGoalAchieved})
            && (f.phase.Done? <==> FinishError(f) == NoError)
  {
    hide Step;
    EveryStateHasShape(cfg, goal, w, n);
  }

  /** Within one turn the clock does not run backwards, and the summary is not paid for with a refund. */
  predicate Orderly(decided: Time, ans: Answers, advanced: Time) {
    decided <= advanced && (ans.summary.Answered? ==> ans.summary.cost >= 0.0)
  }

  ghost predicate OrderlyWorld(w: World) {
    forall i :: Orderly(w.decideAt(i), w.answers(i), w.advanceAt(i))
  }

  lemma TrippedStaysTripped(s: State, cfg: Config, cost: real, decided: Time, advanced: Time)
    requires decided <= advanced && cost >= 0.0
    ensures CheckStops(s, cfg, decided) in BUDGETS + {StopNone}
    ensures CheckStops(s, cfg, decided).Terminal() ==> CheckStops(Paid(s, cost), cfg, advanced).Terminal()
  {
  }

  lemma SummaryReason(s: State, cfg: Config, m: Summary, now: Time)
    requires s.stop.StopNone?
    ensures var s', r := AdvanceSummarise(s, cfg, m, now), CheckStops(s, cfg, now);
            if r.Terminal() then s'.phase.Stopped? && s'.stop == r
            else s'.phase.Done? && s'.stop.StopNone? && s'.plan == s.plan && s'.completed == s.completed
  {
  }

  lemma TrippedTurnStops(cfg: Config, s: State, decided: Time, ans: Answers, advanced: Time)
    requires Shape(s) && !s.phase.Terminal() && !s.phase.Summarising? && Orderly(decided, ans, advanced)
    requires CheckStops(s, cfg, decided).Terminal()
    ensures var s' := Step(cfg, s, decided, ans, advanced); s'.phase.Stopped? && s'.stop in BUDGETS
  {
    hide Step, AdvanceSummarise, CheckStops, History, Scheduled, FallbackSummary, CurrentTask;
    hide AdvancePlan, AdvanceExecute, AdvanceEvaluate, AdvanceReflect, Advance, Perform;
    StepIsTurn(cfg, s, decided, ans, advanced);
    var (m, c) := Account(s, ans);
    TrippedStaysTripped(s, cfg, c, decided, advanced);
    TrippedStaysTripped(Paid(s, c), cfg, 0.0, advanced, advanced);
    SummaryReason(Paid(s, c), cfg, m, advanced);
  }

  /** A bound has tripped by turn n, and the run is not over. */
  ghost predicate TrippedAt(cfg: Config, goal: Goal, w: World, n: nat) {
    && !StateAt(cfg, goal, w, n).phase.Terminal()
    && CheckStops(StateAt(cfg, goal, w, n), cfg, w.decideAt(n)).Terminal()
  }

  ghost predicate EndsOnBudget(cfg: Config, goal: Goal, w: World, n: nat) {
    && EndsAt(cfg, goal, w, n)
    && var f := FinalState(cfg, goal, w, n); f.phase.Stopped? && f.stop in BUDGETS
  }

  /** Tripped on the way to its summary, a run stops then and there. */
  lemma TrippedSummaryStops(cfg: Config, goal: Goal, w: World, i: nat)
    requires TrippedAt(cfg, goal, w, i) && StateAt(cfg, goal, w, i).phase.Summarising?
    ensures ActionAt(cfg, goal, w, i).ActStop?
    ensures var f := FinalState(cfg, goal, w, i); f.phase.Stopped? && f.stop in BUDGETS
  {
    var s := StateAt(cfg, goal, w, i);
    hide StateAt, CurrentTask;
    TrippedStaysTripped(s, cfg, 0.0, w.decideAt(i), w.decideAt(i));
    hide CheckStops;
  }

  lemma TrippedWorkStops(cfg: Config, goal: Goal, w: World, i: nat)
    requires OrderlyWorld(w) && TrippedAt(cfg, goal, w, i) && !StateAt(cfg, goal, w, i).phase.Summarising?
    ensures !ActionAt(cfg, goal, w, i).ActStop?
    ensures var s' := StateAt(cfg, goal, w, i + 1); s'.phase.Stopped? && s'.stop in BUDGETS
  {
    EveryStateHasShape(cfg, goal, w, i);
    NextState(cfg, goal, w, i);
    hide StateAt, CheckStops, Decide, ActionAt, Step, Shape;
    TrippedTurnStops(cfg, StateAt(cfg, goal, w, i), w.decideAt(i), w.answers(i), w.advanceAt(i));
    NotStoppedYet(cfg, StateAt(cfg, goal, w, i), w.decideAt(i));
  }

  lemma TrippedEndsOnBudget(cfg: Config, goal: Goal, w: World, i: nat, n: nat)
    requires OrderlyWorld(w) && TrippedAt(cfg, goal, w, i) && EndsAt(cfg, goal, w, n) && i <= n
    ensures EndsOnBudget(cfg, goal, w, n)
  {
    hide StateAt, TrippedAt, ActionAt, EndsAt, FinalState, OrderlyWorld;
    EndsByThen(cfg, goal, w, i, n);
    if StateAt(cfg, goal, w, i).phase.Summarising? {
      TrippedSummaryStops(cfg, goal, w, i);
    } else {
      TrippedWorkStops(cfg, goal, w, i);
      EndsWhenTerminal(cfg, goal, w, i + 1);
      EndsByThen(cfg, goal, w, i + 1, n);
    }
  }

  /** Once a bound has tripped, the run ends stopped, with a bound as its reason, and never done. */
  lemma {:induction false} BudgetStopsAreNeverDone(cfg: Config, goal: Goal, w: World)
    requires OrderlyWorld(w)
    ensures forall i: nat, n: nat :: i <= n && TrippedAt(cfg, goal, w, i) && EndsAt(cfg, goal, w, n) ==>
      EndsOnBudget(cfg, goal, w, n)
  {
    forall i: nat, n: nat | i <= n && TrippedAt(cfg, goal, w, i) && EndsAt(cfg, goal, w, n)
      ensures EndsOnBudget(cfg, goal, w, n)
    {
      hide TrippedAt, EndsAt, EndsOnBudget, OrderlyWorld;
      TrippedEndsOnBudget(cfg, goal, w, i, n);
    }
  }

  lemma NotStoppedYet(cfg: Config, s: State, now: Time)
    requires Shape(s) && !s.phase.Terminal() && !s.phase.Summarising?
    ensures !Decide(s, cfg, now).ActStop?
  {
  }

  /** A state left terminal by turn n is where the run ends, one turn later at the latest. */
  lemma EndsWhenTerminal(cfg: Config, goal: Goal, w: World, n: nat)
    requires StateAt(cfg, goal, w, n).phase.Terminal()
    ensures ActionAt(cfg, goal, w, n).ActStop?
    ensures FinalState(cfg, goal, w, n) == StateAt(cfg, goal, w, n)
  {
    hide StateAt;
  }

  lemma StopsShort(cfg: Config, goal: Goal, w: World, n: nat)
    requires ActionAt(cfg, goal, w, n).ActStop? && !StateAt(cfg, goal, w, n).phase.Terminal()
    ensures FinalState(cfg, goal, w, n).phase.Stopped?
  {
    hide StateAt, Decide;
  }

  /** A run ends at its first stop, and no later. */
  lemma EndsByThen(cfg: Config, goal: Goal, w: World, i: nat, n: nat)
    requires EndsAt(cfg, goal, w, n)
    ensures ActionAt(cfg, goal, w, i).ActStop? ==> n <= i
    ensures !ActionAt(cfg, goal, w, i).ActStop? ==> n != i
  {
    hide ActionAt;
  }

  // ---- Goal achieved

  /** The verdict, after the confidence gate, that the objective is met and no human is needed. */
  predicate Achieves(cfg: Config, e: Evaluation) {
    Gated(cfg, e).taskSucceeded && e.goalAchieved && !e.humanRequired
  }

  lemma AchievingTurn(cfg: Config, s: State, decided: Time, ans: Answers, advanced: Time)
    requires Shape(s) && Decide(s, cfg, decided).ActEvaluate?
    requires ans.evaluation.Answered? && Achieves(cfg, ans.evaluation.value)
    ensures var s' := Step(cfg, s, decided, ans, advanced);
            && s'.phase.Summarising? && s'.stop.StopGoalAchieved? && s'.summary.None?
            && s'.iterations == s.iterations && s'.replans == s.replans
  {
    hide Advance, History, Scheduled;
    StepIsTurn(cfg, s, decided, ans, advanced);
  }

  lemma AchievedTurn(cfg: Config, s: State, decided: Time, ans: Answers, advanced: Time)
    requires s.phase.Summarising? && s.stop.StopGoalAchieved? && !Decide(s, cfg, decided).ActStop?
    ensures var s' := Step(cfg, s, decided, ans, advanced); s'.phase.Done? && s'.stop.StopGoalAchieved?
  {
    hide Advance, Step, Perform, FallbackSummary, CurrentTask, CheckStops;
    hide AdvancePlan, AdvanceExecute, AdvanceEvaluate, AdvanceReflect;
    StepIsTurn(cfg, s, decided, ans, advanced);
  }

  /** Turn i judged the objective met. */
  ghost predicate AchievedAt(cfg: Config, goal: Goal, w: World, i: nat) {
    && ActionAt(cfg, goal, w, i).ActEvaluate?
    && w.answers(i).evaluation.Answered? && Achieves(cfg, w.answers(i).evaluation.value)
  }

  predicate OverBudget(s: State, cfg: Config, now: Time) {
    CostTripped(s, cfg) || TimeTripped(s, cfg, now)
  }

  ghost predicate EndsAchieved(cfg: Config, goal: Goal, w: World, n: nat) {
    && EndsAt(cfg, goal, w, n)
    && var f := FinalState(cfg, goal, w, n); f.phase.Done? && f.stop.StopGoalAchieved?
  }

  lemma AfterTheVerdict(cfg: Config, goal: Goal, w: World, i: nat)
    requires AchievedAt(cfg, goal, w, i)
    ensures var next := StateAt(cfg, goal, w, i + 1);
            && next.phase.Summarising? && next.stop.StopGoalAchieved?
            && (ActionAt(cfg, goal, w, i + 1).ActStop? <==> OverBudget(next, cfg, w.decideAt(i + 1)))
  {
    var s := StateAt(cfg, goal, w, i);
    EveryStateHasShape(cfg, goal, w, i);
    NextState(cfg, goal, w, i);
    NextState(cfg, goal, w, i + 1);
    hide StateAt, Step, ActionAt, Shape, OverBudget, Decide, Unbounded;
    AchievingTurn(cfg, s, w.decideAt(i), w.answers(i), w.advanceAt(i));
    DecisionsAreBounded(cfg, s, w.decideAt(i));
    AchievedDecision(cfg, s, StateAt(cfg, goal, w, i + 1), w.decideAt(i), w.decideAt(i + 1));
  }

  lemma AfterTheSummary(cfg: Config, goal: Goal, w: World, i: nat)
    requires StateAt(cfg, goal, w, i).phase.Summarising? && StateAt(cfg, goal, w, i).stop.StopGoalAchieved?
    requires !ActionAt(cfg, goal, w, i).ActStop?
    ensures var f := StateAt(cfg, goal, w, i + 1); f.phase.Done? && f.stop.StopGoalAchieved?
  {
    NextState(cfg, goal, w, i);
    hide StateAt, Step, ActionAt, Decide;
    AchievedTurn(cfg, StateAt(cfg, goal, w, i), w.decideAt(i), w.answers(i), w.advanceAt(i));
  }

  lemma AchievedAtOnce(cfg: Config, goal: Goal, w: World, i: nat, n: nat)
    requires AchievedAt(cfg, goal, w, i) && EndsAt(cfg, goal, w, n) && i < n
    ensures EndsAchieved(cfg, goal, w, n) <==> !OverBudget(StateAt(cfg, goal, w, i + 1), cfg, w.decideAt(i + 1))
  {
    hide StateAt, Step, ActionAt, FinalState, EndsAt, OverBudget, AchievedAt;
    AfterTheVerdict(cfg, goal, w, i);
    EndsByThen(cfg, goal, w, i + 1, n);
    if ActionAt(cfg, goal, w, i + 1).ActStop? {
      StopsShort(cfg, goal, w, i + 1);
    } else {
      AfterTheSummary(cfg, goal, w, i + 1);
      EndsWhenTerminal(cfg, goal, w, i + 2);
      EndsByThen(cfg, goal, w, i + 2, n);
    }
  }

  lemma AchievedDecision(cfg: Config, s: State, next: State, decided: Time, later: Time)
    requires Unbounded(s, cfg, Decide(s, cfg, decided)) && Decide(s, cfg, decided).ActEvaluate?
    requires next.phase.Summarising? && next.iterations == s.iterations && next.replans == s.replans
    ensures Decide(next, cfg, later).ActStop? <==> OverBudget(next, cfg, later)
  {
    hide CurrentTask, TimeTripped, CostTripped;
  }

  /**
   * A goal-achieving verdict ends the run done and achieved if and only if neither the cost nor the time
   * bound has tripped when the next decision is made; if one has, the verdict is overridden.
   */
  lemma AchievedUnlessOverBudget(cfg: Config, goal: Goal, w: World)
    ensures forall i: nat, n: nat :: i < n && AchievedAt(cfg, goal, w, i) && EndsAt(cfg, goal, w, n) ==>
      (EndsAchieved(cfg, goal, w, n) <==> !OverBudget(StateAt(cfg, goal, w, i + 1), cfg, w.decideAt(i + 1)))
  {
    forall i: nat, n: nat | i < n && AchievedAt(cfg, goal, w, i) && EndsAt(cfg, goal, w, n)
      ensures EndsAchieved(cfg, goal, w, n) <==> !OverBudget(StateAt(cfg, goal, w, i + 1), cfg, w.decideAt(i + 1))
    {
      hide StateAt, EndsAchieved, EndsAt, AchievedAt, OverBudget;
      AchievedAtOnce(cfg, goal, w, i, n);
    }
  }

  // ---- A finished plan

  /** Turn i finds the plan finished and nothing recorded against it. */
  ghost predicate FinishedAt(cfg: Config, goal: Goal, w: World, i: nat) {
    StateAt(cfg, goal, w, i).phase.Summarising? && StateAt(cfg, goal, w, i).stop.StopNone?
  }

  /** No bound trips on the way to the summary, nor once the summary has been paid for. */
  predicate SummaryFits(s: State, cfg: Config, decided: Time, ans: Answers, advanced: Time) {
    && !CheckStops(s, cfg, decided).Terminal()
    && !CheckStops(Paid(s, Account(s, ans).1), cfg, advanced).Terminal()
  }

  lemma FinishedTurn(cfg: Config, s: State, decided: Time, ans: Answers, advanced: Time)
    requires s.phase.Summarising? && s.stop.StopNone?
    ensures Decide(s, cfg, decided).ActStop? <==> CheckStops(s, cfg, decided).Terminal()
    ensures !CheckStops(s, cfg, decided).Terminal() ==>
      var s' := Step(cfg, s, decided, ans, advanced);
      s'.phase.Terminal() && (s'.phase.Done? <==> SummaryFits(s, cfg, decided, ans, advanced))
  {
    hide AdvanceSummarise, CheckStops, FallbackSummary, CurrentTask, Advance, Perform, Step, Account;
    hide AdvancePlan, AdvanceExecute, AdvanceEvaluate, AdvanceReflect;
    StepIsTurn(cfg, s, decided, ans, advanced);
    var (m, c) := Account(s, ans);
    SummaryReason(Paid(s, c), cfg, m, advanced);
  }

  ghost predicate EndsDone(cfg: Config, goal: Goal, w: World, n: nat) {
    EndsAt(cfg, goal, w, n) && FinalState(cfg, goal, w, n).phase.Done?
  }

  lemma FinishedAtOnce(cfg: Config, goal: Goal, w: World, i: nat, n: nat)
    requires FinishedAt(cfg, goal, w, i) && EndsAt(cfg, goal, w, n) && i <= n
    ensures EndsDone(cfg, goal, w, n) <==>
      SummaryFits(StateAt(cfg, goal, w, i), cfg, w.decideAt(i), w.answers(i), w.advanceAt(i))
  {
    var s := StateAt(cfg, goal, w, i);
    NextState(cfg, goal, w, i);
    hide StateAt, CheckStops, Account, Decide, FinalState, ActionAt, Paid, EndsAt, Step;
    FinishedTurn(cfg, s, w.decideAt(i), w.answers(i), w.advanceAt(i));
    if ActionAt(cfg, goal, w, i).ActStop? {
      EndsByThen(cfg, goal, w, i, n);
      StopsShort(cfg, goal, w, i);
    } else {
      EndsWhenTerminal(cfg, goal, w, i + 1);
      EndsByThen(cfg, goal, w, i, n);
      EndsByThen(cfg, goal, w, i + 1, n);
    }
  }

  /**
   * A run that has finished its plan ends done if and only if no bound has tripped when the summary is asked
   * for, nor when it has been paid for. A summary whose cost reaches the cap turns a finished plan into a stop.
   */
  lemma {:induction false} FinishedIsDoneIffSummaryFits(cfg: Config, goal: Goal, w: World)
    ensures forall i: nat, n: nat :: i <= n && FinishedAt(cfg, goal, w, i) && EndsAt(cfg, goal, w, n) ==>
      (EndsDone(cfg, goal, w, n) <==>
       SummaryFits(StateAt(cfg, goal, w, i), cfg, w.decideAt(i), w.answers(i), w.advanceAt(i)))
  {
    forall i: nat, n: nat | i <= n && FinishedAt(cfg, goal, w, i) && EndsAt(cfg, goal, w, n)
      ensures EndsDone(cfg, goal, w, n) <==>
        SummaryFits(StateAt(cfg, goal, w, i), cfg, w.decideAt(i), w.answers(i), w.advanceAt(i))
    {
      hide StateAt, EndsDone, EndsAt, FinishedAt, SummaryFits;
      FinishedAtOnce(cfg, goal, w, i, n);
    }
  }

  // ---- The outcome nobody judged

  /** Turn n gave up on an outcome: a bound tripped before its verdict, or the evaluator broke. */
  ghost predicate GivesUpOn(cfg: Config, goal: Goal, w: World, n: nat) {
    && StateAt(cfg, goal, w, n).phase.Evaluating?
    && (CheckStops(StateAt(cfg, goal, w, n), cfg, w.decideAt(n)).Terminal() || w.answers(n).evaluation.Broken?)
  }

  lemma VerdictEndsNothing(cfg: Config, s: State, e: Evaluation)
    requires s.pendingOutcome.Some?
    ensures !AdvanceEvaluate(s, cfg, e).phase.Terminal()
  {
    hide NextTask, Gated;
  }

  /** Planning and summarising leave a waiting outcome alone; executing, judging and reflecting end nothing. */
  lemma TurnsAndTheWaiting(cfg: Config, s: State, a: Action, ans: Answers, advanced: Time)
    requires Fits(s, a) && !a.ActStop?
    ensures var s' := Turn(cfg, s, a, ans, advanced);
            && ((a.ActPlan? || a.ActSummarise? || (a.ActEvaluate? && ans.evaluation.Broken?)
                 || (a.ActReflect? && ans.reflection.Broken?)) ==> (Unjudged(s') <==> Unjudged(s)))
            && ((a.ActSummarise? || (a.ActEvaluate? && ans.evaluation.Broken?)) ==> s'.phase.Terminal())
            && ((a.ActExecute? || (a.ActEvaluate? && ans.evaluation.Answered?)
                 || (a.ActReflect? && ans.reflection.Answered?)) ==> !s'.phase.Terminal())
  {
    hide ValidPlan, NextTask, Revised, CheckStops, FallbackSummary, AdvanceEvaluate, CurrentTask;
    if a.ActEvaluate? && ans.evaluation.Answered? {
      VerdictEndsNothing(cfg, Paid(s, ans.evaluation.cost), ans.evaluation.value);
    }
  }

  /** An outcome waits unjudged exactly while evaluating, as long as the run is not over. */
  lemma WaitsWhileEvaluating(s: State)
    requires Shape(s) && !s.phase.Terminal()
    ensures Unjudged(s) <==> s.phase.Evaluating?
  {
    hide History, Scheduled, Schedulable, NextTask;
  }

  lemma TrippedIsSummarised(cfg: Config, s: State, now: Time)
    requires Shape(s) && !s.phase.Terminal() && !Decide(s, cfg, now).ActStop?
    ensures Decide(s, cfg, now).ActSummarise? <==> s.phase.Summarising? || CheckStops(s, cfg, now).Terminal()
  {
    hide History, Scheduled, Schedulable, NextTask, CheckStops;
  }

  lemma EndingTurnJudges(cfg: Config, s: State, decided: Time, ans: Answers, advanced: Time)
    requires Shape(s) && !s.phase.Terminal() && !Decide(s, cfg, decided).ActStop?
    ensures var s' := Step(cfg, s, decided, ans, advanced);
            s'.phase.Terminal() ==>
              (Unjudged(s') <==>
               s.phase.Evaluating? && (CheckStops(s, cfg, decided).Terminal() || ans.evaluation.Broken?))
  {
    hide Step, Turn, Decide, CheckStops, Shape, CurrentTask;
    var a := Decide(s, cfg, decided);
    DecisionsFit(cfg, s, decided);
    StepIsTurn(cfg, s, decided, ans, advanced);
    WaitsWhileEvaluating(s);
    TrippedIsSummarised(cfg, s, decided);
    TurnsAndTheWaiting(cfg, s, a, ans, advanced);
    hide Unjudged;
  }

  lemma UnjudgedAtOnce(cfg: Config, goal: Goal, w: World, n: nat)
    requires EndsAt(cfg, goal, w, n)
    ensures Unjudged(FinalState(cfg, goal, w, n)) <==> n > 0 && GivesUpOn(cfg, goal, w, n - 1)
  {
    hide Step, Shape, Decide, CheckStops;
    EveryStateHasShape(cfg, goal, w, n);
    StopsWithout(cfg, StateAt(cfg, goal, w, n), w.decideAt(n));
    if n > 0 {
      var s, s' := StateAt(cfg, goal, w, n - 1), StateAt(cfg, goal, w, n);
      assert s' == Step(cfg, s, w.decideAt(n - 1), w.answers(n - 1), w.advanceAt(n - 1));
      assert !ActionAt(cfg, goal, w, n - 1).ActStop?;
      EveryStateHasShape(cfg, goal, w, n - 1);
      StopsWithout(cfg, s, w.decideAt(n - 1));
      hide StateAt;
      EndingTurnJudges(cfg, s, w.decideAt(n - 1), w.answers(n - 1), w.advanceAt(n - 1));
      if GivesUpOn(cfg, goal, w, n - 1) {
        GivingUpEnds(cfg, s, w.decideAt(n - 1), w.answers(n - 1), w.advanceAt(n - 1));
      }
    }
  }

  /** A stop comes in a terminal phase, or with no outcome waiting. */
  lemma StopsWithout(cfg: Config, s: State, now: Time)
    requires Shape(s)
    ensures s.phase.Terminal() ==> Decide(s, cfg, now).ActStop?
    ensures Decide(s, cfg, now).ActStop? && !s.phase.Terminal() ==> !Unjudged(s)
    ensures s.phase.Planning? ==> !Unjudged(s)
  {
    hide History, Scheduled, CheckStops, NextTask;
    DecisionsFit(cfg, s, now);
  }

  lemma GivingUpEnds(cfg: Config, s: State, decided: Time, ans: Answers, advanced: Time)
    requires Shape(s) && s.phase.Evaluating?
    requires CheckStops(s, cfg, decided).Terminal() || ans.evaluation.Broken?
    ensures Step(cfg, s, decided, ans, advanced).phase.Terminal()
  {
    hide Step, Turn, Decide, Shape, CheckStops, CurrentTask;
    DecisionsFit(cfg, s, decided);
    NotStoppedYet(cfg, s, decided);
    TrippedIsSummarised(cfg, s, decided);
    StepIsTurn(cfg, s, decided, ans, advanced);
    TurnsAndTheWaiting(cfg, s, Decide(s, cfg, decided), ans, advanced);
  }

  /** A run ends with an outcome nobody judged if and only if its last turn gave up on one. */
  lemma {:induction false} UnjudgedIffGivenUp(cfg: Config, goal: Goal, w: World)
    ensures forall n: nat :: EndsAt(cfg, goal, w, n) ==>
      (Unjudged(FinalState(cfg, goal, w, n)) <==> n > 0 && GivesUpOn(cfg, goal, w, n - 1))
  {
    forall n: nat | EndsAt(cfg, goal, w, n)
      ensures Unjudged(FinalState(cfg, goal, w, n)) <==> n > 0 && GivesUpOn(cfg, goal, w, n - 1)
    {
      hide StateAt, GivesUpOn, Unjudged;
      UnjudgedAtOnce(cfg, goal, w, n);
    }
  }

  /** At the iteration cap the last outcome is waiting for its verdict, or the run is over without one. */
  ghost predicate CapIsUnjudged(s: State, m: int) {
    s.iterations >= m ==> Unjudged(s) && (s.phase.Evaluating? || s.phase.Terminal())
  }

  lemma TurnKeepsCapUnjudged(cfg: Config, s: State, a: Action, ans: Answers, advanced: Time)
    requires cfg.maxIterations >= 1 && Shape(s) && Fits(s, a) && Unbounded(s, cfg, a)
    requires CapIsUnjudged(s, cfg.maxIterations)
    ensures CapIsUnjudged(Turn(cfg, s, a, ans, advanced), cfg.maxIterations)
  {
    hide AdvanceEvaluate, NextTask, ValidPlan, Revised, CheckStops, FallbackSummary, Gated, History, Scheduled;
    if a.ActEvaluate? && ans.evaluation.Answered? {
      EvaluateLeaves(Paid(s, ans.evaluation.cost), cfg, ans.evaluation.value);
    }
  }

  lemma {:induction false} CapStaysUnjudged(cfg: Config, goal: Goal, w: World, n: nat)
    requires cfg.maxIterations >= 1
    ensures CapIsUnjudged(StateAt(cfg, goal, w, n), cfg.maxIterations)
  {
    hide Step, Shape, Turn, Decide, Fits, Unbounded;
    if n > 0 {
      var s := StateAt(cfg, goal, w, n - 1);
      CapStaysUnjudged(cfg, goal, w, n - 1);
      EveryStateHasShape(cfg, goal, w, n - 1);
      DecisionsFit(cfg, s, w.decideAt(n - 1));
      DecisionsAreBounded(cfg, s, w.decideAt(n - 1));
      StepIsTurn(cfg, s, w.decideAt(n - 1), w.answers(n - 1), w.advanceAt(n - 1));
      hide CapIsUnjudged;
      TurnKeepsCapUnjudged(cfg, s, Decide(s, cfg, w.decideAt(n - 1)), w.answers(n - 1), w.advanceAt(n - 1));
    }
  }

  ghost predicate LeavesTheCapUnjudged(cfg: Config, goal: Goal, w: World, n: nat) {
    && (ActionAt(cfg, goal, w, n).ActEvaluate? ==> StateAt(cfg, goal, w, n).iterations < cfg.maxIterations)
    && CapIsUnjudged(StateAt(cfg, goal, w, n), cfg.maxIterations)
  }

  /**
   * Under an iteration cap, no verdict is ever asked for once the cap is reached: the outcome of the last
   * execution stays unjudged until the run is over, and after.
   */
  lemma {:induction false} CapLeavesTheLastUnjudged(cfg: Config, goal: Goal, w: World)
    requires cfg.maxIterations >= 1
    ensures forall n: nat :: LeavesTheCapUnjudged(cfg, goal, w, n)
  {
    forall n: nat ensures LeavesTheCapUnjudged(cfg, goal, w, n) {
      CapStaysUnjudged(cfg, goal, w, n);
      DecisionsAreBounded(cfg, StateAt(cfg, goal, w, n), w.decideAt(n));
      hide StateAt, CapIsUnjudged, Decide;
    }
  }

  // ---- Done with nothing left to do

  ghost predicate PlanExhausted(s: State) {
    s.phase.Done? && s.stop.StopNone? ==> Schedulable(s.plan.tasks) && NextTask(s.plan.tasks, s.completed).None?
  }

  lemma StepKeepsPlanExhausted(cfg: Config, s: State, decided: Time, ans: Answers, advanced: Time)
    requires Shape(s) && PlanExhausted(s) && Orderly(decided, ans, advanced)
    ensures PlanExhausted(Step(cfg, s, decided, ans, advanced))
  {
    hide Step, History, Scheduled, Schedulable, NextTask;
    DecisionsFit(cfg, s, decided);
    StepIsTurn(cfg, s, decided, ans, advanced);
    var a := Decide(s, cfg, decided);
    if a.ActSummarise? {
      SummaryOfExhausted(cfg, s, decided, ans, advanced);
    } else if !a.ActStop? {
      hide Decide;
      WorkIsNotDone(cfg, s, a, ans, advanced);
    }
  }

  lemma WorkIsNotDone(cfg: Config, s: State, a: Action, ans: Answers, advanced: Time)
    requires Fits(s, a) && !a.ActSummarise? && !a.ActStop?
    ensures !Turn(cfg, s, a, ans, advanced).phase.Done?
  {
    hide NextTask, ValidPlan, Fits;
  }

  lemma SummaryOfExhausted(cfg: Config, s: State, decided: Time, ans: Answers, advanced: Time)
    requires Shape(s) && Orderly(decided, ans, advanced) && Decide(s, cfg, decided).ActSummarise?
    ensures PlanExhausted(Turn(cfg, s, Decide(s, cfg, decided), ans, advanced))
  {
    var a := Decide(s, cfg, decided);
    var (m, c) := Account(s, ans);
    assert Turn(cfg, s, a, ans, advanced) == AdvanceSummarise(Paid(s, c), cfg, m, advanced);
    assert !s.phase.Summarising? ==> CheckStops(s, cfg, decided).Terminal();
    assert s.phase.Summarising? && s.stop.StopNone? ==>
      Schedulable(s.plan.tasks) && NextTask(s.plan.tasks, s.completed).None?;
    hide Turn, Decide, Shape, Schedulable, NextTask, AdvanceSummarise, CheckStops;
    if s.stop.StopNone? {
      TrippedStaysTripped(s, cfg, c, decided, advanced);
      SummaryReason(Paid(s, c), cfg, m, advanced);
    } else {
      SummaryKeepsReason(Paid(s, c), cfg, m, advanced);
    }
  }

  lemma SummaryKeepsReason(s: State, cfg: Config, m: Summary, now: Time)
    requires !s.stop.StopNone?
    ensures AdvanceSummarise(s, cfg, m, now).stop == s.stop
  {
  }

  lemma {:induction false} DoneMeansExhausted(cfg: Config, goal: Goal, w: World, n: nat)
    requires OrderlyWorld(w)
    ensures PlanExhausted(StateAt(cfg, goal, w, n))
  {
    hide Step, Shape;
    if n > 0 {
      DoneMeansExhausted(cfg, goal, w, n - 1);
      EveryStateHasShape(cfg, goal, w, n - 1);
      StepKeepsPlanExhausted(cfg, StateAt(cfg, goal, w, n - 1), w.decideAt(n - 1), w.answers(n - 1), w.advanceAt(n - 1));
    }
  }

  /** A run that ends done with no stop reason has completed every task of an acyclic final plan. */
  lemma DoneMeansEveryTaskCompleted(cfg: Config, goal: Goal, w: World, n: nat)
    requires OrderlyWorld(w) && ActionAt(cfg, goal, w, n).ActStop?
    requires var f := FinalState(cfg, goal, w, n); f.phase.Done? && f.stop.StopNone? && Acyclic(f.plan.tasks)
    ensures var f := FinalState(cfg, goal, w, n); AllDone(f.plan.tasks, f.completed)
  {
    hide Step;
    EveryStateHasShape(cfg, goal, w, n);
    DoneMeansExhausted(cfg, goal, w, n);
    var f := FinalState(cfg, goal, w, n);
    NothingReadyMeansAllDone(f.plan.tasks);
  }
}
