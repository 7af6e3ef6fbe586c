/** When the loop is certain to end, and after how much work. */
module Termination {
  import opened Prelude
  import opened LoopVocabulary
  import opened PlanCheck
  import opened Scheduler
  import opened Controller
  import opened Runner
  import opened Safety

  // ---- With the iteration cap

  /** At most this many engine calls remain: three an iteration, less the verdict the cap cuts off. */
  function CallsLeft(s: State, m: nat): int {
    var k := m - s.iterations;
    match s.phase
    case Planning => 3 * k
    case Executing => 3 * k - 1
    case Evaluating => 3 * k + 1
    case Reflecting => 3 * k
    case Summarising => 1
    case _ => 0
  }

  ghost predicate UnderCap(s: State, m: nat) {
    && s.iterations <= m
    && (s.phase.Planning? || s.phase.Executing? || s.phase.Reflecting? ==> s.iterations < m)
  }

  /** What a decision to go on working says about the bounds. */
  ghost predicate Unbounded(s: State, cfg: Config, a: Action) {
    a.ActSummarise? || a.ActStop? ||
    (&& (cfg.maxIterations > 0 ==> s.iterations < cfg.maxIterations)
     && (cfg.maxReplans > 0 ==> s.replans < cfg.maxReplans))
  }

  lemma DecisionsAreBounded(cfg: Config, s: State, decided: Time)
    ensures Unbounded(s, cfg, Decide(s, cfg, decided))
  {
  }

  lemma EvaluateSpendsACall(cfg: Config, s: State, e: Evaluation)
    requires s.phase.Evaluating? && s.iterations < cfg.maxIterations
    ensures var s' := AdvanceEvaluate(s, cfg, e);
            UnderCap(s', cfg.maxIterations) && CallsLeft(s', cfg.maxIterations) < CallsLeft(s, cfg.maxIterations)
  {
  }

  lemma TurnSpendsACall(cfg: Config, s: State, a: Action, ans: Answers, advanced: Time)
    requires cfg.maxIterations >= 1 && Fits(s, a) && Unbounded(s, cfg, a) && !a.ActStop?
    requires UnderCap(s, cfg.maxIterations)
    ensures var s' := Turn(cfg, s, a, ans, advanced);
            && UnderCap(s', cfg.maxIterations)
            && 0 <= CallsLeft(s', cfg.maxIterations) < CallsLeft(s, cfg.maxIterations)
  {
    hide AdvanceEvaluate, NextTask, ValidPlan, Revised, CheckStops, FallbackSummary, Gated;
    if a.ActEvaluate? && ans.evaluation.Answered? {
      EvaluateSpendsACall(cfg, Paid(s, ans.evaluation.cost), ans.evaluation.value);
    }
  }

  lemma StepSpendsACall(cfg: Config, s: State, decided: Time, ans: Answers, advanced: Time)
    requires cfg.maxIterations >= 1 && Shape(s) && UnderCap(s, cfg.maxIterations)
    ensures var s' := Step(cfg, s, decided, ans, advanced);
            && UnderCap(s', cfg.maxIterations)
            && (!Decide(s, cfg, decided).ActStop? ==>
                  0 <= CallsLeft(s', cfg.maxIterations) < CallsLeft(s, cfg.maxIterations))
  {
    hide Turn, Decide, Shape, Advance, Unbounded, UnderCap;
    var a := Decide(s, cfg, decided);
    DecisionsFit(cfg, s, decided);
    DecisionsAreBounded(cfg, s, decided);
    StepIsTurn(cfg, s, decided, ans, advanced);
    if !a.ActStop? {
      TurnSpendsACall(cfg, s, a, ans, advanced);
    }
  }

  /** A run that has not been stopped after n turns has made n engine calls, and at most 3M in all. */
  lemma {:induction false} CallsAreCounted(cfg: Config, goal: Goal, w: World, n: nat)
    requires cfg.maxIterations >= 1
    ensures UnderCap(StateAt(cfg, goal, w, n), cfg.maxIterations)
    ensures (forall i :: 0 <= i < n ==> !ActionAt(cfg, goal, w, i).ActStop?) ==>
              0 <= CallsLeft(StateAt(cfg, goal, w, n), cfg.maxIterations) <= 3 * cfg.maxIterations - n
  {
    hide Step, Shape;
    if n > 0 {
      var going := forall i :: 0 <= i < n ==> !ActionAt(cfg, goal, w, i).ActStop?;
      assert going ==> !ActionAt(cfg, goal, w, n - 1).ActStop?;
      CallsAreCounted(cfg, goal, w, n - 1);
      EveryStateHasShape(cfg, goal, w, n - 1);
      StepSpendsACall(cfg, StateAt(cfg, goal, w, n - 1), w.decideAt(n - 1), w.answers(n - 1), w.advanceAt(n - 1));
    }
  }

  /** The run is over after exactly n engine calls. */
  ghost predicate EndsAt(cfg: Config, goal: Goal, w: World, n: nat) {
    ActionAt(cfg, goal, w, n).ActStop? && forall i :: 0 <= i < n ==> !ActionAt(cfg, goal, w, i).ActStop?
  }

  lemma {:induction false} FirstStop(cfg: Config, goal: Goal, w: World, n: nat) returns (k: nat)
    requires exists i :: 0 <= i <= n && ActionAt(cfg, goal, w, i).ActStop?
    ensures k <= n && EndsAt(cfg, goal, w, k)
  {
    if i :| 0 <= i < n && ActionAt(cfg, goal, w, i).ActStop? {
      k := FirstStop(cfg, goal, w, n - 1);
    } else {
      k := n;
    }
  }

  /**
   * Whatever plans, verdicts and replans come back, a loop with an iteration cap of M ends after at most
   * 3M engine calls and never runs more than M executions.
   */
  lemma CappedRunEnds(cfg: Config, goal: Goal, w: World)
    requires cfg.maxIterations >= 1
    ensures exists n :: 0 <= n <= 3 * cfg.maxIterations && EndsAt(cfg, goal, w, n)
    ensures forall n: nat :: StateAt(cfg, goal, w, n).iterations <= cfg.maxIterations
  {
    hide Step;
    forall n: nat ensures StateAt(cfg, goal, w, n).iterations <= cfg.maxIterations {
      CallsAreCounted(cfg, goal, w, n);
    }
    var last := 3 * cfg.maxIterations;
    if forall i :: 0 <= i < last ==> !ActionAt(cfg, goal, w, i).ActStop? {
      CallsAreCounted(cfg, goal, w, last);
      EveryStateHasShape(cfg, goal, w, last);
      NothingLeftMeansOver(StateAt(cfg, goal, w, last), cfg, w.decideAt(last));
      assert ActionAt(cfg, goal, w, last).ActStop?;
    }
    var k := FirstStop(cfg, goal, w, last);
  }

  lemma NothingLeftMeansOver(s: State, cfg: Config, now: Time)
    requires Shape(s) && cfg.maxIterations >= 1 && UnderCap(s, cfg.maxIterations) && CallsLeft(s, cfg.maxIterations) <= 0
    ensures Decide(s, cfg, now).ActStop?
  {
  }

  // ---- With the replan cap alone

  /** Replans left, then whether a plan is owed, then work left in the plan, then retries, then the phase. */
  datatype Measure = Measure(replans: nat, planning: nat, undone: nat, retries: nat, phase: nat)

  predicate Less(a: Measure, b: Measure) {
    || a.replans < b.replans
    || (a.replans == b.replans &&
        (|| a.planning < b.planning
         || (a.planning == b.planning &&
             (|| a.undone < b.undone
              || (a.undone == b.undone &&
                  (|| a.retries < b.retries
                   || (a.retries == b.retries && a.phase < b.phase)))))))
  }

  function Monus(a: int, b: int): nat {
    if a > b then a - b else 0
  }

  function PhaseRank(p: Phase): nat {
    match p
    case Reflecting => 4
    case Executing => 3
    case Evaluating => 2
    case Summarising => 1
    case _ => 0
  }

  function MeasureOf(cfg: Config, s: State): Measure {
    Measure(
      Monus(cfg.maxReplans, s.replans),
      if s.phase.Planning? then 1 else 0,
      Undone(s.plan.tasks, s.completed),
      Monus(cfg.retry.maxRetries, s.retryCount),
      PhaseRank(s.phase))
  }

  /** One success files one of the plan's outstanding tasks, so less remains. */
  lemma SuccessLeavesLess(s: State, o: Outcome)
    requires Scheduled(s) && o.taskID == s.currentTaskID && o.success
    ensures Undone(s.plan.tasks, s.completed + [o]) < Undone(s.plan.tasks, s.completed)
  {
    var t := CurrentTask(s).value;
    var i :| 0 <= i < |s.plan.tasks| && s.plan.tasks[i] == t;
    UndoneShrinks(s.plan.tasks, s.completed, o, i);
  }

  lemma SuccessMeasure(cfg: Config, s: State, e: Evaluation)
    requires PhaseRank(s.phase) == 2
    ensures var s' := AfterSuccess(s, e);
            && s'.replans == s.replans && s'.plan == s.plan && s'.completed == s.completed
            && !s'.phase.Planning?
  {
    hide NextTask;
  }

  lemma FailureMeasure(cfg: Config, s: State, o: Outcome, e: Evaluation)
    requires s.phase.Evaluating? && s.replans < cfg.maxReplans
    ensures Less(MeasureOf(cfg, AfterFailure(s, cfg, o, e)), MeasureOf(cfg, s))
  {
    hide Undone;
  }

  lemma EvaluateMeasure(cfg: Config, s: State, e: Evaluation)
    requires Shape(s) && s.phase.Evaluating? && s.replans < cfg.maxReplans
    ensures Less(MeasureOf(cfg, AdvanceEvaluate(s, cfg, e)), MeasureOf(cfg, s))
  {
    hide Shape, Undone, AfterSuccess, AfterFailure;
    EvaluatingShape(s);
    var o, g := s.pendingOutcome.value, Gated(cfg, e);
    SuccessLeavesLess(s, o.(success := true));
    hide Scheduled;
    SuccessMeasure(cfg, File(s, o, true).(pendingOutcome := None, retryCount := 0), g);
    FailureMeasure(cfg, File(s, o, false), o, g);
  }

  lemma EvaluatingShape(s: State)
    requires Shape(s) && s.phase.Evaluating?
    ensures Scheduled(s) && s.pendingOutcome.Some? && s.pendingOutcome.value.taskID == s.currentTaskID
  {
  }

  lemma {:induction false} UndoneSameIDs(a: seq<Task>, b: seq<Task>, completed: seq<Outcome>)
    requires |a| == |b| && forall i :: 0 <= i < |a| ==> a[i].id == b[i].id
    ensures Undone(a, completed) == Undone(b, completed)
  {
    if a != [] {
      UndoneSameIDs(a[1..], b[1..], completed);
    }
  }

  lemma PlanMeasure(cfg: Config, s: State, plan: Plan)
    requires s.phase.Planning?
    ensures Less(MeasureOf(cfg, AdvancePlan(s, plan)), MeasureOf(cfg, s))
  {
    hide Undone, NextTask, ValidPlan;
  }

  lemma ReflectMeasure(cfg: Config, s: State, r: Reflection)
    requires s.phase.Reflecting?
    ensures Less(MeasureOf(cfg, AdvanceReflect(s, r)), MeasureOf(cfg, s))
  {
    hide Undone;
    UndoneSameIDs(s.plan.tasks, Revised(s.plan.tasks, s.currentTaskID, r.revisedInstructions), s.completed);
  }

  lemma PaidMeasure(cfg: Config, s: State, cost: real)
    ensures MeasureOf(cfg, Paid(s, cost)) == MeasureOf(cfg, s)
  {
    hide Undone;
  }

  lemma EndMeasure(cfg: Config, s: State, m: Summary, now: Time)
    requires !s.phase.Terminal() && !s.phase.Unknown?
    ensures Less(MeasureOf(cfg, Fail(s)), MeasureOf(cfg, s))
    ensures Less(MeasureOf(cfg, AdvanceSummarise(s, cfg, m, now)), MeasureOf(cfg, s))
  {
    hide Undone;
  }

  lemma ExecuteMeasure(cfg: Config, s: State, o: Outcome)
    requires s.phase.Executing?
    ensures Less(MeasureOf(cfg, AdvanceExecute(s, o)), MeasureOf(cfg, s))
  {
    hide Undone;
  }

  lemma SummariseTurnMeasure(cfg: Config, s: State, ans: Answers, advanced: Time)
    requires !s.phase.Terminal() && !s.phase.Unknown?
    ensures var (m, c) := Account(s, ans);
            Less(MeasureOf(cfg, AdvanceSummarise(Paid(s, c), cfg, m, advanced)), MeasureOf(cfg, s))
  {
    hide AdvanceSummarise, Fail, MeasureOf, Less, FallbackSummary, Account;
    var (m, c) := Account(s, ans);
    PaidMeasure(cfg, s, c);
    EndMeasure(cfg, Paid(s, c), m, advanced);
  }

  lemma TurnMeasure(cfg: Config, s: State, a: Action, ans: Answers, advanced: Time)
    requires cfg.maxReplans >= 1 && Shape(s) && Fits(s, a) && Unbounded(s, cfg, a) && !a.ActStop?
    ensures Less(MeasureOf(cfg, Turn(cfg, s, a, ans, advanced)), MeasureOf(cfg, s))
  {
    hide AdvancePlan, AdvanceExecute, AdvanceEvaluate, AdvanceReflect, AdvanceSummarise, Fail, MeasureOf, Less, Shape;
    hide FallbackSummary, Undone;
    EndMeasure(cfg, s, FallbackSummary(s), advanced);
    match a
    case ActPlan =>
      if ans.plan.Answered? {
        PaidMeasure(cfg, s, ans.plan.cost);
        PlanMeasure(cfg, Paid(s, ans.plan.cost), ans.plan.value);
      }
    case ActExecute(t, _) => ExecuteMeasure(cfg, s, Ran(t, ans));
    case ActEvaluate(_, _) =>
      if ans.evaluation.Answered? {
        PaidMeasure(cfg, s, ans.evaluation.cost);
        PaidKeepsShape(s, ans.evaluation.cost);
        EvaluateMeasure(cfg, Paid(s, ans.evaluation.cost), ans.evaluation.value);
      }
    case ActReflect(_, _, _) =>
      if ans.reflection.Answered? {
        PaidMeasure(cfg, s, ans.reflection.cost);
        ReflectMeasure(cfg, Paid(s, ans.reflection.cost), ans.reflection.value);
      }
    case ActSummarise(_) => SummariseTurnMeasure(cfg, s, ans, advanced);
    case ActStop(_) =>
  }

  lemma StepMeasure(cfg: Config, s: State, decided: Time, ans: Answers, advanced: Time)
    requires cfg.maxReplans >= 1 && Shape(s) && !Decide(s, cfg, decided).ActStop?
    ensures Less(MeasureOf(cfg, Step(cfg, s, decided, ans, advanced)), MeasureOf(cfg, s))
  {
    hide Turn, Decide, Shape, Advance, Unbounded, Less, MeasureOf, Fits;
    DecisionsFit(cfg, s, decided);
    DecisionsAreBounded(cfg, s, decided);
    StepIsTurn(cfg, s, decided, ans, advanced);
    TurnMeasure(cfg, s, Decide(s, cfg, decided), ans, advanced);
  }

  lemma {:induction false} ReplanRunStops(cfg: Config, goal: Goal, w: World, n: nat) returns (end: nat)
    requires cfg.maxReplans >= 1
    ensures end >= n && ActionAt(cfg, goal, w, end).ActStop?
    decreases var m := MeasureOf(cfg, StateAt(cfg, goal, w, n)); m.replans,
              MeasureOf(cfg, StateAt(cfg, goal, w, n)).planning,
              MeasureOf(cfg, StateAt(cfg, goal, w, n)).undone,
              MeasureOf(cfg, StateAt(cfg, goal, w, n)).retries,
              MeasureOf(cfg, StateAt(cfg, goal, w, n)).phase
  {
    hide Step, MeasureOf, Shape, Decide;
    if ActionAt(cfg, goal, w, n).ActStop? {
      return n;
    }
    EveryStateHasShape(cfg, goal, w, n);
    StepMeasure(cfg, StateAt(cfg, goal, w, n), w.decideAt(n), w.answers(n), w.advanceAt(n));
    end := ReplanRunStops(cfg, goal, w, n + 1);
  }

  /** The replan cap is enough on its own, however large each plan is. */
  lemma ReplanCappedRunEnds(cfg: Config, goal: Goal, w: World)
    requires cfg.maxReplans >= 1
    ensures exists n :: EndsAt(cfg, goal, w, n)
  {
    var end := ReplanRunStops(cfg, goal, w, 0);
    var k := FirstStop(cfg, goal, w, end);
  }
}
