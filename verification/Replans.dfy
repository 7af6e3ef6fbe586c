/**
 * What a run that ends done has done of its last plan. Completion goes by task ID, and IDs are unique only
 * within a plan, so a task that reuses the ID of an earlier success counts as done without running.
 */
module Replans {
  import opened Prelude
  import opened LoopVocabulary
  import opened PlanCheck
  import opened Scheduler
  import opened Controller
  import opened Runner
  import opened Safety
  import opened Endings
  import opened StuckPlans

  /** The same tasks but for their wording: reflection rewrites instructions and nothing else. */
  ghost predicate SameWork(tasks: seq<Task>, others: seq<Task>) {
    |tasks| == |others| && forall i :: 0 <= i < |tasks| ==>
      others[i].id == tasks[i].id && others[i].dependsOn == tasks[i].dependsOn
  }

  lemma SameWorkIsAcyclic(tasks: seq<Task>, others: seq<Task>)
    requires SameWork(tasks, others) && Acyclic(tasks)
    ensures Acyclic(others)
  {
    var rank :| Ranks(tasks, rank);
    assert Ranks(others, rank);
  }

  lemma TurnKeepsWork(cfg: Config, s: State, a: Action, ans: Answers, advanced: Time)
    requires !a.ActPlan?
    ensures SameWork(s.plan.tasks, Turn(cfg, s, a, ans, advanced).plan.tasks)
  {
    hide AdvanceEvaluate, CheckStops, FallbackSummary;
    if a.ActEvaluate? && ans.evaluation.Answered? {
      EvaluateLeaves(Paid(s, ans.evaluation.cost), cfg, ans.evaluation.value);
    }
  }

  /** An ID joins the successes only while it is up for its verdict; it is up for its verdict only after it ran. */
  lemma TurnLeavesTrace(cfg: Config, s: State, a: Action, ans: Answers, advanced: Time, id: string)
    requires Shape(s) && Fits(s, a)
    ensures var s' := Turn(cfg, s, a, ans, advanced);
            && (IsDone(s.completed, id) ==> IsDone(s'.completed, id))
            && (IsDone(s'.completed, id) && !IsDone(s.completed, id) ==>
                  s.phase.Evaluating? && s.currentTaskID == id)
            && (s'.phase.Evaluating? ==> a.ActExecute? && a.task.id == s'.currentTaskID)
  {
    hide IsDone, AdvanceEvaluate, CheckStops, FallbackSummary, NextTask, ValidPlan, Revised, History;
    if a.ActEvaluate? && ans.evaluation.Answered? {
      var paid := Paid(s, ans.evaluation.cost);
      EvaluateFiles(paid, cfg, ans.evaluation.value);
      DoneGrows(s.completed, a.outcome.(success := true), id);
      VerdictMovesOn(paid, cfg, ans.evaluation.value);
    }
  }

  lemma VerdictMovesOn(s: State, cfg: Config, e: Evaluation)
    ensures !AdvanceEvaluate(s, cfg, e).phase.Evaluating?
  {
    hide NextTask;
  }

  lemma NextLeavesTrace(cfg: Config, goal: Goal, w: World, n: nat, id: string)
    ensures var s, a, s' := StateAt(cfg, goal, w, n), ActionAt(cfg, goal, w, n), StateAt(cfg, goal, w, n + 1);
            && (IsDone(s.completed, id) ==> IsDone(s'.completed, id))
            && (IsDone(s'.completed, id) && !IsDone(s.completed, id) ==>
                  s.phase.Evaluating? && s.currentTaskID == id)
            && (s'.phase.Evaluating? ==> a.ActExecute? && a.task.id == s'.currentTaskID)
            && (!a.ActPlan? ==> SameWork(s.plan.tasks, s'.plan.tasks))
  {
    var s, a := StateAt(cfg, goal, w, n), ActionAt(cfg, goal, w, n);
    NextState(cfg, goal, w, n);
    EveryStateHasShape(cfg, goal, w, n);
    hide StateAt, ActionAt, Step, Turn, Decide, Shape, Fits, IsDone, SameWork;
    DecisionsFit(cfg, s, w.decideAt(n));
    StepIsTurn(cfg, s, w.decideAt(n), w.answers(n), w.advanceAt(n));
    TurnLeavesTrace(cfg, s, a, w.answers(n), w.advanceAt(n), id);
    if !a.ActPlan? {
      TurnKeepsWork(cfg, s, a, w.answers(n), w.advanceAt(n));
    }
  }

  // ---- The last plan of a run

  /** Turn k asks for a plan and is given this one. */
  ghost predicate TakenAt(plan: Plan, cfg: Config, goal: Goal, w: World, k: nat) {
    && ActionAt(cfg, goal, w, k).ActPlan?
    && w.answers(k).plan.Answered? && w.answers(k).plan.value == plan
  }

  /** The orderly run ends at turn n, done with nothing recorded against it, under the plan taken at turn k. */
  ghost predicate DoneUnder(plan: Plan, cfg: Config, goal: Goal, w: World, k: nat, n: nat) {
    && OrderlyWorld(w) && k < n && TakenAt(plan, cfg, goal, w, k) && !PlansBetween(cfg, goal, w, k, n)
    && ActionAt(cfg, goal, w, n).ActStop?
    && var f := FinalState(cfg, goal, w, n); f.phase.Done? && f.stop.StopNone?
  }

  /** A task of this ID is executed after turn k and before turn n. */
  ghost predicate RunsBetween(cfg: Config, goal: Goal, w: World, k: nat, n: nat, id: string) {
    exists j :: k < j < n && ActionAt(cfg, goal, w, j).ActExecute? && ActionAt(cfg, goal, w, j).task.id == id
  }

  lemma {:induction false} DoneStaysDone(cfg: Config, goal: Goal, w: World, k: nat, n: nat, id: string)
    requires k <= n && IsDone(StateAt(cfg, goal, w, k).completed, id)
    ensures IsDone(StateAt(cfg, goal, w, n).completed, id)
  {
    hide IsDone, StateAt;
    if k < n {
      DoneStaysDone(cfg, goal, w, k, n - 1, id);
      NextLeavesTrace(cfg, goal, w, n - 1, id);
    }
  }

  lemma RunsOnlyUndone(cfg: Config, goal: Goal, w: World, k: nat, n: nat, id: string)
    requires RunsBetween(cfg, goal, w, k, n, id)
    ensures !IsDone(StateAt(cfg, goal, w, k).completed, id)
  {
    var j :| k < j < n && ActionAt(cfg, goal, w, j).ActExecute? && ActionAt(cfg, goal, w, j).task.id == id;
    OnlyReadyTasksAreWorkedOn(cfg, goal, w);
    assert TurnWorksOnReadyTask(cfg, goal, w, j);
    assert !IsDone(StateAt(cfg, goal, w, j).completed, id);
    hide *;
    if IsDone(StateAt(cfg, goal, w, k).completed, id) {
      DoneStaysDone(cfg, goal, w, k, j, id);
    }
  }

  lemma PlanningIsNotJudging(cfg: Config, goal: Goal, w: World, k: nat)
    requires ActionAt(cfg, goal, w, k).ActPlan?
    ensures StateAt(cfg, goal, w, k).phase.Planning?
  {
    EveryStateHasShape(cfg, goal, w, k);
    hide StateAt, Shape, Decide;
    DecisionsFit(cfg, StateAt(cfg, goal, w, k), w.decideAt(k));
  }

  /** What was not done at the planning turn k, and is done or up for its verdict at turn n, ran in between. */
  lemma {:induction false} NewlyDoneHasRun(cfg: Config, goal: Goal, w: World, k: nat, n: nat, id: string)
    requires k <= n && StateAt(cfg, goal, w, k).phase.Planning? && !IsDone(StateAt(cfg, goal, w, k).completed, id)
    ensures var s := StateAt(cfg, goal, w, n);
            IsDone(s.completed, id) || (s.phase.Evaluating? && s.currentTaskID == id) ==>
              RunsBetween(cfg, goal, w, k, n, id)
  {
    hide IsDone, StateAt, ActionAt;
    if k < n {
      NewlyDoneHasRun(cfg, goal, w, k, n - 1, id);
      NextLeavesTrace(cfg, goal, w, n - 1, id);
      if n - 1 == k {
        assert !ActionAt(cfg, goal, w, k).ActExecute? by { PlanningPlans(cfg, goal, w, k); }
      }
    }
  }

  lemma PlanningPlans(cfg: Config, goal: Goal, w: World, k: nat)
    requires StateAt(cfg, goal, w, k).phase.Planning?
    ensures !ActionAt(cfg, goal, w, k).ActExecute?
  {
    hide StateAt, CheckStops;
  }

  lemma TakenIn(plan: Plan, cfg: Config, goal: Goal, w: World, k: nat)
    requires ValidPlan(plan) && TakenAt(plan, cfg, goal, w, k)
    ensures StateAt(cfg, goal, w, k + 1).plan == plan
  {
    NextState(cfg, goal, w, k);
    hide StateAt, ActionAt, Step, Decide, ValidPlan, NextTask;
    StepIsTurn(cfg, StateAt(cfg, goal, w, k), w.decideAt(k), w.answers(k), w.advanceAt(k));
  }

  lemma {:induction false} PlanStaysInForce(plan: Plan, cfg: Config, goal: Goal, w: World, k: nat, n: nat)
    requires ValidPlan(plan) && TakenAt(plan, cfg, goal, w, k) && k < n && !PlansBetween(cfg, goal, w, k, n)
    ensures SameWork(plan.tasks, StateAt(cfg, goal, w, n).plan.tasks)
  {
    hide ValidPlan, TakenAt, StateAt, ActionAt;
    if n == k + 1 {
      TakenIn(plan, cfg, goal, w, k);
    } else {
      PlanStaysInForce(plan, cfg, goal, w, k, n - 1);
      NextLeavesTrace(cfg, goal, w, n - 1, "");
    }
  }

  lemma EverythingIsDone(plan: Plan, cfg: Config, goal: Goal, w: World, k: nat, n: nat)
    requires ValidPlan(plan) && Acyclic(plan.tasks) && DoneUnder(plan, cfg, goal, w, k, n)
    ensures AllDone(plan.tasks, StateAt(cfg, goal, w, n).completed)
  {
    var f := FinalState(cfg, goal, w, n);
    assert f.plan == StateAt(cfg, goal, w, n).plan && f.completed == StateAt(cfg, goal, w, n).completed;
    hide StateAt, ActionAt, FinalState, ValidPlan, Acyclic, OrderlyWorld, IsDone, TakenAt, PlansBetween;
    PlanStaysInForce(plan, cfg, goal, w, k, n);
    SameWorkIsAcyclic(plan.tasks, f.plan.tasks);
    DoneMeansEveryTaskCompleted(cfg, goal, w, n);
    forall i | 0 <= i < |plan.tasks| ensures IsDone(f.completed, plan.tasks[i].id) {
      assert plan.tasks[i].id == f.plan.tasks[i].id;
    }
  }

  /** Task i of the plan was done by its ID when the plan was taken. */
  ghost predicate Reused(plan: Plan, cfg: Config, goal: Goal, w: World, k: nat, i: nat)
    requires i < |plan.tasks|
  {
    IsDone(StateAt(cfg, goal, w, k).completed, plan.tasks[i].id)
  }

  lemma RanUnlessReused(plan: Plan, cfg: Config, goal: Goal, w: World, k: nat, n: nat, i: nat)
    requires ValidPlan(plan) && Acyclic(plan.tasks) && DoneUnder(plan, cfg, goal, w, k, n) && i < |plan.tasks|
    ensures RunsBetween(cfg, goal, w, k, n, plan.tasks[i].id) <==> !Reused(plan, cfg, goal, w, k, i)
  {
    var id := plan.tasks[i].id;
    hide ValidPlan, Acyclic, StateAt, ActionAt, FinalState, IsDone, RunsBetween, OrderlyWorld, PlansBetween;
    EverythingIsDone(plan, cfg, goal, w, k, n);
    if RunsBetween(cfg, goal, w, k, n, id) {
      RunsOnlyUndone(cfg, goal, w, k, n, id);
    } else if !Reused(plan, cfg, goal, w, k, i) {
      PlanningIsNotJudging(cfg, goal, w, k);
      NewlyDoneHasRun(cfg, goal, w, k, n, id);
    }
  }

  /**
   * A run that ends done with no reason on an acyclic plan has executed, under that plan, exactly the tasks
   * whose IDs had not succeeded before the plan was taken. The others count as completed and never ran.
   */
  lemma {:induction false} TasksRunUnlessReused(plan: Plan, cfg: Config, goal: Goal, w: World)
    requires ValidPlan(plan) && Acyclic(plan.tasks)
    ensures forall k: nat, n: nat, i: nat :: DoneUnder(plan, cfg, goal, w, k, n) && i < |plan.tasks| ==>
      (RunsBetween(cfg, goal, w, k, n, plan.tasks[i].id) <==> !Reused(plan, cfg, goal, w, k, i))
  {
    forall k: nat, n: nat, i: nat | DoneUnder(plan, cfg, goal, w, k, n) && i < |plan.tasks|
      ensures RunsBetween(cfg, goal, w, k, n, plan.tasks[i].id) <==> !Reused(plan, cfg, goal, w, k, i)
    {
      hide *;
      RanUnlessReused(plan, cfg, goal, w, k, n, i);
    }
  }

  // ---- A concrete run

  /** The first plan has two tasks; the second asks for other work under the ID of the first task. */
  const FIRST := Plan("", [Task("a", "k", "", "go", []), Task("b", "k", "", "go", [])])
  const SECOND := Plan("", [Task("a", "k", "", "another", [])])

  const DID := Outcome("", true, "", "", false, 0.0, "")
  const REPLAN := Evaluation(false, false, false, true, false, 1.0, "")

  /** Two plans one after the other; the first verdict, at turn 2, is a success, and later ones ask for a replan. */
  function Replanning(i: nat): Answers {
    var plan := if i == 0 then FIRST else SECOND;
    if i <= 2 then Unbilled(plan) else Unbilled(plan).(evaluation := Answered(REPLAN, 0.0))
  }

  function Replanner(): World {
    World(1, (i: nat) => 1, (i: nat) => 1, Replanning, (i: nat) => false)
  }

  lemma NothingIsBlank()
    ensures !Blank("a") && !Blank("b") && !Blank("k") && !Blank("go") && !Blank("another") && "a" != "b"
  {
    assert "a"[0] == 'a' && "b"[0] == 'b' && "k"[0] == 'k' && "go"[0] == 'g' && "another"[0] == 'a';
  }

  lemma PlansAreValid()
    ensures ValidPlan(FIRST) && ValidPlan(SECOND) && Acyclic(SECOND.tasks)
  {
    hide Blank;
    NothingIsBlank();
    assert Ranks(SECOND.tasks, map["a" := 0]);
  }

  const A_DONE := [DID.(taskID := "a")]

  lemma WhatIsNext()
    ensures NextTask(FIRST.tasks, []) == Some(FIRST.tasks[0])
    ensures NextTask(FIRST.tasks, A_DONE) == Some(FIRST.tasks[1])
    ensures NextTask(SECOND.tasks, A_DONE).None?
    ensures TaskByID(FIRST.tasks, "a") == Some(FIRST.tasks[0])
    ensures TaskByID(FIRST.tasks, "b") == Some(FIRST.tasks[1])
  {
    assert "a"[0] != "b"[0];
    assert A_DONE[0].taskID == "a" && IsDone(A_DONE, "a") && !IsDone(A_DONE, "b");
    hide IsDone;
    assert Ready(FIRST.tasks[0], []) by { assert !IsDone([], "a"); }
    assert FIRST.tasks[1..] == [FIRST.tasks[1]];
  }

  /** The first task done, the second judged a failure, and the question for a new plan put. */
  function Again(goal: Goal): State {
    Initial(goal, 1).(plan := FIRST, completed := A_DONE, failed := [DID.(taskID := "b", success := false)],
                      iterations := 2, replans := 1)
  }

  lemma NextTurn(goal: Goal, n: nat)
    ensures var s := StateAt(FREE, goal, Replanner(), n);
            && ActionAt(FREE, goal, Replanner(), n) == Decide(s, FREE, 1)
            && StateAt(FREE, goal, Replanner(), n + 1) == Step(FREE, s, 1, Replanning(n), 1)
  {
    hide StateAt, Step, Decide, Replanning;
    NextState(FREE, goal, Replanner(), n);
  }

  lemma FirstTaskSucceeds(goal: Goal)
    ensures StateAt(FREE, goal, Replanner(), 3)
         == Initial(goal, 1).(plan := FIRST, currentTaskID := "b", completed := A_DONE, iterations := 1, phase := Executing)
  {
    PlansAreValid();
    WhatIsNext();
    hide NextTask, TaskByID, ValidPlan, Step, Decide;
    var s0 := Initial(goal, 1);
    var s1 := s0.(plan := FIRST, currentTaskID := "a", phase := Executing);
    var s2 := s1.(iterations := 1, pendingOutcome := Some(DID.(taskID := "a")), phase := Evaluating);
    assert StateAt(FREE, goal, Replanner(), 0) == s0;
    hide StateAt;
    NextTurn(goal, 0);
    PlanStep(FREE, s0, Replanning(0));
    NextTurn(goal, 1);
    ExecuteStep(FREE, s1, Replanning(1));
    NextTurn(goal, 2);
    assert [] + [s2.pendingOutcome.value.(success := true)] == A_DONE;
    VerdictFiles(FREE, s2, Replanning(2));
  }

  lemma SecondTaskFails(goal: Goal)
    ensures StateAt(FREE, goal, Replanner(), 5) == Again(goal)
  {
    WhatIsNext();
    FirstTaskSucceeds(goal);
    hide StateAt, NextTask, TaskByID, Step, Decide;
    var s3 := StateAt(FREE, goal, Replanner(), 3);
    var s4 := s3.(iterations := 2, pendingOutcome := Some(DID.(taskID := "b")), phase := Evaluating);
    NextTurn(goal, 3);
    ExecuteStep(FREE, s3, Replanning(3));
    NextTurn(goal, 4);
    JudgeStep(FREE, s4, Replanning(4));
    assert [] + [s4.pendingOutcome.value.(success := false)] == Again(goal).failed;
  }

  /**
   * The first task succeeds, the second fails, and the new plan is one other task under the ID of the first.
   * The run ends done with no error, two executions in all, both before the new plan: its task never ran.
   */
  lemma ReusedTaskNeverRuns(goal: Goal)
    ensures ValidPlan(SECOND) && Acyclic(SECOND.tasks) && DoneUnder(SECOND, FREE, goal, Replanner(), 5, 7)
    ensures StateAt(FREE, goal, Replanner(), 5).iterations == 2
    ensures var f := FinalState(FREE, goal, Replanner(), 7);
            FinishError(f) == NoError && f.plan == SECOND && f.iterations == 2 && AllDone(SECOND.tasks, f.completed)
    ensures !RunsBetween(FREE, goal, Replanner(), 5, 7, "a")
  {
    PlansAreValid();
    WhatIsNext();
    SecondTaskFails(goal);
    hide StateAt, NextTask, TaskByID, Step, Decide, ValidPlan, Acyclic;
    var s5 := Again(goal);
    var s6 := s5.(plan := SECOND, phase := Summarising);
    NextTurn(goal, 5);
    PlanStep(FREE, s5, Replanning(5));
    NextTurn(goal, 6);
    SummaryClosesUp(s6, Replanning(6));
    assert !ActionAt(FREE, goal, Replanner(), 6).ActPlan? && !ActionAt(FREE, goal, Replanner(), 6).ActExecute?;
    EndsWhenTerminal(FREE, goal, Replanner(), 7);
    hide ActionAt, FinalState;
    assert IsDone(A_DONE, "a") by { assert A_DONE[0].taskID == "a"; }
    assert !PlansBetween(FREE, goal, Replanner(), 5, 7);
  }
}
