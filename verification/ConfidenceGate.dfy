/** What becomes of a success the evaluator is not sure about: when its task runs again, and when it does not. */
module ConfidenceGate {
  import opened Prelude
  import opened LoopVocabulary
  import opened Scheduler
  import opened Controller
  import opened Runner
  import opened Safety

  /** The gate turns this verdict's success into a failure. */
  predicate Doubted(cfg: Config, e: Evaluation) {
    e.taskSucceeded && cfg.minConfidence > 0.0 && e.confidence < cfg.minConfidence
  }

  /** Turn n doubted a success, and no human was asked for. */
  ghost predicate DoubtsAt(cfg: Config, goal: Goal, w: World, n: nat) {
    && ActionAt(cfg, goal, w, n).ActEvaluate? && w.answers(n).evaluation.Answered?
    && Doubted(cfg, w.answers(n).evaluation.value) && !w.answers(n).evaluation.value.humanRequired
  }

  predicate Tripped(cfg: Config, s: State, now: Time) {
    CheckStops(s, cfg, now).Terminal()
  }

  ghost predicate TrippedAtTurn(cfg: Config, goal: Goal, w: World, n: nat) {
    Tripped(cfg, StateAt(cfg, goal, w, n), w.decideAt(n))
  }

  /**
   * The outcome was transient and a retry is left; then no bound trips, and with reflection on the reflector
   * answers and no bound trips after it either.
   */
  ghost predicate Cleared(cfg: Config, goal: Goal, w: World, n: nat) {
    && ActionAt(cfg, goal, w, n).ActEvaluate? && ActionAt(cfg, goal, w, n).outcome.transient
    && StateAt(cfg, goal, w, n).retryCount < cfg.retry.maxRetries
    && !TrippedAtTurn(cfg, goal, w, n + 1)
    && (cfg.reflection ==> w.answers(n + 1).reflection.Answered? && !TrippedAtTurn(cfg, goal, w, n + 2))
  }

  /** Something executes after turn n, under the plan of turn n. */
  ghost predicate RunsAgain(cfg: Config, goal: Goal, w: World, n: nat) {
    exists j :: j > n && ActionAt(cfg, goal, w, j).ActExecute? && !PlansBetween(cfg, goal, w, n, j)
  }

  /** And what executes first is the task that was judged. */
  ghost predicate SameTaskNext(cfg: Config, goal: Goal, w: World, n: nat) {
    var again := n + (if cfg.reflection then 2 else 1);
    && ActionAt(cfg, goal, w, n).ActEvaluate? && ActionAt(cfg, goal, w, again).ActExecute?
    && ActionAt(cfg, goal, w, again).task.id == ActionAt(cfg, goal, w, n).judged.id
  }

  lemma DoubtedVerdict(s: State, cfg: Config, e: Evaluation)
    requires s.pendingOutcome.Some? && Doubted(cfg, e) && !e.humanRequired
    ensures var s' := AdvanceEvaluate(s, cfg, e);
            if s.pendingOutcome.value.transient && s.retryCount < cfg.retry.maxRetries
            then s'.phase == (if cfg.reflection then Reflecting else Executing) && s'.currentTaskID == s.currentTaskID
            else Idle(s')
  {
  }

  lemma DoubtedTurn(cfg: Config, s: State, decided: Time, ans: Answers, advanced: Time)
    requires Decide(s, cfg, decided).ActEvaluate? && ans.evaluation.Answered?
    requires Doubted(cfg, ans.evaluation.value) && !ans.evaluation.value.humanRequired
    ensures var s' := Step(cfg, s, decided, ans, advanced);
            if Decide(s, cfg, decided).outcome.transient && s.retryCount < cfg.retry.maxRetries
            then s'.phase == (if cfg.reflection then Reflecting else Executing) && s'.currentTaskID == s.currentTaskID
            else Idle(s')
  {
    var o := Decide(s, cfg, decided).outcome;
    assert s.pendingOutcome == Some(o);
    StepIsTurn(cfg, s, decided, ans, advanced);
    DoubtedVerdict(Paid(s, ans.evaluation.cost), cfg, ans.evaluation.value);
    hide Step, Decide, AdvanceEvaluate, Doubted, Idle;
  }

  /** A working phase goes on with its task unless a bound trips; then the run is over. */
  lemma WorkGoesOn(cfg: Config, s: State, decided: Time, ans: Answers, advanced: Time)
    requires Shape(s) && (s.phase.Executing? || s.phase.Reflecting?)
    ensures var a := Decide(s, cfg, decided);
            if Tripped(cfg, s, decided) then a.ActSummarise?
            else if s.phase.Executing? then a.ActExecute? && a.task.id == s.currentTaskID
            else a.ActReflect?
  {
    hide History, CheckStops;
  }

  lemma TripEnds(cfg: Config, s: State, decided: Time, ans: Answers, advanced: Time)
    requires Decide(s, cfg, decided).ActSummarise?
    ensures Idle(Step(cfg, s, decided, ans, advanced))
  {
    hide Decide, CheckStops, FallbackSummary, Step;
    StepIsTurn(cfg, s, decided, ans, advanced);
  }

  lemma ReflectionTurn(cfg: Config, s: State, decided: Time, ans: Answers, advanced: Time)
    requires Decide(s, cfg, decided).ActReflect?
    ensures var s' := Step(cfg, s, decided, ans, advanced);
            if ans.reflection.Answered? then s'.phase.Executing? && s'.currentTaskID == s.currentTaskID else Idle(s')
  {
    hide Decide, Revised, Step;
    StepIsTurn(cfg, s, decided, ans, advanced);
  }

  lemma JudgedIsCurrent(cfg: Config, s: State, decided: Time)
    requires Shape(s) && Decide(s, cfg, decided).ActEvaluate?
    ensures Decide(s, cfg, decided).judged.id == s.currentTaskID
  {
    hide History, CheckStops;
  }

  /** Where the work left by the doubt at turn n stands at the turn after it. */
  lemma AfterTheDoubt(cfg: Config, goal: Goal, w: World, n: nat)
    requires DoubtsAt(cfg, goal, w, n)
    ensures var a, s, s' := ActionAt(cfg, goal, w, n), StateAt(cfg, goal, w, n), StateAt(cfg, goal, w, n + 1);
            && a.judged.id == s.currentTaskID
            && if a.outcome.transient && s.retryCount < cfg.retry.maxRetries
               then s'.phase == (if cfg.reflection then Reflecting else Executing) && s'.currentTaskID == s.currentTaskID
               else Idle(s')
  {
    NextState(cfg, goal, w, n);
    EveryStateHasShape(cfg, goal, w, n);
    hide StateAt, Step, Decide, ActionAt, Doubted, Idle, Shape;
    DoubtedTurn(cfg, StateAt(cfg, goal, w, n), w.decideAt(n), w.answers(n), w.advanceAt(n));
    JudgedIsCurrent(cfg, StateAt(cfg, goal, w, n), w.decideAt(n));
  }

  /** What the next turn does with an execution or a reflection to come. */
  lemma NextWorkTurn(cfg: Config, goal: Goal, w: World, m: nat)
    requires StateAt(cfg, goal, w, m).phase.Executing? || StateAt(cfg, goal, w, m).phase.Reflecting?
    ensures var s, a, s' := StateAt(cfg, goal, w, m), ActionAt(cfg, goal, w, m), StateAt(cfg, goal, w, m + 1);
            if TrippedAtTurn(cfg, goal, w, m) then !a.ActExecute? && !a.ActPlan? && Idle(s')
            else if s.phase.Executing? then a.ActExecute? && a.task.id == s.currentTaskID
            else
              && a.ActReflect?
              && if w.answers(m).reflection.Answered? then s'.phase.Executing? && s'.currentTaskID == s.currentTaskID
                 else Idle(s')
  {
    var s := StateAt(cfg, goal, w, m);
    NextState(cfg, goal, w, m);
    EveryStateHasShape(cfg, goal, w, m);
    hide StateAt, Step, Decide, ActionAt, Shape, Idle, Tripped;
    WorkGoesOn(cfg, s, w.decideAt(m), w.answers(m), w.advanceAt(m));
    if TrippedAtTurn(cfg, goal, w, m) {
      TripEnds(cfg, s, w.decideAt(m), w.answers(m), w.advanceAt(m));
    } else if s.phase.Reflecting? {
      ReflectionTurn(cfg, s, w.decideAt(m), w.answers(m), w.advanceAt(m));
    }
  }

  lemma ClearedRuns(cfg: Config, goal: Goal, w: World, n: nat)
    requires DoubtsAt(cfg, goal, w, n) && Cleared(cfg, goal, w, n)
    ensures SameTaskNext(cfg, goal, w, n) && RunsAgain(cfg, goal, w, n)
  {
    hide StateAt, ActionAt, Idle, TrippedAtTurn, Doubted;
    AfterTheDoubt(cfg, goal, w, n);
    NextWorkTurn(cfg, goal, w, n + 1);
    if cfg.reflection {
      NextWorkTurn(cfg, goal, w, n + 2);
      assert !PlansBetween(cfg, goal, w, n, n + 2);
    } else {
      assert !PlansBetween(cfg, goal, w, n, n + 1);
    }
  }

  /** From an idle state on, nothing executes until something is planned. */
  lemma IdleNeedsAPlan(cfg: Config, goal: Goal, w: World, n: nat, m: nat, j: nat)
    requires n < m <= j && Idle(StateAt(cfg, goal, w, m)) && ActionAt(cfg, goal, w, j).ActExecute?
    ensures PlansBetween(cfg, goal, w, n, j)
  {
    hide StateAt, ActionAt, Idle;
    ExecutionNeedsAPlan(cfg, goal, w, m, j);
  }

  lemma UnclearedNeedsAPlan(cfg: Config, goal: Goal, w: World, n: nat, j: nat)
    requires DoubtsAt(cfg, goal, w, n) && !Cleared(cfg, goal, w, n)
    requires j > n && ActionAt(cfg, goal, w, j).ActExecute?
    ensures PlansBetween(cfg, goal, w, n, j)
  {
    hide StateAt, ActionAt, Idle, TrippedAtTurn, PlansBetween, Doubted;
    AfterTheDoubt(cfg, goal, w, n);
    if Idle(StateAt(cfg, goal, w, n + 1)) {
      IdleNeedsAPlan(cfg, goal, w, n, n + 1, j);
    } else {
      NextWorkTurn(cfg, goal, w, n + 1);
      if Idle(StateAt(cfg, goal, w, n + 2)) && !ActionAt(cfg, goal, w, n + 1).ActExecute? {
        IdleNeedsAPlan(cfg, goal, w, n, n + 2, j);
      } else {
        NextWorkTurn(cfg, goal, w, n + 2);
        IdleNeedsAPlan(cfg, goal, w, n, n + 3, j);
      }
    }
  }

  /**
   * A task whose success the gate doubts is executed again under its plan if and only if its outcome was
   * transient, a retry is left, no bound trips on the way and, with reflection on, the reflector answers;
   * and then it is the next thing executed. Asking for a retry, as the gate does, is not enough.
   */
  lemma {:induction false} DoubtedRunsAgainIff(cfg: Config, goal: Goal, w: World)
    ensures forall n: nat :: DoubtsAt(cfg, goal, w, n) ==>
      && (RunsAgain(cfg, goal, w, n) <==> Cleared(cfg, goal, w, n))
      && (Cleared(cfg, goal, w, n) ==> SameTaskNext(cfg, goal, w, n))
  {
    forall n: nat | DoubtsAt(cfg, goal, w, n)
      ensures RunsAgain(cfg, goal, w, n) <==> Cleared(cfg, goal, w, n)
      ensures Cleared(cfg, goal, w, n) ==> SameTaskNext(cfg, goal, w, n)
    {
      hide DoubtsAt, Cleared, SameTaskNext, ActionAt, PlansBetween;
      if Cleared(cfg, goal, w, n) {
        ClearedRuns(cfg, goal, w, n);
      } else if RunsAgain(cfg, goal, w, n) {
        var j :| j > n && ActionAt(cfg, goal, w, j).ActExecute? && !PlansBetween(cfg, goal, w, n, j);
        UnclearedNeedsAPlan(cfg, goal, w, n, j);
      }
    }
  }
}
