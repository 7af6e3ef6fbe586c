/**
 * The synchronous driver. Engines, clock and cancellation are a World: what each would say at the i-th
 * step. Every theorem quantifies over all worlds, so over every behaviour the engines could show.
 */
module Runner {
  import opened Prelude
  import opened LoopVocabulary
  import opened Controller

  datatype Reply<+T> = Answered(value: T, cost: real) | Broken(error: string)

  /** What each engine would answer, were it the one asked. */
  datatype Answers = Answers(
    plan: Reply<Plan>,
    outcome: Reply<Outcome>,
    evaluation: Reply<Evaluation>,
    reflection: Reply<Reflection>,
    summary: Reply<Summary>)

  datatype World = World(
    started: Time,
    decideAt: nat -> Time,
    advanceAt: nat -> Time,
    answers: nat -> Answers,
    interrupted: nat -> bool)

  const ENGINE_FAILED := NO_RESULT.(engineErr := true)

  function FallbackSummary(s: State): Summary {
    Summary(
      if s.stop == StopGoalAchieved then "achieved" else "stopped: " + s.stop.Text(),
      "generated from the loop state because the summariser was unavailable",
      if |s.completed| > 0 then s.completed[|s.completed| - 1].output else "")
  }

  /** Perform one action with one engine and package what came back. */
  function Perform(s: State, a: Action, ans: Answers): StepResult {
    match a
    case ActPlan =>
      (match ans.plan
       case Answered(p, c) => NO_RESULT.(plan := Some(p), cost := c)
       case Broken(_) => ENGINE_FAILED)
    case ActExecute(t, _) =>
      (match ans.outcome
       case Answered(o, _) => NO_RESULT.(outcome := Some(o))
       case Broken(e) => NO_RESULT.(outcome := Some(Outcome(t.id, false, "", e, true, 0.0, ""))))
    case ActEvaluate(_, _) =>
      (match ans.evaluation
       case Answered(e, c) => NO_RESULT.(evaluation := Some(e), cost := c)
       case Broken(_) => ENGINE_FAILED)
    case ActReflect(_, _, _) =>
      (match ans.reflection
       case Answered(r, c) => NO_RESULT.(reflection := Some(r), cost := c)
       case Broken(_) => ENGINE_FAILED)
    case ActSummarise(_) =>
      (match ans.summary
       case Answered(m, c) => NO_RESULT.(summary := Some(m), cost := c)
       case Broken(_) => NO_RESULT.(summary := Some(FallbackSummary(s))))
    case ActStop(_) => ENGINE_FAILED
  }

  /** One turn of the driver: decide, perform, advance. A stop leaves the state where it is. */
  function Step(cfg: Config, s: State, decided: Time, ans: Answers, advanced: Time): State {
    var a := Decide(s, cfg, decided);
    if a.ActStop? then s else Advance(s, cfg, Perform(s, a, ans), advanced)
  }

  // What a turn amounts to, action by action: the form every proof about runs works from.

  function Ran(t: Task, ans: Answers): Outcome {
    if ans.outcome.Answered? then ans.outcome.value
    else Outcome(t.id, false, "", ans.outcome.error, true, 0.0, "")
  }

  function Account(s: State, ans: Answers): (Summary, real) {
    if ans.summary.Answered? then (ans.summary.value, ans.summary.cost) else (FallbackSummary(s), 0.0)
  }

  function Turn(cfg: Config, s: State, a: Action, ans: Answers, advanced: Time): State {
    match a
    case ActPlan =>
      if ans.plan.Broken? then Fail(s) else AdvancePlan(Paid(s, ans.plan.cost), ans.plan.value)
    case ActExecute(t, _) => AdvanceExecute(s, Ran(t, ans))
    case ActEvaluate(_, _) =>
      if ans.evaluation.Broken? then Fail(s)
      else AdvanceEvaluate(Paid(s, ans.evaluation.cost), cfg, ans.evaluation.value)
    case ActReflect(_, _, _) =>
      if ans.reflection.Broken? then Fail(s)
      else AdvanceReflect(Paid(s, ans.reflection.cost), ans.reflection.value)
    case ActSummarise(_) =>
      var (m, c) := Account(s, ans);
      AdvanceSummarise(Paid(s, c), cfg, m, advanced)
    case ActStop(_) => s
  }

  lemma PerformedTurn(cfg: Config, s: State, a: Action, ans: Answers, advanced: Time)
    requires a.ActPlan? || a.ActExecute? || a.ActSummarise?
    ensures Advance(s, cfg, Perform(s, a, ans), advanced) == Turn(cfg, s, a, ans, advanced)
  {
    if a.ActExecute? {
      assert Perform(s, a, ans) == NO_RESULT.(outcome := Some(Ran(a.task, ans)));
      assert Paid(s, 0.0) == s;
    }
  }

  lemma EvaluatedTurn(cfg: Config, s: State, a: Action, ans: Answers, advanced: Time)
    requires a.ActEvaluate?
    ensures Advance(s, cfg, Perform(s, a, ans), advanced) == Turn(cfg, s, a, ans, advanced)
  {
  }

  lemma ReflectedTurn(cfg: Config, s: State, a: Action, ans: Answers, advanced: Time)
    requires a.ActReflect?
    ensures Advance(s, cfg, Perform(s, a, ans), advanced) == Turn(cfg, s, a, ans, advanced)
  {
  }

  /** Performing and advancing is exactly the turn described above, whatever the action. */
  lemma StepIsTurn(cfg: Config, s: State, decided: Time, ans: Answers, advanced: Time)
    ensures Step(cfg, s, decided, ans, advanced) == Turn(cfg, s, Decide(s, cfg, decided), ans, advanced)
  {
    var a := Decide(s, cfg, decided);
    if a.ActEvaluate? {
      EvaluatedTurn(cfg, s, a, ans, advanced);
    } else if a.ActReflect? {
      ReflectedTurn(cfg, s, a, ans, advanced);
    } else if !a.ActStop? {
      PerformedTurn(cfg, s, a, ans, advanced);
    }
  }

  /** The state after n turns. */
  function StateAt(cfg: Config, goal: Goal, w: World, n: nat): State {
    if n == 0 then Initial(goal, w.started)
    else Step(cfg, StateAt(cfg, goal, w, n - 1), w.decideAt(n - 1), w.answers(n - 1), w.advanceAt(n - 1))
  }

  function ActionAt(cfg: Config, goal: Goal, w: World, n: nat): Action {
    Decide(StateAt(cfg, goal, w, n), cfg, w.decideAt(n))
  }

  lemma NextState(cfg: Config, goal: Goal, w: World, n: nat)
    ensures var s := StateAt(cfg, goal, w, n);
            && ActionAt(cfg, goal, w, n) == Decide(s, cfg, w.decideAt(n))
            && StateAt(cfg, goal, w, n + 1) == Step(cfg, s, w.decideAt(n), w.answers(n), w.advanceAt(n))
  {
    hide Step, Decide;
  }

  /** The terminal bookkeeping: record why, and never return a non-terminal phase. */
  function Finish(s: State, stop: StopReason): State {
    s.(stop := stop, phase := if s.phase.Terminal() then s.phase else Stopped)
  }

  /** The state Run hands back when it is told to stop after n turns. */
  function FinalState(cfg: Config, goal: Goal, w: World, n: nat): State
    requires ActionAt(cfg, goal, w, n).ActStop?
  {
    Finish(StateAt(cfg, goal, w, n), ActionAt(cfg, goal, w, n).stop)
  }

  datatype RunError = NoError | InvalidGoal | StoppedShort(reason: StopReason) | Interrupted

  function FinishError(s: State): RunError {
    if s.phase.Done? then NoError else StoppedShort(s.stop)
  }

  predicate Sleeps(a: Action) {
    a.ActExecute? && a.delay > 0
  }

  /** The run is still going after n turns: nothing stopped it and no backoff was cancelled. */
  ghost predicate Going(cfg: Config, goal: Goal, w: World, n: nat) {
    forall i :: 0 <= i < n ==>
      && !ActionAt(cfg, goal, w, i).ActStop?
      && !(Sleeps(ActionAt(cfg, goal, w, i)) && w.interrupted(i))
  }
}
