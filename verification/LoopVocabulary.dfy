/** The nouns of the loop controller: goals, plans, outcomes, verdicts, bounds and the state. */
module LoopVocabulary {
  import opened Prelude

  /** Instants and durations in nanoseconds; 0 is Go's zero instant. */
  type Time = int
  const ZERO_TIME: Time := 0

  datatype Goal = Goal(objective: string, repositoryURL: string, correlationID: string)

  predicate ValidGoal(g: Goal) {
    !Blank(g.objective) && !Blank(g.repositoryURL) && !Blank(g.correlationID)
  }

  datatype Task = Task(id: string, kind: string, description: string, instructions: string, dependsOn: seq<string>)

  const ZERO_TASK := Task("", "", "", "", [])

  datatype Plan = Plan(rationale: string, tasks: seq<Task>)

  datatype Outcome = Outcome(taskID: string, success: bool, output: string, error: string,
                             transient: bool, costUSD: real, executionID: string)

  datatype Evaluation = Evaluation(taskSucceeded: bool, goalAchieved: bool, retry: bool, replan: bool,
                                   humanRequired: bool, confidence: real, reason: string)

  datatype Reflection = Reflection(analysis: string, revisedInstructions: string, adjustment: string)

  datatype Summary = Summary(outcome: string, narrative: string, result: string)

  datatype StopReason =
    | StopNone
    | StopGoalAchieved
    | StopMaxIterations
    | StopMaxRetries
    | StopMaxReplans
    | StopTimeout
    | StopCostExceeded
    | StopHumanRequired
    | StopCriticalFailure
  {
    predicate Terminal() { this != StopNone }

    function Text(): string {
      match this
      case StopNone => ""
      case StopGoalAchieved => "goal-achieved"
      case StopMaxIterations => "max-iterations"
      case StopMaxRetries => "max-retries"
      case StopMaxReplans => "max-replans"
      case StopTimeout => "timeout"
      case StopCostExceeded => "cost-exceeded"
      case StopHumanRequired => "human-required"
      case StopCriticalFailure => "critical-failure"
    }
  }

  /** The phase is a string in the source, so a hand-built state may hold a name that is none of the eight. */
  datatype Phase =
    | Planning
    | Executing
    | Evaluating
    | Reflecting
    | Summarising
    | Done
    | Stopped
    | Failed
    | Unknown(name: string)
  {
    predicate Terminal() { Done? || Stopped? || Failed? }

    /** The phases that work on a current task. */
    predicate Working() { Executing? || Evaluating? || Reflecting? }
  }

  datatype RetryPolicy = RetryPolicy(maxRetries: int, baseDelay: Time, maxDelay: Time, multiplier: real)

  datatype Config = Config(maxIterations: int, maxReplans: int, timeout: Time, maxCostUSD: real,
                           retry: RetryPolicy, reflection: bool, minConfidence: real)

  datatype State = State(
    goal: Goal,
    phase: Phase,
    plan: Plan,
    currentTaskID: string,
    pendingOutcome: Option<Outcome>,
    pendingEvaluation: Option<Evaluation>,
    completed: seq<Outcome>,
    failed: seq<Outcome>,
    reflections: seq<Reflection>,
    iterations: nat,
    retryCount: nat,
    replans: nat,
    costUSD: real,
    startedAt: Time,
    stop: StopReason,
    summary: Option<Summary>)

  /** The zero State, which Run returns for a goal it refuses. */
  const ZERO_STATE :=
    State(Goal("", "", ""), Unknown(""), Plan("", []), "", None, None, [], [], [], 0, 0, 0, 0.0, ZERO_TIME, StopNone, None)

  function Initial(goal: Goal, now: Time): State {
    ZERO_STATE.(goal := goal, phase := Planning, startedAt := now)
  }
}
