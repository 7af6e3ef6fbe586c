/** The books: every attempt and every dollar is accounted for, and the cost cap overshoots by a bounded amount. */
module Accounting {
  import opened LoopVocabulary
  import opened Controller
  import opened Runner
  import opened Safety

  function Total(os: seq<Outcome>): real {
    if |os| == 0 then 0.0 else Total(os[..|os| - 1]) + os[|os| - 1].costUSD
  }

  lemma TotalOfOneMore(os: seq<Outcome>, o: Outcome)
    ensures Total(os + [o]) == Total(os) + o.costUSD
  {
    assert (os + [o])[..|os|] == os;
  }

  /** An outcome that has been paid for and not yet filed. */
  predicate Unjudged(s: State) {
    s.pendingOutcome.Some? && s.pendingEvaluation.None?
  }

  function UnjudgedCost(s: State): real {
    if Unjudged(s) then s.pendingOutcome.value.costUSD else 0.0
  }

  /** What a turn spends on reasoning: execution is billed on the outcome, and a broken engine bills nothing. */
  function ReasoningCost(s: State, a: Action, ans: Answers): real {
    match a
    case ActPlan => if ans.plan.Answered? then ans.plan.cost else 0.0
    case ActEvaluate(_, _) => if ans.evaluation.Answered? then ans.evaluation.cost else 0.0
    case ActReflect(_, _, _) => if ans.reflection.Answered? then ans.reflection.cost else 0.0
    case ActSummarise(_) => if ans.summary.Answered? then ans.summary.cost else 0.0
    case _ => 0.0
  }

  function ReasoningSpent(cfg: Config, goal: Goal, w: World, n: nat): real {
    if n == 0 then 0.0
    else
      ReasoningSpent(cfg, goal, w, n - 1) +
      ReasoningCost(StateAt(cfg, goal, w, n - 1), ActionAt(cfg, goal, w, n - 1), w.answers(n - 1))
  }

  ghost predicate Balanced(s: State, reasoning: real) {
    && s.iterations == |s.completed| + |s.failed| + (if Unjudged(s) then 1 else 0)
    && s.costUSD == Total(s.completed) + Total(s.failed) + UnjudgedCost(s) + reasoning
  }

  lemma EvaluateBalances(s: State, cfg: Config, e: Evaluation, reasoning: real)
    requires Shape(s) && s.phase.Evaluating? && Balanced(s, reasoning)
    ensures Balanced(AdvanceEvaluate(s, cfg, e), reasoning)
  {
    var o := s.pendingOutcome.value;
    TotalOfOneMore(s.completed, o.(success := true));
    TotalOfOneMore(s.failed, o.(success := false));
    EvaluateFiles(s, cfg, e);
    EvaluateSettles(s, cfg, e);
    EvaluateLeaves(s, cfg, e);
  }

  lemma EvaluateSettles(s: State, cfg: Config, e: Evaluation)
    requires s.pendingOutcome.Some? && s.pendingEvaluation.None?
    ensures !Unjudged(AdvanceEvaluate(s, cfg, e))
  {
  }

  lemma TurnBalances(cfg: Config, s: State, a: Action, ans: Answers, advanced: Time, reasoning: real)
    requires Shape(s) && Fits(s, a) && Balanced(s, reasoning)
    ensures Balanced(Turn(cfg, s, a, ans, advanced), reasoning + ReasoningCost(s, a, ans))
  {
    hide AdvanceEvaluate, Scheduled, History, Total;
    if a.ActEvaluate? && ans.evaluation.Answered? {
      PaidKeepsShape(s, ans.evaluation.cost);
      EvaluateBalances(Paid(s, ans.evaluation.cost), cfg, ans.evaluation.value, reasoning + ans.evaluation.cost);
    }
  }

  lemma StepBalances(cfg: Config, s: State, decided: Time, ans: Answers, advanced: Time, reasoning: real)
    requires Shape(s) && Balanced(s, reasoning)
    ensures Balanced(Step(cfg, s, decided, ans, advanced), reasoning + ReasoningCost(s, Decide(s, cfg, decided), ans))
  {
    hide Step, Decide, Turn, ReasoningCost, Shape, Balanced;
    DecisionsFit(cfg, s, decided);
    StepIsTurn(cfg, s, decided, ans, advanced);
    TurnBalances(cfg, s, Decide(s, cfg, decided), ans, advanced, reasoning);
  }

  lemma {:induction false} BalancedAfter(cfg: Config, goal: Goal, w: World, n: nat)
    ensures Balanced(StateAt(cfg, goal, w, n), ReasoningSpent(cfg, goal, w, n))
    ensures History(StateAt(cfg, goal, w, n))
  {
    hide Step, Decide, ReasoningCost;
    EveryStateHasShape(cfg, goal, w, n);
    if n > 0 {
      BalancedAfter(cfg, goal, w, n - 1);
      EveryStateHasShape(cfg, goal, w, n - 1);
      StepBalances(cfg, StateAt(cfg, goal, w, n - 1), w.decideAt(n - 1), w.answers(n - 1), w.advanceAt(n - 1),
                   ReasoningSpent(cfg, goal, w, n - 1));
    }
  }

  /** The books after n turns: what was attempted and spent is all there, and filed where it belongs. */
  ghost predicate BooksBalanceAt(cfg: Config, goal: Goal, w: World, n: nat) {
    var s := StateAt(cfg, goal, w, n);
    Balanced(s, ReasoningSpent(cfg, goal, w, n)) && History(s)
  }

  /**
   * Conservation, on every path and failures included: an attempt is counted once, in Completed, in Failed
   * or as the outcome still waiting for its verdict, and the running cost is those outcomes' cost plus
   * what reasoning cost. Completed holds only successes and Failed only failures.
   */
  lemma {:induction false} TheBooksBalance(cfg: Config, goal: Goal, w: World)
    ensures forall n: nat :: BooksBalanceAt(cfg, goal, w, n)
  {
    forall n: nat ensures BooksBalanceAt(cfg, goal, w, n) {
      BalancedAfter(cfg, goal, w, n);
    }
  }

  // ---- The cost cap

  /** No single engine call costs more than c. */
  ghost predicate CallsCostAtMost(ans: Answers, c: real) {
    && (ans.plan.Answered? ==> ans.plan.cost <= c)
    && (ans.outcome.Answered? ==> ans.outcome.value.costUSD <= c)
    && (ans.evaluation.Answered? ==> ans.evaluation.cost <= c)
    && (ans.reflection.Answered? ==> ans.reflection.cost <= c)
    && (ans.summary.Answered? ==> ans.summary.cost <= c)
  }

  predicate WithinOvershoot(s: State, cfg: Config, c: real) {
    s.costUSD < cfg.maxCostUSD + (if s.phase.Terminal() then c + c else c)
  }

  function TurnCost(s: State, a: Action, ans: Answers): real {
    match a
    case ActExecute(t, _) => Ran(t, ans).costUSD
    case _ => ReasoningCost(s, a, ans)
  }

  lemma TurnCosts(cfg: Config, s: State, a: Action, ans: Answers, advanced: Time)
    ensures Turn(cfg, s, a, ans, advanced).costUSD == s.costUSD + TurnCost(s, a, ans)
  {
    hide AdvanceEvaluate;
    if a.ActEvaluate? && ans.evaluation.Answered? {
      EvaluateLeaves(Paid(s, ans.evaluation.cost), cfg, ans.evaluation.value);
    }
  }

  lemma SummaryEnds(cfg: Config, s: State, a: Action, ans: Answers, advanced: Time)
    ensures a.ActSummarise? ==> Turn(cfg, s, a, ans, advanced).phase.Terminal()
    ensures a.ActStop? ==> Turn(cfg, s, a, ans, advanced) == s
  {
  }

  lemma StepStaysWithinOvershoot(cfg: Config, s: State, decided: Time, ans: Answers, advanced: Time, c: real)
    requires c >= 0.0 && cfg.maxCostUSD > 0.0 && CallsCostAtMost(ans, c)
    requires Shape(s) && WithinOvershoot(s, cfg, c)
    ensures WithinOvershoot(Step(cfg, s, decided, ans, advanced), cfg, c)
  {
    hide Step, Turn, Shape;
    var a := Decide(s, cfg, decided);
    DecisionsFit(cfg, s, decided);
    StepIsTurn(cfg, s, decided, ans, advanced);
    TurnCosts(cfg, s, a, ans, advanced);
    SummaryEnds(cfg, s, a, ans, advanced);
  }

  lemma {:induction false} StaysWithinOvershoot(cfg: Config, goal: Goal, w: World, n: nat, c: real)
    requires c >= 0.0 && cfg.maxCostUSD > 0.0 && forall i :: CallsCostAtMost(w.answers(i), c)
    ensures WithinOvershoot(StateAt(cfg, goal, w, n), cfg, c)
  {
    hide Step, Shape;
    if n > 0 {
      StaysWithinOvershoot(cfg, goal, w, n - 1, c);
      EveryStateHasShape(cfg, goal, w, n - 1);
      StepStaysWithinOvershoot(cfg, StateAt(cfg, goal, w, n - 1),
                               w.decideAt(n - 1), w.answers(n - 1), w.advanceAt(n - 1), c);
    }
  }

  /** Work only starts below the cap, and the bill stays below the cap plus 2c. */
  predicate SpendsWithin(s: State, a: Action, cap: real, c: real) {
    && (a.ActPlan? || a.ActExecute? || a.ActEvaluate? || a.ActReflect? ==> s.costUSD < cap)
    && s.costUSD < cap + 2.0 * c
  }

  ghost predicate TurnSpendsWithin(cfg: Config, goal: Goal, w: World, c: real, n: nat) {
    SpendsWithin(StateAt(cfg, goal, w, n), ActionAt(cfg, goal, w, n), cfg.maxCostUSD, c)
  }

  /**
   * With a cap in force, planning, executing, evaluating and reflecting only ever start below it, and if no
   * call costs more than c the whole run ends below the cap plus 2c: one call over it, and the summary.
   */
  lemma {:induction false} CostOvershootIsBounded(cfg: Config, goal: Goal, w: World, c: real)
    requires c >= 0.0 && cfg.maxCostUSD > 0.0 && forall i :: CallsCostAtMost(w.answers(i), c)
    ensures forall n: nat :: TurnSpendsWithin(cfg, goal, w, c, n)
  {
    forall n: nat ensures TurnSpendsWithin(cfg, goal, w, c, n) {
      hide StateAt;
      StaysWithinOvershoot(cfg, goal, w, n, c);
    }
  }
}
