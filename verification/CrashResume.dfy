/** The state is saved after every Advance; a crash loses only the action in flight. */
module CrashResume {
  import opened Prelude
  import opened LoopVocabulary
  import opened PlanCheck
  import opened Scheduler
  import opened Controller
  import opened Runner
  import opened Safety
  import opened JsonStructs
  import opened Persistence

  /** A process loads the state, decides and dispatches; then it dies, or it advances and saves. */
  datatype Event =
    | Crashed(decided: Time)
    | Committed(decided: Time, ans: Answers, advanced: Time)

  /** The state on disk after some events. */
  function Durable(cfg: Config, start: State, events: seq<Event>): State {
    if |events| == 0 then start
    else
      var s := Durable(cfg, start, events[..|events| - 1]);
      match events[|events| - 1]
      case Crashed(_) => s
      case Committed(decided, ans, advanced) => Step(cfg, s, decided, ans, advanced)
  }

  /** An execution handed to the executor: which task, under which attempt number, and whether it was saved. */
  datatype Dispatch = Dispatch(task: Task, attempt: nat, committed: bool)

  function DispatchedBy(cfg: Config, s: State, e: Event): seq<Dispatch> {
    match Decide(s, cfg, e.decided)
    case ActExecute(t, _) => [Dispatch(t, s.iterations, e.Committed?)]
    case _ => []
  }

  function Dispatches(cfg: Config, start: State, events: seq<Event>): seq<Dispatch> {
    if |events| == 0 then []
    else
      var before := events[..|events| - 1];
      Dispatches(cfg, start, before) + DispatchedBy(cfg, Durable(cfg, start, before), events[|events| - 1])
  }

  function CommittedCount(log: seq<Dispatch>): nat {
    if |log| == 0 then 0
    else CommittedCount(log[..|log| - 1]) + (if log[|log| - 1].committed then 1 else 0)
  }

  /** Attempt numbers count the committed executions. */
  ghost predicate Numbered(s: State, log: seq<Dispatch>) {
    && CommittedCount(log) == s.iterations
    && forall i :: 0 <= i < |log| ==> log[i].attempt == CommittedCount(log[..i])
  }

  /** A lost dispatch is still the next one to make, and replays are the only shared attempt numbers. */
  ghost predicate Replayable(s: State, log: seq<Dispatch>) {
    && (forall i :: 0 <= i < |log| ==> log[i].attempt + (if log[i].committed then 1 else 0) <= s.iterations)
    && (forall i :: 0 <= i < |log| && log[i].attempt == s.iterations ==>
          s.phase.Terminal() || (s.phase.Executing? && CurrentTask(s) == Some(log[i].task)))
    && (forall i, j :: 0 <= i < j < |log| && log[i].attempt == log[j].attempt ==>
          log[i].task == log[j].task && !log[i].committed)
  }

  ghost predicate InStep(s: State, log: seq<Dispatch>) {
    Numbered(s, log) && Replayable(s, log)
  }

  lemma NumberOneMore(s: State, s': State, log: seq<Dispatch>, d: Dispatch)
    requires Numbered(s, log) && d.attempt == s.iterations
    requires s'.iterations == s.iterations + (if d.committed then 1 else 0)
    ensures Numbered(s', log + [d])
  {
    var more := log + [d];
    assert more[..|log|] == log;
    forall i | 0 <= i < |more| ensures more[i].attempt == CommittedCount(more[..i]) {
      assert i < |log| ==> more[..i] == log[..i];
    }
  }

  lemma ReplayOneMore(s: State, s': State, log: seq<Dispatch>, d: Dispatch)
    requires Replayable(s, log) && s.phase.Executing? && CurrentTask(s) == Some(d.task) && d.attempt == s.iterations
    requires if d.committed then s'.iterations == s.iterations + 1 else s' == s
    ensures Replayable(s', log + [d])
  {
    hide TaskByID;
  }

  lemma TurnIterations(cfg: Config, s: State, a: Action, ans: Answers, advanced: Time)
    requires Fits(s, a)
    ensures var s' := Turn(cfg, s, a, ans, advanced);
            && s'.iterations == s.iterations + (if a.ActExecute? then 1 else 0)
            && (s.phase.Executing? && !a.ActExecute? ==> s'.phase.Terminal())
            && (s.phase.Terminal() ==> s' == s)
  {
    hide NextTask, TaskByID, ValidPlan;
  }

  lemma EventKeepsInStep(cfg: Config, s: State, log: seq<Dispatch>, e: Event)
    requires Shape(s) && InStep(s, log)
    ensures var s' := (match e case Crashed(_) => s case Committed(d, ans, adv) => Step(cfg, s, d, ans, adv));
            InStep(s', log + DispatchedBy(cfg, s, e))
  {
    hide Step, Decide, Shape, Numbered, Replayable, CurrentTask;
    var a := Decide(s, cfg, e.decided);
    DecisionsFit(cfg, s, e.decided);
    var s' := s;
    if e.Committed? {
      StepIsTurn(cfg, s, e.decided, e.ans, e.advanced);
      s' := Step(cfg, s, e.decided, e.ans, e.advanced);
      hide Turn;
      TurnIterations(cfg, s, a, e.ans, e.advanced);
    }
    if a.ActExecute? {
      NumberOneMore(s, s', log, Dispatch(a.task, s.iterations, e.Committed?));
      ReplayOneMore(s, s', log, Dispatch(a.task, s.iterations, e.Committed?));
    } else {
      assert log + [] == log;
      if e.Committed? {
        QuietTurn(s, s', log);
      }
    }
  }

  lemma QuietTurn(s: State, s': State, log: seq<Dispatch>)
    requires InStep(s, log) && s'.iterations == s.iterations
    requires s.phase.Executing? ==> s'.phase.Terminal()
    requires s.phase.Terminal() ==> s' == s
    ensures InStep(s', log)
  {
  }

  lemma {:induction false} HistoryIsInStep(cfg: Config, start: State, events: seq<Event>)
    requires Shape(start) && start.iterations == 0
    ensures Shape(Durable(cfg, start, events))
    ensures InStep(Durable(cfg, start, events), Dispatches(cfg, start, events))
  {
    if |events| > 0 {
      hide Step, Shape, InStep, DispatchedBy;
      var before, e := events[..|events| - 1], events[|events| - 1];
      HistoryIsInStep(cfg, start, before);
      var s := Durable(cfg, start, before);
      EventKeepsInStep(cfg, s, Dispatches(cfg, start, before), e);
      if e.Committed? {
        StepKeepsShape(cfg, s, e.decided, e.ans, e.advanced);
      }
    }
  }

  /** Dispatch i carries the number of commits before it; equal numbers mean a lost dispatch and its replay. */
  ghost predicate NumbersIdentify(log: seq<Dispatch>) {
    && (forall i :: 0 <= i < |log| ==> log[i].attempt == CommittedCount(log[..i]))
    && (forall i, j :: 0 <= i < j < |log| && log[i].attempt == log[j].attempt ==>
          log[i].task == log[j].task && !log[i].committed)
  }

  /**
   * Whatever crashes happen where, the k-th committed execution carries attempt k, with no gap and no
   * repeat, and two dispatches share an attempt number only when the earlier one was lost and the later
   * one is the same task: the executor can always tell a replay from a retry.
   */
  lemma AttemptsIdentifyExecutions(cfg: Config, goal: Goal, now: Time)
    ensures forall events :: NumbersIdentify(Dispatches(cfg, Initial(goal, now), events))
    ensures forall events ::
      CommittedCount(Dispatches(cfg, Initial(goal, now), events)) == Durable(cfg, Initial(goal, now), events).iterations
  {
    forall events
      ensures NumbersIdentify(Dispatches(cfg, Initial(goal, now), events))
      ensures CommittedCount(Dispatches(cfg, Initial(goal, now), events))
           == Durable(cfg, Initial(goal, now), events).iterations
    {
      HistoryIsInStep(cfg, Initial(goal, now), events);
      hide Dispatches, Durable;
    }
  }

  /** A saved outcome is judged, or the run is summarised. */
  ghost predicate JudgesWhatIsPending(cfg: Config, s: State, now: Time) {
    s.phase.Evaluating? ==>
      && s.pendingOutcome.Some?
      && var a := Decide(s, cfg, now);
         a.ActSummarise? || (a.ActEvaluate? && Some(a.outcome) == s.pendingOutcome)
  }

  lemma ShapelyJudges(cfg: Config, s: State, now: Time)
    requires Shape(s)
    ensures JudgesWhatIsPending(cfg, s, now)
  {
    hide History;
  }

  /** After any crash, a saved outcome is never executed again to get it back. */
  lemma PendingOutcomeIsNotReExecuted(cfg: Config, goal: Goal, started: Time)
    ensures forall events, now :: JudgesWhatIsPending(cfg, Durable(cfg, Initial(goal, started), events), now)
  {
    forall events, now ensures JudgesWhatIsPending(cfg, Durable(cfg, Initial(goal, started), events), now) {
      hide Durable, Dispatches, InStep, JudgesWhatIsPending;
      HistoryIsInStep(cfg, Initial(goal, started), events);
      hide Shape;
      ShapelyJudges(cfg, Durable(cfg, Initial(goal, started), events), now);
    }
  }

  // ---- Through the saved text

  /** What is on disk after some events: each process loads the text, and saves the state it has advanced. */
  function OnDisk(cfg: Config, start: State, events: seq<Event>, f: Formats): string {
    if |events| == 0 then Marshal(start, f)
    else
      var data := OnDisk(cfg, start, events[..|events| - 1], f);
      match events[|events| - 1]
      case Crashed(_) => data
      case Committed(decided, ans, advanced) =>
        (match Load(data, f)
         case Some(s) => Marshal(Step(cfg, s, decided, ans, advanced), f)
         case None => data)
  }

  /** The executions handed out by processes that know only what they loaded. */
  function DispatchesFromDisk(cfg: Config, start: State, events: seq<Event>, f: Formats): seq<Dispatch> {
    if |events| == 0 then []
    else
      var before := events[..|events| - 1];
      DispatchesFromDisk(cfg, start, before, f) +
      (match Load(OnDisk(cfg, start, before, f), f)
       case Some(s) => DispatchedBy(cfg, s, events[|events| - 1])
       case None => [])
  }

  ghost predicate ExactReply<T>(r: Reply<T>, f: Formats) {
    r.Answered? ==> f.exact(r.cost)
  }

  /** Every price and confidence the engines report is a float. */
  ghost predicate ExactAnswers(ans: Answers, f: Formats) {
    && ExactReply(ans.plan, f) && ExactReply(ans.evaluation, f) && ExactReply(ans.reflection, f) && ExactReply(ans.summary, f)
    && (ans.outcome.Answered? ==> f.exact(ans.outcome.value.costUSD))
    && (ans.evaluation.Answered? ==> f.exact(ans.evaluation.value.confidence))
  }

  ghost predicate ExactEvents(events: seq<Event>, f: Formats) {
    forall i :: 0 <= i < |events| && events[i].Committed? ==> ExactAnswers(events[i].ans, f)
  }

  lemma OneMoreExact(os: seq<Outcome>, o: Outcome, f: Formats)
    requires ExactOutcomes(os, f) && f.exact(o.costUSD)
    ensures ExactOutcomes(os + [o], f)
  {
  }

  /** A verdict leaves waiting nothing but the outcome it judged, and itself. */
  lemma VerdictLeaves(s: State, cfg: Config, e: Evaluation)
    requires s.pendingOutcome.Some?
    ensures var s' := AdvanceEvaluate(s, cfg, e);
            && s'.pendingOutcome in {None, s.pendingOutcome}
            && (s'.pendingEvaluation.Some? ==>
                  s'.pendingEvaluation == s.pendingEvaluation || s'.pendingEvaluation.value.confidence == e.confidence)
  {
    hide NextTask;
  }

  lemma EvaluateKeepsExact(s: State, cfg: Config, e: Evaluation, f: Formats)
    requires Exact(s, f) && f.exact(e.confidence)
    ensures Exact(AdvanceEvaluate(s, cfg, e), f)
  {
    if s.pendingOutcome.Some? {
      var o := s.pendingOutcome.value;
      hide AdvanceEvaluate, Gated, ExactOutcomes;
      EvaluateFiles(s, cfg, e);
      EvaluateLeaves(s, cfg, e);
      VerdictLeaves(s, cfg, e);
      OneMoreExact(s.completed, o.(success := true), f);
      OneMoreExact(s.failed, o.(success := false), f);
    }
  }

  lemma TurnKeepsExact(cfg: Config, s: State, a: Action, ans: Answers, advanced: Time, f: Formats)
    requires f.exact(0.0) && SumsAreExact(f) && Exact(s, f) && ExactAnswers(ans, f)
    ensures Exact(Turn(cfg, s, a, ans, advanced), f)
  {
    hide AdvanceEvaluate, NextTask, ValidPlan, Revised, CheckStops, FallbackSummary, ExactOutcomes;
    if a.ActEvaluate? && ans.evaluation.Answered? {
      EvaluateKeepsExact(Paid(s, ans.evaluation.cost), cfg, ans.evaluation.value, f);
    }
  }

  lemma StepKeepsExact(cfg: Config, s: State, decided: Time, ans: Answers, advanced: Time, f: Formats)
    requires f.exact(0.0) && SumsAreExact(f) && Exact(s, f) && ExactAnswers(ans, f)
    ensures Exact(Step(cfg, s, decided, ans, advanced), f)
  {
    hide Step, Decide, Turn, Exact, ExactAnswers;
    StepIsTurn(cfg, s, decided, ans, advanced);
    TurnKeepsExact(cfg, s, Decide(s, cfg, decided), ans, advanced, f);
  }

  lemma StartIsSaved(goal: Goal, started: Time, f: Formats)
    requires Faithful(f)
    ensures Shape(Initial(goal, started)) && Exact(Initial(goal, started), f)
    ensures Load(Marshal(Initial(goal, started), f), f) == Some(Initial(goal, started))
  {
    hide Load, Marshal;
    SavedStateIsLoaded(Initial(goal, started), f);
  }

  lemma StepIsSaved(cfg: Config, s: State, e: Event, f: Formats)
    requires Faithful(f) && SumsAreExact(f) && Shape(s) && Exact(s, f) && e.Committed? && ExactAnswers(e.ans, f)
    ensures var s' := Step(cfg, s, e.decided, e.ans, e.advanced);
            Exact(s', f) && Load(Marshal(s', f), f) == Some(s')
  {
    StepKeepsExact(cfg, s, e.decided, e.ans, e.advanced, f);
    StepKeepsShape(cfg, s, e.decided, e.ans, e.advanced);
    hide Step, Load, Marshal, Exact, Faithful;
    SavedStateIsLoaded(Step(cfg, s, e.decided, e.ans, e.advanced), f);
  }

  lemma {:induction false} DiskHoldsTheState(cfg: Config, start: State, events: seq<Event>, f: Formats)
    requires Faithful(f) && SumsAreExact(f) && ExactEvents(events, f)
    requires Shape(start) && start.iterations == 0 && Exact(start, f) && Load(Marshal(start, f), f) == Some(start)
    ensures var s := Durable(cfg, start, events); Exact(s, f) && Load(OnDisk(cfg, start, events, f), f) == Some(s)
    ensures DispatchesFromDisk(cfg, start, events, f) == Dispatches(cfg, start, events)
  {
    hide Load, Marshal, Step, DispatchedBy, InStep, Shape, Exact, ExactAnswers, Faithful, SumsAreExact;
    if |events| > 0 {
      var before, e := events[..|events| - 1], events[|events| - 1];
      DiskHoldsTheState(cfg, start, before, f);
      if e.Committed? {
        HistoryIsInStep(cfg, start, before);
        StepIsSaved(cfg, Durable(cfg, start, before), e, f);
      }
    }
  }

  /**
   * Whatever crashes happen where, a run that goes through the saved text at every step is the run: what is
   * loaded is the state as last advanced, and what is dispatched is what the state would have dispatched.
   */
  lemma ResumedRunIsTheRun(cfg: Config, goal: Goal, started: Time, f: Formats)
    requires Faithful(f) && SumsAreExact(f)
    ensures forall events :: ExactEvents(events, f) ==>
      Load(OnDisk(cfg, Initial(goal, started), events, f), f) == Some(Durable(cfg, Initial(goal, started), events))
    ensures forall events :: ExactEvents(events, f) ==>
      NumbersIdentify(DispatchesFromDisk(cfg, Initial(goal, started), events, f))
  {
    forall events | ExactEvents(events, f)
      ensures Load(OnDisk(cfg, Initial(goal, started), events, f), f) == Some(Durable(cfg, Initial(goal, started), events))
      ensures NumbersIdentify(DispatchesFromDisk(cfg, Initial(goal, started), events, f))
    {
      hide OnDisk, Durable, Dispatches, DispatchesFromDisk, NumbersIdentify, Load, Exact, Shape, Marshal, Faithful;
      hide SumsAreExact, ExactEvents;
      StartIsSaved(goal, started, f);
      DiskHoldsTheState(cfg, Initial(goal, started), events, f);
      AttemptsIdentifyExecutions(cfg, goal, started);
    }
  }
}
