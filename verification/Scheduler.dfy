/** The sequential scheduler: what is done, what may run next, and when nothing is left to run. */
module Scheduler {
  import opened Prelude
  import opened LoopVocabulary
  import opened PlanCheck

  predicate IsDone(completed: seq<Outcome>, id: string) {
    exists i :: 0 <= i < |completed| && completed[i].taskID == id && completed[i].success
  }

  predicate Ready(t: Task, completed: seq<Outcome>) {
    !IsDone(completed, t.id) && forall d :: d in t.dependsOn ==> IsDone(completed, d)
  }

  /** The first task of the plan that is ready. */
  function NextTask(tasks: seq<Task>, completed: seq<Outcome>): Option<Task> {
    if tasks == [] then None
    else if Ready(tasks[0], completed) then Some(tasks[0])
    else NextTask(tasks[1..], completed)
  }

  /** Task i is ready, and none before it is. */
  ghost predicate FirstReady(tasks: seq<Task>, completed: seq<Outcome>, i: nat)
    requires i < |tasks|
  {
    Ready(tasks[i], completed) && forall j :: 0 <= j < i ==> !Ready(tasks[j], completed)
  }

  /** Nothing exactly when no task is ready; otherwise the first that is. */
  lemma {:induction false} NextIsFirstReady(tasks: seq<Task>, completed: seq<Outcome>) returns (i: nat)
    ensures NextTask(tasks, completed).None? <==> forall j :: 0 <= j < |tasks| ==> !Ready(tasks[j], completed)
    ensures NextTask(tasks, completed).Some? ==>
      i < |tasks| && tasks[i] == NextTask(tasks, completed).value && FirstReady(tasks, completed, i)
  {
    hide Ready;
    i := 0;
    if tasks != [] && !Ready(tasks[0], completed) {
      var k := NextIsFirstReady(tasks[1..], completed);
      assert forall j :: 1 <= j < |tasks| ==> tasks[j] == tasks[1..][j - 1];
      i := k + 1;
    }
  }

  function TaskByID(tasks: seq<Task>, id: string): (r: Option<Task>)
    ensures r.Some? <==> HasTask(tasks, id)
    ensures r.Some? ==> r.value in tasks && r.value.id == id
  {
    if tasks == [] then None
    else if tasks[0].id == id then Some(tasks[0])
    else
      assert forall i :: 1 <= i < |tasks| ==> tasks[i] == tasks[1..][i - 1];
      TaskByID(tasks[1..], id)
  }

  function Revised(tasks: seq<Task>, id: string, instructions: string): (r: seq<Task>)
    ensures |r| == |tasks|
    ensures forall i :: 0 <= i < |tasks| ==>
      r[i] == if tasks[i].id == id then tasks[i].(instructions := instructions) else tasks[i]
  {
    seq(|tasks|, i requires 0 <= i < |tasks| =>
      if tasks[i].id == id then tasks[i].(instructions := instructions) else tasks[i])
  }

  // The source's search loops, proved against the definitions above.

  method FindTask(tasks: seq<Task>, id: string) returns (t: Task, ok: bool)
    ensures ok <==> TaskByID(tasks, id).Some?
    ensures t == if ok then TaskByID(tasks, id).value else ZERO_TASK
  {
    for i := 0 to |tasks|
      invariant TaskByID(tasks, id) == TaskByID(tasks[i..], id)
    {
      if tasks[i].id == id {
        return tasks[i], true;
      }
      assert tasks[i..][1..] == tasks[i + 1..];
    }
    assert tasks[|tasks|..] == [];
    return ZERO_TASK, false;
  }

  method SearchDone(completed: seq<Outcome>, id: string) returns (found: bool)
    ensures found <==> IsDone(completed, id)
  {
    for i := 0 to |completed|
      invariant forall k :: 0 <= k < i ==> !(completed[k].taskID == id && completed[k].success)
    {
      if completed[i].taskID == id && completed[i].success {
        return true;
      }
    }
    return false;
  }

  lemma NextOfTail(tasks: seq<Task>, completed: seq<Outcome>, i: nat)
    requires i < |tasks|
    ensures NextTask(tasks[i..], completed) ==
            if Ready(tasks[i], completed) then Some(tasks[i]) else NextTask(tasks[i + 1..], completed)
  {
    hide Ready;
    assert tasks[i..][1..] == tasks[i + 1..];
  }

  lemma DoneIsNotReady(t: Task, completed: seq<Outcome>)
    requires IsDone(completed, t.id)
    ensures !Ready(t, completed)
  {
  }

  lemma WaitsForDependency(t: Task, completed: seq<Outcome>, j: nat)
    requires j < |t.dependsOn| && !IsDone(completed, t.dependsOn[j])
    ensures !Ready(t, completed)
  {
    hide IsDone;
    assert t.dependsOn[j] in t.dependsOn;
  }

  lemma WaitsForNothing(t: Task, completed: seq<Outcome>)
    requires !IsDone(completed, t.id) && forall k :: 0 <= k < |t.dependsOn| ==> IsDone(completed, t.dependsOn[k])
    ensures Ready(t, completed)
  {
    hide IsDone;
  }

  method SelectNext(tasks: seq<Task>, completed: seq<Outcome>) returns (t: Task, ok: bool)
    ensures ok <==> NextTask(tasks, completed).Some?
    ensures t == if ok then NextTask(tasks, completed).value else ZERO_TASK
  {
    for i := 0 to |tasks|
      invariant NextTask(tasks, completed) == NextTask(tasks[i..], completed)
    {
      NextOfTail(tasks, completed, i);
      hide NextTask, IsDone, Ready;
      var done := SearchDone(completed, tasks[i].id);
      if done {
        DoneIsNotReady(tasks[i], completed);
        continue;
      }
      var ready := true;
      for j := 0 to |tasks[i].dependsOn|
        invariant ready
        invariant forall k :: 0 <= k < j ==> IsDone(completed, tasks[i].dependsOn[k])
      {
        var depDone := SearchDone(completed, tasks[i].dependsOn[j]);
        if !depDone {
          ready := false;
          WaitsForDependency(tasks[i], completed, j);
          break;
        }
      }
      if ready {
        WaitsForNothing(tasks[i], completed);
        return tasks[i], true;
      }
    }
    return ZERO_TASK, false;
  }

  method WithRevisedInstructions(tasks: seq<Task>, id: string, instructions: string) returns (out: seq<Task>)
    ensures out == Revised(tasks, id, instructions)
  {
    out := tasks;
    for i := 0 to |out|
      invariant |out| == |tasks|
      invariant forall k :: 0 <= k < i ==> out[k] == Revised(tasks, id, instructions)[k]
      invariant forall k :: i <= k < |tasks| ==> out[k] == tasks[k]
    {
      if out[i].id == id {
        out := out[i := out[i].(instructions := instructions)];
      }
    }
  }

  lemma RevisedStaysSchedulable(tasks: seq<Task>, id: string, instructions: string)
    requires Schedulable(tasks)
    ensures Schedulable(Revised(tasks, id, instructions))
  {
    var r := Revised(tasks, id, instructions);
    forall i | 0 <= i < |r| ensures DependenciesResolve(r, r[i]) {
      assert DependenciesResolve(tasks, tasks[i]);
      forall d | d in r[i].dependsOn ensures HasTask(r, d) {
        var k :| 0 <= k < |tasks| && tasks[k].id == d;
        assert r[k].id == d;
      }
    }
  }

  /** IDs are unique, so looking a scheduled task up by its ID finds that very task. */
  lemma FoundByItsID(tasks: seq<Task>, i: nat)
    requires Schedulable(tasks) && i < |tasks|
    ensures TaskByID(tasks, tasks[i].id) == Some(tasks[i])
  {
    assert HasTask(tasks, tasks[i].id);
    var t := TaskByID(tasks, tasks[i].id).value;
    var k :| 0 <= k < |tasks| && tasks[k] == t;
    assert k == i;
  }

  // ---- Completeness: the scheduler never gets stuck on exactly the acyclic plans.

  ghost predicate Ranks(tasks: seq<Task>, rank: map<string, nat>) {
    && (forall i :: 0 <= i < |tasks| ==> tasks[i].id in rank)
    && (forall i, d :: 0 <= i < |tasks| && d in tasks[i].dependsOn ==> d in rank && rank[d] < rank[tasks[i].id])
  }

  /** No dependency chain returns to its start: the IDs can be ranked so that dependencies rank lower. */
  ghost predicate Acyclic(tasks: seq<Task>) {
    exists rank :: Ranks(tasks, rank)
  }

  ghost predicate AllDone(tasks: seq<Task>, completed: seq<Outcome>) {
    forall i :: 0 <= i < |tasks| ==> IsDone(completed, tasks[i].id)
  }

  lemma {:induction false} NothingReadyThenDone(tasks: seq<Task>, rank: map<string, nat>, completed: seq<Outcome>, i: nat)
    requires Schedulable(tasks) && Ranks(tasks, rank) && i < |tasks|
    requires NextTask(tasks, completed).None?
    ensures IsDone(completed, tasks[i].id)
    decreases rank[tasks[i].id]
  {
    var _ := NextIsFirstReady(tasks, completed);
    assert !Ready(tasks[i], completed);
    hide NextTask;
    if !IsDone(completed, tasks[i].id) {
      var d :| d in tasks[i].dependsOn && !IsDone(completed, d);
      assert DependenciesResolve(tasks, tasks[i]);
      var k :| 0 <= k < |tasks| && tasks[k].id == d;
      NothingReadyThenDone(tasks, rank, completed, k);
    }
  }

  /** For an acyclic plan, whatever has completed, the scheduler is finished exactly when the plan is. */
  lemma {:induction false} NothingReadyMeansAllDone(tasks: seq<Task>)
    requires Schedulable(tasks) && Acyclic(tasks)
    ensures forall completed :: NextTask(tasks, completed).None? <==> AllDone(tasks, completed)
  {
    var rank :| Ranks(tasks, rank);
    forall completed ensures NextTask(tasks, completed).None? <==> AllDone(tasks, completed) {
      var _ := NextIsFirstReady(tasks, completed);
      if NextTask(tasks, completed).None? {
        forall i | 0 <= i < |tasks| ensures IsDone(completed, tasks[i].id) {
          NothingReadyThenDone(tasks, rank, completed, i);
        }
      }
    }
  }

  /** The outcome a successful execution of t leaves in Completed. */
  function Success(t: Task): Outcome {
    Outcome(t.id, true, "", "", false, 0.0, "")
  }

  ghost predicate RanksDone(tasks: seq<Task>, completed: seq<Outcome>, rank: map<string, nat>) {
    && (forall i :: 0 <= i < |tasks| ==> (IsDone(completed, tasks[i].id) <==> tasks[i].id in rank))
    && (forall id :: id in rank ==> rank[id] < |completed|)
    && (forall id :: id in rank ==> IsDone(completed, id))
    && (forall i, d :: 0 <= i < |tasks| && tasks[i].id in rank && d in tasks[i].dependsOn ==>
          d in rank && rank[d] < rank[tasks[i].id])
  }

  function Undone(tasks: seq<Task>, completed: seq<Outcome>): nat {
    if tasks == [] then 0
    else (if IsDone(completed, tasks[0].id) then 0 else 1) + Undone(tasks[1..], completed)
  }

  lemma DoneGrows(completed: seq<Outcome>, o: Outcome, id: string)
    ensures IsDone(completed + [o], id) <==> IsDone(completed, id) || (o.success && o.taskID == id)
  {
    var more := completed + [o];
    if IsDone(completed, id) {
      var i :| 0 <= i < |completed| && completed[i].taskID == id && completed[i].success;
      assert more[i] == completed[i];
    }
    if o.success && o.taskID == id {
      assert more[|completed|] == o;
    }
    if IsDone(more, id) {
      var i :| 0 <= i < |more| && more[i].taskID == id && more[i].success;
      assert i < |completed| ==> completed[i] == more[i];
    }
  }

  lemma {:induction false} UndoneNeverGrows(tasks: seq<Task>, completed: seq<Outcome>, o: Outcome)
    ensures Undone(tasks, completed + [o]) <= Undone(tasks, completed) <= |tasks|
  {
    if tasks != [] {
      DoneGrows(completed, o, tasks[0].id);
      UndoneNeverGrows(tasks[1..], completed, o);
    }
  }

  /** A success of a task that was not yet done leaves strictly less to do. */
  lemma {:induction false} UndoneShrinks(tasks: seq<Task>, completed: seq<Outcome>, o: Outcome, i: nat)
    requires i < |tasks| && tasks[i].id == o.taskID && o.success
    requires !IsDone(completed, o.taskID)
    ensures Undone(tasks, completed + [o]) < Undone(tasks, completed)
  {
    DoneGrows(completed, o, tasks[0].id);
    UndoneNeverGrows(tasks[1..], completed, o);
    if i > 0 {
      UndoneShrinks(tasks[1..], completed, o, i - 1);
    }
  }

  /** Completing one ready task extends a ranking of what is done, and leaves less to do. */
  lemma ScheduleOne(tasks: seq<Task>, completed: seq<Outcome>, rank: map<string, nat>, i: nat, o: Outcome)
    requires Schedulable(tasks) && RanksDone(tasks, completed, rank)
    requires i < |tasks| && Ready(tasks[i], completed) && o.success && o.taskID == tasks[i].id
    ensures RanksDone(tasks, completed + [o], rank[o.taskID := |completed|])
    ensures Undone(tasks, completed + [o]) < Undone(tasks, completed)
  {
    var t := tasks[i];
    UndoneShrinks(tasks, completed, o, i);
    hide Undone;
    forall id { DoneGrows(completed, o, id); }
    hide IsDone;
    var rank' := rank[t.id := |completed|];
    forall j, d | 0 <= j < |tasks| && tasks[j].id in rank' && d in tasks[j].dependsOn
      ensures d in rank' && rank'[d] < rank'[tasks[j].id]
    {
      if tasks[j].id == t.id {
        assert j == i;
        assert IsDone(completed, d) && DependenciesResolve(tasks, t);
        var k :| 0 <= k < |tasks| && tasks[k].id == d;
        assert d in rank;
      } else {
        assert d in rank && rank[d] < rank[tasks[j].id];
        assert d != t.id;
      }
    }
  }

  /** Run the scheduler from a partial schedule: it either ranks every task or gets stuck. */
  lemma {:induction false} ScheduleOnwards(tasks: seq<Task>, completed: seq<Outcome>, rank: map<string, nat>)
    returns (end: seq<Outcome>, order: map<string, nat>)
    requires Schedulable(tasks) && RanksDone(tasks, completed, rank)
    ensures RanksDone(tasks, end, order) && NextTask(tasks, end).None?
    decreases Undone(tasks, completed)
  {
    hide RanksDone, Schedulable, Undone, Ready;
    var next := NextTask(tasks, completed);
    if next.None? {
      return completed, rank;
    }
    var i := NextIsFirstReady(tasks, completed);
    var o := Success(tasks[i]);
    ScheduleOne(tasks, completed, rank, i, o);
    end, order := ScheduleOnwards(tasks, completed + [o], rank[o.taskID := |completed|]);
  }

  /**
   * Validation admits plans whose dependencies form a longer cycle. A schedulable plan can always be
   * finished, whatever has already succeeded, if and only if it is acyclic.
   */
  lemma SchedulerCompleteIffAcyclic(tasks: seq<Task>)
    requires Schedulable(tasks)
    ensures Acyclic(tasks) <==>
      forall completed :: NextTask(tasks, completed).None? ==> AllDone(tasks, completed)
  {
    if Acyclic(tasks) {
      NothingReadyMeansAllDone(tasks);
    }
    if forall completed :: NextTask(tasks, completed).None? ==> AllDone(tasks, completed) {
      assert RanksDone(tasks, [], map[]);
      var end, order := ScheduleOnwards(tasks, [], map[]);
      assert AllDone(tasks, end);
      assert Ranks(tasks, order);
    }
  }

  const TWO_CYCLE := Plan("", [Task("a", "k", "", "go", ["b"]), Task("b", "k", "", "go", ["a"])])

  lemma TwoCycleValidates()
    ensures ValidPlan(TWO_CYCLE)
  {
    var ts := TWO_CYCLE.tasks;
    assert !Blank("a") && !Blank("b") && !Blank("k") && !Blank("go") by {
      assert "a"[0] == 'a' && "b"[0] == 'b' && "k"[0] == 'k' && "go"[0] == 'g';
    }
    hide Blank;
    assert "a"[0] != "b"[0];
    assert ts[0].id == "a" && ts[1].id == "b";
    assert HasTask(ts, "a") && HasTask(ts, "b");
    assert DependenciesResolve(ts, ts[0]) && DependenciesResolve(ts, ts[1]);
  }

  /** A concrete plan that validates although neither of its tasks can ever start. */
  lemma ValidationAdmitsACycle()
    ensures ValidPlan(TWO_CYCLE)
    ensures NextTask(TWO_CYCLE.tasks, []).None? && !AllDone(TWO_CYCLE.tasks, [])
    ensures !Acyclic(TWO_CYCLE.tasks)
  {
    TwoCycleValidates();
    hide ValidPlan;
    var ts := TWO_CYCLE.tasks;
    assert ts[0].id == "a" && ts[1].id == "b";
    assert ts[0].dependsOn[0] == "b" && ts[1].dependsOn[0] == "a";
    assert "b" in ts[0].dependsOn && "a" in ts[1].dependsOn;
    assert !IsDone([], "a") && !IsDone([], "b");
    forall rank: map<string, nat> ensures !Ranks(ts, rank) {
    }
  }
}
