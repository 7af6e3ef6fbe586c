/** Plan.Validate: the loop's own check that a plan can be scheduled. */
module PlanCheck {
  import opened Prelude
  import opened LoopVocabulary

  datatype PlanError =
    | NoTasks
    | NoID
    | DuplicateID(id: string)
    | NoType(id: string)
    | NoInstructions(id: string)
    | SelfDependency(id: string)
    | UnknownDependency(id: string, dep: string)

  predicate HasTask(tasks: seq<Task>, id: string) {
    exists i :: 0 <= i < |tasks| && tasks[i].id == id
  }

  predicate DependenciesResolve(tasks: seq<Task>, t: Task) {
    forall d :: d in t.dependsOn ==> d != t.id && HasTask(tasks, d)
  }

  /** What the scheduler relies on; reflection preserves it, although it may blank an instruction. */
  predicate Schedulable(tasks: seq<Task>) {
    && (forall i :: 0 <= i < |tasks| ==> !Blank(tasks[i].id))
    && (forall i, j :: 0 <= i < j < |tasks| ==> tasks[i].id != tasks[j].id)
    && (forall i :: 0 <= i < |tasks| ==> DependenciesResolve(tasks, tasks[i]))
  }

  predicate ValidPlan(p: Plan) {
    && |p.tasks| > 0
    && Schedulable(p.tasks)
    && (forall i :: 0 <= i < |p.tasks| ==> !Blank(p.tasks[i].kind) && !Blank(p.tasks[i].instructions))
  }

  /** The plan really has the defect the error names. */
  ghost predicate Exhibits(p: Plan, e: PlanError) {
    match e
    case NoTasks => p.tasks == []
    case NoID => exists i :: 0 <= i < |p.tasks| && Blank(p.tasks[i].id)
    case DuplicateID(id) => exists i, j :: 0 <= i < j < |p.tasks| && p.tasks[i].id == p.tasks[j].id == id
    case NoType(id) => exists i :: 0 <= i < |p.tasks| && p.tasks[i].id == id && Blank(p.tasks[i].kind)
    case NoInstructions(id) => exists i :: 0 <= i < |p.tasks| && p.tasks[i].id == id && Blank(p.tasks[i].instructions)
    case SelfDependency(id) => exists i :: 0 <= i < |p.tasks| && p.tasks[i].id == id && id in p.tasks[i].dependsOn
    case UnknownDependency(id, dep) =>
      !HasTask(p.tasks, dep) && exists i :: 0 <= i < |p.tasks| && p.tasks[i].id == id && dep in p.tasks[i].dependsOn
  }

  method Validate(p: Plan) returns (err: Option<PlanError>)
    ensures err.None? <==> ValidPlan(p)
    ensures err.Some? ==> Exhibits(p, err.value)
  {
    var tasks := p.tasks;
    if |tasks| == 0 {
      return Some(NoTasks);
    }
    var ids: set<string> := {};
    for i := 0 to |tasks|
      invariant ids == set k | 0 <= k < i :: tasks[k].id
      invariant forall k :: 0 <= k < i ==> !Blank(tasks[k].id) && !Blank(tasks[k].kind) && !Blank(tasks[k].instructions)
      invariant forall k, l :: 0 <= k < l < i ==> tasks[k].id != tasks[l].id
    {
      var t := tasks[i];
      if Blank(t.id) {
        return Some(NoID);
      }
      if t.id in ids {
        return Some(DuplicateID(t.id));
      }
      if Blank(t.kind) {
        return Some(NoType(t.id));
      }
      if Blank(t.instructions) {
        return Some(NoInstructions(t.id));
      }
      ids := ids + {t.id};
    }
    for i := 0 to |tasks|
      invariant forall k :: 0 <= k < i ==> DependenciesResolve(tasks, tasks[k])
    {
      var t := tasks[i];
      for j := 0 to |t.dependsOn|
        invariant forall l :: 0 <= l < j ==> t.dependsOn[l] != t.id && t.dependsOn[l] in ids
      {
        var dep := t.dependsOn[j];
        assert dep in t.dependsOn;
        if dep == t.id {
          assert !DependenciesResolve(tasks, t);
          return Some(SelfDependency(t.id));
        }
        if dep !in ids {
          assert !HasTask(tasks, dep) && !DependenciesResolve(tasks, t);
          return Some(UnknownDependency(t.id, dep));
        }
      }
    }
    return None;
  }
}
