/** Structured plans (backend/app/agents/schemas.py) and the order in which the
    coordinator visits their tasks. */
module Plans {

  datatype PlanTask = PlanTask(
    sequence: int, agent: string, objective: string, dependencies: seq<int>,
    allowedTools: seq<string>, maximumRetries: nat)

  /** What validate_plan guarantees about sequences and dependencies. */
  predicate Sequenced(tasks: seq<PlanTask>) {
    && (forall i, j :: 0 <= i < j < |tasks| ==> tasks[i].sequence != tasks[j].sequence)
    && (forall i, d :: 0 <= i < |tasks| && d in tasks[i].dependencies ==> d < tasks[i].sequence)
  }

  predicate Increasing(tasks: seq<PlanTask>) {
    forall i, j :: 0 <= i < j < |tasks| ==> tasks[i].sequence < tasks[j].sequence
  }

  function Insert(t: PlanTask, tasks: seq<PlanTask>): seq<PlanTask> {
    if tasks == [] then [t]
    else if t.sequence <= tasks[0].sequence then [t] + tasks
    else [tasks[0]] + Insert(t, tasks[1..])
  }

  /** `sorted(tasks, key=lambda item: item.sequence)`; equal keys keep their order. */
  function Sorted(tasks: seq<PlanTask>): seq<PlanTask> {
    if tasks == [] then [] else Insert(tasks[0], Sorted(tasks[1..]))
  }

  lemma {:induction false} InsertMembers(t: PlanTask, tasks: seq<PlanTask>)
    ensures |Insert(t, tasks)| == |tasks| + 1
    ensures forall x :: x in Insert(t, tasks) <==> x == t || x in tasks
    decreases |tasks|
  {
    if tasks != [] && t.sequence > tasks[0].sequence {
      InsertMembers(t, tasks[1..]);
      assert tasks == [tasks[0]] + tasks[1..];
    }
  }

  lemma {:induction false} InsertIncreasing(t: PlanTask, tasks: seq<PlanTask>)
    requires Increasing(tasks) && forall x :: x in tasks ==> x.sequence != t.sequence
    ensures Increasing(Insert(t, tasks))
    decreases |tasks|
  {
    if tasks != [] && t.sequence > tasks[0].sequence {
      var rest := Insert(t, tasks[1..]);
      InsertIncreasing(t, tasks[1..]);
      InsertMembers(t, tasks[1..]);
      forall k | 0 <= k < |rest|
        ensures tasks[0].sequence < rest[k].sequence
      {
        assert rest[k] in rest;
      }
    }
  }

  /** Sorting a sequenced plan orders it strictly and keeps exactly its tasks. */
  lemma {:induction false} SortedIncreasing(tasks: seq<PlanTask>)
    requires forall i, j :: 0 <= i < j < |tasks| ==> tasks[i].sequence != tasks[j].sequence
    ensures Increasing(Sorted(tasks)) && |Sorted(tasks)| == |tasks|
    ensures forall x :: x in Sorted(tasks) <==> x in tasks
    decreases |tasks|
  {
    if tasks != [] {
      SortedIncreasing(tasks[1..]);
      InsertIncreasing(tasks[0], Sorted(tasks[1..]));
      InsertMembers(tasks[0], Sorted(tasks[1..]));
      assert tasks == [tasks[0]] + tasks[1..];
    }
  }

  lemma SortedSequenced(tasks: seq<PlanTask>)
    requires Sequenced(tasks)
    ensures Increasing(Sorted(tasks)) && |Sorted(tasks)| == |tasks|
    ensures forall x, d :: x in Sorted(tasks) && d in x.dependencies ==> d < x.sequence
  {
    SortedIncreasing(tasks);
  }
}
