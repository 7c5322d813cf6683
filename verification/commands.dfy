/**
 The two mutating commands of the task store, `add_task` and `remove_task`,
 as pure functions from the state before the command to the state after it.
 The mutex that serialises them in the source is what makes this sequential
 reading sound; logging and persistence are in module Persistence.
 */
module Commands {
  import opened TaskState

  /** What `add_task` leaves behind: the new state and the task it returns. */
  datatype Added = Added(state: AppState, task: Task)

  /** The counter can hand out one more id without leaving the i32 range. */
  predicate CanAllocate(s: AppState) {
    s.nextTaskId < I32_MAX
  }

  /** `add_task`: take the counter as the fresh id, bump the counter, append the task. */
  function AddTask(s: AppState, description: string): (r: Added)
    requires CanAllocate(s)
    ensures r.task.id == s.nextTaskId && r.task.description == description
    ensures r.state.nextTaskId == s.nextTaskId + 1
    ensures |r.state.tasks| == |s.tasks| + 1
    ensures s.tasks <= r.state.tasks
    ensures r.state.tasks[|s.tasks|] == r.task
  {
    var task := Task(s.nextTaskId, description);
    Added(AppState(s.tasks + [task], s.nextTaskId + 1), task)
  }

  /** Index `i` holds the first task whose id is `id`. */
  predicate IsFirstMatch(tasks: seq<Task>, id: int, i: int) {
    0 <= i < |tasks| && tasks[i].id == id &&
    forall j :: 0 <= j < i ==> tasks[j].id != id
  }

  /** Outcome of the scan for an id: the index it stopped at, or the end. */
  datatype Scan = NotFound | FoundAt(index: nat)

  /** `tasks.iter().position(|task| task.id == task_id)`. */
  function Position(tasks: seq<Task>, id: int): (r: Scan)
    ensures r.FoundAt? ==> IsFirstMatch(tasks, id, r.index)
    ensures r.NotFound? <==> !HasId(tasks, id)
  {
    if |tasks| == 0 then NotFound
    else if tasks[0].id == id then FoundAt(0)
    else match Position(tasks[1..], id)
      case FoundAt(i) => FoundAt(i + 1)
      case NotFound => NotFound
  }

  /** `remove_task`: delete the first task with the given id, if there is one. */
  function RemoveTask(s: AppState, id: I32): (r: AppState)
    ensures r.nextTaskId == s.nextTaskId
    ensures HasId(s.tasks, id) ==>
      |r.tasks| == |s.tasks| - 1 &&
      exists i :: IsFirstMatch(s.tasks, id, i) && r.tasks == s.tasks[..i] + s.tasks[i + 1..]
    ensures !HasId(s.tasks, id) ==> r.tasks == s.tasks
  {
    match Position(s.tasks, id)
    case FoundAt(i) => AppState(s.tasks[..i] + s.tasks[i + 1..], s.nextTaskId)
    case NotFound => s
  }

  /** The first match is unique, so the removed position is determined. */
  lemma FirstMatchUnique(tasks: seq<Task>, id: int, i: int, k: int)
    requires IsFirstMatch(tasks, id, i) && IsFirstMatch(tasks, id, k)
    ensures i == k
  {
  }

  /** Deleting one position keeps every other task, in order. */
  lemma DeleteAtKeepsOthers(tasks: seq<Task>, i: int)
    requires 0 <= i < |tasks|
    ensures var r := tasks[..i] + tasks[i + 1..];
      (forall j :: 0 <= j < i ==> r[j] == tasks[j]) &&
      (forall j :: i < j < |tasks| ==> r[j - 1] == tasks[j])
  {
  }

  // ---------------------------------------------------------------------------
  // The store invariant is preserved by both commands
  // ---------------------------------------------------------------------------

  /** The fresh id is the old counter, which exceeds every existing id. */
  lemma AddTaskPreservesValid(s: AppState, description: string)
    requires CanAllocate(s) && Valid(s)
    ensures Valid(AddTask(s, description).state)
    ensures !HasId(s.tasks, AddTask(s, description).task.id)
  {
    var r := AddTask(s, description);
    var n := |s.tasks|;
    assert forall i :: 0 <= i < n ==> r.state.tasks[i] == s.tasks[i];
    forall i, j | 0 <= i < j < |r.state.tasks|
      ensures r.state.tasks[i].id != r.state.tasks[j].id
    {
      if j == n {
        assert r.state.tasks[i].id < s.nextTaskId;
      }
    }
  }

  lemma AddTaskPreservesIncreasing(s: AppState, description: string)
    requires CanAllocate(s) && BelowCounter(s) && IncreasingIds(s.tasks)
    ensures IncreasingIds(AddTask(s, description).state.tasks)
  {
    var r := AddTask(s, description);
    assert forall i :: 0 <= i < |s.tasks| ==> r.state.tasks[i] == s.tasks[i];
  }

  /** Deleting one position keeps distinct ids distinct, increasing ids
      increasing, and every remaining task is one of the old ones. */
  lemma DeleteAtKeepsOrder(tasks: seq<Task>, i: int)
    requires 0 <= i < |tasks|
    ensures var r := tasks[..i] + tasks[i + 1..];
      (DistinctIds(tasks) ==> DistinctIds(r)) &&
      (IncreasingIds(tasks) ==> IncreasingIds(r)) &&
      (forall j :: 0 <= j < |r| ==> r[j] in tasks)
  {
    var r := tasks[..i] + tasks[i + 1..];
    DeleteAtKeepsOthers(tasks, i);
    forall j1, j2 | 0 <= j1 < j2 < |r|
      ensures exists k1, k2 :: 0 <= k1 < k2 < |tasks| && r[j1] == tasks[k1] && r[j2] == tasks[k2]
    {
      var k1 := if j1 < i then j1 else j1 + 1;
      var k2 := if j2 < i then j2 else j2 + 1;
      assert r[j1] == tasks[k1] && r[j2] == tasks[k2];
    }
  }

  /** Removal keeps a sub-sequence of the tasks and leaves the counter alone. */
  lemma RemoveTaskPreservesValid(s: AppState, id: I32)
    requires Valid(s)
    ensures Valid(RemoveTask(s, id))
    ensures IncreasingIds(s.tasks) ==> IncreasingIds(RemoveTask(s, id).tasks)
  {
    var r := RemoveTask(s, id);
    if HasId(s.tasks, id) {
      var i :| IsFirstMatch(s.tasks, id, i) && r.tasks == s.tasks[..i] + s.tasks[i + 1..];
      DeleteAtKeepsOrder(s.tasks, i);
    }
  }

  /** Deleting position `i` of a sequence with distinct ids drops exactly that id. */
  lemma IdsAfterDeleteAt(tasks: seq<Task>, i: int)
    requires DistinctIds(tasks) && 0 <= i < |tasks|
    ensures Ids(tasks[..i] + tasks[i + 1..]) == Ids(tasks) - {tasks[i].id}
  {
    var r := tasks[..i] + tasks[i + 1..];
    DeleteAtKeepsOthers(tasks, i);
    forall x | x in Ids(r)
      ensures x in Ids(tasks) - {tasks[i].id}
    {
      var k :| 0 <= k < |r| && r[k].id == x;
      if k < i {
        assert r[k] == tasks[k];
      } else {
        assert r[k] == tasks[k + 1];
      }
    }
    forall x | x in Ids(tasks) - {tasks[i].id}
      ensures x in Ids(r)
    {
      var k :| 0 <= k < |tasks| && tasks[k].id == x;
      if k < i {
        assert r[k] == tasks[k];
      } else {
        assert r[k - 1] == tasks[k];
      }
    }
  }

  /** With distinct ids, removal takes exactly that id out of the set of ids. */
  lemma RemoveTaskRemovesId(s: AppState, id: I32)
    requires DistinctIds(s.tasks)
    ensures Ids(RemoveTask(s, id).tasks) == Ids(s.tasks) - {id}
    ensures !HasId(RemoveTask(s, id).tasks, id)
  {
    var r := RemoveTask(s, id);
    if HasId(s.tasks, id) {
      var i :| IsFirstMatch(s.tasks, id, i) && r.tasks == s.tasks[..i] + s.tasks[i + 1..];
      IdsAfterDeleteAt(s.tasks, i);
    } else {
      assert id !in Ids(s.tasks);
    }
    assert id !in Ids(r.tasks);
  }

  /** Removing the same id twice is the same as removing it once. */
  lemma RemoveTaskIdempotent(s: AppState, id: I32)
    requires DistinctIds(s.tasks)
    ensures RemoveTask(RemoveTask(s, id), id) == RemoveTask(s, id)
  {
    RemoveTaskRemovesId(s, id);
  }

  /** Removing the task just added gives back the tasks from before the add. */
  lemma RemoveUndoesAdd(s: AppState, description: string)
    requires CanAllocate(s) && Valid(s)
    ensures var a := AddTask(s, description);
      RemoveTask(a.state, a.task.id) == AppState(s.tasks, s.nextTaskId + 1)
  {
    var a := AddTask(s, description);
    AddTaskPreservesValid(s, description);
    var n := |s.tasks|;
    assert IsFirstMatch(a.state.tasks, a.task.id, n);
    var i :| IsFirstMatch(a.state.tasks, a.task.id, i) &&
      RemoveTask(a.state, a.task.id).tasks == a.state.tasks[..i] + a.state.tasks[i + 1..];
    FirstMatchUnique(a.state.tasks, a.task.id, i, n);
    assert a.state.tasks[..n] == s.tasks;
  }

  // ---------------------------------------------------------------------------
  // A run of adds
  // ---------------------------------------------------------------------------

  /** The counter has room for `n` more ids. */
  predicate CanAllocateMany(s: AppState, n: nat) {
    s.nextTaskId + n <= I32_MAX
  }

  /** `add_task` called once per description, in order. */
  function AddAll(s: AppState, descriptions: seq<string>): (r: AppState)
    requires CanAllocateMany(s, |descriptions|)
    ensures r.nextTaskId == s.nextTaskId + |descriptions|
    ensures |r.tasks| == |s.tasks| + |descriptions|
    ensures s.tasks <= r.tasks
    ensures forall i :: |s.tasks| <= i < |r.tasks| ==>
      r.tasks[i].id == s.nextTaskId + (i - |s.tasks|) &&
      r.tasks[i].description == descriptions[i - |s.tasks|]
    decreases |descriptions|
  {
    if |descriptions| == 0 then s
    else
      var a := AddTask(s, descriptions[0]);
      var r := AddAll(a.state, descriptions[1..]);
      AddedAfterFirst(s, a.state, r, descriptions);
      r
  }

  /** The step of AddAll's closed form: the first description went to the
      old counter, the rest were placed from the bumped counter on. */
  lemma AddedAfterFirst(s: AppState, a: AppState, r: AppState, descriptions: seq<string>)
    requires |descriptions| > 0
    requires |a.tasks| == |s.tasks| + 1 && s.tasks <= a.tasks && a.nextTaskId == s.nextTaskId + 1
    requires a.tasks[|s.tasks|] == Task(s.nextTaskId, descriptions[0])
    requires |r.tasks| == |a.tasks| + |descriptions| - 1 && a.tasks <= r.tasks
    requires forall i :: |a.tasks| <= i < |r.tasks| ==>
      r.tasks[i].id == a.nextTaskId + (i - |a.tasks|) &&
      r.tasks[i].description == descriptions[1..][i - |a.tasks|]
    ensures forall i :: |s.tasks| <= i < |r.tasks| ==>
      r.tasks[i].id == s.nextTaskId + (i - |s.tasks|) &&
      r.tasks[i].description == descriptions[i - |s.tasks|]
  {
    assert r.tasks[|s.tasks|] == a.tasks[|s.tasks|];
    forall i | |a.tasks| <= i < |r.tasks|
      ensures r.tasks[i].description == descriptions[i - |s.tasks|]
    {
      assert descriptions[1..][i - |a.tasks|] == descriptions[i - |s.tasks|];
    }
  }

  lemma {:induction false} AddAllPreservesValid(s: AppState, descriptions: seq<string>)
    requires CanAllocateMany(s, |descriptions|) && Valid(s)
    ensures Valid(AddAll(s, descriptions))
    ensures IncreasingIds(s.tasks) ==> IncreasingIds(AddAll(s, descriptions).tasks)
    decreases |descriptions|
  {
    if |descriptions| > 0 {
      AddTaskPreservesValid(s, descriptions[0]);
      if IncreasingIds(s.tasks) {
        AddTaskPreservesIncreasing(s, descriptions[0]);
      }
      AddAllPreservesValid(AddTask(s, descriptions[0]).state, descriptions[1..]);
    }
  }
}
