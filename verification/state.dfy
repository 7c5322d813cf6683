/**
 The data model of the task store: a `Task` record, the `AppState` aggregate
 (ordered tasks plus the next-id counter) and the invariants the commands keep.
 */
module TaskState {

  const I32_MIN: int := -0x8000_0000
  const I32_MAX: int := 0x7fff_ffff

  /** The source's `i32`. */
  type I32 = x: int | I32_MIN <= x <= I32_MAX

  datatype Task = Task(id: I32, description: string)

  datatype AppState = AppState(tasks: seq<Task>, nextTaskId: I32)

  /** `AppState::default()`: no tasks, counter at zero. */
  function Default(): (r: AppState)
    ensures |r.tasks| == 0 && r.nextTaskId == 0
  {
    AppState([], 0)
  }

  /** The set of ids carried by a task sequence. */
  function Ids(tasks: seq<Task>): (r: set<int>)
    ensures forall i :: 0 <= i < |tasks| ==> tasks[i].id in r
    ensures forall id :: id in r ==> exists i :: 0 <= i < |tasks| && tasks[i].id == id
  {
    set i | 0 <= i < |tasks| :: tasks[i].id
  }

  /** Some task carries the given id. */
  predicate HasId(tasks: seq<Task>, id: int) {
    exists i :: 0 <= i < |tasks| && tasks[i].id == id
  }

  /** No two tasks share an id. */
  predicate DistinctIds(tasks: seq<Task>) {
    forall i, j :: 0 <= i < j < |tasks| ==> tasks[i].id != tasks[j].id
  }

  /** Every id is below the allocation counter. */
  predicate BelowCounter(s: AppState) {
    forall i :: 0 <= i < |s.tasks| ==> s.tasks[i].id < s.nextTaskId
  }

  /** The store's invariant: ids pairwise distinct and all below the counter. */
  predicate Valid(s: AppState) {
    DistinctIds(s.tasks) && BelowCounter(s)
  }

  /** Ids strictly increase along the sequence, as they do when only
      allocation and removal have shaped it. */
  predicate IncreasingIds(tasks: seq<Task>) {
    forall i, j :: 0 <= i < j < |tasks| ==> tasks[i].id < tasks[j].id
  }

  lemma DefaultIsValid()
    ensures Valid(Default()) && IncreasingIds(Default().tasks)
  {
  }
}
