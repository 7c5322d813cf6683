/**
 Loading, saving and restoring the store, and the three commands as seen by
 the user interface: each command acts on the live state and then, for the
 mutating ones, rewrites the whole file. The JSON encoding is not modelled:
 a file is either unreadable, or readable with contents that parse to one
 state or to none.
 */
module Persistence {
  import opened TaskState
  import opened Commands

  /** What `serde_json::from_str` makes of the file's text. */
  datatype Parse = ParseError | Parsed(state: AppState)

  /** The persisted file as the loader sees it. */
  datatype StoredFile = Unreadable | Readable(contents: Parse)

  /** How a call of `save_tasks` ended. */
  datatype SaveOutcome =
    | Saved         // file created and the whole state written
    | CreateFailed  // `File::create` failed; the old file is untouched
    | WriteFailed   // created (truncated) but the write stopped early

  /** The live state behind the mutex and the file on disk. */
  datatype Machine = Machine(live: AppState, disk: StoredFile)

  /** `read_state_from_file`: fail-open loading. A read error or a parse error
      both give the default state. */
  function ReadStateFromFile(file: StoredFile): (r: AppState)
    ensures file == Readable(Parsed(r)) || r == Default()
    ensures file.Readable? && file.contents.Parsed? ==> r == file.contents.state
    ensures (file.Unreadable? || file.contents.ParseError?) ==> r == Default()
  {
    match file
    case Unreadable => Default()
    case Readable(ParseError) => Default()
    case Readable(Parsed(s)) => s
  }

  /** `save_tasks`: the file after an attempt to write the full state. A
      partial write leaves a proper prefix of the JSON object, which lacks its
      closing brace and therefore never parses. */
  function SaveTasks(s: AppState, outcome: SaveOutcome, before: StoredFile): (after: StoredFile)
    ensures outcome.Saved? ==> ReadStateFromFile(after) == s
    ensures outcome.CreateFailed? ==> after == before
    ensures outcome.WriteFailed? ==> ReadStateFromFile(after) == Default()
  {
    match outcome
    case Saved => Readable(Parsed(s))
    case CreateFailed => before
    case WriteFailed => Readable(ParseError)
  }

  /** What `restore_app_state` leaves behind and what it returns. */
  datatype Restored = Restored(machine: Machine, returned: AppState)

  /** The part of `restore_app_state` that runs under the lock: both live
      fields take the values of a state loaded before the lock was taken. */
  function RestoreCommit(m: Machine, loaded: AppState): (r: Restored)
    ensures r.returned == loaded && r.machine.live == loaded
    ensures r.machine.disk == m.disk
  {
    Restored(Machine(AppState(loaded.tasks, loaded.nextTaskId), m.disk), loaded)
  }

  /** `restore_app_state`: load the file (without the lock), then overwrite
      both live fields and return the loaded state. The file is not written. */
  function RestoreAppState(m: Machine): (r: Restored)
    ensures r.returned == r.machine.live
    ensures r.machine.disk == m.disk
    ensures r.returned == ReadStateFromFile(m.disk)
  {
    RestoreCommit(m, ReadStateFromFile(m.disk))
  }

  /** The load of `restore_app_state` happens before the lock is taken. Were
      an `add_task` to run between the load and the locked assignments, the
      added task would vanish from the live state, the next add would hand out
      the same id again, and its save would drop the lost task from the file
      (unless the second add describes the same task as the first). */
  lemma AddBetweenLoadAndCommitIsLost(m: Machine, first: string, second: string)
    requires Valid(m.live) && CanAllocate(m.live) && m.disk == Readable(Parsed(m.live))
    ensures var loaded := ReadStateFromFile(m.disk);
      var a := AddTaskCommand(m, first, Saved);
      var r := RestoreCommit(a.machine, loaded);
      var b := AddTaskCommand(r.machine, second, Saved);
      && a.task in a.machine.live.tasks
      && a.task !in r.machine.live.tasks
      && b.task.id == a.task.id
      && ReadStateFromFile(b.machine.disk).tasks == m.live.tasks + [b.task]
      && (first != second ==> a.task !in ReadStateFromFile(b.machine.disk).tasks)
  {
  }

  /** Without any race, a save whose write failed leaves a file that loads as
      the default; a later restore puts the counter back to zero, and the next
      add hands out an id that an earlier add already used. */
  lemma FailedWriteThenRestoreReissuesId(disk: StoredFile)
    ensures var m0 := Machine(Default(), disk);
      var a := AddTaskCommand(m0, "a", Saved);
      var b := AddTaskCommand(a.machine, "b", WriteFailed);
      var r := RestoreAppState(b.machine);
      var c := AddTaskCommand(r.machine, "c", Saved);
      && a.task.id == 0 && b.task.id == 1
      && r.returned == Default()
      && c.task.id == a.task.id
  {
  }

  /** What the `add_task` command leaves behind and what it returns. */
  datatype AddedCommand = AddedCommand(machine: Machine, task: Task)

  /** The `add_task` command: the state change, then a save whose failure is
      only logged. */
  function AddTaskCommand(m: Machine, description: string, outcome: SaveOutcome): (r: AddedCommand)
    requires CanAllocate(m.live)
    ensures r.task.id == m.live.nextTaskId && r.task.description == description
    ensures r.machine.live.tasks == m.live.tasks + [r.task]
    ensures r.machine.live.nextTaskId == m.live.nextTaskId + 1
    ensures r.machine.disk == SaveTasks(r.machine.live, outcome, m.disk)
    ensures outcome.Saved? ==> ReadStateFromFile(r.machine.disk) == r.machine.live
  {
    var a := AddTask(m.live, description);
    AddedCommand(Machine(a.state, SaveTasks(a.state, outcome, m.disk)), a.task)
  }

  /** The `remove_task` command: the state change, then a save (even when
      nothing was removed) whose failure is only logged. */
  function RemoveTaskCommand(m: Machine, id: I32, outcome: SaveOutcome): (r: Machine)
    ensures r.live == RemoveTask(m.live, id)
    ensures r.disk == SaveTasks(r.live, outcome, m.disk)
    ensures outcome.Saved? ==> ReadStateFromFile(r.disk) == r.live
  {
    var s := RemoveTask(m.live, id);
    Machine(s, SaveTasks(s, outcome, m.disk))
  }

  // ---------------------------------------------------------------------------
  // Properties relating several calls
  // ---------------------------------------------------------------------------

  /** Saving a state and loading it back yields the same tasks, in order, and
      the same counter. */
  lemma SaveThenReadRoundTrip(s: AppState, before: StoredFile)
    ensures ReadStateFromFile(SaveTasks(s, Saved, before)) == s
  {
  }

  /** Two restores in a row give equal results and equal live state. */
  lemma RestoreIdempotent(m: Machine)
    ensures var once := RestoreAppState(m);
      RestoreAppState(once.machine) == once
  {
  }

  /** The live state after a command never depends on how the save ended. */
  lemma SaveOutcomeDoesNotAffectLiveState(m: Machine, description: string, id: I32,
                                          o1: SaveOutcome, o2: SaveOutcome)
    ensures CanAllocate(m.live) ==>
      AddTaskCommand(m, description, o1).machine.live == AddTaskCommand(m, description, o2).machine.live &&
      AddTaskCommand(m, description, o1).task == AddTaskCommand(m, description, o2).task
    ensures RemoveTaskCommand(m, id, o1).live == RemoveTaskCommand(m, id, o2).live
  {
  }

  /** After a command whose save succeeded, a restore (for example after a
      restart) returns exactly the live state. */
  lemma RestoreAfterSavedCommand(m: Machine, description: string, id: I32)
    ensures CanAllocate(m.live) ==>
      var a := AddTaskCommand(m, description, Saved);
      RestoreAppState(a.machine).returned == a.machine.live
    ensures var r := RemoveTaskCommand(m, id, Saved);
      RestoreAppState(r).returned == r.live
  {
  }

  /** The whole machine is sound when the live state and whatever a restore
      would load both satisfy the store invariant. */
  predicate MachineValid(m: Machine) {
    Valid(m.live) && Valid(ReadStateFromFile(m.disk))
  }

  /** A fresh process (default live state) over a file that loads to a valid
      state, or that fails to load, is sound. */
  lemma StartupValid(disk: StoredFile)
    requires disk.Readable? && disk.contents.Parsed? ==> Valid(disk.contents.state)
    ensures MachineValid(Machine(Default(), disk))
  {
    DefaultIsValid();
  }

  /** Every command, whatever its save outcome, keeps the machine sound. */
  lemma CommandsPreserveMachineValid(m: Machine, description: string, id: I32, outcome: SaveOutcome)
    requires MachineValid(m)
    ensures MachineValid(RestoreAppState(m).machine)
    ensures CanAllocate(m.live) ==> MachineValid(AddTaskCommand(m, description, outcome).machine)
    ensures MachineValid(RemoveTaskCommand(m, id, outcome))
  {
    DefaultIsValid();
    if CanAllocate(m.live) {
      AddTaskPreservesValid(m.live, description);
    }
    RemoveTaskPreservesValid(m.live, id);
  }
}
