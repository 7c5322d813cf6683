# simple-tasks: the task state manager

This project models the task store of the simple-tasks desktop application
(`src-tauri/src/lib.rs`). The store holds an `AppState`: an ordered list of
`Task { id, description }` and a counter `next_task_id`. Three commands act on
it: `add_task`, `remove_task` and `restore_app_state`. A fourth command,
`debug_info`, is not modelled. The state is loaded from one file with
`read_state_from_file` and rewritten with `save_tasks` after every mutation.

The model is functional:

- `TaskState` defines the datatypes, the i32 range of ids and counter, the default state and the store invariant. The invariant says ids are pairwise distinct and every id is below the counter.
- `Commands` defines `add_task` and `remove_task` as pure functions on `AppState`. The source runs them under a `Mutex`, which is why the sequential reading is sound. This module holds the invariant-preservation lemmas and a run of several adds.
- `Persistence` treats the file abstractly. A file is `Unreadable`, or `Readable` with contents that parse to some `AppState` or to none. A save ends `Saved`, `CreateFailed` or `WriteFailed`, and that outcome is a parameter of each command. A `Machine` is the live state together with the file. The commands are modelled on it, and the module proves that a save failure never changes the live state.
- `Scenario` is the two-adds, two-removes, restart-and-restore session.

A save is not atomic: `File::create` truncates the file, and then `serde_json::to_writer` writes into it (`src-tauri/src/lib.rs:36-37`). A write that fails after the truncation leaves a file that no longer loads, so the next restore falls back to the default state (`SaveTasks`, outcome `WriteFailed`).

## Model

| member | source | states |
|---|---|---|
| TaskState.Default | src-tauri/src/lib.rs:9-13 | the derived default state has no tasks and a zero counter |
| TaskState.DefaultIsValid | src-tauri/src/lib.rs:189 | the state the application starts with satisfies the store invariant and has increasing ids |
| Commands.AddTask | src-tauri/src/lib.rs:96-127 | the returned task has the old counter as id and the argument as description; the counter grows by exactly one; the old tasks are an unchanged prefix, the list grows by one and its last element is the returned task |
| Commands.Position | src-tauri/src/lib.rs:135 | the scan returns the first index whose task has the given id, and returns nothing exactly when no task has that id |
| Commands.RemoveTask | src-tauri/src/lib.rs:130-139 | when some task has the id, exactly the first such task is deleted (the rest keep their order) and the length drops by one; when none has it, the tasks are unchanged; the counter never changes |
| Commands.AddTaskPreservesValid | src-tauri/src/lib.rs:99-110 | adding keeps ids distinct and below the counter, and the fresh id was not in use |
| Commands.AddTaskPreservesIncreasing | src-tauri/src/lib.rs:99-110 | when the ids are below the counter, adding keeps them strictly increasing along the list |
| Commands.RemoveTaskPreservesValid | src-tauri/src/lib.rs:130-139 | removing keeps ids distinct and below the counter, and keeps increasing ids increasing |
| Commands.RemoveTaskRemovesId | src-tauri/src/lib.rs:135-136 | with distinct ids, the ids after removal are the ids before minus the removed one, so no task with that id remains |
| Commands.RemoveTaskIdempotent | src-tauri/src/lib.rs:135-139 | with distinct ids, removing an id a second time changes nothing |
| Commands.RemoveUndoesAdd | src-tauri/src/lib.rs:96-139 | in a valid state, removing the task just added restores the previous task list; the counter stays at old + 1, so a later add does not reissue the id (a restore can still lower the counter) |
| Commands.AddAll | src-tauri/src/lib.rs:96-127 | n adds append n tasks in call order; the k-th new task has id old counter + k and the k-th description; the counter advances by n |
| Commands.AddAllPreservesValid | src-tauri/src/lib.rs:99-110 | any run of adds keeps the store invariant and keeps increasing ids increasing |
| Persistence.ReadStateFromFile | src-tauri/src/lib.rs:59-66 | a read error and a parse error both give the default state; otherwise the parsed state is returned |
| Persistence.SaveTasks | src-tauri/src/lib.rs:34-39 | after a successful save the file loads back to the saved state; a failed create leaves the file as it was; a failed write leaves a file that loads as the default |
| Persistence.RestoreCommit | src-tauri/src/lib.rs:52-56 | both live fields take the values of a state loaded earlier, that state is returned, and the file is not touched |
| Persistence.RestoreAppState | src-tauri/src/lib.rs:42-57 | both live fields are set to the loaded state, that same state is returned, and the file is not written |
| Persistence.AddTaskCommand | src-tauri/src/lib.rs:96-127 | the live state changes as add_task says whatever the save outcome; the file is then saved from the new live state, and after a successful save it loads to that state |
| Persistence.RemoveTaskCommand | src-tauri/src/lib.rs:130-154 | the live state becomes exactly the result of remove_task (first match deleted, the rest in order; an unknown id leaves it unchanged); the file is then saved from that state whether or not anything was removed, and after a successful save it loads to the new live state |
| Persistence.SaveThenReadRoundTrip | src-tauri/src/lib.rs:34-66 | saving a state and reading the file back yields the same tasks in the same order and the same counter |
| Persistence.AddBetweenLoadAndCommitIsLost | src-tauri/src/lib.rs:42-57 | the file is loaded before the lock is taken; an add run between the load and the locked assignments is lost from the live state, the next add reissues its id and saves a file holding the old tasks plus the new one, so the lost task is gone from it when the two descriptions differ |
| Persistence.FailedWriteThenRestoreReissuesId | src-tauri/src/lib.rs:34-66 | with no race, a failed write leaves a file that loads as the default, a restore puts the counter back to zero, and the next add reissues an id already used |
| Persistence.RestoreIdempotent | src-tauri/src/lib.rs:46-56 | two consecutive restores give equal results and equal live state |
| Persistence.SaveOutcomeDoesNotAffectLiveState | src-tauri/src/lib.rs:121-153 | the live state and the returned task of add and remove are the same for every save outcome, because save errors are only logged |
| Persistence.RestoreAfterSavedCommand | src-tauri/src/lib.rs:42-57 | after a command whose save succeeded, a restore returns exactly the live state |
| Persistence.StartupValid | src-tauri/src/lib.rs:189 | a fresh process over a file that fails to load or loads to a valid state satisfies the machine invariant |
| Persistence.CommandsPreserveMachineValid | src-tauri/src/lib.rs:42-154 | restore, add and remove, whatever their save outcome, keep both the live state and whatever a restore would load valid |
| Scenario.BuyMilkWalkDog | src-tauri/src/lib.rs:96-154 | starting empty: add "buy milk" gives id 0, add "walk dog" gives id 1, removing 0 leaves only "walk dog" with counter 2, removing 0 again changes nothing, and a restore after restart returns that state |

## Left out

- Commands.AddTask: requires the counter to be below `i32::MAX`. At `i32::MAX` the source's `+= 1` panics in a debug build and wraps to `i32::MIN` in a release build. The model covers neither, and so it never reaches the point where the wrapped counter would reuse ids.
- Commands.AddAll: requires room in the i32 range for all the ids it allocates, for the same reason.
- The JSON encoding done by `serde_json` is not modelled. A file is abstracted to "unreadable", "parses to this state" or "does not parse". The claim that a partial write never parses rests on the fact that a proper prefix of a JSON object lacks its closing brace.
- `get_path` is not modelled. It picks a fixed path per platform, which is configuration and holds no logic.
- The `Mutex` and the `unwrap` on a poisoned lock are not modelled. Commands are modelled as running one at a time on a single state. For `add_task` and `remove_task` the lock guarantees this.
- Persistence.RestoreAppState: is modelled as one step. The lock does not make it one: `restore_app_state` reads the file (`src-tauri/src/lib.rs:46`) before it takes the lock (`src-tauri/src/lib.rs:52`), and only the two assignments run under it. One-at-a-time execution of restore is therefore an assumption about the host, not something the code guarantees. `AddBetweenLoadAndCommitIsLost` shows what an interleaved add would do.
- The `println!`/`eprintln!` logging is not modelled, including the loops that list the tasks. It has no effect on state.
- `debug_info` is not modelled. It returns a constant newline and is commented-out scaffolding.
- `hide_menus_on_mac` and `run` are not modelled. They are Tauri window, menu and builder plumbing. From `run`, only the default initial state is modelled (`StartupValid`).
- The file being written by another process is not modelled. The store assumes it is the only writer.
