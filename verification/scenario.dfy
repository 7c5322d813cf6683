/**
 A session: two adds on an empty store, a removal, a repeated removal of the
 same id, and a restore after a restart from the file the last command saved.
 */
module Scenario {
  import opened TaskState
  import opened Commands
  import opened Persistence

  lemma BuyMilkWalkDog(disk: StoredFile)
    ensures var m0 := Machine(Default(), disk);
      var a1 := AddTaskCommand(m0, "buy milk", Saved);
      var a2 := AddTaskCommand(a1.machine, "walk dog", Saved);
      var m3 := RemoveTaskCommand(a2.machine, 0, Saved);
      var m4 := RemoveTaskCommand(m3, 0, Saved);
      var restarted := Machine(Default(), m4.disk);
      && a1.task == Task(0, "buy milk")
      && a1.machine.live == AppState([Task(0, "buy milk")], 1)
      && a2.task == Task(1, "walk dog")
      && m3.live == AppState([Task(1, "walk dog")], 2)
      && m4.live == m3.live
      && RestoreAppState(restarted).returned == AppState([Task(1, "walk dog")], 2)
  {
    var m0 := Machine(Default(), disk);
    var a1 := AddTaskCommand(m0, "buy milk", Saved);
    var a2 := AddTaskCommand(a1.machine, "walk dog", Saved);
    assert a2.machine.live.tasks == [Task(0, "buy milk"), Task(1, "walk dog")];
    assert Position(a2.machine.live.tasks, 0) == FoundAt(0);
    var m3 := RemoveTaskCommand(a2.machine, 0, Saved);
    assert m3.live.tasks == [Task(1, "walk dog")];
    assert !HasId(m3.live.tasks, 0);
  }
}
