/** `TaskModule` with the two lists of `TaskListController`: a task has one row from its creation
    until it is deleted, and moves from the active to the finished list at most once. */
module TaskModule {
  import opened Text
  import opened TaskManager
  import opened TaskRows
  import opened RequestPolicy

  /** `findTaskListItem`: the first row of the id, or -1. */
  method FindTaskListItem(rows: seq<Row>, taskId: TaskId) returns (index: int)
    ensures -1 <= index < |rows| && (index >= 0 <==> Has(rows, taskId))
    ensures index >= 0 ==> rows[index].taskId == taskId && !Has(rows[..index], taskId)
  {
    for i := 0 to |rows|
      invariant !Has(rows[..i], taskId)
    {
      if rows[i].taskId == taskId {
        return i;
      }
      assert rows[..i + 1] == rows[..i] + [rows[i]];
      HasMore(rows[..i], rows[i], taskId);
    }
    assert rows[..|rows|] == rows;
    index := -1;
  }

  /** `removeTaskById` takes away one row; where no id is doubled that is all of the id. */
  method RemoveTaskById(rows: seq<Row>, taskId: TaskId) returns (rest: seq<Row>)
    requires Distinct(rows)
    ensures rest == Without(rows, {taskId})
  {
    var index := FindTaskListItem(rows, taskId);
    if index < 0 {
      NothingToRemove(rows, taskId);
      return rows;
    }
    RemovedRow(rows, index);
    rest := rows[..index] + rows[index + 1..];
  }

  function Ids(list: seq<TaskId>): set<TaskId> {
    set id | id in list
  }

  method CheckedTaskIds(rows: seq<Row>) returns (ids: seq<TaskId>)
    ensures Ids(ids) == CheckedIds(rows)
  {
    ids := [];
    for i := 0 to |rows|
      invariant forall id :: id in ids <==> exists k :: 0 <= k < i && rows[k].checked && rows[k].taskId == id
    {
      if rows[i].checked {
        ids := ids + [rows[i].taskId];
      }
    }
    forall id ensures id in ids <==> id in CheckedIds(rows) {
      if id in ids {
        var k :| 0 <= k < |rows| && rows[k].checked && rows[k].taskId == id;
        assert rows[k] in rows;
      }
    }
  }

  /** `removeCheckedTaskItems` on one list: exactly the rows that were not checked stay, in order. */
  method RemoveCheckedRows(rows: seq<Row>) returns (rest: seq<Row>, ids: seq<TaskId>)
    requires Distinct(rows)
    ensures rest == Unchecked(rows) == Without(rows, CheckedIds(rows)) && Ids(ids) == CheckedIds(rows)
  {
    ids := CheckedTaskIds(rows);
    rest := rows;
    WithoutNone(rows);
    assert Ids([]) == {};
    for k := 0 to |ids|
      invariant rest == Without(rows, Ids(ids[..k]))
    {
      WithoutIsDistinct(rows, Ids(ids[..k]));
      RemovedTwice(rows, Ids(ids[..k]), ids[k]);
      assert Ids(ids[..k + 1]) == Ids(ids[..k]) + {ids[k]};
      rest := RemoveTaskById(rest, ids[k]);
    }
    assert ids[..|ids|] == ids;
    CheckedMeansInIds(rows);
    CheckedTaken(rows, CheckedIds(rows));
  }

  /** Behind the first requests there is one that asks the task's transfer to end. */
  ghost predicate CancelBehind(requests: seq<Request>, first: nat, id: TaskId) {
    exists i: nat :: first <= i < |requests| && requests[i] in {Control(Download, id, true), Control(Upload, id, true)}
  }

  lemma CancelStays(sent: seq<Request>, now: seq<Request>, first: nat, id: TaskId)
    requires sent <= now && first <= |sent|
    ensures CancelBehind(sent, first, id) ==> CancelBehind(now, first, id)
    ensures |sent| < |now| && now[|sent|] in {Control(Download, id, true), Control(Upload, id, true)} ==> CancelBehind(now, first, id)
  {
    if CancelBehind(sent, first, id) {
      var i: nat :| first <= i < |sent| && sent[i] in {Control(Download, id, true), Control(Upload, id, true)};
      assert now[i] == sent[i];
    }
  }

  class TaskModule {
    const manager: TaskManager
    var activeList: seq<Row>
    var finishedList: seq<Row>
    ghost var moved: seq<TaskId>     // every id that was ever reported as moved

    /** No id has two rows; every row and every report is of a task that was made; a task that was
        moved is not active again, and was moved once. */
    ghost predicate Valid()
      reads this, manager
    {
      && manager.Valid() && OneRowEach(activeList, finishedList)
      && (forall i :: 0 <= i < |activeList| ==> activeList[i].taskId in manager.made)
      && (forall i :: 0 <= i < |finishedList| ==> finishedList[i].taskId in manager.made)
      && (forall i :: 0 <= i < |moved| ==> moved[i] in manager.made && !Has(activeList, moved[i]))
      && (forall i, j :: 0 <= i < j < |moved| ==> moved[i] != moved[j])
    }

    constructor (manager: TaskManager)
      requires manager.Valid()
      ensures Valid() && this.manager == manager && activeList == [] && finishedList == []
    {
      this.manager, activeList, finishedList, moved := manager, [], [], [];
    }

    /** The row of a new task. */
    method AppendRow(taskId: TaskId, fileName: string, ghost before: map<TaskId, Made>)
      requires manager.Valid() && taskId in manager.made && taskId !in before
      requires OneRowEach(activeList, finishedList) && before.Keys <= manager.made.Keys
      requires forall i :: 0 <= i < |activeList| ==> activeList[i].taskId in before
      requires forall i :: 0 <= i < |finishedList| ==> finishedList[i].taskId in before
      requires forall i :: 0 <= i < |moved| ==> moved[i] in before && !Has(activeList, moved[i])
      requires forall i, j :: 0 <= i < j < |moved| ==> moved[i] != moved[j]
      modifies this`activeList
      ensures Valid() && activeList == old(activeList) + [Row(taskId, fileName, 0, Waiting, true)]
    {
      var row := Row(taskId, fileName, 0, Waiting, true);
      AppendedRow(activeList, row);
      forall i | 0 <= i < |moved| ensures !Has(activeList + [row], moved[i]) {
        HasMore(activeList, row, moved[i]);
      }
      activeList := activeList + [row];
    }

    /** A new download gets a row of its own and is started from what is on disk. */
    method CreateDownload(fileName: string, savePath: string, nodeId: string, fileSize: int, stat: Option<nat>) returns (taskId: TaskId)
      requires Valid()
      modifies this`activeList, manager
      ensures Valid() && taskId !in old(manager.made)
      ensures activeList == old(activeList) + [Row(taskId, fileName, 0, Waiting, true)]
      ensures var onDisk := if stat.Some? then stat.value else 0;
              var offset := if fileSize > 0 then Min(onDisk, fileSize) else onDisk;
              var task := manager.Find(taskId);
              && task.Some? && Percent(task.value.progress, offset, fileSize)
              && task.value == Task(Download, fileName, savePath, nodeId, fileSize, offset, task.value.progress, Running)
              && manager.requests == old(manager.requests) + [Start(Download, taskId, nodeId, savePath, offset)]
              && manager.statusSignals == old(manager.statusSignals) + [(taskId, Waiting)]
      ensures forall id :: id != taskId ==> manager.Find(id) == old(manager.Find(id))
    {
      ghost var before := manager.made;
      taskId := manager.AddDownloadTask(fileName, savePath, nodeId, fileSize);
      AppendRow(taskId, fileName, before);
      var _ := manager.StartTask(taskId, stat);
      ghost var task := manager.Find(taskId).value;
      ProgressMeans(task.transferredBytes, fileSize, task.progress);
    }

    /** The same for an upload, which begins at the front of its file. */
    method CreateUpload(localPath: string, fileName: string, nodeId: string, fileSize: nat, stat: Option<nat>) returns (taskId: TaskId)
      requires Valid()
      modifies this`activeList, manager
      ensures Valid() && taskId !in old(manager.made)
      ensures activeList == old(activeList) + [Row(taskId, fileName, 0, Waiting, true)]
      ensures var size := if fileSize == 0 && stat.Some? then stat.value else fileSize;
              && manager.Find(taskId) == Some(Task(Upload, fileName, localPath, nodeId, size, 0, 0, Running))
              && manager.requests == old(manager.requests) + [Start(Upload, taskId, nodeId, localPath, 0)]
              && manager.statusSignals == old(manager.statusSignals)
      ensures forall id :: id != taskId ==> manager.Find(id) == old(manager.Find(id))
    {
      ghost var before := manager.made;
      taskId := manager.AddUploadTask(localPath, fileName, nodeId, fileSize);
      AppendRow(taskId, fileName, before);
      var _ := manager.StartTask(taskId, stat);
      NothingDone(manager.Find(taskId).value.fileSize);
    }

    /** The transfer of a task that the manager knew was asked to end. */
    twostate predicate CancelSent(taskId: TaskId)
      reads manager`requests
    {
      manager.requests == old(manager.requests)
        + if old(manager.Find(taskId)) == None then [] else [Control(old(manager.Find(taskId)).value.kind, taskId, true)]
    }

    method DeleteTaskById(taskId: TaskId)
      requires Valid()
      modifies this`activeList, this`finishedList, manager`downloadTasks, manager`uploadTasks, manager`requests
      ensures Valid() && manager.Find(taskId) == None && manager.OthersKept(taskId) && CancelSent(taskId)
      ensures activeList == Without(old(activeList), {taskId}) && finishedList == Without(old(finishedList), {taskId})
    {
      manager.RemoveTask(taskId);
      FewerRows(activeList, finishedList, {taskId});
      KeptRows({taskId});
      activeList := RemoveTaskById(activeList, taskId);
      FewerRows(activeList, finishedList, {taskId});
      finishedList := RemoveTaskById(finishedList, taskId);
    }

    // Rows that stay are rows that were there.
    lemma KeptRows(ids: set<TaskId>)
      requires Valid()
      ensures forall i :: 0 <= i < |Without(activeList, ids)| ==> Without(activeList, ids)[i].taskId in manager.made
      ensures forall i :: 0 <= i < |Without(finishedList, ids)| ==> Without(finishedList, ids)[i].taskId in manager.made
      ensures forall i :: 0 <= i < |moved| ==> !Has(Without(activeList, ids), moved[i])
    {
      forall i | 0 <= i < |Without(activeList, ids)| ensures Without(activeList, ids)[i].taskId in manager.made {
        WithoutHas(activeList, ids, Without(activeList, ids)[i].taskId);
      }
      forall i | 0 <= i < |Without(finishedList, ids)| ensures Without(finishedList, ids)[i].taskId in manager.made {
        WithoutHas(finishedList, ids, Without(finishedList, ids)[i].taskId);
      }
      forall i | 0 <= i < |moved| ensures !Has(Without(activeList, ids), moved[i]) {
        WithoutHas(activeList, ids, moved[i]);
      }
    }

    /** `getTaskSnapshot` finds the task in whichever map it is. */
    method TaskSnapshot(taskId: TaskId) returns (task: Option<Task>)
      ensures task == manager.Find(taskId)
    {
      if taskId in manager.downloadTasks {
        return Some(manager.downloadTasks[taskId]);
      }
      if taskId in manager.uploadTasks {
        return Some(manager.uploadTasks[taskId]);
      }
      return None;
    }

    /** A task is reported as moved exactly when it has an active row and the manager still knows it;
        then its row has gone to the end of the finished list and the manager has forgotten it. */
    method HandleTaskCompletion(taskId: TaskId, status: Status) returns (reported: bool)
      requires Valid()
      modifies this`activeList, this`finishedList, this`moved, manager`downloadTasks, manager`uploadTasks, manager`requests
      ensures Valid()
      ensures reported <==> Has(old(activeList), taskId) && old(manager.Find(taskId)).Some?
      ensures !reported ==>
                && activeList == old(activeList) && finishedList == old(finishedList) && moved == old(moved)
                && manager.Find(taskId) == old(manager.Find(taskId)) && manager.requests == old(manager.requests)
      ensures reported ==>
                && moved == old(moved) + [taskId] && taskId !in old(moved) && manager.Find(taskId) == None && CancelSent(taskId)
                && activeList == Without(old(activeList), {taskId})
                && |finishedList| == |old(finishedList)| + 1 && old(finishedList) <= finishedList
                && var row := finishedList[|old(finishedList)|];
                   && row.taskId == taskId && row.status == status
                   && row.progress == (if status == Completed then 100 else old(manager.Find(taskId)).value.progress)
                   && !row.checked && exists was :: was in old(activeList) && was.taskId == taskId && was.fileName == row.fileName
      ensures manager.OthersKept(taskId)
    {
      reported := false;
      var finishedIndex := FindTaskListItem(finishedList, taskId);
      if finishedIndex >= 0 {
        assert finishedList[finishedIndex].taskId == taskId;
        return;
      }
      var index := FindTaskListItem(activeList, taskId);
      if index < 0 {
        reported := TryAppendFinishedTaskFromRunningList(taskId, status);
        return;
      }
      var fileName := activeList[index].fileName;
      var snapshot := TaskSnapshot(taskId);
      if snapshot.None? {
        return;
      }
      var progress := if status == Completed then 100 else snapshot.value.progress;
      var row := Row(taskId, fileName, progress, status, false);
      MoveActiveTaskToFinished(row);
      manager.RemoveTask(taskId);
      reported := true;
    }

    /** The same for a task that the manager may not know: it reports a move exactly when there is an
        active row, which it looks for once more.  Its one caller has found none. */
    method TryAppendFinishedTaskFromRunningList(taskId: TaskId, status: Status) returns (reported: bool)
      requires Valid()
      modifies this`activeList, this`finishedList, this`moved, manager`downloadTasks, manager`uploadTasks, manager`requests
      ensures Valid() && manager.OthersKept(taskId)
      ensures reported <==> Has(old(activeList), taskId)
      ensures !reported ==>
                && activeList == old(activeList) && finishedList == old(finishedList) && moved == old(moved)
                && manager.Find(taskId) == old(manager.Find(taskId)) && manager.requests == old(manager.requests)
      ensures reported ==>
                && moved == old(moved) + [taskId] && taskId !in old(moved) && manager.Find(taskId) == None && CancelSent(taskId)
                && activeList == Without(old(activeList), {taskId})
                && |finishedList| == |old(finishedList)| + 1 && old(finishedList) <= finishedList
                && var row := finishedList[|old(finishedList)|];
                   && row.taskId == taskId && row.status == status && !row.checked && (status == Completed ==> row.progress == 100)
                   && exists was :: was in old(activeList) && was.taskId == taskId && was.fileName == row.fileName
                        && (status != Completed ==> row.progress == was.progress)
    {
      var index := FindTaskListItem(activeList, taskId);
      if index < 0 {
        NothingToRemove(activeList, taskId);
        activeList := RemoveTaskById(activeList, taskId);
        return false;
      }
      var item := activeList[index];
      MoveActiveTaskToFinished(Row(taskId, item.fileName, if status == Completed then 100 else item.progress, status, false));
      manager.RemoveTask(taskId);
      reported := true;
    }

    method MoveActiveTaskToFinished(row: Row)
      requires Valid() && Has(activeList, row.taskId)
      modifies this`activeList, this`finishedList, this`moved
      ensures Valid() && moved == old(moved) + [row.taskId] && row.taskId !in old(moved)
      ensures finishedList == old(finishedList) + [row] && activeList == Without(old(activeList), {row.taskId})
    {
      MovedRow(activeList, finishedList, row);
      KeptRows({row.taskId});
      finishedList := finishedList + [row];
      activeList := RemoveTaskById(activeList, row.taskId);
      moved := moved + [row.taskId];
    }

    /** One more task is removed. */
    method CancelOne(ids: seq<TaskId>, k: nat)
      requires Valid() && k < |ids|
      modifies manager`downloadTasks, manager`uploadTasks, manager`requests
      ensures manager.Valid() && manager.OthersKept(ids[k]) && manager.Find(ids[k]) == None
      ensures old(manager.requests) <= manager.requests
      ensures forall id :: id in ids[..k + 1] <==> id in ids[..k] || id == ids[k]
      ensures forall first: nat, id :: first <= |old(manager.requests)| && CancelBehind(old(manager.requests), first, id) ==>
                CancelBehind(manager.requests, first, id)
      ensures old(manager.Find(ids[k])).Some? ==>
                forall first: nat :: first <= |old(manager.requests)| ==> CancelBehind(manager.requests, first, ids[k])
    {
      ghost var sent := manager.requests;
      manager.RemoveTask(ids[k]);
      forall first: nat, id | first <= |sent| ensures CancelBehind(sent, first, id) ==> CancelBehind(manager.requests, first, id) {
        CancelStays(sent, manager.requests, first, id);
      }
      forall first: nat | first <= |sent| && old(manager.Find(ids[k])).Some? ensures CancelBehind(manager.requests, first, ids[k]) {
        CancelStays(sent, manager.requests, first, ids[k]);
      }
    }

    /** Deleting checked rows of the active list cancels their tasks; the finished list only loses rows. */
    method CancelCheckedTasks()
      requires Valid()
      modifies this`activeList, manager`downloadTasks, manager`uploadTasks, manager`requests
      ensures Valid() && activeList == Unchecked(old(activeList))
      ensures forall id :: manager.Find(id) == if id in CheckedIds(old(activeList)) then None else old(manager.Find(id))
      ensures old(manager.requests) <= manager.requests
      ensures forall id :: id in CheckedIds(old(activeList)) && old(manager.Find(id)).Some? ==>
                CancelBehind(manager.requests, |old(manager.requests)|, id)
    {
      var rest, ids := RemoveCheckedRows(activeList);
      ghost var checked := CheckedIds(activeList);
      FewerRows(activeList, finishedList, checked);
      KeptRows(checked);
      activeList := rest;
      for k := 0 to |ids|
        invariant Valid() && activeList == rest
        invariant manager.made == old(manager.made)
        invariant forall id :: manager.Find(id) == if id in ids[..k] then None else old(manager.Find(id))
        invariant old(manager.requests) <= manager.requests
        invariant forall id :: id in ids[..k] && old(manager.Find(id)).Some? ==>
                    CancelBehind(manager.requests, |old(manager.requests)|, id)
      {
        CancelOne(ids, k);
      }
      assert ids[..|ids|] == ids;
      assert forall id :: id in ids <==> id in checked;
    }

    method DeleteCheckedFinishedTasks()
      requires Valid()
      modifies this`finishedList
      ensures Valid() && finishedList == Unchecked(old(finishedList))
    {
      var rest, ids := RemoveCheckedRows(finishedList);
      FewerRows(activeList, finishedList, CheckedIds(finishedList));
      KeptRows(CheckedIds(finishedList));
      finishedList := rest;
    }
  }
}
