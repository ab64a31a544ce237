/** The bookkeeping of `TaskManager`: progress is always derived from bytes, resume offsets stay
    inside the file, and task numbers are never used twice. */
module TaskManager {
  import opened Text
  import opened RequestPolicy

  datatype Kind = Download | Upload
  datatype Status = Waiting | Running | Paused | Completed | Failed | Canceled | Other(code: int)
  type TaskId = string

  datatype Task = Task(kind: Kind, fileName: string, path: string, nodeId: string,
                       fileSize: int, transferredBytes: int, progress: int, status: Status)

  // ---------- progress ----------

  function Max(a: int, b: int): (m: int)
    ensures m >= a && m >= b && (m == a || m == b)
  {
    if a < b then b else a
  }

  /** The percentage of the bytes, rounded down; an unknown size counts as nothing done. */
  function ProgressFromBytes(transferredBytes: int, totalBytes: int): int {
    if totalBytes <= 0 then 0
    else
      var normalized := if transferredBytes < 0 then 0 else if totalBytes < transferredBytes then totalBytes else transferredBytes;
      (normalized * 100) / totalBytes
  }

  lemma Multiples(a: int, b: int, w: nat)
    requires a <= b
    ensures a * w <= b * w
  {
  }

  lemma Quotient(a: nat, w: nat, k: nat)
    requires w > 0
    ensures a / w >= k <==> a >= k * w
  {
    var q := a / w;
    assert q * w <= a < (q + 1) * w;
    if q >= k {
      Multiples(k, q, w);
    } else {
      Multiples(q + 1, k, w);
    }
  }

  /** The percentage p stands for so many bytes of a total: p percent of it are there and p + 1 percent
      are not. */
  predicate Percent(p: int, transferredBytes: int, totalBytes: int) {
    if totalBytes <= 0 || transferredBytes <= 0 then p == 0
    else if transferredBytes >= totalBytes then p == 100
    else 0 <= p < 100 && p * totalBytes <= transferredBytes * 100 < (p + 1) * totalBytes
  }

  /** Progress is the one percentage that stands for the bytes, it is complete exactly when all bytes
      are there, and zero exactly when less than one percent is. */
  lemma ProgressMeans(transferredBytes: int, totalBytes: int, p: int)
    ensures Percent(p, transferredBytes, totalBytes) <==> p == ProgressFromBytes(transferredBytes, totalBytes)
    ensures 0 <= ProgressFromBytes(transferredBytes, totalBytes) <= 100
    ensures ProgressFromBytes(transferredBytes, totalBytes) == 100 <==> transferredBytes >= totalBytes > 0
    ensures ProgressFromBytes(transferredBytes, totalBytes) == 0 <==> totalBytes <= 0 || transferredBytes * 100 < totalBytes
  {
    if totalBytes > 0 {
      var part := if transferredBytes < 0 then 0 else Min(transferredBytes, totalBytes);
      Quotient(part * 100, totalBytes, 1);
      Quotient(part * 100, totalBytes, 100);
      Quotient(part * 100, totalBytes, 101);
      PercentIsQuotient(part, totalBytes, p);
    }
  }

  /** Rounding down by hand and by division agree. */
  lemma PercentIsQuotient(part: nat, total: nat, p: int)
    requires 0 < total
    ensures p * total <= part * 100 < (p + 1) * total <==> p == (part * 100) / total
  {
    var q := (part * 100) / total;
    assert q * total <= part * 100 < (q + 1) * total;
    if p < q {
      Multiples(p + 1, q, total);
    } else if p > q {
      Multiples(q + 1, p, total);
    }
  }

  /** More bytes never show less progress. */
  lemma ProgressRises(a: int, b: int, totalBytes: int)
    requires a <= b
    ensures ProgressFromBytes(a, totalBytes) <= ProgressFromBytes(b, totalBytes)
  {
    if totalBytes > 0 {
      var x, y := if a < 0 then 0 else Min(a, totalBytes), if b < 0 then 0 else Min(b, totalBytes);
      Quotient(x * 100, totalBytes, (x * 100) / totalBytes);
      Quotient(y * 100, totalBytes, (x * 100) / totalBytes);
    }
  }

  /** The multiplication stays inside 64 bits for all totals up to a hundredth of their range, and
      for no larger total that is fully transferred. */
  lemma ProductFits(transferredBytes: int, totalBytes: int)
    requires totalBytes > 0
    ensures totalBytes <= (LLONG_LIMIT - 1) / 100 ==> 0 <= Max(0, Min(transferredBytes, totalBytes)) * 100 < LLONG_LIMIT
    ensures totalBytes > (LLONG_LIMIT - 1) / 100 ==> Max(0, Min(totalBytes, totalBytes)) * 100 >= LLONG_LIMIT
  {
  }

  lemma NothingDone(totalBytes: int)
    ensures ProgressFromBytes(0, totalBytes) == 0
  {
    ProgressMeans(0, totalBytes, 0);
  }

  // ---------- one task ----------

  predicate Consistent(task: Task) {
    task.transferredBytes >= 0 && task.progress == ProgressFromBytes(task.transferredBytes, task.fileSize)
  }

  /** A task whose bytes were looked up again: what a download has on disk counts, what an upload
      has to send is its file. */
  predicate Synced(before: Task, stat: Option<nat>, after: Task) {
    var onDisk := if stat.Some? then stat.value else 0;
    && Consistent(after)
    && after.(fileSize := before.fileSize, transferredBytes := before.transferredBytes, progress := before.progress) == before
    && match before.kind
       case Download =>
         && after.fileSize == before.fileSize
         && after.transferredBytes == if before.fileSize > 0 then Min(Max(before.transferredBytes, onDisk), before.fileSize)
                                      else Max(before.transferredBytes, onDisk)
       case Upload =>
         && after.fileSize == (if before.fileSize <= 0 then onDisk else before.fileSize)
         && after.transferredBytes == if after.fileSize > 0 then Min(before.transferredBytes, after.fileSize)
                                      else before.transferredBytes
  }

  method SyncDownloadTransferredBytes(task: Task, stat: Option<nat>) returns (synced: Task)
    requires task.kind == Download && Consistent(task)
    ensures Synced(task, stat, synced)
  {
    var actualBytes := if stat.Some? then stat.value else 0;
    synced := task.(transferredBytes := Max(task.transferredBytes, actualBytes));
    if synced.fileSize > 0 {
      synced := synced.(transferredBytes := Min(synced.transferredBytes, synced.fileSize));
    }
    synced := synced.(progress := ProgressFromBytes(synced.transferredBytes, synced.fileSize));
  }

  method SyncUploadTransferredBytes(task: Task, stat: Option<nat>) returns (synced: Task)
    requires task.kind == Upload && Consistent(task)
    ensures Synced(task, stat, synced)
  {
    synced := task;
    if synced.fileSize <= 0 {
      synced := synced.(fileSize := if stat.Some? then stat.value else 0);
    }
    if synced.fileSize > 0 {
      synced := synced.(transferredBytes := Min(synced.transferredBytes, synced.fileSize));
    } else {
      synced := synced.(transferredBytes := Max(0, synced.transferredBytes));
    }
    synced := synced.(progress := ProgressFromBytes(synced.transferredBytes, synced.fileSize));
  }

  /** Where a task goes on lies inside its file, never before what is on disk, and looking twice at
      the same disk changes nothing more. */
  lemma SyncedOffset(before: Task, stat: Option<nat>, after: Task, again: Task)
    requires Consistent(before) && Synced(before, stat, after) && Synced(after, stat, again)
    ensures after.fileSize > 0 ==> 0 <= after.transferredBytes <= after.fileSize
    ensures before.kind == Download && stat.Some? && (before.fileSize <= 0 || stat.value <= before.fileSize) ==>
              after.transferredBytes >= stat.value
    ensures Percent(after.progress, after.transferredBytes, after.fileSize)
    ensures again == after
  {
    ProgressMeans(after.transferredBytes, after.fileSize, after.progress);
  }

  predicate IsValidTransition(from: Status, to: Status) {
    match from
    case Waiting => to == Running
    case Running => to == Paused || to == Completed || to == Failed || to == Canceled
    case Paused => to == Running || to == Failed || to == Canceled
    case _ => false
  }

  /** The table by where it leads: only what waits or is paused can be started, only what runs can be
      paused or completed, only what was started can fail or be cancelled, and nothing waits again or
      leaves a status that ends a task. */
  lemma TransitionsByTarget(from: Status, to: Status)
    ensures IsValidTransition(from, to) <==>
              || (to == Running && (from == Waiting || from == Paused))
              || ((to == Paused || to == Completed) && from == Running)
              || ((to == Failed || to == Canceled) && (from == Running || from == Paused))
    ensures to == Waiting || from == Completed || from == Failed || from == Canceled ==> !IsValidTransition(from, to)
  {
  }

  /** What a status makes of a task's bytes: one that ends or interrupts the transfer has them looked
      up again. */
  ghost predicate AfterStatus(before: Task, status: Status, stat: Option<nat>, after: Task) {
    if status == Waiting || status == Running || status.Other? then after == before.(status := status)
    else if status == Completed && after.fileSize > 0 then
      && after.transferredBytes == after.fileSize && after.progress == 100
      && exists synced :: Synced(before, stat, synced) && after == synced.(transferredBytes := synced.fileSize, progress := 100, status := status)
    else Synced(before.(status := status), stat, after)
  }

  method TakeStatus(before: Task, status: Status, stat: Option<nat>) returns (task: Task)
    requires Consistent(before)
    ensures Consistent(task) && task.kind == before.kind && task.status == status && AfterStatus(before, status, stat, task)
  {
    task := before;
    if status == Paused || status == Completed || status == Failed || status == Canceled {
      if task.kind == Download {
        task := SyncDownloadTransferredBytes(task, stat);
      } else {
        task := SyncUploadTransferredBytes(task, stat);
      }
      if status == Completed && task.fileSize > 0 {
        task := task.(transferredBytes := task.fileSize, progress := 100);
        ProgressMeans(task.transferredBytes, task.fileSize, task.progress);
      }
    }
    task := task.(status := status);
  }

  /** A task that has been started goes on inside its file. */
  ghost predicate Started(before: Task, stat: Option<nat>, after: Task) {
    && after.status == Running && Synced(before.(status := Running), stat, after)
    && (after.fileSize > 0 ==> 0 <= after.transferredBytes <= after.fileSize)
  }

  method StartDownloadTask(before: Task, stat: Option<nat>) returns (started: bool, task: Task)
    requires Consistent(before) && before.kind == Download
    ensures started <==> before.status == Waiting || before.status == Paused
    ensures if started then task.kind == Download && Consistent(task) && Started(before, stat, task) else task == before
  {
    task := before;
    started := IsValidTransition(task.status, Running);
    if started {
      task := SyncDownloadTransferredBytes(task, stat);
      task := task.(status := Running);
    }
  }

  method StartUploadTask(before: Task, stat: Option<nat>) returns (started: bool, task: Task)
    requires Consistent(before) && before.kind == Upload
    ensures started <==> before.status == Waiting || before.status == Paused
    ensures if started then task.kind == Upload && Consistent(task) && Started(before, stat, task) else task == before
  {
    task := before;
    started := IsValidTransition(task.status, Running);
    if started {
      task := SyncUploadTransferredBytes(task, stat);
      task := task.(status := Running);
    }
  }

  // ---------- task numbers ----------

  function Prefix(kind: Kind): string {
    if kind == Download then "download_" else "upload_"
  }

  function IdOf(kind: Kind, number: nat): TaskId {
    Prefix(kind) + Decimal(number)
  }

  /** The word in front decides the kind, and the digits behind it decide the number. */
  lemma IdsDiffer(kind: Kind, number: nat, kind': Kind, number': nat)
    requires IdOf(kind, number) == IdOf(kind', number')
    ensures kind == kind' && number == number'
  {
    assert IdOf(kind, number)[0] == Prefix(kind)[0] && IdOf(kind', number')[0] == Prefix(kind')[0];
    assert IdOf(kind, number)[|Prefix(kind)|..] == Decimal(number);
    assert IdOf(kind', number')[|Prefix(kind')|..] == Decimal(number');
    DecimalInjective(number, number');
  }

  /** Under which number an id was made. */
  datatype Made = Made(kind: Kind, number: nat)

  ghost predicate Named(id: TaskId, made: Made) {
    id == IdOf(made.kind, made.number)
  }

  /** Every id that was made carries its kind and a number up to the counter; the ids of the two maps
      were made for their kind. */
  ghost predicate IdsSound(made: map<TaskId, Made>, counter: nat, downloads: set<TaskId>, uploads: set<TaskId>) {
    && (forall id {:trigger Named(id, made[id])} :: id in made ==> Named(id, made[id]) && 1 <= made[id].number <= counter)
    && (forall id :: id in downloads ==> id in made && made[id].kind == Download)
    && (forall id :: id in uploads ==> id in made && made[id].kind == Upload)
  }

  lemma NextIsNew(made: map<TaskId, Made>, counter: nat, downloads: set<TaskId>, uploads: set<TaskId>, kind: Kind)
    requires IdsSound(made, counter, downloads, uploads)
    ensures IdOf(kind, counter + 1) !in made
  {
    var id := IdOf(kind, counter + 1);
    if id in made {
      assert Named(id, made[id]);
      IdsDiffer(kind, counter + 1, made[id].kind, made[id].number);
    }
  }

  lemma NextIsSound(made: map<TaskId, Made>, counter: nat, downloads: set<TaskId>, uploads: set<TaskId>, kind: Kind)
    requires IdsSound(made, counter, downloads, uploads)
    ensures var id := IdOf(kind, counter + 1);
            IdsSound(made[id := Made(kind, counter + 1)], counter + 1,
                     if kind == Download then downloads + {id} else downloads, if kind == Upload then uploads + {id} else uploads)
  {
    NextIsNew(made, counter, downloads, uploads, kind);
    var next := IdOf(kind, counter + 1);
    var more := made[next := Made(kind, counter + 1)];
    forall id | id in more ensures Named(id, more[id]) && 1 <= more[id].number <= counter + 1 {
      if id != next {
        assert Named(id, made[id]);
      }
    }
  }

  /** The maps never share an id, and the word in front of an id tells which map it is in. */
  lemma PrefixTellsMap(made: map<TaskId, Made>, counter: nat, downloads: set<TaskId>, uploads: set<TaskId>, id: TaskId)
    requires IdsSound(made, counter, downloads, uploads)
    ensures !(id in downloads && id in uploads)
    ensures id in downloads ==> !("upload_" <= id)
    ensures id in uploads ==> "upload_" <= id
  {
    if id in made {
      assert Named(id, made[id]);
      assert id[0] == Prefix(made[id].kind)[0];
    }
  }

  ghost predicate AllConsistent(tasks: map<TaskId, Task>, kind: Kind) {
    forall id :: id in tasks ==> tasks[id].kind == kind && Consistent(tasks[id])
  }

  lemma OneReplaced(tasks: map<TaskId, Task>, kind: Kind, id: TaskId, task: Task)
    requires AllConsistent(tasks, kind) && task.kind == kind && Consistent(task)
    ensures AllConsistent(tasks[id := task], kind)
    ensures id in tasks ==> tasks[id := task].Keys == tasks.Keys
    ensures tasks[id := task].Keys == tasks.Keys + {id}
  {
  }

  lemma OneRemoved(tasks: map<TaskId, Task>, kind: Kind, id: TaskId)
    requires AllConsistent(tasks, kind)
    ensures AllConsistent(tasks - {id}, kind) && (tasks - {id}).Keys <= tasks.Keys
  {
  }

  // ---------- the class ----------

  /** What is handed to the transfer gateway. */
  datatype Request =
    | Start(kind: Kind, taskId: TaskId, nodeId: string, path: string, startOffset: int)
    | Control(kind: Kind, taskId: TaskId, cancel: bool)

  class TaskManager {
    var downloadTasks: map<TaskId, Task>
    var uploadTasks: map<TaskId, Task>
    var taskIdCounter: nat
    var requests: seq<Request>                 // to the gateway
    var statusSignals: seq<(TaskId, Status)>   // to the views
    ghost var made: map<TaskId, Made>          // every id that was ever made

    ghost predicate Valid()
      reads this`downloadTasks, this`uploadTasks, this`made, this`taskIdCounter
    {
      && AllConsistent(downloadTasks, Download) && AllConsistent(uploadTasks, Upload)
      && IdsSound(made, taskIdCounter, downloadTasks.Keys, uploadTasks.Keys)
    }

    /** The task of an id, wherever it is kept. */
    ghost function Find(id: TaskId): Option<Task>
      reads this`downloadTasks, this`uploadTasks
    {
      if id in downloadTasks then Some(downloadTasks[id])
      else if id in uploadTasks then Some(uploadTasks[id]) else None
    }

    /** All other tasks and all ids are as they were. */
    twostate predicate OthersKept(taskId: TaskId)
      reads this`downloadTasks, this`uploadTasks, this`made, this`taskIdCounter
    {
      taskIdCounter == old(taskIdCounter) && made == old(made) && forall id :: id != taskId ==> Find(id) == old(Find(id))
    }

    constructor ()
      ensures Valid() && made == map[] && forall id :: Find(id) == None
    {
      downloadTasks, uploadTasks, taskIdCounter, requests, statusSignals, made := map[], map[], 0, [], [], map[];
    }

    // The two maps have no id in common, so that a task is where it is first looked for.
    lemma InOneMap(id: TaskId)
      requires Valid()
      ensures !(id in downloadTasks && id in uploadTasks)
    {
      PrefixTellsMap(made, taskIdCounter, downloadTasks.Keys, uploadTasks.Keys, id);
    }

    /** Putting a task of either kind in its place. */
    method Put(taskId: TaskId, task: Task)
      requires Valid() && Consistent(task)
      requires if task.kind == Download then taskId in downloadTasks else taskId in uploadTasks
      modifies this`downloadTasks, this`uploadTasks
      ensures Valid() && OthersKept(taskId) && Find(taskId) == Some(task)
    {
      InOneMap(taskId);
      if task.kind == Download {
        OneReplaced(downloadTasks, Download, taskId, task);
        downloadTasks := downloadTasks[taskId := task];
      } else {
        OneReplaced(uploadTasks, Upload, taskId, task);
        uploadTasks := uploadTasks[taskId := task];
      }
    }

    /** A new task has an id that was never used, also not by a task that was removed since. */
    method AddDownloadTask(fileName: string, savePath: string, nodeId: string, fileSize: int) returns (taskId: TaskId)
      requires Valid()
      modifies this
      ensures Valid() && taskId !in old(made) && made == old(made)[taskId := Made(Download, taskIdCounter)]
      ensures taskIdCounter == old(taskIdCounter) + 1 && taskId == IdOf(Download, taskIdCounter) == "download_" + Decimal(taskIdCounter)
      ensures Find(taskId) == Some(Task(Download, fileName, savePath, nodeId, fileSize, 0, 0, Waiting))
      ensures forall id :: id != taskId ==> Find(id) == old(Find(id))
      ensures requests == old(requests) && statusSignals == old(statusSignals) + [(taskId, Waiting)]
    {
      NextIsNew(made, taskIdCounter, downloadTasks.Keys, uploadTasks.Keys, Download);
      NextIsSound(made, taskIdCounter, downloadTasks.Keys, uploadTasks.Keys, Download);
      taskIdCounter := taskIdCounter + 1;
      taskId := IdOf(Download, taskIdCounter);
      var task := Task(Download, fileName, savePath, nodeId, fileSize, 0, 0, Waiting);
      NothingDone(fileSize);
      OneReplaced(downloadTasks, Download, taskId, task);
      downloadTasks := downloadTasks[taskId := task];
      made := made[taskId := Made(Download, taskIdCounter)];
      statusSignals := statusSignals + [(taskId, Waiting)];
    }

    method AddUploadTask(localPath: string, fileName: string, nodeId: string, fileSize: nat) returns (taskId: TaskId)
      requires Valid()
      modifies this
      ensures Valid() && taskId !in old(made) && made == old(made)[taskId := Made(Upload, taskIdCounter)]
      ensures taskIdCounter == old(taskIdCounter) + 1 && taskId == IdOf(Upload, taskIdCounter) == "upload_" + Decimal(taskIdCounter)
      ensures Find(taskId) == Some(Task(Upload, fileName, localPath, nodeId, fileSize, 0, 0, Waiting))
      ensures forall id :: id != taskId ==> Find(id) == old(Find(id))
      ensures requests == old(requests) && statusSignals == old(statusSignals)
    {
      NextIsNew(made, taskIdCounter, downloadTasks.Keys, uploadTasks.Keys, Upload);
      NextIsSound(made, taskIdCounter, downloadTasks.Keys, uploadTasks.Keys, Upload);
      taskIdCounter := taskIdCounter + 1;
      taskId := IdOf(Upload, taskIdCounter);
      var task := Task(Upload, fileName, localPath, nodeId, fileSize, 0, 0, Waiting);
      NothingDone(fileSize);
      OneReplaced(uploadTasks, Upload, taskId, task);
      uploadTasks := uploadTasks[taskId := task];
      made := made[taskId := Made(Upload, taskIdCounter)];
      assert taskId !in downloadTasks;
    }

    method RemoveTask(taskId: TaskId)
      requires Valid()
      modifies this`downloadTasks, this`uploadTasks, this`requests
      ensures Valid() && Find(taskId) == None && OthersKept(taskId)
      ensures requests == old(requests) + if old(Find(taskId)) == None then [] else [Control(old(Find(taskId)).value.kind, taskId, true)]
    {
      InOneMap(taskId);
      if taskId in downloadTasks {
        requests := requests + [Control(Download, taskId, true)];
        OneRemoved(downloadTasks, Download, taskId);
        downloadTasks := downloadTasks - {taskId};
        return;
      }
      if taskId in uploadTasks {
        requests := requests + [Control(Upload, taskId, true)];
        OneRemoved(uploadTasks, Upload, taskId);
        uploadTasks := uploadTasks - {taskId};
      }
    }

    /** Pausing looks up the bytes first, so that a later start goes on from there. */
    method PauseTask(taskId: TaskId, stat: Option<nat>)
      requires Valid()
      modifies this`downloadTasks, this`uploadTasks, this`requests, this`statusSignals
      ensures Valid() && OthersKept(taskId)
      ensures old(Find(taskId)) == None ==>
                Find(taskId) == None && requests == old(requests) && statusSignals == old(statusSignals)
      ensures old(Find(taskId)).Some? ==>
                && Find(taskId).Some? && Find(taskId).value.status == Paused
                && Synced(old(Find(taskId)).value.(status := Paused), stat, Find(taskId).value)
                && requests == old(requests) + [Control(Find(taskId).value.kind, taskId, false)]
                && statusSignals == old(statusSignals) + [(taskId, Paused)]
    {
      InOneMap(taskId);
      if taskId in downloadTasks {
        var task := SyncDownloadTransferredBytes(downloadTasks[taskId], stat);
        requests := requests + [Control(Download, taskId, false)];
        statusSignals := statusSignals + [(taskId, Paused)];
        Put(taskId, task.(status := Paused));
      } else if taskId in uploadTasks {
        var task := SyncUploadTransferredBytes(uploadTasks[taskId], stat);
        requests := requests + [Control(Upload, taskId, false)];
        statusSignals := statusSignals + [(taskId, Paused)];
        Put(taskId, task.(status := Paused));
      }
    }

    method CancelTask(taskId: TaskId)
      requires Valid()
      modifies this`downloadTasks, this`uploadTasks, this`requests, this`statusSignals
      ensures Valid() && OthersKept(taskId)
      ensures old(Find(taskId)) == None ==>
                Find(taskId) == None && requests == old(requests) && statusSignals == old(statusSignals)
      ensures old(Find(taskId)).Some? ==>
                && Find(taskId) == Some(old(Find(taskId)).value.(status := Canceled))
                && requests == old(requests) + [Control(old(Find(taskId)).value.kind, taskId, true)]
                && statusSignals == old(statusSignals) + [(taskId, Canceled)]
    {
      InOneMap(taskId);
      if taskId in downloadTasks {
        requests := requests + [Control(Download, taskId, true)];
        statusSignals := statusSignals + [(taskId, Canceled)];
        Put(taskId, downloadTasks[taskId].(status := Canceled));
      } else if taskId in uploadTasks {
        requests := requests + [Control(Upload, taskId, true)];
        statusSignals := statusSignals + [(taskId, Canceled)];
        Put(taskId, uploadTasks[taskId].(status := Canceled));
      }
    }

    /** A task is started exactly when it waits or is paused, from an offset inside its file. */
    method StartTask(taskId: TaskId, stat: Option<nat>) returns (started: bool)
      requires Valid()
      modifies this`downloadTasks, this`uploadTasks, this`requests
      ensures Valid() && OthersKept(taskId)
      ensures started <==> old(Find(taskId)).Some? && (old(Find(taskId)).value.status == Waiting || old(Find(taskId)).value.status == Paused)
      ensures !started ==> Find(taskId) == old(Find(taskId)) && requests == old(requests)
      ensures started ==>
                && Find(taskId).Some? && Started(old(Find(taskId)).value, stat, Find(taskId).value)
                && var task := Find(taskId).value;
                   requests == old(requests) + [Start(task.kind, taskId, task.nodeId, task.path, task.transferredBytes)]
    {
      started := false;
      InOneMap(taskId);
      if taskId in downloadTasks {
        var task;
        started, task := StartDownloadTask(downloadTasks[taskId], stat);
        if started {
          requests := requests + [Start(Download, taskId, task.nodeId, task.path, task.transferredBytes)];
          Put(taskId, task);
        }
      } else if taskId in uploadTasks {
        var task;
        started, task := StartUploadTask(uploadTasks[taskId], stat);
        if started {
          requests := requests + [Start(Upload, taskId, task.nodeId, task.path, task.transferredBytes)];
          Put(taskId, task);
        }
      }
    }

    /** The percentage that comes from below is not used. */
    method UpdateTaskProgress(taskId: TaskId, progress: int, transferredSize: int, totalSize: int)
        returns (emittedProgress: Option<int>)
      requires Valid()
      modifies this`downloadTasks, this`uploadTasks
      ensures Valid() && OthersKept(taskId)
      ensures old(Find(taskId)) == None ==> Find(taskId) == None && emittedProgress == None
      ensures old(Find(taskId)).Some? ==>
                && emittedProgress.Some?
                && var before, task := old(Find(taskId)).value, Find(taskId);
                   && task == Some(before.(fileSize := if totalSize > 0 then totalSize else before.fileSize,
                                           transferredBytes := Max(0, transferredSize), progress := emittedProgress.value))
                   && Percent(emittedProgress.value, transferredSize, task.value.fileSize)
    {
      emittedProgress := None;
      InOneMap(taskId);
      if taskId in downloadTasks {
        var task := downloadTasks[taskId];
        task := task.(fileSize := if totalSize > 0 then totalSize else task.fileSize);
        task := task.(transferredBytes := Max(0, transferredSize));
        task := task.(progress := ProgressFromBytes(task.transferredBytes, task.fileSize));
        ProgressMeans(task.transferredBytes, task.fileSize, task.progress);
        Put(taskId, task);
        emittedProgress := Some(task.progress);
      } else if taskId in uploadTasks {
        var task := uploadTasks[taskId];
        task := task.(fileSize := if totalSize > 0 then totalSize else task.fileSize);
        task := task.(transferredBytes := Max(0, transferredSize));
        task := task.(progress := ProgressFromBytes(task.transferredBytes, task.fileSize));
        ProgressMeans(task.transferredBytes, task.fileSize, task.progress);
        Put(taskId, task);
        emittedProgress := Some(task.progress);
      }
    }

    /** A status that comes back from the transfer is taken over whatever the task was; a Completed
        task with a known size shows all its bytes. */
    method UpdateTaskStatus(taskId: TaskId, status: Status, stat: Option<nat>)
      requires Valid()
      modifies this`downloadTasks, this`uploadTasks, this`statusSignals
      ensures Valid() && OthersKept(taskId)
      ensures old(Find(taskId)) == None ==> Find(taskId) == None && statusSignals == old(statusSignals)
      ensures old(Find(taskId)).Some? ==>
                && Find(taskId).Some? && Find(taskId).value.status == status
                && statusSignals == old(statusSignals) + [(taskId, status)]
                && AfterStatus(old(Find(taskId)).value, status, stat, Find(taskId).value)
    {
      InOneMap(taskId);
      if taskId in downloadTasks {
        var task := TakeStatus(downloadTasks[taskId], status, stat);
        statusSignals := statusSignals + [(taskId, status)];
        Put(taskId, task);
      } else if taskId in uploadTasks {
        var task := TakeStatus(uploadTasks[taskId], status, stat);
        statusSignals := statusSignals + [(taskId, status)];
        Put(taskId, task);
      }
    }

    method ResetTaskProgress(taskId: TaskId)
      requires Valid()
      modifies this`downloadTasks, this`uploadTasks
      ensures Valid() && OthersKept(taskId)
      ensures Find(taskId) == if old(Find(taskId)) == None then None
                              else Some(old(Find(taskId)).value.(progress := 0, transferredBytes := 0))
    {
      InOneMap(taskId);
      if taskId in downloadTasks {
        var task := downloadTasks[taskId];
        NothingDone(task.fileSize);
        Put(taskId, task.(progress := 0, transferredBytes := 0));
        return;
      }
      if taskId in uploadTasks {
        var task := uploadTasks[taskId];
        NothingDone(task.fileSize);
        Put(taskId, task.(progress := 0, transferredBytes := 0));
      }
    }
  }
}
