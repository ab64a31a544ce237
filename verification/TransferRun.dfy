/** What a transfer worker of `TransferService` shares with other threads: the control table, the
    shutdown flag and the statuses it emits for its task. */
module TransferRun {
  import opened ControlState

  datatype Status = Running | Completed | Failed | Stopped(verdict: Verdict)

  predicate Closing(s: Status) {
    s.Completed? || s.Failed? || s == Stopped(Paused) || s == Stopped(Canceled)
  }

  /** How a worker closes when it is told this. */
  function StatusOf(verdict: Verdict): Status {
    if verdict == Continue then Failed else Stopped(verdict)
  }

  // ---------- what other threads leave alone ----------

  predicate OnTable(op: Op, d: Direction, t: TaskId) {
    Registers(op, d, t) || op == Cleanup(d, t)
  }

  /** What a worker notes of itself: its looks at its task, and the calls on its socket that failed. */
  predicate OnItsOwn(op: Op, d: Direction, t: TaskId) {
    op == Check(d, t) || op == CallFailed(d, t)
  }

  /** The shutdown flag was set in this history. */
  predicate Down(history: seq<Op>) {
    history != [] && (history[|history| - 1] == ShutDown || Down(history[..|history| - 1]))
  }

  predicate LeftAlone(history: seq<Op>, k: nat, d: Direction, t: TaskId)
    requires k < |history|
  {
    !OnTable(history[k], d, t) && (history[k] == Clear ==> Down(history))
  }

  /** One worker at a time runs a task in a direction, and while it runs it leaves its entry alone: the
      others ask for things, or work on other tasks, and only a shutdown clears the table. */
  ghost predicate Grown(before: seq<Op>, after: seq<Op>, d: Direction, t: TaskId) {
    before <= after && forall k: nat :: |before| <= k < |after| ==> LeftAlone(after, k, d, t)
  }

  predicate ByOthers(history: seq<Op>, k: nat, d: Direction, t: TaskId)
    requires k < |history|
  {
    !OnItsOwn(history[k], d, t)
  }

  /** The worker itself has done nothing since. */
  ghost predicate Idle(before: seq<Op>, after: seq<Op>, d: Direction, t: TaskId) {
    before <= after && forall k: nat :: |before| <= k < |after| ==> ByOthers(after, k, d, t)
  }

  predicate NoFailure(history: seq<Op>, k: nat, d: Direction, t: TaskId)
    requires k < |history|
  {
    history[k] != CallFailed(d, t)
  }

  /** No call on its socket has failed since. */
  ghost predicate NoneFailed(before: seq<Op>, after: seq<Op>, d: Direction, t: TaskId) {
    before <= after && forall k: nat :: |before| <= k < |after| ==> NoFailure(after, k, d, t)
  }

  lemma DownGrows(history: seq<Op>, op: Op)
    ensures Down(history + [op]) <==> Down(history) || op == ShutDown
  {
    assert (history + [op])[..|history|] == history;
  }

  lemma {:induction false} DownStays(before: seq<Op>, after: seq<Op>)
    requires before <= after && Down(before)
    ensures Down(after)
    decreases |after|
  {
    if |before| < |after| {
      DownStays(before, after[..|after| - 1]);
    } else {
      assert before == after;
    }
  }

  /** One more operation of another thread. */
  lemma OneMore(before: seq<Op>, op: Op, d: Direction, t: TaskId)
    requires !OnTable(op, d, t) && !OnItsOwn(op, d, t) && (op == Clear ==> Down(before))
    ensures Grown(before, before + [op], d, t) && Idle(before, before + [op], d, t)
    ensures Down(before + [op]) <==> Down(before) || op == ShutDown
  {
    DownGrows(before, op);
  }

  lemma IdleMore(before: seq<Op>, history: seq<Op>, op: Op, d: Direction, t: TaskId)
    requires Idle(before, history, d, t) && !OnItsOwn(op, d, t)
    ensures Idle(before, history + [op], d, t)
  {
    OneMoreIdle(history, op, d, t);
    IdleTwice(before, history, history + [op], d, t);
  }

  lemma OneMoreIdle(history: seq<Op>, op: Op, d: Direction, t: TaskId)
    requires !OnItsOwn(op, d, t)
    ensures Idle(history, history + [op], d, t)
  {
  }

  /** One look of the worker itself. */
  lemma LookNoted(before: seq<Op>, history: seq<Op>, d: Direction, t: TaskId)
    requires Grown(before, history, d, t)
    ensures Grown(before, history + [Check(d, t)], d, t) && (history + [Check(d, t)])[..|history|] == history
    ensures Down(history + [Check(d, t)]) <==> Down(history)
  {
    DownGrows(history, Check(d, t));
    GrownTwice(before, history, history + [Check(d, t)], d, t);
  }

  lemma GrownTwice(a: seq<Op>, b: seq<Op>, c: seq<Op>, d: Direction, t: TaskId)
    requires Grown(a, b, d, t) && Grown(b, c, d, t)
    ensures Grown(a, c, d, t)
  {
    forall k: nat | |a| <= k < |c| ensures LeftAlone(c, k, d, t) {
      if k < |b| {
        assert LeftAlone(b, k, d, t) && c[k] == b[k];
        if Down(b) {
          DownStays(b, c);
        }
      } else {
        assert LeftAlone(c, k, d, t);
      }
    }
  }

  lemma IdleTwice(a: seq<Op>, b: seq<Op>, c: seq<Op>, d: Direction, t: TaskId)
    requires Idle(a, b, d, t) && Idle(b, c, d, t)
    ensures Idle(a, c, d, t)
  {
    forall k: nat | |a| <= k < |c| ensures ByOthers(c, k, d, t) {
      if k < |b| {
        assert ByOthers(b, k, d, t);
      } else {
        assert ByOthers(c, k, d, t);
      }
    }
  }

  lemma {:induction false} EraStays(before: seq<Op>, after: seq<Op>, d: Direction, t: TaskId)
    requires Grown(before, after, d, t) && !Down(after)
    ensures Asked(Era(before, d, t), d, t) ==> Asked(Era(after, d, t), d, t)
    ensures Known(Era(before, d, t), d, t) ==> Known(Era(after, d, t), d, t)
    decreases |after|
  {
    if |before| == |after| {
      assert before == after;
    } else {
      var front, op := after[..|after| - 1], after[|after| - 1];
      assert LeftAlone(after, |after| - 1, d, t);
      forall k: nat | |before| <= k < |front| ensures LeftAlone(front, k, d, t) {
        assert LeftAlone(after, k, d, t);
      }
      EraStays(before, front, d, t);
      assert after == front + [op];
      EraGrows(front, op, d, t);
      AskedGrows(Era(front, d, t), op, d, t);
    }
  }

  /** A request that was recorded is not forgotten before the worker has cleaned up: without a
      shutdown its verdict stays Paused or Canceled. */
  lemma RequestIsObeyed(before: seq<Op>, after: seq<Op>, d: Direction, t: TaskId)
    requires Grown(before, after, d, t) && Asked(Era(before, d, t), d, t)
    ensures Told(after, d, t) != Continue
  {
    if !Down(after) {
      EraStays(before, after, d, t);
    }
  }

  lemma GoingOnMeansUnasked(before: seq<Op>, after: seq<Op>, d: Direction, t: TaskId)
    requires Grown(before, after, d, t) && Told(after, d, t) == Continue
    ensures !Asked(Era(before, d, t), d, t)
  {
    if Asked(Era(before, d, t), d, t) {
      RequestIsObeyed(before, after, d, t);
    }
  }

  lemma LookIsNoFailure(before: seq<Op>, history: seq<Op>, seen: seq<Op>, d: Direction, t: TaskId)
    requires NoneFailed(before, history, d, t) && history <= seen && |history| < |seen|
    requires Idle(history, seen[..|seen| - 1], d, t) && EndsInLook(seen, d, t)
    ensures NoneFailed(before, seen, d, t)
  {
    var front := seen[..|seen| - 1];
    forall k: nat | |before| <= k < |seen| ensures NoFailure(seen, k, d, t) {
      if k < |history| {
        assert NoFailure(history, k, d, t);
      } else if k < |front| {
        assert ByOthers(front, k, d, t);
      }
    }
  }

  // ---------- how a worker closes that looks at its task ----------

  /** What a worker is told that looks when this is the history. */
  function Told(seen: seq<Op>, d: Direction, t: TaskId): Verdict {
    if Down(seen) then Canceled else VerdictOn(seen, d, t)
  }

  /** The status is what was asked for when the worker looked: that of the last request, Canceled
      after a shutdown, and Failed only when nobody had asked for anything. */
  ghost predicate ClosesAsAsked(seen: seq<Op>, d: Direction, t: TaskId, status: Status) {
    var era := Era(seen, d, t);
    && (status == Failed <==> !Down(seen) && !Asked(era, d, t))
    && (status == Stopped(Paused) <==> !Down(seen) && LastAsked(era, d, t, Pause))
    && (status == Stopped(Canceled) <==> Down(seen) || LastAsked(era, d, t, Cancel))
  }

  /** The history up to here ends in a look of the worker. */
  predicate EndsInLook(seen: seq<Op>, d: Direction, t: TaskId) {
    seen != [] && seen[|seen| - 1] == Check(d, t)
  }

  predicate EndsInFailure(history: seq<Op>, d: Direction, t: TaskId) {
    history != [] && history[|history| - 1] == CallFailed(d, t)
  }

  /** A call has failed since, and the one thing the worker has done behind it is the look that ends
      this history. */
  ghost predicate LooksBehindFailure(before: seq<Op>, seen: seq<Op>, d: Direction, t: TaskId) {
    EndsInLook(seen, d, t)
    && exists j: nat :: |before| <= j < |seen| - 1 && seen[j] == CallFailed(d, t) && Idle(seen[..j + 1], seen[..|seen| - 1], d, t)
  }

  /** Of the history `after`, `seen` is the part up to the worker's last look, which lies behind the
      call that failed if one did; and the worker closed with what this look told it. */
  ghost predicate ClosesAsTold(before: seq<Op>, seen: seq<Op>, after: seq<Op>, failed: bool, d: Direction, t: TaskId, status: Status) {
    && Grown(before, seen, d, t) && |before| < |seen| && EndsInLook(seen, d, t) && Idle(seen, after, d, t)
    && (if failed then LooksBehindFailure(before, seen, d, t) else NoneFailed(before, seen, d, t))
    && status == StatusOf(Told(seen, d, t))
  }

  /** A loop that began at `before` ended with a look that told it to stop, and no call had failed. */
  ghost predicate HaltedByLook(before: seq<Op>, seen: seq<Op>, d: Direction, t: TaskId, verdict: Verdict) {
    |before| < |seen| && EndsInLook(seen, d, t) && NoneFailed(before, seen, d, t) && verdict == Told(seen, d, t)
  }

  /** A call has failed just now, and none before it. */
  ghost predicate FailedSince(before: seq<Op>, history: seq<Op>, d: Direction, t: TaskId) {
    |before| < |history| && EndsInFailure(history, d, t) && NoneFailed(before, history[..|history| - 1], d, t)
  }

  lemma FailureNoted(before: seq<Op>, history: seq<Op>, d: Direction, t: TaskId)
    requires Grown(before, history, d, t) && NoneFailed(before, history, d, t)
    ensures Grown(before, history + [CallFailed(d, t)], d, t) && FailedSince(before, history + [CallFailed(d, t)], d, t)
    ensures Down(history + [CallFailed(d, t)]) <==> Down(history)
  {
    DownGrows(history, CallFailed(d, t));
    assert (history + [CallFailed(d, t)])[..|history|] == history;
    GrownTwice(before, history, history + [CallFailed(d, t)], d, t);
  }

  lemma AtTheStart(history: seq<Op>, d: Direction, t: TaskId)
    ensures Grown(history, history, d, t) && Idle(history, history, d, t) && NoneFailed(history, history, d, t)
  {
  }

  /** For a task that was registered in its era before, that is what was asked for last. */
  lemma ToldAsAsked(before: seq<Op>, seen: seq<Op>, d: Direction, t: TaskId)
    requires Grown(before, seen, d, t) && Known(Era(before, d, t), d, t)
    ensures ClosesAsAsked(seen, d, t, StatusOf(Told(seen, d, t)))
    ensures Asked(Era(before, d, t), d, t) ==> StatusOf(Told(seen, d, t)) != Failed
  {
    if !Down(seen) {
      EraStays(before, seen, d, t);
      OneLastRequest(Era(seen, d, t), d, t);
    }
  }

  /** The task has left the table. */
  ghost predicate Gone(history: seq<Op>, d: Direction, t: TaskId) {
    Era(history, d, t) == [] && !HoldsAny(history, d, t)
  }

  /** The history up to here ends in the registration of this socket, and all the worker did to the
      table since `own0` is this registration and one cleanup. */
  predicate Entered(history: seq<Op>, own: seq<Op>, own0: seq<Op>, d: Direction, t: TaskId, sock: int) {
    && history != [] && history[|history| - 1] == Register(d, t, sock)
    && own == own0 + [Register(d, t, sock), Cleanup(d, t)]
  }

  class TransferService {
    const control: TransferControlState
    var shutdownRequested: bool
    var statuses: seq<Status>        // emitted for the task of this worker
    ghost var own: seq<Op>           // what this worker did to the table

    constructor (control: TransferControlState)
      requires control.Valid() && !Down(control.history)
      ensures Valid() && this.control == control && !shutdownRequested && statuses == [] && own == []
    {
      this.control, shutdownRequested, statuses, own := control, false, [], [];
    }

    ghost predicate Valid()
      reads this, control
    {
      control.Valid() && (shutdownRequested <==> Down(control.history))
    }

    /** Other threads have acted since, and perhaps this worker has looked at its task. */
    twostate predicate Running(d: Direction, t: TaskId)
      reads this, control
    {
      Grown(old(control.history), control.history, d, t) && statuses == old(statuses) && own == old(own)
    }

    /** Only other threads have. */
    twostate predicate Elsewhere(d: Direction, t: TaskId)
      reads this, control
    {
      Running(d, t) && Idle(old(control.history), control.history, d, t)
    }

    /** They have, and then this worker has looked once. */
    twostate predicate Looked(d: Direction, t: TaskId)
      reads this, control
    {
      && Running(d, t) && |old(control.history)| < |control.history| && EndsInLook(control.history, d, t)
      && Idle(old(control.history), control.history[..|control.history| - 1], d, t)
    }

    /** One operation of another thread. */
    method OtherStep(direction: Direction, taskId: TaskId)
      requires Valid()
      modifies this`shutdownRequested, control
      ensures Valid() && Elsewhere(direction, taskId)
    {
      var d: Direction, t: TaskId, c: Control, socket: int := *, *, *, *;
      ghost var before := control.history;
      if
      case true =>
        var _ := control.Request(d, t, c);
        OneMore(before, Op.Request(d, t, c), direction, taskId);
      case d != direction || t != taskId =>
        control.RegisterSocket(d, t, socket);
        OneMore(before, Op.Register(d, t, socket), direction, taskId);
      case d != direction || t != taskId =>
        control.Cleanup(d, t);
        OneMore(before, Op.Cleanup(d, t), direction, taskId);
      case d != direction || t != taskId =>
        var _ := control.Check(d, t, shutdownRequested);
        OneMore(before, Op.Check(d, t), direction, taskId);
      case d != direction || t != taskId =>
        control.Note(CallFailed(d, t));
        OneMore(before, CallFailed(d, t), direction, taskId);
      case true =>
        shutdownRequested := true;
        control.Note(ShutDown);
        OneMore(before, ShutDown, direction, taskId);
      case shutdownRequested =>
        control.ClearAll();
        OneMore(before, Clear, direction, taskId);
    }

    method Others(direction: Direction, taskId: TaskId)
      requires Valid()
      modifies this`shutdownRequested, control
      ensures Valid() && Elsewhere(direction, taskId)
    {
      var steps: nat :| 0 <= steps;
      for i := 0 to steps
        invariant Valid() && Elsewhere(direction, taskId)
      {
        ghost var now := control.history;
        OtherStep(direction, taskId);
        GrownTwice(old(control.history), now, control.history, direction, taskId);
        IdleTwice(old(control.history), now, control.history, direction, taskId);
      }
    }

    /** The worker looks at its task; what it is told is the verdict on the table as it then is. */
    method CheckTaskControlState(direction: Direction, taskId: TaskId) returns (verdict: Verdict)
      requires Valid()
      modifies this`shutdownRequested, control
      ensures Valid() && Looked(direction, taskId) && verdict == Told(control.history, direction, taskId)
    {
      Others(direction, taskId);
      LookNoted(old(control.history), control.history, direction, taskId);
      if shutdownRequested {
        control.Note(Op.Check(direction, taskId));
        return Canceled;
      }
      verdict := control.Check(direction, taskId, shutdownRequested);
    }

    /** The same inside a loop that began when the table had the history `before`. */
    method LookAgain(direction: Direction, taskId: TaskId, ghost before: seq<Op>) returns (verdict: Verdict)
      requires Valid() && Grown(before, control.history, direction, taskId)
      modifies this`shutdownRequested, control
      ensures Valid() && Looked(direction, taskId) && verdict == Told(control.history, direction, taskId)
      ensures Grown(before, control.history, direction, taskId)
      ensures verdict == Continue ==> !Asked(Era(before, direction, taskId), direction, taskId)
    {
      verdict := CheckTaskControlState(direction, taskId);
      GrownTwice(before, old(control.history), control.history, direction, taskId);
      if verdict == Continue {
        GoingOnMeansUnasked(before, control.history, direction, taskId);
      }
    }

    /** The same while no call on the socket has failed: either the worker goes on, or it has to stop. */
    method LookInLoop(direction: Direction, taskId: TaskId, ghost before: seq<Op>) returns (verdict: Verdict)
      requires Valid() && Grown(before, control.history, direction, taskId) && NoneFailed(before, control.history, direction, taskId)
      modifies this`shutdownRequested, control
      ensures Valid() && statuses == old(statuses) && own == old(own)
      ensures Grown(before, control.history, direction, taskId) && NoneFailed(before, control.history, direction, taskId)
      ensures HaltedByLook(before, control.history, direction, taskId, verdict)
      ensures verdict == Continue ==> !Asked(Era(before, direction, taskId), direction, taskId)
    {
      verdict := LookAgain(direction, taskId, before);
      LookIsNoFailure(before, old(control.history), control.history, direction, taskId);
    }

    /** A send or receive of this worker has just failed. */
    ghost method NoteFailedCall(direction: Direction, taskId: TaskId, before: seq<Op>)
      requires Valid() && Grown(before, control.history, direction, taskId) && NoneFailed(before, control.history, direction, taskId)
      modifies control`history
      ensures Valid() && control.history == old(control.history) + [CallFailed(direction, taskId)]
      ensures Grown(before, control.history, direction, taskId) && FailedSince(before, control.history, direction, taskId)
    {
      FailureNoted(before, control.history, direction, taskId);
      control.Note(CallFailed(direction, taskId));
    }

    method RegisterSocket(direction: Direction, taskId: TaskId, socket: int)
      requires Valid()
      modifies this, control
      ensures Valid() && statuses == old(statuses)
      ensures own == old(own) + [Register(direction, taskId, socket)]
      ensures old(control.history) <= control.history
      ensures control.history != [] && control.history[|control.history| - 1] == Register(direction, taskId, socket)
      ensures Known(Era(control.history, direction, taskId), direction, taskId)
    {
      Others(direction, taskId);
      EraGrows(control.history, Op.Register(direction, taskId, socket), direction, taskId);
      AskedGrows(Era(control.history, direction, taskId), Op.Register(direction, taskId, socket), direction, taskId);
      DownGrows(control.history, Op.Register(direction, taskId, socket));
      control.RegisterSocket(direction, taskId, socket);
      own := own + [Register(direction, taskId, socket)];
    }

    /** The task leaves all three maps. */
    method CleanupTaskControlState(direction: Direction, taskId: TaskId)
      requires Valid()
      modifies this, control
      ensures Valid() && statuses == old(statuses) && own == old(own) + [Cleanup(direction, taskId)]
      ensures Gone(control.history, direction, taskId)
      ensures Idle(old(control.history), control.history, direction, taskId)
    {
      Others(direction, taskId);
      EraGrows(control.history, Op.Cleanup(direction, taskId), direction, taskId);
      HoldsAnyGrows(control.history, Op.Cleanup(direction, taskId), direction, taskId);
      DownGrows(control.history, Op.Cleanup(direction, taskId));
      IdleMore(old(control.history), control.history, Op.Cleanup(direction, taskId), direction, taskId);
      control.Cleanup(direction, taskId);
      own := own + [Cleanup(direction, taskId)];
    }

    method EmitTaskStatus(status: Status)
      modifies this`statuses
      ensures statuses == old(statuses) + [status]
    {
      statuses := statuses + [status];
    }

    /** The worker closed its task: it left the table and emitted this status last. */
    twostate predicate ClosedWith(direction: Direction, taskId: TaskId, status: Status)
      reads this, control
    {
      && own == old(own) + [Cleanup(direction, taskId)] && statuses == old(statuses) + [status]
      && Gone(control.history, direction, taskId)
      && old(control.history) <= control.history
    }

    method FinishStoppedTransfer(direction: Direction, taskId: TaskId, verdict: Verdict) returns (ok: bool)
      requires Valid() && verdict != Continue
      modifies this, control
      ensures Valid() && !ok && ClosedWith(direction, taskId, Stopped(verdict))
      ensures Idle(old(control.history), control.history, direction, taskId)
    {
      CleanupTaskControlState(direction, taskId);
      EmitTaskStatus(Stopped(verdict));
      ok := false;
    }

    method EmitTransferFailure()
      modifies this`statuses
      ensures statuses == old(statuses) + [Failed]
    {
      EmitTaskStatus(Failed);
    }

    // What every failure ends with that is not looked into.
    method CloseAsFailed(direction: Direction, taskId: TaskId)
      requires Valid()
      modifies this, control
      ensures Valid() && ClosedWith(direction, taskId, Failed)
      ensures Idle(old(control.history), control.history, direction, taskId)
    {
      CleanupTaskControlState(direction, taskId);
      EmitTransferFailure();
    }

    /** A failed call on the socket may only mean that someone asked the task to stop: the worker
        looks at its task once more and closes with what it finds.  `before` is what the table had
        when the worker began. */
    method HandleSocketSendFailure(direction: Direction, taskId: TaskId, ghost before: seq<Op>)
        returns (ok: bool, ghost status: Status, ghost seen: seq<Op>)
      requires Valid() && Grown(before, control.history, direction, taskId)
      requires FailedSince(before, control.history, direction, taskId)
      modifies this, control
      ensures Valid() && !ok && Closing(status) && !status.Completed? && ClosedWith(direction, taskId, status)
      ensures ClosesAsTold(before, seen, control.history, true, direction, taskId, status) && old(control.history) <= seen
      ensures Asked(Era(before, direction, taskId), direction, taskId) ==> status != Failed
    {
      var verdict := LookAgain(direction, taskId, before);
      seen := control.history;
      BehindFailure(before, old(control.history), seen, direction, taskId);
      status := StatusOf(verdict);
      if verdict != Continue {
        ok := FinishStoppedTransfer(direction, taskId, verdict);
        return;
      }
      CloseAsFailed(direction, taskId);
      ok := false;
    }

    /** The same for a call that fails before the worker has looked at all. */
    method HandleFirstFailure(direction: Direction, taskId: TaskId) returns (ok: bool, ghost status: Status, ghost seen: seq<Op>)
      requires Valid()
      modifies this, control
      ensures Valid() && !ok && Closing(status) && !status.Completed? && ClosedWith(direction, taskId, status)
      ensures ClosesAsTold(old(control.history), seen, control.history, true, direction, taskId, status)
      ensures Asked(Era(old(control.history), direction, taskId), direction, taskId) ==> status != Failed
    {
      ghost var before := control.history;
      AtTheStart(before, direction, taskId);
      NoteFailedCall(direction, taskId, before);
      ok, status, seen := HandleSocketSendFailure(direction, taskId, before);
    }
  }

  lemma BehindFailure(before: seq<Op>, failed: seq<Op>, seen: seq<Op>, d: Direction, t: TaskId)
    requires before <= failed && |before| < |failed| < |seen| && EndsInFailure(failed, d, t) && EndsInLook(seen, d, t)
    requires Idle(failed, seen[..|seen| - 1], d, t)
    ensures LooksBehindFailure(before, seen, d, t)
  {
    var j := |failed| - 1;
    assert seen[..|seen| - 1][j] == failed[j] && seen[j] == CallFailed(d, t);
    assert seen[..j + 1] == seen[..|seen| - 1][..j + 1] == failed;
  }
}
