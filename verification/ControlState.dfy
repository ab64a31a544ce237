/** `TransferControlState`: which task has an active socket and which was asked to pause or to
    cancel, per direction; and what a worker is told, as a function of the operation history. */
module ControlState {

  datatype Direction = Upload | Download
  datatype Control = Pause | Cancel
  datatype Verdict = Continue | Paused | Canceled

  type TaskId = string

  datatype Op =
    | Register(direction: Direction, task: TaskId, socket: int)
    | Request(direction: Direction, task: TaskId, control: Control)
    | Cleanup(direction: Direction, task: TaskId)
    | Clear
    // These change nothing in the table: a worker's look at its task, a send or receive of the task's
    // connection that failed, and the shutdown flag.
    | Check(direction: Direction, task: TaskId)
    | CallFailed(direction: Direction, task: TaskId)
    | ShutDown

  // ---------- what the history says ----------

  predicate Ends(op: Op, d: Direction, t: TaskId) {
    op == Clear || op == Cleanup(d, t)
  }

  predicate Registers(op: Op, d: Direction, t: TaskId) {
    op.Register? && op.direction == d && op.task == t
  }

  predicate Asks(op: Op, d: Direction, t: TaskId) {
    op.Request? && op.direction == d && op.task == t
  }

  predicate Touches(op: Op, d: Direction, t: TaskId) {
    Ends(op, d, t) || Registers(op, d, t) || Asks(op, d, t)
  }

  /** The operations since the last cleanup of the task. */
  function Era(history: seq<Op>, d: Direction, t: TaskId): seq<Op> {
    if history == [] || Ends(history[|history| - 1], d, t) then []
    else Era(history[..|history| - 1], d, t) + [history[|history| - 1]]
  }

  lemma EraGrows(history: seq<Op>, op: Op, d: Direction, t: TaskId)
    ensures Era(history + [op], d, t) == if Ends(op, d, t) then [] else Era(history, d, t) + [op]
  {
    assert (history + [op])[..|history|] == history;
  }

  predicate NoneEnds(ops: seq<Op>, d: Direction, t: TaskId) {
    forall i :: 0 <= i < |ops| ==> !Ends(ops[i], d, t)
  }

  lemma NoneEndsGrows(ops: seq<Op>, op: Op, d: Direction, t: TaskId)
    ensures NoneEnds(ops + [op], d, t) <==> NoneEnds(ops, d, t) && !Ends(op, d, t)
  {
    var longer := ops + [op];
    assert longer[|ops|] == op && forall i :: 0 <= i < |ops| ==> longer[i] == ops[i];
  }

  /** The era starts at k: right behind the last cleanup, or at the very beginning. */
  predicate Since(history: seq<Op>, d: Direction, t: TaskId, k: nat) {
    && k <= |history| && Era(history, d, t) == history[k..] && NoneEnds(history[k..], d, t)
    && (k > 0 ==> Ends(history[k - 1], d, t))
  }

  lemma SinceGrows(history: seq<Op>, op: Op, d: Direction, t: TaskId, k: nat)
    requires Since(history, d, t, k) && !Ends(op, d, t)
    ensures Since(history + [op], d, t, k)
  {
    EraGrows(history, op, d, t);
    NoneEndsGrows(history[k..], op, d, t);
    assert (history + [op])[k..] == history[k..] + [op];
  }

  lemma {:induction false} EraIsSinceCleanup(history: seq<Op>, d: Direction, t: TaskId) returns (k: nat)
    ensures Since(history, d, t, k)
  {
    k := |history|;
    assert history[k..] == [];
    if history != [] && !Ends(history[|history| - 1], d, t) {
      var front, last := history[..|history| - 1], history[|history| - 1];
      k := EraIsSinceCleanup(front, d, t);
      SinceGrows(front, last, d, t, k);
      assert history == front + [last];
    }
  }

  predicate Asked(era: seq<Op>, d: Direction, t: TaskId) {
    exists i :: 0 <= i < |era| && Asks(era[i], d, t)
  }

  predicate Known(era: seq<Op>, d: Direction, t: TaskId) {
    exists i :: 0 <= i < |era| && Registers(era[i], d, t)
  }

  /** The last request of the era asked for this. */
  predicate LastAsked(era: seq<Op>, d: Direction, t: TaskId, control: Control) {
    exists i :: 0 <= i < |era| && era[i] == Request(d, t, control)
      && forall j :: i < j < |era| ==> !Asks(era[j], d, t)
  }

  /** The verdict on a task is settled by its current era alone: its last request decides, and
      without one it goes on exactly when it was registered. */
  function VerdictOn(history: seq<Op>, d: Direction, t: TaskId): Verdict {
    var era := Era(history, d, t);
    if LastAsked(era, d, t, Cancel) then Canceled
    else if Asked(era, d, t) || !Known(era, d, t) then Paused
    else Continue
  }

  /** The registration that a request would find: one that nothing has touched since. */
  predicate Held(history: seq<Op>, d: Direction, t: TaskId, r: nat) {
    && r < |history| && Registers(history[r], d, t)
    && forall j :: r < j < |history| ==> !Touches(history[j], d, t)
  }

  predicate HoldsAny(history: seq<Op>, d: Direction, t: TaskId) {
    exists r: nat :: r < |history| && Held(history, d, t, r)
  }

  /** Some task of the direction holds this socket. */
  ghost predicate HeldSomewhere(history: seq<Op>, d: Direction, socket: int) {
    exists t, r: nat :: Held(history, d, t, r) && history[r].socket == socket
  }

  // ---------- the tables ----------

  datatype Table = Table(sockets: map<TaskId, int>, pauseRequests: map<TaskId, int>, cancelRequests: map<TaskId, int>)

  const EMPTY := Table(map[], map[], map[])

  predicate Flagged(requests: map<TaskId, int>, t: TaskId) {
    t in requests && requests[t] != 0
  }

  /** The tables of one direction say of a task what its history says. */
  ghost predicate Agrees(table: Table, history: seq<Op>, d: Direction, t: TaskId) {
    var era := Era(history, d, t);
    && (Flagged(table.pauseRequests, t) <==> LastAsked(era, d, t, Pause))
    && (Flagged(table.cancelRequests, t) <==> LastAsked(era, d, t, Cancel))
    && (t in table.sockets <==> HoldsAny(history, d, t))
    && (forall r: nat :: t in table.sockets && Held(history, d, t, r) ==> table.sockets[t] == history[r].socket)
  }

  ghost predicate Records(table: Table, history: seq<Op>, d: Direction) {
    forall t :: Agrees(table, history, d, t)
  }

  // ---------- one more operation ----------

  lemma LastAskedGrows(era: seq<Op>, op: Op, d: Direction, t: TaskId, control: Control)
    ensures LastAsked(era + [op], d, t, control) <==>
              op == Request(d, t, control) || (!Asks(op, d, t) && LastAsked(era, d, t, control))
  {
    var longer := era + [op];
    if op == Request(d, t, control) {
      assert longer[|era|] == Request(d, t, control);
    } else if LastAsked(era, d, t, control) && !Asks(op, d, t) {
      var i :| 0 <= i < |era| && era[i] == Request(d, t, control) && forall j :: i < j < |era| ==> !Asks(era[j], d, t);
      assert longer[i] == Request(d, t, control);
    } else {
      assert longer[|era|] == op && forall j :: 0 <= j < |era| ==> longer[j] == era[j];
    }
  }

  lemma HeldGrows(history: seq<Op>, op: Op, d: Direction, t: TaskId, r: nat)
    ensures Held(history + [op], d, t, r) <==>
              (r == |history| && Registers(op, d, t)) || (Held(history, d, t, r) && !Touches(op, d, t))
  {
    var longer := history + [op];
    if Held(longer, d, t, r) && r < |history| {
      assert longer[|history|] == op;
      assert forall j :: r < j < |history| ==> longer[j] == history[j];
    }
  }

  lemma HoldsAnyGrows(history: seq<Op>, op: Op, d: Direction, t: TaskId)
    ensures HoldsAny(history + [op], d, t) <==> Registers(op, d, t) || (HoldsAny(history, d, t) && !Touches(op, d, t))
  {
    if Registers(op, d, t) {
      HeldGrows(history, op, d, t, |history|);
    } else if HoldsAny(history, d, t) && !Touches(op, d, t) {
      var r: nat :| r < |history| && Held(history, d, t, r);
      HeldGrows(history, op, d, t, r);
    } else if HoldsAny(history + [op], d, t) {
      var r: nat :| r < |history + [op]| && Held(history + [op], d, t, r);
      HeldGrows(history, op, d, t, r);
    }
  }

  /** The tables go on agreeing with the history if each task's entries change as its history asks. */
  lemma AgreesGrows(table: Table, history: seq<Op>, d: Direction, t: TaskId, op: Op, table': Table)
    requires Agrees(table, history, d, t)
    requires Flagged(table'.pauseRequests, t) <==>
               op == Request(d, t, Pause) || (!Asks(op, d, t) && !Ends(op, d, t) && Flagged(table.pauseRequests, t))
    requires Flagged(table'.cancelRequests, t) <==>
               op == Request(d, t, Cancel) || (!Asks(op, d, t) && !Ends(op, d, t) && Flagged(table.cancelRequests, t))
    requires t in table'.sockets <==> Registers(op, d, t) || (!Touches(op, d, t) && t in table.sockets)
    requires t in table'.sockets ==> table'.sockets[t] == if Registers(op, d, t) then op.socket else table.sockets[t]
    ensures Agrees(table', history + [op], d, t)
  {
    EraGrows(history, op, d, t);
    LastAskedGrows(Era(history, d, t), op, d, t, Pause);
    LastAskedGrows(Era(history, d, t), op, d, t, Cancel);
    HoldsAnyGrows(history, op, d, t);
    forall r: nat | t in table'.sockets && Held(history + [op], d, t, r)
      ensures table'.sockets[t] == (history + [op])[r].socket
    {
      HeldGrows(history, op, d, t, r);
    }
  }

  // ---------- what the history theorem gives ----------

  /** Pause and cancel are never both asked for, and some request is the last one if there is any. */
  lemma {:induction false} OneLastRequest(era: seq<Op>, d: Direction, t: TaskId)
    ensures !(LastAsked(era, d, t, Pause) && LastAsked(era, d, t, Cancel))
    ensures Asked(era, d, t) <==> LastAsked(era, d, t, Pause) || LastAsked(era, d, t, Cancel)
  {
    if era != [] {
      var front, op := era[..|era| - 1], era[|era| - 1];
      assert era == front + [op];
      OneLastRequest(front, d, t);
      AskedGrows(front, op, d, t);
      LastAskedGrows(front, op, d, t, Pause);
      LastAskedGrows(front, op, d, t, Cancel);
      if Asks(op, d, t) {
        assert op.control == Pause || op.control == Cancel;
        assert op == Request(d, t, op.control);
      }
    }
  }

  /** Without a request in its era a registered task holds its last registration. */
  lemma {:induction false} KnownIsHeld(history: seq<Op>, d: Direction, t: TaskId)
    requires !Asked(Era(history, d, t), d, t)
    ensures Known(Era(history, d, t), d, t) <==> HoldsAny(history, d, t)
  {
    if history != [] {
      var front, op := history[..|history| - 1], history[|history| - 1];
      assert history == front + [op];
      EraGrows(front, op, d, t);
      HoldsAnyGrows(front, op, d, t);
      if !Ends(op, d, t) {
        AskedGrows(Era(front, d, t), op, d, t);
        KnownIsHeld(front, d, t);
      }
    }
  }

  /** A registration found by one request is found by no other: each socket is handed out at most once. */
  lemma HandedOutOnce(history: seq<Op>, i: nat, j: nat, r: nat)
    requires i < |history| && j < |history| && history[i].Request? && history[j].Request?
    requires Held(history[..i], history[i].direction, history[i].task, r)
    requires Held(history[..j], history[j].direction, history[j].task, r)
    ensures i == j
  {
    assert history[..i][r] == history[r] == history[..j][r];
  }

  predicate Concerns(op: Op, d: Direction) {
    op == Clear || op == ShutDown || op.direction == d
  }

  /** The operations that can matter to one direction. */
  function About(history: seq<Op>, d: Direction): seq<Op> {
    if history == [] then []
    else
      var front, op := About(history[..|history| - 1], d), history[|history| - 1];
      if Concerns(op, d) then front + [op] else front
  }

  lemma {:induction false} DirectionsAreSeparate(history: seq<Op>, d: Direction, t: TaskId)
    ensures VerdictOn(history, d, t) == VerdictOn(About(history, d), d, t)
    ensures HoldsAny(history, d, t) == HoldsAny(About(history, d), d, t)
  {
    SeparateEras(history, d, t);
    SeparateSockets(history, d, t);
  }

  ghost predicate SameEra(era: seq<Op>, other: seq<Op>, d: Direction, t: TaskId) {
    && (LastAsked(era, d, t, Pause) <==> LastAsked(other, d, t, Pause))
    && (LastAsked(era, d, t, Cancel) <==> LastAsked(other, d, t, Cancel))
    && (Asked(era, d, t) <==> Asked(other, d, t)) && (Known(era, d, t) <==> Known(other, d, t))
  }

  lemma SameEraGrows(era: seq<Op>, other: seq<Op>, op: Op, d: Direction, t: TaskId)
    requires SameEra(era, other, d, t)
    ensures SameEra(era + [op], other + [op], d, t)
    ensures !Touches(op, d, t) ==> SameEra(era + [op], other, d, t)
  {
    AskedGrows(era, op, d, t);
    AskedGrows(other, op, d, t);
    LastAskedGrows(era, op, d, t, Pause);
    LastAskedGrows(era, op, d, t, Cancel);
    LastAskedGrows(other, op, d, t, Pause);
    LastAskedGrows(other, op, d, t, Cancel);
  }

  lemma {:induction false} SeparateEras(history: seq<Op>, d: Direction, t: TaskId)
    ensures SameEra(Era(history, d, t), Era(About(history, d), d, t), d, t)
  {
    if history != [] {
      var front, op := history[..|history| - 1], history[|history| - 1];
      SeparateEras(front, d, t);
      OneMoreInEra(front, About(front, d), op, d, t);
      assert history == front + [op];
    }
  }

  lemma OneMoreInEra(history: seq<Op>, other: seq<Op>, op: Op, d: Direction, t: TaskId)
    requires SameEra(Era(history, d, t), Era(other, d, t), d, t)
    ensures SameEra(Era(history + [op], d, t), Era(if Concerns(op, d) then other + [op] else other, d, t), d, t)
  {
    EraGrows(history, op, d, t);
    EraGrows(other, op, d, t);
    SameEraGrows(Era(history, d, t), Era(other, d, t), op, d, t);
  }

  lemma AskedGrows(era: seq<Op>, op: Op, d: Direction, t: TaskId)
    ensures Asked(era + [op], d, t) <==> Asked(era, d, t) || Asks(op, d, t)
    ensures Known(era + [op], d, t) <==> Known(era, d, t) || Registers(op, d, t)
  {
    var longer := era + [op];
    assert longer[|era|] == op && forall i :: 0 <= i < |era| ==> longer[i] == era[i];
  }

  lemma {:induction false} SeparateSockets(history: seq<Op>, d: Direction, t: TaskId)
    ensures HoldsAny(history, d, t) == HoldsAny(About(history, d), d, t)
  {
    if history != [] {
      var front, op := history[..|history| - 1], history[|history| - 1];
      SeparateSockets(front, d, t);
      assert history == front + [op];
      HoldsAnyGrows(front, op, d, t);
      HoldsAnyGrows(About(front, d), op, d, t);
    }
  }

  lemma {:induction false} UntouchedEra(history: seq<Op>, d: Direction, t: TaskId)
    requires forall i :: 0 <= i < |history| ==> !Touches(history[i], d, t)
    ensures Era(history, d, t) == history
  {
    if history != [] {
      UntouchedEra(history[..|history| - 1], d, t);
      assert history == history[..|history| - 1] + [history[|history| - 1]];
    }
  }

  /** What every verdict means: a task goes on exactly when it was registered and nobody has asked for
      anything, and a task that nobody has registered or asked about is told to pause. */
  lemma VerdictMeans(history: seq<Op>, d: Direction, t: TaskId)
    ensures VerdictOn(history, d, t) == Continue <==> !Asked(Era(history, d, t), d, t) && Known(Era(history, d, t), d, t)
    ensures VerdictOn(history, d, t) == Canceled <==> LastAsked(Era(history, d, t), d, t, Cancel)
    ensures VerdictOn(history, d, t) == Paused
            <==> LastAsked(Era(history, d, t), d, t, Pause) || (!Asked(Era(history, d, t), d, t) && !Known(Era(history, d, t), d, t))
    ensures (forall i :: 0 <= i < |history| ==> !Touches(history[i], d, t)) ==> VerdictOn(history, d, t) == Paused
  {
    if forall i :: 0 <= i < |history| ==> !Touches(history[i], d, t) {
      UntouchedEra(history, d, t);
    }
    OneLastRequest(Era(history, d, t), d, t);
  }

  /** After a task was registered, and while it is not registered again, its era knows it until a
      cleanup or a clear, and until then collects the requests of before and since. */
  ghost predicate Resumed(before: seq<Op>, more: seq<Op>, after: seq<Op>, d: Direction, t: TaskId) {
    && (Known(after, d, t) <==> NoneEnds(more, d, t))
    && (NoneEnds(more, d, t) ==> (Asked(after, d, t) <==> Asked(before, d, t) || Asked(more, d, t)))
  }

  lemma ResumedGrows(before: seq<Op>, more: seq<Op>, after: seq<Op>, op: Op, d: Direction, t: TaskId)
    requires Resumed(before, more, after, d, t) && !Registers(op, d, t)
    ensures Resumed(before, more + [op], if Ends(op, d, t) then [] else after + [op], d, t)
  {
    NoneEndsGrows(more, op, d, t);
    AskedGrows(more, op, d, t);
    AskedGrows(after, op, d, t);
  }

  lemma {:induction false} EraAfterResume(history: seq<Op>, d: Direction, t: TaskId, socket: int, more: seq<Op>)
    requires forall i :: 0 <= i < |more| ==> !Registers(more[i], d, t)
    ensures Resumed(Era(history, d, t), more, Era(history + [Register(d, t, socket)] + more, d, t), d, t)
    decreases |more|
  {
    var resumed := history + [Register(d, t, socket)];
    if more == [] {
      assert resumed + more == resumed;
      EraGrows(history, Register(d, t, socket), d, t);
      AskedGrows(Era(history, d, t), Register(d, t, socket), d, t);
    } else {
      var front, op := more[..|more| - 1], more[|more| - 1];
      EraAfterResume(history, d, t, socket, front);
      assert more == front + [op] && resumed + more == resumed + front + [op];
      EraGrows(resumed + front, op, d, t);
      ResumedGrows(Era(history, d, t), front, Era(resumed + front, d, t), op, d, t);
    }
  }

  /** A worker that was paused and one that resumed its task both use the same entry.  The resumed one
      is told to go on exactly when no request of the task is still recorded where it registers, and
      since then nobody has asked for anything, cleaned up or cleared. */
  lemma ResumedGoesOnExactlyWhen(history: seq<Op>, d: Direction, t: TaskId, socket: int, more: seq<Op>)
    requires forall i :: 0 <= i < |more| ==> !Registers(more[i], d, t)
    ensures VerdictOn(history + [Register(d, t, socket)] + more, d, t) == Continue
            <==> !Asked(Era(history, d, t), d, t) && !Asked(more, d, t) && NoneEnds(more, d, t)
  {
    VerdictMeans(history + [Register(d, t, socket)] + more, d, t);
    EraAfterResume(history, d, t, socket, more);
  }

  /** Its socket can be found by a request exactly until the next request, cleanup or clear: a cleanup
      of the old worker that comes late takes the new socket out of reach. */
  lemma {:induction false} ResumedSocketHeldExactlyWhen(history: seq<Op>, d: Direction, t: TaskId, socket: int, more: seq<Op>)
    requires forall i :: 0 <= i < |more| ==> !Registers(more[i], d, t)
    ensures HoldsAny(history + [Register(d, t, socket)] + more, d, t) <==> !Asked(more, d, t) && NoneEnds(more, d, t)
    decreases |more|
  {
    var resumed := history + [Register(d, t, socket)];
    if more == [] {
      assert resumed + more == resumed;
      HoldsAnyGrows(history, Register(d, t, socket), d, t);
    } else {
      var front, op := more[..|more| - 1], more[|more| - 1];
      ResumedSocketHeldExactlyWhen(history, d, t, socket, front);
      assert more == front + [op] && resumed + more == resumed + front + [op];
      HoldsAnyGrows(resumed + front, op, d, t);
      AskedGrows(front, op, d, t);
      NoneEndsGrows(front, op, d, t);
    }
  }

  function AfterRequest(table: Table, t: TaskId, control: Control): Table {
    if control == Pause then
      Table(table.sockets - {t}, table.pauseRequests[t := 1], table.cancelRequests - {t})
    else
      Table(table.sockets - {t}, table.pauseRequests - {t}, table.cancelRequests[t := 1])
  }

  lemma RequestRecorded(table: Table, history: seq<Op>, d: Direction, t: TaskId, control: Control)
    requires Records(table, history, d)
    ensures Records(AfterRequest(table, t, control), history + [Request(d, t, control)], d)
  {
    forall u ensures Agrees(AfterRequest(table, t, control), history + [Request(d, t, control)], d, u) {
      assert Agrees(table, history, d, u);
      AgreesGrows(table, history, d, u, Request(d, t, control), AfterRequest(table, t, control));
    }
  }

  predicate ChangesNothing(op: Op) {
    op.Check? || op.CallFailed? || op.ShutDown?
  }

  lemma NothingChanged(table: Table, history: seq<Op>, d: Direction, op: Op)
    requires Records(table, history, d) && ChangesNothing(op)
    ensures Records(table, history + [op], d)
  {
    forall t ensures Agrees(table, history + [op], d, t) {
      assert Agrees(table, history, d, t);
      AgreesGrows(table, history, d, t, op, table);
    }
  }

  // ---------- the class ----------

  class TransferControlState {
    var upload: Table
    var download: Table
    ghost var history: seq<Op>

    ghost predicate Valid()
      reads this
    {
      Records(upload, history, Upload) && Records(download, history, Download)
    }

    constructor ()
      ensures Valid() && history == []
    {
      upload, download, history := EMPTY, EMPTY, [];
    }

    method StateOf(direction: Direction) returns (current: Table)
      ensures current == if direction == Upload then upload else download
    {
      if direction == Upload {
        current := upload;
      } else {
        current := download;
      }
    }

    // Writes the tables of one direction back and records the operation.
    method Store(direction: Direction, current: Table, ghost op: Op)
      requires Valid() && Records(current, history + [op], direction)
      requires op != Clear && op != ShutDown && op.direction == direction
      modifies this
      ensures Valid() && history == old(history) + [op]
    {
      ghost var other := if direction == Upload then Download else Upload;
      ghost var untouched := if direction == Upload then download else upload;
      forall t ensures Agrees(untouched, history + [op], other, t) {
        assert Agrees(untouched, history, other, t);
        AgreesGrows(untouched, history, other, t, op, untouched);
      }
      history := history + [op];
      if direction == Upload {
        upload := current;
      } else {
        download := current;
      }
    }

    /** Records something that leaves the tables as they are. */
    ghost method Note(op: Op)
      requires Valid() && ChangesNothing(op)
      modifies this`history
      ensures Valid() && history == old(history) + [op]
    {
      NothingChanged(upload, history, Upload, op);
      NothingChanged(download, history, Download, op);
      history := history + [op];
    }

    method RegisterSocket(direction: Direction, taskId: TaskId, socket: int)
      requires Valid()
      modifies this
      ensures Valid() && history == old(history) + [Register(direction, taskId, socket)]
    {
      var before := StateOf(direction);
      var current := before.(sockets := before.sockets[taskId := socket]);
      ghost var op := Register(direction, taskId, socket);
      forall t ensures Agrees(current, history + [op], direction, t) {
        assert Agrees(before, history, direction, t);
        AgreesGrows(before, history, direction, t, op, current);
      }
      Store(direction, current, op);
    }

    /** A worker is told what the history of its task says, and the look is recorded. */
    method Check(direction: Direction, taskId: TaskId, shutdownRequested: bool) returns (verdict: Verdict)
      requires Valid()
      modifies this`history
      ensures Valid() && history == old(history) + [Op.Check(direction, taskId)]
      ensures verdict == if shutdownRequested then Canceled else VerdictOn(history, direction, taskId)
    {
      Note(Op.Check(direction, taskId));
      if shutdownRequested {
        return Canceled;
      }
      verdict := LookUp(direction, taskId);
    }

    method LookUp(direction: Direction, taskId: TaskId) returns (verdict: Verdict)
      requires Valid()
      ensures verdict == VerdictOn(history, direction, taskId)
    {
      var current := StateOf(direction);
      assert Agrees(current, history, direction, taskId);
      OneLastRequest(Era(history, direction, taskId), direction, taskId);
      if !Asked(Era(history, direction, taskId), direction, taskId) {
        KnownIsHeld(history, direction, taskId);
      }
      if taskId in current.cancelRequests && current.cancelRequests[taskId] != 0 {
        return Canceled;
      }
      if (taskId in current.pauseRequests && current.pauseRequests[taskId] != 0) || taskId !in current.sockets {
        return Paused;
      }
      return Continue;
    }

    /** A request takes over the registration the task holds, or finds none. */
    method Request(direction: Direction, taskId: TaskId, control: Control) returns (socket: int)
      requires Valid()
      modifies this
      ensures Valid() && history == old(history) + [Op.Request(direction, taskId, control)]
      ensures forall r: nat :: Held(old(history), direction, taskId, r) ==> socket == old(history)[r].socket
      ensures !HoldsAny(old(history), direction, taskId) ==> socket == -1
    {
      var before := StateOf(direction);
      var current := before;
      if control == Pause {
        current := current.(pauseRequests := current.pauseRequests[taskId := 1]);
        current := current.(cancelRequests := current.cancelRequests - {taskId});
      } else {
        current := current.(cancelRequests := current.cancelRequests[taskId := 1]);
        current := current.(pauseRequests := current.pauseRequests - {taskId});
      }
      socket := -1;
      if taskId in current.sockets {
        socket := current.sockets[taskId];
        current := current.(sockets := current.sockets - {taskId});
      }
      assert Agrees(before, history, direction, taskId);
      assert current == AfterRequest(before, taskId, control);
      RequestRecorded(before, history, direction, taskId, control);
      Store(direction, current, Op.Request(direction, taskId, control));
    }

    method Cleanup(direction: Direction, taskId: TaskId)
      requires Valid()
      modifies this
      ensures Valid() && history == old(history) + [Op.Cleanup(direction, taskId)]
    {
      var before := StateOf(direction);
      var current := before.(sockets := before.sockets - {taskId});
      current := current.(pauseRequests := current.pauseRequests - {taskId});
      current := current.(cancelRequests := current.cancelRequests - {taskId});
      ghost var op := Op.Cleanup(direction, taskId);
      forall t ensures Agrees(current, history + [op], direction, t) {
        assert Agrees(before, history, direction, t);
        AgreesGrows(before, history, direction, t, op, current);
      }
      Store(direction, current, op);
    }

    /** The sockets that some task of the direction still holds, and no others. */
    method ActiveSockets(direction: Direction) returns (sockets: seq<int>)
      requires Valid()
      ensures forall t, r: nat :: Held(history, direction, t, r) ==> history[r].socket in sockets
      ensures forall k :: 0 <= k < |sockets| ==> HeldSomewhere(history, direction, sockets[k])
    {
      var current := StateOf(direction);
      assert Records(current, history, direction);
      var rest := current.sockets.Keys;
      sockets := [];
      while rest != {}
        invariant rest <= current.sockets.Keys
        invariant forall t :: t in current.sockets && t !in rest ==> current.sockets[t] in sockets
        invariant forall k :: 0 <= k < |sockets| ==> sockets[k] in current.sockets.Values
        decreases |rest|
      {
        var t :| t in rest;
        sockets := sockets + [current.sockets[t]];
        rest := rest - {t};
      }
      forall t, r: nat | Held(history, direction, t, r) ensures history[r].socket in sockets {
        assert Agrees(current, history, direction, t);
      }
      forall k | 0 <= k < |sockets| ensures HeldSomewhere(history, direction, sockets[k]) {
        assert sockets[k] in current.sockets.Values;
        var t :| t in current.sockets && current.sockets[t] == sockets[k];
        assert Agrees(current, history, direction, t);
        var r: nat :| r < |history| && Held(history, direction, t, r);
        assert current.sockets[t] == history[r].socket;
      }
    }

    method ClearAll()
      requires Valid()
      modifies this
      ensures Valid() && history == old(history) + [Clear]
    {
      forall d, t ensures Agrees(EMPTY, history + [Clear], d, t) {
        EraGrows(history, Clear, d, t);
        HoldsAnyGrows(history, Clear, d, t);
      }
      upload, download := EMPTY, EMPTY;
      history := history + [Clear];
    }
  }
}
