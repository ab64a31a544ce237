/** `fileUploadResumable` as a worker runs it, that every one of its runs is a run of the machine of
    module UploadLink, and how it closes its task. */
module UploadWorker {
  import opened Text
  import opened Sockets
  import opened WireFormat
  import opened RequestPolicy
  import opened UploadLink
  import opened UploadSessions
  import C = ControlState
  import opened TransferRun

  // ---------- the client's steps ----------

  /** The machine seen by the client alone: whatever will still arrive is in its queue. */
  ghost predicate Client?(w: World, phase: ClientPhase, inbox: Bytes) {
    w.link.client.phase == phase && w.link.down == inbox && !w.link.live
  }

  /** The client is between two rounds of its data loop. */
  ghost predicate InStream(w: World, taken: nat, inbox: Bytes) {
    var c := w.link.client;
    Client?(w, Streaming, inbox) && c.out == [] && c.line == [] && c.taken == c.committed == taken
  }

  lemma {:induction false} LineIsHeard(setup: Setup, log: Log, inbox: Bytes) returns (log': Log)
    requires Sound(setup, log) && log.now.link.down == inbox && !log.now.link.live
    requires log.now.link.client.phase == AwaitingReady || log.now.link.client.phase == AwaitingFinal
    ensures log'.start == log.start && Sound(setup, log')
    ensures var c, read := log.now.link.client, ClientLine(log.now.link.client.line, inbox);
            && log'.now.link.down == read.rest && !log'.now.link.live
            && log'.now.link.client == AcceptLine(setup, c.(line := read.text, heard := log'.now.link.client.heard))
    decreases |inbox|
  {
    if inbox == [] {
      DoIsSound(setup, log, ClientLineEnd);
      log' := Do(setup, log, ClientLineEnd);
    } else {
      DoIsSound(setup, log, ClientByte);
      log' := Do(setup, log, ClientByte);
      if inbox[0] != '\n' {
        log' := LineIsHeard(setup, log', inbox[1..]);
      }
    }
  }

  lemma ChunkSent(setup: Setup, log: Log, taken: nat, inbox: Bytes, n: nat) returns (log': Log)
    requires Sound(setup, log) && InStream(log.now, taken, inbox)
    requires 1 <= n <= BUFFER_SIZE && taken + n <= |setup.source|
    ensures log'.start == log.start && Sound(setup, log') && InStream(log'.now, taken + n, inbox)
  {
    DoIsSound(setup, log, ClientRead(n));
    log' := Do(setup, log, ClientRead(n));
    DoIsSound(setup, log', ClientSend(n));
    log' := Do(setup, log', ClientSend(n));
  }

  /** A send that fails after `sent` bytes, and the client gives up. */
  lemma ChunkBroken(setup: Setup, log: Log, taken: nat, inbox: Bytes, n: nat, sent: nat) returns (log': Log)
    requires Sound(setup, log) && InStream(log.now, taken, inbox)
    requires 1 <= n <= BUFFER_SIZE && taken + n <= |setup.source| && sent < n
    ensures log'.start == log.start && Sound(setup, log') && log'.now.link.client.phase == UploadLink.Stopped
  {
    DoIsSound(setup, log, ClientRead(n));
    log' := Do(setup, log, ClientRead(n));
    if sent > 0 {
      DoIsSound(setup, log', ClientSend(sent));
      log' := Do(setup, log', ClientSend(sent));
    }
    log' := GivenUp(setup, log');
  }

  lemma GivenUp(setup: Setup, log: Log) returns (log': Log)
    requires Sound(setup, log) && log.now.link.client.phase != UploadLink.Completed && log.now.link.client.phase != UploadLink.Stopped
    ensures log'.start == log.start && Sound(setup, log') && log'.now.link.client.phase == UploadLink.Stopped
  {
    DoIsSound(setup, log, ClientStop);
    log' := Do(setup, log, ClientStop);
  }

  // ---------- the worker ----------

  /** What is left of a connection when the worker is done: the bytes it sent of its data, the
      offset it was told, and how the machine ended. */
  ghost predicate SentPart(setup: Setup, outbox: Bytes, offset: nat, to: nat) {
    offset <= to <= |setup.source| && outbox == setup.Command() + setup.source[offset..to]
  }

  lemma SentMore(setup: Setup, outbox: Bytes, offset: nat, to: nat, n: nat)
    requires SentPart(setup, outbox, offset, to) && to + n <= |setup.source|
    ensures SentPart(setup, outbox + setup.source[to..to + n], offset, to + n)
  {
    assert setup.source[offset..to] + setup.source[to..to + n] == setup.source[offset..to + n];
  }

  /** `file.read`: at least one byte while there are any. */
  method ReadChunk(source: Bytes, taken: nat) returns (n: nat)
    requires taken <= |source|
    ensures n <= BUFFER_SIZE && taken + n <= |source| && (n == 0 <==> taken == |source|)
  {
    if taken == |source| {
      return 0;
    }
    var count: nat :| 1 <= count && count <= BUFFER_SIZE && count <= |source| - taken by {
      assert 1 <= BUFFER_SIZE && 1 <= |source| - taken;
    }
    n := count;
  }

  /** One chunk is sent, or a front part of it. */
  method SendChunk(sock: Socket, source: Bytes, ghost offset: nat, committed: nat, n: nat, ghost setup: Setup, ghost log0: Log)
      returns (sent: bool, ghost log: Log, ghost to: nat)
    requires setup.source == source && Sound(setup, log0) && InStream(log0.now, committed, sock.inbox)
    requires 1 <= n <= BUFFER_SIZE && committed + n <= |source| && SentPart(setup, sock.outbox, offset, committed)
    modifies sock`outbox, sock`failed
    ensures log.start == log0.start && Sound(setup, log) && SentPart(setup, sock.outbox, offset, to)
    ensures !sent ==> sock.failed
    ensures sent ==> to == committed + n && InStream(log.now, to, sock.inbox)
    ensures !sent ==> committed <= to < committed + n && log.now.link.client.phase == UploadLink.Stopped
  {
    var chunk := source[committed..committed + n];
    sent := SendAll(sock, chunk);
    if sent {
      to := committed + n;
      SentMore(setup, old(sock.outbox), offset, committed, n);
      log := ChunkSent(setup, log0, committed, sock.inbox, n);
    } else {
      ghost var k: nat :| k < |chunk| && sock.outbox == old(sock.outbox) + chunk[..k];
      FrontOfSlice(source, committed, n, k);
      to := committed + k;
      SentMore(setup, old(sock.outbox), offset, committed, k);
      log := ChunkBroken(setup, log0, committed, sock.inbox, n, k);
    }
  }

  datatype Loop = AtEnd | Halted(verdict: C.Verdict) | SendFailed

  /** The data loop: it looks at its task before every chunk, and goes on until everything is sent. */
  method SendData(service: TransferService, taskId: C.TaskId, sock: Socket, source: Bytes, offset: nat,
                  ghost setup: Setup, ghost log0: Log)
      returns (result: Loop, committed: nat, ghost log: Log, ghost to: nat)
    requires service.Valid() && setup.source == source && offset <= |source|
    requires Sound(setup, log0) && InStream(log0.now, offset, sock.inbox) && sock.outbox == setup.Command()
    modifies service`shutdownRequested, service.control, sock`outbox, sock`failed
    ensures service.Valid() && service.Running(C.Upload, taskId)
    ensures log.start == log0.start && Sound(setup, log)
    ensures SentPart(setup, sock.outbox, offset, to) && committed <= to && (result == SendFailed ==> to < |source|)
    ensures result == AtEnd ==> InStream(log.now, |source|, sock.inbox) && to == |source|
    ensures result == SendFailed ==> log.now.link.client.phase == UploadLink.Stopped && sock.failed
    ensures result.Halted? ==>
              && result.verdict != C.Continue && InStream(log.now, committed, sock.inbox)
              && HaltedByLook(old(service.control.history), service.control.history, C.Upload, taskId, result.verdict)
    ensures result == SendFailed ==> FailedSince(old(service.control.history), service.control.history, C.Upload, taskId)
    ensures C.Asked(C.Era(old(service.control.history), C.Upload, taskId), C.Upload, taskId) ==> result.Halted?
  {
    committed, to, log := offset, offset, log0;
    ghost var before := service.control.history;
    AtTheStart(before, C.Upload, taskId);
    assert source[offset..offset] == [];
    while true
      invariant service.Valid() && service.Running(C.Upload, taskId)
      invariant NoneFailed(before, service.control.history, C.Upload, taskId)
      invariant log.start == log0.start && Sound(setup, log) && InStream(log.now, committed, sock.inbox)
      invariant committed == to <= |source| && SentPart(setup, sock.outbox, offset, to)
      invariant committed > offset ==> !C.Asked(C.Era(before, C.Upload, taskId), C.Upload, taskId)
      decreases |source| - committed
    {
      var verdict := service.LookInLoop(C.Upload, taskId, before);
      if verdict != C.Continue {
        return Halted(verdict), committed, log, to;
      }
      var bytesRead := ReadChunk(source, committed);
      if bytesRead == 0 {
        return AtEnd, committed, log, to;
      }
      var sent;
      sent, log, to := SendChunk(sock, source, offset, committed, bytesRead, setup, log);
      if !sent {
        service.NoteFailedCall(C.Upload, taskId, before);
        return SendFailed, committed, log, to;
      }
      committed := committed + bytesRead;
    }
  }

  // ---------- the replies ----------

  function SecondLine(arriving: Bytes): Bytes {
    FirstLine(ClientLine([], arriving).rest)
  }

  /** What arrives does not begin with a READY line that the client accepts. */
  predicate Refused(arriving: Bytes) {
    ParseReadyOffset(FirstLine(arriving)).None?
  }

  /** The offset the client then goes on at: the server's, kept inside the file. */
  function OffsetTold(arriving: Bytes, size: nat): nat
    requires !Refused(arriving)
  {
    Bound(0, ParseReadyOffset(FirstLine(arriving)).value, size)
  }

  lemma CutReady(offset: nat, k: nat)
    requires offset < LLONG_LIMIT && k <= |ReadyText(offset)|
    ensures Refused(ReadyText(offset)[..k]) <==> k <= 6
  {
    var part := ReadyText(offset)[..k];
    DecimalIsClean(offset);
    CutReadyIsSmaller(offset, k);
    ClientReadsCutLine([], part);
    assert [] + part == part;
  }

  lemma CutOk(total: nat, j: nat)
    requires j <= |OkText(total)|
    ensures "OK" <= FirstLine(OkText(total)[..j]) <==> j >= 2
  {
    var part := OkText(total)[..j];
    DecimalIsClean(total);
    ClientReadsCutLine([], part);
    assert [] + part == part;
  }

  /** A connection that ends while the client waits for a reply of the server: READY is refused exactly
      when no digit of its offset has arrived, and the final OK exactly when not both its letters have. */
  lemma RefusedExactlyWhen(offset: nat, total: nat, k: nat, j: nat)
    requires offset < LLONG_LIMIT && k <= |ReadyText(offset)| && j <= |OkText(total)|
    ensures Refused(ReadyText(offset)[..k]) <==> k <= 6
    ensures var arriving := ReadyText(offset) + "\n" + OkText(total)[..j];
            !Refused(arriving) && ("OK" <= SecondLine(arriving) <==> j >= 2)
  {
    CutReady(offset, k);
    CutOk(total, j);
    ReplyRoundTrip(offset, OkText(total)[..j]);
  }

  // ---------- the negotiation ----------

  datatype Negotiated = Ready(offset: nat) | CommandLost | NoReady | NoSeek

  /** The client before it has sent anything. */
  ghost predicate AtStart(setup: Setup, w: World, inbox: Bytes) {
    w.link.client == Client(Commanding, setup.Command(), [], 0, 0, []) && w.link.down == inbox && !w.link.live
  }

  /** The command is sent and the READY line read; `seekable` is whether the file can be positioned. */
  method Negotiate(sock: Socket, source: Bytes, seekable: bool, name: Bytes, requestedOffset: nat, ghost setup: Setup, ghost log0: Log)
      returns (result: Negotiated, ghost log: Log)
    requires setup == Setup(source, name, requestedOffset, setup.room)
    requires Sound(setup, log0) && AtStart(setup, log0.now, sock.inbox) && sock.outbox == []
    modifies sock
    ensures log.start == log0.start && Sound(setup, log)
    ensures !result.Ready? ==> log.now.link.client.phase == UploadLink.Stopped
    ensures result == CommandLost ==> sock.outbox < setup.Command() && sock.failed
    ensures result != CommandLost ==> sock.outbox == setup.Command() && sock.inbox == ClientLine([], old(sock.inbox)).rest
    ensures result == NoReady <==> result != CommandLost && Refused(old(sock.inbox))
    ensures result == NoSeek <==> result != CommandLost && !Refused(old(sock.inbox)) && !seekable
    ensures result.Ready? ==>
              && result.offset == OffsetTold(old(sock.inbox), |source|)
              && if result.offset < |source| then InStream(log.now, result.offset, sock.inbox)
                 else log.now.link.client.phase == UploadLink.Completed
  {
    log := log0;
    var sent := SendAll(sock, UploadText(name, |source|, requestedOffset) + "\n");
    if !sent {
      log := GivenUp(setup, log);
      return CommandLost, log;
    }
    DoIsSound(setup, log, ClientSend(|setup.Command()|));
    log := Do(setup, log, ClientSend(|setup.Command()|));
    var readyResp := ReceiveLine(sock);
    var parsed := ParseReadyOffset(readyResp);
    if parsed.None? {
      log := LineIsHeard(setup, log, old(sock.inbox));
      return NoReady, log;
    }
    var serverOffset: nat := Bound(0, parsed.value, |source|);
    if !seekable {
      log := GivenUp(setup, log);
      return NoSeek, log;
    }
    log := LineIsHeard(setup, log, old(sock.inbox));
    result := Ready(serverOffset);
  }

  // ---------- a registered run ----------

  /** Where a run left the code. */
  datatype Exit = AtCommand | AtReady | AtSeek | AlreadyThere | InLoop | AtData | AtFinal(reply: Bytes)

  /** How a run that leaves the code here closes its task.  One that is stopped while it waits for
      a reply is a failure, even when it was asked to pause; and the final reply alone decides
      whether an upload that sent everything is Completed. */
  predicate ClosesWith(exit: Exit, status: Status) {
    match exit
    case AtReady => status == Failed
    case AtSeek => status == Failed
    case AlreadyThere => status == TransferRun.Completed
    case InLoop => status.Stopped? && Closing(status)
    case AtFinal(reply) => status == if "OK" <= reply then TransferRun.Completed else Failed
    case _ => Closing(status) && !status.Completed?
  }

  // Where the worker looks at its task before it closes it.
  predicate LooksAt(exit: Exit) {
    exit == AtCommand || exit == InLoop || exit == AtData
  }

  /** What a connection has carried when its run left the code here. */
  ghost predicate Carried(setup: Setup, arriving: Bytes, outbox: Bytes, exit: Exit) {
    if exit == AtCommand then outbox < setup.Command()
    else if exit == AtReady then outbox == setup.Command() && Refused(arriving)
    else !Refused(arriving) && CarriedData(setup, arriving, outbox, exit, OffsetTold(arriving, |setup.source|))
  }

  ghost predicate CarriedData(setup: Setup, arriving: Bytes, outbox: Bytes, exit: Exit, offset: nat) {
    && (exit == AlreadyThere || exit == AtSeek ==> outbox == setup.Command())
    && (exit == AlreadyThere ==> offset >= |setup.source|)
    && (exit == InLoop || exit == AtData || exit.AtFinal? ==> offset < |setup.source|)
    && (exit == InLoop || exit == AtData || exit.AtFinal? ==> exists to :: SentPart(setup, outbox, offset, to))
    && (exit == AtData ==> exists to: nat :: to < |setup.source| && SentPart(setup, outbox, offset, to))
    && (exit.AtFinal? ==> SentPart(setup, outbox, offset, |setup.source|) && exit.reply == SecondLine(arriving))
  }

  /** After the socket is registered: Running emitted exactly when data is going to be sent, one closing
      status, emitted last, the task out of the table, and the machine at its end, Completed exactly
      when the run reports that.  A send has failed where it is said to.  A run that is halted,
      or that a send fails for, closes with what its last look told it, a look behind the failed send.
      A run that was asked before it began ends as Failed exactly when its command is sent and READY
      refused, or its file cannot be positioned. */
  method RunRegistered(service: TransferService, taskId: C.TaskId, sock: Socket, source: Bytes, seekable: bool, name: Bytes,
                       requestedOffset: nat, ghost setup: Setup, ghost log0: Log)
      returns (ok: bool, ghost log: Log, ghost exit: Exit, ghost status: Status, ghost running: seq<Status>, ghost seen: seq<C.Op>)
    requires service.Valid() && setup == Setup(source, name, requestedOffset, setup.room)
    requires Sound(setup, log0) && AtStart(setup, log0.now, sock.inbox) && sock.outbox == []
    modifies service, service.control, sock
    ensures service.Valid() && (ok <==> status == TransferRun.Completed) && ClosesWith(exit, status)
    ensures running == if exit == InLoop || exit == AtData || exit.AtFinal? then [Running] else []
    ensures service.own == old(service.own) + [C.Cleanup(C.Upload, taskId)]
    ensures service.statuses == old(service.statuses) + running + [status]
    ensures Gone(service.control.history, C.Upload, taskId)
    ensures old(service.control.history) <= service.control.history
    ensures log.start == log0.start && Sound(setup, log)
    ensures log.now.link.client.phase == if ok then UploadLink.Completed else UploadLink.Stopped
    ensures Carried(setup, old(sock.inbox), sock.outbox, exit) && (exit == AtSeek ==> !seekable)
    ensures exit == AtCommand || exit == AtData ==> sock.failed
    ensures LooksAt(exit) ==>
              ClosesAsTold(old(service.control.history), seen, service.control.history, exit != InLoop, C.Upload, taskId, status)
    ensures C.Asked(C.Era(old(service.control.history), C.Upload, taskId), C.Upload, taskId) ==>
              && exit != AtData && !exit.AtFinal?
              && (status == Failed <==> setup.Command() <= sock.outbox && (Refused(old(sock.inbox)) || !seekable))
  {
    running, seen := [], [];
    assert service.statuses + [] == service.statuses;
    var result;
    ghost var arriving := sock.inbox;
    result, log := Negotiate(sock, source, seekable, name, requestedOffset, setup, log0);
    match result
    case CommandLost =>
      exit := AtCommand;
      ok, status, seen := service.HandleFirstFailure(C.Upload, taskId);
    case NoReady =>
      exit, status, ok := AtReady, Failed, false;
      service.CloseAsFailed(C.Upload, taskId);
    case NoSeek =>
      exit, status, ok := AtSeek, Failed, false;
      service.CloseAsFailed(C.Upload, taskId);
    case Ready(serverOffset) =>
      ok, log, exit, status, running, seen := GoOn(service, taskId, sock, source, serverOffset, setup, log, arriving);
  }

  /** The offset is agreed: there is nothing to send, or the transfer is reported and begins. */
  method GoOn(service: TransferService, taskId: C.TaskId, sock: Socket, source: Bytes, offset: nat,
              ghost setup: Setup, ghost log0: Log, ghost arriving: Bytes)
      returns (ok: bool, ghost log: Log, ghost exit: Exit, ghost status: Status, ghost running: seq<Status>, ghost seen: seq<C.Op>)
    requires service.Valid() && setup.source == source && Sound(setup, log0) && sock.outbox == setup.Command()
    requires if offset < |source| then InStream(log0.now, offset, sock.inbox) else log0.now.link.client.phase == UploadLink.Completed
    requires sock.inbox == ClientLine([], arriving).rest
    modifies service, service.control, sock
    ensures service.Valid() && (ok <==> status == TransferRun.Completed) && ClosesWith(exit, status)
    ensures running == if exit == InLoop || exit == AtData || exit.AtFinal? then [Running] else []
    ensures service.own == old(service.own) + [C.Cleanup(C.Upload, taskId)]
    ensures service.statuses == old(service.statuses) + running + [status]
    ensures Gone(service.control.history, C.Upload, taskId) && old(service.control.history) <= service.control.history
    ensures exit == AlreadyThere || exit == InLoop || exit == AtData || exit.AtFinal?
    ensures log.start == log0.start && Sound(setup, log)
    ensures log.now.link.client.phase == if ok then UploadLink.Completed else UploadLink.Stopped
    ensures CarriedData(setup, arriving, sock.outbox, exit, offset) && (exit == AtData ==> sock.failed)
    ensures LooksAt(exit) ==>
              ClosesAsTold(old(service.control.history), seen, service.control.history, exit != InLoop, C.Upload, taskId, status)
    ensures C.Asked(C.Era(old(service.control.history), C.Upload, taskId), C.Upload, taskId) ==>
              exit == AlreadyThere || exit == InLoop
  {
    running, seen, log := [], [], log0;
    assert service.statuses + [] == service.statuses;
    if offset >= |source| {
      exit, status, ok := AlreadyThere, TransferRun.Completed, true;
      service.CleanupTaskControlState(C.Upload, taskId);
      service.EmitTaskStatus(TransferRun.Completed);
    } else {
      running := [Running];
      service.EmitTaskStatus(Running);
      ok, log, exit, status, seen := Transfer(service, taskId, sock, source, offset, setup, log, arriving);
    }
  }

  /** From the first chunk to the final reply. */
  method Transfer(service: TransferService, taskId: C.TaskId, sock: Socket, source: Bytes, offset: nat,
                  ghost setup: Setup, ghost log0: Log, ghost arriving: Bytes)
      returns (ok: bool, ghost log: Log, ghost exit: Exit, ghost status: Status, ghost seen: seq<C.Op>)
    requires service.Valid() && setup.source == source && offset < |source|
    requires Sound(setup, log0) && InStream(log0.now, offset, sock.inbox) && sock.outbox == setup.Command()
    requires sock.inbox == ClientLine([], arriving).rest
    modifies service, service.control, sock
    ensures service.Valid() && (ok <==> status == TransferRun.Completed) && ClosesWith(exit, status)
    ensures service.ClosedWith(C.Upload, taskId, status) && (exit == InLoop || exit == AtData || exit.AtFinal?)
    ensures log.start == log0.start && Sound(setup, log)
    ensures log.now.link.client.phase == if ok then UploadLink.Completed else UploadLink.Stopped
    ensures CarriedData(setup, arriving, sock.outbox, exit, offset) && (exit == AtData ==> sock.failed)
    ensures LooksAt(exit) ==>
              ClosesAsTold(old(service.control.history), seen, service.control.history, exit != InLoop, C.Upload, taskId, status)
    ensures C.Asked(C.Era(old(service.control.history), C.Upload, taskId), C.Upload, taskId) ==> exit == InLoop
  {
    var result, committed;
    ghost var to;
    result, committed, log, to := SendData(service, taskId, sock, source, offset, setup, log0);
    seen := service.control.history;
    match result
    case Halted(verdict) =>
      exit, status := InLoop, TransferRun.Stopped(verdict);
      log := GivenUp(setup, log);
      ok := service.FinishStoppedTransfer(C.Upload, taskId, verdict);
    case SendFailed =>
      exit := AtData;
      ok, status, seen := service.HandleSocketSendFailure(C.Upload, taskId, old(service.control.history));
    case AtEnd =>
      ok, log, exit, status := FinalReply(service, taskId, sock, setup, log, arriving);
  }

  /** All data is sent: the final reply alone decides. */
  method FinalReply(service: TransferService, taskId: C.TaskId, sock: Socket, ghost setup: Setup, ghost log0: Log, ghost arriving: Bytes)
      returns (ok: bool, ghost log: Log, ghost exit: Exit, ghost status: Status)
    requires service.Valid() && Sound(setup, log0) && InStream(log0.now, |setup.source|, sock.inbox)
    requires sock.inbox == ClientLine([], arriving).rest
    modifies service, service.control, sock`inbox, sock`aborted
    ensures service.Valid() && (ok <==> status == TransferRun.Completed) && exit == AtFinal(SecondLine(arriving))
    ensures ClosesWith(exit, status) && service.ClosedWith(C.Upload, taskId, status)
    ensures log.start == log0.start && Sound(setup, log)
    ensures log.now.link.client.phase == if ok then UploadLink.Completed else UploadLink.Stopped
  {
    DoIsSound(setup, log0, ClientAtEnd);
    log := Do(setup, log0, ClientAtEnd);
    ghost var inbox := sock.inbox;
    var finalResp := ReceiveLine(sock);
    log := LineIsHeard(setup, log, inbox);
    service.CleanupTaskControlState(C.Upload, taskId);
    ok := "OK" <= finalResp;
    exit := AtFinal(finalResp);
    if ok {
      status := TransferRun.Completed;
      service.EmitTaskStatus(TransferRun.Completed);
    } else {
      status := Failed;
      service.EmitTransferFailure();
    }
  }

  // ---------- the whole run ----------

  /** What became of a call: it ended before its socket was registered, or a connection carried
      `outbox`, `before` was the history of the table right behind the registration, and `seen` that
      of the worker's last look. */
  datatype Run = Unregistered | Run(setup: Setup, outbox: Bytes, exit: Exit, before: seq<C.Op>, seen: seq<C.Op>)

  /** A registered run that looked at its task before it closed it has closed as the last request says
      that was recorded when it looked, behind the failed send if there was one. */
  ghost predicate Obeyed(run: Run, history: seq<C.Op>, taskId: C.TaskId, status: Status)
    requires run.Run?
  {
    LooksAt(run.exit) ==>
      && ClosesAsTold(run.before, run.seen, history, run.exit != InLoop, C.Upload, taskId, status)
      && ClosesAsAsked(run.seen, C.Upload, taskId, status)
  }

  lemma ObeysWhatWasAsked(run: Run, history: seq<C.Op>, taskId: C.TaskId, status: Status)
    requires run.Run? && C.Known(C.Era(run.before, C.Upload, taskId), C.Upload, taskId)
    requires LooksAt(run.exit) ==>
               ClosesAsTold(run.before, run.seen, history, run.exit != InLoop, C.Upload, taskId, status)
    ensures Obeyed(run, history, taskId, status)
  {
    if LooksAt(run.exit) {
      ToldAsAsked(run.before, run.seen, C.Upload, taskId);
    }
  }

  /** A registered run has left the table again, its history goes back to its own registration, and it
      closed with what was asked. */
  ghost predicate Closed(service: TransferService, taskId: C.TaskId, handle: int, status: Status, run: Run, own: seq<C.Op>, history: seq<C.Op>)
    requires run.Run?
    reads service, service.control
  {
    && Entered(run.before, service.own, own, C.Upload, taskId, handle)
    && Gone(service.control.history, C.Upload, taskId)
    && history <= run.before <= service.control.history && Obeyed(run, service.control.history, taskId, status)
  }

  /** `fileUploadResumable` over the connection `sock`, which is the descriptor `handle`, negative when
      connecting fails: nothing at all after a shutdown; otherwise exactly one closing status, emitted
      last, and Completed exactly when the call succeeds, and Running before it exactly when data is
      going to be sent.  Unless it has nothing to send from or over it registers its socket.  A run that
      did has left the table again, closes with what was asked, and has sent a front part of what the
      protocol prescribes, all of it unless a send has failed. */
  method FileUploadResumable(service: TransferService, taskId: C.TaskId, endpointOk: bool, file: Option<Bytes>,
                             seekable: bool, name: Bytes, startOffset: int, sock: Socket, handle: int, ghost start: World)
      returns (ok: bool, ghost status: Status, ghost running: seq<Status>, ghost run: Run)
    requires service.Valid() && sock.outbox == []
    modifies service, service.control, sock
    ensures service.Valid()
    ensures old(service.shutdownRequested) ==> !ok && service.statuses == old(service.statuses)
    ensures run == Unregistered <==> old(service.shutdownRequested) || !endpointOk || file.None? || handle < 0
    ensures !old(service.shutdownRequested) ==>
              && Closing(status) && (ok <==> status == TransferRun.Completed)
              && service.statuses == old(service.statuses) + running + [status]
    ensures running == if run.Run? && (run.exit == InLoop || run.exit == AtData || run.exit.AtFinal?) then [Running] else []
    ensures run == Unregistered ==>
              && service.own == old(service.own) && service.control.history == old(service.control.history)
              && !ok && status == Failed && sock.outbox == []
    ensures run.Run? ==> Closed(service, taskId, handle, status, run, old(service.own), old(service.control.history))
    ensures run.Run? ==>
              && file.Some? && run.setup == Setup(file.value, name, ClampUploadOffset(startOffset, |file.value|), 1)
              && run.outbox == sock.outbox && Carried(run.setup, old(sock.inbox), run.outbox, run.exit) && ClosesWith(run.exit, status)
    ensures run.Run? && run.exit == AtSeek ==> !seekable
    ensures run.Run? && (run.exit == AtCommand || run.exit == AtData) ==> sock.failed
  {
    running, run, status, ok := [], Unregistered, Failed, false;
    if service.shutdownRequested {
      return;
    }
    if !endpointOk || file.None? {
      service.EmitTransferFailure();
      return;
    }
    if handle < 0 {
      service.EmitTransferFailure();
      return;
    }
    ok, status, running, run := SendFile(service, taskId, file.value, seekable, name,
                                         ClampUploadOffset(startOffset, |file.value|), sock, handle, start);
  }

  /** The connection of an upload, from its registration on. */
  method SendFile(service: TransferService, taskId: C.TaskId, source: Bytes, seekable: bool, name: Bytes, requestedOffset: nat,
                  sock: Socket, handle: int, ghost start: World)
      returns (ok: bool, ghost status: Status, ghost running: seq<Status>, ghost run: Run)
    requires service.Valid() && sock.outbox == []
    modifies service, service.control, sock
    ensures service.Valid() && Closing(status) && run.Run?
    ensures running == if run.exit == InLoop || run.exit == AtData || run.exit.AtFinal? then [Running] else []
    ensures (ok <==> status == TransferRun.Completed) && service.statuses == old(service.statuses) + running + [status]
    ensures run.setup == Setup(source, name, requestedOffset, 1) && (run.exit == AtSeek ==> !seekable)
    ensures run.outbox == sock.outbox && Carried(run.setup, old(sock.inbox), run.outbox, run.exit) && ClosesWith(run.exit, status)
    ensures run.exit == AtCommand || run.exit == AtData ==> sock.failed
    ensures Closed(service, taskId, handle, status, run, old(service.own), old(service.control.history))
  {
    service.RegisterSocket(C.Upload, taskId, handle);
    ghost var setup, before := Setup(source, name, requestedOffset, 1), service.control.history;
    ghost var begun := Link(Client(Commanding, setup.Command(), [], 0, 0, []), start.link.server, start.link.up, sock.inbox, false);
    ghost var log := Log(World(start.file, begun), [], World(start.file, begun));
    ghost var exit, seen;
    ok, log, exit, status, running, seen := RunRegistered(service, taskId, sock, source, seekable, name, requestedOffset, setup, log);
    run := Run(setup, sock.outbox, exit, before, seen);
    ObeysWhatWasAsked(run, service.control.history, taskId, status);
    assert old(service.own) + [C.Register(C.Upload, taskId, handle)] + [C.Cleanup(C.Upload, taskId)]
        == old(service.own) + [C.Register(C.Upload, taskId, handle), C.Cleanup(C.Upload, taskId)];
  }
}
