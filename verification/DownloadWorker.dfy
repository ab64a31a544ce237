/** `fileDownloadResumable` as a worker runs it, that its range connection is a run of the machine of
    module DownloadLink, and how it closes its task. */
module DownloadWorker {
  import opened Text
  import opened Sockets
  import opened WireFormat
  import opened RequestPolicy
  import opened DownloadLink
  import opened DownloadSessions
  import opened Disks
  import C = ControlState
  import opened TransferRun

  // ---------- the client's steps ----------

  /** The client is between two rounds of its receive loop: its count, its position and the length
      of the file agree. */
  ghost predicate InRange(w: World, content: Bytes, inbox: Bytes) {
    var c := w.link.client;
    && c.phase == Receiving && c.buf == [] && c.actual == c.pos == |content|
    && w.file == content && w.link.down == inbox && !w.link.live
  }

  lemma {:induction false} LineIsHeard(setup: Setup, worlds: seq<World>, inbox: Bytes) returns (longer: seq<World>)
    requires Sound(setup, worlds) && Now(worlds).link.down == inbox && !Now(worlds).link.live
    requires Now(worlds).link.client.phase == AwaitingSize
    ensures Sound(setup, longer) && worlds <= longer && Now(longer).file == Now(worlds).file
    ensures var read, l := ClientLine(Now(worlds).link.client.line, inbox), Now(longer).link;
            && l.down == read.rest && !l.live
            && if "ERROR" <= read.text then l.client.phase == DownloadLink.Stopped
               else l.client.phase == Confirming && l.client.out == "OK\n" && l.client.buf == Now(worlds).link.client.buf
    decreases |inbox|
  {
    if inbox == [] {
      longer := Do(setup, worlds, ClientLineEnd);
    } else {
      longer := Do(setup, worlds, ClientByte);
      if inbox[0] != '\n' {
        longer := LineIsHeard(setup, longer, inbox[1..]);
      }
    }
  }

  lemma GivenUp(setup: Setup, worlds: seq<World>) returns (longer: seq<World>)
    requires Sound(setup, worlds)
    requires Now(worlds).link.client.phase != DownloadLink.Completed && Now(worlds).link.client.phase != DownloadLink.Stopped
    ensures Sound(setup, longer) && worlds <= longer && Now(longer).link.client.phase == DownloadLink.Stopped
    ensures Now(longer).file == Now(worlds).file
  {
    longer := Do(setup, worlds, ClientStop);
  }

  /** One whole round: receive, write, measure. */
  lemma Round(setup: Setup, worlds: seq<World>, content: Bytes, inbox: Bytes, n: nat) returns (longer: seq<World>)
    requires Sound(setup, worlds) && InRange(Now(worlds), content, inbox)
    requires 1 <= n <= |inbox| && n <= BUFFER_SIZE && |content| + n <= setup.size
    ensures Sound(setup, longer) && worlds <= longer && InRange(Now(longer), content + inbox[..n], inbox[n..])
  {
    longer := Do(setup, worlds, ClientRecv(n));
    assert Now(longer).link.client.buf[..n] == inbox[..n];
    longer := Do(setup, longer, ClientWrite(n));
    assert Now(longer).file == content + inbox[..n];
    longer := Do(setup, longer, ClientMeasure);
  }

  /** A round that ends in a failed write of which `written` bytes took effect. */
  lemma BrokenRound(setup: Setup, worlds: seq<World>, content: Bytes, inbox: Bytes, n: nat, written: nat) returns (longer: seq<World>)
    requires Sound(setup, worlds) && InRange(Now(worlds), content, inbox)
    requires 1 <= n <= |inbox| && n <= BUFFER_SIZE && |content| + n <= setup.size && written <= n
    ensures Sound(setup, longer) && worlds <= longer && Now(longer).link.client.phase == DownloadLink.Stopped
    ensures Now(longer).file == content + inbox[..written]
  {
    longer := Do(setup, worlds, ClientRecv(n));
    if written > 0 {
      assert Now(longer).link.client.buf[..written] == inbox[..written];
      longer := Do(setup, longer, ClientWrite(written));
      assert Now(longer).file == content + inbox[..written];
    }
    longer := GivenUp(setup, longer);
  }

  // ---------- the receive loop ----------

  /** The file has grown by the first k bytes that arrived. */
  ghost predicate Lengthened(before: Bytes, arriving: Bytes, after: Bytes, left: Bytes, k: nat) {
    k <= |arriving| && after == before + arriving[..k] && left == arriving[k..]
  }

  lemma TakenTwice(front: Bytes, bytes: Bytes, k: nat, n: nat)
    requires k + n <= |bytes|
    ensures front + bytes[..k] + bytes[k..][..n] == front + bytes[..k + n]
  {
    var all := front + bytes[..k] + bytes[k..][..n];
    assert |all| == |front + bytes[..k + n]|;
    assert forall i :: 0 <= i < |all| ==> all[i] == (front + bytes[..k + n])[i];
  }

  lemma LengthenedByPart(c0: Bytes, i0: Bytes, c1: Bytes, i1: Bytes, k: nat, n: nat)
    requires Lengthened(c0, i0, c1, i1, k) && n <= |i1|
    ensures k + n <= |i0| && c1 + i1[..n] == c0 + i0[..k + n]
  {
    TakenTwice(c0, i0, k, n);
  }

  lemma LengthenedTwice(c0: Bytes, i0: Bytes, c1: Bytes, i1: Bytes, c2: Bytes, i2: Bytes, k: nat, n: nat)
    requires Lengthened(c0, i0, c1, i1, k) && Lengthened(c1, i1, c2, i2, n)
    ensures Lengthened(c0, i0, c2, i2, k + n)
  {
    LengthenedByPart(c0, i0, c1, i1, k, n);
  }

  datatype Loop = Filled | Halted(verdict: C.Verdict) | ReceiveFailed | WriteFailed

  /** One pass behind the look at the task. */
  method ReceiveOnce(sock: Socket, disk: Disk, fileSize: nat, actual: nat, ghost setup: Setup, ghost worlds: seq<World>)
      returns (result: Loop, actual': nat, ghost longer: seq<World>, ghost n: nat)
    requires disk.present && Sound(setup, worlds) && InRange(Now(worlds), disk.content, sock.inbox)
    requires setup.size == fileSize && actual == |disk.content| < fileSize
    modifies sock`inbox, sock`aborted, disk`content, disk`failed
    ensures Sound(setup, longer) && worlds <= longer && Now(longer).file == disk.content && !result.Halted?
    ensures result == Filled ==> n > 0 && actual' == actual + n <= fileSize && InRange(Now(longer), disk.content, sock.inbox)
    ensures result == Filled ==> Lengthened(old(disk.content), old(sock.inbox), disk.content, sock.inbox, n)
    ensures result == ReceiveFailed ==> n == 0 && old(sock.inbox) == []
    ensures result != Filled ==> Now(longer).link.client.phase == DownloadLink.Stopped
    ensures n <= |old(sock.inbox)| && disk.content == old(disk.content) + old(sock.inbox)[..n] && |disk.content| <= fileSize
    ensures result == WriteFailed ==> disk.failed
  {
    ghost var content, inbox := disk.content, sock.inbox;
    var bytesToRead := Min(BUFFER_SIZE, fileSize - actual);
    var bytesRead, buffer := sock.Recv(bytesToRead);
    actual', n := actual, 0;
    if bytesRead <= 0 {
      longer := GivenUp(setup, worlds);
      return ReceiveFailed, actual', longer, n;
    }
    assert buffer == inbox[..bytesRead] && sock.inbox == inbox[bytesRead..];
    var written, count := disk.Write(actual, buffer);
    assert buffer[..count] == inbox[..count];
    WriteAtEnd(content, buffer[..count]);
    if !written {
      longer := BrokenRound(setup, worlds, content, inbox, bytesRead, count);
      return WriteFailed, actual', longer, count;
    }
    longer := Round(setup, worlds, content, inbox, bytesRead);
    actual' := Min(|disk.content|, fileSize);
    n := bytesRead;
    result := Filled;
  }

  /** The same, counted from the start of the loop. */
  method ReceiveMore(sock: Socket, disk: Disk, fileSize: nat, actual: nat, ghost setup: Setup, ghost worlds: seq<World>,
                     ghost content: Bytes, ghost inbox: Bytes, ghost k: nat)
      returns (result: Loop, actual': nat, ghost longer: seq<World>, ghost k': nat)
    requires disk.present && Sound(setup, worlds) && InRange(Now(worlds), disk.content, sock.inbox)
    requires setup.size == fileSize && actual == |disk.content| < fileSize
    requires Lengthened(content, inbox, disk.content, sock.inbox, k)
    modifies sock`inbox, sock`aborted, disk`content, disk`failed
    ensures Sound(setup, longer) && worlds <= longer && Now(longer).file == disk.content && !result.Halted?
    ensures k' <= |inbox| && disk.content == content + inbox[..k'] && |disk.content| <= fileSize
    ensures result == WriteFailed ==> disk.failed
    ensures result == Filled ==>
              && actual < actual' == |disk.content| <= fileSize && InRange(Now(longer), disk.content, sock.inbox)
              && Lengthened(content, inbox, disk.content, sock.inbox, k')
    ensures result != Filled ==> Now(longer).link.client.phase == DownloadLink.Stopped
    ensures result == ReceiveFailed ==> k' == |inbox|
  {
    ghost var n, c1, i1 := 0, disk.content, sock.inbox;
    result, actual', longer, n := ReceiveOnce(sock, disk, fileSize, actual, setup, worlds);
    LengthenedByPart(content, inbox, c1, i1, k, n);
    k' := k + n;
    if result == Filled {
      LengthenedTwice(content, inbox, c1, i1, disk.content, sock.inbox, k, n);
    }
  }

  /** The loop looks at its task before every portion.  It is halted only by a look, it ends in a failure
      to receive only when a receive has failed since its last look, and what it has received is in the
      file however it ends. */
  method ReceiveLoop(service: TransferService, taskId: C.TaskId, sock: Socket, disk: Disk, fileSize: nat, offset: nat,
                     ghost setup: Setup, ghost worlds0: seq<World>)
      returns (result: Loop, ghost worlds: seq<World>, ghost k: nat)
    requires service.Valid() && disk.present && setup.size == fileSize && offset == |disk.content| <= fileSize
    requires Sound(setup, worlds0) && InRange(Now(worlds0), disk.content, sock.inbox)
    modifies service`shutdownRequested, service.control, sock`inbox, sock`aborted, disk`content, disk`failed
    ensures service.Valid() && service.Running(C.Download, taskId)
    ensures Sound(setup, worlds) && worlds0 <= worlds && Now(worlds).file == disk.content
    ensures k <= |old(sock.inbox)| && disk.content == old(disk.content) + old(sock.inbox)[..k] && |disk.content| <= fileSize
    ensures result == Filled ==> |disk.content| == fileSize
    ensures result == Filled || result.Halted? ==> InRange(Now(worlds), disk.content, sock.inbox)
    ensures result == ReceiveFailed || result == WriteFailed ==> Now(worlds).link.client.phase == DownloadLink.Stopped
    ensures result == ReceiveFailed ==>
              k == |old(sock.inbox)| && FailedSince(old(service.control.history), service.control.history, C.Download, taskId)
    ensures result == WriteFailed ==> disk.failed
    ensures result.Halted? ==>
              && result.verdict != C.Continue
              && HaltedByLook(old(service.control.history), service.control.history, C.Download, taskId, result.verdict)
    ensures C.Asked(C.Era(old(service.control.history), C.Download, taskId), C.Download, taskId) ==>
              result.Halted? || offset == fileSize
  {
    var actual := offset;
    worlds, k := worlds0, 0;
    ghost var content, inbox, before := disk.content, sock.inbox, service.control.history;
    AtTheStart(before, C.Download, taskId);
    while actual < fileSize
      invariant service.Valid() && service.Running(C.Download, taskId)
      invariant NoneFailed(before, service.control.history, C.Download, taskId)
      invariant Sound(setup, worlds) && worlds0 <= worlds && InRange(Now(worlds), disk.content, sock.inbox)
      invariant actual == |disk.content| <= fileSize && Lengthened(content, inbox, disk.content, sock.inbox, k)
      invariant actual > offset ==> !C.Asked(C.Era(before, C.Download, taskId), C.Download, taskId)
      decreases fileSize - actual
    {
      var verdict := service.LookInLoop(C.Download, taskId, before);
      if verdict != C.Continue {
        return Halted(verdict), worlds, k;
      }
      result, actual, worlds, k := ReceiveMore(sock, disk, fileSize, actual, setup, worlds, content, inbox, k);
      if result == ReceiveFailed {
        service.NoteFailedCall(C.Download, taskId, before);
      }
      if result != Filled {
        return;
      }
    }
    result := Filled;
  }

  // ---------- the range connection ----------

  /** Where a run left the code. */
  datatype Exit =
    | NotConnected | AtQuery | Empty | AlreadyWhole | AtReconnect
    | AtCommand | AtSizeLine | AtConfirm | AtOpen | InLoop | AtReceive | AtWrite | AtEnd

  // Where a run leaves that has begun to receive data.
  predicate Receives(exit: Exit) {
    exit.InLoop? || exit.AtReceive? || exit.AtWrite? || exit.AtEnd?
  }

  // Where a run leaves that has registered its socket.
  predicate Registered(exit: Exit) {
    exit.AtCommand? || exit.AtSizeLine? || exit.AtConfirm? || exit.AtOpen? || Receives(exit)
  }

  // Where the worker looks at its task before it closes it.
  predicate LooksAt(exit: Exit) {
    exit == InLoop || exit == AtReceive
  }

  /** How a run that leaves the code here closes its task.  While it waits for the size lines or
      asks for the range every problem is a failure, even when the task was asked to pause. */
  predicate ClosesWith(exit: Exit, status: Status) {
    match exit
    case Empty => status == TransferRun.Completed
    case AlreadyWhole => status == TransferRun.Completed
    case AtEnd => status == TransferRun.Completed
    case InLoop => status.Stopped? && Closing(status)
    case AtReceive => Closing(status) && !status.Completed?
    case _ => status == Failed
  }

  lemma ClosesProperly(exit: Exit, status: Status)
    requires Registered(exit) && ClosesWith(exit, status)
    ensures Closing(status) && (exit == AtEnd <==> status == TransferRun.Completed)
  {
  }

  /** What the range connection has carried when its run left the code here. */
  ghost predicate Carried(setup: Setup, arriving: Bytes, outbox: Bytes, exit: Exit)
    requires setup.size > 0
  {
    if exit == AtCommand then outbox < setup.Request()
    else if exit == AtSizeLine then outbox == setup.Request() && "ERROR" <= FirstLine(arriving)
    else
      && !("ERROR" <= FirstLine(arriving)) && setup.Request() <= outbox
      && if exit == AtConfirm then outbox < setup.Request() + "OK\n" else outbox == setup.Request() + "OK\n"
  }

  /** What it has made of the target: nothing, or the front part up to the offset is continued with
      what arrived behind the size line. */
  ghost predicate Left(setup: Setup, arriving: Bytes, exit: Exit, before: Bytes, after: Bytes) {
    if !Receives(exit) then after == before
    else
      && setup.start <= |before| && |after| <= setup.size && (exit == AtEnd ==> |after| == setup.size)
      && (exit == AtReceive ==> after == before[..setup.start] + ClientLine([], arriving).rest)
      && exists k :: 0 <= k <= |ClientLine([], arriving).rest| && after == before[..setup.start] + ClientLine([], arriving).rest[..k]
  }

  /** The client of a range connection before it has sent anything. */
  ghost predicate AtStart(setup: Setup, w: World, content: Bytes, inbox: Bytes)
    requires setup.size > 0
  {
    w.link.client == Client(Commanding, setup.Request(), [], 0, 0, [], []) && w.file == content && w.link.down == inbox && !w.link.live
  }

  /** The command of the range connection, and the size line it is answered with. */
  method RequestRange(sock: Socket, name: Bytes, offset: nat, fileSize: nat, ghost content: Bytes, ghost setup: Setup, ghost worlds0: seq<World>)
      returns (exit: Exit, ghost worlds: seq<World>)
    requires 0 < fileSize && setup == Setup(setup.remote, name, fileSize, offset, setup.readOnly, setup.room)
    requires Sound(setup, worlds0) && AtStart(setup, Now(worlds0), content, sock.inbox) && sock.outbox == []
    modifies sock
    ensures Sound(setup, worlds) && worlds0 <= worlds && Now(worlds).file == content
    ensures exit == AtEnd || exit == AtCommand || exit == AtSizeLine
    ensures exit != AtEnd ==> Now(worlds).link.client.phase == DownloadLink.Stopped && Carried(setup, old(sock.inbox), sock.outbox, exit)
    ensures exit == AtCommand ==> sock.failed
    ensures exit == AtEnd ==>
              && sock.outbox == setup.Request() && sock.inbox == ClientLine([], old(sock.inbox)).rest
              && !("ERROR" <= FirstLine(old(sock.inbox))) && AtConfirmation(Now(worlds), sock.inbox)
  {
    worlds := worlds0;
    var sent := SendAll(sock, RangeText(name, offset, fileSize - 1) + "\n");
    if !sent {
      worlds := GivenUp(setup, worlds);
      return AtCommand, worlds;
    }
    worlds := Do(setup, worlds, ClientSend(|setup.Request()|));
    var sizeResp2 := ReceiveLine(sock);
    worlds := LineIsHeard(setup, worlds, old(sock.inbox));
    exit := if "ERROR" <= sizeResp2 then AtSizeLine else AtEnd;
  }

  ghost predicate AtConfirmation(w: World, inbox: Bytes) {
    var c := w.link.client;
    c.phase == Confirming && c.out == "OK\n" && c.buf == [] && w.link.down == inbox && !w.link.live
  }

  /** Asking for the range, confirming it, and opening the target, which is then as long as the offset. */
  method AskForRange(sock: Socket, disk: Disk, name: Bytes, offset: nat, fileSize: nat, ghost setup: Setup, ghost worlds0: seq<World>)
      returns (exit: Exit, ghost worlds: seq<World>)
    requires setup == Setup(setup.remote, name, fileSize, offset, setup.readOnly, setup.room) && 0 < fileSize
    requires disk.Valid() && offset == ResolveDownloadOffset(|disk.content|, fileSize) < fileSize
    requires Sound(setup, worlds0) && AtStart(setup, Now(worlds0), disk.content, sock.inbox) && sock.outbox == []
    modifies sock, disk
    ensures disk.Valid() && Sound(setup, worlds) && worlds0 <= worlds && Now(worlds).file == disk.content
    ensures Carried(setup, old(sock.inbox), sock.outbox, exit)
    ensures exit == AtEnd || exit == AtOpen <==> sock.outbox == setup.Request() + "OK\n"
    ensures exit == AtEnd ==>
              && disk.present && |disk.content| == offset && offset <= |old(disk.content)| && disk.content == old(disk.content)[..offset]
              && InRange(Now(worlds), disk.content, sock.inbox) && sock.inbox == ClientLine([], old(sock.inbox)).rest
    ensures (exit == AtOpen ==> disk.failed) && (exit == AtCommand || exit == AtConfirm ==> sock.failed)
    ensures exit != AtEnd ==> disk.content == old(disk.content) && Now(worlds).link.client.phase == DownloadLink.Stopped
    ensures exit == AtEnd || exit == AtCommand || exit == AtSizeLine || exit == AtConfirm || exit == AtOpen
  {
    exit, worlds := RequestRange(sock, name, offset, fileSize, disk.content, setup, worlds0);
    if exit != AtEnd {
      return;
    }
    var sent := SendAll(sock, "OK\n");
    if !sent {
      worlds := GivenUp(setup, worlds);
      return AtConfirm, worlds;
    }
    worlds := Do(setup, worlds, ClientSend(3));
    exit, worlds := OpenTarget(disk, offset, setup, worlds, sock.inbox);
  }

  method OpenTarget(disk: Disk, offset: nat, ghost setup: Setup, ghost worlds0: seq<World>, ghost inbox: Bytes)
      returns (exit: Exit, ghost worlds: seq<World>)
    requires setup.start == offset && disk.Valid() && (offset > 0 ==> offset == |disk.content|)
    requires Sound(setup, worlds0) && Now(worlds0).link.client.phase == DownloadLink.Opening && Now(worlds0).link.client.buf == []
    requires Now(worlds0).file == disk.content && Now(worlds0).link.down == inbox && !Now(worlds0).link.live
    modifies disk
    ensures disk.Valid() && Sound(setup, worlds) && worlds0 <= worlds && Now(worlds).file == disk.content
    ensures exit == AtEnd ==> disk.present && InRange(Now(worlds), disk.content, inbox) && |disk.content| == offset
    ensures exit == AtEnd ==> offset <= |old(disk.content)| && disk.content == old(disk.content)[..offset]
    ensures exit == AtOpen ==> disk.failed
    ensures exit != AtEnd ==> exit == AtOpen && Now(worlds).link.client.phase == DownloadLink.Stopped && disk.content == old(disk.content)
  {
    worlds := worlds0;
    var ok := disk.Open(offset == 0);
    var sought := false;
    if ok {
      sought := disk.Seek(offset);
    }
    if !sought {
      worlds := GivenUp(setup, worlds);
      return AtOpen, worlds;
    }
    worlds := Do(setup, worlds, ClientOpen);
    exit := AtEnd;
  }

  /** How a registered run has ended: its status, its connection and its target. */
  ghost predicate Ended(setup: Setup, arriving: Bytes, outbox: Bytes, exit: Exit, before: Bytes, after: Bytes, status: Status)
    requires setup.size > 0
  {
    && Registered(exit) && ClosesWith(exit, status)
    && Carried(setup, arriving, outbox, exit) && Left(setup, arriving, exit, before, after)
  }

  lemma EndedEarly(setup: Setup, arriving: Bytes, outbox: Bytes, exit: Exit, content: Bytes)
    requires setup.size > 0 && (exit == AtCommand || exit == AtSizeLine || exit == AtConfirm || exit == AtOpen)
    requires Carried(setup, arriving, outbox, exit)
    ensures Ended(setup, arriving, outbox, exit, content, content, Failed)
  {
  }

  lemma EndedInLoop(setup: Setup, arriving: Bytes, outbox: Bytes, exit: Exit, before: Bytes, after: Bytes, status: Status)
    requires setup.size > 0 && Receives(exit) && ClosesWith(exit, status)
    requires Carried(setup, arriving, outbox, AtEnd) && Left(setup, arriving, exit, before, after)
    ensures Ended(setup, arriving, outbox, exit, before, after, status)
  {
  }

  /** A run that has not failed to receive is Failed exactly when it never came to receive. */
  lemma FailedExactlyWhen(setup: Setup, arriving: Bytes, outbox: Bytes, exit: Exit, before: Bytes, after: Bytes, status: Status)
    requires setup.size > 0 && Ended(setup, arriving, outbox, exit, before, after, status) && (Receives(exit) ==> exit == InLoop)
    ensures status != Failed <==> outbox == setup.Request() + "OK\n" && exit != AtOpen
  {
  }

  /** After the socket is registered: one closing status, emitted last, the task out of the table,
      what arrived in the file, and the machine at its end, Completed exactly when the run reports it.
      A run that is halted, or that a receive fails for, closes with what its last look told it, a look
      behind the failed receive; and only a failing call on the target ends it otherwise once it
      receives.  A run that was asked before it began ends as Failed exactly when the range could not be
      asked for and confirmed, or the target not opened. */
  method RunRegistered(service: TransferService, taskId: C.TaskId, sock: Socket, disk: Disk, name: Bytes,
                       offset: nat, fileSize: nat, ghost setup: Setup, ghost worlds0: seq<World>)
      returns (ok: bool, ghost worlds: seq<World>, exit: Exit, ghost status: Status, ghost seen: seq<C.Op>)
    requires service.Valid() && setup == Setup(setup.remote, name, fileSize, offset, setup.readOnly, setup.room) && 0 < fileSize
    requires disk.Valid() && offset == ResolveDownloadOffset(|disk.content|, fileSize) < fileSize
    requires Sound(setup, worlds0) && AtStart(setup, Now(worlds0), disk.content, sock.inbox) && sock.outbox == []
    modifies service, service.control, sock, disk
    ensures service.Valid() && disk.Valid() && (ok <==> exit == AtEnd) && service.ClosedWith(C.Download, taskId, status)
    ensures Ended(setup, old(sock.inbox), sock.outbox, exit, old(disk.content), disk.content, status)
    ensures Sound(setup, worlds) && worlds0 <= worlds && Now(worlds).file == disk.content
    ensures Now(worlds).link.client.phase == if ok then DownloadLink.Completed else DownloadLink.Stopped
    ensures LooksAt(exit) ==>
              ClosesAsTold(old(service.control.history), seen, service.control.history, exit != InLoop, C.Download, taskId, status)
    ensures exit == AtOpen || exit == AtWrite ==> disk.failed
    ensures exit == AtCommand || exit == AtConfirm ==> sock.failed
    ensures C.Asked(C.Era(old(service.control.history), C.Download, taskId), C.Download, taskId) ==>
              (status != Failed <==> sock.outbox == setup.Request() + "OK\n" && exit != AtOpen)
  {
    seen := [];
    ghost var arriving, before := sock.inbox, disk.content;
    exit, worlds := AskOrClose(service, taskId, sock, disk, name, offset, fileSize, setup, worlds0);
    if exit != AtEnd {
      status, ok := Failed, false;
      return;
    }
    ok, worlds, exit, status, seen := ReceiveFile(service, taskId, sock, disk, fileSize, offset, setup, worlds, arriving, before);
    EndedInLoop(setup, arriving, sock.outbox, exit, before, disk.content, status);
    if exit == InLoop {
      FailedExactlyWhen(setup, arriving, sock.outbox, exit, before, disk.content, status);
    }
  }

  /** The range is asked for and confirmed and the target opened, or the task closed as failed. */
  method AskOrClose(service: TransferService, taskId: C.TaskId, sock: Socket, disk: Disk, name: Bytes,
                    offset: nat, fileSize: nat, ghost setup: Setup, ghost worlds0: seq<World>)
      returns (exit: Exit, ghost worlds: seq<World>)
    requires service.Valid() && setup == Setup(setup.remote, name, fileSize, offset, setup.readOnly, setup.room) && 0 < fileSize
    requires disk.Valid() && offset == ResolveDownloadOffset(|disk.content|, fileSize) < fileSize
    requires Sound(setup, worlds0) && AtStart(setup, Now(worlds0), disk.content, sock.inbox) && sock.outbox == []
    modifies service, service.control, sock, disk
    ensures service.Valid() && disk.Valid() && Sound(setup, worlds) && worlds0 <= worlds && Now(worlds).file == disk.content
    ensures exit == AtEnd ==>
              && service.own == old(service.own) && service.statuses == old(service.statuses)
              && service.control.history == old(service.control.history)
              && disk.present && |disk.content| == offset && offset <= |old(disk.content)| && disk.content == old(disk.content)[..offset]
              && InRange(Now(worlds), disk.content, sock.inbox) && sock.inbox == ClientLine([], old(sock.inbox)).rest
              && Carried(setup, old(sock.inbox), sock.outbox, AtEnd)
    ensures exit != AtEnd ==>
              && !LooksAt(exit) && service.ClosedWith(C.Download, taskId, Failed)
              && Ended(setup, old(sock.inbox), sock.outbox, exit, old(disk.content), disk.content, Failed)
              && !(sock.outbox == setup.Request() + "OK\n" && exit != AtOpen)
              && Now(worlds).link.client.phase == DownloadLink.Stopped && exit != AtWrite && (exit == AtOpen ==> disk.failed)
              && (exit == AtCommand || exit == AtConfirm ==> sock.failed)
  {
    ghost var arriving, before := sock.inbox, disk.content;
    exit, worlds := AskForRange(sock, disk, name, offset, fileSize, setup, worlds0);
    if exit != AtEnd {
      EndedEarly(setup, arriving, sock.outbox, exit, before);
      FailedExactlyWhen(setup, arriving, sock.outbox, exit, before, before, Failed);
      service.CloseAsFailed(C.Download, taskId);
    }
  }

  lemma LeftByLoop(setup: Setup, arriving: Bytes, exit: Exit, before: Bytes, after: Bytes, k: nat)
    requires Receives(exit) && setup.start <= |before| && |after| <= setup.size && (exit == AtEnd ==> |after| == setup.size)
    requires k <= |ClientLine([], arriving).rest| && after == before[..setup.start] + ClientLine([], arriving).rest[..k]
    requires exit == AtReceive ==> k == |ClientLine([], arriving).rest|
    ensures Left(setup, arriving, exit, before, after)
  {
  }

  method ReceiveFile(service: TransferService, taskId: C.TaskId, sock: Socket, disk: Disk, fileSize: nat, offset: nat,
                     ghost setup: Setup, ghost worlds0: seq<World>, ghost arriving: Bytes, ghost before: Bytes)
      returns (ok: bool, ghost worlds: seq<World>, exit: Exit, ghost status: Status, ghost seen: seq<C.Op>)
    requires service.Valid() && disk.present && setup.size == fileSize && offset == |disk.content| < fileSize
    requires setup.start == offset <= |before| && disk.content == before[..offset] && sock.inbox == ClientLine([], arriving).rest
    requires Sound(setup, worlds0) && InRange(Now(worlds0), disk.content, sock.inbox)
    modifies service, service.control, sock`inbox, sock`aborted, disk`content, disk`failed
    ensures service.Valid() && disk.Valid() && (ok <==> exit == AtEnd) && ClosesWith(exit, status) && Receives(exit)
    ensures service.ClosedWith(C.Download, taskId, status)
    ensures Sound(setup, worlds) && worlds0 <= worlds && Now(worlds).file == disk.content
    ensures Now(worlds).link.client.phase == if ok then DownloadLink.Completed else DownloadLink.Stopped
    ensures Left(setup, arriving, exit, before, disk.content)
    ensures LooksAt(exit) ==>
              ClosesAsTold(old(service.control.history), seen, service.control.history, exit != InLoop, C.Download, taskId, status)
    ensures exit == AtOpen || exit == AtWrite ==> disk.failed
    ensures C.Asked(C.Era(old(service.control.history), C.Download, taskId), C.Download, taskId) ==> exit == InLoop
  {
    var result;
    ghost var k;
    result, worlds, k := ReceiveLoop(service, taskId, sock, disk, fileSize, offset, setup, worlds0);
    LeftByLoop(setup, arriving, ExitOf(result), before, disk.content, k);
    if result == Filled {
      worlds := Do(setup, worlds, ClientDone);
    } else if result.Halted? {
      worlds := GivenUp(setup, worlds);
    }
    ok, exit, status, seen := CloseBehindLoop(service, taskId, result, old(service.control.history));
  }

  function ExitOf(result: Loop): Exit {
    match result
    case Filled => AtEnd
    case Halted(_) => InLoop
    case ReceiveFailed => AtReceive
    case WriteFailed => AtWrite
  }

  /** How the worker closes its task behind the loop, which began when the table had the history `before`. */
  method CloseBehindLoop(service: TransferService, taskId: C.TaskId, result: Loop, ghost before: seq<C.Op>)
      returns (ok: bool, exit: Exit, ghost status: Status, ghost seen: seq<C.Op>)
    requires service.Valid() && TransferRun.Grown(before, service.control.history, C.Download, taskId)
    requires result.Halted? ==>
               && result.verdict != C.Continue
               && HaltedByLook(before, service.control.history, C.Download, taskId, result.verdict)
    requires result == ReceiveFailed ==> FailedSince(before, service.control.history, C.Download, taskId)
    modifies service, service.control
    ensures service.Valid() && service.ClosedWith(C.Download, taskId, status)
    ensures exit == ExitOf(result) && (ok <==> result == Filled) && ClosesWith(exit, status)
    ensures LooksAt(exit) ==>
              ClosesAsTold(before, seen, service.control.history, exit != InLoop, C.Download, taskId, status)
  {
    exit, seen := ExitOf(result), service.control.history;
    match result
    case Halted(verdict) =>
      status := TransferRun.Stopped(verdict);
      ok := service.FinishStoppedTransfer(C.Download, taskId, verdict);
    case ReceiveFailed =>
      ok, status, seen := service.HandleSocketSendFailure(C.Download, taskId, before);
    case WriteFailed =>
      status, ok := Failed, false;
      service.CloseAsFailed(C.Download, taskId);
    case Filled =>
      status, ok := TransferRun.Completed, true;
      service.CleanupTaskControlState(C.Download, taskId);
      service.EmitTaskStatus(TransferRun.Completed);
  }

  // ---------- the whole run ----------

  /** The size query on a connection of its own. */
  method QuerySize(sock: Socket, name: Bytes) returns (ok: bool, sizeResp: Bytes)
    modifies sock
    ensures old(sock.outbox) <= sock.outbox <= old(sock.outbox) + (SizeText(name) + "\n")
    ensures ok ==> sock.outbox == old(sock.outbox) + (SizeText(name) + "\n") && sizeResp == FirstLine(old(sock.inbox))
    ensures !ok ==> sock.failed && sock.inbox == old(sock.inbox)
  {
    sizeResp := [];
    ok := SendAll(sock, SizeText(name) + "\n");
    if ok {
      sizeResp := ReceiveLine(sock);
    }
  }

  /** A target that needs nothing any more is cut to the size, or emptied for an empty remote file. */
  method SettleTarget(disk: Disk, fileSize: int, offset: nat) returns (exit: Exit)
    requires disk.Valid() && offset == ResolveDownloadOffset(|disk.content|, fileSize) && (fileSize == 0 || offset >= fileSize)
    modifies disk
    ensures disk.Valid() && exit == if fileSize == 0 then Empty else AlreadyWhole
    ensures disk.content == old(disk.content) || (fileSize == 0 && disk.content == [])
    ensures fileSize == 0 ==> disk.failed || disk.content == []
  {
    if fileSize == 0 {
      var _ := disk.Open(true);
      return Empty;
    }
    var fileOpened := disk.Open(false);
    if fileOpened && fileSize > 0 {
      var _ := disk.Resize(fileSize);
    }
    exit := AlreadyWhole;
  }

  /** What became of a call: where it left the code, what it sent to ask for the size, and, when it
      registered a socket for the range, what that connection carried and what the worker saw. */
  datatype Run = Run(exit: Exit, query: Bytes, setup: Setup, outbox: Bytes, before: seq<C.Op>, seen: seq<C.Op>)

  /** What a call has made of its target when this was the reply to its query. */
  ghost predicate Fetched(run: Run, name: Bytes, remote: Bytes, reply: Bytes, toRange: Bytes, before: Bytes, after: Bytes) {
    && run.query <= SizeText(name) + "\n"
    && if run.exit == NotConnected || run.exit == AtQuery then after == before
       else
         && run.query == SizeText(name) + "\n" && !("ERROR" <= reply)
         && FetchedSized(run, name, remote, LearnedSize(reply), toRange, before, after)
  }

  ghost predicate FetchedSized(run: Run, name: Bytes, remote: Bytes, size: int, toRange: Bytes, before: Bytes, after: Bytes) {
    var offset := ResolveDownloadOffset(|before|, size);
    match run.exit
    case NotConnected => false
    case AtQuery => false
    case Empty => size == 0 && (after == [] || after == before)
    case AlreadyWhole => size != 0 && offset >= size && after == before
    case AtReconnect => size != 0 && offset < size && after == before
    case _ =>
      && 0 < size && offset < size && run.setup == Setup(remote, name, size, offset, false, 1)
      && exists status :: Ended(run.setup, toRange, run.outbox, run.exit, before, after, status)
  }

  /** A registered run that looked at its task before it closed it has closed as the last request says
      that was recorded when it looked, behind the failed receive if there was one. */
  ghost predicate Obeyed(run: Run, history: seq<C.Op>, taskId: C.TaskId, status: Status) {
    LooksAt(run.exit) ==>
      && ClosesAsTold(run.before, run.seen, history, run.exit != InLoop, C.Download, taskId, status)
      && ClosesAsAsked(run.seen, C.Download, taskId, status)
  }

  lemma ObeysWhatWasAsked(run: Run, history: seq<C.Op>, taskId: C.TaskId, status: Status)
    requires C.Known(C.Era(run.before, C.Download, taskId), C.Download, taskId)
    requires LooksAt(run.exit) ==>
               ClosesAsTold(run.before, run.seen, history, run.exit != InLoop, C.Download, taskId, status)
    ensures Obeyed(run, history, taskId, status)
  {
    if LooksAt(run.exit) {
      ToldAsAsked(run.before, run.seen, C.Download, taskId);
    }
  }

  /** A run that never registered its socket has left the table alone; one that did has left it again,
      its history goes back to its own registration, and it closed with what was asked. */
  ghost predicate Closed(service: TransferService, taskId: C.TaskId, handle: int, status: Status, run: Run, own: seq<C.Op>, history: seq<C.Op>)
    reads service, service.control
  {
    if !Registered(run.exit) then service.own == own && service.control.history == history
    else
      && Entered(run.before, service.own, own, C.Download, taskId, handle)
      && Gone(service.control.history, C.Download, taskId)
      && history <= run.before <= service.control.history && Obeyed(run, service.control.history, taskId, status)
  }

  /** `fileDownloadResumable` over two connections, each with the descriptor that connecting it returned,
      negative when it failed: nothing at all after a shutdown; otherwise exactly one closing status,
      emitted last, and Completed exactly when the call succeeds, and Running before it exactly when a
      range is going to be asked for.  A run that registered its socket has left the table again and
      closes with what was asked; the target is what `Fetched` says. */
  method FileDownloadResumable(service: TransferService, taskId: C.TaskId, endpointOk: bool, disk: Disk, name: Bytes,
                               query: Socket, queryHandle: int, range: Socket, rangeHandle: int, ghost remote: Bytes, ghost start: World)
      returns (ok: bool, ghost status: Status, ghost running: seq<Status>, ghost run: Run)
    requires service.Valid() && disk.Valid() && query != range && query.outbox == [] && range.outbox == []
    modifies service, service.control, disk, query, range
    ensures service.Valid() && disk.Valid()
    ensures old(service.shutdownRequested) ==> !ok && service.statuses == old(service.statuses)
    ensures run.exit == NotConnected <==> old(service.shutdownRequested) || !endpointOk || queryHandle < 0
    ensures run.exit == AtQuery ==> query.failed || "ERROR" <= FirstLine(old(query.inbox))
    ensures !old(service.shutdownRequested) ==>
              && Closing(status) && (ok <==> status == TransferRun.Completed)
              && service.statuses == old(service.statuses) + running + [status] && ClosesWith(run.exit, status)
    ensures running == if run.exit == AtReconnect || Registered(run.exit) then [Running] else []
    ensures Closed(service, taskId, rangeHandle, status, run, old(service.own), old(service.control.history))
    ensures Fetched(run, name, remote, FirstLine(old(query.inbox)), old(range.inbox), old(disk.content), disk.content)
    ensures run.query == query.outbox && run.outbox == range.outbox
    ensures ok <==> run.exit == Empty || run.exit == AlreadyWhole || run.exit == AtEnd
    ensures ClosedBy(run.exit, range, rangeHandle, disk)
  {
    running, status, ok := [], Failed, false;
    run := Run(NotConnected, [], Setup(remote, name, 0, 0, false, 1), [], [], []);
    if service.shutdownRequested {
      return;
    }
    if !endpointOk || queryHandle < 0 {
      service.EmitTransferFailure();
      return;
    }
    var asked, sizeResp := QuerySize(query, name);
    run := run.(exit := AtQuery, query := query.outbox);
    if !asked || "ERROR" <= sizeResp {
      service.EmitTransferFailure();
      return;
    }
    ok, status, running, run := FetchSized(service, taskId, disk, name, LearnedSize(sizeResp), range, rangeHandle, remote, start, run);
  }

  /** What has failed where a run that learned a size leaves early: connecting, a send, or a call on the target. */
  ghost predicate ClosedBy(exit: Exit, range: Socket, rangeHandle: int, disk: Disk)
    reads range, disk
  {
    && (exit == AtReconnect ==> rangeHandle < 0) && (Registered(exit) ==> rangeHandle >= 0)
    && (exit == AtCommand || exit == AtConfirm ==> range.failed)
    && (exit == AtOpen || exit == AtWrite ==> disk.failed)
    && (exit == Empty ==> disk.failed || disk.content == [])
  }

  /** From the size on: a target that needs nothing is settled, otherwise the range is fetched. */
  method FetchSized(service: TransferService, taskId: C.TaskId, disk: Disk, name: Bytes, fileSize: int,
                    range: Socket, rangeHandle: int, ghost remote: Bytes, ghost start: World, ghost run0: Run)
      returns (ok: bool, ghost status: Status, ghost running: seq<Status>, ghost run: Run)
    requires service.Valid() && disk.Valid() && range.outbox == [] == run0.outbox
    modifies service, service.control, disk, range
    ensures service.Valid() && disk.Valid() && run.query == run0.query && run.outbox == range.outbox
    ensures Closing(status) && (ok <==> status == TransferRun.Completed)
    ensures running == if run.exit == AtReconnect || Registered(run.exit) then [Running] else []
    ensures service.statuses == old(service.statuses) + running + [status] && ClosesWith(run.exit, status)
    ensures Closed(service, taskId, rangeHandle, status, run, old(service.own), old(service.control.history))
    ensures FetchedSized(run, name, remote, fileSize, old(range.inbox), old(disk.content), disk.content)
    ensures ok <==> run.exit == Empty || run.exit == AlreadyWhole || run.exit == AtEnd
    ensures ClosedBy(run.exit, range, rangeHandle, disk)
  {
    running, status, ok := [], Failed, false;
    var existingSize := if disk.present then |disk.content| else 0;
    var offset := ResolveDownloadOffset(existingSize, fileSize);
    if fileSize == 0 || offset >= fileSize {
      var exit := SettleTarget(disk, fileSize, offset);
      run := run0.(exit := exit);
      status, ok := TransferRun.Completed, true;
      service.EmitTaskStatus(TransferRun.Completed);
      return;
    }
    running := [Running];
    service.EmitTaskStatus(Running);
    if rangeHandle < 0 {
      run := run0.(exit := AtReconnect);
      service.EmitTransferFailure();
      return;
    }
    ok, status, run := FetchRange(service, taskId, disk, name, offset, fileSize, range, rangeHandle, remote, start, run0);
  }

  /** The second connection, from its registration on. */
  method FetchRange(service: TransferService, taskId: C.TaskId, disk: Disk, name: Bytes, offset: nat, fileSize: nat,
                    range: Socket, rangeHandle: int, ghost remote: Bytes, ghost start: World, ghost run0: Run)
      returns (ok: bool, ghost status: Status, ghost run: Run)
    requires service.Valid() && disk.Valid() && offset == ResolveDownloadOffset(|disk.content|, fileSize) < fileSize
    requires range.outbox == [] && rangeHandle >= 0
    modifies service, service.control, disk, range
    ensures service.Valid() && disk.Valid() && Closing(status) && (ok <==> status == TransferRun.Completed)
    ensures service.statuses == old(service.statuses) + [status]
    ensures run.query == run0.query && run.setup == Setup(remote, name, fileSize, offset, false, 1) && (ok <==> run.exit == AtEnd)
    ensures run.outbox == range.outbox
    ensures Ended(run.setup, old(range.inbox), run.outbox, run.exit, old(disk.content), disk.content, status)
    ensures Closed(service, taskId, rangeHandle, status, run, old(service.own), old(service.control.history))
    ensures ClosedBy(run.exit, range, rangeHandle, disk)
  {
    service.RegisterSocket(C.Download, taskId, rangeHandle);
    ghost var setup, before := Setup(remote, name, fileSize, offset, false, 1), service.control.history;
    ghost var begun := Link(Client(Commanding, setup.Request(), [], 0, 0, [], []), start.link.server, start.link.up, range.inbox, false);
    ghost var worlds, seen := [World(disk.content, begun)], [];
    var exit;
    ok, worlds, exit, status, seen := RunRegistered(service, taskId, range, disk, name, offset, fileSize, setup, worlds);
    run := Run(exit, run0.query, setup, range.outbox, before, seen);
    ClosesProperly(exit, status);
    ObeysWhatWasAsked(run, service.control.history, taskId, status);
    assert old(service.own) + [C.Register(C.Download, taskId, rangeHandle)] + [C.Cleanup(C.Download, taskId)]
        == old(service.own) + [C.Register(C.Download, taskId, rangeHandle), C.Cleanup(C.Download, taskId)];
  }
}
