/** `handleFilePut` as the server runs it, and that every one of its runs is a run of the machine
    of module UploadLink. */
module FilePutServer {
  import opened Text
  import opened Sockets
  import opened WireFormat
  import opened RequestPolicy
  import opened Disks
  import opened UploadLink
  import opened UploadSessions

  /** What the server's thread sees: its variables, its file, its end of the connection. */
  datatype View = View(size: nat, off: nat, pos: nat, total: nat, content: Bytes, inbox: Bytes, outbox: Bytes)

  /** The machine is between two rounds of the receive loop and agrees with the thread.  Its queue
      towards the server holds all that will still arrive. */
  ghost predicate InLoop(w: World, v: View) {
    var s := w.link.server;
    && s.phase == Receiving && s.size == v.size && s.off == v.off && s.pos == v.pos && s.total == v.total
    && s.buf == [] && s.out == [] && s.said == v.outbox == ReadyText(v.off) + "\n"
    && w.file == v.content && w.link.up == v.inbox && !w.link.live
  }

  /** One whole round: receive, write, measure. */
  lemma Round(setup: Setup, log: Log, v: View, n: nat, statOk: bool) returns (log': Log)
    requires Sound(setup, log) && InLoop(log.now, v) && v.total < v.size
    requires 1 <= n <= |v.inbox| && n <= BUFFER_SIZE && n <= v.size - v.total
    ensures log'.start == log.start && Sound(setup, log')
    ensures var content := WriteAt(v.content, v.pos, v.inbox[..n]);
            InLoop(log'.now, v.(pos := v.pos + n, total := if statOk then |content| else v.total + n,
                                content := content, inbox := v.inbox[n..]))
  {
    DoIsSound(setup, log, ServerRecv(n));
    log' := Do(setup, log, ServerRecv(n));
    assert log'.now.link.server.buf[..n] == v.inbox[..n];
    DoIsSound(setup, log', ServerWrite(n));
    log' := Do(setup, log', ServerWrite(n));
    DoIsSound(setup, log', ServerMeasure(statOk));
    log' := Do(setup, log', ServerMeasure(statOk));
  }

  /** A round that ends in a failed write of which `written` bytes took effect. */
  lemma BrokenRound(setup: Setup, log: Log, v: View, n: nat, written: nat) returns (log': Log)
    requires Sound(setup, log) && InLoop(log.now, v) && v.total < v.size
    requires 1 <= n <= |v.inbox| && n <= BUFFER_SIZE && n <= v.size - v.total && written <= n
    ensures log'.start == log.start && Sound(setup, log') && log'.now.link.server.phase == Closed
    ensures log'.now.link.up == v.inbox[n..]
    ensures log'.now.file == if written == 0 then v.content else WriteAt(v.content, v.pos, v.inbox[..n][..written])
  {
    DoIsSound(setup, log, ServerRecv(n));
    log' := Do(setup, log, ServerRecv(n));
    if written > 0 {
      DoIsSound(setup, log', ServerWrite(written));
      log' := Do(setup, log', ServerWrite(written));
    }
    DoIsSound(setup, log', ServerStop);
    log' := Do(setup, log', ServerStop);
  }

  /** Between two views k more bytes have arrived and were appended to the file. */
  ghost predicate Appended(v: View, v': View, k: nat) {
    && k <= |v.inbox| && v'.inbox == v.inbox[k..] && v'.content == v.content + v.inbox[..k]
    && v'.size == v.size && v'.off == v.off && v'.pos == v.pos + k && v'.outbox == v.outbox
  }

  lemma AppendedTwice(v: View, v1: View, v2: View, k: nat, n: nat)
    requires Appended(v, v1, k) && Appended(v1, v2, n)
    ensures Appended(v, v2, k + n)
  {
    TakenOn(v.content, v.inbox, k, n);
  }

  lemma TakenOn(content: Bytes, inbox: Bytes, k: nat, n: nat)
    requires k + n <= |inbox|
    ensures content + inbox[..k] + inbox[k..][..n] == content + inbox[..k + n]
    ensures inbox[k..][n..] == inbox[k + n..]
  {
    assert inbox[..k] + inbox[k..][..n] == inbox[..k + n];
  }

  /** The thread's variables are what the view says; without other writers the position, the
      believed total and the size of the file agree. */
  ghost predicate Sees(v: View, pos: nat, total: nat, content: Bytes, sock: Socket)
    reads sock
  {
    && v.pos == v.total == pos == total == |content|
    && v.content == content && v.inbox == sock.inbox && v.outbox == sock.outbox
  }

  lemma GivenUp(setup: Setup, log: Log) returns (log': Log)
    requires Sound(setup, log) && log.now.link.server.phase != Closed
    ensures log'.start == log.start && Sound(setup, log') && log'.now.link.server.phase == Closed
    ensures log'.now.file == log.now.file && log'.now.link.up == log.now.link.up
  {
    DoIsSound(setup, log, ServerStop);
    log' := Do(setup, log, ServerStop);
  }

  /** What a session that ended in a failed call has done since it had this view: k of the bytes that
      arrived are in the file, and all it may have said is that it failed. */
  predicate GoneSo(v: View, fileSize: nat, content: Bytes, outbox: Bytes, k: nat) {
    && k <= |v.inbox| && v.total + k <= fileSize && content == v.content + v.inbox[..k]
    && v.outbox <= outbox <= v.outbox + (ERROR_TEXT + "\n")
  }

  lemma GoneLater(v: View, v1: View, fileSize: nat, content: Bytes, outbox: Bytes, k: nat, n: nat)
    requires Appended(v, v1, k) && GoneSo(v1, fileSize, content, outbox, n)
    requires v1.total == v.total + k
    ensures GoneSo(v, fileSize, content, outbox, k + n)
  {
    TakenOn(v.content, v.inbox, k, n);
  }

  /** One pass of the receive loop. */
  method ReceiveOnce(sock: Socket, disk: Disk, ghost setup: Setup, ghost log0: Log, fileSize: nat, pos: nat, total: nat,
                     ghost v: View)
      returns (more: bool, broken: bool, pos': nat, total': nat, ghost v': View, ghost log: Log, ghost n: nat)
    requires disk.Valid() && disk.present && Sound(setup, log0) && InLoop(log0.now, v)
    requires v.size == fileSize && Sees(v, pos, total, disk.content, sock) && total < fileSize
    modifies sock, disk
    ensures disk.Valid() && disk.present && log.start == log0.start && Sound(setup, log)
    ensures log.now.file == disk.content && log.now.link.up == sock.inbox
    ensures broken ==> log.now.link.server.phase == Closed && GoneSo(v, fileSize, disk.content, sock.outbox, n)
    ensures if broken then disk.failed || sock.aborted else sock.aborted == old(sock.aborted)
    ensures broken ==> (!sock.failed ==> sock.outbox == v.outbox + "ERROR\n")
    ensures !broken ==>
              && InLoop(log.now, v') && Sees(v', pos', total', disk.content, sock) && pos' <= fileSize
              && Appended(v, v', n) && (more <==> n > 0) && (!more ==> sock.inbox == [])
  {
    broken, pos', total', v', log, n := false, pos, total, v, log0, 0;
    var bytesToRead := Min(BUFFER_SIZE, fileSize - total);
    var bytesRead, buffer := sock.Recv(bytesToRead);
    if bytesRead < 0 {
      log := GivenUp(setup, log);
      var _ := SafeSend(sock, ERROR_TEXT + "\n");
      more, broken := false, true;
      assert v.content == v.content + v.inbox[..0];
      return;
    }
    more := bytesRead > 0;
    if more {
      n := bytesRead;
      assert buffer == v.inbox[..n] && sock.inbox == v.inbox[n..];
      var written, count := disk.Write(pos, buffer);
      assert buffer[..count] == v.inbox[..count];
      WriteAtEnd(v.content, buffer[..count]);
      if !written {
        log := BrokenRound(setup, log, v, n, count);
        var _ := SafeSend(sock, ERROR_TEXT + "\n");
        broken, n := true, count;
        return;
      }
      assert buffer[..count] == buffer;
      WriteAtEnd(v.content, buffer);
      var size := disk.Stat();
      log := Round(setup, log, v, n, size.Some?);
      pos' := pos + bytesRead;
      total' := if size.Some? then size.value else total + bytesRead;
      v' := v.(pos := pos', total := total', content := disk.content, inbox := sock.inbox);
    }
  }

  /** The receive loop: it takes what arrives, writes it at the running position, and believes the
      size of the file.  Unless a call fails it ends with everything that arrived appended, up to
      the announced size. */
  method ReceiveLoop(sock: Socket, disk: Disk, fileSize: nat, ghost setup: Setup, ghost log0: Log, ghost v0: View)
      returns (ok: bool, totalReceived: nat, ghost log: Log, ghost v: View, ghost k: nat)
    requires disk.Valid() && disk.present && Sound(setup, log0) && InLoop(log0.now, v0)
    requires v0.size == fileSize && Sees(v0, v0.off, v0.off, disk.content, sock) && v0.off <= fileSize
    modifies sock, disk
    ensures disk.Valid() && disk.present && log.start == log0.start && Sound(setup, log)
    ensures log.now.file == disk.content && log.now.link.up == sock.inbox
    ensures !ok ==> log.now.link.server.phase == Closed && GoneSo(v0, fileSize, disk.content, sock.outbox, k)
    ensures (!ok ==> disk.failed || sock.aborted) && (sock.aborted && !old(sock.aborted) ==> !ok)
    ensures !ok ==> (!sock.failed ==> sock.outbox == v0.outbox + "ERROR\n")
    ensures ok ==>
              && InLoop(log.now, v) && Sees(v, totalReceived, totalReceived, disk.content, sock)
              && Appended(v0, v, k) && totalReceived <= fileSize
              && (totalReceived >= fileSize || sock.inbox == [])
  {
    ok, log, v, k := true, log0, v0, 0;
    var pos: nat := |disk.content|;
    totalReceived := pos;
    var more := true;
    while more && totalReceived < fileSize
      invariant disk.Valid() && disk.present && log.start == log0.start && Sound(setup, log)
      invariant InLoop(log.now, v) && Sees(v, pos, totalReceived, disk.content, sock)
      invariant Appended(v0, v, k) && totalReceived <= fileSize && sock.aborted == old(sock.aborted)
      invariant !more ==> sock.inbox == []
      decreases more, fileSize - totalReceived
    {
      var broken;
      ghost var before, n := v, 0;
      more, broken, pos, totalReceived, v, log, n := ReceiveOnce(sock, disk, setup, log, fileSize, pos, totalReceived, v);
      if broken {
        GoneLater(v0, before, fileSize, disk.content, sock.outbox, k, n);
        ok, k := false, k + n;
        return;
      }
      AppendedTwice(v0, before, v, k, n);
      k := k + n;
    }
  }

  datatype Outcome = NotOpened | Broken | Answered(ok: bool)

  /** The offset is chosen. */
  ghost predicate AtOpening(w: World, size: nat, off: nat, content: Bytes, inbox: Bytes) {
    var s := w.link.server;
    && s.phase == Opening && s.size == size && s.off == off && s.buf == [] && s.out == [] && s.said == []
    && w.file == content && w.link.up == inbox && !w.link.live
  }

  lemma Chosen(setup: Setup, log: Log, size: nat, content: Bytes, inbox: Bytes) returns (log': Log)
    requires Sound(setup, log) && AtStart(log.now, size, content, inbox)
    ensures log'.start == log.start && Sound(setup, log') && AtOpening(log'.now, size, ServerOffset(|content|, size), content, inbox)
  {
    DoIsSound(setup, log, ServerProbe);
    log' := Do(setup, log, ServerProbe);
  }

  lemma TargetOpened(setup: Setup, log: Log, size: nat, off: nat, content: Bytes, inbox: Bytes) returns (log': Log)
    requires Sound(setup, log) && AtOpening(log.now, size, off, content, inbox)
    ensures log'.start == log.start && Sound(setup, log')
    ensures AtReady(log'.now, View(size, off, off, off, if off == 0 then [] else content, inbox, []))
  {
    DoIsSound(setup, log, ServerOpen);
    log' := Do(setup, log, ServerOpen);
  }

  /** The start of the handler: looking at the file and choosing the offset, opening the file. */
  method OpenTarget(sock: Socket, disk: Disk, fileSize: nat, ghost setup: Setup, ghost log0: Log)
      returns (ok: bool, serverOffset: nat, ghost log: Log)
    requires disk.Valid() && Sound(setup, log0) && AtStart(log0.now, fileSize, disk.content, sock.inbox)
    modifies sock`outbox, sock`failed, disk
    ensures disk.Valid() && log.start == log0.start && Sound(setup, log)
    ensures log.now.file == disk.content && log.now.link.up == sock.inbox
    ensures serverOffset == ServerOffset(|old(disk.content)|, fileSize)
    ensures !ok ==> disk.content == old(disk.content) && log.now.link.server.phase == Closed
    ensures !ok ==> sock.outbox <= old(sock.outbox) + (ERROR_TEXT + "\n")
    ensures !ok ==> disk.failed && (!sock.failed ==> sock.outbox == old(sock.outbox) + "ERROR\n")
    ensures ok ==> disk.present && disk.content == old(disk.content)[..serverOffset] && sock.outbox == old(sock.outbox)
    ensures ok ==> AtReady(log.now, View(fileSize, serverOffset, serverOffset, serverOffset, disk.content, sock.inbox, []))
  {
    var existingSize := if disk.present then |disk.content| else 0;
    var existingFileIsLonger := existingSize > fileSize;
    serverOffset := if existingFileIsLonger then 0 else Min(existingSize, fileSize);
    log := Chosen(setup, log0, fileSize, disk.content, sock.inbox);
    ok := disk.Open(serverOffset == 0);
    var sought := false;
    if ok {
      sought := disk.Seek(serverOffset);
    }
    if !sought {
      log := GivenUp(setup, log);
      var _ := SafeSend(sock, ERROR_TEXT + "\n");
      return false, serverOffset, log;
    }
    log := TargetOpened(setup, log, fileSize, serverOffset, old(disk.content), sock.inbox);
  }

  /** The command has been read; whatever will still arrive is in the queue. */
  ghost predicate AtStart(w: World, size: nat, content: Bytes, inbox: Bytes) {
    var s := w.link.server;
    && s.phase == Probing && s.size == size && s.buf == [] && s.out == [] && s.said == []
    && w.file == content && w.link.up == inbox && !w.link.live
  }

  ghost predicate AtReady(w: World, v: View) {
    var s := w.link.server;
    && s.phase == SendingReady && s.size == v.size && s.off == v.off && s.pos == v.pos && s.total == v.total
    && s.buf == [] && s.out == s.said == ReadyText(v.off) + "\n"
    && w.file == v.content && w.link.up == v.inbox && !w.link.live
  }

  lemma ReadySent(setup: Setup, log: Log, v: View) returns (log': Log)
    requires Sound(setup, log) && AtReady(log.now, v)
    ensures log'.start == log.start && Sound(setup, log')
    ensures InLoop(log'.now, v.(outbox := ReadyText(v.off) + "\n"))
  {
    var n := |log.now.link.server.out|;
    DoIsSound(setup, log, ServerSend(n));
    log' := Do(setup, log, ServerSend(n));
  }

  /** The last look at the file, and the answer. */
  lemma Finished(setup: Setup, log: Log, v: View, statOk: bool) returns (log': Log)
    requires Sound(setup, log) && InLoop(log.now, v) && (v.total >= v.size || v.inbox == [])
    ensures log'.start == log.start && Sound(setup, log') && log'.now.link.server.phase == Closed
    ensures log'.now.file == v.content && log'.now.link.up == v.inbox
    ensures var total := if statOk then |v.content| else v.total;
            log'.now.link.server.said == v.outbox + FinalText(total >= v.size, total)
  {
    DoIsSound(setup, log, ServerFinish(statOk));
    log' := Do(setup, log, ServerFinish(statOk));
    var n := |log'.now.link.server.out|;
    DoIsSound(setup, log', ServerSend(n));
    log' := Do(setup, log', ServerSend(n));
    DoIsSound(setup, log', ServerClose);
    log' := Do(setup, log', ServerClose);
  }

  /** What a session that was answered has done: it kept the front part of the file, appended the
      first k bytes that arrived, and answered OK exactly when that fills the file. */
  predicate Served(fileSize: nat, before: Bytes, arriving: Bytes, after: Bytes, left: Bytes, ok: bool, k: nat) {
    var off := ServerOffset(|before|, fileSize);
    && k <= |arriving| && off + k <= fileSize
    && after == before[..off] + arriving[..k] && left == arriving[k..]
    && (ok <==> off + k == fileSize) && (!ok ==> left == [])
  }

  /** What a session leaves behind, however it ends: the file, and its side of the conversation. */
  ghost predicate Handled(outcome: Outcome, fileSize: nat, before: Bytes, arriving: Bytes, after: Bytes, left: Bytes, outbox: Bytes) {
    var off := ServerOffset(|before|, fileSize);
    var ready := ReadyText(off) + "\n";
    match outcome
    case NotOpened => after == before && outbox <= ERROR_TEXT + "\n"
    case Broken =>
      && outbox <= ready + (ERROR_TEXT + "\n")
      && exists k :: Kept(fileSize, before, arriving, after, k) && (k > 0 ==> ready <= outbox)
    case Answered(ok) =>
      && ready <= outbox <= ready + (if ok then "OK:" + Decimal(|after|) + "\n" else ERROR_TEXT + "\n")
      && exists k :: Served(fileSize, before, arriving, after, left, ok, k)
  }

  /** All of a conversation whose answers could be sent. */
  predicate SaidAll(outcome: Outcome, off: nat, total: nat, outbox: Bytes) {
    match outcome
    case NotOpened => outbox == "ERROR\n"
    case Answered(true) => outbox == "READY:" + Decimal(off) + "\n" + ("OK:" + Decimal(total) + "\n")
    case _ => outbox == "READY:" + Decimal(off) + "\n" + "ERROR\n"
  }

  /** The front part of the file was kept and the first k bytes that arrived were appended. */
  predicate Kept(fileSize: nat, before: Bytes, arriving: Bytes, after: Bytes, k: nat) {
    var off := ServerOffset(|before|, fileSize);
    k <= |arriving| && off + k <= fileSize && after == before[..off] + arriving[..k]
  }

  lemma HandledKeeps(outcome: Outcome, fileSize: nat, before: Bytes, arriving: Bytes, after: Bytes, left: Bytes, outbox: Bytes)
      returns (k: nat)
    requires Handled(outcome, fileSize, before, arriving, after, left, outbox) && outcome != NotOpened
    ensures Kept(fileSize, before, arriving, after, k)
    ensures outcome.Answered? ==> Served(fileSize, before, arriving, after, left, outcome.ok, k)
  {
    if outcome == Broken {
      k :| Kept(fileSize, before, arriving, after, k);
    } else {
      k :| Served(fileSize, before, arriving, after, left, outcome.ok, k);
    }
  }

  /** The whole handler.  Every run of it is a run of the machine, from the point where the command
      has been read to the point where the connection is closed.  It gives up only when a call on its
      file or on its socket has failed, and always when a receive has. */
  method HandleFilePut(sock: Socket, disk: Disk, fileSize: nat, ghost setup: Setup, ghost start: World)
      returns (outcome: Outcome, ghost log: Log)
    requires disk.Valid() && sock.outbox == [] && AtStart(start, fileSize, disk.content, sock.inbox)
    modifies sock, disk
    ensures disk.Valid() && log.start == start && Sound(setup, log) && log.now.link.server.phase == Closed
    ensures log.now.file == disk.content && log.now.link.up == sock.inbox
    ensures Handled(outcome, fileSize, old(disk.content), old(sock.inbox), disk.content, sock.inbox, sock.outbox)
    ensures !sock.failed ==> SaidAll(outcome, ServerOffset(|old(disk.content)|, fileSize), |disk.content|, sock.outbox)
    ensures (outcome == NotOpened ==> disk.failed) && (outcome == Broken ==> disk.failed || sock.failed || sock.aborted)
    ensures sock.aborted && !old(sock.aborted) ==> outcome == Broken
    ensures outcome.Answered? ==> sock.outbox <= log.now.link.server.said
  {
    ghost var before, arriving := disk.content, sock.inbox;
    log := Log(start, [], start);
    var ok, serverOffset;
    ok, serverOffset, log := OpenTarget(sock, disk, fileSize, setup, log);
    if !ok {
      return NotOpened, log;
    }
    ghost var v := View(fileSize, serverOffset, serverOffset, serverOffset, disk.content, sock.inbox, []);
    ok := SafeSend(sock, ReadyText(serverOffset) + "\n");
    if !ok {
      log := GivenUp(setup, log);
      assert Kept(fileSize, before, arriving, disk.content, 0) by {
        assert before[..serverOffset] + arriving[..0] == before[..serverOffset];
      }
      return Broken, log;
    }
    log := ReadySent(setup, log, v);
    outcome, log := ServeData(sock, disk, fileSize, setup, log, v.(outbox := sock.outbox), before, arriving);
  }

  /** From READY to the answer. */
  method ServeData(sock: Socket, disk: Disk, fileSize: nat, ghost setup: Setup, ghost log0: Log, ghost v0: View,
                   ghost before: Bytes, ghost arriving: Bytes)
      returns (outcome: Outcome, ghost log: Log)
    requires disk.Valid() && disk.present && Sound(setup, log0) && InLoop(log0.now, v0)
    requires v0.size == fileSize && v0.off == ServerOffset(|before|, fileSize) && Sees(v0, v0.off, v0.off, disk.content, sock)
    requires disk.content == before[..v0.off] && sock.inbox == arriving && sock.outbox == ReadyText(v0.off) + "\n"
    modifies sock, disk
    ensures disk.Valid() && log.start == log0.start && Sound(setup, log) && log.now.link.server.phase == Closed
    ensures log.now.file == disk.content && log.now.link.up == sock.inbox
    ensures Handled(outcome, fileSize, before, arriving, disk.content, sock.inbox, sock.outbox) && outcome != NotOpened
    ensures !sock.failed ==> SaidAll(outcome, v0.off, |disk.content|, sock.outbox)
    ensures outcome == Broken ==> disk.failed || sock.failed || sock.aborted
    ensures sock.aborted && !old(sock.aborted) ==> outcome == Broken
    ensures outcome.Answered? ==> sock.outbox <= log.now.link.server.said
  {
    var ok, totalReceived;
    ghost var k, v;
    ok, totalReceived, log, v, k := ReceiveLoop(sock, disk, fileSize, setup, log0, v0);
    if !ok {
      assert Kept(fileSize, before, arriving, disk.content, k);
      return Broken, log;
    }
    var size := disk.Stat();
    totalReceived := if size.Some? then size.value else totalReceived;
    log := Finished(setup, log, v, size.Some?);
    outcome := Answered(totalReceived >= fileSize);
    var _ := SafeSend(sock, if totalReceived >= fileSize then "OK:" + Decimal(totalReceived) + "\n" else ERROR_TEXT + "\n");
    assert Served(fileSize, before, arriving, disk.content, sock.inbox, outcome.ok, k);
  }
}
