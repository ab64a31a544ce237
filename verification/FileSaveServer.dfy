/** `handleFileSave` as the server runs it for a range, and that every one of its runs is a run of
    the machine of module DownloadLink. */
module FileSaveServer {
  import opened Text
  import opened Sockets
  import opened WireFormat
  import opened RequestPolicy
  import opened DownloadLink
  import opened DownloadSessions

  // ---------- the server's steps ----------

  /** The server alone: whatever will still arrive is in its queue. */
  ghost predicate InPhase(w: World, phase: ServerPhase, inbox: Bytes) {
    w.link.server.phase == phase && w.link.up == inbox && !w.link.live
  }

  /** The server is between two chunks. */
  ghost predicate Between(setup: Setup, w: World, next: nat, last: int, inbox: Bytes) {
    var s := w.link.server;
    InPhase(w, Sending, inbox) && s.out == [] && s.next == next && s.last == last < |setup.remote|
  }

  lemma {:induction false} ConfirmationIsRead(setup: Setup, worlds: seq<World>, inbox: Bytes) returns (longer: seq<World>)
    requires Sound(setup, worlds) && InPhase(Now(worlds), AwaitingConfirm, inbox) && |Now(worlds).link.server.line| < MAX_LINE
    ensures Sound(setup, longer) && worlds <= longer
    ensures var s, s', read := Now(worlds).link.server, Now(longer).link.server, ServerLine(Now(worlds).link.server.line, inbox);
            if read.Line? && read.text == "OK" then
              InPhase(Now(longer), Sending, read.rest) && s' == s.(phase := Sending, line := [])
            else s'.phase == Closed
    decreases |inbox|
  {
    if inbox == [] {
      longer := Do(setup, worlds, ServerStop);
    } else {
      longer := Do(setup, worlds, ServerByte);
      if inbox[0] != '\n' && Now(longer).link.server.phase == AwaitingConfirm {
        longer := ConfirmationIsRead(setup, longer, inbox[1..]);
      }
    }
  }

  lemma ChunkIsSent(setup: Setup, worlds: seq<World>, next: nat, last: int, inbox: Bytes, n: nat) returns (longer: seq<World>)
    requires Sound(setup, worlds) && Between(setup, Now(worlds), next, last, inbox)
    requires 1 <= n <= BUFFER_SIZE && next + n <= last + 1
    ensures Sound(setup, longer) && worlds <= longer && Between(setup, Now(longer), next + n, last, inbox)
  {
    longer := Do(setup, worlds, ServerRead(n));
    longer := Do(setup, longer, ServerSend(n));
  }

  lemma GivenUp(setup: Setup, worlds: seq<World>) returns (longer: seq<World>)
    requires Sound(setup, worlds) && Now(worlds).link.server.phase != Closed
    ensures Sound(setup, longer) && worlds <= longer && Now(longer).link.server.phase == Closed
  {
    longer := Do(setup, worlds, ServerStop);
  }

  // ---------- the loops ----------

  /** The inner loop: one chunk goes out in as many portions as it takes. */
  method SendChunk(sock: Socket, buffer: Bytes) returns (ok: bool, sent: nat)
    modifies sock`outbox, sock`failed
    ensures sock.failed == (old(sock.failed) || !ok)
    ensures sent <= |buffer| && sock.outbox == old(sock.outbox) + buffer[..sent] && (ok <==> sent == |buffer|)
  {
    var remaining := |buffer|;
    sent := 0;
    while remaining > 0
      invariant 0 <= remaining <= |buffer| && sent == |buffer| - remaining
      invariant sock.outbox == old(sock.outbox) + buffer[..sent] && sock.failed == old(sock.failed)
    {
      var bytesSent := sock.Send(buffer[sent..]);
      if bytesSent <= 0 {
        return false, sent;
      }
      assert buffer[..sent] + buffer[sent..][..bytesSent] == buffer[..sent + bytesSent];
      remaining := remaining - bytesSent;
      sent := sent + bytesSent;
    }
    ok := true;
  }

  /** The outer loop sends the range from its first byte to its last, or a front part of it. */
  method SendRange(sock: Socket, remote: Bytes, startPos: nat, endPos: int, ghost setup: Setup, ghost worlds0: seq<World>)
      returns (ok: bool, ghost worlds: seq<World>, ghost to: nat)
    requires setup.remote == remote && startPos <= endPos < |remote|
    requires Sound(setup, worlds0) && Between(setup, Now(worlds0), startPos, endPos, sock.inbox)
    modifies sock`outbox, sock`failed
    ensures Sound(setup, worlds) && worlds0 <= worlds && Now(worlds).link.server.phase == Closed
    ensures startPos <= to <= endPos + 1 && sock.outbox == old(sock.outbox) + remote[startPos..to]
    ensures if ok then to == endPos + 1 else to <= endPos && sock.failed
  {
    var totalSent, dataSize := 0, endPos - startPos + 1;
    worlds, to := worlds0, startPos;
    assert remote[startPos..startPos] == [];
    while totalSent < dataSize
      invariant 0 <= totalSent <= dataSize && to == startPos + totalSent
      invariant Sound(setup, worlds) && worlds0 <= worlds && Between(setup, Now(worlds), to, endPos, sock.inbox)
      invariant sock.outbox == old(sock.outbox) + remote[startPos..to]
    {
      var bytesToRead := Min(BUFFER_SIZE, dataSize - totalSent);
      var buffer := remote[startPos + totalSent..startPos + totalSent + bytesToRead];
      ghost var from := to;
      var sent;
      ok, sent := SendChunk(sock, buffer);
      assert buffer[..sent] == remote[from..from + sent];
      assert remote[startPos..from] + remote[from..from + sent] == remote[startPos..from + sent];
      to := from + sent;
      if !ok {
        worlds := GivenUp(setup, worlds);
        return;
      }
      worlds := ChunkIsSent(setup, worlds, from, endPos, sock.inbox, bytesToRead);
      totalSent := totalSent + bytesToRead;
    }
    worlds := Do(setup, worlds, ServerClose);
    ok := true;
  }

  // ---------- the handler ----------

  /** The command has been read and the size line decided on. */
  ghost predicate AtStart(setup: Setup, w: World, startPos: nat, endPos: int, inbox: Bytes) {
    w.link.server == Server(SendingSize, [], SizeLine(setup), startPos, endPos, SizeLine(setup)) && w.link.up == inbox && !w.link.live
  }

  datatype Outcome = NotThere | SizeLost | SizeOnly | EmptyRange | Unconfirmed | DataLost | Sent

  // What can become of a query for the size alone.
  predicate SizeAsked(outcome: Outcome) {
    outcome == NotThere || outcome == SizeLost || outcome == SizeOnly
  }

  /** What the server has sent when it is done, and what it has taken in. */
  ghost predicate Answered(outcome: Outcome, remote: Bytes, startPos: nat, endPos: int, arrived: Bytes, outbox: Bytes, left: Bytes) {
    var size, last := Decimal(|remote|) + "\n", if endPos >= |remote| then |remote| - 1 else endPos;
    match outcome
    case NotThere => outbox <= ERROR_TEXT + "\n" && left == arrived
    case SizeLost => outbox < size && left == arrived
    case SizeOnly => outbox == size && left == arrived
    case EmptyRange => startPos > last && size <= outbox <= size + (ERROR_TEXT + "\n") && left == arrived
    case Unconfirmed => startPos <= last && outbox == size && ServerLine([], arrived) != Line("OK", left)
    case DataLost =>
      && startPos <= last && ServerLine([], arrived) == Line("OK", left)
      && exists to :: startPos <= to <= last && outbox == size + remote[startPos..to]
    case Sent =>
      && startPos <= last && ServerLine([], arrived) == Line("OK", left)
      && outbox == size + remote[startPos..last + 1]
  }

  /** The handler for a range or for the size alone.  It answers as its outcome says, it is cut short only
      by a send that has failed, and its run for a range is a run of the machine, from the command to the
      closed connection. */
  method HandleFileSave(sock: Socket, file: Option<Bytes>, startPos: nat, endPos: int, sendOnlySize: bool,
                        ghost setup: Setup, ghost start: World)
      returns (outcome: Outcome, ghost worlds: seq<World>)
    requires sock.outbox == [] && AtStart(setup, start, startPos, endPos, sock.inbox)
    requires file.Some? ==> setup.remote == file.value
    modifies sock
    ensures Answered(outcome, setup.remote, startPos, endPos, old(sock.inbox), sock.outbox, sock.inbox)
    ensures outcome == NotThere <==> file == None
    ensures outcome == SizeOnly ==> sendOnlySize
    ensures sendOnlySize ==> SizeAsked(outcome)
    ensures outcome == SizeLost || outcome == DataLost ==> sock.failed
    ensures outcome == NotThere && !sock.failed ==> sock.outbox == "ERROR\n"
    ensures outcome == EmptyRange && !sock.failed ==> sock.outbox == Decimal(|setup.remote|) + "\n" + "ERROR\n"
    ensures Sound(setup, worlds) && [start] <= worlds && (outcome != SizeOnly ==> Now(worlds).link.server.phase == Closed)
  {
    worlds := [start];
    if file.None? {
      var _ := SafeSend(sock, ERROR_TEXT + "\n");
      worlds := GivenUp(setup, worlds);
      return NotThere, worlds;
    }
    var remote := file.value;
    var sized := SafeSend(sock, Decimal(|remote|) + "\n");
    if !sized {
      worlds := GivenUp(setup, worlds);
      return SizeLost, worlds;
    }
    if sendOnlySize {
      return SizeOnly, worlds;
    }
    outcome, worlds := ServeRange(sock, remote, startPos, endPos, setup, worlds);
  }

  method ServeRange(sock: Socket, remote: Bytes, startPos: nat, endPos: int, ghost setup: Setup, ghost worlds0: seq<World>)
      returns (outcome: Outcome, ghost worlds: seq<World>)
    requires setup.remote == remote && sock.outbox == Decimal(|remote|) + "\n"
    requires Sound(setup, worlds0) && AtStart(setup, Now(worlds0), startPos, endPos, sock.inbox)
    modifies sock
    ensures Answered(outcome, remote, startPos, endPos, old(sock.inbox), sock.outbox, sock.inbox)
    ensures outcome == EmptyRange || outcome == Unconfirmed || outcome == DataLost || outcome == Sent
    ensures outcome == DataLost ==> sock.failed
    ensures outcome == EmptyRange && !sock.failed ==> sock.outbox == Decimal(|remote|) + "\n" + "ERROR\n"
    ensures Sound(setup, worlds) && worlds0 <= worlds && Now(worlds).link.server.phase == Closed
  {
    ghost var size, arrived := Decimal(|remote|) + "\n", sock.inbox;
    worlds := Do(setup, worlds0, ServerSend(|SizeLine(setup)|));
    worlds := Do(setup, worlds, ServerClip);
    var last := if endPos >= |remote| then |remote| - 1 else endPos;
    if startPos > last {
      var _ := SafeSend(sock, ERROR_TEXT + "\n");
      return EmptyRange, worlds;
    }
    var read, confirmation := SafeRecvLine(sock);
    worlds := ConfirmationIsRead(setup, worlds, arrived);
    if !read || confirmation != "OK" {
      return Unconfirmed, worlds;
    }
    var ok;
    ghost var to;
    ok, worlds, to := SendRange(sock, remote, startPos, last, setup, worlds);
    outcome := if ok then Sent else DataLost;
  }
}
