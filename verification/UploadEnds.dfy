/** The two programs at the ends of one upload connection, put together: what arrives at one end is a
    front part of what the other has handed over. */
module UploadEnds {
  import opened Text
  import opened Sockets
  import opened WireFormat
  import opened RequestPolicy
  import opened Disks
  import L = UploadLink
  import Safety = UploadSafety
  import U = UploadSessions
  import P = FilePutServer
  import W = UploadWorker
  import C = ControlState
  import R = TransferRun

  // ---------- the server's end ----------

  /** How a connection ended for the server. */
  datatype End = NoCommand | OtherCommand | Put(outcome: P.Outcome)

  ghost predicate ServedBy(end: End, before: Bytes, arriving: Bytes, after: Bytes, outbox: Bytes) {
    match ReadCommand(arriving, false)
    case Nothing => end == NoCommand && after == before && outbox == []
    case Received(FilePut(_, _, size, _), rest) =>
      end.Put? && exists left :: P.Handled(end.outcome, size, before, rest, after, left, outbox)
    case Received(_, _) => end == OtherCommand
  }

  /** `handleClient` as far as uploads go: it reads the command and runs the handler. */
  method HandleClient(sock: Socket, disk: Disk, ghost setup: L.Setup) returns (end: End)
    requires disk.Valid() && sock.outbox == []
    modifies sock, disk
    ensures disk.Valid() && ServedBy(end, old(disk.content), old(sock.inbox), disk.content, sock.outbox)
  {
    var read, command := SafeRecvLine(sock);
    if !read {
      return NoCommand;
    }
    var parts := SplitTokens(command, '|');
    match Dispatch(parts, false)
    case FilePut(_, _, fileSize, _) =>
      ghost var client := L.Client(L.Commanding, [], [], 0, 0, []);
      ghost var server := L.Server(L.Probing, command, fileSize, 0, 0, 0, [], 0, [], [], false);
      var outcome, _ := P.HandleFilePut(sock, disk, fileSize, setup,
                                        U.World(disk.content, L.Link(client, server, sock.inbox, [], false)));
      end := Put(outcome);
    case _ => end := OtherCommand;
  }

  // ---------- what one end hears of the other ----------

  /** A part of what the client sent that holds its command is taken for what it is, and a shorter one
      for no command at all. */
  lemma CommandArrives(setup: L.Setup, arriving: Bytes, data: Bytes)
    requires setup.Valid() && arriving <= setup.Command() + data
    ensures |arriving| < |setup.Command()| ==> ReadCommand(arriving, false) == Nothing
    ensures |arriving| >= |setup.Command()| ==>
              && arriving[|setup.Command()|..] <= data
              && ReadCommand(arriving, false)
                 == Received(FilePut("./", setup.name, |setup.source|, setup.start), arriving[|setup.Command()|..])
  {
    var text := UploadText(setup.name, |setup.source|, setup.start);
    if |arriving| < |setup.Command()| {
      Safety.CommandUnderstood(setup);
      assert arriving == text[..|arriving|];
      ServerReadsNoLine([], arriving);
    } else {
      var rest := arriving[|setup.Command()|..];
      assert arriving == text + "\n" + rest;
      UploadCommandRoundTrip(setup.name, |setup.source|, setup.start, rest);
    }
  }

  /** What the client makes of a front part of a READY line. */
  lemma ReadyIsCut(off: nat, arriving: Bytes)
    requires off < LLONG_LIMIT && arriving <= ReadyText(off)
    ensures ClientLine([], arriving) == Cut(arriving, [])
    ensures !W.Refused(arriving) ==> 0 <= ParseReadyOffset(FirstLine(arriving)).value <= off
  {
    assert arriving == ReadyText(off)[..|arriving|];
    DecimalIsClean(off);
    ClientReadsCutLine([], arriving);
    assert [] + arriving == arriving;
    CutReadyIsSmaller(off, |arriving|);
  }

  /** And of a conversation that begins with a whole one. */
  lemma ReadyIsWhole(off: nat, rest: Bytes)
    requires off < LLONG_LIMIT
    ensures ClientLine([], ReadyText(off) + "\n" + rest) == Line(ReadyText(off), rest)
    ensures ParseReadyOffset(FirstLine(ReadyText(off) + "\n" + rest)) == Some(off)
  {
    ReplyRoundTrip(off, rest);
  }

  /** A front part of a conversation that begins with READY. */
  lemma ReadyArrives(off: nat, tail: Bytes, arriving: Bytes) returns (whole: bool, rest: Bytes)
    requires off < LLONG_LIMIT && arriving <= ReadyText(off) + "\n" + tail
    ensures !W.Refused(arriving) ==> 0 <= ParseReadyOffset(FirstLine(arriving)).value <= off
    ensures ClientLine([], arriving) == if whole then Line(ReadyText(off), rest) else Cut(arriving, [])
    ensures whole ==> rest <= tail && ParseReadyOffset(FirstLine(arriving)) == Some(off)
  {
    var ready := ReadyText(off) + "\n";
    whole, rest := |arriving| >= |ready|, [];
    if whole {
      rest := arriving[|ready|..];
      FrontOfSum(ready, tail, arriving);
      ReadyIsWhole(off, rest);
    } else {
      FrontOfFirst(ReadyText(off), "\n", tail, arriving);
      ReadyIsCut(off, arriving);
    }
  }

  lemma FrontOfFirst(a: Bytes, newline: Bytes, b: Bytes, s: Bytes)
    requires |newline| == 1 && s <= a + newline + b && |s| <= |a|
    ensures s <= a
  {
    assert s == (a + newline + b)[..|s|] == a[..|s|];
  }

  /** An error line is no READY. */
  lemma ErrorIsRefused(arriving: Bytes)
    requires arriving <= ERROR_TEXT + "\n"
    ensures W.Refused(arriving)
  {
    LineIsFront([], arriving);
    assert FirstLine(arriving) <= [] + arriving && [] + arriving == arriving;
    NotReady(FirstLine(arriving));
  }

  lemma NotReady(text: Bytes)
    requires text <= ERROR_TEXT + "\n"
    ensures !("READY:" <= text)
  {
    assert text == [] || text[0] == 'E';
  }

  /** A line that begins with OK was sent as one. */
  lemma OkWasSaid(tail: Bytes, rest: Bytes)
    requires rest <= tail && "OK" <= FirstLine(rest)
    ensures tail != [] && tail[0] == 'O'
  {
    LineIsFront([], rest);
    assert FirstLine(rest) <= [] + rest && [] + rest == rest;
    assert FirstLine(rest)[0] == 'O';
  }

  // ---------- both ends ----------

  /** Both ends of one connection when the programs are done with it. */
  datatype Ends = Ends(setup: L.Setup, exit: W.Exit, toClient: Bytes, fromClient: Bytes,
                       end: End, before: Bytes, toServer: Bytes, after: Bytes, fromServer: Bytes)

  ghost predicate Connected(e: Ends) {
    && e.setup.Valid()
    && W.Carried(e.setup, e.toClient, e.fromClient, e.exit) && ServedBy(e.end, e.before, e.toServer, e.after, e.fromServer)
    && e.toClient <= e.fromServer && e.toServer <= e.fromClient
  }

  predicate Completes(exit: W.Exit) {
    exit == W.AlreadyThere || (exit.AtFinal? && "OK" <= exit.reply)
  }

  function Offset(e: Ends): nat {
    ServerOffset(|e.before|, |e.setup.source|)
  }

  /** The k bytes of the source from `from` on are what the server took in. */
  ghost predicate Took(e: Ends, from: nat, k: nat) {
    && from + k <= |e.setup.source| && Offset(e) + k <= |e.setup.source|
    && e.after == e.before[..Offset(e)] + e.setup.source[from..from + k]
  }

  /** The server either did nothing to the file, or appended source bytes from where the client went
      on, and none at all when nothing behind the command has arrived. */
  lemma ServerTook(e: Ends) returns (from: nat, k: nat)
    requires Connected(e)
    ensures e.after == e.before || Took(e, from, k)
    ensures k > 0 ==> !W.Refused(e.toClient) && from == W.OffsetTold(e.toClient, |e.setup.source|) && |e.toServer| > |e.setup.Command()|
  {
    var data;
    from, data := SentBehindCommand(e);
    CommandArrives(e.setup, e.toServer, data);
    k := 0;
    if |e.toServer| >= |e.setup.Command()| {
      k := HandlerTook(e, from, data, e.toServer[|e.setup.Command()|..]);
    }
  }

  lemma HandlerTook(e: Ends, from: nat, data: Bytes, rest: Bytes) returns (k: nat)
    requires from + |data| <= |e.setup.source| && data == e.setup.source[from..from + |data|] && rest <= data
    requires e.end.Put? && exists left :: P.Handled(e.end.outcome, |e.setup.source|, e.before, rest, e.after, left, e.fromServer)
    ensures k <= |rest| && ((k == 0 && e.after == e.before) || Took(e, from, k))
  {
    var left :| P.Handled(e.end.outcome, |e.setup.source|, e.before, rest, e.after, left, e.fromServer);
    k := 0;
    if e.end.outcome != P.NotOpened {
      k := P.HandledKeeps(e.end.outcome, |e.setup.source|, e.before, rest, e.after, left, e.fromServer);
      SliceOfSlice(e.setup.source, from, data, rest, k);
    }
  }

  lemma SliceOfSlice(source: Bytes, from: nat, data: Bytes, rest: Bytes, k: nat)
    requires from + |data| <= |source| && data == source[from..from + |data|] && rest <= data && k <= |rest|
    ensures rest[..k] == source[from..from + k]
  {
    assert rest == data[..|rest|];
  }

  /** The client sent its command, or a front part of it, and then source bytes from one offset on. */
  lemma SentBehindCommand(e: Ends) returns (from: nat, data: Bytes)
    requires Connected(e)
    ensures e.fromClient <= e.setup.Command() + data
    ensures from + |data| <= |e.setup.source| && data == e.setup.source[from..from + |data|]
    ensures data != [] ==> !W.Refused(e.toClient) && from == W.OffsetTold(e.toClient, |e.setup.source|)
  {
    from, data := 0, [];
    if e.exit == W.InLoop || e.exit == W.AtData || e.exit.AtFinal? {
      from := W.OffsetTold(e.toClient, |e.setup.source|);
      var to: nat :| W.SentPart(e.setup, e.fromClient, from, to);
      data := e.setup.source[from..to];
    }
  }

  // ---------- a completed upload ----------

  /** A client that reports Completed has heard a READY line, so the handler ran. */
  lemma HandlerRan(e: Ends) returns (rest: Bytes, left: Bytes)
    requires Connected(e) && !W.Refused(e.toClient)
    ensures e.end.Put? && e.end.outcome != P.NotOpened && |e.toServer| >= |e.setup.Command()|
    ensures rest == e.toServer[|e.setup.Command()|..]
    ensures P.Handled(e.end.outcome, |e.setup.source|, e.before, rest, e.after, left, e.fromServer)
  {
    var from, data := SentBehindCommand(e);
    CommandArrives(e.setup, e.toServer, data);
    ErrorIsRefused([]);
    if |e.toServer| < |e.setup.Command()| {
      assert false;
    } else {
      rest := e.toServer[|e.setup.Command()|..];
      left :| P.Handled(e.end.outcome, |e.setup.source|, e.before, rest, e.after, left, e.fromServer);
      if e.end.outcome == P.NotOpened {
        ErrorIsRefused(e.toClient);
        assert false;
      }
    }
  }

  // What the server says behind its READY line.
  function Tail(outcome: P.Outcome, total: nat): Bytes {
    if outcome == P.Answered(true) then "OK:" + Decimal(total) + "\n" else ERROR_TEXT + "\n"
  }

  /** The client's two lines were sent: the first names the server's offset, or a smaller one when it
      was cut, and an OK behind it was the server's answer. */
  lemma LinesWereSent(e: Ends) returns (whole: bool)
    requires Connected(e) && !W.Refused(e.toClient)
    ensures W.OffsetTold(e.toClient, |e.setup.source|) <= Offset(e)
    ensures whole <==> ClientLine([], e.toClient).Line?
    ensures whole ==> W.OffsetTold(e.toClient, |e.setup.source|) == Offset(e)
    ensures "OK" <= W.SecondLine(e.toClient) ==> whole && e.end == Put(P.Answered(true))
    ensures whole && e.end.Put? ==> ClientLine([], e.toClient).rest <= Tail(e.end.outcome, |e.after|)
  {
    var left;
    var rest, heard;
    rest, left := HandlerRan(e);
    var off, tail := Offset(e), Tail(e.end.outcome, |e.after|);
    whole, heard := ReadyArrives(off, tail, e.toClient);
    if "OK" <= W.SecondLine(e.toClient) {
      OkWasSaid(if whole then tail else [], ClientLine([], e.toClient).rest);
      assert tail[0] == 'O' && ERROR_TEXT[0] == 'E';
    }
  }

  /** When the client reports Completed, the server's file is full: what it kept of the old contents,
      continued with the source. */
  lemma CompletedTogether(e: Ends)
    requires Connected(e) && Completes(e.exit)
    ensures |e.after| == |e.setup.source| && e.after == U.Spliced(e.before, Offset(e), e.setup.source, |e.setup.source|)
  {
    var size := |e.setup.source|;
    var rest, left := HandlerRan(e);
    var whole := LinesWereSent(e);
    var k := P.HandledKeeps(e.end.outcome, size, e.before, rest, e.after, left, e.fromServer);
    if e.exit == W.AlreadyThere {
      assert Offset(e) == size && k == 0;
    } else {
      var from, data := SentBehindCommand(e);
      CommandArrives(e.setup, e.toServer, data);
      assert e.exit.reply == W.SecondLine(e.toClient) && k == size - Offset(e);
      SliceOfSlice(e.setup.source, from, data, rest, k);
    }
  }

  /** A client that reads a final line beginning with OK has read a front part of the one that names
      the size of its source; when it has read it whole, the number in it parses to that size. */
  lemma OkNamesSize(e: Ends)
    requires Connected(e) && e.exit.AtFinal? && "OK" <= e.exit.reply
    ensures W.SecondLine(e.toClient) <= "OK:" + Decimal(|e.setup.source|)
    ensures ClientLine([], ClientLine([], e.toClient).rest).Line? ==>
              ParseOkOffset(W.SecondLine(e.toClient)) == Some(|e.setup.source|)
  {
    var size := |e.setup.source|;
    CompletedTogether(e);
    var whole := LinesWereSent(e);
    LineOfFront("OK:" + Decimal(size), size, ClientLine([], e.toClient).rest);
    ReplyRoundTrip(size, []);
  }

  lemma LineOfFront(text: Bytes, size: nat, rest: Bytes)
    requires text == "OK:" + Decimal(size) && rest <= text + "\n"
    ensures FirstLine(rest) <= text && (ClientLine([], rest).Line? ==> FirstLine(rest) == text)
  {
    DecimalIsClean(size);
    assert [] + text == text && [] + rest == rest;
    if |rest| <= |text| {
      assert rest == (text + "\n")[..|rest|] == text[..|rest|];
      ClientReadsCutLine([], rest);
    } else {
      assert rest == text + "\n" + [];
      ClientReadsLine([], text, []);
    }
  }

  // ---------- what any session leaves behind ----------

  /** The file is as it was, or its kept front part was continued with source bytes. */
  predicate Continued(source: Bytes, before: Bytes, after: Bytes) {
    var off := ServerOffset(|before|, |source|);
    after == before || (off <= |after| <= |source| && after == U.Spliced(before, off, source, |after|))
  }

  /** The client goes on at the offset the server writes at, or nothing it sends behind its command
      reaches the server. */
  ghost predicate SameOffset(e: Ends) {
    || W.Refused(e.toClient) || |e.toServer| <= |e.setup.Command()|
    || W.OffsetTold(e.toClient, |e.setup.source|) == Offset(e)
  }

  /** That is so for a whole READY line, and for one that was cut with the connection itself. */
  lemma WholeOrEnded(e: Ends)
    requires Connected(e) && (ClientLine([], e.toClient).Line? || |e.toServer| <= |e.setup.Command()|)
    ensures SameOffset(e)
  {
    if !W.Refused(e.toClient) {
      var whole := LinesWereSent(e);
    }
  }

  /** Whenever the server has changed the file: it is correctly continued exactly when the bytes that
      the server took in are the ones it asked for. */
  lemma ContinuedExactlyWhen(e: Ends) returns (from: nat, k: nat)
    requires Connected(e) && e.after != e.before
    ensures Took(e, from, k)
    ensures k > 0 ==>
              && !W.Refused(e.toClient) && from == W.OffsetTold(e.toClient, |e.setup.source|)
              && |e.toServer| > |e.setup.Command()|
    ensures Continued(e.setup.source, e.before, e.after)
            <==> e.setup.source[from..from + k] == e.setup.source[Offset(e)..Offset(e) + k]
  {
    from, k := ServerTook(e);
    TookRightBytes(e.setup.source, e.before, e.after, Offset(e), from, k);
  }

  lemma TookRightBytes(source: Bytes, before: Bytes, after: Bytes, off: nat, from: nat, k: nat)
    requires off == ServerOffset(|before|, |source|) && from + k <= |source| && off + k <= |source|
    requires after == before[..off] + source[from..from + k]
    ensures after != before ==>
              (Continued(source, before, after) <==> source[from..from + k] == source[off..off + k])
    ensures source[from..from + k] == source[off..off + k] ==> Continued(source, before, after)
  {
    assert after[off..] == source[from..from + k] && |after| == off + k;
    assert U.Spliced(before, off, source, off + k)[off..] == source[off..off + k];
  }

  /** Wherever the two programs were stopped, the file is untouched or correctly continued. */
  lemma KeptTogether(e: Ends)
    requires Connected(e) && SameOffset(e)
    ensures Continued(e.setup.source, e.before, e.after)
  {
    var from, k := ServerTook(e);
    if e.after != e.before {
      SameWindow(e.setup.source, from, Offset(e), k);
      TookRightBytes(e.setup.source, e.before, e.after, Offset(e), from, k);
    }
  }

  lemma SameWindow(source: Bytes, from: nat, off: nat, k: nat)
    requires from + k <= |source| && off + k <= |source| && (k > 0 ==> from == off)
    ensures source[from..from + k] == source[off..off + k]
  {
  }

  lemma ContinuedTwice(source: Bytes, a: Bytes, b: Bytes, c: Bytes)
    requires Continued(source, a, b) && Continued(source, b, c)
    ensures Continued(source, a, c)
  {
    if b != a && c != b {
      U.SplicedTwice(a, ServerOffset(|a|, |source|), source, |b|, |c|);
    }
  }

  /** Uploads of the same source by the programs themselves, one connection after the other. */
  ghost predicate Sessions(source: Bytes, sessions: seq<Ends>, files: seq<Bytes>) {
    && |files| == |sessions| + 1
    && forall i :: 0 <= i < |sessions| ==>
         && sessions[i].setup.source == source && Connected(sessions[i]) && SameOffset(sessions[i])
         && sessions[i].before == files[i] && sessions[i].after == files[i + 1]
  }

  /** Over any number of uploads the file on the server is its first contents or correctly continued;
      one that the client reports as Completed leaves the source exactly when the first contents were
      a front part of it or were too long. */
  lemma {:induction false} UploadsTogether(source: Bytes, sessions: seq<Ends>, files: seq<Bytes>, k: nat)
    requires Sessions(source, sessions, files) && k <= |sessions|
    ensures Continued(source, files[0], files[k])
    ensures k > 0 && Completes(sessions[k - 1].exit) ==>
              |files[k]| == |source| && (files[k] == source <==> files[0] <= source || |files[0]| > |source|)
  {
    if k > 0 {
      UploadsTogether(source, sessions, files, k - 1);
      KeptTogether(sessions[k - 1]);
      ContinuedTwice(source, files[0], files[k - 1], files[k]);
      if Completes(sessions[k - 1].exit) {
        CompletedTogether(sessions[k - 1]);
        FullMeansSource(source, files[0], files[k]);
      }
    }
  }

  lemma FullMeansSource(source: Bytes, first: Bytes, file: Bytes)
    requires Continued(source, first, file) && |file| == |source|
    ensures file == source <==> first <= source || |first| > |source|
  {
    var off := ServerOffset(|first|, |source|);
    assert source == source[..off] + source[off..];
    assert file == U.Spliced(first, off, source, |source|) == first[..off] + source[off..];
    assert first[..off] == file[..off];
  }

  // ---------- a READY line that is cut while the connection lives ----------

  /** READY is cut after k bytes, the client sends everything from there on and hears no more, and the
      server takes as much of that as it waits for. */
  lemma CutIsConnected(setup: L.Setup, before: Bytes, off: nat, k: nat) returns (from: nat, data: Bytes, e: Ends)
    requires setup.Valid() && 0 < off == ServerOffset(|before|, |setup.source|) < |setup.source| && 6 < k < |ReadyText(off)|
    ensures Connected(e) && e.setup == setup && e.before == before && e.end == Put(P.Answered(true))
    ensures e.toClient == ReadyText(off)[..k] && !W.Refused(e.toClient) && from == W.OffsetTold(e.toClient, |setup.source|) < off
    ensures data == setup.source[from..from + (|setup.source| - off)] && e.after == before[..off] + data
  {
    from := OffsetOfCut(setup.source, off, k);
    data := setup.source[from..from + (|setup.source| - off)];
    SendsFrom(setup, ReadyText(off)[..k], from);
    AnswersOk(setup, before, off, data);
    e := CutEndsMeet(setup, before, data, before[..off] + data, ReadyText(off), "OK:" + Decimal(|setup.source|) + "\n", k, from);
  }

  lemma CutEndsMeet(setup: L.Setup, before: Bytes, data: Bytes, after: Bytes, ready: Bytes, answer: Bytes, k: nat, from: nat)
      returns (e: Ends)
    requires setup.Valid() && k <= |ready| && from + |data| <= |setup.source| && data == setup.source[from..from + |data|]
    requires W.Carried(setup, ready[..k], setup.Command() + setup.source[from..], W.AtFinal([]))
    requires ServedBy(Put(P.Answered(true)), before, setup.Command() + data, after, ready + "\n" + answer)
    ensures Connected(e) && e.setup == setup && e.before == before && e.end == Put(P.Answered(true))
    ensures e.toClient == ready[..k] && e.after == after
  {
    FrontOfReply(ready, k, answer);
    FrontOfData(setup.Command(), setup.source, from, from + |data|);
    e := Ends(setup, W.AtFinal([]), ready[..k], setup.Command() + setup.source[from..], Put(P.Answered(true)), before,
              setup.Command() + data, after, ready + "\n" + answer);
  }

  lemma WrongStretch(source: Bytes, before: Bytes, after: Bytes, off: nat, from: nat)
    requires off == ServerOffset(|before|, |source|) && 0 < off < |source| && from < off
    requires after == before[..off] + source[from..from + (|source| - off)]
    ensures !Continued(source, before, after) <==> source[from..from + (|source| - off)] != source[off..]
    ensures source[off] !in source[..off] ==> !Continued(source, before, after)
  {
    var n := |source| - off;
    assert source[off..off + n] == source[off..];
    TookRightBytes(source, before, after, off, from, n);
    assert source[from..from + n][0] == source[..off][from] && source[off..][0] == source[off];
  }

  /** When something else cuts READY short behind a digit, such as a receive timeout, the client goes on at
      a smaller offset than the server writes at, and the server can still answer OK.  Its file is then
      wrong exactly when the two stretches of the source differ, as they do when the byte at the server's
      offset is found nowhere before it. */
  lemma CutReadyOnOpenConnection(setup: L.Setup, before: Bytes, k: nat) returns (from: nat, e: Ends)
    requires setup.Valid() && 0 < ServerOffset(|before|, |setup.source|) < |setup.source|
    requires 6 < k < |ReadyText(ServerOffset(|before|, |setup.source|))|
    ensures Connected(e) && e.setup == setup && e.before == before && e.end == Put(P.Answered(true))
    ensures var source, off := setup.source, ServerOffset(|before|, |setup.source|);
            && e.toClient == ReadyText(off)[..k] && !W.Refused(e.toClient) && from == W.OffsetTold(e.toClient, |source|) < off
            && (!Continued(source, before, e.after) <==> source[from..from + (|source| - off)] != source[off..])
            && (source[off] !in source[..off] ==> !Continued(source, before, e.after))
  {
    var off, data := ServerOffset(|before|, |setup.source|), [];
    from, data, e := CutIsConnected(setup, before, off, k);
    WrongStretch(setup.source, before, e.after, off, from);
  }

  lemma FrontOfReply(text: Bytes, k: nat, tail: Bytes)
    requires k <= |text|
    ensures text[..k] <= text + "\n" + tail
  {
  }

  lemma FrontOfData(command: Bytes, source: Bytes, from: nat, to: nat)
    requires from <= to <= |source|
    ensures command + source[from..to] <= command + source[from..]
  {
    assert source[from..to] == source[from..][..to - from];
  }

  lemma OffsetOfCut(source: Bytes, off: nat, k: nat) returns (from: nat)
    requires 0 < off < |source| < LLONG_LIMIT && 6 < k < |ReadyText(off)|
    ensures var toClient := ReadyText(off)[..k];
            && !W.Refused(toClient) && from == W.OffsetTold(toClient, |source|) < off && ClientLine([], toClient) == Cut(toClient, [])
  {
    ReadyIsCut(off, ReadyText(off)[..k]);
    CutReadyIsSmaller(off, k);
    from := W.OffsetTold(ReadyText(off)[..k], |source|);
  }

  lemma SendsFrom(setup: L.Setup, toClient: Bytes, from: nat)
    requires !W.Refused(toClient) && from == W.OffsetTold(toClient, |setup.source|) < |setup.source|
    requires ClientLine([], toClient) == Cut(toClient, [])
    ensures W.Carried(setup, toClient, setup.Command() + setup.source[from..], W.AtFinal([]))
  {
    assert W.SentPart(setup, setup.Command() + setup.source[from..], from, |setup.source|);
    assert W.SecondLine(toClient) == [];
  }

  /** Any bytes of the right number fill the file. */
  lemma AnswersOk(setup: L.Setup, before: Bytes, off: nat, data: Bytes)
    requires setup.Valid() && off == ServerOffset(|before|, |setup.source|) && |data| == |setup.source| - off
    ensures ServedBy(Put(P.Answered(true)), before, setup.Command() + data, before[..off] + data,
                     ReadyText(off) + "\n" + ("OK:" + Decimal(|setup.source|) + "\n"))
  {
    var size := |setup.source|;
    CommandArrives(setup, setup.Command() + data, data);
    assert (setup.Command() + data)[|setup.Command()|..] == data && data[..|data|] == data;
    assert P.Served(size, before, data, before[..off] + data, [], true, |data|);
    assert P.Handled(P.Answered(true), size, before, data, before[..off] + data, [], ReadyText(off) + "\n" + ("OK:" + Decimal(size) + "\n"));
  }

  // ---------- the two programs ----------

  /** The handler on what reaches it and the worker on what reaches it.  Where these are front parts of
      what the other has sent, they are two ends of a connection. */
  method RunBothEnds(service: R.TransferService, taskId: C.TaskId, source: Bytes, name: Bytes, startOffset: int, seekable: bool,
                     disk: Disk, toServer: Bytes, toClient: Bytes, handle: int, ghost start: U.World)
      returns (ok: bool, ghost fromServer: Bytes, ghost run: W.Run)
    requires service.Valid() && disk.Valid() && L.Setup(source, name, ClampUploadOffset(startOffset, |source|), 1).Valid()
    modifies service, service.control, disk
    ensures service.Valid() && disk.Valid() && (run == W.Unregistered ==> !ok)
    ensures run == W.Unregistered <==> old(service.shutdownRequested) || handle < 0
    ensures run.Run? && toClient <= fromServer && toServer <= run.outbox ==>
              && (ok ==> |disk.content| == |source| && disk.content
                         == U.Spliced(old(disk.content), ServerOffset(|old(disk.content)|, |source|), source, |source|))
              && (ClientLine([], toClient).Line? || |toServer| <= |run.setup.Command()| ==>
                    Continued(source, old(disk.content), disk.content))
  {
    ghost var before, setup := disk.content, L.Setup(source, name, ClampUploadOffset(startOffset, |source|), 1);
    var sock := new Socket(toServer);
    var end := HandleClient(sock, disk, setup);
    fromServer := sock.outbox;
    ghost var after, status, running := disk.content, R.Failed, [];
    var client := new Socket(toClient);
    ok, status, running, run := W.FileUploadResumable(service, taskId, true, Some(source), seekable, name, startOffset, client, handle, start);
    assert disk.content == after;
    if run.Run? && toClient <= fromServer && toServer <= run.outbox {
      ghost var e := Ends(setup, run.exit, toClient, run.outbox, end, before, toServer, after, fromServer);
      if ok {
        CompletedTogether(e);
      }
      if ClientLine([], toClient).Line? || |toServer| <= |run.setup.Command()| {
        WholeOrEnded(e);
        KeptTogether(e);
      }
    }
  }
}
