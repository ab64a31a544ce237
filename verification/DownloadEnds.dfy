/** The two programs at the ends of the two connections of one download, put together: what arrives at
    one end is a front part of what the other has handed over. */
module DownloadEnds {
  import opened Text
  import opened Sockets
  import opened WireFormat
  import opened RequestPolicy
  import opened Disks
  import L = DownloadLink
  import S = DownloadSessions
  import U = UploadSessions
  import P = FileSaveServer
  import W = DownloadWorker
  import R = TransferRun
  import C = ControlState

  // ---------- the server's end ----------

  /** How a connection ended for the server. */
  datatype End = NoCommand | OtherCommand | Save(outcome: P.Outcome)

  ghost predicate ServedBy(end: End, remote: Bytes, arriving: Bytes, outbox: Bytes) {
    match ReadCommand(arriving, false)
    case Nothing => end == NoCommand && outbox == []
    case Received(FileSize(_), rest) =>
      end.Save? && P.SizeAsked(end.outcome) && exists left :: P.Answered(end.outcome, remote, 0, 0, rest, outbox, left)
    case Received(FileRange(_, first, last), rest) =>
      end.Save? && end.outcome != P.SizeOnly && exists left :: P.Answered(end.outcome, remote, first, last, rest, outbox, left)
    case Received(_, _) => end == OtherCommand
  }

  /** `handleClient` as far as downloads of a file go that it may not be able to open. */
  method HandleClient(sock: Socket, remote: Bytes, readable: bool) returns (end: End)
    requires sock.outbox == []
    modifies sock
    ensures ServedBy(end, remote, old(sock.inbox), sock.outbox) && (end.Save? ==> (end.outcome == P.NotThere <==> !readable))
  {
    var read, command := SafeRecvLine(sock);
    if !read {
      return NoCommand;
    }
    var parts := SplitTokens(command, '|');
    match Dispatch(parts, false)
    case FileSize(_) => end := RunHandler(sock, remote, readable, 0, 0, true);
    case FileRange(_, first, last) => end := RunHandler(sock, remote, readable, first, last, false);
    case _ => end := OtherCommand;
  }

  method RunHandler(sock: Socket, remote: Bytes, readable: bool, first: nat, last: nat, sizeOnly: bool) returns (end: End)
    requires sock.outbox == []
    modifies sock
    ensures end.Save? && (if sizeOnly then P.SizeAsked(end.outcome) else end.outcome != P.SizeOnly)
    ensures P.Answered(end.outcome, remote, first, last, old(sock.inbox), sock.outbox, sock.inbox)
    ensures end.outcome == P.NotThere <==> !readable
  {
    ghost var setup := L.Setup(remote, [], 0, 0, false, 1);
    ghost var client := L.Client(L.Stopped, [], [], 0, 0, [], []);
    ghost var server := L.Server(L.SendingSize, [], L.SizeLine(setup), first, last, L.SizeLine(setup));
    var outcome, _ := P.HandleFileSave(sock, if readable then Some(remote) else None, first, last, sizeOnly, setup,
                                       S.World([], L.Link(client, server, sock.inbox, [], false)));
    end := Save(outcome);
  }

  // ---------- what one end hears of the other ----------

  /** A name and a size whose commands all fit into one line. */
  predicate Servable(name: Bytes, remote: Bytes) {
    CleanName(name) && name != [] && |remote| < LLONG_LIMIT && |RangeText(name, |remote|, |remote|)| < MAX_LINE
  }

  lemma {:induction false} LongerNumbers(a: nat, b: nat)
    requires a <= b
    ensures |Decimal(a)| <= |Decimal(b)|
    decreases b
  {
    if b >= 10 && a >= 10 {
      LongerNumbers(a / 10, b / 10);
    }
  }

  lemma RangeLength(name: Bytes, first: nat, last: nat)
    ensures |RangeText(name, first, last)| == 11 + |name| + |Decimal(first)| + |Decimal(last)|
  {
    var a, b := Decimal(first), Decimal(last);
    assert Join([b], '|') == b;
    assert [a, b][1..] == [b];
    assert Join([a, b], '|') == a + ['|'] + b;
    assert [name, a, b][1..] == [a, b];
    assert Join([name, a, b], '|') == name + ['|'] + Join([a, b], '|');
    assert ["filesave", name, a, b][1..] == [name, a, b];
  }

  lemma SizeLength(name: Bytes)
    ensures |SizeText(name)| == 9 + |name|
  {
    assert ["filesave", name][1..] == [name];
    assert Join([name], '|') == name;
    assert Join(["filesave", name], '|') == "filesave" + ['|'] + name;
  }

  lemma CommandsFit(name: Bytes, remote: Bytes, first: nat, last: nat)
    requires Servable(name, remote) && first <= |remote| && last <= |remote|
    ensures |SizeText(name)| < MAX_LINE && |RangeText(name, first, last)| < MAX_LINE
  {
    RangeLength(name, first, last);
    RangeLength(name, |remote|, |remote|);
    SizeLength(name);
    LongerNumbers(first, |remote|);
    LongerNumbers(last, |remote|);
  }

  /** A part of what the client sent that ends inside its command is no command. */
  lemma NoCommandArrives(text: Bytes, arriving: Bytes)
    requires Free(text, '\n') && arriving < text + "\n"
    ensures ReadCommand(arriving, false) == Nothing
  {
    assert arriving == (text + "\n")[..|arriving|] == text[..|arriving|];
    ServerReadsNoLine([], arriving);
  }

  /** What the client reads as the first line of a front part of a conversation is a front part of its
      first line, and what it finds behind that is a front part of the rest. */
  lemma FirstLineArrives(text: Bytes, tail: Bytes, arriving: Bytes)
    requires Free(text, '\n') && arriving <= text + "\n" + tail
    ensures FirstLine(arriving) <= text && ClientLine([], arriving).rest <= tail
  {
    FrontOfSum(text + "\n", tail, arriving);
    if |arriving| >= |text + "\n"| {
      var rest := arriving[|text + "\n"|..];
      ClientReadsLine([], text, rest);
      assert [] + text == text;
    } else {
      assert arriving == (text + "\n")[..|arriving|] == text[..|arriving|];
      ClientReadsCutLine([], arriving);
      assert [] + arriving == arriving;
    }
  }

  // ---------- the query ----------

  lemma QueryUnderstood(name: Bytes, remote: Bytes, arriving: Bytes)
    requires Servable(name, remote) && arriving <= SizeText(name) + "\n"
    ensures ReadCommand(arriving, false) == Nothing || ReadCommand(arriving, false) == Received(FileSize(name), [])
  {
    CommandsFit(name, remote, 0, 0);
    SizeTextIsClean(name);
    if |arriving| < |SizeText(name) + "\n"| {
      NoCommandArrives(SizeText(name), arriving);
    } else {
      SizeCommandRoundTrip(name, [], false);
      assert arriving == SizeText(name) + "\n" + [];
    }
  }

  lemma SizeTextIsClean(name: Bytes)
    requires CleanName(name)
    ensures Free(SizeText(name), '\n') && Free(SizeText(name), '\r')
  {
    JoinIsFree(["filesave", name], '|', '\n');
    JoinIsFree(["filesave", name], '|', '\r');
  }

  /** The reply to the query is told for an error, or it is a front part of the number or of an error. */
  lemma ReplyArrives(name: Bytes, remote: Bytes, end: End, toServer: Bytes, fromServer: Bytes, toClient: Bytes)
    requires Servable(name, remote) && toServer <= SizeText(name) + "\n"
    requires ServedBy(end, remote, toServer, fromServer) && toClient <= fromServer
    ensures "ERROR" <= FirstLine(toClient) || S.SizeReply(remote, FirstLine(toClient))
  {
    QueryUnderstood(name, remote, toServer);
    DecimalIsClean(|remote|);
    if ReadCommand(toServer, false) == Nothing {
      assert FirstLine(toClient) == [];
    } else {
      var left :| P.Answered(end.outcome, remote, 0, 0, [], fromServer, left);
      var text := if end.outcome == P.NotThere then ERROR_TEXT else Decimal(|remote|);
      assert text + "\n" + [] == text + "\n";
      FirstLineArrives(text, [], toClient);
    }
  }

  // ---------- the range ----------

  /** Both ends of the range connection when the programs are done with it. */
  datatype Range = Range(setup: L.Setup, exit: W.Exit, toClient: Bytes, fromClient: Bytes, end: End, toServer: Bytes, fromServer: Bytes)

  ghost predicate RangeConnected(r: Range) {
    && r.setup.Valid()
    && W.Registered(r.exit) && W.Carried(r.setup, r.toClient, r.fromClient, r.exit)
    && ServedBy(r.end, r.setup.remote, r.toServer, r.fromServer)
    && r.toClient <= r.fromServer && r.toServer <= r.fromClient
  }

  lemma SentAtMost(setup: L.Setup, arriving: Bytes, outbox: Bytes, exit: W.Exit)
    requires setup.size > 0 && W.Carried(setup, arriving, outbox, exit)
    ensures outbox <= setup.Request() + "OK\n"
  {
  }

  lemma WholeRequest(setup: L.Setup, rest: Bytes)
    requires setup.Valid()
    ensures ReadCommand(setup.Request() + rest, false) == Received(FileRange(setup.name, setup.start, setup.size - 1), rest)
  {
    RangeCommandRoundTrip(setup.name, setup.start, setup.size - 1, rest, false);
  }

  lemma RangeTextIsClean(name: Bytes, first: nat, last: nat)
    requires CleanName(name)
    ensures Free(RangeText(name, first, last), '\n')
  {
    DecimalIsClean(first);
    DecimalIsClean(last);
    JoinIsFree(["filesave", name, Decimal(first), Decimal(last)], '|', '\n');
  }

  lemma CutRequest(setup: L.Setup, arriving: Bytes)
    requires setup.Valid() && arriving < setup.Request()
    ensures ReadCommand(arriving, false) == Nothing
  {
    RangeTextIsClean(setup.name, setup.start, setup.size - 1);
    NoCommandArrives(RangeText(setup.name, setup.start, setup.size - 1), arriving);
  }

  /** The server takes what reaches it for the range command or for none. */
  lemma RangeUnderstood(setup: L.Setup, arriving: Bytes) returns (rest: Bytes)
    requires setup.Valid() && arriving <= setup.Request() + "OK\n"
    ensures ReadCommand(arriving, false) == Nothing
            || ReadCommand(arriving, false) == Received(FileRange(setup.name, setup.start, setup.size - 1), rest)
  {
    FrontOfSum(setup.Request(), "OK\n", arriving);
    rest := [];
    if |arriving| < |setup.Request()| {
      CutRequest(setup, arriving);
    } else {
      rest := arriving[|setup.Request()|..];
      WholeRequest(setup, rest);
    }
  }

  /** What the client finds behind the size line are the wanted bytes in order. */
  lemma DataArrives(r: Range)
    requires RangeConnected(r)
    ensures ClientLine([], r.toClient).rest <= r.setup.remote[r.setup.start..]
  {
    var setup, remote := r.setup, r.setup.remote;
    SentAtMost(setup, r.toClient, r.fromClient, r.exit);
    var rest := RangeUnderstood(setup, r.toServer);
    DecimalIsClean(|remote|);
    if ReadCommand(r.toServer, false) == Nothing {
      assert ClientLine([], r.toClient).rest == [];
    } else {
      var left :| P.Answered(r.end.outcome, remote, setup.start, setup.size - 1, rest, r.fromServer, left);
      ErrorOrData(r.end.outcome, setup, rest, r.fromServer, left, r.toClient);
    }
  }

  lemma ErrorOrData(outcome: P.Outcome, setup: L.Setup, rest: Bytes, fromServer: Bytes, left: Bytes, toClient: Bytes)
    requires setup.Valid() && outcome != P.SizeOnly && toClient <= fromServer
    requires P.Answered(outcome, setup.remote, setup.start, setup.size - 1, rest, fromServer, left)
    ensures ClientLine([], toClient).rest <= setup.remote[setup.start..]
  {
    var text := if outcome == P.NotThere then ERROR_TEXT else Decimal(|setup.remote|);
    DecimalIsClean(|setup.remote|);
    var tail := SentBehindSize(outcome, setup, rest, fromServer, left);
    FirstLineArrives(text, tail, toClient);
  }

  lemma SentBehindSize(outcome: P.Outcome, setup: L.Setup, rest: Bytes, fromServer: Bytes, left: Bytes) returns (tail: Bytes)
    requires setup.Valid() && outcome != P.SizeOnly
    requires P.Answered(outcome, setup.remote, setup.start, setup.size - 1, rest, fromServer, left)
    ensures tail <= setup.remote[setup.start..]
    ensures fromServer <= (if outcome == P.NotThere then ERROR_TEXT else Decimal(|setup.remote|)) + "\n" + tail
  {
    var size := Decimal(|setup.remote|) + "\n";
    tail := [];
    if outcome == P.DataLost || outcome == P.Sent {
      var to: nat :| setup.start <= to <= setup.size && fromServer == size + setup.remote[setup.start..to];
      tail := setup.remote[setup.start..to];
      assert tail == setup.remote[setup.start..][..to - setup.start];
    } else if outcome == P.NotThere {
      assert ERROR_TEXT + "\n" + tail == ERROR_TEXT + "\n";
    } else {
      assert size + tail == size;
    }
  }

  /** Whatever the programs did, the target is as it was, or correctly continued within the size the
      client learned; when the client has received all of it, it has that length. */
  lemma RangeTogether(r: Range, before: Bytes, after: Bytes, status: R.Status)
    requires RangeConnected(r) && W.Ended(r.setup, r.toClient, r.fromClient, r.exit, before, after, status)
    ensures after == before || ContinuedTo(r.setup.remote, r.setup.start, before, after, r.setup.size)
    ensures r.exit == W.AtEnd ==> ContinuedTo(r.setup.remote, r.setup.start, before, after, r.setup.size) && |after| == r.setup.size
  {
    DataArrives(r);
    if W.Receives(r.exit) {
      var data, k := ReceivedPart(r, before, after, status);
      SliceOfRest(r.setup.remote, r.setup.start, data, k);
    }
  }

  lemma ReceivedPart(r: Range, before: Bytes, after: Bytes, status: R.Status) returns (data: Bytes, k: nat)
    requires W.Receives(r.exit) && r.setup.size > 0 && W.Ended(r.setup, r.toClient, r.fromClient, r.exit, before, after, status)
    ensures data == ClientLine([], r.toClient).rest && k <= |data|
    ensures r.setup.start <= |before| && after == before[..r.setup.start] + data[..k]
  {
    data := ClientLine([], r.toClient).rest;
    k :| 0 <= k <= |data| && after == before[..r.setup.start] + data[..k];
  }

  lemma SliceOfRest(remote: Bytes, start: nat, data: Bytes, k: nat)
    requires start <= |remote| && data <= remote[start..] && k <= |data|
    ensures data[..k] == remote[start..start + k]
  {
    assert data == remote[start..][..|data|];
  }

  /** The front part of the old contents up to `off`, continued with remote bytes, and no longer than this. */
  predicate ContinuedTo(remote: Bytes, off: nat, before: Bytes, after: Bytes, size: int) {
    off <= |before| && off <= |after| <= size <= |remote| && after == U.Spliced(before, off, remote, |after|)
  }

  // ---------- both connections ----------

  /** Both connections of one download when the programs are done with them. */
  datatype Ends = Ends(name: Bytes, remote: Bytes, run: W.Run,
                       toQuery: Bytes, queryEnd: End, queryToServer: Bytes, queryFromServer: Bytes,
                       toRange: Bytes, rangeEnd: End, rangeToServer: Bytes, rangeFromServer: Bytes,
                       before: Bytes, after: Bytes)

  ghost predicate Connected(e: Ends) {
    && Servable(e.name, e.remote)
    && W.Fetched(e.run, e.name, e.remote, FirstLine(e.toQuery), e.toRange, e.before, e.after)
    && ServedBy(e.queryEnd, e.remote, e.queryToServer, e.queryFromServer)
    && e.toQuery <= e.queryFromServer && e.queryToServer <= e.run.query
    && (W.Registered(e.run.exit) ==>
          && ServedBy(e.rangeEnd, e.remote, e.rangeToServer, e.rangeFromServer)
          && e.toRange <= e.rangeFromServer && e.rangeToServer <= e.run.outbox)
  }

  predicate Completes(exit: W.Exit) {
    exit.Empty? || exit.AlreadyWhole? || exit.AtEnd?
  }

  function Reply(e: Ends): Bytes {
    FirstLine(e.toQuery)
  }

  function Learned(e: Ends): int {
    S.LearnedSize(Reply(e))
  }

  // An emptied target that could not be opened is left as it is, and reported Completed all the same.
  predicate NotEmptied(e: Ends) {
    e.run.exit.Empty? && e.after != []
  }

  /** A client that goes on behind its query has learned a size of the remote file or a smaller one. */
  lemma SizeTogether(e: Ends)
    requires Connected(e) && !e.run.exit.NotConnected? && !e.run.exit.AtQuery?
    ensures S.SizeReply(e.remote, Reply(e)) && 0 <= Learned(e) <= |e.remote|
    ensures Learned(e) == |e.remote| <==> Reply(e) == Decimal(|e.remote|) || e.remote == []
  {
    ReplyArrives(e.name, e.remote, e.queryEnd, e.queryToServer, e.queryFromServer, e.toQuery);
    S.LearnedSizeOfReply(e.remote, Reply(e));
  }

  lemma SetupFits(name: Bytes, remote: Bytes, size: nat, start: nat)
    requires Servable(name, remote) && start < size <= |remote|
    ensures L.Setup(remote, name, size, start, false, 1).Valid()
  {
    CommandsFit(name, remote, start, size - 1);
  }

  lemma RangeWasFetched(e: Ends) returns (status: R.Status)
    requires W.Fetched(e.run, e.name, e.remote, Reply(e), e.toRange, e.before, e.after) && W.Registered(e.run.exit)
    ensures var size := Learned(e);
            && 0 < size && e.run.setup == L.Setup(e.remote, e.name, size, ResolveDownloadOffset(|e.before|, size), false, 1)
            && e.run.setup.start < size && W.Ended(e.run.setup, e.toRange, e.run.outbox, e.run.exit, e.before, e.after, status)
  {
    status :| W.Ended(e.run.setup, e.toRange, e.run.outbox, e.run.exit, e.before, e.after, status);
  }

  lemma RangeOf(e: Ends) returns (r: Range, status: R.Status)
    requires Connected(e) && W.Registered(e.run.exit)
    ensures RangeConnected(r) && r.setup.remote == e.remote && r.setup.size == Learned(e) && r.exit == e.run.exit
    ensures r.setup.start == ResolveDownloadOffset(|e.before|, Learned(e))
    ensures W.Ended(r.setup, r.toClient, r.fromClient, r.exit, e.before, e.after, status)
  {
    status := RangeWasFetched(e);
    SizeTogether(e);
    r := Range(e.run.setup, e.run.exit, e.toRange, e.run.outbox, e.rangeEnd, e.rangeToServer, e.rangeFromServer);
    SetupFits(e.name, e.remote, r.setup.size, r.setup.start);
  }

  /** Wherever the programs stopped: the target is as it was, emptied for a size of zero, or correctly
      continued within the learned size; and a download reported Completed has the learned length. */
  lemma KeptTogether(e: Ends)
    requires Connected(e)
    ensures || e.after == e.before || (e.after == [] && e.run.exit.Empty? && Learned(e) == 0)
            || ContinuedTo(e.remote, ResolveDownloadOffset(|e.before|, Learned(e)), e.before, e.after, Learned(e))
    ensures Completes(e.run.exit) && !NotEmptied(e) ==> |e.after| == Learned(e)
    ensures e.run.exit.AtEnd? ==> e.after == U.Spliced(e.before, ResolveDownloadOffset(|e.before|, Learned(e)), e.remote, Learned(e))
  {
    if W.Registered(e.run.exit) {
      var r, status := RangeOf(e);
      RangeTogether(r, e.before, e.after, status);
    } else if e.run.exit.AlreadyWhole? {
      SizeTogether(e);
    }
  }

  /** A download reported Completed has the length of the remote file exactly when the size reply
      arrived whole, an empty remote file and a target that cannot be emptied aside. */
  lemma CompletedTogether(e: Ends)
    requires Connected(e) && Completes(e.run.exit) && !NotEmptied(e)
    ensures |e.after| == |e.remote| <==> Reply(e) == Decimal(|e.remote|) || e.remote == []
  {
    KeptTogether(e);
    SizeTogether(e);
  }

  /** And then, when the reply was whole, its contents are the kept front part and the remote rest. */
  lemma CompletedContents(e: Ends)
    requires Connected(e) && Completes(e.run.exit) && !NotEmptied(e) && Reply(e) == Decimal(|e.remote|)
    ensures e.after == U.Spliced(e.before, ResolveDownloadOffset(|e.before|, |e.remote|), e.remote, |e.remote|)
  {
    KeptTogether(e);
    SizeTogether(e);
    if !e.run.exit.AtEnd? {
      assert e.after == e.after[..|e.remote|] + [];
    }
  }

  // ---------- sequences of downloads ----------

  /** Downloads of one remote file by the programs themselves, one after the other. */
  ghost predicate Chain(remote: Bytes, sessions: seq<Ends>, files: seq<Bytes>) {
    && |files| == |sessions| + 1
    && forall i :: 0 <= i < |sessions| ==> DownloadAt(remote, sessions[i], files[i], files[i + 1])
  }

  ghost predicate DownloadAt(remote: Bytes, e: Ends, before: Bytes, after: Bytes) {
    e.remote == remote && Connected(e) && e.before == before && e.after == after
  }

  /** Such downloads whose size replies arrive whole. */
  ghost predicate Sessions(remote: Bytes, sessions: seq<Ends>, files: seq<Bytes>) {
    && |files| == |sessions| + 1
    && forall i :: 0 <= i < |sessions| ==> SessionAt(remote, sessions[i], files[i], files[i + 1])
  }

  ghost predicate SessionAt(remote: Bytes, e: Ends, before: Bytes, after: Bytes) {
    && DownloadAt(remote, e, before, after)
    && (e.run.exit.NotConnected? || e.run.exit.AtQuery? || Reply(e) == Decimal(|remote|))
  }

  lemma FrontPartKept(remote: Bytes, e: Ends, before: Bytes, after: Bytes)
    requires DownloadAt(remote, e, before, after) && before <= remote
    ensures after <= remote
  {
    KeptTogether(e);
    var off := ResolveDownloadOffset(|before|, Learned(e));
    if ContinuedTo(remote, off, before, after, Learned(e)) {
      ContinuedFrontPart(remote, off, before, after);
    }
  }

  lemma ContinuedFrontPart(remote: Bytes, off: nat, before: Bytes, after: Bytes)
    requires before <= remote && off <= |before| && off <= |after| <= |remote|
    requires after == U.Spliced(before, off, remote, |after|)
    ensures after <= remote
  {
    assert before[..off] == remote[..off];
    assert remote[..off] + remote[off..|after|] == remote[..|after|];
  }

  /** Whatever size replies arrive, whole or cut: a target that is a front part of the remote file stays
      one over any number of downloads, however each of them ends. */
  lemma {:induction false} FrontPartStays(remote: Bytes, sessions: seq<Ends>, files: seq<Bytes>, k: nat)
    requires Chain(remote, sessions, files) && k <= |sessions| && files[0] <= remote
    ensures files[k] <= remote
  {
    if k > 0 {
      FrontPartStays(remote, sessions, files, k - 1);
      FrontPartKept(remote, sessions[k - 1], files[k - 1], files[k]);
    }
  }

  lemma OneSession(remote: Bytes, e: Ends, before: Bytes, after: Bytes)
    requires SessionAt(remote, e, before, after)
    ensures S.Resumed(remote, before, after)
    ensures Completes(e.run.exit) && !NotEmptied(e) ==> |after| == |remote|
  {
    KeptTogether(e);
    if !e.run.exit.NotConnected? && !e.run.exit.AtQuery? {
      SizeTogether(e);
    }
  }

  /** Over any number of downloads the target is its first contents or correctly continued; one that
      is reported Completed leaves the remote file exactly when the first contents were a front part
      of it or were too long. */
  lemma {:induction false} DownloadsTogether(remote: Bytes, sessions: seq<Ends>, files: seq<Bytes>, k: nat)
    requires Sessions(remote, sessions, files) && k <= |sessions|
    ensures S.Resumed(remote, files[0], files[k])
    ensures k > 0 && Completes(sessions[k - 1].run.exit) && !NotEmptied(sessions[k - 1]) ==>
              |files[k]| == |remote| && (files[k] == remote <==> files[0] <= remote || |files[0]| > |remote|)
  {
    if k > 0 {
      DownloadsTogether(remote, sessions, files, k - 1);
      OneSession(remote, sessions[k - 1], files[k - 1], files[k]);
      S.ResumedAgain(remote, files[0], files[k - 1], files[k]);
      if |files[k]| == |remote| {
        FullMeansRemote(remote, files[0], files[k]);
      }
    }
  }

  lemma FullMeansRemote(remote: Bytes, first: Bytes, file: Bytes)
    requires S.Resumed(remote, first, file) && |file| == |remote|
    ensures file == remote <==> first <= remote || |first| > |remote|
  {
    var off := ResolveDownloadOffset(|first|, |remote|);
    assert remote == remote[..off] + remote[off..];
    assert file == U.Spliced(first, off, remote, |remote|) == first[..off] + remote[off..];
    assert first[..off] == file[..off];
  }

  // ---------- the two programs ----------

  /** The handlers of both connections on what reaches them, and the worker on what reaches it.  Where
      these are front parts of what the other has sent, they are the ends of two connections. */
  method RunBothEnds(service: R.TransferService, taskId: C.TaskId, disk: Disk, name: Bytes, remote: Bytes,
                     readableFirst: bool, readableThen: bool, queryToServer: Bytes, toQuery: Bytes,
                     rangeToServer: Bytes, toRange: Bytes, queryHandle: int, rangeHandle: int, ghost start: S.World)
      returns (ok: bool, ghost e: Ends)
    requires service.Valid() && disk.Valid() && Servable(name, remote)
    modifies service, service.control, disk
    ensures service.Valid() && disk.Valid() && e.before == old(disk.content) && e.after == disk.content
    ensures e.toQuery == toQuery && e.queryToServer == queryToServer && e.toRange == toRange && e.rangeToServer == rangeToServer
    ensures ok <==> Completes(e.run.exit)
    ensures e.run.exit.NotConnected? <==> old(service.shutdownRequested) || queryHandle < 0
    ensures && toQuery <= e.queryFromServer && queryToServer <= e.run.query
            && (W.Registered(e.run.exit) ==> toRange <= e.rangeFromServer && rangeToServer <= e.run.outbox)
            ==> Connected(e) && e.remote == remote
    ensures Connected(e) && ok && !NotEmptied(e) ==>
              && (|disk.content| == |remote| <==> Reply(e) == Decimal(|remote|) || remote == [])
              && (Reply(e) == Decimal(|remote|) ==>
                    disk.content == U.Spliced(old(disk.content), ResolveDownloadOffset(|old(disk.content)|, |remote|), remote, |remote|))
  {
    ghost var before := disk.content;
    var first := new Socket(queryToServer);
    var queryEnd := HandleClient(first, remote, readableFirst);
    var second := new Socket(rangeToServer);
    var rangeEnd := HandleClient(second, remote, readableThen);
    ghost var status, running, run;
    var query := new Socket(toQuery);
    var range := new Socket(toRange);
    ok, status, running, run := W.FileDownloadResumable(service, taskId, true, disk, name, query, queryHandle, range, rangeHandle, remote, start);
    e := Ends(name, remote, run, toQuery, queryEnd, queryToServer, first.outbox,
              toRange, rangeEnd, rangeToServer, second.outbox, before, disk.content);
    if Connected(e) && ok && !NotEmptied(e) {
      CompletedTogether(e);
      if Reply(e) == Decimal(|remote|) {
        CompletedContents(e);
      }
    }
  }
}
