/** Every run of an upload connection is finite, and a run that nothing disturbs can only stop
    when both ends are done and the whole source is in the file. */
module UploadProgress {
  import opened Text
  import opened WireFormat
  import opened RequestPolicy
  import opened UploadLink
  import opened UploadSafety
  import opened UploadSessions

  // ---------- every step uses something up ----------

  function ClientRank(p: ClientPhase): nat {
    match p
    case Commanding => 4
    case AwaitingReady => 3
    case Streaming => 2
    case AwaitingFinal => 1
    case _ => 0
  }

  function ServerRank(p: ServerPhase): nat {
    match p
    case ReadingCommand => 6
    case Probing => 5
    case Opening => 4
    case SendingReady => 3
    case SendingFinal => 1
    case Closed => 0
    case _ => 2
  }

  function Stage(l: Link): nat {
    ClientRank(l.client.phase) + ServerRank(l.server.phase)
  }

  // A byte weighs less the further it has come.
  function Weight(setup: Setup, l: Link): nat {
    var unread := if l.client.taken <= |setup.source| then |setup.source| - l.client.taken else 0;
    6 * unread + 5 * |l.client.out| + 4 * |l.up| + |l.server.buf| + 2 * |l.server.out| + |l.down|
    + (if l.server.phase == Writing then 2 else if l.server.phase == Measuring then 1 else 0)
    + (if l.live then 1 else 0)
  }

  predicate Smaller(setup: Setup, l': Link, l: Link) {
    Stage(l') < Stage(l) || (Stage(l') == Stage(l) && Weight(setup, l') < Weight(setup, l))
  }

  lemma ClientStepShrinks(setup: Setup, file: Bytes, l: Link, a: Action)
    requires Enabled(setup, file, l, a) && ByClient(a)
    ensures Smaller(setup, LinkAfter(setup, file, l, a), l)
  {
  }

  lemma ServerStepShrinks(setup: Setup, file: Bytes, l: Link, a: Action)
    requires Enabled(setup, file, l, a) && !ByClient(a)
    ensures Smaller(setup, LinkAfter(setup, file, l, a), l)
  {
  }

  /** Every action, a disturbing one too, lowers the stage or keeps it and lowers the weight: no
      run goes on for ever. */
  lemma EveryStepShrinks(setup: Setup, file: Bytes, l: Link, a: Action)
    requires Enabled(setup, file, l, a)
    ensures Smaller(setup, LinkAfter(setup, file, l, a), l)
  {
    if ByClient(a) {
      ClientStepShrinks(setup, file, l, a);
    } else {
      ServerStepShrinks(setup, file, l, a);
    }
  }

  // ---------- undisturbed runs ----------

  /** The steps of a connection that is not cut. */
  predicate Normal(a: Action) {
    !a.ClientStop? && !a.ServerStop? && !a.Break? && !a.ClientLineEnd?
  }

  function Open(l: Link): Link {
    l.(live := true)
  }

  /** Until the client is done, an undisturbed connection is as good as open, even when the server
      has already closed its end. */
  ghost predicate Undisturbed(setup: Setup, l: Link) {
    var c, s := l.client, l.server;
    && c.phase != Stopped
    && (c.phase != Completed ==> LinkInv(setup, Open(l)) && (l.live || s.phase == Closed))
    && (c.phase == Completed ==> Opened(s) && s.phase != SendingReady && s.pos >= |setup.source|)
    && (s.phase == SendingFinal || s.phase == Closed ==> s.ok)
    && (s.phase == SendingReady ==> s.out != [])
    && (s.phase == Closed ==> s.out == [])
  }

  predicate BothDone(l: Link) {
    l.client.phase == Completed && l.server.phase == Closed
  }

  lemma NothingToSendAfterClose(setup: Setup, initial: Bytes, w: World)
    requires Undisturbed(setup, w.link) && FileInv(setup, initial, w)
    requires w.link.server.phase == Closed && w.link.client.phase != Completed
    ensures w.link.client.phase == AwaitingReady || w.link.client.phase == Streaming || w.link.client.phase == AwaitingFinal
    ensures w.link.client.out == []
    ensures w.link.client.phase == Streaming ==> w.link.client.taken == |setup.source|
  {
    assert LinkInv(setup, Open(w.link));
  }

  /** A client whose connection is not cut reads its final line as a whole, and it says OK. */
  lemma FinalLineIsOk(setup: Setup, l: Link)
    requires Undisturbed(setup, l) && l.client.phase == AwaitingFinal
    requires l.down != [] && l.down[0] == '\n'
    ensures "OK" <= l.client.line
  {
    var c, s, rest := l.client, l.server, l.down[1..];
    assert LinkInv(setup, Open(l));
    assert Answered(s) && s.ok;
    RestOfSaid(ReadyLine(s), c.line, l.down, s.out, FinalText(s.ok, s.total));
    DecimalIsClean(s.total);
    assert FinalText(s.ok, s.total) == OkText(s.total) + "\n" + [];
    SameFirstLine(c.line, rest + s.out, OkText(s.total), []);
  }

  lemma RestOfSaid(ready: Bytes, line: Bytes, down: Bytes, out: Bytes, answer: Bytes)
    requires down != [] && down[0] == '\n'
    requires ready + line + down + out == ready + answer
    ensures line + "\n" + (down[1..] + out) == answer
  {
    assert line + "\n" + (down[1..] + out) == (ready + line + down + out)[|ready|..];
  }

  lemma UndisturbedByLine(setup: Setup, initial: Bytes, w: World)
    requires setup.Valid() && Undisturbed(setup, w.link) && FileInv(setup, initial, w)
    requires Enabled(setup, w.file, w.link, ClientByte)
    ensures Undisturbed(setup, LinkAfter(setup, w.file, w.link, ClientByte))
  {
    var l := w.link;
    StepKeeps(setup, w.file, Open(l), ClientByte);
    if l.down[0] == '\n' {
      if l.client.phase == AwaitingReady {
        ReadyLineIsWhole(Open(l));
      } else {
        FinalLineIsOk(setup, l);
      }
    }
  }

  lemma UndisturbedByClient(setup: Setup, initial: Bytes, w: World, a: Action)
    requires setup.Valid() && Undisturbed(setup, w.link) && FileInv(setup, initial, w)
    requires Enabled(setup, w.file, w.link, a) && Normal(a) && ByClient(a)
    ensures Undisturbed(setup, LinkAfter(setup, w.file, w.link, a))
  {
    if a.ClientByte? {
      UndisturbedByLine(setup, initial, w);
    } else {
      if w.link.server.phase == Closed {
        NothingToSendAfterClose(setup, initial, w);
      }
      StepKeeps(setup, w.file, Open(w.link), a);
    }
  }

  lemma UndisturbedByClose(setup: Setup, l: Link)
    requires Undisturbed(setup, l) && l.server.phase == SendingFinal && l.server.out == []
    ensures Undisturbed(setup, l.(server := l.server.(phase := Closed), live := false))
  {
  }

  lemma UndisturbedByServer(setup: Setup, initial: Bytes, w: World, a: Action)
    requires setup.Valid() && Undisturbed(setup, w.link) && Inv(setup, initial, w)
    requires Enabled(setup, w.file, w.link, a) && Normal(a) && !ByClient(a) && !a.ServerClose?
    ensures Undisturbed(setup, LinkAfter(setup, w.file, w.link, a))
  {
    StepKeeps(setup, w.file, w.link, a);
    if a.ServerByte? {
      CommandByteKept(setup, w.file, w.link);
    }
  }

  lemma UndisturbedKept(setup: Setup, initial: Bytes, w: World, a: Action)
    requires setup.Valid() && Undisturbed(setup, w.link) && Inv(setup, initial, w)
    requires Enabled(setup, w.file, w.link, a) && Normal(a)
    ensures Undisturbed(setup, LinkAfter(setup, w.file, w.link, a))
  {
    if ByClient(a) {
      UndisturbedByClient(setup, initial, w, a);
    } else if a.ServerClose? {
      UndisturbedByClose(setup, w.link);
    } else {
      UndisturbedByServer(setup, initial, w, a);
    }
  }

  /** What is known of a world that an undisturbed run has reached. */
  ghost predicate Good(setup: Setup, initial: Bytes, w: World) {
    setup.Valid() && Undisturbed(setup, w.link) && Inv(setup, initial, w)
  }

  // ---------- an undisturbed connection never blocks ----------

  predicate CanGoOn(setup: Setup, w: World, a: Action) {
    Normal(a) && Enabled(setup, w.file, w.link, a)
  }

  /** A client that waits for a reply line the server has sent as a whole has a byte to read. */
  lemma ReplyUnderWay(setup: Setup, l: Link)
    requires Undisturbed(setup, l) && l.server.out == [] && Opened(l.server)
    requires l.client.phase == AwaitingReady || (l.client.phase == AwaitingFinal && Answered(l.server))
    ensures l.down != []
  {
    assert LinkInv(setup, Open(l));
    if l.client.phase == AwaitingReady {
      LineUnderWay(Open(l), []);
    } else {
      LineUnderWay(Open(l), ReadyLine(l.server));
    }
  }

  lemma LineUnderWay(l: Link, front: Bytes)
    requires Replies(l) && l.live && Opened(l.server) && l.server.out == []
    requires l.client.heard == front + l.client.line && Free(l.client.line, '\n')
    requires front == [] || (front == ReadyLine(l.server) && Answered(l.server))
    ensures l.down != []
  {
    assert l.client.heard + l.down == l.server.said;
    MoreToCome(front, l.client.line, l.down, l.server.said);
  }

  /** A line without a newline is not yet all of a text that ends with one. */
  lemma MoreToCome(front: Bytes, line: Bytes, rest: Bytes, whole: Bytes)
    requires front + line + rest == whole && |whole| > |front| && whole[|whole| - 1] == '\n' && Free(line, '\n')
    ensures rest != []
  {
    assert forall i :: 0 <= i < |line| ==> whole[|front| + i] == line[i] && line[i] != '\n';
  }

  lemma CommandUnderWay(setup: Setup, initial: Bytes, w: World) returns (a: Action)
    requires setup.Valid() && Undisturbed(setup, w.link) && Inv(setup, initial, w)
    requires w.link.server.phase == ReadingCommand
    ensures CanGoOn(setup, w, a)
  {
    var c, s := w.link.client, w.link.server;
    if w.link.up != [] {
      a := ServerByte;
    } else {
      if c.phase == AwaitingReady {
        MoreToCome([], s.line, w.link.up, setup.Command());
        assert false;
      }
      a := ClientSend(1);
    }
  }

  lemma SendingUnderWay(setup: Setup, initial: Bytes, w: World) returns (a: Action)
    requires setup.Valid() && Undisturbed(setup, w.link) && Inv(setup, initial, w)
    requires w.link.server.phase == SendingReady || w.link.server.phase == SendingFinal
    ensures CanGoOn(setup, w, a)
  {
    var c, s, l := w.link.client, w.link.server, w.link;
    if s.out == [] {
      a := ServerClose;
    } else if !l.live || |l.down| < setup.room {
      a := ServerSend(1);
    } else if c.phase == Streaming {
      a := ClientAtEnd;
    } else {
      a := ClientByte;
    }
  }

  lemma DataUnderWay(setup: Setup, initial: Bytes, w: World) returns (a: Action)
    requires setup.Valid() && Undisturbed(setup, w.link) && Inv(setup, initial, w)
    requires w.link.server.phase == Receiving
    ensures CanGoOn(setup, w, a)
  {
    var c, s, l := w.link.client, w.link.server, w.link;
    if s.total >= s.size {
      a := ServerFinish(true);
    } else if l.up != [] {
      a := ServerRecv(1);
    } else if c.phase == AwaitingReady {
      ReplyUnderWay(setup, l);
      a := ClientByte;
    } else if c.out != [] {
      a := ClientSend(1);
    } else {
      a := ClientRead(1);
    }
  }

  lemma AnswerUnderWay(setup: Setup, initial: Bytes, w: World) returns (a: Action)
    requires setup.Valid() && Undisturbed(setup, w.link) && Inv(setup, initial, w)
    requires w.link.server.phase == Closed && w.link.client.phase != Completed
    ensures CanGoOn(setup, w, a)
  {
    NothingToSendAfterClose(setup, initial, w);
    if w.link.client.phase == Streaming {
      a := ClientAtEnd;
    } else {
      ReplyUnderWay(setup, w.link);
      a := ClientByte;
    }
  }

  /** While nothing disturbs the connection and the two ends are not both done, one of them can
      take a step, however little room the queues have. */
  lemma NeverStuck(setup: Setup, initial: Bytes, w: World)
    requires Good(setup, initial, w) && !BothDone(w.link)
    ensures exists a :: CanGoOn(setup, w, a)
  {
    match w.link.server.phase
    case ReadingCommand => var a := CommandUnderWay(setup, initial, w);
    case Probing => assert CanGoOn(setup, w, ServerProbe);
    case Opening => assert CanGoOn(setup, w, ServerOpen);
    case Receiving => var a := DataUnderWay(setup, initial, w);
    case Writing => assert CanGoOn(setup, w, ServerWrite(1));
    case Measuring => assert CanGoOn(setup, w, ServerMeasure(true));
    case Closed => var a := AnswerUnderWay(setup, initial, w);
    case _ => var a := SendingUnderWay(setup, initial, w);
  }

  // ---------- the end of undisturbed runs ----------

  lemma FreshIsUndisturbed(setup: Setup)
    requires setup.Valid()
    ensures Undisturbed(setup, Fresh(setup))
  {
    FreshHolds(setup);
  }

  lemma GoodKept(setup: Setup, initial: Bytes, w: World, a: Action)
    requires Good(setup, initial, w) && CanGoOn(setup, w, a)
    ensures Good(setup, initial, Next(setup, w, a))
    ensures Smaller(setup, Next(setup, w, a).link, w.link)
  {
    UndisturbedKept(setup, initial, w, a);
    StepKeeps(setup, w.file, w.link, a);
    FileKept(setup, initial, w, a);
    EveryStepShrinks(setup, w.file, w.link, a);
  }

  lemma {:induction false} UndisturbedRun(setup: Setup, initial: Bytes, w: World, trace: seq<Action>, w': World)
    requires Good(setup, initial, w)
    requires Runs(setup, w, trace, w') && forall a :: a in trace ==> Normal(a)
    ensures Good(setup, initial, w')
    decreases |trace|
  {
    if trace != [] {
      assert trace[0] in trace;
      GoodKept(setup, initial, w, trace[0]);
      UndisturbedRun(setup, initial, Next(setup, w, trace[0]), trace[1..], w');
    }
  }

  /** An undisturbed run of an upload that cannot be continued has ended well: the client reports
      Completed, the server has answered OK, and the file holds the source behind the offset. */
  lemma UndisturbedUploadCompletes(setup: Setup, file: Bytes, trace: seq<Action>, file': Bytes, l: Link)
    requires SessionRuns(setup, file, trace, file', l) && forall a :: a in trace ==> Normal(a)
    requires forall a :: !CanGoOn(setup, World(file', l), a)
    ensures BothDone(l) && l.server.ok && l.client.committed == |setup.source|
    ensures file' == Spliced(file, ServerOffset(|file|, |setup.source|), setup.source, |setup.source|)
  {
    FreshHolds(setup);
    FreshIsUndisturbed(setup);
    UndisturbedRun(setup, file, World(file, Fresh(setup)), trace, World(file', l));
    if !BothDone(l) {
      NeverStuck(setup, file, World(file', l));
    }
    OneSession(setup, file, trace, file', l);
  }

  /** Some undisturbed run leads from one world to the other. */
  ghost predicate Leads(setup: Setup, w: World, trace: seq<Action>, w': World) {
    Runs(setup, w, trace, w') && forall a :: a in trace ==> Normal(a)
  }

  lemma LeadsPrepended(setup: Setup, w: World, a: Action, trace: seq<Action>, w': World)
    requires CanGoOn(setup, w, a) && Leads(setup, Next(setup, w, a), trace, w')
    ensures Leads(setup, w, [a] + trace, w')
  {
    RunsPrepended(setup, w, a, trace, w');
  }

  ghost predicate Finishable(setup: Setup, w: World) {
    exists trace, w' :: Leads(setup, w, trace, w') && BothDone(w'.link)
  }

  lemma FinishableBefore(setup: Setup, w: World, a: Action)
    requires CanGoOn(setup, w, a) && Finishable(setup, Next(setup, w, a))
    ensures Finishable(setup, w)
  {
    var trace, w' :| Leads(setup, Next(setup, w, a), trace, w') && BothDone(w'.link);
    LeadsPrepended(setup, w, a, trace, w');
  }

  /** From every state of an undisturbed run the connection can in fact be brought to that end. */
  lemma {:induction false} CanBeFinished(setup: Setup, initial: Bytes, w: World)
    requires Good(setup, initial, w)
    ensures Finishable(setup, w)
    decreases Stage(w.link), Weight(setup, w.link)
  {
    if BothDone(w.link) {
      assert Leads(setup, w, [], w);
    } else {
      NeverStuck(setup, initial, w);
      var a :| CanGoOn(setup, w, a);
      GoodKept(setup, initial, w, a);
      CanBeFinished(setup, initial, Next(setup, w, a));
      FinishableBefore(setup, w, a);
    }
  }

  // ---------- a failing look at the file ----------

  predicate Looks(a: Action) {
    a != ServerMeasure(false) && a != ServerFinish(false)
  }

  function WithLook(a: Action): Action {
    if a == ServerMeasure(false) then ServerMeasure(true) else if a == ServerFinish(false) then ServerFinish(true) else a
  }

  lemma OpenedAtEnd(setup: Setup, initial: Bytes, w: World)
    requires setup.Valid() && Inv(setup, initial, w) && (w.link.server.phase == Measuring || w.link.server.phase == Receiving)
    ensures var s := w.link.server;
            && |w.file| == s.pos && (s.phase == Receiving ==> s.total == s.pos)
            && (s.phase == Measuring ==> s.total + s.got == s.pos)
  {
    assert Opened(w.link.server);
  }

  /** While a connection has its file for itself, it makes no difference whether `stat` fails. */
  lemma LookChangesNothing(setup: Setup, initial: Bytes, w: World, a: Action)
    requires setup.Valid() && Inv(setup, initial, w) && CanGoOn(setup, w, a)
    ensures CanGoOn(setup, w, WithLook(a)) && Looks(WithLook(a)) && Next(setup, w, WithLook(a)) == Next(setup, w, a)
  {
    if !Looks(a) {
      OpenedAtEnd(setup, initial, w);
    }
  }

  lemma FirstOfLeads(setup: Setup, w: World, trace: seq<Action>, end: World)
    requires Leads(setup, w, trace, end) && trace != []
    ensures CanGoOn(setup, w, trace[0]) && Leads(setup, Next(setup, w, trace[0]), trace[1..], end)
  {
    assert trace[0] in trace;
  }

  lemma {:induction false} RunWithLooks(setup: Setup, initial: Bytes, w: World, trace: seq<Action>, end: World) returns (looking: seq<Action>)
    requires Good(setup, initial, w) && Leads(setup, w, trace, end)
    ensures Leads(setup, w, looking, end) && forall a :: a in looking ==> Looks(a)
    decreases |trace|
  {
    if trace == [] {
      looking := [];
    } else {
      var a := WithLook(trace[0]);
      FirstOfLeads(setup, w, trace, end);
      LookChangesNothing(setup, initial, w, trace[0]);
      GoodKept(setup, initial, w, trace[0]);
      var rest := RunWithLooks(setup, initial, Next(setup, w, a), trace[1..], end);
      LeadsPrepended(setup, w, a, rest, end);
      looking := [a] + rest;
    }
  }
}
