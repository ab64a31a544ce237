/** Every run of a range connection is finite, and a run that nothing disturbs can only stop when
    both ends are done and the wanted bytes are all in the local file. */
module DownloadProgress {
  import opened Text
  import opened DownloadLink
  import opened DownloadSafety
  import opened DownloadSessions
  import U = UploadSessions
  import P = UploadProgress

  // ---------- every step uses something up ----------

  function ClientRank(p: ClientPhase): nat {
    match p
    case Commanding => 5
    case AwaitingSize => 4
    case Confirming => 3
    case Opening => 2
    case Completed => 0
    case Stopped => 0
    case _ => 1
  }

  function ServerRank(p: ServerPhase): nat {
    match p
    case ReadingCommand => 4
    case SendingSize => 3
    case AwaitingConfirm => 2
    case Sending => 1
    case Closed => 0
  }

  function Stage(l: Link): nat {
    ClientRank(l.client.phase) + ServerRank(l.server.phase)
  }

  // A byte weighs less the further it has come.
  function Weight(setup: Setup, l: Link): nat {
    var unread := if l.server.next <= |setup.remote| then |setup.remote| - l.server.next else 0;
    7 * unread + 5 * |l.server.out| + 4 * |l.down| + |l.client.buf| + 2 * |l.client.out| + |l.up|
    + (if l.client.phase == Writing then 2 else if l.client.phase == Measuring then 1 else 0)
    + (if l.live then 1 else 0)
  }

  predicate Smaller(setup: Setup, l': Link, l: Link) {
    Stage(l') < Stage(l) || (Stage(l') == Stage(l) && Weight(setup, l') < Weight(setup, l))
  }

  lemma ClientStepShrinks(setup: Setup, file: Bytes, l: Link, a: Action)
    requires Enabled(setup, file, l, a) && ByClient(a)
    ensures Smaller(setup, LinkAfter(setup, file, l, a), l)
  {
  }

  lemma ServerStepShrinks(setup: Setup, file: Bytes, l: Link, a: Action)
    requires Enabled(setup, file, l, a) && !ByClient(a)
    ensures Smaller(setup, LinkAfter(setup, file, l, a), l)
  {
  }

  /** Every action, a disturbing one too, lowers the stage or keeps it and lowers the weight: no
      run goes on for ever. */
  lemma EveryStepShrinks(setup: Setup, file: Bytes, l: Link, a: Action)
    requires Enabled(setup, file, l, a)
    ensures Smaller(setup, LinkAfter(setup, file, l, a), l)
  {
    if ByClient(a) {
      ClientStepShrinks(setup, file, l, a);
    } else {
      ServerStepShrinks(setup, file, l, a);
    }
  }

  // ---------- undisturbed runs ----------

  predicate Normal(a: Action) {
    !a.ClientStop? && !a.ServerStop? && !a.Break? && !a.ClientLineEnd?
  }

  function Open(l: Link): Link {
    l.(live := true)
  }

  /** The server has read every wanted byte and has nothing left to send. */
  predicate AllSent(setup: Setup, s: Server) {
    s.said != [] && s.next == setup.size && s.last == setup.size - 1 && s.out == []
  }

  /** Until the client is done, an undisturbed connection is as good as open, even when the server
      has already closed its end. */
  ghost predicate Undisturbed(setup: Setup, l: Link)
    requires setup.Valid()
  {
    var c, s := l.client, l.server;
    && c.phase != Stopped
    && (c.phase != Completed ==> LinkInv(setup, Open(l)) && (l.live || s.phase == Closed))
    && (c.phase == Completed ==> AllSent(setup, s) && (s.phase == Sending || s.phase == Closed))
    && (s.phase == Closed ==> AllSent(setup, s) && (Confirmed(c.phase) || c.phase == Completed))
  }

  predicate BothDone(l: Link) {
    l.client.phase == Completed && l.server.phase == Closed
  }

  /** What is known of a world that an undisturbed run has reached. */
  ghost predicate Good(setup: Setup, initial: Bytes, w: World) {
    setup.Valid() && Undisturbed(setup, w.link) && Inv(setup, initial, w)
  }

  predicate Goes(setup: Setup, file: Bytes, l: Link, a: Action) {
    Normal(a) && Enabled(setup, file, l, a)
  }

  predicate CanGoOn(setup: Setup, w: World, a: Action) {
    Goes(setup, w.file, w.link, a)
  }

  /** A client that has every wanted byte leaves a server that has nothing left to send. */
  lemma NothingLeft(setup: Setup, initial: Bytes, w: World)
    requires Good(setup, initial, w) && CanGoOn(setup, w, ClientDone)
    ensures AllSent(setup, w.link.server) && (w.link.server.phase == Sending || w.link.server.phase == Closed)
  {
    var c, s, l := w.link.client, w.link.server, w.link;
    assert LinkInv(setup, Open(l));
    assert c.pos == setup.size;
    assert c.heard == SizeLine(setup) + setup.remote[setup.start..setup.size];
    assert c.heard + l.down + s.out == s.said == SizeLine(setup) + setup.remote[setup.start..s.next];
  }

  lemma UndisturbedByLine(setup: Setup, initial: Bytes, w: World)
    requires Good(setup, initial, w) && CanGoOn(setup, w, ClientByte)
    ensures Undisturbed(setup, LinkAfter(setup, w.file, w.link, ClientByte))
  {
    StepKeeps(setup, w.file, w.link, ClientByte);
    if w.link.down[0] == '\n' {
      SizeLineIsWhole(setup, w.link);
      SizeIsNoError(|setup.remote|);
    }
  }

  lemma UndisturbedByAsking(setup: Setup, initial: Bytes, w: World, a: Action)
    requires Good(setup, initial, w) && CanGoOn(setup, w, a) && a.ClientSend?
    ensures Undisturbed(setup, LinkAfter(setup, w.file, w.link, a))
  {
    StepKeeps(setup, w.file, w.link, a);
  }

  lemma UndisturbedByReceipt(setup: Setup, initial: Bytes, w: World, a: Action)
    requires Good(setup, initial, w) && CanGoOn(setup, w, a)
    requires a.ClientOpen? || a.ClientRecv? || a.ClientWrite? || a.ClientMeasure?
    ensures Undisturbed(setup, LinkAfter(setup, w.file, w.link, a))
  {
    StepKeeps(setup, w.file, Open(w.link), a);
    assert LinkAfter(setup, w.file, Open(w.link), a) == Open(LinkAfter(setup, w.file, w.link, a));
  }

  lemma UndisturbedByClient(setup: Setup, initial: Bytes, w: World, a: Action)
    requires Good(setup, initial, w) && CanGoOn(setup, w, a) && ByClient(a)
    ensures Undisturbed(setup, LinkAfter(setup, w.file, w.link, a))
  {
    if a.ClientByte? {
      UndisturbedByLine(setup, initial, w);
    } else if a.ClientDone? {
      NothingLeft(setup, initial, w);
    } else if a.ClientSend? {
      UndisturbedByAsking(setup, initial, w, a);
    } else {
      UndisturbedByReceipt(setup, initial, w, a);
    }
  }

  lemma UndisturbedByLineEnd(setup: Setup, initial: Bytes, w: World)
    requires Good(setup, initial, w) && CanGoOn(setup, w, ServerByte)
    ensures Undisturbed(setup, LinkAfter(setup, w.file, w.link, ServerByte))
  {
    StepKeeps(setup, w.file, w.link, ServerByte);
    if w.link.server.phase == ReadingCommand {
      RequestByte(setup, w.file, w.link);
    } else {
      ConfirmByte(setup, w.file, w.link);
    }
  }

  lemma ClosedKeepsInv(setup: Setup, l: Link)
    requires setup.Valid() && LinkInv(setup, l) && l.server.phase == Sending
    ensures LinkInv(setup, l.(server := l.server.(phase := Closed)))
  {
  }

  lemma UndisturbedByClose(setup: Setup, initial: Bytes, w: World)
    requires Good(setup, initial, w) && CanGoOn(setup, w, ServerClose)
    ensures Undisturbed(setup, LinkAfter(setup, w.file, w.link, ServerClose))
  {
    var l := w.link;
    if l.client.phase != Completed {
      ClosedKeepsInv(setup, Open(l));
      assert Open(LinkAfter(setup, w.file, l, ServerClose)) == Open(l).(server := l.server.(phase := Closed));
      assert l.server.said != [] && Confirmed(l.client.phase);
    }
  }

  lemma UndisturbedByServer(setup: Setup, initial: Bytes, w: World, a: Action)
    requires Good(setup, initial, w) && CanGoOn(setup, w, a) && !ByClient(a)
    ensures Undisturbed(setup, LinkAfter(setup, w.file, w.link, a))
  {
    if a.ServerByte? {
      UndisturbedByLineEnd(setup, initial, w);
    } else if a.ServerClose? {
      UndisturbedByClose(setup, initial, w);
    } else {
      StepKeeps(setup, w.file, w.link, a);
    }
  }

  lemma GoodKept(setup: Setup, initial: Bytes, w: World, a: Action)
    requires Good(setup, initial, w) && CanGoOn(setup, w, a)
    ensures Good(setup, initial, Next(setup, w, a))
    ensures Smaller(setup, Next(setup, w, a).link, w.link)
  {
    if ByClient(a) {
      UndisturbedByClient(setup, initial, w, a);
    } else {
      UndisturbedByServer(setup, initial, w, a);
    }
    StepKeeps(setup, w.file, w.link, a);
    FileKept(setup, initial, w, a);
    EveryStepShrinks(setup, w.file, w.link, a);
  }

  // ---------- an undisturbed connection never blocks ----------

  /** While the request has not arrived, the client still has some of it to send. */
  lemma RequestUnderWay(setup: Setup, l: Link)
    requires setup.Valid() && Said(setup, l) && Asked(setup, l) && ClientView(setup, l) && l.live
    requires l.server.phase == ReadingCommand && l.up == []
    ensures l.client.phase == Commanding || l.client.phase == Completed || l.client.phase == Stopped
  {
    if l.client.phase == AwaitingSize {
      P.MoreToCome([], l.server.line, l.up, setup.Request());
    } else {
      assert l.client.heard == [];
    }
  }

  /** While the size line is not all sent, the client has not heard all of it. */
  lemma SizeUnderWay(setup: Setup, l: Link)
    requires setup.Valid() && Said(setup, l) && Asked(setup, l) && ClientView(setup, l) && l.live
    requires l.server.phase == SendingSize && l.server.out != []
    ensures l.client.phase == AwaitingSize || l.client.phase == Completed || l.client.phase == Stopped
  {
    assert l.server.said == SizeLine(setup) + [];
    assert |l.client.heard| < |SizeLine(setup)|;
  }

  /** A client that still reads the size line has a byte of it to read. */
  lemma SizeLineUnderWay(setup: Setup, l: Link)
    requires setup.Valid() && Said(setup, l) && ClientView(setup, l) && l.live
    requires l.server.phase == AwaitingConfirm && l.client.phase == AwaitingSize
    ensures l.down != []
  {
    var c, s := l.client, l.server;
    assert s.said == SizeLine(setup) + [];
    assert [] + c.line + l.down == c.heard + l.down + s.out == s.said;
    P.MoreToCome([], c.line, l.down, s.said);
  }

  lemma NotYetConfirmed(setup: Setup, l: Link)
    requires setup.Valid() && Asked(setup, l) && l.live && l.up == [] && l.server.phase == AwaitingConfirm
    ensures !Confirmed(l.client.phase)
  {
    if Confirmed(l.client.phase) {
      P.MoreToCome([], l.server.line, l.up, "OK\n");
    }
  }

  /** The bytes a client still lacks after everything was sent are under way. */
  lemma LastBytesUnderWay(setup: Setup, l: Link, pos: nat)
    requires setup.Valid() && Said(setup, Open(l)) && AllSent(setup, l.server) && setup.start <= pos < setup.size
    requires l.client.heard == SizeLine(setup) + setup.remote[setup.start..pos]
    ensures l.down != []
  {
    assert l.client.heard + l.down + l.server.out == l.server.said == SizeLine(setup) + setup.remote[setup.start..setup.size];
  }

  /** A client that has confirmed can take a step while there are bytes for it, or none are lacking. */
  lemma ReceiptUnderWay(setup: Setup, file: Bytes, l: Link)
    requires setup.Valid() && ClientView(setup, l) && Confirmed(l.client.phase)
    requires l.client.phase == Receiving ==> l.down != [] || l.client.actual >= setup.size
    ensures exists a :: Goes(setup, file, l, a)
  {
    match l.client.phase
    case Opening => assert Goes(setup, file, l, ClientOpen);
    case Writing => assert Goes(setup, file, l, ClientWrite(1));
    case Measuring => assert Goes(setup, file, l, ClientMeasure);
    case Receiving => assert Goes(setup, file, l, if l.client.actual >= setup.size then ClientDone else ClientRecv(1));
  }

  /** Before the server sends data. */
  lemma NegotiationGoesOn(setup: Setup, file: Bytes, l: Link)
    requires setup.Valid() && LinkInv(setup, l) && l.live && l.client.phase != Completed && l.client.phase != Stopped
    requires l.server.phase == ReadingCommand || l.server.phase == SendingSize || l.server.phase == AwaitingConfirm
    ensures exists a :: Goes(setup, file, l, a)
  {
    var c, s := l.client, l.server;
    if s.phase == SendingSize {
      if s.out == [] {
        assert Goes(setup, file, l, ServerClip);
      } else if |l.down| < setup.room {
        assert Goes(setup, file, l, ServerSend(1));
      } else {
        SizeUnderWay(setup, l);
        assert Goes(setup, file, l, ClientByte);
      }
    } else if l.up != [] {
      assert Goes(setup, file, l, ServerByte);
    } else if s.phase == ReadingCommand {
      RequestUnderWay(setup, l);
      assert Goes(setup, file, l, ClientSend(1));
    } else if c.phase == AwaitingSize {
      SizeLineUnderWay(setup, l);
      assert Goes(setup, file, l, ClientByte);
    } else {
      NotYetConfirmed(setup, l);
      assert Goes(setup, file, l, ClientSend(1));
    }
  }

  lemma SendingGoesOn(setup: Setup, file: Bytes, l: Link)
    requires setup.Valid() && Undisturbed(setup, l) && l.server.phase == Sending
    requires l.client.phase != Completed ==> l.live && LinkInv(setup, l)
    requires l.server.said != [] && l.server.last == setup.size - 1
    ensures exists a :: Goes(setup, file, l, a)
  {
    var s := l.server;
    if s.out == [] {
      assert Goes(setup, file, l, if s.next > s.last then ServerClose else ServerRead(1));
    } else if |l.down| < setup.room {
      assert Goes(setup, file, l, ServerSend(1));
    } else {
      ReceiptUnderWay(setup, file, l);
    }
  }

  lemma RestGoesOn(setup: Setup, initial: Bytes, w: World)
    requires Good(setup, initial, w) && w.link.server.phase == Closed && w.link.client.phase != Completed
    ensures exists a :: Goes(setup, w.file, w.link, a)
  {
    var c, l := w.link.client, w.link;
    assert LinkInv(setup, Open(l));
    if c.phase == Receiving && c.actual < setup.size {
      assert setup.remote[c.pos..c.pos] == [];
      LastBytesUnderWay(setup, l, c.pos);
    }
    ReceiptUnderWay(setup, w.file, l);
  }

  /** While nothing disturbs the connection and the two ends are not both done, one of them can
      take a step, however little room the queues have. */
  lemma NeverStuck(setup: Setup, initial: Bytes, w: World)
    requires Good(setup, initial, w) && !BothDone(w.link)
    ensures exists a :: CanGoOn(setup, w, a)
  {
    if w.link.server.phase == Closed {
      RestGoesOn(setup, initial, w);
    } else if w.link.server.phase == Sending {
      SendingGoesOn(setup, w.file, w.link);
    } else {
      NegotiationGoesOn(setup, w.file, w.link);
    }
    var a :| Goes(setup, w.file, w.link, a);
    assert CanGoOn(setup, w, a);
  }

  // ---------- the end of undisturbed runs ----------

  ghost predicate NormalStep(setup: Setup, w: World, w': World) {
    exists a :: CanGoOn(setup, w, a) && w' == Next(setup, w, a)
  }

  /** Some undisturbed steps lead from the first of these worlds to the last. */
  ghost predicate Leads(setup: Setup, worlds: seq<World>) {
    worlds != [] && forall k: nat :: k < |worlds| - 1 ==> NormalAt(setup, worlds, k)
  }

  ghost predicate NormalAt(setup: Setup, worlds: seq<World>, k: nat) {
    k + 1 < |worlds| ==> NormalStep(setup, worlds[k], worlds[k + 1])
  }

  lemma NormalStepKeeps(setup: Setup, initial: Bytes, w: World, w': World)
    requires Good(setup, initial, w) && NormalStep(setup, w, w')
    ensures Good(setup, initial, w')
  {
    var a :| CanGoOn(setup, w, a) && w' == Next(setup, w, a);
    GoodKept(setup, initial, w, a);
  }

  lemma GoodNext(setup: Setup, initial: Bytes, worlds: seq<World>, k: nat)
    requires k + 1 < |worlds| && NormalAt(setup, worlds, k) && Good(setup, initial, worlds[k])
    ensures Good(setup, initial, worlds[k + 1])
  {
    NormalStepKeeps(setup, initial, worlds[k], worlds[k + 1]);
  }

  lemma {:induction false} UndisturbedRun(setup: Setup, initial: Bytes, worlds: seq<World>, k: nat)
    requires Leads(setup, worlds) && Good(setup, initial, worlds[0]) && k < |worlds|
    ensures Good(setup, initial, worlds[k])
  {
    if k > 0 {
      UndisturbedRun(setup, initial, worlds, k - 1);
      GoodNext(setup, initial, worlds, k - 1);
    }
  }

  ghost predicate Blocked(setup: Setup, w: World) {
    forall a :: !CanGoOn(setup, w, a)
  }

  /** An undisturbed range connection that cannot be continued has ended well: the client reports
      Completed, the server has closed its end after all its bytes, and the local file is its kept
      front part continued with remote bytes up to the learned size. */
  lemma UndisturbedDownloadCompletes(setup: Setup, file: Bytes, worlds: seq<World>)
    requires History(setup, file, worlds) && Leads(setup, worlds)
    requires Blocked(setup, worlds[|worlds| - 1])
    ensures BothDone(worlds[|worlds| - 1].link)
    ensures worlds[|worlds| - 1].file == U.Spliced(file, setup.start, setup.remote, setup.size)
  {
    UndisturbedRun(setup, file, worlds, |worlds| - 1);
    if !BothDone(worlds[|worlds| - 1].link) {
      NeverStuck(setup, file, worlds[|worlds| - 1]);
    }
  }

  ghost predicate Finishable(setup: Setup, w: World) {
    exists worlds: seq<World> :: Leads(setup, worlds) && worlds[0] == w && BothDone(worlds[|worlds| - 1].link)
  }

  lemma NormalBehind(setup: Setup, w: World, worlds: seq<World>, k: nat)
    requires NormalAt(setup, worlds, k)
    ensures NormalAt(setup, [w] + worlds, k + 1)
  {
  }

  lemma LeadsPrepended(setup: Setup, w: World, worlds: seq<World>)
    requires Leads(setup, worlds) && NormalStep(setup, w, worlds[0])
    ensures Leads(setup, [w] + worlds)
  {
    var longer := [w] + worlds;
    forall k: nat | k < |longer| - 1 ensures NormalAt(setup, longer, k) {
      if k > 0 {
        NormalBehind(setup, w, worlds, k - 1);
      }
    }
  }

  lemma FinishableBefore(setup: Setup, w: World, a: Action)
    requires CanGoOn(setup, w, a) && Finishable(setup, Next(setup, w, a))
    ensures Finishable(setup, w)
  {
    var next := Next(setup, w, a);
    var worlds: seq<World> :| Leads(setup, worlds) && worlds[0] == next && BothDone(worlds[|worlds| - 1].link);
    assert NormalStep(setup, w, next);
    LeadsPrepended(setup, w, worlds);
    var longer := [w] + worlds;
    assert longer[0] == w && longer[|longer| - 1] == worlds[|worlds| - 1];
  }

  /** From every state of an undisturbed run the connection can in fact be brought to that end. */
  lemma {:induction false} CanBeFinished(setup: Setup, initial: Bytes, w: World)
    requires Good(setup, initial, w)
    ensures Finishable(setup, w)
    decreases Stage(w.link), Weight(setup, w.link)
  {
    if BothDone(w.link) {
      assert Leads(setup, [w]);
    } else {
      NeverStuck(setup, initial, w);
      var a :| CanGoOn(setup, w, a);
      GoodKept(setup, initial, w, a);
      CanBeFinished(setup, initial, Next(setup, w, a));
      FinishableBefore(setup, w, a);
    }
  }
}
