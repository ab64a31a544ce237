/** What every step of the range connection of a download keeps. */
module DownloadSafety {
  import opened Text
  import opened Sockets
  import opened WireFormat
  import opened DownloadLink
  import U = UploadSafety

  // ---------- the invariant ----------

  predicate SizeSaid(s: Server) {
    s.said != []
  }

  /** What the server says is the size line and then the wanted bytes, and the client hears it in
      that order. */
  ghost predicate Said(setup: Setup, l: Link)
    requires setup.Valid()
  {
    var c, s := l.client, l.server;
    && c.heard + l.down <= s.said
    && (l.live ==> c.heard + l.down + s.out == s.said)
    && (SizeSaid(s) ==>
          && setup.start <= s.next <= setup.size && s.last == setup.size - 1
          && s.said == SizeLine(setup) + setup.remote[setup.start..s.next]
          && (s.phase == SendingSize || s.phase == AwaitingConfirm ==> s.next == setup.start))
    && (s.phase == ReadingCommand ==> s.said == [])
    && (s.phase == SendingSize || s.phase == AwaitingConfirm || s.phase == Sending ==> SizeSaid(s))
    && (s.phase == ReadingCommand || s.phase == AwaitingConfirm ==> s.out == [])
  }

  predicate Confirmed(p: ClientPhase) {
    p == Opening || p == Receiving || p == Writing || p == Measuring
  }

  /** The command, and later the confirmation, arrive as they were printed. */
  ghost predicate Asked(setup: Setup, l: Link)
    requires setup.Valid()
  {
    var c, s := l.client, l.server;
    && (s.phase == ReadingCommand ==>
          && s.line + l.up <= setup.Request() && Free(s.line, '\n')
          && (c.phase == Commanding ==> |s.line| + |l.up| + |c.out| <= |setup.Request()|)
          && (c.phase == Commanding && l.live ==> s.line + l.up + c.out == setup.Request())
          && (c.phase == AwaitingSize && l.live ==> s.line + l.up == setup.Request()))
    && (c.phase == Commanding ==> c.out != [] && (s.phase == ReadingCommand || s.phase == Closed))
    && (s.phase == SendingSize || s.phase == AwaitingConfirm ==>
          && s.line + l.up <= "OK\n" && Free(s.line, '\n')
          && (c.phase == AwaitingSize ==> s.line + l.up == [])
          && (c.phase == Confirming ==> |s.line| + |l.up| + |c.out| <= 3)
          && (c.phase == Confirming && l.live ==> s.line + l.up + c.out == "OK\n")
          && (Confirmed(c.phase) && l.live ==> s.line + l.up == "OK\n"))
    && (s.phase == SendingSize ==> s.line == [])
    && (c.phase == Confirming ==> c.out != [] && |c.out| <= 3 && s.phase != Sending)
  }

  // The client went on after a size line that the end of the connection had cut short.
  predicate Orphan(l: Link) {
    !l.live && l.down == []
  }

  /** The bytes not yet written are the next remote bytes, and with them all that was heard behind the
      size line are the remote bytes from the offset on. */
  predicate DataView(setup: Setup, pos: nat, buf: Bytes, heard: Bytes, orphan: bool)
    requires setup.Valid()
  {
    && setup.start <= pos && pos + |buf| <= setup.size && buf == setup.remote[pos..pos + |buf|]
    && (heard == SizeLine(setup) + setup.remote[setup.start..pos + |buf|] || orphan)
  }

  ghost predicate ClientView(setup: Setup, l: Link)
    requires setup.Valid()
  {
    var c, s := l.client, l.server;
    match c.phase
    case Commanding => c.heard == [] && c.line == [] && c.buf == [] && s.said == []
    case AwaitingSize => c.heard == c.line && Free(c.line, '\n') && c.out == [] && c.buf == [] && s.phase != Sending
    case Confirming => c.line == [] && c.buf == [] && (c.heard == SizeLine(setup) || Orphan(l))
    case Opening => c.buf == [] && (c.heard == SizeLine(setup) || Orphan(l))
    case Stopped => true
    case _ =>
      && DataView(setup, c.pos, c.buf, c.heard, Orphan(l))
      && (c.phase == Receiving || c.phase == Measuring || c.phase == Completed ==> c.buf == [])
      && (c.phase == Writing ==> c.buf != [])
  }

  ghost predicate LinkInv(setup: Setup, l: Link)
    requires setup.Valid()
  {
    && Said(setup, l) && Asked(setup, l) && ClientView(setup, l)
    && (l.client.phase == Completed || l.client.phase == Stopped ==> !l.live)
  }

  lemma FreshHolds(setup: Setup)
    requires setup.Valid()
    ensures LinkInv(setup, Fresh(setup))
  {
    assert [] + [] + setup.Request() == setup.Request();
  }

  // ---------- every step keeps it ----------

  predicate ByClient(a: Action) {
    || a.ClientSend? || a.ClientByte? || a.ClientLineEnd? || a.ClientOpen? || a.ClientRecv? || a.ClientWrite?
    || a.ClientMeasure? || a.ClientDone? || a.ClientStop? || a.Break?
  }

  lemma RequestTokens(setup: Setup)
    requires setup.Valid()
    ensures var text := RangeText(setup.name, setup.start, setup.size - 1);
            && Free(text, '\n') && Free(text, '\r')
            && Split(text, '|') == ["filesave", setup.name, Decimal(setup.start), Decimal(setup.size - 1)]
  {
    var tokens := ["filesave", setup.name, Decimal(setup.start), Decimal(setup.size - 1)];
    DecimalIsClean(setup.start);
    DecimalIsClean(setup.size - 1);
    JoinIsFree(tokens, '|', '\n');
    JoinIsFree(tokens, '|', '\r');
    TokensRoundTrip(tokens, []);
  }

  lemma RequestUnderstood(setup: Setup)
    requires setup.Valid()
    ensures var text := RangeText(setup.name, setup.start, setup.size - 1);
            && Free(text, '\n') && Free(text, '\r')
            && Dispatch(Split(text, '|'), setup.readOnly) == FileRange(setup.name, setup.start, setup.size - 1)
  {
    RequestTokens(setup);
    ParseDecimal(setup.start);
    ParseDecimal(setup.size - 1);
    DispatchRange(setup.readOnly, setup.name, Decimal(setup.start), Decimal(setup.size - 1), setup.start, setup.size - 1);
  }

  /** The first newline the client reads ends the size line. */
  lemma SizeLineIsWhole(setup: Setup, l: Link)
    requires setup.Valid() && Said(setup, l) && l.client.phase == AwaitingSize && l.client.heard == l.client.line
    requires l.down != [] && l.down[0] == '\n' && Free(l.client.line, '\n')
    ensures SizeSaid(l.server) && l.client.line == Decimal(|setup.remote|)
    ensures l.client.heard + "\n" == SizeLine(setup)
  {
    var c, s, rest := l.client, l.server, l.down[1..];
    assert c.line + "\n" + rest == c.heard + l.down;
    DecimalIsClean(|setup.remote|);
    var more := setup.remote[setup.start..s.next];
    assert s.said == Decimal(|setup.remote|) + "\n" + more;
    U.SameFirstLine(c.line, rest, Decimal(|setup.remote|), more);
  }

  lemma SizeIsNoError(n: nat)
    ensures !("ERROR" <= Decimal(n))
  {
    assert IsDigit(Decimal(n)[0]) && "ERROR"[0] == 'E';
  }

  // ---------- what is said ----------

  lemma SaidKeptByReceipt(setup: Setup, file: Bytes, l: Link, a: Action)
    requires setup.Valid() && Enabled(setup, file, l, a) && Said(setup, l) && (a.ClientByte? || a.ClientRecv?)
    ensures Said(setup, LinkAfter(setup, file, l, a))
  {
    if a.ClientByte? {
      U.MoveOne(l.client.heard, l.down);
    } else {
      assert l.client.heard + l.down[..a.n] + l.down[a.n..] == l.client.heard + l.down;
    }
  }

  lemma SaidKeptByClient(setup: Setup, file: Bytes, l: Link, a: Action)
    requires setup.Valid() && Enabled(setup, file, l, a) && Said(setup, l) && ByClient(a)
    ensures Said(setup, LinkAfter(setup, file, l, a))
  {
    if a.ClientByte? || a.ClientRecv? {
      SaidKeptByReceipt(setup, file, l, a);
    }
  }

  lemma SaidKeptBySend(setup: Setup, file: Bytes, l: Link, n: nat)
    requires setup.Valid() && Enabled(setup, file, l, ServerSend(n)) && Said(setup, l)
    ensures Said(setup, LinkAfter(setup, file, l, ServerSend(n)))
  {
    U.MoveSome(l.client.heard, l.down, l.server.out, n);
  }

  lemma SaidMore(front: Bytes, source: Bytes, from: nat, next: nat, n: nat)
    requires from <= next && next + n <= |source|
    ensures front + source[from..next] + source[next..next + n] == front + source[from..next + n]
  {
  }

  lemma SaidKeptByRead(setup: Setup, file: Bytes, l: Link, n: nat)
    requires setup.Valid() && Enabled(setup, file, l, ServerRead(n)) && Said(setup, l)
    ensures Said(setup, LinkAfter(setup, file, l, ServerRead(n)))
  {
    var s := l.server;
    SaidMore(SizeLine(setup), setup.remote, setup.start, s.next, n);
    assert l.live ==> l.client.heard + l.down == s.said;
  }

  lemma SaidKeptByLine(setup: Setup, file: Bytes, l: Link)
    requires setup.Valid() && Enabled(setup, file, l, ServerByte) && Said(setup, l) && Asked(setup, l)
    ensures Said(setup, LinkAfter(setup, file, l, ServerByte))
  {
    if l.server.phase == ReadingCommand {
      RequestByte(setup, file, l);
      assert setup.remote[setup.start..setup.start] == [];
      assert SizeLine(setup) + [] == SizeLine(setup);
      assert [] + [] + SizeLine(setup) == SizeLine(setup);
    } else {
      ConfirmByte(setup, file, l);
    }
  }

  lemma SaidKeptByServer(setup: Setup, file: Bytes, l: Link, a: Action)
    requires setup.Valid() && Enabled(setup, file, l, a) && Said(setup, l) && Asked(setup, l) && !ByClient(a)
    ensures Said(setup, LinkAfter(setup, file, l, a))
  {
    if a.ServerSend? {
      SaidKeptBySend(setup, file, l, a.n);
    } else if a.ServerRead? {
      SaidKeptByRead(setup, file, l, a.n);
    } else if a.ServerByte? {
      SaidKeptByLine(setup, file, l);
    }
  }

  // ---------- what is asked ----------

  /** Reading a line that was printed as `text`: either its newline is met with all of it collected,
      or one more of its bytes is. */
  lemma LineByte(line: Bytes, up: Bytes, text: Bytes)
    requires up != [] && line + up <= text + "\n" && Free(line, '\n') && Free(text, '\n') && Free(text, '\r')
    ensures up[0] == '\n' ==> line == text && up[1..] == []
    ensures up[0] != '\n' ==>
              && up[0] != '\r' && |line| + 1 <= |text|
              && Free(line + [up[0]], '\n') && line + [up[0]] + up[1..] == line + up
  {
    if up[0] == '\n' {
      assert line + "\n" + up[1..] == line + up;
      U.SameFirstLine(line, up[1..], text, []);
    } else {
      assert (text + "\n")[|line|] == (line + up)[|line|] == up[0];
      assert text[|line|] == up[0];
    }
  }

  predicate SameLine(l: Link, l': Link) {
    && l'.server.line + l'.up == l.server.line + l.up && |l'.server.line| + |l'.up| == |l.server.line| + |l.up|
    && Free(l'.server.line, '\n')
  }

  lemma RequestEnds(setup: Setup, s: Server)
    requires setup.Valid() && s.phase == ReadingCommand && s.line == RangeText(setup.name, setup.start, setup.size - 1)
    ensures AcceptLine(setup, s)
         == s.(phase := SendingSize, line := [], out := SizeLine(setup), said := SizeLine(setup),
               next := setup.start, last := setup.size - 1)
  {
    RequestUnderstood(setup);
  }

  /** One byte of the command was read: it completes the line, or makes it longer. */
  ghost predicate RequestRead(setup: Setup, l: Link, l': Link)
    requires setup.Valid() && l.up != []
  {
    && l'.client == l.client && l'.live == l.live && l'.down == l.down
    && if l.up[0] == '\n' then
         && l.server.line + l.up == setup.Request() && l'.up == []
         && l'.server == l.server.(phase := SendingSize, line := [], out := SizeLine(setup), said := SizeLine(setup),
                                   next := setup.start, last := setup.size - 1)
       else l'.server == l.server.(line := l.server.line + [l.up[0]]) && SameLine(l, l')
  }

  lemma RequestNewline(setup: Setup, file: Bytes, l: Link)
    requires setup.Valid() && Enabled(setup, file, l, ServerByte) && l.server.phase == ReadingCommand && l.up == ['\n']
    requires l.server.line == RangeText(setup.name, setup.start, setup.size - 1)
    ensures RequestRead(setup, l, LinkAfter(setup, file, l, ServerByte))
  {
    RequestEnds(setup, l.server);
  }

  lemma RequestLetter(setup: Setup, file: Bytes, l: Link)
    requires setup.Valid() && Enabled(setup, file, l, ServerByte) && l.server.phase == ReadingCommand
    requires l.up[0] != '\n' && l.up[0] != '\r' && |l.server.line| + 1 < MAX_LINE
    requires Free(l.server.line + [l.up[0]], '\n') && l.server.line + [l.up[0]] + l.up[1..] == l.server.line + l.up
    ensures RequestRead(setup, l, LinkAfter(setup, file, l, ServerByte))
  {
  }

  /** The server takes the command for what it is. */
  lemma RequestByte(setup: Setup, file: Bytes, l: Link)
    requires setup.Valid() && Enabled(setup, file, l, ServerByte) && Asked(setup, l) && l.server.phase == ReadingCommand
    ensures RequestRead(setup, l, LinkAfter(setup, file, l, ServerByte))
  {
    var text := RangeText(setup.name, setup.start, setup.size - 1);
    RequestTokens(setup);
    LineByte(l.server.line, l.up, text);
    if l.up[0] == '\n' {
      assert l.up == ['\n'];
      RequestNewline(setup, file, l);
    } else {
      RequestLetter(setup, file, l);
    }
  }

  /** The server takes the confirmation for what it is. */
  lemma ConfirmByte(setup: Setup, file: Bytes, l: Link)
    requires setup.Valid() && Enabled(setup, file, l, ServerByte) && Asked(setup, l) && l.server.phase == AwaitingConfirm
    ensures var l' := LinkAfter(setup, file, l, ServerByte);
            && l'.live == l.live
            && if l.up[0] == '\n' then
                 && l.server.line + l.up == "OK\n" && l'.up == []
                 && l'.server == l.server.(phase := Sending, line := [])
               else l'.server == l.server.(line := l.server.line + [l.up[0]]) && SameLine(l, l')
  {
    LineByte(l.server.line, l.up, "OK");
  }

  lemma AskedAfterRequest(setup: Setup, l: Link, l': Link)
    requires setup.Valid() && LinkInv(setup, l) && l.server.phase == ReadingCommand && l.up != [] && RequestRead(setup, l, l')
    ensures Asked(setup, l')
  {
  }

  lemma AskedKeptByRequest(setup: Setup, file: Bytes, l: Link)
    requires setup.Valid() && Enabled(setup, file, l, ServerByte) && LinkInv(setup, l) && l.server.phase == ReadingCommand
    ensures Asked(setup, LinkAfter(setup, file, l, ServerByte))
  {
    RequestByte(setup, file, l);
    AskedAfterRequest(setup, l, LinkAfter(setup, file, l, ServerByte));
  }

  lemma AskedKeptByConfirm(setup: Setup, file: Bytes, l: Link)
    requires setup.Valid() && Enabled(setup, file, l, ServerByte) && LinkInv(setup, l) && l.server.phase == AwaitingConfirm
    ensures Asked(setup, LinkAfter(setup, file, l, ServerByte))
  {
    ConfirmByte(setup, file, l);
  }

  lemma AskedKeptBySend(setup: Setup, file: Bytes, l: Link, n: nat)
    requires setup.Valid() && Enabled(setup, file, l, ClientSend(n)) && LinkInv(setup, l)
    ensures Asked(setup, LinkAfter(setup, file, l, ClientSend(n)))
  {
    U.MoveSome(l.server.line, l.up, l.client.out, n);
  }

  lemma AskedKeptBySizeLine(setup: Setup, file: Bytes, l: Link)
    requires setup.Valid() && Enabled(setup, file, l, ClientByte) && LinkInv(setup, l)
    ensures Asked(setup, LinkAfter(setup, file, l, ClientByte))
  {
    if l.down[0] == '\n' {
      SizeLineIsWhole(setup, l);
    }
  }

  lemma AskedKeptByClient(setup: Setup, file: Bytes, l: Link, a: Action)
    requires setup.Valid() && Enabled(setup, file, l, a) && LinkInv(setup, l) && ByClient(a)
    ensures Asked(setup, LinkAfter(setup, file, l, a))
  {
    if a.ClientByte? {
      AskedKeptBySizeLine(setup, file, l);
    } else if a.ClientSend? {
      AskedKeptBySend(setup, file, l, a.n);
    }
  }

  lemma AskedKeptByServer(setup: Setup, file: Bytes, l: Link, a: Action)
    requires setup.Valid() && Enabled(setup, file, l, a) && LinkInv(setup, l) && !ByClient(a)
    ensures Asked(setup, LinkAfter(setup, file, l, a))
  {
    if a.ServerByte? {
      if l.server.phase == ReadingCommand {
        AskedKeptByRequest(setup, file, l);
      } else {
        AskedKeptByConfirm(setup, file, l);
      }
    }
  }

  // ---------- what the client has ----------

  lemma ViewOfLine(setup: Setup, file: Bytes, l: Link)
    requires setup.Valid() && Enabled(setup, file, l, ClientByte) && LinkInv(setup, l)
    ensures ClientView(setup, LinkAfter(setup, file, l, ClientByte))
  {
    U.MoveOne(l.client.heard, l.down);
    if l.down[0] == '\n' {
      SizeLineIsWhole(setup, l);
    }
  }

  lemma ViewOfReceipt(setup: Setup, file: Bytes, l: Link, n: nat)
    requires setup.Valid() && Enabled(setup, file, l, ClientRecv(n)) && Said(setup, l) && ClientView(setup, l)
    ensures ClientView(setup, LinkAfter(setup, file, l, ClientRecv(n)))
  {
    var c := l.client;
    assert c.buf == [] && c.heard == SizeLine(setup) + setup.remote[setup.start..c.pos];
    ReceivedBytes(setup, l, n);
    var c' := c.(phase := Writing, buf := l.down[..n], heard := c.heard + l.down[..n]);
    assert |c'.buf| == n;
    assert LinkAfter(setup, file, l, ClientRecv(n)) == l.(client := c', down := l.down[n..]);
  }

  /** The bytes that come next are the next bytes of the remote file. */
  lemma ReceivedBytes(setup: Setup, l: Link, n: nat)
    requires setup.Valid() && Said(setup, l) && n <= |l.down| && setup.start <= l.client.pos <= setup.size
    requires l.client.heard == SizeLine(setup) + setup.remote[setup.start..l.client.pos]
    ensures l.client.pos + n <= setup.size && l.down[..n] == setup.remote[l.client.pos..l.client.pos + n]
    ensures l.client.heard + l.down[..n] == SizeLine(setup) + setup.remote[setup.start..l.client.pos + n]
  {
    assert SizeSaid(l.server);
    HeardSlice(SizeLine(setup), setup.remote, setup.start, l.client.pos, l.server.next, l.down, n, l.server.said);
  }

  lemma HeardSlice(front: Bytes, source: Bytes, from: nat, mid: nat, to: nat, down: Bytes, n: nat, said: Bytes)
    requires from <= mid && from <= to <= |source| && n <= |down| && mid <= |source|
    requires said == front + source[from..to] && front + source[from..mid] + down <= said
    ensures mid + n <= to && down[..n] == source[mid..mid + n]
    ensures front + source[from..mid] + down[..n] == front + source[from..mid + n]
  {
    var k := |front| + (mid - from);
    assert mid + |down| <= to;
    forall i | 0 <= i < n ensures down[i] == source[mid + i] {
      assert down[i] == (front + source[from..mid] + down)[k + i] == said[k + i] == source[from..to][mid - from + i];
    }
    assert down[..n] == source[mid..mid + n];
    assert source[from..mid] + source[mid..mid + n] == source[from..mid + n];
  }

  lemma DataViewOfRest(setup: Setup, pos: nat, buf: Bytes, heard: Bytes, orphan: bool, n: nat)
    requires setup.Valid() && DataView(setup, pos, buf, heard, orphan) && n <= |buf|
    ensures DataView(setup, pos + n, buf[n..], heard, orphan)
  {
    U.TakeSlice(setup.remote, pos, pos + |buf|, buf, n);
  }

  lemma ViewOfWrite(setup: Setup, file: Bytes, l: Link, n: nat)
    requires setup.Valid() && Enabled(setup, file, l, ClientWrite(n)) && ClientView(setup, l)
    ensures ClientView(setup, LinkAfter(setup, file, l, ClientWrite(n)))
  {
    var c := l.client;
    DataViewOfRest(setup, c.pos, c.buf, c.heard, Orphan(l), n);
    var c' := c.(pos := c.pos + n, buf := c.buf[n..], phase := if n < |c.buf| then Writing else Measuring);
    assert LinkAfter(setup, file, l, ClientWrite(n)) == l.(client := c');
  }

  lemma ViewKeptByClient(setup: Setup, file: Bytes, l: Link, a: Action)
    requires setup.Valid() && Enabled(setup, file, l, a) && LinkInv(setup, l) && ByClient(a)
    ensures ClientView(setup, LinkAfter(setup, file, l, a))
  {
    if a.ClientByte? {
      ViewOfLine(setup, file, l);
    } else if a.ClientRecv? {
      ViewOfReceipt(setup, file, l, a.n);
    } else if a.ClientWrite? {
      ViewOfWrite(setup, file, l, a.n);
    } else if a.ClientOpen? {
      assert setup.remote[setup.start..setup.start] == [];
      assert SizeLine(setup) + [] == SizeLine(setup);
    }
  }

  /** What the server's steps can change of what the client relies on. */
  predicate ClientUntouched(l: Link, l': Link) {
    && l'.client == l.client && (!l.live ==> !l'.live && l'.down == l.down)
    && (l.client.phase == Commanding ==> l'.server.said == l.server.said)
    && (l.client.phase == AwaitingSize && l'.server.phase == Sending ==> l.server.phase == Sending)
  }

  lemma ServerLeavesClient(setup: Setup, file: Bytes, l: Link, a: Action)
    requires setup.Valid() && Enabled(setup, file, l, a) && LinkInv(setup, l) && !ByClient(a)
    ensures ClientUntouched(l, LinkAfter(setup, file, l, a))
  {
    if a.ServerByte? {
      if l.server.phase == ReadingCommand {
        RequestByte(setup, file, l);
      } else {
        ConfirmByte(setup, file, l);
      }
    }
  }

  lemma ViewKeptByServer(setup: Setup, l: Link, l': Link)
    requires setup.Valid() && ClientView(setup, l) && ClientUntouched(l, l')
    ensures ClientView(setup, l')
  {
  }

  lemma ClosingKept(setup: Setup, file: Bytes, l: Link, a: Action)
    requires setup.Valid() && Enabled(setup, file, l, a) && LinkInv(setup, l)
    ensures var l' := LinkAfter(setup, file, l, a);
            l'.client.phase == Completed || l'.client.phase == Stopped ==> !l'.live
  {
  }

  /** Every step of the connection keeps its invariant, whatever the local file is. */
  lemma StepKeeps(setup: Setup, file: Bytes, l: Link, a: Action)
    requires setup.Valid() && LinkInv(setup, l) && Enabled(setup, file, l, a)
    ensures LinkInv(setup, LinkAfter(setup, file, l, a))
  {
    ClosingKept(setup, file, l, a);
    if ByClient(a) {
      AskedKeptByClient(setup, file, l, a);
      SaidKeptByClient(setup, file, l, a);
      ViewKeptByClient(setup, file, l, a);
    } else {
      AskedKeptByServer(setup, file, l, a);
      SaidKeptByServer(setup, file, l, a);
      ServerLeavesClient(setup, file, l, a);
      ViewKeptByServer(setup, l, LinkAfter(setup, file, l, a));
    }
  }
}
