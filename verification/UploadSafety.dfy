/** What every step of one upload connection keeps, whatever happens to the file meanwhile. */
module UploadSafety {
  import opened Text
  import opened WireFormat
  import opened UploadLink

  // ---------- the invariant ----------

  function ReadyLine(s: Server): Bytes {
    ReadyText(s.off) + "\n"
  }

  predicate Opened(s: Server) {
    s.said != []
  }

  predicate Answered(s: Server) {
    Opened(s) && s.said == ReadyLine(s) + FinalText(s.ok, s.total)
  }

  /** The replies the server decided on reach the client in order, and nothing else does. */
  ghost predicate Replies(l: Link) {
    var c, s := l.client, l.server;
    && c.heard + l.down <= s.said
    && (l.live ==> c.heard + l.down + s.out == s.said)
    && (s.said == [] || s.said == ReadyLine(s) || Answered(s))
    && (s.phase == ReadingCommand || s.phase == Probing || s.phase == Opening ==> s.said == [])
    && (s.phase == SendingReady || s.phase == Receiving || s.phase == Writing || s.phase == Measuring ==>
          s.said == ReadyLine(s))
    && (s.phase == SendingFinal ==> Answered(s))
    && (s.phase != SendingReady && s.phase != SendingFinal && s.phase != Closed ==> s.out == [])
    && (s.ok ==> Answered(s) && s.total >= s.size)
  }

  /** The command arrives as it was printed. */
  ghost predicate CommandStream(setup: Setup, l: Link) {
    var c, s := l.client, l.server;
    && (s.phase == ReadingCommand ==>
          && s.line + l.up <= setup.Command()
          && (c.phase == Commanding ==> |s.line| + |l.up| + |c.out| <= |setup.Command()|)
          && (c.phase == Commanding && l.live ==> s.line + l.up + c.out == setup.Command())
          && (c.phase == AwaitingReady && l.live ==> s.line + l.up == setup.Command())
          && Free(s.line, '\n'))
    && (c.phase == Commanding ==> c.out != [] && (s.phase == ReadingCommand || s.phase == Closed))
    && (s.phase == Probing || s.phase == Opening ==>
          s.size == |setup.source| && l.up == [] && (c.phase == AwaitingReady || !l.live))
    && (s.phase == Opening ==> s.off <= s.size)
    && (Opened(s) ==> s.size == |setup.source| && s.off <= s.size)
  }

  /** The bytes between the client's read position and the server's write position are exactly
      the bytes of the source that lie between the two. */
  ghost predicate DataStream(setup: Setup, l: Link) {
    var c, s := l.client, l.server;
    && (Opened(s) ==>
          var arrived := s.pos + |s.buf| + |l.up|;
          && s.off <= s.pos && arrived <= |setup.source|
          && s.buf + l.up == setup.source[s.pos..arrived]
          && (l.live && c.phase == AwaitingReady ==> arrived == s.off)
          && (l.live && c.phase == Streaming ==> arrived + |c.out| == c.taken)
          && (l.live && c.phase == AwaitingFinal ==> arrived == |setup.source|))
    && (s.phase == SendingReady ==> s.pos == s.off)
    && (s.phase != Writing && s.phase != Closed ==> s.buf == [])
    && (s.phase == Writing ==> s.buf != [])
  }

  // The client went on after a reply line that the end of the connection had cut short.
  predicate Orphan(l: Link) {
    !l.live && l.down == [] && l.client.line == []
  }

  ghost predicate ClientView(setup: Setup, l: Link) {
    var c, s := l.client, l.server;
    match c.phase
    case Commanding => c.heard == [] && c.line == [] && s.said == []
    case AwaitingReady => c.heard == c.line && Free(c.line, '\n') && c.out == []
    case Streaming =>
      && Opened(s) && c.line == [] && (c.heard == ReadyLine(s) || Orphan(l))
      && |c.out| <= c.taken <= |setup.source| && c.out == setup.source[c.taken - |c.out|..c.taken]
      && c.committed <= c.taken && (c.out == [] ==> c.committed == c.taken)
    case AwaitingFinal =>
      && Opened(s) && (c.heard == ReadyLine(s) + c.line || Orphan(l)) && Free(c.line, '\n')
      && c.out == [] && c.committed == c.taken == |setup.source|
    case Completed =>
      c.committed == |setup.source| && Opened(s) && (s.off >= |setup.source| || s.ok)
    case Stopped => true
  }

  predicate ClosedWhenDone(l: Link) {
    l.client.phase == Completed || l.client.phase == Stopped ==> !l.live
  }

  ghost predicate LinkInv(setup: Setup, l: Link) {
    Replies(l) && CommandStream(setup, l) && DataStream(setup, l) && ClientView(setup, l) && ClosedWhenDone(l)
  }

  lemma FreshHolds(setup: Setup)
    requires setup.Valid()
    ensures LinkInv(setup, Fresh(setup))
  {
    assert [] + [] + setup.Command() == setup.Command();
  }

  // ---------- texts ----------

  lemma CommandUnderstood(setup: Setup)
    requires setup.Valid()
    ensures var text := UploadText(setup.name, |setup.source|, setup.start);
            && Free(text, '\n') && Free(text, '\r')
            && Dispatch(Split(text, '|'), false) == FilePut("./", setup.name, |setup.source|, setup.start)
  {
    var tokens := ["fileput", "./", setup.name, Decimal(|setup.source|), Decimal(setup.start)];
    DecimalIsClean(|setup.source|);
    DecimalIsClean(setup.start);
    JoinIsFree(tokens, '|', '\n');
    JoinIsFree(tokens, '|', '\r');
    TokensRoundTrip(tokens, []);
    ParseDecimal(|setup.source|);
    ParseDecimal(setup.start);
    DispatchPut("./", setup.name, Decimal(|setup.source|), Decimal(setup.start), |setup.source|, setup.start);
  }

  /** Two streams that agree have the same first line. */
  lemma SameFirstLine(line: Bytes, rest: Bytes, line': Bytes, rest': Bytes)
    requires Free(line, '\n') && Free(line', '\n')
    requires line + "\n" + rest <= line' + "\n" + rest'
    ensures line == line' && rest <= rest'
  {
    var s, s' := line + "\n" + rest, line' + "\n" + rest';
    var more := s'[|s|..];
    assert s' == line + ['\n'] + (rest + more);
    HeadOfToken(line, '\n', rest + more);
    HeadOfToken(line', '\n', rest');
    assert rest + more == s'[|line| + 1..] == rest';
  }

  /** What follows READY begins with OK only when the server has answered OK. */
  lemma OkMeansAnswered(l: Link, line: Bytes)
    requires Replies(l)
    requires Opened(l.server) && ReadyLine(l.server) + line <= l.server.said
    requires "OK" <= line
    ensures l.server.ok
  {
    var s := l.server;
    var n := |ReadyLine(s)|;
    var answer := FinalText(s.ok, s.total);
    assert s.said[n] == line[0] == 'O';
    assert s.said == ReadyLine(s) + answer;
    assert answer[0] == 'O';
    assert FinalText(false, s.total)[0] == ERROR_TEXT[0];
  }

  // ---------- sequence facts ----------

  lemma MoveOne(a: Bytes, b: Bytes)
    requires b != []
    ensures a + [b[0]] + b[1..] == a + b
  {
  }

  lemma MoveSome(a: Bytes, b: Bytes, c: Bytes, n: nat)
    requires n <= |c|
    ensures a + (b + c[..n]) + c[n..] == a + b + c
    ensures a + (b + c[..n]) <= a + b + c
  {
  }

  lemma AppendSlice(source: Bytes, from: nat, mid: nat, to: nat, b: Bytes, u: Bytes, more: Bytes)
    requires from <= mid <= to <= |source|
    requires b + u == source[from..mid] && more == source[mid..to]
    ensures b + (u + more) == source[from..to]
  {
    assert b + (u + more) == b + u + more;
  }

  lemma DropSlice(source: Bytes, from: nat, to: nat, b: Bytes, u: Bytes, n: nat)
    requires from <= to <= |source| && n <= |b|
    requires b + u == source[from..to]
    ensures from + n <= to
    ensures b[n..] + u == source[from + n..to]
  {
    assert b[n..] + u == (b + u)[n..];
  }

  lemma TakeSlice(source: Bytes, from: nat, to: nat, out: Bytes, n: nat)
    requires from <= to <= |source| && out == source[from..to] && n <= |out|
    ensures out[..n] == source[from..from + n] && out[n..] == source[from + n..to]
  {
  }

  // ---------- every step keeps it ----------

  predicate ByClient(a: Action) {
    || a.ClientSend? || a.ClientByte? || a.ClientLineEnd? || a.ClientRead? || a.ClientAtEnd? || a.ClientStop?
    || a.Break?
  }

  lemma RepliesKeptByByte(setup: Setup, file: Bytes, l: Link)
    requires Enabled(setup, file, l, ClientByte) && Replies(l)
    ensures Replies(LinkAfter(setup, file, l, ClientByte))
  {
    MoveOne(l.client.heard, l.down);
  }

  lemma RepliesKeptByClient(setup: Setup, file: Bytes, l: Link, a: Action)
    requires Enabled(setup, file, l, a) && Replies(l) && ByClient(a)
    ensures Replies(LinkAfter(setup, file, l, a))
  {
    if a.ClientByte? {
      RepliesKeptByByte(setup, file, l);
    }
  }

  lemma RepliesKeptBySend(setup: Setup, file: Bytes, l: Link, n: nat)
    requires Enabled(setup, file, l, ServerSend(n)) && Replies(l)
    ensures Replies(LinkAfter(setup, file, l, ServerSend(n)))
  {
    MoveSome(l.client.heard, l.down, l.server.out, n);
  }

  lemma RepliesKeptByDecision(setup: Setup, file: Bytes, l: Link, a: Action)
    requires Enabled(setup, file, l, a) && Replies(l) && (a.ServerOpen? || a.ServerFinish?)
    ensures Replies(LinkAfter(setup, file, l, a))
  {
    assert l.live ==> l.client.heard + l.down == l.server.said;
  }

  lemma RepliesKeptByServer(setup: Setup, file: Bytes, l: Link, a: Action)
    requires Enabled(setup, file, l, a) && Replies(l) && !ByClient(a)
    ensures Replies(LinkAfter(setup, file, l, a))
  {
    if a.ServerSend? {
      RepliesKeptBySend(setup, file, l, a.n);
    } else if a.ServerOpen? || a.ServerFinish? {
      RepliesKeptByDecision(setup, file, l, a);
    }
  }

  lemma CommandByteKept(setup: Setup, file: Bytes, l: Link)
    requires setup.Valid() && Enabled(setup, file, l, ServerByte) && CommandStream(setup, l)
    requires l.client.phase == Commanding || l.client.phase == AwaitingReady || !l.live
    ensures CommandStream(setup, LinkAfter(setup, file, l, ServerByte))
    ensures LinkAfter(setup, file, l, ServerByte).server.phase != Closed
  {
    var s, b, rest := l.server, l.up[0], l.up[1..];
    var text := UploadText(setup.name, |setup.source|, setup.start);
    MoveOne(s.line, l.up);
    CommandUnderstood(setup);
    if b == '\n' {
      SameFirstLine(s.line, rest, text, []);
    } else {
      assert setup.Command()[|s.line|] == b;
      assert |s.line| < |text| && text[|s.line|] == b;
    }
  }

  lemma CommandKeptByClient(setup: Setup, file: Bytes, l: Link, a: Action)
    requires setup.Valid() && Enabled(setup, file, l, a) && LinkInv(setup, l) && ByClient(a)
    ensures CommandStream(setup, LinkAfter(setup, file, l, a))
  {
    if a.ClientSend? {
      MoveSome(l.server.line, l.up, l.client.out, a.n);
    }
  }

  lemma CommandKeptByServer(setup: Setup, file: Bytes, l: Link, a: Action)
    requires setup.Valid() && Enabled(setup, file, l, a) && LinkInv(setup, l) && !ByClient(a)
    ensures CommandStream(setup, LinkAfter(setup, file, l, a))
  {
    if a.ServerByte? {
      CommandByteKept(setup, file, l);
    }
  }

  lemma DataKeptBySend(setup: Setup, file: Bytes, l: Link, n: nat)
    requires Enabled(setup, file, l, ClientSend(n)) && DataStream(setup, l)
    requires l.client.phase == Streaming && ClientView(setup, l)
    ensures DataStream(setup, LinkAfter(setup, file, l, ClientSend(n)))
  {
    var c, s := l.client, l.server;
    if l.live {
      var arrived := s.pos + |s.buf| + |l.up|;
      TakeSlice(setup.source, arrived, c.taken, c.out, n);
      AppendSlice(setup.source, s.pos, arrived, arrived + n, s.buf, l.up, c.out[..n]);
      assert LinkAfter(setup, file, l, ClientSend(n)).up == l.up + c.out[..n];
    }
  }

  lemma DataKeptByReadyLine(setup: Setup, file: Bytes, l: Link)
    requires setup.Valid() && Enabled(setup, file, l, ClientByte) && LinkInv(setup, l)
    requires l.client.phase == AwaitingReady && l.down[0] == '\n'
    ensures DataStream(setup, LinkAfter(setup, file, l, ClientByte))
  {
    ReadyLineIsWhole(l);
  }

  lemma DataKeptByLine(setup: Setup, file: Bytes, l: Link, a: Action)
    requires setup.Valid() && Enabled(setup, file, l, a) && LinkInv(setup, l) && (a.ClientByte? || a.ClientLineEnd?)
    ensures DataStream(setup, LinkAfter(setup, file, l, a))
  {
    if a.ClientByte? && l.client.phase == AwaitingReady && l.down[0] == '\n' {
      DataKeptByReadyLine(setup, file, l);
    }
  }

  lemma DataKeptByFile(setup: Setup, file: Bytes, l: Link, a: Action)
    requires Enabled(setup, file, l, a) && DataStream(setup, l) && ClientView(setup, l)
    requires a.ClientRead? || a.ClientAtEnd? || a.ClientStop? || a.Break?
    ensures DataStream(setup, LinkAfter(setup, file, l, a))
  {
  }

  lemma DataKeptByClient(setup: Setup, file: Bytes, l: Link, a: Action)
    requires setup.Valid() && Enabled(setup, file, l, a) && LinkInv(setup, l) && ByClient(a)
    ensures DataStream(setup, LinkAfter(setup, file, l, a))
  {
    if a.ClientSend? {
      if l.client.phase == Streaming {
        DataKeptBySend(setup, file, l, a.n);
      }
    } else if a.ClientByte? || a.ClientLineEnd? {
      DataKeptByLine(setup, file, l, a);
    } else {
      DataKeptByFile(setup, file, l, a);
    }
  }

  lemma DataKeptByWrite(setup: Setup, file: Bytes, l: Link, n: nat)
    requires Enabled(setup, file, l, ServerWrite(n)) && Opened(l.server) && DataStream(setup, l)
    ensures DataStream(setup, LinkAfter(setup, file, l, ServerWrite(n)))
  {
    var s := l.server;
    DropSlice(setup.source, s.pos, s.pos + |s.buf| + |l.up|, s.buf, l.up, n);
  }

  lemma DataKeptByRecv(setup: Setup, file: Bytes, l: Link, n: nat)
    requires Enabled(setup, file, l, ServerRecv(n)) && DataStream(setup, l)
    ensures DataStream(setup, LinkAfter(setup, file, l, ServerRecv(n)))
  {
    assert l.up == l.up[..n] + l.up[n..];
  }

  lemma DataKeptByOpen(setup: Setup, file: Bytes, l: Link)
    requires Enabled(setup, file, l, ServerOpen) && LinkInv(setup, l)
    ensures DataStream(setup, LinkAfter(setup, file, l, ServerOpen))
  {
    assert setup.source[l.server.off..l.server.off] == [];
  }

  /** What most of the server's steps leave alone. */
  predicate DataUntouched(l: Link, l': Link) {
    var s, s' := l.server, l'.server;
    && l'.client == l.client && (l'.live ==> l.live)
    && (Opened(s') ==> Opened(s) && l'.up == l.up && s'.pos == s.pos && s'.buf == s.buf && s'.off == s.off)
    && (s'.phase == SendingReady ==> s.phase == SendingReady && s'.pos == s.pos && s'.off == s.off)
    && (s'.phase == Writing ==> s.phase == Writing && s'.buf == s.buf)
    && (s'.phase != Writing && s'.phase != Closed ==> s.phase != Writing && s.phase != Closed && s'.buf == s.buf)
  }

  lemma UntouchedDataKept(setup: Setup, l: Link, l': Link)
    requires DataStream(setup, l) && DataUntouched(l, l')
    ensures DataStream(setup, l')
  {
  }

  lemma DataKeptByServer(setup: Setup, file: Bytes, l: Link, a: Action)
    requires Enabled(setup, file, l, a) && LinkInv(setup, l) && !ByClient(a)
    ensures DataStream(setup, LinkAfter(setup, file, l, a))
  {
    if a.ServerOpen? {
      DataKeptByOpen(setup, file, l);
    } else if a.ServerRecv? {
      DataKeptByRecv(setup, file, l, a.n);
    } else if a.ServerWrite? {
      DataKeptByWrite(setup, file, l, a.n);
    } else {
      UntouchedDataKept(setup, l, LinkAfter(setup, file, l, a));
    }
  }

  /** The first newline the client reads ends READY, so that it learns the server's offset. */
  lemma ReadyLineIsWhole(l: Link)
    requires Replies(l) && l.client.phase == AwaitingReady && l.client.heard == l.client.line
    requires l.down != [] && l.down[0] == '\n' && Free(l.client.line, '\n') && l.server.off < LLONG_LIMIT
    ensures Opened(l.server) && l.client.line == ReadyText(l.server.off)
    ensures ParseReadyOffset(l.client.line) == Some(l.server.off)
  {
    var c, s, rest := l.client, l.server, l.down[1..];
    assert c.line + "\n" + rest == c.heard + l.down;
    DecimalIsClean(s.off);
    var more := if s.said == ReadyLine(s) then [] else FinalText(s.ok, s.total);
    assert s.said == ReadyText(s.off) + "\n" + more;
    SameFirstLine(c.line, rest, ReadyText(s.off), more);
    ReplyRoundTrip(s.off, []);
  }

  /** A READY reply that was cut short names no offset beyond the server's. */
  lemma CutReadyClaims(l: Link)
    requires Replies(l) && l.client.phase == AwaitingReady && l.client.heard == l.client.line != []
    requires Free(l.client.line, '\n') && l.server.off < LLONG_LIMIT
    ensures Opened(l.server)
    ensures var r := ParseReadyOffset(l.client.line); r.Some? ==> 0 <= r.value <= l.server.off
  {
    var s, line, text := l.server, l.client.line, ReadyText(l.server.off);
    assert line <= s.said && ReadyLine(s) <= s.said;
    assert forall i :: 0 <= i < |line| ==> s.said[i] == line[i] && line[i] != '\n';
    assert s.said[|text|] == ReadyLine(s)[|text|] == '\n';
    assert line == s.said[..|line|] == text[..|line|];
    CutReadyIsSmaller(s.off, |line|);
  }

  lemma ViewOfLine(setup: Setup, file: Bytes, l: Link)
    requires setup.Valid() && Enabled(setup, file, l, ClientByte) && LinkInv(setup, l)
    ensures ClientView(setup, LinkAfter(setup, file, l, ClientByte))
  {
    if l.client.phase == AwaitingReady {
      ViewOfReadyLine(setup, file, l);
    } else {
      ViewOfFinalLine(setup, file, l);
    }
  }

  lemma ViewOfReadyLine(setup: Setup, file: Bytes, l: Link)
    requires setup.Valid() && Enabled(setup, file, l, ClientByte) && LinkInv(setup, l) && l.client.phase == AwaitingReady
    ensures ClientView(setup, LinkAfter(setup, file, l, ClientByte))
  {
    MoveOne(l.client.heard, l.down);
    if l.down[0] == '\n' {
      ReadyLineIsWhole(l);
    }
  }

  lemma ViewOfFinalLine(setup: Setup, file: Bytes, l: Link)
    requires setup.Valid() && Enabled(setup, file, l, ClientByte) && LinkInv(setup, l) && l.client.phase == AwaitingFinal
    ensures ClientView(setup, LinkAfter(setup, file, l, ClientByte))
  {
    var c, s, b := l.client, l.server, l.down[0];
    MoveOne(c.heard, l.down);
    if b != '\n' {
      assert c.heard + [b] == ReadyLine(s) + (c.line + [b]);
    } else if "OK" <= c.line {
      assert ReadyLine(s) + c.line <= s.said;
      OkMeansAnswered(l, c.line);
    }
  }

  lemma ViewOfLineEnd(setup: Setup, file: Bytes, l: Link)
    requires setup.Valid() && Enabled(setup, file, l, ClientLineEnd) && LinkInv(setup, l)
    ensures ClientView(setup, LinkAfter(setup, file, l, ClientLineEnd))
  {
    var c, s := l.client, l.server;
    if c.phase == AwaitingReady && c.line != [] {
      CutReadyClaims(l);
    } else if c.phase == AwaitingFinal && "OK" <= c.line {
      assert ReadyLine(s) + c.line <= s.said;
      OkMeansAnswered(l, c.line);
    }
  }

  lemma ViewOfSend(setup: Setup, file: Bytes, l: Link, n: nat)
    requires Enabled(setup, file, l, ClientSend(n)) && LinkInv(setup, l)
    ensures ClientView(setup, LinkAfter(setup, file, l, ClientSend(n)))
  {
    var c := l.client;
    if c.phase == Streaming {
      TakeSlice(setup.source, c.taken - |c.out|, c.taken, c.out, n);
    }
  }

  lemma ViewOfRead(setup: Setup, file: Bytes, l: Link, a: Action)
    requires Enabled(setup, file, l, a) && ClientView(setup, l) && (a.ClientRead? || a.ClientAtEnd?)
    ensures ClientView(setup, LinkAfter(setup, file, l, a))
  {
    assert ReadyLine(l.server) + [] == ReadyLine(l.server);
  }

  lemma ViewKeptByClient(setup: Setup, file: Bytes, l: Link, a: Action)
    requires setup.Valid() && Enabled(setup, file, l, a) && LinkInv(setup, l) && ByClient(a)
    ensures ClientView(setup, LinkAfter(setup, file, l, a))
  {
    if a.ClientByte? {
      ViewOfLine(setup, file, l);
    } else if a.ClientLineEnd? {
      ViewOfLineEnd(setup, file, l);
    } else if a.ClientSend? {
      ViewOfSend(setup, file, l, a.n);
    } else if a.ClientRead? || a.ClientAtEnd? {
      ViewOfRead(setup, file, l, a);
    }
  }

  /** What the server's steps can change of what the client relies on. */
  predicate ClientUntouched(l: Link, l': Link) {
    && l'.client == l.client
    && (Opened(l.server) ==> Opened(l'.server) && l'.server.off == l.server.off && (l.server.ok ==> l'.server.ok))
    && (!Opened(l.server) && Opened(l'.server) ==> l.server.phase == Opening)
    && (!l.live ==> !l'.live && l'.down == l.down)
  }

  lemma ServerLeavesClient(setup: Setup, file: Bytes, l: Link, a: Action)
    requires Enabled(setup, file, l, a) && Replies(l) && !ByClient(a)
    ensures ClientUntouched(l, LinkAfter(setup, file, l, a))
  {
  }

  lemma ViewKeptByServer(setup: Setup, l: Link, l': Link)
    requires LinkInv(setup, l) && ClientUntouched(l, l')
    ensures ClientView(setup, l')
  {
  }

  lemma ClosingKept(setup: Setup, file: Bytes, l: Link, a: Action)
    requires setup.Valid() && Enabled(setup, file, l, a) && LinkInv(setup, l)
    ensures ClosedWhenDone(LinkAfter(setup, file, l, a))
  {
    if a.ServerByte? {
      CommandByteKept(setup, file, l);
    }
  }

  /** Every step of a connection keeps its invariant, whatever the file is. */
  lemma StepKeeps(setup: Setup, file: Bytes, l: Link, a: Action)
    requires setup.Valid() && LinkInv(setup, l) && Enabled(setup, file, l, a)
    ensures LinkInv(setup, LinkAfter(setup, file, l, a))
  {
    ClosingKept(setup, file, l, a);
    if ByClient(a) {
      RepliesKeptByClient(setup, file, l, a);
      CommandKeptByClient(setup, file, l, a);
      DataKeptByClient(setup, file, l, a);
      ViewKeptByClient(setup, file, l, a);
    } else {
      RepliesKeptByServer(setup, file, l, a);
      CommandKeptByServer(setup, file, l, a);
      DataKeptByServer(setup, file, l, a);
      ServerLeavesClient(setup, file, l, a);
      ViewKeptByServer(setup, l, LinkAfter(setup, file, l, a));
    }
  }
}
