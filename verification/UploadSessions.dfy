/** Runs of one upload connection that has the file for itself, and sequences of such runs. */
module UploadSessions {
  import opened Text
  import opened WireFormat
  import opened RequestPolicy
  import opened UploadLink
  import opened UploadSafety

  // ---------- runs ----------

  datatype World = World(file: Bytes, link: Link)

  function Next(setup: Setup, w: World, a: Action): World
    requires Enabled(setup, w.file, w.link, a)
  {
    World(FileAfter(w.file, w.link.server, a), LinkAfter(setup, w.file, w.link, a))
  }

  /** The actions can be taken one after the other and lead from one world to the other. */
  ghost predicate Runs(setup: Setup, w: World, trace: seq<Action>, w': World)
    decreases |trace|
  {
    if trace == [] then w == w'
    else Enabled(setup, w.file, w.link, trace[0]) && Runs(setup, Next(setup, w, trace[0]), trace[1..], w')
  }

  lemma {:induction false} RunsExtended(setup: Setup, w: World, trace: seq<Action>, w': World, a: Action)
    requires Runs(setup, w, trace, w') && Enabled(setup, w'.file, w'.link, a)
    ensures Runs(setup, w, trace + [a], Next(setup, w', a))
    decreases |trace|
  {
    if trace == [] {
      assert [a][1..] == [];
    } else {
      RunsExtended(setup, Next(setup, w, trace[0]), trace[1..], w', a);
      assert (trace + [a])[1..] == trace[1..] + [a];
    }
  }

  /** The run so far, as a run of the machine. */
  datatype Log = Log(start: World, trace: seq<Action>, now: World)

  ghost predicate Sound(setup: Setup, log: Log) {
    Runs(setup, log.start, log.trace, log.now)
  }

  function Do(setup: Setup, log: Log, a: Action): Log
    requires Enabled(setup, log.now.file, log.now.link, a)
  {
    Log(log.start, log.trace + [a], Next(setup, log.now, a))
  }

  lemma DoIsSound(setup: Setup, log: Log, a: Action)
    requires Sound(setup, log) && Enabled(setup, log.now.file, log.now.link, a)
    ensures Sound(setup, Do(setup, log, a))
  {
    RunsExtended(setup, log.start, log.trace, log.now, a);
  }

  // ---------- the file ----------

  /** The first `off` bytes of what was there, continued with the source up to byte `n`. */
  function Spliced(initial: Bytes, off: nat, source: Bytes, n: nat): Bytes
    requires off <= |initial| && off <= n <= |source|
  {
    initial[..off] + source[off..n]
  }

  /** While one connection has the file for itself, its contents are the kept front part of the
      old contents and the part of the source that was received. */
  ghost predicate FileInv(setup: Setup, initial: Bytes, w: World) {
    var s := w.link.server;
    && (s.phase == Opening || Opened(s) ==> s.off == ServerOffset(|initial|, |setup.source|))
    && (!Opened(s) ==> w.file == initial)
    && (Opened(s) ==>
          && s.off <= s.pos <= |setup.source|
          && w.file == Spliced(initial, s.off, setup.source, s.pos)
          && (s.phase == SendingReady || s.phase == Receiving ==> s.total == s.pos)
          && (s.phase == Writing || s.phase == Measuring ==> s.total + s.got == s.pos + |s.buf|)
          && (s.ok ==> s.pos == s.total == |setup.source|))
  }

  ghost predicate Inv(setup: Setup, initial: Bytes, w: World) {
    LinkInv(setup, w.link) && FileInv(setup, initial, w)
  }

  lemma WriteExtends(initial: Bytes, off: nat, source: Bytes, pos: nat, data: Bytes)
    requires off <= |initial| && off <= pos <= pos + |data| <= |source|
    requires data == source[pos..pos + |data|]
    ensures WriteAt(Spliced(initial, off, source, pos), pos, data) == Spliced(initial, off, source, pos + |data|)
  {
    assert source[off..pos] + source[pos..pos + |data|] == source[off..pos + |data|];
  }

  lemma FileKeptByWrite(setup: Setup, initial: Bytes, w: World, n: nat)
    requires Enabled(setup, w.file, w.link, ServerWrite(n))
    requires Opened(w.link.server) && DataStream(setup, w.link) && FileInv(setup, initial, w)
    ensures FileInv(setup, initial, Next(setup, w, ServerWrite(n)))
  {
    var s, s' := w.link.server, Next(setup, w, ServerWrite(n)).link.server;
    assert s'.off == s.off && s'.said == s.said && s'.pos == s.pos + n && |s'.buf| == |s.buf| - n;
    WrittenPart(setup.source, s.pos, s.buf, w.link.up, n);
    WriteExtends(initial, s.off, setup.source, s.pos, s.buf[..n]);
  }

  lemma WrittenPart(source: Bytes, pos: nat, buf: Bytes, up: Bytes, n: nat)
    requires pos + |buf| + |up| <= |source| && n <= |buf|
    requires buf + up == source[pos..pos + |buf| + |up|]
    ensures buf[..n] == source[pos..pos + n]
  {
    assert buf[..n] == (buf + up)[..n];
  }

  lemma FileKeptByOpen(setup: Setup, initial: Bytes, w: World)
    requires Enabled(setup, w.file, w.link, ServerOpen) && Replies(w.link) && FileInv(setup, initial, w)
    ensures FileInv(setup, initial, Next(setup, w, ServerOpen))
  {
    assert initial[..|initial|] == initial;
    assert setup.source[w.link.server.off..w.link.server.off] == [];
  }

  lemma FileKeptByLook(setup: Setup, initial: Bytes, w: World, a: Action)
    requires Enabled(setup, w.file, w.link, a) && (a.ServerMeasure? || a.ServerFinish?)
    requires Replies(w.link) && DataStream(setup, w.link) && CommandStream(setup, w.link)
    requires FileInv(setup, initial, w)
    ensures FileInv(setup, initial, Next(setup, w, a))
  {
    assert Opened(w.link.server) && |w.file| == w.link.server.pos;
  }

  lemma FileKeptByRest(setup: Setup, initial: Bytes, w: World, a: Action)
    requires Enabled(setup, w.file, w.link, a) && LinkInv(setup, w.link)
    requires FileInv(setup, initial, w) && !ByClient(a)
    requires !a.ServerOpen? && !a.ServerWrite? && !a.ServerMeasure? && !a.ServerFinish?
    ensures FileInv(setup, initial, Next(setup, w, a))
  {
  }

  lemma FileKept(setup: Setup, initial: Bytes, w: World, a: Action)
    requires setup.Valid() && Inv(setup, initial, w) && Enabled(setup, w.file, w.link, a)
    ensures FileInv(setup, initial, Next(setup, w, a))
  {
    if ByClient(a) {
      assert Next(setup, w, a).link.server == w.link.server;
    } else if a.ServerWrite? {
      FileKeptByWrite(setup, initial, w, a.n);
    } else if a.ServerOpen? {
      FileKeptByOpen(setup, initial, w);
    } else if a.ServerMeasure? || a.ServerFinish? {
      FileKeptByLook(setup, initial, w, a);
    } else {
      FileKeptByRest(setup, initial, w, a);
    }
  }

  lemma RunsPrepended(setup: Setup, w: World, a: Action, trace: seq<Action>, w': World)
    requires Enabled(setup, w.file, w.link, a) && Runs(setup, Next(setup, w, a), trace, w')
    ensures Runs(setup, w, [a] + trace, w')
  {
    assert ([a] + trace)[1..] == trace;
  }

  lemma {:induction false} RunKeepsInv(setup: Setup, initial: Bytes, w: World, trace: seq<Action>, w': World)
    requires setup.Valid() && Inv(setup, initial, w) && Runs(setup, w, trace, w')
    ensures Inv(setup, initial, w')
    decreases |trace|
  {
    if trace != [] {
      StepKeeps(setup, w.file, w.link, trace[0]);
      FileKept(setup, initial, w, trace[0]);
      RunKeepsInv(setup, initial, Next(setup, w, trace[0]), trace[1..], w');
    }
  }

  /** One run of a connection, from the moment it is accepted. */
  ghost predicate SessionRuns(setup: Setup, file: Bytes, trace: seq<Action>, file': Bytes, l: Link) {
    setup.Valid() && Runs(setup, World(file, Fresh(setup)), trace, World(file', l))
  }

  // How many bytes of file data a connection has written.
  function Accepted(l: Link): int {
    if Opened(l.server) then l.server.pos - l.server.off else 0
  }

  /** What one connection makes of the file, wherever its run is cut off: nothing before it has
      opened the file, and afterwards exactly the bytes of the source behind the old length (or
      behind zero, when the old contents were too long).  A client that reports Completed has
      counted every byte of the source, none of them is under way, and the file is full. */
  lemma OneSession(setup: Setup, file: Bytes, trace: seq<Action>, file': Bytes, l: Link)
    requires SessionRuns(setup, file, trace, file', l)
    ensures !Opened(l.server) ==> file' == file && l.client.phase != Completed
    ensures var off := ServerOffset(|file|, |setup.source|);
            Opened(l.server) ==>
              && off <= |file'| <= |setup.source| && file' == Spliced(file, off, setup.source, |file'|)
              && Accepted(l) == |file'| - off
    ensures l.client.phase == Completed ==>
              && |file'| == |setup.source| == l.client.committed
              && l.up == [] && l.server.buf == []
    ensures l.server.ok ==> |file'| == |setup.source|
  {
    FreshHolds(setup);
    RunKeepsInv(setup, file, World(file, Fresh(setup)), trace, World(file', l));
  }

  /** On an open connection the bytes sent but not yet written are exactly the bytes under way: those
      in the queue and those the server holds, in order. */
  lemma BytesUnderWay(setup: Setup, file: Bytes, trace: seq<Action>, file': Bytes, l: Link)
    requires SessionRuns(setup, file, trace, file', l) && l.live && l.client.phase == Streaming
    ensures Opened(l.server) && l.server.pos <= l.client.taken - |l.client.out| <= |setup.source|
    ensures l.server.buf + l.up == setup.source[l.server.pos..l.client.taken - |l.client.out|]
  {
    FreshHolds(setup);
    RunKeepsInv(setup, file, World(file, Fresh(setup)), trace, World(file', l));
  }

  /** A final line that begins with OK, as far as the client has heard it, is a front part of the one
      that names the size of the source; when its newline is next the number parses to that size. */
  lemma OkNamesSize(setup: Setup, file: Bytes, trace: seq<Action>, file': Bytes, l: Link)
    requires SessionRuns(setup, file, trace, file', l)
    requires l.client.phase == AwaitingFinal && "OK" <= l.client.line
    ensures l.client.line <= "OK:" + Decimal(|setup.source|)
    ensures l.down != [] && l.down[0] == '\n' ==> ParseOkOffset(l.client.line) == Some(|setup.source|)
  {
    var c, s, size := l.client, l.server, |setup.source|;
    FreshHolds(setup);
    RunKeepsInv(setup, file, World(file, Fresh(setup)), trace, World(file', l));
    assert c.heard == ReadyLine(s) + c.line && c.heard + l.down <= s.said;
    assert ReadyLine(s) + c.line <= s.said;
    OkMeansAnswered(l, c.line);
    BehindReady(ReadyLine(s), c.line, l.down, FinalText(true, size));
    NumberHeard(size, c.line, l.down);
  }

  lemma BehindReady(ready: Bytes, line: Bytes, down: Bytes, answer: Bytes)
    requires ready + line + down <= ready + answer
    ensures line + down <= answer
  {
    assert (ready + line + down)[|ready|..] == line + down;
    assert (ready + answer)[|ready|..] == answer;
  }

  /** What a client hears of the OK line of an upload of this size. */
  lemma NumberHeard(size: nat, line: Bytes, down: Bytes)
    requires size < LLONG_LIMIT && Free(line, '\n') && line + down <= FinalText(true, size)
    ensures line <= "OK:" + Decimal(size)
    ensures down != [] && down[0] == '\n' ==> ParseOkOffset(line) == Some(size)
  {
    var text := OkText(size);
    DecimalIsClean(size);
    assert FinalText(true, size) == text + "\n";
    assert forall i :: 0 <= i < |line| ==> line[i] == (text + "\n")[i];
    assert (text + "\n")[|text|] == '\n';
    assert line == (line + down)[..|line|] == text[..|line|];
    if down != [] && down[0] == '\n' {
      assert (line + down)[|line|] == '\n';
      assert Free(text, '\n');
      assert line == text;
      ReplyRoundTrip(size, []);
    }
  }

  // ---------- sequences of sessions ----------

  /** Sessions that upload the same source one after the other: `files[i]` is what session i
      finds and `files[i + 1]` what it leaves behind, `ends[i]` is the connection at the point
      where its run was cut off. */
  ghost predicate Sequence(source: Bytes, setups: seq<Setup>, traces: seq<seq<Action>>, files: seq<Bytes>, ends: seq<Link>)
  {
    && |traces| == |setups| == |ends| && |files| == |setups| + 1
    && forall i :: 0 <= i < |setups| ==>
         setups[i].source == source && SessionRuns(setups[i], files[i], traces[i], files[i + 1], ends[i])
  }

  // Whether one of the first k connections opened the file.
  predicate AnyOpened(ends: seq<Link>, k: nat)
    requires k <= |ends|
  {
    k > 0 && (AnyOpened(ends, k - 1) || Opened(ends[k - 1].server))
  }

  function TotalAccepted(ends: seq<Link>, k: nat): int
    requires k <= |ends|
  {
    if k == 0 then 0 else TotalAccepted(ends, k - 1) + Accepted(ends[k - 1])
  }

  /** What sessions that accepted `total` bytes together have made of the first contents. */
  predicate Resumed(source: Bytes, first: Bytes, touched: bool, total: int, file: Bytes) {
    var off := ServerOffset(|first|, |source|);
    if touched then off <= |file| <= |source| && file == Spliced(first, off, source, |file|) && total == |file| - off
    else file == first && total == 0
  }

  lemma SplicedTwice(initial: Bytes, off: nat, source: Bytes, n: nat, m: nat)
    requires off <= |initial| && off <= n <= m <= |source|
    ensures Spliced(Spliced(initial, off, source, n), n, source, m) == Spliced(initial, off, source, m)
  {
    assert source[off..n] + source[n..m] == source[off..m];
  }

  lemma SessionResumes(source: Bytes, first: Bytes, touched: bool, total: int, file: Bytes,
                       setup: Setup, trace: seq<Action>, file': Bytes, l: Link)
    requires Resumed(source, first, touched, total, file)
    requires setup.source == source && SessionRuns(setup, file, trace, file', l)
    ensures Resumed(source, first, touched || Opened(l.server), total + Accepted(l), file')
  {
    OneSession(setup, file, trace, file', l);
    if touched && Opened(l.server) {
      SplicedTwice(first, ServerOffset(|first|, |source|), source, |file|, |file'|);
    }
  }

  /** Over any sequence of sessions the server's file is the kept front part of the first contents
      followed by source bytes without a gap, and the bytes that all sessions accepted together
      are exactly the bytes by which it grew: no byte that was kept is accepted again. */
  lemma {:induction false} ResumedUpload(source: Bytes, setups: seq<Setup>, traces: seq<seq<Action>>, files: seq<Bytes>,
                                         ends: seq<Link>, k: nat)
    requires Sequence(source, setups, traces, files, ends) && k <= |setups|
    ensures Resumed(source, files[0], AnyOpened(ends, k), TotalAccepted(ends, k), files[k])
  {
    if k > 0 {
      ResumedUpload(source, setups, traces, files, ends, k - 1);
      SessionResumes(source, files[0], AnyOpened(ends, k - 1), TotalAccepted(ends, k - 1), files[k - 1],
                     setups[k - 1], traces[k - 1], files[k], ends[k - 1]);
    }
  }

  /** Once some session has opened the file it never gets shorter. */
  lemma NeverShorter(source: Bytes, setups: seq<Setup>, traces: seq<seq<Action>>, files: seq<Bytes>, ends: seq<Link>, k: nat)
    requires Sequence(source, setups, traces, files, ends) && k < |setups| && AnyOpened(ends, k)
    ensures |files[k]| <= |files[k + 1]|
  {
    ResumedUpload(source, setups, traces, files, ends, k);
    OneSession(setups[k], files[k], traces[k], files[k + 1], ends[k]);
  }

  /** A session that is reported Completed leaves a full file, and that file is the source
      exactly when the first contents were a front part of it or were too long. */
  lemma CompletedUpload(source: Bytes, setups: seq<Setup>, traces: seq<seq<Action>>, files: seq<Bytes>, ends: seq<Link>, k: nat)
    requires Sequence(source, setups, traces, files, ends) && k < |setups|
    requires ends[k].client.phase == Completed
    ensures |files[k + 1]| == |source|
    ensures files[k + 1] == source <==> files[0] <= source || |files[0]| > |source|
  {
    OneSession(setups[k], files[k], traces[k], files[k + 1], ends[k]);
    ResumedUpload(source, setups, traces, files, ends, k + 1);
    var off := ServerOffset(|files[0]|, |source|);
    assert files[k + 1] == files[0][..off] + source[off..];
    assert source == source[..off] + source[off..];
    assert files[0][..off] == files[k + 1][..off];
  }
}
