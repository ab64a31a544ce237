/** Runs of a range connection, whole downloads, and sequences of interrupted downloads. */
module DownloadSessions {
  import opened Text
  import opened RequestPolicy
  import opened DownloadLink
  import opened DownloadSafety
  import U = UploadSessions
  import UploadLink

  // ---------- runs ----------

  datatype World = World(file: Bytes, link: Link)

  function Next(setup: Setup, w: World, a: Action): World
    requires Enabled(setup, w.file, w.link, a)
  {
    World(FileAfter(setup, w.file, w.link.client, a), LinkAfter(setup, w.file, w.link, a))
  }

  ghost predicate OneStep(setup: Setup, w: World, w': World) {
    exists a :: Enabled(setup, w.file, w.link, a) && w' == Next(setup, w, a)
  }

  ghost predicate StepAt(setup: Setup, worlds: seq<World>, k: nat) {
    k + 1 < |worlds| ==> OneStep(setup, worlds[k], worlds[k + 1])
  }

  /** The worlds of one run of the range connection, from its beginning. */
  ghost predicate History(setup: Setup, file: Bytes, worlds: seq<World>) {
    && setup.Valid() && setup.start == ResolveDownloadOffset(|file|, setup.size)
    && worlds != [] && worlds[0] == World(file, Fresh(setup))
    && forall k: nat :: k < |worlds| - 1 ==> StepAt(setup, worlds, k)
  }

  /** Worlds that the machine runs through, the current one last. */
  ghost predicate Sound(setup: Setup, worlds: seq<World>) {
    worlds != [] && forall k: nat :: k < |worlds| - 1 ==> StepAt(setup, worlds, k)
  }

  function Now(worlds: seq<World>): World
    requires worlds != []
  {
    worlds[|worlds| - 1]
  }

  lemma Do(setup: Setup, worlds: seq<World>, a: Action) returns (longer: seq<World>)
    requires Sound(setup, worlds) && Enabled(setup, Now(worlds).file, Now(worlds).link, a)
    ensures longer == worlds + [Next(setup, Now(worlds), a)] && Sound(setup, longer)
  {
    longer := worlds + [Next(setup, Now(worlds), a)];
    forall k: nat | k < |longer| - 1 ensures StepAt(setup, longer, k) {
      if k < |worlds| - 1 {
        assert StepAt(setup, worlds, k);
      }
    }
  }

  // ---------- the local file ----------

  /** The local file is untouched, or it is its kept front part continued with remote bytes. */
  predicate Kept(setup: Setup, initial: Bytes, file: Bytes)
    requires setup.Valid() && setup.start <= |initial|
  {
    || file == initial
    || (setup.start <= |file| <= setup.size && file == U.Spliced(initial, setup.start, setup.remote, |file|))
  }

  ghost predicate FileInv(setup: Setup, initial: Bytes, w: World)
    requires setup.Valid()
  {
    var c := w.link.client;
    && setup.start <= |initial|
    && (setup.start > 0 ==> setup.start == |initial|)
    && match c.phase
       case Commanding => w.file == initial
       case AwaitingSize => w.file == initial
       case Confirming => w.file == initial
       case Opening => w.file == initial
       case Stopped => Kept(setup, initial, w.file)
       case _ =>
         && setup.start <= c.pos == |w.file| <= setup.size
         && w.file == U.Spliced(initial, setup.start, setup.remote, c.pos)
         && (c.phase == Receiving ==> c.actual == c.pos)
         && (c.phase == Completed ==> c.pos == setup.size)
  }

  ghost predicate Inv(setup: Setup, initial: Bytes, w: World)
    requires setup.Valid()
  {
    LinkInv(setup, w.link) && FileInv(setup, initial, w)
  }

  lemma FileKeptByWrite(setup: Setup, initial: Bytes, w: World, n: nat)
    requires setup.Valid() && Enabled(setup, w.file, w.link, ClientWrite(n))
    requires ClientView(setup, w.link) && FileInv(setup, initial, w)
    ensures FileInv(setup, initial, Next(setup, w, ClientWrite(n)))
  {
    var c, c' := w.link.client, Next(setup, w, ClientWrite(n)).link.client;
    U.WriteExtends(initial, setup.start, setup.remote, c.pos, c.buf[..n]);
    var file' := UploadLink.WriteAt(w.file, c.pos, c.buf[..n]);
    assert Next(setup, w, ClientWrite(n)).file == file' == U.Spliced(initial, setup.start, setup.remote, c.pos + n);
    assert |file'| == c.pos + n == c'.pos && (c'.phase == Writing || c'.phase == Measuring);
  }

  /** Opening the target leaves it exactly as long as the offset: no hole, no stale tail. */
  lemma OpenLeavesOffset(setup: Setup, initial: Bytes, w: World)
    requires setup.Valid() && Enabled(setup, w.file, w.link, ClientOpen) && FileInv(setup, initial, w)
    ensures |Next(setup, w, ClientOpen).file| == setup.start
    ensures FileInv(setup, initial, Next(setup, w, ClientOpen))
  {
    assert setup.remote[setup.start..setup.start] == [];
    assert initial[..|initial|] == initial;
  }

  lemma FileKeptByRest(setup: Setup, initial: Bytes, w: World, a: Action)
    requires setup.Valid() && Enabled(setup, w.file, w.link, a) && LinkInv(setup, w.link) && FileInv(setup, initial, w)
    requires ByClient(a) && !a.ClientOpen? && !a.ClientWrite?
    ensures FileInv(setup, initial, Next(setup, w, a))
  {
  }

  lemma FileKept(setup: Setup, initial: Bytes, w: World, a: Action)
    requires setup.Valid() && Inv(setup, initial, w) && Enabled(setup, w.file, w.link, a)
    ensures FileInv(setup, initial, Next(setup, w, a))
  {
    if !ByClient(a) {
      assert Next(setup, w, a).link.client == w.link.client;
    } else if a.ClientWrite? {
      FileKeptByWrite(setup, initial, w, a.n);
    } else if a.ClientOpen? {
      OpenLeavesOffset(setup, initial, w);
    } else {
      FileKeptByRest(setup, initial, w, a);
    }
  }

  lemma OneStepKeepsInv(setup: Setup, initial: Bytes, w: World, w': World)
    requires setup.Valid() && Inv(setup, initial, w) && OneStep(setup, w, w')
    ensures Inv(setup, initial, w')
  {
    var a :| Enabled(setup, w.file, w.link, a) && w' == Next(setup, w, a);
    StepKeeps(setup, w.file, w.link, a);
    FileKept(setup, initial, w, a);
  }

  lemma {:induction false} RunKeepsInv(setup: Setup, file: Bytes, worlds: seq<World>, k: nat)
    requires History(setup, file, worlds) && k < |worlds|
    ensures Inv(setup, file, worlds[k])
  {
    if k == 0 {
      FreshHolds(setup);
    } else {
      RunKeepsInv(setup, file, worlds, k - 1);
      assert StepAt(setup, worlds, k - 1);
      OneStepKeepsInv(setup, file, worlds[k - 1], worlds[k]);
    }
  }

  /** At every point of a range connection the local file is untouched or its kept front part
      continued with remote bytes, as many as the client counts; Completed means it has reached the
      size the client learned. */
  lemma OneRange(setup: Setup, file: Bytes, worlds: seq<World>, k: nat)
    requires History(setup, file, worlds) && k < |worlds|
    ensures setup.start <= |file| && Kept(setup, file, worlds[k].file)
    ensures worlds[k].link.client.phase == Receiving ==> worlds[k].link.client.actual == |worlds[k].file|
    ensures worlds[k].link.client.phase == Completed ==>
              |worlds[k].file| == setup.size && worlds[k].file == U.Spliced(file, setup.start, setup.remote, setup.size)
  {
    RunKeepsInv(setup, file, worlds, k);
  }

  /** On an open range connection the bytes the server has read but the client has not received are
      exactly the bytes under way, in order. */
  lemma BytesUnderWay(setup: Setup, file: Bytes, worlds: seq<World>, k: nat)
    requires History(setup, file, worlds) && k < |worlds| && worlds[k].link.live
    requires worlds[k].link.client.phase == Receiving
    ensures var c, s, l := worlds[k].link.client, worlds[k].link.server, worlds[k].link;
            c.pos <= s.next <= setup.size && l.down + s.out == setup.remote[c.pos..s.next]
  {
    RunKeepsInv(setup, file, worlds, k);
    var c, s, l := worlds[k].link.client, worlds[k].link.server, worlds[k].link;
    RestUnderWay(SizeLine(setup), setup.remote, setup.start, c.pos, s.next, l.down, s.out);
  }

  lemma RestUnderWay(front: Bytes, remote: Bytes, from: nat, mid: nat, to: nat, down: Bytes, out: Bytes)
    requires from <= mid <= |remote| && from <= to <= |remote|
    requires front + remote[from..mid] + down + out == front + remote[from..to]
    ensures mid <= to && down + out == remote[mid..to]
  {
    assert down + out == (front + remote[from..mid] + down + out)[|front| + (mid - from)..];
    assert (front + remote[from..to])[|front| + (mid - from)..] == remote[mid..to];
  }

  // ---------- one download ----------

  /** A download asks for the size first; `reply` is what `receiveLine` returned, which may have
      been cut short.  The range connection is only made when there is something to fetch. */
  datatype Attempt = NoContact | Attempt(reply: Bytes, setup: Setup, worlds: seq<World>)

  // `toLongLong` yields zero for a text that is no number.
  function LearnedSize(reply: Bytes): int {
    match ToLongLong(reply)
    case Some(v) => v
    case None => 0
  }

  /** What can arrive of an answer to the size query that the client goes on with: a front part of the
      number, or of an error reply that is too short to be told for one. */
  predicate SizeReply(remote: Bytes, reply: Bytes) {
    reply <= Decimal(|remote|) || reply < "ERROR"
  }

  ghost predicate Downloads(remote: Bytes, file: Bytes, t: Attempt, file': Bytes, completed: bool) {
    match t
    case NoContact => file' == file && !completed
    case Attempt(reply, setup, worlds) =>
      && SizeReply(remote, reply)
      && var size := LearnedSize(reply);
         if size <= 0 then file' == [] && completed
         else if ResolveDownloadOffset(|file|, size) >= size then size <= |file| && file' == file[..size] && completed
         else
           && History(setup, file, worlds) && setup.remote == remote && setup.size == size
           && var end := worlds[|worlds| - 1];
              file' == end.file && (completed <==> end.link.client.phase == Completed)
  }

  lemma ErrorIsNoNumber(reply: Bytes)
    requires reply < "ERROR"
    ensures LearnedSize(reply) == 0
  {
    assert reply == "ERROR"[..|reply|];
    if reply != [] {
      assert Trimmed(reply) == [] || Trimmed(reply)[0] == 'E';
    }
  }

  lemma CutNumber(n: nat, reply: Bytes)
    requires n < LLONG_LIMIT && reply <= Decimal(n)
    ensures 0 <= LearnedSize(reply) <= n
    ensures LearnedSize(reply) == n <==> reply == Decimal(n) || n == 0
  {
    ParseDigits(reply);
    PrefixValueAtMost(Decimal(n), |reply|);
    ValueOfDecimal(n);
    assert Decimal(n)[..|reply|] == reply;
    if |reply| < |Decimal(n)| && n > 0 {
      CutDecimalIsSmaller(n, |reply|);
    }
  }

  /** A reply that was cut short makes the client believe in a smaller size. */
  lemma LearnedSizeOfReply(remote: Bytes, reply: Bytes)
    requires |remote| < LLONG_LIMIT && SizeReply(remote, reply)
    ensures 0 <= LearnedSize(reply) <= |remote|
    ensures LearnedSize(reply) == |remote| <==> reply == Decimal(|remote|) || remote == []
  {
    if reply <= Decimal(|remote|) {
      CutNumber(|remote|, reply);
    } else {
      ErrorIsNoNumber(reply);
    }
  }

  /** A download that reports Completed has a file of exactly the length the client learned. */
  lemma CompletedLength(remote: Bytes, file: Bytes, t: Attempt, file': Bytes)
    requires Downloads(remote, file, t, file', true)
    ensures |file'| == if LearnedSize(t.reply) <= 0 then 0 else LearnedSize(t.reply)
  {
    if 0 < LearnedSize(t.reply) && ResolveDownloadOffset(|file|, LearnedSize(t.reply)) < LearnedSize(t.reply) {
      OneRange(t.setup, file, t.worlds, |t.worlds| - 1);
    }
  }

  /** A download that reports Completed has a file of the right length exactly when the size reply
      had arrived whole (an empty remote file aside).  In particular a client that gets no size
      reply, or only the first letters of an error, empties its file and reports Completed. */
  lemma CompletedLengthIsRightExactlyWhen(remote: Bytes, file: Bytes, t: Attempt, file': Bytes)
    requires |remote| < LLONG_LIMIT && Downloads(remote, file, t, file', true)
    ensures |file'| == |remote| <==> t.reply == Decimal(|remote|) || remote == []
    ensures t.reply < "ERROR" ==> file' == []
  {
    CompletedLength(remote, file, t, file');
    LearnedSizeOfReply(remote, t.reply);
    if t.reply < "ERROR" {
      ErrorIsNoNumber(t.reply);
    }
  }

  // ---------- sequences of downloads ----------

  predicate WholeReply(remote: Bytes, t: Attempt) {
    t.Attempt? ==> t.reply == Decimal(|remote|)
  }

  /** Downloads of the same unchanged remote file to the same target, one after the other. */
  ghost predicate Sequence(remote: Bytes, attempts: seq<Attempt>, files: seq<Bytes>, completed: seq<bool>) {
    && |remote| < LLONG_LIMIT && |files| == |attempts| + 1 && |completed| == |attempts|
    && forall i :: 0 <= i < |attempts| ==>
         WholeReply(remote, attempts[i]) && Downloads(remote, files[i], attempts[i], files[i + 1], completed[i])
  }

  /** What downloads have made of the first contents of the target. */
  predicate Resumed(remote: Bytes, first: Bytes, file: Bytes) {
    var off := ResolveDownloadOffset(|first|, |remote|);
    || file == first
    || (off <= |file| <= |remote| && file == U.Spliced(first, off, remote, |file|))
  }

  lemma RangeKeeps(remote: Bytes, file: Bytes, setup: Setup, worlds: seq<World>)
    requires History(setup, file, worlds) && setup.remote == remote && setup.size == |remote|
    ensures var end := worlds[|worlds| - 1];
            && Resumed(remote, file, end.file)
            && (end.link.client.phase == Completed ==>
                  |end.file| == |remote| && end.file == U.Spliced(file, ResolveDownloadOffset(|file|, |remote|), remote, |remote|))
  {
    OneRange(setup, file, worlds, |worlds| - 1);
  }

  /** The remote file is empty, or the target is already as long: what is left is the front part of
      that length. */
  lemma SettledKeeps(remote: Bytes, file: Bytes)
    requires ResolveDownloadOffset(|file|, |remote|) >= |remote|
    ensures |remote| > 0 ==> |remote| <= |file|
    ensures var file' := if remote == [] then [] else file[..|remote|];
            && Resumed(remote, file, file') && |file'| == |remote|
            && file' == U.Spliced(file, ResolveDownloadOffset(|file|, |remote|), remote, |remote|)
  {
  }

  /** What one download makes of a file: nothing, or the kept front part continued. */
  lemma DownloadKeeps(remote: Bytes, file: Bytes, t: Attempt, file': Bytes, completed: bool)
    requires |remote| < LLONG_LIMIT && WholeReply(remote, t) && Downloads(remote, file, t, file', completed)
    ensures Resumed(remote, file, file')
    ensures completed ==> |file'| == |remote| && file' == U.Spliced(file, ResolveDownloadOffset(|file|, |remote|), remote, |remote|)
  {
    if t.Attempt? {
      LearnedSizeOfReply(remote, t.reply);
      if ResolveDownloadOffset(|file|, |remote|) < |remote| {
        RangeKeeps(remote, file, t.setup, t.worlds);
      } else {
        SettledKeeps(remote, file);
      }
    }
  }

  lemma ResumedAgain(remote: Bytes, first: Bytes, file: Bytes, file': Bytes)
    requires Resumed(remote, first, file) && Resumed(remote, file, file')
    ensures Resumed(remote, first, file')
    ensures file != first ==> |file| <= |file'|
  {
    if file != first && file' != file {
      U.SplicedTwice(first, ResolveDownloadOffset(|first|, |remote|), remote, |file|, |file'|);
    }
  }

  /** Over any sequence of interrupted and resumed downloads the target is its first contents or
      its kept front part continued with remote bytes without a gap, and once it has been changed
      it never gets shorter. */
  lemma {:induction false} ResumedDownload(remote: Bytes, attempts: seq<Attempt>, files: seq<Bytes>, completed: seq<bool>, k: nat)
    requires Sequence(remote, attempts, files, completed) && k <= |attempts|
    ensures Resumed(remote, files[0], files[k])
    ensures k > 0 && files[k - 1] != files[0] ==> |files[k - 1]| <= |files[k]|
  {
    if k > 0 {
      ResumedDownload(remote, attempts, files, completed, k - 1);
      DownloadKeeps(remote, files[k - 1], attempts[k - 1], files[k], completed[k - 1]);
      ResumedAgain(remote, files[0], files[k - 1], files[k]);
    }
  }

  lemma CompletedContents(remote: Bytes, attempts: seq<Attempt>, files: seq<Bytes>, completed: seq<bool>, k: nat)
    requires Sequence(remote, attempts, files, completed) && k < |attempts| && completed[k]
    ensures files[k + 1] == U.Spliced(files[0], ResolveDownloadOffset(|files[0]|, |remote|), remote, |remote|)
  {
    ResumedDownload(remote, attempts, files, completed, k);
    DownloadKeeps(remote, files[k], attempts[k], files[k + 1], true);
    if files[k] != files[0] {
      U.SplicedTwice(files[0], ResolveDownloadOffset(|files[0]|, |remote|), remote, |files[k]|, |remote|);
    }
  }

  /** A download that is reported Completed leaves a file of the remote length, and that file is
      the remote one exactly when the first contents were a front part of it or were too long. */
  lemma CompletedDownload(remote: Bytes, attempts: seq<Attempt>, files: seq<Bytes>, completed: seq<bool>, k: nat)
    requires Sequence(remote, attempts, files, completed) && k < |attempts| && completed[k]
    ensures |files[k + 1]| == |remote|
    ensures files[k + 1] == remote <==> files[0] <= remote || |files[0]| > |remote|
  {
    CompletedContents(remote, attempts, files, completed, k);
  }
}
