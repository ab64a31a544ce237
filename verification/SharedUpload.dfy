/** Any number of connections that upload the same source into the same file at the same time:
    the server runs one thread a connection, and an old session may still be writing when its
    resumption has begun. */
module SharedUpload {
  import opened Text
  import opened RequestPolicy
  import opened UploadLink
  import opened UploadSafety
  import opened UploadSessions
  import opened UploadProgress

  datatype Shared = Shared(file: Bytes, setups: seq<Setup>, links: seq<Link>)

  // One thread's step, or a new connection.
  datatype Event = Connect(setup: Setup) | Act(i: nat, a: Action)

  predicate CanHappen(source: Bytes, w: Shared, e: Event) {
    |w.setups| == |w.links|
    && match e
       case Connect(setup) => setup.Valid() && setup.source == source
       case Act(i, a) =>
         // A file that is open can be looked at.
         && i < |w.links| && Enabled(w.setups[i], w.file, w.links[i], a)
         && Looks(a)
  }

  function After(source: Bytes, w: Shared, e: Event): Shared
    requires CanHappen(source, w, e)
  {
    match e
    case Connect(setup) => Shared(w.file, w.setups + [setup], w.links + [Fresh(setup)])
    case Act(i, a) =>
      Shared(FileAfter(w.file, w.links[i].server, a), w.setups,
             w.links[i := LinkAfter(w.setups[i], w.file, w.links[i], a)])
  }

  ghost predicate OneStep(source: Bytes, w: Shared, w': Shared) {
    exists e :: CanHappen(source, w, e) && w' == After(source, w, e)
  }

  ghost predicate StepAt(source: Bytes, states: seq<Shared>, k: nat) {
    k + 1 < |states| ==> OneStep(source, states[k], states[k + 1])
  }

  /** The states of one run, in order. */
  ghost predicate History(source: Bytes, states: seq<Shared>) {
    states != [] && forall k: nat :: k < |states| - 1 ==> StepAt(source, states, k)
  }

  ghost predicate Reaches(source: Bytes, w: Shared, w': Shared) {
    exists states :: History(source, states) && states[0] == w && states[|states| - 1] == w'
  }

  /** No thread writes beyond the end of the file, and none has opened it from the start again. */
  predicate WriterInv(source: Bytes, file: Bytes, s: Server) {
    && (s.phase == Opening ==> 0 < s.off <= |file|)
    && (Opened(s) ==> 0 < s.off <= |file| && s.pos <= |file|)
    && (s.ok ==> file == source)
  }

  ghost predicate ThreadInv(source: Bytes, file: Bytes, setup: Setup, l: Link) {
    setup.Valid() && setup.source == source && LinkInv(setup, l) && WriterInv(source, file, l.server)
  }

  ghost predicate SharedInv(source: Bytes, w: Shared) {
    && w.file != [] && w.file <= source && |w.setups| == |w.links|
    && forall i :: 0 <= i < |w.links| ==> ThreadInv(source, w.file, w.setups[i], w.links[i])
  }

  /** Writing bytes of the source where they belong keeps a front part of the source. */
  lemma WriteKeepsPrefix(source: Bytes, file: Bytes, pos: nat, data: Bytes)
    requires file <= source && pos <= |file| && pos + |data| <= |source|
    requires data == source[pos..pos + |data|]
    ensures WriteAt(file, pos, data) <= source
    ensures |file| <= |WriteAt(file, pos, data)| && pos + |data| <= |WriteAt(file, pos, data)|
  {
    var file' := WriteAt(file, pos, data);
    assert forall k :: 0 <= k < |file'| ==> file'[k] == source[k];
  }

  lemma WriterWrites(setup: Setup, file: Bytes, l: Link, n: nat)
    requires file != [] && file <= setup.source && Enabled(setup, file, l, ServerWrite(n))
    requires Opened(l.server) && !l.server.ok && DataStream(setup, l) && WriterInv(setup.source, file, l.server)
    ensures var file' := FileAfter(file, l.server, ServerWrite(n));
            && file' <= setup.source && |file| <= |file'|
            && WriterInv(setup.source, file', LinkAfter(setup, file, l, ServerWrite(n)).server)
  {
    var s := l.server;
    WrittenPart(setup.source, s.pos, s.buf, l.up, n);
    WriteKeepsPrefix(setup.source, file, s.pos, s.buf[..n]);
  }

  lemma WriterLooks(setup: Setup, file: Bytes, l: Link, a: Action)
    requires file != [] && file <= setup.source && Enabled(setup, file, l, a) && !a.ServerWrite? && !ByClient(a)
    requires Replies(l) && CommandStream(setup, l) && WriterInv(setup.source, file, l.server)
    requires Looks(a)
    ensures FileAfter(file, l.server, a) == file
    ensures WriterInv(setup.source, file, LinkAfter(setup, file, l, a).server)
  {
  }

  /** What one thread's step does to the file, and that the step keeps that thread in bounds. */
  lemma ThreadStep(setup: Setup, file: Bytes, l: Link, a: Action)
    requires file != [] && file <= setup.source
    requires ThreadInv(setup.source, file, setup, l) && Enabled(setup, file, l, a)
    requires Looks(a)
    ensures var file' := FileAfter(file, l.server, a);
            && file' <= setup.source && |file| <= |file'|
            && ThreadInv(setup.source, file', setup, LinkAfter(setup, file, l, a))
  {
    StepKeeps(setup, file, l, a);
    if ByClient(a) {
      assert LinkAfter(setup, file, l, a).server == l.server;
    } else if a.ServerWrite? {
      WriterWrites(setup, file, l, a.n);
    } else {
      WriterLooks(setup, file, l, a);
    }
  }

  lemma EventKeeps(source: Bytes, w: Shared, e: Event)
    requires SharedInv(source, w) && CanHappen(source, w, e)
    ensures SharedInv(source, After(source, w, e)) && w.file <= After(source, w, e).file
  {
    var w' := After(source, w, e);
    match e
    case Connect(setup) => FreshHolds(setup);
    case Act(i, a) =>
      ThreadStep(w.setups[i], w.file, w.links[i], a);
      forall j | 0 <= j < |w.links| && j != i ensures ThreadInv(source, w'.file, w'.setups[j], w'.links[j]) {
      }
  }

  predicate Intact(source: Bytes, w: Shared) {
    forall i :: 0 <= i < |w.links| && (w.links[i].server.ok || w.links[i].client.phase == Completed) ==>
      w.file == source
  }

  /** However many sessions of one upload overlap, and however their steps interleave: when the
      file was a front part of the source and not empty, it stays one and never gets shorter, and
      whenever a session has answered OK, or a client reports Completed, it is the source. */
  lemma {:induction false} OverlappingSessions(source: Bytes, states: seq<Shared>, k: nat)
    requires History(source, states) && SharedInv(source, states[0]) && k < |states|
    ensures SharedInv(source, states[k])
    ensures states[0].file <= states[k].file <= source && Intact(source, states[k])
  {
    if k > 0 {
      OverlappingSessions(source, states, k - 1);
      assert StepAt(source, states, k - 1);
      var e :| CanHappen(source, states[k - 1], e) && states[k] == After(source, states[k - 1], e);
      EventKeeps(source, states[k - 1], e);
    }
  }

  // ---------- the condition is needed ----------

  lemma ReachesItself(source: Bytes, w: Shared)
    ensures Reaches(source, w, w)
  {
    assert History(source, [w]);
  }

  lemma ReachesByEvent(source: Bytes, w: Shared, e: Event)
    requires CanHappen(source, w, e)
    ensures Reaches(source, w, After(source, w, e))
  {
    var states := [w, After(source, w, e)];
    assert OneStep(source, w, After(source, w, e));
    assert History(source, states);
  }

  lemma SameStep(source: Bytes, states: seq<Shared>, k: nat, part: seq<Shared>, j: nat)
    requires k + 1 < |states| && j + 1 < |part| && states[k] == part[j] && states[k + 1] == part[j + 1]
    requires StepAt(source, part, j)
    ensures StepAt(source, states, k)
  {
  }

  lemma HistoriesJoined(source: Bytes, first: seq<Shared>, second: seq<Shared>)
    requires History(source, first) && History(source, second) && first[|first| - 1] == second[0]
    ensures History(source, first + second[1..])
  {
    var states := first + second[1..];
    forall k: nat | k < |states| - 1 ensures StepAt(source, states, k) {
      if k < |first| - 1 {
        SameStep(source, states, k, first, k);
      } else {
        SameStep(source, states, k, second, k - (|first| - 1));
      }
    }
  }

  lemma ReachesInTurn(source: Bytes, w: Shared, w1: Shared, w2: Shared)
    requires Reaches(source, w, w1) && Reaches(source, w1, w2)
    ensures Reaches(source, w, w2)
  {
    var first :| History(source, first) && first[0] == w && first[|first| - 1] == w1;
    var second :| History(source, second) && second[0] == w1 && second[|second| - 1] == w2;
    HistoriesJoined(source, first, second);
    var states := first + second[1..];
    assert states[0] == w && states[|states| - 1] == w2;
  }

  /** An undisturbed run of one connection is a run of them all in which the others wait. */
  lemma {:induction false} ReachesByThread(source: Bytes, w: Shared, i: nat, trace: seq<Action>, end: World, w': Shared)
    requires |w.setups| == |w.links| && i < |w.links|
    requires Leads(w.setups[i], World(w.file, w.links[i]), trace, end) && forall a :: a in trace ==> Looks(a)
    requires w' == Shared(end.file, w.setups, w.links[i := end.link])
    ensures Reaches(source, w, w')
    decreases |trace|
  {
    if trace == [] {
      assert w' == w;
      ReachesItself(source, w);
    } else {
      var a := trace[0];
      assert a in trace && Looks(a);
      var w1 := After(source, w, Act(i, a));
      assert w1.links[i := end.link] == w.links[i := end.link];
      ReachesByThread(source, w1, i, trace[1..], end, w');
      ReachesByEvent(source, w, Act(i, a));
      ReachesInTurn(source, w, w1, w');
    }
  }

  ghost predicate CanBeProbed(setup: Setup, w: World) {
    exists trace, w' :: Leads(setup, w, trace, w') && w'.link.server.phase == Opening && w'.file == w.file
  }

  /** A connection can be run alone up to the point where the server has looked at the file but
      not opened it. */
  lemma {:induction false} ProbeReached(setup: Setup, w: World)
    requires Good(setup, w.file, w)
    requires w.link.server.phase == ReadingCommand || w.link.server.phase == Probing
    ensures CanBeProbed(setup, w)
    decreases Stage(w.link), Weight(setup, w.link)
  {
    NeverStuck(setup, w.file, w);
    var a :| CanGoOn(setup, w, a);
    var next := Next(setup, w, a);
    GoodKept(setup, w.file, w, a);
    NextIsProbed(setup, w, a);
    if next.link.server.phase == Opening {
      assert Leads(setup, next, [], next);
      LeadsPrepended(setup, w, a, [], next);
    } else {
      ProbeReached(setup, next);
      var trace, w' :| Leads(setup, next, trace, w') && w'.link.server.phase == Opening && w'.file == next.file;
      LeadsPrepended(setup, w, a, trace, w');
    }
  }

  lemma NextIsProbed(setup: Setup, w: World, a: Action)
    requires setup.Valid() && LinkInv(setup, w.link) && CanGoOn(setup, w, a)
    requires w.link.server.phase == ReadingCommand || w.link.server.phase == Probing
    ensures var next := Next(setup, w, a);
            && next.file == w.file
            && (next.link.server.phase == ReadingCommand || next.link.server.phase == Probing || next.link.server.phase == Opening)
  {
    if a.ServerByte? {
      CommandByteKept(setup, w.file, w.link);
    }
  }

  lemma ReachesTwoConnections(setup: Setup, file: Bytes)
    requires setup.Valid()
    ensures Reaches(setup.source, Shared(file, [], []), Shared(file, [setup, setup], [Fresh(setup), Fresh(setup)]))
  {
    var w0, e := Shared(file, [], []), Connect(setup);
    var w1 := After(setup.source, w0, e);
    ReachesByEvent(setup.source, w0, e);
    ReachesByEvent(setup.source, w1, e);
    assert w1 == Shared(file, [setup], [Fresh(setup)]);
    assert After(setup.source, w1, e) == Shared(file, [setup, setup], [Fresh(setup), Fresh(setup)]);
    ReachesInTurn(setup.source, w0, w1, After(setup.source, w1, e));
  }

  /** Alone, a connection can be brought to the point between looking at the file and opening it. */
  lemma LoneProbe(setup: Setup, file: Bytes) returns (trace: seq<Action>, end: World)
    requires setup.Valid()
    ensures Leads(setup, World(file, Fresh(setup)), trace, end) && end.file == file
    ensures end.link.server.phase == Opening && end.link.server.off == ServerOffset(|file|, |setup.source|)
    ensures forall a :: a in trace ==> Looks(a)
  {
    var start := World(file, Fresh(setup));
    FreshHolds(setup);
    FreshIsUndisturbed(setup);
    ProbeReached(setup, start);
    var any;
    any, end :| Leads(setup, start, any, end) && end.link.server.phase == Opening && end.file == file;
    UndisturbedRun(setup, file, start, any, end);
    trace := RunWithLooks(setup, file, start, any, end);
  }

  /** Alone, a connection can be brought to its good end. */
  lemma LoneUpload(setup: Setup, file: Bytes) returns (trace: seq<Action>, end: World)
    requires setup.Valid()
    ensures Leads(setup, World(file, Fresh(setup)), trace, end) && BothDone(end.link) && end.link.server.ok
    ensures forall a :: a in trace ==> Looks(a)
  {
    var start := World(file, Fresh(setup));
    FreshHolds(setup);
    FreshIsUndisturbed(setup);
    CanBeFinished(setup, file, start);
    var any;
    any, end :| Leads(setup, start, any, end) && BothDone(end.link);
    UndisturbedRun(setup, file, start, any, end);
    trace := RunWithLooks(setup, file, start, any, end);
  }

  /** One connection has finished while the other had looked at the file, but not opened it. */
  lemma FinishedBehindProbe(setup: Setup, file: Bytes) returns (done: Link, probed: Link, file': Bytes)
    requires setup.Valid()
    ensures Reaches(setup.source, Shared(file, [], []), Shared(file', [setup, setup], [done, probed]))
    ensures BothDone(done) && done.server.ok
    ensures probed.server.phase == Opening && probed.server.off == ServerOffset(|file|, |setup.source|)
  {
    var probe, probeEnd := LoneProbe(setup, file);
    var upload, uploadEnd := LoneUpload(setup, file);
    done, probed, file' := uploadEnd.link, probeEnd.link, uploadEnd.file;
    OneAfterTheOther(setup, file, probe, probeEnd, upload, uploadEnd);
  }

  lemma OneAfterTheOther(setup: Setup, file: Bytes, second: seq<Action>, end2: World, first: seq<Action>, end1: World)
    requires setup.Valid() && end2.file == file
    requires Leads(setup, World(file, Fresh(setup)), second, end2) && Leads(setup, World(file, Fresh(setup)), first, end1)
    requires forall a :: a in first + second ==> Looks(a)
    ensures Reaches(setup.source, Shared(file, [], []), Shared(end1.file, [setup, setup], [end1.link, end2.link]))
  {
    var source, setups := setup.source, [setup, setup];
    var w0 := Shared(file, setups, [Fresh(setup), Fresh(setup)]);
    var w1 := Shared(file, setups, [Fresh(setup), end2.link]);
    var w2 := Shared(end1.file, setups, [end1.link, end2.link]);
    ReachesTwoConnections(setup, file);
    assert w0.links[1 := end2.link] == w1.links && w1.links[0 := end1.link] == w2.links;
    ReachesByThread(source, w0, 1, second, end2, w1);
    ReachesByThread(source, w1, 0, first, end1, w2);
    ReachesInTurn(source, Shared(file, [], []), w0, w1);
    ReachesInTurn(source, Shared(file, [], []), w1, w2);
  }

  /** When the server would start the file over, two sessions can overlap so that one of them is
      completed and yet the file is empty: the other looked at the file before and truncates it
      after. */
  lemma TruncatingOverlap(setup: Setup, file: Bytes)
    requires setup.Valid() && ServerOffset(|file|, |setup.source|) == 0
    ensures exists w' ::
              && Reaches(setup.source, Shared(file, [], []), w') && w'.file == []
              && |w'.links| == 2 && w'.links[0].server.ok && w'.links[0].client.phase == Completed
  {
    var done, probed, file' := FinishedBehindProbe(setup, file);
    var w := Shared(file', [setup, setup], [done, probed]);
    OpeningEmpties(setup, w);
    ReachesByEvent(setup.source, w, Act(1, ServerOpen));
    ReachesInTurn(setup.source, Shared(file, [], []), w, After(setup.source, w, Act(1, ServerOpen)));
  }

  lemma OpeningEmpties(setup: Setup, w: Shared)
    requires w.setups == [setup, setup] && |w.links| == 2
    requires w.links[1].server.phase == Opening && w.links[1].server.off == 0
    ensures CanHappen(setup.source, w, Act(1, ServerOpen))
    ensures var w' := After(setup.source, w, Act(1, ServerOpen)); w'.file == [] && |w'.links| == 2 && w'.links[0] == w.links[0]
  {
  }

  /** Where a lone session goes wrong no second one is needed: it is completed beside a file that is
      not the source. */
  lemma LoneSessionGoesWrong(setup: Setup, file: Bytes)
    requires setup.Valid() && !(file <= setup.source) && |file| <= |setup.source|
    ensures exists w' :: Reaches(setup.source, Shared(file, [], []), w') && !Intact(setup.source, w')
  {
    var source := setup.source;
    var start := Shared(file, [], []);
    var w1 := After(source, start, Connect(setup));
    var trace, end := LoneUpload(setup, file);
    var w2 := Shared(end.file, w1.setups, w1.links[0 := end.link]);
    ReachesByEvent(source, start, Connect(setup));
    ReachesByThread(source, w1, 0, trace, end, w2);
    ReachesInTurn(source, start, w1, w2);
    LoneResult(setup, file, trace, end);
    assert w2.links[0].server.ok;
  }

  lemma LoneResult(setup: Setup, file: Bytes, trace: seq<Action>, end: World)
    requires setup.Valid() && !(file <= setup.source) && |file| <= |setup.source|
    requires Leads(setup, World(file, Fresh(setup)), trace, end) && BothDone(end.link) && end.link.server.ok
    ensures end.file != setup.source
  {
    FreshIsUndisturbed(setup);
    FreshHolds(setup);
    UndisturbedRun(setup, file, World(file, Fresh(setup)), trace, end);
    var off := ServerOffset(|file|, |setup.source|);
    assert off == |file| && end.file[..off] == file[..off] == file;
  }

  lemma RunStaysIntact(source: Bytes, states: seq<Shared>)
    requires History(source, states) && SharedInv(source, states[0])
    ensures Intact(source, states[|states| - 1])
  {
    OverlappingSessions(source, states, |states| - 1);
  }

  lemma ReachedIsIntact(source: Bytes, file: Bytes, w: Shared)
    requires file != [] && file <= source && Reaches(source, Shared(file, [], []), w)
    ensures Intact(source, w)
  {
    var states :| History(source, states) && states[0] == Shared(file, [], []) && states[|states| - 1] == w;
    RunStaysIntact(source, states);
  }

  lemma EmptiedIsNotIntact(setup: Setup, file: Bytes)
    requires setup.Valid() && setup.source != [] && ServerOffset(|file|, |setup.source|) == 0
    ensures exists w' :: Reaches(setup.source, Shared(file, [], []), w') && !Intact(setup.source, w')
  {
    TruncatingOverlap(setup, file);
    var w' :| && Reaches(setup.source, Shared(file, [], []), w') && w'.file == []
              && |w'.links| == 2 && w'.links[0].server.ok && w'.links[0].client.phase == Completed;
    assert !Intact(setup.source, w');
  }

  /** For a source with at least one byte: every overlap of sessions gets it right exactly when the
      file on disk is a front part of the source that is not empty. */
  lemma OverlapIsSafeExactlyWhen(setup: Setup, file: Bytes)
    requires setup.Valid() && setup.source != []
    ensures (forall w' :: Reaches(setup.source, Shared(file, [], []), w') ==> Intact(setup.source, w'))
            <==> file != [] && file <= setup.source
  {
    var start := Shared(file, [], []);
    if file != [] && file <= setup.source {
      forall w' | Reaches(setup.source, start, w') ensures Intact(setup.source, w') {
        ReachedIsIntact(setup.source, file, w');
      }
    } else if file <= setup.source || |file| > |setup.source| {
      EmptiedIsNotIntact(setup, file);
    } else {
      LoneSessionGoesWrong(setup, file);
    }
  }
}
