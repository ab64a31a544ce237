/** The automatic directory sync of `DirectoryService`: every start of a node's sync takes a fresh
    cancellation token, and a worker or callback that finds its token cancelled does nothing. */
module DirectorySync {

  type Node = string
  datatype FileInfo = FileInfo(fileName: string, filePath: string, fileSize: int, isDirectory: bool, modifyTime: int)
  type Listing = seq<FileInfo>

  // ---------- has a directory changed? ----------

  /** What of an entry is compared: everything but its time. */
  datatype Seen = Seen(fileName: string, filePath: string, fileSize: int, isDirectory: bool)

  function SeenOf(info: FileInfo): Seen {
    Seen(info.fileName, info.filePath, info.fileSize, info.isDirectory)
  }

  function SeenList(list: Listing): seq<Seen> {
    seq(|list|, i requires 0 <= i < |list| => SeenOf(list[i]))
  }

  /** Two entries that differ in nothing that is compared; their times may. */
  predicate Alike(a: FileInfo, b: FileInfo) {
    a == b.(modifyTime := a.modifyTime)
  }

  /** What `SeenList` compares: the lists have one length, and each entry is like its counterpart. */
  lemma SeenListCompares(a: Listing, b: Listing)
    ensures SeenList(a) == SeenList(b) <==> |a| == |b| && forall i :: 0 <= i < |a| ==> Alike(a[i], b[i])
  {
    if SeenList(a) == SeenList(b) {
      assert |SeenList(a)| == |a| && |SeenList(b)| == |b|;
      forall i | 0 <= i < |a| ensures Alike(a[i], b[i]) {
        assert SeenList(a)[i] == SeenList(b)[i];
      }
    }
  }

  /** The comparison loop finds a change exactly when the two lists do not look the same: when their
      lengths or two entries in one place differ, in anything but a time. */
  method HasChanged(currentList: Listing, lastList: Listing) returns (changed: bool)
    ensures changed <==> SeenList(currentList) != SeenList(lastList)
    ensures !changed <==> |currentList| == |lastList| && forall i :: 0 <= i < |currentList| ==> Alike(currentList[i], lastList[i])
  {
    SeenListCompares(currentList, lastList);
    changed := |currentList| != |lastList|;
    if !changed {
      for i := 0 to |currentList|
        invariant !changed
        invariant forall j :: 0 <= j < i ==> SeenOf(currentList[j]) == SeenOf(lastList[j])
      {
        if || currentList[i].fileName != lastList[i].fileName
           || currentList[i].filePath != lastList[i].filePath
           || currentList[i].fileSize != lastList[i].fileSize
           || currentList[i].isDirectory != lastList[i].isDirectory
        {
          assert SeenList(currentList)[i] != SeenList(lastList)[i];
          return true;
        }
      }
    }
  }

  // ---------- the machine ----------

  /** A worker with what its tick saw; an update is what it posts.  The ticks that begin a worker are
      numbered, which the program does not do. */
  datatype Worker = Worker(node: Node, token: nat, tick: nat, snapshot: Listing)
  datatype Update = Update(worker: Worker, list: Listing)

  /** Tokens are numbered in the order of their creation: `cancelled` holds their flags, `owner`
      records their nodes.  `live` is the cancellation map, `timers` the token each timer holds. */
  datatype State = State(cancelled: seq<bool>, owner: seq<Node>, live: map<Node, nat>, timers: map<Node, nat>,
                         lastLists: map<Node, Listing>, ticks: nat, waiting: seq<Worker>, fetching: seq<Worker>,
                         posted: seq<Update>, emitted: seq<Update>)

  const INITIAL := State([], [], map[], map[], map[], 0, [], [], [], [])

  datatype Action =
    | Start(node: Node)
    | Stop(node: Node)
    | Tick(node: Node)
    | Begin(worker: nat)                    // the worker's first look at its token
    | Finish(worker: nat, list: Listing)    // the fetch is over
    | Call                                  // the event loop takes the next callback

  predicate Enabled(s: State, a: Action) {
    match a
    case Start(_) => true
    case Stop(_) => true
    case Tick(node) => node in s.timers
    case Begin(w) => w < |s.waiting|
    case Finish(w, _) => w < |s.fetching|
    case Call => s.posted != []
  }

  // A token that was never made counts as cancelled.
  predicate Off(s: State, token: nat) {
    token < |s.cancelled| ==> s.cancelled[token]
  }

  function Stopped(s: State, node: Node): State {
    var s' := s.(live := s.live - {node}, timers := s.timers - {node});
    if node in s.live && s.live[node] < |s.cancelled| then
      s'.(cancelled := s.cancelled[s.live[node] := true])
    else s'
  }

  function Started(s: State, node: Node): State {
    var token := |s.cancelled|;
    s.(cancelled := s.cancelled + [false], owner := s.owner + [node],
       live := s.live[node := token], timers := s.timers[node := token])
  }

  function Without<T>(list: seq<T>, k: nat): seq<T>
    requires k < |list|
  {
    list[..k] + list[k + 1..]
  }

  function LastList(s: State, node: Node): Listing {
    if node in s.lastLists then s.lastLists[node] else []
  }

  function After(s: State, a: Action): State
    requires Enabled(s, a)
  {
    match a
    case Start(node) => Started(Stopped(s, node), node)
    case Stop(node) => Stopped(s, node)
    case Tick(node) =>
      var token := s.timers[node];
      if Off(s, token) then s
      else s.(waiting := s.waiting + [Worker(node, token, s.ticks, LastList(s, node))], ticks := s.ticks + 1)
    case Begin(w) =>
      s.(waiting := Without(s.waiting, w),
         fetching := if Off(s, s.waiting[w].token) then s.fetching else s.fetching + [s.waiting[w]])
    case Finish(w, list) =>
      var worker := s.fetching[w];
      s.(fetching := Without(s.fetching, w),
         posted := if !Off(s, worker.token) && SeenList(list) != SeenList(worker.snapshot)
                   then s.posted + [Update(worker, list)] else s.posted)
    case Call =>
      var update := s.posted[0];
      var s' := s.(posted := s.posted[1..]);
      if Off(s, update.worker.token) then s'
      else s'.(lastLists := s.lastLists[update.worker.node := update.list], emitted := s.emitted + [update])
  }

  ghost predicate OneStep(s: State, s': State) {
    exists a :: Enabled(s, a) && s' == After(s, a)
  }

  ghost predicate StepAt(states: seq<State>, k: nat) {
    k + 1 < |states| ==> OneStep(states[k], states[k + 1])
  }

  ghost predicate History(states: seq<State>) {
    states != [] && states[0] == INITIAL && forall k: nat :: k < |states| - 1 ==> StepAt(states, k)
  }

  lemma HistoryExtended(states: seq<State>, a: Action)
    requires History(states) && Enabled(states[|states| - 1], a)
    ensures History(states + [After(states[|states| - 1], a)])
  {
    var longer := states + [After(states[|states| - 1], a)];
    forall k: nat | k < |longer| - 1 ensures StepAt(longer, k) {
      if k < |states| - 1 {
        assert StepAt(states, k);
      }
    }
  }

  // ---------- what every state satisfies ----------

  /** A node has at most one token that is not cancelled, the one in the map; its timer holds it. */
  ghost predicate OneToken(s: State) {
    && |s.owner| == |s.cancelled| && s.timers == s.live
    && (forall n :: n in s.live ==> s.live[n] < |s.cancelled| && s.owner[s.live[n]] == n && !s.cancelled[s.live[n]])
    && (forall k :: 0 <= k < |s.cancelled| && !s.cancelled[k] ==> s.owner[k] in s.live && s.live[s.owner[k]] == k)
  }

  predicate Proper(s: State, w: Worker) {
    w.token < |s.owner| && s.owner[w.token] == w.node
  }

  predicate Differs(u: Update) {
    SeenList(u.list) != SeenList(u.worker.snapshot)
  }

  predicate Workers(s: State) {
    && (forall k :: 0 <= k < |s.waiting| ==> Proper(s, s.waiting[k]))
    && (forall k :: 0 <= k < |s.fetching| ==> Proper(s, s.fetching[k]))
    && (forall k :: 0 <= k < |s.posted| ==> Proper(s, s.posted[k].worker) && Differs(s.posted[k]))
    && (forall k :: 0 <= k < |s.emitted| ==> Proper(s, s.emitted[k].worker) && Differs(s.emitted[k]))
  }

  ghost predicate Sound(s: State) {
    OneToken(s) && Workers(s)
  }

  lemma StoppedIsSound(s: State, node: Node)
    requires Sound(s)
    ensures Sound(Stopped(s, node)) && node !in Stopped(s, node).live
  {
    var s' := Stopped(s, node);
    assert forall w: Worker :: Proper(s, w) ==> Proper(s', w);
  }

  lemma WorkerStepIsSound(s: State, a: Action)
    requires Sound(s) && Enabled(s, a) && (a.Tick? || a.Begin? || a.Finish?)
    ensures Workers(After(s, a)) && OneToken(After(s, a))
  {
    var s' := After(s, a);
    assert s'.owner == s.owner && s'.cancelled == s.cancelled && s'.live == s.live && s'.timers == s.timers;
  }

  lemma CallIsSound(s: State)
    requires Sound(s) && Enabled(s, Call)
    ensures Sound(After(s, Call))
  {
    var s' := After(s, Call);
    assert s'.owner == s.owner && s'.cancelled == s.cancelled && s'.live == s.live && s'.timers == s.timers;
    assert Proper(s, s.posted[0].worker) && Differs(s.posted[0]);
  }

  lemma StepIsSound(s: State, a: Action)
    requires Sound(s) && Enabled(s, a)
    ensures Sound(After(s, a))
  {
    if a.Start? {
      StoppedIsSound(s, a.node);
    } else if a.Stop? {
      StoppedIsSound(s, a.node);
    } else if a.Call? {
      CallIsSound(s);
    } else {
      WorkerStepIsSound(s, a);
    }
  }

  lemma {:induction false} EveryStateIsSound(states: seq<State>, k: nat)
    requires History(states) && k < |states|
    ensures Sound(states[k])
  {
    if k > 0 {
      EveryStateIsSound(states, k - 1);
      var a := StepOf(states, k - 1);
      StepIsSound(states[k - 1], a);
    }
  }

  lemma StepOf(states: seq<State>, k: nat) returns (a: Action)
    requires History(states) && k + 1 < |states|
    ensures Enabled(states[k], a) && states[k + 1] == After(states[k], a)
  {
    assert StepAt(states, k);
    a :| Enabled(states[k], a) && states[k + 1] == After(states[k], a);
  }

  // ---------- no late updates ----------

  /** Only a callback emits, and only an update whose token is its node's current one; it differs
      from what its tick saw, and it is the stored list afterwards. */
  lemma StepEmits(s: State, a: Action)
    requires Sound(s) && Enabled(s, a) && After(s, a).emitted != s.emitted
    ensures a == Call && After(s, a).emitted == s.emitted + [s.posted[0]]
    ensures var s', u := After(s, a), s.posted[0];
            && Proper(s, u.worker) && !s.cancelled[u.worker.token]
            && u.worker.node in s'.live && s'.live[u.worker.node] == u.worker.token
            && Differs(u) && LastList(s', u.worker.node) == u.list
  {
    assert Proper(s, s.posted[0].worker);
  }

  /** Every update that is ever emitted is current when it is. */
  lemma EmissionIsCurrent(states: seq<State>, k: nat)
    requires History(states) && k + 1 < |states| && states[k + 1].emitted != states[k].emitted
    ensures |states[k + 1].emitted| == |states[k].emitted| + 1 && states[k].emitted <= states[k + 1].emitted
    ensures var s, u := states[k + 1], states[k + 1].emitted[|states[k].emitted|];
            && u.worker.node in s.live && s.live[u.worker.node] == u.worker.token
            && Differs(u) && LastList(s, u.worker.node) == u.list
  {
    EveryStateIsSound(states, k);
    var a := StepOf(states, k);
    StepEmits(states[k], a);
  }

  /** What has been emitted since is of other tokens. */
  predicate NotOfToken(before: seq<Update>, after: seq<Update>, token: nat) {
    before <= after && forall k :: |before| <= k < |after| ==> after[k].worker.token != token
  }

  predicate NotOfNode(before: seq<Update>, after: seq<Update>, node: Node) {
    before <= after && forall k :: |before| <= k < |after| ==> after[k].worker.node != node
  }

  predicate Cancelled(s: State, token: nat) {
    token < |s.cancelled| && s.cancelled[token]
  }

  lemma CancelledForGood(s: State, a: Action, token: nat)
    requires Sound(s) && Enabled(s, a) && Cancelled(s, token)
    ensures Cancelled(After(s, a), token) && NotOfToken(s.emitted, After(s, a).emitted, token)
  {
    if After(s, a).emitted != s.emitted {
      StepEmits(s, a);
    }
  }

  /** No worker of a cancelled token ever emits again: not one from before a stop, nor one from
      before a restart. */
  lemma {:induction false} CancelledTokensAreSilent(states: seq<State>, i: nat, j: nat, token: nat)
    requires History(states) && i <= j < |states| && Cancelled(states[i], token)
    ensures Cancelled(states[j], token) && NotOfToken(states[i].emitted, states[j].emitted, token)
  {
    if i < j {
      CancelledTokensAreSilent(states, i, j - 1, token);
      EveryStateIsSound(states, j - 1);
      var a := StepOf(states, j - 1);
      CancelledForGood(states[j - 1], a, token);
    }
  }

  lemma {:induction false} OwnersStay(states: seq<State>, i: nat, j: nat)
    requires History(states) && i <= j < |states|
    ensures states[i].owner <= states[j].owner && states[i].emitted <= states[j].emitted
  {
    if i < j {
      OwnersStay(states, i, j - 1);
      var a := StepOf(states, j - 1);
    }
  }

  /** Every update of a node that is emitted after a restart comes from the new token or a later one:
      what an older tick saw is never emitted over it. */
  lemma RestartSilencesOlderWorkers(states: seq<State>, i: nat, j: nat, node: Node, k: nat)
    requires History(states) && 0 < i <= j < |states| && states[i] == After(states[i - 1], Start(node))
    requires |states[i].emitted| <= k < |states[j].emitted| && states[j].emitted[k].worker.node == node
    ensures states[j].emitted[k].worker.token >= |states[i - 1].cancelled|
  {
    EveryStateIsSound(states, i);
    EveryStateIsSound(states, j);
    OwnersStay(states, i, j);
    var token := states[j].emitted[k].worker.token;
    assert Proper(states[j], states[j].emitted[k].worker);
    if token < |states[i - 1].cancelled| {
      assert states[i].owner[token] == node && states[i].live[node] != token;
      CancelledTokensAreSilent(states, i, j, token);
    }
  }

  ghost predicate NeverLive(states: seq<State>, i: nat, j: nat, node: Node) {
    forall k :: i <= k <= j && k < |states| ==> node !in states[k].live
  }

  /** Between a stop and the next start a node's sync emits nothing. */
  lemma {:induction false} StoppedNodesAreSilent(states: seq<State>, i: nat, j: nat, node: Node)
    requires History(states) && i <= j < |states| && NeverLive(states, i, j, node)
    ensures NotOfNode(states[i].emitted, states[j].emitted, node)
  {
    if i < j {
      StoppedNodesAreSilent(states, i, j - 1, node);
      if states[j].emitted != states[j - 1].emitted {
        EmissionIsCurrent(states, j - 1);
      }
    }
  }

  // ---------- the order of ticks within one token ----------

  function One(w: Worker, token: nat): nat {
    if w.token == token then 1 else 0
  }

  function CountOf(workers: seq<Worker>, token: nat): nat {
    if workers == [] then 0 else CountOf(workers[..|workers| - 1], token) + One(workers[|workers| - 1], token)
  }

  function Senders(updates: seq<Update>): (workers: seq<Worker>)
    ensures |workers| == |updates|
  {
    seq(|updates|, i requires 0 <= i < |updates| => updates[i].worker)
  }

  /** The workers of a token that are in the thread pool or whose update waits in the event loop. */
  function Outstanding(s: State, token: nat): nat {
    CountOf(s.waiting, token) + CountOf(s.fetching, token) + CountOf(Senders(s.posted), token)
  }

  lemma CountMore(workers: seq<Worker>, w: Worker, token: nat)
    ensures CountOf(workers + [w], token) == CountOf(workers, token) + One(w, token)
  {
    assert (workers + [w])[..|workers|] == workers;
  }

  lemma {:induction false} CountWithout(workers: seq<Worker>, k: nat, token: nat)
    requires k < |workers|
    ensures CountOf(workers, token) == CountOf(Without(workers, k), token) + One(workers[k], token)
  {
    var front, last := workers[..|workers| - 1], workers[|workers| - 1];
    if k < |front| {
      CountWithout(front, k, token);
      assert Without(workers, k) == Without(front, k) + [last];
      CountMore(Without(front, k), last, token);
    } else {
      assert Without(workers, k) == front;
    }
  }

  lemma {:induction false} NoneCounted(workers: seq<Worker>, token: nat)
    requires CountOf(workers, token) == 0
    ensures forall k :: 0 <= k < |workers| ==> workers[k].token != token
  {
    if workers != [] {
      NoneCounted(workers[..|workers| - 1], token);
    }
  }

  /** Of what one token has emitted, everything comes from an earlier tick than this. */
  predicate Before(emitted: seq<Update>, token: nat, tick: nat) {
    forall i :: 0 <= i < |emitted| && emitted[i].worker.token == token ==> emitted[i].worker.tick < tick
  }

  predicate AllAhead(emitted: seq<Update>, workers: seq<Worker>, token: nat, ticks: nat) {
    forall k :: 0 <= k < |workers| && workers[k].token == token ==>
      workers[k].tick < ticks && Before(emitted, token, workers[k].tick)
  }

  /** What one token has emitted came in the order of its ticks. */
  predicate InTickOrder(emitted: seq<Update>, token: nat) {
    forall i, j :: 0 <= i < j < |emitted| && emitted[i].worker.token == token && emitted[j].worker.token == token ==>
      emitted[i].worker.tick < emitted[j].worker.tick
  }

  /** The token has at most one worker under way, and everything it emitted came in order and before it. */
  predicate InOrder(emitted: seq<Update>, waiting: seq<Worker>, fetching: seq<Worker>, posted: seq<Worker>, token: nat, ticks: nat) {
    && CountOf(waiting, token) + CountOf(fetching, token) + CountOf(posted, token) <= 1
    && InTickOrder(emitted, token) && Before(emitted, token, ticks) && AllAhead(emitted, waiting, token, ticks)
    && AllAhead(emitted, fetching, token, ticks) && AllAhead(emitted, posted, token, ticks)
  }

  predicate Orderly(s: State, token: nat) {
    InOrder(s.emitted, s.waiting, s.fetching, Senders(s.posted), token, s.ticks)
  }

  lemma AheadWithout(emitted: seq<Update>, workers: seq<Worker>, k: nat, token: nat, ticks: nat)
    requires k < |workers| && AllAhead(emitted, workers, token, ticks)
    ensures AllAhead(emitted, Without(workers, k), token, ticks)
  {
    var rest := Without(workers, k);
    forall i | 0 <= i < |rest| && rest[i].token == token
      ensures rest[i].tick < ticks && Before(emitted, token, rest[i].tick)
    {
      assert rest[i] == workers[if i < k then i else i + 1];
    }
  }

  lemma AheadWith(emitted: seq<Update>, workers: seq<Worker>, w: Worker, token: nat, ticks: nat)
    requires AllAhead(emitted, workers, token, ticks)
    requires w.token == token ==> w.tick < ticks && Before(emitted, token, w.tick)
    ensures AllAhead(emitted, workers + [w], token, ticks)
  {
  }

  lemma AheadLater(emitted: seq<Update>, workers: seq<Worker>, token: nat, ticks: nat)
    requires AllAhead(emitted, workers, token, ticks)
    ensures AllAhead(emitted, workers, token, ticks + 1)
  {
  }

  lemma BegunInOrder(emitted: seq<Update>, waiting: seq<Worker>, fetching: seq<Worker>, posted: seq<Worker>, w: Worker, token: nat)
    requires InOrder(emitted, waiting, fetching, posted, token, w.tick)
    requires w.token == token ==> CountOf(waiting, token) + CountOf(fetching, token) + CountOf(posted, token) == 0
    ensures InOrder(emitted, waiting + [w], fetching, posted, token, w.tick + 1)
  {
    CountMore(waiting, w, token);
    AheadLater(emitted, waiting, token, w.tick);
    AheadLater(emitted, fetching, token, w.tick);
    AheadLater(emitted, posted, token, w.tick);
    AheadWith(emitted, waiting, w, token, w.tick + 1);
  }

  lemma TickIsOrderly(s: State, node: Node, token: nat)
    requires Orderly(s, token) && node in s.timers && (s.timers[node] == token ==> Outstanding(s, token) == 0)
    ensures Orderly(After(s, Tick(node)), token)
  {
    if !Off(s, s.timers[node]) {
      BegunInOrder(s.emitted, s.waiting, s.fetching, Senders(s.posted),
                   Worker(node, s.timers[node], s.ticks, LastList(s, node)), token);
    }
  }

  lemma SendersMore(updates: seq<Update>, u: Update)
    ensures Senders(updates + [u]) == Senders(updates) + [u.worker]
  {
  }

  lemma FetchingInOrder(emitted: seq<Update>, waiting: seq<Worker>, fetching: seq<Worker>, posted: seq<Worker>,
                        w: nat, token: nat, ticks: nat)
    requires InOrder(emitted, waiting, fetching, posted, token, ticks) && w < |waiting|
    ensures InOrder(emitted, Without(waiting, w), fetching, posted, token, ticks)
    ensures InOrder(emitted, Without(waiting, w), fetching + [waiting[w]], posted, token, ticks)
  {
    CountWithout(waiting, w, token);
    CountMore(fetching, waiting[w], token);
    AheadWithout(emitted, waiting, w, token, ticks);
    AheadWith(emitted, fetching, waiting[w], token, ticks);
  }

  lemma BeginIsOrderly(s: State, w: nat, token: nat)
    requires Orderly(s, token) && w < |s.waiting|
    ensures Orderly(After(s, Begin(w)), token)
  {
    FetchingInOrder(s.emitted, s.waiting, s.fetching, Senders(s.posted), w, token, s.ticks);
  }

  lemma PostedInOrder(emitted: seq<Update>, waiting: seq<Worker>, fetching: seq<Worker>, posted: seq<Worker>,
                      w: nat, token: nat, ticks: nat)
    requires InOrder(emitted, waiting, fetching, posted, token, ticks) && w < |fetching|
    ensures InOrder(emitted, waiting, Without(fetching, w), posted, token, ticks)
    ensures InOrder(emitted, waiting, Without(fetching, w), posted + [fetching[w]], token, ticks)
  {
    CountWithout(fetching, w, token);
    CountMore(posted, fetching[w], token);
    AheadWithout(emitted, fetching, w, token, ticks);
    AheadWith(emitted, posted, fetching[w], token, ticks);
  }

  lemma FinishIsOrderly(s: State, w: nat, list: Listing, token: nat)
    requires Orderly(s, token) && w < |s.fetching|
    ensures Orderly(After(s, Finish(w, list)), token)
  {
    PostedInOrder(s.emitted, s.waiting, s.fetching, Senders(s.posted), w, token, s.ticks);
    SendersMore(s.posted, Update(s.fetching[w], list));
  }

  lemma EmittedInOrder(emitted: seq<Update>, u: Update, token: nat)
    requires InTickOrder(emitted, token) && (u.worker.token == token ==> Before(emitted, token, u.worker.tick))
    ensures InTickOrder(emitted + [u], token)
  {
  }

  lemma AheadOfMore(emitted: seq<Update>, u: Update, workers: seq<Worker>, token: nat, ticks: nat)
    requires AllAhead(emitted, workers, token, ticks)
    requires u.worker.token == token ==> CountOf(workers, token) == 0
    ensures AllAhead(emitted + [u], workers, token, ticks)
  {
    if u.worker.token == token {
      NoneCounted(workers, token);
    } else {
      forall k | 0 <= k < |workers| && workers[k].token == token ensures Before(emitted + [u], token, workers[k].tick) {
        assert Before(emitted, token, workers[k].tick);
      }
    }
  }

  lemma CalledInOrder(emitted: seq<Update>, waiting: seq<Worker>, fetching: seq<Worker>, posted: seq<Worker>,
                      u: Update, token: nat, ticks: nat)
    requires InOrder(emitted, waiting, fetching, posted, token, ticks) && posted != [] && posted[0] == u.worker
    ensures InOrder(emitted, waiting, fetching, Without(posted, 0), token, ticks)
    ensures InOrder(emitted + [u], waiting, fetching, Without(posted, 0), token, ticks)
  {
    CountWithout(posted, 0, token);
    AheadWithout(emitted, posted, 0, token, ticks);
    EmittedInOrder(emitted, u, token);
    AheadOfMore(emitted, u, waiting, token, ticks);
    AheadOfMore(emitted, u, fetching, token, ticks);
    AheadOfMore(emitted, u, Without(posted, 0), token, ticks);
  }

  lemma CallIsOrderly(s: State, token: nat)
    requires Orderly(s, token) && s.posted != []
    ensures Orderly(After(s, Call), token)
  {
    CalledInOrder(s.emitted, s.waiting, s.fetching, Senders(s.posted), s.posted[0], token, s.ticks);
    assert Senders(s.posted[1..]) == Without(Senders(s.posted), 0);
  }

  /** Whenever a tick begins a worker of the token, none of its workers is outstanding. */
  predicate UnhurriedAt(s: State, s': State, token: nat) {
    s'.ticks > s.ticks && s'.waiting != [] && s'.waiting[|s'.waiting| - 1].token == token ==> Outstanding(s, token) == 0
  }

  ghost predicate Unhurried(states: seq<State>, token: nat) {
    forall k: nat :: k < |states| ==> UnhurriedStep(states, token, k)
  }

  predicate UnhurriedStep(states: seq<State>, token: nat, k: nat) {
    k + 1 < |states| ==> UnhurriedAt(states[k], states[k + 1], token)
  }

  lemma StepIsOrderly(s: State, a: Action, token: nat)
    requires Enabled(s, a) && Orderly(s, token) && UnhurriedAt(s, After(s, a), token)
    ensures Orderly(After(s, a), token)
  {
    match a
    case Start(_) =>
    case Stop(_) =>
    case Tick(node) =>
      if Off(s, s.timers[node]) {
        assert After(s, a) == s;
      } else {
        TickIsOrderly(s, node, token);
      }
    case Begin(w) => BeginIsOrderly(s, w, token);
    case Finish(w, list) => FinishIsOrderly(s, w, list, token);
    case Call => CallIsOrderly(s, token);
  }

  lemma NextIsOrderly(states: seq<State>, token: nat, k: nat)
    requires History(states) && k + 1 < |states| && Orderly(states[k], token) && UnhurriedStep(states, token, k)
    ensures Orderly(states[k + 1], token)
  {
    var a := StepOf(states, k);
    StepIsOrderly(states[k], a, token);
  }

  /** In every run in which a node's timer never fires while a worker of its token is outstanding,
      what the token emits comes in the order of its ticks: a later list is never replaced by an
      earlier one. */
  lemma {:induction false} UnhurriedTicksComeInOrder(states: seq<State>, token: nat, k: nat)
    requires History(states) && Unhurried(states, token) && k < |states|
    ensures Orderly(states[k], token) && InTickOrder(states[k].emitted, token)
  {
    if k > 0 {
      UnhurriedTicksComeInOrder(states, token, k - 1);
      assert UnhurriedStep(states, token, k - 1);
      NextIsOrderly(states, token, k - 1);
    }
  }

  // ---------- and without that condition it is lost ----------

  function Last(states: seq<State>): State
    requires states != []
  {
    states[|states| - 1]
  }

  /** While a node is synced nothing keeps its timer from firing twice: two workers of its token then
      fetch at the same time. */
  lemma TwoTicksHappen(states: seq<State>, node: Node) returns (longer: seq<State>)
    requires History(states) && node in Last(states).timers
    ensures History(longer) && states <= longer
    ensures var s, token := Last(states), Last(states).timers[node];
            Last(longer) == s.(ticks := s.ticks + 2, fetching := s.fetching
              + [Worker(node, token, s.ticks, LastList(s, node)), Worker(node, token, s.ticks + 1, LastList(s, node))])
  {
    longer := TickAndBegin(states, node);
    longer := TickAndBegin(longer, node);
    var s, token := Last(states), Last(states).timers[node];
    var one, two := Worker(node, token, s.ticks, LastList(s, node)), Worker(node, token, s.ticks + 1, LastList(s, node));
    assert s.fetching + [one] + [two] == s.fetching + [one, two];
  }

  lemma TickAndBegin(states: seq<State>, node: Node) returns (longer: seq<State>)
    requires History(states) && node in Last(states).timers
    ensures History(longer) && states <= longer
    ensures var s := Last(states);
            Last(longer) == s.(ticks := s.ticks + 1,
              fetching := s.fetching + [Worker(node, s.timers[node], s.ticks, LastList(s, node))])
  {
    var s := Last(states);
    EveryStateIsSound(states, |states| - 1);
    var w := Worker(node, s.timers[node], s.ticks, LastList(s, node));
    var s1 := After(s, Tick(node));
    HistoryExtended(states, Tick(node));
    var begin := Begin(|s.waiting|);
    assert s1.waiting == s.waiting + [w] && Without(s1.waiting, |s.waiting|) == s.waiting;
    HistoryExtended(states + [s1], begin);
    longer := states + [s1] + [After(s1, begin)];
  }

  /** The event loop takes all callbacks; the two last ones are of a live token, and so come last. */
  lemma {:induction false} Drained(states: seq<State>, first: Update, second: Update, waiting: seq<Update>) returns (longer: seq<State>)
    requires History(states) && Last(states).posted == waiting + [first, second]
    requires !Off(Last(states), first.worker.token) && !Off(Last(states), second.worker.token)
    ensures History(longer) && states <= longer && Last(longer).posted == []
    ensures EndsWith(Last(longer).emitted, first, second) && LastList(Last(longer), second.worker.node) == second.list
    decreases |waiting|
  {
    var s := Last(states);
    var s1 := After(s, Call);
    HistoryExtended(states, Call);
    if waiting != [] {
      assert s1.posted == waiting[1..] + [first, second];
      longer := Drained(states + [s1], first, second, waiting[1..]);
    } else {
      assert s.posted[0] == first && s1.posted == [second];
      HistoryExtended(states + [s1], Call);
      longer := states + [s1] + [After(s1, Call)];
    }
  }

  predicate EndsWith(emitted: seq<Update>, first: Update, second: Update) {
    |emitted| >= 2 && emitted[|emitted| - 2] == first && emitted[|emitted| - 1] == second
  }

  /** From every reachable state with two outstanding fetches of one live token, some run goes on to
      emit the later tick's list first: the earlier tick's is emitted last and is the one that stays. */
  lemma OlderTickCanComeLast(states: seq<State>, i: nat, j: nat, older: Listing, newer: Listing) returns (longer: seq<State>)
    requires History(states) && i < |Last(states).fetching| && j < |Last(states).fetching|
    requires Last(states).fetching[i].token == Last(states).fetching[j].token && !Off(Last(states), Last(states).fetching[i].token)
    requires Last(states).fetching[i].tick < Last(states).fetching[j].tick
    requires SeenList(older) != SeenList(Last(states).fetching[i].snapshot)
    requires SeenList(newer) != SeenList(Last(states).fetching[j].snapshot)
    ensures History(longer) && states <= longer
    ensures var wi, wj := Last(states).fetching[i], Last(states).fetching[j];
            EndsWith(Last(longer).emitted, Update(wj, newer), Update(wi, older)) && LastList(Last(longer), wi.node) == older
    ensures !InTickOrder(Last(longer).emitted, Last(states).fetching[i].token)
  {
    var first, second := Update(Last(states).fetching[j], newer), Update(Last(states).fetching[i], older);
    var both := TwoFinishes(states, i, j, older, newer);
    longer := Drained(both, first, second, Last(states).posted);
    OutOfOrder(Last(longer).emitted, first, second);
  }

  lemma TwoFinishes(states: seq<State>, i: nat, j: nat, older: Listing, newer: Listing) returns (both: seq<State>)
    requires History(states) && i < |Last(states).fetching| && j < |Last(states).fetching| && i != j
    requires Last(states).fetching[i].token == Last(states).fetching[j].token && !Off(Last(states), Last(states).fetching[i].token)
    requires SeenList(older) != SeenList(Last(states).fetching[i].snapshot)
    requires SeenList(newer) != SeenList(Last(states).fetching[j].snapshot)
    ensures History(both) && states <= both
    ensures var s := Last(states);
            && Last(both).posted == s.posted + [Update(s.fetching[j], newer), Update(s.fetching[i], older)]
            && Last(both).cancelled == s.cancelled
  {
    var s := Last(states);
    var wi, wj := s.fetching[i], s.fetching[j];
    var s1 := After(s, Finish(j, newer));
    HistoryExtended(states, Finish(j, newer));
    var i' := if i < j then i else i - 1;
    assert s1.fetching[i'] == wi;
    assert s1.posted == s.posted + [Update(wj, newer)];
    HistoryExtended(states + [s1], Finish(i', older));
    both := states + [s1] + [After(s1, Finish(i', older))];
    assert s.posted + [Update(wj, newer)] + [Update(wi, older)] == s.posted + [Update(wj, newer), Update(wi, older)];
  }

  lemma OutOfOrder(emitted: seq<Update>, first: Update, second: Update)
    requires EndsWith(emitted, first, second) && first.worker.token == second.worker.token
    requires second.worker.tick < first.worker.tick
    ensures !InTickOrder(emitted, first.worker.token)
  {
  }

  // ---------- the class ----------

  class DirectoryService {
    var cancelled: seq<bool>                 // the flags behind the shared token pointers
    var syncCancellation: map<Node, nat>
    var syncTimers: map<Node, nat>
    var lastFileLists: map<Node, Listing>
    var ticks: nat                           // numbers the workers for the specification
    var waiting: seq<Worker>                 // in the thread pool
    var fetching: seq<Worker>
    var posted: seq<Update>                  // the event loop
    ghost var owner: seq<Node>
    ghost var emitted: seq<Update>
    ghost var history: seq<State>

    ghost function View(): State
      reads this
    {
      State(cancelled, owner, syncCancellation, syncTimers, lastFileLists, ticks, waiting, fetching, posted, emitted)
    }

    ghost predicate Valid()
      reads this
    {
      History(history) && history[|history| - 1] == View() && Sound(View())
    }

    constructor ()
      ensures Valid() && history == [INITIAL]
    {
      cancelled, syncCancellation, syncTimers, lastFileLists := [], map[], map[], map[];
      ticks, waiting, fetching, posted := 0, [], [], [];
      owner, emitted, history := [], [], [INITIAL];
    }

    ghost method Record(a: Action)
      requires History(history) && Sound(history[|history| - 1]) && Enabled(history[|history| - 1], a) && View() == After(history[|history| - 1], a)
      modifies this`history
      ensures Valid() && history == old(history) + [View()]
    {
      HistoryExtended(history, a);
      StepIsSound(history[|history| - 1], a);
      history := history + [View()];
    }

    // Takes the node's token and timer out of their maps; the token is cancelled.
    method TakeAndCancel(nodeId: Node)
      requires Valid()
      modifies this`cancelled, this`syncCancellation, this`syncTimers
      ensures View() == Stopped(old(View()), nodeId)
    {
      if nodeId in syncCancellation {
        cancelled := cancelled[syncCancellation[nodeId] := true];
      }
      syncCancellation := syncCancellation - {nodeId};
      syncTimers := syncTimers - {nodeId};
    }

    method StopFileListSync(nodeId: Node)
      requires Valid()
      modifies this
      ensures Valid() && history == old(history) + [After(old(View()), Stop(nodeId))]
      ensures nodeId !in syncCancellation && forall k :: 0 <= k < |cancelled| && owner[k] == nodeId ==> cancelled[k]
    {
      TakeAndCancel(nodeId);
      Record(Stop(nodeId));
    }

    /** Afterwards the node's newest token is its only one that is not cancelled. */
    method StartFileListSync(nodeId: Node)
      requires Valid()
      modifies this
      ensures Valid() && history == old(history) + [After(old(View()), Start(nodeId))]
      ensures nodeId in syncCancellation && syncCancellation[nodeId] == |old(cancelled)|
      ensures forall k :: 0 <= k < |cancelled| && owner[k] == nodeId ==> (cancelled[k] <==> k != |old(cancelled)|)
    {
      TakeAndCancel(nodeId);
      var cancellationToken := |cancelled|;
      cancelled := cancelled + [false];
      owner := owner + [nodeId];
      syncCancellation := syncCancellation[nodeId := cancellationToken];
      syncTimers := syncTimers[nodeId := cancellationToken];
      Record(Start(nodeId));
    }

    /** The timer's slot: it takes its snapshot and starts a worker unless its token was cancelled. */
    method TimerTimeout(nodeId: Node) returns (begun: bool)
      requires Valid() && nodeId in syncTimers
      modifies this
      ensures Valid() && history == old(history) + [After(old(View()), Tick(nodeId))]
      ensures begun <==> nodeId in old(syncCancellation)
      ensures begun ==> waiting == old(waiting) + [Worker(nodeId, syncCancellation[nodeId], old(ticks), LastList(old(View()), nodeId))]
    {
      var token := syncTimers[nodeId];
      begun := !cancelled[token];
      if begun {
        var lastList := if nodeId in lastFileLists then lastFileLists[nodeId] else [];
        waiting := waiting + [Worker(nodeId, token, ticks, lastList)];
        ticks := ticks + 1;
      }
      Record(Tick(nodeId));
    }

    /** A worker only fetches while its token is not cancelled. */
    method BeginFetch(w: nat) returns (goesOn: bool)
      requires Valid() && w < |waiting|
      modifies this
      ensures Valid() && history == old(history) + [After(old(View()), Begin(w))]
      ensures goesOn <==> var worker := old(waiting)[w]; worker.node in syncCancellation && syncCancellation[worker.node] == worker.token
    {
      var worker := waiting[w];
      assert Proper(View(), worker);
      waiting := Without(waiting, w);
      goesOn := !cancelled[worker.token];
      if goesOn {
        fetching := fetching + [worker];
      }
      Record(Begin(w));
    }

    /** A worker's fetch is over: it posts what has changed, unless its token was cancelled. */
    method FinishFetch(w: nat, currentList: Listing)
      requires Valid() && w < |fetching|
      modifies this
      ensures Valid() && history == old(history) + [After(old(View()), Finish(w, currentList))]
    {
      var worker := fetching[w];
      fetching := Without(fetching, w);
      assert Proper(old(View()), worker);
      var changed := false;
      if !cancelled[worker.token] {
        changed := HasChanged(currentList, worker.snapshot);
      }
      if changed && !cancelled[worker.token] {
        posted := posted + [Update(worker, currentList)];
      }
      Record(Finish(w, currentList));
    }

    /** The posted callback stores and emits its list exactly when its node still has its token. */
    method RunCallback() returns (updated: bool)
      requires Valid() && posted != []
      modifies this
      ensures Valid() && history == old(history) + [After(old(View()), Call)]
      ensures var u := old(posted)[0];
              && (updated <==> u.worker.node in syncCancellation && syncCancellation[u.worker.node] == u.worker.token)
              && emitted == (if updated then old(emitted) + [u] else old(emitted))
              && lastFileLists == if updated then old(lastFileLists)[u.worker.node := u.list] else old(lastFileLists)
    {
      var update := posted[0];
      posted := posted[1..];
      assert Proper(old(View()), update.worker);
      updated := !cancelled[update.worker.token];
      if updated {
        lastFileLists := lastFileLists[update.worker.node := update.list];
        emitted := emitted + [update];
      }
      Record(Call);
    }
  }
}
