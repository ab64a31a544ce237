/** `FileBrowser::loadFileList`: every tree widget shows the result of its own last load, in
    whatever order the fetches for all the trees come back. */
module FileBrowser {

  type Tree = nat
  type Listing = seq<string>
  datatype Query = Query(nodeId: string, path: string)
  datatype Job = Job(id: nat, tree: Tree, query: Query)
  datatype Result = Result(job: Job, list: Listing)
  datatype Content = Loading(id: nat) | Filled(id: nat, query: Query, list: Listing)

  /** `last` records the last load of every tree, `fetched` the list that came back for each load. */
  datatype State = State(counter: nat, pending: map<Tree, nat>, fetching: set<Job>, posted: seq<Result>,
                         shown: map<Tree, Content>, last: map<Tree, Job>, fetched: map<nat, Listing>)

  const INITIAL := State(0, map[], {}, [], map[], map[], map[])

  datatype Action = Load(tree: Tree, query: Query) | Fetched(job: Job, list: Listing) | Call

  predicate Enabled(s: State, a: Action) {
    match a
    case Load(_, _) => true
    case Fetched(job, _) => job in s.fetching
    case Call => s.posted != []
  }

  function After(s: State, a: Action): State
    requires Enabled(s, a)
  {
    match a
    case Load(tree, query) =>
      var job := Job(s.counter + 1, tree, query);
      s.(counter := job.id, pending := s.pending[tree := job.id], fetching := s.fetching + {job},
         shown := s.shown[tree := Loading(job.id)], last := s.last[tree := job])
    case Fetched(job, list) =>
      s.(fetching := s.fetching - {job}, posted := s.posted + [Result(job, list)], fetched := s.fetched[job.id := list])
    case Call =>
      var job, s' := s.posted[0].job, s.(posted := s.posted[1..]);
      if job.tree in s.pending && s.pending[job.tree] == job.id then
        s'.(pending := s.pending - {job.tree},
            shown := s.shown[job.tree := Filled(job.id, job.query, s.posted[0].list)])
      else s'
  }

  ghost predicate OneStep(s: State, s': State) {
    exists a :: Enabled(s, a) && s' == After(s, a)
  }

  ghost predicate StepAt(states: seq<State>, k: nat) {
    k + 1 < |states| ==> OneStep(states[k], states[k + 1])
  }

  ghost predicate History(states: seq<State>) {
    states != [] && states[0] == INITIAL && forall k: nat :: k < |states| - 1 ==> StepAt(states, k)
  }

  lemma HistoryExtended(states: seq<State>, a: Action)
    requires History(states) && Enabled(states[|states| - 1], a)
    ensures History(states + [After(states[|states| - 1], a)])
  {
    var longer := states + [After(states[|states| - 1], a)];
    forall k: nat | k < |longer| - 1 ensures StepAt(longer, k) {
      if k < |states| - 1 {
        assert StepAt(states, k);
      }
    }
  }

  // ---------- what every state satisfies ----------

  predicate OnItsWay(s: State, job: Job) {
    job in s.fetching || exists i :: 0 <= i < |s.posted| && s.posted[i].job == job
  }

  /** A number belongs to one load only. */
  ghost predicate Numbered(s: State) {
    && (forall t :: t in s.last ==> s.last[t].id <= s.counter && s.last[t].tree == t)
    && (forall job :: OnItsWay(s, job) ==> job.id <= s.counter)
    && (forall job, t :: OnItsWay(s, job) && t in s.last && s.last[t].id == job.id ==> job == s.last[t])
  }

  /** A tree that waits is waiting for its last load, which is on its way; any other loaded tree
      shows the result of its last load. */
  ghost predicate TreeInv(s: State, t: Tree) {
    && (t in s.last <==> t in s.shown)
    && (t in s.pending ==>
          && t in s.last && s.pending[t] == s.last[t].id && s.shown[t] == Loading(s.last[t].id)
          && OnItsWay(s, s.last[t]))
    && (t in s.last && t !in s.pending ==>
          s.shown[t].Filled? && s.shown[t].id == s.last[t].id && s.shown[t].query == s.last[t].query)
  }

  predicate IsList(s: State, id: nat, list: Listing) {
    id in s.fetched && s.fetched[id] == list
  }

  /** A load is fetched once, and every list on its way or shown is the one that was fetched for it. */
  ghost predicate Lists(s: State) {
    && (forall id :: id in s.fetched ==> id <= s.counter)
    && (forall job :: job in s.fetching ==> job.id <= s.counter && job.id !in s.fetched)
    && (forall j1, j2 :: j1 in s.fetching && j2 in s.fetching && j1.id == j2.id ==> j1 == j2)
    && (forall i :: 0 <= i < |s.posted| ==> IsList(s, s.posted[i].job.id, s.posted[i].list))
    && (forall t :: t in s.shown && s.shown[t].Filled? ==> IsList(s, s.shown[t].id, s.shown[t].list))
  }

  lemma ListsKept(s: State, a: Action)
    requires Lists(s) && Enabled(s, a)
    ensures Lists(After(s, a))
  {
    if a.Fetched? {
      assert forall id, list :: IsList(s, id, list) && id != a.job.id ==> IsList(After(s, a), id, list);
    }
  }

  ghost predicate Sound(s: State) {
    Numbered(s) && Lists(s) && forall t :: TreeInv(s, t)
  }

  lemma WayAfterFetch(s: State, done: Job, list: Listing, job: Job)
    requires Enabled(s, Fetched(done, list))
    ensures OnItsWay(After(s, Fetched(done, list)), job) <==> OnItsWay(s, job)
  {
    var s' := After(s, Fetched(done, list));
    assert s'.posted[|s.posted|].job == done;
    assert forall i :: 0 <= i < |s.posted| ==> s'.posted[i] == s.posted[i];
  }

  lemma WayAfterCall(s: State, job: Job)
    requires Enabled(s, Call)
    ensures OnItsWay(After(s, Call), job) ==> OnItsWay(s, job)
    ensures OnItsWay(s, job) && job != s.posted[0].job ==> OnItsWay(After(s, Call), job)
  {
    var s' := After(s, Call);
    assert forall i :: 0 <= i < |s'.posted| ==> s'.posted[i] == s.posted[i + 1];
    if exists i :: 0 < i < |s.posted| && s.posted[i].job == job {
      var i :| 0 < i < |s.posted| && s.posted[i].job == job;
      assert s'.posted[i - 1].job == job;
    }
  }

  lemma WayAfterLoad(s: State, tree: Tree, query: Query, job: Job)
    ensures OnItsWay(After(s, Load(tree, query)), job) <==> OnItsWay(s, job) || job == Job(s.counter + 1, tree, query)
  {
  }

  lemma NumberedByLoad(s: State, tree: Tree, query: Query)
    requires Numbered(s)
    ensures Numbered(After(s, Load(tree, query)))
  {
    forall job ensures OnItsWay(After(s, Load(tree, query)), job) <==> OnItsWay(s, job) || job == Job(s.counter + 1, tree, query) {
      WayAfterLoad(s, tree, query, job);
    }
  }

  lemma TreeAfterLoad(s: State, tree: Tree, query: Query, t: Tree)
    requires TreeInv(s, t)
    ensures TreeInv(After(s, Load(tree, query)), t)
  {
    WayAfterLoad(s, tree, query, After(s, Load(tree, query)).last[tree]);
    if t in s.last {
      WayAfterLoad(s, tree, query, s.last[t]);
    }
  }

  lemma SoundByLoad(s: State, tree: Tree, query: Query)
    requires Sound(s)
    ensures Sound(After(s, Load(tree, query)))
  {
    ListsKept(s, Load(tree, query));
    NumberedByLoad(s, tree, query);
    forall t ensures TreeInv(After(s, Load(tree, query)), t) {
      assert TreeInv(s, t);
      TreeAfterLoad(s, tree, query, t);
    }
  }

  lemma SoundByFetch(s: State, done: Job, list: Listing)
    requires Sound(s) && Enabled(s, Fetched(done, list))
    ensures Sound(After(s, Fetched(done, list)))
  {
    ListsKept(s, Fetched(done, list));
    var s' := After(s, Fetched(done, list));
    forall job ensures OnItsWay(s', job) <==> OnItsWay(s, job) {
      WayAfterFetch(s, done, list, job);
    }
    forall t ensures TreeInv(s', t) {
      assert TreeInv(s, t);
    }
  }

  lemma SoundByCall(s: State)
    requires Sound(s) && Enabled(s, Call)
    ensures Sound(After(s, Call))
  {
    ListsKept(s, Call);
    var s', called := After(s, Call), s.posted[0].job;
    assert OnItsWay(s, called);
    forall job
      ensures OnItsWay(s', job) ==> OnItsWay(s, job)
      ensures OnItsWay(s, job) && job != called ==> OnItsWay(s', job)
    {
      WayAfterCall(s, job);
    }
    forall t ensures TreeInv(s', t) {
      assert TreeInv(s, t) && TreeInv(s, called.tree);
    }
  }

  lemma SoundAfter(s: State, s': State)
    requires Sound(s) && OneStep(s, s')
    ensures Sound(s')
  {
    var a :| Enabled(s, a) && s' == After(s, a);
    if a.Load? {
      SoundByLoad(s, a.tree, a.query);
    } else if a.Fetched? {
      SoundByFetch(s, a.job, a.list);
    } else {
      SoundByCall(s);
    }
  }

  lemma {:induction false} EveryStateIsSound(states: seq<State>, k: nat)
    requires History(states) && k < |states|
    ensures Sound(states[k])
  {
    if k > 0 {
      EveryStateIsSound(states, k - 1);
      assert StepAt(states, k - 1);
      SoundAfter(states[k - 1], states[k]);
    }
  }

  // ---------- last request wins ----------

  predicate Current(s: State, t: Tree) {
    && t in s.last && t in s.shown && s.shown[t].Filled?
    && s.shown[t].id == s.last[t].id && s.shown[t].query == s.last[t].query && IsList(s, s.last[t].id, s.shown[t].list)
  }

  predicate AllCurrent(s: State) {
    s.pending == map[] && forall t :: t in s.last.Keys + s.shown.Keys ==> Current(s, t)
  }

  /** When every fetch has come back, no tree waits any more and every tree that was ever loaded
      shows the list that was fetched for its own last load. */
  lemma DrainedTreesAreCurrent(states: seq<State>)
    requires History(states)
    requires states[|states| - 1].fetching == {} && states[|states| - 1].posted == []
    ensures AllCurrent(states[|states| - 1])
  {
    var s := states[|states| - 1];
    EveryStateIsSound(states, |states| - 1);
    forall t ensures t !in s.pending && (t in s.last || t in s.shown ==> Current(s, t)) {
      assert TreeInv(s, t);
    }
  }

  /** The load a tree shows is not older than before, and a filled tree is as it was unless it was
      loaded again. */
  predicate NoOlder(s: State, s': State, t: Tree) {
    && t in s.shown && t in s'.shown && s.shown[t].id <= s'.shown[t].id
    && (s.shown[t].Filled? && s.shown[t].id == s'.shown[t].id ==> s'.shown[t] == s.shown[t])
  }

  /** No result of an older load ever replaces what a newer one put there. */
  lemma {:induction false} ShownOnlyGetsNewer(states: seq<State>, i: nat, j: nat, t: Tree)
    requires History(states) && i <= j < |states| && t in states[i].shown
    ensures NoOlder(states[i], states[j], t)
  {
    if i < j {
      ShownOnlyGetsNewer(states, i, j - 1, t);
      EveryStateIsSound(states, j - 1);
      assert StepAt(states, j - 1);
      OneShownStep(states[j - 1], states[j], t);
    }
  }

  lemma OneShownStep(s: State, s': State, t: Tree)
    requires Sound(s) && OneStep(s, s') && t in s.shown
    ensures NoOlder(s, s', t)
  {
    assert TreeInv(s, t);
  }

  // ---------- the class ----------

  class Browser {
    var requestCounter: nat
    var pendingRequests: map<Tree, nat>
    var fetching: set<Job>          // in the thread pool
    var posted: seq<Result>         // the event loop
    var shown: map<Tree, Content>   // the tree widgets
    ghost var last: map<Tree, Job>
    ghost var fetched: map<nat, Listing>
    ghost var history: seq<State>

    ghost function View(): State
      reads this
    {
      State(requestCounter, pendingRequests, fetching, posted, shown, last, fetched)
    }

    ghost predicate Valid()
      reads this
    {
      History(history) && history[|history| - 1] == View()
    }

    constructor ()
      ensures Valid() && history == [INITIAL]
    {
      requestCounter, pendingRequests, fetching, posted, shown := 0, map[], {}, [], map[];
      last, fetched, history := map[], map[], [INITIAL];
    }

    ghost method Record(a: Action)
      requires History(history) && Enabled(history[|history| - 1], a) && View() == After(history[|history| - 1], a)
      modifies this`history
      ensures Valid() && history == old(history) + [View()]
    {
      HistoryExtended(history, a);
      history := history + [View()];
    }

    /** The tree shows at once that its newest load is under way. */
    method LoadFileList(query: Query, tree: Tree)
      requires Valid()
      modifies this
      ensures Valid() && history == old(history) + [After(old(View()), Load(tree, query))]
      ensures shown == old(shown)[tree := Loading(requestCounter)] && tree in last && last[tree].query == query
    {
      requestCounter := requestCounter + 1;
      var requestId := requestCounter;
      pendingRequests := pendingRequests[tree := requestId];
      shown := shown[tree := Loading(requestId)];
      fetching := fetching + {Job(requestId, tree, query)};
      last := last[tree := Job(requestId, tree, query)];
      Record(Load(tree, query));
    }

    /** A worker's fetch is over; its result is posted whatever has happened meanwhile. */
    method FinishFetch(job: Job, list: Listing)
      requires Valid() && job in fetching
      modifies this
      ensures Valid() && history == old(history) + [After(old(View()), Fetched(job, list))] && shown == old(shown)
    {
      fetching := fetching - {job};
      posted := posted + [Result(job, list)];
      fetched := fetched[job.id := list];
      Record(Fetched(job, list));
    }

    /** The posted callback changes its tree exactly when it belongs to the tree's last load. */
    method RunCallback() returns (filled: bool)
      requires Valid() && posted != []
      modifies this
      ensures Valid() && history == old(history) + [After(old(View()), Call)] && last == old(last)
      ensures var r := old(posted)[0];
              filled ==> r.job.tree in last && r.job == last[r.job.tree] && shown == old(shown)[r.job.tree := Filled(r.job.id, r.job.query, r.list)]
      ensures !filled ==> shown == old(shown)
    {
      EveryStateIsSound(history, |history| - 1);
      var result := posted[0];
      var job := result.job;
      assert TreeInv(View(), job.tree) && OnItsWay(View(), job);
      posted := posted[1..];
      filled := job.tree in pendingRequests && pendingRequests[job.tree] == job.id;
      if filled {
        pendingRequests := pendingRequests - {job.tree};
        shown := shown[job.tree := Filled(job.id, job.query, result.list)];
      }
      Record(Call);
    }
  }
}
