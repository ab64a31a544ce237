/** `DirectoryLoadCoordinator`: every request takes the next number of a shared counter, and its
    result is thrown away wherever the counter has moved on, be it by a newer request or a cancel. */
module LoadCoordinator {

  datatype Query = Query(nodeId: string, path: string)
  type Listing = seq<string>

  /** A request on its way through the thread pool. */
  datatype Job = Job(id: nat, query: Query)

  /** A result on its way to the handler. */
  datatype Delivery = Delivery(id: nat, query: Query, list: Listing)

  /** `waiting` jobs have not looked at the counter yet, `fetching` ones have looked once.
      `issued` records what was asked under each number, `delivered` what the handlers were given. */
  datatype State = State(generation: nat, waiting: set<Job>, fetching: set<Job>, posted: seq<Delivery>,
                         issued: map<nat, Query>, delivered: seq<Delivery>)

  const INITIAL := State(0, {}, {}, [], map[], [])

  datatype Action =
    | Ask(query: Query)
    | CancelAll
    | Begin(job: Job)                  // the worker's first look
    | Finish(job: Job, list: Listing)  // the fetch is over: its second look
    | Call                             // the event loop takes the next callback

  predicate Enabled(s: State, a: Action) {
    match a
    case Ask(_) => true
    case CancelAll => true
    case Begin(job) => job in s.waiting
    case Finish(job, _) => job in s.fetching
    case Call => s.posted != []
  }

  function After(s: State, a: Action): State
    requires Enabled(s, a)
  {
    match a
    case Ask(query) =>
      var id := s.generation + 1;
      s.(generation := id, waiting := s.waiting + {Job(id, query)}, issued := s.issued[id := query])
    case CancelAll => s.(generation := s.generation + 1)
    case Begin(job) =>
      s.(waiting := s.waiting - {job}, fetching := if s.generation == job.id then s.fetching + {job} else s.fetching)
    case Finish(job, list) =>
      s.(fetching := s.fetching - {job},
         posted := if s.generation == job.id then s.posted + [Delivery(job.id, job.query, list)] else s.posted)
    case Call =>
      s.(posted := s.posted[1..],
         delivered := if s.generation == s.posted[0].id then s.delivered + [s.posted[0]] else s.delivered)
  }

  ghost predicate OneStep(s: State, s': State) {
    exists a :: Enabled(s, a) && s' == After(s, a)
  }

  ghost predicate StepAt(states: seq<State>, k: nat) {
    k + 1 < |states| ==> OneStep(states[k], states[k + 1])
  }

  ghost predicate History(states: seq<State>) {
    states != [] && states[0] == INITIAL && forall k: nat :: k < |states| - 1 ==> StepAt(states, k)
  }

  lemma HistoryExtended(states: seq<State>, a: Action)
    requires History(states) && Enabled(states[|states| - 1], a)
    ensures History(states + [After(states[|states| - 1], a)])
  {
    var longer := states + [After(states[|states| - 1], a)];
    forall k: nat | k < |longer| - 1 ensures StepAt(longer, k) {
      if k < |states| - 1 {
        assert StepAt(states, k);
      }
    }
  }

  // ---------- what every state satisfies ----------

  predicate Rising(results: seq<Delivery>) {
    forall i, j :: 0 <= i < j < |results| ==> results[i].id < results[j].id
  }

  predicate Contains(results: seq<Delivery>, id: nat) {
    exists i :: 0 <= i < |results| && results[i].id == id
  }

  /** Numbers are in use only for what was asked under them. */
  ghost predicate Faithful(s: State) {
    && (forall id :: id in s.issued ==> id <= s.generation)
    && (forall job :: job in s.waiting + s.fetching ==> job.id in s.issued && s.issued[job.id] == job.query)
    && (forall i :: 0 <= i < |s.posted| ==> s.posted[i].id in s.issued && s.issued[s.posted[i].id] == s.posted[i].query)
    && (forall i :: 0 <= i < |s.delivered| ==> s.delivered[i].id in s.issued && s.issued[s.delivered[i].id] == s.delivered[i].query)
  }

  /** Results leave in the order of their numbers, each at most once: a job is in one place only. */
  ghost predicate Ordered(s: State) {
    && Rising(s.delivered + s.posted)
    && s.waiting !! s.fetching
    && (forall job :: job in s.waiting + s.fetching ==> !Contains(s.delivered + s.posted, job.id))
  }

  /** A number that is still current is still on its way, or delivered. */
  ghost predicate Underway(s: State) {
    s.generation in s.issued ==>
      || Job(s.generation, s.issued[s.generation]) in s.waiting + s.fetching
      || Contains(s.delivered + s.posted, s.generation)
  }

  ghost predicate Sound(s: State) {
    Faithful(s) && Ordered(s) && Underway(s)
  }

  lemma ContainsMore(results: seq<Delivery>, d: Delivery, id: nat)
    ensures Contains(results + [d], id) <==> Contains(results, id) || d.id == id
  {
    assert (results + [d])[|results|] == d;
    if Contains(results, id) {
      var i :| 0 <= i < |results| && results[i].id == id;
      assert (results + [d])[i].id == id;
    }
  }

  lemma OrderedByFinish(s: State, job: Job, list: Listing)
    requires Faithful(s) && Ordered(s) && Underway(s) && Enabled(s, Finish(job, list))
    ensures Ordered(After(s, Finish(job, list))) && Underway(After(s, Finish(job, list)))
  {
    var d, all, s' := Delivery(job.id, job.query, list), s.delivered + s.posted, After(s, Finish(job, list));
    if s.generation == job.id {
      assert s'.delivered + s'.posted == all + [d];
      forall id: nat ensures Contains(all + [d], id) <==> Contains(all, id) || d.id == id {
        ContainsMore(all, d, id);
      }
      assert forall i :: 0 <= i < |all| ==> all[i].id in s.issued;
      assert forall i :: 0 <= i < |all| ==> all[i].id <= s.generation && all[i].id != job.id;
    }
  }

  lemma Dropped(front: seq<Delivery>, posted: seq<Delivery>, id: nat)
    requires posted != []
    ensures Rising(front + posted) ==> Rising(front + posted[1..])
    ensures Contains(front + posted[1..], id) ==> Contains(front + posted, id)
    ensures Contains(front + posted, id) && id != posted[0].id ==> Contains(front + posted[1..], id)
  {
    var all, rest := front + posted, front + posted[1..];
    assert forall i :: 0 <= i < |rest| ==> rest[i] == all[if i < |front| then i else i + 1];
    if Contains(all, id) && id != posted[0].id {
      var i :| 0 <= i < |all| && all[i].id == id;
      assert rest[if i < |front| then i else i - 1] == all[i];
    }
  }

  lemma OrderedByCall(s: State)
    requires Faithful(s) && Ordered(s) && Underway(s) && Enabled(s, Call)
    ensures Ordered(After(s, Call)) && Underway(After(s, Call))
  {
    var s', d := After(s, Call), s.posted[0];
    var all, rest := s.delivered + s.posted, s'.delivered + s'.posted;
    if s.generation == d.id {
      assert rest == all;
    } else {
      forall id: nat
        ensures Contains(rest, id) ==> Contains(all, id)
        ensures Contains(all, id) && id != d.id ==> Contains(rest, id)
      {
        Dropped(s.delivered, s.posted, id);
      }
      Dropped(s.delivered, s.posted, d.id);
    }
  }

  lemma StepIsSound(s: State, a: Action)
    requires Sound(s) && Enabled(s, a)
    ensures Sound(After(s, a))
  {
    if a.Finish? {
      OrderedByFinish(s, a.job, a.list);
    } else if a.Call? {
      OrderedByCall(s);
    } else {
      assert forall i :: 0 <= i < |s.delivered + s.posted| ==> (s.delivered + s.posted)[i].id in s.issued;
    }
  }

  lemma SoundAfter(s: State, s': State)
    requires Sound(s) && OneStep(s, s')
    ensures Sound(s')
  {
    var a :| Enabled(s, a) && s' == After(s, a);
    StepIsSound(s, a);
  }

  lemma {:induction false} EveryStateIsSound(states: seq<State>, k: nat)
    requires History(states) && k < |states|
    ensures Sound(states[k])
  {
    if k > 0 {
      EveryStateIsSound(states, k - 1);
      assert StepAt(states, k - 1);
      SoundAfter(states[k - 1], states[k]);
    }
  }

  // ---------- what callers rely on ----------

  /** Whatever the order in which fetches end: handlers are given results in the order of their
      requests, each at most once, and each for what was asked. */
  lemma DeliveriesRise(states: seq<State>, k: nat)
    requires History(states) && k < |states|
    ensures Rising(states[k].delivered)
    ensures forall i :: 0 <= i < |states[k].delivered| ==>
              && states[k].delivered[i].id in states[k].issued
              && states[k].issued[states[k].delivered[i].id] == states[k].delivered[i].query
  {
    EveryStateIsSound(states, k);
    var s := states[k];
    assert forall i :: 0 <= i < |s.delivered| ==> (s.delivered + s.posted)[i] == s.delivered[i];
  }

  /** Nothing issued before a newer request or a cancel is delivered after it. */
  lemma {:induction false} NothingStale(states: seq<State>, i: nat, j: nat)
    requires History(states) && i <= j < |states|
    ensures states[i].generation <= states[j].generation && states[i].delivered <= states[j].delivered
    ensures forall k :: |states[i].delivered| <= k < |states[j].delivered| ==> states[j].delivered[k].id >= states[i].generation
  {
    if i < j {
      NothingStale(states, i, j - 1);
      assert StepAt(states, j - 1);
    }
  }

  /** After a cancel nothing is delivered until something is asked again. */
  lemma CancelSilences(states: seq<State>, i: nat, j: nat)
    requires History(states) && 0 < i <= j < |states| && states[i] == After(states[i - 1], CancelAll)
    ensures forall k :: |states[i].delivered| <= k < |states[j].delivered| ==> states[j].delivered[k].id > states[i].generation
    ensures states[j].generation == states[i].generation ==> states[j].delivered == states[i].delivered
  {
    NothingStale(states, i, j);
    NeverAsked(states, i, j);
    EveryStateIsSound(states, j);
    forall k | |states[i].delivered| <= k < |states[j].delivered|
      ensures states[i].generation < states[j].delivered[k].id <= states[j].generation
    {
      assert states[j].delivered[k].id in states[j].issued;
    }
    if |states[i].delivered| < |states[j].delivered| {
      assert states[i].generation < states[j].delivered[|states[i].delivered|].id;
    } else {
      assert states[j].delivered[..|states[i].delivered|] == states[i].delivered;
    }
  }

  // The number a cancel takes is never asked under.
  lemma {:induction false} NeverAsked(states: seq<State>, i: nat, j: nat)
    requires History(states) && 0 < i <= j < |states| && states[i] == After(states[i - 1], CancelAll)
    ensures states[i].generation <= states[j].generation && states[i].generation !in states[j].issued
  {
    if i == j {
      EveryStateIsSound(states, i - 1);
    } else {
      NeverAsked(states, i, j - 1);
      assert StepAt(states, j - 1);
    }
  }

  predicate Drained(s: State) {
    s.waiting == {} && s.fetching == {} && s.posted == []
  }

  /** When everything has come to rest, a last request that was not cancelled has been delivered,
      and, since deliveries rise, exactly once and last. */
  lemma LastRequestIsDelivered(states: seq<State>)
    requires History(states) && Drained(states[|states| - 1])
    requires states[|states| - 1].generation in states[|states| - 1].issued
    ensures var s := states[|states| - 1];
            s.delivered != [] && s.delivered[|s.delivered| - 1].id == s.generation
  {
    var s := states[|states| - 1];
    EveryStateIsSound(states, |states| - 1);
    assert s.delivered + s.posted == s.delivered;
    var i :| 0 <= i < |s.delivered| && s.delivered[i].id == s.generation;
    assert s.delivered[|s.delivered| - 1].id in s.issued;
  }

  function Outstanding(s: State): nat {
    3 * |s.waiting| + 2 * |s.fetching| + |s.posted|
  }

  /** Workers and callbacks use themselves up, so everything does come to rest between requests. */
  lemma StepsAreUsedUp(s: State, a: Action)
    requires Enabled(s, a) && !a.Ask? && !a.CancelAll?
    ensures Outstanding(After(s, a)) < Outstanding(s)
  {
    if a.Begin? {
      assert |s.fetching + {a.job}| <= |s.fetching| + 1;
    }
  }

  // ---------- the class ----------

  class DirectoryLoadCoordinator {
    var generation: nat
    var waiting: set<Job>         // in the thread pool
    var fetching: set<Job>
    var posted: seq<Delivery>     // the event loop
    ghost var issued: map<nat, Query>
    ghost var delivered: seq<Delivery>
    ghost var history: seq<State>

    ghost function View(): State
      reads this
    {
      State(generation, waiting, fetching, posted, issued, delivered)
    }

    ghost predicate Valid()
      reads this
    {
      History(history) && history[|history| - 1] == View()
    }

    constructor ()
      ensures Valid() && history == [INITIAL]
    {
      generation, waiting, fetching, posted := 0, {}, {}, [];
      issued, delivered, history := map[], [], [INITIAL];
    }

    ghost method Record(a: Action)
      requires History(history) && Enabled(history[|history| - 1], a) && View() == After(history[|history| - 1], a)
      modifies this`history
      ensures Valid() && history == old(history) + [View()]
    {
      HistoryExtended(history, a);
      history := history + [View()];
    }

    /** A request is current when it returns, under a number that was never used. */
    method Request(query: Query) returns (requestId: nat)
      requires Valid()
      modifies this
      ensures Valid() && history == old(history) + [After(old(View()), Ask(query))]
      ensures requestId == generation && requestId !in old(issued) && issued == old(issued)[requestId := query]
    {
      EveryStateIsSound(history, |history| - 1);
      requestId := generation + 1;
      generation := requestId;
      waiting := waiting + {Job(requestId, query)};
      issued := issued[requestId := query];
      Record(Ask(query));
    }

    method CancelPending()
      requires Valid()
      modifies this
      ensures Valid() && history == old(history) + [After(old(View()), CancelAll)]
    {
      generation := generation + 1;
      Record(CancelAll);
    }

    /** A step of the main thread or of another worker, or none. */
    method OtherStep(mine: Job)
      requires Valid() && (mine in waiting || mine in fetching)
      modifies this
      ensures Valid() && old(history) <= history
      ensures mine in waiting <==> mine in old(waiting)
      ensures mine in fetching <==> mine in old(fetching)
    {
      EveryStateIsSound(history, |history| - 1);
      var query: Query, list: Listing := *, *;
      if
      case true =>
      case true => var _ := Request(query);
      case true => CancelPending();
      case waiting - {mine} != {} =>
        var job :| job in waiting && job != mine;
        var _ := BeginJob(job);
      case fetching - {mine} != {} =>
        var job :| job in fetching && job != mine;
        var _ := FinishJob(job, list);
      case posted != [] => var _ := RunCallback();
    }

    method Others(mine: Job)
      requires Valid() && (mine in waiting || mine in fetching)
      modifies this
      ensures Valid() && old(history) <= history
      ensures mine in waiting <==> mine in old(waiting)
      ensures mine in fetching <==> mine in old(fetching)
    {
      var steps: nat :| 0 <= steps;
      for i := 0 to steps
        invariant Valid() && old(history) <= history
        invariant mine in waiting <==> mine in old(waiting)
        invariant mine in fetching <==> mine in old(fetching)
      {
        OtherStep(mine);
      }
    }

    method BeginJob(job: Job) returns (goesOn: bool)
      requires Valid() && job in waiting
      modifies this
      ensures Valid() && history == old(history) + [After(old(View()), Begin(job))]
      ensures goesOn <==> generation == job.id
    {
      waiting := waiting - {job};
      goesOn := generation == job.id;
      if goesOn {
        fetching := fetching + {job};
      }
      Record(Begin(job));
    }

    method FinishJob(job: Job, list: Listing) returns (posts: bool)
      requires Valid() && job in fetching
      modifies this
      ensures Valid() && history == old(history) + [After(old(View()), Finish(job, list))]
      ensures posts <==> generation == job.id
    {
      fetching := fetching - {job};
      posts := generation == job.id;
      if posts {
        posted := posted + [Delivery(job.id, job.query, list)];
      }
      Record(Finish(job, list));
    }

    /** What a worker does with its request; the counter may move at any time.  It fetches exactly when
        its request was the current one at its first look, which is step k, and posts what it fetched
        exactly when it still is at its second look, which is the last step. */
    method Work(job: Job) returns (goesOn: bool, posts: bool, list: Listing, ghost k: nat)
      requires Valid() && job in waiting && job !in fetching
      modifies this
      ensures Valid() && old(history) < history && job !in waiting && job !in fetching
      ensures |old(history)| <= k + 1 < |history| && job in history[k].waiting
      ensures history[k + 1] == After(history[k], Begin(job)) && (goesOn <==> history[k].generation == job.id)
      ensures !goesOn ==> !posts && k + 2 == |history|
      ensures goesOn ==>
                && var s := history[|history| - 2];
                   job in s.fetching && View() == After(s, Finish(job, list)) && (posts <==> s.generation == job.id)
      ensures posts ==> posted != [] && posted[|posted| - 1] == Delivery(job.id, job.query, list)
    {
      posts, list := false, [];
      Others(job);
      k := |history| - 1;
      EveryStateIsSound(history, k);
      ghost var looked := history;
      goesOn := BeginJob(job);
      if !goesOn {
        return;
      }
      list := *;
      Others(job);
      assert looked < history;
      posts := FinishJob(job, list);
    }

    /** The posted callback: it calls its handler only while its request is still the current one. */
    method RunCallback() returns (called: bool)
      requires Valid() && posted != []
      modifies this
      ensures Valid() && history == old(history) + [After(old(View()), Call)]
      ensures called <==> generation == old(posted)[0].id
      ensures delivered == if called then old(delivered) + [old(posted)[0]] else old(delivered)
    {
      var result := posted[0];
      posted := posted[1..];
      called := generation == result.id;
      if called {
        delivered := delivered + [result];
      }
      Record(Call);
    }
  }
}
