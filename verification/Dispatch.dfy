/** The dispatch queue of `TransferService`: requests are queued under a lock, a posted pass hands
    them to the thread pool, and every finished worker posts a callback that clears the processing
    flag, even while another pass is posted. */
module Dispatch {

  datatype Request = Request(taskId: string, isUpload: bool, startOffset: int)

  /** What is posted to the event loop of the service. */
  datatype Event = Pass | Done

  /** `cleared` says whether the destructor has emptied the queue; `running` whether a pass is in its
      loop; `callers` are requests whose caller saw no shutdown and now waits for the queue lock;
      `handled` counts the callbacks that have run.  `enqueued` and `dispatched` record all requests
      in the order of the lock. */
  datatype State = State(queue: seq<Request>, processing: bool, shutdown: bool, cleared: bool,
                         posted: seq<Event>, running: bool,
                         workers: nat, handled: nat, callers: seq<Request>,
                         enqueued: seq<Request>, dispatched: seq<Request>)

  const INITIAL := State([], false, false, false, [], false, 0, 0, [], [], [])

  datatype Action =
    | Arrive(request: Request)   // `enqueueTransferTask` sees no shutdown
    | Insert(caller: nat)        // its locked part
    | Begin                      // the event loop takes the next event
    | Turn                       // one turn of the loop of `processTaskQueue`
    | WorkerEnds                 // a worker posts its callback
    | RequestShutdown            // the destructor stores the flag
    | ClearQueue                 // and then empties the queue

  predicate Enabled(s: State, a: Action) {
    match a
    case Arrive(_) => !s.shutdown
    case Insert(caller) => caller < |s.callers|
    case Begin => !s.running && s.posted != []
    case Turn => s.running
    case WorkerEnds => s.workers > 0
    case RequestShutdown => !s.shutdown
    case ClearQueue => s.shutdown && !s.cleared
  }

  // `tryScheduleTaskProcessingLocked`
  function Scheduled(s: State): State {
    if s.shutdown || s.processing then s else s.(processing := true, posted := s.posted + [Pass])
  }

  function Inserted(s: State, request: Request): State {
    Scheduled(s.(queue := s.queue + [request], enqueued := s.enqueued + [request]))
  }

  // The callback of a finished worker.
  function Called(s: State): State {
    var s' := s.(processing := false, handled := s.handled + 1);
    if s.queue == [] then s' else Scheduled(s')
  }

  function Turned(s: State): State {
    if s.shutdown then s.(queue := [], processing := false, running := false)
    else if s.queue == [] then s.(processing := false, running := false)
    else s.(queue := s.queue[1..], workers := s.workers + 1, dispatched := s.dispatched + [s.queue[0]])
  }

  function After(s: State, a: Action): State
    requires Enabled(s, a)
  {
    match a
    case Arrive(request) => s.(callers := s.callers + [request])
    case Insert(caller) =>
      Inserted(s.(callers := s.callers[..caller] + s.callers[caller + 1..]), s.callers[caller])
    case Begin =>
      var s' := s.(posted := s.posted[1..]);
      if s.posted[0] == Pass then s'.(running := true) else Called(s')
    case Turn => Turned(s)
    case WorkerEnds => s.(workers := s.workers - 1, posted := s.posted + [Done])
    case RequestShutdown => s.(shutdown := true)
    case ClearQueue => s.(queue := [], processing := false, cleared := true)
  }

  ghost predicate OneStep(s: State, s': State) {
    exists a :: Enabled(s, a) && s' == After(s, a)
  }

  ghost predicate StepAt(states: seq<State>, k: nat) {
    k + 1 < |states| ==> OneStep(states[k], states[k + 1])
  }

  /** The states of one run, from the construction of the service. */
  ghost predicate History(states: seq<State>) {
    states != [] && states[0] == INITIAL && forall k: nat :: k < |states| - 1 ==> StepAt(states, k)
  }

  // ---------- what every state satisfies ----------

  function Callbacks(posted: seq<Event>): nat {
    if posted == [] then 0 else Callbacks(posted[..|posted| - 1]) + if posted[|posted| - 1] == Done then 1 else 0
  }

  /** No wakeup is lost: a waiting request means that the flag is set, and the flag means that a
      pass is in its loop or posted. */
  predicate NothingLost(s: State) {
    && (s.queue != [] ==> s.processing)
    && (s.processing ==> s.running || Pass in s.posted)
  }

  /** Requests leave in the order they came in, each one once; every dispatched request is with a
      worker, with a posted callback, or done. */
  predicate InOrder(s: State) {
    && s.dispatched <= s.enqueued
    && (!s.shutdown ==> s.dispatched + s.queue == s.enqueued)
    && |s.dispatched| == s.workers + Callbacks(s.posted) + s.handled
  }

  predicate Sound(s: State) {
    (!s.shutdown ==> NothingLost(s)) && InOrder(s)
  }

  lemma {:induction false} CallbacksAfterFirst(posted: seq<Event>)
    requires posted != []
    ensures Callbacks(posted) == Callbacks(posted[1..]) + if posted[0] == Done then 1 else 0
  {
    if |posted| > 1 {
      var front := posted[..|posted| - 1];
      CallbacksAfterFirst(front);
      assert posted[1..][..|posted| - 2] == front[1..];
    }
  }

  lemma CallbacksPosted(posted: seq<Event>, e: Event)
    ensures Callbacks(posted + [e]) == Callbacks(posted) + if e == Done then 1 else 0
    ensures Pass in posted + [e] <==> Pass in posted || e == Pass
  {
    assert (posted + [e])[..|posted|] == posted;
  }

  lemma FirstRequestLeaves(s: State)
    requires InOrder(s) && !s.shutdown && s.queue != []
    ensures s.dispatched + [s.queue[0]] + s.queue[1..] == s.enqueued
  {
    assert [s.queue[0]] + s.queue[1..] == s.queue;
  }

  lemma ScheduledIsSound(s: State)
    requires InOrder(s)
    ensures InOrder(Scheduled(s)) && (!s.shutdown ==> Scheduled(s).processing)
    ensures !s.shutdown && (s.processing ==> s.running || Pass in s.posted) ==> NothingLost(Scheduled(s))
  {
    CallbacksPosted(s.posted, Pass);
  }

  lemma BeginIsSound(s: State)
    requires Sound(s) && Enabled(s, Begin)
    ensures Sound(After(s, Begin))
  {
    CallbacksAfterFirst(s.posted);
    if s.posted[0] == Done {
      var s' := s.(posted := s.posted[1..], processing := false, handled := s.handled + 1);
      if s.queue != [] {
        ScheduledIsSound(s');
      }
    }
  }

  lemma StepIsSound(s: State, a: Action)
    requires Sound(s) && Enabled(s, a)
    ensures Sound(After(s, a))
  {
    match a
    case Begin => BeginIsSound(s);
    case Insert(caller) =>
      var request := s.callers[caller];
      ScheduledIsSound(s.(callers := s.callers[..caller] + s.callers[caller + 1..],
                          queue := s.queue + [request], enqueued := s.enqueued + [request]));
    case Turn =>
      if !s.shutdown && s.queue != [] {
        FirstRequestLeaves(s);
      }
    case WorkerEnds => CallbacksPosted(s.posted, Done);
    case _ =>
  }

  lemma SoundAfter(s: State, s': State)
    requires Sound(s) && OneStep(s, s')
    ensures Sound(s')
  {
    var a :| Enabled(s, a) && s' == After(s, a);
    StepIsSound(s, a);
  }

  /** In every state that a run reaches, no wakeup is lost and dispatch is in order. */
  lemma {:induction false} EveryStateIsSound(states: seq<State>, k: nat)
    requires History(states) && k < |states|
    ensures Sound(states[k])
  {
    if k > 0 {
      EveryStateIsSound(states, k - 1);
      assert StepAt(states, k - 1);
      SoundAfter(states[k - 1], states[k]);
    }
  }

  // ---------- the dispatcher comes to rest ----------

  /** An outstanding request weighs less the further it has come. */
  function Outstanding(s: State): nat {
    8 * |s.callers| + 5 * |s.queue| + 4 * s.workers + 2 * |s.posted| + Callbacks(s.posted)
    + (if s.running then 1 else 0) + (if s.cleared then 0 else 1)
  }

  /** Steps that neither bring a new request nor begin the shutdown. */
  predicate Progress(a: Action) {
    !a.Arrive? && !a.RequestShutdown?
  }

  lemma ScheduledAdds(s: State)
    ensures Outstanding(s) <= Outstanding(Scheduled(s)) <= Outstanding(s) + 2
  {
    CallbacksPosted(s.posted, Pass);
  }

  lemma InsertShrinks(s: State, caller: nat)
    requires Enabled(s, Insert(caller))
    ensures Outstanding(After(s, Insert(caller))) < Outstanding(s)
  {
    var request := s.callers[caller];
    ScheduledAdds(s.(callers := s.callers[..caller] + s.callers[caller + 1..],
                     queue := s.queue + [request], enqueued := s.enqueued + [request]));
  }

  lemma BeginShrinks(s: State)
    requires Enabled(s, Begin)
    ensures Outstanding(After(s, Begin)) < Outstanding(s)
  {
    var s' := s.(posted := s.posted[1..]);
    CallbacksAfterFirst(s.posted);
    ScheduledAdds(s'.(processing := false, handled := s.handled + 1));
  }

  lemma ProgressShrinks(s: State, a: Action)
    requires Enabled(s, a) && Progress(a)
    ensures Outstanding(After(s, a)) < Outstanding(s)
  {
    if a.Insert? {
      InsertShrinks(s, a.caller);
    } else if a.Begin? {
      BeginShrinks(s);
    } else if a.WorkerEnds? {
      CallbacksPosted(s.posted, Done);
    }
  }

  ghost predicate AtRest(s: State) {
    forall a :: Progress(a) ==> !Enabled(s, a)
  }

  /** Once no further request arrives the dispatcher comes to rest, and at rest every request that
      was ever queued has been dispatched and its callback has run. */
  lemma RestMeansAllDispatched(states: seq<State>)
    requires History(states) && AtRest(states[|states| - 1]) && !states[|states| - 1].shutdown
    ensures var s := states[|states| - 1];
            s.queue == [] && s.callers == [] && s.dispatched == s.enqueued && s.handled == |s.enqueued| && !s.processing
  {
    var s := states[|states| - 1];
    EveryStateIsSound(states, |states| - 1);
    assert !Enabled(s, Begin) && !Enabled(s, Turn) && !Enabled(s, WorkerEnds) && !Enabled(s, Insert(0));
  }

  /** From every reachable state, taking progress steps for as long as there are any leads to rest; and
      without a shutdown everything queued by then is dispatched. */
  lemma {:induction false} ComesToRest(states: seq<State>) returns (longer: seq<State>)
    requires History(states)
    ensures History(longer) && states <= longer && AtRest(longer[|longer| - 1])
    ensures var s := longer[|longer| - 1];
            && s.shutdown == states[|states| - 1].shutdown
            && (!s.shutdown ==> s.dispatched == s.enqueued && states[|states| - 1].enqueued <= s.dispatched)
    decreases Outstanding(states[|states| - 1])
  {
    var s := states[|states| - 1];
    if AtRest(s) {
      longer := states;
      if !s.shutdown {
        RestMeansAllDispatched(states);
      }
    } else {
      var a :| Progress(a) && Enabled(s, a);
      ProgressShrinks(s, a);
      HistoryExtended(states, a);
      var grown := states + [After(s, a)];
      longer := ComesToRest(grown);
    }
  }

  lemma HistoryExtended(states: seq<State>, a: Action)
    requires History(states) && Enabled(states[|states| - 1], a)
    ensures History(states + [After(states[|states| - 1], a)])
  {
    var longer := states + [After(states[|states| - 1], a)];
    forall k: nat | k < |longer| - 1 ensures StepAt(longer, k) {
      if k < |states| - 1 {
        assert StepAt(states, k);
      }
    }
  }

  // ---------- after a shutdown ----------

  /** After the shutdown flag is set nothing is handed to a worker any more. */
  lemma {:induction false} NothingAfterShutdown(states: seq<State>, i: nat, j: nat)
    requires History(states) && i <= j < |states| && states[i].shutdown
    ensures states[j].shutdown && states[j].dispatched == states[i].dispatched
  {
    if i < j {
      NothingAfterShutdown(states, i, j - 1);
      assert StepAt(states, j - 1);
    }
  }

  /** After the shutdown flag is set every queued request is one that waited for the lock before. */
  lemma {:induction false} CallersAreTheLast(states: seq<State>, i: nat, j: nat)
    requires History(states) && i <= j < |states| && states[i].shutdown
    ensures states[j].shutdown && |states[j].enqueued| + |states[j].callers| == |states[i].enqueued| + |states[i].callers|
    ensures states[i].enqueued <= states[j].enqueued
  {
    if i < j {
      CallersAreTheLast(states, i, j - 1);
      assert StepAt(states, j - 1);
    }
  }

  lemma ShutdownTakesNothing(s: State, s': State)
    requires OneStep(s, s') && Sound(s) && !s.shutdown && s'.shutdown
    ensures s' == s.(shutdown := true) && s'.dispatched + s'.queue == s'.enqueued
  {
    var a :| Enabled(s, a) && s' == After(s, a);
    assert a.RequestShutdown?;
  }

  /** A shutdown loses no request exactly when none was queued and none was waiting for the lock at the
      moment the flag was set. */
  lemma AllDispatchedExactlyWhen(states: seq<State>, i: nat)
    requires History(states) && 0 < i < |states| && states[i].shutdown && !states[i - 1].shutdown
    requires AtRest(states[|states| - 1])
    ensures var s := states[|states| - 1];
            s.dispatched == s.enqueued <==> states[i].queue == [] && states[i].callers == []
  {
    var s := states[|states| - 1];
    EveryStateIsSound(states, i - 1);
    assert StepAt(states, i - 1);
    ShutdownTakesNothing(states[i - 1], states[i]);
    NothingAfterShutdown(states, i, |states| - 1);
    CallersAreTheLast(states, i, |states| - 1);
    EveryStateIsSound(states, |states| - 1);
    assert !Enabled(s, Insert(0));
  }

  /** After a shutdown rest is for good: nothing at all can happen any more. */
  lemma RestAfterShutdownIsFinal(s: State, a: Action)
    requires AtRest(s) && s.shutdown
    ensures !Enabled(s, a)
  {
    if Progress(a) {
      assert !Enabled(s, a);
    }
  }

  /** A caller that saw no shutdown can still queue its request after the queue was emptied; the
      request then stays there for good and is never dispatched. */
  lemma LateRequestIsStranded(request: Request)
    ensures var s := After(After(After(After(INITIAL, Arrive(request)), RequestShutdown), ClearQueue), Insert(0));
            s.queue == [request] && s.dispatched == [] && forall a :: !Enabled(s, a)
  {
    assert [request][..0] + [request][1..] == [];
  }

  // ---------- the class ----------

  /** The queue methods of `TransferService`, each proved to take only steps of the machine above, with
      other threads acting between any two of its locked sections. */
  class TransferQueue {
    var taskQueue: seq<Request>
    var taskProcessing: bool
    var shutdownRequested: bool
    var queueCleared: bool          // by the destructor
    var posted: seq<Event>          // the event loop of the service
    var running: bool
    var workers: nat                // transfers in the thread pool
    var callers: seq<Request>       // other threads that wait for the queue lock
    var arriving: seq<Request>      // what other threads will still ask for
    ghost var handled: nat
    ghost var enqueued: seq<Request>
    ghost var dispatched: seq<Request>
    ghost var history: seq<State>

    ghost function View(): State
      reads this
    {
      State(taskQueue, taskProcessing, shutdownRequested, queueCleared, posted, running, workers, handled, callers,
            enqueued, dispatched)
    }

    /** The object is in the last state of a run of the machine. */
    ghost predicate Valid()
      reads this
    {
      History(history) && history[|history| - 1] == View()
    }

    ghost function Pending(): nat
      reads this
    {
      |arriving| + |callers| + |taskQueue|
    }

    constructor (arriving: seq<Request>)
      ensures Valid() && history == [INITIAL] && this.arriving == arriving
    {
      taskQueue, taskProcessing, shutdownRequested, queueCleared, posted, running := [], false, false, false, [], false;
      workers, callers, this.arriving := 0, [], arriving;
      handled, enqueued, dispatched := 0, [], [];
      history := [INITIAL];
    }

    ghost method Record(a: Action)
      requires History(history) && Enabled(history[|history| - 1], a) && View() == After(history[|history| - 1], a)
      modifies this`history
      ensures Valid() && history == old(history) + [View()]
    {
      HistoryExtended(history, a);
      history := history + [View()];
    }

    /** What no step of another thread takes back. */
    twostate predicate Onwards()
      reads this
    {
      && old(history) <= history && running == old(running) && Pending() <= old(Pending())
      && (old(shutdownRequested) ==> shutdownRequested) && old(enqueued) <= enqueued
    }

    /** The locked section of `enqueueTransferTask`. */
    method InsertLocked(caller: nat)
      requires Valid() && caller < |callers|
      modifies this
      ensures Valid() && Onwards() && history == old(history) + [After(old(View()), Insert(caller))]
    {
      var request := callers[caller];
      callers := callers[..caller] + callers[caller + 1..];
      taskQueue := taskQueue + [request];
      enqueued := enqueued + [request];
      TryScheduleTaskProcessingLocked();
      Record(Insert(caller));
    }

    method OtherArrives()
      requires Valid() && arriving != [] && !shutdownRequested
      modifies this`callers, this`arriving, this`history
      ensures Valid() && Onwards() && callers == old(callers) + [old(arriving)[0]]
    {
      var request := arriving[0];
      callers, arriving := callers + [request], arriving[1..];
      Record(Arrive(request));
    }

    method WorkerPosts()
      requires Valid() && workers > 0
      modifies this`workers, this`posted, this`history
      ensures Valid() && Onwards()
    {
      workers, posted := workers - 1, posted + [Done];
      Record(WorkerEnds);
    }

    /** One of the two steps of the destructor. */
    method ShutdownStep()
      requires Valid()
      modifies this`shutdownRequested, this`queueCleared, this`taskQueue, this`taskProcessing, this`history
      ensures Valid() && Onwards() && shutdownRequested
    {
      if shutdownRequested && !queueCleared {
        taskQueue, taskProcessing, queueCleared := [], false, true;
        Record(ClearQueue);
      } else if !shutdownRequested {
        shutdownRequested := true;
        Record(RequestShutdown);
      }
    }

    /** One atomic step of some other thread, or none.  `mine` is the place of the calling thread in
        the row before the lock, or -1; `place` is its place afterwards. */
    method OtherStep(mine: int) returns (place: int)
      requires Valid() && -1 <= mine < |callers|
      modifies this
      ensures Valid() && Onwards() && -1 <= place < |callers|
      ensures mine >= 0 ==> place >= 0 && callers[place] == old(callers)[mine]
    {
      place := mine;
      if
      case true =>
      case arriving != [] && !shutdownRequested =>
        OtherArrives();
      case callers != [] =>
        var caller :| 0 <= caller < |callers|;
        if caller != mine {
          InsertLocked(caller);
          place := if caller < mine then mine - 1 else mine;
        }
      case workers > 0 =>
        WorkerPosts();
      case true =>
        ShutdownStep();
    }

    /** What other threads do between two locked sections. */
    method Others(mine: int) returns (place: int)
      requires Valid() && -1 <= mine < |callers|
      modifies this
      ensures Valid() && Onwards() && -1 <= place < |callers|
      ensures mine >= 0 ==> place >= 0 && callers[place] == old(callers)[mine]
    {
      place := mine;
      var steps: nat :| 0 <= steps;
      for i := 0 to steps
        invariant Valid() && Onwards() && -1 <= place < |callers|
        invariant mine >= 0 ==> place >= 0 && callers[place] == old(callers)[mine]
      {
        place := OtherStep(place);
      }
    }

    /** Without a shutdown the flag is set afterwards, and a pass is posted only if it was clear. */
    method TryScheduleTaskProcessingLocked()
      modifies this`taskProcessing, this`posted
      ensures !shutdownRequested ==> taskProcessing
      ensures posted == old(posted) || (posted == old(posted) + [Pass] && !old(taskProcessing) && !shutdownRequested)
      ensures View() == Scheduled(old(View()))
    {
      if shutdownRequested || taskProcessing {
        return;
      }
      taskProcessing := true;
      posted := posted + [Pass];
    }

    /** A request is queued by one locked step, unless the shutdown had already begun. */
    method EnqueueTransferTask(request: Request)
      requires Valid()
      modifies this
      ensures Valid() && old(history) <= history
      ensures old(shutdownRequested) ==> history == old(history)
      ensures !old(shutdownRequested) ==>
                |history| > |old(history)| + 1 && enqueued == history[|history| - 2].enqueued + [request]
    {
      if shutdownRequested {
        return;
      }
      callers := callers + [request];
      Record(Arrive(request));
      var caller := Others(|callers| - 1);
      InsertLocked(caller);
    }

    /** A pass that the event loop has begun goes on until, at one of its locked sections, the queue
        is empty or the shutdown has begun; everything it takes from the queue it dispatches. */
    method ProcessTaskQueue()
      requires Valid() && running
      modifies this
      ensures Valid() && !running && old(history) < history
      ensures taskQueue == [] && !taskProcessing
      ensures !shutdownRequested ==> dispatched == enqueued && old(enqueued) <= dispatched
    {
      while true
        invariant Valid() && running && old(history) <= history && old(enqueued) <= enqueued
        decreases Pending()
      {
        var _ := Others(-1);
        if shutdownRequested {
          taskQueue, taskProcessing, running := [], false, false;
          Record(Turn);
          return;
        }
        if taskQueue != [] {
          var request := taskQueue[0];
          taskQueue := taskQueue[1..];
          workers := workers + 1;
          dispatched := dispatched + [request];
          Record(Turn);
        } else {
          EveryStateIsSound(history, |history| - 1);
          taskProcessing, running := false, false;
          Record(Turn);
          return;
        }
      }
    }

    /** The callback that a worker posts when its transfer is over. */
    method TransferFinished()
      requires Valid() && !running && posted != [] && posted[0] == Done
      modifies this
      ensures Valid() && old(history) <= history && View() == After(old(View()), Begin)
      ensures !shutdownRequested && taskQueue != [] ==> taskProcessing && Pass in posted
    {
      posted := posted[1..];
      handled := handled + 1;
      taskProcessing := false;
      if taskQueue != [] {
        TryScheduleTaskProcessingLocked();
      }
      Record(Begin);
    }
  }
}
