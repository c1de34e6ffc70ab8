/**
 * The restore a pod was created for (core/restore/pending.py): one pinned checkpoint, read from the
 * environment, and one process-wide flag.
 *
 * A request reads the flag when it enters and sets it when it is done; in between it waits twice, for the read of the
 * pinned checkpoint and for the write of the fork. Requests are told apart by a number of their own.
 */
module PendingRestore {
  import opened Wrappers
  import opened Checkpoints

  /** A request that found the flag unset: waiting for its read, or for its write. */
  datatype Flight<V> = Entered(sessionId: string) | Loaded(sessionId: string, read: Row<V>)

  /** The flag, the checkpoint rows of every thread, the requests under way, and the numbers used so far. */
  datatype Pod<V> = Pod(applied: bool, threads: map<string, Rows<V>>, inFlight: map<nat, Flight<V>>, used: set<nat>)

  function ThreadOf<V>(threads: map<string, Rows<V>>, sessionId: string): Rows<V> {
    if sessionId in threads then threads[sessionId] else map[]
  }

  datatype Event<V> =
    | Enter(request: nat, sessionId: string, hasCheckpointer: bool)
    | Load(request: nat)
    // `minted` is the id the fork is given.
    | Finish(request: nat, minted: nat)
    // Whatever else happens to a session's thread.
    | Work(sessionId: string, op: Op<V>)

  predicate Legal<V>(pod: Pod<V>, e: Event<V>) {
    match e
    case Enter(request, _, _) => request !in pod.used
    case Load(request) => request in pod.inFlight && pod.inFlight[request].Entered?
    case Finish(request, minted) =>
      request in pod.inFlight && pod.inFlight[request].Loaded?
      && IsFresh(ThreadOf(pod.threads, pod.inFlight[request].sessionId), minted)
    case Work(sessionId, op) => Checkpoints.Legal(ThreadOf(pod.threads, sessionId), op)
  }

  function Next<V>(pod: Pod<V>, pinned: Option<nat>, e: Event<V>): Pod<V>
    requires Legal(pod, e)
  {
    match e
    case Enter(request, sessionId, hasCheckpointer) =>
      pod.(used := pod.used + {request},
           inFlight := if !pod.applied && hasCheckpointer && pinned.Some? then
                         pod.inFlight[request := Entered(sessionId)]
                       else pod.inFlight)
    // A thread without the checkpoint fails the request, and the flag stays unset.
    case Load(request) =>
      var sessionId := pod.inFlight[request].sessionId;
      var rows := ThreadOf(pod.threads, sessionId);
      pod.(inFlight := if pinned.Some? && pinned.value in rows
                       then pod.inFlight[request := Loaded(sessionId, rows[pinned.value])]
                       else pod.inFlight - {request})
    case Finish(request, minted) =>
      var flight := pod.inFlight[request];
      var rows := ThreadOf(pod.threads, flight.sessionId);
      pod.(applied := true, inFlight := pod.inFlight - {request},
           threads := pod.threads[flight.sessionId :=
             ForkOf(rows, if pinned.Some? then pinned.value else 0, flight.read, minted)])
    case Work(sessionId, op) =>
      pod.(threads := pod.threads[sessionId := Step(ThreadOf(pod.threads, sessionId), op)])
  }

  /** The pod after some events, None when one of them cannot happen. */
  function Run<V>(pod: Pod<V>, pinned: Option<nat>, events: seq<Event<V>>): Option<Pod<V>> {
    if events == [] then Some(pod)
    else
      match Run(pod, pinned, events[..|events| - 1])
      case None => None
      case Some(before) =>
        if Legal(before, events[|events| - 1]) then Some(Next(before, pinned, events[|events| - 1])) else None
  }

  /** How many requests rewound a thread. */
  function Rewinds<V>(events: seq<Event<V>>): nat {
    if events == [] then 0
    else Rewinds(events[..|events| - 1]) + if events[|events| - 1].Finish? then 1 else 0
  }

  /** A process that has just started. */
  ghost predicate IsNew<V>(pod: Pod<V>) {
    !pod.applied && pod.inFlight == map[]
  }

  // ---- What a rewind writes ----

  ghost predicate ReadsAreCurrent<V>(pod: Pod<V>, pinned: Option<nat>) {
    forall r :: r in pod.inFlight && pod.inFlight[r].Loaded? ==> ReadIsCurrent(pod, pinned, r)
  }

  /** What the request read of the pinned checkpoint is what its thread still holds, a pause aside. */
  ghost predicate ReadIsCurrent<V>(pod: Pod<V>, pinned: Option<nat>, r: nat)
    requires r in pod.inFlight && pod.inFlight[r].Loaded?
  {
    var rows, read := ThreadOf(pod.threads, pod.inFlight[r].sessionId), pod.inFlight[r].read;
    pinned.Some? && pinned.value in rows && rows[pinned.value].(paused := read.paused) == read
  }

  lemma ThreadsKeepRows<V>(pod: Pod<V>, pinned: Option<nat>, e: Event<V>, sessionId: string)
    requires Legal(pod, e)
    ensures Keeps(ThreadOf(pod.threads, sessionId), ThreadOf(Next(pod, pinned, e).threads, sessionId))
  {
    if e.Work? && e.sessionId == sessionId {
      StepIsSafe(ThreadOf(pod.threads, sessionId), e.op);
    }
  }

  lemma EventKeepsReads<V>(pod: Pod<V>, pinned: Option<nat>, e: Event<V>)
    requires Legal(pod, e) && ReadsAreCurrent(pod, pinned)
    ensures ReadsAreCurrent(Next(pod, pinned, e), pinned)
  {
    var after := Next(pod, pinned, e);
    forall r | r in after.inFlight && after.inFlight[r].Loaded? ensures ReadIsCurrent(after, pinned, r) {
      var sessionId := after.inFlight[r].sessionId;
      ThreadsKeepRows(pod, pinned, e, sessionId);
      if r in pod.inFlight && pod.inFlight[r].Loaded? {
        assert ReadIsCurrent(pod, pinned, r);
        var rows, later := ThreadOf(pod.threads, sessionId), ThreadOf(after.threads, sessionId);
        assert later[pinned.value].(paused := rows[pinned.value].paused) == rows[pinned.value];
      }
    }
  }

  lemma {:induction false} RunKeepsReads<V>(pod: Pod<V>, pinned: Option<nat>, events: seq<Event<V>>)
    requires IsNew(pod) && Run(pod, pinned, events).Some?
    ensures ReadsAreCurrent(Run(pod, pinned, events).value, pinned)
    decreases |events|
  {
    if events != [] {
      RunKeepsReads(pod, pinned, events[..|events| - 1]);
      EventKeepsReads(Run(pod, pinned, events[..|events| - 1]).value, pinned, events[|events| - 1]);
    }
  }

  /**
   * Every rewind, however it interleaves with other requests and with the graph, makes a head with the pinned
   * checkpoint's values.
   */
  lemma EveryRewindMakesHead<V>(pod: Pod<V>, pinned: Option<nat>, events: seq<Event<V>>, request: nat, minted: nat)
    requires IsNew(pod) && Run(pod, pinned, events).Some?
    requires Legal(Run(pod, pinned, events).value, Finish(request, minted))
    ensures var before := Run(pod, pinned, events).value;
            var sessionId := before.inFlight[request].sessionId;
            var rows := ThreadOf(before.threads, sessionId);
            && pinned.Some? && pinned.value in rows
            && var after := Next(before, pinned, Finish(request, minted));
            && after.applied
            && ThreadOf(after.threads, sessionId) == Forked(rows, pinned.value, minted)
            && IsHead(ThreadOf(after.threads, sessionId), minted)
  {
    RunKeepsReads(pod, pinned, events);
    var before := Run(pod, pinned, events).value;
    assert ReadIsCurrent(before, pinned, request);
    RestoreMakesHead(ThreadOf(before.threads, before.inFlight[request].sessionId), pinned.value, minted);
  }

  /**
   * What each event does, said of the process and its threads: only a request that finds the flag unset, a checkpointer
   * and a pinned checkpoint goes on to read, and only one whose thread has the checkpoint goes on to write.
   */
  lemma EventShows<V>(pod: Pod<V>, pinned: Option<nat>, e: Event<V>)
    requires Legal(pod, e)
    ensures var after := Next(pod, pinned, e);
            match e
            case Enter(r, sessionId, hasCheckpointer) =>
              && after.threads == pod.threads && after.applied == pod.applied
              && (r !in pod.inFlight ==>
                    (r in after.inFlight <==> !pod.applied && hasCheckpointer && pinned.Some?))
              && (!pod.applied && hasCheckpointer && pinned.Some? ==> after.inFlight[r] == Entered(sessionId))
            case Load(r) =>
              var sessionId := pod.inFlight[r].sessionId;
              && after.threads == pod.threads && after.applied == pod.applied
              && (r in after.inFlight <==>
                    pinned.Some? && sessionId in pod.threads && pinned.value in pod.threads[sessionId])
              && (r in after.inFlight ==>
                    after.inFlight[r] == Loaded(sessionId, pod.threads[sessionId][pinned.value]))
            case Finish(r, _) => after.applied && r !in after.inFlight
            case Work(_, _) => after.inFlight == pod.inFlight && after.applied == pod.applied
  {
  }

  // ---- How many requests rewind ----

  /** A run of a new process, and its states. */
  ghost predicate IsRun<V>(pod: Pod<V>, pinned: Option<nat>, events: seq<Event<V>>) {
    IsNew(pod) && Run(pod, pinned, events).Some?
  }

  lemma {:induction false} PrefixRuns<V>(pod: Pod<V>, pinned: Option<nat>, events: seq<Event<V>>, n: nat)
    requires Run(pod, pinned, events).Some? && n <= |events|
    ensures Run(pod, pinned, events[..n]).Some?
    decreases |events| - n
  {
    if n == |events| {
      assert events[..n] == events;
    } else {
      PrefixRuns(pod, pinned, events, n + 1);
      assert events[..n + 1][..n] == events[..n];
    }
  }

  ghost function StateAt<V>(pod: Pod<V>, pinned: Option<nat>, events: seq<Event<V>>, n: nat): Pod<V>
    requires IsRun(pod, pinned, events) && n <= |events|
  {
    PrefixRuns(pod, pinned, events, n);
    Run(pod, pinned, events[..n]).value
  }

  lemma StateAfter<V>(pod: Pod<V>, pinned: Option<nat>, events: seq<Event<V>>, n: nat)
    requires IsRun(pod, pinned, events) && n < |events|
    ensures var before := StateAt(pod, pinned, events, n);
            Legal(before, events[n]) && StateAt(pod, pinned, events, n + 1) == Next(before, pinned, events[n])
  {
    PrefixRuns(pod, pinned, events, n + 1);
    assert events[..n + 1][..n] == events[..n];
  }

  ghost predicate IsEntry<V>(events: seq<Event<V>>, k: nat, r: nat) {
    k < |events| && events[k].Enter? && events[k].request == r
  }

  ghost predicate IsFinish<V>(events: seq<Event<V>>, k: nat, r: nat) {
    k < |events| && events[k].Finish? && events[k].request == r
  }

  /** Event `k` is the read of request `r`, and its thread holds the pinned checkpoint. */
  ghost predicate FindsAt<V>(pod: Pod<V>, pinned: Option<nat>, events: seq<Event<V>>, k: nat, r: nat)
    requires IsRun(pod, pinned, events)
  {
    k < |events| && events[k] == Load(r) && pinned.Some? &&
    var before := StateAt(pod, pinned, events, k);
    r in before.inFlight && pinned.value in ThreadOf(before.threads, before.inFlight[r].sessionId)
  }

  /** A request under way entered while the flag was unset, and if it has read, it found the checkpoint. */
  lemma {:induction false} FlightHistory<V>(pod: Pod<V>, pinned: Option<nat>, events: seq<Event<V>>, n: nat, r: nat)
    returns (entry: nat, read: nat)
    requires IsRun(pod, pinned, events) && n <= |events| && r in StateAt(pod, pinned, events, n).inFlight
    ensures entry < n && IsEntry(events, entry, r) && !StateAt(pod, pinned, events, entry).applied
    ensures StateAt(pod, pinned, events, n).inFlight[r].Loaded? ==>
              entry < read < n && FindsAt(pod, pinned, events, read, r)
  {
    if n > 0 {
      StateAfter(pod, pinned, events, n - 1);
      if r in StateAt(pod, pinned, events, n - 1).inFlight {
        entry, read := FlightHistory(pod, pinned, events, n - 1, r);
        if events[n - 1] == Load(r) { read := n - 1; }
      } else {
        entry, read := n - 1, n;
      }
    }
  }

  lemma {:induction false} UsedStays<V>(pod: Pod<V>, pinned: Option<nat>, events: seq<Event<V>>, k: nat, n: nat, r: nat)
    requires IsRun(pod, pinned, events) && k < n <= |events| && IsEntry(events, k, r)
    ensures r in StateAt(pod, pinned, events, n).used
    decreases n
  {
    StateAfter(pod, pinned, events, n - 1);
    if k < n - 1 { UsedStays(pod, pinned, events, k, n - 1, r); }
  }

  /** After a request finished the flag is set, and the request does not come back. */
  lemma {:induction false} FinishedStays<V>(pod: Pod<V>, pinned: Option<nat>, events: seq<Event<V>>, f: nat, n: nat,
                                            r: nat)
    requires IsRun(pod, pinned, events) && f < n <= |events| && IsFinish(events, f, r)
    ensures var s := StateAt(pod, pinned, events, n); s.applied && r in s.used && r !in s.inFlight
    decreases n
  {
    StateAfter(pod, pinned, events, n - 1);
    if f < n - 1 {
      FinishedStays(pod, pinned, events, f, n - 1, r);
    } else {
      var entry, read := FlightHistory(pod, pinned, events, f, r);
      UsedStays(pod, pinned, events, entry, f, r);
    }
  }

  /** A request that found the checkpoint is waiting to write, or has finished. */
  lemma {:induction false} FinderGoesOn<V>(pod: Pod<V>, pinned: Option<nat>, events: seq<Event<V>>, k: nat, n: nat,
                                           r: nat)
    requires IsRun(pod, pinned, events) && k < n <= |events| && FindsAt(pod, pinned, events, k, r)
    ensures var s := StateAt(pod, pinned, events, n);
            (r in s.inFlight && s.inFlight[r].Loaded?) || exists f :: k < f < n && IsFinish(events, f, r)
    decreases n
  {
    StateAfter(pod, pinned, events, n - 1);
    if k < n - 1 {
      FinderGoesOn(pod, pinned, events, k, n - 1, r);
      var s := StateAt(pod, pinned, events, n - 1);
      if !exists f :: k < f < n - 1 && IsFinish(events, f, r) {
        var entry, read := FlightHistory(pod, pinned, events, n - 1, r);
        UsedStays(pod, pinned, events, entry, n - 1, r);
        assert events[n - 1].Finish? && events[n - 1].request == r ==> IsFinish(events, n - 1, r);
      }
    }
  }

  /** Two requests that finished entered before either of them did, and both found the checkpoint. */
  lemma FinishersOverlap<V>(pod: Pod<V>, pinned: Option<nat>, events: seq<Event<V>>, f: nat, a: nat, g: nat, b: nat)
    returns (entryA: nat, entryB: nat)
    requires IsRun(pod, pinned, events) && f < g && IsFinish(events, f, a) && IsFinish(events, g, b)
    ensures a != b && Finds(pod, pinned, events, a) && Finds(pod, pinned, events, b)
    ensures IsEntry(events, entryA, a) && IsEntry(events, entryB, b) && entryA < f && entryB < f && entryA != entryB
    ensures EntersDuring(events, a, b) || EntersDuring(events, b, a)
  {
    StateAfter(pod, pinned, events, f);
    StateAfter(pod, pinned, events, g);
    var readA, readB;
    entryA, readA := FlightHistory(pod, pinned, events, f, a);
    entryB, readB := FlightHistory(pod, pinned, events, g, b);
    FinishedStays(pod, pinned, events, f, g, a);
    if f < entryB { FinishedStays(pod, pinned, events, f, entryB, a); }
    assert entryB < f && entryA != entryB;
  }

  ghost predicate Rewound<V>(events: seq<Event<V>>, r: nat) {
    exists f: nat :: IsFinish(events, f, r)
  }

  ghost predicate Finds<V>(pod: Pod<V>, pinned: Option<nat>, events: seq<Event<V>>, r: nat)
    requires IsRun(pod, pinned, events)
  {
    exists k: nat :: FindsAt(pod, pinned, events, k, r)
  }

  /** Request `b` enters between the entry and the finish of request `a`. */
  ghost predicate EntersDuring<V>(events: seq<Event<V>>, b: nat, a: nat) {
    exists i: nat, k: nat, f: nat ::
      IsEntry(events, i, a) && IsEntry(events, k, b) && IsFinish(events, f, a) && i < k < f
  }

  lemma {:induction false} CountsFinishes<V>(events: seq<Event<V>>, f: nat, a: nat)
    requires IsFinish(events, f, a)
    ensures Rewinds(events) >= 1
    ensures forall g: nat, b: nat :: f < g && IsFinish(events, g, b) ==> Rewinds(events) >= 2
    decreases |events|
  {
    var init := events[..|events| - 1];
    if f < |init| {
      assert IsFinish(init, f, a);
      CountsFinishes(init, f, a);
      forall g: nat, b: nat | f < g && IsFinish(events, g, b) ensures Rewinds(events) >= 2 {
        assert g < |init| ==> IsFinish(init, g, b);
      }
    }
  }

  lemma {:induction false} FinishesAreFound<V>(events: seq<Event<V>>) returns (f: nat, a: nat, g: nat, b: nat)
    ensures Rewinds(events) >= 1 ==> IsFinish(events, g, b)
    ensures Rewinds(events) >= 2 ==> f < g && IsFinish(events, f, a)
    decreases |events|
  {
    f, a, g, b := 0, 0, 0, 0;
    if events != [] {
      var n := |events| - 1;
      var f0, a0, g0, b0 := FinishesAreFound(events[..n]);
      if events[n].Finish? {
        f, a, g, b := g0, b0, n, events[n].request;
      } else {
        f, a, g, b := f0, a0, g0, b0;
      }
    }
  }

  /**
   * Main result: once every request that entered is done, exactly one has rewound if and only if one has and no other
   * that finds the checkpoint entered between the entry and the finish of one that rewound.
   */
  lemma OneRewindIff<V>(pod: Pod<V>, pinned: Option<nat>, events: seq<Event<V>>)
    requires IsRun(pod, pinned, events) && Run(pod, pinned, events).value.inFlight == map[]
    ensures Rewinds(events) == 1 <==>
            (exists a :: Rewound(events, a))
            && forall a, b :: a != b && EntersDuring(events, b, a) ==> !Finds(pod, pinned, events, b)
  {
    assert events[..|events|] == events;
    if Rewinds(events) == 1 {
      var f, a, g, b := FinishesAreFound(events);
      assert Rewound(events, b);
      forall c, d | c != d && EntersDuring(events, d, c) ensures !Finds(pod, pinned, events, d) {
        if Finds(pod, pinned, events, d) { TwoRewind(pod, pinned, events, c, d); }
      }
    } else if Rewinds(events) >= 2 {
      var f, a, g, b := FinishesAreFound(events);
      var entryA, entryB := FinishersOverlap(pod, pinned, events, f, a, g, b);
    } else if a :| Rewound(events, a) {
      var f: nat :| IsFinish(events, f, a);
      CountsFinishes(events, f, a);
    }
  }

  lemma TwoRewind<V>(pod: Pod<V>, pinned: Option<nat>, events: seq<Event<V>>, a: nat, b: nat)
    requires IsRun(pod, pinned, events) && Run(pod, pinned, events).value.inFlight == map[]
    requires a != b && Rewound(events, a) && Finds(pod, pinned, events, b)
    ensures Rewinds(events) >= 2
  {
    assert events[..|events|] == events;
    var f: nat :| IsFinish(events, f, a);
    var k: nat :| FindsAt(pod, pinned, events, k, b);
    FinderGoesOn(pod, pinned, events, k, |events|, b);
    var g :| k < g < |events| && IsFinish(events, g, b);
    CountsFinishes(events, if f < g then f else g, if f < g then a else b);
  }

  /** And none rewinds if and only if none finds the checkpoint. */
  lemma NoRewindIff<V>(pod: Pod<V>, pinned: Option<nat>, events: seq<Event<V>>)
    requires IsRun(pod, pinned, events) && Run(pod, pinned, events).value.inFlight == map[]
    ensures Rewinds(events) == 0 <==> forall b :: !Finds(pod, pinned, events, b)
  {
    assert events[..|events|] == events;
    if b :| Finds(pod, pinned, events, b) {
      var k: nat :| FindsAt(pod, pinned, events, k, b);
      FinderGoesOn(pod, pinned, events, k, |events|, b);
      var f :| k < f < |events| && IsFinish(events, f, b);
      CountsFinishes(events, f, b);
    }
    if Rewinds(events) >= 1 {
      var f, a, g, b := FinishesAreFound(events);
      StateAfter(pod, pinned, events, g);
      var entry, read := FlightHistory(pod, pinned, events, g, b);
      assert Finds(pod, pinned, events, b);
    }
  }

  // ---- Two requests that overlap ----

  lemma OneMore<V>(pod: Pod<V>, pinned: Option<nat>, events: seq<Event<V>>, s: Pod<V>, e: Event<V>)
    returns (longer: seq<Event<V>>, after: Pod<V>)
    requires Run(pod, pinned, events) == Some(s) && Legal(s, e)
    ensures longer == events + [e] && after == Next(s, pinned, e) && Run(pod, pinned, longer) == Some(after)
    ensures Rewinds(longer) == Rewinds(events) + if e.Finish? then 1 else 0
  {
    longer, after := events + [e], Next(s, pinned, e);
    assert longer[..|events|] == events;
  }

  /** Both of two requests that enter before either has finished rewind the same thread. */
  lemma TwoRequestsRewind<V>(pod: Pod<V>, pinned: nat, sessionId: string, minted: nat)
    returns (events: seq<Event<V>>, end: Pod<V>)
    requires IsNew(pod) && pod.used == {} && pinned in ThreadOf(pod.threads, sessionId)
    requires IsFresh(ThreadOf(pod.threads, sessionId), minted)
    ensures events == [Enter(0, sessionId, true), Enter(1, sessionId, true), Load(0), Load(1),
                       Finish(0, minted), Finish(1, minted + 1)]
    ensures Run(pod, Some(pinned), events) == Some(end) && end.inFlight == map[] && Rewinds(events) == 2
    ensures IsHead(ThreadOf(end.threads, sessionId), minted + 1)
    ensures ThreadOf(end.threads, sessionId)[minted + 1].parent == Some(pinned)
  {
    events, end := [], pod;
    events, end := OneMore(pod, Some(pinned), events, end, Enter(0, sessionId, true));
    events, end := OneMore(pod, Some(pinned), events, end, Enter(1, sessionId, true));
    events, end := OneMore(pod, Some(pinned), events, end, Load(0));
    events, end := OneMore(pod, Some(pinned), events, end, Load(1));
    events, end := OneMore(pod, Some(pinned), events, end, Finish(0, minted));
    events, end := OneMore(pod, Some(pinned), events, end, Finish(1, minted + 1));
  }

  /** The graph may step while a request is between its read and its write: the fork is the head, above that step. */
  lemma StepDuringRewind<V>(pod: Pod<V>, pinned: nat, sessionId: string, head: nat, minted: nat, values: V)
    returns (events: seq<Event<V>>, end: Pod<V>)
    requires IsNew(pod) && pod.used == {} && pinned in ThreadOf(pod.threads, sessionId)
    requires IsHead(ThreadOf(pod.threads, sessionId), head) && IsFresh(ThreadOf(pod.threads, sessionId), minted)
    ensures events == [Enter(0, sessionId, true), Load(0),
                       Work(sessionId, GraphStep(Some(head), minted, values, Update, None)), Finish(0, minted + 1)]
    ensures Run(pod, Some(pinned), events) == Some(end) && end.inFlight == map[] && Rewinds(events) == 1
    ensures var rows := ThreadOf(end.threads, sessionId);
            IsHead(rows, minted + 1) && rows[minted + 1].parent == Some(pinned) && minted in rows
  {
    events, end := [], pod;
    events, end := OneMore(pod, Some(pinned), events, end, Enter(0, sessionId, true));
    events, end := OneMore(pod, Some(pinned), events, end, Load(0));
    events, end := OneMore(pod, Some(pinned), events, end,
                           Work(sessionId, GraphStep(Some(head), minted, values, Update, None)));
    events, end := OneMore(pod, Some(pinned), events, end, Finish(0, minted + 1));
  }

  /** A restarted process applies the same rewind again: another head with the same state and the same parent. */
  lemma RestartIsIdempotent<V>(rows: Rows<V>, target: nat, first: nat, second: nat)
    requires target in rows && IsFresh(rows, first) && first < second
    ensures var once := Forked(rows, target, first);
            && target in once
            && var twice := Forked(once, target, second);
            && IsHead(twice, second) && twice[second] == once[first]
  {
    RestoreMakesHead(rows, target, first);
    RestoreMakesHead(Forked(rows, target, first), target, second);
  }

  // ---- The module as it runs ----

  /** A request's own variables: what it waits for. */
  class PendingRequest<V(==)> {
    const sessionId: string
    var read: Option<Row<V>>

    constructor (sessionId: string)
      ensures this.sessionId == sessionId && read.None?
    {
      this.sessionId := sessionId;
      read := None;
    }

    ghost function Flight(): Flight<V>
      reads this
    {
      match read
      case None => Entered(sessionId)
      case Some(row) => Loaded(sessionId, row)
    }
  }

  class Process<V(==)> {
    const pinned: Option<nat>
    var applied: bool

    constructor (pinned: Option<nat>)
      ensures this.pinned == pinned && !applied
    {
      this.pinned := pinned;
      applied := false;
    }

    /** The request up to its first wait: whether it goes on to read. */
    method EnterRequest(checkpointer: Checkpointer?<V>, sessionId: string) returns (request: PendingRequest?<V>)
      ensures request != null <==> !applied && checkpointer != null && pinned.Some?
      ensures request != null ==> fresh(request) && request.Flight() == Entered(sessionId)
    {
      if applied || checkpointer == null {
        return null;
      }
      if pinned.None? {
        return null;
      }
      request := new PendingRequest(sessionId);
    }

    /** The read: a thread without the pinned checkpoint fails the request. */
    method LoadRequest(checkpointer: Checkpointer<V>, request: PendingRequest<V>) returns (error: Option<RestoreError>)
      requires pinned.Some? && request.read.None?
      modifies request
      ensures var rows := checkpointer.Thread(request.sessionId);
              if pinned.value in rows then
                error.None? && request.Flight() == Loaded(request.sessionId, rows[pinned.value])
              else error == Some(NotFound(pinned.value))
    {
      var read := LoadTarget(checkpointer, request.sessionId, pinned.value);
      match read {
        case Failure(e) =>
          error := Some(e);
        case Success(row) =>
          request.read := Some(row);
          error := None;
      }
    }

    /** The write, and only then the flag. */
    method FinishRequest(checkpointer: Checkpointer<V>, request: PendingRequest<V>, minted: nat)
      requires pinned.Some? && request.Flight().Loaded?
      modifies this, checkpointer
      ensures applied
      ensures checkpointer.threads ==
              old(checkpointer.threads)[request.sessionId :=
                ForkOf(old(checkpointer.Thread(request.sessionId)), pinned.value, request.Flight().read, minted)]
    {
      WriteFork(checkpointer, request.sessionId, pinned.value, request.read.value, minted);
      applied := true;
    }
  }
}
