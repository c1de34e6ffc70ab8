/**
 * Background jobs reach the agent through its `pending_jobs` (core/middleware/background_jobs/middleware.py).
 *
 * `Union` and `Without` are the two halves of the state's merge reducer. A tool step runs tool calls
 * and subagents in parallel, each from the list as it was when the step began; a subagent runs steps
 * of its own and hands back its whole list. The main result: what the agent is told is every
 * started job, once, and only after it finished.
 */
module BackgroundJobs {
  import opened Wrappers
  import opened Sequences

  // ---- The merge reducer ----

  datatype Update = Add(ids: seq<string>) | Remove(removed: set<string>)

  function WithId(current: seq<string>, id: string): seq<string> {
    if id in current then current else current + [id]
  }

  function Union(current: seq<string>, ids: seq<string>): seq<string> {
    if ids == [] then current
    else WithId(Union(current, ids[..|ids| - 1]), ids[|ids| - 1])
  }

  function Without(current: seq<string>, removed: set<string>): seq<string> {
    if current == [] then []
    else
      var before := Without(current[..|current| - 1], removed);
      var last := current[|current| - 1];
      if last in removed then before else before + [last]
  }

  function Merge(current: seq<string>, update: Update): seq<string> {
    match update
    case Add(ids) => Union(current, ids)
    case Remove(ids) => Without(current, ids)
  }

  method MergePendingJobs(current: Option<seq<string>>, update: Update) returns (ids: seq<string>)
    ensures ids == Merge(if current.Some? then current.value else [], update)
  {
    ids := if current.Some? then current.value else [];
    var was := ids;
    match update {
      case Remove(removed) =>
        ids := [];
        for i := 0 to |was|
          invariant ids == Without(was[..i], removed)
        {
          assert was[..i + 1][..i] == was[..i];
          if was[i] !in removed { ids := ids + [was[i]]; }
        }
        assert was[..|was|] == was;
      case Add(more) =>
        for i := 0 to |more|
          invariant ids == Union(was, more[..i])
        {
          assert more[..i + 1][..i] == more[..i];
          if more[i] !in ids { ids := ids + [more[i]]; }
        }
        assert more[..|more|] == more;
    }
  }

  lemma {:induction false} UnionMeaning(current: seq<string>, ids: seq<string>)
    ensures forall id :: id in Union(current, ids) <==> id in current || id in ids
    ensures NoDup(current) ==> NoDup(Union(current, ids))
    ensures current <= Union(current, ids)
    decreases |ids|
  {
    if ids != [] {
      UnionMeaning(current, ids[..|ids| - 1]);
      assert forall id :: id in ids <==> id in ids[..|ids| - 1] || id == ids[|ids| - 1];
    }
  }

  lemma {:induction false} WithoutMeaning(current: seq<string>, removed: set<string>)
    ensures forall id :: id in Without(current, removed) <==> id in current && id !in removed
    ensures NoDup(current) ==> NoDup(Without(current, removed))
    decreases |current|
  {
    if current != [] {
      var init := current[..|current| - 1];
      WithoutMeaning(init, removed);
      assert forall id :: id in current <==> id in init || id == current[|current| - 1];
    }
  }

  // ---- The jobs a tool result reports as started ----

  /** The fields read from one JSON object of a tool's text; None where the key is missing or not a string. */
  datatype JobObject = JobObject(status: Option<string>, runId: Option<string>)

  predicate Queued(o: JobObject) {
    o.status == Some("QUEUED") && o.runId.Some? && o.runId.value != ""
  }

  function QueuedIds(objects: seq<JobObject>): seq<string> {
    if objects == [] then []
    else
      var before := QueuedIds(objects[..|objects| - 1]);
      var last := objects[|objects| - 1];
      if Queued(last) then before + [last.runId.value] else before
  }

  lemma {:induction false} QueuedIdsMeaning(objects: seq<JobObject>)
    ensures forall id :: id in QueuedIds(objects) <==> id != "" && JobObject(Some("QUEUED"), Some(id)) in objects
  {
    if objects != [] {
      var before, last := objects[..|objects| - 1], objects[|objects| - 1];
      QueuedIdsMeaning(before);
      assert objects == before + [last];
    }
  }

  /** Every started job, once, in the order the text first names it. */
  method StartedJobs(objects: seq<JobObject>) returns (runIds: seq<string>)
    ensures runIds == Union([], QueuedIds(objects))
    ensures NoDup(runIds)
    ensures forall id :: id in runIds <==> id != "" && JobObject(Some("QUEUED"), Some(id)) in objects
  {
    runIds := [];
    for i := 0 to |objects|
      invariant runIds == Union([], QueuedIds(objects[..i]))
    {
      var o := objects[i];
      assert objects[..i + 1][..i] == objects[..i];
      if o.status == Some("QUEUED") && o.runId.Some? && o.runId.value != "" {
        var before := QueuedIds(objects[..i]);
        assert (before + [o.runId.value])[..|before|] == before;
        if o.runId.value !in runIds {
          runIds := runIds + [o.runId.value];
        }
      }
    }
    assert objects[..|objects|] == objects;
    QueuedIdsMeaning(objects);
    UnionMeaning([], QueuedIds(objects));
  }

  // ---- Tool steps ----

  datatype List<T> = Nil | Cons(head: T, tail: List<T>)

  /** One of the calls a step runs in parallel. */
  datatype Work = ToolCall(started: seq<string>) | Subagent(steps: List<List<Work>>)

  /** The list a piece of work hands to the reducer, having been given `given`. */
  function Returned(w: Work, given: seq<string>): seq<string>
    decreases w
  {
    match w
    case ToolCall(started) => started
    case Subagent(steps) => AfterSteps(steps, given)
  }

  function AfterSteps(steps: List<List<Work>>, pending: seq<string>): seq<string>
    decreases steps
  {
    match steps
    case Nil => pending
    case Cons(step, rest) => AfterSteps(rest, AfterStep(step, pending, pending))
  }

  /** The reducer applied to the updates of a step's works, each of which started from `given`. */
  function AfterStep(works: List<Work>, given: seq<string>, pending: seq<string>): seq<string>
    decreases works
  {
    match works
    case Nil => pending
    case Cons(w, rest) => AfterStep(rest, given, Union(pending, Returned(w, given)))
  }

  /** The ids the tool calls of a step started, at any depth. */
  ghost function StartedBy(w: Work): set<string>
    decreases w
  {
    match w
    case ToolCall(started) => Elements(started)
    case Subagent(steps) => StartedInSteps(steps)
  }

  ghost function StartedInSteps(steps: List<List<Work>>): set<string>
    decreases steps
  {
    match steps
    case Nil => {}
    case Cons(step, rest) => StartedInStep(step) + StartedInSteps(rest)
  }

  ghost function StartedInStep(works: List<Work>): set<string>
    decreases works
  {
    match works
    case Nil => {}
    case Cons(w, rest) => StartedBy(w) + StartedInStep(rest)
  }

  lemma {:induction false} ReturnedMeaning(w: Work, given: seq<string>)
    ensures StartedBy(w) <= Elements(Returned(w, given)) <= StartedBy(w) + Elements(given)
    ensures w.Subagent? && NoDup(given) ==> NoDup(Returned(w, given))
    decreases w
  {
    if w.Subagent? { StepsMeaning(w.steps, given); }
  }

  lemma {:induction false} StepsMeaning(steps: List<List<Work>>, pending: seq<string>)
    ensures Elements(AfterSteps(steps, pending)) == Elements(pending) + StartedInSteps(steps)
    ensures NoDup(pending) ==> NoDup(AfterSteps(steps, pending))
    decreases steps
  {
    if steps.Cons? {
      StepMeaning(steps.head, pending, pending);
      StepsMeaning(steps.tail, AfterStep(steps.head, pending, pending));
    }
  }

  /** Parallel works that echo what they were given add exactly what they started, once each, in order. */
  lemma {:induction false} StepMeaning(works: List<Work>, given: seq<string>, pending: seq<string>)
    requires Elements(given) <= Elements(pending)
    ensures Elements(AfterStep(works, given, pending)) == Elements(pending) + StartedInStep(works)
    ensures NoDup(pending) ==> NoDup(AfterStep(works, given, pending))
    ensures pending <= AfterStep(works, given, pending)
    decreases works
  {
    if works.Cons? {
      var returned := Returned(works.head, given);
      var next := Union(pending, returned);
      ReturnedMeaning(works.head, given);
      UnionMeaning(pending, returned);
      assert Elements(next) == Elements(pending) + Elements(returned);
      StepMeaning(works.tail, given, next);
    }
  }

  // ---- Reporting ----

  datatype Run = Run(status: string, hasOutcome: bool)

  predicate IsFinished(run: Option<Run>) {
    run.None? || run.value.hasOutcome || run.value.status == "failed" || run.value.status == "cancelled"
  }

  function Lookup(runs: map<string, Run>, id: string): Option<Run> {
    if id in runs then Some(runs[id]) else None
  }

  /** The pending jobs that have finished, in the order they were started. */
  function FinishedJobs(runs: map<string, Run>, pending: seq<string>): seq<string> {
    if pending == [] then []
    else
      var before := FinishedJobs(runs, pending[..|pending| - 1]);
      var last := pending[|pending| - 1];
      if IsFinished(Lookup(runs, last)) then before + [last] else before
  }

  lemma {:induction false} FinishedMeaning(runs: map<string, Run>, pending: seq<string>)
    ensures forall id :: id in FinishedJobs(runs, pending) <==> id in pending && IsFinished(Lookup(runs, id))
    ensures NoDup(pending) ==> NoDup(FinishedJobs(runs, pending))
    decreases |pending|
  {
    if pending != [] {
      var init := pending[..|pending| - 1];
      FinishedMeaning(runs, init);
      assert forall id :: id in pending <==> id in init || id == pending[|pending| - 1];
    }
  }

  /**
   * What finished means: the run is gone, or its outcome is recorded, or it failed or was cancelled. The completed
   * status alone is not enough.
   */
  lemma FinishedJobsIff(runs: map<string, Run>, pending: seq<string>, id: string)
    ensures id in FinishedJobs(runs, pending) <==>
            id in pending
            && (id !in runs || runs[id].hasOutcome || runs[id].status == "failed" || runs[id].status == "cancelled")
  {
    FinishedMeaning(runs, pending);
  }

  /** They keep the order they were started in. */
  lemma {:induction false} FinishedInOrder(runs: map<string, Run>, a: seq<string>, b: seq<string>)
    ensures FinishedJobs(runs, a + b) == FinishedJobs(runs, a) + FinishedJobs(runs, b)
    decreases |b|
  {
    if b == [] {
      assert a + b == a;
    } else {
      FinishedInOrder(runs, a, b[..|b| - 1]);
      assert (a + b)[..|a + b| - 1] == a + b[..|b| - 1];
    }
  }

  method FindFinished(runs: map<string, Run>, pending: seq<string>) returns (finished: seq<string>)
    ensures finished == FinishedJobs(runs, pending)
  {
    finished := [];
    for i := 0 to |pending|
      invariant finished == FinishedJobs(runs, pending[..i])
    {
      assert pending[..i + 1][..i] == pending[..i];
      var id := pending[i];
      if id !in runs || runs[id].hasOutcome || runs[id].status == "failed" || runs[id].status == "cancelled" {
        finished := finished + [id];
      }
    }
    assert pending[..|pending|] == pending;
  }

  // ---- The main agent over a whole history ----

  /** `reported` is every outcome message the agent was given, in order. */
  datatype Agent = Agent(pending: seq<string>, reported: seq<string>)

  datatype Op = ToolStep(works: List<Work>) | ModelCall(runs: map<string, Run>)

  function Report(a: Agent, runs: map<string, Run>): Agent {
    var finished := FinishedJobs(runs, a.pending);
    Agent(Without(a.pending, set id | id in finished), a.reported + finished)
  }

  function Step(a: Agent, op: Op): Agent {
    match op
    case ToolStep(works) => a.(pending := AfterStep(works, a.pending, a.pending))
    case ModelCall(runs) => Report(a, runs)
  }

  function History(ops: seq<Op>): Agent {
    if ops == [] then Agent([], [])
    else Step(History(ops[..|ops| - 1]), ops[|ops| - 1])
  }

  ghost function StartedIn(ops: seq<Op>): set<string> {
    if ops == [] then {}
    else
      StartedIn(ops[..|ops| - 1])
      + if ops[|ops| - 1].ToolStep? then StartedInStep(ops[|ops| - 1].works) else {}
  }

  /** Pending is what was started and not yet reported; nothing is pending or reported twice. */
  ghost predicate Ledger(a: Agent, started: set<string>) {
    && NoDup(a.pending)
    && NoDup(a.reported)
    && Elements(a.reported) <= started
    && Elements(a.pending) == started - Elements(a.reported)
  }

  /** A tool step keeps the ledger exactly when it starts no job that was already reported. */
  lemma ToolStepKeepsLedgerIff(a: Agent, works: List<Work>, started: set<string>)
    requires Ledger(a, started)
    ensures Ledger(Step(a, ToolStep(works)), started + StartedInStep(works)) <==>
            StartedInStep(works) !! Elements(a.reported)
  {
    StepMeaning(works, a.pending, a.pending);
    var after := Step(a, ToolStep(works));
    assert Elements(after.pending) == Elements(a.pending) + StartedInStep(works);
    if !(StartedInStep(works) !! Elements(a.reported)) {
      var id :| id in StartedInStep(works) && id in a.reported;
      assert id in Elements(after.pending);
    }
  }

  /**
   * A model call reports the finished jobs among the pending ones, each for the first time, and keeps the others
   * pending.
   */
  lemma ModelCallKeepsLedger(a: Agent, runs: map<string, Run>, started: set<string>)
    requires Ledger(a, started)
    ensures Ledger(Report(a, runs), started)
    ensures forall id :: id in Report(a, runs).reported <==>
              id in a.reported
              || (id in a.pending
                  && (id !in runs || runs[id].hasOutcome
                      || runs[id].status == "failed" || runs[id].status == "cancelled"))
    ensures forall id :: id in Report(a, runs).pending ==>
              id in runs && !runs[id].hasOutcome && runs[id].status != "failed" && runs[id].status != "cancelled"
  {
    var finished := FinishedJobs(runs, a.pending);
    FinishedMeaning(runs, a.pending);
    WithoutMeaning(a.pending, set id | id in finished);
    var reported := a.reported + finished;
    assert Elements(finished) <= Elements(a.pending);
    assert Elements(reported) == Elements(a.reported) + Elements(finished);
    assert Elements(Report(a, runs).pending) == Elements(a.pending) - Elements(finished);
    forall j, k | 0 <= j < k < |reported| ensures reported[j] != reported[k] {
      if j < |a.reported| <= k {
        assert reported[k] in a.pending && reported[k] in Elements(a.pending);
      }
    }
  }

  /** After a model call nothing pending has finished, and everything pending that had is reported. */
  lemma ModelCallReportsAll(ops: seq<Op>, runs: map<string, Run>, id: string)
    requires id in History(ops).pending
    ensures var after := History(ops + [ModelCall(runs)]);
            if id !in runs || runs[id].hasOutcome || runs[id].status == "failed" || runs[id].status == "cancelled"
            then id in after.reported && id !in after.pending
            else id in after.pending
  {
    assert (ops + [ModelCall(runs)])[..|ops|] == ops;
    var a := History(ops);
    FinishedMeaning(runs, a.pending);
    WithoutMeaning(a.pending, set i | i in FinishedJobs(runs, a.pending));
  }

  /**
   * Main result: over any history, pending is started minus reported and no job is reported twice, if no tool
   * starts a run that was already reported.
   */
  lemma {:induction false} JobsAreReportedOnce(ops: seq<Op>)
    requires forall k :: 0 <= k < |ops| && ops[k].ToolStep? ==>
               StartedInStep(ops[k].works) !! Elements(History(ops[..k]).reported)
    ensures var a := History(ops);
            && NoDup(a.pending) && NoDup(a.reported) && Elements(a.reported) <= StartedIn(ops)
            && Elements(a.pending) == StartedIn(ops) - Elements(a.reported)
    ensures Ledger(History(ops), StartedIn(ops))
    decreases |ops|
  {
    if ops != [] {
      var n := |ops| - 1;
      var init := ops[..n];
      forall k | 0 <= k < n && init[k].ToolStep?
        ensures StartedInStep(init[k].works) !! Elements(History(init[..k]).reported)
      {
        assert init[..k] == ops[..k] && init[k] == ops[k];
      }
      JobsAreReportedOnce(init);
      match ops[n]
      case ToolStep(works) => ToolStepKeepsLedgerIff(History(init), works, StartedIn(init));
      case ModelCall(runs) => ModelCallKeepsLedger(History(init), runs, StartedIn(init));
    }
  }
}
