/**
 * Rewinding a thread to an earlier checkpoint (core/restore/checkpoint.py).
 *
 * A thread's checkpoints are rows keyed by id; the head is the row with the greatest id, and a fresh id is
 * above every existing one. What a checkpoint holds is the type parameter `V`.
 */
module Checkpoints {
  import opened Wrappers

  datatype Source = Input | Loop | Update

  /** `paused` stands for a pending write on the interrupt channel: it is stored beside the row, not in it. */
  datatype Row<V> = Row(parent: Option<nat>, values: V, source: Source, step: Option<int>, paused: bool)

  type Rows<V> = map<nat, Row<V>>

  datatype RestoreError = NoCheckpointer | NotFound(checkpointId: nat)

  predicate IsHead<V>(rows: Rows<V>, id: nat) {
    id in rows && forall j :: j in rows ==> j <= id
  }

  predicate IsFresh<V>(rows: Rows<V>, id: nat) {
    forall j :: j in rows ==> j < id
  }

  // ---- The store and the restore ----

  /** Writing a row that exists replaces what it holds and leaves its parent and its pending writes alone. */
  function Put<V>(rows: Rows<V>, id: nat, parent: Option<nat>, values: V, source: Source, step: Option<int>): Rows<V> {
    rows[id := if id in rows then rows[id].(values := values, source := source, step := step)
               else Row(parent, values, source, step, false)]
  }

  function NextStep(step: Option<int>): Option<int> {
    if step.Some? then Some(step.value + 1) else None
  }

  /** A new checkpoint with what was read of the target, and the target as parent. */
  function ForkOf<V>(rows: Rows<V>, target: nat, read: Row<V>, minted: nat): Rows<V> {
    Put(rows, minted, Some(target), read.values, Update, NextStep(read.step))
  }

  /** The target forked into a new checkpoint. */
  function Forked<V>(rows: Rows<V>, target: nat, minted: nat): Rows<V>
    requires target in rows
  {
    ForkOf(rows, target, rows[target], minted)
  }

  function Restored<V>(rows: Rows<V>, target: nat, minted: nat): Result<Rows<V>, RestoreError> {
    if target in rows then Success(Forked(rows, target, minted)) else Failure(NotFound(target))
  }

  /**
   * A restore makes a head with the target's state and the target as parent, no question open, and changes no
   * other row.
   */
  lemma RestoreMakesHead<V>(rows: Rows<V>, target: nat, minted: nat)
    requires target in rows && IsFresh(rows, minted)
    ensures var after := Forked(rows, target, minted);
            && after.Keys == rows.Keys + {minted} && IsHead(after, minted)
            && after[minted].values == rows[target].values && after[minted].parent == Some(target)
            && after[minted].source == Update && !after[minted].paused
            && forall id :: id in rows ==> after[id] == rows[id]
  {
  }

  /** Why the target is forked: writing it again under its own id leaves the thread where it was. */
  lemma WritingTheTargetAgainIsNoRestore<V>(rows: Rows<V>, target: nat, parent: Option<nat>, values: V,
      source: Source, step: Option<int>)
    requires target in rows
    ensures var after := Put(rows, target, parent, values, source, step);
            && after.Keys == rows.Keys && (forall head :: IsHead(after, head) <==> IsHead(rows, head))
            && (values == rows[target].values ==> forall id :: id in rows ==> after[id].values == rows[id].values)
  {
    var after := Put(rows, target, parent, values, source, step);
    assert after.Keys == rows.Keys;
  }

  // ---- A thread's history ----

  datatype Op<V> =
    // The graph takes a step from the head, or starts the thread.
    | GraphStep(head: Option<nat>, minted: nat, values: V, source: Source, step: Option<int>)
    // The graph pauses at the head on a question.
    | Pause(at: nat)
    | Restore(target: nat, minted: nat)

  predicate Legal<V>(rows: Rows<V>, op: Op<V>) {
    match op
    case GraphStep(head, minted, _, _, _) =>
      IsFresh(rows, minted) && (if head.Some? then IsHead(rows, head.value) else rows == map[])
    case Pause(at) => IsHead(rows, at)
    case Restore(_, minted) => IsFresh(rows, minted)
  }

  function Step<V>(rows: Rows<V>, op: Op<V>): Rows<V> {
    match op
    case GraphStep(head, minted, values, source, step) => Put(rows, minted, head, values, source, step)
    case Pause(at) => if at in rows then rows[at := rows[at].(paused := true)] else rows
    case Restore(target, minted) =>
      match Restored(rows, target, minted)
      case Success(after) => after
      case Failure(_) => rows
  }

  function Run<V>(rows: Rows<V>, ops: seq<Op<V>>): Rows<V> {
    if ops == [] then rows else Step(Run(rows, ops[..|ops| - 1]), ops[|ops| - 1])
  }

  ghost predicate LegalRun<V>(rows: Rows<V>, ops: seq<Op<V>>) {
    ops == [] ||
    (LegalRun(rows, ops[..|ops| - 1]) && Legal(Run(rows, ops[..|ops| - 1]), ops[|ops| - 1]))
  }

  /** Every parent is an existing, strictly older checkpoint. */
  predicate ParentsAreOlder<V>(rows: Rows<V>) {
    forall id :: id in rows && rows[id].parent.Some? ==> rows[id].parent.value in rows && rows[id].parent.value < id
  }

  /** `after` still holds every checkpoint of `before`; only a pause can have been recorded beside one. */
  ghost predicate Keeps<V>(before: Rows<V>, after: Rows<V>) {
    forall id :: id in before ==> id in after && after[id].(paused := before[id].paused) == before[id]
  }

  lemma StepIsSafe<V>(rows: Rows<V>, op: Op<V>)
    requires Legal(rows, op)
    ensures ParentsAreOlder(rows) ==> ParentsAreOlder(Step(rows, op))
    ensures Keeps(rows, Step(rows, op))
  {
  }

  /**
   * Main result: over any history of steps, pauses and restores, parents are strictly older and no checkpoint
   * changes.
   */
  lemma {:induction false} HistoryIsSafe<V>(rows: Rows<V>, ops: seq<Op<V>>)
    requires LegalRun(rows, ops)
    ensures ParentsAreOlder(rows) ==> ParentsAreOlder(Run(rows, ops))
    ensures Keeps(rows, Run(rows, ops))
    decreases |ops|
  {
    if ops != [] {
      var init := ops[..|ops| - 1];
      HistoryIsSafe(rows, init);
      StepIsSafe(Run(rows, init), ops[|ops| - 1]);
      var before, after := Run(rows, init), Run(rows, ops);
      forall id | id in rows ensures id in after && after[id].(paused := rows[id].paused) == rows[id] {
        assert after[id].(paused := before[id].paused) == before[id];
      }
    }
  }

  /** Reading the target and writing the fork may be apart: nothing that happens in between changes what is written. */
  lemma ForkOfAnEarlierRead<V>(before: Rows<V>, rows: Rows<V>, target: nat, minted: nat)
    requires Keeps(before, rows) && target in before
    ensures target in rows && ForkOf(rows, target, before[target], minted) == Forked(rows, target, minted)
  {
    assert rows[target].(paused := before[target].paused) == before[target];
  }

  /**
   * A restore can itself be undone, however much happened since: restoring the head it replaced makes a head with that
   * head's values and the step after its own, marked as an update and never paused, so an open question it had is lost.
   */
  lemma RestoreCanBeUndone<V>(rows: Rows<V>, previous: nat, target: nat, minted: nat, since: seq<Op<V>>, again: nat)
    requires IsHead(rows, previous) && target in rows && IsFresh(rows, minted)
    requires LegalRun(Forked(rows, target, minted), since) && IsFresh(Run(Forked(rows, target, minted), since), again)
    ensures var later := Run(Forked(rows, target, minted), since);
            && previous in later
            && var after := Forked(later, previous, again);
            && IsHead(after, again)
            && after[again] == Row(Some(previous), rows[previous].values, Update, NextStep(rows[previous].step), false)
  {
    RestoreMakesHead(rows, target, minted);
    HistoryIsSafe(Forked(rows, target, minted), since);
    var later := Run(Forked(rows, target, minted), since);
    assert later[previous].(paused := rows[previous].paused) == rows[previous];
    RestoreMakesHead(later, previous, again);
  }

  /** What each operation of a history does to the thread: nothing but its own row, and a new row is the head. */
  lemma LastOperation<V>(rows: Rows<V>, ops: seq<Op<V>>, op: Op<V>)
    requires LegalRun(rows, ops + [op])
    ensures var before, after := Run(rows, ops), Run(rows, ops + [op]);
            && (op.GraphStep? ==>
                  && IsHead(after, op.minted)
                  && after == before[op.minted := Row(op.head, op.values, op.source, op.step, false)])
            && (op.Pause? ==> op.at in before && after == before[op.at := before[op.at].(paused := true)])
            && (op.Restore? && op.target !in before ==> after == before)
            && (op.Restore? && op.target in before ==>
                  && IsHead(after, op.minted)
                  && after.Keys == before.Keys + {op.minted}
                  && (forall id :: id in before ==> after[id] == before[id])
                  && after[op.minted].parent == Some(op.target)
                  && after[op.minted].values == before[op.target].values
                  && after[op.minted].source == Update && !after[op.minted].paused
                  && (before[op.target].step.Some? ==>
                        after[op.minted].step == Some(before[op.target].step.value + 1))
                  && (before[op.target].step.None? ==> after[op.minted].step.None?))
  {
    assert (ops + [op])[..|ops|] == ops;
  }

  lemma LegalMore<V>(rows: Rows<V>, ops: seq<Op<V>>, op: Op<V>)
    requires LegalRun(rows, ops) && Legal(Run(rows, ops), op)
    ensures LegalRun(rows, ops + [op]) && Run(rows, ops + [op]) == Step(Run(rows, ops), op)
  {
    assert (ops + [op])[..|ops|] == ops;
  }

  /** There is always a fresh id. */
  lemma {:induction false} SomeIdIsFresh<V>(rows: Rows<V>) returns (id: nat)
    ensures IsFresh(rows, id)
    decreases rows.Keys
  {
    if rows == map[] {
      id := 0;
    } else {
      var j :| j in rows;
      var rest := rows - {j};
      assert j in rows.Keys && j !in rest.Keys && rest.Keys <= rows.Keys;
      id := SomeIdIsFresh(rest);
      if id <= j { id := j + 1; }
      assert forall i :: i in rows ==> i == j || i in rest;
    }
  }

  /** A graph can pause at its head, and restoring that head drops the question: the new head has its values alone. */
  lemma RestoreDropsTheQuestion<V>(rows: Rows<V>, head: nat, minted: nat) returns (ops: seq<Op<V>>)
    requires IsHead(rows, head) && IsFresh(rows, minted)
    ensures ops == [Pause(head), Restore(head, minted)] && LegalRun(rows, ops)
    ensures var after := Run(rows, ops);
            && IsHead(after, minted) && head in after && after[head].paused && !after[minted].paused
            && after[minted].values == rows[head].values
  {
    LegalMore(rows, [], Pause(head));
    LegalMore(rows, [] + [Pause(head)], Restore(head, minted));
    ops := [] + [Pause(head)] + [Restore(head, minted)];
    RestoreMakesHead(Step(rows, Pause(head)), head, minted);
  }

  // ---- Lineage ----

  /** A checkpoint and its ancestors, newest first. */
  function Lineage<V>(rows: Rows<V>, id: nat): seq<nat>
    requires ParentsAreOlder(rows) && id in rows
    decreases id
  {
    [id] + if rows[id].parent.Some? then Lineage(rows, rows[id].parent.value) else []
  }

  lemma {:induction false} LineageIsOlder<V>(rows: Rows<V>, id: nat, k: nat)
    requires ParentsAreOlder(rows) && id in rows && k < |Lineage(rows, id)|
    ensures Lineage(rows, id)[k] in rows && Lineage(rows, id)[k] <= id
    decreases id
  {
    if k > 0 { LineageIsOlder(rows, rows[id].parent.value, k - 1); }
  }

  lemma {:induction false} LineageIsKept<V>(before: Rows<V>, after: Rows<V>, id: nat)
    requires ParentsAreOlder(before) && ParentsAreOlder(after) && Keeps(before, after) && id in before
    ensures Lineage(after, id) == Lineage(before, id)
    decreases id
  {
    assert after[id].(paused := before[id].paused) == before[id];
    if before[id].parent.Some? { LineageIsKept(before, after, before[id].parent.value); }
  }

  /**
   * After a restore the head's ancestors are the target's: every checkpoint made after the target is out of the
   * lineage.
   */
  lemma RestoredLineage<V>(rows: Rows<V>, target: nat, minted: nat, later: nat)
    requires ParentsAreOlder(rows) && target in rows && IsFresh(rows, minted)
    ensures var after := Forked(rows, target, minted);
            && ParentsAreOlder(after)
            && Lineage(after, minted) == [minted] + Lineage(rows, target)
            && (target < later < minted ==> later !in Lineage(after, minted))
  {
    var after := Forked(rows, target, minted);
    StepIsSafe(rows, Op<V>.Restore(target, minted));
    assert after[minted].parent == Some(target);
    LineageIsKept(rows, after, target);
    if target < later < minted && later in Lineage(rows, target) {
      var k :| 0 <= k < |Lineage(rows, target)| && Lineage(rows, target)[k] == later;
      LineageIsOlder(rows, target, k);
    }
  }

  // ---- The checkpointer ----

  class Checkpointer<V(==)> {
    var threads: map<string, Rows<V>>

    ghost function Thread(sessionId: string): Rows<V>
      reads this
    {
      if sessionId in threads then threads[sessionId] else map[]
    }

    constructor ()
      ensures threads == map[]
    {
      threads := map[];
    }

    method GetTuple(sessionId: string, checkpointId: nat) returns (row: Option<Row<V>>)
      ensures row == if checkpointId in Thread(sessionId) then Some(Thread(sessionId)[checkpointId]) else None
    {
      if sessionId in threads && checkpointId in threads[sessionId] {
        return Some(threads[sessionId][checkpointId]);
      }
      return None;
    }

    method PutRow(sessionId: string, id: nat, parent: Option<nat>, values: V, source: Source, step: Option<int>)
      modifies this
      ensures threads == old(threads)[sessionId := Put(old(Thread(sessionId)), id, parent, values, source, step)]
      // Writing a checkpoint again under its own id leaves the thread where it was.
      ensures old(id in Thread(sessionId)) ==>
                forall head :: IsHead(Thread(sessionId), head) <==> IsHead(old(Thread(sessionId)), head)
    {
      var rows := if sessionId in threads then threads[sessionId] else map[];
      if id in rows { WritingTheTargetAgainIsNoRestore(rows, id, parent, values, source, step); }
      var row := if id in rows then rows[id].(values := values, source := source, step := step)
                 else Row(parent, values, source, step, false);
      threads := threads[sessionId := rows[id := row]];
    }
  }

  /** The first half of a restore, up to the read of the target. */
  method LoadTarget<V(==)>(checkpointer: Checkpointer<V>, sessionId: string, checkpointId: nat)
    returns (read: Result<Row<V>, RestoreError>)
    ensures read ==
            if checkpointId in checkpointer.Thread(sessionId) then Success(checkpointer.Thread(sessionId)[checkpointId])
                    else Failure(NotFound(checkpointId))
  {
    var target := checkpointer.GetTuple(sessionId, checkpointId);
    return if target.None? then Failure(NotFound(checkpointId)) else Success(target.value);
  }

  /** The second half: the write of the fork. */
  method WriteFork<V(==)>(checkpointer: Checkpointer<V>, sessionId: string, checkpointId: nat, read: Row<V>,
                          minted: nat)
    modifies checkpointer
    ensures checkpointer.threads ==
            old(checkpointer.threads)[
              sessionId := ForkOf(old(checkpointer.Thread(sessionId)), checkpointId, read, minted)]
  {
    var step := read.step;
    if step.Some? {
      step := Some(step.value + 1);
    }
    checkpointer.PutRow(sessionId, minted, Some(checkpointId), read.values, Update, step);
  }

  /**
   * `minted` is the fresh id the fork is given. The thread is changed only by a restore that succeeds, and other
   * threads never.
   */
  method ApplyCheckpointRestore<V(==)>(checkpointer: Checkpointer?<V>, sessionId: string, checkpointId: nat,
      minted: nat)
    returns (outcome: Result<nat, RestoreError>)
    modifies if checkpointer == null then {} else {checkpointer}
    ensures checkpointer == null ==> outcome == Failure(NoCheckpointer)
    ensures checkpointer != null ==>
              match Restored(old(checkpointer.Thread(sessionId)), checkpointId, minted)
              case Success(after) =>
                outcome == Success(minted) && checkpointer.threads == old(checkpointer.threads)[sessionId := after]
              case Failure(error) => outcome == Failure(error) && checkpointer.threads == old(checkpointer.threads)
    ensures checkpointer != null && outcome.Success? && IsFresh(old(checkpointer.Thread(sessionId)), minted) ==>
              IsHead(checkpointer.Thread(sessionId), minted) && !checkpointer.Thread(sessionId)[minted].paused
  {
    if checkpointer == null {
      return Failure(NoCheckpointer);
    }
    var read := LoadTarget(checkpointer, sessionId, checkpointId);
    match read {
      case Failure(error) =>
        return Failure(error);
      case Success(target) =>
        WriteFork(checkpointer, sessionId, checkpointId, target, minted);
        return Success(minted);
    }
  }
}
