/**
 * Closing the calls of a turn the user stopped (core/persistence/message_writer.py,
 * `_unanswered_calls` and `record_stopped_steps`).
 */
module StoppedTurn {
  import opened Wrappers
  import opened Sequences
  import opened ChatStore

  // ---- The current turn ----

  predicate StartsTurn(row: Row) {
    row.role == User && row.source != SUBAGENT
  }

  /** COALESCE(MAX(sequence), -1) over the rows that start a turn. */
  function Boundary(rows: Rows): int {
    if rows == [] then -1
    else
      var last := rows[|rows| - 1];
      var rest := Boundary(rows[..|rows| - 1]);
      if StartsTurn(last) && last.sequence > rest then last.sequence else rest
  }

  function RowsAbove(rows: Rows, sequence: int): Rows {
    if rows == [] then []
    else
      var before, last := RowsAbove(rows[..|rows| - 1], sequence), rows[|rows| - 1];
      if last.sequence > sequence then before + [last] else before
  }

  function CurrentTurn(rows: Rows): Rows {
    RowsAbove(rows, Boundary(rows))
  }

  // ---- Unanswered calls ----

  /** A call without a result, with the source and the grouping keys of the row that made it. */
  datatype Pending = Pending(source: string, call: Call, kwargs: Kwargs)

  function Answered(turn: Rows): set<string> {
    set row | row in turn && row.message.kind == ToolResult && row.message.callId != "" :: row.message.callId
  }

  function OpenCalls(row: Row, calls: seq<Call>, answered: set<string>): seq<Pending> {
    if calls == [] then []
    else
      var before, call := OpenCalls(row, calls[..|calls| - 1], answered), calls[|calls| - 1];
      if call.id != "" && call.id !in answered then before + [Pending(row.source, call, row.message.kwargs)] else before
  }

  function UnansweredBut(turn: Rows, answered: set<string>): seq<Pending> {
    if turn == [] then []
    else
      var row := turn[|turn| - 1];
      UnansweredBut(turn[..|turn| - 1], answered) + OpenCalls(row, row.message.calls, answered)
  }

  function Unanswered(turn: Rows): seq<Pending> {
    UnansweredBut(turn, Answered(turn))
  }

  // ---- The rows that close them ----

  function StoppedId(callId: string): Option<string> {
    Some("stopped-" + callId)
  }

  function StoppedMessage(p: Pending): Message {
    Message(StoppedId(p.call.id), ToolResult, p.call.name, "", [], p.call.id,
            Kwargs(p.kwargs.namespace, p.kwargs.parentCall, true))
  }

  function Sources(ps: seq<Pending>): seq<string> {
    if ps == [] then []
    else
      var init := Sources(ps[..|ps| - 1]);
      if ps[|ps| - 1].source in init then init else init + [ps[|ps| - 1].source]
  }

  function MessagesFor(ps: seq<Pending>, source: string): seq<Message> {
    if ps == [] then []
    else
      var before, last := MessagesFor(ps[..|ps| - 1], source), ps[|ps| - 1];
      if last.source == source then before + [StoppedMessage(last)] else before
  }

  /** One batch per source, in the order the sources were first met. */
  function WriteGroups(rows: Rows, ps: seq<Pending>, sources: seq<string>): Rows {
    if sources == [] then rows
    else
      var source := sources[|sources| - 1];
      Written(WriteGroups(rows, ps, sources[..|sources| - 1]), MessagesFor(ps, source), 0, source, None)
  }

  function Stop(rows: Rows): Rows {
    var ps := Unanswered(CurrentTurn(rows));
    WriteGroups(rows, ps, Sources(ps))
  }

  // ---- Facts about the parts ----

  lemma {:induction false} OpenCallsMeaning(row: Row, calls: seq<Call>, answered: set<string>, p: Pending)
    ensures p in OpenCalls(row, calls, answered) <==>
            p.call in calls && p == Pending(row.source, p.call, row.message.kwargs)
            && p.call.id != "" && p.call.id !in answered
    decreases |calls|
  {
    if calls != [] { OpenCallsMeaning(row, calls[..|calls| - 1], answered, p); }
  }

  lemma {:induction false} UnansweredMeaning(turn: Rows, answered: set<string>, p: Pending)
    ensures p in UnansweredBut(turn, answered) <==>
            p.call.id != "" && p.call.id !in answered
            && exists row :: row in turn && p.call in row.message.calls
                             && p == Pending(row.source, p.call, row.message.kwargs)
    decreases |turn|
  {
    if turn != [] {
      var row := turn[|turn| - 1];
      UnansweredMeaning(turn[..|turn| - 1], answered, p);
      OpenCallsMeaning(row, row.message.calls, answered, p);
      assert forall r :: r in turn <==> r in turn[..|turn| - 1] || r == row;
    }
  }

  /**
   * Main result on reading: a call is unanswered exactly when it has an id, some row of the turn makes it, and no row
   * of the turn is a result for it.
   */
  lemma UnansweredIff(turn: Rows, p: Pending)
    ensures p in Unanswered(turn) <==>
            && p.call.id != ""
            && (exists row :: row in turn && p.call in row.message.calls && row.source == p.source
                              && row.message.kwargs == p.kwargs)
            && (forall row :: row in turn && row.message.kind == ToolResult ==> row.message.callId != p.call.id)
  {
    UnansweredMeaning(turn, Answered(turn), p);
  }

  /** The current turn is what came after the last message of the user's own. */
  lemma {:induction false} CurrentTurnIff(rows: Rows, row: Row)
    ensures row in CurrentTurn(rows) <==>
            && row in rows && row.sequence >= 0
            && forall r :: r in rows && r.role == User && r.source != "subagent" ==> r.sequence < row.sequence
  {
    RowsAboveMeaning(rows, Boundary(rows), row);
    BoundaryMeaning(rows);
  }

  lemma {:induction false} RowsAboveMeaning(rows: Rows, sequence: int, row: Row)
    ensures row in RowsAbove(rows, sequence) <==> row in rows && row.sequence > sequence
    decreases |rows|
  {
    if rows != [] {
      RowsAboveMeaning(rows[..|rows| - 1], sequence, row);
      assert row in rows <==> row in rows[..|rows| - 1] || row == rows[|rows| - 1];
    }
  }

  lemma {:induction false} BoundaryMeaning(rows: Rows)
    ensures Boundary(rows) >= -1
    ensures forall r :: r in rows && r.role == User && r.source != "subagent" ==> r.sequence <= Boundary(rows)
    ensures Boundary(rows) == -1
            || exists r :: r in rows && r.role == User && r.source != "subagent" && r.sequence == Boundary(rows)
    decreases |rows|
  {
    if rows != [] {
      var init, last := rows[..|rows| - 1], rows[|rows| - 1];
      BoundaryMeaning(init);
      assert forall r :: r in rows <==> r in init || r == last;
    }
  }

  lemma {:induction false} SourcesCover(ps: seq<Pending>)
    ensures forall p :: p in ps ==> p.source in Sources(ps)
    decreases |ps|
  {
    if ps != [] { SourcesCover(ps[..|ps| - 1]); }
  }

  lemma {:induction false} MessagesForMeaning(ps: seq<Pending>, source: string)
    ensures forall m :: m in MessagesFor(ps, source) ==>
              exists p :: p in ps && p.source == source && m == StoppedMessage(p)
    ensures forall p :: p in ps && p.source == source ==> StoppedMessage(p) in MessagesFor(ps, source)
    decreases |ps|
  {
    if ps != [] {
      MessagesForMeaning(ps[..|ps| - 1], source);
      forall m | m in MessagesFor(ps, source)
        ensures exists p :: p in ps && p.source == source && m == StoppedMessage(p)
      {
        if m in MessagesFor(ps[..|ps| - 1], source) {
          var p :| p in ps[..|ps| - 1] && p.source == source && m == StoppedMessage(p);
          assert p in ps;
        } else {
          assert ps[|ps| - 1] in ps;
        }
      }
    }
  }

  // ---- What the batches add ----

  /** A row that closes a call of `ps`, written where the call is. */
  ghost predicate Closes(row: Row, ps: seq<Pending>) {
    exists p :: p in ps && row.message == StoppedMessage(p) && row.source == p.source
                && row.role == ToolRole && row.checkpoint.None?
  }

  ghost predicate OnlyCloses(rows: Rows, ps: seq<Pending>, more: Rows) {
    forall row :: row in more ==> Closes(row, ps) && row.sequence > MaxSequence(rows)
  }

  lemma {:induction false} MaxSequenceGrows(rows: Rows, more: Rows)
    ensures MaxSequence(rows) <= MaxSequence(rows + more)
    decreases |more|
  {
    if more == [] {
      assert rows + more == rows;
    } else {
      MaxSequenceGrows(rows, more[..|more| - 1]);
      assert (rows + more)[..|rows + more| - 1] == rows + more[..|more| - 1];
    }
  }

  lemma OneGroupOnlyCloses(rows: Rows, ps: seq<Pending>, before: Rows, source: string) returns (added: Rows)
    requires Sound(rows + before)
    ensures Written(rows + before, MessagesFor(ps, source), 0, source, None) == rows + before + added
    ensures Sound(rows + before + added) && OnlyCloses(rows, ps, added)
  {
    added := WriteAdds(rows + before, MessagesFor(ps, source), 0, source, None);
    MaxSequenceGrows(rows, before);
    MessagesForMeaning(ps, source);
    forall row | row in added ensures Closes(row, ps) && row.sequence > MaxSequence(rows) {
      var p :| p in ps && p.source == source && row.message == StoppedMessage(p);
    }
  }

  lemma OnlyClosesSum(rows: Rows, ps: seq<Pending>, a: Rows, b: Rows)
    requires OnlyCloses(rows, ps, a) && OnlyCloses(rows, ps, b)
    ensures OnlyCloses(rows, ps, a + b)
  {
  }

  lemma {:induction false} GroupsOnlyClose(rows: Rows, ps: seq<Pending>, sources: seq<string>) returns (more: Rows)
    requires Sound(rows)
    ensures WriteGroups(rows, ps, sources) == rows + more
    ensures Sound(rows + more) && OnlyCloses(rows, ps, more)
    decreases |sources|
  {
    if sources == [] {
      more := [];
      assert rows + [] == rows;
    } else {
      var before := GroupsOnlyClose(rows, ps, sources[..|sources| - 1]);
      var added := OneGroupOnlyCloses(rows, ps, before, sources[|sources| - 1]);
      more := before + added;
      assert rows + more == rows + before + added;
      OnlyClosesSum(rows, ps, before, added);
    }
  }

  lemma OneGroupCloses(rows: Rows, ps: seq<Pending>, source: string, p: Pending)
    requires p in ps
    ensures HasId(rows, StoppedId(p.call.id)) || p.source == source ==>
              HasId(Written(rows, MessagesFor(ps, source), 0, source, None), StoppedId(p.call.id))
  {
    var ms := MessagesFor(ps, source);
    IdsAfterInserting(rows, ms, Base(rows, 0), source, None, StoppedId(p.call.id));
    if p.source == source {
      MessagesForMeaning(ps, source);
      var j :| 0 <= j < |ms| && ms[j] == StoppedMessage(p);
      assert ms[j].id == StoppedId(p.call.id);
    }
  }

  lemma {:induction false} GroupsCloseAll(rows: Rows, ps: seq<Pending>, sources: seq<string>, p: Pending)
    requires p in ps && p.source in sources
    ensures HasId(WriteGroups(rows, ps, sources), StoppedId(p.call.id))
    decreases |sources|
  {
    var n := |sources| - 1;
    if p.source != sources[n] { GroupsCloseAll(rows, ps, sources[..n], p); }
    OneGroupCloses(WriteGroups(rows, ps, sources[..n]), ps, sources[n], p);
  }

  lemma {:induction false} KnownGroupsAreSkipped(rows: Rows, ps: seq<Pending>, sources: seq<string>)
    requires forall p :: p in ps ==> HasId(rows, StoppedId(p.call.id))
    ensures WriteGroups(rows, ps, sources) == rows
    decreases |sources|
  {
    if sources != [] {
      var source := sources[|sources| - 1];
      KnownGroupsAreSkipped(rows, ps, sources[..|sources| - 1]);
      MessagesForMeaning(ps, source);
      KnownMessagesAreSkipped(rows, MessagesFor(ps, source), Base(rows, 0), source, None);
    }
  }

  // ---- The turn after the batches ----

  lemma {:induction false} BoundaryStays(rows: Rows, more: Rows)
    requires forall row :: row in more ==> !StartsTurn(row)
    ensures Boundary(rows + more) == Boundary(rows)
    decreases |more|
  {
    if more == [] {
      assert rows + more == rows;
    } else {
      BoundaryStays(rows, more[..|more| - 1]);
      assert (rows + more)[..|rows + more| - 1] == rows + more[..|more| - 1];
    }
  }

  lemma {:induction false} BoundaryIsASequence(rows: Rows)
    ensures Boundary(rows) <= MaxSequence(rows)
    decreases |rows|
  {
    if rows != [] { BoundaryIsASequence(rows[..|rows| - 1]); }
  }

  lemma {:induction false} RowsAboveAppend(rows: Rows, more: Rows, sequence: int)
    requires forall row :: row in more ==> row.sequence > sequence
    ensures RowsAbove(rows + more, sequence) == RowsAbove(rows, sequence) + more
    decreases |more|
  {
    if more == [] {
      assert rows + more == rows;
    } else {
      var n := |more| - 1;
      RowsAboveAppend(rows, more[..n], sequence);
      assert (rows + more)[..|rows + more| - 1] == rows + more[..n];
      assert more == more[..n] + [more[n]];
    }
  }

  /** The turn boundary has not moved: the turn is the old one followed by the rows that close its calls. */
  lemma TurnAfterStop(rows: Rows) returns (more: Rows)
    requires Sound(rows)
    ensures Stop(rows) == rows + more && Sound(rows + more)
    ensures OnlyCloses(rows, Unanswered(CurrentTurn(rows)), more)
    ensures Boundary(Stop(rows)) == Boundary(rows)
    ensures CurrentTurn(Stop(rows)) == CurrentTurn(rows) + more
  {
    var ps := Unanswered(CurrentTurn(rows));
    more := GroupsOnlyClose(rows, ps, Sources(ps));
    BoundaryStays(rows, more);
    BoundaryIsASequence(rows);
    RowsAboveAppend(rows, more, Boundary(rows));
  }

  lemma StoppedIdIsInjective(a: string, b: string)
    requires StoppedId(a) == StoppedId(b)
    ensures a == b
  {
    var prefix := "stopped-";
    assert a == (prefix + a)[|prefix|..];
    assert b == (prefix + b)[|prefix|..];
  }

  ghost predicate ClosedBy(more: Rows, id: string) {
    exists row :: row in more && row.message.callId == id
  }

  /** Rows that only close calls take those calls, and no others, off the unanswered list. */
  lemma UnansweredAfterClosing(rows: Rows, turn: Rows, ps: seq<Pending>, more: Rows, p: Pending)
    requires OnlyCloses(rows, ps, more)
    ensures p in Unanswered(turn + more) <==> p in Unanswered(turn) && !ClosedBy(more, p.call.id)
  {
    UnansweredMeaning(turn, Answered(turn), p);
    UnansweredMeaning(turn + more, Answered(turn + more), p);
    assert forall row :: row in more ==> Closes(row, ps) && row.message.calls == [] && row.message.kind == ToolResult;
    assert forall row :: row in turn + more <==> row in turn || row in more;
    if p.call.id != "" {
      assert p.call.id in Answered(turn + more) <==> p.call.id in Answered(turn) || ClosedBy(more, p.call.id);
    }
  }

  /** Among the new rows, a call is closed exactly when its stopped id was free. */
  lemma ClosedIffIdWasFree(rows: Rows, ps: seq<Pending>, more: Rows, p: Pending)
    requires Sound(rows + more) && OnlyCloses(rows, ps, more)
    requires HasId(rows + more, StoppedId(p.call.id))
    ensures ClosedBy(more, p.call.id) <==> !HasId(rows, StoppedId(p.call.id))
  {
    var id := StoppedId(p.call.id);
    var all := rows + more;
    assert forall j :: 0 <= j < |rows| ==> all[j] == rows[j];
    if HasId(rows, id) {
      var j :| 0 <= j < |rows| && rows[j].message.id == id;
      forall row | row in more ensures row.message.callId != p.call.id {
        var k :| 0 <= k < |more| && more[k] == row;
        assert Closes(row, ps) && all[|rows| + k] == row;
      }
    } else {
      var k :| 0 <= k < |all| && all[k].message.id == id;
      var row := all[k];
      assert row in more && Closes(row, ps);
      var q :| q in ps && row.message == StoppedMessage(q);
      StoppedIdIsInjective(q.call.id, p.call.id);
    }
  }

  /** After stopping, a call is still unanswered exactly when it was, and its stopped id was already taken. */
  lemma StillUnanswered(rows: Rows, p: Pending)
    requires Sound(rows)
    ensures p in Unanswered(CurrentTurn(Stop(rows))) <==>
            p in Unanswered(CurrentTurn(rows)) && HasId(rows, StoppedId(p.call.id))
  {
    var ps := Unanswered(CurrentTurn(rows));
    var more := TurnAfterStop(rows);
    UnansweredAfterClosing(rows, CurrentTurn(rows), ps, more, p);
    if p in ps {
      SourcesCover(ps);
      GroupsCloseAll(rows, ps, Sources(ps), p);
      ClosedIffIdWasFree(rows, ps, more, p);
    }
  }

  // ---- Main results ----

  /** Re-reading the turn finds no unanswered call exactly when no stopped id was taken before. */
  lemma EveryCallIsClosedIff(rows: Rows)
    requires Sound(rows)
    ensures Unanswered(CurrentTurn(Stop(rows))) == [] <==>
            forall p :: p in Unanswered(CurrentTurn(rows)) ==> !HasId(rows, StoppedId(p.call.id))
  {
    var left := Unanswered(CurrentTurn(Stop(rows)));
    if left == [] {
      forall p | p in Unanswered(CurrentTurn(rows)) ensures !HasId(rows, StoppedId(p.call.id)) {
        StillUnanswered(rows, p);
      }
    } else {
      StillUnanswered(rows, left[0]);
    }
  }

  /** Whatever the table holds, recording the stop a second time writes nothing. */
  lemma StoppingTwiceWritesNothing(rows: Rows)
    requires Sound(rows)
    ensures Stop(Stop(rows)) == Stop(rows)
  {
    var ps := Unanswered(CurrentTurn(rows));
    var again := Unanswered(CurrentTurn(Stop(rows)));
    forall p | p in again ensures HasId(Stop(rows), StoppedId(p.call.id)) {
      StillUnanswered(rows, p);
      SourcesCover(ps);
      GroupsCloseAll(rows, ps, Sources(ps), p);
    }
    KnownGroupsAreSkipped(Stop(rows), again, Sources(again));
  }

  /** Stopping writes no row for a call the turn has a result for. */
  lemma AnsweredCallsAreLeft(rows: Rows, id: string) returns (more: Rows)
    requires Sound(rows)
    requires exists row :: row in CurrentTurn(rows) && row.message.kind == ToolResult && row.message.callId == id
    ensures Stop(rows) == rows + more && forall row :: row in more ==> row.message.callId != id
  {
    more := TurnAfterStop(rows);
    forall row | row in more ensures row.message.callId != id {
      assert Closes(row, Unanswered(CurrentTurn(rows)));
      var p :| p in Unanswered(CurrentTurn(rows)) && row.message == StoppedMessage(p);
      UnansweredIff(CurrentTurn(rows), p);
    }
  }

  lemma ARowClosesIt(rows: Rows, more: Rows, p: Pending) returns (row: Row)
    requires Sound(rows) && Stop(rows) == rows + more && Sound(rows + more)
    requires OnlyCloses(rows, Unanswered(CurrentTurn(rows)), more)
    requires p in Unanswered(CurrentTurn(rows)) && !HasId(rows, StoppedId(p.call.id))
    requires forall q :: q in Unanswered(CurrentTurn(rows)) && q.call.id == p.call.id ==> q == p
    ensures row in more && row == Row(row.sequence, ToolRole, p.source, StoppedMessage(p), None)
  {
    var ps := Unanswered(CurrentTurn(rows));
    SourcesCover(ps);
    GroupsCloseAll(rows, ps, Sources(ps), p);
    ClosedIffIdWasFree(rows, ps, more, p);
    row :| row in more && row.message.callId == p.call.id;
    assert Closes(row, ps);
  }

  /**
   * When call ids are not reused, each unanswered call gets one new row: its own result, with its own source and
   * grouping keys.
   */
  lemma EachCallGetsItsOwnRow(rows: Rows, p: Pending) returns (row: Row)
    requires Sound(rows)
    requires p in Unanswered(CurrentTurn(rows)) && !HasId(rows, StoppedId(p.call.id))
    requires forall q :: q in Unanswered(CurrentTurn(rows)) && q.call.id == p.call.id ==> q == p
    ensures row in Stop(rows) && row !in rows
    ensures row == Row(row.sequence, ToolRole, p.source, row.message, None)
    ensures row.message ==
            Message(Some("stopped-" + p.call.id), ToolResult, p.call.name, "", [], p.call.id,
                    Kwargs(p.kwargs.namespace, p.kwargs.parentCall, true))
    ensures forall other :: other in Stop(rows) && other.message.id == row.message.id ==> other == row
  {
    var more := TurnAfterStop(rows);
    row := ARowClosesIt(rows, more, p);
    assert forall k :: 0 <= k < |rows| ==> rows[k].message.id != StoppedId(p.call.id);
    forall other | other in Stop(rows) && other.message.id == row.message.id ensures other == row {
      IdsAreUnique(rows + more, row, other);
    }
  }

  // ---- A call id used again ----

  lemma {:induction false} NoRowsAbove(rows: Rows, sequence: int)
    requires MaxSequence(rows) <= sequence
    ensures RowsAbove(rows, sequence) == []
    decreases |rows|
  {
    if rows != [] { NoRowsAbove(rows[..|rows| - 1], sequence); }
  }

  /** The user's next message starts a new, empty turn. */
  lemma UserMessageStartsTurn(rows: Rows, user: Message) returns (after: Rows)
    requires Sound(rows) && user.kind == Human && user.id.None?
    ensures after == Written(rows, [user], 0, DEEPAGENTS, None) && Sound(after) && rows <= after
    ensures CurrentTurn(after) == [] && Boundary(after) == MaxSequence(after)
  {
    after := Written(rows, [user], 0, DEEPAGENTS, None);
    WriteIsSound(rows, [user], 0, DEEPAGENTS, None);
    WritingOneAnonymous(rows, user, DEEPAGENTS, None);
    BoundaryIsASequence(rows);
    assert after[..|after| - 1] == rows;
    NoRowsAbove(after, MaxSequence(after));
  }

  lemma TurnAfterRow(rows: Rows, row: Row)
    requires !StartsTurn(row) && row.sequence > MaxSequence(rows)
    ensures CurrentTurn(rows + [row]) == CurrentTurn(rows) + [row]
  {
    BoundaryIsASequence(rows);
    BoundaryStays(rows, [row]);
    RowsAboveAppend(rows, [row], Boundary(rows));
  }

  lemma OneCallIsUnanswered(row: Row, call: Call)
    requires row.message.kind == Ai && row.message.calls == [call] && call.id != ""
    ensures Unanswered([row]) == [Pending(row.source, call, row.message.kwargs)]
  {
    var p := Pending(row.source, call, row.message.kwargs);
    assert [row][..0] == [] && [call][..0] == [];
    assert Answered([row]) == {};
    assert OpenCalls(row, [call], {}) == [p];
    assert UnansweredBut([row], {}) == [p];
  }

  /** The agent's message in a turn that is still empty is all there is of the turn, and its one call is unanswered. */
  lemma FirstCallOfTurn(rows: Rows, again: Message, call: Call) returns (after: Rows, p: Pending)
    requires Sound(rows) && CurrentTurn(rows) == []
    requires again.kind == Ai && again.id.None? && again.calls == [call] && call.id != ""
    ensures after == Written(rows, [again], 0, DEEPAGENTS, None) && Sound(after) && rows <= after
    ensures Unanswered(CurrentTurn(after)) == [p] && p.call == call
  {
    var row := Row(Base(rows, 0), AssistantRole, DEEPAGENTS, again, None);
    after, p := rows + [row], Pending(DEEPAGENTS, call, again.kwargs);
    WriteIsSound(rows, [again], 0, DEEPAGENTS, None);
    WritingOneAnonymous(rows, again, DEEPAGENTS, None);
    TurnAfterRow(rows, row);
    assert CurrentTurn(rows) + [row] == [row];
    OneCallIsUnanswered(row, call);
  }

  /**
   * In any history, a call closed by a stop and used again by a later turn stays open when that turn is stopped too:
   * its stopped row is already there.
   */
  lemma ReusedCallStaysOpen(rows: Rows, p: Pending, user: Message, again: Message) returns (stopped: Rows, q: Pending)
    requires Sound(rows) && p in Unanswered(CurrentTurn(rows)) && p.call.id != ""
    requires user.kind == Human && user.id.None?
    requires again.kind == Ai && again.id.None? && again.calls == [p.call]
    ensures var next := Written(Stop(rows), [user], 0, DEEPAGENTS, None);
            stopped == Stop(Written(next, [again], 0, DEEPAGENTS, None))
    ensures q.call == p.call && q in Unanswered(CurrentTurn(stopped))
  {
    var ps := Unanswered(CurrentTurn(rows));
    var more := TurnAfterStop(rows);
    SourcesCover(ps);
    GroupsCloseAll(rows, ps, Sources(ps), p);
    var next := UserMessageStartsTurn(Stop(rows), user);
    var after;
    after, q := FirstCallOfTurn(next, again, p.call);
    stopped := Stop(after);
    var k :| 0 <= k < |Stop(rows)| && Stop(rows)[k].message.id == StoppedId(p.call.id);
    assert after[k] == Stop(rows)[k];
    StillUnanswered(after, q);
  }

  /** And such a history exists: a table with one message that makes one call. */
  lemma OneUnansweredCall(call: Call) returns (ops: seq<Op>, p: Pending)
    requires call.id != ""
    ensures Unanswered(CurrentTurn(Run(ops))) == [p] && p.call == call
  {
    var m := Message(None, Ai, "", "", [call], "", NoKwargs);
    ops := [Write([m], 0, DEEPAGENTS, None)];
    assert ops[..0] == [];
    var after;
    after, p := FirstCallOfTurn([], m, call);
    assert Run(ops) == after;
  }
}
