/** The chat history as the object its writers share (core/persistence/message_writer.py). */
module ChatTable {
  import opened Wrappers
  import opened ChatStore
  import opened StoppedTurn

  method UnansweredCalls(turn: Rows) returns (out: seq<Pending>)
    ensures out == Unanswered(turn)
  {
    var answered: set<string> := {};
    for i := 0 to |turn|
      invariant answered == Answered(turn[..i])
    {
      var message := turn[i].message;
      AnsweredStep(turn, i);
      if message.kind == ToolResult && message.callId != "" {
        answered := answered + {message.callId};
      }
    }
    assert turn[..|turn|] == turn;
    out := [];
    for i := 0 to |turn|
      invariant out == UnansweredBut(turn[..i], answered)
    {
      assert turn[..i + 1][..i] == turn[..i];
      var row := turn[i];
      var calls := row.message.calls;
      ghost var before := out;
      for j := 0 to |calls|
        invariant out == before + OpenCalls(row, calls[..j], answered)
      {
        assert calls[..j + 1][..j] == calls[..j];
        if calls[j].id != "" && calls[j].id !in answered {
          out := out + [Pending(row.source, calls[j], row.message.kwargs)];
        }
      }
      assert calls[..|calls|] == calls;
    }
    assert turn[..|turn|] == turn;
  }

  lemma AnsweredStep(turn: Rows, i: nat)
    requires i < |turn|
    ensures var m := turn[i].message;
            Answered(turn[..i + 1]) ==
            Answered(turn[..i]) + if m.kind == ToolResult && m.callId != "" then {m.callId} else {}
  {
    var shorter, longer := turn[..i], turn[..i + 1];
    assert longer == shorter + [turn[i]];
    assert forall row :: row in longer <==> row in shorter || row == turn[i];
  }

  /** The stopped results by source, with the sources in the order they are first met. */
  method GroupBySource(ps: seq<Pending>) returns (sources: seq<string>, bySource: map<string, seq<Message>>)
    ensures sources == Sources(ps)
    ensures forall s :: s in sources ==> s in bySource && bySource[s] == MessagesFor(ps, s)
  {
    sources, bySource := [], map[];
    for i := 0 to |ps|
      invariant sources == Sources(ps[..i])
      invariant forall s :: s in bySource <==> s in sources
      invariant forall s :: s in sources ==> bySource[s] == MessagesFor(ps[..i], s)
      invariant forall s :: s !in sources ==> MessagesFor(ps[..i], s) == []
    {
      assert ps[..i + 1][..i] == ps[..i];
      var source := ps[i].source;
      if source !in bySource {
        sources := sources + [source];
        bySource := bySource[source := []];
      }
      var call, kwargs := ps[i].call, ps[i].kwargs;
      var stopped := Message(Some("stopped-" + call.id), ToolResult, call.name, "", [], call.id,
                             Kwargs(kwargs.namespace, kwargs.parentCall, true));
      bySource := bySource[source := bySource[source] + [stopped]];
      assert forall s :: MessagesFor(ps[..i + 1], s) ==
                         MessagesFor(ps[..i], s) + if s == source then [StoppedMessage(ps[i])] else [];
    }
    assert ps[..|ps|] == ps;
  }

  class ChatMessages {
    var rows: Rows

    constructor ()
      ensures rows == [] && Sound(rows)
    {
      rows := [];
    }

    method WriteChatMessages(messages: seq<Message>, offset: int, source: string, checkpoint: Option<string>)
      returns (inserted: seq<Message>)
      modifies this
      ensures rows == Written(old(rows), messages, offset, source, checkpoint)
      ensures |old(rows)| <= |rows| && rows[..|old(rows)|] == old(rows)
      ensures inserted == MessagesOf(rows[|old(rows)|..])
    {
      inserted := [];
      if messages == [] { return; }
      var base := MaxSequence(rows) + 1;
      if offset > base { base := offset; }
      inserted := InsertBatch(messages, base, source, checkpoint);
    }

    /** INSERT ... ON CONFLICT DO NOTHING, one message at a time. */
    method InsertBatch(messages: seq<Message>, base: int, source: string, checkpoint: Option<string>)
      returns (inserted: seq<Message>)
      modifies this
      ensures rows == InsertAll(old(rows), messages, base, source, checkpoint)
      ensures |old(rows)| <= |rows| && rows[..|old(rows)|] == old(rows)
      ensures inserted == MessagesOf(rows[|old(rows)|..])
    {
      var added: Rows := [];
      inserted := [];
      for i := 0 to |messages|
        invariant rows + added == InsertAll(rows, messages[..i], base, source, checkpoint)
        invariant inserted == MessagesOf(added)
      {
        assert messages[..i + 1][..i] == messages[..i];
        var msg := messages[i];
        if !HasId(rows + added, msg.id) {
          var row := Row(base + i, RoleOf(msg.kind), source, msg, checkpoint);
          assert rows + added + [row] == rows + (added + [row]);
          assert (added + [row])[..|added|] == added;
          added := added + [row];
          inserted := inserted + [msg];
        }
      }
      assert messages[..|messages|] == messages;
      rows := rows + added;
      assert rows[|old(rows)|..] == added;
    }

    method StampCheckpointId(checkpoint: string)
      modifies this
      ensures rows == Stamped(old(rows), checkpoint)
    {
      if checkpoint == "" { return; }
      var stamped: Rows := [];
      for i := 0 to |rows|
        invariant |stamped| == i
        invariant forall k :: 0 <= k < i ==> stamped[k] == StampRow(rows[k], checkpoint)
        invariant rows == old(rows)
      {
        var row := rows[i];
        stamped := stamped + [if row.checkpoint.None? then row.(checkpoint := Some(checkpoint)) else row];
      }
      rows := stamped;
    }

    method RecordStoppedSteps() returns (count: nat)
      modifies this
      ensures rows == Stop(old(rows))
      ensures count == |Unanswered(CurrentTurn(old(rows)))|
    {
      ghost var was := rows;
      var unanswered := UnansweredCalls(CurrentTurn(rows));
      var sources, bySource := GroupBySource(unanswered);
      for i := 0 to |sources|
        invariant rows == WriteGroups(was, unanswered, sources[..i])
      {
        assert sources[..i + 1][..i] == sources[..i];
        var _ := WriteChatMessages(bySource[sources[i]], 0, sources[i], None);
      }
      assert sources[..|sources|] == sources;
      count := |unanswered|;
    }
  }
}
