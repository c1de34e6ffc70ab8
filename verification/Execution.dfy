/**
 * The handlers as they run: one execution state, updated in place by every event of a turn
 * (core/execution/state.py, core/execution/handlers/, core/execution/executor.py).
 */
module Execution {
  import opened Wrappers
  import opened H = Handlers
  import P = Publisher

  class ExecutionState {
    var streamedText: string
    var blocks: seq<P.Block>
    var calls: map<Namespace, string>
    var names: map<Namespace, string>
    var outputs: map<string, string>
    var finals: map<string, string>
    var interrupted: bool
    var messageCount: nat
    var todos: map<Namespace, string>
    var published: seq<Entry>
    /** Whether the turn has flushed its workspace changes. */
    var flushed: bool

    ghost function Abs(stopped: bool): State
      reads this
    {
      State(streamedText, blocks, calls, names, outputs, finals, interrupted, stopped, messageCount, todos, published)
    }

    constructor ()
      ensures Abs(false) == NewState && !flushed
    {
      streamedText, blocks, interrupted, published, flushed := "", [], false, [], false;
      calls, names, outputs, finals, messageCount, todos := map[], map[], map[], map[], 0, map[];
    }

    method EndSubagent(ns: Namespace, isError: bool)
      modifies this
      ensures Abs(false) == H.EndSubagent(old(Abs(false)), ns, isError)
    {
      if ns !in calls { return; }
      var id := calls[ns];
      var name := if ns in names then names[ns] else "task";
      calls := calls - {ns};
      if id == "" { return; }
      names := names - {ns};
      var accumulated := if id in outputs then outputs[id] else "";
      if id in outputs {
        finals := finals[id := accumulated];
      }
      outputs := outputs - {id};
      published := published + [SubagentResult(ns, id, name, Content(accumulated, isError), isError)];
    }

    method HandleLifecycle(d: Data)
      requires d.Lifecycle?
      modifies this
      ensures Abs(false) == H.HandleLifecycle(old(Abs(false)), d)
    {
      if d.stage == Interrupted && (d.target.NoTarget? || d.target == ListTarget([])) {
        interrupted := true;
        return;
      }
      if d.stage == Started {
        if d.target.ListTarget? && d.toolCallId != "" {
          var ns := d.target.ns;
          calls := calls[ns := d.toolCallId];
          names := names[ns := d.graphName];
          var parent: Option<string> := None;
          if |ns| > 1 && ns[..|ns| - 1] in calls {
            parent := Some(calls[ns[..|ns| - 1]]);
          }
          published := published + [SubagentStarted(d.toolCallId, d.graphName, parent)];
        }
        return;
      }
      if (d.stage == Completed || d.stage == Failed) && d.target.ListTarget? {
        EndSubagent(d.target.ns, d.stage == Failed);
      }
    }

    method HandleSubagentLifecycle(ns: Namespace, d: Data)
      requires d.Lifecycle?
      modifies this
      ensures Abs(false) == H.HandleSubagentLifecycle(old(Abs(false)), ns, d)
    {
      if d.stage == Started {
        if d.target.ListTarget? && d.toolCallId != "" {
          calls := calls[ns := d.toolCallId];
          names := names[ns := d.graphName];
        }
        return;
      }
      if d.stage == Completed || d.stage == Failed {
        EndSubagent(ns, d.stage == Failed);
      }
    }

    method HandleSubagentMessage(ns: Namespace, p: Payload)
      modifies this
      ensures Abs(false) == H.HandleSubagentMessage(old(Abs(false)), ns, p)
    {
      if ns !in calls || calls[ns] == "" { return; }
      var id := calls[ns];
      var name := if ns in names then names[ns] else "task";
      if !p.ContentDelta? { return; }
      var text := "";
      match p.delta {
        case ToolUseDelta(tool, _) =>
          published := published + [Note(CallNote(tool))];
        case TextDelta(t) =>
          text := t;
        case NoDelta =>
      }
      if text != "" {
        published := published + [SubagentDelta(id, name, text)];
        outputs := outputs[id := (if id in outputs then outputs[id] else "") + text];
      }
    }

    method HandleRootMessage(p: Payload)
      modifies this
      ensures Abs(false) == H.HandleRootMessage(old(Abs(false)), p)
    {
      match p {
        case ContentDelta(delta) =>
          var text := if delta.NoDelta? then "" else delta.text;
          if text != "" {
            streamedText := streamedText + text;
            published := published + [RootText(text)];
          }
        case ToolCallBlock(id, name) =>
          blocks := blocks + [P.ToolUse(id, name)];
        case MessageFinish =>
          var entries := [FinishMessage];
          if blocks != [] {
            entries := [RootBlocks([P.TextBlock] + blocks), FinishMessage];
          }
          blocks := [];
          published := published + entries;
        case OtherPayload =>
      }
    }

    method HandleTool(ns: Namespace, d: Data)
      requires d.Tool?
      modifies this
      ensures Abs(false) == Say(old(Abs(false)), ToolEntries(ns, d))
    {
      if ns != [] {
        if d.toolStage == Finished && d.text != "" {
          published := published + [Note(ResultNote(d.toolName, d.text))];
        }
        return;
      }
      if d.toolCallId == "" { return; }
      if d.toolStage == OutputDelta {
        if d.text != "" {
          published := published + [ToolDelta(d.toolCallId, d.toolName, d.text)];
        }
      } else if d.toolStage == Finished {
        published := published + [ToolDone(d.toolCallId, d.toolName, d.text, d.isError)];
      }
    }

    method PublishInterrupt()
      modifies this
      ensures Abs(true) == H.PublishInterrupt(old(Abs(false)))
    {
      var remaining := streamedText;
      streamedText := "";
      var answer := if remaining == "" then None else Some(remaining);
      var entries := [TurnResult(Question, answer), TurnEvent(TurnCompleted)];
      if remaining != "" {
        entries := [RootBlocks([P.TextBlock])] + entries;
      }
      published := published + entries;
      interrupted := true;
    }

    method HandleValues(ns: Namespace, d: Data) returns (ok: bool)
      requires d.Values?
      modifies this
      ensures Abs(!ok) == H.HandleValues(old(Abs(false)), ns, d)
    {
      if ns != [] {
        var sent: seq<Entry> := if d.files then [ValuesSent] else [];
        if d.todos.Some? && !(ns in todos && todos[ns] == d.todos.value) {
          todos := todos[ns := d.todos.value];
          sent := sent + [ValuesSent];
        }
        published := published + sent;
        return true;
      }
      if |d.hidden| > messageCount {
        messageCount := |d.hidden|;
        if exists k :: 0 <= k < |d.hidden| && !d.hidden[k] {
          published := published + [Snapshot, ValuesSent];
        }
      }
      if d.interrupts {
        PublishInterrupt();
        return false;
      }
      return true;
    }

    /** Whether the turn goes on. */
    method ProcessEvent(e: Event) returns (ok: bool)
      modifies this
      ensures Abs(!ok) == Handle(old(Abs(false)), e)
    {
      ok := true;
      match e.data {
        case Lifecycle(_, _, _, _) =>
          if e.ns == [] { HandleLifecycle(e.data); } else { HandleSubagentLifecycle(e.ns, e.data); }
        case Message(payload) =>
          if e.ns == [] { HandleRootMessage(payload); } else { HandleSubagentMessage(e.ns, payload); }
        case Tool(_, _, _, _, _) =>
          HandleTool(e.ns, e.data);
        case Values(_, _, _, _) =>
          ok := HandleValues(e.ns, e.data);
        case OtherData =>
      }
    }

    /** A turn: what ends it before its graph runs, or the events its graph emits up to what ends them. */
    method RunTurn(events: seq<Event>, end: End)
      requires Abs(false) == NewState && !flushed
      modifies this
      ensures published == Turn(events, end)
      ensures flushed == FlushesAtEnd(Process(events).stopped, end)
    {
      if end.Unstarted? {
        return;
      }
      if ReachesGraph(end) {
        Execute(events, end);
      } else if end.CancelledBefore? {
        published := published + [RouterCancelled];
      } else {
        published := published + [TurnResult(Error, Some(end.error))];
      }
      published := published + [Closed];
    }

    method Execute(events: seq<Event>, end: End)
      requires Abs(false) == NewState && ReachesGraph(end)
      modifies this
      ensures published == Said(events, end)
      ensures flushed == FlushesAtEnd(Process(events).stopped, end)
    {
      published := published + [TurnEvent(TurnStarted)];
      var i := 0;
      var ok := true;
      while i < |events| && ok
        invariant 0 <= i <= |events|
        invariant Abs(!ok) == Process(events[..i])
      {
        assert events[..i + 1][..i] == events[..i];
        ok := ProcessEvent(events[i]);
        i := i + 1;
      }
      StoppedStays(events, i);
      flushed := !ok || end.Drained? || end.CancelledAfter?;
      if ok {
        assert events[..i] == events;
        PublishEnd(end);
      }
    }

    method PublishEnd(end: End)
      requires ReachesGraph(end)
      modifies this`published
      ensures published == old(published) + FinalEntries(old(Abs(false)), end)
    {
      match end {
        case Drained =>
          PublishAnswer();
        case Broken(error) =>
          PublishFailure(error);
        case Cancelled =>
          PublishCancelled();
        case CancelledAfter =>
          PublishAnswer();
          PublishCancelled();
      }
    }

    method PublishAnswer()
      modifies this`published
      ensures published == old(published) + AnswerEntries(streamedText)
    {
      if streamedText != "" {
        published := published + [RootBlocks([P.TextBlock])];
      }
      published := published + [FinishMessage, TurnResult(Answer, Some(streamedText)), TurnEvent(TurnCompleted)];
    }

    method PublishFailure(error: string)
      modifies this`published
      ensures published == old(published) + FailureEntries(error)
    {
      published := published + [FinishMessage, TurnResult(Error, Some(error)), TurnEvent(TurnFailed)];
    }

    /** The executor publishes a result and passes the cancel on; the router publishes another. */
    method PublishCancelled()
      modifies this`published
      ensures published == old(published) + CancelEntries
    {
      published := published + [ExecutorCancelled, TurnEvent(TurnCancelled)];
      published := published + [RouterCancelled];
    }
  }
}
