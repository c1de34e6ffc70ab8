/**
 * What a turn's clients are told, from the turn's events and its end alone (core/execution/executor.py,
 * core/execution/handlers/, api/publisher.py): no execution state and no publisher state.
 */
module ToldTurns {
  import opened Wrappers
  import opened Handlers
  import opened EventHistory
  import TurnStream
  import P = Publisher
  import S = StreamProtocol

  // ---- Whole turns ----

  ghost function AnswerSays(events: seq<Event>): seq<Entry> {
    var text := RootDeltas(events);
    (if text == "" then [] else [RootBlocks([P.TextBlock])])
    + [FinishMessage, TurnResult(Answer, Some(text)), TurnEvent(TurnCompleted)]
  }

  /** What a turn says before its stream is closed. */
  ghost function TurnSays(events: seq<Event>, end: End): seq<Entry> {
    var cancelled := [TurnResult(Cancel, Some("Execution cancelled by user")), TurnEvent(TurnCancelled),
                      TurnResult(Cancel, Some("Turn cancelled by user"))];
    match end
    case Unstarted => []
    case CancelledBefore => [TurnResult(Cancel, Some("Turn cancelled by user"))]
    case FailedBefore(error) => [TurnResult(Error, Some(error))]
    case _ =>
      if HasStopped(events) then LogOf(events)
      else
        LogOf(events) +
        match end
        case Broken(error) => [FinishMessage, TurnResult(Error, Some(error)), TurnEvent(TurnFailed)]
        case Cancelled => cancelled
        case CancelledAfter => AnswerSays(events) + cancelled
        case _ => AnswerSays(events)
  }

  lemma TurnIsWhatEventsSay(events: seq<Event>, end: End)
    ensures Said(events, end) == TurnSays(events, end)
    ensures Turn(events, end) == if end.Unstarted? then [] else TurnSays(events, end) + [Closed]
  {
    if ReachesGraph(end) {
      LogIsWhatEventsSay(events);
      StateHolds(events);
      assert LogOf(events) + [] == LogOf(events);
    }
  }

  /** How an entry reaches the client. */
  function EntryTells(e: Entry): seq<S.Told> {
    match e
    case RootText(text) => [S.ToldText(text)]
    case Note(CallNote(tool)) => [S.ToldText("\n*Tool Call: " + tool + "*\n")]
    case Note(ResultNote(tool, output)) => [S.ToldText("\n*Tool Result (" + tool + "):*\n" + output + "\n")]
    case RootBlocks(content) => S.ToolCallsIn(content)
    case FinishMessage => []
    case SubagentStarted(id, name, parent) => [S.ToldAside(P.ToolCallStarted(id, name, parent))]
    case SubagentDelta(id, name, delta) => [S.ToldAside(P.ToolOutputDelta(id, name, delta))]
    case SubagentResult(_, id, name, content, isError) => [S.ToldAside(P.ToolFinished(id, name, content, isError))]
    case ToolDelta(id, name, delta) => [S.ToldAside(P.ToolOutputDelta(id, name, delta))]
    case ToolDone(id, name, content, isError) => [S.ToldAside(P.ToolFinished(id, name, content, isError))]
    case Snapshot => [S.ToldStep]
    case ValuesSent => [S.ToldAside(P.Aside.Values)]
    case TurnEvent(TurnStarted) => [S.ToldAside(P.Aside.Lifecycle("started"))]
    case TurnEvent(TurnCompleted) => [S.ToldAside(P.Aside.Lifecycle("completed"))]
    case TurnEvent(TurnFailed) => [S.ToldAside(P.Aside.Lifecycle("failed"))]
    case TurnEvent(TurnCancelled) => [S.ToldAside(P.Aside.Lifecycle("cancelled"))]
    case TurnResult(Answer, result) => [S.ToldResult("success", result)]
    case TurnResult(Question, result) => [S.ToldResult("interrupted", result)]
    case TurnResult(Error, result) => [S.ToldResult("error_during_execution", result)]
    case TurnResult(Cancel, result) => [S.ToldResult("cancelled", result)]
    case Closed => [S.ToldEnd]
  }

  function LogTells(log: seq<Entry>): seq<S.Told> {
    if log == [] then [] else LogTells(log[..|log| - 1]) + EntryTells(log[|log| - 1])
  }

  lemma EntryIsTold(e: Entry)
    ensures S.Tells(ToCall(e)) == EntryTells(e)
    ensures ToCall(e) == P.Close <==> e.Closed?
  {
  }

  lemma {:induction false} LogIsTold(log: seq<Entry>)
    requires Closed !in log
    ensures S.AllTold(TurnStream.Calls(log)) == LogTells(log) && P.Close !in TurnStream.Calls(log)
    decreases |log|
  {
    if log != [] {
      var init, last := log[..|log| - 1], log[|log| - 1];
      LogIsTold(init);
      EntryIsTold(last);
      assert TurnStream.Calls(log)[..|log| - 1] == TurnStream.Calls(init);
    }
  }

  lemma SaysNoClose(events: seq<Event>, log: seq<Entry>, e: Event)
    ensures Closed !in Says(events, log, e)
  {
    match e.data
    case Lifecycle(_, _, _, _) =>
    case Message(_) => assert Closed !in MessageSays(events, e);
    case Tool(_, _, _, _, _) =>
    case Values(_, _, _, _) =>
    case OtherData =>
  }

  lemma {:induction false} LogIsNotClosed(events: seq<Event>)
    ensures Closed !in LogOf(events)
    decreases |events|
  {
    if events == [] {
    } else {
      var init, e := events[..|events| - 1], events[|events| - 1];
      LogIsNotClosed(init);
      SaysNoClose(init, LogOf(init), e);
    }
  }

  lemma TurnSaysNoClose(events: seq<Event>, end: End)
    ensures Closed !in TurnSays(events, end)
  {
    LogIsNotClosed(events);
    assert Closed !in AnswerSays(events);
  }

  lemma ClosedLogIsTold(log: seq<Entry>)
    requires Closed !in log
    ensures S.ToldIn(P.PublishAll(P.Fresh, TurnStream.Calls(log + [Closed])).stream) == LogTells(log) + [S.ToldEnd]
  {
    var calls := TurnStream.Calls(log + [Closed]);
    LogIsTold(log);
    S.ClientsAreToldAll(calls);
    assert calls[..|calls| - 1] == TurnStream.Calls(log);
  }

  /**
   * Main result: what a turn's clients are told, its messages' framing aside, is what the turn's events and its end
   * say, in order and closed by the sentinel. A turn that never started tells them nothing.
   */
  lemma ClientsAreToldTheTurn(events: seq<Event>, end: End)
    ensures S.ToldIn(P.PublishAll(P.Fresh, TurnStream.Calls(Turn(events, end))).stream) ==
            if end.Unstarted? then [] else LogTells(TurnSays(events, end)) + [S.ToldEnd]
  {
    TurnIsWhatEventsSay(events, end);
    if !end.Unstarted? {
      TurnSaysNoClose(events, end);
      ClosedLogIsTold(TurnSays(events, end));
    }
  }
}
