/**
 * What a turn publishes, told from its events alone (core/execution/handlers/): no execution state, only what came
 * before. The handlers, which keep such a state, are proved to publish exactly this.
 */
module EventHistory {
  import opened Wrappers
  import opened Handlers
  import opened Turns
  import P = Publisher

  // ---- What the events so far have said ----

  /** The graph name of a namespace's open call. */
  function NameIn(events: seq<Event>, ns: Namespace): string {
    if events == [] then "task"
    else
      var e := events[|events| - 1];
      if Records(e).Some? && Records(e).value.0 == ns then e.data.graphName
      else if Ends(e) == Some(ns) then "task"
      else NameIn(events[..|events| - 1], ns)
  }

  /** All the coordinator's text. */
  function RootDeltas(events: seq<Event>): string {
    if events == [] then ""
    else
      var before, e := RootDeltas(events[..|events| - 1]), events[|events| - 1];
      if e.ns == [] && e.data.Message? && e.data.payload.ContentDelta? && !e.data.payload.delta.NoDelta?
      then before + e.data.payload.delta.text
      else before
  }

  /** The coordinator's tool calls since its last finished message. */
  function WaitingCalls(events: seq<Event>): seq<P.Block> {
    if events == [] then []
    else
      var before, e := WaitingCalls(events[..|events| - 1]), events[|events| - 1];
      if e.ns != [] || !e.data.Message? then before
      else
        match e.data.payload
        case ToolCallBlock(id, name) => before + [P.ToolUse(id, name)]
        case MessageFinish => []
        case _ => before
  }

  /** The most messages a coordinator's values event has carried. */
  function MostMessages(events: seq<Event>): nat {
    if events == [] then 0
    else
      var before, e := MostMessages(events[..|events| - 1]), events[|events| - 1];
      if e.ns == [] && e.data.Values? && |e.data.hidden| > before then |e.data.hidden| else before
  }

  /** A sub-agent's latest todo list. */
  function LatestTodos(events: seq<Event>, ns: Namespace): Option<string> {
    if events == [] then None
    else
      var e := events[|events| - 1];
      if e.ns == ns && ns != [] && e.data.Values? && e.data.todos.Some? then e.data.todos
      else LatestTodos(events[..|events| - 1], ns)
  }

  predicate Stops(e: Event) {
    e.ns == [] && e.data.Values? && e.data.interrupts
  }

  ghost predicate HasStopped(events: seq<Event>) {
    exists k :: 0 <= k < |events| && Stops(events[k])
  }

  // ---- What an event says, given those before it ----

  function LifecycleSays(events: seq<Event>, log: seq<Entry>, e: Event): seq<Entry>
    requires e.data.Lifecycle?
  {
    if e.ns == [] && Records(e).Some? then
      var ns := e.data.target.ns;
      var parent := if |ns| > 1 then OpenCall(events, ns[..|ns| - 1]) else None;
      [SubagentStarted(e.data.toolCallId, e.data.graphName, parent)]
    else if Ends(e).Some? && OpenCall(events, Ends(e).value).Some? then
      var ns := Ends(e).value;
      var id := OpenCall(events, ns).value;
      var failed := e.data.stage == Failed;
      var text := Since(log, id);
      var content := if text != "" then text else if failed then "subagent_failed" else "subagent_completed";
      [SubagentResult(ns, id, NameIn(events, ns), content, failed)]
    else []
  }

  function MessageSays(events: seq<Event>, e: Event): seq<Entry>
    requires e.data.Message?
  {
    match e.data.payload
    case ContentDelta(delta) =>
      if e.ns == [] then
        if delta.NoDelta? || delta.text == "" then [] else [RootText(delta.text)]
      else if OpenCall(events, e.ns).None? then []
      else (match delta
            case ToolUseDelta(name, _) => [Note(CallNote(name))]
            case TextDelta(text) =>
              if text == "" then [] else [SubagentDelta(OpenCall(events, e.ns).value, NameIn(events, e.ns), text)]
            case NoDelta => [])
    case MessageFinish =>
      if e.ns != [] then []
      else if WaitingCalls(events) == [] then [FinishMessage]
      else [RootBlocks([P.TextBlock] + WaitingCalls(events)), FinishMessage]
    case _ => []
  }

  function ToolSays(e: Event): seq<Entry>
    requires e.data.Tool?
  {
    match e.data.toolStage
    case Finished =>
      if e.ns != [] then if e.data.text != "" then [Note(ResultNote(e.data.toolName, e.data.text))] else []
      else if e.data.toolCallId != "" then [ToolDone(e.data.toolCallId, e.data.toolName, e.data.text, e.data.isError)]
      else []
    case OutputDelta =>
      if e.ns == [] && e.data.toolCallId != "" && e.data.text != "" then
        [ToolDelta(e.data.toolCallId, e.data.toolName, e.data.text)]
      else []
    case _ => []
  }

  function ValuesSay(events: seq<Event>, e: Event): seq<Entry>
    requires e.data.Values?
  {
    if e.ns != [] then
      (if e.data.files then [ValuesSent] else [])
      + (if e.data.todos.Some? && LatestTodos(events, e.ns) != e.data.todos then [ValuesSent] else [])
    else
      var shown :=
        if |e.data.hidden| > MostMessages(events) && false in e.data.hidden then [Snapshot, ValuesSent] else [];
      var text := RootDeltas(events);
      if !e.data.interrupts then shown
      else if text == "" then shown + [TurnResult(Question, None), TurnEvent(TurnCompleted)]
      else shown + [RootBlocks([P.TextBlock]), TurnResult(Question, Some(text)), TurnEvent(TurnCompleted)]
  }

  function Says(events: seq<Event>, log: seq<Entry>, e: Event): seq<Entry> {
    match e.data
    case Lifecycle(_, _, _, _) => LifecycleSays(events, log, e)
    case Message(_) => MessageSays(events, e)
    case Tool(_, _, _, _, _) => ToolSays(e)
    case Values(_, _, _, _) => ValuesSay(events, e)
    case OtherData => []
  }

  /** The log of a turn so far: nothing is said after the event that stops it. */
  ghost function LogOf(events: seq<Event>): seq<Entry> {
    if events == [] then [TurnEvent(TurnStarted)]
    else
      var init, e := events[..|events| - 1], events[|events| - 1];
      if HasStopped(init) then LogOf(init) else LogOf(init) + Says(init, LogOf(init), e)
  }

  // ---- What each handler leaves alone ----

  /** The five parts of the state the events before tell: text, waiting blocks, message count, todo lists, names. */
  datatype Parts = Parts(text: string, blocks: seq<P.Block>, count: nat, todos: map<Namespace, string>,
                         names: map<Namespace, string>)

  function PartsOf(s: State): Parts {
    Parts(s.streamedText, s.blocks, s.messageCount, s.todos, s.names)
  }

  lemma StartParts(s: State, e: Event)
    requires Records(e).Some?
    ensures PartsOf(Handle(s, e)) == PartsOf(s).(names := s.names[Records(e).value.0 := e.data.graphName])
    ensures Handle(s, e).stopped == s.stopped
  {
  }

  lemma EndParts(s: State, e: Event)
    requires Ends(e).Some? && forall ns :: ns in s.calls ==> s.calls[ns] != ""
    ensures PartsOf(Handle(s, e)) ==
            if Ends(e).value in s.calls then PartsOf(s).(names := s.names - {Ends(e).value}) else PartsOf(s)
    ensures Handle(s, e).stopped == s.stopped
  {
    EndEvent(s, e);
  }

  lemma OtherLifecycleParts(s: State, e: Event)
    requires e.data.Lifecycle? && Records(e).None? && Ends(e).None?
    ensures PartsOf(Handle(s, e)) == PartsOf(s) && Handle(s, e).log == s.log && Handle(s, e).stopped == s.stopped
  {
  }

  lemma RootMessageParts(s: State, e: Event)
    requires e.data.Message? && e.ns == []
    ensures var p := e.data.payload;
            PartsOf(Handle(s, e)) ==
            PartsOf(s).(text := if p.ContentDelta? && !p.delta.NoDelta? then s.streamedText + p.delta.text
                                else s.streamedText,
                        blocks := match p
                                  case ToolCallBlock(id, name) => s.blocks + [P.ToolUse(id, name)]
                                  case MessageFinish => []
                                  case _ => s.blocks)
    ensures Handle(s, e).stopped == s.stopped
  {
  }

  lemma SubagentMessageParts(s: State, e: Event)
    requires e.data.Message? && e.ns != []
    ensures PartsOf(Handle(s, e)) == PartsOf(s) && Handle(s, e).stopped == s.stopped
  {
    SubagentMessageKeeps(s, e.ns, e.data.payload);
  }

  lemma SubagentMessageKeeps(s: State, ns: Namespace, p: Payload)
    ensures PartsOf(HandleSubagentMessage(s, ns, p)) == PartsOf(s)
    ensures HandleSubagentMessage(s, ns, p).stopped == s.stopped
  {
    if ns in s.calls && p.ContentDelta? {
      match p.delta
      case ToolUseDelta(_, _) =>
      case TextDelta(_) =>
      case NoDelta =>
    }
  }

  lemma ToolParts(s: State, e: Event)
    requires e.data.Tool? || e.data.OtherData?
    ensures PartsOf(Handle(s, e)) == PartsOf(s) && Handle(s, e).stopped == s.stopped
  {
  }

  lemma ValuesParts(s: State, e: Event)
    requires e.data.Values? && !s.stopped
    ensures var after := Handle(s, e);
            && after.stopped == Stops(e)
            && after.messageCount ==
               (if e.ns == [] && |e.data.hidden| > s.messageCount then |e.data.hidden| else s.messageCount)
            && after.blocks == s.blocks && after.names == s.names
            && (!Stops(e) ==> after.streamedText == s.streamedText)
    ensures forall ns :: ns != [] ==>
              TodosOf(Handle(s, e), ns) ==
              if e.ns == ns && e.data.todos.Some? then e.data.todos else TodosOf(s, ns)
  {
  }

  function TodosOf(s: State, ns: Namespace): Option<string> {
    if ns in s.todos then Some(s.todos[ns]) else None
  }

  // ---- The state holds what the events said ----

  ghost predicate Holds(s: State, events: seq<Event>) {
    && s.streamedText == RootDeltas(events)
    && s.blocks == WaitingCalls(events)
    && s.messageCount == MostMessages(events)
    && (forall ns :: ns != [] ==> TodosOf(s, ns) == LatestTodos(events, ns))
    && (forall ns :: ns in s.names <==> ns in s.calls)
    && (forall ns :: NameOf(s, ns) == NameIn(events, ns))
    && (forall ns :: ns in s.calls ==> s.calls[ns] != "")
  }

  /** The calls change where the names do. */
  lemma CallsOfOthers(s: State, e: Event)
    requires Records(e).None? && Ends(e).None?
    ensures Handle(s, e).calls == s.calls
  {
    if IsPlain(s, e) { var entries := PlainEvent(s, e); } else { DeltaEvent(s, e); }
  }

  lemma LifecycleIn(events: seq<Event>, e: Event, ns: Namespace)
    requires e.data.Lifecycle?
    ensures NameIn(events + [e], ns) ==
            if Records(e).Some? && Records(e).value.0 == ns then e.data.graphName
            else if Ends(e) == Some(ns) then "task"
            else NameIn(events, ns)
    ensures LatestTodos(events + [e], ns) == LatestTodos(events, ns)
  {
    assert (events + [e])[..|events|] == events;
  }

  lemma LifecycleNames(s: State, e: Event, ns: Namespace)
    requires e.data.Lifecycle? && (forall n :: n in s.names <==> n in s.calls)
    requires forall n :: n in s.calls ==> s.calls[n] != ""
    ensures var after := Handle(s, e);
            && after.streamedText == s.streamedText && after.blocks == s.blocks && after.todos == s.todos
            && after.messageCount == s.messageCount && after.stopped == s.stopped
            && (ns in after.names <==> ns in after.calls) && (ns in after.calls ==> after.calls[ns] != "")
            && NameOf(after, ns) ==
               if Records(e).Some? && Records(e).value.0 == ns then e.data.graphName
               else if Ends(e) == Some(ns) then "task"
               else NameOf(s, ns)
  {
    if Records(e).Some? {
      StartParts(s, e);
      StartEvent(s, e);
    } else if Ends(e).Some? {
      EndParts(s, e);
      EndEvent(s, e);
    } else {
      OtherLifecycleParts(s, e);
      CallsOfOthers(s, e);
    }
  }

  lemma LifecycleHolds(s: State, events: seq<Event>, e: Event)
    requires Holds(s, events) && e.data.Lifecycle?
    ensures Holds(Handle(s, e), events + [e]) && Handle(s, e).stopped == s.stopped
  {
    var more, after := events + [e], Handle(s, e);
    assert more[..|more| - 1] == events;
    LifecycleNames(s, e, []);
    forall ns: Namespace
      ensures (ns in after.names <==> ns in after.calls) && (ns in after.calls ==> after.calls[ns] != "")
      ensures NameOf(after, ns) == NameIn(more, ns)
      ensures ns != [] ==> TodosOf(after, ns) == LatestTodos(more, ns)
    {
      LifecycleNames(s, e, ns);
      LifecycleIn(events, e, ns);
      assert NameOf(s, ns) == NameIn(events, ns);
      assert ns != [] ==> TodosOf(s, ns) == LatestTodos(events, ns);
    }
  }

  lemma RootMessageHolds(s: State, events: seq<Event>, e: Event)
    requires Holds(s, events) && !s.stopped && e.data.Message? && e.ns == []
    ensures Holds(Handle(s, e), events + [e]) && !Handle(s, e).stopped
  {
    assert (events + [e])[..|events + [e]| - 1] == events;
    CallsOfOthers(s, e);
    RootMessageParts(s, e);
    NothingNew(s, events, e);
  }

  lemma ValuesIn(events: seq<Event>, e: Event, ns: Namespace)
    requires e.data.Values?
    ensures NameIn(events + [e], ns) == NameIn(events, ns)
    ensures LatestTodos(events + [e], ns) ==
            if e.ns == ns && ns != [] && e.data.todos.Some? then e.data.todos else LatestTodos(events, ns)
  {
    assert (events + [e])[..|events|] == events;
  }

  lemma ValuesHold(s: State, events: seq<Event>, e: Event)
    requires Holds(s, events) && !s.stopped && e.data.Values? && !Stops(e)
    ensures Holds(Handle(s, e), events + [e]) && !Handle(s, e).stopped
  {
    var more, after := events + [e], Handle(s, e);
    assert more[..|more| - 1] == events;
    CallsOfOthers(s, e);
    ValuesParts(s, e);
    forall ns: Namespace
      ensures NameOf(after, ns) == NameIn(more, ns)
      ensures ns != [] ==> TodosOf(after, ns) == LatestTodos(more, ns)
    {
      ValuesIn(events, e, ns);
      assert NameOf(s, ns) == NameIn(events, ns);
      assert ns != [] ==> TodosOf(s, ns) == LatestTodos(events, ns);
    }
  }

  lemma QuietHolds(s: State, events: seq<Event>, e: Event)
    requires Holds(s, events) && !s.stopped && !e.data.Lifecycle? && !e.data.Values? && (e.data.Message? ==> e.ns != [])
    ensures Holds(Handle(s, e), events + [e]) && !Handle(s, e).stopped
  {
    assert (events + [e])[..|events + [e]| - 1] == events;
    CallsOfOthers(s, e);
    if e.data.Message? { SubagentMessageParts(s, e); } else { ToolParts(s, e); }
    NothingNew(s, events, e);
  }

  lemma NothingNewIn(events: seq<Event>, e: Event, ns: Namespace)
    requires !e.data.Lifecycle? && !e.data.Values?
    ensures NameIn(events + [e], ns) == NameIn(events, ns)
    ensures LatestTodos(events + [e], ns) == LatestTodos(events, ns)
  {
    assert (events + [e])[..|events|] == events;
  }

  /** An event that is no lifecycle or values event changes neither names nor todo lists. */
  lemma NothingNew(s: State, events: seq<Event>, e: Event)
    requires Holds(s, events) && !e.data.Lifecycle? && !e.data.Values?
    requires Handle(s, e).names == s.names && Handle(s, e).todos == s.todos
    ensures forall ns :: NameOf(Handle(s, e), ns) == NameIn(events + [e], ns)
    ensures forall ns :: ns != [] ==> TodosOf(Handle(s, e), ns) == LatestTodos(events + [e], ns)
  {
    forall ns: Namespace
      ensures NameOf(Handle(s, e), ns) == NameIn(events + [e], ns)
      ensures ns != [] ==> TodosOf(Handle(s, e), ns) == LatestTodos(events + [e], ns)
    {
      NothingNewIn(events, e, ns);
      assert NameOf(s, ns) == NameIn(events, ns);
      assert ns != [] ==> TodosOf(s, ns) == LatestTodos(events, ns);
    }
  }

  lemma {:induction false} StateHolds(events: seq<Event>)
    ensures Process(events).stopped == HasStopped(events)
    ensures !HasStopped(events) ==> Holds(Process(events), events)
    decreases |events|
  {
    if events == [] {
    } else {
      var init, e := events[..|events| - 1], events[|events| - 1];
      StateHolds(init);
      assert events == init + [e];
      assert HasStopped(events) <==> HasStopped(init) || Stops(e);
      var s := Process(init);
      if !s.stopped {
        if e.data.Lifecycle? {
          LifecycleHolds(s, init, e);
        } else if Stops(e) {
          ValuesParts(s, e);
        } else if e.data.Values? {
          ValuesHold(s, init, e);
        } else if e.data.Message? && e.ns == [] {
          RootMessageHolds(s, init, e);
        } else {
          QuietHolds(s, init, e);
        }
      }
    }
  }

  // ---- The handlers say what the events say ----

  lemma LifecycleIsSaid(events: seq<Event>, e: Event)
    requires !HasStopped(events) && e.data.Lifecycle?
    ensures Handle(Process(events), e).log ==
            Process(events).log + LifecycleSays(events, Process(events).log, e)
  {
    var s := Process(events);
    StateHolds(events);
    SubagentResultsAreExact(events);
    if Records(e).Some? {
      StartIsSaid(events, e);
    } else if Ends(e).Some? {
      CallsAreOpen(events, Ends(e).value);
      EndEvent(s, e);
      if Ends(e).value !in s.calls { assert s.log + [] == s.log; }
    } else {
      OtherLifecycleParts(s, e);
      assert s.log + [] == s.log;
    }
  }

  lemma StartIsSaid(events: seq<Event>, e: Event)
    requires !HasStopped(events) && Records(e).Some?
    ensures Handle(Process(events), e).log ==
            Process(events).log + LifecycleSays(events, Process(events).log, e)
  {
    var s := Process(events);
    StateHolds(events);
    if e.ns == [] {
      var ns := e.data.target.ns;
      if |ns| > 1 {
        var above := ns[..|ns| - 1];
        CallsAreOpen(events, above);
        assert above != ns;
      }
    } else {
      assert Ends(e).None?;
      assert s.log + [] == s.log;
    }
  }

  lemma RootMessageIsSaid(events: seq<Event>, e: Event)
    requires !HasStopped(events) && e.data.Message? && e.ns == []
    ensures Handle(Process(events), e).log == Process(events).log + MessageSays(events, e)
  {
    StateHolds(events);
    assert Process(events).blocks == WaitingCalls(events);
    assert RootMessageEntries(Process(events), e.data.payload) == MessageSays(events, e);
  }

  lemma SubagentMessageSays(s: State, ns: Namespace, p: Payload)
    ensures HandleSubagentMessage(s, ns, p).log ==
            s.log + if ns !in s.calls || s.calls[ns] == "" || !p.ContentDelta? then []
                    else if p.delta.ToolUseDelta? then [Note(CallNote(p.delta.name))]
                    else if p.delta.TextDelta? && p.delta.text != "" then
                      [SubagentDelta(s.calls[ns], NameOf(s, ns), p.delta.text)]
                    else []
  {
    assert s.log + [] == s.log;
  }

  lemma SubagentMessageIsSaid(events: seq<Event>, e: Event)
    requires !HasStopped(events) && e.data.Message? && e.ns != []
    ensures Handle(Process(events), e).log == Process(events).log + MessageSays(events, e)
  {
    StateHolds(events);
    CallsAreOpen(events, e.ns);
    SubagentMessageSays(Process(events), e.ns, e.data.payload);
  }

  lemma ToolIsSaid(s: State, e: Event)
    requires e.data.Tool?
    ensures Handle(s, e).log == s.log + ToolSays(e)
  {
  }

  lemma SubagentValuesAreSaid(events: seq<Event>, e: Event)
    requires !HasStopped(events) && e.data.Values? && e.ns != []
    ensures Handle(Process(events), e).log == Process(events).log + ValuesSay(events, e)
  {
    var s := Process(events);
    StateHolds(events);
    assert TodosOf(s, e.ns) == LatestTodos(events, e.ns);
    assert HasNewTodos(s, e.ns, e.data) <==> e.data.todos.Some? && LatestTodos(events, e.ns) != e.data.todos;
    ValuesSayEntries(s, e.ns, e.data);
  }

  lemma ValuesSayEntries(s: State, ns: Namespace, d: Data)
    requires d.Values?
    ensures HandleValues(s, ns, d).log ==
            if ns == [] && d.interrupts then s.log + (ValuesEntries(s, ns, d) + InterruptEntries(s.streamedText))
            else s.log + ValuesEntries(s, ns, d)
  {
    assert s.log + ValuesEntries(s, ns, d) + InterruptEntries(s.streamedText) ==
           s.log + (ValuesEntries(s, ns, d) + InterruptEntries(s.streamedText));
  }

  lemma RootValuesAreSaid(events: seq<Event>, e: Event)
    requires !HasStopped(events) && e.data.Values? && e.ns == []
    ensures Handle(Process(events), e).log == Process(events).log + ValuesSay(events, e)
  {
    var s := Process(events);
    StateHolds(events);
    ValuesSayEntries(s, [], e.data);
    ShownIsSaid(s, e.data, MostMessages(events));
    InterruptIsSaid(ValuesEntries(s, [], e.data), RootDeltas(events));
  }

  lemma ShownIsSaid(s: State, d: Data, most: nat)
    requires d.Values? && s.messageCount == most
    ensures ValuesEntries(s, [], d) == if |d.hidden| > most && false in d.hidden then [Snapshot, ValuesSent] else []
  {
  }

  lemma InterruptIsSaid(shown: seq<Entry>, text: string)
    ensures shown + InterruptEntries(text) ==
            if text == "" then shown + [TurnResult(Question, None), TurnEvent(TurnCompleted)]
            else shown + [RootBlocks([P.TextBlock]), TurnResult(Question, Some(text)), TurnEvent(TurnCompleted)]
  {
    if text == "" {
      assert [] + [TurnResult(Question, None), TurnEvent(TurnCompleted)] ==
             [TurnResult(Question, None), TurnEvent(TurnCompleted)];
    }
  }

  /**
   * Main result: the handlers publish exactly what the events, each with those before it, say; and a turn stops at the
   * first values event of the coordinator with an interrupt.
   */
  lemma {:induction false} LogIsWhatEventsSay(events: seq<Event>)
    ensures Process(events).log == LogOf(events) && Process(events).stopped == HasStopped(events)
    decreases |events|
  {
    StateHolds(events);
    if events == [] {
      assert NewState.log + [TurnEvent(TurnStarted)] == [TurnEvent(TurnStarted)];
    } else {
      var init, e := events[..|events| - 1], events[|events| - 1];
      LogIsWhatEventsSay(init);
      if !HasStopped(init) {
        match e.data
        case Lifecycle(_, _, _, _) => LifecycleIsSaid(init, e);
        case Message(_) =>
          if e.ns == [] { RootMessageIsSaid(init, e); } else { SubagentMessageIsSaid(init, e); }
        case Tool(_, _, _, _, _) => ToolIsSaid(Process(init), e);
        case Values(_, _, _, _) =>
          if e.ns == [] { RootValuesAreSaid(init, e); } else { SubagentValuesAreSaid(init, e); }
        case OtherData => assert LogOf(init) + [] == LogOf(init);
      }
    }
  }
}
