/**
 * What a client that reads a turn's stream live gets to see: it stops at the terminal lifecycle event, so every result
 * ought to come before that event (core/publishers/event_publisher.py). For which ends of a turn it does.
 */
module LiveClients {
  import opened Wrappers
  import opened Handlers
  import opened TurnStream

  // ---- Where a live client stops ----

  predicate IsTerminal(e: Entry) {
    e.TurnEvent? && e.turnStage != TurnStarted
  }

  ghost predicate HasTerminal(log: seq<Entry>) {
    exists k :: 0 <= k < |log| && IsTerminal(log[k])
  }

  /** What a live client reads of a log: the entries up to the first terminal event. */
  ghost function UntilTerminal(log: seq<Entry>): seq<Entry> {
    if log == [] then []
    else
      var init := log[..|log| - 1];
      if HasTerminal(init) then UntilTerminal(init) else log
  }

  /** Every result is published before the terminal event. */
  ghost predicate ResultsComeFirst(log: seq<Entry>) {
    HasTerminal(log) && SeenIn(UntilTerminal(log)).results == SeenIn(log).results
  }

  lemma TerminalOfSum(a: seq<Entry>, b: seq<Entry>)
    ensures HasTerminal(a + b) <==> HasTerminal(a) || HasTerminal(b)
  {
    assert forall k :: 0 <= k < |a| ==> (a + b)[k] == a[k];
    assert forall k :: 0 <= k < |b| ==> (a + b)[|a| + k] == b[k];
    assert forall k :: |a| <= k < |a + b| ==> (a + b)[k] == b[k - |a|];
  }

  lemma {:induction false} NothingAfterTerminal(a: seq<Entry>, b: seq<Entry>)
    requires HasTerminal(a)
    ensures UntilTerminal(a + b) == UntilTerminal(a)
    decreases |b|
  {
    if b == [] {
      assert a + b == a;
    } else {
      var init := b[..|b| - 1];
      assert (a + b)[..|a + b| - 1] == a + init;
      TerminalOfSum(a, init);
      NothingAfterTerminal(a, init);
    }
  }

  /** A log whose only terminal event is its last entry is read whole. */
  lemma ReadToTerminal(a: seq<Entry>, e: Entry, rest: seq<Entry>)
    requires !HasTerminal(a) && IsTerminal(e)
    ensures HasTerminal(a + [e] + rest) && UntilTerminal(a + [e] + rest) == a + [e]
  {
    var whole := a + [e];
    assert whole[..|a|] == a && IsTerminal(whole[|a|]);
    NothingAfterTerminal(whole, rest);
    TerminalOfSum(whole, rest);
  }

  lemma ReadWhole(log: seq<Entry>)
    requires !HasTerminal(log)
    ensures UntilTerminal(log) == log
  {
    if log != [] {
      var init := log[..|log| - 1];
      assert init + [log[|log| - 1]] == log;
      TerminalOfSum(init, [log[|log| - 1]]);
    }
  }

  // ---- While the turn runs ----

  ghost predicate IsQuiet(entries: seq<Entry>) {
    forall k :: 0 <= k < |entries| ==> !IsTerminal(entries[k])
  }

  lemma QuietSum(log: seq<Entry>, entries: seq<Entry>)
    requires !HasTerminal(log) && IsQuiet(entries)
    ensures !HasTerminal(log + entries)
  {
    TerminalOfSum(log, entries);
  }

  /** The turn goes on, and says nothing terminal. */
  ghost predicate GoesOn(s: State, after: State) {
    !s.stopped && !after.stopped && (HasTerminal(after.log) ==> HasTerminal(s.log))
  }

  lemma SayingGoesOn(s: State, entries: seq<Entry>)
    requires !s.stopped && IsQuiet(entries)
    ensures GoesOn(s, Say(s, entries))
  {
    TerminalOfSum(s.log, entries);
  }

  lemma EndGoesOn(s: State, ns: Namespace, isError: bool)
    requires !s.stopped
    ensures GoesOn(s, EndSubagent(s, ns, isError))
  {
    if ns in s.calls && s.calls[ns] != "" {
      var id := s.calls[ns];
      TerminalOfSum(s.log, [SubagentResult(ns, id, NameOf(s, ns), Content(Get(s.outputs, id), isError), isError)]);
    }
  }

  lemma RootLifecycleGoesOn(s: State, d: Data)
    requires d.Lifecycle? && !s.stopped
    ensures GoesOn(s, HandleLifecycle(s, d))
  {
    if d.target.ListTarget? {
      EndGoesOn(s, d.target.ns, d.stage == Failed);
      var started := s.(calls := s.calls[d.target.ns := d.toolCallId], names := s.names[d.target.ns := d.graphName]);
      SayingGoesOn(started, [SubagentStarted(d.toolCallId, d.graphName, Parent(started, d.target.ns))]);
    }
  }

  lemma SubagentLifecycleGoesOn(s: State, ns: Namespace, d: Data)
    requires d.Lifecycle? && !s.stopped
    ensures GoesOn(s, HandleSubagentLifecycle(s, ns, d))
  {
    EndGoesOn(s, ns, d.stage == Failed);
  }

  lemma RootMessageGoesOn(s: State, p: Payload)
    requires !s.stopped
    ensures GoesOn(s, HandleRootMessage(s, p))
  {
    TerminalOfSum(s.log, RootMessageEntries(s, p));
  }

  lemma SubagentMessageGoesOn(s: State, ns: Namespace, p: Payload)
    requires !s.stopped
    ensures GoesOn(s, HandleSubagentMessage(s, ns, p))
  {
    if ns in s.calls && p.ContentDelta? {
      match p.delta
      case ToolUseDelta(name, _) => TerminalOfSum(s.log, [Note(CallNote(name))]);
      case TextDelta(text) => TerminalOfSum(s.log, [SubagentDelta(s.calls[ns], NameOf(s, ns), text)]);
      case NoDelta =>
    }
  }

  predicate StopsTurn(e: Event) {
    e.ns == [] && e.data.Values? && e.data.interrupts
  }

  lemma ValuesGoOn(s: State, ns: Namespace, d: Data)
    requires d.Values? && !(ns == [] && d.interrupts) && !s.stopped
    ensures GoesOn(s, HandleValues(s, ns, d))
  {
    AfterValuesKeeps(s, ns, d);
    SayingGoesOn(AfterValues(s, ns, d), ValuesEntries(s, ns, d));
  }

  lemma EventGoesOn(s: State, e: Event)
    requires !s.stopped && !StopsTurn(e)
    ensures GoesOn(s, Handle(s, e))
  {
    match e.data
    case Lifecycle(_, _, _, _) =>
      if e.ns == [] { RootLifecycleGoesOn(s, e.data); } else { SubagentLifecycleGoesOn(s, e.ns, e.data); }
    case Message(payload) =>
      if e.ns == [] { RootMessageGoesOn(s, payload); } else { SubagentMessageGoesOn(s, e.ns, payload); }
    case Tool(_, _, _, _, _) => SayingGoesOn(s, ToolEntries(e.ns, e.data));
    case Values(_, _, _, _) => ValuesGoOn(s, e.ns, e.data);
    case OtherData =>
  }

  /** The event that stops a turn publishes its terminal event last. */
  lemma StoppingEvent(s: State, e: Event) returns (before: seq<Entry>)
    requires !HasTerminal(s.log) && StopsTurn(e)
    ensures !HasTerminal(before) && Handle(s, e).log == before + [TurnEvent(TurnCompleted)]
  {
    var shown := s.log + ValuesEntries(s, e.ns, e.data);
    var question := Remaining(s.streamedText) + [TurnResult(Question, AnswerOf(s.streamedText))];
    QuietSum(s.log, ValuesEntries(s, e.ns, e.data));
    QuietSum(shown, question);
    before := shown + question;
    assert InterruptEntries(s.streamedText) == question + [TurnEvent(TurnCompleted)];
    assert shown + InterruptEntries(s.streamedText) == before + [TurnEvent(TurnCompleted)];
  }

  /** While a turn runs no terminal event is published, and the event that stops it publishes one last. */
  lemma {:induction false} RunningTurn(events: seq<Event>) returns (before: seq<Entry>)
    ensures !Process(events).stopped ==> !HasTerminal(Process(events).log)
    ensures Process(events).stopped ==>
              !HasTerminal(before) && Process(events).log == before + [TurnEvent(TurnCompleted)]
    decreases |events|
  {
    before := [];
    if events != [] {
      var init, e := events[..|events| - 1], events[|events| - 1];
      before := RunningTurn(init);
      var s := Process(init);
      if !s.stopped {
        if StopsTurn(e) {
          before := StoppingEvent(s, e);
        } else {
          EventGoesOn(s, e);
        }
      }
    }
  }

  // ---- The whole turn ----

  /** The results a live client gets, by how the turn ends. */
  function LiveResults(stopped: bool, text: string, end: End): seq<Entry> {
    match end
    case Unstarted => []
    case CancelledBefore => [RouterCancelled]
    case FailedBefore(error) => [TurnResult(Error, Some(error))]
    case _ =>
      if stopped then [TurnResult(Question, AnswerOf(text))]
      else
        match end
        case Broken(error) => [TurnResult(Error, Some(error))]
        case Cancelled => [ExecutorCancelled]
        case _ => [TurnResult(Answer, Some(text))]
  }

  /** A turn whose graph runs ends with a terminal event, and a live client gets the results published before it. */
  lemma GraphTurnIsRead(events: seq<Event>, end: End)
    requires ReachesGraph(end)
    ensures var log := Turn(events, end);
            && HasTerminal(log)
            && SeenIn(UntilTerminal(log)).results == LiveResults(Process(events).stopped, SeenIn(log).root, end)
  {
    var s := Process(events);
    var before := RunningTurn(events);
    EventsAgree(events);
    if s.stopped {
      assert Said(events, end) == s.log;
      StoppedTurnIsRead(s, before);
    } else {
      RunningEndIsRead(s, end);
      TextStays(s, end);
    }
  }

  lemma StoppedTurnIsRead(s: State, before: seq<Entry>)
    requires !HasTerminal(before) && s.log == before + [TurnEvent(TurnCompleted)]
    ensures var log := s.log + [Closed];
            && HasTerminal(log) && SeenIn(UntilTerminal(log)).results == SeenIn(s.log).results
            && SeenIn(log).root == SeenIn(s.log).root
  {
    ReadToTerminal(before, TurnEvent(TurnCompleted), [Closed]);
    SeenAfter(s.log, Closed);
  }

  lemma TextStays(s: State, end: End)
    requires ReachesGraph(end) && SeenIn(s.log).results == []
    ensures SeenIn(s.log + FinalEntries(s, end) + [Closed]).root == SeenIn(s.log).root
  {
    FinalEntriesSeen(s, end);
    SeenAfter(s.log + FinalEntries(s, end), Closed);
  }

  lemma RunningEndIsRead(s: State, end: End)
    requires ReachesGraph(end) && !HasTerminal(s.log) && SeenIn(s.log).results == []
    ensures var log := s.log + FinalEntries(s, end) + [Closed];
            && HasTerminal(log)
            && SeenIn(UntilTerminal(log)).results == LiveResults(false, s.streamedText, end)
  {
    match end
    case Drained => AnswerIsRead(s.log, s.streamedText, [Closed]);
    case CancelledAfter =>
      AnswerIsRead(s.log, s.streamedText, CancelEntries + [Closed]);
      assert s.log + FinalEntries(s, end) + [Closed] ==
             s.log + AnswerEntries(s.streamedText) + (CancelEntries + [Closed]);
    case Broken(error) => FailureIsRead(s.log, error);
    case Cancelled => CancelIsRead(s.log);
  }

  lemma FailureIsRead(log: seq<Entry>, error: string)
    requires !HasTerminal(log) && SeenIn(log).results == []
    ensures var whole := log + FailureEntries(error) + [Closed];
            HasTerminal(whole) && SeenIn(UntilTerminal(whole)).results == [TurnResult(Error, Some(error))]
  {
    var said := [FinishMessage, TurnResult(Error, Some(error))];
    QuietSum(log, said);
    ReadToTerminal(log + said, TurnEvent(TurnFailed), [Closed]);
    SeenAfterTwo(log, said[0], said[1]);
    SeenAfter(log + said, TurnEvent(TurnFailed));
    assert log + FailureEntries(error) == log + said + [TurnEvent(TurnFailed)];
  }

  lemma CancelIsRead(log: seq<Entry>)
    requires !HasTerminal(log) && SeenIn(log).results == []
    ensures var whole := log + CancelEntries + [Closed];
            HasTerminal(whole) && SeenIn(UntilTerminal(whole)).results == [ExecutorCancelled]
  {
    var said := log + [ExecutorCancelled];
    QuietSum(log, [ExecutorCancelled]);
    ReadToTerminal(said, TurnEvent(TurnCancelled), [RouterCancelled, Closed]);
    SeenAfter(log, ExecutorCancelled);
    SeenAfter(said, TurnEvent(TurnCancelled));
    assert log + CancelEntries + [Closed] == said + [TurnEvent(TurnCancelled)] + [RouterCancelled, Closed];
  }

  lemma AnswerIsRead(log: seq<Entry>, text: string, rest: seq<Entry>)
    requires !HasTerminal(log) && SeenIn(log).results == []
    ensures var whole := log + AnswerEntries(text) + rest;
            HasTerminal(whole) && SeenIn(UntilTerminal(whole)).results == [TurnResult(Answer, Some(text))]
  {
    var said := Remaining(text) + [FinishMessage, TurnResult(Answer, Some(text))];
    QuietSum(log, said);
    ReadToTerminal(log + said, TurnEvent(TurnCompleted), rest);
    AnswerSeen(log, text);
    assert log + AnswerEntries(text) == log + said + [TurnEvent(TurnCompleted)];
  }

  lemma ShortTurnIsRead(e: Entry)
    requires e.TurnResult?
    ensures !HasTerminal([e] + [Closed]) && SeenIn(UntilTerminal([e] + [Closed])).results == [e]
  {
    ReadWhole([e] + [Closed]);
    OnlySeen(e);
    SeenAfter([e], Closed);
  }

  /** Main result: what a live client gets of every turn, and whether the turn has a terminal event at all. */
  lemma LiveClientGets(events: seq<Event>, end: End)
    ensures var log := Turn(events, end);
            && (HasTerminal(log) <==> ReachesGraph(end))
            && SeenIn(UntilTerminal(log)).results == LiveResults(Process(events).stopped, SeenIn(log).root, end)
  {
    match end
    case Unstarted =>
    case CancelledBefore => ShortTurnIsRead(RouterCancelled);
    case FailedBefore(error) => ShortTurnIsRead(TurnResult(Error, Some(error)));
    case _ => GraphTurnIsRead(events, end);
  }

  /**
   * So everything a turn has to say is on the stream before its terminal event exactly when its graph runs and an event
   * stops it, its stream ends undisturbed, or it fails.
   */
  lemma ResultsComeFirstIff(events: seq<Event>, end: End)
    ensures ResultsComeFirst(Turn(events, end)) <==>
            ReachesGraph(end) && (Process(events).stopped || end.Drained? || end.Broken?)
  {
    LiveClientGets(events, end);
    TurnResultIsItsText(events, end);
  }
}
