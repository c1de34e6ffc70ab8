/**
 * What holds of every turn, whatever events its graph emits (core/execution/handlers/, core/execution/executor.py,
 * api/publisher.py): what each sub-agent's result carries, what the turn's result carries, and what its clients see.
 */
module Turns {
  import opened Wrappers
  import opened Handlers

  // ---- Sub-agent results ----

  /** The deltas published for a call since its last result. */
  function Since(log: seq<Entry>, id: string): string {
    if log == [] then ""
    else
      var before, last := Since(log[..|log| - 1], id), log[|log| - 1];
      if last.SubagentDelta? && last.id == id then before + last.delta
      else if last.SubagentResult? && last.id == id then ""
      else before
  }

  /** What a result must carry, given everything published before it. */
  function Expected(before: seq<Entry>, result: Entry): string
    requires result.SubagentResult?
  {
    Content(Since(before, result.id), result.isError)
  }

  ghost predicate ResultsAreExact(log: seq<Entry>) {
    forall k :: 0 <= k < |log| && log[k].SubagentResult? ==> log[k].content == Expected(log[..k], log[k])
  }

  /** The accumulated outputs are exactly the deltas not yet reported. */
  ghost predicate OutputsAreCurrent(s: State) {
    && (forall id :: Get(s.outputs, id) == Since(s.log, id))
    && (forall ns :: ns in s.calls ==> s.calls[ns] != "")
  }

  predicate Plain(e: Entry) {
    !e.SubagentDelta? && !e.SubagentResult?
  }

  ghost predicate AllPlain(entries: seq<Entry>) {
    forall k :: 0 <= k < |entries| ==> Plain(entries[k])
  }

  lemma SinceAfter(log: seq<Entry>, e: Entry, id: string)
    ensures Since(log + [e], id) ==
            if e.SubagentDelta? && e.id == id then Since(log, id) + e.delta
            else if e.SubagentResult? && e.id == id then ""
            else Since(log, id)
  {
    assert (log + [e])[..|log|] == log;
  }

  lemma ExactAfter(log: seq<Entry>, e: Entry)
    requires ResultsAreExact(log) && (e.SubagentResult? ==> e.content == Expected(log, e))
    ensures ResultsAreExact(log + [e])
  {
    var longer := log + [e];
    assert longer[..|log|] == log;
    forall k | 0 <= k < |log| && longer[k].SubagentResult?
      ensures longer[k].content == Expected(longer[..k], longer[k])
    {
      assert longer[..k] == log[..k];
    }
  }

  lemma {:induction false} PlainEntries(log: seq<Entry>, entries: seq<Entry>)
    requires AllPlain(entries)
    ensures forall id :: Since(log + entries, id) == Since(log, id)
    ensures ResultsAreExact(log) ==> ResultsAreExact(log + entries)
    ensures forall ns :: ResultsFor(log + entries, ns) == ResultsFor(log, ns)
    decreases |entries|
  {
    if entries == [] {
      assert log + entries == log;
    } else {
      var init, last := entries[..|entries| - 1], entries[|entries| - 1];
      PlainEntries(log, init);
      assert log + entries == (log + init) + [last];
      if ResultsAreExact(log) { ExactAfter(log + init, last); }
      forall id ensures Since(log + entries, id) == Since(log, id) { SinceAfter(log + init, last, id); }
      forall ns ensures ResultsFor(log + entries, ns) == ResultsFor(log, ns) { ResultsForAfter(log + init, last, ns); }
    }
  }

  /** How many results have ended a namespace. */
  function ResultsFor(log: seq<Entry>, ns: Namespace): nat {
    if log == [] then 0
    else
      ResultsFor(log[..|log| - 1], ns)
      + if log[|log| - 1].SubagentResult? && log[|log| - 1].ns == ns then 1 else 0
  }

  lemma ResultsForAfter(log: seq<Entry>, e: Entry, ns: Namespace)
    ensures ResultsFor(log + [e], ns) == ResultsFor(log, ns) + if e.SubagentResult? && e.ns == ns then 1 else 0
  {
    assert (log + [e])[..|log|] == log;
  }

  // ---- What the events say ----

  /** The namespace and call a start event records, on either lifecycle path. */
  function Records(e: Event): Option<(Namespace, string)> {
    if e.data.Lifecycle? && e.data.stage == Started && e.data.target.ListTarget? && e.data.toolCallId != ""
    then Some((if e.ns == [] then e.data.target.ns else e.ns, e.data.toolCallId))
    else None
  }

  /** The namespace an end event ends, on either lifecycle path. */
  function Ends(e: Event): Option<Namespace> {
    if !e.data.Lifecycle? || (e.data.stage != Completed && e.data.stage != Failed) then None
    else if e.ns != [] then Some(e.ns)
    else if e.data.target.ListTarget? then Some(e.data.target.ns)
    else None
  }

  /** The call of a namespace that has started and not ended. */
  function OpenCall(events: seq<Event>, ns: Namespace): Option<string> {
    if events == [] then None
    else
      var e := events[|events| - 1];
      if Records(e).Some? && Records(e).value.0 == ns then Some(Records(e).value.1)
      else if Ends(e) == Some(ns) then None
      else OpenCall(events[..|events| - 1], ns)
  }

  function StartsFor(events: seq<Event>, ns: Namespace): nat {
    if events == [] then 0
    else
      var e := events[|events| - 1];
      StartsFor(events[..|events| - 1], ns) + if Records(e).Some? && Records(e).value.0 == ns then 1 else 0
  }

  function CallOf(s: State, ns: Namespace): Option<string> {
    if ns in s.calls then Some(s.calls[ns]) else None
  }

  // ---- One event ----

  /** An event that neither starts nor ends a sub-agent, nor adds to its output, publishes plain entries only. */
  predicate IsPlain(s: State, e: Event) {
    Records(e).None? && Ends(e).None? &&
    !(e.ns != [] && e.data.Message? && e.data.payload.ContentDelta? && e.data.payload.delta.TextDelta?)
  }

  ghost predicate OnlySays(s: State, after: State, entries: seq<Entry>) {
    && after.log == s.log + entries && AllPlain(entries)
    && after.calls == s.calls && after.outputs == s.outputs
  }

  lemma PlainSum(a: seq<Entry>, b: seq<Entry>)
    requires AllPlain(a) && AllPlain(b)
    ensures AllPlain(a + b)
  {
  }

  lemma PlainInterrupt(text: string)
    ensures AllPlain(InterruptEntries(text))
  {
    var answer := if text == "" then None else Some(text);
    PlainSum(Remaining(text), [TurnResult(Question, answer), TurnEvent(TurnCompleted)]);
  }

  lemma PlainValuesEntries(s: State, ns: Namespace, d: Data)
    requires d.Values?
    ensures AllPlain(ValuesEntries(s, ns, d))
  {
    PlainSum(if d.files then [ValuesSent] else [], if HasNewTodos(s, ns, d) then [ValuesSent] else []);
  }

  lemma SayTwice(s: State, after: State, first: seq<Entry>, second: seq<Entry>)
    requires OnlySays(s, after, first) && AllPlain(second)
    ensures OnlySays(s, Say(after, second), first + second)
  {
    assert s.log + first + second == s.log + (first + second);
    PlainSum(first, second);
  }

  lemma PlainValues(s: State, ns: Namespace, d: Data) returns (entries: seq<Entry>)
    requires d.Values?
    ensures OnlySays(s, HandleValues(s, ns, d), entries)
  {
    var kept := AfterValues(s, ns, d);
    entries := ValuesEntries(s, ns, d);
    AfterValuesKeeps(s, ns, d);
    PlainValuesEntries(s, ns, d);
    if ns == [] && d.interrupts {
      PlainInterrupt(s.streamedText);
      SayTwice(s, Say(kept, entries), entries, InterruptEntries(s.streamedText));
      entries := entries + InterruptEntries(s.streamedText);
    }
  }

  lemma PlainSubagentMessage(s: State, ns: Namespace, p: Payload)
    requires !(p.ContentDelta? && p.delta.TextDelta?)
    ensures var after := HandleSubagentMessage(s, ns, p);
            after == s || (p.ContentDelta? && p.delta.ToolUseDelta? && after == Say(s, [Note(CallNote(p.delta.name))]))
  {
  }

  lemma PlainMessage(s: State, ns: Namespace, p: Payload) returns (entries: seq<Entry>)
    requires ns == [] || !(p.ContentDelta? && p.delta.TextDelta?)
    ensures OnlySays(s, if ns == [] then HandleRootMessage(s, p) else HandleSubagentMessage(s, ns, p), entries)
  {
    if ns == [] {
      entries := RootMessageEntries(s, p);
    } else {
      PlainSubagentMessage(s, ns, p);
      entries := if HandleSubagentMessage(s, ns, p) == s then [] else [Note(CallNote(p.delta.name))];
    }
  }

  lemma PlainEvent(s: State, e: Event) returns (entries: seq<Entry>)
    requires IsPlain(s, e)
    ensures OnlySays(s, Handle(s, e), entries)
  {
    if e.data.Message? {
      entries := PlainMessage(s, e.ns, e.data.payload);
    } else if e.data.Tool? {
      entries := ToolEntries(e.ns, e.data);
    } else if e.data.Values? {
      entries := PlainValues(s, e.ns, e.data);
    } else {
      entries := [];
    }
  }

  /** A start records its call; nothing it publishes is a result. */
  lemma StartEvent(s: State, e: Event)
    requires Records(e).Some?
    ensures Handle(s, e).calls == s.calls[Records(e).value.0 := Records(e).value.1]
    ensures Handle(s, e).outputs == s.outputs
    ensures Handle(s, e).log == s.log || exists started :: Plain(started) && Handle(s, e).log == s.log + [started]
  {
    if e.ns == [] {
      var ns := e.data.target.ns;
      var recorded := s.(calls := s.calls[ns := e.data.toolCallId], names := s.names[ns := e.data.graphName]);
      var started := SubagentStarted(e.data.toolCallId, e.data.graphName, Parent(recorded, ns));
      assert Plain(started) && Handle(s, e).log == s.log + [started];
    }
  }

  lemma EndEvent(s: State, e: Event)
    requires Ends(e).Some?
    ensures Handle(s, e) == EndSubagent(s, Ends(e).value, e.data.stage == Failed)
  {
  }

  lemma DeltaEvent(s: State, e: Event)
    requires e.ns != [] && e.data.Message? && e.data.payload.ContentDelta? && e.data.payload.delta.TextDelta?
    ensures Handle(s, e).calls == s.calls
    ensures var text := e.data.payload.delta.text;
            if e.ns !in s.calls || s.calls[e.ns] == "" || text == "" then Handle(s, e) == s
            else
              var id := s.calls[e.ns];
              && Handle(s, e).log == s.log + [SubagentDelta(id, NameOf(s, e.ns), text)]
              && Handle(s, e).outputs == s.outputs[id := Get(s.outputs, id) + text]
  {
  }

  lemma EndKeepsExact(s: State, ns: Namespace, isError: bool)
    requires OutputsAreCurrent(s) && ResultsAreExact(s.log)
    ensures OutputsAreCurrent(EndSubagent(s, ns, isError)) && ResultsAreExact(EndSubagent(s, ns, isError).log)
  {
    if ns in s.calls {
      var id := s.calls[ns];
      var result := SubagentResult(ns, id, NameOf(s, ns), Content(Get(s.outputs, id), isError), isError);
      ExactAfter(s.log, result);
      forall other: string ensures Since(s.log + [result], other) == if other == id then "" else Since(s.log, other) {
        SinceAfter(s.log, result, other);
      }
    }
  }

  lemma DeltaKeepsExact(s: State, e: Event)
    requires OutputsAreCurrent(s) && ResultsAreExact(s.log)
    requires e.ns != [] && e.data.Message? && e.data.payload.ContentDelta? && e.data.payload.delta.TextDelta?
    ensures OutputsAreCurrent(Handle(s, e)) && ResultsAreExact(Handle(s, e).log)
  {
    DeltaEvent(s, e);
    var text := e.data.payload.delta.text;
    if e.ns in s.calls && text != "" {
      var id := s.calls[e.ns];
      var delta := SubagentDelta(id, NameOf(s, e.ns), text);
      ExactAfter(s.log, delta);
      forall other: string
        ensures Since(s.log + [delta], other) == if other == id then Since(s.log, other) + text else Since(s.log, other)
      {
        SinceAfter(s.log, delta, other);
      }
    }
  }

  lemma StartKeepsExact(s: State, e: Event)
    requires OutputsAreCurrent(s) && ResultsAreExact(s.log) && Records(e).Some?
    ensures OutputsAreCurrent(Handle(s, e)) && ResultsAreExact(Handle(s, e).log)
  {
    StartEvent(s, e);
    if Handle(s, e).log != s.log {
      var started :| Plain(started) && Handle(s, e).log == s.log + [started];
      PlainEntries(s.log, [started]);
    }
  }

  lemma EventKeepsExact(s: State, e: Event)
    requires OutputsAreCurrent(s) && ResultsAreExact(s.log)
    ensures OutputsAreCurrent(Handle(s, e)) && ResultsAreExact(Handle(s, e).log)
  {
    if Records(e).Some? {
      StartKeepsExact(s, e);
    } else if Ends(e).Some? {
      EndEvent(s, e);
      EndKeepsExact(s, Ends(e).value, e.data.stage == Failed);
    } else if IsPlain(s, e) {
      var entries := PlainEvent(s, e);
      PlainEntries(s.log, entries);
    } else {
      DeltaKeepsExact(s, e);
    }
  }

  /**
   * Main result: every sub-agent result carries exactly the deltas published for its call since its last result,
   * or the placeholder.
   */
  lemma {:induction false} SubagentResultsAreExact(events: seq<Event>)
    ensures OutputsAreCurrent(Process(events)) && ResultsAreExact(Process(events).log)
    decreases |events|
  {
    if events == [] {
      var log := [TurnEvent(TurnStarted)];
      assert NewState.log + log == log;
      forall id: string ensures Since(log, id) == "" {
        assert log == [] + [TurnEvent(TurnStarted)];
        SinceAfter([], TurnEvent(TurnStarted), id);
      }
    } else {
      SubagentResultsAreExact(events[..|events| - 1]);
      EventKeepsExact(Process(events[..|events| - 1]), events[|events| - 1]);
    }
  }

  // ---- Starts and results ----

  /** The recorded calls are those the events leave open. */
  lemma {:induction false} CallsAreOpen(events: seq<Event>, ns: Namespace)
    requires !Process(events).stopped
    ensures CallOf(Process(events), ns) == OpenCall(events, ns)
    decreases |events|
  {
    if events != [] {
      var init, e := events[..|events| - 1], events[|events| - 1];
      var s := Process(init);
      SubagentResultsAreExact(init);
      CallsAreOpen(init, ns);
      if Records(e).Some? {
        StartEvent(s, e);
      } else if Ends(e).Some? {
        EndEvent(s, e);
      } else if IsPlain(s, e) {
        var entries := PlainEvent(s, e);
      } else {
        DeltaEvent(s, e);
      }
    }
  }

  /** An end event publishes one result, for the call its namespace has open, and nothing when it has none. */
  lemma EndReportsItsCall(events: seq<Event>, e: Event)
    requires !Process(events).stopped && Ends(e).Some?
    ensures var ns, log := Ends(e).value, Process(events).log;
            Process(events + [e]).log ==
            match OpenCall(events, ns)
            case None => log
            case Some(id) =>
              log + [SubagentResult(ns, id, NameOf(Process(events), ns),
                                    Content(Since(log, id), e.data.stage == Failed), e.data.stage == Failed)]
  {
    var s := Process(events);
    assert (events + [e])[..|events + [e]| - 1] == events;
    SubagentResultsAreExact(events);
    CallsAreOpen(events, Ends(e).value);
    EndEvent(s, e);
  }

  /** Starts used up: results published, and one for a call still open. */
  ghost function Used(s: State, ns: Namespace): nat {
    ResultsFor(s.log, ns) + if ns in s.calls then 1 else 0
  }

  lemma EventUsesStarts(s: State, e: Event, ns: Namespace)
    ensures Used(Handle(s, e), ns) <= Used(s, ns) + if Records(e).Some? && Records(e).value.0 == ns then 1 else 0
  {
    if Records(e).Some? {
      StartEvent(s, e);
      if Handle(s, e).log != s.log {
        var started :| Plain(started) && Handle(s, e).log == s.log + [started];
        ResultsForAfter(s.log, started, ns);
      }
    } else if Ends(e).Some? {
      EndEvent(s, e);
      EndUsesStart(s, Ends(e).value, e.data.stage == Failed, ns);
    } else if IsPlain(s, e) {
      var entries := PlainEvent(s, e);
      PlainEntries(s.log, entries);
    } else {
      DeltaEvent(s, e);
      if Handle(s, e).log != s.log {
        ResultsForAfter(s.log, SubagentDelta(s.calls[e.ns], NameOf(s, e.ns), e.data.payload.delta.text), ns);
      }
    }
  }

  lemma EndUsesStart(s: State, ended: Namespace, isError: bool, ns: Namespace)
    ensures Used(EndSubagent(s, ended, isError), ns) <= Used(s, ns)
  {
    var after := EndSubagent(s, ended, isError);
    if after.log != s.log {
      ResultsForAfter(s.log, after.log[|s.log|], ns);
      assert after.log == s.log + [after.log[|s.log|]];
    }
  }

  /**
   * Each recorded start of a namespace yields at most one result, even when its end arrives on both lifecycle
   * paths.
   */
  lemma {:induction false} OneResultPerStart(events: seq<Event>, ns: Namespace)
    ensures Used(Process(events), ns) <= StartsFor(events, ns)
    decreases |events|
  {
    if events == [] {
      assert Process([]).log == [] + [TurnEvent(TurnStarted)];
      ResultsForAfter([], TurnEvent(TurnStarted), ns);
    } else {
      OneResultPerStart(events[..|events| - 1], ns);
      EventUsesStarts(Process(events[..|events| - 1]), events[|events| - 1], ns);
    }
  }

  // ---- The counts ----

  /** The results published for a namespace. */
  ghost function ResultsAt(log: seq<Entry>, ns: Namespace): set<nat> {
    set k | 0 <= k < |log| && log[k].SubagentResult? && log[k].ns == ns
  }

  /** The events that record a start of a namespace. */
  ghost function StartsAt(events: seq<Event>, ns: Namespace): set<nat> {
    set k | 0 <= k < |events| && Records(events[k]).Some? && Records(events[k]).value.0 == ns
  }

  lemma {:induction false} ResultsForIsCount(log: seq<Entry>, ns: Namespace)
    ensures ResultsFor(log, ns) == |ResultsAt(log, ns)|
    decreases |log|
  {
    if log != [] {
      var n := |log| - 1;
      ResultsForIsCount(log[..n], ns);
      var more := if log[n].SubagentResult? && log[n].ns == ns then {n} else {};
      assert ResultsAt(log, ns) == ResultsAt(log[..n], ns) + more;
      assert n !in ResultsAt(log[..n], ns);
    }
  }

  lemma {:induction false} StartsForIsCount(events: seq<Event>, ns: Namespace)
    ensures StartsFor(events, ns) == |StartsAt(events, ns)|
    decreases |events|
  {
    if events != [] {
      var n := |events| - 1;
      StartsForIsCount(events[..n], ns);
      var more := if Records(events[n]).Some? && Records(events[n]).value.0 == ns then {n} else {};
      assert StartsAt(events, ns) == StartsAt(events[..n], ns) + more;
      assert n !in StartsAt(events[..n], ns);
    }
  }

  /** So a namespace never has more results than recorded starts, one it has open counted as a result to come. */
  lemma ResultsHaveStarts(events: seq<Event>, ns: Namespace)
    requires !Process(events).stopped
    ensures |ResultsAt(Process(events).log, ns)| + (if OpenCall(events, ns).Some? then 1 else 0) <=
            |StartsAt(events, ns)|
  {
    OneResultPerStart(events, ns);
    CallsAreOpen(events, ns);
    ResultsForIsCount(Process(events).log, ns);
    StartsForIsCount(events, ns);
  }
}
