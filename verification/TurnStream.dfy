/**
 * What a turn's clients see (core/execution/executor.py, core/execution/handlers/, api/publisher.py): its text, its
 * result, its tool calls, and whether its stream is kept for the user.
 */
module TurnStream {
  import opened Wrappers
  import opened Handlers
  import P = Publisher

  // ---- What a log says ----

  /**
   * The coordinator's text, the text a client shows, the results, the tool calls announced, and whether the stream
   * is closed.
   */
  datatype Seen = Seen(root: string, shown: string, results: seq<Entry>, announced: seq<P.Block>, closed: bool)

  const Nothing := Seen("", "", [], [], false)

  function ToolUses(content: seq<P.Block>): seq<P.Block> {
    if content == [] then []
    else
      var before, last := ToolUses(content[..|content| - 1]), content[|content| - 1];
      if last.ToolUse? then before + [last] else before
  }

  function Add(x: Seen, e: Entry): Seen {
    match e
    case RootText(text) => x.(root := x.root + text, shown := x.shown + text)
    case Note(note) => x.(shown := x.shown + NoteText(note))
    case RootBlocks(blocks) => x.(announced := x.announced + ToolUses(blocks))
    case TurnResult(_, _) => x.(results := x.results + [e])
    case Closed => x.(closed := true)
    case _ => x
  }

  function SeenIn(log: seq<Entry>): Seen {
    if log == [] then Nothing else Add(SeenIn(log[..|log| - 1]), log[|log| - 1])
  }

  lemma SeenAfter(log: seq<Entry>, e: Entry)
    ensures SeenIn(log + [e]) == Add(SeenIn(log), e)
  {
    assert (log + [e])[..|log|] == log;
  }

  lemma SeenAfterTwo(log: seq<Entry>, e: Entry, f: Entry)
    ensures SeenIn(log + [e, f]) == Add(Add(SeenIn(log), e), f)
  {
    SeenAfter(log, e);
    SeenAfter(log + [e], f);
    assert log + [e, f] == log + [e] + [f];
  }

  lemma SeenAfterThree(log: seq<Entry>, e: Entry, f: Entry, g: Entry)
    ensures SeenIn(log + [e, f, g]) == Add(Add(Add(SeenIn(log), e), f), g)
  {
    var two := log + [e, f];
    SeenAfterTwo(log, e, f);
    SeenAfter(two, g);
    assert log + [e, f, g] == two + [g];
  }

  /** The client's text is the coordinator's exactly when no sub-agent left a note. */
  lemma {:induction false} ShownIsRootIff(log: seq<Entry>)
    ensures |SeenIn(log).shown| >= |SeenIn(log).root|
    ensures SeenIn(log).shown == SeenIn(log).root <==> forall k :: 0 <= k < |log| ==> !log[k].Note?
    ensures |SeenIn(log).shown| == |SeenIn(log).root| ==> SeenIn(log).shown == SeenIn(log).root
    decreases |log|
  {
    if log != [] {
      var init, last := log[..|log| - 1], log[|log| - 1];
      ShownIsRootIff(init);
      if last.Note? {
        assert |NoteText(last.note)| > 0;
      } else {
        assert forall k :: 0 <= k < |init| ==> log[k] == init[k];
      }
    }
  }

  // ---- One event ----

  /** The tool calls the coordinator's messages have begun. */
  function CallBlocks(events: seq<Event>): seq<P.Block> {
    if events == [] then []
    else
      var before, e := CallBlocks(events[..|events| - 1]), events[|events| - 1];
      if e.ns == [] && e.data.Message? && e.data.payload.ToolCallBlock?
      then before + [P.ToolUse(e.data.payload.id, e.data.payload.name)]
      else before
  }

  ghost predicate UsesOnly(blocks: seq<P.Block>) {
    forall k :: 0 <= k < |blocks| ==> blocks[k].ToolUse?
  }

  lemma {:induction false} ToolUsesOfMessage(blocks: seq<P.Block>)
    requires UsesOnly(blocks)
    ensures ToolUses([P.TextBlock] + blocks) == blocks
    decreases |blocks|
  {
    var content := [P.TextBlock] + blocks;
    if blocks == [] {
      assert content[..0] == [];
    } else {
      ToolUsesOfMessage(blocks[..|blocks| - 1]);
      assert content[..|content| - 1] == [P.TextBlock] + blocks[..|blocks| - 1];
    }
  }

  lemma ToolUsesOfText()
    ensures ToolUses([P.TextBlock]) == []
  {
    assert [P.TextBlock][..0] == [];
  }

  function AnswerOf(text: string): Option<string> {
    if text == "" then None else Some(text)
  }

  /** What the execution state and the log agree on, the calls begun so far being `begun`. */
  ghost predicate Agrees(s: State, begun: seq<P.Block>) {
    var seen := SeenIn(s.log);
    !seen.closed &&
    if s.stopped then seen.results == [TurnResult(Question, AnswerOf(seen.root))]
    else
      && seen.results == [] && seen.root == s.streamedText
      && UsesOnly(s.blocks) && seen.announced + s.blocks == begun
  }

  /** An entry that says nothing a client shows as text, result or announced call. */
  predicate Silent(e: Entry) {
    !e.RootText? && !e.Note? && !e.RootBlocks? && !e.TurnResult? && !e.Closed?
  }

  lemma SilentEntryAgrees(s: State, after: State, e: Entry, begun: seq<P.Block>)
    requires !s.stopped && !after.stopped && Agrees(s, begun) && Silent(e)
    requires after.log == s.log + [e] && after.streamedText == s.streamedText && after.blocks == s.blocks
    ensures Agrees(after, begun)
  {
    SeenAfter(s.log, e);
  }

  lemma EndAgrees(s: State, ns: Namespace, isError: bool, begun: seq<P.Block>)
    requires !s.stopped && Agrees(s, begun)
    ensures Agrees(EndSubagent(s, ns, isError), begun)
  {
    if ns in s.calls && s.calls[ns] != "" {
      var id := s.calls[ns];
      SilentEntryAgrees(s, EndSubagent(s, ns, isError),
                        SubagentResult(ns, id, NameOf(s, ns), Content(Get(s.outputs, id), isError), isError), begun);
    }
  }

  lemma RootLifecycleAgrees(s: State, d: Data, begun: seq<P.Block>)
    requires !s.stopped && Agrees(s, begun) && d.Lifecycle?
    ensures Agrees(HandleLifecycle(s, d), begun)
  {
    if d.target.ListTarget? {
      var ns := d.target.ns;
      EndAgrees(s, ns, d.stage == Failed, begun);
      if d.stage == Started && d.toolCallId != "" {
        var started := s.(calls := s.calls[ns := d.toolCallId], names := s.names[ns := d.graphName]);
        SilentEntryAgrees(
          s, HandleLifecycle(s, d), SubagentStarted(d.toolCallId, d.graphName, Parent(started, ns)), begun);
      }
    }
  }

  lemma SubagentLifecycleAgrees(s: State, ns: Namespace, d: Data, begun: seq<P.Block>)
    requires !s.stopped && Agrees(s, begun) && d.Lifecycle?
    ensures Agrees(HandleSubagentLifecycle(s, ns, d), begun)
  {
    EndAgrees(s, ns, d.stage == Failed, begun);
  }

  lemma MessageFinishAgrees(s: State, begun: seq<P.Block>)
    requires !s.stopped && Agrees(s, begun)
    ensures Agrees(HandleRootMessage(s, MessageFinish), begun)
  {
    var announced := RootBlocks([P.TextBlock] + s.blocks);
    if s.blocks == [] {
      SeenAfter(s.log, FinishMessage);
    } else {
      ToolUsesOfMessage(s.blocks);
      SeenAfterTwo(s.log, announced, FinishMessage);
    }
  }

  lemma RootMessageAgrees(s: State, p: Payload, begun: seq<P.Block>)
    requires !s.stopped && Agrees(s, begun)
    ensures Agrees(HandleRootMessage(s, p), if p.ToolCallBlock? then begun + [P.ToolUse(p.id, p.name)] else begun)
  {
    assert s.log + [] == s.log;
    if p.MessageFinish? {
      MessageFinishAgrees(s, begun);
    } else if p.ContentDelta? {
      SeenAfter(s.log, RootText(DeltaText(p.delta)));
    }
  }

  lemma SubagentMessageAgrees(s: State, ns: Namespace, p: Payload, begun: seq<P.Block>)
    requires !s.stopped && Agrees(s, begun)
    ensures Agrees(HandleSubagentMessage(s, ns, p), begun)
  {
    if ns in s.calls && p.ContentDelta? && p.delta.ToolUseDelta? {
      SeenAfter(s.log, Note(CallNote(p.delta.name)));
    } else if ns in s.calls && s.calls[ns] != "" && p.ContentDelta? && p.delta.TextDelta? && p.delta.text != "" {
      SilentEntryAgrees(
        s, HandleSubagentMessage(s, ns, p), SubagentDelta(s.calls[ns], NameOf(s, ns), p.delta.text), begun);
    }
  }

  lemma ToolAgrees(s: State, ns: Namespace, d: Data, begun: seq<P.Block>)
    requires !s.stopped && Agrees(s, begun) && d.Tool?
    ensures Agrees(Say(s, ToolEntries(ns, d)), begun)
  {
    var entries := ToolEntries(ns, d);
    assert s.log + [] == s.log;
    if entries != [] {
      assert entries == [entries[0]];
      SeenAfter(s.log, entries[0]);
    }
  }

  lemma ValuesEntriesSeen(s: State, ns: Namespace, d: Data)
    requires d.Values?
    ensures SeenIn(s.log + ValuesEntries(s, ns, d)) == SeenIn(s.log)
  {
    SeenAfter(s.log, ValuesSent);
    SeenAfterTwo(s.log, Snapshot, ValuesSent);
    SeenAfterTwo(s.log, ValuesSent, ValuesSent);
    assert s.log + [] == s.log && [ValuesSent] + [] == [ValuesSent] && [] + [ValuesSent] == [ValuesSent];
    assert [ValuesSent] + [ValuesSent] == [ValuesSent, ValuesSent];
  }

  lemma SentAgrees(s: State, ns: Namespace, d: Data, begun: seq<P.Block>)
    requires !s.stopped && Agrees(s, begun) && d.Values?
    ensures Agrees(Say(AfterValues(s, ns, d), ValuesEntries(s, ns, d)), begun)
  {
    AfterValuesKeeps(s, ns, d);
    ValuesEntriesSeen(s, ns, d);
  }

  lemma InterruptAgrees(s: State, begun: seq<P.Block>)
    requires !s.stopped && Agrees(s, begun)
    ensures Agrees(PublishInterrupt(s), begun)
  {
    var result := TurnResult(Question, AnswerOf(s.streamedText));
    ToolUsesOfText();
    SeenAfterTwo(s.log, result, TurnEvent(TurnCompleted));
    SeenAfterThree(s.log, RootBlocks([P.TextBlock]), result, TurnEvent(TurnCompleted));
    assert InterruptEntries(s.streamedText) ==
           if s.streamedText == "" then [result, TurnEvent(TurnCompleted)]
           else [RootBlocks([P.TextBlock]), result, TurnEvent(TurnCompleted)];
  }

  lemma EventAgrees(s: State, e: Event, begun: seq<P.Block>)
    requires !s.stopped && Agrees(s, begun)
    ensures Agrees(Handle(s, e),
                   if e.ns == [] && e.data.Message? && e.data.payload.ToolCallBlock?
                   then begun + [P.ToolUse(e.data.payload.id, e.data.payload.name)] else begun)
  {
    if e.data.Lifecycle? {
      if e.ns == [] { RootLifecycleAgrees(s, e.data, begun); }
      else { SubagentLifecycleAgrees(s, e.ns, e.data, begun); }
    } else if e.data.Message? {
      if e.ns == [] { RootMessageAgrees(s, e.data.payload, begun); }
      else { SubagentMessageAgrees(s, e.ns, e.data.payload, begun); }
    } else if e.data.Tool? {
      ToolAgrees(s, e.ns, e.data, begun);
    } else if e.data.Values? {
      SentAgrees(s, e.ns, e.data, begun);
      if e.ns == [] && e.data.interrupts {
        InterruptAgrees(Say(AfterValues(s, e.ns, e.data), ValuesEntries(s, e.ns, e.data)), begun);
      }
    }
  }

  /**
   * While a turn runs its text is exactly the coordinator's deltas, in order, and the tool calls its messages began are
   * exactly those announced, in order, and those waiting for their message to finish.
   */
  lemma {:induction false} EventsAgree(events: seq<Event>)
    ensures Agrees(Process(events), CallBlocks(events)) || Process(events).stopped
    ensures Process(events).stopped ==> exists begun :: Agrees(Process(events), begun)
    decreases |events|
  {
    if events == [] {
      SeenAfter([], TurnEvent(TurnStarted));
      assert NewState.log + [TurnEvent(TurnStarted)] == [] + [TurnEvent(TurnStarted)];
    } else {
      var init := events[..|events| - 1];
      EventsAgree(init);
      if !Process(init).stopped { EventAgrees(Process(init), events[|events| - 1], CallBlocks(init)); }
    }
  }

  // ---- The turn's result ----

  /**
   * What a turn's results must be, `text` being the coordinator's whole text and `stopped` whether an event stopped
   * it.
   */
  function ExpectedResults(stopped: bool, text: string, end: End): seq<Entry> {
    match end
    case Unstarted => []
    case CancelledBefore => [TurnResult(Cancel, Some("Turn cancelled by user"))]
    case FailedBefore(error) => [TurnResult(Error, Some(error))]
    case _ => if stopped then [TurnResult(Question, AnswerOf(text))] else EndResults(text, end)
  }

  function EndResults(text: string, end: End): seq<Entry>
    requires ReachesGraph(end)
  {
    match end
    case Drained => [TurnResult(Answer, Some(text))]
    case Broken(error) => [TurnResult(Error, Some(error))]
    case Cancelled => [TurnResult(Cancel, Some("Execution cancelled by user")),
                       TurnResult(Cancel, Some("Turn cancelled by user"))]
    case CancelledAfter => [TurnResult(Answer, Some(text)), TurnResult(Cancel, Some("Execution cancelled by user")),
                            TurnResult(Cancel, Some("Turn cancelled by user"))]
  }

  lemma ResultSeen(log: seq<Entry>, result: Entry)
    requires result.TurnResult?
    ensures SeenIn(log + [FinishMessage, result, TurnEvent(TurnCompleted)]) ==
            SeenIn(log).(results := SeenIn(log).results + [result])
  {
    SeenAfterThree(log, FinishMessage, result, TurnEvent(TurnCompleted));
  }

  lemma AnswerSeen(log: seq<Entry>, text: string)
    ensures SeenIn(log + AnswerEntries(text)) ==
            SeenIn(log).(results := SeenIn(log).results + [TurnResult(Answer, Some(text))])
  {
    var result, block := TurnResult(Answer, Some(text)), RootBlocks([P.TextBlock]);
    var final := [FinishMessage, result, TurnEvent(TurnCompleted)];
    if text == "" {
      ResultSeen(log, result);
      assert AnswerEntries(text) == final;
    } else {
      ToolUsesOfText();
      SeenAfter(log, block);
      ResultSeen(log + [block], result);
      assert log + AnswerEntries(text) == (log + [block]) + final;
      assert SeenIn(log).announced + [] == SeenIn(log).announced;
    }
  }

  lemma CancelSeen(log: seq<Entry>)
    ensures SeenIn(log + CancelEntries) ==
            SeenIn(log).(results := SeenIn(log).results + [ExecutorCancelled, RouterCancelled])
  {
    SeenAfterThree(log, ExecutorCancelled, TurnEvent(TurnCancelled), RouterCancelled);
    assert SeenIn(log).results + [ExecutorCancelled] + [RouterCancelled] ==
           SeenIn(log).results + [ExecutorCancelled, RouterCancelled];
  }

  lemma FinalEntriesSeen(s: State, end: End)
    requires SeenIn(s.log).results == [] && ReachesGraph(end)
    ensures SeenIn(s.log + FinalEntries(s, end)) == SeenIn(s.log).(results := EndResults(s.streamedText, end))
  {
    match end
    case Drained => AnswerSeen(s.log, s.streamedText);
    case Broken(error) => SeenAfterThree(s.log, FinishMessage, TurnResult(Error, Some(error)), TurnEvent(TurnFailed));
    case Cancelled => CancelSeen(s.log);
    case CancelledAfter =>
      var answered := s.log + AnswerEntries(s.streamedText);
      AnswerSeen(s.log, s.streamedText);
      CancelSeen(answered);
      assert s.log + FinalEntries(s, end) == answered + CancelEntries;
  }

  lemma GraphSaid(events: seq<Event>, end: End)
    requires ReachesGraph(end)
    ensures var seen := SeenIn(Said(events, end));
            !seen.closed && seen.results == ExpectedResults(Process(events).stopped, seen.root, end)
  {
    var s := Process(events);
    EventsAgree(events);
    if s.stopped {
      assert s.log + [] == s.log;
    } else {
      FinalEntriesSeen(s, end);
    }
  }

  lemma OnlySeen(e: Entry)
    ensures SeenIn([e]) == Add(Nothing, e)
  {
    SeenAfter([], e);
    assert [] + [e] == [e];
  }

  lemma SaidBeforeClosing(events: seq<Event>, end: End)
    ensures var seen := SeenIn(Said(events, end));
            !seen.closed && seen.results == ExpectedResults(Process(events).stopped, seen.root, end)
  {
    match end
    case Unstarted =>
    case CancelledBefore => OnlySeen(RouterCancelled);
    case FailedBefore(error) => OnlySeen(TurnResult(Error, Some(error)));
    case _ => GraphSaid(events, end);
  }

  lemma ClosingSeen(log: seq<Entry>)
    ensures SeenIn(log + [Closed]) == SeenIn(log).(closed := true)
  {
    SeenAfter(log, Closed);
  }

  /**
   * Main result: the results of every turn, by how it ends. A successful turn's carries the concatenation of all the
   * coordinator's deltas; so does a turn's that stopped on a question, unless there were none.
   */
  lemma TurnResultIsItsText(events: seq<Event>, end: End)
    ensures var seen := SeenIn(Turn(events, end));
            seen.closed == !end.Unstarted? && seen.results == ExpectedResults(Process(events).stopped, seen.root, end)
  {
    SaidBeforeClosing(events, end);
    ClosingSeen(Said(events, end));
  }

  /**
   * So a turn publishes exactly one result unless it never starts, or is cancelled while its graph runs or after its
   * answer.
   */
  lemma OneResultIff(events: seq<Event>, end: End)
    ensures |SeenIn(Turn(events, end)).results| == 1 <==>
            !end.Unstarted? && (Process(events).stopped || (!end.Cancelled? && !end.CancelledAfter?))
    ensures !Process(events).stopped && end.Cancelled? ==> |SeenIn(Turn(events, end)).results| == 2
    ensures !Process(events).stopped && end.CancelledAfter? ==> |SeenIn(Turn(events, end)).results| == 3
  {
    TurnResultIsItsText(events, end);
  }

  // ---- The stream ----

  function Calls(log: seq<Entry>): seq<P.Call> {
    seq(|log|, k requires 0 <= k < |log| => ToCall(log[k]))
  }

  /** The text of a stream's text deltas. */
  function StreamText(stream: seq<P.Frame>): string {
    if stream == [] then ""
    else
      var before, last := StreamText(stream[..|stream| - 1]), stream[|stream| - 1];
      if last.Event? && last.body.TextDelta? then before + last.body.text else before
  }

  /** The result frames of a stream. */
  function StreamResults(stream: seq<P.Frame>): seq<P.Frame> {
    if stream == [] then []
    else
      var before, last := StreamResults(stream[..|stream| - 1]), stream[|stream| - 1];
      if last.Result? then before + [last] else before
  }

  lemma FrameShows(stream: seq<P.Frame>, f: P.Frame)
    ensures StreamText(stream + [f]) ==
            if f.Event? && f.body.TextDelta? then StreamText(stream) + f.body.text else StreamText(stream)
    ensures StreamResults(stream + [f]) == if f.Result? then StreamResults(stream) + [f] else StreamResults(stream)
  {
    assert (stream + [f])[..|stream|] == stream;
  }

  /** `after` shows the text `text` more than `before`, and no result more. */
  ghost predicate Shows(before: P.State, after: P.State, text: string) {
    && !before.closed && !after.closed && after.awaiting == before.awaiting
    && StreamText(after.stream) == StreamText(before.stream) + text
    && StreamResults(after.stream) == StreamResults(before.stream)
  }

  lemma EmitShows(p: P.State, body: P.Body)
    requires !p.closed
    ensures Shows(p, P.Emit(p, body), if body.TextDelta? then body.text else "")
  {
    FrameShows(p.stream, P.Event(p.number + 1, body));
  }

  lemma OneBlockShows(p: P.State, b: P.Block)
    requires !p.closed
    ensures Shows(p, P.OneBlock(p, b), "")
  {
    if b.ToolUse? {
      var p0 := p.(index := p.index + 1);
      var p1 := P.Emit(p0, P.ToolStart(p0.index, b));
      var p2 := P.Emit(p1, P.ToolFinish(p0.index, b));
      EmitShows(p0, P.ToolStart(p0.index, b));
      EmitShows(p1, P.ToolFinish(p0.index, b));
      EmitShows(p2, P.ToolAnnounced(b));
    }
  }

  lemma {:induction false} BlocksShow(p: P.State, content: seq<P.Block>)
    requires !p.closed
    ensures Shows(p, P.Blocks(p, content), "")
    decreases |content|
  {
    if content != [] {
      var n := |content| - 1;
      BlocksShow(p, content[..n]);
      OneBlockShows(P.Blocks(p, content[..n]), content[n]);
    }
  }

  lemma TextShows(p: P.State, text: string)
    requires !p.closed
    ensures Shows(p, P.Publish(p, P.StreamText(text)), text)
  {
    var q := P.OpenMessage(p);
    if !p.inMessage { EmitShows(p.(inMessage := true, index := 0), P.MessageStart); }
    var r := P.OpenBlock(q);
    if !q.inBlock { EmitShows(q.(inBlock := true), P.TextStart(q.index)); }
    EmitShows(r, P.TextDelta(r.index, text));
  }

  lemma CloseBlockShows(p: P.State)
    requires !p.closed
    ensures Shows(p, P.CloseBlock(p), "")
  {
    if p.inBlock { EmitShows(p.(inBlock := false), P.TextFinish(p.index)); }
  }

  lemma FinishShows(p: P.State)
    requires !p.closed
    ensures Shows(p, P.Publish(p, P.FinishMessage), "")
  {
    CloseBlockShows(p);
    var q := P.CloseBlock(p);
    if q.inMessage { EmitShows(q, P.MessageFinish); }
  }

  lemma QuietCallShows(p: P.State, e: Entry)
    requires !p.closed && !e.TurnResult? && !e.Closed? && !e.RootText? && !e.Note?
    ensures Shows(p, P.Publish(p, ToCall(e)), "")
  {
    match ToCall(e)
    case Assistant(content) =>
      CloseBlockShows(p);
      BlocksShow(P.CloseBlock(p), content);
    case FinishMessage => FinishShows(p);
    case PublishCheckpoint => EmitShows(p.(steps := p.steps + 1), P.Checkpoint(p.steps + 1));
    case PublishAside(aside) => EmitShows(p, P.Other(aside));
  }

  lemma ResultShows(p: P.State, subtype: string, result: Option<string>)
    requires !p.closed
    ensures var after := P.Publish(p, P.PublishResult(subtype, result));
            && !after.closed && after.awaiting == (subtype == P.INTERRUPTED)
            && StreamText(after.stream) == StreamText(p.stream)
            && StreamResults(after.stream) == StreamResults(p.stream) + [P.Result(subtype, result)]
  {
    EmitShows(p, P.MessageFinishWithUsage);
    FrameShows(P.Emit(p, P.MessageFinishWithUsage).stream, P.Result(subtype, result));
  }

  function AsFrames(results: seq<Entry>): seq<P.Frame>
    requires forall k :: 0 <= k < |results| ==> results[k].TurnResult?
  {
    seq(|results|, k requires 0 <= k < |results| => P.Result(Subtype(results[k].outcome), results[k].result))
  }

  ghost predicate LastIsQuestion(results: seq<Entry>) {
    results != [] && results[|results| - 1].TurnResult? && results[|results| - 1].outcome == Question
  }

  /** The stream shows what the log says, and awaits the user exactly when the last result is a question. */
  ghost predicate Mirrors(p: P.State, seen: Seen) {
    && !p.closed
    && (forall k :: 0 <= k < |seen.results| ==> seen.results[k].TurnResult?)
    && StreamText(p.stream) == seen.shown && StreamResults(p.stream) == AsFrames(seen.results)
    && p.awaiting == LastIsQuestion(seen.results)
  }

  lemma EntryIsMirrored(p: P.State, seen: Seen, e: Entry)
    requires Mirrors(p, seen) && !e.Closed?
    ensures Mirrors(P.Publish(p, ToCall(e)), Add(seen, e))
  {
    if e.RootText? {
      TextShows(p, e.text);
    } else if e.Note? {
      TextShows(p, NoteText(e.note));
    } else if e.TurnResult? {
      ResultShows(p, Subtype(e.outcome), e.result);
      assert AsFrames(seen.results + [e]) == AsFrames(seen.results) + [P.Result(Subtype(e.outcome), e.result)];
    } else {
      QuietCallShows(p, e);
    }
  }

  lemma {:induction false} LogIsMirrored(log: seq<Entry>)
    requires !SeenIn(log).closed
    ensures Mirrors(P.PublishAll(P.Fresh, Calls(log)), SeenIn(log))
    decreases |log|
  {
    if log != [] {
      var init, last := log[..|log| - 1], log[|log| - 1];
      LogIsMirrored(init);
      assert Calls(log)[..|log| - 1] == Calls(init);
      EntryIsMirrored(P.PublishAll(P.Fresh, Calls(init)), SeenIn(init), last);
    }
  }

  lemma ClosingIsMirrored(p: P.State, seen: Seen)
    requires Mirrors(p, seen)
    ensures var after := P.Publish(p, P.Close);
            && after.closed && after.keptForUser == Some(LastIsQuestion(seen.results))
            && StreamText(after.stream) == seen.shown && StreamResults(after.stream) == AsFrames(seen.results)
  {
    FrameShows(p.stream, P.Sentinel);
  }

  /**
   * Main result: a client reads the whole stream of any turn; the stream shows the turn's text and carries its results.
   * It is closed unless the turn never started, and then kept for the user exactly when the turn stopped on a question.
   */
  lemma TurnReachesItsClients(events: seq<Event>, end: End)
    ensures var p := P.PublishAll(P.Fresh, Calls(Turn(events, end)));
            && P.Coherent(p) && p.closed == !end.Unstarted?
            && (p.closed ==> p.keptForUser == Some(ReachesGraph(end) && Process(events).stopped))
            && StreamText(p.stream) == SeenIn(Turn(events, end)).shown
            && StreamResults(p.stream) ==
               AsFrames(ExpectedResults(Process(events).stopped, SeenIn(Turn(events, end)).root, end))
  {
    P.EveryStreamIsReadable(Calls(Turn(events, end)));
    SaidBeforeClosing(events, end);
    if end.Unstarted? {
      LogIsMirrored(Said(events, end));
    } else {
      ClosedTurnIsMirrored(Said(events, end));
      ClosingSeen(Said(events, end));
      LastResult(Process(events).stopped, SeenIn(Said(events, end)).root, end);
    }
  }

  lemma ClosedTurnIsMirrored(said: seq<Entry>)
    requires !SeenIn(said).closed
    ensures var p, seen := P.PublishAll(P.Fresh, Calls(said + [Closed])), SeenIn(said);
            && p.closed && p.keptForUser == Some(LastIsQuestion(seen.results))
            && (forall k :: 0 <= k < |seen.results| ==> seen.results[k].TurnResult?)
            && StreamText(p.stream) == seen.shown && StreamResults(p.stream) == AsFrames(seen.results)
  {
    LogIsMirrored(said);
    ClosingIsMirrored(P.PublishAll(P.Fresh, Calls(said)), SeenIn(said));
    assert Calls(said + [Closed])[..|said|] == Calls(said);
  }

  lemma LastResult(stopped: bool, text: string, end: End)
    ensures LastIsQuestion(ExpectedResults(stopped, text, end)) == (ReachesGraph(end) && stopped)
  {
  }
}
