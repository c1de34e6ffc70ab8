/**
 * What one turn publishes for the events of its graph (core/execution/handlers/, core/execution/executor.py).
 *
 * `Handle` is what one event does to the execution state and the publisher; `Turn` is a whole turn. Entries
 * of the log are publisher calls, told apart by where they come from.
 */
module Handlers {
  import opened Wrappers
  import P = Publisher

  type Namespace = seq<string>

  // ---- Events ----

  /** `data.namespace`: missing or null, something that is not a list, or a list. */
  datatype Target = NoTarget | OtherTarget | ListTarget(ns: Namespace)

  datatype Delta = ToolUseDelta(name: string, text: string) | TextDelta(text: string) | NoDelta

  datatype Payload = ContentDelta(delta: Delta) | ToolCallBlock(id: string, name: string) | MessageFinish | OtherPayload

  datatype Stage = Started | Completed | Failed | Interrupted | OtherStage

  datatype ToolStage = OutputDelta | Finished | OtherToolStage

  /**
   * What the handlers read of an event's data. A missing tool call id is "". Of a values event's messages only whether
   * each is one the chat does not show, of its todo list only what tells it from another.
   */
  datatype Data =
    | Lifecycle(stage: Stage, target: Target, toolCallId: string, graphName: string)
    | Message(payload: Payload)
    | Tool(toolStage: ToolStage, toolCallId: string, toolName: string, text: string, isError: bool)
    | Values(hidden: seq<bool>, files: bool, todos: Option<string>, interrupts: bool)
    | OtherData

  datatype Event = Event(ns: Namespace, data: Data)

  // ---- What is published ----

  /** What a sub-agent's tools leave in the chat's text. */
  datatype NoteKind = CallNote(tool: string) | ResultNote(tool: string, output: string)

  function NoteText(n: NoteKind): string {
    match n
    case CallNote(tool) => "\n*Tool Call: " + tool + "*\n"
    case ResultNote(tool, output) => "\n*Tool Result (" + tool + "):*\n" + output + "\n"
  }

  datatype Outcome = Answer | Question | Error | Cancel

  function Subtype(o: Outcome): string {
    match o
    case Answer => "success"
    case Question => P.INTERRUPTED
    case Error => "error_during_execution"
    case Cancel => "cancelled"
  }

  datatype TurnStage = TurnStarted | TurnCompleted | TurnFailed | TurnCancelled

  function StageName(t: TurnStage): string {
    match t
    case TurnStarted => "started"
    case TurnCompleted => "completed"
    case TurnFailed => "failed"
    case TurnCancelled => "cancelled"
  }

  datatype Entry =
    | RootText(text: string)
    | Note(note: NoteKind)
    | RootBlocks(shown: seq<P.Block>)
    | FinishMessage
    | SubagentStarted(id: string, name: string, parent: Option<string>)
    | SubagentDelta(id: string, name: string, delta: string)
    | SubagentResult(ns: Namespace, id: string, name: string, content: string, isError: bool)
    | ToolDelta(id: string, name: string, delta: string)
    | ToolDone(id: string, name: string, content: string, isError: bool)
    | Snapshot
    | ValuesSent
    | TurnEvent(turnStage: TurnStage)
    | TurnResult(outcome: Outcome, result: Option<string>)
    | Closed

  function ToCall(e: Entry): P.Call {
    match e
    case RootText(text) => P.StreamText(text)
    case Note(note) => P.StreamText(NoteText(note))
    case RootBlocks(content) => P.Assistant(content)
    case FinishMessage => P.FinishMessage
    case SubagentStarted(id, name, parent) => P.PublishAside(P.ToolCallStarted(id, name, parent))
    case SubagentDelta(id, name, delta) => P.PublishAside(P.ToolOutputDelta(id, name, delta))
    case SubagentResult(_, id, name, content, isError) => P.PublishAside(P.ToolFinished(id, name, content, isError))
    case ToolDelta(id, name, delta) => P.PublishAside(P.ToolOutputDelta(id, name, delta))
    case ToolDone(id, name, content, isError) => P.PublishAside(P.ToolFinished(id, name, content, isError))
    case Snapshot => P.PublishCheckpoint
    case ValuesSent => P.PublishAside(P.Aside.Values)
    case TurnEvent(turnStage) => P.PublishAside(P.Aside.Lifecycle(StageName(turnStage)))
    case TurnResult(outcome, result) => P.PublishResult(Subtype(outcome), result)
    case Closed => P.Close
  }

  // ---- The execution state ----

  datatype State = State(
    streamedText: string,
    blocks: seq<P.Block>,
    calls: map<Namespace, string>,
    names: map<Namespace, string>,
    outputs: map<string, string>,
    finals: map<string, string>,
    interrupted: bool,
    stopped: bool,
    messageCount: nat,
    todos: map<Namespace, string>,
    log: seq<Entry>)

  const NewState := State("", [], map[], map[], map[], map[], false, false, 0, map[], [])

  function Say(s: State, entries: seq<Entry>): State {
    s.(log := s.log + entries)
  }

  function Get(m: map<string, string>, id: string): string {
    if id in m then m[id] else ""
  }

  function NameOf(s: State, ns: Namespace): string {
    if ns in s.names then s.names[ns] else "task"
  }

  function Parent(s: State, ns: Namespace): Option<string> {
    if |ns| <= 1 then None
    else
      var above := ns[..|ns| - 1];
      if above in s.calls then Some(s.calls[above]) else None
  }

  predicate IsEnd(stage: Stage) {
    stage == Completed || stage == Failed
  }

  /** Text when there is some, the placeholder otherwise. */
  function Content(accumulated: string, isError: bool): string {
    if accumulated != "" then accumulated else if isError then "subagent_failed" else "subagent_completed"
  }

  /** The end of a sub-agent's namespace, on either lifecycle path. */
  function EndSubagent(s: State, ns: Namespace, isError: bool): State {
    if ns !in s.calls then s
    else
      var id := s.calls[ns];
      if id == "" then s.(calls := s.calls - {ns})
      else
        Say(s.(calls := s.calls - {ns}, names := s.names - {ns}, outputs := s.outputs - {id},
               finals := if id in s.outputs then s.finals[id := s.outputs[id]] else s.finals),
            [SubagentResult(ns, id, NameOf(s, ns), Content(Get(s.outputs, id), isError), isError)])
  }

  function HandleLifecycle(s: State, d: Data): State
    requires d.Lifecycle?
  {
    if d.stage == Interrupted && (d.target.NoTarget? || d.target == ListTarget([])) then s.(interrupted := true)
    else if d.stage == Started && d.target.ListTarget? && d.toolCallId != "" then
      var ns := d.target.ns;
      var started := s.(calls := s.calls[ns := d.toolCallId], names := s.names[ns := d.graphName]);
      Say(started, [SubagentStarted(d.toolCallId, d.graphName, Parent(started, ns))])
    else if IsEnd(d.stage) && d.target.ListTarget? then EndSubagent(s, d.target.ns, d.stage == Failed)
    else s
  }

  function HandleSubagentLifecycle(s: State, ns: Namespace, d: Data): State
    requires d.Lifecycle?
  {
    if d.stage == Started && d.target.ListTarget? && d.toolCallId != "" then
      s.(calls := s.calls[ns := d.toolCallId], names := s.names[ns := d.graphName])
    else if IsEnd(d.stage) then EndSubagent(s, ns, d.stage == Failed)
    else s
  }

  function HandleSubagentMessage(s: State, ns: Namespace, p: Payload): State {
    if ns !in s.calls || s.calls[ns] == "" || !p.ContentDelta? then s
    else
      var id := s.calls[ns];
      match p.delta
      case ToolUseDelta(name, _) => Say(s, [Note(CallNote(name))])
      case TextDelta(text) =>
        if text == "" then s
        else Say(s.(outputs := s.outputs[id := Get(s.outputs, id) + text]), [SubagentDelta(id, NameOf(s, ns), text)])
      case NoDelta => s
  }

  function DeltaText(d: Delta): string {
    if d.NoDelta? then "" else d.text
  }

  function RootMessageEntries(s: State, p: Payload): seq<Entry> {
    match p
    case ContentDelta(delta) => if DeltaText(delta) == "" then [] else [RootText(DeltaText(delta))]
    case MessageFinish =>
      if s.blocks == [] then [FinishMessage] else [RootBlocks([P.TextBlock] + s.blocks), FinishMessage]
    case _ => []
  }

  function HandleRootMessage(s: State, p: Payload): State {
    Say(s.(streamedText := if p.ContentDelta? then s.streamedText + DeltaText(p.delta) else s.streamedText,
           blocks := if p.ToolCallBlock? then s.blocks + [P.ToolUse(p.id, p.name)]
                     else if p.MessageFinish? then []
                     else s.blocks),
        RootMessageEntries(s, p))
  }

  /**
   * A sub-agent's finished tool is a note; the coordinator's own tools go to the default tool handler, the only
   * one registered.
   */
  function ToolEntries(ns: Namespace, d: Data): seq<Entry>
    requires d.Tool?
  {
    if ns != [] then
      if d.toolStage == Finished && d.text != "" then [Note(ResultNote(d.toolName, d.text))] else []
    else if d.toolCallId == "" then []
    else if d.toolStage == OutputDelta && d.text != "" then [ToolDelta(d.toolCallId, d.toolName, d.text)]
    else if d.toolStage == Finished then [ToolDone(d.toolCallId, d.toolName, d.text, d.isError)]
    else []
  }

  /** The coordinator's messages are shown when there are more than before and some are not hidden. */
  predicate HasSnapshot(s: State, d: Data)
    requires d.Values?
  {
    |d.hidden| > s.messageCount && exists k :: 0 <= k < |d.hidden| && !d.hidden[k]
  }

  predicate HasNewTodos(s: State, ns: Namespace, d: Data)
    requires d.Values?
  {
    d.todos.Some? && !(ns in s.todos && s.todos[ns] == d.todos.value)
  }

  function ValuesEntries(s: State, ns: Namespace, d: Data): seq<Entry>
    requires d.Values?
  {
    if ns == [] then if HasSnapshot(s, d) then [Snapshot, ValuesSent] else []
    else (if d.files then [ValuesSent] else []) + (if HasNewTodos(s, ns, d) then [ValuesSent] else [])
  }

  /** What a values event leaves in the state: the greatest message count so far, a sub-agent's latest todo list. */
  function AfterValues(s: State, ns: Namespace, d: Data): State
    requires d.Values?
  {
    s.(messageCount := if ns == [] && |d.hidden| > s.messageCount then |d.hidden| else s.messageCount,
       todos := if ns != [] && HasNewTodos(s, ns, d) then s.todos[ns := d.todos.value] else s.todos)
  }

  /** The text the turn still has to close: nothing is said when there is none. */
  function Remaining(text: string): seq<Entry> {
    if text == "" then [] else [RootBlocks([P.TextBlock])]
  }

  function InterruptEntries(text: string): seq<Entry> {
    Remaining(text) + [TurnResult(Question, if text == "" then None else Some(text)), TurnEvent(TurnCompleted)]
  }

  function PublishInterrupt(s: State): State {
    Say(s.(streamedText := "", interrupted := true, stopped := true), InterruptEntries(s.streamedText))
  }

  function HandleValues(s: State, ns: Namespace, d: Data): State
    requires d.Values?
  {
    var shown := Say(AfterValues(s, ns, d), ValuesEntries(s, ns, d));
    if ns == [] && d.interrupts then PublishInterrupt(shown) else shown
  }

  lemma AfterValuesKeeps(s: State, ns: Namespace, d: Data)
    requires d.Values?
    ensures var after := AfterValues(s, ns, d);
            && after.log == s.log && after.calls == s.calls && after.outputs == s.outputs && after.blocks == s.blocks
            && after.streamedText == s.streamedText && after.stopped == s.stopped
  {
  }

  /** Dispatch: the first handler that can handle the event, by its method and whether its namespace is empty. */
  function Handle(s: State, e: Event): State {
    match e.data
    case Lifecycle(_, _, _, _) =>
      if e.ns == [] then HandleLifecycle(s, e.data) else HandleSubagentLifecycle(s, e.ns, e.data)
    case Message(payload) =>
      if e.ns == [] then HandleRootMessage(s, payload) else HandleSubagentMessage(s, e.ns, payload)
    case Tool(_, _, _, _, _) => Say(s, ToolEntries(e.ns, e.data))
    case Values(_, _, _, _) => HandleValues(s, e.ns, e.data)
    case OtherData => s
  }

  /** Events after the one that stopped the turn are not read. */
  function Process(events: seq<Event>): State {
    if events == [] then Say(NewState, [TurnEvent(TurnStarted)])
    else
      var before := Process(events[..|events| - 1]);
      if before.stopped then before else Handle(before, events[|events| - 1])
  }

  // ---- A whole turn ----

  /** How a turn ends. The first three end it before its graph runs, the others only if no event stopped it. */
  datatype End =
    // A task cancelled before its first step, or a wake-up cancelled before it has a publisher.
    | Unstarted
    // A cancel while the turn waits for the lock, or before the executor takes over.
    | CancelledBefore
    | FailedBefore(error: string)
    // The event stream ends.
    | Drained
    | Broken(error: string)
    | Cancelled
    // A cancel after the answer, while the turn's rows are stamped with their checkpoint.
    | CancelledAfter

  predicate ReachesGraph(end: End) {
    !end.Unstarted? && !end.CancelledBefore? && !end.FailedBefore?
  }

  /** A held-back workspace change is flushed when an event stops the turn or its stream ends, and at no other end. */
  predicate FlushesAtEnd(stopped: bool, end: End) {
    ReachesGraph(end) && (stopped || end.Drained? || end.CancelledAfter?)
  }

  function AnswerEntries(text: string): seq<Entry> {
    Remaining(text) + [FinishMessage, TurnResult(Answer, Some(text)), TurnEvent(TurnCompleted)]
  }

  function FailureEntries(error: string): seq<Entry> {
    [FinishMessage, TurnResult(Error, Some(error)), TurnEvent(TurnFailed)]
  }

  const ExecutorCancelled := TurnResult(Cancel, Some("Execution cancelled by user"))

  const RouterCancelled := TurnResult(Cancel, Some("Turn cancelled by user"))

  /** The executor's result, and the router's. */
  const CancelEntries := [ExecutorCancelled, TurnEvent(TurnCancelled), RouterCancelled]

  function FinalEntries(s: State, end: End): seq<Entry>
    requires ReachesGraph(end)
  {
    match end
    case Drained => AnswerEntries(s.streamedText)
    case Broken(error) => FailureEntries(error)
    case Cancelled => CancelEntries
    case CancelledAfter => AnswerEntries(s.streamedText) + CancelEntries
  }

  /** Everything a turn publishes before it closes the stream. */
  function Said(events: seq<Event>, end: End): seq<Entry> {
    match end
    case Unstarted => []
    case CancelledBefore => [RouterCancelled]
    case FailedBefore(error) => [TurnResult(Error, Some(error))]
    case _ =>
      var s := Process(events);
      s.log + if s.stopped then [] else FinalEntries(s, end)
  }

  /** Everything a turn publishes. A task that never starts does not even close its stream. */
  function Turn(events: seq<Event>, end: End): seq<Entry> {
    if end.Unstarted? then [] else Said(events, end) + [Closed]
  }

  /** Once stopped, the rest of the events change nothing. */
  lemma {:induction false} StoppedStays(events: seq<Event>, i: nat)
    requires i <= |events|
    ensures Process(events[..i]).stopped ==> Process(events) == Process(events[..i])
    decreases |events| - i
  {
    if i == |events| {
      assert events[..i] == events;
    } else {
      StoppedStays(events, i + 1);
      assert events[..i + 1][..i] == events[..i];
    }
  }
}
