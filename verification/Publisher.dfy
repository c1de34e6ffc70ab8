/**
 * The stream one turn writes for its clients (api/publisher.py).
 *
 * `Publish` is what one publisher call does to the publisher's state, and the
 * class `SSEEventPublisher` is proved against it. `ReadFrame` is the other side:
 * what a client that knows only the protocol accepts. The main result is that the
 * client accepts every stream any sequence of calls can write.
 */
module Publisher {
  import opened Wrappers

  const INTERRUPTED := "interrupted"

  // ---- What is written ----

  /** One block of an assistant message; every other block type is ignored by the publisher. */
  datatype Block = TextBlock | ToolUse(id: string, name: string)

  /** Events that neither read nor change the open message. */
  datatype Aside =
    | Lifecycle(event: string)
    | Values
    | ToolCallStarted(id: string, name: string, parent: Option<string>)
    | ToolOutputDelta(id: string, name: string, delta: string)
    | ToolFinished(id: string, name: string, content: string, isError: bool)

  datatype Body =
    | MessageStart
    | TextStart(index: nat)
    | TextDelta(index: nat, text: string)
    | TextFinish(index: nat)
    | ToolStart(index: nat, call: Block)
    | ToolFinish(index: nat, call: Block)
    | ToolAnnounced(call: Block)
    | MessageFinish
    | MessageFinishWithUsage
    | Checkpoint(step: nat)
    | Other(aside: Aside)

  datatype Frame =
    | Event(number: nat, body: Body)
    | Result(subtype: string, result: Option<string>)
    | Sentinel

  // ---- The publisher's state and its calls ----

  datatype State = State(
    number: nat,
    inMessage: bool,
    inBlock: bool,
    index: nat,
    steps: nat,
    awaiting: bool,
    closed: bool,
    stream: seq<Frame>,
    keptForUser: Option<bool>)

  const Fresh := State(0, false, false, 0, 0, false, false, [], None)

  datatype Call =
    | StreamText(text: string)
    | Assistant(content: seq<Block>)
    | FinishMessage
    | PublishResult(subtype: string, result: Option<string>)
    | PublishCheckpoint
    | PublishAside(aside: Aside)
    | Close

  /** A write to a closed publisher is dropped. */
  function Write(p: State, f: Frame): State {
    if p.closed then p else p.(stream := p.stream + [f])
  }

  /** A protocol event takes the next number even when its write is dropped. */
  function Emit(p: State, body: Body): State {
    Write(p.(number := p.number + 1), Event(p.number + 1, body))
  }

  function OpenMessage(p: State): State {
    if p.inMessage then p else Emit(p.(inMessage := true, index := 0), MessageStart)
  }

  function OpenBlock(p: State): State {
    if p.inBlock then p else Emit(p.(inBlock := true), TextStart(p.index))
  }

  function CloseBlock(p: State): State {
    if p.inBlock then Emit(p.(inBlock := false), TextFinish(p.index)) else p
  }

  function OneBlock(p: State, b: Block): State {
    if b.TextBlock? then p
    else
      var q := p.(index := p.index + 1);
      Emit(Emit(Emit(q, ToolStart(q.index, b)), ToolFinish(q.index, b)), ToolAnnounced(b))
  }

  function Blocks(p: State, content: seq<Block>): State {
    if content == [] then p
    else OneBlock(Blocks(p, content[..|content| - 1]), content[|content| - 1])
  }

  function Publish(p: State, c: Call): State {
    match c
    case StreamText(text) =>
      var q := OpenBlock(OpenMessage(p));
      Emit(q, TextDelta(q.index, text))
    case Assistant(content) =>
      Blocks(CloseBlock(p), content)
    case FinishMessage =>
      var q := CloseBlock(p);
      var r := if q.inMessage then Emit(q, MessageFinish) else q;
      r.(inMessage := false, inBlock := false, index := 0)
    case PublishResult(subtype, text) =>
      var q := Emit(p, MessageFinishWithUsage);
      Write(q.(inMessage := false, inBlock := false, awaiting := subtype == INTERRUPTED), Result(subtype, text))
    case PublishCheckpoint =>
      Emit(p.(steps := p.steps + 1), Checkpoint(p.steps + 1))
    case PublishAside(aside) =>
      Emit(p, Other(aside))
    case Close =>
      if p.closed then p
      else p.(closed := true, stream := p.stream + [Sentinel], keptForUser := Some(p.awaiting))
  }

  function PublishAll(p: State, calls: seq<Call>): State {
    if calls == [] then p
    else Publish(PublishAll(p, calls[..|calls| - 1]), calls[|calls| - 1])
  }

  // ---- The client ----

  datatype OpenBlockKind = TextOpen(index: nat) | ToolOpen(index: nat)

  /** What a client knows after a prefix of the stream. `used` holds the block indexes of the current message. */
  datatype Reader = Reader(
    number: nat,
    steps: nat,
    inMessage: bool,
    open: Option<OpenBlockKind>,
    used: set<nat>,
    waiting: bool,
    ended: bool)

  const NewReader := Reader(0, 0, false, None, {}, false, false)

  function ReadBody(r: Reader, b: Body): Option<Reader> {
    match b
    case MessageStart =>
      if r.inMessage || r.open.Some? then None else Some(r.(inMessage := true, used := {}))
    case TextStart(i) =>
      if !r.inMessage || r.open.Some? then None else Some(r.(open := Some(TextOpen(i)), used := r.used + {i}))
    case TextDelta(i, _) =>
      if r.inMessage && r.open == Some(TextOpen(i)) then Some(r) else None
    case TextFinish(i) =>
      if r.open == Some(TextOpen(i)) then Some(r.(open := None)) else None
    case ToolStart(i, _) =>
      if r.open.Some? then None else Some(r.(open := Some(ToolOpen(i)), used := r.used + {i}))
    case ToolFinish(i, _) =>
      if r.open == Some(ToolOpen(i)) then Some(r.(open := None)) else None
    case MessageFinish =>
      if r.inMessage && r.open.None? then Some(r.(inMessage := false)) else None
    // Only the frame a result writes may leave a block unfinished.
    case MessageFinishWithUsage =>
      Some(r.(inMessage := false, open := None))
    case Checkpoint(step) =>
      if step == r.steps + 1 then Some(r.(steps := step)) else None
    case ToolAnnounced(_) => Some(r)
    case Other(_) => Some(r)
  }

  /** None: the frame breaks the protocol. */
  function ReadFrame(r: Reader, f: Frame): Option<Reader> {
    if r.ended then None
    else
      match f
      case Sentinel => Some(r.(ended := true))
      case Result(subtype, _) => Some(r.(waiting := subtype == INTERRUPTED))
      case Event(number, body) =>
        if number == r.number + 1 then ReadBody(r.(number := number), body) else None
  }

  function ReadAll(stream: seq<Frame>): Option<Reader> {
    if stream == [] then Some(NewReader)
    else
      match ReadAll(stream[..|stream| - 1])
      case None => None
      case Some(r) => ReadFrame(r, stream[|stream| - 1])
  }

  lemma ReadAppend(stream: seq<Frame>, f: Frame)
    ensures ReadAll(stream + [f]) ==
            match ReadAll(stream) { case None => None case Some(r) => ReadFrame(r, f) }
  {
    assert (stream + [f])[..|stream|] == stream;
  }

  // ---- The invariant: the client agrees with the publisher ----

  ghost predicate Agrees(p: State, r: Reader) {
    && r.number == p.number
    && r.steps == p.steps
    && r.inMessage == p.inMessage
    && r.open == (if p.inBlock then Some(TextOpen(p.index)) else None)
    && r.waiting == p.awaiting
    && !r.ended
    && (p.inMessage ==> p.index in r.used)
  }

  /** A client reads the whole stream and ends up where the publisher is. */
  ghost predicate Coherent(p: State) {
    && (p.inBlock ==> p.inMessage)
    && match ReadAll(p.stream)
       case None => false
       case Some(r) =>
         if p.closed then r.ended && p.keptForUser == Some(r.waiting)
         else Agrees(p, r) && p.keptForUser.None?
  }

  /** A client that has read everything an open publisher wrote. */
  ghost predicate Tracks(p: State, r: Reader) {
    !p.closed && ReadAll(p.stream) == Some(r) && r.number == p.number && !r.ended
  }

  /** One event written by an open publisher moves the client by that event alone. */
  lemma EmitMovesReader(p: State, body: Body, r: Reader)
    requires Tracks(p, r)
    ensures ReadAll(Emit(p, body).stream) == ReadBody(r.(number := p.number + 1), body)
    ensures !Emit(p, body).closed && Emit(p, body).number == p.number + 1
  {
    ReadAppend(p.stream, Event(p.number + 1, body));
  }

  ghost function ReaderOf(p: State): Reader
    requires Coherent(p)
  {
    ReadAll(p.stream).value
  }

  lemma ToolBlockMovesReader(p: State, b: Block, r: Reader)
    requires Tracks(p, r) && r.open.None?
    ensures var q := Emit(Emit(p, ToolStart(p.index, b)), ToolFinish(p.index, b));
            Tracks(q, r.(number := q.number, used := r.used + {p.index})) && q.index == p.index
  {
    EmitMovesReader(p, ToolStart(p.index, b), r);
    var q := Emit(p, ToolStart(p.index, b));
    EmitMovesReader(q, ToolFinish(p.index, b),
                    r.(number := q.number, open := Some(ToolOpen(p.index)), used := r.used + {p.index}));
  }

  lemma OneBlockKeepsCoherent(p: State, b: Block)
    requires Coherent(p) && !p.inBlock
    ensures Coherent(OneBlock(p, b)) && !OneBlock(p, b).inBlock && OneBlock(p, b).closed == p.closed
  {
    if b.ToolUse? && !p.closed {
      var r := ReaderOf(p);
      var p0 := p.(index := p.index + 1);
      ToolBlockMovesReader(p0, b, r);
      var q := Emit(Emit(p0, ToolStart(p0.index, b)), ToolFinish(p0.index, b));
      EmitMovesReader(q, ToolAnnounced(b), r.(number := q.number, used := r.used + {p0.index}));
    }
  }

  lemma {:induction false} BlocksKeepCoherent(p: State, content: seq<Block>)
    requires Coherent(p) && !p.inBlock
    ensures Coherent(Blocks(p, content)) && !Blocks(p, content).inBlock
    decreases |content|
  {
    if content != [] {
      var n := |content| - 1;
      BlocksKeepCoherent(p, content[..n]);
      OneBlockKeepsCoherent(Blocks(p, content[..n]), content[n]);
    }
  }

  lemma OpeningKeepsCoherent(p: State)
    requires Coherent(p) && !p.closed
    ensures var q := OpenBlock(OpenMessage(p));
            Coherent(q) && q.inBlock && !q.closed
  {
    var r := ReaderOf(p);
    if !p.inMessage {
      EmitMovesReader(p.(inMessage := true, index := 0), MessageStart, r);
      var q := OpenMessage(p);
      EmitMovesReader(q.(inBlock := true), TextStart(0), r.(number := q.number, inMessage := true, used := {}));
    } else if !p.inBlock {
      EmitMovesReader(p.(inBlock := true), TextStart(p.index), r);
    }
  }

  lemma CloseBlockKeepsCoherent(p: State)
    requires Coherent(p)
    ensures Coherent(CloseBlock(p)) && !CloseBlock(p).inBlock && CloseBlock(p).closed == p.closed
  {
    if p.inBlock && !p.closed {
      EmitMovesReader(p.(inBlock := false), TextFinish(p.index), ReaderOf(p));
    }
  }

  lemma ResultKeepsCoherent(p: State, subtype: string, text: Option<string>)
    requires Coherent(p)
    ensures Coherent(Publish(p, PublishResult(subtype, text)))
  {
    if !p.closed {
      EmitMovesReader(p, MessageFinishWithUsage, ReaderOf(p));
      ReadAppend(Emit(p, MessageFinishWithUsage).stream, Result(subtype, text));
    }
  }

  lemma TextKeepsCoherent(p: State, text: string)
    requires Coherent(p)
    ensures Coherent(Publish(p, StreamText(text)))
  {
    if !p.closed {
      OpeningKeepsCoherent(p);
      var q := OpenBlock(OpenMessage(p));
      EmitMovesReader(q, TextDelta(q.index, text), ReaderOf(q));
    }
  }

  lemma FinishKeepsCoherent(p: State)
    requires Coherent(p)
    ensures Coherent(Publish(p, FinishMessage))
  {
    CloseBlockKeepsCoherent(p);
    var q := CloseBlock(p);
    if !q.closed {
      EmitMovesReader(q, MessageFinish, ReaderOf(q));
    }
  }

  lemma AssistantKeepsCoherent(p: State, content: seq<Block>)
    requires Coherent(p)
    ensures Coherent(Publish(p, Assistant(content)))
  {
    CloseBlockKeepsCoherent(p);
    BlocksKeepCoherent(CloseBlock(p), content);
  }

  lemma LoneFrameKeepsCoherent(p: State, c: Call)
    requires Coherent(p)
    requires c.PublishCheckpoint? || c.PublishAside? || c.Close?
    ensures Coherent(Publish(p, c))
  {
    if !p.closed {
      match c
      case PublishCheckpoint =>
        EmitMovesReader(p.(steps := p.steps + 1), Checkpoint(p.steps + 1), ReaderOf(p));
      case PublishAside(aside) =>
        EmitMovesReader(p, Other(aside), ReaderOf(p));
      case Close =>
        ReadAppend(p.stream, Sentinel);
    }
  }

  /** Every publisher call keeps client and publisher in agreement. */
  lemma PublishKeepsCoherent(p: State, c: Call)
    requires Coherent(p)
    ensures Coherent(Publish(p, c))
  {
    if c.StreamText? {
      TextKeepsCoherent(p, c.text);
    } else if c.Assistant? {
      AssistantKeepsCoherent(p, c.content);
    } else if c.FinishMessage? {
      FinishKeepsCoherent(p);
    } else if c.PublishResult? {
      ResultKeepsCoherent(p, c.subtype, c.result);
    } else {
      LoneFrameKeepsCoherent(p, c);
    }
  }

  /** Main result: every stream any sequence of calls writes is one the client accepts. */
  lemma {:induction false} EveryStreamIsReadable(calls: seq<Call>)
    ensures Coherent(PublishAll(Fresh, calls))
    decreases |calls|
  {
    if calls != [] {
      EveryStreamIsReadable(calls[..|calls| - 1]);
      PublishKeepsCoherent(PublishAll(Fresh, calls[..|calls| - 1]), calls[|calls| - 1]);
    }
  }

  // ---- What acceptance means, frame by frame ----

  function CountEvents(stream: seq<Frame>): nat {
    if stream == [] then 0
    else CountEvents(stream[..|stream| - 1]) + (if stream[|stream| - 1].Event? then 1 else 0)
  }

  lemma {:induction false} ReaderCountsEvents(stream: seq<Frame>)
    requires ReadAll(stream).Some?
    ensures ReadAll(stream).value.number == CountEvents(stream)
    decreases |stream|
  {
    if stream != [] {
      ReaderCountsEvents(stream[..|stream| - 1]);
    }
  }

  lemma {:induction false} PrefixesAreAccepted(stream: seq<Frame>, k: nat)
    requires ReadAll(stream).Some? && k <= |stream|
    ensures ReadAll(stream[..k]).Some?
    decreases |stream| - k
  {
    if k < |stream| {
      PrefixesAreAccepted(stream, k + 1);
      assert stream[..k + 1][..k] == stream[..k];
    } else {
      assert stream[..k] == stream;
    }
  }

  lemma AcceptedFrame(stream: seq<Frame>, k: nat)
    requires ReadAll(stream).Some? && k < |stream|
    ensures stream[k].Event? ==> stream[k].number == CountEvents(stream[..k]) + 1
    ensures stream[k].Sentinel? ==> k == |stream| - 1
  {
    PrefixesAreAccepted(stream, k);
    PrefixesAreAccepted(stream, k + 1);
    assert stream[..k + 1][..k] == stream[..k];
    ReaderCountsEvents(stream[..k]);
    if k + 1 < |stream| {
      PrefixesAreAccepted(stream, k + 2);
      assert stream[..k + 2][..k + 1] == stream[..k + 1];
    }
  }

  /** In an accepted stream the events are numbered 1, 2, 3, ... and the sentinel can only be last. */
  lemma AcceptedStreamsAreNumbered(stream: seq<Frame>)
    requires ReadAll(stream).Some?
    ensures forall k :: 0 <= k < |stream| && stream[k].Event? ==> stream[k].number == CountEvents(stream[..k]) + 1
    ensures forall k :: 0 <= k < |stream| && stream[k].Sentinel? ==> k == |stream| - 1
  {
    forall k | 0 <= k < |stream|
      ensures stream[k].Event? ==> stream[k].number == CountEvents(stream[..k]) + 1
      ensures stream[k].Sentinel? ==> k == |stream| - 1
    {
      AcceptedFrame(stream, k);
    }
  }

  /**
   * Block indexes are NOT unique within a message: text that follows an assistant frame in the same
   * message reopens the index of the last block. It happens exactly when the message is already
   * started and no block is open.
   */
  lemma TextReusesAnIndexIffMessageIsOpen(calls: seq<Call>, text: string)
    requires var p := PublishAll(Fresh, calls); !p.closed && !p.inBlock
    ensures var p := PublishAll(Fresh, calls);
            var before := OpenMessage(p);
            ReadAll(before.stream).Some?
            && (before.index in ReadAll(before.stream).value.used <==> p.inMessage)
            && Publish(p, StreamText(text)).stream ==
               before.stream + [Event(before.number + 1, TextStart(before.index)),
                                Event(before.number + 2, TextDelta(before.index, text))]
  {
    EveryStreamIsReadable(calls);
    var p := PublishAll(Fresh, calls);
    if !p.inMessage {
      EmitMovesReader(p.(inMessage := true, index := 0), MessageStart, ReaderOf(p));
    }
  }

  /** It happens: text after an assistant frame of the same message starts a second block with the first one's index. */
  lemma TextAfterAssistantReusesAnIndex(text: string)
    ensures var calls := [StreamText("a"), Assistant([])];
            var p := PublishAll(Fresh, calls);
            && !p.closed && !p.inBlock && p.inMessage
            && Event(2, TextStart(0)) in p.stream
            && Event(5, TextStart(0)) in Publish(p, StreamText(text)).stream
  {
    var first, second := StreamText("a"), Assistant([]);
    assert [first, second][..1] == [first] && [first][..0] == [];
    var p := Publish(Fresh, first);
    assert p.stream == [Event(1, MessageStart), Event(2, TextStart(0)), Event(3, TextDelta(0, "a"))];
    var q := Publish(p, second);
    assert q.stream == p.stream + [Event(4, TextFinish(0))];
    assert q.stream[1] == Event(2, TextStart(0));
    var r := Publish(q, StreamText(text));
    assert r.stream[4] == Event(5, TextStart(0));
  }

  // ---- The class ----

  class SSEEventPublisher {
    var number: nat
    var messageStarted: bool
    var blockStarted: bool
    var blockIndex: nat
    var checkpointStep: nat
    var awaitingUser: bool
    var isClosed: bool
    var stream: seq<Frame>
    var keptForUser: Option<bool>

    ghost function Abs(): State
      reads this
    {
      State(number, messageStarted, blockStarted, blockIndex, checkpointStep, awaitingUser, isClosed, stream,
            keptForUser)
    }

    constructor ()
      ensures Abs() == Fresh
    {
      number, messageStarted, blockStarted, blockIndex := 0, false, false, 0;
      checkpointStep, awaitingUser, isClosed, stream, keptForUser := 0, false, false, [], None;
    }

    method WriteFrame(f: Frame)
      modifies this
      ensures Abs() == Write(old(Abs()), f)
    {
      if isClosed { return; }
      stream := stream + [f];
    }

    method ProtocolEvent(body: Body)
      modifies this
      ensures Abs() == Emit(old(Abs()), body)
    {
      number := number + 1;
      WriteFrame(Event(number, body));
    }

    method PublishStreamEventText(text: string)
      modifies this
      ensures Abs() == Publish(old(Abs()), StreamText(text))
    {
      if !messageStarted {
        messageStarted := true;
        blockIndex := 0;
        ProtocolEvent(MessageStart);
      }
      if !blockStarted {
        blockStarted := true;
        ProtocolEvent(TextStart(blockIndex));
      }
      ProtocolEvent(TextDelta(blockIndex, text));
    }

    method PublishToolUse(block: Block)
      requires block.ToolUse?
      modifies this
      ensures Abs() == OneBlock(old(Abs()), block)
    {
      blockIndex := blockIndex + 1;
      ProtocolEvent(ToolStart(blockIndex, block));
      ProtocolEvent(ToolFinish(blockIndex, block));
      ProtocolEvent(ToolAnnounced(block));
    }

    method PublishAssistant(content: seq<Block>)
      modifies this
      ensures Abs() == Publish(old(Abs()), Assistant(content))
    {
      if blockStarted {
        blockStarted := false;
        ProtocolEvent(TextFinish(blockIndex));
      }
      ghost var closedBlock := Abs();
      for i := 0 to |content|
        invariant Abs() == Blocks(closedBlock, content[..i])
      {
        assert content[..i + 1][..i] == content[..i];
        var block := content[i];
        if block.ToolUse? {
          PublishToolUse(block);
        }
      }
      assert content[..|content|] == content;
    }

    method PublishMessageFinish()
      modifies this
      ensures Abs() == Publish(old(Abs()), FinishMessage)
    {
      if blockStarted {
        blockStarted := false;
        ProtocolEvent(TextFinish(blockIndex));
      }
      if messageStarted {
        ProtocolEvent(MessageFinish);
      }
      messageStarted, blockStarted, blockIndex := false, false, 0;
    }

    method PublishResultFrame(subtype: string, text: Option<string>)
      modifies this
      ensures Abs() == Publish(old(Abs()), PublishResult(subtype, text))
    {
      ProtocolEvent(MessageFinishWithUsage);
      messageStarted, blockStarted := false, false;
      awaitingUser := subtype == INTERRUPTED;
      WriteFrame(Result(subtype, text));
    }

    method PublishCheckpointStep()
      modifies this
      ensures Abs() == Publish(old(Abs()), PublishCheckpoint)
    {
      checkpointStep := checkpointStep + 1;
      ProtocolEvent(Checkpoint(checkpointStep));
    }

    method PublishOther(aside: Aside)
      modifies this
      ensures Abs() == Publish(old(Abs()), PublishAside(aside))
    {
      ProtocolEvent(Other(aside));
    }

    method CloseStream()
      modifies this
      ensures Abs() == Publish(old(Abs()), Close)
    {
      if isClosed { return; }
      isClosed := true;
      stream := stream + [Sentinel];
      keptForUser := Some(awaitingUser);
    }
  }
}
