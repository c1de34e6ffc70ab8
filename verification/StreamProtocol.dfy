/**
 * The protocol of a turn's stream, said of its frames and of the publisher calls alone (api/publisher.py): which frames
 * may follow which, which calls leave a message or a block open, and what of the calls a client is told.
 */
module StreamProtocol {
  import opened Wrappers
  import opened Publisher

  // ---- What a stream leaves open ----

  /** Something a frame starts and later frames can end. An index is in use until the next message starts. */
  datatype Part = Message | AnyBlock | TextWith(index: nat) | ToolWith(index: nat) | IndexUse(index: nat)

  predicate StartsBlock(f: Frame) {
    f.Event? && (f.body.TextStart? || f.body.ToolStart?)
  }

  predicate EndsBlock(f: Frame) {
    f.Event? && (f.body.TextFinish? || f.body.ToolFinish? || f.body.MessageFinishWithUsage?)
  }

  predicate Starts(f: Frame, part: Part) {
    match part
    case Message => f.Event? && f.body.MessageStart?
    case AnyBlock => StartsBlock(f)
    case TextWith(i) => f.Event? && f.body == TextStart(i)
    case ToolWith(i) => f.Event? && f.body.ToolStart? && f.body.index == i
    case IndexUse(i) => StartsBlock(f) && f.body.index == i
  }

  /** A block is over when another starts. */
  predicate Ends(f: Frame, part: Part) {
    match part
    case Message => f.Event? && (f.body.MessageFinish? || f.body.MessageFinishWithUsage?)
    case AnyBlock => EndsBlock(f)
    case TextWith(_) => StartsBlock(f) || EndsBlock(f)
    case ToolWith(_) => StartsBlock(f) || EndsBlock(f)
    case IndexUse(_) => f.Event? && f.body.MessageStart?
  }

  /** Started, and not ended since. */
  ghost predicate IsOpen(stream: seq<Frame>, part: Part) {
    exists j :: 0 <= j < |stream| && Starts(stream[j], part) && forall m :: j < m < |stream| ==> !Ends(stream[m], part)
  }

  function CountSteps(stream: seq<Frame>): nat {
    if stream == [] then 0
    else
      var last := stream[|stream| - 1];
      CountSteps(stream[..|stream| - 1]) + (if last.Event? && last.body.Checkpoint? then 1 else 0)
  }

  lemma OpenAfter(stream: seq<Frame>, f: Frame, part: Part)
    ensures IsOpen(stream + [f], part) <==> Starts(f, part) || (IsOpen(stream, part) && !Ends(f, part))
  {
    var more, n := stream + [f], |stream|;
    assert more[n] == f && forall k :: 0 <= k < n ==> more[k] == stream[k];
    if Starts(f, part) {
      assert Starts(more[n], part);
    } else if j :| 0 <= j < n && Starts(stream[j], part) && forall m :: j < m < n ==> !Ends(stream[m], part) {
      assert Starts(more[j], part);
      if !Ends(f, part) { assert forall m :: j < m < |more| ==> !Ends(more[m], part); }
    }
    if j :| 0 <= j < |more| && Starts(more[j], part) && forall m :: j < m < |more| ==> !Ends(more[m], part) {
      if j < n {
        assert Starts(stream[j], part) && !Ends(more[n], part);
        forall m | j < m < n ensures !Ends(stream[m], part) { assert !Ends(more[m], part); }
      }
    }
  }

  // ---- Which frames may follow a stream ----

  ghost predicate BodyFits(stream: seq<Frame>, body: Body) {
    match body
    case MessageStart => !IsOpen(stream, Message) && !IsOpen(stream, AnyBlock)
    case TextStart(_) => IsOpen(stream, Message) && !IsOpen(stream, AnyBlock)
    case TextDelta(i, _) => IsOpen(stream, Message) && IsOpen(stream, TextWith(i))
    case TextFinish(i) => IsOpen(stream, TextWith(i))
    case ToolStart(_, _) => !IsOpen(stream, AnyBlock)
    case ToolFinish(i, _) => IsOpen(stream, ToolWith(i))
    case MessageFinish => IsOpen(stream, Message) && !IsOpen(stream, AnyBlock)
    case Checkpoint(step) => step == CountSteps(stream) + 1
    case _ => true
  }

  /** Nothing follows the sentinel, events are numbered from 1, and each event has its place. */
  ghost predicate Fits(stream: seq<Frame>, f: Frame) {
    && Sentinel !in stream
    && (f.Event? ==> f.number == CountEvents(stream) + 1 && BodyFits(stream, f.body))
  }

  /** What a client takes to be open. */
  predicate Sees(r: Reader, part: Part) {
    match part
    case Message => r.inMessage
    case AnyBlock => r.open.Some?
    case TextWith(i) => r.open == Some(TextOpen(i))
    case ToolWith(i) => r.open == Some(ToolOpen(i))
    case IndexUse(i) => i in r.used
  }

  /** What a client knows is what the frames say. */
  ghost predicate Knows(r: Reader, stream: seq<Frame>) {
    && r.number == CountEvents(stream) && r.steps == CountSteps(stream)
    && (forall part :: Sees(r, part) <==> IsOpen(stream, part))
    && r.ended == (Sentinel in stream)
  }

  lemma ReadOpens(r: Reader, f: Frame, part: Part)
    requires ReadFrame(r, f).Some?
    ensures Sees(ReadFrame(r, f).value, part) <==> Starts(f, part) || (Sees(r, part) && !Ends(f, part))
  {
    if f.Event? {
      match f.body
      case MessageStart =>
      case TextStart(_) =>
      case TextDelta(_, _) =>
      case TextFinish(_) =>
      case ToolStart(_, _) =>
      case ToolFinish(_, _) =>
      case _ =>
    }
  }

  lemma ReadCounts(r: Reader, f: Frame)
    requires ReadFrame(r, f).Some?
    ensures var after := ReadFrame(r, f).value;
            && after.number == r.number + (if f.Event? then 1 else 0)
            && after.steps == r.steps + (if f.Event? && f.body.Checkpoint? then 1 else 0)
            && after.ended == f.Sentinel?
  {
    if f.Event? {
      match f.body
      case Checkpoint(_) =>
      case _ =>
    }
  }

  lemma ReadKnows(r: Reader, stream: seq<Frame>, f: Frame)
    requires Knows(r, stream) && ReadFrame(r, f).Some?
    ensures Knows(ReadFrame(r, f).value, stream + [f])
  {
    assert (stream + [f])[..|stream|] == stream;
    ReadCounts(r, f);
    forall part ensures Sees(ReadFrame(r, f).value, part) <==> IsOpen(stream + [f], part) {
      ReadOpens(r, f, part);
      OpenAfter(stream, f, part);
      assert Sees(r, part) <==> IsOpen(stream, part);
    }
  }

  lemma ReadIff(r: Reader, stream: seq<Frame>, f: Frame)
    requires Knows(r, stream)
    ensures ReadFrame(r, f).Some? <==> Fits(stream, f)
  {
  }

  ghost predicate AllFit(stream: seq<Frame>) {
    forall k :: 0 <= k < |stream| ==> Fits(stream[..k], stream[k])
  }

  lemma FitsLonger(stream: seq<Frame>, f: Frame)
    ensures AllFit(stream + [f]) <==> AllFit(stream) && Fits(stream, f)
  {
    var more := stream + [f];
    assert forall k :: 0 <= k < |stream| ==> more[..k] == stream[..k] && more[k] == stream[k];
    assert more[..|stream|] == stream && more[|stream|] == f;
  }

  /** Main result: a client accepts exactly the streams whose every frame has its place after those before it. */
  lemma {:induction false} AcceptedIff(stream: seq<Frame>)
    ensures ReadAll(stream).Some? <==> AllFit(stream)
    ensures ReadAll(stream).Some? ==> Knows(ReadAll(stream).value, stream)
    decreases |stream|
  {
    if stream == [] {
    } else {
      var init, f := stream[..|stream| - 1], stream[|stream| - 1];
      AcceptedIff(init);
      assert init + [f] == stream;
      FitsLonger(init, f);
      if ReadAll(init).Some? {
        ReadIff(ReadAll(init).value, init, f);
        if ReadFrame(ReadAll(init).value, f).Some? { ReadKnows(ReadAll(init).value, init, f); }
      }
    }
  }

  // ---- Which calls leave a message or a block open ----

  ghost predicate MessageLeftOpen(calls: seq<Call>) {
    exists k :: 0 <= k < |calls| && calls[k].StreamText?
                && forall m :: k < m < |calls| ==> !calls[m].FinishMessage? && !calls[m].PublishResult?
  }

  ghost predicate BlockLeftOpen(calls: seq<Call>) {
    exists k :: 0 <= k < |calls| && calls[k].StreamText?
                && forall m :: k < m < |calls| ==>
                     !calls[m].FinishMessage? && !calls[m].PublishResult? && !calls[m].Assistant?
  }

  lemma LeftOpenAfter(calls: seq<Call>, c: Call)
    ensures MessageLeftOpen(calls + [c]) <==>
            c.StreamText? || (MessageLeftOpen(calls) && !c.FinishMessage? && !c.PublishResult?)
    ensures BlockLeftOpen(calls + [c]) <==>
            c.StreamText? || (BlockLeftOpen(calls) && !c.FinishMessage? && !c.PublishResult? && !c.Assistant?)
  {
    var more, n := calls + [c], |calls|;
    assert more[n] == c && forall k :: 0 <= k < n ==> more[k] == calls[k];
  }

  lemma {:induction false} BlocksFraming(p: State, content: seq<Block>)
    ensures var q := Blocks(p, content);
            q.inMessage == p.inMessage && q.inBlock == p.inBlock && q.closed == p.closed
  {
    if content != [] { BlocksFraming(p, content[..|content| - 1]); }
  }

  lemma CallFraming(p: State, c: Call)
    ensures var q := Publish(p, c);
            && q.inMessage == (c.StreamText? || (p.inMessage && !c.FinishMessage? && !c.PublishResult?))
            && q.inBlock ==
               (c.StreamText? || (p.inBlock && !c.FinishMessage? && !c.PublishResult? && !c.Assistant?))
            && q.closed == (p.closed || c.Close?)
  {
    if c.Assistant? { BlocksFraming(CloseBlock(p), c.content); }
  }

  lemma {:induction false} CallsFraming(calls: seq<Call>)
    ensures var p := PublishAll(Fresh, calls);
            && p.inMessage == MessageLeftOpen(calls) && p.inBlock == BlockLeftOpen(calls)
            && p.closed == (Close in calls)
    decreases |calls|
  {
    if calls != [] {
      var init, c := calls[..|calls| - 1], calls[|calls| - 1];
      CallsFraming(init);
      CallFraming(PublishAll(Fresh, init), c);
      LeftOpenAfter(init, c);
      assert init + [c] == calls;
    }
  }

  /**
   * Main result: until the stream is closed, a client finds a message open exactly when text has been streamed since
   * the last finished message or result, and a block exactly when no assistant message has come after that text either.
   */
  lemma OpenPartsIff(calls: seq<Call>)
    requires Close !in calls
    ensures var stream := PublishAll(Fresh, calls).stream;
            && (IsOpen(stream, Message) <==> MessageLeftOpen(calls))
            && (IsOpen(stream, AnyBlock) <==> BlockLeftOpen(calls))
  {
    CallsFraming(calls);
    EveryStreamIsReadable(calls);
    var stream := PublishAll(Fresh, calls).stream;
    AcceptedIff(stream);
    var r := ReadAll(stream).value;
    assert Sees(r, Message) <==> IsOpen(stream, Message);
    assert Sees(r, AnyBlock) <==> IsOpen(stream, AnyBlock);
  }

  /** Every frame any calls write has its place. */
  lemma EveryFrameFits(calls: seq<Call>)
    ensures AllFit(PublishAll(Fresh, calls).stream)
  {
    EveryStreamIsReadable(calls);
    AcceptedIff(PublishAll(Fresh, calls).stream);
  }

  // ---- What a client is told ----

  /** What a stream says, its messages' and blocks' starts and ends aside. */
  datatype Told =
    | ToldText(text: string)
    | ToldCall(call: Block)
    | ToldStep
    | ToldAside(aside: Aside)
    | ToldResult(subtype: string, result: Option<string>)
    | ToldEnd

  function ToldBy(f: Frame): seq<Told> {
    match f
    case Result(subtype, result) => [ToldResult(subtype, result)]
    case Sentinel => [ToldEnd]
    case Event(_, body) =>
      match body
      case TextDelta(_, text) => [ToldText(text)]
      case ToolAnnounced(call) => [ToldCall(call)]
      case Checkpoint(_) => [ToldStep]
      case Other(aside) => [ToldAside(aside)]
      case _ => []
  }

  function ToldIn(stream: seq<Frame>): seq<Told> {
    if stream == [] then [] else ToldIn(stream[..|stream| - 1]) + ToldBy(stream[|stream| - 1])
  }

  /** The tool calls of a message's content, in order. */
  function ToolCallsIn(content: seq<Block>): seq<Told> {
    if content == [] then []
    else
      var before, last := ToolCallsIn(content[..|content| - 1]), content[|content| - 1];
      if last.ToolUse? then before + [ToldCall(last)] else before
  }

  function Tells(c: Call): seq<Told> {
    match c
    case StreamText(text) => [ToldText(text)]
    case Assistant(content) => ToolCallsIn(content)
    case FinishMessage => []
    case PublishResult(subtype, result) => [ToldResult(subtype, result)]
    case PublishCheckpoint => [ToldStep]
    case PublishAside(aside) => [ToldAside(aside)]
    case Close => [ToldEnd]
  }

  /** What calls tell: nothing after the first close. */
  function AllTold(calls: seq<Call>): seq<Told> {
    if calls == [] then []
    else
      var init := calls[..|calls| - 1];
      AllTold(init) + if Close in init then [] else Tells(calls[|calls| - 1])
  }

  predicate IsToolFrame(f: Frame) {
    f.Event? && (f.body.ToolStart? || f.body.ToolFinish? || f.body.ToolAnnounced?)
  }

  ghost predicate Adds(p: State, q: State, told: seq<Told>) {
    !p.closed && !q.closed && ToldIn(q.stream) == ToldIn(p.stream) + told
  }

  lemma ToldAfter(stream: seq<Frame>, f: Frame)
    ensures ToldIn(stream + [f]) == ToldIn(stream) + ToldBy(f)
  {
    assert (stream + [f])[..|stream|] == stream;
  }

  lemma EmitTells(p: State, body: Body)
    requires !p.closed
    ensures Adds(p, Emit(p, body), ToldBy(Event(0, body)))
  {
    ToldAfter(p.stream, Event(p.number + 1, body));
  }

  lemma OneBlockTells(p: State, b: Block)
    requires !p.closed
    ensures Adds(p, OneBlock(p, b), if b.ToolUse? then [ToldCall(b)] else [])
  {
    if b.ToolUse? {
      var p0 := p.(index := p.index + 1);
      var p1 := Emit(p0, ToolStart(p0.index, b));
      EmitTells(p0, ToolStart(p0.index, b));
      EmitTells(p1, ToolFinish(p0.index, b));
      EmitTells(Emit(p1, ToolFinish(p0.index, b)), ToolAnnounced(b));
    }
  }

  lemma {:induction false} BlocksTell(p: State, content: seq<Block>)
    requires !p.closed
    ensures Adds(p, Blocks(p, content), ToolCallsIn(content))
    decreases |content|
  {
    if content != [] {
      var init := content[..|content| - 1];
      BlocksTell(p, init);
      OneBlockTells(Blocks(p, init), content[|content| - 1]);
    }
  }

  lemma AddsTwice(p: State, q: State, r: State, first: seq<Told>, second: seq<Told>)
    requires Adds(p, q, first) && Adds(q, r, second)
    ensures Adds(p, r, first + second)
  {
  }

  lemma OpeningTells(p: State)
    requires !p.closed
    ensures Adds(p, OpenBlock(OpenMessage(p)), [])
  {
    if !p.inMessage { EmitTells(p.(inMessage := true, index := 0), MessageStart); }
    var q := OpenMessage(p);
    if !q.inBlock { EmitTells(q.(inBlock := true), TextStart(q.index)); }
  }

  lemma ClosingTells(p: State)
    requires !p.closed
    ensures Adds(p, CloseBlock(p), [])
  {
    if p.inBlock { EmitTells(p.(inBlock := false), TextFinish(p.index)); }
  }

  lemma TextTells(p: State, text: string)
    requires !p.closed
    ensures Adds(p, Publish(p, StreamText(text)), [ToldText(text)])
  {
    var q := OpenBlock(OpenMessage(p));
    OpeningTells(p);
    EmitTells(q, TextDelta(q.index, text));
    AddsTwice(p, q, Emit(q, TextDelta(q.index, text)), [], [ToldText(text)]);
  }

  lemma AssistantTells(p: State, content: seq<Block>)
    requires !p.closed
    ensures Adds(p, Publish(p, Assistant(content)), ToolCallsIn(content))
  {
    var q, told := CloseBlock(p), ToolCallsIn(content);
    ClosingTells(p);
    BlocksTell(q, content);
    AddsTwice(p, q, Blocks(q, content), [], told);
    assert [] + told == told;
  }

  lemma FinishTells(p: State)
    requires !p.closed
    ensures Adds(p, Publish(p, FinishMessage), [])
  {
    ClosingTells(p);
    EmitTells(CloseBlock(p), MessageFinish);
  }

  lemma ResultTells(p: State, subtype: string, result: Option<string>)
    requires !p.closed
    ensures Adds(p, Publish(p, PublishResult(subtype, result)), [ToldResult(subtype, result)])
  {
    EmitTells(p, MessageFinishWithUsage);
    ToldAfter(Emit(p, MessageFinishWithUsage).stream, Result(subtype, result));
  }

  /** The other calls write one frame. */
  lemma LoneFrame(p: State, c: Call) returns (f: Frame)
    requires !p.closed && (c.PublishCheckpoint? || c.PublishAside? || c.Close?)
    ensures Publish(p, c).stream == p.stream + [f]
    ensures ToldBy(f) == Tells(c) && !IsToolFrame(f)
  {
    match c
    case PublishCheckpoint => f := Event(p.number + 1, Checkpoint(p.steps + 1));
    case PublishAside(aside) => f := Event(p.number + 1, Other(aside));
    case Close => f := Sentinel;
  }

  lemma CallTells(p: State, c: Call)
    requires !p.closed
    ensures ToldIn(Publish(p, c).stream) == ToldIn(p.stream) + Tells(c)
  {
    if c.StreamText? {
      TextTells(p, c.text);
    } else if c.Assistant? {
      AssistantTells(p, c.content);
    } else if c.FinishMessage? {
      FinishTells(p);
    } else if c.PublishResult? {
      ResultTells(p, c.subtype, c.result);
    } else {
      var f := LoneFrame(p, c);
      ToldAfter(p.stream, f);
    }
  }

  lemma {:induction false} ClosedBlocks(p: State, content: seq<Block>)
    requires p.closed
    ensures Blocks(p, content).stream == p.stream && Blocks(p, content).closed
  {
    if content != [] { ClosedBlocks(p, content[..|content| - 1]); }
  }

  lemma NothingAfterClose(p: State, c: Call)
    requires p.closed
    ensures Publish(p, c).stream == p.stream
  {
    if c.Assistant? { ClosedBlocks(CloseBlock(p), c.content); }
  }

  /**
   * Main result: clients are told everything the calls before the close say, in order: each text, each tool call of an
   * assistant message, each step, each aside and each result.
   */
  lemma {:induction false} ClientsAreToldAll(calls: seq<Call>)
    ensures ToldIn(PublishAll(Fresh, calls).stream) == AllTold(calls)
    decreases |calls|
  {
    if calls != [] {
      var init, c := calls[..|calls| - 1], calls[|calls| - 1];
      ClientsAreToldAll(init);
      CallsFraming(init);
      if Close in init {
        NothingAfterClose(PublishAll(Fresh, init), c);
      } else {
        CallTells(PublishAll(Fresh, init), c);
      }
    }
  }

  // ---- Tool blocks ----

  /** The frames of a tool call: its block is started and finished, and then it is announced. */
  predicate IsToolBlock(frames: seq<Frame>) {
    && |frames| == 3 && frames[0].Event? && frames[1].Event? && frames[2].Event? && frames[0].body.ToolStart?
    && frames[1].body == ToolFinish(frames[0].body.index, frames[0].body.call)
    && frames[2].body == ToolAnnounced(frames[0].body.call)
  }

  /** The stream is made of whole tool blocks and of frames of no tool call. */
  predicate IsWhole(stream: seq<Frame>) {
    if stream == [] then true
    else if !IsToolFrame(stream[|stream| - 1]) then IsWhole(stream[..|stream| - 1])
    else |stream| >= 3 && IsToolBlock(stream[|stream| - 3..]) && IsWhole(stream[..|stream| - 3])
  }

  lemma FrameKeepsWhole(stream: seq<Frame>, f: Frame)
    requires IsWhole(stream) && !IsToolFrame(f)
    ensures IsWhole(stream + [f])
  {
    assert (stream + [f])[..|stream|] == stream;
  }

  lemma BlockKeepsWhole(stream: seq<Frame>, block: seq<Frame>)
    requires IsWhole(stream) && IsToolBlock(block)
    ensures IsWhole(stream + block)
  {
    var more := stream + block;
    assert more[..|more| - 3] == stream && more[|more| - 3..] == block;
  }

  lemma EmitKeepsWhole(p: State, body: Body)
    requires IsWhole(p.stream) && !IsToolFrame(Event(0, body))
    ensures IsWhole(Emit(p, body).stream)
  {
    FrameKeepsWhole(p.stream, Event(p.number + 1, body));
  }

  lemma {:induction false} BlocksKeepWhole(p: State, content: seq<Block>)
    requires IsWhole(p.stream) && !p.closed
    ensures IsWhole(Blocks(p, content).stream)
    decreases |content|
  {
    if content != [] {
      var init, b := content[..|content| - 1], content[|content| - 1];
      BlocksKeepWhole(p, init);
      BlocksFraming(p, init);
      if b.ToolUse? { OneBlockKeepsWhole(Blocks(p, init), b); }
    }
  }

  lemma OneBlockKeepsWhole(p: State, b: Block)
    requires IsWhole(p.stream) && !p.closed && b.ToolUse?
    ensures IsWhole(OneBlock(p, b).stream)
  {
    var i := p.index + 1;
    var block := [Event(p.number + 1, ToolStart(i, b)), Event(p.number + 2, ToolFinish(i, b)),
                  Event(p.number + 3, ToolAnnounced(b))];
    assert OneBlock(p, b).stream == p.stream + block;
    BlockKeepsWhole(p.stream, block);
  }

  lemma OpeningKeepsWhole(p: State)
    requires IsWhole(p.stream)
    ensures IsWhole(OpenBlock(OpenMessage(p)).stream)
  {
    if !p.inMessage { EmitKeepsWhole(p.(inMessage := true, index := 0), MessageStart); }
    var q := OpenMessage(p);
    if !q.inBlock { EmitKeepsWhole(q.(inBlock := true), TextStart(q.index)); }
  }

  lemma ClosingKeepsWhole(p: State)
    requires IsWhole(p.stream)
    ensures IsWhole(CloseBlock(p).stream)
  {
    if p.inBlock { EmitKeepsWhole(p.(inBlock := false), TextFinish(p.index)); }
  }

  lemma TextKeepsWhole(p: State, text: string)
    requires IsWhole(p.stream)
    ensures IsWhole(Publish(p, StreamText(text)).stream)
  {
    OpeningKeepsWhole(p);
    var q := OpenBlock(OpenMessage(p));
    EmitKeepsWhole(q, TextDelta(q.index, text));
  }

  lemma FinishKeepsWhole(p: State)
    requires IsWhole(p.stream)
    ensures IsWhole(Publish(p, FinishMessage).stream)
  {
    ClosingKeepsWhole(p);
    EmitKeepsWhole(CloseBlock(p), MessageFinish);
  }

  lemma ResultKeepsWhole(p: State, subtype: string, result: Option<string>)
    requires IsWhole(p.stream) && !p.closed
    ensures IsWhole(Publish(p, PublishResult(subtype, result)).stream)
  {
    EmitKeepsWhole(p, MessageFinishWithUsage);
    FrameKeepsWhole(Emit(p, MessageFinishWithUsage).stream, Result(subtype, result));
  }

  lemma CallKeepsWhole(p: State, c: Call)
    requires IsWhole(p.stream) && !p.closed
    ensures IsWhole(Publish(p, c).stream)
  {
    if c.StreamText? {
      TextKeepsWhole(p, c.text);
    } else if c.Assistant? {
      ClosingKeepsWhole(p);
      BlocksKeepWhole(CloseBlock(p), c.content);
    } else if c.FinishMessage? {
      FinishKeepsWhole(p);
    } else if c.PublishResult? {
      ResultKeepsWhole(p, c.subtype, c.result);
    } else {
      var f := LoneFrame(p, c);
      FrameKeepsWhole(p.stream, f);
    }
  }

  /** In the stream of any calls every tool call is announced right after its own block. */
  lemma {:induction false} ToolBlocksAreWhole(calls: seq<Call>)
    ensures IsWhole(PublishAll(Fresh, calls).stream)
    decreases |calls|
  {
    if calls != [] {
      var init, c := calls[..|calls| - 1], calls[|calls| - 1];
      ToolBlocksAreWhole(init);
      if PublishAll(Fresh, init).closed {
        NothingAfterClose(PublishAll(Fresh, init), c);
      } else {
        CallKeepsWhole(PublishAll(Fresh, init), c);
      }
    }
  }
}
