/**
 * What a turn hands the graph (core/execution/executor.py): its input, or a resume of the open question with
 * the results that question's other tool calls still need.
 */
module Resume {
  import opened Wrappers
  import opened Sequences

  // ---- The newest user text ----

  datatype Block = TextBlock(text: string) | OtherBlock

  datatype Content = Text(text: string) | Blocks(blocks: seq<Block>) | OtherContent

  datatype InputMessage = InputMessage(role: string, content: Content)

  /** Which characters `str.strip` removes. */
  type Spaces = char -> bool

  function StripLeft(s: string, isSpace: Spaces): string {
    if s != [] && isSpace(s[0]) then StripLeft(s[1..], isSpace) else s
  }

  function StripRight(s: string, isSpace: Spaces): string {
    if s != [] && isSpace(s[|s| - 1]) then StripRight(s[..|s| - 1], isSpace) else s
  }

  function Strip(s: string, isSpace: Spaces): string {
    StripRight(StripLeft(s, isSpace), isSpace)
  }

  predicate AllSpace(s: string, isSpace: Spaces) {
    forall k :: 0 <= k < |s| ==> isSpace(s[k])
  }

  lemma {:induction false} StripLeftMeaning(s: string, isSpace: Spaces)
    ensures var r := StripLeft(s, isSpace);
            && |r| <= |s| && s[|s| - |r|..] == r && AllSpace(s[..|s| - |r|], isSpace)
            && (r != [] ==> !isSpace(r[0]))
  {
    if s != [] && isSpace(s[0]) {
      StripLeftMeaning(s[1..], isSpace);
      var r := StripLeft(s, isSpace);
      assert s[..|s| - |r|] == [s[0]] + s[1..][..|s[1..]| - |r|];
    }
  }

  lemma {:induction false} StripRightMeaning(s: string, isSpace: Spaces)
    ensures var r := StripRight(s, isSpace);
            && |r| <= |s| && s[..|r|] == r && AllSpace(s[|r|..], isSpace)
            && (r != [] ==> !isSpace(r[|r| - 1]))
  {
    if s != [] && isSpace(s[|s| - 1]) {
      var init := s[..|s| - 1];
      StripRightMeaning(init, isSpace);
      var r := StripRight(s, isSpace);
      assert s[|r|..] == init[|r|..] + [s[|s| - 1]];
    }
  }

  /** Stripping takes the spaces off both ends and nothing else. */
  lemma StripMeaning(s: string, isSpace: Spaces) returns (before: string, after: string)
    ensures s == before + Strip(s, isSpace) + after && AllSpace(before, isSpace) && AllSpace(after, isSpace)
    ensures var r := Strip(s, isSpace); r != [] ==> !isSpace(r[0]) && !isSpace(r[|r| - 1])
    ensures Strip(s, isSpace) == "" <==> AllSpace(s, isSpace)
  {
    var left := StripLeft(s, isSpace);
    StripLeftMeaning(s, isSpace);
    StripRightMeaning(left, isSpace);
    before, after := s[..|s| - |left|], left[|Strip(s, isSpace)|..];
    assert left == Strip(s, isSpace) + after;
    assert s == before + left;
    if Strip(s, isSpace) == "" {
      assert s == before + after;
    } else {
      assert s[|before|] == Strip(s, isSpace)[0];
    }
  }

  /** The non-empty texts, with a space between any two. */
  function Joined(blocks: seq<Block>): string {
    if blocks == [] then ""
    else
      var before, last := Joined(blocks[..|blocks| - 1]), blocks[|blocks| - 1];
      if last.OtherBlock? || last.text == "" then before
      else if before == "" then last.text
      else before + " " + last.text
  }

  function TextOf(content: Content, isSpace: Spaces): string {
    match content
    case Text(text) => Strip(text, isSpace)
    case Blocks(blocks) => Strip(Joined(blocks), isSpace)
    case OtherContent => ""
  }

  /** The text of the newest message whose role is the user's, "" when there is none. */
  function LatestUserText(messages: seq<InputMessage>, isSpace: Spaces): string {
    if messages == [] then ""
    else
      var last := messages[|messages| - 1];
      if last.role == "user" then TextOf(last.content, isSpace)
      else LatestUserText(messages[..|messages| - 1], isSpace)
  }

  /** The text taken is that of the newest user message, whatever came before it. */
  lemma {:induction false} NewestUserTextIsTaken(messages: seq<InputMessage>, isSpace: Spaces, k: nat)
    requires k < |messages| && messages[k].role == "user"
    requires forall j :: k < j < |messages| ==> messages[j].role != "user"
    ensures LatestUserText(messages, isSpace) == TextOf(messages[k].content, isSpace)
    decreases |messages|
  {
    if k < |messages| - 1 { NewestUserTextIsTaken(messages[..|messages| - 1], isSpace, k); }
  }

  lemma {:induction false} NoUserNoText(messages: seq<InputMessage>, isSpace: Spaces)
    requires forall k :: 0 <= k < |messages| ==> messages[k].role != "user"
    ensures LatestUserText(messages, isSpace) == ""
    decreases |messages|
  {
    if messages != [] { NoUserNoText(messages[..|messages| - 1], isSpace); }
  }

  /** Texts in order, with a space between any two. */
  function Spaced(texts: seq<string>): string {
    if texts == [] then ""
    else if |texts| == 1 then texts[0]
    else texts[0] + " " + Spaced(texts[1..])
  }

  lemma {:induction false} SpacedMore(texts: seq<string>, text: string)
    ensures Spaced(texts + [text]) == if texts == [] then text else Spaced(texts) + " " + text
  {
    if |texts| == 0 {
      assert texts + [text] == [text];
    } else {
      assert (texts + [text])[1..] == texts[1..] + [text];
      SpacedMore(texts[1..], text);
      if |texts| == 1 {
        assert texts[1..] == [];
      } else {
        assert texts[0] + " " + (Spaced(texts[1..]) + " " + text) == texts[0] + " " + Spaced(texts[1..]) + " " + text;
      }
    }
  }

  /** The texts of the blocks that have one, in order. */
  function Texts(blocks: seq<Block>): seq<string> {
    if blocks == [] then []
    else if blocks[0].TextBlock? && blocks[0].text != "" then [blocks[0].text] + Texts(blocks[1..])
    else Texts(blocks[1..])
  }

  lemma {:induction false} TextsMore(blocks: seq<Block>, b: Block)
    ensures Texts(blocks + [b]) == if b.TextBlock? && b.text != "" then Texts(blocks) + [b.text] else Texts(blocks)
  {
    if blocks == [] {
      assert [b][1..] == [];
    } else {
      assert (blocks + [b])[1..] == blocks[1..] + [b];
      TextsMore(blocks[1..], b);
    }
  }

  /** A list's text is its non-empty texts, in order, with a space between any two. */
  lemma {:induction false} JoinedIsSpaced(blocks: seq<Block>)
    ensures Joined(blocks) == Spaced(Texts(blocks)) && (Joined(blocks) == "" <==> Texts(blocks) == [])
    decreases |blocks|
  {
    if blocks != [] {
      var init, last := blocks[..|blocks| - 1], blocks[|blocks| - 1];
      JoinedIsSpaced(init);
      assert blocks == init + [last];
      TextsMore(init, last);
      if last.TextBlock? { SpacedMore(Texts(init), last.text); }
    }
  }

  // ---- The checkpoint ----

  datatype Call = Call(id: string, name: string)

  datatype Message = AI(calls: seq<Call>) | ToolResult(callId: string) | OtherMessage

  /** One attempt to read the session's latest checkpoint. */
  datatype Load = NoCheckpointer | LoadFailed | NoCheckpoint | Loaded(question: bool, messages: seq<Message>)

  /** A check that cannot be made answers no. */
  predicate HasPendingQuestion(load: Load) {
    load.Loaded? && load.question
  }

  // ---- Resuming ----

  datatype Decision = Decision(kind: string, message: Option<string>)

  datatype Payload = Decisions(decisions: seq<Decision>) | OtherPayload(text: string)

  datatype Injected = Injected(callId: string, content: string, isError: bool)

  /** Either the turn's own input, or a resume, with tool results added to the state. */
  datatype StreamInput = OwnInput | ResumeWith(results: seq<Injected>, payload: Payload)

  const SELF_INTERRUPTING_TOOLS := {"ask_user"}

  const KNOWN_DECISIONS := {"respond", "reject", "approve", "edit"}

  function ResumeFromText(messages: seq<InputMessage>, load: Load, isSpace: Spaces): Option<Payload> {
    var text := LatestUserText(messages, isSpace);
    if text == "" || !HasPendingQuestion(load) then None
    else Some(Decisions([Decision("respond", Some(text))]))
  }

  function Answered(messages: seq<Message>): set<string> {
    set k | 0 <= k < |messages| && messages[k].ToolResult? && messages[k].callId != "" :: messages[k].callId
  }

  predicate IsOrphan(c: Call, answered: set<string>) {
    c.id != "" && c.id !in answered && c.name !in SELF_INTERRUPTING_TOOLS
  }

  function OrphansAmong(calls: seq<Call>, answered: set<string>): seq<string> {
    if calls == [] then []
    else
      var before, last := OrphansAmong(calls[..|calls| - 1], answered), calls[|calls| - 1];
      if IsOrphan(last, answered) then before + [last.id] else before
  }

  /**
   * The calls that need an injected result, in transcript order: unanswered, and not resumed by the question
   * itself.
   */
  function OrphansIn(messages: seq<Message>, answered: set<string>): seq<string> {
    if messages == [] then []
    else
      var before, last := OrphansIn(messages[..|messages| - 1], answered), messages[|messages| - 1];
      if last.AI? then before + OrphansAmong(last.calls, answered) else before
  }

  function Orphans(messages: seq<Message>): seq<string> {
    OrphansIn(messages, Answered(messages))
  }

  predicate IsKnown(d: Decision) {
    d.kind in KNOWN_DECISIONS
  }

  function ResultFor(id: string, d: Decision): Injected {
    Injected(id, if d.message.Some? then d.message.value else "Approved", d.kind == "reject")
  }

  /**
   * The results of the first `n` decisions. A decision of an unknown kind injects nothing but still uses up its
   * call.
   */
  function ResultsOf(decisions: seq<Decision>, ids: seq<string>, n: nat): seq<Injected>
    requires n <= |decisions| && n <= |ids|
  {
    if n == 0 then []
    else
      var before := ResultsOf(decisions, ids, n - 1);
      if IsKnown(decisions[n - 1]) then before + [ResultFor(ids[n - 1], decisions[n - 1])] else before
  }

  function Results(decisions: seq<Decision>, ids: seq<string>): seq<Injected> {
    ResultsOf(decisions, ids, Min(|decisions|, |ids|))
  }

  /**
   * `early` is the read behind a plain message, `tuple` the read of the transcript and `late` the check made after
   * it.
   */
  function StreamInputFor(messages: seq<InputMessage>, resume: Option<Payload>, early: Load, tuple: Load,
      late: Load, isSpace: Spaces): StreamInput {
    match if resume.Some? then resume else ResumeFromText(messages, early, isSpace)
    case None => OwnInput
    case Some(payload) =>
      if payload.OtherPayload? || payload.decisions == [] then ResumeWith([], payload)
      else if !tuple.Loaded? then ResumeWith([], payload)
      else if !HasPendingQuestion(late) then OwnInput
      else ResumeWith(Results(payload.decisions, Orphans(tuple.messages)), payload)
  }

  /** Walking back from the newest message to the first of the user's. */
  method FindLatestUserText(messages: seq<InputMessage>, isSpace: Spaces) returns (text: string)
    ensures text == LatestUserText(messages, isSpace)
  {
    var n := |messages|;
    assert messages[..n] == messages;
    while n > 0
      invariant 0 <= n <= |messages|
      invariant LatestUserText(messages, isSpace) == LatestUserText(messages[..n], isSpace)
    {
      n := n - 1;
      var message := messages[n];
      assert messages[..n + 1][..n] == messages[..n];
      if message.role == "user" {
        match message.content {
          case Text(t) =>
            return Strip(t, isSpace);
          case Blocks(blocks) =>
            var joined := JoinTexts(blocks);
            return Strip(joined, isSpace);
          case OtherContent =>
            return "";
        }
      }
    }
    return "";
  }

  method JoinTexts(blocks: seq<Block>) returns (joined: string)
    ensures joined == Joined(blocks)
  {
    joined := "";
    for i := 0 to |blocks|
      invariant joined == Joined(blocks[..i])
    {
      assert blocks[..i + 1][..i] == blocks[..i];
      match blocks[i] {
        case TextBlock(text) =>
          if text != "" {
            joined := if joined == "" then text else joined + " " + text;
          }
        case OtherBlock =>
      }
    }
    assert blocks[..|blocks|] == blocks;
  }

  method BuildResumeInput(messages: seq<InputMessage>, resume: Option<Payload>, early: Load, tuple: Load,
      late: Load, isSpace: Spaces)
    returns (input: StreamInput)
    ensures input == StreamInputFor(messages, resume, early, tuple, late, isSpace)
    // A plain message resumes exactly a question that the first read finds and the last one has not lost.
    ensures resume.None? ==>
              (input.ResumeWith? <==>
                 && HasPendingQuestion(early) && LatestUserText(messages, isSpace) != ""
                 && !(tuple.Loaded? && !HasPendingQuestion(late)))
    // It carries the text of the newest user message, as a response.
    ensures resume.None? && input.ResumeWith? ==>
              forall k: nat :: k < |messages| && messages[k].role == "user"
                               && (forall j :: k < j < |messages| ==> messages[j].role != "user") ==>
                input.payload == Decisions([Decision("respond", Some(TextOf(messages[k].content, isSpace)))])
  {
    forall k: nat | k < |messages| && messages[k].role == "user"
                    && forall j :: k < j < |messages| ==> messages[j].role != "user"
      ensures LatestUserText(messages, isSpace) == TextOf(messages[k].content, isSpace)
    {
      NewestUserTextIsTaken(messages, isSpace, k);
    }
    var payload := resume;
    if payload.None? {
      var text := FindLatestUserText(messages, isSpace);
      if text == "" || !early.Loaded? || !early.question {
        return OwnInput;
      }
      payload := Some(Decisions([Decision("respond", Some(text))]));
    }
    if payload.value.OtherPayload? || payload.value.decisions == [] {
      return ResumeWith([], payload.value);
    }
    var ids: seq<string> := [];
    if tuple.Loaded? {
      if !late.Loaded? || !late.question {
        return OwnInput;
      }
      ids := FindOrphans(tuple.messages);
    }
    var decisions := payload.value.decisions;
    var results: seq<Injected> := [];
    var i := 0;
    while i < |decisions|
      invariant 0 <= i <= |decisions| && i <= |ids|
      invariant results == ResultsOf(decisions, ids, i)
    {
      if i >= |ids| {
        break;
      }
      var d := decisions[i];
      if d.kind == "respond" || d.kind == "reject" || d.kind == "approve" || d.kind == "edit" {
        var content := if d.message.Some? then d.message.value else "Approved";
        results := results + [Injected(ids[i], content, d.kind == "reject")];
      }
      i := i + 1;
    }
    return ResumeWith(results, payload.value);
  }

  method FindOrphans(messages: seq<Message>) returns (ids: seq<string>)
    ensures ids == Orphans(messages)
  {
    var answered: set<string> := {};
    for i := 0 to |messages|
      invariant answered == Answered(messages[..i])
    {
      if messages[i].ToolResult? && messages[i].callId != "" {
        answered := answered + {messages[i].callId};
      }
      AnsweredGrows(messages, i);
    }
    assert messages[..|messages|] == messages;
    ids := [];
    for i := 0 to |messages|
      invariant ids == OrphansIn(messages[..i], answered)
    {
      assert messages[..i + 1][..i] == messages[..i];
      if messages[i].AI? {
        var calls := messages[i].calls;
        ghost var before := ids;
        for j := 0 to |calls|
          invariant ids == before + OrphansAmong(calls[..j], answered)
        {
          assert calls[..j + 1][..j] == calls[..j];
          if calls[j].id != "" && calls[j].id !in answered && calls[j].name != "ask_user" {
            ids := ids + [calls[j].id];
          }
        }
        assert calls[..|calls|] == calls;
      }
    }
  }

  lemma AnsweredGrows(messages: seq<Message>, i: nat)
    requires i < |messages|
    ensures var m := messages[i];
            Answered(messages[..i + 1]) ==
            Answered(messages[..i]) + if m.ToolResult? && m.callId != "" then {m.callId} else {}
  {
    var shorter, longer := messages[..i], messages[..i + 1];
    assert forall k :: 0 <= k < i ==> shorter[k] == longer[k];
    assert longer[i] == messages[i];
    forall id | id in Answered(shorter) ensures id in Answered(longer) {
      var k :| 0 <= k < i && shorter[k] == ToolResult(id);
      assert longer[k] == ToolResult(id);
    }
  }

  // ---- A message that answers the question resumes it ----

  /**
   * On a paused graph, non-empty user text becomes a resume that carries exactly that text, unless the second
   * check no longer finds the question. When every read succeeds and agrees, that never happens.
   */
  lemma UserTextAnswersTheQuestion(messages: seq<InputMessage>, early: Load, tuple: Load, late: Load, isSpace: Spaces)
    requires HasPendingQuestion(early) && LatestUserText(messages, isSpace) != ""
    ensures var input := StreamInputFor(messages, None, early, tuple, late, isSpace);
            && (input.ResumeWith? <==> !(tuple.Loaded? && !HasPendingQuestion(late)))
            && (input.ResumeWith? ==>
                  input.payload == Decisions([Decision("respond", Some(LatestUserText(messages, isSpace)))]))
            && (early == tuple == late ==> input.ResumeWith?)
  {
  }

  /** The exception happens: an answer to a question that the second check no longer finds becomes a turn of its own. */
  lemma AnswerCanMissItsQuestion(messages: seq<Message>, isSpace: Spaces)
    requires !isSpace('y')
    ensures var answer := [InputMessage("user", Text("y"))];
            && LatestUserText(answer, isSpace) == "y" && HasPendingQuestion(Loaded(true, messages))
            && StreamInputFor(answer, None, Loaded(true, messages), Loaded(true, messages), Loaded(false, messages),
                              isSpace)
               == OwnInput
  {
  }

  /** With no explicit decision, and no text or no question, the turn runs on its own input. */
  lemma OtherwiseAnOrdinaryTurn(messages: seq<InputMessage>, early: Load, tuple: Load, late: Load, isSpace: Spaces)
    requires !HasPendingQuestion(early) || LatestUserText(messages, isSpace) == ""
    ensures StreamInputFor(messages, None, early, tuple, late, isSpace) == OwnInput
  {
  }

  // ---- No call gets two results ----

  /** How many results a transcript holds for a call. */
  function ResultCount(messages: seq<Message>, id: string): nat {
    if messages == [] then 0
    else ResultCount(messages[..|messages| - 1], id) + if messages[|messages| - 1] == ToolResult(id) then 1 else 0
  }

  /** The ids of the calls that have one. */
  function CallIds(calls: seq<Call>): seq<string> {
    if calls == [] then []
    else
      var before, id := CallIds(calls[..|calls| - 1]), calls[|calls| - 1].id;
      if id == "" then before else before + [id]
  }

  /** Every call id of a transcript, in order. */
  function AllCallIds(messages: seq<Message>): seq<string> {
    if messages == [] then []
    else
      var before, last := AllCallIds(messages[..|messages| - 1]), messages[|messages| - 1];
      if last.AI? then before + CallIds(last.calls) else before
  }

  function InjectedIds(results: seq<Injected>): seq<string> {
    seq(|results|, k requires 0 <= k < |results| => results[k].callId)
  }

  ghost predicate Within(ids: seq<string>, all: seq<string>, answered: set<string>) {
    forall k :: 0 <= k < |ids| ==> ids[k] in all && ids[k] !in answered && ids[k] != ""
  }

  lemma {:induction false} OrphansAmongMeaning(calls: seq<Call>, answered: set<string>)
    ensures Within(OrphansAmong(calls, answered), CallIds(calls), answered)
    ensures NoDup(CallIds(calls)) ==> NoDup(OrphansAmong(calls, answered))
    decreases |calls|
  {
    if calls != [] {
      OrphansAmongMeaning(calls[..|calls| - 1], answered);
      if NoDup(CallIds(calls)) { UniqueBefore(calls); }
    }
  }

  lemma UniqueBefore(calls: seq<Call>)
    requires calls != [] && NoDup(CallIds(calls))
    ensures var init, last := calls[..|calls| - 1], calls[|calls| - 1];
            NoDup(CallIds(init)) && (last.id != "" ==> last.id !in CallIds(init))
  {
    var init, last := calls[..|calls| - 1], calls[|calls| - 1];
    if last.id != "" { NoDupOfParts(CallIds(init), [last.id]); }
  }

  lemma {:induction false} OrphansAmongIff(calls: seq<Call>, answered: set<string>, id: string)
    ensures id in OrphansAmong(calls, answered) <==>
            exists k :: 0 <= k < |calls| && calls[k].id == id && IsOrphan(calls[k], answered)
    decreases |calls|
  {
    if calls != [] {
      var init := calls[..|calls| - 1];
      OrphansAmongIff(init, answered, id);
      assert forall k :: 0 <= k < |init| ==> init[k] == calls[k];
    }
  }

  /** The calls that need a result: with an id, no result in the transcript, and not a question's own. */
  lemma OrphansIff(messages: seq<Message>, id: string)
    ensures id in Orphans(messages) <==>
            && id != "" && ToolResult(id) !in messages
            && exists m: nat, c: nat :: IsOtherCall(messages, m, c) && messages[m].calls[c].id == id
  {
    var answered := Answered(messages);
    OrphansAreCalls(messages, answered, id);
    if ToolResult(id) in messages {
      var k :| 0 <= k < |messages| && messages[k] == ToolResult(id);
    }
  }

  /** Call `c` of message `m` is not a question's own. */
  ghost predicate IsOtherCall(messages: seq<Message>, m: nat, c: nat) {
    m < |messages| && messages[m].AI? && c < |messages[m].calls| && messages[m].calls[c].name != "ask_user"
  }

  lemma {:induction false} OrphansAreCalls(messages: seq<Message>, answered: set<string>, id: string)
    ensures id in OrphansIn(messages, answered) <==>
            && id != "" && id !in answered
            && exists m: nat, c: nat :: IsOtherCall(messages, m, c) && messages[m].calls[c].id == id
    decreases |messages|
  {
    if messages != [] {
      var init, last := messages[..|messages| - 1], messages[|messages| - 1];
      OrphansAreCalls(init, answered, id);
      if m: nat, c: nat :| IsOtherCall(init, m, c) && init[m].calls[c].id == id {
        assert IsOtherCall(messages, m, c) && messages[m].calls[c].id == id;
      }
      if last.AI? {
        OrphansAmongIff(last.calls, answered, id);
        if id in OrphansAmong(last.calls, answered) {
          var c :| 0 <= c < |last.calls| && last.calls[c].id == id && IsOrphan(last.calls[c], answered);
          assert IsOtherCall(messages, |init|, c);
        }
      }
      if m: nat, c: nat :| IsOtherCall(messages, m, c) && messages[m].calls[c].id == id {
        if m < |init| { assert IsOtherCall(init, m, c) && init[m].calls[c].id == id; }
      }
    }
  }

  lemma {:induction false} OrphansInMeaning(messages: seq<Message>, answered: set<string>)
    ensures Within(OrphansIn(messages, answered), AllCallIds(messages), answered)
    ensures NoDup(AllCallIds(messages)) ==> NoDup(OrphansIn(messages, answered))
    decreases |messages|
  {
    if messages != [] {
      var init, last := messages[..|messages| - 1], messages[|messages| - 1];
      OrphansInMeaning(init, answered);
      if last.AI? {
        OrphansAmongMeaning(last.calls, answered);
        if NoDup(AllCallIds(messages)) {
          NoDupOfParts(AllCallIds(init), CallIds(last.calls));
        }
      }
    }
  }

  /** How many of the first `n` decisions are known ones. */
  function KnownCount(decisions: seq<Decision>, n: nat): nat
    requires n <= |decisions|
  {
    if n == 0 then 0 else KnownCount(decisions, n - 1) + if IsKnown(decisions[n - 1]) then 1 else 0
  }

  lemma {:induction false} KnownCountIsMonotone(decisions: seq<Decision>, i: nat, n: nat)
    requires i < n <= |decisions|
    ensures KnownCount(decisions, i) + (if IsKnown(decisions[i]) then 1 else 0) <= KnownCount(decisions, n)
  {
    if i < n - 1 { KnownCountIsMonotone(decisions, i, n - 1); }
  }

  /**
   * Main result: the i-th decision answers the i-th call that needs a result, an unknown decision uses up its call,
   * and the results stand in that order with nothing between them.
   */
  lemma {:induction false} DecisionsAnswerInOrder(decisions: seq<Decision>, ids: seq<string>, n: nat)
    requires n <= |decisions| && n <= |ids|
    ensures var results := ResultsOf(decisions, ids, n);
            && |results| == KnownCount(decisions, n)
            && forall i :: 0 <= i < n && IsKnown(decisions[i]) ==>
                 var k := KnownCount(decisions, i);
                 && k < |results|
                 && results[k] == Injected(ids[i],
                                           (if decisions[i].message.Some? then decisions[i].message.value
                                            else "Approved"),
                                           decisions[i].kind == "reject")
  {
    if n > 0 {
      DecisionsAnswerInOrder(decisions, ids, n - 1);
      var before := ResultsOf(decisions, ids, n - 1);
      forall i | 0 <= i < n - 1 && IsKnown(decisions[i]) ensures KnownCount(decisions, i) < |before| {
        KnownCountIsMonotone(decisions, i, n - 1);
      }
    }
  }

  lemma {:induction false} ResultsAreDistinct(decisions: seq<Decision>, ids: seq<string>, n: nat)
    requires n <= |decisions| && n <= |ids| && NoDup(ids)
    ensures var injected := InjectedIds(ResultsOf(decisions, ids, n));
            NoDup(injected) && forall k :: 0 <= k < |injected| ==> injected[k] in ids[..n]
  {
    if n > 0 {
      ResultsAreDistinct(decisions, ids, n - 1);
      var before := ResultsOf(decisions, ids, n - 1);
      assert ids[n - 1] !in ids[..n - 1];
      assert ids[..n] == ids[..n - 1] + [ids[n - 1]];
      if IsKnown(decisions[n - 1]) {
        assert InjectedIds(ResultsOf(decisions, ids, n)) == InjectedIds(before) + [ids[n - 1]];
      }
    }
  }

  function AsMessages(results: seq<Injected>): seq<Message> {
    seq(|results|, k requires 0 <= k < |results| => ToolResult(results[k].callId))
  }

  lemma {:induction false} AnsweredIffCounted(messages: seq<Message>, id: string)
    requires id != ""
    ensures id in Answered(messages) <==> ResultCount(messages, id) > 0
    decreases |messages|
  {
    if messages != [] {
      var n := |messages| - 1;
      AnsweredIffCounted(messages[..n], id);
      AnsweredGrows(messages, n);
      assert messages[..n + 1] == messages;
    }
  }

  lemma {:induction false} CountAfterResults(messages: seq<Message>, results: seq<Injected>, id: string)
    requires NoDup(InjectedIds(results))
    ensures ResultCount(messages + AsMessages(results), id) ==
            ResultCount(messages, id) + if id in InjectedIds(results) then 1 else 0
    decreases |results|
  {
    if results == [] {
      assert messages + AsMessages(results) == messages;
    } else {
      var n := |results| - 1;
      var init := results[..n];
      assert InjectedIds(results) == InjectedIds(init) + [results[n].callId];
      NoDupOfParts(InjectedIds(init), [results[n].callId]);
      CountAfterResults(messages, init, id);
      var longer := messages + AsMessages(results);
      assert longer[..|longer| - 1] == messages + AsMessages(init);
      assert longer[|longer| - 1] == ToolResult(results[n].callId);
    }
  }

  /** What resuming adds to the transcript: distinct results, each for an unanswered call. */
  lemma InjectedResults(messages: seq<Message>, decisions: seq<Decision>)
    requires NoDup(AllCallIds(messages))
    ensures var ids := InjectedIds(Results(decisions, Orphans(messages)));
            NoDup(ids) && Within(ids, AllCallIds(messages), Answered(messages))
  {
    var orphans := Orphans(messages);
    OrphansInMeaning(messages, Answered(messages));
    ResultsAreDistinct(decisions, orphans, Min(|decisions|, |orphans|));
    var ids := InjectedIds(Results(decisions, orphans));
    forall k | 0 <= k < |ids| ensures ids[k] in AllCallIds(messages) && ids[k] !in Answered(messages) && ids[k] != "" {
      assert ids[k] in orphans;
    }
  }

  /**
   * Main result: if call ids are unique and no call had two results, none has two after resuming, and no answered
   * call gets another.
   */
  lemma NoCallGetsTwoResults(messages: seq<Message>, decisions: seq<Decision>, id: string)
    requires NoDup(AllCallIds(messages)) && id != "" && ResultCount(messages, id) <= 1
    ensures var after := messages + AsMessages(Results(decisions, Orphans(messages)));
            && ResultCount(after, id) <= 1
            && (ResultCount(messages, id) == 1 ==> ResultCount(after, id) == 1)
  {
    var results := Results(decisions, Orphans(messages));
    InjectedResults(messages, decisions);
    CountAfterResults(messages, results, id);
    AnsweredIffCounted(messages, id);
    if id in InjectedIds(results) {
      var k :| 0 <= k < |results| && InjectedIds(results)[k] == id;
    }
  }

  lemma {:induction false} CallIsListedIn(calls: seq<Call>, c: nat)
    requires c < |calls| && calls[c].id != ""
    ensures calls[c].id in CallIds(calls)
    decreases |calls|
  {
    if c < |calls| - 1 { CallIsListedIn(calls[..|calls| - 1], c); }
  }

  lemma {:induction false} CallIsListed(messages: seq<Message>, m: nat, c: nat)
    requires m < |messages| && messages[m].AI? && c < |messages[m].calls| && messages[m].calls[c].id != ""
    ensures messages[m].calls[c].id in AllCallIds(messages)
    decreases |messages|
  {
    var init, last := messages[..|messages| - 1], messages[|messages| - 1];
    if m < |init| {
      CallIsListed(init, m, c);
    } else {
      CallIsListedIn(last.calls, c);
    }
  }

  lemma {:induction false} AskUserIsNotAmong(calls: seq<Call>, answered: set<string>, c: nat)
    requires NoDup(CallIds(calls)) && c < |calls| && calls[c].name == "ask_user" && calls[c].id != ""
    ensures calls[c].id !in OrphansAmong(calls, answered)
    decreases |calls|
  {
    var init, last := calls[..|calls| - 1], calls[|calls| - 1];
    UniqueBefore(calls);
    if c < |init| {
      AskUserIsNotAmong(init, answered, c);
      CallIsListedIn(init, c);
    } else {
      OrphansAmongMeaning(init, answered);
      NotWithin(OrphansAmong(init, answered), CallIds(init), answered, last.id);
    }
  }

  lemma NotWithin(ids: seq<string>, all: seq<string>, answered: set<string>, id: string)
    requires Within(ids, all, answered) && id !in all
    ensures id !in ids
  {
  }

  /** An `ask_user` call is never given a result: the question's own resume makes it. */
  lemma {:induction false} AskUserIsNeverInjected(messages: seq<Message>, answered: set<string>, m: nat, c: nat)
    requires NoDup(AllCallIds(messages))
    requires m < |messages| && messages[m].AI? && c < |messages[m].calls| && messages[m].calls[c].name == "ask_user"
    ensures messages[m].calls[c].id !in OrphansIn(messages, answered)
    decreases |messages|
  {
    var init, last := messages[..|messages| - 1], messages[|messages| - 1];
    var id := messages[m].calls[c].id;
    OrphansInMeaning(messages, answered);
    OrphansInMeaning(init, answered);
    if last.AI? {
      NoDupOfParts(AllCallIds(init), CallIds(last.calls));
      OrphansAmongMeaning(last.calls, answered);
    }
    if id != "" {
      if m < |init| {
        AskUserIsNeverInjected(init, answered, m, c);
        CallIsListed(init, m, c);
        if last.AI? { NotWithin(OrphansAmong(last.calls, answered), CallIds(last.calls), answered, id); }
      } else {
        AskUserIsNotAmong(last.calls, answered, c);
        CallIsListedIn(last.calls, c);
        NotWithin(OrphansIn(init, answered), AllCallIds(init), answered, id);
      }
    }
  }

  /**
   * Without unique call ids the guarantee fails: whatever the decisions, results are distinct exactly when the
   * calls needing one are.
   */
  lemma DistinctResultsIff(messages: seq<Message>)
    ensures NoDup(Orphans(messages)) <==>
            forall decisions: seq<Decision> :: NoDup(InjectedIds(Results(decisions, Orphans(messages))))
  {
    var orphans := Orphans(messages);
    forall decisions: seq<Decision> | NoDup(orphans) ensures NoDup(InjectedIds(Results(decisions, orphans))) {
      ResultsAreDistinct(decisions, orphans, Min(|decisions|, |orphans|));
    }
    var approvals := seq(|orphans|, _ => Decision("approve", None));
    ApprovalsAnswerAll(approvals, orphans, |orphans|);
    assert InjectedIds(Results(approvals, orphans)) == orphans;
  }

  lemma {:induction false} ApprovalsAnswerAll(decisions: seq<Decision>, ids: seq<string>, n: nat)
    requires n <= |decisions| && n <= |ids| && forall k :: 0 <= k < |decisions| ==> decisions[k].kind == "approve"
    ensures InjectedIds(ResultsOf(decisions, ids, n)) == ids[..n]
  {
    if n > 0 {
      ApprovalsAnswerAll(decisions, ids, n - 1);
      var before := ResultsOf(decisions, ids, n - 1);
      assert InjectedIds(before + [ResultFor(ids[n - 1], decisions[n - 1])]) == InjectedIds(before) + [ids[n - 1]];
      assert ids[..n] == ids[..n - 1] + [ids[n - 1]];
    }
  }
}
