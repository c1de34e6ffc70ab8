/**
 * The repair made to every message list before it is sent to the model API
 * (core/middleware/structured_output/middleware.py, `sanitize_openai_messages`).
 *
 * The source closes open calls in the arbitrary order of a Python set, so what it may
 * return is the relation `MayProduce`; the method is proved to return one such list, and
 * the lemmas hold of all of them.
 */
module Sanitizer {
  import opened Wrappers

  /**
   * An entry of the list. A call or a result whose id keys are all missing or empty carries "".
   * `Opaque` is an entry that is not a dictionary.
   */
  datatype Message =
    | Assistant(calls: seq<string>, text: string)
    | Tool(callId: string, content: string)
    | Plain(role: string, text: string)
    | Opaque(text: string)
  {
    /** Entries that begin something new: the results of the one before must be in by then. */
    predicate IsTurn() {
      Assistant? || Plain?
    }

    function Opens(): set<string> {
      if Assistant? then set id | id in calls && id != "" else {}
    }

    predicate Answers(id: string) {
      Tool? && callId == id
    }
  }

  const CLOSING_TEXT := "Action completed or interrupted"

  function Closer(id: string): Message {
    Tool(id, CLOSING_TEXT)
  }

  // ---- What a transcript owes the API ----

  /** Message `i` opened `id`, and before position `k` there is no result for it and no new turn. */
  ghost predicate OpenSince(ms: seq<Message>, i: nat, k: nat, id: string)
    requires i < k <= |ms|
  {
    && ms[i].IsTurn()
    && id in ms[i].Opens()
    && forall j :: i < j < k ==> !ms[j].IsTurn() && !ms[j].Answers(id)
  }

  ghost predicate OpenAt(ms: seq<Message>, k: nat, id: string)
    requires k <= |ms|
  {
    exists i: nat :: i < k && OpenSince(ms, i, k, id)
  }

  /** A result is the first answer to a call of the last turn before it. */
  ghost predicate FirstAnswer(ms: seq<Message>, k: nat)
    requires k < |ms|
  {
    ms[k].Tool? && OpenAt(ms, k, ms[k].callId)
  }

  /**
   * Every result is the first answer to a call of the turn it follows, and where the next turn
   * starts, or the list ends, no call is left without its result.
   */
  ghost predicate ValidTranscript(ms: seq<Message>) {
    && (forall k: nat :: k < |ms| && ms[k].Tool? ==> FirstAnswer(ms, k))
    && (forall k: nat, id :: k <= |ms| && (k < |ms| ==> ms[k].IsTurn()) ==> !OpenAt(ms, k, id))
  }

  // ---- Said of calls and results alone ----

  /** Position `k` comes after `i`, with nothing but results and opaque entries from there up to it. */
  ghost predicate InTurnOf(ms: seq<Message>, i: nat, k: nat) {
    i < k < |ms| && forall j :: i < j <= k ==> ms[j].Tool? || ms[j].Opaque?
  }

  ghost predicate MakesCall(ms: seq<Message>, i: nat, id: string) {
    i < |ms| && ms[i].Assistant? && id in ms[i].calls && id != ""
  }

  /** Position `k` holds a result for `id` in the turn of message `i`. */
  ghost predicate ResultIn(ms: seq<Message>, i: nat, k: nat, id: string) {
    InTurnOf(ms, i, k) && ms[k].Tool? && ms[k].callId == id
  }

  /** A result is a first answer exactly when its turn's message made the call and no result before it has its id. */
  lemma FirstAnswerIff(ms: seq<Message>, k: nat)
    requires k < |ms| && ms[k].Tool?
    ensures FirstAnswer(ms, k) <==>
            exists i: nat :: MakesCall(ms, i, ms[k].callId) && InTurnOf(ms, i, k)
                             && forall j :: i < j < k ==> !ResultIn(ms, i, j, ms[k].callId)
  {
    var id := ms[k].callId;
    if FirstAnswer(ms, k) {
      var i: nat :| i < k && OpenSince(ms, i, k, id);
      assert MakesCall(ms, i, id) && InTurnOf(ms, i, k);
    }
    if i: nat :| MakesCall(ms, i, id) && InTurnOf(ms, i, k) && forall j :: i < j < k ==> !ResultIn(ms, i, j, id) {
      forall j | i < j < k ensures !ms[j].IsTurn() && !ms[j].Answers(id) {
        assert !ResultIn(ms, i, j, id);
        assert InTurnOf(ms, i, j);
      }
      assert OpenSince(ms, i, k, id);
    }
  }

  /** In a valid transcript each call has exactly one result before the next turn. */
  lemma EachCallAnsweredOnce(ms: seq<Message>, i: nat, id: string) returns (k: nat)
    requires ValidTranscript(ms) && MakesCall(ms, i, id)
    ensures ResultIn(ms, i, k, id)
    ensures forall l: nat :: ResultIn(ms, i, l, id) ==> l == k
  {
    var p := NextTurn(ms, i + 1);
    assert !OpenAt(ms, p, id);
    assert !OpenSince(ms, i, p, id);
    k :| i < k < p && ms[k].Answers(id);
    assert InTurnOf(ms, i, k);
    forall l: nat | ResultIn(ms, i, l, id) ensures l == k {
      if l <= k { OneAnswer(ms, i, l, k, id); } else { OneAnswer(ms, i, k, l, id); }
    }
  }

  lemma OneAnswer(ms: seq<Message>, i: nat, k: nat, l: nat, id: string)
    requires ValidTranscript(ms) && MakesCall(ms, i, id)
    requires ResultIn(ms, i, k, id) && ResultIn(ms, i, l, id) && k <= l
    ensures k == l
  {
    assert FirstAnswer(ms, l);
    FirstAnswerIff(ms, l);
    var o: nat :| MakesCall(ms, o, id) && InTurnOf(ms, o, l) && forall j :: o < j < l ==> !ResultIn(ms, o, j, id);
    SameTurn(ms, i, o, l, id);
  }

  lemma SameTurn(ms: seq<Message>, i: nat, o: nat, l: nat, id: string)
    requires MakesCall(ms, i, id) && MakesCall(ms, o, id) && InTurnOf(ms, i, l) && InTurnOf(ms, o, l)
    ensures i == o
  {
  }

  /** And no result is for anything else: its turn's message made the call. */
  lemma NoStrayResult(ms: seq<Message>, k: nat) returns (i: nat)
    requires ValidTranscript(ms) && k < |ms| && ms[k].Tool?
    ensures MakesCall(ms, i, ms[k].callId) && InTurnOf(ms, i, k)
  {
    assert FirstAnswer(ms, k);
    FirstAnswerIff(ms, k);
    i :| MakesCall(ms, i, ms[k].callId) && InTurnOf(ms, i, k);
  }

  /** Where the turn after position `k` starts: the first turn from there on, or the end. */
  function NextTurn(ms: seq<Message>, k: nat): (p: nat)
    requires k <= |ms|
    ensures k <= p <= |ms| && (p < |ms| ==> ms[p].IsTurn())
    ensures forall j :: k <= j < p ==> !ms[j].IsTurn()
    decreases |ms| - k
  {
    if k == |ms| || ms[k].IsTurn() then k else NextTurn(ms, k + 1)
  }

  // ---- The calls open after a prefix ----

  function OpenAfter(ms: seq<Message>): set<string> {
    if ms == [] then {}
    else
      var m := ms[|ms| - 1];
      var before := OpenAfter(ms[..|ms| - 1]);
      if m.IsTurn() then m.Opens() else if m.Tool? then before - {m.callId} else before
  }

  lemma {:induction false} OpenAfterMeaning(ms: seq<Message>, k: nat, id: string)
    requires k <= |ms|
    ensures id in OpenAfter(ms[..k]) <==> OpenAt(ms, k, id)
  {
    if k > 0 {
      OpenAfterMeaning(ms, k - 1, id);
      assert ms[..k][..k - 1] == ms[..k - 1];
      if ms[k - 1].IsTurn() {
        if id in ms[k - 1].Opens() { assert OpenSince(ms, k - 1, k, id); }
      } else if OpenAt(ms, k - 1, id) && !ms[k - 1].Answers(id) {
        var i: nat :| i < k - 1 && OpenSince(ms, i, k - 1, id);
        assert OpenSince(ms, i, k, id);
      } else if OpenAt(ms, k, id) {
        var i: nat :| i < k && OpenSince(ms, i, k, id);
        assert OpenSince(ms, i, k - 1, id);
      }
    }
  }

  lemma NothingOpen(ms: seq<Message>, k: nat)
    requires k <= |ms| && forall id :: !OpenAt(ms, k, id)
    ensures OpenAfter(ms[..k]) == {}
  {
    if OpenAfter(ms[..k]) != {} {
      var id :| id in OpenAfter(ms[..k]);
      OpenAfterMeaning(ms, k, id);
    }
  }

  // ---- What the sanitizer may return ----

  /** `s` closes each id of `open` once, in some order. */
  ghost predicate IsClosing(s: seq<Message>, open: set<string>) {
    if s == [] then open == {}
    else s[0].Tool? && s[0].callId in open && s[0] == Closer(s[0].callId) && IsClosing(s[1..], open - {s[0].callId})
  }

  lemma {:induction false} CloseOneMore(s: seq<Message>, closed: set<string>, id: string)
    requires IsClosing(s, closed) && id !in closed
    ensures IsClosing(s + [Closer(id)], closed + {id})
    decreases |s|
  {
    if s == [] {
      assert s + [Closer(id)] == [Closer(id)];
      assert closed + {id} - {id} == {};
    } else {
      CloseOneMore(s[1..], closed - {s[0].callId}, id);
      assert (s + [Closer(id)])[1..] == s[1..] + [Closer(id)];
      assert closed + {id} - {s[0].callId} == closed - {s[0].callId} + {id};
    }
  }

  /** Before the last message of `ms`, the output was `before`; it is `out` after it. */
  ghost predicate Grows(ms: seq<Message>, before: seq<Message>, out: seq<Message>)
    requires ms != []
  {
    var m := ms[|ms| - 1];
    var open := OpenAfter(ms[..|ms| - 1]);
    if m.IsTurn() then exists closing :: IsClosing(closing, open) && out == before + closing + [m]
    else if m.Tool? && m.callId !in open then out == before
    else out == before + [m]
  }

  /** `out` is what the loop may have built from `ms`. */
  ghost predicate MayBuild(ms: seq<Message>, out: seq<Message>) {
    if ms == [] then out == []
    else exists before :: MayBuild(ms[..|ms| - 1], before) && Grows(ms, before, out)
  }

  /** What the sanitizer may return: the built list, its last open calls closed. */
  ghost predicate MayProduce(ms: seq<Message>, out: seq<Message>) {
    exists built, closing :: MayBuild(ms, built) && IsClosing(closing, OpenAfter(ms)) && out == built + closing
  }

  method CloseAll(ids: set<string>) returns (closing: seq<Message>)
    ensures IsClosing(closing, ids)
  {
    closing := [];
    var left := ids;
    while left != {}
      invariant left <= ids
      invariant IsClosing(closing, ids - left)
      decreases left
    {
      var id :| id in left;
      CloseOneMore(closing, ids - left, id);
      assert ids - left + {id} == ids - (left - {id});
      closing := closing + [Closer(id)];
      left := left - {id};
    }
    assert ids - left == ids;
  }

  /** The ids of a message's calls, those without one left out. */
  method OpenIds(msg: Message) returns (ids: set<string>)
    ensures ids == msg.Opens()
  {
    ids := {};
    if msg.Assistant? {
      for j := 0 to |msg.calls|
        invariant forall id :: id in ids <==> id in msg.calls[..j] && id != ""
      {
        if msg.calls[j] != "" {
          ids := ids + {msg.calls[j]};
        }
      }
    }
  }

  method Sanitize(ms: seq<Message>) returns (sanitized: seq<Message>)
    ensures MayProduce(ms, sanitized)
  {
    var openIds: set<string> := {};
    sanitized := [];
    for n := 0 to |ms|
      invariant openIds == OpenAfter(ms[..n])
      invariant MayBuild(ms[..n], sanitized)
    {
      var msg := ms[n];
      ghost var before := sanitized;
      assert ms[..n + 1][..n] == ms[..n];
      if msg.IsTurn() {
        var closing := CloseAll(openIds);
        sanitized := sanitized + closing + [msg];
        openIds := OpenIds(msg);
      } else if msg.Tool? {
        if msg.callId in openIds {
          sanitized := sanitized + [msg];
          openIds := openIds - {msg.callId};
        }
      } else {
        sanitized := sanitized + [msg];
      }
      assert Grows(ms[..n + 1], before, sanitized);
    }
    assert ms[..|ms|] == ms;
    var closing := CloseAll(openIds);
    sanitized := sanitized + closing;
  }

  // ---- A transcript read from the left ----

  /** None: some result is an orphan, or some turn started with calls still open. */
  function Check(ms: seq<Message>): Option<set<string>> {
    if ms == [] then Some({})
    else
      var m := ms[|ms| - 1];
      match Check(ms[..|ms| - 1])
      case None => None
      case Some(open) =>
        if m.IsTurn() then (if open == {} then Some(m.Opens()) else None)
        else if m.Tool? then (if m.callId in open then Some(open - {m.callId}) else None)
        else Some(open)
  }

  lemma CheckAppend(ms: seq<Message>, m: Message)
    ensures Check(ms + [m]) ==
            match Check(ms)
            case None => None
            case Some(open) =>
              if m.IsTurn() then (if open == {} then Some(m.Opens()) else None)
              else if m.Tool? then (if m.callId in open then Some(open - {m.callId}) else None)
              else Some(open)
  {
    assert (ms + [m])[..|ms|] == ms;
  }

  lemma {:induction false} CheckIsOpenAfter(ms: seq<Message>)
    requires Check(ms).Some?
    ensures Check(ms).value == OpenAfter(ms)
    decreases |ms|
  {
    if ms != [] { CheckIsOpenAfter(ms[..|ms| - 1]); }
  }

  /** The left-to-right check accepts exactly the valid transcripts. */
  lemma CheckMeaning(ms: seq<Message>)
    ensures Check(ms) == Some({}) <==> ValidTranscript(ms)
  {
    if Check(ms) == Some({}) {
      forall k: nat | k < |ms| && ms[k].Tool? ensures FirstAnswer(ms, k) {
        CheckedPrefix(ms, k);
        OpenAfterMeaning(ms, k, ms[k].callId);
      }
      forall k: nat, id | k <= |ms| && (k < |ms| ==> ms[k].IsTurn()) ensures !OpenAt(ms, k, id) {
        CheckedPrefix(ms, k);
        OpenAfterMeaning(ms, k, id);
      }
    }
    if ValidTranscript(ms) {
      ValidIsChecked(ms, |ms|);
      assert ms[..|ms|] == ms;
      CheckIsOpenAfter(ms);
      NothingOpen(ms, |ms|);
    }
  }

  lemma {:induction false} CheckedPrefix(ms: seq<Message>, k: nat)
    requires Check(ms).Some? && k <= |ms|
    ensures Check(ms[..k]) == Some(OpenAfter(ms[..k]))
    ensures k < |ms| && ms[k].Tool? ==> ms[k].callId in OpenAfter(ms[..k])
    ensures k < |ms| && ms[k].IsTurn() ==> OpenAfter(ms[..k]) == {}
    ensures k == |ms| ==> Check(ms) == Some(OpenAfter(ms[..k]))
    decreases |ms| - k
  {
    if k < |ms| {
      CheckedPrefix(ms, k + 1);
      assert ms[..k + 1][..k] == ms[..k];
    } else {
      assert ms[..k] == ms;
    }
    CheckIsOpenAfter(ms[..k]);
  }

  lemma {:induction false} ValidIsChecked(ms: seq<Message>, k: nat)
    requires ValidTranscript(ms) && k <= |ms|
    ensures Check(ms[..k]).Some?
  {
    if k > 0 {
      ValidIsChecked(ms, k - 1);
      assert ms[..k][..k - 1] == ms[..k - 1];
      CheckIsOpenAfter(ms[..k - 1]);
      if ms[k - 1].Tool? {
        assert FirstAnswer(ms, k - 1);
        OpenAfterMeaning(ms, k - 1, ms[k - 1].callId);
      } else if ms[k - 1].IsTurn() {
        NothingOpen(ms, k - 1);
      }
    }
  }

  // ---- The output is a valid transcript ----

  lemma {:induction false} ClosingChecks(ms: seq<Message>, closing: seq<Message>, open: set<string>)
    requires Check(ms) == Some(open) && IsClosing(closing, open)
    ensures Check(ms + closing) == Some({})
    decreases |closing|
  {
    if closing == [] {
      assert open == {};
      assert ms + closing == ms;
    } else {
      CheckAppend(ms, closing[0]);
      ClosingChecks(ms + [closing[0]], closing[1..], open - {closing[0].callId});
      assert ms + [closing[0]] + closing[1..] == ms + closing;
    }
  }

  lemma {:induction false} BuiltListsCheck(ms: seq<Message>, out: seq<Message>)
    requires MayBuild(ms, out)
    ensures Check(out) == Some(OpenAfter(ms))
    decreases |ms|
  {
    if ms != [] {
      var m := ms[|ms| - 1];
      var init := ms[..|ms| - 1];
      var before :| MayBuild(init, before) && Grows(ms, before, out);
      BuiltListsCheck(init, before);
      if m.IsTurn() {
        var closing :| IsClosing(closing, OpenAfter(init)) && out == before + closing + [m];
        ClosingChecks(before, closing, OpenAfter(init));
        CheckAppend(before + closing, m);
      } else {
        assert m.Tool? && m.callId !in OpenAfter(init) ==> OpenAfter(init) - {m.callId} == OpenAfter(init);
        CheckAppend(before, m);
      }
    }
  }

  /** Main result: whatever the input, the output is a valid transcript. */
  lemma OutputIsValid(ms: seq<Message>, out: seq<Message>)
    requires MayProduce(ms, out)
    ensures ValidTranscript(out)
  {
    var built, closing :| MayBuild(ms, built) && IsClosing(closing, OpenAfter(ms)) && out == built + closing;
    BuiltListsCheck(ms, built);
    ClosingChecks(built, closing, OpenAfter(ms));
    CheckMeaning(out);
  }

  /** So in whatever is returned each call has exactly one result before the next turn, and no other result stands. */
  lemma OutputAnswersEachCall(ms: seq<Message>, out: seq<Message>)
    requires MayProduce(ms, out)
    ensures forall i: nat, id :: MakesCall(out, i, id) ==>
              exists k: nat :: ResultIn(out, i, k, id) && forall l: nat :: ResultIn(out, i, l, id) ==> l == k
    ensures forall k: nat :: k < |out| && out[k].Tool? ==>
              exists i: nat :: MakesCall(out, i, out[k].callId) && InTurnOf(out, i, k)
  {
    OutputIsValid(ms, out);
    forall i: nat, id | MakesCall(out, i, id)
      ensures exists k: nat :: ResultIn(out, i, k, id) && forall l: nat :: ResultIn(out, i, l, id) ==> l == k
    {
      var k := EachCallAnsweredOnce(out, i, id);
    }
    forall k: nat | k < |out| && out[k].Tool?
      ensures exists i: nat :: MakesCall(out, i, out[k].callId) && InTurnOf(out, i, k)
    {
      var i := NoStrayResult(out, k);
    }
  }

  // ---- Valid input is returned as it is ----

  lemma {:induction false} ValidPrefixIsCopied(ms: seq<Message>, out: seq<Message>)
    requires Check(ms).Some? && MayBuild(ms, out)
    ensures out == ms
    decreases |ms|
  {
    if ms != [] {
      var init := ms[..|ms| - 1];
      var before :| MayBuild(init, before) && Grows(ms, before, out);
      ValidPrefixIsCopied(init, before);
      CheckIsOpenAfter(init);
      assert ms == init + [ms[|ms| - 1]];
      if ms[|ms| - 1].IsTurn() {
        var closing :| IsClosing(closing, OpenAfter(init)) && out == before + closing + [ms[|ms| - 1]];
      }
    }
  }

  lemma ValidInputIsUnchanged(ms: seq<Message>, out: seq<Message>)
    requires ValidTranscript(ms) && MayProduce(ms, out)
    ensures out == ms
  {
    CheckMeaning(ms);
    CheckIsOpenAfter(ms);
    var built, closing :| MayBuild(ms, built) && IsClosing(closing, OpenAfter(ms)) && out == built + closing;
    ValidPrefixIsCopied(ms, built);
  }

  lemma SanitizingTwiceChangesNothing(ms: seq<Message>, once: seq<Message>, twice: seq<Message>)
    requires MayProduce(ms, once) && MayProduce(once, twice)
    ensures twice == once
  {
    OutputIsValid(ms, once);
    ValidInputIsUnchanged(once, twice);
  }

  // ---- What survives ----

  /** The messages of the first `n` that are no results, and the results that are first answers, in order. */
  ghost function Survivors(ms: seq<Message>, n: nat): seq<Message>
    requires n <= |ms|
  {
    if n == 0 then []
    else Survivors(ms, n - 1) + (if !ms[n - 1].Tool? || FirstAnswer(ms, n - 1) then [ms[n - 1]] else [])
  }

  /** `out` is `kept` with closing results put in between. */
  ghost predicate OnlyClosersAdded(kept: seq<Message>, out: seq<Message>) {
    if out == [] then kept == []
    else
      var last := out[|out| - 1];
      var init := out[..|out| - 1];
      || (kept != [] && kept[|kept| - 1] == last && OnlyClosersAdded(kept[..|kept| - 1], init))
      || (last.Tool? && last == Closer(last.callId) && OnlyClosersAdded(kept, init))
  }

  lemma KeepOne(kept: seq<Message>, out: seq<Message>, m: Message)
    requires OnlyClosersAdded(kept, out)
    ensures OnlyClosersAdded(kept + [m], out + [m])
  {
    assert (out + [m])[..|out|] == out && (kept + [m])[..|kept|] == kept;
  }

  lemma {:induction false} AddClosers(kept: seq<Message>, out: seq<Message>, closing: seq<Message>, open: set<string>)
    requires OnlyClosersAdded(kept, out)
    requires IsClosing(closing, open)
    ensures OnlyClosersAdded(kept, out + closing)
    decreases |closing|
  {
    if closing == [] {
      assert out + closing == out;
    } else {
      assert (out + [closing[0]])[..|out|] == out;
      AddClosers(kept, out + [closing[0]], closing[1..], open - {closing[0].callId});
      assert out + [closing[0]] + closing[1..] == out + closing;
    }
  }

  lemma GrowingKeeps(ms: seq<Message>, kept: seq<Message>, before: seq<Message>, out: seq<Message>)
    requires ms != [] && Grows(ms, before, out) && OnlyClosersAdded(kept, before)
    ensures var m := ms[|ms| - 1];
            OnlyClosersAdded(if m.Tool? && m.callId !in OpenAfter(ms[..|ms| - 1]) then kept else kept + [m], out)
  {
    var m := ms[|ms| - 1];
    if m.IsTurn() {
      var open := OpenAfter(ms[..|ms| - 1]);
      var closing :| IsClosing(closing, open) && out == before + closing + [m];
      AddClosers(kept, before, closing, open);
      KeepOne(kept, before + closing, m);
    } else {
      KeepOne(kept, before, m);
    }
  }

  lemma {:induction false} BuiltListsKeep(ms: seq<Message>, n: nat, out: seq<Message>)
    requires n <= |ms| && MayBuild(ms[..n], out)
    ensures OnlyClosersAdded(Survivors(ms, n), out)
  {
    if n > 0 {
      var m := ms[n - 1];
      var init := ms[..n - 1];
      assert ms[..n][..n - 1] == init;
      var before :| MayBuild(init, before) && Grows(ms[..n], before, out);
      BuiltListsKeep(ms, n - 1, before);
      GrowingKeeps(ms[..n], Survivors(ms, n - 1), before, out);
      if m.Tool? {
        OpenAfterMeaning(ms, n - 1, m.callId);
        assert Survivors(ms, n - 1) + [] == Survivors(ms, n - 1);
      }
    }
  }

  /** Messages that are no results and first valid answers survive, in order; only closers are added. */
  lemma OutputKeepsSurvivors(ms: seq<Message>, out: seq<Message>)
    requires MayProduce(ms, out)
    ensures OnlyClosersAdded(Survivors(ms, |ms|), out)
  {
    var built, closing :| MayBuild(ms, built) && IsClosing(closing, OpenAfter(ms)) && out == built + closing;
    assert ms[..|ms|] == ms;
    BuiltListsKeep(ms, |ms|, built);
    AddClosers(Survivors(ms, |ms|), built, closing, OpenAfter(ms));
  }

  /** What that means: every survivor is there as often, and anything else is the result the sanitizer makes up. */
  lemma {:induction false} ClosersAddedMeaning(kept: seq<Message>, out: seq<Message>)
    requires OnlyClosersAdded(kept, out)
    ensures multiset(kept) <= multiset(out)
    ensures forall m :: m in out && m !in kept ==> m.Tool? && m.content == "Action completed or interrupted"
    decreases |out|
  {
    if out != [] {
      var last, init := out[|out| - 1], out[..|out| - 1];
      assert out == init + [last];
      if kept != [] && kept[|kept| - 1] == last && OnlyClosersAdded(kept[..|kept| - 1], init) {
        assert kept == kept[..|kept| - 1] + [last];
        ClosersAddedMeaning(kept[..|kept| - 1], init);
      } else {
        ClosersAddedMeaning(kept, init);
      }
    }
  }
}
