/**
 * The throttled report that a session's workspace changed (core/waypoint_reports/workspace.py).
 *
 * Times are readings of a monotonic clock, and the clock never reads zero.
 */
module WorkspaceReports {
  import opened Wrappers
  import opened Sequences
  import H = Handlers

  const MIN_INTERVAL_SECONDS := 2.0

  const WORKSPACE_WRITING_TOOLS := {"write_file", "edit_file", "execute", "run_tool", "eval"}

  /** When a session's last report was sent, zero if none was, and whether a change is waiting. */
  datatype Slot = Slot(last: real, pending: bool)

  const NoReport := Slot(0.0, false)

  // ---- One session ----

  /** `Note` is a finished tool call that can write; `Flush` is the end of a turn that its events or a question end. */
  datatype Event = Note(now: real) | Flush(now: real)

  predicate Reports(slot: Slot, e: Event) {
    match e
    case Note(now) => slot.last == 0.0 || now - slot.last >= MIN_INTERVAL_SECONDS
    case Flush(_) => slot.pending
  }

  function Next(slot: Slot, e: Event): Slot {
    if Reports(slot, e) then Slot(e.now, false)
    else if e.Note? then slot.(pending := true)
    else slot
  }

  function Run(slot: Slot, events: seq<Event>): Slot {
    if events == [] then slot else Next(Run(slot, events[..|events| - 1]), events[|events| - 1])
  }

  /** The times of the reports sent. */
  function Sent(slot: Slot, events: seq<Event>): seq<real> {
    if events == [] then []
    else
      var init, e := events[..|events| - 1], events[|events| - 1];
      var before := Sent(slot, init);
      if Reports(Run(slot, init), e) then before + [e.now] else before
  }

  /** The clock does not run backwards, and all its readings are within `[from, to]`. */
  ghost predicate Clocked(events: seq<Event>, from: real, to: real) {
    && (forall i :: 0 <= i < |events| ==> from <= events[i].now <= to)
    && (forall i, j :: 0 <= i < j < |events| ==> events[i].now <= events[j].now)
  }

  ghost predicate Covered(noted: real, sent: seq<real>) {
    exists k :: 0 <= k < |sent| && noted <= sent[k]
  }

  lemma SentAfter(events: seq<Event>, e: Event)
    ensures Sent(NoReport, events + [e]) ==
            Sent(NoReport, events) + if Reports(Run(NoReport, events), e) then [e.now] else []
    ensures Run(NoReport, events + [e]) == Next(Run(NoReport, events), e)
  {
    assert (events + [e])[..|events|] == events;
  }

  /** Some note was not reported, and nothing has been since. */
  ghost predicate HoldsBack(events: seq<Event>) {
    exists i :: 0 <= i < |events| && events[i].Note? && Sent(NoReport, events[..i]) == Sent(NoReport, events)
  }

  lemma {:induction false} SentGrows(events: seq<Event>, i: nat)
    requires i <= |events|
    ensures |Sent(NoReport, events[..i])| <= |Sent(NoReport, events)|
    decreases |events|
  {
    if i == |events| {
      assert events[..i] == events;
    } else {
      SentGrows(events[..|events| - 1], i);
      assert events[..|events| - 1][..i] == events[..i];
    }
  }

  lemma HoldsBackAfter(events: seq<Event>, e: Event)
    ensures HoldsBack(events + [e]) <==>
            !Reports(Run(NoReport, events), e) && (e.Note? || HoldsBack(events))
  {
    var more, n := events + [e], |events|;
    SentAfter(events, e);
    assert more[n] == e && more[..n] == events && forall i :: 0 <= i < n ==> more[i] == events[i];
    forall i | 0 <= i < n ensures more[..i] == events[..i] && |Sent(NoReport, more[..i])| <= |Sent(NoReport, events)| {
      assert more[..i] == events[..i];
      SentGrows(events, i);
    }
  }

  lemma {:induction false} PendingIff(events: seq<Event>)
    ensures Run(NoReport, events).pending <==> HoldsBack(events)
    decreases |events|
  {
    if events != [] {
      var init, e := events[..|events| - 1], events[|events| - 1];
      PendingIff(init);
      SentAfter(init, e);
      HoldsBackAfter(init, e);
      assert init + [e] == events;
    }
  }

  /**
   * When a report is sent, said of the events: a noted write is reported exactly when none was in the two seconds
   * before it, and a flush reports exactly when a noted write is held back, with no report since.
   */
  lemma ReportIsSentIff(events: seq<Event>, e: Event, from: real, to: real)
    requires Clocked(events, from, to) && from > 0.0
    ensures var sent := Sent(NoReport, events);
            Sent(NoReport, events + [e]) ==
            sent + if (if e.Note? then sent == [] || e.now - sent[|sent| - 1] >= 2.0 else HoldsBack(events))
                   then [e.now] else []
  {
    SentAfter(events, e);
    if e.Note? { LastIsLatestSent(events, from, to); } else { PendingIff(events); }
  }

  lemma {:induction false} LastIsLatestSent(events: seq<Event>, from: real, to: real)
    requires Clocked(events, from, to) && from > 0.0
    ensures var last, sent := Run(NoReport, events).last, Sent(NoReport, events);
            if sent == [] then last == 0.0 else last == sent[|sent| - 1] >= from
    decreases |events|
  {
    if events != [] {
      var init, e := events[..|events| - 1], events[|events| - 1];
      LastIsLatestSent(init, from, to);
      SentAfter(init, e);
      assert init + [e] == events;
    }
  }

  /** A noted write is covered by a report at or after it, or a change is waiting. */
  lemma {:induction false} CoveredOrWaiting(events: seq<Event>, from: real, to: real)
    requires Clocked(events, from, to) && from > 0.0
    ensures var slot, sent := Run(NoReport, events), Sent(NoReport, events);
            && slot.last == (if sent == [] then 0.0 else sent[|sent| - 1])
            && (!slot.pending ==> forall i :: 0 <= i < |events| && events[i].Note? ==> events[i].now <= slot.last)
            && (slot.last == 0.0 ==> !slot.pending) && (slot.last == 0.0 || from <= slot.last)
    decreases |events|
  {
    if events != [] {
      CoveredOrWaiting(events[..|events| - 1], from, to);
    }
  }

  /** Main result: after a flush every write noted so far is covered by a report sent at or after it. */
  lemma FlushCoversEveryWrite(events: seq<Event>, from: real, to: real, i: nat)
    requires Clocked(events, from, to) && from > 0.0
    requires i < |events| && events[i].Note? && events[|events| - 1].Flush?
    ensures Covered(events[i].now, Sent(NoReport, events))
  {
    CoveredOrWaiting(events, from, to);
    var sent := Sent(NoReport, events);
    assert events[i].now <= sent[|sent| - 1];
  }

  // ---- The end of a turn ----

  /** What the end of a turn does: some ends flush, the others do nothing. */
  function TurnEnd(stopped: bool, end: H.End, now: real): seq<Event> {
    if H.FlushesAtEnd(stopped, end) then [Flush(now)] else []
  }

  /** Whatever a session's history, once the turn has ended every write noted in it is covered by a report. */
  ghost predicate LastWriteIsReported(stopped: bool, end: H.End) {
    forall events: seq<Event>, from: real, now: real, i: nat ::
      from > 0.0 && Clocked(events, from, now) && i < |events| && events[i].Note? ==>
        Covered(events[i].now, Sent(NoReport, events + TurnEnd(stopped, end, now)))
  }

  /**
   * Main result: the last write of a turn is certain to be reported exactly when a question stopped the turn or its
   * stream ended. A turn that is cancelled before, or fails, can leave it unreported.
   */
  lemma LastWriteIsReportedIff(stopped: bool, end: H.End)
    ensures LastWriteIsReported(stopped, end) <==>
            H.ReachesGraph(end) && (stopped || end.Drained? || end.CancelledAfter?)
  {
    if H.FlushesAtEnd(stopped, end) {
      forall events: seq<Event>, from: real, now: real, i: nat |
        from > 0.0 && Clocked(events, from, now) && i < |events| && events[i].Note?
        ensures Covered(events[i].now, Sent(NoReport, events + TurnEnd(stopped, end, now)))
      {
        FlushCoversEveryWrite(events + [Flush(now)], from, now, i);
      }
    } else {
      var events := HeldBack();
      assert events + TurnEnd(stopped, end, 2.0) == events;
      assert Clocked(events, 1.0, 2.0) && events[1].Note? && !Covered(events[1].now, Sent(NoReport, events));
    }
  }

  /** Two writes within a second: the throttle holds the second back. */
  lemma HeldBack() returns (events: seq<Event>)
    ensures events == [Note(1.0), Note(2.0)] && Sent(NoReport, events) == [1.0]
  {
    events := [Note(1.0), Note(2.0)];
    assert events[..1] == [Note(1.0)] && [Note(1.0)][..0] == [];
    assert Sent(NoReport, [Note(1.0)]) == [1.0] && Run(NoReport, [Note(1.0)]) == Slot(1.0, false);
  }

  // ---- Reports are few ----

  function Flushes(events: seq<Event>): nat {
    if events == [] then 0
    else Flushes(events[..|events| - 1]) + if events[|events| - 1].Flush? then 1 else 0
  }

  /** Reports sent by notes and not by flushes. */
  function SentByNotes(slot: Slot, events: seq<Event>): nat {
    if events == [] then 0
    else
      var init, e := events[..|events| - 1], events[|events| - 1];
      SentByNotes(slot, init) + if e.Note? && Reports(Run(slot, init), e) then 1 else 0
  }

  lemma {:induction false} NotesAreSpaced(slot: Slot, events: seq<Event>, from: real, to: real)
    requires Clocked(events, from, to) && from > 0.0
    ensures |Sent(slot, events)| <= SentByNotes(slot, events) + Flushes(events)
    ensures var n, last := SentByNotes(slot, events), Run(slot, events).last;
            n > 0 ==> from <= last && (events != [] ==> last <= events[|events| - 1].now)
                      && n as real <= 1.0 + (last - from) / 2.0
    decreases |events|
  {
    if events != [] {
      NotesAreSpaced(slot, events[..|events| - 1], from, to);
    }
  }

  ghost function FlushesAt(events: seq<Event>): set<nat> {
    set k | 0 <= k < |events| && events[k].Flush?
  }

  lemma {:induction false} FlushesIsCount(events: seq<Event>)
    ensures Flushes(events) == |FlushesAt(events)|
    decreases |events|
  {
    if events != [] {
      var n := |events| - 1;
      FlushesIsCount(events[..n]);
      assert FlushesAt(events) == FlushesAt(events[..n]) + if events[n].Flush? then {n} else {};
      assert n !in FlushesAt(events[..n]);
    }
  }

  /** Main result: whatever was sent before, a span of D seconds with k flushes sends at most 1 + D/2 + k reports. */
  lemma ReportsAreFew(slot: Slot, events: seq<Event>, from: real, to: real)
    requires Clocked(events, from, to) && 0.0 < from <= to
    ensures |Sent(slot, events)| as real <= 1.0 + (to - from) / 2.0 + |FlushesAt(events)| as real
  {
    FlushesIsCount(events);
    NotesAreSpaced(slot, events, from, to);
    var n := SentByNotes(slot, events);
    assert n as real <= 1.0 + (to - from) / 2.0;
    assert |Sent(slot, events)| as real <= n as real + Flushes(events) as real;
  }

  // ---- All sessions ----

  datatype Call = Call(sessionId: string, event: Event)

  function SlotOf(state: map<string, Slot>, sessionId: string): Slot {
    if sessionId in state then state[sessionId] else NoReport
  }

  function NextAll(state: map<string, Slot>, c: Call): map<string, Slot> {
    state[c.sessionId := Next(SlotOf(state, c.sessionId), c.event)]
  }

  function RunAll(calls: seq<Call>): map<string, Slot> {
    if calls == [] then map[] else NextAll(RunAll(calls[..|calls| - 1]), calls[|calls| - 1])
  }

  function EventsOf(calls: seq<Call>, sessionId: string): seq<Event> {
    if calls == [] then []
    else
      var before, c := EventsOf(calls[..|calls| - 1], sessionId), calls[|calls| - 1];
      if c.sessionId == sessionId then before + [c.event] else before
  }

  /** Sessions do not affect each other: each is throttled as if its calls were the only ones. */
  lemma {:induction false} SessionsAreIndependent(calls: seq<Call>, sessionId: string)
    ensures SlotOf(RunAll(calls), sessionId) == Run(NoReport, EventsOf(calls, sessionId))
    decreases |calls|
  {
    if calls != [] {
      var before, c := EventsOf(calls[..|calls| - 1], sessionId), calls[|calls| - 1];
      SessionsAreIndependent(calls[..|calls| - 1], sessionId);
      assert (before + [c.event])[..|before|] == before;
    }
  }

  // ---- The messages of a values event ----

  /** A serialized message; `hidden` for job outcomes, todo reminders and delivered computer reports. */
  datatype Message = Message(kind: string, name: string, hidden: bool)

  predicate Writes(m: Message) {
    m.kind == "tool" && m.name in WORKSPACE_WRITING_TOOLS
  }

  function Visible(messages: seq<Message>): seq<Message> {
    if messages == [] then []
    else
      var before, last := Visible(messages[..|messages| - 1]), messages[|messages| - 1];
      if last.hidden then before else before + [last]
  }

  /** `serialized[prev_count:]`: the filtered list cut at the count of the unfiltered one. */
  function Cut(messages: seq<Message>, previous: nat): seq<Message> {
    var visible := Visible(messages);
    if previous <= |visible| then visible[previous..] else []
  }

  lemma {:induction false} VisibleOfSum(a: seq<Message>, b: seq<Message>)
    ensures Visible(a + b) == Visible(a) + Visible(b)
    ensures |Visible(a)| <= |a|
    decreases |a| + |b|
  {
    if b != [] {
      assert (a + b)[..|a + b| - 1] == a + b[..|b| - 1];
      VisibleOfSum(a, b[..|b| - 1]);
    } else {
      assert a + b == a;
      if a != [] { VisibleOfSum(a[..|a| - 1], []); assert a[..|a| - 1] + [] == a[..|a| - 1]; }
    }
  }

  /**
   * What is looked at is the new visible messages without as many of the first as there were hidden ones before
   * them.
   */
  lemma CutDropsByHiddenCount(messages: seq<Message>, previous: nat)
    requires previous <= |messages|
    ensures |Visible(messages[..previous])| <= previous
    ensures var added, hidden := Visible(messages[previous..]), previous - |Visible(messages[..previous])|;
            Cut(messages, previous) == added[Min(hidden, |added|)..]
  {
    VisibleOfSum(messages[..previous], messages[previous..]);
    assert messages[..previous] + messages[previous..] == messages;
  }

  /**
   * So exactly the new visible messages are looked at if and only if none before them was hidden, or there are
   * none.
   */
  lemma CutIsNewIff(messages: seq<Message>, previous: nat)
    requires previous <= |messages|
    ensures Cut(messages, previous) == Visible(messages[previous..]) <==>
            |Visible(messages[..previous])| == previous || Visible(messages[previous..]) == []
  {
    CutDropsByHiddenCount(messages, previous);
    var added := Visible(messages[previous..]);
    assert added[0..] == added;
  }

  /**
   * With a hidden message before them, new messages are dropped: a delivered report hides the file written after it.
   */
  lemma HiddenReportDropsAWrite()
    ensures var report, write := Message("human", "", true), Message("tool", "write_file", false);
            && Visible([report, write][1..]) == [write] && Writes(write)
            && Cut([report, write], 1) == []
  {
    var report, write := Message("human", "", true), Message("tool", "write_file", false);
    VisibleOne(report);
    VisibleOne(write);
    VisibleOfSum([report], [write]);
    assert [report] + [write] == [report, write] && [report, write][1..] == [write];
  }

  lemma VisibleOne(m: Message)
    ensures Visible([m]) == if m.hidden then [] else [m]
  {
    assert [m][..0] == [];
  }

  // ---- From a finished tool to its report ----

  /** A values event: the whole message list, how many of it were seen before, and when. */
  datatype Update = Update(messages: seq<Message>, previous: nat, now: real)

  /** The note it leads to, if the messages looked at include a writing tool's. */
  function EventsFor(u: Update): seq<Event> {
    if exists k :: 0 <= k < |Cut(u.messages, u.previous)| && Writes(Cut(u.messages, u.previous)[k]) then [Note(u.now)]
    else []
  }

  /** In any history the update is part of, after the next flush it is covered by a report. */
  ghost predicate AlwaysCovered(u: Update) {
    forall before: seq<Event>, after: seq<Event>, flush: Event ::
      flush.Flush? && InClock(before + EventsFor(u) + after + [flush])
      && (forall k :: 0 <= k < |before| ==> before[k].now <= u.now) && u.now <= flush.now ==>
        Covered(u.now, Sent(NoReport, before + EventsFor(u) + after + [flush]))
  }

  /** Readings of a clock that never reads zero and does not run backwards. */
  ghost predicate InClock(events: seq<Event>) {
    && (forall i :: 0 <= i < |events| ==> events[i].now > 0.0)
    && (forall i, j :: 0 <= i < j < |events| ==> events[i].now <= events[j].now)
  }

  /**
   * Main result: a finished writing tool is always covered after the flush exactly when one of the new visible messages
   * past as many as there were hidden ones before them is a writing tool's.
   */
  lemma WriteIsCoveredIff(u: Update)
    requires u.previous <= |u.messages| && u.now > 0.0
    ensures |Visible(u.messages[..u.previous])| <= u.previous
    ensures var added := Visible(u.messages[u.previous..]);
            var hidden := u.previous - |Visible(u.messages[..u.previous])|;
            AlwaysCovered(u) <==> exists k :: hidden <= k < |added| && Writes(added[k])
  {
    CutDropsByHiddenCount(u.messages, u.previous);
    var added := Visible(u.messages[u.previous..]);
    var hidden := u.previous - |Visible(u.messages[..u.previous])|;
    var cut := Cut(u.messages, u.previous);
    assert forall k :: hidden <= k < |added| ==> cut[k - hidden] == added[k];
    assert forall k :: 0 <= k < |cut| ==> cut[k] == added[k + hidden];
    if k :| hidden <= k < |added| && Writes(added[k]) {
      assert Writes(cut[k - hidden]);
      NotedUpdateIsCovered(u);
    } else {
      UnnotedUpdateIsNot(u);
    }
  }

  lemma NotedUpdateIsCovered(u: Update)
    requires EventsFor(u) == [Note(u.now)] && u.now > 0.0
    ensures AlwaysCovered(u)
  {
    forall before: seq<Event>, after: seq<Event>, flush: Event |
      flush.Flush? && InClock(before + EventsFor(u) + after + [flush])
      && (forall k :: 0 <= k < |before| ==> before[k].now <= u.now) && u.now <= flush.now
      ensures Covered(u.now, Sent(NoReport, before + EventsFor(u) + after + [flush]))
    {
      var events := before + EventsFor(u) + after + [flush];
      assert events[|before|] == Note(u.now) && events[|events| - 1] == flush;
      FlushCoversEveryWrite(events, events[0].now, flush.now, |before|);
    }
  }

  lemma UnnotedUpdateIsNot(u: Update)
    requires EventsFor(u) == [] && u.now > 0.0
    ensures !AlwaysCovered(u)
  {
    var flush := Flush(u.now);
    var events := [] + EventsFor(u) + [] + [flush];
    assert events == [flush] && events[..0] == [];
    assert Sent(NoReport, events) == [];
  }

  // ---- The module's state ----

  class Throttle {
    var state: map<string, Slot>
    /** The posts made: to which session's route, and when. */
    var posts: seq<(string, real)>

    constructor ()
      ensures state == map[] && posts == []
    {
      state, posts := map[], [];
    }

    method NoteToolFinished(sessionId: string, toolName: string, now: real)
      modifies this
      ensures toolName !in {"write_file", "edit_file", "execute", "run_tool", "eval"} ==>
                state == old(state) && posts == old(posts)
      ensures toolName in {"write_file", "edit_file", "execute", "run_tool", "eval"} ==>
                var before := SlotOf(old(state), sessionId);
                && state == NextAll(old(state), Call(sessionId, Note(now)))
                && posts == old(posts) + if Reports(before, Note(now)) then [(sessionId, now)] else []
    {
      if toolName !in WORKSPACE_WRITING_TOOLS {
        return;
      }
      var slot := if sessionId in state then state[sessionId] else Slot(0.0, false);
      if slot.last != 0.0 && now - slot.last < MIN_INTERVAL_SECONDS {
        state := state[sessionId := Slot(slot.last, true)];
        return;
      }
      state := state[sessionId := Slot(now, false)];
      posts := posts + [(sessionId, now)];
    }

    /** At most one note for a whole list of messages, whichever of them writes. */
    method NoteNewMessages(sessionId: string, messages: seq<Message>, now: real)
      modifies this
      ensures if exists k :: 0 <= k < |messages| && Writes(messages[k])
              then state == NextAll(old(state), Call(sessionId, Note(now)))
                   && posts ==
                      old(posts) + if Reports(SlotOf(old(state), sessionId), Note(now)) then [(sessionId, now)] else []
              else state == old(state) && posts == old(posts)
    {
      for i := 0 to |messages|
        invariant forall k :: 0 <= k < i ==> !Writes(messages[k])
        invariant state == old(state) && posts == old(posts)
      {
        if messages[i].kind == "tool" && messages[i].name in WORKSPACE_WRITING_TOOLS {
          assert Writes(messages[i]);
          NoteToolFinished(sessionId, messages[i].name, now);
          return;
        }
      }
    }

    method FlushWorkspaceChange(sessionId: string, now: real)
      modifies this
      ensures SlotOf(state, sessionId) == Next(SlotOf(old(state), sessionId), Flush(now))
      ensures forall other :: other != sessionId ==> SlotOf(state, other) == SlotOf(old(state), other)
      ensures posts ==
              old(posts) + if Reports(SlotOf(old(state), sessionId), Flush(now)) then [(sessionId, now)] else []
    {
      var slot := if sessionId in state then state[sessionId] else Slot(0.0, false);
      if !slot.pending {
        return;
      }
      state := state[sessionId := Slot(now, false)];
      posts := posts + [(sessionId, now)];
    }
  }
}
