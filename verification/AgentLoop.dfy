/**
 * The two hooks that send an agent back to its model (core/middleware/invalid_tool_calls.py,
 * core/middleware/todos.py), inside the agent's loop: notices, a model call, the hooks, the tools.
 */
module AgentLoop {
  import opened Wrappers
  import opened Sequences

  const MAX_RETRIES := 2

  // ---- Messages ----

  /** What a message in the user position is: a run's input or task, or one of the harness's own notices. */
  datatype HumanKind = Input | JobOutcome | ComputerReport | TodoReminder

  /** An AI message holds the ids of its valid tool calls and of its invalid ones; an id may be missing, written "". */
  datatype Message =
    | Human(kind: HumanKind)
    | AI(calls: seq<string>, invalid: seq<string>)
    | ToolResult(callId: string)

  datatype Status = Pending | InProgress | Completed

  // ---- Invalid tool calls ----

  predicate OnlyInvalid(m: Message) {
    m.AI? && m.invalid != [] && m.calls == []
  }

  /** How many responses of nothing but invalid calls end the transcript; tool results in between do not count. */
  function Streak(messages: seq<Message>): nat {
    if messages == [] then 0
    else
      var init, last := messages[..|messages| - 1], messages[|messages| - 1];
      if last.ToolResult? then Streak(init)
      else if OnlyInvalid(last) then 1 + Streak(init)
      else 0
  }

  /** An error result for each invalid call that has an id. */
  function Replies(invalid: seq<string>): seq<Message> {
    if invalid == [] then []
    else
      var before, last := Replies(invalid[..|invalid| - 1]), invalid[|invalid| - 1];
      if last != "" then before + [ToolResult(last)] else before
  }

  /** What the hook appends before it jumps back to the model, None when it lets the loop go on. */
  function RetryReplies(messages: seq<Message>): Option<seq<Message>> {
    if messages == [] || !OnlyInvalid(messages[|messages| - 1]) || Streak(messages) > MAX_RETRIES then None
    else
      var replies := Replies(messages[|messages| - 1].invalid);
      if replies == [] then None else Some(replies)
  }

  /** The streak and the replies as the hook computes them, walking back from the newest message. */
  method AfterModelRetry(messages: seq<Message>) returns (replies: Option<seq<Message>>)
    ensures replies == RetryReplies(messages)
  {
    if messages == [] {
      return None;
    }
    var newest := messages[|messages| - 1];
    if !newest.AI? || newest.invalid == [] || newest.calls != [] {
      return None;
    }
    var streak := 0;
    var i := |messages|;
    assert messages[..i] == messages;
    while i > 0
      invariant 0 <= i <= |messages|
      invariant streak + Streak(messages[..i]) == Streak(messages)
    {
      assert messages[..i][..i - 1] == messages[..i - 1];
      i := i - 1;
      if messages[i].ToolResult? {
        continue;
      }
      if !messages[i].AI? || messages[i].invalid == [] || messages[i].calls != [] {
        assert Streak(messages[..i + 1]) == 0;
        break;
      }
      streak := streak + 1;
    }
    if streak > MAX_RETRIES {
      return None;
    }
    var invalid := newest.invalid;
    var made: seq<Message> := [];
    for k := 0 to |invalid|
      invariant made == Replies(invalid[..k])
    {
      assert invalid[..k + 1][..k] == invalid[..k];
      if invalid[k] != "" {
        made := made + [ToolResult(invalid[k])];
      }
    }
    assert invalid[..|invalid|] == invalid;
    return if made == [] then None else Some(made);
  }

  // ---- Open todo items ----

  /** Whether the reminder was given since the run's input; a job outcome is passed over, a computer report is not. */
  function RemindedThisRun(messages: seq<Message>): bool {
    if messages == [] then false
    else
      var last := messages[|messages| - 1];
      if last == Human(TodoReminder) then true
      else if last.Human? && last.kind != JobOutcome then false
      else RemindedThisRun(messages[..|messages| - 1])
  }

  predicate HasOpenItems(todos: seq<Status>) {
    exists k :: 0 <= k < |todos| && todos[k] != Completed
  }

  predicate Reminds(messages: seq<Message>, todos: seq<Status>) {
    && messages != []
    && var last := messages[|messages| - 1];
    && last.AI? && last.calls == [] && last.invalid == []
    && HasOpenItems(todos) && !RemindedThisRun(messages)
  }

  /** The todo hook as it runs: whether it reminds, looking back for the run's reminder or its input. */
  method AfterModelTodos(messages: seq<Message>, todos: seq<Status>) returns (reminds: bool)
    ensures reminds == Reminds(messages, todos)
  {
    if messages == [] {
      return false;
    }
    var last := messages[|messages| - 1];
    if !last.AI? || last.calls != [] || last.invalid != [] {
      return false;
    }
    var open := false;
    for i := 0 to |todos|
      invariant open <==> exists k :: 0 <= k < i && todos[k] != Completed
    {
      open := open || todos[i] != Completed;
    }
    if !open {
      return false;
    }
    var i := |messages|;
    assert messages[..i] == messages;
    while i > 0
      invariant 0 <= i <= |messages|
      invariant RemindedThisRun(messages) == RemindedThisRun(messages[..i])
    {
      assert messages[..i][..i - 1] == messages[..i - 1];
      i := i - 1;
      if messages[i] == Human(TodoReminder) {
        return false;
      }
      if messages[i].Human? && messages[i].kind != JobOutcome {
        return true;
      }
    }
    return true;
  }

  // ---- The loop ----

  /**
   * One round: the notices given before the model call, the response, and the todo list after the tools, should
   * they run.
   */
  datatype Round = Round(notices: seq<HumanKind>, calls: seq<string>, invalid: seq<string>, todos: seq<Status>)

  predicate AreNotices(kinds: seq<HumanKind>) {
    forall k :: 0 <= k < |kinds| ==> kinds[k] == JobOutcome || kinds[k] == ComputerReport
  }

  /**
   * The counts say what happened in the run so far: model calls, tool-calling responses, reminders, rounds with
   * notices, rounds with computer reports.
   */
  datatype Loop = Loop(
    messages: seq<Message>,
    todos: seq<Status>,
    running: bool,
    modelCalls: nat,
    toolCalling: nat,
    reminders: nat,
    noticed: nat,
    reported: nat)

  function Start(messages: seq<Message>, todos: seq<Status>): Loop {
    Loop(messages, todos, true, 0, 0, 0, 0, 0)
  }

  function AsHumans(kinds: seq<HumanKind>): seq<Message> {
    seq(|kinds|, k requires 0 <= k < |kinds| => Human(kinds[k]))
  }

  function AsResults(calls: seq<string>): seq<Message> {
    seq(|calls|, k requires 0 <= k < |calls| => ToolResult(calls[k]))
  }

  function BeforeModel(s: Loop, notices: seq<HumanKind>): Loop {
    if notices == [] then s
    else s.(messages := s.messages + AsHumans(notices), noticed := s.noticed + 1,
            reported := s.reported + if ComputerReport in notices then 1 else 0)
  }

  /** The response, then the hooks; then the tools when it calls any, else the end of the run. */
  function AfterModel(s: Loop, r: Round): Loop {
    var answered := s.(messages := s.messages + [AI(r.calls, r.invalid)], modelCalls := s.modelCalls + 1);
    var retry := RetryReplies(answered.messages);
    if retry.Some? then answered.(messages := answered.messages + retry.value)
    else if Reminds(answered.messages, s.todos) then
      answered.(messages := answered.messages + [Human(TodoReminder)], reminders := s.reminders + 1)
    else if r.calls != [] then
      answered.(messages := answered.messages + AsResults(r.calls), todos := r.todos, toolCalling := s.toolCalling + 1)
    else answered.(running := false)
  }

  /** At most one of the two hooks jumps back, so the order in which they look at a response makes no difference. */
  lemma HooksAreExclusive(messages: seq<Message>, todos: seq<Status>)
    ensures !(RetryReplies(messages).Some? && Reminds(messages, todos))
  {
  }

  function Next(s: Loop, r: Round): Loop {
    if s.running then AfterModel(BeforeModel(s, r.notices), r) else s
  }

  function Run(s: Loop, rounds: seq<Round>): Loop {
    if rounds == [] then s else Next(Run(s, rounds[..|rounds| - 1]), rounds[|rounds| - 1])
  }

  predicate NoticesOnly(rounds: seq<Round>) {
    forall k :: 0 <= k < |rounds| ==> AreNotices(rounds[k].notices)
  }

  // ---- What appended messages do to the two scans ----

  lemma {:induction false} ResultsAreSkipped(messages: seq<Message>, results: seq<Message>)
    requires forall k :: 0 <= k < |results| ==> results[k].ToolResult?
    ensures Streak(messages + results) == Streak(messages)
    ensures RemindedThisRun(messages + results) == RemindedThisRun(messages)
    decreases |results|
  {
    if results == [] {
      assert messages + results == messages;
    } else {
      var init := results[..|results| - 1];
      ResultsAreSkipped(messages, init);
      assert (messages + results)[..|messages + results| - 1] == messages + init;
    }
  }

  lemma ScansAfterOne(messages: seq<Message>, m: Message)
    ensures Streak(messages + [m]) ==
            if m.ToolResult? then Streak(messages)
            else if m.AI? && m.calls == [] && m.invalid != [] then 1 + Streak(messages)
            else 0
    ensures RemindedThisRun(messages + [m]) ==
            (m == Human(TodoReminder) || ((m.Human? ==> m.kind == JobOutcome) && RemindedThisRun(messages)))
  {
    assert (messages + [m])[..|messages + [m]| - 1] == messages;
  }

  lemma {:induction false} ScansAfterNotices(messages: seq<Message>, kinds: seq<HumanKind>)
    requires AreNotices(kinds)
    ensures Streak(messages + AsHumans(kinds)) == if kinds == [] then Streak(messages) else 0
    ensures ComputerReport !in kinds ==> RemindedThisRun(messages + AsHumans(kinds)) == RemindedThisRun(messages)
    decreases |kinds|
  {
    if kinds == [] {
      assert messages + AsHumans(kinds) == messages;
    } else {
      var init, last := kinds[..|kinds| - 1], kinds[|kinds| - 1];
      ScansAfterNotices(messages, init);
      assert messages + AsHumans(kinds) == (messages + AsHumans(init)) + [Human(last)];
      ScansAfterOne(messages + AsHumans(init), Human(last));
    }
  }

  /** The last `n` messages that are no results are all responses of nothing but invalid calls. */
  ghost predicate EndsInvalid(messages: seq<Message>, n: nat) {
    if n == 0 then true
    else if messages == [] then false
    else
      var init, last := messages[..|messages| - 1], messages[|messages| - 1];
      if last.ToolResult? then EndsInvalid(init, n)
      else last.AI? && last.calls == [] && last.invalid != [] && EndsInvalid(init, n - 1)
  }

  lemma {:induction false} StreakIff(messages: seq<Message>, n: nat)
    ensures EndsInvalid(messages, n) <==> Streak(messages) >= n
    decreases |messages|, n
  {
    if messages != [] && n > 0 {
      var init, last := messages[..|messages| - 1], messages[|messages| - 1];
      assert messages == init + [last];
      ScansAfterOne(init, last);
      StreakIff(init, n);
      StreakIff(init, n - 1);
    }
  }

  /**
   * The retry hook jumps back exactly when the newest message is a response of nothing but invalid calls, one of them
   * has an id, and it is not the third such response in a row.
   */
  lemma RetryIff(before: seq<Message>, newest: Message)
    ensures RetryReplies(before + [newest]).Some? <==>
            && newest.AI? && newest.calls == [] && (exists id :: id in newest.invalid && id != "")
            && !EndsInvalid(before + [newest], 3)
    ensures RetryReplies([]).None?
  {
    StreakIff(before + [newest], 3);
    if newest.AI? {
      RepliesAreResults(newest.invalid);
      if Replies(newest.invalid) != [] {
        var r := Replies(newest.invalid)[0];
        assert r == ToolResult(r.callId) && r in Replies(newest.invalid);
      }
    }
  }

  lemma {:induction false} RepliesAreResults(invalid: seq<string>)
    ensures forall k :: 0 <= k < |Replies(invalid)| ==>
              Replies(invalid)[k].ToolResult? && Replies(invalid)[k].callId != ""
    ensures forall id :: id != "" ==> (id in invalid <==> ToolResult(id) in Replies(invalid))
    decreases |invalid|
  {
    if invalid != [] {
      RepliesAreResults(invalid[..|invalid| - 1]);
      assert forall id :: id in invalid <==> id in invalid[..|invalid| - 1] || id == invalid[|invalid| - 1];
    }
  }

  // ---- The bound ----

  /**
   * The calls made are paid for: three by each tool-calling response and reminder, two by each round with notices,
   * and the rest by the current streak.
   */
  predicate Paid(s: Loop) {
    && s.reminders <= s.reported + (if RemindedThisRun(s.messages) then 1 else 0)
    && s.modelCalls <= (MAX_RETRIES + 1) * (s.toolCalling + s.reminders) + MAX_RETRIES * s.noticed
                       + if s.running then Min(Streak(s.messages), MAX_RETRIES) else MAX_RETRIES + 1
  }

  lemma NoticesArePaid(s: Loop, notices: seq<HumanKind>)
    requires s.running && Paid(s) && AreNotices(notices)
    ensures Paid(BeforeModel(s, notices))
  {
    ScansAfterNotices(s.messages, notices);
  }

  lemma ResponseIsPaid(s: Loop, r: Round)
    requires s.running && Paid(s)
    ensures Paid(AfterModel(s, r))
  {
    var answered := s.messages + [AI(r.calls, r.invalid)];
    ScansAfterOne(s.messages, AI(r.calls, r.invalid));
    var retry := RetryReplies(answered);
    HooksAreExclusive(answered, s.todos);
    if retry.Some? {
      RepliesAreResults(r.invalid);
      ResultsAreSkipped(answered, retry.value);
    } else if Reminds(answered, s.todos) {
      ScansAfterOne(answered, Human(TodoReminder));
    } else if r.calls != [] {
      ResultsAreSkipped(answered, AsResults(r.calls));
    }
  }

  lemma {:induction false} RunIsPaid(s: Loop, rounds: seq<Round>)
    requires Paid(s) && NoticesOnly(rounds)
    ensures Paid(Run(s, rounds))
    decreases |rounds|
  {
    if rounds != [] {
      var init, r := rounds[..|rounds| - 1], rounds[|rounds| - 1];
      RunIsPaid(s, init);
      var before := Run(s, init);
      if before.running {
        NoticesArePaid(before, r.notices);
        ResponseIsPaid(BeforeModel(before, r.notices), r);
      }
    }
  }

  /**
   * Main result: from any transcript and for any responses, the model calls are bounded by the tool-calling responses
   * and the notices, and the reminders by the computer reports.
   */
  lemma LoopIsBounded(messages: seq<Message>, todos: seq<Status>, rounds: seq<Round>)
    requires NoticesOnly(rounds)
    ensures var end := Run(Start(messages, todos), rounds);
            && end.reminders <= 1 + end.reported
            && end.modelCalls <= (MAX_RETRIES + 1) * (end.toolCalling + end.reported + 2) + MAX_RETRIES * end.noticed
  {
    RunIsPaid(Start(messages, todos), rounds);
  }

  lemma {:induction false} NothingNoticed(s: Loop, rounds: seq<Round>)
    requires forall k :: 0 <= k < |rounds| ==> rounds[k].notices == []
    ensures Run(s, rounds).noticed == s.noticed && Run(s, rounds).reported == s.reported
    decreases |rounds|
  {
    if rounds != [] { NothingNoticed(s, rounds[..|rounds| - 1]); }
  }

  /** With no notices: at most (T + 2)(MAX_RETRIES + 1) model calls and one reminder, T the tool-calling responses. */
  lemma {:induction false} LoopWithoutNotices(messages: seq<Message>, todos: seq<Status>, rounds: seq<Round>)
    requires forall k :: 0 <= k < |rounds| ==> rounds[k].notices == []
    ensures var end := Run(Start(messages, todos), rounds);
            end.reminders <= 1 && end.modelCalls <= (end.toolCalling + 2) * (MAX_RETRIES + 1)
  {
    LoopIsBounded(messages, todos, rounds);
    NothingNoticed(Start(messages, todos), rounds);
  }

  /** A round is a model call as long as the loop runs. */
  lemma {:induction false} EveryRoundIsACall(s: Loop, rounds: seq<Round>)
    requires Run(s, rounds).running
    ensures Run(s, rounds).modelCalls == s.modelCalls + |rounds|
    decreases |rounds|
  {
    if rounds != [] { EveryRoundIsACall(s, rounds[..|rounds| - 1]); }
  }

  /**
   * What a round adds to the transcript and to the counts: its notices, the response, and then error results and
   * another call, a reminder and another call, a result for each tool call, or nothing and the end.
   */
  lemma RoundAdds(s: Loop, r: Round)
    requires s.running
    ensures var after := Next(s, r);
            var heard := s.messages + AsHumans(r.notices) + [AI(r.calls, r.invalid)];
            && |heard| == |s.messages| + |r.notices| + 1 && after.modelCalls == s.modelCalls + 1
            && (forall k :: 0 <= k < |r.notices| ==> heard[|s.messages| + k] == Human(r.notices[k]))
            && after.noticed == s.noticed + (if r.notices == [] then 0 else 1)
            && after.reported == s.reported + (if ComputerReport in r.notices then 1 else 0)
            && (if RetryReplies(heard).Some? then
                  && after.running && after.todos == s.todos && after.messages == heard + Replies(r.invalid)
                  && after.reminders == s.reminders && after.toolCalling == s.toolCalling
                else if r.calls == [] && r.invalid == [] && HasOpenItems(s.todos) && !RemindedThisRun(heard) then
                  && after.running && after.todos == s.todos && after.messages == heard + [Human(TodoReminder)]
                  && after.reminders == s.reminders + 1 && after.toolCalling == s.toolCalling
                else if r.calls != [] then
                  && after.running && after.todos == r.todos && |after.messages| == |heard| + |r.calls|
                  && (forall k :: 0 <= k < |r.calls| ==> after.messages[|heard| + k] == ToolResult(r.calls[k]))
                  && after.messages[..|heard|] == heard
                  && after.reminders == s.reminders && after.toolCalling == s.toolCalling + 1
                else
                  && !after.running && after.messages == heard
                  && after.reminders == s.reminders && after.toolCalling == s.toolCalling)
  {
    if r.notices == [] { assert s.messages + AsHumans(r.notices) == s.messages; }
  }

  // ---- Reports re-arm the reminder ----

  const FinalAnswer := Round([], [], [], [])

  const ReportedAnswer := Round([ComputerReport], [], [], [])

  function AnswersWithReports(n: nat): seq<Round> {
    if n == 0 then [FinalAnswer] else AnswersWithReports(n - 1) + [ReportedAnswer]
  }

  lemma AnswerAfterReport(s: Loop)
    requires s.running && HasOpenItems(s.todos)
    ensures var after := Next(s, ReportedAnswer);
            && after.running && after.todos == s.todos
            && after.reminders == s.reminders + 1 && after.reported == s.reported + 1
  {
    var told := s.messages + AsHumans([ComputerReport]);
    assert told == s.messages + [Human(ComputerReport)];
    ScansAfterOne(s.messages, Human(ComputerReport));
    ScansAfterOne(told, AI([], []));
  }

  /**
   * The reminder bound is reached: a report before each further answer lets the agent be reminded again, n reports
   * n + 1 times.
   */
  lemma {:induction false} ReportsRearmTheReminder(todos: seq<Status>, n: nat)
    requires HasOpenItems(todos)
    ensures var end := Run(Start([Human(Input)], todos), AnswersWithReports(n));
            end.running && end.todos == todos && end.reminders == n + 1 && end.reported == n
  {
    var start := Start([Human(Input)], todos);
    var rounds := AnswersWithReports(n);
    if n == 0 {
      ScansAfterOne([], Human(Input));
      assert [] + [Human(Input)] == [Human(Input)];
      ScansAfterOne(start.messages, AI([], []));
      assert rounds[..0] == [] && Run(start, rounds) == Next(start, FinalAnswer);
    } else {
      ReportsRearmTheReminder(todos, n - 1);
      assert rounds[..|rounds| - 1] == AnswersWithReports(n - 1);
      AnswerAfterReport(Run(start, AnswersWithReports(n - 1)));
    }
  }

  /** Every run with that many rounds with reports has at most one reminder. */
  ghost predicate AtMostOneReminder(reports: nat) {
    forall messages, todos, rounds ::
      NoticesOnly(rounds) && Run(Start(messages, todos), rounds).reported == reports ==>
        Run(Start(messages, todos), rounds).reminders <= 1
  }

  lemma {:induction false} AnswersAreNotices(n: nat)
    ensures NoticesOnly(AnswersWithReports(n))
  {
    if n > 0 { AnswersAreNotices(n - 1); }
  }

  /** Main result: at most one reminder a run holds exactly for runs without computer reports. */
  lemma OneReminderIff(reports: nat)
    ensures AtMostOneReminder(reports) <==> reports == 0
  {
    if reports == 0 {
      forall messages, todos, rounds |
        NoticesOnly(rounds) && Run(Start(messages, todos), rounds).reported == reports
        ensures Run(Start(messages, todos), rounds).reminders <= 1
      {
        LoopIsBounded(messages, todos, rounds);
      }
    } else {
      var todos: seq<Status> := [Pending];
      assert todos[0] != Completed;
      AnswersAreNotices(reports);
      ReportsRearmTheReminder(todos, reports);
    }
  }

  // ---- The bound on model calls is reached ----

  const InvalidCall := Round([], [], ["x"], [])

  function ToolCall(todos: seq<Status>): Round {
    Round([], ["c"], [], todos)
  }

  /** A run without notices leads from `start` to `s`. */
  ghost predicate Reaches(start: Loop, rounds: seq<Round>, s: Loop) {
    Run(start, rounds) == s && forall k :: 0 <= k < |rounds| ==> rounds[k].notices == []
  }

  lemma OneMore(start: Loop, rounds: seq<Round>, s: Loop, r: Round) returns (longer: seq<Round>)
    requires Reaches(start, rounds, s) && r.notices == []
    ensures Reaches(start, longer, Next(s, r))
  {
    longer := rounds + [r];
    assert longer[..|rounds|] == rounds;
  }

  lemma InvalidCallIsRetried(s: Loop)
    requires s.running
    ensures var after := Next(s, InvalidCall);
            if Streak(s.messages) < MAX_RETRIES then
              && after.running && after.modelCalls == s.modelCalls + 1
              && Streak(after.messages) == Streak(s.messages) + 1
              && RemindedThisRun(after.messages) == RemindedThisRun(s.messages)
              && after.(messages := s.messages, modelCalls := s.modelCalls) == s
            else
              after == s.(messages := after.messages, running := false, modelCalls := s.modelCalls + 1)
  {
    var answered := s.messages + [AI([], ["x"])];
    ScansAfterOne(s.messages, AI([], ["x"]));
    assert ["x"][..0] == [];
    assert Replies(["x"]) == [ToolResult("x")];
    ResultsAreSkipped(answered, [ToolResult("x")]);
  }

  lemma ToolCallRuns(s: Loop)
    requires s.running
    ensures var after := Next(s, ToolCall(s.todos));
            && after.running && after.modelCalls == s.modelCalls + 1 && after.toolCalling == s.toolCalling + 1
            && Streak(after.messages) == 0 && RemindedThisRun(after.messages) == RemindedThisRun(s.messages)
            && after.todos == s.todos && after.reminders == s.reminders
  {
    var answered := s.messages + [AI(["c"], [])];
    ScansAfterOne(s.messages, AI(["c"], []));
    ResultsAreSkipped(answered, AsResults(["c"]));
  }

  lemma FinalAnswerIsReminded(s: Loop)
    requires s.running && HasOpenItems(s.todos) && !RemindedThisRun(s.messages)
    ensures var after := Next(s, FinalAnswer);
            && after.running && after.modelCalls == s.modelCalls + 1 && after.reminders == s.reminders + 1
            && Streak(after.messages) == 0 && after.toolCalling == s.toolCalling
  {
    ScansAfterOne(s.messages, AI([], []));
    ScansAfterOne(s.messages + [AI([], [])], Human(TodoReminder));
  }

  /** Two invalid responses before any other one. */
  lemma TwoRetries(start: Loop, rounds: seq<Round>, s: Loop) returns (longer: seq<Round>, end: Loop)
    requires Reaches(start, rounds, s) && s.running && Streak(s.messages) == 0
    ensures Reaches(start, longer, end) && Streak(end.messages) == 2 && end.modelCalls == s.modelCalls + 2
    ensures RemindedThisRun(end.messages) == RemindedThisRun(s.messages)
    ensures end.(messages := s.messages, modelCalls := s.modelCalls) == s
  {
    var once := Next(s, InvalidCall);
    longer := OneMore(start, rounds, s, InvalidCall);
    InvalidCallIsRetried(s);
    longer := OneMore(start, longer, once, InvalidCall);
    InvalidCallIsRetried(once);
    end := Next(once, InvalidCall);
  }

  lemma Begin(todos: seq<Status>) returns (rounds: seq<Round>, s: Loop)
    ensures Reaches(Start([Human(Input)], todos), rounds, s)
    ensures s.running && s.toolCalling == s.modelCalls == s.reminders == 0 && s.todos == todos
    ensures Streak(s.messages) == 0 && !RemindedThisRun(s.messages)
  {
    rounds, s := [], Start([Human(Input)], todos);
    ScansAfterOne([], Human(Input));
    assert [] + [Human(Input)] == [Human(Input)];
  }

  lemma {:induction false} ToolCallsAfterRetries(todos: seq<Status>, calls: nat) returns (rounds: seq<Round>, s: Loop)
    ensures Reaches(Start([Human(Input)], todos), rounds, s)
    ensures s.running && s.toolCalling == calls && s.modelCalls == 3 * calls && s.reminders == 0 && s.todos == todos
    ensures Streak(s.messages) == 0 && !RemindedThisRun(s.messages)
  {
    if calls == 0 {
      rounds, s := Begin(todos);
    } else {
      rounds, s := ToolCallsAfterRetries(todos, calls - 1);
      rounds, s := TwoRetries(Start([Human(Input)], todos), rounds, s);
      rounds := OneMore(Start([Human(Input)], todos), rounds, s, ToolCall(todos));
      ToolCallRuns(s);
      s := Next(s, ToolCall(todos));
    }
  }

  /** A reminded answer and three invalid responses after the retries: the run ends. */
  lemma LastCalls(start: Loop, before: seq<Round>, s: Loop) returns (rounds: seq<Round>, end: Loop)
    requires Reaches(start, before, s) && s.running && Streak(s.messages) == 2
    requires HasOpenItems(s.todos) && !RemindedThisRun(s.messages)
    ensures Reaches(start, rounds, end) && !end.running
    ensures end.toolCalling == s.toolCalling && end.reminders == s.reminders + 1 && end.modelCalls == s.modelCalls + 4
  {
    rounds := OneMore(start, before, s, FinalAnswer);
    FinalAnswerIsReminded(s);
    end := Next(s, FinalAnswer);
    rounds, end := TwoRetries(start, rounds, end);
    rounds := OneMore(start, rounds, end, InvalidCall);
    InvalidCallIsRetried(end);
    end := Next(end, InvalidCall);
  }

  /**
   * With no notices the bound cannot be lowered: for every T a run with T tool-calling responses makes exactly (T
   * + 2)(MAX_RETRIES + 1) model calls.
   */
  lemma BoundIsReached(todos: seq<Status>, calls: nat) returns (rounds: seq<Round>, end: Loop)
    requires HasOpenItems(todos)
    ensures Reaches(Start([Human(Input)], todos), rounds, end)
    ensures !end.running && end.toolCalling == calls && end.reminders == 1
    ensures end.modelCalls == (calls + 2) * (MAX_RETRIES + 1)
  {
    rounds, end := ToolCallsAfterRetries(todos, calls);
    rounds, end := TwoRetries(Start([Human(Input)], todos), rounds, end);
    rounds, end := LastCalls(Start([Human(Input)], todos), rounds, end);
  }
}
