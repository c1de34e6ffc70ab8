/**
 * A run through an open question (api/routers/sessions.py, core/execution/executor.py): while a user turn's question is
 * open no wake runs, and once a turn has answered it the next one does.
 */
module AskedQuestions {
  import opened Wrappers
  import opened Sessions
  import opened WakeChain

  // ---- The steps ----

  ghost predicate Quiet(s: State) {
    AtRest(s) && s.current.None? && s.holder.None?
  }

  lemma TurnComes(s: State)
    requires Quiet(s)
    ensures var after := Next(s, Message);
            && |after.tasks| == |s.tasks| + 1 && OnlyLive(after, |s.tasks|, Task(Turn, Created, false))
            && after.question == s.question && after.arrived == s.arrived && after.delivered == s.delivered
  {
  }

  lemma TurnStarts(s: State, i: nat)
    requires OnlyLive(s, i, Task(Turn, Created, false))
    ensures Enabled(s, Start(i)) && OnlyLive(Next(s, Start(i)), i, Task(Turn, Waiting, false))
    ensures SameItems(s, Next(s, Start(i)))
  {
  }

  lemma TurnLocks(s: State, i: nat)
    requires OnlyLive(s, i, Task(Turn, Waiting, false))
    ensures Enabled(s, Acquire(i)) && OnlyLive(Next(s, Acquire(i)), i, Task(Turn, Running(false), false))
    ensures SameItems(s, Next(s, Acquire(i)))
  {
  }

  lemma TurnCallsModel(s: State, i: nat)
    requires OnlyLive(s, i, Task(Turn, Running(false), false))
    ensures var after := Next(s, Commit(i));
            && Enabled(s, Commit(i)) && OnlyLive(after, i, Task(Turn, Running(true), false))
            && |after.tasks| == |s.tasks| && after.question == s.question
            && after.arrived == s.arrived && after.delivered == s.arrived
  {
  }

  lemma ReportArrives(s: State, i: nat, t: Task, item: Item)
    requires OnlyLive(s, i, t)
    ensures var after := Next(s, Arrive(item));
            && OnlyLive(after, i, t) && |after.tasks| == |s.tasks| && after.question == s.question
            && after.arrived == s.arrived + {item} && after.delivered == s.delivered
  {
  }

  lemma TurnReturns(s: State, i: nat, asked: Option<nat>)
    requires OnlyLive(s, i, Task(Turn, Running(true), false))
    ensures var after := Next(s, Stop(i, asked, false));
            && Enabled(s, Stop(i, asked, false)) && OnlyLive(after, i, Task(Turn, Stopped(true), false))
            && |after.tasks| == |s.tasks| && after.question == asked
            && after.arrived == s.arrived && after.delivered == s.delivered
  {
  }

  lemma TurnEnds(s: State, i: nat)
    requires OnlyLive(s, i, Task(Turn, Stopped(true), false)) && |s.tasks| == i + 1
    ensures var after := Next(s, Exit(i));
            && Enabled(s, Exit(i)) && |after.tasks| == i + 2 && OnlyLive(after, i + 1, Task(Wake, Created, false))
            && after.question == s.question && after.arrived == s.arrived && after.delivered == s.delivered
  {
  }

  lemma WakeGivesUp(s: State, i: nat)
    requires OnlyLive(s, i, Task(Wake, Decided(false), false))
    ensures var after := Next(s, Exit(i));
            && Enabled(s, Exit(i)) && Quiet(after) && |after.tasks| == |s.tasks| && after.lastCheck == s.lastCheck
            && after.question == s.question && after.arrived == s.arrived && after.delivered == s.delivered
  {
  }

  // ---- Turns ----

  /** A user turn, alone on a session at rest, runs past its first model call. */
  lemma TurnRuns(p: Path, s: State) returns (longer: Path, end: State)
    requires LeadsTo(p, s) && Quiet(s)
    ensures LeadsTo(longer, end) && |end.tasks| == |s.tasks| + 1
    ensures OnlyLive(end, |s.tasks|, Task(Turn, Running(true), false))
    ensures end.question == s.question && end.arrived == end.delivered == s.arrived
  {
    var i := |s.tasks|;
    TurnComes(s);
    longer, end := Extend(p, s, Message);
    TurnStarts(end, i);
    longer, end := Extend(longer, end, Start(i));
    TurnLocks(end, i);
    longer, end := Extend(longer, end, Acquire(i));
    TurnCallsModel(end, i);
    longer, end := Extend(longer, end, Commit(i));
  }

  /** A report arrives, its run ends with the question `asked` or none, and its end schedules a wake, which checks. */
  lemma TurnEndsWith(p: Path, s: State, i: nat, asked: Option<nat>, item: Item) returns (longer: Path, end: State)
    requires LeadsTo(p, s) && |s.tasks| == i + 1 && OnlyLive(s, i, Task(Turn, Running(true), false))
    requires s.arrived == s.delivered && item !in s.arrived
    ensures LeadsTo(longer, end) && |end.tasks| == i + 2
    ensures OnlyLive(end, i + 1, Task(Wake, Decided(asked.None?), false))
    ensures end.lastCheck.Some? && end.lastCheck.value.made && end.lastCheck.value.answer == asked.None?
    ensures end.question == asked && end.arrived == s.arrived + {item} && end.delivered == s.delivered
  {
    ReportArrives(s, i, Task(Turn, Running(true), false), item);
    longer, end := Extend(p, s, Arrive(item));
    TurnReturns(end, i, asked);
    longer, end := Extend(longer, end, Stop(i, asked, false));
    TurnEnds(end, i);
    longer, end := Extend(longer, end, Exit(i));
    assert item in Undelivered(end);
    longer, end := WakeChecks(longer, end, i + 1);
  }

  // ---- Main results ----

  lemma AskAndRest(p: Path, s: State, asked: nat, item: Item) returns (longer: Path, end: State)
    requires LeadsTo(p, s) && Quiet(s) && item !in s.arrived
    ensures LeadsTo(longer, end) && |end.tasks| == |s.tasks| + 2 && Quiet(end) && end.question == Some(asked)
    ensures end.arrived == s.arrived + {item} && end.delivered == s.arrived
    ensures end.lastCheck.Some? && end.lastCheck.value.made && !end.lastCheck.value.answer
  {
    longer, end := TurnRuns(p, s);
    longer, end := TurnEndsWith(longer, end, |s.tasks|, Some(asked), item);
    WakeGivesUp(end, |s.tasks| + 1);
    longer, end := Extend(longer, end, Exit(|s.tasks| + 1));
  }

  /** A turn asks and a report arrives: the next wake's check answers no, and the session rests with it undelivered. */
  lemma QuestionHoldsWakeBack(asked: nat, item: Item) returns (p: Path, s: State)
    ensures LeadsTo(p, s) && |s.tasks| == 2 && Quiet(s) && s.question == Some(asked)
    ensures s.arrived == {item} && s.delivered == {}
    ensures s.lastCheck.Some? && s.lastCheck.value.made && !s.lastCheck.value.answer
  {
    p, s := Begin();
    p, s := AskAndRest(p, s, asked, item);
    assert {} + {item} == {item};
  }

  /** Then a turn answers and another report arrives: the next wake's check answers yes, and it may run. */
  lemma AnswerLetsWakeRun(asked: nat, item: Item, later: Item) returns (p: Path, s: State)
    requires later != item
    ensures LeadsTo(p, s) && |s.tasks| == 4 && OnlyLive(s, 3, Task(Wake, Decided(true), false))
    ensures s.question.None? && s.delivered == {item} && s.arrived == {item, later}
  {
    p, s := QuestionHoldsWakeBack(asked, item);
    p, s := TurnRuns(p, s);
    p, s := TurnEndsWith(p, s, 2, None, later);
  }

  /** A check that cannot be made answers no, whatever has arrived. */
  lemma UnmadeCheckSaysNo(s: State, i: nat)
    requires OnlyLive(s, i, Task(Wake, Checking, false))
    ensures Enabled(s, DoCheck(i, false)) && OnlyLive(Next(s, DoCheck(i, false)), i, Task(Wake, Decided(false), false))
  {
  }

  // ---- A report in the middle of a run ----

  lemma TurnCallsModelAgain(s: State, i: nat)
    requires OnlyLive(s, i, Task(Turn, Running(true), false)) && Undelivered(s) != {}
    ensures var after := Next(s, Commit(i));
            && Enabled(s, Commit(i)) && OnlyLive(after, i, Task(Turn, Running(true), false))
            && after.arrived == s.arrived && after.delivered == s.arrived
  {
  }

  /** A report that arrives while a run is past its first model call is delivered by its next one. */
  lemma LateReportIsDelivered(item: Item) returns (p: Path, s: State)
    ensures LeadsTo(p, s) && |s.tasks| == 1 && OnlyLive(s, 0, Task(Turn, Running(true), false))
    ensures s.arrived == {item} && s.delivered == {item}
  {
    p, s := Begin();
    p, s := TurnRuns(p, s);
    ReportArrives(s, 0, Task(Turn, Running(true), false), item);
    p, s := Extend(p, s, Arrive(item));
    assert item in Undelivered(s);
    TurnCallsModelAgain(s, 0);
    p, s := Extend(p, s, Commit(0));
  }
}
