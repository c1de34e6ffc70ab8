/**
 * Turns, notices, wake-up runs and cancels on one `SessionState` (api/routers/sessions.py), with the
 * wake check of core/execution/executor.py.
 *
 * The tasks of the event loop interleave, so the protocol is a state machine: a label is one
 * uninterrupted stretch of one task, or one request, and a run is any sequence of enabled labels.
 * Tasks are kept in creation order. asyncio starts them in that order and its lock is first come,
 * first served, so a task takes the lock only when every earlier task has finished.
 */
module Sessions {
  import opened Wrappers

  // ---- State ----

  /** What the agent may have to be told: a computer report, or a job that finished. */
  datatype Item = Report(sequence: int) | FinishedJob(runId: string)

  datatype Kind = Turn | Wake

  datatype Pc =
    | Created
    | Waiting
    | Checking
    | Decided(yes: bool)
    | Running(committed: bool)
    | Stopped(clean: bool)
    | Done

  datatype Task = Task(kind: Kind, pc: Pc, cancelling: bool)

  /**
   * The latest wake check: when it was made, what it answered, and what it saw. `made` is false when it could not
   * be made.
   */
  datatype Check = Check(time: nat, made: bool, answer: bool, question: Option<nat>, arrived: set<Item>)

  /**
   * `current` is `state.task`, `holder` the task inside `turn_lock`, `question` the open question of the
   * graph's latest checkpoint. The last four fields record history for the properties below.
   */
  datatype State = State(
    tasks: seq<Task>,
    current: Option<nat>,
    holder: Option<nat>,
    question: Option<nat>,
    arrived: set<Item>,
    delivered: set<Item>,
    clock: nat,
    lastTurnEnd: Option<nat>,
    lastCheck: Option<Check>,
    wakeCommits: nat)

  function Init(question: Option<nat>): State {
    State([], None, None, question, {}, {}, 0, None, None, 0)
  }

  // ---- Steps ----

  datatype Label =
    // Requests and events from outside.
    | Message
    | Notice
    | Arrive(item: Item)
    | Cancel
    // Steps of task `i`.
    | Start(i: nat)
    | Acquire(i: nat)
    | DoCheck(i: nat, made: bool)
    | Proceed(i: nat)
    | Commit(i: nat)
    | Stop(i: nat, question: Option<nat>, raised: bool)
    | Exit(i: nat)
    | Interrupt(i: nat, question: Option<nat>)

  predicate IsExternal(l: Label) {
    l.Message? || l.Notice? || l.Arrive? || l.Cancel?
  }

  predicate Live(t: Task) {
    t.pc != Done
  }

  predicate CurrentIsLive(s: State) {
    s.current.Some? && s.current.value < |s.tasks| && Live(s.tasks[s.current.value])
  }

  predicate Enabled(s: State, l: Label) {
    IsExternal(l) ||
    (l.i < |s.tasks| &&
     var t := s.tasks[l.i];
     match l
     case Start(i) => t.pc == Created && !t.cancelling && forall j :: 0 <= j < i ==> s.tasks[j].pc != Created
     case Acquire(i) => t.pc == Waiting && s.holder.None? && forall j :: 0 <= j < i ==> s.tasks[j].pc == Done
     case DoCheck(_, _) => t.pc == Checking
     case Proceed(_) => t.pc == Decided(true)
     case Commit(_) => t.pc == Running(false) || (t.pc == Running(true) && !(s.arrived <= s.delivered))
     case Stop(_, _, _) => t.pc.Running?
     case Exit(_) => t.pc == Decided(false) || t.pc.Stopped?
     case Interrupt(_, _) => t.cancelling && Live(t)
     case _ => false)
  }

  function SetPc(s: State, i: nat, pc: Pc): State
    requires i < |s.tasks|
  {
    s.(tasks := s.tasks[i := s.tasks[i].(pc := pc)])
  }

  /** A new task becomes the session's current one. */
  function Spawn(s: State, kind: Kind): State {
    s.(tasks := s.tasks + [Task(kind, Created, false)], current := Some(|s.tasks|))
  }

  function ScheduleWake(s: State): State {
    if CurrentIsLive(s) then s else Spawn(s, Wake)
  }

  /** The end of a task: the lock is released, and the current task clears the slot and may schedule a wake. */
  function Finish(s: State, i: nat, wakeAgain: bool): State
    requires i < |s.tasks|
  {
    var ended := SetPc(s, i, Done).(
      holder := if s.holder == Some(i) then None else s.holder,
      lastTurnEnd := if s.tasks[i].kind == Turn then Some(s.clock) else s.lastTurnEnd);
    if s.current != Some(i) then ended
    else
      var cleared := ended.(current := None);
      if wakeAgain then ScheduleWake(cleared) else cleared
  }

  function Undelivered(s: State): set<Item> {
    s.arrived - s.delivered
  }

  function Effect(s: State, l: Label): State
    requires Enabled(s, l)
  {
    match l
    case Message => Spawn(s, Turn)
    case Notice => ScheduleWake(s)
    case Arrive(item) => s.(arrived := s.arrived + {item})
    case Cancel =>
      if CurrentIsLive(s)
      then s.(tasks := s.tasks[s.current.value := s.tasks[s.current.value].(cancelling := true)])
      else s
    case Start(i) => SetPc(s, i, Waiting)
    case Acquire(i) =>
      SetPc(s, i, if s.tasks[i].kind == Turn then Running(false) else Checking).(holder := Some(i))
    // False while a question is open, and false whenever the check cannot be made.
    case DoCheck(i, made) =>
      var answer := made && s.question.None? && Undelivered(s) != {};
      SetPc(s, i, Decided(answer)).(lastCheck := Some(Check(s.clock, made, answer, s.question, s.arrived)))
    case Proceed(i) => SetPc(s, i, Running(false))
    // A model call's before-model steps deliver whatever is undelivered; a run's first call may find nothing.
    case Commit(i) =>
      SetPc(s, i, Running(true)).(
        delivered := s.arrived,
        wakeCommits := s.wakeCommits + if s.tasks[i].kind == Wake && s.tasks[i].pc == Running(false) then 1 else 0)
    // A run may leave the graph with any question open, or none.
    case Stop(i, question, raised) => SetPc(s, i, Stopped(!raised)).(question := question)
    case Exit(i) =>
      Finish(s, i, s.tasks[i].kind == Turn || s.tasks[i].pc == Stopped(true))
    case Interrupt(i, question) =>
      if s.tasks[i].pc == Created then SetPc(s, i, Done)
      else
        Finish(s, i, s.tasks[i].kind == Turn).(question := if s.tasks[i].pc.Running? then question else s.question)
  }

  function Next(s: State, l: Label): State
    requires Enabled(s, l)
  {
    var after := Effect(s, l);
    after.(clock := after.clock + 1)
  }

  /** The state after a run, None when some label is not enabled. */
  function Run(start: State, labels: seq<Label>): Option<State> {
    if labels == [] then Some(start)
    else
      match Run(start, labels[..|labels| - 1])
      case None => None
      case Some(s) => if Enabled(s, labels[|labels| - 1]) then Some(Next(s, labels[|labels| - 1])) else None
  }

  // ---- What every step keeps ----

  predicate HoldsLock(pc: Pc) {
    pc.Checking? || pc.Decided? || pc.Running? || pc.Stopped?
  }

  ghost predicate TaskOk(s: State, i: nat)
    requires i < |s.tasks|
  {
    var t := s.tasks[i];
    && (HoldsLock(t.pc) <==> s.holder == Some(i))
    && (HoldsLock(t.pc) ==> forall j :: 0 <= j < i ==> s.tasks[j].pc == Done)
    && (t.pc.Checking? || t.pc.Decided? ==> t.kind == Wake)
    // Between the check and the end of the run no question is open, and until the first model call something is
    // undelivered.
    && (t.kind == Wake && (t.pc == Decided(true) || t.pc.Running?) ==> s.question.None?)
    && (t.kind == Wake && (t.pc == Decided(true) || t.pc == Running(false)) ==> Undelivered(s) != {})
  }

  ghost predicate Inv(s: State) {
    && (s.holder.Some? ==> s.holder.value < |s.tasks|)
    && (s.current.Some? ==> s.current.value < |s.tasks|)
    && (forall i: nat :: i < |s.tasks| ==> TaskOk(s, i))
    && s.delivered <= s.arrived
    && s.wakeCommits <= |s.delivered|
    && (s.lastCheck.Some? ==>
          var c := s.lastCheck.value;
          c.made && c.question.None? && !c.answer ==> c.arrived <= s.delivered)
  }

  lemma SpawnKeepsInv(s: State, kind: Kind)
    requires Inv(s)
    ensures Inv(Spawn(s, kind))
  {
    var after := Spawn(s, kind);
    forall i: nat | i < |after.tasks| ensures TaskOk(after, i) {
      if i < |s.tasks| { assert TaskOk(s, i); }
    }
  }

  lemma EndedKeepsInv(s: State, i: nat, question: Option<nat>)
    requires Inv(s) && i < |s.tasks|
    requires question == s.question || HoldsLock(s.tasks[i].pc)
    ensures Inv(Finish(s, i, false).(question := question))
  {
    var ended := Finish(s, i, false).(question := question);
    forall j: nat | j < |s.tasks| ensures TaskOk(ended, j) {
      assert TaskOk(s, j) && TaskOk(s, i);
    }
  }

  lemma FinishKeepsInv(s: State, i: nat, question: Option<nat>, wakeAgain: bool)
    requires Inv(s) && i < |s.tasks|
    requires question == s.question || HoldsLock(s.tasks[i].pc)
    ensures Inv(Finish(s, i, wakeAgain).(question := question))
  {
    EndedKeepsInv(s, i, question);
    if s.current == Some(i) && wakeAgain { SpawnKeepsInv(Finish(s, i, false).(question := question), Wake); }
  }

  lemma DeliveryGrows(s: State)
    requires s.delivered <= s.arrived
    ensures |s.delivered| <= |s.arrived|
    ensures Undelivered(s) != {} ==> |s.delivered| < |s.arrived|
  {
    assert s.delivered + Undelivered(s) == s.arrived;
    assert |s.arrived| == |s.delivered| + |Undelivered(s)|;
  }

  lemma TaskStepKeepsInv(s: State, l: Label)
    requires Inv(s) && Enabled(s, l) && !IsExternal(l) && !l.Exit? && !l.Interrupt?
    ensures Inv(Effect(s, l))
  {
    var after := Effect(s, l);
    assert TaskOk(s, l.i);
    forall j: nat | j < |s.tasks| ensures TaskOk(after, j) {
      assert TaskOk(s, j);
    }
    if l.Commit? { DeliveryGrows(s); }
    assert s.arrived <= s.delivered + Undelivered(s);
  }

  lemma ArrivalOrCancelKeepsInv(s: State, l: Label)
    requires Inv(s) && (l.Arrive? || l.Cancel?)
    ensures Inv(Effect(s, l))
  {
    var after := Effect(s, l);
    assert Undelivered(s) <= Undelivered(after);
    forall j: nat | j < |s.tasks| ensures TaskOk(after, j) {
      assert TaskOk(s, j);
    }
  }

  lemma EndingKeepsInv(s: State, l: Label)
    requires Inv(s) && Enabled(s, l) && (l.Exit? || l.Interrupt?)
    ensures Inv(Effect(s, l))
  {
    var t := s.tasks[l.i];
    assert TaskOk(s, l.i);
    if l.Exit? {
      FinishKeepsInv(s, l.i, s.question, t.kind == Turn || t.pc == Stopped(true));
    } else if t.pc == Created {
      var after := Effect(s, l);
      forall j: nat | j < |s.tasks| ensures TaskOk(after, j) {
        assert TaskOk(s, j);
      }
    } else {
      FinishKeepsInv(s, l.i, if t.pc.Running? then l.question else s.question, t.kind == Turn);
    }
  }

  lemma ClockKeepsInv(s: State, clock: nat)
    requires Inv(s)
    ensures Inv(s.(clock := clock))
  {
    var after := s.(clock := clock);
    forall j: nat | j < |after.tasks| ensures TaskOk(after, j) {
      assert TaskOk(s, j);
    }
  }

  /** Every enabled step keeps the invariant. */
  lemma StepKeepsInv(s: State, l: Label)
    requires Inv(s) && Enabled(s, l)
    ensures Inv(Next(s, l))
  {
    if l.Message? {
      SpawnKeepsInv(s, Turn);
    } else if l.Notice? {
      SpawnKeepsInv(s, Wake);
    } else if l.Arrive? || l.Cancel? {
      ArrivalOrCancelKeepsInv(s, l);
    } else if l.Exit? || l.Interrupt? {
      EndingKeepsInv(s, l);
    } else {
      TaskStepKeepsInv(s, l);
    }
    ClockKeepsInv(Effect(s, l), s.clock + 1);
  }

  lemma {:induction false} RunsKeepInv(start: State, labels: seq<Label>)
    requires Inv(start) && Run(start, labels).Some?
    ensures Inv(Run(start, labels).value)
    decreases |labels|
  {
    if labels != [] {
      RunsKeepInv(start, labels[..|labels| - 1]);
      StepKeepsInv(Run(start, labels[..|labels| - 1]).value, labels[|labels| - 1]);
    }
  }

  ghost predicate Reachable(s: State) {
    exists question, labels :: Run(Init(question), labels) == Some(s)
  }

  lemma ReachableIsInv(s: State)
    requires Reachable(s)
    ensures Inv(s)
  {
    var question, labels :| Run(Init(question), labels) == Some(s);
    RunsKeepInv(Init(question), labels);
  }

  // ---- One run at a time, and never over an open question ----

  /** In every interleaving at most one run is in progress. */
  lemma AtMostOneRun(s: State, i: nat, j: nat)
    requires Reachable(s) && i < |s.tasks| && j < |s.tasks|
    requires s.tasks[i].pc.Running? && s.tasks[j].pc.Running?
    ensures i == j
  {
    ReachableIsInv(s);
    assert TaskOk(s, i) && TaskOk(s, j);
  }

  /** A wake run starts only on a graph with no question open and with something its agent has not been told. */
  lemma WakeStartsOnIdleGraph(s: State, i: nat)
    requires Reachable(s) && Enabled(s, Proceed(i))
    ensures s.question.None? && Undelivered(s) != {}
    ensures forall j :: 0 <= j < |s.tasks| ==> !s.tasks[j].pc.Running?
  {
    ReachableIsInv(s);
    assert TaskOk(s, i);
    forall j: nat | j < |s.tasks| ensures !s.tasks[j].pc.Running? { assert TaskOk(s, j); }
  }

  /** Only a user turn's run can answer, drop or replace an open question. */
  lemma OnlyTurnsChangeAnOpenQuestion(s: State, l: Label)
    requires Inv(s) && Enabled(s, l) && s.question.Some? && Next(s, l).question != s.question
    ensures (l.Stop? || l.Interrupt?) && s.tasks[l.i].kind == Turn && s.tasks[l.i].pc.Running?
  {
    if !IsExternal(l) { assert TaskOk(s, l.i); }
  }

  ghost predicate NoTurnIsLive(s: State) {
    forall i :: 0 <= i < |s.tasks| && s.tasks[i].kind == Turn ==> s.tasks[i].pc == Done
  }

  lemma NoTurnAppears(s: State, l: Label)
    requires NoTurnIsLive(s) && Enabled(s, l) && !l.Message?
    ensures NoTurnIsLive(Next(s, l))
  {
    if !IsExternal(l) {
      var ended := if l.Exit? || l.Interrupt? then Finish(s, l.i, false) else Next(s, l);
      assert forall j :: 0 <= j < |s.tasks| ==> ended.tasks[j].kind == s.tasks[j].kind;
    }
  }

  lemma StepWithoutTurns(s: State, l: Label)
    requires Inv(s) && NoTurnIsLive(s) && Enabled(s, l) && !l.Message?
    ensures NoTurnIsLive(Next(s, l))
    ensures s.question.Some? ==> Next(s, l).question == s.question
  {
    NoTurnAppears(s, l);
    if s.question.Some? && Next(s, l).question != s.question { OnlyTurnsChangeAnOpenQuestion(s, l); }
  }

  /** No sequence of notices, arrivals, cancels and wakes ever answers or drops an open question. */
  lemma {:induction false} WithoutTurnsTheQuestionStays(start: State, labels: seq<Label>)
    requires Reachable(start) && start.question.Some? && NoTurnIsLive(start)
    requires Run(start, labels).Some? && forall l :: l in labels ==> !l.Message?
    ensures Run(start, labels).value.question == start.question && NoTurnIsLive(Run(start, labels).value)
    decreases |labels|
  {
    if labels != [] {
      var init, l := labels[..|labels| - 1], labels[|labels| - 1];
      WithoutTurnsTheQuestionStays(start, init);
      ReachableIsInv(start);
      RunsKeepInv(start, init);
      StepWithoutTurns(Run(start, init).value, l);
    }
  }

  // ---- What is left at rest ----

  /**
   * At rest, an item is undelivered only if it came after the latest check, or that check had a question open,
   * could not be made, or led to a run.
   */
  lemma WhatIsLeftAtRest(question: Option<nat>, labels: seq<Label>, s: State, item: Item)
    requires Run(Init(question), labels) == Some(s) && item in Undelivered(s) && s.lastCheck.Some?
    ensures var c := s.lastCheck.value;
            item !in c.arrived || c.question.Some? || !c.made || c.answer
  {
    RunsKeepInv(Init(question), labels);
  }
}
