/**
 * Which states, and which cancels, can leave an ended user turn unchecked (api/routers/sessions.py): the exact
 * conditions, for every reachable state and however many cancels came before.
 */
module UncheckedTurns {
  import opened Wrappers
  import opened Sessions
  import opened Slots
  import opened WakeChain

  // ---- The condition ----

  /** A task cancelled before it started: it ends without running any code. */
  predicate IsDoomed(t: Task) {
    t.pc == Created && t.cancelling
  }

  /** A user turn whose end is still to come. */
  predicate TurnWillEnd(t: Task) {
    t.kind == Turn && Live(t) && !IsDoomed(t)
  }

  /** A wake before its check that nothing keeps from making it. */
  predicate WillCheck(t: Task) {
    t.kind == Wake && !t.cancelling && (t.pc.Created? || t.pc.Waiting? || t.pc.Checking?)
  }

  /** What the current task must be for its end to schedule a wake. */
  predicate WillScheduleWake(t: Task) {
    TurnWillEnd(t) || (t.kind == Wake && t.pc == Stopped(true) && !t.cancelling)
  }

  ghost predicate NoTurnWillEnd(s: State, from: nat, to: nat)
    requires to <= |s.tasks|
  {
    forall k :: from <= k < to ==> !TurnWillEnd(s.tasks[k])
  }

  /** Wake `j` checks after every turn that is still to end. */
  ghost predicate ChecksLast(s: State, j: nat) {
    j < |s.tasks| && WillCheck(s.tasks[j]) && NoTurnWillEnd(s, j + 1, |s.tasks|)
  }

  /**
   * Some wake checks after every turn still to end, or the current task's end will schedule one, or no turn is still
   * to end and none is unchecked now.
   */
  ghost predicate IsSafe(s: State) {
    || (exists j: nat :: ChecksLast(s, j))
    || (CurrentIsLive(s) && WillScheduleWake(s.tasks[s.current.value]))
    || (CheckedSinceTurns(s) && NoTurnWillEnd(s, 0, |s.tasks|))
  }

  // ---- What every step keeps, cancels included ----

  predicate IsPastCheck(t: Task) {
    t.kind == Wake && (t.pc.Decided? || t.pc.Running? || t.pc.Stopped?)
  }

  ghost predicate TimesOk(s: State) {
    && (s.lastTurnEnd.Some? ==> s.lastTurnEnd.value < s.clock)
    && (s.lastCheck.Some? ==> s.lastCheck.value.time < s.clock)
  }

  /** The slot names the newest task or none, and no turn ends between a newest wake's check and its end. */
  ghost predicate Ordered(s: State) {
    && TimesOk(s)
    && (s.current.Some? ==> s.current.value == |s.tasks| - 1)
    && (s.tasks != [] && IsPastCheck(s.tasks[|s.tasks| - 1]) ==> CheckedSinceTurns(s))
  }

  /** Where a task's other steps take it. */
  lemma StepPlaces(s: State, l: Label)
    requires Inv(s) && Enabled(s, l) && !IsExternal(l) && !IsEnding(s, l)
    ensures var t, after := s.tasks[l.i], Next(s, l).tasks[l.i];
            && (WillCheck(after) ==> WillCheck(t))
            && (WillCheck(t) && !l.DoCheck? ==> WillCheck(after))
            && TurnWillEnd(after) == TurnWillEnd(t)
            && (l.DoCheck? ==> t.kind == Wake)
            && (IsPastCheck(after) ==> l.DoCheck? || IsPastCheck(t))
  {
    assert TaskOk(s, l.i);
  }

  lemma EndKeepsOrder(s: State, l: Label)
    requires Inv(s) && Ordered(s) && Enabled(s, l) && IsEnding(s, l)
    ensures Ordered(Next(s, l))
  {
    EndMoves(s, l);
    var last := |s.tasks| - 1;
    assert TaskOk(s, l.i) && TaskOk(s, last);
    var after := Next(s, l);
    assert l.i != last ==> after.tasks[last] == s.tasks[last];
  }

  lemma StepKeepsOrder(s: State, l: Label)
    requires Inv(s) && Ordered(s) && Enabled(s, l)
    ensures Ordered(Next(s, l))
  {
    if IsEnding(s, l) {
      EndKeepsOrder(s, l);
    } else if !IsExternal(l) {
      StepMoves(s, l);
      StepPlaces(s, l);
    }
  }

  lemma {:induction false} RunsKeepOrder(start: State, labels: seq<Label>)
    requires Inv(start) && Ordered(start) && Run(start, labels).Some?
    ensures Inv(Run(start, labels).value) && Ordered(Run(start, labels).value)
    decreases |labels|
  {
    if labels != [] {
      var init := labels[..|labels| - 1];
      RunsKeepOrder(start, init);
      StepKeepsInv(Run(start, init).value, labels[|labels| - 1]);
      StepKeepsOrder(Run(start, init).value, labels[|labels| - 1]);
    }
  }

  lemma ReachableIsOrdered(s: State)
    requires Reachable(s)
    ensures Inv(s) && Ordered(s)
  {
    var question, labels :| Run(Init(question), labels) == Some(s);
    RunsKeepOrder(Init(question), labels);
  }

  // ---- A safe state stays safe ----

  /** No step of a task makes a turn that was not still to end one that is. */
  lemma TurnsOnlyEnd(s: State, l: Label, from: nat)
    requires Inv(s) && Ordered(s) && Enabled(s, l) && !IsExternal(l)
    requires from <= |s.tasks| && NoTurnWillEnd(s, from, |s.tasks|)
    ensures from <= |Next(s, l).tasks| && NoTurnWillEnd(Next(s, l), from, |Next(s, l).tasks|)
  {
    if IsEnding(s, l) {
      EndMoves(s, l);
    } else {
      StepMoves(s, l);
      StepPlaces(s, l);
    }
  }

  lemma ExternalKeepsSafe(s: State, l: Label)
    requires Inv(s) && Ordered(s) && IsSafe(s) && IsExternal(l) && !l.Cancel?
    ensures IsSafe(Next(s, l))
  {
    var after := Next(s, l);
    if l.Notice? && !CurrentIsLive(s) {
      assert ChecksLast(after, |s.tasks|);
    } else if l.Notice? || l.Arrive? {
      if j: nat :| ChecksLast(s, j) { assert ChecksLast(after, j); }
    }
  }

  lemma CheckingLastKeepsSafe(s: State, l: Label, j: nat)
    requires Inv(s) && Ordered(s) && ChecksLast(s, j) && Enabled(s, l) && !IsExternal(l)
    ensures IsSafe(Next(s, l))
  {
    var after := Next(s, l);
    TurnsOnlyEnd(s, l, j + 1);
    if IsEnding(s, l) {
      EndMoves(s, l);
      assert ChecksLast(after, j);
    } else {
      StepMoves(s, l);
      StepPlaces(s, l);
      if l.DoCheck? && l.i == j {
        assert TaskOk(s, j);
        assert NoTurnWillEnd(after, 0, |after.tasks|);
      } else {
        assert ChecksLast(after, j);
      }
    }
  }

  lemma SchedulingKeepsSafe(s: State, l: Label)
    requires Inv(s) && Ordered(s) && CurrentIsLive(s) && WillScheduleWake(s.tasks[s.current.value])
    requires Enabled(s, l) && !IsExternal(l)
    ensures IsSafe(Next(s, l))
  {
    var after := Next(s, l);
    var i := s.current.value;
    if IsEnding(s, l) {
      EndMoves(s, l);
      if l.i == i { assert ChecksLast(after, |s.tasks|); }
    } else {
      StepMoves(s, l);
      StepPlaces(s, l);
    }
  }

  lemma CheckedKeepsSafe(s: State, l: Label)
    requires Inv(s) && Ordered(s) && CheckedSinceTurns(s) && NoTurnWillEnd(s, 0, |s.tasks|)
    requires Enabled(s, l) && !IsExternal(l)
    ensures IsSafe(Next(s, l))
  {
    TurnsOnlyEnd(s, l, 0);
    if IsEnding(s, l) {
      EndMoves(s, l);
    } else {
      StepMoves(s, l);
    }
  }

  lemma StepKeepsSafe(s: State, l: Label)
    requires Inv(s) && Ordered(s) && IsSafe(s) && Enabled(s, l) && !l.Cancel?
    ensures IsSafe(Next(s, l))
  {
    if IsExternal(l) {
      ExternalKeepsSafe(s, l);
    } else if j: nat :| ChecksLast(s, j) {
      CheckingLastKeepsSafe(s, l, j);
    } else if CurrentIsLive(s) && WillScheduleWake(s.tasks[s.current.value]) {
      SchedulingKeepsSafe(s, l);
    } else {
      CheckedKeepsSafe(s, l);
    }
  }

  lemma {:induction false} RunsKeepSafe(s: State, labels: seq<Label>)
    requires Inv(s) && Ordered(s) && IsSafe(s) && Run(s, labels).Some? && HasNoCancel(labels)
    ensures IsSafe(Run(s, labels).value)
    decreases |labels|
  {
    if labels != [] {
      var init := labels[..|labels| - 1];
      RunsKeepSafe(s, init);
      RunsKeepOrder(s, init);
      StepKeepsSafe(Run(s, init).value, labels[|labels| - 1]);
    }
  }

  // ---- An unsafe state has a run that leaves a turn unchecked ----

  /** In an unsafe state the current task, if live, is one whose cancel ends it with nothing scheduled. */
  lemma UnsafeCurrent(s: State)
    requires Inv(s) && Ordered(s) && !IsSafe(s) && CurrentIsLive(s)
    ensures var t := s.tasks[s.current.value];
            t.cancelling && if t.kind == Turn then t.pc == Created else t.pc.Created? || t.pc.Waiting? || t.pc.Checking?
  {
    var i := s.current.value;
    assert TaskOk(s, i);
    if IsPastCheck(s.tasks[i]) {
      assert NoTurnWillEnd(s, 0, |s.tasks|);
    } else if WillCheck(s.tasks[i]) {
      assert ChecksLast(s, i);
    }
  }

  lemma DropCurrent(s: State)
    requires Inv(s) && Ordered(s) && !IsSafe(s) && CurrentIsLive(s)
    ensures var l := Interrupt(s.current.value, s.question);
            Enabled(s, l) && !IsSafe(Next(s, l)) && !CurrentIsLive(Next(s, l))
  {
    UnsafeCurrent(s);
    var i := s.current.value;
    var l := Interrupt(i, s.question);
    if IsEnding(s, l) { EndMoves(s, l); } else { StepMoves(s, l); }
    StaysUnsafe(s, Next(s, l), i);
  }

  /** A change of one task on which no check or turn's end depends makes no unsafe state safe. */
  lemma StaysUnsafe(s: State, after: State, i: nat)
    requires i < |s.tasks| && |after.tasks| == |s.tasks| && !CurrentIsLive(after)
    requires forall k :: 0 <= k < |s.tasks| && k != i ==> after.tasks[k] == s.tasks[k]
    requires WillCheck(after.tasks[i]) ==> WillCheck(s.tasks[i])
    requires TurnWillEnd(after.tasks[i]) == TurnWillEnd(s.tasks[i])
    requires CheckedSinceTurns(after) ==> CheckedSinceTurns(s)
    requires !IsSafe(s)
    ensures !IsSafe(after)
  {
    assert forall k :: 0 <= k < |s.tasks| ==> TurnWillEnd(s.tasks[k]) == TurnWillEnd(after.tasks[k]);
    forall j: nat ensures !ChecksLast(after, j) {
      assert !ChecksLast(s, j);
    }
  }

  ghost predicate IsEarliest(s: State, i: nat) {
    i < |s.tasks| && Live(s.tasks[i]) && forall j :: 0 <= j < i ==> !Live(s.tasks[j])
  }

  /** The earliest live task moves on, or ends, and the state stays unsafe. */
  lemma EarliestStaysUnsafe(s: State, i: nat)
    requires Inv(s) && Ordered(s) && !IsSafe(s) && !CurrentIsLive(s) && IsEarliest(s, i)
    requires Enabled(s, NextStep(s, i))
    ensures !IsSafe(Next(s, NextStep(s, i))) && !CurrentIsLive(Next(s, NextStep(s, i)))
  {
    var l := NextStep(s, i);
    var after := Next(s, l);
    if IsEnding(s, l) {
      EndMoves(s, l);
      if s.tasks[i].kind == Turn {
        EndedTurnIsUnsafe(s, after, i);
      } else {
        StaysUnsafe(s, after, i);
      }
    } else {
      StepMoves(s, l);
      StepPlaces(s, l);
      if l.DoCheck? {
        CheckStaysUnsafe(s, after, i);
      } else {
        StaysUnsafe(s, after, i);
      }
    }
  }

  lemma EndedTurnIsUnsafe(s: State, after: State, i: nat)
    requires Inv(s) && Ordered(s) && !IsSafe(s) && !CurrentIsLive(after) && IsEarliest(s, i)
    requires after.tasks == s.tasks[i := s.tasks[i].(pc := Done)]
    requires after.lastTurnEnd == Some(s.clock) && after.lastCheck == s.lastCheck
    ensures !IsSafe(after)
  {
    assert forall k :: 0 <= k < |s.tasks| && k != i ==> after.tasks[k] == s.tasks[k];
    forall j: nat ensures !ChecksLast(after, j) {
      assert !ChecksLast(s, j);
    }
  }

  /** A check before a turn's end changes nothing: some turn is still to end after it. */
  lemma CheckStaysUnsafe(s: State, after: State, i: nat)
    requires !IsSafe(s) && !CurrentIsLive(after) && IsEarliest(s, i)
    requires WillCheck(s.tasks[i])
    requires |after.tasks| == |s.tasks| && after.tasks == s.tasks[i := after.tasks[i]]
    requires !WillCheck(after.tasks[i]) && !TurnWillEnd(after.tasks[i])
    ensures !IsSafe(after)
  {
    assert !ChecksLast(s, i);
    var k :| i < k < |s.tasks| && TurnWillEnd(s.tasks[k]);
    assert TurnWillEnd(after.tasks[k]);
    assert forall k :: 0 <= k < |s.tasks| ==> TurnWillEnd(s.tasks[k]) == TurnWillEnd(after.tasks[k]);
    forall j: nat ensures !ChecksLast(after, j) {
      assert !ChecksLast(s, j);
    }
  }

  /** The next step of the run that leaves a turn unchecked: end the current task, else move the earliest. */
  lemma UnsafeStep(s: State) returns (l: Label)
    requires Inv(s) && Ordered(s) && !IsSafe(s) && !AtRest(s)
    ensures Enabled(s, l) && !IsExternal(l) && !FailsQuietly(s, l) && !IsSafe(Next(s, l))
  {
    if CurrentIsLive(s) {
      DropCurrent(s);
      l := Interrupt(s.current.value, s.question);
    } else {
      var i := EarliestLive(s);
      EarliestCanStep(s, i);
      EarliestStaysUnsafe(s, i);
      l := NextStep(s, i);
    }
  }

  lemma EarliestLive(s: State) returns (i: nat)
    requires !AtRest(s)
    ensures IsEarliest(s, i)
  {
    i := 0;
    while !Live(s.tasks[i])
      invariant i < |s.tasks| && forall j :: 0 <= j < i ==> !Live(s.tasks[j])
      decreases |s.tasks| - i
    {
      i := i + 1;
    }
  }

  /** From an unsafe state some run without cancels comes to rest with an ended turn unchecked. */
  lemma {:induction false} UnsafeCanEndUnchecked(s: State) returns (labels: seq<Label>)
    requires Inv(s) && Ordered(s) && !IsSafe(s)
    ensures Run(s, labels).Some? && HasNoCancel(labels)
    ensures AtRest(Run(s, labels).value) && !CheckedSinceTurns(Run(s, labels).value)
    decreases Measure(s)
  {
    if AtRest(s) {
      labels := [];
    } else {
      var l := UnsafeStep(s);
      StepKeepsInv(s, l);
      StepKeepsOrder(s, l);
      StepMeasure(s, l);
      var rest := UnsafeCanEndUnchecked(Next(s, l));
      RunOne(s, l);
      RunMore(s, [l], rest);
      labels := [l] + rest;
    }
  }

  // ---- The exact conditions ----

  /** Whatever follows, short of another cancel, no ended turn is left unchecked at rest. */
  ghost predicate LeavesNothingUnchecked(s: State) {
    forall labels :: Run(s, labels).Some? && AtRest(Run(s, labels).value) && HasNoCancel(labels) ==>
      CheckedSinceTurns(Run(s, labels).value)
  }

  /**
   * Main result: in every reachable state, whatever was cancelled before, every run to rest without further cancels
   * leaves no ended turn unchecked if and only if the state is safe.
   */
  lemma NothingIsLeftUncheckedIff(s: State)
    requires Reachable(s)
    ensures LeavesNothingUnchecked(s) <==> IsSafe(s)
  {
    ReachableIsOrdered(s);
    if IsSafe(s) {
      forall labels | Run(s, labels).Some? && AtRest(Run(s, labels).value) && HasNoCancel(labels)
        ensures CheckedSinceTurns(Run(s, labels).value)
      {
        RunsKeepSafe(s, labels);
      }
    } else {
      var labels := UnsafeCanEndUnchecked(s);
    }
  }

  /** A check made by another wake after every other turn still to end. */
  ghost predicate AnotherChecksLast(s: State, i: nat, j: nat)
    requires i < |s.tasks|
  {
    j < i && WillCheck(s.tasks[j]) && NoTurnWillEnd(s, j + 1, i)
  }

  /**
   * What a cancel may hit: a user turn that has started, a wake past its check, or, with `i` the current task, any
   * task if another wake checks after every other turn still to end, or if there is no such turn and none is
   * unchecked.
   */
  ghost predicate MayCancel(s: State)
    requires CurrentIsLive(s)
  {
    var i := s.current.value;
    || MayBeCancelled(s.tasks[i])
    || (exists j: nat :: AnotherChecksLast(s, i, j))
    || (CheckedSinceTurns(s) && NoTurnWillEnd(s, 0, i))
  }

  lemma CancelledIsSafeIff(s: State)
    requires Inv(s) && Ordered(s) && CurrentIsLive(s)
    ensures IsSafe(Next(s, Cancel)) <==> MayCancel(s)
  {
    var i := s.current.value;
    var after := Next(s, Cancel);
    assert TaskOk(s, i);
    assert forall k :: 0 <= k < i ==> after.tasks[k] == s.tasks[k];
    if j: nat :| AnotherChecksLast(s, i, j) {
      if !MayBeCancelled(s.tasks[i]) { assert ChecksLast(after, j); }
    }
    if j: nat :| ChecksLast(after, j) {
      assert AnotherChecksLast(s, i, j);
    }
  }

  /**
   * Main result: in every reachable state with a live current task, whatever was cancelled before, a cancel leaves no
   * ended turn unchecked on any run to rest without further cancels if and only if it hits what it may hit.
   */
  lemma CancelIsHarmlessIff(s: State)
    requires Reachable(s) && CurrentIsLive(s)
    ensures LeavesNothingUnchecked(Next(s, Cancel)) <==> MayCancel(s)
  {
    ReachableIsOrdered(s);
    CancelledIsSafeIff(s);
    ReachableNext(s, Cancel);
    NothingIsLeftUncheckedIff(Next(s, Cancel));
  }

  lemma ReachableNext(s: State, l: Label)
    requires Reachable(s) && Enabled(s, l)
    ensures Reachable(Next(s, l))
  {
    var question, labels :| Run(Init(question), labels) == Some(s);
    var longer := labels + [l];
    assert longer[..|labels|] == labels;
    assert Run(Init(question), longer) == Some(Next(s, l));
  }

  /** A cancel that hits anything else does leave an ended turn unchecked, on the run this lemma builds. */
  lemma CancelLeavesTurnUnchecked(s: State) returns (labels: seq<Label>)
    requires Reachable(s) && CurrentIsLive(s) && !MayCancel(s)
    ensures var cancelled := Next(s, Cancel);
            && Run(cancelled, labels).Some? && HasNoCancel(labels) && AtRest(Run(cancelled, labels).value)
            && !CheckedSinceTurns(Run(cancelled, labels).value)
  {
    ReachableIsOrdered(s);
    CancelledIsSafeIff(s);
    StepKeepsInv(s, Cancel);
    StepKeepsOrder(s, Cancel);
    labels := UnsafeCanEndUnchecked(Next(s, Cancel));
  }

  lemma TurnEnds(s: State)
    requires OnlyLive(s, 0, Task(Turn, Running(false), false)) && |s.tasks| == 1 && s.lastCheck.None?
    ensures var stopped := Next(s, Stop(0, None, false));
            && Enabled(stopped, Exit(0))
            && var after := Next(stopped, Exit(0));
            && |after.tasks| == 2 && OnlyLive(after, 1, Task(Wake, Created, false))
            && after.lastTurnEnd.Some? && after.lastCheck.None?
  {
  }

  lemma TurnIsRunning() returns (p: Path, s: State)
    ensures LeadsTo(p, s) && |s.tasks| == 1 && OnlyLive(s, 0, Task(Turn, Running(false), false)) && s.lastCheck.None?
  {
    p, s := Begin();
    p, s := Extend(p, s, Message);
    p, s := Extend(p, s, Start(0));
    p, s := Extend(p, s, Acquire(0));
  }

  /** Such a cancel is possible: of the wake that a lone turn's end has scheduled. */
  lemma UncheckedTurnIsReached() returns (p: Path, s: State)
    ensures LeadsTo(p, s) && OnlyLive(s, 1, Task(Wake, Created, false)) && !MayCancel(s)
  {
    p, s := TurnIsRunning();
    TurnEnds(s);
    p, s := Extend(p, s, Stop(0, None, false));
    p, s := Extend(p, s, Exit(0));
  }

  /** And of a second message's turn before it starts, behind a running one. */
  lemma QueuedTurnIsReached() returns (p: Path, s: State)
    ensures LeadsTo(p, s) && s.tasks == [Task(Turn, Running(false), false), Task(Turn, Created, false)]
    ensures s.current == Some(1) && !MayCancel(s)
  {
    p, s := TurnIsRunning();
    p, s := Extend(p, s, Message);
    assert TurnWillEnd(s.tasks[0]);
  }
}
