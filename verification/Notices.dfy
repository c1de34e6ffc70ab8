/**
 * Which notices are followed by a wake check (api/routers/sessions.py): the exact condition, for every reachable state,
 * and a state in which it fails.
 */
module Notices {
  import opened Wrappers
  import opened Sessions
  import opened Slots
  import opened WakeChain
  import opened UncheckedTurns

  // ---- Is a check made? ----

  /** Some wake will check, or the current task's end will schedule one. */
  ghost predicate CheckIsComing(s: State) {
    || (exists j: nat :: j < |s.tasks| && WillCheck(s.tasks[j]))
    || (CurrentIsLive(s) && WillScheduleWake(s.tasks[s.current.value]))
  }

  ghost predicate HasCheck(labels: seq<Label>) {
    exists k :: 0 <= k < |labels| && labels[k].DoCheck?
  }

  /** Every run from here without cancels makes a check before the session rests. */
  ghost predicate IsHeard(s: State) {
    forall labels :: Run(s, labels).Some? && AtRest(Run(s, labels).value) && HasNoCancel(labels) ==> HasCheck(labels)
  }

  lemma ExternalKeepsCheckComing(s: State, l: Label)
    requires Inv(s) && CheckIsComing(s) && IsExternal(l) && !l.Cancel?
    ensures CheckIsComing(Next(s, l))
  {
    var after := Next(s, l);
    if j: nat :| j < |s.tasks| && WillCheck(s.tasks[j]) {
      assert WillCheck(after.tasks[j]);
    } else if l.Message? {
      assert WillScheduleWake(after.tasks[after.current.value]);
    }
  }

  lemma TaskStepKeepsCheckComing(s: State, l: Label)
    requires Inv(s) && CheckIsComing(s) && Enabled(s, l) && !IsExternal(l) && !l.DoCheck?
    ensures CheckIsComing(Next(s, l))
  {
    var after := Next(s, l);
    if IsEnding(s, l) {
      EndMoves(s, l);
      if s.current == Some(l.i) && WillScheduleWake(s.tasks[l.i]) { assert WillCheck(after.tasks[|s.tasks|]); }
    } else {
      StepMoves(s, l);
      StepPlaces(s, l);
    }
    if j: nat :| j < |s.tasks| && WillCheck(s.tasks[j]) {
      assert WillCheck(after.tasks[j]);
    }
  }

  /** A check that is coming stays coming through every run without cancels until it is made. */
  lemma {:induction false} CheckIsMadeOrComing(s: State, labels: seq<Label>)
    requires Inv(s) && CheckIsComing(s) && Run(s, labels).Some? && HasNoCancel(labels)
    ensures Inv(Run(s, labels).value) && (HasCheck(labels) || CheckIsComing(Run(s, labels).value))
    decreases |labels|
  {
    if labels != [] {
      var init, l := labels[..|labels| - 1], labels[|labels| - 1];
      CheckIsMadeOrComing(s, init);
      var before := Run(s, init).value;
      StepKeepsInv(before, l);
      if HasCheck(init) {
        var k :| 0 <= k < |init| && init[k].DoCheck?;
        assert labels[k].DoCheck?;
      } else if IsExternal(l) {
        ExternalKeepsCheckComing(before, l);
      } else if !l.DoCheck? {
        TaskStepKeepsCheckComing(before, l);
      }
    }
  }

  // ---- A run without a check ----

  /** How a task moves on when its run raises. */
  function RaisingStep(s: State, i: nat): Label
    requires i < |s.tasks|
  {
    var t := s.tasks[i];
    if t.cancelling then Interrupt(i, s.question)
    else
      match t.pc
      case Created => Start(i)
      case Waiting => Acquire(i)
      case Decided(yes) => if yes then Proceed(i) else Exit(i)
      case Running(_) => Stop(i, None, true)
      case _ => Exit(i)
  }

  lemma RaisingStepIsEnabled(s: State, i: nat)
    requires Inv(s) && Ordered(s) && !CheckIsComing(s) && i < |s.tasks| && Live(s.tasks[i])
    requires s.current == Some(i) || IsEarliest(s, i)
    ensures var l := RaisingStep(s, i);
            Enabled(s, l) && !IsExternal(l) && !FailsQuietly(s, l) && !l.DoCheck?
  {
    assert TaskOk(s, i);
    assert !WillCheck(s.tasks[i]);
    if s.holder.Some? { assert TaskOk(s, s.holder.value); }
  }

  lemma RaisingStepKeepsNoCheck(s: State, i: nat)
    requires Inv(s) && Ordered(s) && !CheckIsComing(s) && i < |s.tasks| && Live(s.tasks[i])
    requires Enabled(s, RaisingStep(s, i)) && !RaisingStep(s, i).DoCheck?
    requires CurrentIsLive(s) ==> s.current == Some(i)
    ensures !CheckIsComing(Next(s, RaisingStep(s, i)))
  {
    var l := RaisingStep(s, i);
    var after := Next(s, l);
    assert TaskOk(s, i);
    assert forall j :: 0 <= j < |s.tasks| ==> !WillCheck(s.tasks[j]);
    if IsEnding(s, l) {
      EndMoves(s, l);
    } else {
      StepMoves(s, l);
      StepPlaces(s, l);
    }
    assert forall j :: 0 <= j < |after.tasks| ==> !WillCheck(after.tasks[j]);
  }

  /** When no check is coming, some run without cancels comes to rest without one. */
  lemma {:induction false} CanRestWithoutCheck(s: State) returns (labels: seq<Label>)
    requires Inv(s) && Ordered(s) && !CheckIsComing(s)
    ensures Run(s, labels).Some? && AtRest(Run(s, labels).value) && HasNoCancel(labels) && !HasCheck(labels)
    decreases Measure(s)
  {
    if AtRest(s) {
      labels := [];
    } else {
      var i: nat;
      if CurrentIsLive(s) { i := s.current.value; } else { i := EarliestLive(s); }
      RaisingStepIsEnabled(s, i);
      RaisingStepKeepsNoCheck(s, i);
      var l := RaisingStep(s, i);
      StepKeepsInv(s, l);
      StepKeepsOrder(s, l);
      StepMeasure(s, l);
      var rest := CanRestWithoutCheck(Next(s, l));
      RunOne(s, l);
      RunMore(s, [l], rest);
      labels := [l] + rest;
    }
  }

  // ---- The exact conditions ----

  /**
   * Main result: in every reachable state, whatever was cancelled before, every run to rest without further cancels
   * makes a check if and only if one is coming.
   */
  lemma CheckIsMadeIff(s: State)
    requires Reachable(s)
    ensures IsHeard(s) <==> CheckIsComing(s)
  {
    ReachableIsOrdered(s);
    if CheckIsComing(s) {
      forall labels | Run(s, labels).Some? && AtRest(Run(s, labels).value) && HasNoCancel(labels)
        ensures HasCheck(labels)
      {
        CheckIsMadeOrComing(s, labels);
      }
    } else {
      var labels := CanRestWithoutCheck(s);
    }
  }

  /** So a notice is heard exactly when no task is current, or a check was coming anyway. */
  lemma NoticeIsHeardIff(s: State)
    requires Reachable(s)
    ensures IsHeard(Next(s, Notice)) <==> !CurrentIsLive(s) || CheckIsComing(s)
  {
    ReachableNext(s, Notice);
    CheckIsMadeIff(Next(s, Notice));
    var after := Next(s, Notice);
    if CurrentIsLive(s) {
      assert after.tasks == s.tasks && after.current == s.current;
    } else {
      assert WillCheck(after.tasks[|s.tasks|]);
    }
  }

  /**
   * A wake that has checked, and will not check again on its own: its run may raise or is being cancelled. One whose
   * run has returned schedules the next wake.
   */
  predicate HasChecked(t: Task) {
    && t.kind == Wake
    && (t.pc.Decided? || t.pc.Running? || t.pc == Stopped(false) || (t.pc == Stopped(true) && t.cancelling))
  }

  /** While cancels hit only started turns and wakes past their check, only a wake that has checked misses a notice. */
  lemma OnlyCheckedWakesMissNotices(s: State)
    requires Reachable(s) && SlotOk(s)
    ensures IsHeard(Next(s, Notice)) <==> !(CurrentIsLive(s) && HasChecked(s.tasks[s.current.value]))
  {
    NoticeIsHeardIff(s);
    ReachableIsInv(s);
    if CurrentIsLive(s) {
      var i := s.current.value;
      assert TaskOk(s, i);
      if HasChecked(s.tasks[i]) {
        assert forall j :: 0 <= j < |s.tasks| && j != i ==> s.tasks[j].pc == Done;
      } else {
        assert WillCheck(s.tasks[i]) || WillScheduleWake(s.tasks[i]);
      }
    }
  }

  /**
   * A notice that lands between a wake's false check and that wake's exit is not followed by another check: the
   * session rests with its report undelivered.
   */
  lemma LateNoticeIsMissed(s: State, i: nat, item: Item) returns (end: State)
    requires OnlyLive(s, i, Task(Wake, Decided(false), false)) && item !in s.delivered
    ensures end == Next(Next(Next(s, Arrive(item)), Notice), Exit(i))
    ensures AtRest(end) && end.lastCheck == s.lastCheck && item in Undelivered(end)
  {
    var arrived := Next(s, Arrive(item));
    var noticed := Next(arrived, Notice);
    end := Next(noticed, Exit(i));
  }

  /** The state before a late notice: reached by one notice with nothing to report. */
  lemma FalseCheckIsReached() returns (p: Path, s: State)
    ensures LeadsTo(p, s) && OnlyLive(s, 0, Task(Wake, Decided(false), false)) && s.delivered == {}
  {
    p, s := Begin();
    p, s := Extend(p, s, Notice);
    p, s := WakeChecks(p, s, 0);
  }
}
