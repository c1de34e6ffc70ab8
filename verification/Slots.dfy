/**
 * The task slot `state.task` (api/routers/sessions.py): which task it names, and that no ended user turn goes
 * unchecked, over every run whose cancels do no harm.
 */
module Slots {
  import opened Wrappers
  import opened Sessions

  /** No user turn has ended since the latest wake check, if one has ended at all. */
  ghost predicate CheckedSinceTurns(s: State) {
    s.lastTurnEnd.Some? ==> s.lastCheck.Some? && s.lastTurnEnd.value < s.lastCheck.value.time
  }

  /** A task whose cancel leaves no turn unchecked: a user turn that has started, or a wake that has checked. */
  predicate MayBeCancelled(t: Task) {
    if t.kind == Turn then t.pc != Created else t.pc.Decided? || t.pc.Running? || t.pc.Stopped?
  }

  /** A cancel, if this is one, hits such a task. */
  predicate CancelIsHarmless(s: State, l: Label) {
    l.Cancel? && CurrentIsLive(s) ==> MayBeCancelled(s.tasks[s.current.value])
  }

  ghost predicate CancelsAreHarmless(start: State, labels: seq<Label>) {
    labels == [] ||
    (var init := labels[..|labels| - 1];
     && CancelsAreHarmless(start, init)
     && (Run(start, init).Some? ==> CancelIsHarmless(Run(start, init).value, labels[|labels| - 1])))
  }

  ghost predicate SlotOk(s: State) {
    && (s.lastTurnEnd.Some? ==> s.lastTurnEnd.value < s.clock)
    && (forall i: nat :: i < |s.tasks| && s.tasks[i].cancelling && Live(s.tasks[i]) ==> MayBeCancelled(s.tasks[i]))
    && (if s.tasks == [] then s.current.None?
        else
          var last := s.tasks[|s.tasks| - 1];
          && s.current == (if Live(last) then Some(|s.tasks| - 1) else None)
          && (!Live(last) ==> last.kind == Wake && forall i :: 0 <= i < |s.tasks| ==> !Live(s.tasks[i]))
          && (!Live(last) || (last.kind == Wake && (last.pc.Decided? || last.pc.Running? || last.pc.Stopped?)) ==>
                s.lastCheck.Some? && CheckedSinceTurns(s)))
  }

  lemma ExternalKeepsSlot(s: State, l: Label)
    requires Inv(s) && SlotOk(s) && IsExternal(l) && CancelIsHarmless(s, l)
    ensures SlotOk(Next(s, l))
  {
  }

  lemma LastTaskEndingKeepsSlot(s: State, wakeAgain: bool)
    requires Inv(s) && SlotOk(s) && s.tasks != [] && Live(s.tasks[|s.tasks| - 1])
    requires s.tasks[|s.tasks| - 1].kind == Turn ==> wakeAgain
    requires s.tasks[|s.tasks| - 1].kind == Wake ==> MayBeCancelled(s.tasks[|s.tasks| - 1])
    ensures SlotOk(Finish(s, |s.tasks| - 1, wakeAgain).(clock := s.clock + 1))
  {
    var last := |s.tasks| - 1;
    assert TaskOk(s, last);
    var ended := Finish(s, last, false);
    assert forall j :: 0 <= j < last ==> ended.tasks[j] == s.tasks[j];
  }

  lemma EarlierTaskEndingKeepsSlot(s: State, i: nat, wakeAgain: bool)
    requires Inv(s) && SlotOk(s) && i < |s.tasks| - 1 && Live(s.tasks[i])
    ensures SlotOk(Finish(s, i, wakeAgain).(clock := s.clock + 1))
  {
    var last := |s.tasks| - 1;
    assert TaskOk(s, last);
    var ended := Finish(s, i, false);
    assert forall j :: 0 <= j < |s.tasks| && j != i ==> ended.tasks[j] == s.tasks[j];
  }

  lemma FinishKeepsSlot(s: State, i: nat, wakeAgain: bool)
    requires Inv(s) && SlotOk(s) && i < |s.tasks| && Live(s.tasks[i])
    requires s.tasks[i].kind == Turn ==> wakeAgain
    requires s.tasks[i].kind == Wake ==> MayBeCancelled(s.tasks[i])
    ensures SlotOk(Finish(s, i, wakeAgain).(clock := s.clock + 1))
  {
    if i == |s.tasks| - 1 {
      LastTaskEndingKeepsSlot(s, wakeAgain);
    } else {
      EarlierTaskEndingKeepsSlot(s, i, wakeAgain);
    }
  }

  lemma SlotIgnoresQuestion(s: State, question: Option<nat>)
    requires SlotOk(s)
    ensures SlotOk(s.(question := question))
  {
  }

  lemma InterruptKeepsSlot(s: State, i: nat, question: Option<nat>)
    requires Inv(s) && SlotOk(s) && Enabled(s, Interrupt(i, question))
    ensures SlotOk(Next(s, Interrupt(i, question)))
  {
    var again := s.tasks[i].kind == Turn;
    FinishKeepsSlot(s, i, again);
    SlotIgnoresQuestion(Finish(s, i, again).(clock := s.clock + 1),
                        if s.tasks[i].pc.Running? then question else s.question);
  }

  lemma TaskStepKeepsSlot(s: State, l: Label)
    requires Inv(s) && SlotOk(s) && Enabled(s, l) && !IsExternal(l) && !l.Exit? && !l.Interrupt?
    ensures SlotOk(Next(s, l))
  {
    assert TaskOk(s, l.i) && TaskOk(s, |s.tasks| - 1);
    var after := Next(s, l);
    assert forall j :: 0 <= j < |s.tasks| && j != l.i ==> after.tasks[j] == s.tasks[j];
  }

  lemma StepKeepsSlot(s: State, l: Label)
    requires Inv(s) && SlotOk(s) && Enabled(s, l) && CancelIsHarmless(s, l)
    ensures SlotOk(Next(s, l))
  {
    if IsExternal(l) {
      ExternalKeepsSlot(s, l);
    } else if l.Exit? {
      assert TaskOk(s, l.i);
      FinishKeepsSlot(s, l.i, s.tasks[l.i].kind == Turn || s.tasks[l.i].pc == Stopped(true));
    } else if l.Interrupt? {
      InterruptKeepsSlot(s, l.i, l.question);
    } else {
      TaskStepKeepsSlot(s, l);
    }
  }

  lemma {:induction false} RunsKeepSlot(question: Option<nat>, labels: seq<Label>)
    requires Run(Init(question), labels).Some? && CancelsAreHarmless(Init(question), labels)
    ensures SlotOk(Run(Init(question), labels).value)
    decreases |labels|
  {
    if labels != [] {
      var init := labels[..|labels| - 1];
      RunsKeepSlot(question, init);
      RunsKeepInv(Init(question), init);
      StepKeepsSlot(Run(Init(question), init).value, labels[|labels| - 1]);
    }
  }

  lemma SlotMeaning(s: State)
    requires SlotOk(s)
    ensures s.current == (if s.tasks != [] && Live(s.tasks[|s.tasks| - 1]) then Some(|s.tasks| - 1) else None)
    ensures !CurrentIsLive(s) && s.tasks != [] ==>
              s.lastCheck.Some? && CheckedSinceTurns(s) && forall i :: 0 <= i < |s.tasks| ==> !Live(s.tasks[i])
  {
  }

  /**
   * `state.task` is the most recently created task unless that one has finished, and when no current
   * task is live, every task has finished and the latest wake check was made after the latest user turn ended.
   */
  lemma NoEndedTurnGoesUnchecked(question: Option<nat>, labels: seq<Label>)
    requires Run(Init(question), labels).Some? && CancelsAreHarmless(Init(question), labels)
    ensures var s := Run(Init(question), labels).value;
            && s.current == (if s.tasks != [] && Live(s.tasks[|s.tasks| - 1]) then Some(|s.tasks| - 1) else None)
            && (!CurrentIsLive(s) && s.tasks != [] ==>
                  s.lastCheck.Some? && CheckedSinceTurns(s) && forall i :: 0 <= i < |s.tasks| ==> !Live(s.tasks[i]))
  {
    RunsKeepSlot(question, labels);
    SlotMeaning(Run(Init(question), labels).value);
  }
}
