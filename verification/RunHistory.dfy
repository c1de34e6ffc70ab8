/** A value that some steps set and the others keep is what the latest step to set it made it. */
module Latest {
  ghost predicate IsLatest(sets: seq<bool>, k: nat, n: nat) {
    k < n <= |sets| && sets[k] && forall m :: k < m < n ==> !sets[m]
  }

  ghost predicate FollowsSteps<A>(values: seq<A>, sets: seq<bool>, made: seq<A>) {
    && |values| == |sets| + 1 && |made| == |sets|
    && forall k :: 0 <= k < |sets| ==> values[k + 1] == if sets[k] then made[k] else values[k]
  }

  lemma {:induction false} LatestWins<A>(values: seq<A>, sets: seq<bool>, made: seq<A>, n: nat)
    requires FollowsSteps(values, sets, made) && n <= |sets|
    ensures forall k: nat :: IsLatest(sets, k, n) ==> values[n] == made[k]
    ensures (forall k :: 0 <= k < n ==> !sets[k]) ==> values[n] == values[0]
    ensures (exists k: nat :: IsLatest(sets, k, n)) || forall k :: 0 <= k < n ==> !sets[k]
  {
    if n > 0 {
      LatestWins(values, sets, made, n - 1);
      assert values[n - 1 + 1] == if sets[n - 1] then made[n - 1] else values[n - 1];
      if sets[n - 1] {
        assert IsLatest(sets, n - 1, n);
      } else {
        forall k: nat | IsLatest(sets, k, n) ensures IsLatest(sets, k, n - 1) {
        }
        var before := n - 1;
        if k: nat :| IsLatest(sets, k, before) { assert IsLatest(sets, k, n); }
      }
    }
  }
}

/**
 * What a session's state says about the run that led to it (api/routers/sessions.py, core/execution/executor.py): every
 * field is told from the labels taken and from where the tasks were when they were taken.
 */
module RunHistory {
  import opened Wrappers
  import opened Latest
  import opened Sessions
  import opened WakeChain

  // ---- The states a run goes through ----

  ghost predicate IsTrace(states: seq<State>, labels: seq<Label>) {
    && |states| == |labels| + 1
    && forall k :: 0 <= k < |labels| ==> Enabled(states[k], labels[k]) && states[k + 1] == Next(states[k], labels[k])
  }

  lemma LongerTrace(states: seq<State>, labels: seq<Label>, l: Label)
    requires IsTrace(states, labels) && Enabled(states[|labels|], l)
    ensures IsTrace(states + [Next(states[|labels|], l)], labels + [l])
  {
    var more := states + [Next(states[|labels|], l)];
    forall k | 0 <= k <= |labels|
      ensures Enabled(more[k], (labels + [l])[k]) && more[k + 1] == Next(more[k], (labels + [l])[k])
    {
      assert more[k] == states[k];
      if k < |labels| { assert more[k + 1] == states[k + 1]; }
    }
  }

  /** Every run has the states it goes through. */
  lemma {:induction false} TraceOf(start: State, labels: seq<Label>) returns (states: seq<State>)
    requires Run(start, labels).Some?
    ensures IsTrace(states, labels) && states[0] == start && states[|labels|] == Run(start, labels).value
    decreases |labels|
  {
    if labels == [] {
      states := [start];
    } else {
      var init, last := labels[..|labels| - 1], labels[|labels| - 1];
      var before := TraceOf(start, init);
      states := before + [Next(before[|init|], last)];
      LongerTrace(before, init, last);
      assert init + [last] == labels;
    }
  }

  lemma {:induction false} TraceKeepsInv(states: seq<State>, labels: seq<Label>, n: nat)
    requires IsTrace(states, labels) && Inv(states[0]) && n <= |labels|
    ensures Inv(states[n])
  {
    if n > 0 {
      TraceKeepsInv(states, labels, n - 1);
      StepKeepsInv(states[n - 1], labels[n - 1]);
    }
  }

  // ---- One step ----

  /** A run of the graph returns, raises or is interrupted. */
  predicate EndsRun(s: State, l: Label) {
    l.Stop? || (l.Interrupt? && l.i < |s.tasks| && s.tasks[l.i].pc.Running?)
  }

  /** A user turn that has started ends. */
  predicate EndsTurn(s: State, l: Label) {
    (l.Exit? || l.Interrupt?) && l.i < |s.tasks| && s.tasks[l.i].kind == Turn && s.tasks[l.i].pc != Created
  }

  lemma StepSets(s: State, l: Label)
    requires Enabled(s, l)
    ensures var after := Next(s, l);
            && after.question == (if EndsRun(s, l) then l.question else s.question)
            && after.arrived == (if l.Arrive? then s.arrived + {l.item} else s.arrived)
            && after.delivered == (if l.Commit? then s.arrived else s.delivered)
            && after.clock == s.clock + 1
            && after.lastTurnEnd == (if EndsTurn(s, l) then Some(s.clock) else s.lastTurnEnd)
  {
  }

  lemma StepChecks(s: State, l: Label)
    requires Enabled(s, l)
    ensures var after := Next(s, l);
            if l.DoCheck? then
              && l.i < |s.tasks| && after.lastCheck.Some? && after.lastCheck.value.time == s.clock
              && after.lastCheck.value.made == l.made && after.lastCheck.value.question == s.question
              && after.lastCheck.value.arrived == s.arrived
              && after.tasks[l.i].pc == Decided(after.lastCheck.value.answer)
              && (after.lastCheck.value.answer <==> l.made && s.question.None? && Undelivered(s) != {})
            else after.lastCheck == s.lastCheck
  {
  }

  // ---- The open question ----

  ghost predicate LatestRunEnd(states: seq<State>, labels: seq<Label>, k: nat, n: nat)
    requires |states| == |labels| + 1
  {
    k < n <= |labels| && EndsRun(states[k], labels[k]) && forall m :: k < m < n ==> !EndsRun(states[m], labels[m])
  }

  /**
   * Main result: after any run the open question is the one its latest run of the graph ended with, returned, raised or
   * interrupted, and the first one if no run of the graph has ended.
   */
  lemma QuestionIsTheLatestRuns(states: seq<State>, labels: seq<Label>, n: nat)
    requires IsTrace(states, labels) && n <= |labels|
    ensures forall k: nat :: LatestRunEnd(states, labels, k, n) ==> states[n].question == labels[k].question
    ensures (forall k :: 0 <= k < n ==> !EndsRun(states[k], labels[k])) ==> states[n].question == states[0].question
  {
    var values := seq(|states|, k requires 0 <= k < |states| => states[k].question);
    var sets := seq(|labels|, k requires 0 <= k < |labels| => EndsRun(states[k], labels[k]));
    var made := seq(|labels|, k requires 0 <= k < |labels| =>
                      if EndsRun(states[k], labels[k]) then labels[k].question else None);
    forall k | 0 <= k < |sets| ensures values[k + 1] == if sets[k] then made[k] else values[k] {
      StepSets(states[k], labels[k]);
    }
    LatestWins(values, sets, made, n);
    forall k: nat | LatestRunEnd(states, labels, k, n) ensures states[n].question == labels[k].question {
      assert IsLatest(sets, k, n);
    }
  }

  // ---- What has arrived, and what has been delivered ----

  ghost predicate ArrivedBefore(labels: seq<Label>, item: Item, n: nat) {
    exists k :: 0 <= k < n && k < |labels| && labels[k] == Arrive(item)
  }

  ghost predicate DeliveredBefore(labels: seq<Label>, item: Item, n: nat) {
    exists m: nat :: m < n && m < |labels| && labels[m].Commit? && ArrivedBefore(labels, item, m)
  }

  lemma ItemsArrive(states: seq<State>, labels: seq<Label>, n: nat, item: Item)
    requires IsTrace(states, labels) && item !in states[0].arrived && n <= |labels|
    ensures item in states[n].arrived <==> ArrivedBefore(labels, item, n)
  {
    var values := seq(|states|, k requires 0 <= k < |states| => item in states[k].arrived);
    var sets := seq(|labels|, k requires 0 <= k < |labels| => labels[k] == Arrive(item));
    var made := seq(|labels|, _ => true);
    forall k | 0 <= k < |sets| ensures values[k + 1] == if sets[k] then made[k] else values[k] {
      StepSets(states[k], labels[k]);
    }
    LatestWins(values, sets, made, n);
    assert forall k :: 0 <= k < n ==> sets[k] == (labels[k] == Arrive(item));
    if exists k: nat :: IsLatest(sets, k, n) {
      var k: nat :| IsLatest(sets, k, n);
      assert values[n] == made[k] && labels[k] == Arrive(item);
    }
    assert values[n] == (item in states[n].arrived) && values[0] == (item in states[0].arrived);
  }

  lemma DeliveriesFollow(states: seq<State>, labels: seq<Label>, item: Item)
    returns (values: seq<bool>, sets: seq<bool>, made: seq<bool>)
    requires IsTrace(states, labels)
    ensures FollowsSteps(values, sets, made) && |sets| == |labels|
    ensures forall k :: 0 <= k < |states| ==> values[k] == (item in states[k].delivered)
    ensures forall k :: 0 <= k < |labels| ==> sets[k] == labels[k].Commit? && made[k] == (item in states[k].arrived)
  {
    values := seq(|states|, k requires 0 <= k < |states| => item in states[k].delivered);
    sets := seq(|labels|, k requires 0 <= k < |labels| => labels[k].Commit?);
    made := seq(|labels|, k requires 0 <= k < |labels| => item in states[k].arrived);
    forall k | 0 <= k < |sets| ensures values[k + 1] == if sets[k] then made[k] else values[k] {
      StepSets(states[k], labels[k]);
    }
  }

  /** After any run an item is delivered exactly when a model call came after it. */
  lemma ItemsAreDelivered(states: seq<State>, labels: seq<Label>, n: nat, item: Item)
    requires IsTrace(states, labels) && n <= |labels|
    requires item !in states[0].arrived && item !in states[0].delivered
    ensures item in states[n].delivered <==> DeliveredBefore(labels, item, n)
  {
    var values, sets, made := DeliveriesFollow(states, labels, item);
    LatestWins(values, sets, made, n);
    if exists k: nat :: IsLatest(sets, k, n) {
      var k: nat :| IsLatest(sets, k, n);
      ItemsArrive(states, labels, k, item);
      if m: nat :| m < n && labels[m].Commit? && ArrivedBefore(labels, item, m) {
        assert m <= k;
        assert ArrivedBefore(labels, item, k);
      }
    }
  }

  /** Something has arrived that no model call has delivered. */
  ghost predicate HasNews(labels: seq<Label>, n: nat) {
    exists item :: ArrivedBefore(labels, item, n) && !DeliveredBefore(labels, item, n)
  }

  lemma NewsIsUndelivered(states: seq<State>, labels: seq<Label>, n: nat)
    requires IsTrace(states, labels) && states[0].arrived == states[0].delivered == {} && n <= |labels|
    ensures Undelivered(states[n]) != {} <==> HasNews(labels, n)
  {
    if Undelivered(states[n]) != {} {
      var item :| item in Undelivered(states[n]);
      ItemsArrive(states, labels, n, item);
      ItemsAreDelivered(states, labels, n, item);
    }
    if HasNews(labels, n) {
      var item :| ArrivedBefore(labels, item, n) && !DeliveredBefore(labels, item, n);
      ItemsArrive(states, labels, n, item);
      ItemsAreDelivered(states, labels, n, item);
      assert item in Undelivered(states[n]);
    }
  }

  // ---- Checks and ended turns ----

  lemma {:induction false} ClockIsLength(states: seq<State>, labels: seq<Label>, n: nat)
    requires IsTrace(states, labels) && n <= |labels|
    ensures states[n].clock == states[0].clock + n
  {
    if n > 0 {
      ClockIsLength(states, labels, n - 1);
      StepSets(states[n - 1], labels[n - 1]);
    }
  }

  ghost predicate LatestCheck(labels: seq<Label>, k: nat, n: nat) {
    k < n <= |labels| && labels[k].DoCheck? && forall m :: k < m < n ==> !labels[m].DoCheck?
  }

  /**
   * Main result: a check answers yes exactly when it could be made, no question was open, and something had arrived
   * that no model call had delivered; its task decides by that answer, and the state remembers the latest check.
   */
  lemma ChecksAnswerTheRun(states: seq<State>, labels: seq<Label>, question: Option<nat>, k: nat, n: nat)
    requires IsTrace(states, labels) && states[0] == Init(question) && LatestCheck(labels, k, n)
    ensures labels[k].i < |states[k + 1].tasks|
    ensures var answer := labels[k].made && states[k].question.None? && HasNews(labels, k);
            && states[k + 1].tasks[labels[k].i].pc == Decided(answer)
            && states[n].lastCheck == Some(Check(k, labels[k].made, answer, states[k].question, states[k].arrived))
  {
    var values := seq(|states|, j requires 0 <= j < |states| => states[j].lastCheck);
    var sets := seq(|labels|, j requires 0 <= j < |labels| => labels[j].DoCheck?);
    var made := seq(|labels|, j requires 0 <= j < |labels| => states[j + 1].lastCheck);
    forall j | 0 <= j < |sets| ensures values[j + 1] == if sets[j] then made[j] else values[j] {
      StepChecks(states[j], labels[j]);
    }
    LatestWins(values, sets, made, n);
    assert IsLatest(sets, k, n);
    StepChecks(states[k], labels[k]);
    ClockIsLength(states, labels, k);
    NewsIsUndelivered(states, labels, k);
  }

  ghost predicate LatestTurnEnd(states: seq<State>, labels: seq<Label>, k: nat, n: nat)
    requires |states| == |labels| + 1
  {
    k < n <= |labels| && EndsTurn(states[k], labels[k]) && forall m :: k < m < n ==> !EndsTurn(states[m], labels[m])
  }

  /** The state remembers when the latest started user turn ended, and nothing when none has. */
  lemma TurnEndIsTheLatest(states: seq<State>, labels: seq<Label>, n: nat)
    requires IsTrace(states, labels) && n <= |labels|
    ensures forall k: nat :: LatestTurnEnd(states, labels, k, n) ==> states[n].lastTurnEnd == Some(states[k].clock)
    ensures (forall k :: 0 <= k < n ==> !EndsTurn(states[k], labels[k])) ==>
              states[n].lastTurnEnd == states[0].lastTurnEnd
  {
    var values := seq(|states|, k requires 0 <= k < |states| => states[k].lastTurnEnd);
    var sets := seq(|labels|, k requires 0 <= k < |labels| => EndsTurn(states[k], labels[k]));
    var made := seq(|labels|, k requires 0 <= k < |labels| => Some(states[k].clock));
    forall k | 0 <= k < |sets| ensures values[k + 1] == if sets[k] then made[k] else values[k] {
      StepSets(states[k], labels[k]);
    }
    LatestWins(values, sets, made, n);
    forall k: nat | LatestTurnEnd(states, labels, k, n) ensures states[n].lastTurnEnd == Some(states[k].clock) {
      assert IsLatest(sets, k, n);
    }
  }

  predicate StartsWakeRun(s: State, l: Label) {
    l.Commit? && l.i < |s.tasks| && s.tasks[l.i].kind == Wake && s.tasks[l.i].pc == Running(false)
  }

  /** How many of the first `n` labels are first model calls of wake runs. */
  ghost function WakeRuns(states: seq<State>, labels: seq<Label>, n: nat): nat
    requires |states| == |labels| + 1 && n <= |labels|
  {
    if n == 0 then 0
    else WakeRuns(states, labels, n - 1) + if StartsWakeRun(states[n - 1], labels[n - 1]) then 1 else 0
  }

  /** The wake runs counted are those. */
  lemma {:induction false} WakeRunsAreCounted(states: seq<State>, labels: seq<Label>, n: nat)
    requires IsTrace(states, labels) && n <= |labels|
    ensures states[n].wakeCommits == states[0].wakeCommits + WakeRuns(states, labels, n)
  {
    if n > 0 {
      WakeRunsAreCounted(states, labels, n - 1);
      CommitsStep(states[n - 1], labels[n - 1]);
    }
  }

  lemma CommitsStep(s: State, l: Label)
    requires Enabled(s, l)
    ensures Next(s, l).wakeCommits == s.wakeCommits + if StartsWakeRun(s, l) then 1 else 0
  {
  }

  // ---- Where a task is ----

  predicate IsStepOf(l: Label, i: nat) {
    !IsExternal(l) && l.i == i
  }

  /** Where a step takes its task, `answer` being what its check answers. */
  function PlaceAfter(kind: Kind, l: Label, answer: bool): Pc
    requires !IsExternal(l)
  {
    match l
    case Start(_) => Waiting
    case Acquire(_) => if kind == Turn then Running(false) else Checking
    case DoCheck(_, _) => Decided(answer)
    case Proceed(_) => Running(false)
    case Commit(_) => Running(true)
    case Stop(_, _, raised) => Stopped(!raised)
    case _ => Done
  }

  /** The place of task `i`: Created while it is still to come. */
  function PlaceOf(s: State, i: nat): Pc {
    if i < |s.tasks| then s.tasks[i].pc else Created
  }

  lemma StepPlacesTask(s: State, l: Label, i: nat)
    requires Enabled(s, l)
    ensures PlaceOf(Next(s, l), i) ==
            if IsStepOf(l, i) then
              PlaceAfter(s.tasks[i].kind, l, Next(s, l).lastCheck.Some? && Next(s, l).lastCheck.value.answer)
            else PlaceOf(s, i)
  {
    if IsEnding(s, l) {
      var ended := Finish(s, l.i, false);
      assert ended.tasks == s.tasks[l.i := s.tasks[l.i].(pc := Done)];
    }
  }

  ghost predicate LatestStepOf(labels: seq<Label>, i: nat, k: nat, n: nat) {
    k < n <= |labels| && IsStepOf(labels[k], i) && forall m :: k < m < n ==> !IsStepOf(labels[m], i)
  }

  /** A task is where its latest step took it, and has not started if it has made none. */
  lemma PlaceIsTheLatestSteps(states: seq<State>, labels: seq<Label>, i: nat, n: nat)
    requires IsTrace(states, labels) && states[0].tasks == [] && n <= |labels|
    ensures forall k: nat :: LatestStepOf(labels, i, k, n) ==>
              i < |states[k].tasks|
              && PlaceOf(states[n], i) ==
                 PlaceAfter(states[k].tasks[i].kind, labels[k],
                            states[k + 1].lastCheck.Some? && states[k + 1].lastCheck.value.answer)
    ensures (forall k :: 0 <= k < n ==> !IsStepOf(labels[k], i)) ==> PlaceOf(states[n], i) == Created
  {
    var values := seq(|states|, k requires 0 <= k < |states| => PlaceOf(states[k], i));
    var sets := seq(|labels|, k requires 0 <= k < |labels| => IsStepOf(labels[k], i));
    var made := seq(|labels|, k requires 0 <= k < |labels| => PlaceOf(states[k + 1], i));
    forall k | 0 <= k < |sets| ensures values[k + 1] == if sets[k] then made[k] else values[k] {
      StepPlacesTask(states[k], labels[k], i);
    }
    LatestWins(values, sets, made, n);
    forall k: nat | LatestStepOf(labels, i, k, n)
      ensures i < |states[k].tasks|
              && PlaceOf(states[n], i) ==
                 PlaceAfter(states[k].tasks[i].kind, labels[k],
                            states[k + 1].lastCheck.Some? && states[k + 1].lastCheck.value.answer)
    {
      assert IsLatest(sets, k, n);
      StepPlacesTask(states[k], labels[k], i);
    }
  }

  predicate HasStarted(s: State, i: nat) {
    PlaceOf(s, i) != Created && PlaceOf(s, i) != Done
  }

  lemma StepStartsInOrder(s: State, l: Label, i: nat, j: nat)
    requires Enabled(s, l) && j < i && HasStarted(Next(s, l), i) && (HasStarted(s, i) ==> PlaceOf(s, j) != Created)
    ensures PlaceOf(Next(s, l), j) != Created
  {
    StepPlacesTask(s, l, i);
    StepPlacesTask(s, l, j);
  }

  /** Tasks start in the order they were made: behind one that has started none is still to start. */
  lemma {:induction false} TasksStartInOrder(states: seq<State>, labels: seq<Label>, n: nat, i: nat, j: nat)
    requires IsTrace(states, labels) && states[0].tasks == [] && n <= |labels|
    requires j < i && PlaceOf(states[n], i) != Created && PlaceOf(states[n], i) != Done
    ensures PlaceOf(states[n], j) != Created
  {
    if HasStarted(states[n - 1], i) { TasksStartInOrder(states, labels, n - 1, i, j); }
    StepStartsInOrder(states[n - 1], labels[n - 1], i, j);
  }
}
