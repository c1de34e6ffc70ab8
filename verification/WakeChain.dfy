/**
 * The chain of wake-up runs (api/routers/sessions.py, core/execution/executor.py): how many there can be, and when a
 * session comes to rest.
 */
module WakeChain {
  import opened Wrappers
  import opened Sequences
  import opened Sessions

  // ---- Every wake run that commits reports something new ----

  /**
   * Wake runs that commit their first before-model step are never more than the reports and finished jobs
   * delivered.
   */
  lemma WakeRunsAreBounded(s: State)
    requires Reachable(s)
    ensures s.wakeCommits <= |s.delivered| <= |s.arrived|
  {
    ReachableIsInv(s);
    DeliveryGrows(s);
  }

  // ---- A session comes to rest ----

  /** How many more steps a task can cause, a wake scheduled at its end included. */
  function Remaining(t: Task): nat {
    match t.pc
    case Created => if t.kind == Wake then 7 else 12
    case Waiting => if t.kind == Wake then 6 else 11
    case Checking => 5
    case Decided(yes) => if yes then 4 else 1
    case Running(committed) => if committed then 9 else if t.kind == Wake then 3 else 10
    case Stopped(clean) => if clean || t.kind == Turn then 8 else 1
    case Done => 0
  }

  function Total(tasks: seq<Task>): nat {
    if tasks == [] then 0 else Remaining(tasks[0]) + Total(tasks[1..])
  }

  lemma {:induction false} TotalAfterUpdate(tasks: seq<Task>, i: nat, t: Task)
    requires i < |tasks|
    ensures Total(tasks[i := t]) == Total(tasks) - Remaining(tasks[i]) + Remaining(t)
  {
    if i > 0 {
      TotalAfterUpdate(tasks[1..], i - 1, t);
      assert tasks[i := t][1..] == tasks[1..][i - 1 := t];
    }
  }

  lemma {:induction false} TotalAfterAppend(tasks: seq<Task>, t: Task)
    ensures Total(tasks + [t]) == Total(tasks) + Remaining(t)
  {
    if tasks != [] {
      TotalAfterAppend(tasks[1..], t);
      assert (tasks + [t])[1..] == tasks[1..] + [t];
    }
  }

  function Measure(s: State): nat {
    Total(s.tasks) + 7 * |Undelivered(s)|
  }

  /**
   * A wake run that returns without having committed its first before-model step: a graph error turned into a
   * return.
   */
  predicate FailsQuietly(s: State, l: Label) {
    l.Stop? && !l.raised && l.i < |s.tasks| && s.tasks[l.i].kind == Wake && s.tasks[l.i].pc == Running(false)
  }

  lemma SpawnMeasure(s: State, kind: Kind)
    ensures Measure(Spawn(s, kind)) == Measure(s) + if kind == Wake then 7 else 12
  {
    TotalAfterAppend(s.tasks, Task(kind, Created, false));
  }

  lemma FinishMeasure(s: State, i: nat, wakeAgain: bool)
    requires i < |s.tasks|
    ensures Measure(Finish(s, i, wakeAgain)) <= Measure(s) - Remaining(s.tasks[i]) + if wakeAgain then 7 else 0
  {
    TotalAfterUpdate(s.tasks, i, s.tasks[i].(pc := Done));
    var ended := Finish(s, i, false);
    assert Undelivered(ended) == Undelivered(s);
    SpawnMeasure(ended, Wake);
  }

  lemma ExitMeasure(s: State, i: nat)
    requires Inv(s) && Enabled(s, Exit(i))
    ensures Measure(Effect(s, Exit(i))) < Measure(s)
  {
    FinishMeasure(s, i, s.tasks[i].kind == Turn || s.tasks[i].pc == Stopped(true));
    assert TaskOk(s, i);
  }

  lemma InterruptBeforeStartMeasure(s: State, i: nat, question: Option<nat>)
    requires Enabled(s, Interrupt(i, question)) && s.tasks[i].pc == Created
    ensures Measure(Effect(s, Interrupt(i, question))) < Measure(s)
  {
    TotalAfterUpdate(s.tasks, i, s.tasks[i].(pc := Done));
    assert Undelivered(Effect(s, Interrupt(i, question))) == Undelivered(s);
  }

  lemma QuestionMeasure(s: State, question: Option<nat>)
    ensures Measure(s.(question := question)) == Measure(s)
  {
    assert Undelivered(s.(question := question)) == Undelivered(s);
  }

  lemma InterruptMeasure(s: State, i: nat, question: Option<nat>)
    requires Inv(s) && Enabled(s, Interrupt(i, question)) && s.tasks[i].pc != Created
    ensures Measure(Effect(s, Interrupt(i, question))) < Measure(s)
  {
    var t := s.tasks[i];
    assert TaskOk(s, i);
    FinishMeasure(s, i, t.kind == Turn);
    QuestionMeasure(Finish(s, i, t.kind == Turn), if t.pc.Running? then question else s.question);
  }

  lemma CommitMeasure(s: State, i: nat)
    requires Inv(s) && Enabled(s, Commit(i))
    ensures Measure(Effect(s, Commit(i))) < Measure(s)
  {
    assert TaskOk(s, i);
    TotalAfterUpdate(s.tasks, i, s.tasks[i].(pc := Running(true)));
    assert Undelivered(Effect(s, Commit(i))) == {};
  }

  lemma TaskStepMeasure(s: State, l: Label)
    requires Inv(s) && Enabled(s, l) && !IsExternal(l) && !FailsQuietly(s, l)
    requires !l.Exit? && !l.Interrupt? && !l.Commit?
    ensures Measure(Effect(s, l)) < Measure(s)
  {
    var after := Effect(s, l);
    assert TaskOk(s, l.i);
    TotalAfterUpdate(s.tasks, l.i, after.tasks[l.i]);
    assert after.tasks == s.tasks[l.i := after.tasks[l.i]];
    assert Undelivered(after) == Undelivered(s);
  }

  lemma ExternalMeasure(s: State, l: Label)
    requires Inv(s) && IsExternal(l)
    ensures Measure(Effect(s, l)) <= Measure(s) + 12
  {
    SpawnMeasure(s, Turn);
    SpawnMeasure(s, Wake);
    if l.Arrive? {
      assert Undelivered(Effect(s, l)) <= Undelivered(s) + {l.item};
      SubsetCardinality(Undelivered(Effect(s, l)), Undelivered(s) + {l.item});
    } else if l.Cancel? && CurrentIsLive(s) {
      var i := s.current.value;
      TotalAfterUpdate(s.tasks, i, s.tasks[i].(cancelling := true));
    }
  }

  /** What a quiet failure costs: the next wake is scheduled although nothing was delivered. */
  lemma QuietMeasure(s: State, l: Label)
    requires Enabled(s, l) && FailsQuietly(s, l)
    ensures Measure(Effect(s, l)) == Measure(s) + 5
  {
    TotalAfterUpdate(s.tasks, l.i, s.tasks[l.i].(pc := Stopped(true)));
    assert Undelivered(Effect(s, l)) == Undelivered(s);
  }

  /** What a step may add to the measure, itself included: twelve for an outside event, six for a quiet failure. */
  function Allowance(s: State, l: Label): nat {
    if IsExternal(l) then 12 else if FailsQuietly(s, l) then 6 else 0
  }

  lemma StepMeasure(s: State, l: Label)
    requires Inv(s) && Enabled(s, l)
    ensures Measure(Next(s, l)) + (if IsExternal(l) then 0 else 1) <= Measure(s) + Allowance(s, l)
  {
    if IsExternal(l) {
      ExternalMeasure(s, l);
    } else if FailsQuietly(s, l) {
      QuietMeasure(s, l);
    } else if l.Exit? {
      ExitMeasure(s, l.i);
    } else if l.Interrupt? {
      if s.tasks[l.i].pc == Created {
        InterruptBeforeStartMeasure(s, l.i, l.question);
      } else {
        InterruptMeasure(s, l.i, l.question);
      }
    } else if l.Commit? {
      CommitMeasure(s, l.i);
    } else {
      TaskStepMeasure(s, l);
    }
    assert Measure(Next(s, l)) == Measure(Effect(s, l));
  }

  function CountExternal(labels: seq<Label>): (n: nat)
    ensures n <= |labels|
  {
    if labels == [] then 0
    else CountExternal(labels[..|labels| - 1]) + if IsExternal(labels[|labels| - 1]) then 1 else 0
  }

  /** How many wake runs of a run fail quietly. */
  function CountQuiet(start: State, labels: seq<Label>): (n: nat)
    ensures n + CountExternal(labels) <= |labels|
  {
    if labels == [] then 0
    else
      var init, l := labels[..|labels| - 1], labels[|labels| - 1];
      CountQuiet(start, init) + if Run(start, init).Some? && FailsQuietly(Run(start, init).value, l) then 1 else 0
  }

  /** In every run each request or arrival causes at most twelve steps of tasks, and each quiet failure at most six. */
  lemma {:induction false} StepsAreBounded(question: Option<nat>, labels: seq<Label>)
    requires Run(Init(question), labels).Some?
    ensures |labels| - CountExternal(labels) + Measure(Run(Init(question), labels).value)
            <= 12 * CountExternal(labels) + 6 * CountQuiet(Init(question), labels)
    decreases |labels|
  {
    if labels == [] {
      assert Undelivered(Init(question)) == {};
    } else {
      var init := labels[..|labels| - 1];
      StepsAreBounded(question, init);
      RunsKeepInv(Init(question), init);
      StepMeasure(Run(Init(question), init).value, labels[|labels| - 1]);
    }
  }

  ghost predicate AreRuns(question: Option<nat>, runs: iset<seq<Label>>, events: nat) {
    forall labels :: labels in runs ==> Run(Init(question), labels).Some? && CountExternal(labels) <= events
  }

  ghost predicate NoLongerThan(runs: iset<seq<Label>>, n: nat) {
    forall labels :: labels in runs ==> |labels| <= n
  }

  ghost predicate NoQuieterThan(question: Option<nat>, runs: iset<seq<Label>>, n: nat) {
    forall labels :: labels in runs ==> CountQuiet(Init(question), labels) <= n
  }

  /**
   * Main result: a session with finitely many requests and arrivals comes to rest exactly when its quiet failures are
   * bounded. Of any runs with at most `events` of them, the lengths have a bound if and only if the numbers of quiet
   * failures have one.
   */
  lemma SessionComesToRestIff(question: Option<nat>, runs: iset<seq<Label>>, events: nat)
    requires AreRuns(question, runs, events)
    ensures (exists n: nat :: NoLongerThan(runs, n)) <==> (exists q: nat :: NoQuieterThan(question, runs, q))
  {
    if n: nat :| NoLongerThan(runs, n) {
      assert NoQuieterThan(question, runs, n);
    }
    if q: nat :| NoQuieterThan(question, runs, q) {
      forall labels | labels in runs ensures |labels| <= 13 * events + 6 * q {
        StepsAreBounded(question, labels);
      }
      assert NoLongerThan(runs, 13 * events + 6 * q);
    }
  }

  /** The step by which the earliest live task moves on. */
  function NextStep(s: State, i: nat): Label
    requires i < |s.tasks|
  {
    var t := s.tasks[i];
    if t.cancelling then Interrupt(i, s.question)
    else
      match t.pc
      case Created => Start(i)
      case Waiting => Acquire(i)
      case Checking => DoCheck(i, true)
      case Decided(yes) => if yes then Proceed(i) else Exit(i)
      case Running(committed) => if committed then Stop(i, None, false) else Commit(i)
      case _ => Exit(i)
  }

  lemma EarliestCanStep(s: State, i: nat)
    requires Inv(s) && i < |s.tasks| && Live(s.tasks[i]) && forall j :: 0 <= j < i ==> !Live(s.tasks[j])
    ensures Enabled(s, NextStep(s, i)) && !IsExternal(NextStep(s, i)) && !FailsQuietly(s, NextStep(s, i))
  {
    assert TaskOk(s, i);
    if s.holder.Some? { assert TaskOk(s, s.holder.value); }
  }

  /** No deadlock: while any task is live, the earliest of them can step, so a session at rest has none. */
  lemma SomeTaskCanStep(s: State, i: nat)
    requires Reachable(s) && i < |s.tasks| && Live(s.tasks[i])
    ensures exists j: nat :: j <= i && Enabled(s, NextStep(s, j)) && !IsExternal(NextStep(s, j))
                             && !FailsQuietly(s, NextStep(s, j))
    decreases i
  {
    if j: nat :| j < i && Live(s.tasks[j]) {
      SomeTaskCanStep(s, j);
    } else {
      ReachableIsInv(s);
      EarliestCanStep(s, i);
    }
  }

  // ---- What a step changes ----

  /** A step that ends its task and releases what it holds; a task cancelled before it started holds nothing. */
  predicate IsEnding(s: State, l: Label) {
    l.Exit? || (l.Interrupt? && l.i < |s.tasks| && s.tasks[l.i].pc != Created)
  }

  /** What a task's other steps change: that task's place, and the latest check if it checks. */
  lemma StepMoves(s: State, l: Label)
    requires Enabled(s, l) && !IsExternal(l) && !IsEnding(s, l)
    ensures var after := Next(s, l);
            && |after.tasks| == |s.tasks| && after.tasks == s.tasks[l.i := after.tasks[l.i]]
            && after.tasks[l.i] == s.tasks[l.i].(pc := after.tasks[l.i].pc)
            && after.current == s.current && after.lastTurnEnd == s.lastTurnEnd && after.clock == s.clock + 1
            && (!l.DoCheck? ==> after.lastCheck == s.lastCheck)
            && (l.DoCheck? ==> after.lastCheck.Some? && after.lastCheck.value.time == s.clock)
  {
  }

  lemma EndMoves(s: State, l: Label)
    requires Inv(s) && Enabled(s, l) && IsEnding(s, l)
    ensures var after, t := Next(s, l), s.tasks[l.i];
            var again := s.current == Some(l.i)
                         && (t.kind == Turn || (l.Exit? && t.pc == Stopped(true)));
            && Live(t)
            && after.tasks == s.tasks[l.i := t.(pc := Done)] + (if again then [Task(Wake, Created, false)] else [])
            && after.current == (if again then Some(|s.tasks|) else if s.current == Some(l.i) then None else s.current)
            && after.lastTurnEnd == (if t.kind == Turn then Some(s.clock) else s.lastTurnEnd)
            && after.lastCheck == s.lastCheck && after.clock == s.clock + 1
  {
    assert TaskOk(s, l.i);
  }

  // ---- Runs to rest ----

  ghost predicate AtRest(s: State) {
    forall i :: 0 <= i < |s.tasks| ==> s.tasks[i].pc == Done
  }

  ghost predicate HasNoCancel(labels: seq<Label>) {
    forall l :: l in labels ==> !l.Cancel?
  }

  lemma RunOne(s: State, l: Label)
    requires Enabled(s, l)
    ensures Run(s, [l]) == Some(Next(s, l))
  {
    assert [l][..0] == [];
  }

  lemma {:induction false} RunMore(s: State, first: seq<Label>, second: seq<Label>)
    requires Run(s, first).Some?
    ensures Run(s, first + second) == Run(Run(s, first).value, second)
    decreases |second|
  {
    if second == [] {
      assert first + second == first;
    } else {
      RunMore(s, first, second[..|second| - 1]);
      assert (first + second)[..|first + second| - 1] == first + second[..|second| - 1];
    }
  }

  // ---- Quiet failures ----

  /** A run from an initial state, with how many of its labels are steps of tasks and how many come from outside. */
  datatype Path = Path(question: Option<nat>, labels: seq<Label>, internal: nat, external: nat, quiet: nat)

  ghost predicate LeadsTo(p: Path, s: State) {
    && Run(Init(p.question), p.labels) == Some(s)
    && CountExternal(p.labels) == p.external && |p.labels| == p.internal + p.external
    && CountQuiet(Init(p.question), p.labels) == p.quiet
  }

  ghost predicate Idle(s: State) {
    AtRest(s) && s.current.None? && s.holder.None? && s.question.None?
  }

  lemma Begin() returns (p: Path, s: State)
    ensures LeadsTo(p, s) && s.tasks == [] && Idle(s) && s.lastCheck.None? && s.arrived == s.delivered == {}
  {
    p, s := Path(None, [], 0, 0, 0), Init(None);
  }

  lemma Extend(p: Path, s: State, l: Label) returns (longer: Path, end: State)
    requires LeadsTo(p, s) && Enabled(s, l)
    ensures end == Next(s, l) && LeadsTo(longer, end)
    ensures longer.internal == p.internal + if IsExternal(l) then 0 else 1
    ensures longer.external == p.external + if IsExternal(l) then 1 else 0
    ensures longer.quiet == p.quiet + if FailsQuietly(s, l) then 1 else 0
  {
    var more := p.labels + [l];
    assert more[..|more| - 1] == p.labels;
    end := Next(s, l);
    longer := Path(p.question, more, p.internal + if IsExternal(l) then 0 else 1,
                   p.external + if IsExternal(l) then 1 else 0, p.quiet + if FailsQuietly(s, l) then 1 else 0);
  }

  /** Task `i` is the session's current task and the only live one. */
  ghost predicate OnlyLive(s: State, i: nat, t: Task) {
    && i < |s.tasks| && s.tasks[i] == t && Live(t) && s.current == Some(i)
    && (forall j :: 0 <= j < |s.tasks| && j != i ==> s.tasks[j].pc == Done)
    && s.holder == (if HoldsLock(t.pc) then Some(i) else None)
  }

  /** What a task's step leaves as it was. */
  ghost predicate SameItems(s: State, after: State) {
    && |after.tasks| == |s.tasks| && after.question == s.question
    && after.arrived == s.arrived && after.delivered == s.delivered
  }

  lemma WakeStarts(s: State, i: nat)
    requires OnlyLive(s, i, Task(Wake, Created, false))
    ensures Enabled(s, Start(i)) && OnlyLive(Next(s, Start(i)), i, Task(Wake, Waiting, false))
    ensures SameItems(s, Next(s, Start(i)))
  {
  }

  lemma WakeLocks(s: State, i: nat)
    requires OnlyLive(s, i, Task(Wake, Waiting, false))
    ensures Enabled(s, Acquire(i)) && OnlyLive(Next(s, Acquire(i)), i, Task(Wake, Checking, false))
    ensures SameItems(s, Next(s, Acquire(i)))
  {
  }

  lemma WakeDecides(s: State, i: nat)
    requires OnlyLive(s, i, Task(Wake, Checking, false))
    ensures var after := Next(s, DoCheck(i, true));
            && Enabled(s, DoCheck(i, true)) && SameItems(s, after)
            && OnlyLive(after, i, Task(Wake, Decided(s.question.None? && Undelivered(s) != {}), false))
            && after.lastCheck.Some? && after.lastCheck.value.made
            && after.lastCheck.value.answer == (s.question.None? && Undelivered(s) != {})
  {
  }

  /** A wake task, alone on the session, starts, takes the lock and checks. */
  lemma WakeChecks(p: Path, s: State, i: nat) returns (longer: Path, end: State)
    requires LeadsTo(p, s) && OnlyLive(s, i, Task(Wake, Created, false))
    ensures LeadsTo(longer, end) && longer.internal == p.internal + 3 && longer.external == p.external
    ensures longer.quiet == p.quiet && SameItems(s, end)
    ensures OnlyLive(end, i, Task(Wake, Decided(s.question.None? && Undelivered(s) != {}), false))
    ensures end.lastCheck.Some? && end.lastCheck.value.made
    ensures end.lastCheck.value.answer == (s.question.None? && Undelivered(s) != {})
  {
    WakeStarts(s, i);
    longer, end := Extend(p, s, Start(i));
    WakeLocks(end, i);
    longer, end := Extend(longer, end, Acquire(i));
    WakeDecides(end, i);
    longer, end := Extend(longer, end, DoCheck(i, true));
  }

  lemma WakeRuns(s: State, i: nat)
    requires OnlyLive(s, i, Task(Wake, Decided(true), false))
    ensures Enabled(s, Proceed(i)) && OnlyLive(Next(s, Proceed(i)), i, Task(Wake, Running(false), false))
    ensures SameItems(s, Next(s, Proceed(i)))
  {
  }

  lemma WakeReturns(s: State, i: nat)
    requires OnlyLive(s, i, Task(Wake, Running(false), false)) && s.question.None?
    ensures var stop := Stop(i, None, false);
            && Enabled(s, stop) && FailsQuietly(s, stop) && SameItems(s, Next(s, stop))
            && OnlyLive(Next(s, stop), i, Task(Wake, Stopped(true), false))
  {
  }

  lemma WakeSchedulesAnother(s: State, i: nat)
    requires OnlyLive(s, i, Task(Wake, Stopped(true), false)) && |s.tasks| == i + 1
    ensures var after := Next(s, Exit(i));
            && Enabled(s, Exit(i)) && |after.tasks| == i + 2 && OnlyLive(after, i + 1, Task(Wake, Created, false))
            && after.question == s.question && after.arrived == s.arrived && after.delivered == s.delivered
  {
  }

  /** A wake run returns from a graph error before its first model call, and the next wake is scheduled. */
  lemma WakeFailsQuietly(p: Path, s: State, i: nat) returns (longer: Path, end: State)
    requires LeadsTo(p, s) && |s.tasks| == i + 1
    requires s.question.None? && OnlyLive(s, i, Task(Wake, Decided(true), false))
    ensures LeadsTo(longer, end) && longer.internal == p.internal + 3 && longer.external == p.external
    ensures longer.quiet == p.quiet + 1
    ensures |end.tasks| == i + 2 && OnlyLive(end, i + 1, Task(Wake, Created, false))
    ensures end.question.None? && end.arrived == s.arrived && end.delivered == s.delivered
  {
    WakeRuns(s, i);
    longer, end := Extend(p, s, Proceed(i));
    WakeReturns(end, i);
    longer, end := Extend(longer, end, Stop(i, None, false));
    WakeSchedulesAnother(end, i);
    longer, end := Extend(longer, end, Exit(i));
  }

  /** A new wake is the only live task, and finds no question and an undelivered item. */
  ghost predicate IsAboutToWake(s: State, item: Item) {
    && 0 < |s.tasks| && OnlyLive(s, |s.tasks| - 1, Task(Wake, Created, false))
    && s.question.None? && item in s.arrived && item !in s.delivered
  }

  /** A whole failing wake: it checks, finds an undelivered item, and fails quietly. */
  lemma OneMoreFailure(p: Path, s: State, item: Item) returns (longer: Path, end: State)
    requires LeadsTo(p, s) && IsAboutToWake(s, item)
    ensures LeadsTo(longer, end) && longer.internal == p.internal + 6 && longer.external == p.external
    ensures longer.quiet == p.quiet + 1
    ensures |end.tasks| == |s.tasks| + 1 && IsAboutToWake(end, item) && end.delivered == s.delivered
  {
    var i := |s.tasks| - 1;
    assert item in Undelivered(s);
    longer, end := WakeChecks(p, s, i);
    longer, end := WakeFailsQuietly(longer, end, i);
  }

  lemma NoticeOnIdle(s: State)
    requires Idle(s)
    ensures var after := Next(s, Notice);
            && |after.tasks| == |s.tasks| + 1 && OnlyLive(after, |s.tasks|, Task(Wake, Created, false))
            && after.question.None? && after.arrived == s.arrived && after.delivered == s.delivered
  {
  }

  lemma FirstNotice(p: Path, s: State, item: Item) returns (longer: Path, end: State)
    requires LeadsTo(p, s) && Idle(s) && item !in s.delivered
    ensures LeadsTo(longer, end)
    ensures longer.internal == p.internal && longer.external == p.external + 2 && longer.quiet == p.quiet
    ensures |end.tasks| == |s.tasks| + 1 && IsAboutToWake(end, item) && end.delivered == s.delivered
  {
    longer, end := Extend(p, s, Arrive(item));
    assert Idle(end) && end.tasks == s.tasks;
    NoticeOnIdle(end);
    longer, end := Extend(longer, end, Notice);
  }

  /**
   * With quiet failures the chain has no bound, and the six cannot be lowered: on an idle session, after one report and
   * one notice, any number `n` of wake runs that each return from a graph error before their first model call, six
   * steps a run, with another about to start.
   */
  lemma {:induction false} FailingWakesNeverEnd(p: Path, s: State, item: Item, n: nat)
    returns (longer: Path, end: State)
    requires LeadsTo(p, s) && Idle(s) && item !in s.delivered
    ensures LeadsTo(longer, end) && longer.internal == p.internal + 6 * n && longer.external == p.external + 2
    ensures longer.quiet == p.quiet + n
    ensures |end.tasks| == |s.tasks| + n + 1 && IsAboutToWake(end, item) && end.delivered == s.delivered
  {
    if n == 0 {
      longer, end := FirstNotice(p, s, item);
    } else {
      longer, end := FailingWakesNeverEnd(p, s, item, n - 1);
      longer, end := OneMoreFailure(longer, end, item);
    }
  }
}
