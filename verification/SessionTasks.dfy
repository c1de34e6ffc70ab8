/**
 * `SessionState` (api/routers/sessions.py) as the object its tasks share: each uninterrupted stretch of code that
 * reassigns the slot, the lock or a task does to the object what the state machine of module Sessions says.
 */
module SessionTasks {
  import opened Wrappers
  import S = Sessions

  class SessionState {
    var tasks: seq<S.Task>
    var task: Option<nat>
    var lockHolder: Option<nat>

    ghost predicate Matches(s: S.State)
      reads this
    {
      tasks == s.tasks && task == s.current && lockHolder == s.holder
    }

    constructor ()
      ensures forall question :: Matches(S.Init(question))
    {
      tasks, task, lockHolder := [], None, None;
    }

    /** `asyncio.create_task`, kept in `state.task`. */
    method CreateTask(kind: S.Kind, ghost s: S.State)
      requires Matches(s)
      modifies this
      ensures Matches(S.Spawn(s, kind))
    {
      task := Some(|tasks|);
      tasks := tasks + [S.Task(kind, S.Created, false)];
    }

    method ScheduleWake(ghost s: S.State)
      requires Matches(s)
      modifies this
      ensures Matches(S.ScheduleWake(s))
    {
      if task.Some? && task.value < |tasks| && tasks[task.value].pc != S.Done {
        return;
      }
      CreateTask(S.Wake, s);
    }

    /** A request: a notice, a turn, or the first request to this harness for the session with neither. */
    method HandleMessage(isNotice: bool, hasContent: bool, isNew: bool, ghost s: S.State)
      requires Matches(s)
      modifies this
      ensures Matches(if isNotice then S.Next(s, S.Notice)
                      else if hasContent then S.Next(s, S.Message)
                      else if isNew then S.Next(s, S.Notice)
                      else s)
    {
      if isNotice {
        ScheduleWake(s);
        return;
      }
      if hasContent {
        CreateTask(S.Turn, s);
      } else if isNew {
        ScheduleWake(s);
      }
    }

    method Cancel(ghost s: S.State) returns (cancelled: bool)
      requires Matches(s)
      modifies this
      ensures Matches(S.Next(s, S.Cancel))
      ensures cancelled == S.CurrentIsLive(s)
    {
      cancelled := task.Some? && task.value < |tasks| && tasks[task.value].pc != S.Done;
      if cancelled {
        tasks := tasks[task.value := tasks[task.value].(cancelling := true)];
      }
    }

    method AcquireLock(i: nat, ghost s: S.State)
      requires Matches(s) && S.Enabled(s, S.Acquire(i))
      modifies this
      ensures Matches(S.Next(s, S.Acquire(i)))
    {
      lockHolder := Some(i);
      tasks := tasks[i := tasks[i].(pc := if tasks[i].kind == S.Turn then S.Running(false) else S.Checking)];
    }

    /** The way out of `async with turn_lock`, and the finally block behind it. */
    method End(i: nat, wakeAgain: bool, ghost s: S.State)
      requires Matches(s) && i < |tasks|
      modifies this
      ensures Matches(S.Finish(s, i, wakeAgain))
    {
      tasks := tasks[i := tasks[i].(pc := S.Done)];
      if lockHolder == Some(i) {
        lockHolder := None;
      }
      if task == Some(i) {
        task := None;
        if wakeAgain {
          ScheduleWake(S.Finish(s, i, false));
        }
      }
    }

    /** A cancelled task's end; one that had not started runs no code at all. */
    method EndCancelled(i: nat, question: Option<nat>, ghost s: S.State)
      requires Matches(s) && S.Enabled(s, S.Interrupt(i, question))
      modifies this
      ensures Matches(S.Next(s, S.Interrupt(i, question)))
    {
      if tasks[i].pc == S.Created {
        tasks := tasks[i := tasks[i].(pc := S.Done)];
      } else {
        End(i, tasks[i].kind == S.Turn, s);
      }
    }

    /** A user turn schedules a wake however it ended. */
    method EndTurn(i: nat, ghost s: S.State)
      requires Matches(s) && S.Enabled(s, S.Exit(i)) && s.tasks[i].kind == S.Turn
      modifies this
      ensures Matches(S.Next(s, S.Exit(i)))
    {
      End(i, true, s);
    }

    /** A wake schedules the next one only when its run returned. */
    method EndWake(i: nat, ranCleanly: bool, ghost s: S.State)
      requires Matches(s) && S.Enabled(s, S.Exit(i)) && s.tasks[i].kind == S.Wake
      requires ranCleanly == (s.tasks[i].pc == S.Stopped(true))
      modifies this
      ensures Matches(S.Next(s, S.Exit(i)))
    {
      End(i, ranCleanly, s);
    }
  }
}
