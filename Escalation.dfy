/** The priority escalation check (src/store/usePriorityEscalation.ts): a
    high-priority task that is not completed and has not been touched for
    more than a day is flagged. `Date.now()` is the parameter `now`; the
    minute timer and the React hook wiring are not modelled. */
module Escalation {
  import opened Common
  import Tasks

  const Day := 86400000
  const InProgressWindow := 14400000

  /** The last time a task changed: its update time, else its creation
      time, else the epoch. */
  function LastUpdate(t: Tasks.Task): (ms: int)
    ensures t.updatedAt.Some? ==> ms == t.updatedAt.value
    ensures t.updatedAt.None? && t.createdAt.Some? ==> ms == t.createdAt.value
    ensures t.updatedAt.None? && t.createdAt.None? ==> ms == 0
  {
    if t.updatedAt.Some? then t.updatedAt.value
    else if t.createdAt.Some? then t.createdAt.value
    else 0
  }

  predicate Escalates(t: Tasks.Task, now: int) {
    t.priority == Tasks.High && now - LastUpdate(t) > Day && t.status != Tasks.Completed
  }

  /** The ids the check flags, as a set. */
  ghost function EscalatedIds(ts: seq<Tasks.Task>, now: int): set<string> {
    set k | 0 <= k < |ts| && Escalates(ts[k], now) :: ts[k].id
  }

  /** `checkEscalation`: a fresh set, filled by one pass over the tasks.
      The in-progress test has no effect and is left as a skipped branch. */
  method CheckEscalation(tasks: seq<Tasks.Task>, now: int) returns (escalated: set<string>)
    ensures forall id :: id in escalated <==>
      exists k :: 0 <= k < |tasks| && tasks[k].id == id && Escalates(tasks[k], now)
  {
    escalated := {};
    var i := 0;
    while i < |tasks|
      invariant 0 <= i <= |tasks|
      invariant forall id :: id in escalated <==>
        exists k :: 0 <= k < i && tasks[k].id == id && Escalates(tasks[k], now)
    {
      var task := tasks[i];
      var lastUpdate := LastUpdate(task);
      var timeDiff := now - lastUpdate;
      if task.priority == Tasks.High && timeDiff > Day && task.status != Tasks.Completed {
        escalated := escalated + {task.id};
      }
      if task.status == Tasks.InProgress && timeDiff > InProgressWindow {
      }
      i := i + 1;
    }
  }

  /** Exactly 24 hours is not yet overdue; one millisecond more is. */
  lemma StrictDay(t: Tasks.Task)
    requires t.priority == Tasks.High && t.status != Tasks.Completed
    ensures !Escalates(t, LastUpdate(t) + Day)
    ensures Escalates(t, LastUpdate(t) + Day + 1)
  {
  }

  /** Only 'high' escalates: critical, medium and low never do, nor does a
      completed task. */
  lemma OnlyHighEscalates(t: Tasks.Task, now: int)
    requires t.priority != Tasks.High || t.status == Tasks.Completed
    ensures !Escalates(t, now)
  {
  }

  /** The flagged ids are among the ids of the current tasks. */
  lemma EscalatedAreCurrent(ts: seq<Tasks.Task>, now: int, id: string)
    requires id in EscalatedIds(ts, now)
    ensures exists k :: 0 <= k < |ts| && ts[k].id == id
  {
  }

  /** The hook's state: the flagged set is replaced on every check. */
  class EscalationMonitor {
    var escalatedTaskIds: set<string>

    constructor ()
      ensures escalatedTaskIds == {}
    {
      escalatedTaskIds := {};
    }

    method Check(tasks: seq<Tasks.Task>, now: int)
      modifies this
      ensures escalatedTaskIds == EscalatedIds(tasks, now)
    {
      var s := CheckEscalation(tasks, now);
      escalatedTaskIds := s;
      assert forall id :: id in s <==> id in EscalatedIds(tasks, now);
    }
  }
}
