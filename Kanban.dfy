/** The task board's drag and drop (src/components/kanban/board.tsx): a
    task card dropped on a column, or on another card, takes that column's
    status. Drag events are the parameters `activeId` (the dragged card's
    id) and `over` (the id of what it is over, if anything); the columns and
    cards themselves are not modelled. */
module Kanban {
  import opened Common
  import opened Tasks

  /** The id of a column is its status text (`StatusOf`), and every
      status has its column. */
  lemma ColumnOfStatus(s: Status)
    ensures StatusOf(StatusText(s)) == Some(s)
  {
  }

  /** The status a drop onto `overId` asks for: the column's, or that of
      the card dropped on; nothing for an unknown id. */
  function TargetStatus(ts: seq<Task>, overId: string): (r: Option<Status>)
    ensures StatusOf(overId).Some? ==> r == StatusOf(overId)
    ensures StatusOf(overId).None? && FindBy(ts, TaskId, overId).Some? ==> r == Some(FindBy(ts, TaskId, overId).value.status)
    ensures r.None? <==> StatusOf(overId).None? && forall k :: 0 <= k < |ts| ==> ts[k].id != overId
  {
    if StatusOf(overId).Some? then StatusOf(overId)
    else
      var overTask := FindBy(ts, TaskId, overId);
      if overTask.Some? then Some(overTask.value.status) else None
  }

  /** The status update a drag end performs, if any. */
  function DropUpdate(ts: seq<Task>, activeId: string, over: Option<string>): (r: Option<Status>)
    ensures over.None? ==> r.None?
    ensures r.Some? ==> over.Some? && TargetStatus(ts, over.value) == r
    ensures r.Some? ==> FindBy(ts, TaskId, activeId).Some? && FindBy(ts, TaskId, activeId).value.status != r.value
    ensures over.Some? && TargetStatus(ts, over.value).Some? && FindBy(ts, TaskId, activeId).Some?
      && FindBy(ts, TaskId, activeId).value.status != TargetStatus(ts, over.value).value
      ==> r == TargetStatus(ts, over.value)
  {
    if over.None? then None
    else
      var newStatus := TargetStatus(ts, over.value);
      if newStatus.None? then None
      else
        var currentTask := FindBy(ts, TaskId, activeId);
        if currentTask.Some? && currentTask.value.status != newStatus.value then newStatus else None
  }

  /** Dropping a card on a column moves it there unless it is already in
      it; dropping it on a card of its own column does nothing. */
  lemma DropOnColumn(ts: seq<Task>, activeId: string, column: Status)
    requires FindBy(ts, TaskId, activeId).Some?
    ensures var current := FindBy(ts, TaskId, activeId).value.status;
      DropUpdate(ts, activeId, Some(StatusText(column))) == if current == column then None else Some(column)
  {
    ColumnOfStatus(column);
  }

  lemma DropOnSameColumnCard(ts: seq<Task>, activeId: string, overId: string)
    requires StatusOf(overId).None?
    requires FindBy(ts, TaskId, activeId).Some? && FindBy(ts, TaskId, overId).Some?
    requires FindBy(ts, TaskId, activeId).value.status == FindBy(ts, TaskId, overId).value.status
    ensures DropUpdate(ts, activeId, Some(overId)) == None
  {
  }

  /** A patch that only changes the status. */
  function StatusPatch(s: Status): (u: TaskPatch)
    ensures u.status == Some(s) && u.title.None? && u.priority.None? && u.id.None?
  {
    TaskPatch(None, None, None, None, Some(s), None, None, None, None, None, None)
  }

  class Board {
    var activeTask: Option<Task>
    var overId: Option<string>

    constructor ()
      ensures activeTask == None && overId == None
    {
      activeTask, overId := None, None;
    }

    /** The dragged card is remembered only when it is a known task. */
    method HandleDragStart(ts: seq<Task>, activeId: string)
      modifies this
      ensures FindBy(ts, TaskId, activeId).Some? ==> activeTask == FindBy(ts, TaskId, activeId)
      ensures FindBy(ts, TaskId, activeId).None? ==> activeTask == old(activeTask)
      ensures overId == old(overId)
    {
      var task := FindBy(ts, TaskId, activeId);
      if task.Some? {
        activeTask := task;
      }
    }

    /** `event.over?.id || null`. */
    method HandleDragOver(over: Option<string>)
      modifies this
      ensures overId == if over.Some? && over.value != "" then over else None
      ensures activeTask == old(activeTask)
    {
      overId := if over.Some? && over.value != "" then over else None;
    }

    /** Clears the drag state, then sends the status update `DropUpdate`
        decides on, if any, to the task store. */
    method HandleDragEnd(store: TaskStore, activeId: string, over: Option<string>, outcome: Outcome)
      requires store.Valid()
      modifies this, store
      ensures store.Valid()
      ensures store.isLoading == old(store.isLoading) && store.bloomTaskId == old(store.bloomTaskId)
      ensures activeTask == None && overId == None
      ensures var u := DropUpdate(old(store.tasks), activeId, over);
        && (u.None? ==> store.tasks == old(store.tasks) && store.error == old(store.error))
        && (u.Some? && outcome.Pass? ==> store.tasks == SortTasks(PatchMatching(old(store.tasks), activeId, StatusPatch(u.value)))
                                         && store.error == old(store.error))
        && (u.Some? && outcome.Fail? ==> store.tasks == old(store.tasks) && store.error == Some(outcome.message))
    {
      activeTask, overId := None, None;
      var tasks := store.tasks;
      var update := DropUpdate(tasks, activeId, over);
      if update.Some? {
        var _ := store.UpdateTask(activeId, StatusPatch(update.value), outcome);
      }
    }
  }
}
