/**
 * The client-side task list store: its mutations change the list in place,
 * its getters are filters over it.
 */
module Tasks {
  import opened Base
  import opened RecordList

  datatype Task = Task(
    id: string,
    title: string,
    completed: bool,
    priority: string,
    category: string,
    dueDate: Option<int>)

  function TaskId(t: Task): string { t.id }

  /**
   * TOGGLE_TASK_STATUS on a list value: `find` the first task with the id and
   * negate its `completed` flag; an unknown id changes nothing.
   */
  function Toggled(s: seq<Task>, id: string): (r: seq<Task>)
    ensures |r| == |s|
    ensures forall j :: 0 <= j < |s| ==> r[j].id == s[j].id
    ensures forall j :: 0 <= j < |s| ==>
      r[j] == (if FindIndex(s, TaskId, id) == Some(j)
               then s[j].(completed := !s[j].completed) else s[j])
    ensures FindIndex(s, TaskId, id).None? ==> r == s
  {
    match FindIndex(s, TaskId, id)
    case None => s
    case Some(i) => s[i := s[i].(completed := !s[i].completed)]
  }

  /** Toggling the same id twice restores the list. */
  lemma ToggleTwice(s: seq<Task>, id: string)
    ensures Toggled(Toggled(s, id), id) == s
  {
    var t := Toggled(s, id);
    assert forall j :: 0 <= j < |s| ==> TaskId(t[j]) == TaskId(s[j]);
    FindIndexSameKeys(s, t, id);
  }

  /** Two lists with the same ids position by position have the same first match. */
  lemma FindIndexSameKeys(s: seq<Task>, t: seq<Task>, id: string)
    requires |s| == |t|
    requires forall j :: 0 <= j < |s| ==> TaskId(t[j]) == TaskId(s[j])
    ensures FindIndex(s, TaskId, id) == FindIndex(t, TaskId, id)
  {
    var a, b := FindIndex(s, TaskId, id), FindIndex(t, TaskId, id);
    if a.Some? && b.Some? {
      assert !(a.value < b.value) && !(b.value < a.value);
    }
  }

  predicate IsCompleted(t: Task) { t.completed }
  predicate IsPending(t: Task) { !t.completed }

  /** The completed and pending getters split the list: no task is in both and none is lost. */
  lemma CompletedPendingPartition(s: seq<Task>)
    ensures |Keep(s, IsCompleted)| + |Keep(s, IsPending)| == |s|
    ensures forall t :: t in Keep(s, IsCompleted) ==> t !in Keep(s, IsPending)
  {
    KeepPartition(s, IsCompleted, IsPending);
  }

  class TaskStore {
    var list: seq<Task>

    constructor ()
      ensures list == []
    {
      list := [];
    }

    /** SET_TASKS: the list restored from storage replaces the current one. */
    method SetTasks(tasks: seq<Task>)
      modifies this
      ensures list == tasks
    {
      list := tasks;
    }

    /** ADD_TASK: `push` onto the end. */
    method AddTask(t: Task)
      modifies this
      ensures |list| == |old(list)| + 1
      ensures list[..|old(list)|] == old(list) && list[|old(list)|] == t
    {
      list := list + [t];
    }

    /** UPDATE_TASK: the first task with the same id is replaced; otherwise nothing changes. */
    method UpdateTask(updated: Task)
      modifies this
      ensures list == ReplaceFirst(old(list), TaskId, updated)
    {
      var index := FindIndex(list, TaskId, updated.id);
      if index.Some? {
        list := list[index.value := updated];
      }
    }

    /** DELETE_TASK: every task with the id is filtered out, the rest keep their order. */
    method DeleteTask(id: string)
      modifies this
      ensures list == RemoveId(old(list), TaskId, id)
    {
      list := RemoveId(list, TaskId, id);
    }

    /** TOGGLE_TASK_STATUS: negate `completed` on the first task with the id. */
    method ToggleTaskStatus(id: string)
      modifies this
      ensures list == Toggled(old(list), id)
    {
      var index := FindIndex(list, TaskId, id);
      if index.Some? {
        var task := list[index.value];
        list := list[index.value := task.(completed := !task.completed)];
      }
    }

    /** Getter completedTasks. */
    function CompletedTasks(): (r: seq<Task>)
      reads this
      ensures forall j :: 0 <= j < |r| ==> r[j].completed && r[j] in list
      ensures forall j :: 0 <= j < |list| && list[j].completed ==> list[j] in r
    {
      Keep(list, IsCompleted)
    }

    /** Getter pendingTasks. */
    function PendingTasks(): (r: seq<Task>)
      reads this
      ensures forall j :: 0 <= j < |r| ==> !r[j].completed && r[j] in list
      ensures forall j :: 0 <= j < |list| && !list[j].completed ==> list[j] in r
    {
      Keep(list, IsPending)
    }

    /** Getter tasksByPriority. */
    function TasksByPriority(priority: string): (r: seq<Task>)
      reads this
      ensures forall j :: 0 <= j < |r| ==> r[j].priority == priority && r[j] in list
      ensures forall j :: 0 <= j < |list| && list[j].priority == priority ==> list[j] in r
    {
      Keep(list, (t: Task) => t.priority == priority)
    }

    /** Getter tasksByCategory. */
    function TasksByCategory(category: string): (r: seq<Task>)
      reads this
      ensures forall j :: 0 <= j < |r| ==> r[j].category == category && r[j] in list
      ensures forall j :: 0 <= j < |list| && list[j].category == category ==> list[j] in r
    {
      Keep(list, (t: Task) => t.category == category)
    }
  }
}
