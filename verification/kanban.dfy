/** The kanban board of one project: six fixed lanes, one per task status,
    each showing the project's tasks of that status in store order; dragging
    a card onto a lane moves the task to that lane's status. Rendering,
    animation and the drag library's collision detection are not modelled:
    a drop arrives as the dragged card's identifier and the identifier of
    whatever it was dropped on, if anything. */
module Kanban {
  import opened Types
  import opened StoreOps
  import opened AppState

  /** A lane of the board (its `label` is `name` here); the lane's identifier is its status. */
  datatype Column = Column(id: TaskStatus, name: string)

  /** The lanes, left to right. */
  const Columns: seq<Column> := [
    Column(Backlog, "Backlog"),
    Column(Todo, "To Do"),
    Column(InProgress, "In Progress"),
    Column(Review, "Review"),
    Column(Testing, "Testing"),
    Column(TaskStatus.Completed, "Completed")
  ]

  /** Six lanes in workflow order, one per status, each with a label. */
  lemma ColumnsAreLanes()
    ensures |Columns| == 6
    ensures forall j, k :: 0 <= j < k < |Columns| ==> Columns[j].id != Columns[k].id
    ensures forall k :: 0 <= k < |Columns| ==> |Columns[k].name| > 0
  {
  }

  /** The position of the lane for a status. */
  function ColumnIndex(s: TaskStatus): (k: nat)
    ensures k < |Columns| && Columns[k].id == s
    ensures forall j :: 0 <= j < |Columns| && Columns[j].id == s ==> j == k
  {
    match s
    case Backlog => 0
    case Todo => 1
    case InProgress => 2
    case Review => 3
    case Testing => 4
    case Completed => 5
  }

  /** `columns.find(col => col.id === overId)`: the status of the first lane
      whose identifier is `overId`, if any. */
  function ParseColumn(overId: string): (r: Option<TaskStatus>)
    ensures r.Some? ==> StatusName(r.value) == overId
  {
    FindColumn(overId, 0)
  }

  function FindColumn(overId: string, k: nat): (r: Option<TaskStatus>)
    requires k <= |Columns|
    ensures r.Some? ==> StatusName(r.value) == overId
    decreases |Columns| - k
  {
    if k == |Columns| then None
    else if StatusName(Columns[k].id) == overId then Some(Columns[k].id)
    else FindColumn(overId, k + 1)
  }

  /** Lane identifiers are told apart by their names. */
  lemma StatusNameInjective(s: TaskStatus, t: TaskStatus)
    ensures StatusName(s) == StatusName(t) ==> s == t
  {
    if s != t {
      var a, b := StatusName(s), StatusName(t);
      assert |a| != |b| || a[0] != b[0];
    }
  }

  /** A drop target is a lane exactly when its identifier is a status name,
      and then it is that status's lane. */
  lemma ParseColumnExact(overId: string, s: TaskStatus)
    ensures ParseColumn(overId) == Some(s) <==> overId == StatusName(s)
  {
    if overId == StatusName(s) {
      var k := ColumnIndex(s);
      FindsFrom(overId, s, 0, k);
    }
  }

  lemma {:induction false} FindsFrom(overId: string, s: TaskStatus, j: nat, k: nat)
    requires j <= k < |Columns| && Columns[k].id == s && StatusName(s) == overId
    ensures FindColumn(overId, j) == Some(s)
    decreases k - j
  {
    if j < k {
      if StatusName(Columns[j].id) == overId {
        StatusNameInjective(Columns[j].id, s);
      } else {
        FindsFrom(overId, s, j + 1, k);
      }
    }
  }

  /** `projectTasks`: the tasks of one project, in store order. */
  function ProjectTasks(ts: seq<Task>, projectId: Id): (r: seq<Task>)
    ensures forall t :: t in r <==> t in ts && t.projectId == projectId
  {
    var keep := (t: Task) => t.projectId == projectId;
    FilterMembers(keep, ts);
    Filter(keep, ts)
  }

  /** `getTasksByStatus`: the project tasks of one status, in their order. */
  function TasksByStatus(projectTasks: seq<Task>, s: TaskStatus): (r: seq<Task>)
    ensures forall t :: t in r <==> t in projectTasks && t.status == s
    ensures forall t: Task :: t.status == s ==> multiset(r)[t] == multiset(projectTasks)[t]
  {
    var keep := (t: Task) => t.status == s;
    FilterMembers(keep, projectTasks);
    forall t: Task | t.status == s ensures multiset(Filter(keep, projectTasks))[t] == multiset(projectTasks)[t] {
      FilterMultiset(keep, projectTasks, t);
    }
    Filter(keep, projectTasks)
  }

  /** The lane's tasks in the order the board lists them. */
  lemma TasksByStatusOrder(a: seq<Task>, b: seq<Task>, s: TaskStatus)
    ensures TasksByStatus(a + b, s) == TasksByStatus(a, s) + TasksByStatus(b, s)
  {
    FilterAppend((t: Task) => t.status == s, a, b);
  }

  /** Every project task is in its own status's lane and in no other. */
  lemma OneLanePerTask(projectTasks: seq<Task>, t: Task, s: TaskStatus)
    requires t in projectTasks
    ensures t in TasksByStatus(projectTasks, s) <==> s == t.status
  {
  }

  /** Everything the first `n` lanes hold, as a multiset. */
  function LaneUnion(projectTasks: seq<Task>, n: nat): multiset<Task>
    requires n <= |Columns|
  {
    if n == 0 then multiset{}
    else LaneUnion(projectTasks, n - 1) + multiset(TasksByStatus(projectTasks, Columns[n - 1].id))
  }

  /** The lanes partition the project's tasks: together they hold each task
      exactly as often as the project does, so the lane counts add up to the
      number of project tasks. */
  lemma LanesPartition(projectTasks: seq<Task>)
    ensures LaneUnion(projectTasks, |Columns|) == multiset(projectTasks)
  {
    var all := LaneUnion(projectTasks, |Columns|);
    forall t: Task ensures all[t] == multiset(projectTasks)[t] {
      LaneCount(projectTasks, t, |Columns|);
    }
    assert all == multiset(projectTasks);
  }

  /** The number of tasks in the first `n` lanes. */
  function LaneSizes(projectTasks: seq<Task>, n: nat): nat
    requires n <= |Columns|
  {
    if n == 0 then 0 else LaneSizes(projectTasks, n - 1) + |TasksByStatus(projectTasks, Columns[n - 1].id)|
  }

  /** The lane counts shown in the column headers add up to the number of
      the project's tasks. */
  lemma LaneSizesSum(projectTasks: seq<Task>)
    ensures LaneSizes(projectTasks, |Columns|) == |projectTasks|
  {
    LanesPartition(projectTasks);
    LaneSizesUnion(projectTasks, |Columns|);
  }

  lemma {:induction false} LaneSizesUnion(projectTasks: seq<Task>, n: nat)
    requires n <= |Columns|
    ensures LaneSizes(projectTasks, n) == |LaneUnion(projectTasks, n)|
  {
    if n > 0 {
      LaneSizesUnion(projectTasks, n - 1);
    }
  }

  /** Over the first `n` lanes, a task is counted as often as the project
      holds it if its lane is among them, and not at all otherwise. */
  lemma {:induction false} LaneCount(projectTasks: seq<Task>, t: Task, n: nat)
    requires n <= |Columns|
    ensures LaneUnion(projectTasks, n)[t] ==
            if ColumnIndex(t.status) < n then multiset(projectTasks)[t] else 0
  {
    if n > 0 {
      LaneCount(projectTasks, t, n - 1);
      var s := Columns[n - 1].id;
      var lane := multiset(TasksByStatus(projectTasks, s));
      assert LaneUnion(projectTasks, n) == LaneUnion(projectTasks, n - 1) + lane;
      LaneMultiplicity(projectTasks, t, s);
      ColumnIndexAt(t.status, n - 1);
    }
  }

  lemma ColumnIndexAt(s: TaskStatus, j: nat)
    requires j < |Columns|
    ensures ColumnIndex(s) == j <==> Columns[j].id == s
  {
  }

  /** A lane holds a task as often as the project does when the task has
      the lane's status, and not at all otherwise. */
  lemma LaneMultiplicity(projectTasks: seq<Task>, t: Task, s: TaskStatus)
    ensures multiset(TasksByStatus(projectTasks, s))[t] ==
            if t.status == s then multiset(projectTasks)[t] else 0
  {
    if t.status != s {
      assert t !in TasksByStatus(projectTasks, s);
    }
  }

  /** `getCompletedSubtasks`: none for a task without subtasks, otherwise
      the number of completed ones. */
  function CompletedSubtasks(t: Task): (r: nat)
    ensures r <= |t.subtasks|
    ensures t.subtasks == [] ==> r == 0
  {
    if |t.subtasks| == 0 then 0 else |Filter((st: Subtask) => st.completed, t.subtasks)|
  }

  /** All subtasks are counted exactly when all are completed, and none
      exactly when none is. */
  lemma CompletedSubtasksExtremes(t: Task)
    ensures CompletedSubtasks(t) == |t.subtasks| <==> forall i :: 0 <= i < |t.subtasks| ==> t.subtasks[i].completed
    ensures CompletedSubtasks(t) == 0 <==> forall i :: 0 <= i < |t.subtasks| ==> !t.subtasks[i].completed
  {
    var done := (st: Subtask) => st.completed;
    FilterLengthAll(done, t.subtasks);
    FilterLengthNone(done, t.subtasks);
  }

  lemma {:induction false} FilterLengthAll<T>(p: T -> bool, s: seq<T>)
    ensures |Filter(p, s)| == |s| <==> forall i :: 0 <= i < |s| ==> p(s[i])
  {
    if s != [] {
      FilterLengthAll(p, s[1..]);
      if forall i :: 0 <= i < |s| ==> p(s[i]) {
        assert forall i :: 0 <= i < |s| - 1 ==> p(s[1..][i]) by {
          forall i | 0 <= i < |s| - 1 ensures p(s[1..][i]) {
            assert s[1..][i] == s[i + 1];
          }
        }
      } else if p(s[0]) {
        var i :| 0 <= i < |s| && !p(s[i]);
        assert s[1..][i - 1] == s[i];
      }
    }
  }

  lemma {:induction false} FilterLengthNone<T>(p: T -> bool, s: seq<T>)
    ensures |Filter(p, s)| == 0 <==> forall i :: 0 <= i < |s| ==> !p(s[i])
  {
    if s != [] {
      FilterLengthNone(p, s[1..]);
      if forall i :: 0 <= i < |s| ==> !p(s[i]) {
        forall i | 0 <= i < |s| - 1 ensures !p(s[1..][i]) {
          assert s[1..][i] == s[i + 1];
        }
      } else if !p(s[0]) {
        var i :| 0 <= i < |s| && p(s[i]);
        assert s[1..][i - 1] == s[i];
      }
    }
  }

  /** `find(t => t.id === id)`: the first task with identifier `id`. */
  function FindTask(ts: seq<Task>, id: Id): (r: Option<Task>)
    ensures r.Some? ==> r.value in ts && r.value.id == id
    ensures r.None? <==> forall t :: t in ts ==> t.id != id
  {
    if ts == [] then None
    else if ts[0].id == id then Some(ts[0])
    else
      assert forall t :: t in ts ==> t == ts[0] || t in ts[1..];
      FindTask(ts[1..], id)
  }

  /** What `find` returns is the first task with the identifier. */
  lemma {:induction false} FindTaskFirst(ts: seq<Task>, id: Id)
    ensures FindTask(ts, id).Some? ==>
              exists i :: 0 <= i < |ts| && ts[i] == FindTask(ts, id).value &&
                          forall j :: 0 <= j < i ==> ts[j].id != id
  {
    if ts != [] && ts[0].id != id && FindTask(ts, id).Some? {
      var tail := ts[1..];
      FindTaskFirst(tail, id);
      var i :| 0 <= i < |tail| && tail[i] == FindTask(tail, id).value &&
               forall j :: 0 <= j < i ==> tail[j].id != id;
      assert ts[i + 1] == tail[i];
      forall j | 0 <= j < i + 1 ensures ts[j].id != id {
        if j > 0 {
          assert ts[j] == tail[j - 1];
        }
      }
    } else if ts != [] && ts[0].id == id {
      assert ts[0] == FindTask(ts, id).value;
    }
  }

  /** The guard of `handleDragEnd`: a drop moves the dragged task when it
      lands on something other than itself whose identifier names a lane;
      the result is the lane's status. */
  function DropTarget(activeId: string, overId: Option<string>): (r: Option<TaskStatus>)
    ensures r.Some? ==> overId == Some(StatusName(r.value)) && activeId != overId.value
  {
    if overId.Some? && activeId != overId.value then ParseColumn(overId.value) else None
  }

  /** A drop moves the task to `s` exactly when it lands on the lane named
      for `s` and the dragged card is not itself named so. */
  lemma DropTargetExact(activeId: string, overId: Option<string>, s: TaskStatus)
    ensures DropTarget(activeId, overId) == Some(s) <==>
            overId == Some(StatusName(s)) && activeId != StatusName(s)
  {
    if overId.Some? {
      ParseColumnExact(overId.value, s);
    }
  }

  /** A drop that reaches no lane, or a drop on the card itself, changes
      nothing. */
  lemma DropWithoutLane(activeId: string, overId: Option<string>)
    requires overId.None? || overId == Some(activeId) ||
             forall s: TaskStatus :: overId.value != StatusName(s)
    ensures DropTarget(activeId, overId) == None
  {
    if DropTarget(activeId, overId).Some? {
      DropTargetExact(activeId, overId, DropTarget(activeId, overId).value);
    }
  }

  /** After a move, the moved task shows in the target lane and in no other. */
  lemma MovedTaskLane(ts: seq<Task>, projectId: Id, taskId: Id, s: TaskStatus, now: Time, i: nat, lane: TaskStatus)
    requires i < |ts| && ts[i].id == taskId && ts[i].projectId == projectId
    ensures var moved := WithTaskMoved(ts, taskId, s, now)[i];
      moved in TasksByStatus(ProjectTasks(WithTaskMoved(ts, taskId, s, now), projectId), lane) <==> lane == s
  {
    var ts' := WithTaskMoved(ts, taskId, s, now);
    assert ts'[i] in ts';
    assert ts'[i].projectId == ts[i].projectId;
  }

  /** The board's own state: the task being dragged. */
  class KanbanBoard {
    const projectId: Id
    var activeTask: Option<Task>

    constructor (projectId: Id)
      ensures this.projectId == projectId && activeTask == None
    {
      this.projectId := projectId;
      activeTask := None;
    }

    /** `handleDragStart`: the dragged card's task among the project's
        current tasks, or none. */
    method HandleDragStart(store: AppStore, activeId: Id)
      modifies this`activeTask
      ensures activeTask == FindTask(ProjectTasks(store.tasks, projectId), activeId)
    {
      activeTask := FindTask(ProjectTasks(store.tasks, projectId), activeId);
    }

    /** `handleDragEnd`: moves the dragged task when the drop target is a
        lane other than the card itself; in every case the drag is over. */
    method HandleDragEnd(store: AppStore, activeId: Id, overId: Option<string>, now: Time)
      modifies store`tasks, this`activeTask
      ensures activeTask == None
      ensures DropTarget(activeId, overId).Some? ==>
                store.tasks == WithTaskMoved(old(store.tasks), activeId, DropTarget(activeId, overId).value, now)
      ensures DropTarget(activeId, overId).None? ==> store.tasks == old(store.tasks)
    {
      if overId.Some? && activeId != overId.value {
        var newStatus := ParseColumn(overId.value);
        if newStatus.Some? {
          store.MoveTask(activeId, newStatus.value, now);
        }
      }
      activeTask := None;
    }
  }
}
