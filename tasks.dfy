/**
  Room tasks (main_node/modules/tasks/). The `RoomTask` table is a sequence
  of rows, with the semantics of the queries of
  tasks_repository.py: a filter by room and status, a lookup that returns the
  first row with an id, and an update of every row with an id.
*/
module Tasks {

  import opened Wrappers
  import opened Json
  import opened Outcomes

  datatype Task = Task(id: int, roomId: int, managerId: int, body: string, status: string)

  datatype TaskList = TaskList(tasks: seq<Task>)

  /** The values of the `Status` enum, in declaration order. */
  const Statuses: seq<string> := ["UNDONE", "DONE", "CANCELLED", "ERROR"]

  /**
    `get_room_tasks`: the room's rows with that status, each as often as it
    is stored.
  */
  function RoomTasks(tasks: seq<Task>, roomId: int, status: string): (r: seq<Task>)
    ensures |r| <= |tasks|
    ensures forall t :: t in r <==> t in tasks && t.roomId == roomId && t.status == status
    ensures forall t ::
      multiset(r)[t] == if t.roomId == roomId && t.status == status then multiset(tasks)[t] else 0
  {
    if tasks == [] then []
    else
      assert tasks == [tasks[0]] + tasks[1..];
      if tasks[0].roomId == roomId && tasks[0].status == status
      then [tasks[0]] + RoomTasks(tasks[1..], roomId, status)
      else RoomTasks(tasks[1..], roomId, status)
  }

  /** `get_task`: the first row with that id, if any. */
  function GetTask(tasks: seq<Task>, id: int): (r: Option<Task>)
    ensures r.None? <==> forall t :: t in tasks ==> t.id != id
    ensures r.Some? ==> r.value in tasks && r.value.id == id
  {
    if tasks == [] then None
    else if tasks[0].id == id then Some(tasks[0])
    else GetTask(tasks[1..], id)
  }

  /** `update_task_status`: every row with that id gets the status; nothing else changes. */
  function UpdateTaskStatus(tasks: seq<Task>, id: int, status: string): (r: seq<Task>)
    ensures |r| == |tasks|
    ensures forall i :: 0 <= i < |tasks| ==>
      r[i] == if tasks[i].id == id then tasks[i].(status := status) else tasks[i]
  {
    if tasks == [] then []
    else
      [if tasks[0].id == id then tasks[0].(status := status) else tasks[0]]
      + UpdateTaskStatus(tasks[1..], id, status)
  }

  function Join(items: seq<string>, separator: string): string
  {
    if items == [] then ""
    else if |items| == 1 then items[0]
    else items[0] + separator + Join(items[1..], separator)
  }

  function UnknownStatusCause(): string
  {
    "Unknown status. Possible statuses: " + Join(Statuses, ", ") + "."
  }

  lemma JoinFour(a: string, b: string, c: string, d: string, separator: string)
    ensures Join([a, b, c, d], separator) == a + separator + (b + separator + (c + separator + d))
  {
    assert [a, b, c, d][1..] == [b, c, d];
    assert [b, c, d][1..] == [c, d];
    assert [c, d][1..] == [d];
    assert Join([c, d], separator) == c + separator + d;
    assert Join([b, c, d], separator) == b + separator + (c + separator + d);
  }

  /** The cause lists the statuses in declaration order. */
  lemma UnknownStatusCauseText()
    ensures UnknownStatusCause() == "Unknown status. Possible statuses: UNDONE, DONE, CANCELLED, ERROR."
  {
    JoinFour("UNDONE", "DONE", "CANCELLED", "ERROR", ", ");
  }

  /**
    The checks of `report_task_performed`, in their order: the task exists,
    it belongs to the reporting room, the new status is a `Status` value.
    The first that fails gives the cause; `None` means all passed.
  */
  function ReportRejection(tasks: seq<Task>, roomId: int, taskId: int, newStatus: string): (e: Option<string>)
    ensures (forall t :: t in tasks ==> t.id != taskId) ==> e == Some("No task with provided id.")
    ensures GetTask(tasks, taskId).Some? && GetTask(tasks, taskId).value.roomId != roomId ==>
      e == Some("Room hasn't task with provided id.")
    ensures (GetTask(tasks, taskId).Some? && GetTask(tasks, taskId).value.roomId == roomId &&
             newStatus !in Statuses) ==> e == Some(UnknownStatusCause())
    ensures e.None? <==>
      GetTask(tasks, taskId).Some? && GetTask(tasks, taskId).value.roomId == roomId && newStatus in Statuses
  {
    match GetTask(tasks, taskId)
    case None => Some("No task with provided id.")
    case Some(task) =>
      if task.roomId != roomId then Some("Room hasn't task with provided id.")
      else if newStatus !in Statuses then Some(UnknownStatusCause())
      else None
  }

  /** `get_undone_tasks`: always `Ok`, with exactly the room's `UNDONE` rows. */
  function GetUndoneTasks(tasks: seq<Task>, roomId: int): (r: Outcome<TaskList>)
    ensures r.Ok?
    ensures forall t :: t in r.result.tasks <==> t in tasks && t.roomId == roomId && t.status == "UNDONE"
    ensures forall t ::
      multiset(r.result.tasks)[t] == if t.roomId == roomId && t.status == "UNDONE" then multiset(tasks)[t] else 0
  {
    Ok(TaskList(RoomTasks(tasks, roomId, "UNDONE")))
  }

  /**
    After a successful report with a status other than `UNDONE`, the task
    leaves the room's undone list and every other undone task stays in it.
  */
  lemma {:induction false} ReportedTaskLeavesUndoneList(tasks: seq<Task>, roomId: int, taskId: int, newStatus: string)
    requires newStatus != "UNDONE"
    ensures var after := RoomTasks(UpdateTaskStatus(tasks, taskId, newStatus), roomId, "UNDONE");
      && (forall t :: t in after ==> t.id != taskId)
      && (forall t :: t in RoomTasks(tasks, roomId, "UNDONE") && t.id != taskId ==> t in after)
  {
    var updated := UpdateTaskStatus(tasks, taskId, newStatus);
    forall t | t in RoomTasks(tasks, roomId, "UNDONE") && t.id != taskId
      ensures t in updated
    {
      var i :| 0 <= i < |tasks| && tasks[i] == t;
      assert updated[i] == t;
    }
    forall t | t in updated && t.status == "UNDONE"
      ensures t.id != taskId
    {
      var i :| 0 <= i < |updated| && updated[i] == t;
    }
  }

  function TaskJson(t: Task): Json
  {
    JObject([("id", JInt(t.id)), ("room_id", JInt(t.roomId)), ("manager_id", JInt(t.managerId)),
             ("body", JStr(t.body)), ("status", JStr(t.status))])
  }

  function TaskListJson(l: TaskList): Json
  {
    JObject([("tasks", JArray(seq(|l.tasks|, i requires 0 <= i < |l.tasks| => TaskJson(l.tasks[i]))))])
  }

  class TasksService {
    var tasks: seq<Task>

    constructor (rows: seq<Task>)
      ensures tasks == rows
    {
      tasks := rows;
    }

    /**
      `report_task_performed`: on a rejected report the table is unchanged
      and the cause of the first failed check is returned; otherwise only
      the task's status changes, and the outcome is a bare success.
    */
    method ReportTaskPerformed(roomId: int, taskId: int, newStatus: string) returns (r: Outcome<()>)
      modifies this
      ensures ReportRejection(old(tasks), roomId, taskId, newStatus).Some? ==>
        r == Error(ReportRejection(old(tasks), roomId, taskId, newStatus).value) && tasks == old(tasks)
      ensures ReportRejection(old(tasks), roomId, taskId, newStatus).None? ==>
        r == Plain(true) && tasks == UpdateTaskStatus(old(tasks), taskId, newStatus)
    {
      var rejection := ReportRejection(tasks, roomId, taskId, newStatus);
      if rejection.Some? {
        return Error(rejection.value);
      }
      tasks := UpdateTaskStatus(tasks, taskId, newStatus);
      r := Plain(true);
    }
  }
}
