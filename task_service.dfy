/** The task table operations of lib/task-service.ts. Each request may fail
    in the gateway (`fault`); a failed request writes nothing and its error
    is rethrown. */
module TaskService {
  import opened Wrappers
  import opened Models
  import opened Store
  import opened Ordering

  /** The fields `createTask` inserts: a task row without its id and timestamps. */
  datatype NewTask = NewTask(
    columnId: string,
    title: string,
    description: Option<string>,
    assignee: Option<string>,
    dueDate: Option<string>,
    priority: Priority,
    sortOrder: int)

  /** The fields `updateTask` receives; it writes all but `id`. */
  datatype TaskEdit = TaskEdit(
    id: string,
    title: string,
    description: Option<string>,
    assignee: Option<string>,
    priority: Priority,
    dueDate: Option<string>)

  /** The row the store keeps for an inserted task. */
  function StoredTask(t: NewTask, stamp: RowStamp): Task {
    Task(stamp.id, t.columnId, t.title, t.description, t.assignee, t.dueDate,
         t.priority, t.sortOrder, stamp.at, stamp.at)
  }

  /** A task row after `updateTask`: the five edited fields are written and
      the column, the position and the timestamps are kept. */
  function Edited(t: Task, e: TaskEdit): (r: Task)
    ensures r.id == t.id && r.columnId == t.columnId && r.sortOrder == t.sortOrder
    ensures r.createdAt == t.createdAt && r.updatedAt == t.updatedAt
    ensures r.title == e.title && r.description == e.description && r.assignee == e.assignee
    ensures r.priority == e.priority && r.dueDate == e.dueDate
  {
    t.(title := e.title, description := e.description, assignee := e.assignee,
       priority := e.priority, dueDate := e.dueDate)
  }

  /** The task table after `moveTask`: the row under `taskId`, if any, gets the
      new column and position and keeps every other field; no other row,
      sibling or not, is renumbered. */
  function MovedTable(tasks: map<string, Task>, taskId: string, newColumnId: string, newOrder: int)
    : (r: map<string, Task>)
    ensures r.Keys == tasks.Keys
    ensures forall k :: k in tasks && k != taskId ==> r[k] == tasks[k]
    ensures taskId in tasks ==>
      && r[taskId].columnId == newColumnId && r[taskId].sortOrder == newOrder
      && r[taskId] == tasks[taskId].(columnId := r[taskId].columnId, sortOrder := r[taskId].sortOrder)
  {
    if taskId in tasks then tasks[taskId := tasks[taskId].(columnId := newColumnId, sortOrder := newOrder)]
    else tasks
  }

  /** The sort key of the task queries. */
  function TaskOrder(t: Task): int { t.sortOrder }

  /** A task belongs to a board when its column is a column of that board
      (the inner join on `columns`). */
  predicate InBoard(columns: map<string, Column>, t: Task, boardId: string) {
    t.columnId in columns && columns[t.columnId].boardId == boardId
  }

  /** The task rows of a board. */
  function TasksOfBoard(tasks: map<string, Task>, columns: map<string, Column>, boardId: string): set<Task> {
    set t | t in tasks.Values && InBoard(columns, t, boardId)
  }

  /** `list` is an answer of `getTasksByBoard`: the board's task rows, each
      once, by ascending `sort_order`. */
  predicate IsBoardTaskList(tasks: map<string, Task>, columns: map<string, Column>, boardId: string, list: seq<Task>) {
    SortedBy(list, TaskOrder) && multiset(list) == multiset(TasksOfBoard(tasks, columns, boardId))
  }

  /** `getTasksByBoard`. */
  method GetTasksByBoard(db: Database, boardId: string, fault: Option<Thrown>)
    returns (r: Result<seq<Task>, Thrown>)
    ensures fault.Some? ==> r == Failure(fault.value)
    ensures fault.None? ==> r.Success? && IsBoardTaskList(db.tasks, db.columns, boardId, r.value)
  {
    if fault.Some? {
      return Failure(fault.value);
    }
    var list := SortedSeqOf(TasksOfBoard(db.tasks, db.columns, boardId), TaskOrder);
    return Success(list);
  }

  /** `createTask`: inserts the row and returns it as stored. */
  method CreateTask(db: Database, t: NewTask, stamp: RowStamp, fault: Option<Thrown>)
    returns (r: Result<Task, Thrown>)
    requires db.Valid() && stamp.id !in db.tasks
    modifies db`tasks
    ensures db.Valid()
    ensures fault.Some? ==> r == Failure(fault.value) && db.tasks == old(db.tasks)
    ensures fault.None? ==> r == Success(StoredTask(t, stamp)) && db.tasks == old(db.tasks)[stamp.id := r.value]
  {
    if fault.Some? {
      return Failure(fault.value);
    }
    var row := StoredTask(t, stamp);
    db.tasks := db.tasks[stamp.id := row];
    return Success(row);
  }

  /** `updateTask`: `.single()` throws when no row has the id. */
  method UpdateTask(db: Database, e: TaskEdit, fault: Option<Thrown>)
    returns (r: Result<Task, Thrown>)
    requires db.Valid()
    modifies db`tasks
    ensures db.Valid()
    ensures fault.Some? ==> r == Failure(fault.value) && db.tasks == old(db.tasks)
    ensures fault.None? && e.id !in old(db.tasks) ==> r == Failure(NoRowError) && db.tasks == old(db.tasks)
    ensures fault.None? && e.id in old(db.tasks) ==>
      r == Success(Edited(old(db.tasks)[e.id], e)) && db.tasks == old(db.tasks)[e.id := r.value]
  {
    if fault.Some? {
      return Failure(fault.value);
    }
    if e.id !in db.tasks {
      return Failure(NoRowError);
    }
    var row := Edited(db.tasks[e.id], e);
    db.tasks := db.tasks[e.id := row];
    return Success(row);
  }

  /** `moveTask`: an update filtered on the id, so an unknown id matches no
      row and is not an error. */
  method MoveTask(db: Database, taskId: string, newColumnId: string, newOrder: int, fault: Option<Thrown>)
    returns (r: Result<(), Thrown>)
    requires db.Valid()
    modifies db`tasks
    ensures db.Valid()
    ensures fault.Some? ==> r == Failure(fault.value) && db.tasks == old(db.tasks)
    ensures fault.None? ==> r == Success(()) && db.tasks == MovedTable(old(db.tasks), taskId, newColumnId, newOrder)
  {
    if fault.Some? {
      return Failure(fault.value);
    }
    db.tasks := MovedTable(db.tasks, taskId, newColumnId, newOrder);
    return Success(());
  }

  /** After a move into a column that already holds a task at `newOrder`, two
      tasks of that column share a position: the store does not keep
      positions unique. */
  lemma MoveCanDuplicatePosition(tasks: map<string, Task>, taskId: string, other: string, newColumnId: string, newOrder: int)
    requires taskId in tasks && other in tasks && other != taskId
    requires tasks[other].columnId == newColumnId && tasks[other].sortOrder == newOrder
    ensures var r := MovedTable(tasks, taskId, newColumnId, newOrder);
      r[taskId].columnId == r[other].columnId && r[taskId].sortOrder == r[other].sortOrder
  {
  }
}
