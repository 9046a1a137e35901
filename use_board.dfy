/** The board page's local state and its updates (lib/hooks/use-board.ts;
    lib/hooks/use-boards.ts holds a copy of the same hook). The state is
    the loaded board, its columns each with the tasks shown in it, and an
    error message. Each update first makes its request to the store and
    changes the local state only when that request succeeds. */
module UseBoard {
  import opened Wrappers
  import opened Models
  import opened Store
  import TaskService
  import BoardServices

  // ------------------------------------------------------ list positions

  /** `tasks.findIndex(task => task.id === taskId)`: the first position
      holding the task, or -1 when none does. */
  function IndexOfTask(tasks: seq<Task>, taskId: string): (r: int)
    ensures -1 <= r < |tasks|
    ensures r >= 0 ==> tasks[r].id == taskId
    ensures forall k :: 0 <= k < |tasks| && (r == -1 || k < r) ==> tasks[k].id != taskId
  {
    if tasks == [] then -1
    else if tasks[0].id == taskId then 0
    else
      var r := IndexOfTask(tasks[1..], taskId);
      if r == -1 then -1 else r + 1
  }

  /** The first column whose tasks hold the task, or -1 when none does. */
  function SourceColumn(cols: seq<ColumnWithTasks>, taskId: string): (c: int)
    ensures -1 <= c < |cols|
    ensures c >= 0 ==> IndexOfTask(cols[c].tasks, taskId) >= 0
    ensures forall k :: 0 <= k < |cols| && (c == -1 || k < c) ==> IndexOfTask(cols[k].tasks, taskId) == -1
  {
    if cols == [] then -1
    else if IndexOfTask(cols[0].tasks, taskId) != -1 then 0
    else
      var c := SourceColumn(cols[1..], taskId);
      if c == -1 then -1 else c + 1
  }

  /** `columns.find(col => col.id === columnId)`, as the position of the
      first column with that id, or -1 when none has it. */
  function ColumnIndex(cols: seq<ColumnWithTasks>, columnId: string): (c: int)
    ensures -1 <= c < |cols|
    ensures c >= 0 ==> cols[c].column.id == columnId
    ensures forall k :: 0 <= k < |cols| && (c == -1 || k < c) ==> cols[k].column.id != columnId
  {
    if cols == [] then -1
    else if cols[0].column.id == columnId then 0
    else
      var c := ColumnIndex(cols[1..], columnId);
      if c == -1 then -1 else c + 1
  }

  /** Where `splice(start, ...)` acts in a list of length `len`: a negative
      start counts back from the end, and the result is clamped to
      [0, len], so a start past the end appends. */
  function SpliceStart(start: int, len: nat): (k: nat)
    ensures k <= len
    ensures 0 <= start <= len ==> k == start
    ensures start > len ==> k == len
    ensures start < 0 ==> k == (if len + start < 0 then 0 else len + start)
  {
    if start < 0 then (if len + start < 0 then 0 else len + start)
    else if start > len then len
    else start
  }

  /** `splice(i, 1)`. */
  function RemoveAt(s: seq<Task>, i: nat): seq<Task>
    requires i < |s|
  {
    s[..i] + s[i + 1..]
  }

  /** `splice(start, 0, x)`. */
  function InsertAt(s: seq<Task>, start: int, x: Task): seq<Task> {
    var k := SpliceStart(start, |s|);
    s[..k] + [x] + s[k..]
  }

  lemma RemoveAtTasks(s: seq<Task>, i: nat)
    requires i < |s|
    ensures multiset(RemoveAt(s, i)) + multiset{s[i]} == multiset(s)
    ensures |RemoveAt(s, i)| == |s| - 1
  {
    assert s == s[..i] + [s[i]] + s[i + 1..];
  }

  lemma InsertAtTasks(s: seq<Task>, start: int, x: Task)
    ensures multiset(InsertAt(s, start, x)) == multiset(s) + multiset{x}
    ensures |InsertAt(s, start, x)| == |s| + 1
    ensures InsertAt(s, start, x)[SpliceStart(start, |s|)] == x
  {
    var k := SpliceStart(start, |s|);
    assert s == s[..k] + s[k..];
  }

  /** Replacing one column's task list changes how often the board holds a
      task by exactly the change in that column. */
  lemma {:induction false} AllTasksUpdate(cols: seq<ColumnWithTasks>, k: nat, ts: seq<Task>, x: Task)
    requires k < |cols|
    ensures multiset(AllTasks(cols[k := cols[k].(tasks := ts)]))[x] + multiset(cols[k].tasks)[x]
         == multiset(AllTasks(cols))[x] + multiset(ts)[x]
  {
    var u := cols[k := cols[k].(tasks := ts)];
    assert AllTasks(u) == u[0].tasks + AllTasks(u[1..]);
    assert AllTasks(cols) == cols[0].tasks + AllTasks(cols[1..]);
    if k == 0 {
      assert u[1..] == cols[1..];
    } else {
      assert u[1..] == cols[1..][k - 1 := cols[k].(tasks := ts)];
      AllTasksUpdate(cols[1..], k - 1, ts, x);
    }
  }

  /** `cols` with column `c`'s task at `i` taken out. */
  function TakeOut(cols: seq<ColumnWithTasks>, c: nat, i: nat): seq<ColumnWithTasks>
    requires c < |cols| && i < |cols[c].tasks|
  {
    cols[c := cols[c].(tasks := RemoveAt(cols[c].tasks, i))]
  }

  /** `cols` with `x` put into column `t` at `start`. */
  function PutIn(cols: seq<ColumnWithTasks>, t: nat, start: int, x: Task): seq<ColumnWithTasks>
    requires t < |cols|
  {
    cols[t := cols[t].(tasks := InsertAt(cols[t].tasks, start, x))]
  }

  /** Finding a column looks only at the columns, not at their tasks. */
  lemma {:induction false} ColumnIndexByColumns(a: seq<ColumnWithTasks>, b: seq<ColumnWithTasks>, columnId: string)
    requires |a| == |b| && forall k :: 0 <= k < |a| ==> a[k].column == b[k].column
    ensures ColumnIndex(a, columnId) == ColumnIndex(b, columnId)
  {
    if a != [] {
      ColumnIndexByColumns(a[1..], b[1..], columnId);
    }
  }

  /** Taking a task out loses exactly that task. */
  lemma TakeOutTasks(cols: seq<ColumnWithTasks>, c: nat, i: nat)
    requires c < |cols| && i < |cols[c].tasks|
    ensures multiset(AllTasks(TakeOut(cols, c, i))) + multiset{cols[c].tasks[i]} == multiset(AllTasks(cols))
  {
    RemoveAtTasks(cols[c].tasks, i);
    forall x
      ensures multiset(AllTasks(TakeOut(cols, c, i)))[x] + multiset{cols[c].tasks[i]}[x] == multiset(AllTasks(cols))[x]
    {
      AllTasksUpdate(cols, c, RemoveAt(cols[c].tasks, i), x);
    }
  }

  /** Putting a task in adds exactly that task. */
  lemma PutInTasks(cols: seq<ColumnWithTasks>, t: nat, start: int, x: Task)
    requires t < |cols|
    ensures multiset(AllTasks(PutIn(cols, t, start, x))) == multiset(AllTasks(cols)) + multiset{x}
  {
    InsertAtTasks(cols[t].tasks, start, x);
    forall y
      ensures multiset(AllTasks(PutIn(cols, t, start, x)))[y] == multiset(AllTasks(cols))[y] + multiset{x}[y]
    {
      AllTasksUpdate(cols, t, InsertAt(cols[t].tasks, start, x), y);
    }
  }

  // ----------------------------------------------------------- moving

  /** The columns after the `moveTask` updater: the task is taken out of the
      first column that holds it and, when a column has the target id, put
      into the first such column at `newOrder`. The task record is put back
      as it was. */
  function MovedColumns(cols: seq<ColumnWithTasks>, taskId: string, newColumnId: string, newOrder: int)
    : (r: seq<ColumnWithTasks>)
    ensures |r| == |cols|
    ensures forall k :: 0 <= k < |cols| ==> r[k].column == cols[k].column
    ensures SourceColumn(cols, taskId) == -1 ==> r == cols
  {
    var c := SourceColumn(cols, taskId);
    if c == -1 then cols
    else
      var i := IndexOfTask(cols[c].tasks, taskId);
      var removed := TakeOut(cols, c, i);
      var t := ColumnIndex(removed, newColumnId);
      if t == -1 then removed
      else PutIn(removed, t, newOrder, cols[c].tasks[i])
  }

  /** The `moveTask` updater, run on the previous columns. */
  method ApplyMove(prev: seq<ColumnWithTasks>, taskId: string, newColumnId: string, newOrder: int)
    returns (next: seq<ColumnWithTasks>)
    ensures next == MovedColumns(prev, taskId, newColumnId, newOrder)
  {
    next := prev;
    var taskToMove: Option<Task> := None;
    var c := 0;
    while c < |next|
      invariant 0 <= c <= |next|
      invariant next == prev && taskToMove == None
      invariant forall k :: 0 <= k < c ==> IndexOfTask(prev[k].tasks, taskId) == -1
    {
      var taskIdx := IndexOfTask(next[c].tasks, taskId);
      if taskIdx != -1 {
        assert SourceColumn(prev, taskId) == c;
        taskToMove := Some(next[c].tasks[taskIdx]);
        next := TakeOut(next, c, taskIdx);
        break;
      }
      c := c + 1;
    }
    if taskToMove.Some? {
      var target := ColumnIndex(next, newColumnId);
      if target != -1 {
        next := PutIn(next, target, newOrder, taskToMove.value);
      }
    }
  }

  /** A move keeps the number, the order and the fields of the columns. */
  lemma MoveKeepsColumns(cols: seq<ColumnWithTasks>, taskId: string, newColumnId: string, newOrder: int)
    ensures |MovedColumns(cols, taskId, newColumnId, newOrder)| == |cols|
    ensures forall k :: 0 <= k < |cols| ==> MovedColumns(cols, taskId, newColumnId, newOrder)[k].column == cols[k].column
  {
  }

  /** A move of a task no column holds changes nothing. */
  lemma MoveUnknownTask(cols: seq<ColumnWithTasks>, taskId: string, newColumnId: string, newOrder: int)
    requires forall k :: 0 <= k < |cols| ==> forall j :: 0 <= j < |cols[k].tasks| ==> cols[k].tasks[j].id != taskId
    ensures MovedColumns(cols, taskId, newColumnId, newOrder) == cols
  {
  }

  /** Where a found task goes: column `c` is its source and `t` the target.
      The task sits in the target at `newOrder`, clamped to the target's
      length after the removal; columns other than the two keep their
      tasks; the source keeps its other tasks in their order. */
  lemma MoveShape(cols: seq<ColumnWithTasks>, taskId: string, newColumnId: string, newOrder: int)
    requires SourceColumn(cols, taskId) != -1 && ColumnIndex(cols, newColumnId) != -1
    ensures
      var r := MovedColumns(cols, taskId, newColumnId, newOrder);
      var c := SourceColumn(cols, taskId);
      var i := IndexOfTask(cols[c].tasks, taskId);
      var t := ColumnIndex(cols, newColumnId);
      var left := RemoveAt(cols[c].tasks, i);
      var before := if c == t then left else cols[t].tasks;
      && |r| == |cols|
      && r[t].tasks == InsertAt(before, newOrder, cols[c].tasks[i])
      && r[t].tasks[SpliceStart(newOrder, |before|)] == cols[c].tasks[i]
      && (c != t ==> r[c].tasks == left)
      && (forall k :: 0 <= k < |cols| && k != c && k != t ==> r[k] == cols[k])
  {
    var c := SourceColumn(cols, taskId);
    var i := IndexOfTask(cols[c].tasks, taskId);
    var removed := TakeOut(cols, c, i);
    ColumnIndexByColumns(removed, cols, newColumnId);
    var t := ColumnIndex(cols, newColumnId);
    var before := if c == t then RemoveAt(cols[c].tasks, i) else cols[t].tasks;
    InsertAtTasks(before, newOrder, cols[c].tasks[i]);
  }

  /** When the task and the target column both exist, a move loses and adds
      no task: the board holds the same tasks, as often as before. */
  lemma MovePreservesTasks(cols: seq<ColumnWithTasks>, taskId: string, newColumnId: string, newOrder: int)
    requires SourceColumn(cols, taskId) != -1 && ColumnIndex(cols, newColumnId) != -1
    ensures multiset(AllTasks(MovedColumns(cols, taskId, newColumnId, newOrder))) == multiset(AllTasks(cols))
  {
    var c := SourceColumn(cols, taskId);
    var i := IndexOfTask(cols[c].tasks, taskId);
    var removed := TakeOut(cols, c, i);
    ColumnIndexByColumns(removed, cols, newColumnId);
    var t := ColumnIndex(removed, newColumnId);
    assert MovedColumns(cols, taskId, newColumnId, newOrder) == PutIn(removed, t, newOrder, cols[c].tasks[i]);
    TakeOutTasks(cols, c, i);
    PutInTasks(removed, t, newOrder, cols[c].tasks[i]);
  }

  /** When no column has the target id, the task is taken out and not put
      back: the board loses exactly that task. */
  lemma MoveToMissingColumn(cols: seq<ColumnWithTasks>, taskId: string, newColumnId: string, newOrder: int)
    requires SourceColumn(cols, taskId) != -1 && ColumnIndex(cols, newColumnId) == -1
    ensures var c := SourceColumn(cols, taskId);
      var task := cols[c].tasks[IndexOfTask(cols[c].tasks, taskId)];
      var r := MovedColumns(cols, taskId, newColumnId, newOrder);
      && multiset(AllTasks(r)) + multiset{task} == multiset(AllTasks(cols))
      && |AllTasks(r)| == |AllTasks(cols)| - 1
  {
    var c := SourceColumn(cols, taskId);
    var i := IndexOfTask(cols[c].tasks, taskId);
    var removed := TakeOut(cols, c, i);
    ColumnIndexByColumns(removed, cols, newColumnId);
    assert MovedColumns(cols, taskId, newColumnId, newOrder) == removed;
    TakeOutTasks(cols, c, i);
    assert |multiset(AllTasks(removed))| + 1 == |multiset(AllTasks(cols))|;
  }

  /** The moved record is not rewritten: a task that named its source column
      still names it after moving to another column, so its `column_id`
      disagrees with the column that now shows it. */
  lemma MovedRecordKeepsColumnId(cols: seq<ColumnWithTasks>, taskId: string, newColumnId: string, newOrder: int)
    requires SourceColumn(cols, taskId) != -1 && ColumnIndex(cols, newColumnId) != -1
    requires var c := SourceColumn(cols, taskId);
      cols[c].tasks[IndexOfTask(cols[c].tasks, taskId)].columnId == cols[c].column.id
    requires cols[SourceColumn(cols, taskId)].column.id != newColumnId
    ensures var c := SourceColumn(cols, taskId);
      var t := ColumnIndex(cols, newColumnId);
      var r := MovedColumns(cols, taskId, newColumnId, newOrder);
      var k := SpliceStart(newOrder, |cols[t].tasks|);
      && k < |r[t].tasks|
      && r[t].tasks[k] == cols[c].tasks[IndexOfTask(cols[c].tasks, taskId)]
      && r[t].tasks[k].columnId != r[t].column.id
  {
    MoveShape(cols, taskId, newColumnId, newOrder);
    MoveKeepsColumns(cols, taskId, newColumnId, newOrder);
  }

  // ------------------------------------------------------ creating tasks

  /** The task form's data. */
  datatype TaskData = TaskData(
    title: string,
    description: Option<string>,
    assignee: Option<string>,
    dueDate: Option<string>,
    priority: Option<Priority>)

  /** The row `createRealTask` asks the store to insert: empty or missing
      description, assignee and due date become null, a missing priority
      becomes medium, and the position is the number of tasks the target
      column shows, or 0 when no column has the id. */
  function NewTaskPayload(cols: seq<ColumnWithTasks>, columnId: string, data: TaskData): (p: TaskService.NewTask)
    ensures p.columnId == columnId && p.title == data.title
    ensures p.description == OrNull(data.description)
    ensures p.assignee == OrNull(data.assignee)
    ensures p.dueDate == OrNull(data.dueDate)
    ensures p.priority == (if data.priority.Some? then data.priority.value else Medium)
    ensures ColumnIndex(cols, columnId) == -1 ==> p.sortOrder == 0
    ensures ColumnIndex(cols, columnId) != -1 ==> p.sortOrder == |cols[ColumnIndex(cols, columnId)].tasks|
  {
    var c := ColumnIndex(cols, columnId);
    TaskService.NewTask(columnId, data.title, OrNull(data.description), OrNull(data.assignee),
                        OrNull(data.dueDate), data.priority.GetOr(Medium),
                        if c == -1 then 0 else |cols[c].tasks|)
  }

  /** The `createRealTask` updater: the new task is appended to each column
      with the id. */
  function WithTaskAppended(cols: seq<ColumnWithTasks>, columnId: string, task: Task): (r: seq<ColumnWithTasks>)
    ensures |r| == |cols|
    ensures forall k :: 0 <= k < |cols| ==> r[k].column == cols[k].column
    ensures forall k :: 0 <= k < |cols| ==>
      r[k].tasks == if cols[k].column.id == columnId then cols[k].tasks + [task] else cols[k].tasks
  {
    seq(|cols|, k requires 0 <= k < |cols| =>
      if cols[k].column.id == columnId then cols[k].(tasks := cols[k].tasks + [task]) else cols[k])
  }

  /** The created task is shown last in the target column, at the position
      it was given, and no other column changes. When no column has the id,
      nothing is shown. */
  lemma CreatedTaskPlacement(cols: seq<ColumnWithTasks>, columnId: string, data: TaskData, stamp: RowStamp)
    ensures var task := TaskService.StoredTask(NewTaskPayload(cols, columnId, data), stamp);
      var r := WithTaskAppended(cols, columnId, task);
      var c := ColumnIndex(cols, columnId);
      && |r| == |cols|
      && (forall k :: 0 <= k < |cols| ==> r[k].column == cols[k].column)
      && (forall k :: 0 <= k < |cols| && cols[k].column.id != columnId ==> r[k] == cols[k])
      && (c == -1 ==> r == cols)
      && (c != -1 ==> 0 <= task.sortOrder < |r[c].tasks| && r[c].tasks[task.sortOrder] == task
                      && r[c].tasks == cols[c].tasks + [task])
  {
  }

  /** With distinct column ids and the column present, creating a task adds
      exactly that task to the board. */
  lemma {:induction false} AppendAddsOneTask(cols: seq<ColumnWithTasks>, columnId: string, task: Task)
    requires forall i, j :: 0 <= i < j < |cols| ==> cols[i].column.id != cols[j].column.id
    requires ColumnIndex(cols, columnId) != -1
    ensures multiset(AllTasks(WithTaskAppended(cols, columnId, task))) == multiset(AllTasks(cols)) + multiset{task}
  {
    var c := ColumnIndex(cols, columnId);
    var r := WithTaskAppended(cols, columnId, task);
    var u := cols[c := cols[c].(tasks := cols[c].tasks + [task])];
    assert |r| == |u|;
    forall k | 0 <= k < |r| ensures r[k] == u[k] {
      if k != c {
        assert cols[k].column.id != columnId;
      }
    }
    assert r == u;
    forall y
      ensures multiset(AllTasks(r))[y] == multiset(AllTasks(cols))[y] + multiset{task}[y]
    {
      AllTasksUpdate(cols, c, cols[c].tasks + [task], y);
    }
  }

  // ---------------------------------------------------- column updates

  /** The `updateColumn` updater: each column with the id takes all the
      stored row's fields and keeps its tasks. */
  function WithColumnMerged(cols: seq<ColumnWithTasks>, columnId: string, updated: Column): (r: seq<ColumnWithTasks>)
    ensures |r| == |cols|
    ensures forall k :: 0 <= k < |cols| ==> r[k].tasks == cols[k].tasks
    ensures forall k :: 0 <= k < |cols| ==>
      r[k].column == if cols[k].column.id == columnId then updated else cols[k].column
  {
    seq(|cols|, k requires 0 <= k < |cols| =>
      if cols[k].column.id == columnId then ColumnWithTasks(updated, cols[k].tasks) else cols[k])
  }

  /** Renaming a column moves no task and changes no other column. */
  lemma {:induction false} MergeKeepsTasks(cols: seq<ColumnWithTasks>, columnId: string, updated: Column)
    ensures var r := WithColumnMerged(cols, columnId, updated);
      && |r| == |cols|
      && AllTasks(r) == AllTasks(cols)
      && (forall k :: 0 <= k < |cols| ==> r[k].tasks == cols[k].tasks)
      && (forall k :: 0 <= k < |cols| && cols[k].column.id != columnId ==> r[k] == cols[k])
  {
    if cols != [] {
      assert WithColumnMerged(cols, columnId, updated)[1..] == WithColumnMerged(cols[1..], columnId, updated);
      MergeKeepsTasks(cols[1..], columnId, updated);
    }
  }

  const BoardNotLoaded: Thrown := Raise("Board not Loaded.")

  // ------------------------------------------------------------ the hook

  class BoardHook {
    var columns: seq<ColumnWithTasks>
    var board: Option<Board>
    var error: Option<string>

    constructor ()
      ensures columns == [] && board == None && error == None
    {
      columns, board, error := [], None, None;
    }

    /** `loadBoard`. An empty board id does nothing. The ghost results are
        the fetched column and task lists. */
    method LoadBoard(db: Database, boardId: string,
                     boardFault: Option<Thrown>, columnsFault: Option<Thrown>, tasksFault: Option<Thrown>)
      returns (ghost fetchedColumns: seq<Column>, ghost fetchedTasks: seq<Task>)
      modifies this
      ensures boardId == "" ==> columns == old(columns) && board == old(board) && error == old(error)
      ensures boardId != "" && boardFault.None? && columnsFault.None? && tasksFault.None? && boardId in db.boards ==>
        && board == Some(db.boards[boardId]) && error == None
        && BoardServices.IsBoardColumnList(db.columns, boardId, fetchedColumns)
        && TaskService.IsBoardTaskList(db.tasks, db.columns, boardId, fetchedTasks)
        && columns == BoardServices.Partition(fetchedColumns, fetchedTasks)
      ensures boardId != "" && boardFault.None? && boardId !in db.boards ==>
        columns == old(columns) && board == old(board) && error == Some(ErrorText(NoRowError, "Failed to load boards"))
      ensures boardId != "" && boardFault.Some? ==>
        columns == old(columns) && board == old(board) && error == Some(ErrorText(boardFault.value, "Failed to load boards"))
      ensures boardId != "" && boardFault.None? && boardId in db.boards && columnsFault.Some? ==>
        columns == old(columns) && board == old(board) && error == Some(ErrorText(columnsFault.value, "Failed to load boards"))
      ensures boardId != "" && boardFault.None? && boardId in db.boards && columnsFault.None? && tasksFault.Some? ==>
        columns == old(columns) && board == old(board) && error == Some(ErrorText(tasksFault.value, "Failed to load boards"))
    {
      fetchedColumns, fetchedTasks := [], [];
      if boardId == "" {
        return;
      }
      error := None;
      var data;
      data, fetchedColumns, fetchedTasks := BoardServices.GetBoardWithColumns(db, boardId, boardFault, columnsFault, tasksFault);
      if data.Failure? {
        error := Some(ErrorText(data.error, "Failed to load boards"));
        return;
      }
      board := Some(data.value.board);
      columns := data.value.columnsWithTasks;
    }

    /** The hook's `updateBoard`: the board state becomes the stored row. */
    method UpdateBoard(db: Database, boardId: string, patch: BoardServices.BoardPatch, now: int, fault: Option<Thrown>)
      requires db.Valid()
      modifies this, db`boards
      ensures db.Valid() && columns == old(columns)
      ensures fault.None? && boardId in old(db.boards) ==>
        && board == Some(BoardServices.Patched(old(db.boards)[boardId], patch, now))
        && db.boards == old(db.boards)[boardId := board.value] && error == old(error)
      ensures fault.None? && boardId !in old(db.boards) ==>
        board == old(board) && db.boards == old(db.boards) && error == Some(ErrorText(NoRowError, "Failed to update the boards"))
      ensures fault.Some? ==>
        board == old(board) && db.boards == old(db.boards) && error == Some(ErrorText(fault.value, "Failed to update the boards"))
    {
      var updated := BoardServices.UpdateBoard(db, boardId, patch, now, fault);
      if updated.Failure? {
        error := Some(ErrorText(updated.error, "Failed to update the boards"));
        return;
      }
      board := Some(updated.value);
    }

    /** `createRealTask`: stores the task, then shows it at the end of its
        column. Returns the stored task, or nothing when the insert failed. */
    method CreateRealTask(db: Database, columnId: string, data: TaskData, stamp: RowStamp, fault: Option<Thrown>)
      returns (created: Option<Task>)
      requires db.Valid() && stamp.id !in db.tasks
      modifies this, db`tasks
      ensures db.Valid() && board == old(board)
      ensures fault.None? ==>
        && created == Some(TaskService.StoredTask(NewTaskPayload(old(columns), columnId, data), stamp))
        && db.tasks == old(db.tasks)[stamp.id := created.value]
        && columns == WithTaskAppended(old(columns), columnId, created.value)
        && error == old(error)
      ensures fault.Some? ==>
        && created == None && db.tasks == old(db.tasks) && columns == old(columns)
        && error == Some(ErrorText(fault.value, "Failed to Add Task"))
    {
      var payload := NewTaskPayload(columns, columnId, data);
      var newTask := TaskService.CreateTask(db, payload, stamp, fault);
      if newTask.Failure? {
        error := Some(ErrorText(newTask.error, "Failed to Add Task"));
        return None;
      }
      columns := WithTaskAppended(columns, columnId, newTask.value);
      return Some(newTask.value);
    }

    /** `moveTask`: the store's row is moved first; only when that succeeds
        are the local columns updated. On a failure they are left as they
        were and the error is recorded. */
    method MoveTask(db: Database, taskId: string, newColumnId: string, newOrder: int, fault: Option<Thrown>)
      requires db.Valid()
      modifies this, db`tasks
      ensures db.Valid() && board == old(board)
      ensures fault.None? ==>
        && db.tasks == TaskService.MovedTable(old(db.tasks), taskId, newColumnId, newOrder)
        && columns == MovedColumns(old(columns), taskId, newColumnId, newOrder)
        && error == old(error)
      ensures fault.Some? ==>
        && db.tasks == old(db.tasks) && columns == old(columns)
        && error == Some(ErrorText(fault.value, "Failed to Move task"))
    {
      var moved := TaskService.MoveTask(db, taskId, newColumnId, newOrder, fault);
      if moved.Failure? {
        error := Some(ErrorText(moved.error, "Failed to Move task"));
        return;
      }
      columns := ApplyMove(columns, taskId, newColumnId, newOrder);
    }

    /** `createColumn`: throws "Board not Loaded." without a board or a
        signed-in user; otherwise stores a column at position
        `columns.length` and shows it last with no tasks. Returns the stored
        column, or nothing when the insert failed. */
    method CreateColumn(db: Database, title: string, user: Option<string>, stamp: RowStamp, fault: Option<Thrown>)
      returns (r: Result<Option<Column>, Thrown>)
      requires db.Valid() && stamp.id !in db.columns
      modifies this, db`columns
      ensures db.Valid() && board == old(board)
      ensures board.None? || user.None? ==>
        r == Failure(BoardNotLoaded) && db.columns == old(db.columns) && columns == old(columns) && error == old(error)
      ensures board.Some? && user.Some? && fault.None? ==>
        var column := BoardServices.StoredColumn(
          BoardServices.NewColumn(board.value.id, title, |old(columns)|, user.value), stamp);
        && r == Success(Some(column))
        && db.columns == old(db.columns)[stamp.id := column]
        && columns == old(columns) + [ColumnWithTasks(column, [])]
        && error == old(error)
      ensures board.Some? && user.Some? && fault.Some? ==>
        && r == Success(None) && db.columns == old(db.columns) && columns == old(columns)
        && error == Some(ErrorText(fault.value, "Failed to create column"))
    {
      if board.None? || user.None? {
        return Failure(BoardNotLoaded);
      }
      var newColumn := BoardServices.CreateColumn(
        db, BoardServices.NewColumn(board.value.id, title, |columns|, user.value), stamp, fault);
      if newColumn.Failure? {
        error := Some(ErrorText(newColumn.error, "Failed to create column"));
        return Success(None);
      }
      columns := columns + [ColumnWithTasks(newColumn.value, [])];
      return Success(Some(newColumn.value));
    }

    /** `updateColumn`: throws "Board not Loaded." without a board or a
        signed-in user; otherwise renames the stored column and merges the
        stored row into each shown column with the id. */
    method UpdateColumn(db: Database, columnId: string, title: string, user: Option<string>, fault: Option<Thrown>)
      returns (r: Result<Option<Column>, Thrown>)
      requires db.Valid()
      modifies this, db`columns
      ensures db.Valid() && board == old(board)
      ensures board.None? || user.None? ==>
        r == Failure(BoardNotLoaded) && db.columns == old(db.columns) && columns == old(columns) && error == old(error)
      ensures board.Some? && user.Some? && fault.None? && columnId in old(db.columns) ==>
        var column := old(db.columns)[columnId].(title := title);
        && r == Success(Some(column))
        && db.columns == old(db.columns)[columnId := column]
        && columns == WithColumnMerged(old(columns), columnId, column)
        && error == old(error)
      ensures board.Some? && user.Some? && (fault.Some? || columnId !in old(db.columns)) ==>
        && r == Success(None) && db.columns == old(db.columns) && columns == old(columns)
        && error == Some(ErrorText(if fault.Some? then fault.value else NoRowError, "Failed to create column"))
    {
      if board.None? || user.None? {
        return Failure(BoardNotLoaded);
      }
      var updated := BoardServices.UpdateColumnTitle(db, columnId, title, fault);
      if updated.Failure? {
        error := Some(ErrorText(updated.error, "Failed to create column"));
        return Success(None);
      }
      columns := WithColumnMerged(columns, columnId, updated.value);
      return Success(Some(updated.value));
    }
  }
}
