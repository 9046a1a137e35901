/** The board and column tables and the composed board view of
    lib/board-services.ts. Each request may fail in the gateway (`fault`);
    a failed request writes nothing and its error is rethrown. Requests the
    source runs together with `Promise.all` run one after the other here. */
module BoardServices {
  import opened Wrappers
  import opened Models
  import opened Store
  import opened Ordering
  import TaskService

  // ---------------------------------------------------------------- boards

  /** The fields `createBoard` inserts. */
  datatype NewBoard = NewBoard(title: string, description: Option<string>, color: string, userId: string)

  /** The row the store keeps for an inserted board. */
  function StoredBoard(b: NewBoard, stamp: RowStamp): Board {
    Board(stamp.id, b.title, b.description, b.color, b.userId, stamp.at, stamp.at)
  }

  /** A partial board: each present field overwrites the stored one. The
      row's id and creation time are not part of a patch, and `updated_at`
      is always overwritten with the request's own instant. */
  datatype BoardPatch = BoardPatch(
    title: Option<string>,
    description: Option<Option<string>>,
    color: Option<string>,
    userId: Option<string>)

  /** A board row after `updateBoard`: the patch's fields are merged in,
      `updated_at` becomes `now`, and nothing else changes. */
  function Patched(b: Board, p: BoardPatch, now: int): (r: Board)
    ensures r.id == b.id && r.createdAt == b.createdAt && r.updatedAt == now
    ensures r.title == (if p.title.Some? then p.title.value else b.title)
    ensures r.description == (if p.description.Some? then p.description.value else b.description)
    ensures r.color == (if p.color.Some? then p.color.value else b.color)
    ensures r.userId == (if p.userId.Some? then p.userId.value else b.userId)
  {
    b.(title := p.title.GetOr(b.title),
       description := p.description.GetOr(b.description),
       color := p.color.GetOr(b.color),
       userId := p.userId.GetOr(b.userId),
       updatedAt := now)
  }

  /** The sort key of `getBoards`: newest `created_at` first. */
  function NewestFirst(b: Board): int { -b.createdAt }

  /** The boards a user owns. */
  function BoardsOf(boards: map<string, Board>, userId: string): set<Board> {
    set b | b in boards.Values && b.userId == userId
  }

  /** `list` is an answer of `getBoards`: the user's boards, each once,
      newest first. */
  predicate IsUserBoardList(boards: map<string, Board>, userId: string, list: seq<Board>) {
    SortedBy(list, NewestFirst) && multiset(list) == multiset(BoardsOf(boards, userId))
  }

  /** `getBoard`: `.single()` throws when no row has the id. */
  method GetBoard(db: Database, boardId: string, fault: Option<Thrown>) returns (r: Result<Board, Thrown>)
    ensures fault.Some? ==> r == Failure(fault.value)
    ensures fault.None? && boardId !in db.boards ==> r == Failure(NoRowError)
    ensures fault.None? && boardId in db.boards ==> r == Success(db.boards[boardId])
  {
    if fault.Some? {
      return Failure(fault.value);
    }
    if boardId !in db.boards {
      return Failure(NoRowError);
    }
    return Success(db.boards[boardId]);
  }

  /** `getBoards`. */
  method GetBoards(db: Database, userId: string, fault: Option<Thrown>) returns (r: Result<seq<Board>, Thrown>)
    ensures fault.Some? ==> r == Failure(fault.value)
    ensures fault.None? ==> r.Success? && IsUserBoardList(db.boards, userId, r.value)
  {
    if fault.Some? {
      return Failure(fault.value);
    }
    var list := SortedSeqOf(BoardsOf(db.boards, userId), NewestFirst);
    return Success(list);
  }

  /** `createBoard`: inserts the row and returns it as stored. */
  method CreateBoard(db: Database, b: NewBoard, stamp: RowStamp, fault: Option<Thrown>)
    returns (r: Result<Board, Thrown>)
    requires db.Valid() && stamp.id !in db.boards
    modifies db`boards
    ensures db.Valid()
    ensures fault.Some? ==> r == Failure(fault.value) && db.boards == old(db.boards)
    ensures fault.None? ==> r == Success(StoredBoard(b, stamp)) && db.boards == old(db.boards)[stamp.id := r.value]
  {
    if fault.Some? {
      return Failure(fault.value);
    }
    var row := StoredBoard(b, stamp);
    db.boards := db.boards[stamp.id := row];
    return Success(row);
  }

  /** `updateBoard`: `.single()` throws when no row has the id. */
  method UpdateBoard(db: Database, boardId: string, patch: BoardPatch, now: int, fault: Option<Thrown>)
    returns (r: Result<Board, Thrown>)
    requires db.Valid()
    modifies db`boards
    ensures db.Valid()
    ensures fault.Some? ==> r == Failure(fault.value) && db.boards == old(db.boards)
    ensures fault.None? && boardId !in old(db.boards) ==> r == Failure(NoRowError) && db.boards == old(db.boards)
    ensures fault.None? && boardId in old(db.boards) ==>
      r == Success(Patched(old(db.boards)[boardId], patch, now)) && db.boards == old(db.boards)[boardId := r.value]
  {
    if fault.Some? {
      return Failure(fault.value);
    }
    if boardId !in db.boards {
      return Failure(NoRowError);
    }
    var row := Patched(db.boards[boardId], patch, now);
    db.boards := db.boards[boardId := row];
    return Success(row);
  }

  // --------------------------------------------------------------- columns

  /** The fields `createColumn` inserts. */
  datatype NewColumn = NewColumn(boardId: string, title: string, sortOrder: int, userId: string)

  /** The row the store keeps for an inserted column. */
  function StoredColumn(c: NewColumn, stamp: RowStamp): Column {
    Column(stamp.id, c.boardId, c.title, c.sortOrder, stamp.at, c.userId)
  }

  /** The sort key of `getColumns`. */
  function ColumnOrder(c: Column): int { c.sortOrder }

  /** The columns of a board. */
  function ColumnsOfBoard(columns: map<string, Column>, boardId: string): set<Column> {
    set c | c in columns.Values && c.boardId == boardId
  }

  /** `list` is an answer of `getColumns`: the board's columns, each once,
      by ascending `sort_order`. */
  predicate IsBoardColumnList(columns: map<string, Column>, boardId: string, list: seq<Column>) {
    SortedBy(list, ColumnOrder) && multiset(list) == multiset(ColumnsOfBoard(columns, boardId))
  }

  /** `getColumns`. */
  method GetColumns(db: Database, boardId: string, fault: Option<Thrown>) returns (r: Result<seq<Column>, Thrown>)
    ensures fault.Some? ==> r == Failure(fault.value)
    ensures fault.None? ==> r.Success? && IsBoardColumnList(db.columns, boardId, r.value)
  {
    if fault.Some? {
      return Failure(fault.value);
    }
    var list := SortedSeqOf(ColumnsOfBoard(db.columns, boardId), ColumnOrder);
    return Success(list);
  }

  /** `createColumn`: inserts the row and returns it as stored. */
  method CreateColumn(db: Database, c: NewColumn, stamp: RowStamp, fault: Option<Thrown>)
    returns (r: Result<Column, Thrown>)
    requires db.Valid() && stamp.id !in db.columns
    modifies db`columns
    ensures db.Valid()
    ensures fault.Some? ==> r == Failure(fault.value) && db.columns == old(db.columns)
    ensures fault.None? ==> r == Success(StoredColumn(c, stamp)) && db.columns == old(db.columns)[stamp.id := r.value]
  {
    if fault.Some? {
      return Failure(fault.value);
    }
    var row := StoredColumn(c, stamp);
    db.columns := db.columns[stamp.id := row];
    return Success(row);
  }

  /** `updateColumnTitle`: writes the title of the one column and nothing
      else; `.single()` throws when no row has the id. */
  method UpdateColumnTitle(db: Database, columnId: string, title: string, fault: Option<Thrown>)
    returns (r: Result<Column, Thrown>)
    requires db.Valid()
    modifies db`columns
    ensures db.Valid()
    ensures fault.Some? ==> r == Failure(fault.value) && db.columns == old(db.columns)
    ensures fault.None? && columnId !in old(db.columns) ==> r == Failure(NoRowError) && db.columns == old(db.columns)
    ensures fault.None? && columnId in old(db.columns) ==>
      r == Success(old(db.columns)[columnId].(title := title)) && db.columns == old(db.columns)[columnId := r.value]
  {
    if fault.Some? {
      return Failure(fault.value);
    }
    if columnId !in db.columns {
      return Failure(NoRowError);
    }
    var row := db.columns[columnId].(title := title);
    db.columns := db.columns[columnId := row];
    return Success(row);
  }

  // ------------------------------------------------------ the board view

  /** The fetched tasks whose column is `columnId`, in fetched order. */
  function TasksOfColumn(tasks: seq<Task>, columnId: string): (r: seq<Task>)
    ensures |r| <= |tasks|
    ensures forall k :: 0 <= k < |r| ==> r[k].columnId == columnId && r[k] in tasks
  {
    if tasks == [] then []
    else (if tasks[0].columnId == columnId then [tasks[0]] else []) + TasksOfColumn(tasks[1..], columnId)
  }

  /** Each fetched column, with the fetched tasks that name it. */
  function Partition(columns: seq<Column>, tasks: seq<Task>): (r: seq<ColumnWithTasks>)
    ensures |r| == |columns|
    ensures forall k :: 0 <= k < |r| ==> r[k].column == columns[k]
    ensures forall k, j :: 0 <= k < |r| && 0 <= j < |r[k].tasks| ==>
      r[k].tasks[j].columnId == columns[k].id && r[k].tasks[j] in tasks
  {
    seq(|columns|, k requires 0 <= k < |columns| => ColumnWithTasks(columns[k], TasksOfColumn(tasks, columns[k].id)))
  }

  /** The ids of a list of columns. */
  function IdsOf(columns: seq<Column>): seq<string> {
    seq(|columns|, k requires 0 <= k < |columns| => columns[k].id)
  }

  predicate DistinctIds(columns: seq<Column>) {
    forall i, j :: 0 <= i < j < |columns| ==> columns[i].id != columns[j].id
  }

  /** A column's list holds each task naming it as often as the fetched
      list does, and no other task. */
  lemma {:induction false} TasksOfColumnCount(tasks: seq<Task>, columnId: string, t: Task)
    ensures multiset(TasksOfColumn(tasks, columnId))[t] == if t.columnId == columnId then multiset(tasks)[t] else 0
  {
    if tasks != [] {
      assert tasks == [tasks[0]] + tasks[1..];
      TasksOfColumnCount(tasks[1..], columnId, t);
    }
  }

  /** The filter keeps the fetch order: it distributes over concatenation. */
  lemma {:induction false} TasksOfColumnAppend(a: seq<Task>, b: seq<Task>, columnId: string)
    ensures TasksOfColumn(a + b, columnId) == TasksOfColumn(a, columnId) + TasksOfColumn(b, columnId)
  {
    if a != [] {
      var head := if a[0].columnId == columnId then [a[0]] else [];
      assert (a + b)[1..] == a[1..] + b;
      calc {
        TasksOfColumn(a + b, columnId);
        head + TasksOfColumn(a[1..] + b, columnId);
        { TasksOfColumnAppend(a[1..], b, columnId); }
        head + (TasksOfColumn(a[1..], columnId) + TasksOfColumn(b, columnId));
        TasksOfColumn(a, columnId) + TasksOfColumn(b, columnId);
      }
    } else {
      assert a + b == b;
    }
  }

  /** The view has the fetched columns, in their order and with their fields,
      and column `k` holds exactly the tasks whose `column_id` is its id. */
  lemma PartitionColumns(columns: seq<Column>, tasks: seq<Task>)
    ensures |Partition(columns, tasks)| == |columns|
    ensures forall k :: 0 <= k < |columns| ==> Partition(columns, tasks)[k].column == columns[k]
    ensures forall k, t :: 0 <= k < |columns| ==>
      multiset(Partition(columns, tasks)[k].tasks)[t] == if t.columnId == columns[k].id then multiset(tasks)[t] else 0
  {
    forall k, t | 0 <= k < |columns|
      ensures multiset(Partition(columns, tasks)[k].tasks)[t] == if t.columnId == columns[k].id then multiset(tasks)[t] else 0
    {
      TasksOfColumnCount(tasks, columns[k].id, t);
    }
  }

  /** With distinct column ids, the whole view holds a fetched task as often
      as the fetched list does when its column is shown, and not at all when
      no column has its `column_id`. */
  lemma {:induction false} PartitionPlacesTasks(columns: seq<Column>, tasks: seq<Task>, t: Task)
    requires DistinctIds(columns)
    ensures multiset(AllTasks(Partition(columns, tasks)))[t] ==
      if t.columnId in IdsOf(columns) then multiset(tasks)[t] else 0
  {
    if columns != [] {
      var p := Partition(columns, tasks);
      assert p[1..] == Partition(columns[1..], tasks);
      assert IdsOf(columns) == [columns[0].id] + IdsOf(columns[1..]);
      assert t.columnId == columns[0].id ==> t.columnId !in IdsOf(columns[1..]);
      TasksOfColumnCount(tasks, columns[0].id, t);
      PartitionPlacesTasks(columns[1..], tasks, t);
    }
  }

  /** Rows listed from a table keyed by id have distinct ids. */
  lemma ListedColumnsDistinct(columns: map<string, Column>, boardId: string, list: seq<Column>)
    requires ColumnsKeyed(columns)
    requires multiset(list) == multiset(ColumnsOfBoard(columns, boardId))
    ensures DistinctIds(list)
  {
    NoRepeats(list, ColumnsOfBoard(columns, boardId));
    forall i, j | 0 <= i < j < |list|
      ensures list[i].id != list[j].id
    {
      assert list[i] in multiset(list) && list[j] in multiset(list);
      assert list[i] in columns.Values && list[j] in columns.Values;
    }
  }

  /** A loaded board view shows every task of the board exactly once and
      no other task. */
  lemma LoadedViewShowsEachTaskOnce(db_columns: map<string, Column>, db_tasks: map<string, Task>,
                                     boardId: string, columns: seq<Column>, tasks: seq<Task>, t: Task)
    requires ColumnsKeyed(db_columns)
    requires IsBoardColumnList(db_columns, boardId, columns)
    requires TaskService.IsBoardTaskList(db_tasks, db_columns, boardId, tasks)
    ensures multiset(AllTasks(Partition(columns, tasks)))[t] ==
      if t in TaskService.TasksOfBoard(db_tasks, db_columns, boardId) then 1 else 0
  {
    ListedColumnsDistinct(db_columns, boardId, columns);
    PartitionPlacesTasks(columns, tasks, t);
    if t in TaskService.TasksOfBoard(db_tasks, db_columns, boardId) {
      var c := db_columns[t.columnId];
      assert c in ColumnsOfBoard(db_columns, boardId);
      assert c in multiset(columns);
      var k :| 0 <= k < |columns| && columns[k] == c;
      assert IdsOf(columns)[k] == t.columnId;
    }
  }

  /** The composed view `{ board, columnsWithTasks }`. */
  datatype BoardView = BoardView(board: Board, columnsWithTasks: seq<ColumnWithTasks>)

  /** `getBoardWithColumns`. The board lookup's `.single()` already throws
      for an unknown id, so the "Board not found" guard after it never
      fires. Each of the three reads may fail; of the two run together, the
      board's failure is the one reported. The ghost results are the
      fetched column and task lists. */
  method GetBoardWithColumns(db: Database, boardId: string,
                             boardFault: Option<Thrown>, columnsFault: Option<Thrown>, tasksFault: Option<Thrown>)
    returns (r: Result<BoardView, Thrown>, ghost columns: seq<Column>, ghost tasks: seq<Task>)
    ensures boardFault.Some? ==> r == Failure(boardFault.value)
    ensures boardFault.None? && boardId !in db.boards ==> r == Failure(NoRowError)
    ensures boardFault.None? && boardId in db.boards && columnsFault.Some? ==> r == Failure(columnsFault.value)
    ensures boardFault.None? && boardId in db.boards && columnsFault.None? && tasksFault.Some? ==>
      r == Failure(tasksFault.value)
    ensures boardFault.None? && columnsFault.None? && tasksFault.None? && boardId in db.boards ==>
      && r.Success? && r.value.board == db.boards[boardId]
      && IsBoardColumnList(db.columns, boardId, columns)
      && TaskService.IsBoardTaskList(db.tasks, db.columns, boardId, tasks)
      && r.value.columnsWithTasks == Partition(columns, tasks)
  {
    columns, tasks := [], [];
    var board := GetBoard(db, boardId, boardFault);
    var cols := GetColumns(db, boardId, columnsFault);
    if board.Failure? {
      return Failure(board.error), columns, tasks;
    }
    if cols.Failure? {
      return Failure(cols.error), columns, tasks;
    }
    var ts := TaskService.GetTasksByBoard(db, boardId, tasksFault);
    if ts.Failure? {
      return Failure(ts.error), columns, tasks;
    }
    columns, tasks := cols.value, ts.value;
    return Success(BoardView(board.value, Partition(cols.value, ts.value))), columns, tasks;
  }

  /** A board with the task list of its board, as `getTotalTasksCount` returns. */
  datatype BoardWithTasks = BoardWithTasks(board: Board, tasks: seq<Task>)

  /** `getTotalTasksCount`: the user's boards, newest first, each with its
      tasks. `fault` stands for a failure of any of its reads. */
  method GetTotalTasksCount(db: Database, userId: string, fault: Option<Thrown>)
    returns (r: Result<seq<BoardWithTasks>, Thrown>)
    ensures fault.Some? ==> r == Failure(fault.value)
    ensures fault.None? ==> r.Success?
    ensures r.Success? ==>
      && IsUserBoardList(db.boards, userId, seq(|r.value|, k requires 0 <= k < |r.value| => r.value[k].board))
      && forall k :: 0 <= k < |r.value| ==>
           TaskService.IsBoardTaskList(db.tasks, db.columns, r.value[k].board.id, r.value[k].tasks)
  {
    var boards := GetBoards(db, userId, fault);
    if boards.Failure? {
      return Failure(boards.error);
    }
    var bs := boards.value;
    var acc: seq<BoardWithTasks> := [];
    var i := 0;
    while i < |bs|
      invariant 0 <= i <= |bs|
      invariant |acc| == i
      invariant forall k :: 0 <= k < i ==> acc[k].board == bs[k]
      invariant forall k :: 0 <= k < i ==> TaskService.IsBoardTaskList(db.tasks, db.columns, bs[k].id, acc[k].tasks)
    {
      var ts := TaskService.GetTasksByBoard(db, bs[i].id, None);
      acc := acc + [BoardWithTasks(bs[i], ts.value)];
      i := i + 1;
    }
    assert seq(|acc|, k requires 0 <= k < |acc| => acc[k].board) == bs;
    return Success(acc);
  }

  // ------------------------------------------- a new board and its columns

  /** What `createBoardWithDefaultColumns` is given. */
  datatype BoardData = BoardData(title: string, description: Option<string>, color: Option<string>, userId: string)

  /** The board row requested for new board data: an empty or missing
      description becomes null and an empty or missing colour "bg-blue-500". */
  function NewBoardFrom(d: BoardData): (b: NewBoard)
    ensures b.title == d.title && b.userId == d.userId
    ensures b.description == (if Truthy(d.description) then d.description else None)
    ensures b.color == (if Truthy(d.color) then d.color.value else "bg-blue-500")
  {
    NewBoard(d.title, OrNull(d.description), if Truthy(d.color) then d.color.value else "bg-blue-500", d.userId)
  }

  const DefaultTitles: seq<string> := ["To do", "In Progress", "Review", "Done"]

  /** The four default columns of a new board: positions 0 to 3, each on the
      board and owned by the user. */
  function DefaultColumnRows(boardId: string, userId: string): (r: seq<NewColumn>)
    ensures |r| == 4
    ensures forall k :: 0 <= k < 4 ==> r[k].sortOrder == k && r[k].boardId == boardId && r[k].userId == userId
    ensures [r[0].title, r[1].title, r[2].title, r[3].title] == ["To do", "In Progress", "Review", "Done"]
  {
    seq(4, k requires 0 <= k < 4 => NewColumn(boardId, DefaultTitles[k], k, userId))
  }

  /** The column table after inserting `rows` in order, each insert that has
      no fault adding its row under its stamp's id. */
  function AddColumns(m: map<string, Column>, rows: seq<NewColumn>, stamps: seq<RowStamp>, faults: seq<Option<Thrown>>)
    : map<string, Column>
    requires |rows| == |stamps| == |faults|
  {
    if rows == [] then m
    else
      var n := |rows| - 1;
      var before := AddColumns(m, rows[..n], stamps[..n], faults[..n]);
      if faults[n].None? then before[stamps[n].id := StoredColumn(rows[n], stamps[n])] else before
  }

  /** The ids of a list of stamps. */
  function StampIds(stamps: seq<RowStamp>): seq<string> {
    seq(|stamps|, k requires 0 <= k < |stamps| => stamps[k].id)
  }

  /** The first fault of a list of requests, which `Promise.all` rethrows. */
  function FirstFault(faults: seq<Option<Thrown>>): Option<Thrown> {
    if faults == [] then None
    else
      var before := FirstFault(faults[..|faults| - 1]);
      if before.Some? then before else faults[|faults| - 1]
  }

  /** When no insert fails, exactly the stamps' ids are added as keys. */
  lemma {:induction false} AddColumnsKeys(m: map<string, Column>, rows: seq<NewColumn>, stamps: seq<RowStamp>, faults: seq<Option<Thrown>>)
    requires |rows| == |stamps| == |faults|
    requires forall k :: 0 <= k < |faults| ==> faults[k].None?
    ensures forall id :: id in AddColumns(m, rows, stamps, faults) <==> id in m || id in StampIds(stamps)
  {
    if rows != [] {
      var n := |rows| - 1;
      assert forall k :: 0 <= k < n ==> faults[..n][k].None?;
      AddColumnsKeys(m, rows[..n], stamps[..n], faults[..n]);
      assert StampIds(stamps) == StampIds(stamps[..n]) + [stamps[n].id];
    }
  }

  /** When no insert fails and the stamps' ids are distinct, every row is
      stored under its own stamp's id. */
  lemma {:induction false} AddColumnsAll(m: map<string, Column>, rows: seq<NewColumn>, stamps: seq<RowStamp>, faults: seq<Option<Thrown>>)
    requires |rows| == |stamps| == |faults|
    requires forall k :: 0 <= k < |faults| ==> faults[k].None?
    requires forall i, j :: 0 <= i < j < |stamps| ==> stamps[i].id != stamps[j].id
    ensures forall k :: 0 <= k < |rows| ==>
      stamps[k].id in AddColumns(m, rows, stamps, faults) &&
      AddColumns(m, rows, stamps, faults)[stamps[k].id] == StoredColumn(rows[k], stamps[k])
  {
    if rows != [] {
      var n := |rows| - 1;
      var before := AddColumns(m, rows[..n], stamps[..n], faults[..n]);
      assert forall k :: 0 <= k < n ==> faults[..n][k].None?;
      assert forall i, j :: 0 <= i < j < n ==> stamps[..n][i].id != stamps[..n][j].id;
      AddColumnsAll(m, rows[..n], stamps[..n], faults[..n]);
      assert AddColumns(m, rows, stamps, faults) == before[stamps[n].id := StoredColumn(rows[n], stamps[n])];
      forall k | 0 <= k < n
        ensures stamps[k].id in before && before[stamps[k].id] == StoredColumn(rows[k], stamps[k])
      {
        assert stamps[..n][k] == stamps[k] && rows[..n][k] == rows[k];
      }
    }
  }

  /** Inserting columns never changes a column stored under another key. */
  lemma {:induction false} AddColumnsKeeps(m: map<string, Column>, rows: seq<NewColumn>, stamps: seq<RowStamp>, faults: seq<Option<Thrown>>, id: string)
    requires |rows| == |stamps| == |faults|
    requires id in m && id !in StampIds(stamps)
    ensures id in AddColumns(m, rows, stamps, faults) && AddColumns(m, rows, stamps, faults)[id] == m[id]
  {
    if rows != [] {
      var n := |rows| - 1;
      assert StampIds(stamps) == StampIds(stamps[..n]) + [stamps[n].id];
      AddColumnsKeeps(m, rows[..n], stamps[..n], faults[..n], id);
    }
  }

  /** One more insert: the table after `i + 1` inserts is the table after
      `i` with the next row added, unless that insert fails. */
  lemma AddColumnsStep(m: map<string, Column>, rows: seq<NewColumn>, stamps: seq<RowStamp>, faults: seq<Option<Thrown>>, i: nat)
    requires |rows| == |stamps| == |faults| && i < |rows|
    ensures AddColumns(m, rows[..i + 1], stamps[..i + 1], faults[..i + 1]) ==
      var before := AddColumns(m, rows[..i], stamps[..i], faults[..i]);
      if faults[i].None? then before[stamps[i].id := StoredColumn(rows[i], stamps[i])] else before
  {
    assert rows[..i + 1][..i] == rows[..i];
    assert stamps[..i + 1][..i] == stamps[..i];
    assert faults[..i + 1][..i] == faults[..i];
  }

  /** One more request: the first fault of `i + 1` requests is the first of
      `i`, or else the new request's fault. */
  lemma FirstFaultStep(faults: seq<Option<Thrown>>, i: nat)
    requires i < |faults|
    ensures FirstFault(faults[..i + 1]) ==
      if FirstFault(faults[..i]).Some? then FirstFault(faults[..i]) else faults[i]
  {
    assert faults[..i + 1][..i] == faults[..i];
  }

  /** `createBoardWithDefaultColumns`. The board is inserted first; a failed
      board insert throws and inserts no column. Otherwise the four default
      columns are all requested; those whose insert does not fail are
      stored, and the first failure, if any, is rethrown after them. */
  method CreateBoardWithDefaultColumns(db: Database, data: BoardData, boardStamp: RowStamp,
                                       columnStamps: seq<RowStamp>, boardFault: Option<Thrown>,
                                       columnFaults: seq<Option<Thrown>>)
    returns (r: Result<Board, Thrown>)
    requires db.Valid() && boardStamp.id !in db.boards
    requires |columnStamps| == 4 && |columnFaults| == 4
    requires forall i, j :: 0 <= i < j < 4 ==> columnStamps[i].id != columnStamps[j].id
    requires forall i :: 0 <= i < 4 ==> columnStamps[i].id !in db.columns
    modifies db`boards, db`columns
    ensures db.Valid()
    ensures boardFault.Some? ==>
      r == Failure(boardFault.value) && db.boards == old(db.boards) && db.columns == old(db.columns)
    ensures boardFault.None? ==>
      var board := StoredBoard(NewBoardFrom(data), boardStamp);
      && db.boards == old(db.boards)[boardStamp.id := board]
      && db.columns == AddColumns(old(db.columns), DefaultColumnRows(boardStamp.id, data.userId), columnStamps, columnFaults)
      && r == (if FirstFault(columnFaults).Some? then Failure(FirstFault(columnFaults).value) else Success(board))
  {
    var created := CreateBoard(db, NewBoardFrom(data), boardStamp, boardFault);
    if created.Failure? {
      return Failure(created.error);
    }
    var board := created.value;
    var rows := DefaultColumnRows(board.id, data.userId);
    var first: Option<Thrown> := None;
    var i := 0;
    while i < 4
      invariant 0 <= i <= 4
      invariant db.Valid()
      invariant db.boards == old(db.boards)[boardStamp.id := board]
      invariant db.columns == AddColumns(old(db.columns), rows[..i], columnStamps[..i], columnFaults[..i])
      invariant first == FirstFault(columnFaults[..i])
      invariant forall j :: i <= j < 4 ==> columnStamps[j].id !in db.columns
    {
      AddColumnsStep(old(db.columns), rows, columnStamps, columnFaults, i);
      FirstFaultStep(columnFaults, i);
      var c := CreateColumn(db, rows[i], columnStamps[i], columnFaults[i]);
      if first.None? && c.Failure? {
        first := Some(c.error);
      }
      i := i + 1;
    }
    assert rows[..4] == rows && columnStamps[..4] == columnStamps && columnFaults[..4] == columnFaults;
    if first.Some? {
      return Failure(first.value);
    }
    return Success(board);
  }
}
