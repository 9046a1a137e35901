/** The dashboard's list of boards and its task total (the `useBoards` hook
    of lib/hooks/use-boards.ts). */
module UseBoards {
  import opened Wrappers
  import opened Models
  import opened Store
  import BoardServices
  import TaskService

  /** The sum of the task counts of the entries, entry by entry. */
  function SumOfLengths(totalTasks: seq<BoardServices.BoardWithTasks>): (sum: nat)
    ensures forall k :: 0 <= k < |totalTasks| ==> |totalTasks[k].tasks| <= sum
  {
    if totalTasks == [] then 0
    else SumOfLengths(totalTasks[..|totalTasks| - 1]) + |totalTasks[|totalTasks| - 1].tasks|
  }

  /** The tasks of all entries, one entry after the other. */
  function AllBoardTasks(totalTasks: seq<BoardServices.BoardWithTasks>): seq<Task> {
    if totalTasks == [] then [] else totalTasks[0].tasks + AllBoardTasks(totalTasks[1..])
  }

  /** The sum splits over a concatenation of entry lists. */
  lemma {:induction false} SumOfLengthsAppend(a: seq<BoardServices.BoardWithTasks>, b: seq<BoardServices.BoardWithTasks>)
    ensures SumOfLengths(a + b) == SumOfLengths(a) + SumOfLengths(b)
  {
    if b != [] {
      var n := |b| - 1;
      assert (a + b)[..|a + b| - 1] == a + b[..n];
      SumOfLengthsAppend(a, b[..n]);
    } else {
      assert a + b == a;
    }
  }

  /** The sum counts every task of every entry: it is the length of all
      the entries' tasks put together. */
  lemma {:induction false} SumCountsAllTasks(totalTasks: seq<BoardServices.BoardWithTasks>)
    ensures SumOfLengths(totalTasks) == |AllBoardTasks(totalTasks)|
  {
    if totalTasks != [] {
      SumCountsAllTasks(totalTasks[1..]);
      assert totalTasks == [totalTasks[0]] + totalTasks[1..];
      SumOfLengthsAppend([totalTasks[0]], totalTasks[1..]);
      assert [totalTasks[0]][..0] == [];
    }
  }

  /** The boards of the entries, in order. */
  function BoardsListed(totalTasks: seq<BoardServices.BoardWithTasks>): (bs: seq<Board>)
    ensures |bs| == |totalTasks|
    ensures forall k :: 0 <= k < |bs| ==> bs[k] == totalTasks[k].board
  {
    seq(|totalTasks|, k requires 0 <= k < |totalTasks| => totalTasks[k].board)
  }

  /** The effect that recomputes `tasksSum` with a `forEach` loop. */
  method TasksSum(totalTasks: seq<BoardServices.BoardWithTasks>) returns (sum: nat)
    ensures sum == SumOfLengths(totalTasks)
  {
    sum := 0;
    var i := 0;
    while i < |totalTasks|
      invariant 0 <= i <= |totalTasks|
      invariant sum == SumOfLengths(totalTasks[..i])
    {
      assert totalTasks[..i + 1][..i] == totalTasks[..i];
      sum := sum + |totalTasks[i].tasks|;
      i := i + 1;
    }
    assert totalTasks[..i] == totalTasks;
  }

  const NotAuthenticated: Thrown := Raise("User not authenticated.")

  /** What the dashboard's form gives `createBoard`. */
  datatype BoardForm = BoardForm(title: string, description: Option<string>, color: Option<string>)

  class BoardsHook {
    var boards: seq<Board>
    var error: Option<string>
    var totalTasks: seq<BoardServices.BoardWithTasks>
    var tasksSum: nat

    /** `tasksSum` is the total of the task counts of `totalTasks`. */
    ghost predicate Valid()
      reads this
    {
      tasksSum == SumOfLengths(totalTasks)
    }

    constructor ()
      ensures Valid() && boards == [] && error == None && totalTasks == [] && tasksSum == 0
    {
      boards, error, totalTasks, tasksSum := [], None, [], 0;
    }

    /** `loadBoards`: does nothing without a signed-in user. */
    method LoadBoards(db: Database, user: Option<string>, fault: Option<Thrown>)
      requires Valid()
      modifies this
      ensures Valid() && totalTasks == old(totalTasks)
      ensures user.None? ==> boards == old(boards) && error == old(error)
      ensures user.Some? && fault.None? ==>
        BoardServices.IsUserBoardList(db.boards, user.value, boards) && error == None
      ensures user.Some? && fault.Some? ==>
        boards == old(boards) && error == Some(ErrorText(fault.value, "Failed to load boards."))
    {
      if user.None? {
        return;
      }
      error := None;
      var data := BoardServices.GetBoards(db, user.value, fault);
      if data.Failure? {
        error := Some(ErrorText(data.error, "Failed to load boards."));
        return;
      }
      boards := data.value;
    }

    /** `getTotalTasks`: throws without a signed-in user; otherwise loads
        each of the user's boards with its tasks, after which the effect
        recomputes `tasksSum`. */
    method GetTotalTasks(db: Database, user: Option<string>, fault: Option<Thrown>)
      returns (r: Result<(), Thrown>)
      requires Valid()
      modifies this
      ensures Valid() && boards == old(boards)
      ensures user.None? ==> r == Failure(NotAuthenticated) && totalTasks == old(totalTasks) && error == old(error)
      ensures user.Some? ==> r == Success(())
      ensures user.Some? && fault.None? ==>
        && BoardServices.IsUserBoardList(db.boards, user.value, BoardsListed(totalTasks))
        && (forall k :: 0 <= k < |totalTasks| ==>
              TaskService.IsBoardTaskList(db.tasks, db.columns, totalTasks[k].board.id, totalTasks[k].tasks))
        && tasksSum == |AllBoardTasks(totalTasks)|
        && error == old(error)
      ensures user.Some? && fault.Some? ==>
        totalTasks == old(totalTasks) && error == Some(ErrorText(fault.value, "Failed to create board"))
    {
      if user.None? {
        return Failure(NotAuthenticated);
      }
      var all := BoardServices.GetTotalTasksCount(db, user.value, fault);
      if all.Failure? {
        error := Some(ErrorText(all.error, "Failed to create board"));
        return Success(());
      }
      totalTasks := all.value;
      tasksSum := TasksSum(totalTasks);
      SumCountsAllTasks(totalTasks);
      ghost var listed := all.value;
      assert BoardsListed(listed) == seq(|listed|, k requires 0 <= k < |listed| => listed[k].board);
      return Success(());
    }

    /** `createBoard`: throws without a signed-in user; otherwise creates the
        board with its default columns and, when that succeeds, puts it
        first in `boards` ahead of the earlier ones. */
    method CreateBoard(db: Database, user: Option<string>, form: BoardForm, boardStamp: RowStamp,
                       columnStamps: seq<RowStamp>, boardFault: Option<Thrown>, columnFaults: seq<Option<Thrown>>)
      returns (r: Result<(), Thrown>)
      requires Valid() && db.Valid() && boardStamp.id !in db.boards
      requires |columnStamps| == 4 && |columnFaults| == 4
      requires forall i, j :: 0 <= i < j < 4 ==> columnStamps[i].id != columnStamps[j].id
      requires forall i :: 0 <= i < 4 ==> columnStamps[i].id !in db.columns
      modifies this, db`boards, db`columns
      ensures Valid() && db.Valid() && totalTasks == old(totalTasks)
      ensures user.None? ==>
        && r == Failure(NotAuthenticated) && boards == old(boards) && error == old(error)
        && db.boards == old(db.boards) && db.columns == old(db.columns)
      ensures user.Some? ==> r == Success(())
      ensures user.Some? && boardFault.Some? ==> db.boards == old(db.boards) && db.columns == old(db.columns)
      ensures user.Some? && boardFault.None? ==>
        && db.boards == old(db.boards)[boardStamp.id := BoardServices.StoredBoard(
             BoardServices.NewBoardFrom(BoardServices.BoardData(form.title, form.description, form.color, user.value)),
             boardStamp)]
        && db.columns == BoardServices.AddColumns(old(db.columns),
             BoardServices.DefaultColumnRows(boardStamp.id, user.value), columnStamps, columnFaults)
      ensures user.Some? && boardFault.None? && BoardServices.FirstFault(columnFaults).None? ==>
        && boards == [BoardServices.StoredBoard(
             BoardServices.NewBoardFrom(BoardServices.BoardData(form.title, form.description, form.color, user.value)),
             boardStamp)] + old(boards)
        && error == old(error)
      ensures user.Some? && (boardFault.Some? || BoardServices.FirstFault(columnFaults).Some?) ==>
        && boards == old(boards)
        && error == Some(ErrorText(if boardFault.Some? then boardFault.value else BoardServices.FirstFault(columnFaults).value,
                                   "Failed to create board"))
    {
      if user.None? {
        return Failure(NotAuthenticated);
      }
      var data := BoardServices.BoardData(form.title, form.description, form.color, user.value);
      var newBoard := BoardServices.CreateBoardWithDefaultColumns(db, data, boardStamp, columnStamps, boardFault, columnFaults);
      if newBoard.Failure? {
        error := Some(ErrorText(newBoard.error, "Failed to create board"));
        return Success(());
      }
      boards := [newBoard.value] + boards;
      return Success(());
    }
  }
}
