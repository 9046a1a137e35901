# Kanban board core, modelled in Dafny

This project models the logic of a small Trello-style kanban application.
Users own boards. A board holds ordered columns, and each column holds
ordered tasks. The board owner can invite another user with an invite code.
The model covers:

- The service layer over the four hosted tables:
  - boards and columns (`lib/board-services.ts`);
  - tasks (`lib/task-service.ts`);
  - invites (`lib/invite-service.ts`).
  In the model these tables are maps held by a `Database` class, one map per
  table (module `Store`).
- The local state of the board page (`useBoard`, module `UseBoard`): the
  columns with their tasks, the board and the error text. This covers the
  task move, task creation, and column creation and renaming.
- The dashboard state (`useBoards`, module `UseBoards`): the board list, the
  per-board task lists and their running total.
- The row types (`lib/supabase/models.ts`, module `Models`).
- The plan context (module `PlanContext`).
- The two task components' display rules (modules `TaskCard` and
  `TaskOverlay`).

Modelling choices:

- **Failures.** Every request to the hosted store takes a
  `fault: Option<Thrown>` parameter. A request that fails writes nothing, and
  the service rethrows its error.
- **Generated values.** Ids, invite codes and creation instants generated by
  the store arrive as `RowStamp`/`InviteStamp` parameters, whose ids are
  required to be fresh.
- **The request clock.** The `updated_at` instant of a board update arrives as
  a `now` parameter.
- **Timestamps** are integers.
- **Error text.** The hooks store the message of a thrown `Error` and a fixed
  text for any other thrown value. `Store.ErrorText` models both.
- **`.single()` with no matching row** throws the gateway error
  `Store.NoRowError`. The application code does not show this error. The model
  takes it to be an `Error` whose message is the client library's no-row
  message, so a hook that catches it shows that message rather than its own
  fallback text.

Behaviours of the code worth knowing, each stated by the member named:

- **Unknown board id.** `getBoardWithColumns` never reaches its
  "Board not found" check. The board lookup's `.single()` already throws for
  an unknown id, so the caller gets the gateway error instead
  (`BoardServices.GetBoardWithColumns`).
- **Invites can be reused.** An invite is not single-use. Accepting an invite
  that is bound to another member rebinds it to the new user
  (`InviteService.AcceptRebinds`), and the previous member loses the board
  (`InviteService.RebindDropsPreviousMember`).
- **No optimistic update on a move.** `moveTask` changes local state only
  after the remote write succeeds. A failed move leaves the columns exactly as
  they were (`UseBoard.BoardHook.MoveTask`).
- **Task positions are not renumbered.** Neither the store nor the local
  update renumbers sibling tasks, so two tasks can share a position
  (`TaskService.MoveCanDuplicatePosition`). The moved task's local record
  keeps its old `column_id` (`UseBoard.MovedRecordKeepsColumnId`).
- **A half-created board stays stored.** When the dashboard creates a board
  and a default-column insert fails, the board row and the other columns
  remain in the store. The board is not added to the local board list, and
  the error text is set (`UseBoards.BoardsHook.CreateBoard`).

## Model

| member | source | states |
|---|---|---|
| Models.ParsePriority | lib/supabase/models.ts:25 | a stored priority is exactly one of "low", "medium", "high"; the parsed level's name gives the string back |
| Models.OrNull | lib/hooks/use-board.ts:64-66 | the `or null` default is present exactly when `s` is a non-empty string, and is then `s` itself |
| TaskService.Edited | lib/task-service.ts:37-46 | an edited task row gets the five edited fields; id, column, position and timestamps are kept |
| TaskService.MovedTable | lib/task-service.ts:58-64 | a move rewrites only the column and position of the row with that id; every other row is unchanged and no key is added or removed |
| TaskService.GetTasksByBoard | lib/task-service.ts:9-19 | the answer holds each task of the board's columns exactly once, by ascending position; a failure is rethrown |
| TaskService.CreateTask | lib/task-service.ts:25-31 | the row is stored under its fresh id and returned as stored; a failure writes nothing |
| TaskService.UpdateTask | lib/task-service.ts:37-50 | the row under the id becomes its edited version; an unknown id or a failure writes nothing and throws |
| TaskService.MoveTask | lib/task-service.ts:58-66 | the table becomes the moved table; an unknown id is not an error; a failure writes nothing |
| TaskService.MoveCanDuplicatePosition | lib/task-service.ts:58-64 | moving onto an occupied position leaves two tasks of one column at the same position |
| BoardServices.GetBoard | lib/board-services.ts:6-17 | returns the row under the id; an unknown id throws the no-row error |
| BoardServices.GetBoards | lib/board-services.ts:18-29 | the answer holds each of the user's boards exactly once, newest first |
| BoardServices.CreateBoard | lib/board-services.ts:30-41 | the board is stored under its fresh id with equal creation and update instants, and returned |
| BoardServices.Patched | lib/board-services.ts:49 | every field the patch carries is overwritten, `updated_at` becomes the request instant, id and creation instant are kept |
| BoardServices.UpdateBoard | lib/board-services.ts:42-55 | the row under the id becomes its patched version; an unknown id or a failure writes nothing and throws |
| BoardServices.GetColumns | lib/board-services.ts:59-70 | the answer holds each column of the board exactly once, by ascending position |
| BoardServices.CreateColumn | lib/board-services.ts:71-82 | the column is stored under its fresh id and returned |
| BoardServices.UpdateColumnTitle | lib/board-services.ts:83-95 | only the title of the one column changes; an unknown id or a failure writes nothing and throws |
| BoardServices.TasksOfColumn | lib/board-services.ts:126 | the filter returns no more tasks than it was given, each one of them and each naming the column |
| BoardServices.Partition | lib/board-services.ts:124-127 | one entry per fetched column, in order, each holding only fetched tasks that name that column |
| BoardServices.TasksOfColumnCount | lib/board-services.ts:126 | the filter keeps every task naming the column as often as it was fetched, and no other task |
| BoardServices.TasksOfColumnAppend | lib/board-services.ts:126 | the filter distributes over concatenation, so fetched order is kept |
| BoardServices.PartitionColumns | lib/board-services.ts:124-127 | the view has the fetched columns in fetched order, each with exactly the tasks naming it |
| BoardServices.PartitionPlacesTasks | lib/board-services.ts:124-127 | with distinct column ids, a task is shown as often as it was fetched if its column is listed, and never otherwise |
| BoardServices.ListedColumnsDistinct | lib/board-services.ts:63-67 | the columns of a board come back with distinct ids |
| BoardServices.LoadedViewShowsEachTaskOnce | lib/board-services.ts:115-131 | the loaded view shows every task of the board exactly once and no other task |
| BoardServices.GetBoardWithColumns | lib/board-services.ts:115-132 | the view is the stored board with the partition of its sorted columns and tasks; each failing read is rethrown, an unknown board as the no-row error |
| BoardServices.GetTotalTasksCount | lib/board-services.ts:101-114 | one entry per board of the user, newest first, each with exactly that board's tasks by position |
| BoardServices.NewBoardFrom | lib/board-services.ts:142-147 | an empty or missing description becomes null, an empty or missing colour "bg-blue-500" |
| BoardServices.DefaultColumnRows | lib/board-services.ts:148-153 | four columns "To do", "In Progress", "Review", "Done" at positions 0 to 3, on the board and owned by the user |
| BoardServices.AddColumnsKeys | lib/board-services.ts:155-163 | when no insert fails, the keys after the inserts are the earlier keys and the new columns' ids, and no others |
| BoardServices.AddColumnsAll | lib/board-services.ts:155-163 | when no insert fails and the ids are distinct, each default column is stored under its own id |
| BoardServices.AddColumnsKeeps | lib/board-services.ts:155-163 | the default-column inserts leave every earlier column untouched |
| BoardServices.CreateBoardWithDefaultColumns | lib/board-services.ts:133-165 | the board is stored, then its four default columns; the first failing insert is rethrown, otherwise the board is returned |
| InviteService.GenerateInvite | lib/invite-service.ts:4-19 | a new invite for the board and its owner, with no member, is stored under its code and returned |
| InviteService.GetJoinedBoards | lib/invite-service.ts:20-30 | the answer holds each board with an invite whose member is the user exactly once |
| InviteService.Accept | lib/invite-service.ts:36-61 | success exactly when the code is known and the user is not its owner; the two refusals carry their messages and write nothing; success returns and stores the invite with the user as member |
| InviteService.AcceptInvite | lib/invite-service.ts:31-62 | the stored table and the result follow the decision chain; a failing lookup or update writes nothing and is rethrown |
| InviteService.AcceptIdempotent | lib/invite-service.ts:48-51 | a second acceptance by the same user returns the same invite and writes nothing |
| InviteService.OwnerRefused | lib/invite-service.ts:45-47 | the owner is refused whatever the member is, and nothing is written |
| InviteService.AcceptRebinds | lib/invite-service.ts:48-58 | an invite bound to another member is rebound to the accepting user |
| InviteService.JoinedAfterAccept | lib/invite-service.ts:52-61 | after a successful acceptance the invite's board is among the user's joined boards |
| InviteService.RebindDropsPreviousMember | lib/invite-service.ts:52-61 | a rebind takes the board away from a previous member who had no other invite to it |
| UseBoard.IndexOfTask | lib/hooks/use-board.ts:96 | the index of the first task with the id, or -1 when none has it |
| UseBoard.SourceColumn | lib/hooks/use-board.ts:95-102 | the first column holding the task, or -1 when none holds it |
| UseBoard.ColumnIndex | lib/hooks/use-board.ts:104 | the first column with the id, or -1 when none has it |
| UseBoard.SpliceStart | lib/hooks/use-board.ts:106 | the insertion index `splice` uses: in range as given, past the end clamped to the end, negative counted from the end |
| UseBoard.RemoveAtTasks | lib/hooks/use-board.ts:99 | removing one task gives back every other task and one fewer |
| UseBoard.InsertAtTasks | lib/hooks/use-board.ts:106 | inserting adds exactly the task, at the clamped index |
| UseBoard.MovedColumns | lib/hooks/use-board.ts:91-110 | the columns after the move updater: same number, order and column fields, and unchanged when no column holds the task |
| UseBoard.ApplyMove | lib/hooks/use-board.ts:91-110 | the loop that takes the task out of its first column and puts it into the target column computes the moved columns (the same loop as lib/hooks/use-boards.ts:177-196) |
| UseBoard.MoveKeepsColumns | lib/hooks/use-board.ts:92-109 | a move keeps the number, order and fields of the columns |
| UseBoard.MoveUnknownTask | lib/hooks/use-board.ts:103-108 | when no column holds the task, the columns are unchanged |
| UseBoard.MoveShape | lib/hooks/use-board.ts:95-107 | the task sits in the target column at the clamped position, the source column keeps its other tasks in order, every other column is unchanged |
| UseBoard.MovePreservesTasks | lib/hooks/use-board.ts:95-107 | with the task and the target column present, the tasks on the board are exactly the same as before |
| UseBoard.MoveToMissingColumn | lib/hooks/use-board.ts:103-107 | with the target column absent, the task is lost and the board shows one task fewer |
| UseBoard.MovedRecordKeepsColumnId | lib/hooks/use-board.ts:98-106 | the moved task's local record still names its old column |
| UseBoard.NewTaskPayload | lib/hooks/use-board.ts:62-71 | empty fields become null, priority defaults to medium, position is the target column's task count or 0 when the column is absent (as in lib/hooks/use-boards.ts:148-157) |
| UseBoard.WithTaskAppended | lib/hooks/use-board.ts:72-78 | every column keeps its fields; a column with the id gets the task appended at the end, the others keep their tasks |
| UseBoard.CreatedTaskPlacement | lib/hooks/use-board.ts:68-78 | the created task is shown last in its column, at the position it was given, and no other column changes |
| UseBoard.AppendAddsOneTask | lib/hooks/use-board.ts:72-78 | with distinct column ids, appending adds exactly the created task to the board |
| UseBoard.WithColumnMerged | lib/hooks/use-board.ts:139-143 | every column keeps its tasks; a column with the id takes the stored row's fields, the others keep theirs |
| UseBoard.MergeKeepsTasks | lib/hooks/use-board.ts:139-143 | renaming a column moves no task and changes no other column |
| UseBoard.BoardHook.constructor | lib/hooks/use-board.ts:16-19 | no columns, no board, no error |
| UseBoard.BoardHook.LoadBoard | lib/hooks/use-board.ts:26-44 | the board and its partitioned view are loaded; each failure leaves them and sets the error text |
| UseBoard.BoardHook.UpdateBoard | lib/hooks/use-board.ts:45-59 | the board state becomes the patched row; a failure leaves it and sets the error text |
| UseBoard.BoardHook.CreateRealTask | lib/hooks/use-board.ts:60-83 | the payload's row is stored and appended to its column; a failure changes nothing but the error text |
| UseBoard.BoardHook.MoveTask | lib/hooks/use-board.ts:84-114 | the stored table and the columns are both moved only after the remote write succeeds; a failure changes nothing but the error text |
| UseBoard.BoardHook.CreateColumn | lib/hooks/use-board.ts:115-131 | throws "Board not Loaded." without board or user; otherwise stores the column at position `columns.length` and appends it with no tasks |
| UseBoard.BoardHook.UpdateColumn | lib/hooks/use-board.ts:132-150 | throws "Board not Loaded." without board or user; otherwise renames the stored column and merges it into the local one |
| UseBoards.SumOfLengths | lib/hooks/use-boards.ts:32-38 | the total is at least the task count of every entry |
| UseBoards.SumOfLengthsAppend | lib/hooks/use-boards.ts:33-37 | the total over two lists of entries is the sum of their totals |
| UseBoards.SumCountsAllTasks | lib/hooks/use-boards.ts:32-38 | the total is the number of tasks of all entries together |
| UseBoards.TasksSum | lib/hooks/use-boards.ts:32-38 | the loop computes the sum of the entries' task counts |
| UseBoards.BoardsHook.constructor | lib/hooks/use-boards.ts:15-22 | no boards, no entries, total 0 |
| UseBoards.BoardsHook.LoadBoards | lib/hooks/use-boards.ts:40-54 | without a user nothing happens; otherwise the boards become the user's boards, newest first, or the error text is set |
| UseBoards.BoardsHook.GetTotalTasks | lib/hooks/use-boards.ts:56-71 | throws "User not authenticated." without a user; otherwise loads one entry per board, and the total equals the number of tasks loaded |
| UseBoards.BoardsHook.CreateBoard | lib/hooks/use-boards.ts:72-94 | throws "User not authenticated." without a user and writes nothing; otherwise the store holds the new board and its default columns as board creation leaves them; a created board is put first and earlier boards keep their order; any failure leaves the local boards and sets the error text, even when the board row was already stored |
| PlanContext.ProviderValue | lib/contexts/plan-context.tsx:22-26 | both plan flags pass through; the user is free exactly when they have neither plan |
| PlanContext.UsePlan | lib/contexts/plan-context.tsx:34-40 | outside a provider it throws "It must be inside a provider."; inside one it returns the provider's value |
| PlanContext.FreeOrPaid | lib/contexts/plan-context.tsx:25 | inside a provider a user is free or on a paid plan, never both |
| Store.ErrorText | lib/hooks/use-board.ts:37-40 | the error text is the message of a thrown `Error`, and the hook's fallback text for any other thrown value |
| TaskCard.PriorityColor | app/boards/components/task.tsx:27-38 | the dot colour is always one of red, yellow and green |
| TaskCard.PriorityColorCases | app/boards/components/task.tsx:27-38 | red exactly for "high", green exactly for "low", yellow for every other string |
| TaskCard.PriorityColorsDistinct | app/boards/components/task.tsx:27-38 | the three stored priorities get three different colours |
| TaskCard.DescriptionText | app/boards/components/task.tsx:52 | the description when it is non-empty, "No Description." otherwise |
| TaskCard.AssigneeShown | app/boards/components/task.tsx:57 | the assignee is shown exactly when it is present and not empty, and then it is the task's assignee |
| TaskCard.DueDateShown | app/boards/components/task.tsx:63 | the due date is shown exactly when it is present and not empty, and then it is the task's due date |
| TaskCard.CreatedTaskCard | app/boards/components/task.tsx:50-67 | a task created from the form shows its description or the fallback, and shows the form's assignee and due date exactly when the form gave non-empty ones |
| TaskOverlay.PriorityColor | app/boards/components/task-overlay.tsx:5-16 | red exactly for "high", green exactly for "low", yellow for every other string |
| TaskOverlay.DescriptionText | app/boards/components/task-overlay.tsx:29 | the description when it is non-empty, "No Description." otherwise |
| TaskOverlay.OverlayMatchesCard | app/boards/components/task-overlay.tsx:5-29 | the dragged card has the same colour as the task card for every string, and the same description line |

## Left out

- Rendering, styling, dialogs and forms are left out. They copy fields and
  hold no logic.
- Sign-in, building the hosted-store client and its row-level security are
  foreign services. The signed-in user is an `Option<string>` parameter, and
  queries are modelled only by the filters and orderings they state.
- Loading flags (`setLoading`) are not modelled. They only drive spinners.
- `Promise.all` is modelled as its requests run in sequence, and the first
  failing request in list order is the one reported. The four default-column
  inserts touch different rows, so their order does not change the stored
  table.
- Clocks and generated values are parameters: `updated_at`, row ids, invite
  codes and creation instants.
- Date formatting (`toLocaleDateString`) is not modelled. The due date is an
  opaque string.
- UseBoard.ApplyMove: the source splices task arrays that the previous state
  shares. The model works on values, so this aliasing of the previous state
  is not captured.
- UseBoard.BoardHook.UpdateBoard: the source returns the `updateBoard`
  function itself on success. This return value is not modelled.
- UseBoard.BoardHook.MoveTask: `newOrder` is a JavaScript number. The model
  takes an integer, so fractional positions are not modelled.
- The board page imports the second copy of `useBoard`, the one in
  `lib/hooks/use-boards.ts` (app/boards/[id]/page.tsx:21). `UseBoard` models
  the copy in `lib/hooks/use-board.ts`. The two copies have the same code,
  except for a debug log in `updateBoard`. They differ in one import: the
  second copy imports `taskService` from `board-services`, which imports it
  but does not export it (lib/board-services.ts:3). So that copy's
  `createRealTask` and `moveTask` cannot reach the task table. Either the
  build rejects the import, or `taskService` is undefined, every call throws
  a `TypeError`, and the `catch` turns it into the error text. The model does
  not capture this broken path.
- UseBoard.BoardHook.CreateRealTask, UseBoard.BoardHook.CreateColumn,
  UseBoard.BoardHook.MoveTask, UseBoard.BoardHook.UpdateColumn: each hook
  operation is modelled as running to completion before the next one starts.
  In the source, the store request is awaited, and the state updater runs on
  whatever the state is by then. Operations in flight at the same time can
  therefore interleave. `createRealTask` reads its position from the columns
  of the render that called it (lib/hooks/use-board.ts:68-69), but it appends
  to the state current when the request returns (72-78). `createColumn` does
  the same (121 against 124). So two creations started from one render get
  the same position. The model reads both from one `columns` value, and this
  interleaving is not captured.
- The drag handlers that call `moveTask` are not part of this model. They live
  in the board page, which is not part of this model.
- The invite and task hooks (`use-invite`, `use-tasks`) are only loading and
  error plumbing around the services, and are not part of this model.
- BoardServices.BoardPatch: a patch cannot carry a new id or creation instant.
  A partial board that sets those is not modelled.
- Column rows carry the `user_id` that column creation inserts, which the
  TypeScript column type omits. `ColumnWithTasks` and the invite row type are
  not declared in `models.ts`; their shapes follow their uses.
- Task `due_date` is declared non-nullable, but task creation stores null for
  an empty date, so the model makes it optional.
