/** The rows of the four hosted tables and the nested view the board page
    renders (lib/supabase/models.ts). Timestamps are instants (`int`);
    the TypeScript types carry them as ISO strings. */
module Models {
  import opened Wrappers

  /** A task's priority: exactly one of three levels. */
  datatype Priority = Low | Medium | High

  /** The string stored for a priority. */
  function PriorityName(p: Priority): string {
    match p
    case Low => "low"
    case Medium => "medium"
    case High => "high"
  }

  /** Reads a stored priority string; only the three level names are priorities. */
  function ParsePriority(s: string): (r: Option<Priority>)
    ensures r.Some? <==> s == "low" || s == "medium" || s == "high"
    ensures r.Some? ==> PriorityName(r.value) == s
  {
    if s == "low" then Some(Low)
    else if s == "medium" then Some(Medium)
    else if s == "high" then Some(High)
    else None
  }

  /** A board row; `description` is nullable, `color` is not. */
  datatype Board = Board(
    id: string,
    title: string,
    description: Option<string>,
    color: string,
    userId: string,
    createdAt: int,
    updatedAt: int)

  /** A column row. It references exactly one board. The table also stores
      the `user_id` written on insert, which the TypeScript type omits. */
  datatype Column = Column(
    id: string,
    boardId: string,
    title: string,
    sortOrder: int,
    createdAt: int,
    userId: string)

  /** A task row. It references exactly one column. `description` and
      `assignee` are nullable; `dueDate` is declared non-nullable but
      task creation stores null for an empty date, so it is optional here. */
  datatype Task = Task(
    id: string,
    columnId: string,
    title: string,
    description: Option<string>,
    assignee: Option<string>,
    dueDate: Option<string>,
    priority: Priority,
    sortOrder: int,
    createdAt: int,
    updatedAt: int)

  /** An invite row; `memberId` is unset until the invite is accepted. */
  datatype Invite = Invite(
    id: string,
    boardId: string,
    ownerId: string,
    inviteCode: string,
    memberId: Option<string>)

  /** A column together with the tasks shown in it. */
  datatype ColumnWithTasks = ColumnWithTasks(column: Column, tasks: seq<Task>)

  /** Values the store generates for a new row: its id and its creation instant. */
  datatype RowStamp = RowStamp(id: string, at: int)

  /** JavaScript truthiness of an optional string: present and not empty. */
  predicate Truthy(s: Option<string>) {
    s.Some? && s.value != ""
  }

  /** `s || null`: an absent or empty string becomes null. */
  function OrNull(s: Option<string>): (r: Option<string>)
    ensures r.Some? <==> Truthy(s)
    ensures r.Some? ==> r == s
  {
    if Truthy(s) then s else None
  }

  /** All tasks shown on a board, column after column. */
  function AllTasks(cols: seq<ColumnWithTasks>): seq<Task> {
    if cols == [] then [] else cols[0].tasks + AllTasks(cols[1..])
  }

}
