/** What a task card shows (app/boards/components/task.tsx). */
module TaskCard {
  import opened Wrappers
  import opened Models
  import TaskService
  import UseBoard

  /** `getPriorityColor`: the dot colour for a priority string. */
  function PriorityColor(priority: string): (c: string)
    ensures c == "bg-red-500" || c == "bg-yellow-500" || c == "bg-green-500"
  {
    if priority == "high" then "bg-red-500"
    else if priority == "medium" then "bg-yellow-500"
    else if priority == "low" then "bg-green-500"
    else "bg-yellow-500"
  }

  /** High is red and low is green, and only they are; every other string,
      medium included, is yellow. */
  lemma PriorityColorCases(priority: string)
    ensures PriorityColor(priority) == "bg-red-500" <==> priority == "high"
    ensures PriorityColor(priority) == "bg-green-500" <==> priority == "low"
    ensures PriorityColor(priority) == "bg-yellow-500" <==> priority != "high" && priority != "low"
  {
  }

  /** The three stored priorities get three different colours, so the dot
      tells them apart. */
  lemma PriorityColorsDistinct(p: Priority, q: Priority)
    requires p != q
    ensures PriorityColor(PriorityName(p)) != PriorityColor(PriorityName(q))
  {
  }

  /** The description line: the description, or "No Description." when it is
      null or empty. */
  function DescriptionText(t: Task): (s: string)
    ensures Truthy(t.description) ==> s == t.description.value
    ensures !Truthy(t.description) ==> s == "No Description."
  {
    if Truthy(t.description) then t.description.value else "No Description."
  }

  /** The assignee line: shown, with the assignee, only when the assignee is
      present and not empty. */
  function AssigneeShown(t: Task): (shown: Option<string>)
    ensures shown.Some? <==> t.assignee.Some? && t.assignee.value != ""
    ensures shown.Some? ==> shown == t.assignee
  {
    OrNull(t.assignee)
  }

  /** The due-date line: shown, with the date, only when the due date is
      present and not empty. */
  function DueDateShown(t: Task): (shown: Option<string>)
    ensures shown.Some? <==> t.dueDate.Some? && t.dueDate.value != ""
    ensures shown.Some? ==> shown == t.dueDate
  {
    OrNull(t.dueDate)
  }

  /** A task created from form data shows the form's description, or the
      fallback when it was left empty, and shows the form's assignee and due
      date exactly when the form gave non-empty ones. */
  lemma CreatedTaskCard(cols: seq<ColumnWithTasks>, columnId: string, data: UseBoard.TaskData, stamp: RowStamp)
    ensures var t := TaskService.StoredTask(UseBoard.NewTaskPayload(cols, columnId, data), stamp);
      && DescriptionText(t) == (if Truthy(data.description) then data.description.value else "No Description.")
      && AssigneeShown(t) == OrNull(data.assignee)
      && DueDateShown(t) == OrNull(data.dueDate)
  {
  }
}
