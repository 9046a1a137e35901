/** The card drawn under the pointer while a task is dragged
    (app/boards/components/task-overlay.tsx). It carries its own copy of
    the colour mapping and the description fallback. */
module TaskOverlay {
  import opened Models
  import TaskCard

  /** The overlay's `getPriorityColor`. */
  function PriorityColor(priority: string): (c: string)
    ensures c == "bg-red-500" <==> priority == "high"
    ensures c == "bg-green-500" <==> priority == "low"
    ensures c == "bg-yellow-500" <==> priority != "high" && priority != "low"
  {
    if priority == "high" then "bg-red-500"
    else if priority == "medium" then "bg-yellow-500"
    else if priority == "low" then "bg-green-500"
    else "bg-yellow-500"
  }

  /** The overlay's description line. */
  function DescriptionText(t: Task): (s: string)
    ensures Truthy(t.description) ==> s == t.description.value
    ensures !Truthy(t.description) ==> s == "No Description."
  {
    if Truthy(t.description) then t.description.value else "No Description."
  }

  /** The dragged card looks like the card it was lifted from: the same
      colour for every priority string and the same description line. */
  lemma OverlayMatchesCard(priority: string, t: Task)
    ensures PriorityColor(priority) == TaskCard.PriorityColor(priority)
    ensures DescriptionText(t) == TaskCard.DescriptionText(t)
  {
  }
}
