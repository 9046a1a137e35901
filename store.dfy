/** The hosted database as seen by the services: four tables held as maps
    from key to row, and the value a failed request throws. */
module Store {
  import opened Models

  /** A thrown value. `isError` tells whether it is an `Error` instance,
      whose `message` the hooks show; otherwise they show a fallback text. */
  datatype Thrown = Thrown(isError: bool, message: string)

  /** The text a hook stores in its `error` state for a thrown value. */
  function ErrorText(e: Thrown, fallback: string): (text: string)
    ensures e.isError ==> text == e.message
    ensures !e.isError ==> text == fallback
  {
    if e.isError then e.message else fallback
  }

  /** An `Error` raised by the application itself. */
  function Raise(message: string): Thrown {
    Thrown(true, message)
  }

  /** What the gateway throws when `.single()` finds no row. */
  const NoRowError: Thrown := Thrown(true, "JSON object requested, multiple (or no) rows returned")

  predicate BoardsKeyed(m: map<string, Board>) { forall k :: k in m ==> m[k].id == k }
  predicate ColumnsKeyed(m: map<string, Column>) { forall k :: k in m ==> m[k].id == k }
  predicate TasksKeyed(m: map<string, Task>) { forall k :: k in m ==> m[k].id == k }
  predicate InvitesKeyed(m: map<string, Invite>) { forall k :: k in m ==> m[k].inviteCode == k }

  class Database {
    var boards: map<string, Board>
    var columns: map<string, Column>
    var tasks: map<string, Task>
    /** Invites, keyed by their invite code. */
    var invites: map<string, Invite>

    /** Every row sits under its own key. */
    ghost predicate Valid()
      reads this
    {
      BoardsKeyed(boards) && ColumnsKeyed(columns) && TasksKeyed(tasks) && InvitesKeyed(invites)
    }

    constructor ()
      ensures Valid()
      ensures boards == map[] && columns == map[] && tasks == map[] && invites == map[]
    {
      boards, columns, tasks, invites := map[], map[], map[], map[];
    }
  }
}
