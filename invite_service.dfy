/** The invite table operations of lib/invite-service.ts. Invites are kept
    under their invite code, the key the accept path selects and updates by.
    Each request may fail in the gateway; a failed request writes nothing
    and its error is rethrown. */
module InviteService {
  import opened Wrappers
  import opened Models
  import opened Store
  import opened Ordering

  /** The values the store generates for a new invite: its id and its code. */
  datatype InviteStamp = InviteStamp(id: string, code: string)

  /** `generateInvite`: inserts an invite for the board and its owner, with
      no member yet, and returns it as stored. */
  method GenerateInvite(db: Database, boardId: string, userId: string, stamp: InviteStamp, fault: Option<Thrown>)
    returns (r: Result<Invite, Thrown>)
    requires db.Valid() && stamp.code !in db.invites
    modifies db`invites
    ensures db.Valid()
    ensures fault.Some? ==> r == Failure(fault.value) && db.invites == old(db.invites)
    ensures fault.None? ==>
      && r == Success(Invite(stamp.id, boardId, userId, stamp.code, None))
      && db.invites == old(db.invites)[stamp.code := r.value]
  {
    if fault.Some? {
      return Failure(fault.value);
    }
    var row := Invite(stamp.id, boardId, userId, stamp.code, None);
    db.invites := db.invites[stamp.code := row];
    return Success(row);
  }

  /** The boards that have an invite whose member is the user. */
  function JoinedBoards(boards: map<string, Board>, invites: map<string, Invite>, userId: string): set<Board> {
    set b | b in boards.Values &&
      exists code :: code in invites && invites[code].boardId == b.id && invites[code].memberId == Some(userId)
  }

  /** `getJoinedBoards`: each joined board once, in no particular order. */
  method GetJoinedBoards(db: Database, userId: string, fault: Option<Thrown>) returns (r: Result<seq<Board>, Thrown>)
    ensures fault.Some? ==> r == Failure(fault.value)
    ensures fault.None? ==> r.Success? && multiset(r.value) == multiset(JoinedBoards(db.boards, db.invites, userId))
  {
    if fault.Some? {
      return Failure(fault.value);
    }
    var list := SeqOf(JoinedBoards(db.boards, db.invites, userId));
    return Success(list);
  }

  const InvalidInvite: Thrown := Raise("Invalid Invite or Invite Expired.")
  const OwnBoardInvite: Thrown := Raise("You can not join your own board")

  /** What accepting does: the result and the invite table after it. */
  datatype Acceptance = Acceptance(result: Result<Invite, Thrown>, invites: map<string, Invite>)

  /** Whether accepting writes: the code is known, the user is not its
      owner and not already its member. */
  predicate Binds(invites: map<string, Invite>, code: string, userId: string) {
    code in invites && invites[code].ownerId != userId && invites[code].memberId != Some(userId)
  }

  /** The decision chain of `acceptInvite`: unknown code, owner, already
      the member, or bind the user as member. Success exactly when the
      code is known and the user does not own it; a failure writes
      nothing; a success stores the returned invite under the code, which
      is the old invite with the user as member. */
  function Accept(invites: map<string, Invite>, code: string, userId: string): (a: Acceptance)
    ensures a.result.Success? <==> code in invites && invites[code].ownerId != userId
    ensures a.result.Failure? ==> a.invites == invites
    ensures a.result.Failure? ==> (a.result.error == InvalidInvite <==> code !in invites)
    ensures a.result.Failure? && code in invites ==> a.result.error == OwnBoardInvite
    ensures a.result.Success? ==>
      && a.result.value == invites[code].(memberId := Some(userId))
      && a.invites == invites[code := a.result.value]
    ensures a.invites != invites <==> Binds(invites, code, userId)
  {
    if code !in invites then Acceptance(Failure(InvalidInvite), invites)
    else
      var invite := invites[code];
      if invite.ownerId == userId then Acceptance(Failure(OwnBoardInvite), invites)
      else if invite.memberId == Some(userId) then Acceptance(Success(invite), invites)
      else
        var bound := invite.(memberId := Some(userId));
        assert invites[code := bound][code] != invites[code];
        Acceptance(Success(bound), invites[code := bound])
  }

  /** `acceptInvite`. The lookup may fail, and so may the update when
      there is one. */
  method AcceptInvite(db: Database, code: string, userId: string, lookupFault: Option<Thrown>, updateFault: Option<Thrown>)
    returns (r: Result<Invite, Thrown>)
    requires db.Valid()
    modifies db`invites
    ensures db.Valid()
    ensures lookupFault.Some? ==> r == Failure(lookupFault.value) && db.invites == old(db.invites)
    ensures lookupFault.None? && updateFault.Some? && Binds(old(db.invites), code, userId) ==>
      r == Failure(updateFault.value) && db.invites == old(db.invites)
    ensures lookupFault.None? && (updateFault.None? || !Binds(old(db.invites), code, userId)) ==>
      Acceptance(r, db.invites) == Accept(old(db.invites), code, userId)
  {
    if lookupFault.Some? {
      return Failure(lookupFault.value);
    }
    if code !in db.invites {
      return Failure(InvalidInvite);
    }
    var invite := db.invites[code];
    if invite.ownerId == userId {
      return Failure(OwnBoardInvite);
    }
    if invite.memberId == Some(userId) {
      return Success(invite);
    }
    if updateFault.Some? {
      return Failure(updateFault.value);
    }
    var bound := invite.(memberId := Some(userId));
    db.invites := db.invites[code := bound];
    return Success(bound);
  }

  /** Accepting twice with the same user: the second call returns the same
      invite, without error, and writes nothing. */
  lemma AcceptIdempotent(invites: map<string, Invite>, code: string, userId: string)
    requires Accept(invites, code, userId).result.Success?
    ensures var first := Accept(invites, code, userId);
      Accept(first.invites, code, userId) == Acceptance(first.result, first.invites)
  {
  }

  /** The owner is refused whatever the invite's member is, and nothing is
      written. */
  lemma OwnerRefused(invites: map<string, Invite>, code: string, userId: string)
    requires code in invites && invites[code].ownerId == userId
    ensures Accept(invites, code, userId) == Acceptance(Failure(OwnBoardInvite), invites)
  {
  }

  /** An invite already bound to another member is rebound to the new user:
      an invite is not single-use. */
  lemma AcceptRebinds(invites: map<string, Invite>, code: string, userId: string, other: string)
    requires code in invites && invites[code].ownerId != userId
    requires invites[code].memberId == Some(other) && other != userId
    ensures Accept(invites, code, userId).result.Success?
    ensures Accept(invites, code, userId).invites[code].memberId == Some(userId)
  {
  }

  /** After a successful accept, the invite's board is among the user's
      joined boards. */
  lemma JoinedAfterAccept(boards: map<string, Board>, invites: map<string, Invite>, code: string, userId: string, b: Board)
    requires Accept(invites, code, userId).result.Success?
    requires b in boards.Values && b.id == invites[code].boardId
    ensures b in JoinedBoards(boards, Accept(invites, code, userId).invites, userId)
  {
    var after := Accept(invites, code, userId).invites;
    assert code in after && after[code].boardId == b.id && after[code].memberId == Some(userId);
  }

  /** Rebinding takes the board away from the previous member when this was
      their only invite to it. */
  lemma RebindDropsPreviousMember(boards: map<string, Board>, invites: map<string, Invite>, code: string,
                                  userId: string, other: string, b: Board)
    requires code in invites && invites[code].ownerId != userId
    requires invites[code].memberId == Some(other) && other != userId
    requires b.id == invites[code].boardId
    requires forall c :: c in invites && c != code && invites[c].boardId == b.id ==> invites[c].memberId != Some(other)
    ensures b !in JoinedBoards(boards, Accept(invites, code, userId).invites, other)
  {
  }
}
