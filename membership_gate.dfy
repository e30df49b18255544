/**
 * verify-room-membership: the server-side gate of a room page. It admits the logged-in user when the
 * membership table holds their row for the room, and otherwise redirects to the not-found page with the
 * text of the error it threw.
 */
module MembershipGate {
  import opened Wrappers
  import opened Seqs
  import opened Tables
  import opened Lifecycle

  datatype Gate = Admit | Redirect(url: string)

  const NOT_FOUND_PAGE: string := "/not-found?error="

  /** The messages of the two errors the gate throws. */
  const USER_NOT_FOUND: string := "User not found"
  const NOT_A_MEMBER: string := "You are not a member of this room"

  /** Where the catch block sends the user: the template literal turns an `Error` into "Error: <message>". */
  function ErrorRedirect(message: string): (g: Gate)
    ensures g.Redirect? && g.url == NOT_FOUND_PAGE + "Error: " + message
    ensures |g.url| > |NOT_FOUND_PAGE| && g.url[..|NOT_FOUND_PAGE|] == NOT_FOUND_PAGE
  {
    Redirect(NOT_FOUND_PAGE + "Error: " + message)
  }

  /**
   * `verifyRoomMemberShip({id})`. The room-existence guard is left out: `isRoomExists(...)` is called
   * without `await`, so the guard negates a Promise and never redirects. A missing email throws
   * "User not found"; the membership query ends in `.single()`, which yields data only when exactly one
   * row matches.
   */
  function VerifyRoomMembership(joined: seq<Membership>, id: string, auth: Option<string>): (g: Gate)
    ensures g == Admit <==> Truthy(auth) && |RowsOf(joined, id, auth.value)| == 1
    ensures !Truthy(auth) ==> g == ErrorRedirect(USER_NOT_FOUND)
    ensures Truthy(auth) && g != Admit ==> g == ErrorRedirect(NOT_A_MEMBER)
  {
    if !Truthy(auth) then ErrorRedirect(USER_NOT_FOUND)
    else if MaybeSingle(RowsOf(joined, id, auth.value)).None? then ErrorRedirect(NOT_A_MEMBER)
    else Admit
  }

  /**
   * On a consistent store, a code naming no room sends a logged-in user away as a non-member: the missing
   * room is reported only through the missing membership row.
   */
  lemma MissingRoomIsNotMember(store: Store, id: string, auth: Option<string>)
    requires store.Valid() && Truthy(auth) && !HasRoom(store.rooms, id)
    ensures VerifyRoomMembership(store.joined, id, auth) == ErrorRedirect(NOT_A_MEMBER)
  {
    forall i | 0 <= i < |store.joined| ensures !RowIs(id, auth.value)(store.joined[i]) {
      assert HasRoom(store.rooms, store.joined[i].roomCode);
    }
    FilterNone(store.joined, RowIs(id, auth.value));
  }

  /** Whether a user gets in depends on their own rows only: rows of other users or rooms change nothing. */
  lemma OthersRowsIrrelevant(joined: seq<Membership>, extra: seq<Membership>, id: string, auth: Option<string>)
    requires Truthy(auth)
    requires forall i :: 0 <= i < |extra| ==> extra[i].roomCode != id || extra[i].email != auth.value
    ensures VerifyRoomMembership(joined + extra, id, auth) == VerifyRoomMembership(joined, id, auth)
  {
    FilterAppend(joined, extra, RowIs(id, auth.value));
    FilterNone(extra, RowIs(id, auth.value));
  }

  /** A creator's or participant's single row admits them; a second row for the same pair locks them out. */
  lemma AdmittedByOwnRow(joined: seq<Membership>, row: Membership, auth: Option<string>)
    requires Truthy(auth) && row.email == auth.value
    requires RowsOf(joined, row.roomCode, row.email) == []
    ensures VerifyRoomMembership(joined + [row], row.roomCode, auth) == Admit
    ensures VerifyRoomMembership(joined + [row, row], row.roomCode, auth) == ErrorRedirect(NOT_A_MEMBER)
  {
    FilterAppend(joined, [row], RowIs(row.roomCode, row.email));
    FilterAppend(joined, [row, row], RowIs(row.roomCode, row.email));
    assert [row, row][1..] == [row];
  }

  /**
   * Right after `createRoom` stores the members of a new room, exactly the creator and the listed
   * participants pass the gate of that room.
   */
  lemma ParticipantsAdmitted(joined: seq<Membership>, p: RoomParams, creator: string, code: string,
                             d: ColumnDefaults, auth: Option<string>)
    requires forall i :: 0 <= i < |joined| ==> joined[i].roomCode != code
    requires Truthy(auth)
    ensures VerifyRoomMembership(joined + MemberRows(code, ParticipantEmails(p, creator), d), code, auth) == Admit
            <==> auth.value == creator || (p.participants.Some? && auth.value in p.participants.value)
  {
    var rows := MemberRows(code, ParticipantEmails(p, creator), d);
    FilterAppend(joined, rows, RowIs(code, auth.value));
    FilterNone(joined, RowIs(code, auth.value));
    OneRowPerParticipant(p, creator, code, d, auth.value);
  }
}
