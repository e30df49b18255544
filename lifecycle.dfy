/**
 * The room lifecycle of create-room: creating a room with its members, fanning a top-level room out into
 * one breakout room per member, and resolving the breakout room of the logged-in user.
 */
module Lifecycle {
  import opened Wrappers
  import opened Seqs
  import opened RoomCodes
  import opened Tables
  import opened Osmobro

  /** The input of `createRoom`; absent optional fields are `None`. */
  datatype RoomParams = RoomParams(
    mediator: string,
    description: string,
    parentRoomCode: Option<string>,
    roomName: Option<string>,
    creatorEmail: Option<string>,
    participants: Option<seq<string>>)

  /** The errors the lifecycle operations throw. */
  datatype RoomError =
    | UserNotFound
    | RoomInsertFailed
    | MembershipInsertFailed
    | NonExistentRoom
    | NotLoggedIn
    | BreakoutResolutionFailure
    | RecursionLimit

  /** The texts of the errors create-room throws. */
  const THROWN_MESSAGES: set<string> :=
    {"User not found", "Couldn't find room code", "Error adding user to room", "Non-existent room!", "Not logged in!"}

  /**
   * The message each thrown error carries. The errors the source throws carry its texts; the two that
   * exist only in the model carry texts the source never throws.
   */
  function ErrorMessage(e: RoomError): (m: string)
    ensures m in THROWN_MESSAGES <==> !(e.BreakoutResolutionFailure? || e.RecursionLimit?)
  {
    match e
    case UserNotFound => "User not found"
    case RoomInsertFailed => "Couldn't find room code"
    case MembershipInsertFailed => "Error adding user to room"
    case NonExistentRoom => "Non-existent room!"
    case NotLoggedIn => "Not logged in!"
    case BreakoutResolutionFailure => "Breakout room not found"
    case RecursionLimit => "Breakout resolution did not finish"
  }

  /** Different errors carry different messages, so the text names the error. */
  lemma ErrorMessageNamesError(e: RoomError, e': RoomError)
    requires ErrorMessage(e) == ErrorMessage(e')
    ensures e == e'
  {
    var m := ErrorMessage(e);
    assert m[0] == ErrorMessage(e')[0];
    assert m[1] == ErrorMessage(e')[1];
  }

  // ----- createRoom -----

  /** `params.creator_email || user?.email`: the given address wins; an empty one counts as absent. */
  function ResolveCreator(given: Option<string>, auth: Option<string>): (c: Option<string>)
    ensures c.Some? <==> Truthy(given) || Truthy(auth)
    ensures c.Some? ==> c.value != "" && (c == given || c == auth)
    ensures Truthy(given) ==> c == given
  {
    if Truthy(given) then given else if Truthy(auth) then auth else None
  }

  /** The row `createRoom` inserts into `rooms`. */
  function NewRoom(p: RoomParams, code: string, creator: string): Room {
    Room(code, p.roomName, creator, p.mediator, p.description, p.parentRoomCode)
  }

  /** `new Set(params.participants).add(creator)`, in the Set's insertion order. */
  function ParticipantEmails(p: RoomParams, creator: string): (emails: seq<string>)
    ensures Distinct(emails)
    ensures creator in emails
    ensures forall e :: e in emails <==> e == creator || (p.participants.Some? && e in p.participants.value)
  {
    var given := p.participants.GetOr([]);
    DedupSpec(given);
    SetAddSpec(Dedup(given), creator);
    SetAdd(Dedup(given), creator)
  }

  /** The membership rows inserted for `emails` in room `code`. */
  function MemberRows(code: string, emails: seq<string>, d: ColumnDefaults): (rows: seq<Membership>)
    ensures |rows| == |emails|
    ensures forall i :: 0 <= i < |emails| ==> rows[i] == NewMembership(code, emails[i], d)
  {
    seq(|emails|, i requires 0 <= i < |emails| => NewMembership(code, emails[i], d))
  }

  predicate HaveProfiles(profiles: set<string>, emails: seq<string>) {
    forall i :: 0 <= i < |emails| ==> emails[i] in profiles
  }

  /** Each participant gets exactly one membership row of the new room, and nobody else does. */
  lemma OneRowPerParticipant(p: RoomParams, creator: string, code: string, d: ColumnDefaults, e: string)
    ensures var rows := MemberRows(code, ParticipantEmails(p, creator), d);
            && (forall i :: 0 <= i < |rows| ==> rows[i].roomCode == code)
            && (e == creator || (p.participants.Some? && e in p.participants.value) <==>
                |RowsOf(rows, code, e)| == 1)
            && |RowsOf(rows, code, e)| <= 1
  {
    var emails := ParticipantEmails(p, creator);
    var rows := MemberRows(code, emails, d);
    if e in emails {
      var k :| 0 <= k < |emails| && emails[k] == e;
      FilterSingle(rows, RowIs(code, e), k);
    } else {
      FilterNone(rows, RowIs(code, e));
    }
  }

  // ----- createBreakoutRooms -----

  /** A template literal renders a null room name as "null". */
  function NameOrNull(name: Option<string>): string {
    if name.Some? then name.value else "null"
  }

  /** The `createRoom` input for the breakout room of `email` under `parent`. */
  function BreakoutParams(parent: Room, email: string): RoomParams {
    RoomParams(parent.mediatorType, parent.description, Some(parent.roomCode),
               Some(NameOrNull(parent.roomName) + " - " + email), Some(email), None)
  }

  function BreakoutRoom(parent: Room, email: string, code: string): Room {
    NewRoom(BreakoutParams(parent, email), code, email)
  }

  /** The breakout rooms made for the first `|codes|` members, in member order. */
  function BreakoutRooms(parent: Room, members: seq<Membership>, codes: seq<string>): (rs: seq<Room>)
    requires |codes| <= |members|
    ensures |rs| == |codes|
    ensures forall i :: 0 <= i < |codes| ==> rs[i] == BreakoutRoom(parent, members[i].email, codes[i])
  {
    seq(|codes|, i requires 0 <= i < |codes| => BreakoutRoom(parent, members[i].email, codes[i]))
  }

  /** The membership rows those breakout rooms get: each one's creator only. */
  function BreakoutMembers(members: seq<Membership>, codes: seq<string>, d: ColumnDefaults): (rows: seq<Membership>)
    requires |codes| <= |members|
    ensures |rows| == |codes|
    ensures forall i :: 0 <= i < |codes| ==> rows[i] == NewMembership(codes[i], members[i].email, d)
  {
    seq(|codes|, i requires 0 <= i < |codes| => NewMembership(codes[i], members[i].email, d))
  }

  /** The `initialiseRoom` requests for the breakout codes, in order. */
  function InitialisePosts(base: string, codes: seq<string>): (ps: seq<Post>)
    ensures |ps| == |codes|
    ensures forall i :: 0 <= i < |codes| ==> ps[i] == Post(InitialiseUrl(base, codes[i]), None)
  {
    seq(|codes|, i requires 0 <= i < |codes| => Post(InitialiseUrl(base, codes[i]), None))
  }

  /**
   * Every breakout room is a child of the parent created by the member it was made for, is named after
   * the parent and that member, and copies the parent's mediator and description.
   */
  lemma BreakoutRoomShape(parent: Room, members: seq<Membership>, codes: seq<string>, i: nat)
    requires |codes| <= |members| && i < |codes|
    ensures var b := BreakoutRooms(parent, members, codes)[i];
            && b.roomCode == codes[i]
            && b.parentRoomCode == Some(parent.roomCode)
            && b.creatorEmail == members[i].email
            && b.roomName == Some(NameOrNull(parent.roomName) + " - " + members[i].email)
            && b.mediatorType == parent.mediatorType && b.description == parent.description
  {
  }

  /** The breakout rooms a member owns among those made: one per membership row of theirs. */
  lemma BreakoutsOfMember(parent: Room, members: seq<Membership>, codes: seq<string>, e: string)
    requires |codes| <= |members|
    ensures (forall i :: 0 <= i < |codes| ==> members[i].email != e) ==>
              Filter(BreakoutRooms(parent, members, codes), IsBreakoutOf(parent.roomCode, e)) == []
    ensures forall k :: 0 <= k < |codes| && members[k].email == e &&
                        (forall i :: 0 <= i < |codes| && i != k ==> members[i].email != e) ==>
              Filter(BreakoutRooms(parent, members, codes), IsBreakoutOf(parent.roomCode, e))
                == [BreakoutRoom(parent, e, codes[k])]
  {
    var rs := BreakoutRooms(parent, members, codes);
    if forall i :: 0 <= i < |codes| ==> members[i].email != e {
      FilterNone(rs, IsBreakoutOf(parent.roomCode, e));
    }
    forall k | 0 <= k < |codes| && members[k].email == e &&
               (forall i :: 0 <= i < |codes| && i != k ==> members[i].email != e)
      ensures Filter(rs, IsBreakoutOf(parent.roomCode, e)) == [BreakoutRoom(parent, e, codes[k])]
    {
      FilterSingle(rs, IsBreakoutOf(parent.roomCode, e), k);
    }
  }

  lemma BreakoutSnoc(parent: Room, members: seq<Membership>, codes: seq<string>, c: string, d: ColumnDefaults)
    requires |codes| < |members|
    ensures BreakoutRooms(parent, members, codes + [c])
            == BreakoutRooms(parent, members, codes) + [BreakoutRoom(parent, members[|codes|].email, c)]
    ensures BreakoutMembers(members, codes + [c], d)
            == BreakoutMembers(members, codes, d) + [NewMembership(c, members[|codes|].email, d)]
  {
  }

  lemma InitialiseSnoc(base: string, codes: seq<string>, i: nat)
    requires i < |codes|
    ensures InitialisePosts(base, codes[..i + 1]) == InitialisePosts(base, codes[..i]) + [Post(InitialiseUrl(base, codes[i]), None)]
  {
  }

  /**
   * `createRoom`: picks a fresh 13-symbol code, inserts the room, then one membership row per distinct
   * participant plus the creator, and fans a top-level room out into breakout rooms. Nothing is rolled
   * back: a failed membership insert leaves the room behind, a failed fan-out leaves the rooms made so far.
   */
  method CreateRoom(store: Store, outbox: Outbox, p: RoomParams, auth: Option<string>)
    returns (r: Result<string, RoomError>, code: string, ghost made: seq<string>)
    requires store.Valid()
    modifies store, outbox
    decreases if Truthy(p.parentRoomCode) then 1 else 6
    ensures store.Valid() && store.messages == old(store.messages)
    ensures IsRoomCode(code)
    ensures ResolveCreator(p.creatorEmail, auth).None? ==>
              && r == Err(UserNotFound)
              && store.rooms == old(store.rooms) && store.joined == old(store.joined) && outbox.posts == old(outbox.posts)
    ensures ResolveCreator(p.creatorEmail, auth).Some? ==>
              var creator := ResolveCreator(p.creatorEmail, auth).value;
              var room := NewRoom(p, code, creator);
              var rows := MemberRows(code, ParticipantEmails(p, creator), store.defaults);
              && (!old(store.RoomAccepted(room)) ==>
                    && r == Err(RoomInsertFailed)
                    && store.rooms == old(store.rooms) && store.joined == old(store.joined) && outbox.posts == old(outbox.posts))
              && (old(store.RoomAccepted(room)) && !HaveProfiles(store.profiles, ParticipantEmails(p, creator)) ==>
                    && r == Err(MembershipInsertFailed)
                    && store.rooms == old(store.rooms) + [room] && store.joined == old(store.joined)
                    && outbox.posts == old(outbox.posts))
              && (old(store.RoomAccepted(room)) && HaveProfiles(store.profiles, ParticipantEmails(p, creator)) &&
                  Truthy(p.parentRoomCode) ==>
                    && r == Ok(code)
                    && store.rooms == old(store.rooms) + [room] && store.joined == old(store.joined) + rows
                    && outbox.posts == old(outbox.posts))
              && (old(store.RoomAccepted(room)) && HaveProfiles(store.profiles, ParticipantEmails(p, creator)) &&
                  !Truthy(p.parentRoomCode) ==>
                    && |made| <= |rows|
                    && store.rooms == old(store.rooms) + [room] + BreakoutRooms(room, rows, made)
                    && store.joined == old(store.joined) + rows + BreakoutMembers(rows, made, store.defaults)
                    && (r.Ok? ==> r == Ok(code) && |made| == |rows|
                                  && outbox.posts == old(outbox.posts) + InitialisePosts(outbox.base, made))
                    && (r.Err? ==> r == Err(RoomInsertFailed) && |made| < |rows| && outbox.posts == old(outbox.posts)))
  {
    SomeRoomCode();
    code :| IsRoomCode(code);
    made := [];
    var creator := ResolveCreator(p.creatorEmail, auth);
    if creator.None? {
      return Err(UserNotFound), code, made;
    }
    var room := NewRoom(p, code, creator.value);
    var roomOk := store.InsertRoom(room);
    if !roomOk {
      return Err(RoomInsertFailed), code, made;
    }
    assert forall i :: 0 <= i < |old(store.joined)| ==> old(store.joined)[i].roomCode != code;
    r, made := AddMembers(store, outbox, room, ParticipantEmails(p, creator.value));
  }

  /**
   * The rest of `createRoom` once the room row `room` is stored: the membership rows, then the fan-out
   * when the room is top-level.
   */
  method AddMembers(store: Store, outbox: Outbox, room: Room, emails: seq<string>)
    returns (r: Result<string, RoomError>, ghost made: seq<string>)
    requires store.Valid() && |store.rooms| > 0 && store.rooms[|store.rooms| - 1] == room
    requires forall i :: 0 <= i < |store.joined| ==> store.joined[i].roomCode != room.roomCode
    modifies store, outbox
    decreases if Truthy(room.parentRoomCode) then 0 else 5
    ensures store.Valid() && store.messages == old(store.messages)
    ensures var rows := MemberRows(room.roomCode, emails, store.defaults);
            && (!HaveProfiles(store.profiles, emails) ==>
                  && r == Err(MembershipInsertFailed)
                  && store.rooms == old(store.rooms) && store.joined == old(store.joined)
                  && outbox.posts == old(outbox.posts))
            && (HaveProfiles(store.profiles, emails) && Truthy(room.parentRoomCode) ==>
                  && r == Ok(room.roomCode)
                  && store.rooms == old(store.rooms) && store.joined == old(store.joined) + rows
                  && outbox.posts == old(outbox.posts))
            && (HaveProfiles(store.profiles, emails) && !Truthy(room.parentRoomCode) ==>
                  && |made| <= |rows|
                  && store.rooms == old(store.rooms) + BreakoutRooms(room, rows, made)
                  && store.joined == old(store.joined) + rows + BreakoutMembers(rows, made, store.defaults)
                  && (r.Ok? ==> r == Ok(room.roomCode) && |made| == |rows|
                                && outbox.posts == old(outbox.posts) + InitialisePosts(outbox.base, made))
                  && (r.Err? ==> r == Err(RoomInsertFailed) && |made| < |rows| && outbox.posts == old(outbox.posts)))
  {
    made := [];
    var code := room.roomCode;
    var rows := MemberRows(code, emails, store.defaults);
    assert HasRoom(store.rooms, code) by {
      assert store.rooms[|store.rooms| - 1] == room;
    }
    assert store.RowsAccepted(rows) <==> HaveProfiles(store.profiles, emails);
    var rowsOk := store.InsertMembers(rows);
    if !rowsOk {
      return Err(MembershipInsertFailed), made;
    }
    if Truthy(room.parentRoomCode) {
      return Ok(code), made;
    }
    ghost var earlier := old(store.rooms)[..|old(store.rooms)| - 1];
    assert old(store.rooms) == earlier + [room];
    assert !HasRoom(earlier, code) by {
      forall i | 0 <= i < |earlier| ensures earlier[i].roomCode != code {
        assert earlier[i] == old(store.rooms)[i];
      }
    }
    FindFreshRoom(earlier, room);
    FreshMembers(old(store.joined), rows, code);
    var fan;
    fan, made := CreateBreakoutRooms(store, outbox, code);
    r := if fan.Ok? then Ok(code) else Err(fan.error);
  }

  /** One round of the fan-out loop: `createRoom` for the breakout room of member `e`. */
  method CreateBreakoutRoom(store: Store, outbox: Outbox, parent: Room, e: string) returns (r: Result<string, RoomError>)
    requires store.Valid() && e in store.profiles && parent.roomCode != ""
    modifies store, outbox
    decreases 2
    ensures store.Valid() && store.messages == old(store.messages) && outbox.posts == old(outbox.posts)
    ensures r.Ok? ==>
              && !old(HasRoom(store.rooms, r.value))
              && store.rooms == old(store.rooms) + [BreakoutRoom(parent, e, r.value)]
              && store.joined == old(store.joined) + [NewMembership(r.value, e, store.defaults)]
    ensures r.Err? ==>
              && r.error == RoomInsertFailed
              && store.rooms == old(store.rooms) && store.joined == old(store.joined)
  {
    var p := BreakoutParams(parent, e);
    assert ResolveCreator(p.creatorEmail, None) == Some(e);
    assert ParticipantEmails(p, e) == [e];
    var code;
    ghost var made;
    r, code, made := CreateRoom(store, outbox, p, None);
  }

  /** The second loop of `createBreakoutRooms`: `initialiseRoom` for each code, in order. */
  method InitialiseAll(outbox: Outbox, codes: seq<string>)
    modifies outbox
    ensures outbox.posts == old(outbox.posts) + InitialisePosts(outbox.base, codes)
  {
    var j := 0;
    while j < |codes|
      invariant 0 <= j <= |codes|
      invariant outbox.posts == old(outbox.posts) + InitialisePosts(outbox.base, codes[..j])
    {
      InitialiseRoom(outbox, codes[j]);
      InitialiseSnoc(outbox.base, codes, j);
      j := j + 1;
    }
    assert codes[..j] == codes;
  }

  /**
   * `createBreakoutRooms`: one breakout room per member row of the parent, then one `initialiseRoom`
   * request per breakout room once all of them exist.
   */
  method CreateBreakoutRooms(store: Store, outbox: Outbox, roomCode: string)
    returns (r: Result<seq<string>, RoomError>, ghost made: seq<string>)
    requires store.Valid()
    modifies store, outbox
    decreases 4
    ensures store.Valid() && store.messages == old(store.messages)
    ensures old(FindRoom(store.rooms, roomCode)).None? ==>
              && r == Err(NonExistentRoom)
              && store.rooms == old(store.rooms) && store.joined == old(store.joined) && outbox.posts == old(outbox.posts)
    ensures old(FindRoom(store.rooms, roomCode)).Some? ==>
              var parent := old(FindRoom(store.rooms, roomCode)).value;
              var members := old(MembersOf(store.joined, roomCode));
              && |made| <= |members|
              && store.rooms == old(store.rooms) + BreakoutRooms(parent, members, made)
              && store.joined == old(store.joined) + BreakoutMembers(members, made, store.defaults)
              && (r.Ok? ==> r.value == made && |made| == |members|
                            && outbox.posts == old(outbox.posts) + InitialisePosts(outbox.base, made))
              && (r.Err? ==> r.error == RoomInsertFailed && |made| < |members| && outbox.posts == old(outbox.posts))
  {
    made := [];
    var found := FindRoom(store.rooms, roomCode);
    if found.None? {
      return Err(NonExistentRoom), made;
    }
    var parent := found.value;
    FindRoomFound(store.rooms, roomCode);
    assert IsRoomCode(roomCode) by {
      var pi :| 0 <= pi < |store.rooms| && store.rooms[pi] == parent;
    }
    var members := MembersOf(store.joined, roomCode);
    FilterMembership(store.joined, InRoom(roomCode));
    assert forall i :: 0 <= i < |members| ==> members[i].email in store.profiles by {
      forall i | 0 <= i < |members| ensures members[i].email in store.profiles {
        assert members[i] in store.joined;
      }
    }
    var fan, codes := FanOut(store, outbox, parent, members);
    made := codes;
    if fan.Err? {
      return Err(fan.error), made;
    }
    InitialiseAll(outbox, codes);
    r := Ok(codes);
  }

  /** The first loop of `createBreakoutRooms`: a breakout room for each member row, in order. */
  method FanOut(store: Store, outbox: Outbox, parent: Room, members: seq<Membership>)
    returns (r: Result<(), RoomError>, made: seq<string>)
    requires store.Valid() && parent.roomCode != ""
    requires forall i :: 0 <= i < |members| ==> members[i].email in store.profiles
    modifies store, outbox
    decreases 3
    ensures store.Valid() && store.messages == old(store.messages) && outbox.posts == old(outbox.posts)
    ensures |made| <= |members|
    ensures store.rooms == old(store.rooms) + BreakoutRooms(parent, members, made)
    ensures store.joined == old(store.joined) + BreakoutMembers(members, made, store.defaults)
    ensures r.Ok? ==> |made| == |members|
    ensures r.Err? ==> r.error == RoomInsertFailed && |made| < |members|
  {
    made := [];
    var i := 0;
    while i < |members|
      invariant 0 <= i <= |members| && |made| == i
      invariant store.Valid() && store.messages == old(store.messages)
      invariant store.rooms == old(store.rooms) + BreakoutRooms(parent, members, made)
      invariant store.joined == old(store.joined) + BreakoutMembers(members, made, store.defaults)
      invariant outbox.posts == old(outbox.posts)
    {
      var c := CreateBreakoutRoom(store, outbox, parent, members[i].email);
      if c.Err? {
        return Err(c.error), made;
      }
      BreakoutSnoc(parent, members, made, c.value, store.defaults);
      made := made + [c.value];
      i := i + 1;
    }
    r := Ok(());
  }

  // ----- getBreakoutRoom -----

  /** Each member row yields one breakout room owned by that member: a user gains one per row of theirs. */
  lemma {:induction false} BreakoutCount(parent: Room, members: seq<Membership>, codes: seq<string>, e: string)
    requires |codes| == |members|
    ensures |Filter(BreakoutRooms(parent, members, codes), IsBreakoutOf(parent.roomCode, e))|
            == |Filter(members, HasEmail(e))|
    decreases |members|
  {
    if members != [] {
      var n := |members| - 1;
      var last := BreakoutRoom(parent, members[n].email, codes[n]);
      BreakoutCount(parent, members[..n], codes[..n], e);
      assert BreakoutRooms(parent, members, codes) == BreakoutRooms(parent, members[..n], codes[..n]) + [last];
      FilterAppend(BreakoutRooms(parent, members[..n], codes[..n]), [last], IsBreakoutOf(parent.roomCode, e));
      assert members == members[..n] + [members[n]];
      FilterAppend(members[..n], [members[n]], HasEmail(e));
    }
  }

  /**
   * A complete fan-out leaves the parent and its member rows as they were and gives every user one more
   * breakout room under the parent per membership row of theirs.
   */
  lemma FanOutEffect(rooms: seq<Room>, joined: seq<Membership>, parent: Room, made: seq<string>,
                     d: ColumnDefaults, user: string)
    requires FindRoom(rooms, parent.roomCode) == Some(parent)
    requires |made| == |MembersOf(joined, parent.roomCode)|
    requires var all := rooms + BreakoutRooms(parent, MembersOf(joined, parent.roomCode), made);
             forall i, j :: 0 <= i < j < |all| ==> all[i].roomCode != all[j].roomCode
    ensures var members := MembersOf(joined, parent.roomCode);
            var rooms' := rooms + BreakoutRooms(parent, members, made);
            var joined' := joined + BreakoutMembers(members, made, d);
            && FindRoom(rooms', parent.roomCode) == Some(parent)
            && MembersOf(joined', parent.roomCode) == members
            && RowsOf(joined', parent.roomCode, user) == RowsOf(joined, parent.roomCode, user)
            && |BreakoutsOf(rooms', parent.roomCode, user)|
               == |BreakoutsOf(rooms, parent.roomCode, user)| + |RowsOf(joined, parent.roomCode, user)|
  {
    var code := parent.roomCode;
    var members := MembersOf(joined, code);
    var added := BreakoutRooms(parent, members, made);
    var rows := BreakoutMembers(members, made, d);
    FindRoomFound(rooms, code);
    AppendedCodesFresh(rooms, added);
    assert forall k :: 0 <= k < |added| ==> added[k].roomCode != code;
    OtherRooms(rooms, added, code);
    assert forall k :: 0 <= k < |rows| ==> rows[k].roomCode != code by {
      forall k | 0 <= k < |rows| ensures rows[k].roomCode != code {
        assert rows[k].roomCode == added[k].roomCode;
      }
    }
    OtherMembers(joined, rows, code);
    FilterAppend(joined, rows, RowIs(code, user));
    FilterNone(rows, RowIs(code, user));
    FilterAppend(rooms, added, IsBreakoutOf(code, user));
    BreakoutCount(parent, members, made, user);
    MembersWithEmail(joined, code, user);
  }

  /**
   * The input that keeps `getBreakoutRoom` looping: a logged-in user with no row in the parent and no
   * breakout room under it is still unresolved after a complete fan-out, so the next round starts over.
   */
  lemma FanOutLeavesNonMemberUnresolved(rooms: seq<Room>, joined: seq<Membership>, parent: Room, made: seq<string>,
                                        d: ColumnDefaults, user: string)
    requires FindRoom(rooms, parent.roomCode) == Some(parent)
    requires |made| == |MembersOf(joined, parent.roomCode)|
    requires var all := rooms + BreakoutRooms(parent, MembersOf(joined, parent.roomCode), made);
             forall i, j :: 0 <= i < j < |all| ==> all[i].roomCode != all[j].roomCode
    requires LookupBreakout(rooms, parent.roomCode, Some(user)).None?
    requires RowsOf(joined, parent.roomCode, user) == []
    ensures var rooms' := rooms + BreakoutRooms(parent, MembersOf(joined, parent.roomCode), made);
            LookupBreakout(rooms', parent.roomCode, Some(user)).None?
  {
    FanOutEffect(rooms, joined, parent, made, d, user);
  }

  /** Whether `code` names a room that is itself a breakout room. */
  predicate IsBreakoutCode(rooms: seq<Room>, code: string) {
    FindRoom(rooms, code).Some? && Truthy(FindRoom(rooms, code).value.parentRoomCode)
  }

  /**
   * What `getBreakoutRoom` settles without writing: a code that names a breakout room resolves to that
   * room; otherwise a logged-in user's breakout room under it resolves when exactly one exists.
   * `None` means the fan-out has to run.
   */
  function LookupBreakout(rooms: seq<Room>, parentCode: string, auth: Option<string>): (l: Option<Result<Room, RoomError>>)
    ensures l.Some? && l.value.Ok? ==>
              && l.value.value in rooms
              && ((l.value.value.roomCode == parentCode && Truthy(l.value.value.parentRoomCode))
                  || (l.value.value.parentRoomCode == Some(parentCode) && auth == Some(l.value.value.creatorEmail)))
    ensures l == Some(Err(NotLoggedIn)) <==> !IsBreakoutCode(rooms, parentCode) && !Truthy(auth)
    ensures l.Some? && l.value.Err? ==> l.value.error == NotLoggedIn
    ensures l.None? <==>
              !IsBreakoutCode(rooms, parentCode) && Truthy(auth) && |BreakoutsOf(rooms, parentCode, auth.value)| != 1
  {
    var found := FindRoom(rooms, parentCode);
    if found.Some? && Truthy(found.value.parentRoomCode) then
      FindRoomFound(rooms, parentCode);
      Some(Ok(found.value))
    else if !Truthy(auth) then Some(Err(NotLoggedIn))
    else
      var breakouts := BreakoutsOf(rooms, parentCode, auth.value);
      FilterMembership(rooms, IsBreakoutOf(parentCode, auth.value));
      if |breakouts| == 1 then
        assert breakouts[0] in breakouts;
        Some(Ok(breakouts[0]))
      else None
  }

  /**
   * `getBreakoutRoom` with the retry bounded to one round: when the fan-out did not give the user exactly
   * one breakout room, it reports `BreakoutResolutionFailure` instead of fanning out again.
   */
  method GetBreakoutRoom(store: Store, outbox: Outbox, parentCode: string, auth: Option<string>)
    returns (r: Result<Room, RoomError>)
    requires store.Valid()
    modifies store, outbox
    ensures store.Valid() && store.messages == old(store.messages)
    ensures old(LookupBreakout(store.rooms, parentCode, auth)).Some? ==>
              && r == old(LookupBreakout(store.rooms, parentCode, auth)).value
              && store.rooms == old(store.rooms) && store.joined == old(store.joined) && outbox.posts == old(outbox.posts)
    ensures r.Ok? ==> LookupBreakout(store.rooms, parentCode, auth) == Some(r)
    ensures r == Err(NonExistentRoom) <==>
              old(LookupBreakout(store.rooms, parentCode, auth)).None? && old(FindRoom(store.rooms, parentCode)).None?
    ensures r.Err? ==> r.error in {NotLoggedIn, NonExistentRoom, RoomInsertFailed, BreakoutResolutionFailure}
    ensures old(LookupBreakout(store.rooms, parentCode, auth)).None? && r.Err? && r.error == BreakoutResolutionFailure ==>
              old(|BreakoutsOf(store.rooms, parentCode, auth.value)| + |RowsOf(store.joined, parentCode, auth.value)|) != 1
    ensures old(LookupBreakout(store.rooms, parentCode, auth)).None? && old(FindRoom(store.rooms, parentCode)).Some? &&
            old(|BreakoutsOf(store.rooms, parentCode, auth.value)| + |RowsOf(store.joined, parentCode, auth.value)|) == 1 ==>
              r.Ok? || r == Err(RoomInsertFailed)
  {
    var l := LookupBreakout(store.rooms, parentCode, auth);
    if l.Some? {
      return l.value;
    }
    ghost var rooms0, joined0 := store.rooms, store.joined;
    var fan;
    ghost var made;
    fan, made := CreateBreakoutRooms(store, outbox, parentCode);
    if fan.Err? {
      return Err(fan.error);
    }
    var parent := FindRoom(rooms0, parentCode).value;
    FindRoomFound(rooms0, parentCode);
    FanOutEffect(rooms0, joined0, parent, made, store.defaults, auth.value);
    var again := LookupBreakout(store.rooms, parentCode, auth);
    r := if again.Some? then again.value else Err(BreakoutResolutionFailure);
  }

  /**
   * `getBreakoutRoom` as written: after every fan-out it calls itself again. `fuel` bounds the rounds the
   * model follows; running out of it stands for the source still looping. Unless the user has no breakout
   * room yet and exactly one membership row in the parent, no round ever resolves, and every round adds a
   * complete set of breakout rooms for the parent's members.
   */
  method GetBreakoutRoomAsWritten(store: Store, outbox: Outbox, parentCode: string, auth: Option<string>, fuel: nat)
    returns (r: Result<Room, RoomError>)
    requires store.Valid()
    modifies store, outbox
    decreases fuel
    ensures store.Valid() && store.messages == old(store.messages)
    ensures old(LookupBreakout(store.rooms, parentCode, auth)).Some? ==>
              && r == old(LookupBreakout(store.rooms, parentCode, auth)).value
              && store.rooms == old(store.rooms) && store.joined == old(store.joined) && outbox.posts == old(outbox.posts)
    ensures r.Ok? ==> LookupBreakout(store.rooms, parentCode, auth) == Some(r)
    ensures old(LookupBreakout(store.rooms, parentCode, auth)).None? && old(FindRoom(store.rooms, parentCode)).Some? &&
            !(old(|BreakoutsOf(store.rooms, parentCode, auth.value)|) == 0 &&
              old(|RowsOf(store.joined, parentCode, auth.value)|) == 1) ==>
              && r.Err? && r.error in {RoomInsertFailed, RecursionLimit}
              && (r.error == RecursionLimit ==>
                    |store.rooms| == old(|store.rooms|) + fuel * old(|MembersOf(store.joined, parentCode)|))
  {
    var l := LookupBreakout(store.rooms, parentCode, auth);
    if l.Some? {
      return l.value;
    }
    if fuel == 0 {
      return Err(RecursionLimit);
    }
    ghost var rooms0, joined0 := store.rooms, store.joined;
    var fan;
    ghost var made;
    fan, made := CreateBreakoutRooms(store, outbox, parentCode);
    if fan.Err? {
      return Err(fan.error);
    }
    ghost var parent := FindRoom(rooms0, parentCode).value;
    FindRoomFound(rooms0, parentCode);
    FanOutEffect(rooms0, joined0, parent, made, store.defaults, auth.value);
    ghost var m := |MembersOf(joined0, parentCode)|;
    assert |store.rooms| == |rooms0| + m;
    r := GetBreakoutRoomAsWritten(store, outbox, parentCode, auth, fuel - 1);
    assert (fuel - 1) * m + m == fuel * m;
  }
}
