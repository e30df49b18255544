/**
 * The three tables the services read and write (`rooms`, `room_joined_users`, `messages`), held as an
 * in-memory store. Rows are kept in insertion order, which is also `created_at` order.
 */
module Tables {
  import opened Wrappers
  import opened Seqs
  import opened RoomCodes

  /** A row of `rooms`; `parentRoomCode` is null for a top-level room. */
  datatype Room = Room(
    roomCode: string,
    roomName: Option<string>,
    creatorEmail: string,
    mediatorType: string,
    description: string,
    parentRoomCode: Option<string>)

  /** A row of `room_joined_users`. */
  datatype Membership = Membership(roomCode: string, email: string, isInputEnable: bool, status: string)

  /** A row of `messages`. */
  datatype Message = Message(
    content: Option<string>,
    role: string,
    email: string,
    roomCode: string,
    isPublic: bool,
    isContext: bool)

  /** Column defaults the database fills in when an insert leaves a column out. */
  datatype ColumnDefaults = ColumnDefaults(isInputEnable: bool, status: string, isContext: bool)

  // ----- queries -----

  predicate HasRoom(rooms: seq<Room>, code: string) {
    exists i :: 0 <= i < |rooms| && rooms[i].roomCode == code
  }

  function CodeIs(code: string): Room -> bool {
    (r: Room) => r.roomCode == code
  }

  /** `from('rooms').select().eq('room_code', code)` */
  function RoomsWithCode(rooms: seq<Room>, code: string): seq<Room> {
    Filter(rooms, CodeIs(code))
  }

  /** The same query followed by `.maybeSingle()`. */
  function FindRoom(rooms: seq<Room>, code: string): Option<Room> {
    MaybeSingle(RoomsWithCode(rooms, code))
  }

  function InRoom(code: string): Membership -> bool {
    (m: Membership) => m.roomCode == code
  }

  /** `from('room_joined_users').select().eq('room_code', code)` */
  function MembersOf(joined: seq<Membership>, code: string): seq<Membership> {
    Filter(joined, InRoom(code))
  }

  function RowIs(code: string, email: string): Membership -> bool {
    (m: Membership) => m.roomCode == code && m.email == email
  }

  /** The membership rows of one user in one room. */
  function RowsOf(joined: seq<Membership>, code: string, email: string): seq<Membership> {
    Filter(joined, RowIs(code, email))
  }

  function HasEmail(email: string): Membership -> bool {
    (m: Membership) => m.email == email
  }

  /** A user's rows in a room are that room's member rows carrying the user's email. */
  lemma {:induction false} MembersWithEmail(joined: seq<Membership>, code: string, email: string)
    ensures Filter(MembersOf(joined, code), HasEmail(email)) == RowsOf(joined, code, email)
  {
    if joined != [] {
      MembersWithEmail(joined[1..], code, email);
      if joined[0].roomCode == code {
        assert MembersOf(joined, code) == [joined[0]] + MembersOf(joined[1..], code);
        assert ([joined[0]] + MembersOf(joined[1..], code))[1..] == MembersOf(joined[1..], code);
      }
    }
  }

  function IsBreakoutOf(parent: string, email: string): Room -> bool {
    (r: Room) => r.parentRoomCode == Some(parent) && r.creatorEmail == email
  }

  /** `.eq('parent_room_code', parent).eq('creator_email', email)` */
  function BreakoutsOf(rooms: seq<Room>, parent: string, email: string): seq<Room> {
    Filter(rooms, IsBreakoutOf(parent, email))
  }

  function PostedIn(code: string): Message -> bool {
    (m: Message) => m.roomCode == code
  }

  /** `from('messages').select(...).eq('room_code', code).order('created_at', ascending)` */
  function RoomLog(messages: seq<Message>, code: string): seq<Message> {
    Filter(messages, PostedIn(code))
  }

  /** A room found by code is a stored room with that code. */
  lemma FindRoomFound(rooms: seq<Room>, code: string)
    requires FindRoom(rooms, code).Some?
    ensures FindRoom(rooms, code).value in rooms
    ensures FindRoom(rooms, code).value.roomCode == code
    ensures HasRoom(rooms, code)
  {
    FilterMembership(rooms, CodeIs(code));
    var r := FindRoom(rooms, code).value;
    assert r in RoomsWithCode(rooms, code);
    var i :| 0 <= i < |rooms| && rooms[i] == r;
  }

  /** A room that is absent before its insert is the only room with its code afterwards. */
  lemma FindFreshRoom(rooms: seq<Room>, r: Room)
    requires !HasRoom(rooms, r.roomCode)
    ensures RoomsWithCode(rooms + [r], r.roomCode) == [r]
    ensures FindRoom(rooms + [r], r.roomCode) == Some(r)
  {
    FilterAppend(rooms, [r], CodeIs(r.roomCode));
    FilterNone(rooms, CodeIs(r.roomCode));
  }

  /** Rooms appended under the unique key on `room_code` carry codes the earlier rooms do not. */
  lemma AppendedCodesFresh(rooms: seq<Room>, added: seq<Room>)
    requires forall i, j :: 0 <= i < j < |rooms + added| ==> (rooms + added)[i].roomCode != (rooms + added)[j].roomCode
    ensures forall k :: 0 <= k < |added| ==> !HasRoom(rooms, added[k].roomCode)
  {
    forall k | 0 <= k < |added| ensures !HasRoom(rooms, added[k].roomCode) {
      forall i | 0 <= i < |rooms| ensures rooms[i].roomCode != added[k].roomCode {
        assert (rooms + added)[i] == rooms[i] && (rooms + added)[|rooms| + k] == added[k];
      }
    }
  }

  /** Rows appended for one room are that room's members when no earlier row names it. */
  lemma FreshMembers(joined: seq<Membership>, rows: seq<Membership>, code: string)
    requires forall i :: 0 <= i < |joined| ==> joined[i].roomCode != code
    requires forall i :: 0 <= i < |rows| ==> rows[i].roomCode == code
    ensures MembersOf(joined + rows, code) == rows
  {
    FilterAppend(joined, rows, InRoom(code));
    FilterNone(joined, InRoom(code));
    FilterAll(rows, InRoom(code));
  }

  /** Rows appended for other rooms leave a room's members as they were. */
  lemma OtherMembers(joined: seq<Membership>, rows: seq<Membership>, code: string)
    requires forall i :: 0 <= i < |rows| ==> rows[i].roomCode != code
    ensures MembersOf(joined + rows, code) == MembersOf(joined, code)
  {
    FilterAppend(joined, rows, InRoom(code));
    FilterNone(rows, InRoom(code));
  }

  /** Rooms appended with other codes leave the lookup of a code as it was. */
  lemma OtherRooms(rooms: seq<Room>, added: seq<Room>, code: string)
    requires forall i :: 0 <= i < |added| ==> added[i].roomCode != code
    ensures RoomsWithCode(rooms + added, code) == RoomsWithCode(rooms, code)
    ensures FindRoom(rooms + added, code) == FindRoom(rooms, code)
  {
    FilterAppend(rooms, added, CodeIs(code));
    FilterNone(added, CodeIs(code));
  }

  /** A row is one of a user's rows in a room exactly when it is stored with that room and email. */
  lemma RowsOfMembership(joined: seq<Membership>, code: string, email: string)
    ensures forall m :: m in RowsOf(joined, code, email) <==> m in joined && m.roomCode == code && m.email == email
  {
    FilterMembership(joined, RowIs(code, email));
  }

  /** `update({is_input_enable: flag}).eq('email', email).eq('room_code', code)` */
  function WithInputEnable(joined: seq<Membership>, code: string, email: string, flag: bool): (r: seq<Membership>)
    ensures |r| == |joined|
    ensures forall i :: 0 <= i < |joined| ==>
              r[i] == if joined[i].roomCode == code && joined[i].email == email
                      then joined[i].(isInputEnable := flag) else joined[i]
  {
    seq(|joined|, i requires 0 <= i < |joined| =>
      if joined[i].roomCode == code && joined[i].email == email then joined[i].(isInputEnable := flag) else joined[i])
  }

  /** The update touches only the flag of the rows of that user in that room, and every such row gets it. */
  lemma WithInputEnableOnlyTouchesMatches(joined: seq<Membership>, code: string, email: string, flag: bool, i: nat)
    requires i < |joined|
    ensures var r := WithInputEnable(joined, code, email, flag);
            r[i].roomCode == joined[i].roomCode && r[i].email == joined[i].email && r[i].status == joined[i].status
            && (r[i] != joined[i] ==> joined[i].roomCode == code && joined[i].email == email)
            && (joined[i].roomCode == code && joined[i].email == email ==> r[i].isInputEnable == flag)
  {
  }

  /** The row a membership insert writes for `email` in room `code`. */
  function NewMembership(code: string, email: string, d: ColumnDefaults): Membership {
    Membership(code, email, d.isInputEnable, d.status)
  }

  /** The in-memory store of the three tables. `profiles` is the target of the email foreign keys. */
  class Store {
    const profiles: set<string>
    const defaults: ColumnDefaults
    var rooms: seq<Room>
    var joined: seq<Membership>
    var messages: seq<Message>

    /**
     * Referential integrity and key uniqueness, plus what the system keeps true of its own rows:
     * every profile has a non-empty email and every room code was made by `nanoid`.
     */
    ghost predicate Valid()
      reads this
    {
      && "" !in profiles
      && (forall i, j :: 0 <= i < j < |rooms| ==> rooms[i].roomCode != rooms[j].roomCode)
      && (forall i :: 0 <= i < |rooms| ==> IsRoomCode(rooms[i].roomCode) && rooms[i].creatorEmail in profiles)
      && (forall i :: 0 <= i < |joined| ==> joined[i].email in profiles && HasRoom(rooms, joined[i].roomCode))
      && (forall i :: 0 <= i < |messages| ==> messages[i].email in profiles && HasRoom(rooms, messages[i].roomCode))
    }

    constructor (profiles: set<string>, defaults: ColumnDefaults)
      requires "" !in profiles
      ensures Valid()
      ensures this.profiles == profiles && this.defaults == defaults
      ensures rooms == [] && joined == [] && messages == []
    {
      this.profiles := profiles;
      this.defaults := defaults;
      rooms, joined, messages := [], [], [];
    }

    /** Whether the unique key on `room_code` and the creator's foreign key accept the row. */
    predicate RoomAccepted(r: Room)
      reads this
    {
      !HasRoom(rooms, r.roomCode) && r.creatorEmail in profiles
    }

    /** Whether the foreign keys accept every row of a batch insert. */
    predicate RowsAccepted(rows: seq<Membership>)
      reads this
    {
      forall i :: 0 <= i < |rows| ==> rows[i].email in profiles && HasRoom(rooms, rows[i].roomCode)
    }

    /** Whether the foreign keys accept a message. */
    predicate MessageAccepted(m: Message)
      reads this
    {
      m.email in profiles && HasRoom(rooms, m.roomCode)
    }

    /** `from('rooms').insert(r)`: the row is stored, or the insert reports an error and nothing is stored. */
    method InsertRoom(r: Room) returns (ok: bool)
      requires Valid() && IsRoomCode(r.roomCode)
      modifies this
      ensures Valid()
      ensures ok == old(RoomAccepted(r))
      ensures rooms == if ok then old(rooms) + [r] else old(rooms)
      ensures joined == old(joined) && messages == old(messages)
    {
      ok := RoomAccepted(r);
      if ok {
        rooms := rooms + [r];
        assert forall c :: HasRoom(old(rooms), c) ==> HasRoom(rooms, c) by {
          forall c | HasRoom(old(rooms), c) ensures HasRoom(rooms, c) {
            var i :| 0 <= i < |old(rooms)| && old(rooms)[i].roomCode == c;
            assert rooms[i].roomCode == c;
          }
        }
      }
    }

    /** `from('room_joined_users').insert(rows)`: one statement, so all rows are stored or none. */
    method InsertMembers(rows: seq<Membership>) returns (ok: bool)
      requires Valid()
      modifies this
      ensures Valid()
      ensures ok == old(RowsAccepted(rows))
      ensures joined == if ok then old(joined) + rows else old(joined)
      ensures rooms == old(rooms) && messages == old(messages)
    {
      ok := RowsAccepted(rows);
      if ok {
        joined := joined + rows;
      }
    }

    /** `from('messages').insert(m)`; the services never look at the error, so a rejected row is simply absent. */
    method InsertMessage(m: Message) returns (ok: bool)
      requires Valid()
      modifies this
      ensures Valid()
      ensures ok == old(MessageAccepted(m))
      ensures messages == if ok then old(messages) + [m] else old(messages)
      ensures rooms == old(rooms) && joined == old(joined)
    {
      ok := MessageAccepted(m);
      if ok {
        messages := messages + [m];
      }
    }

    /** `from('room_joined_users').update({is_input_enable: flag}).eq('email', email).eq('room_code', code)` */
    method UpdateInputEnable(code: string, email: string, flag: bool)
      requires Valid()
      modifies this
      ensures Valid()
      ensures joined == WithInputEnable(old(joined), code, email, flag)
      ensures rooms == old(rooms) && messages == old(messages)
    {
      joined := WithInputEnable(joined, code, email, flag);
    }
  }
}
