/**
 * The room hooks of the client: the membership-joined room query, the parent-code and room-code state,
 * the `mode` query parameter, and the membership-status state with its update filter.
 */
module RoomHooks {
  import opened Wrappers
  import opened Seqs
  import opened Tables
  import opened Osmobro
  import opened Lifecycle
  import opened MembershipGate

  // ----- useRoom -----

  /** `.eq('room_joined_users.email', user?.email!)`: without a user the filter value prints as "undefined". */
  function QueryEmail(auth: Option<string>): string {
    if auth.Some? then auth.value else "undefined"
  }

  function JoinedBy(joined: seq<Membership>, roomCode: string, email: string): Room -> bool {
    (r: Room) => r.roomCode == roomCode && RowsOf(joined, r.roomCode, email) != []
  }

  /**
   * `useRoom(roomCode)`: `rooms` inner-joined with the user's membership rows, filtered on the code, then
   * `.maybeSingle()`. A room comes back only to a user holding a membership row in it.
   */
  function UseRoom(rooms: seq<Room>, joined: seq<Membership>, roomCode: string, auth: Option<string>): (r: Option<Room>)
    ensures r.Some? ==> && r.value in rooms && r.value.roomCode == roomCode
                        && RowsOf(joined, roomCode, QueryEmail(auth)) != []
  {
    var matches := Filter(rooms, JoinedBy(joined, roomCode, QueryEmail(auth)));
    FilterMembership(rooms, JoinedBy(joined, roomCode, QueryEmail(auth)));
    if |matches| == 1 then assert matches[0] in matches; Some(matches[0]) else None
  }

  /** A stored room is what a lookup of its code finds, codes being unique. */
  lemma StoredRoomFound(store: Store, r: Room)
    requires store.Valid() && r in store.rooms
    ensures FindRoom(store.rooms, r.roomCode) == Some(r)
    ensures RoomsWithCode(store.rooms, r.roomCode) == [r]
  {
    var k :| 0 <= k < |store.rooms| && store.rooms[k] == r;
    FilterSingle(store.rooms, CodeIs(r.roomCode), k);
  }

  /** On a consistent store `useRoom` yields the room exactly when the user holds a row in it. */
  lemma UseRoomIsMembership(store: Store, roomCode: string, auth: Option<string>)
    requires store.Valid()
    ensures var email := QueryEmail(auth);
            && (UseRoom(store.rooms, store.joined, roomCode, auth).Some? <==>
                  HasRoom(store.rooms, roomCode) && RowsOf(store.joined, roomCode, email) != [])
            && (UseRoom(store.rooms, store.joined, roomCode, auth).Some? ==>
                  UseRoom(store.rooms, store.joined, roomCode, auth) == FindRoom(store.rooms, roomCode))
  {
    var email := QueryEmail(auth);
    var p := JoinedBy(store.joined, roomCode, email);
    if RowsOf(store.joined, roomCode, email) != [] {
      FilterSame(store.rooms, p, CodeIs(roomCode));
      if HasRoom(store.rooms, roomCode) {
        var k :| 0 <= k < |store.rooms| && store.rooms[k].roomCode == roomCode;
        StoredRoomFound(store, store.rooms[k]);
      } else {
        FilterNone(store.rooms, CodeIs(roomCode));
      }
    } else {
      FilterNone(store.rooms, p);
    }
  }

  /** A user the membership gate admits also gets the room from `useRoom`. */
  lemma AdmittedUserSeesRoom(store: Store, id: string, auth: Option<string>)
    requires store.Valid() && VerifyRoomMembership(store.joined, id, auth) == Admit
    ensures UseRoom(store.rooms, store.joined, id, auth) == FindRoom(store.rooms, id)
    ensures FindRoom(store.rooms, id).Some?
  {
    var rows := RowsOf(store.joined, id, auth.value);
    RowsOfMembership(store.joined, id, auth.value);
    assert rows[0] in rows;
    var i :| 0 <= i < |store.joined| && store.joined[i] == rows[0];
    assert HasRoom(store.rooms, id);
    UseRoomIsMembership(store, id, auth);
  }

  // ----- useParentRoomCode -----

  /** `room.parent_room_code || room.room_code` */
  function ParentOf(room: Room): string {
    if Truthy(room.parentRoomCode) then room.parentRoomCode.value else room.roomCode
  }

  /** The parent-code state of one mounted `useParentRoomCode`. */
  class ParentCodeHook {
    var parentCode: string

    /** `useState(roomCode)` */
    constructor (roomCode: string)
      ensures parentCode == roomCode
    {
      parentCode := roomCode;
    }

    /** The effect on `room`: a loaded room replaces the state, an absent one leaves it. */
    method OnRoom(room: Option<Room>)
      modifies this
      ensures parentCode == if room.Some? then ParentOf(room.value) else old(parentCode)
    {
      if room.Some? {
        parentCode := ParentOf(room.value);
      }
    }
  }

  /**
   * Every breakout room leads back to the room it was made under, and a room made without a parent is
   * its own parent.
   */
  lemma ParentOfCreatedRooms(parent: Room, members: seq<Membership>, codes: seq<string>, p: RoomParams, code: string,
                             creator: string)
    requires |codes| <= |members| && parent.roomCode != ""
    ensures forall i :: 0 <= i < |codes| ==> ParentOf(BreakoutRooms(parent, members, codes)[i]) == parent.roomCode
    ensures !Truthy(p.parentRoomCode) ==> ParentOf(NewRoom(p, code, creator)) == code
  {
    forall i | 0 <= i < |codes| ensures ParentOf(BreakoutRooms(parent, members, codes)[i]) == parent.roomCode {
      BreakoutRoomShape(parent, members, codes, i);
    }
  }

  // ----- useRoomMode / getModeURL -----

  datatype Param = Param(name: string, value: string)

  /** A URL as the hooks see it: the path and the query parameters in order, already decoded. */
  datatype Url = Url(pathname: string, params: seq<Param>)

  function NotNamed(name: string): Param -> bool {
    (p: Param) => p.name != name
  }

  /** `URLSearchParams.get(name)`: the value of the first parameter with that name. */
  function GetParam(ps: seq<Param>, name: string): (v: Option<string>)
    ensures v.Some? <==> exists i :: 0 <= i < |ps| && ps[i].name == name
    ensures v.Some? ==> exists i :: 0 <= i < |ps| && ps[i] == Param(name, v.value) &&
                                    forall j :: 0 <= j < i ==> ps[j].name != name
  {
    if ps == [] then None
    else if ps[0].name == name then Some(ps[0].value)
    else
      var v := GetParam(ps[1..], name);
      assert forall i :: 1 <= i < |ps| ==> ps[i] == ps[1..][i - 1];
      assert v.Some? ==> exists i :: 1 <= i < |ps| && ps[i] == Param(name, v.value) &&
                                     forall j :: 0 <= j < i ==> ps[j].name != name by {
        if v.Some? {
          var i :| 0 <= i < |ps[1..]| && ps[1..][i] == Param(name, v.value) &&
                   forall j :: 0 <= j < i ==> ps[1..][j].name != name;
          assert ps[i + 1] == Param(name, v.value);
          assert forall j :: 1 <= j < i + 1 ==> ps[j].name != name by {
            forall j | 1 <= j < i + 1 ensures ps[j].name != name {
              assert ps[j] == ps[1..][j - 1];
            }
          }
        }
      }
      v
  }

  /**
   * `URLSearchParams.set(name, value)`: the first parameter with the name takes the value in place and
   * later ones are removed; without one, the pair is appended.
   */
  function SetParam(ps: seq<Param>, name: string, value: string): seq<Param> {
    if ps == [] then [Param(name, value)]
    else if ps[0].name == name then [Param(name, value)] + Filter(ps[1..], NotNamed(name))
    else [ps[0]] + SetParam(ps[1..], name, value)
  }

  /** `URLSearchParams.delete(name)`: every parameter with the name goes. */
  function DeleteParam(ps: seq<Param>, name: string): (r: seq<Param>)
    ensures GetParam(r, name).None?
    ensures forall p :: p in r <==> p in ps && p.name != name
  {
    FilterMembership(ps, NotNamed(name));
    var r := Filter(ps, NotNamed(name));
    assert forall i :: 0 <= i < |r| ==> r[i] in r;
    r
  }

  /** After `set`, reading the name gives the value, and the other parameters stand as they were. */
  lemma {:induction false} SetParamSpec(ps: seq<Param>, name: string, value: string)
    ensures GetParam(SetParam(ps, name, value), name) == Some(value)
    ensures Filter(SetParam(ps, name, value), NotNamed(name)) == Filter(ps, NotNamed(name))
  {
    if ps != [] {
      if ps[0].name == name {
        var rest := Filter(ps[1..], NotNamed(name));
        FilterMembership(ps[1..], NotNamed(name));
        assert ([Param(name, value)] + rest)[1..] == rest;
        FilterAll(rest, NotNamed(name));
      } else {
        SetParamSpec(ps[1..], name, value);
        assert ([ps[0]] + SetParam(ps[1..], name, value))[1..] == SetParam(ps[1..], name, value);
      }
    }
  }

  /** `getModeURL(mode)` on the parameters: `set('mode', mode)` when mode is non-empty, else `delete('mode')`. */
  function WithMode(u: Url, mode: Option<string>): (v: Url)
    ensures v.pathname == u.pathname
    ensures GetParam(v.params, "mode") == if Truthy(mode) then mode else None
  {
    if Truthy(mode) then
      SetParamSpec(u.params, "mode", mode.value);
      u.(params := SetParam(u.params, "mode", mode.value))
    else u.(params := DeleteParam(u.params, "mode"))
  }

  /** `url.search`: empty without parameters, else '?' and the `name=value` pairs joined by '&'. */
  function Search(ps: seq<Param>): string {
    if ps == [] then "" else "?" + Pairs(ps)
  }

  function Pairs(ps: seq<Param>): string
    requires ps != []
  {
    var pair := ps[0].name + "=" + ps[0].value;
    if |ps| == 1 then pair else pair + "&" + Pairs(ps[1..])
  }

  /**
   * `url.pathname + url.search` after the mode change: the unchanged path, then a query string starting
   * with '?' exactly when parameters remain, which they always do after a non-empty mode.
   */
  function GetModeUrl(u: Url, mode: Option<string>): (href: string)
    ensures |u.pathname| <= |href| && href[..|u.pathname|] == u.pathname
    ensures |href| > |u.pathname| <==> WithMode(u, mode).params != []
    ensures |href| > |u.pathname| ==> href[|u.pathname|] == '?'
    ensures Truthy(mode) ==> |href| > |u.pathname|
  {
    var v := WithMode(u, mode);
    assert (v.pathname + Search(v.params))[..|u.pathname|] == u.pathname;
    v.pathname + Search(v.params)
  }

  /**
   * `searchParams.get('mode') || undefined`, as `useRoomMode` reads it: the value of the first `mode`
   * parameter when it is non-empty; none when there is no `mode` parameter or the first one is empty.
   */
  function ModeOf(ps: seq<Param>): (m: Option<string>)
    ensures m.Some? ==> m.value != "" && exists i :: 0 <= i < |ps| && ps[i] == Param("mode", m.value) &&
                                                     forall j :: 0 <= j < i ==> ps[j].name != "mode"
    ensures m.None? <==> GetParam(ps, "mode") in {None, Some("")}
  {
    var m := GetParam(ps, "mode");
    if Truthy(m) then m else None
  }

  /**
   * Reading the mode back from the URL `getModeURL` built gives the mode it was given (none for an empty
   * one), and every other query parameter is kept.
   */
  lemma ModeRoundTrip(u: Url, mode: Option<string>)
    ensures ModeOf(WithMode(u, mode).params) == if Truthy(mode) then mode else None
    ensures WithMode(u, mode).pathname == u.pathname
    ensures Filter(WithMode(u, mode).params, NotNamed("mode")) == Filter(u.params, NotNamed("mode"))
  {
    if Truthy(mode) {
      SetParamSpec(u.params, "mode", mode.value);
    } else {
      FilterMembership(u.params, NotNamed("mode"));
      FilterAll(DeleteParam(u.params, "mode"), NotNamed("mode"));
    }
  }

  // ----- useRoomCode -----

  /** Whether `code` is what `getBreakoutRoom(id)` may resolve to for this user. */
  predicate ResolvedBreakout(rooms: seq<Room>, id: string, code: string, auth: Option<string>) {
    var found := FindRoom(rooms, code);
    && found.Some?
    && ((code == id && Truthy(found.value.parentRoomCode))
        || (found.value.parentRoomCode == Some(id) && auth == Some(found.value.creatorEmail)))
  }

  /** The room-code state of one mounted `useRoomCode`. */
  class RoomCodeHook {
    var roomCode: string

    /** `useState(id)` */
    constructor (id: string)
      ensures roomCode == id
    {
      roomCode := id;
    }

    /**
     * The effect on `[id, mode]`. In `breakout` mode it resolves the user's breakout room of `id` with
     * `GetBreakoutRoom` and returns the outcome: a resolved room becomes the state, and a thrown resolution
     * leaves the state as it was. In any other mode the state becomes `id` and nothing is called.
     */
    method OnParams(store: Store, outbox: Outbox, id: string, mode: Option<string>, auth: Option<string>)
      returns (r: Option<Result<Room, RoomError>>)
      requires store.Valid()
      modifies this, store, outbox
      ensures store.Valid()
      ensures r.Some? <==> mode == Some("breakout")
      ensures r.None? ==>
                && roomCode == id
                && store.rooms == old(store.rooms) && store.joined == old(store.joined)
                && outbox.posts == old(outbox.posts)
      ensures r.Some? && r.value.Ok? ==>
                && roomCode == r.value.value.roomCode
                && LookupBreakout(store.rooms, id, auth) == Some(r.value)
                && ResolvedBreakout(store.rooms, id, roomCode, auth)
      ensures r.Some? && r.value.Err? ==> roomCode == old(roomCode)
      ensures r.Some? && old(LookupBreakout(store.rooms, id, auth)).Some? ==>
                && r.value == old(LookupBreakout(store.rooms, id, auth)).value
                && store.rooms == old(store.rooms) && store.joined == old(store.joined)
                && outbox.posts == old(outbox.posts)
      ensures r.Some? && old(LookupBreakout(store.rooms, id, auth)).None? && old(FindRoom(store.rooms, id)).Some? &&
              old(|BreakoutsOf(store.rooms, id, auth.value)| + |RowsOf(store.joined, id, auth.value)|) == 1 ==>
                r.value.Ok? || r.value == Err(RoomInsertFailed)
    {
      if mode == Some("breakout") {
        var b := GetBreakoutRoom(store, outbox, id, auth);
        if b.Ok? {
          roomCode := b.value.roomCode;
          StoredRoomFound(store, b.value);
        }
        r := Some(b);
      } else {
        roomCode := id;
        r := None;
      }
    }
  }

  // ----- useRoomStatus -----

  /** `roomCode && user?.email`: without both the effect loads nothing and subscribes to nothing. */
  predicate Active(roomCode: string, auth: Option<string>) {
    roomCode != "" && Truthy(auth)
  }

  /** `row.data?.status` of the user's row fetched with `.maybeSingle()`. */
  function StatusOf(joined: seq<Membership>, roomCode: string, email: string): (s: Option<string>)
    ensures s.Some? <==> |RowsOf(joined, roomCode, email)| == 1
    ensures s.Some? ==> exists m :: m in joined && m.roomCode == roomCode && m.email == email && m.status == s.value
  {
    RowsOfMembership(joined, roomCode, email);
    var row := MaybeSingle(RowsOf(joined, roomCode, email));
    if row.Some? then assert row.value in RowsOf(joined, roomCode, email); Some(row.value.status) else None
  }

  /** The status state of one mounted `useRoomStatus`, with the room and user its channel watches. */
  class StatusHook {
    var status: Option<string>
    var watching: Option<(string, string)>

    constructor ()
      ensures status == None && watching == None
    {
      status, watching := None, None;
    }

    /** The effect: with both values present, load the status and watch that room and user. */
    method OnParams(joined: seq<Membership>, roomCode: string, auth: Option<string>)
      modifies this
      ensures Active(roomCode, auth) ==>
                status == StatusOf(joined, roomCode, auth.value) && watching == Some((roomCode, auth.value))
      ensures !Active(roomCode, auth) ==> status == old(status) && watching == None
    {
      if Active(roomCode, auth) {
        status := StatusOf(joined, roomCode, auth.value);
        watching := Some((roomCode, auth.value));
      } else {
        watching := None;
      }
    }

    /** The channel's update handler: only the watched user's row of the watched room sets the status. */
    method OnUpdate(row: Membership)
      modifies this
      ensures watching == old(watching)
      ensures status == if watching.Some? && row.roomCode == watching.value.0 && row.email == watching.value.1
                        then Some(row.status) else old(status)
    {
      if watching.Some? && row.roomCode == watching.value.0 && row.email == watching.value.1 {
        status := Some(row.status);
      }
    }
  }

  /**
   * Flipping `is_input_enable`, the mediator's only write to memberships, never changes which rows a
   * user has in a room nor their status, so the status the hook shows stays right.
   */
  lemma {:induction false} FlagUpdateKeepsStatus(joined: seq<Membership>, c: string, e: string, flag: bool,
                                                 roomCode: string, email: string)
    ensures |RowsOf(WithInputEnable(joined, c, e, flag), roomCode, email)| == |RowsOf(joined, roomCode, email)|
    ensures StatusOf(WithInputEnable(joined, c, e, flag), roomCode, email) == StatusOf(joined, roomCode, email)
  {
    var w := WithInputEnable(joined, c, e, flag);
    if joined != [] {
      FlagUpdateKeepsStatus(joined[1..], c, e, flag, roomCode, email);
      assert w[1..] == WithInputEnable(joined[1..], c, e, flag);
      var rest := RowsOf(joined[1..], roomCode, email);
      var wrest := RowsOf(w[1..], roomCode, email);
      if joined[0].roomCode == roomCode && joined[0].email == email {
        assert RowsOf(w, roomCode, email) == [w[0]] + wrest;
        assert RowsOf(joined, roomCode, email) == [joined[0]] + rest;
        if |rest| == 0 {
          assert wrest == [];
          assert StatusOf(w, roomCode, email) == Some(w[0].status);
        }
      } else {
        assert RowsOf(w, roomCode, email) == wrest;
      }
    }
  }
}
