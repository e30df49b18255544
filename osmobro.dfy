/**
 * The gateway to the message-routing service: `MessageSchema` validation, the request `sendMessage`
 * builds, and the endpoints of `initialiseRoom` and `syncContext`. Requests are recorded in an outbox.
 */
module Osmobro {
  import opened Wrappers
  import opened Seqs
  import opened Email

  /** A JSON value as it reaches the server action. */
  datatype Json = JString(s: string) | JBool(b: bool) | JNumber(n: int) | JNull

  /** The keys of `MessageSchema`, in declaration order. */
  datatype Field = EmailField | ContentField | RoomCodeField | RoleField | IsPublicField | IsContextField

  /** The JSON key of each field. */
  function FieldName(f: Field): string {
    match f
    case EmailField => "email"
    case ContentField => "content"
    case RoomCodeField => "room_code"
    case RoleField => "role"
    case IsPublicField => "is_public"
    case IsContextField => "is_context"
  }

  /**
   * A message object as it reaches `sendMessage`: the value under each schema key, if any, and the
   * object's other keys.
   */
  datatype RawMessage = RawMessage(
    email: Option<Json>,
    content: Option<Json>,
    roomCode: Option<Json>,
    role: Option<Json>,
    isPublic: Option<Json>,
    isContext: Option<Json>,
    others: map<string, Json>)

  /** A message that passed `MessageSchema.parse`. */
  datatype OutgoingMessage = OutgoingMessage(
    email: string,
    content: string,
    roomCode: string,
    role: string,
    isPublic: bool,
    isContext: bool)

  /** An HTTP POST: its URL and, when there is one, the object it sends as its JSON body. */
  datatype Post = Post(url: string, body: Option<RawMessage>)

  function ValueAt(raw: RawMessage, f: Field): Option<Json> {
    match f
    case EmailField => raw.email
    case ContentField => raw.content
    case RoomCodeField => raw.roomCode
    case RoleField => raw.role
    case IsPublicField => raw.isPublic
    case IsContextField => raw.isContext
  }

  /** `z.string().min(1)` */
  predicate IsNonEmptyString(v: Json) {
    v.JString? && |v.s| >= 1
  }

  /** Whether the value under `f` is present and satisfies that key's rule of the schema. */
  predicate FieldValid(raw: RawMessage, f: Field, isEmail: EmailRule) {
    var v := ValueAt(raw, f);
    v.Some? &&
    match f
    case EmailField => IsNonEmptyString(v.value) && isEmail(v.value.s)
    case IsPublicField => v.value.JBool?
    case IsContextField => v.value.JBool?
    case _ => IsNonEmptyString(v.value)
  }

  /** Every field of the schema is present and satisfies its rule. */
  predicate AllFieldsValid(raw: RawMessage, isEmail: EmailRule) {
    && FieldValid(raw, EmailField, isEmail) && FieldValid(raw, ContentField, isEmail)
    && FieldValid(raw, RoomCodeField, isEmail) && FieldValid(raw, RoleField, isEmail)
    && FieldValid(raw, IsPublicField, isEmail) && FieldValid(raw, IsContextField, isEmail)
  }

  function IssueAt(raw: RawMessage, f: Field, isEmail: EmailRule): seq<Field> {
    if FieldValid(raw, f, isEmail) then [] else [f]
  }

  /** The fields zod reports, in schema order. */
  function Issues(raw: RawMessage, isEmail: EmailRule): (issues: seq<Field>)
    ensures issues == [] <==> AllFieldsValid(raw, isEmail)
    ensures forall f :: f in issues <==> !FieldValid(raw, f, isEmail)
  {
    IssueAt(raw, EmailField, isEmail) + IssueAt(raw, ContentField, isEmail) + IssueAt(raw, RoomCodeField, isEmail)
    + IssueAt(raw, RoleField, isEmail) + IssueAt(raw, IsPublicField, isEmail) + IssueAt(raw, IsContextField, isEmail)
  }

  /** What a message must satisfy to be accepted, stated on the typed record. */
  predicate Acceptable(m: OutgoingMessage, isEmail: EmailRule) {
    |m.email| >= 1 && isEmail(m.email) && |m.content| >= 1 && |m.roomCode| >= 1 && |m.role| >= 1
  }

  /** `MessageSchema.parse(raw)`: the typed message with exactly the schema's fields, or the violated fields. */
  function ParseMessage(raw: RawMessage, isEmail: EmailRule): (r: Result<OutgoingMessage, seq<Field>>)
    ensures r.Ok? <==> AllFieldsValid(raw, isEmail)
    ensures r.Err? ==> r.error != [] && forall f :: f in r.error <==> !FieldValid(raw, f, isEmail)
    ensures r.Ok? ==> Acceptable(r.value, isEmail)
  {
    var issues := Issues(raw, isEmail);
    if issues != [] then Err(issues)
    else
      Ok(OutgoingMessage(raw.email.value.s, raw.content.value.s, raw.roomCode.value.s, raw.role.value.s,
                         raw.isPublic.value.b, raw.isContext.value.b))
  }

  /** The object `JSON.stringify` serialises: the six schema fields of the record and no other key. */
  function Body(m: OutgoingMessage): (b: RawMessage)
    ensures forall f :: ValueAt(b, f).Some?
    ensures b.others == map[]
  {
    RawMessage(Some(JString(m.email)), Some(JString(m.content)), Some(JString(m.roomCode)), Some(JString(m.role)),
               Some(JBool(m.isPublic)), Some(JBool(m.isContext)), map[])
  }

  /** Round trip: the body of an acceptable message parses back to that message. */
  lemma ParseBody(m: OutgoingMessage, isEmail: EmailRule)
    requires Acceptable(m, isEmail)
    ensures ParseMessage(Body(m), isEmail) == Ok(m)
  {
    assert AllFieldsValid(Body(m), isEmail);
  }

  /**
   * The dispatched body is the input with every key outside the schema dropped: each schema field keeps
   * the input's value.
   */
  lemma BodyOfParsed(raw: RawMessage, isEmail: EmailRule)
    requires AllFieldsValid(raw, isEmail)
    ensures ParseMessage(raw, isEmail).Ok?
    ensures Body(ParseMessage(raw, isEmail).value) == raw.(others := map[])
  {
    assert FieldValid(raw, EmailField, isEmail) && FieldValid(raw, IsPublicField, isEmail);
  }

  function MessageUrl(base: string): string {
    base + "/message"
  }

  function InitialiseUrl(base: string, roomCode: string): string {
    base + "/room/" + roomCode + "/initialise"
  }

  function SyncContextUrl(base: string, roomCode: string): string {
    base + "/room/" + roomCode + "/sync_context"
  }

  /** `sendMessage`: validation first; only a valid message yields a request. */
  function SendMessage(base: string, raw: RawMessage, isEmail: EmailRule): (r: Result<Post, seq<Field>>)
    ensures r.Ok? <==> ParseMessage(raw, isEmail).Ok?
    ensures r.Ok? ==> r.value.url == base + "/message" && r.value.body == Some(Body(ParseMessage(raw, isEmail).value))
    ensures r.Err? ==> r.error == ParseMessage(raw, isEmail).error
  {
    match ParseMessage(raw, isEmail)
    case Err(issues) => Err(issues)
    case Ok(m) => Ok(Post(MessageUrl(base), Some(Body(m))))
  }

  /** A message with empty content is refused whatever its other fields are. */
  lemma EmptyContentRefused(base: string, raw: RawMessage, isEmail: EmailRule)
    requires raw.content == Some(JString(""))
    ensures SendMessage(base, raw, isEmail).Err?
    ensures ContentField in SendMessage(base, raw, isEmail).error
  {
  }

  /** The room code can be read back from the initialise and sync URLs, which never coincide. */
  lemma {:induction false} RoomUrlsDetermineCode(base: string, c1: string, c2: string)
    ensures InitialiseUrl(base, c1) == InitialiseUrl(base, c2) ==> c1 == c2
    ensures SyncContextUrl(base, c1) == SyncContextUrl(base, c2) ==> c1 == c2
    ensures InitialiseUrl(base, c1) != SyncContextUrl(base, c2)
  {
    var p := base + "/room/";
    if InitialiseUrl(base, c1) == InitialiseUrl(base, c2) {
      var u := InitialiseUrl(base, c1);
      assert |c1| == |c2|;
      assert c1 == u[|p|..|p| + |c1|] == c2;
    }
    if SyncContextUrl(base, c1) == SyncContextUrl(base, c2) {
      var u := SyncContextUrl(base, c1);
      assert |c1| == |c2|;
      assert c1 == u[|p|..|p| + |c1|] == c2;
    }
    var i, y := InitialiseUrl(base, c1), SyncContextUrl(base, c2);
    assert i[|i| - 1] == 'e' && y[|y| - 1] == 't';
  }

  /** The outbound HTTP requests issued to the routing service, in order. */
  class Outbox {
    const base: string
    var posts: seq<Post>

    constructor (base: string)
      ensures this.base == base && posts == []
    {
      this.base := base;
      posts := [];
    }

    method Send(p: Post)
      modifies this
      ensures posts == old(posts) + [p]
    {
      posts := posts + [p];
    }
  }

  /** `initialiseRoom(roomCode)`: POST with no body. */
  method InitialiseRoom(outbox: Outbox, roomCode: string)
    modifies outbox
    ensures outbox.posts == old(outbox.posts) + [Post(InitialiseUrl(outbox.base, roomCode), None)]
  {
    outbox.Send(Post(InitialiseUrl(outbox.base, roomCode), None));
  }

  /** `syncContext(roomCode)`: POST with no body. */
  method SyncContext(outbox: Outbox, roomCode: string)
    modifies outbox
    ensures outbox.posts == old(outbox.posts) + [Post(SyncContextUrl(outbox.base, roomCode), None)]
  {
    outbox.Send(Post(SyncContextUrl(outbox.base, roomCode), None));
  }

  /** `sendMessage(message)`: an invalid message throws before anything is sent. */
  method DispatchMessage(outbox: Outbox, raw: RawMessage, isEmail: EmailRule) returns (r: Result<OutgoingMessage, seq<Field>>)
    modifies outbox
    ensures r == ParseMessage(raw, isEmail)
    ensures r.Err? ==> outbox.posts == old(outbox.posts)
    ensures r.Ok? ==> outbox.posts == old(outbox.posts) + [Post(MessageUrl(outbox.base), Some(Body(r.value)))]
  {
    r := ParseMessage(raw, isEmail);
    if r.Ok? {
      outbox.Send(Post(MessageUrl(outbox.base), Some(Body(r.value))));
    }
  }
}
