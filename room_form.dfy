/**
 * The room-creation form of generate-room-code: the schema's participants transform and the mapping of
 * the validated form onto the `createRoom` input.
 */
module RoomForm {
  import opened Wrappers
  import opened Text
  import opened Email
  import opened Lifecycle

  /** The raw form fields; `FormSchema` accepts any string for the first three. */
  datatype FormValues = FormValues(roomName: string, mediator: string, description: string, participants: string)

  /** The form after the schema ran: the participants field is a list of addresses. */
  datatype FormData = FormData(roomName: string, mediator: string, description: string, participants: seq<string>)

  /** The pieces after `e.trim()`. */
  function TrimAll(pieces: seq<string>): (ts: seq<string>)
    ensures |ts| == |pieces| && forall i :: 0 <= i < |pieces| ==> ts[i] == Trim(pieces[i])
  {
    seq(|pieces|, i requires 0 <= i < |pieces| => Trim(pieces[i]))
  }

  /**
   * `z.string().email().parse(...)` on each trimmed piece in turn: the list itself when every piece is
   * an address, otherwise the index of the first one that is not (the `map` stops at the first throw).
   */
  function ParseAll(ts: seq<string>, isEmail: EmailRule): (r: Result<seq<string>, nat>)
    ensures r.Ok? <==> forall i :: 0 <= i < |ts| ==> isEmail(ts[i])
    ensures r.Ok? ==> r.value == ts
    ensures r.Err? ==> && r.error < |ts| && !isEmail(ts[r.error])
                       && forall j :: 0 <= j < r.error ==> isEmail(ts[j])
  {
    if ts == [] then Ok([])
    else if !isEmail(ts[0]) then Err(0)
    else
      var rest := ParseAll(ts[1..], isEmail);
      assert forall i :: 1 <= i < |ts| ==> ts[i] == ts[1..][i - 1];
      if rest.Err? then Err(rest.error + 1)
      else
        assert ts == [ts[0]] + ts[1..];
        Ok([ts[0]] + rest.value)
  }

  /** The `participants` transform: split on every comma, trim each piece, require each to be an address. */
  function ParseParticipants(val: string, isEmail: EmailRule): (r: Result<seq<string>, nat>)
    ensures r.Ok? ==> |r.value| == Count(val, ',') + 1
  {
    SplitCount(val, ',');
    ParseAll(TrimAll(Split(val, ',')), isEmail)
  }

  /** `FormSchema.parse`: only the participants field can fail. */
  function ParseForm(v: FormValues, isEmail: EmailRule): (r: Result<FormData, nat>)
    ensures r.Ok? <==> ParseParticipants(v.participants, isEmail).Ok?
    ensures r.Ok? ==> r.value == FormData(v.roomName, v.mediator, v.description,
                                          ParseParticipants(v.participants, isEmail).value)
  {
    var ps := ParseParticipants(v.participants, isEmail);
    if ps.Err? then Err(ps.error) else Ok(FormData(v.roomName, v.mediator, v.description, ps.value))
  }

  /**
   * The argument `generateCode` passes to `createRoom`. It names no creator and no parent: the room is
   * top-level and owned by whoever is logged in.
   */
  function GenerateCodeParams(data: FormData): (p: RoomParams)
    ensures p.parentRoomCode.None? && p.creatorEmail.None?
    ensures p.mediator == data.mediator && p.description == data.description
    ensures p.roomName == Some(data.roomName) && p.participants == Some(data.participants)
  {
    RoomParams(data.mediator, data.description, None, Some(data.roomName), None, Some(data.participants))
  }

  // ----- properties -----

  /** An empty field is one empty piece, which is no address. */
  lemma EmptyParticipantsRejected(isEmail: EmailRule)
    ensures ParseParticipants("", isEmail) == Err(0)
  {
    EmptyIsNoEmail(isEmail);
    assert Split("", ',') == [""];
    assert Trim("") == "";
  }

  /** Appending a comma appends an empty piece. */
  lemma {:induction false} SplitTrailingSeparator(s: string, sep: char)
    ensures Split(s + [sep], sep) == Split(s, sep) + [""]
  {
    if s == [] {
      assert [] + [sep] == [sep];
      assert Split([sep], sep) == [""] + Split([], sep);
    } else {
      assert (s + [sep])[1..] == s[1..] + [sep];
      SplitTrailingSeparator(s[1..], sep);
    }
  }

  /** A trailing comma leaves an empty last piece, so the whole field is rejected. */
  lemma TrailingCommaRejected(s: string, isEmail: EmailRule)
    ensures ParseParticipants(s + [','], isEmail).Err?
  {
    SplitTrailingSeparator(s, ',');
    var pieces := Split(s + [','], ',');
    assert pieces[|pieces| - 1] == "";
    EmptyIsNoEmail(isEmail);
    assert Trim("") == "";
  }

  /** Every parsed entry is an address and holds no comma. */
  lemma ParsedAddresses(val: string, isEmail: EmailRule)
    requires ParseParticipants(val, isEmail).Ok?
    ensures var ps := ParseParticipants(val, isEmail).value;
            forall i :: 0 <= i < |ps| ==> '@' in ps[i] && ',' !in ps[i]
  {
    var pieces := Split(val, ',');
    var ps := ParseParticipants(val, isEmail).value;
    SplitPieces(val, ',');
    forall i | 0 <= i < |ps| ensures '@' in ps[i] && ',' !in ps[i] {
      assert ps[i] == Trim(pieces[i]) && isEmail(ps[i]);
      TrimInside(pieces[i]);
    }
  }

  /**
   * When the pieces carry no surrounding white space, the entries joined with commas give back the
   * field: order and duplicates are kept as typed.
   */
  lemma ParsedRoundTrip(val: string, isEmail: EmailRule)
    requires ParseParticipants(val, isEmail).Ok?
    requires forall i :: 0 <= i < |Split(val, ',')| ==> Trim(Split(val, ',')[i]) == Split(val, ',')[i]
    ensures Join(ParseParticipants(val, isEmail).value, ',') == val
  {
    var pieces := Split(val, ',');
    assert TrimAll(pieces) == pieces;
    JoinSplit(val, ',');
  }

  /** A trimmed string is a slice of the original, so it has no character the original lacks. */
  lemma TrimInside(s: string)
    ensures forall c :: c in Trim(s) ==> c in s
  {
    var t := TrimStart(s);
    forall c | c in Trim(s) ensures c in s {
      var i :| 0 <= i < |Trim(s)| && Trim(s)[i] == c;
      assert Trim(s)[i] == t[i];
      assert t[i] == s[|s| - |t| + i];
    }
  }

  /** A room made from the form is owned by the logged-in user and, being top-level, gets breakout rooms. */
  lemma FormRoomOwnedByUser(data: FormData, auth: Option<string>)
    ensures var p := GenerateCodeParams(data);
            && ResolveCreator(p.creatorEmail, auth) == (if Truthy(auth) then auth else None)
            && !Truthy(p.parentRoomCode)
  {
  }
}
