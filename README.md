# Judicia rooms and mediator turn, modelled in Dafny

Judicia is a mediated group chat. A user creates a room with a mediator type, a description and a list of
participants. A top-level room is fanned out into one private breakout room per member. Each message a user
sends is stored and answered by an AI mediator. The mediator sees the room's public messages and the
requester's own private ones, and may call the `enableUserChat` tool to switch a member's input on or off.

This project models the server-side core of that behaviour over an in-memory store of the three tables:
`rooms`, `room_joined_users` and `messages`.

- `tables.dfy`: the store (`Tables.Store`), with its foreign-key and unique-key checks and the queries the
  services run.
- `room_codes.dfy`: the room-code alphabet and length.
- `lifecycle.dfy`: `createRoom`, `createBreakoutRooms` and `getBreakoutRoom`, as written and corrected.
- `mediator.dfy`: `handleOpenAIChatMessage`. It covers the context assembly, the tool loop and the stored
  assistant messages.
- `osmobro.dfy`: validation against `MessageSchema`, the request `sendMessage` builds, and the
  `initialise` and `sync_context` endpoints. Requests go to an `Outbox`.
- `membership_gate.dfy`: `verifyRoomMemberShip`.
- `room_form.dfy`: the participants transform of the room form and the `createRoom` argument it builds.
- `profile.dfy`: the display name and initials.
- `room_hooks.dfy`: `useRoom`, `useParentRoomCode`, `getModeURL`/`useRoomMode`, `useRoomCode` and the
  status filter of `useRoomStatus`.
- `wrappers.dfy`, `seqs.dfy`, `text.dfy`, `email.dfy`: shared building blocks.
  - `Option`/`Result` and JavaScript truthiness.
  - Filters, `.maybeSingle()` and `Set` insertion order.
  - `split`, `join`, `trim` and `toUpperCase`.
  - The email rule.

How the environment is modelled:

- **The database.** Insert outcomes are determined by the store's constraints:
  - a room insert fails when the code is taken or the creator has no profile;
  - a batch membership insert fails as a whole when a row's email has no profile or its room does not
    exist;
  - a message insert is dropped silently when its email or room is unknown, because the handler never
    looks at that error.
- **Failures the store cannot produce** are inputs:
  - failing to read the message log;
  - an `enableUserChat` update that errors or throws.
- **The logged-in user** is an `Option<string>` parameter (`auth`). A message stored without a user
  carries the email "", which no profile has.
- **The AI completion** is an input. It holds the tool calls, with typed arguments, and an optional
  text. The system prompt is an opaque function of the mediator type.
- **`nanoid`** is a nondeterministic choice of any string that satisfies `IsRoomCode`.
- **zod's email check** is a parameter `isEmail: EmailRule`: any predicate that accepts only strings
  containing '@'.

## Model

| member | source | states |
|---|---|---|
| RoomCodes.AlphabetIsAlphanumeric | src/service/create-room.ts:9-10 | the alphabet has 62 symbols in ascending order, and a character is in it iff it is an ASCII digit or letter |
| RoomCodes.RoomCodeShape | src/service/create-room.ts:9-11 | a generated code has 13 characters, all ASCII letters or digits, so it is never empty |
| RoomCodes.SomeRoomCode | src/service/create-room.ts:23-24 | a code of the required shape exists, so the nondeterministic choice of a code cannot fail |
| Tables.Store.InsertRoom | src/service/create-room.ts:45-54 | the room is appended iff its code is free and its creator has a profile; otherwise nothing changes; the store stays consistent |
| Tables.Store.InsertMembers | src/service/create-room.ts:59-68 | the batch is appended as a whole iff every row has a profile and an existing room, and is refused as a whole otherwise |
| Tables.Store.InsertMessage | src/service/openai-chat-handler.ts.ts:28-37 | a message is appended iff its author has a profile and its room exists; otherwise it is dropped and nothing else changes |
| Tables.Store.UpdateInputEnable | src/service/openai-chat-handler.ts.ts:175-182 | the membership table becomes `WithInputEnable` of the old one; rooms and messages stay unchanged |
| Tables.WithInputEnableOnlyTouchesMatches | src/service/openai-chat-handler.ts.ts:175-182 | the update sets the flag on every row of that email and room, and changes no other row and no other column |
| Tables.MembersWithEmail | src/service/create-room.ts:83 | a user's rows in a room are that room's member rows that carry the user's email |
| Tables.FindFreshRoom | src/service/create-room.ts:45-49 | a room inserted under a fresh code is the only room found under that code |
| Tables.FreshMembers | src/service/create-room.ts:59-64 | the rows inserted for a fresh room are exactly that room's members |
| Lifecycle.ErrorMessage | src/service/create-room.ts:30-111 | the errors the source throws carry its five texts; the two model-only errors carry none of them |
| Lifecycle.ErrorMessageNamesError | src/service/create-room.ts:30-111 | different errors carry different messages |
| Lifecycle.ResolveCreator | src/service/create-room.ts:28-32 | a creator exists iff the given or the logged-in email is non-empty; a non-empty given email wins; the result is never empty |
| Lifecycle.ParticipantEmails | src/service/create-room.ts:56-57 | the emails are distinct, include the creator, and are exactly the creator plus the listed participants (none when the list is omitted) |
| Lifecycle.OneRowPerParticipant | src/service/create-room.ts:56-64 | every inserted row carries the new code; a person gets exactly one row iff they are the creator or a participant, and nobody gets more than one |
| Lifecycle.CreateRoom | src/service/create-room.ts:22-75 | with no creator: `User not found` and no write; a refused room insert: no write; a refused member insert: the room stays without members; a breakout room: one room and its rows, no fan-out; a top-level room: the room, its rows, then one breakout room and one row per member, with an initialise request per breakout code on success |
| Lifecycle.AddMembers | src/service/create-room.ts:56-72 | once the room row is stored: a refused member insert writes nothing; otherwise the rows go in, and a top-level room is then fanned out into one breakout room and row per member |
| Lifecycle.CreateBreakoutRoom | src/service/create-room.ts:88-94 | one loop round adds exactly the member's breakout room under a fresh code and that member's single membership row, or changes nothing |
| Lifecycle.FanOut | src/service/create-room.ts:85-96 | the rooms and rows made so far are the breakout rooms and rows of the first members, in order; a failed round stops the loop with `RoomInsertFailed` |
| Lifecycle.InitialiseAll | src/service/create-room.ts:97-99 | one initialise request per code, in creation order |
| Lifecycle.CreateBreakoutRooms | src/service/create-room.ts:77-102 | a missing parent gives `Non-existent room!` and no write; otherwise it adds breakout rooms and rows for the parent's members in order, returns one code per member, and sends the initialise requests only after every room exists |
| Lifecycle.BreakoutRoomShape | src/service/create-room.ts:88-94 | a breakout room has the parent as its parent code, the member as creator, the name "<parent name> - <email>", and the parent's mediator type and description |
| Lifecycle.BreakoutsOfMember | src/service/create-room.ts:87-96 | a member with one row gets exactly one breakout room under the parent; a non-member gets none |
| Lifecycle.BreakoutCount | src/service/create-room.ts:87-96 | the breakout rooms a user owns after a fan-out equal the number of their member rows in the parent |
| Lifecycle.FanOutEffect | src/service/create-room.ts:113-116 | a complete fan-out keeps the parent and its members, and adds to each user as many breakout rooms as they have rows in the parent |
| Lifecycle.LookupBreakout | src/service/create-room.ts:104-112 | a resolved room is stored, and is either the breakout room the code names or a breakout room under the code created by the user; `Not logged in!` iff the code names no breakout room and there is no user; a fan-out is needed iff neither applies and the user does not own exactly one breakout room under the code |
| Lifecycle.GetBreakoutRoom | src/service/create-room.ts:104-118 | a resolved lookup returns without writing; any returned room is what a fresh lookup now returns; a missing parent gives `Non-existent room!`; one fan-out round resolves a user with no breakout room and one row |
| Lifecycle.FanOutLeavesNonMemberUnresolved | src/service/create-room.ts:113-116 | a logged-in user with no row in the parent and no breakout room under it is still unresolved after a complete fan-out |
| Lifecycle.GetBreakoutRoomAsWritten | src/service/create-room.ts:113-116 | the recursion as written: unless the user has no breakout room and exactly one row, no round ever resolves, and every round adds one breakout room per parent member |
| Mediator.Render | src/service/openai-chat-handler.ts.ts:119-120 | a rendered line opens with the content (or "null") and " - Asked by <email> - ", and ends with "Public in room <code>" iff the message is public |
| Mediator.Context | src/service/openai-chat-handler.ts.ts:70-129 | the context is the system entry followed by the visible log messages, in order, each keeping its role and rendered as "<content> - Asked by <email> - Public/Private in room <code>" |
| Mediator.ShownExactly | src/service/openai-chat-handler.ts.ts:116 | a stored message reaches the context iff it is public or written by the requester, so another user's private message never does |
| Mediator.ShownKeepsOrder | src/service/openai-chat-handler.ts.ts:40-45 | the shown messages follow the creation order of the log |
| Mediator.OwnMessageLast | src/service/openai-chat-handler.ts.ts:28-45 | the requester's newly stored message is the last message of their context |
| Mediator.ToolReplies | src/service/openai-chat-handler.ts.ts:195-229 | exactly one assistant message per tool call |
| Mediator.ToolRepliesOrigin | src/service/openai-chat-handler.ts.ts:193-228 | a call's assistant message is its own reply text when it pushed one; otherwise it repeats the previous assistant message, or the response text (or "") for the first call |
| Mediator.UpdatesOnlyTouchTargets | src/service/openai-chat-handler.ts.ts:175-182 | the tool calls keep every membership row, its room, email and status, and change a row's flag only if an applied call named that row's user and room |
| Mediator.ResultText | src/service/openai-chat-handler.ts.ts:184-189 | the reply text ends with the address of the user the call named |
| Mediator.ResultTextReadsBack | src/service/openai-chat-handler.ts.ts:184-189 | equal replies come from the same outcome and user, and from the same flag when the update succeeded |
| Mediator.ExecuteToolCall | src/service/openai-chat-handler.ts.ts:196-220 | a call of `enableUserChat` runs the update and pushes a tool entry with the reply text unless the update threw; a call of any other name changes nothing |
| Mediator.ToolStep | src/service/openai-chat-handler.ts.ts:196-228 | one loop round applies the call's update, and stores the next assistant message, which repeats the last entry of the working list |
| Mediator.PostAssistant | src/service/openai-chat-handler.ts.ts:222-228 | one more assistant message of the requester is stored, or dropped when the store refuses the requester |
| Mediator.RunToolCalls | src/service/openai-chat-handler.ts.ts:193-229 | after the loop, the memberships are the applied updates in call order, one assistant message per call is stored (when the store accepts the requester), and the working list ends with the last pushed reply |
| Mediator.PostReplies | src/service/openai-chat-handler.ts.ts:166-240 | the stored assistant messages are the tool replies followed by the response text when it is non-empty, all with the requester's email and visibility |
| Mediator.HandleChatMessage | src/service/openai-chat-handler.ts.ts:11-241 | the user message is stored first with role `user`, `is_public = !isPrivateMode` and `is_context = isContextMode`; a failed log read or a missing room ends the turn with no other write; otherwise the turn answers from the context of the log that includes the new message, and stores the assistant messages and flag updates |
| Osmobro.Issues | src/service/osmobro.ts:7-14 | no issues iff every schema field is valid; a field is reported iff its value is missing or breaks its rule |
| Osmobro.ParseMessage | src/service/osmobro.ts:7-19 | a message is accepted iff it has a non-empty valid email, non-empty content, room code and role, and boolean visibility and context flags; otherwise it reports exactly the failing fields |
| Osmobro.Body | src/service/osmobro.ts:19-28 | the body carries all six schema fields and no other key |
| Osmobro.ParseBody | src/service/osmobro.ts:19-28 | round trip: parsing the body of an acceptable message gives the message back |
| Osmobro.BodyOfParsed | src/service/osmobro.ts:19-28 | for a valid input, the dispatched body is the input with every key outside the schema dropped |
| Osmobro.SendMessage | src/service/osmobro.ts:18-30 | a request exists iff the message validates; it goes to `<base>/message` with the validated body; otherwise the validation error is returned |
| Osmobro.EmptyContentRefused | src/service/osmobro.ts:9 | an empty content is refused and reported as a `content` issue |
| Osmobro.RoomUrlsDetermineCode | src/service/osmobro.ts:32-38 | the initialise and sync URLs determine the room code, and the two never coincide |
| Osmobro.InitialiseRoom | src/service/osmobro.ts:32-34 | one POST to `<base>/room/<code>/initialise`, without a body |
| Osmobro.SyncContext | src/service/osmobro.ts:36-38 | one POST to `<base>/room/<code>/sync_context`, without a body |
| Osmobro.DispatchMessage | src/service/osmobro.ts:18-30 | an invalid message sends nothing; a valid one sends exactly one request with its body |
| MembershipGate.VerifyRoomMembership | src/service/verify-room-membership.ts:7-38 | admit iff a user email exists and exactly one membership row matches; without an email, redirect with "Error: User not found"; otherwise redirect with "Error: You are not a member of this room" |
| MembershipGate.MissingRoomIsNotMember | src/service/verify-room-membership.ts:11-33 | on a consistent store, a logged-in user asking for a nonexistent room is redirected as a non-member |
| MembershipGate.OthersRowsIrrelevant | src/service/verify-room-membership.ts:24-33 | rows of other users or other rooms never change the decision |
| MembershipGate.AdmittedByOwnRow | src/service/verify-room-membership.ts:24-33 | a single row admits its user, and a duplicated row locks them out (`.single()`) |
| MembershipGate.ParticipantsAdmitted | src/service/create-room.ts:56-64 | right after `createRoom` stores the members, exactly the creator and the listed participants pass the gate of the new room |
| RoomForm.ParseAll | src/components/generate-room-code.tsx:37 | the list is accepted iff every trimmed piece is an address; it returns the trimmed pieces, or the index of the first bad piece |
| RoomForm.ParseParticipants | src/components/generate-room-code.tsx:34-38 | a parsed list has one entry per comma plus one |
| RoomForm.ParseForm | src/components/generate-room-code.tsx:30-39 | the form parses iff its participants do; the other three fields pass through unchanged |
| RoomForm.GenerateCodeParams | src/components/generate-room-code.tsx:61-66 | the `createRoom` argument has no creator and no parent, and carries the form's mediator, description, name and participants |
| RoomForm.EmptyParticipantsRejected | src/components/generate-room-code.tsx:37 | an empty participants field is rejected at piece 0 |
| RoomForm.TrailingCommaRejected | src/components/generate-room-code.tsx:37 | a trailing comma makes the whole field invalid |
| RoomForm.ParsedAddresses | src/components/generate-room-code.tsx:37 | every parsed entry contains '@' and no comma |
| RoomForm.ParsedRoundTrip | src/components/generate-room-code.tsx:37 | with no white space around the pieces, joining the entries with commas gives the field back, so order and duplicates are kept |
| RoomForm.FormRoomOwnedByUser | src/components/generate-room-code.tsx:61-66 | a room made from the form is owned by the logged-in user, if any, and is top-level |
| Profile.DisplayName | src/lib/hooks/profile.tsx:26 | the stored name when non-empty; otherwise the prefix of the email before its first '@' (the whole email when there is none) |
| Profile.LocalPartName | src/lib/hooks/profile.tsx:26 | without a stored name, "local@domain" displays as "local" |
| Profile.Words | src/lib/hooks/profile.tsx:27 | the words are non-empty and contain no space |
| Profile.Initials | src/lib/hooks/profile.tsx:27 | one initial per non-empty word of the upper-cased name, the word's first character, in order |
| Profile.InitialsShape | src/lib/hooks/profile.tsx:27 | initials contain no space and no lower-case ASCII letter |
| Profile.WordsConcat | src/lib/hooks/profile.tsx:27 | the words of "a b" are the words of a followed by those of b |
| Profile.SingleWord | src/lib/hooks/profile.tsx:27 | a non-empty name without spaces is one upper-cased word and gives one initial, its upper-cased first character |
| Profile.TwoWordInitials | src/lib/hooks/profile.tsx:27 | "ann lee" has the initials "AL" |
| Profile.ExtraSpacesIgnored | src/lib/hooks/profile.tsx:27 | leading, trailing and repeated spaces add no initials |
| RoomHooks.UseRoom | src/lib/hooks/room.tsx:8-23 | a room comes back only if it is stored under the code and the user holds a membership row in it |
| RoomHooks.UseRoomIsMembership | src/lib/hooks/room.tsx:13-19 | on a consistent store, the room comes back iff it exists and the user holds a row in it, and it is the room stored under the code |
| RoomHooks.AdmittedUserSeesRoom | src/lib/hooks/room.tsx:13-19 | a user the membership gate admits gets the room from `useRoom` |
| RoomHooks.ParentCodeHook.constructor | src/lib/hooks/room.tsx:27 | the parent code starts as the given room code |
| RoomHooks.ParentCodeHook.OnRoom | src/lib/hooks/room.tsx:28-30 | a loaded room sets the parent code to its parent code when non-empty, else its own code; no room leaves it |
| RoomHooks.ParentOfCreatedRooms | src/lib/hooks/room.tsx:29 | every breakout room leads back to its parent, and a top-level room is its own parent |
| RoomHooks.GetParam | src/lib/hooks/room.tsx:42 | the value of the first parameter with the name, and none iff no parameter has it |
| RoomHooks.DeleteParam | src/lib/hooks/room.tsx:47 | after deletion no parameter has the name, and all others remain |
| RoomHooks.SetParamSpec | src/lib/hooks/room.tsx:46 | after `set`, reading the name gives the value and the other parameters are unchanged |
| RoomHooks.WithMode | src/lib/hooks/room.tsx:44-47 | the path is kept; afterwards `get('mode')` gives the mode when it is non-empty, and nothing when it is empty or absent |
| RoomHooks.GetModeUrl | src/lib/hooks/room.tsx:44-49 | the URL starts with the unchanged path; a query string follows, opening with '?', exactly when parameters remain, and always after a non-empty mode |
| RoomHooks.ModeOf | src/lib/hooks/room.tsx:42 | the mode is the value of the first `mode` parameter when non-empty; there is none when no `mode` parameter exists or the first is empty |
| RoomHooks.ModeRoundTrip | src/lib/hooks/room.tsx:42-49 | reading the mode back from the new URL gives the non-empty mode, or none after an empty one; path and other parameters stay |
| RoomHooks.RoomCodeHook.constructor | src/lib/hooks/room.tsx:55 | the room code starts as the URL id |
| RoomHooks.RoomCodeHook.OnParams | src/lib/hooks/room.tsx:57-67 | in `breakout` mode the resolution's outcome is returned; a resolved room becomes the code (the id itself if it names a breakout room, else the user's room under it) and is what a fresh lookup finds; a failure leaves the code; an already resolvable lookup changes nothing else; a user with no breakout room and one row in an existing parent is resolved unless a room insert fails; any other mode resets the code to the id and writes nothing |
| RoomHooks.StatusOf | src/lib/hooks/room.tsx:77 | a status exists iff the user has exactly one row in the room, and it is that row's status |
| RoomHooks.StatusHook.OnParams | src/lib/hooks/room.tsx:75-77 | without both a room code and a user email nothing loads and nothing is watched; otherwise the status is loaded and that room and user are watched |
| RoomHooks.StatusHook.OnUpdate | src/lib/hooks/room.tsx:88-92 | an update sets the status only when its room and email are the watched ones |
| RoomHooks.FlagUpdateKeepsStatus | src/lib/hooks/room.tsx:77 | the mediator's flag updates change neither a user's rows in a room nor the status shown |

## Left out

- The OpenAI request, its model and tool declaration, and the wording of the system prompt: the
  completion is an input and the prompt a function of the mediator type.
- `JSON.parse` of tool arguments: the arguments are typed. A function name such as `toString`, which passes
  the `in` test of the source through the object prototype, is not modelled; only `enableUserChat` is known.
- `toUpperCase` maps only the ASCII letters; other scripts and special casings are not modelled.
- Profile.Initials: a string is a sequence of Unicode scalar values, while JavaScript's `word[0]` takes a
  UTF-16 code unit. For a word that starts with a character outside the Basic Multilingual Plane, such as
  an emoji, the source yields a lone surrogate and the model the whole character.
- Failed reads in create-room are not modelled; the store always answers. The source ignores `error` on
  the reads at create-room.ts:79, 83, 106 and 112. A failed read of the members at line 83 makes the loop at
  line 87 throw a TypeError after the parent check has passed. A failed read at line 106 or 112 counts as
  "not found" and starts a fan-out. `.maybeSingle()` on two or more breakout rooms is modelled: it finds
  nothing, and `Lifecycle.LookupBreakout` returns `None`.
- RoomHooks.RoomCodeHook.OnParams: the hook resolves with the corrected `Lifecycle.GetBreakoutRoom` (see
  Findings). Where the page's unbounded recursion never settles, the model reports
  `BreakoutResolutionFailure` and the code stays as it was, as it does on the page.- The search string is not percent-encoded; parameters are compared as decoded pairs.
- The realtime channels of the room hooks and the prompt input, and `localStorage` caching in the profile
  hook: only the update filter and the derived values are modelled.
- The transport of the `fetch` calls and the fire-and-forget timing of `sendMessage`: only the URLs and
  bodies are modelled. Transport failures are not. A body is the object `JSON.stringify` receives, not its
  text.
- Concurrent requests, including duplicate breakout sets from parallel first visits.
- Timestamps, `is_chat_ended` and other columns the modelled code does not read. Column defaults are a
  parameter of the store.
- The authentication pages and the rendering components.
- The thin query wrappers `room-exists.ts` and `room-participents.ts`. The gate calls `isRoomExists`
  without `await`, so its guard negates a Promise, which is always truthy, and never redirects.
  `MembershipGate.VerifyRoomMembership` leaves the guard out; `MembershipGate.MissingRoomIsNotMember` shows
  what a missing room leads to instead.
- `nanoid`'s randomness: the code is any valid code, and collisions surface as refused inserts.
- Lifecycle.ErrorMessage: `BreakoutResolutionFailure` and `RecursionLimit` exist only in the model, so their
  texts are not the source's.
- Lifecycle.GetBreakoutRoomAsWritten: the unbounded recursion is followed for `fuel` rounds;
  `RecursionLimit` stands for the source still looping.
- Mediator.HandleChatMessage: a failing `mediator_type` read other than a missing room is not modelled
  separately; a log-read failure is an input.

## Findings

| source | as written | input that shows it | evidently intended | confidence | as-written member | corrected member |
|---|---|---|---|---|---|---|
| src/service/create-room.ts:113-116 | when the lookup finds no single breakout room, `getBreakoutRoom` fans out and calls itself again with no bound | a logged-in user who is not a member of an existing top-level room and has no breakout room: every round adds a breakout room per member and none for the user, so the recursion never ends (`Lifecycle.FanOutLeavesNonMemberUnresolved`; likewise a user with two rows, or one who already has two breakout rooms) | fan out once and re-query; report a failure if the user still has no single breakout room | not executed | Lifecycle.GetBreakoutRoomAsWritten | Lifecycle.GetBreakoutRoom |
