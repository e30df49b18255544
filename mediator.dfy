/**
 * The mediator turn of `handleOpenAIChatMessage`: the requester's message is stored, the context visible
 * to the requester is assembled, the completion's tool calls are executed one by one with an assistant
 * message stored after each, and the completion's text is stored last.
 */
module Mediator {
  import opened Wrappers
  import opened Seqs
  import opened Tables

  /** An element of the working message list sent to, and extended after, the completion call. */
  datatype Entry =
    | Entry(role: string, content: Option<string>)
    | ToolEntry(callId: string, name: string, content: Option<string>)

  /** The typed arguments of an `enableUserChat` call. */
  datatype ToolArgs = ToolArgs(isInputEnable: bool, roomCode: string, userEmail: string)

  datatype ToolCall = ToolCall(id: string, name: string, args: ToolArgs)

  /** The message of the completion's first choice. */
  datatype Completion = Completion(toolCalls: Option<seq<ToolCall>>, content: Option<string>)

  /**
   * How the store answers one `enableUserChat` update: applied, refused with an error, or failed by
   * throwing (then caught by the loop) before any row changed.
   */
  datatype UpdateReply = Applied | Rejected | Threw

  /** How the turn ended; `context` is the list the completion was asked about. */
  datatype Outcome = ReadFailed | RoomMissing | Answered(context: seq<Entry>)

  const ToolName: string := "enableUserChat"

  // ----- context assembly -----

  /** A message the requester may see: public, or written by the requester. */
  predicate VisibleTo(m: Message, requester: Option<string>) {
    m.isPublic || Some(m.email) == requester
  }

  function Visible(requester: Option<string>): Message -> bool {
    (m: Message) => VisibleTo(m, requester)
  }

  /** The stored messages kept for the requester, in log order. */
  function Shown(log: seq<Message>, requester: Option<string>): seq<Message> {
    Filter(log, Visible(requester))
  }

  /** A template literal renders a null content as "null". */
  function ContentText(content: Option<string>): string {
    if content.Some? then content.value else "null"
  }

  /**
   * `<content> - Asked by <email> - Public|Private in room <room_code>`: the line opens with the content
   * and its author, and its ending tells a public message from a private one.
   */
  function Render(m: Message, roomCode: string): (line: string)
    ensures ContentText(m.content) + " - Asked by " + m.email + " - " <= line
    ensures var pub := "Public in room " + roomCode;
            (|pub| <= |line| && line[|line| - |pub|..] == pub) <==> m.isPublic
  {
    var head := ContentText(m.content) + " - Asked by " + m.email + " - ";
    var tail := (if m.isPublic then "Public" else "Private") + " in room " + roomCode;
    var pub := "Public in room " + roomCode;
    assert head + tail == ContentText(m.content) + " - Asked by " + m.email + " - " + (if m.isPublic then "Public" else "Private")
      + " in room " + roomCode;
    assert (head + tail)[..|head|] == head;
    assert (head + tail)[|head + tail| - |tail|..] == tail;
    assert !m.isPublic ==> (head + tail)[|head + tail| - |pub|] == tail[1] == 'r' != pub[0];
    head + tail
  }

  function RenderAll(ms: seq<Message>, roomCode: string): (es: seq<Entry>)
    ensures |es| == |ms|
    ensures forall i :: 0 <= i < |ms| ==> es[i] == Entry(ms[i].role, Some(Render(ms[i], roomCode)))
  {
    seq(|ms|, i requires 0 <= i < |ms| => Entry(ms[i].role, Some(Render(ms[i], roomCode))))
  }

  /**
   * The list sent to the completion: the system instruction for the room's mediator type (its wording is
   * the parameter `prompt`), then every visible message of the log with its role kept.
   */
  function Context(log: seq<Message>, roomCode: string, requester: Option<string>, mediatorType: string,
                   prompt: string -> string): (ctx: seq<Entry>)
    ensures var shown := Shown(log, requester);
            && |ctx| == 1 + |shown|
            && ctx[0] == Entry("system", Some(prompt(mediatorType)))
            && forall i :: 1 <= i < |ctx| ==> ctx[i] == Entry(shown[i - 1].role, Some(Render(shown[i - 1], roomCode)))
  {
    var shown := Shown(log, requester);
    var rendered := RenderAll(shown, roomCode);
    assert forall i :: 1 <= i < 1 + |shown| ==> ([Entry("system", Some(prompt(mediatorType)))] + rendered)[i] == rendered[i - 1];
    [Entry("system", Some(prompt(mediatorType)))] + rendered
  }

  /**
   * A stored message reaches the requester's context exactly when it is public or the requester wrote it;
   * in particular another user's private message never does.
   */
  lemma ShownExactly(log: seq<Message>, requester: Option<string>)
    ensures forall m :: m in Shown(log, requester) <==> m in log && (m.isPublic || Some(m.email) == requester)
    ensures forall m :: m in log && !m.isPublic && Some(m.email) != requester ==> m !in Shown(log, requester)
  {
    FilterMembership(log, Visible(requester));
  }

  /** The context keeps the log's (creation) order: earlier messages come first. */
  lemma ShownKeepsOrder(earlier: seq<Message>, later: seq<Message>, requester: Option<string>)
    ensures Shown(earlier + later, requester) == Shown(earlier, requester) + Shown(later, requester)
  {
    FilterAppend(earlier, later, Visible(requester));
  }

  /** The requester's own message, once stored, is the last message of their context. */
  lemma OwnMessageLast(log: seq<Message>, own: Message, requester: string)
    requires own.email == requester
    ensures Shown(log + [own], Some(requester)) == Shown(log, Some(requester)) + [own]
  {
    FilterAppend(log, [own], Visible(Some(requester)));
    assert [own][1..] == [];
  }

  // ----- the tool loop -----

  /** `enableUserChat`'s reply text, which ends with the address of the user the call named. */
  function ResultText(args: ToolArgs, applied: bool): (t: string)
    ensures |args.userEmail| < |t| && t[|t| - |args.userEmail|..] == args.userEmail
  {
    var head := if applied then "User chat is " + (if args.isInputEnable then "enabled" else "disabled") + " for "
                else "Failed to enable user chat for ";
    assert (head + args.userEmail)[|head|..] == args.userEmail;
    head + args.userEmail
  }

  /**
   * The reply can be read back: it tells whether the update failed, for which user, and, when it did not
   * fail, whether input was enabled or disabled.
   */
  lemma ResultTextReadsBack(a: ToolArgs, applied: bool, b: ToolArgs, applied': bool)
    requires ResultText(a, applied) == ResultText(b, applied')
    ensures applied == applied' && a.userEmail == b.userEmail
    ensures applied ==> a.isInputEnable == b.isInputEnable
  {
    var t := ResultText(a, applied);
    assert t[0] == (if applied then 'U' else 'F');
    assert t[0] == (if applied' then 'U' else 'F');
    if applied {
      assert t[13] == (if a.isInputEnable then 'e' else 'd');
      assert t[13] == (if b.isInputEnable then 'e' else 'd');
    }
    assert |a.userEmail| == |b.userEmail|;
  }

  /** The store's answer to the `i`-th update; calls with no listed answer are applied. */
  function ReplyAt(replies: seq<UpdateReply>, i: nat): UpdateReply {
    if i < |replies| then replies[i] else Applied
  }

  /** Whether the `i`-th call pushes a tool entry: a known function whose update did not throw. */
  predicate Pushes(calls: seq<ToolCall>, replies: seq<UpdateReply>, i: nat)
    requires i < |calls|
  {
    calls[i].name == ToolName && ReplyAt(replies, i) != Threw
  }

  /** The content of the last entry of the working list after the first `n` calls. */
  function LastContent(calls: seq<ToolCall>, replies: seq<UpdateReply>, response: Option<string>, n: nat): Option<string>
    requires n <= |calls|
  {
    if n == 0 then response
    else if Pushes(calls, replies, n - 1) then
      Some(ResultText(calls[n - 1].args, ReplyAt(replies, n - 1) == Applied))
    else LastContent(calls, replies, response, n - 1)
  }

  /** The contents of the assistant messages stored after the first `n` calls, one per call. */
  function ToolReplies(calls: seq<ToolCall>, replies: seq<UpdateReply>, response: Option<string>, n: nat): (rs: seq<string>)
    requires n <= |calls|
    ensures |rs| == n
  {
    if n == 0 then []
    else ToolReplies(calls, replies, response, n - 1) + [LastContent(calls, replies, response, n).GetOr("")]
  }

  /**
   * Each call's assistant message is the call's own reply text when it pushed one; otherwise it repeats
   * the previous assistant message, or the completion's text (or "") for the first call.
   */
  lemma {:induction false} ToolRepliesOrigin(calls: seq<ToolCall>, replies: seq<UpdateReply>, response: Option<string>,
                                             n: nat, k: nat)
    requires k < n <= |calls|
    ensures ToolReplies(calls, replies, response, n)[k] ==
              if Pushes(calls, replies, k) then ResultText(calls[k].args, ReplyAt(replies, k) == Applied)
              else if k == 0 then response.GetOr("")
              else ToolReplies(calls, replies, response, n)[k - 1]
    decreases n
  {
    var all := ToolReplies(calls, replies, response, n);
    var prev := ToolReplies(calls, replies, response, n - 1);
    assert all == prev + [LastContent(calls, replies, response, n).GetOr("")];
    if k < n - 1 {
      ToolRepliesOrigin(calls, replies, response, n - 1, k);
      assert all[k] == prev[k];
      if k > 0 {
        assert all[k - 1] == prev[k - 1];
      }
    } else {
      assert all[k] == LastContent(calls, replies, response, n).GetOr("");
      if !Pushes(calls, replies, k) {
        assert LastContent(calls, replies, response, n) == LastContent(calls, replies, response, n - 1);
        if k > 0 {
          var before := ToolReplies(calls, replies, response, n - 2);
          assert prev == before + [LastContent(calls, replies, response, n - 1).GetOr("")];
          assert all[k - 1] == prev[k - 1] == LastContent(calls, replies, response, n - 1).GetOr("");
        }
      }
    }
  }

  /** The membership rows after the first `n` calls: every applied update of a known function. */
  function ApplyUpdates(joined: seq<Membership>, calls: seq<ToolCall>, replies: seq<UpdateReply>, n: nat): seq<Membership>
    requires n <= |calls|
  {
    if n == 0 then joined
    else
      var j := ApplyUpdates(joined, calls, replies, n - 1);
      var c := calls[n - 1];
      if c.name == ToolName && ReplyAt(replies, n - 1) == Applied then
        WithInputEnable(j, c.args.roomCode, c.args.userEmail, c.args.isInputEnable)
      else j
  }

  /** Whether some applied call among the first `n` targets this user in this room. */
  predicate Targeted(calls: seq<ToolCall>, replies: seq<UpdateReply>, n: nat, code: string, email: string)
    requires n <= |calls|
  {
    exists i :: 0 <= i < n && calls[i].name == ToolName && ReplyAt(replies, i) == Applied
                && calls[i].args.roomCode == code && calls[i].args.userEmail == email
  }

  /**
   * The tool calls change nothing but the input flag: the same rows stay in the same order, and a row's
   * flag changes only if an applied call named that row's user and room.
   */
  lemma {:induction false} UpdatesOnlyTouchTargets(joined: seq<Membership>, calls: seq<ToolCall>, replies: seq<UpdateReply>,
                                                   n: nat)
    requires n <= |calls|
    ensures |ApplyUpdates(joined, calls, replies, n)| == |joined|
    ensures forall i :: 0 <= i < |joined| ==>
              var r := ApplyUpdates(joined, calls, replies, n)[i];
              && r.roomCode == joined[i].roomCode && r.email == joined[i].email && r.status == joined[i].status
              && (r != joined[i] ==> Targeted(calls, replies, n, joined[i].roomCode, joined[i].email))
  {
    if n > 0 {
      UpdatesOnlyTouchTargets(joined, calls, replies, n - 1);
      var j := ApplyUpdates(joined, calls, replies, n - 1);
      var c := calls[n - 1];
      if c.name == ToolName && ReplyAt(replies, n - 1) == Applied {
        forall i | 0 <= i < |joined|
          ensures var r := ApplyUpdates(joined, calls, replies, n)[i];
                  && r.roomCode == joined[i].roomCode && r.email == joined[i].email && r.status == joined[i].status
                  && (r != joined[i] ==> Targeted(calls, replies, n, joined[i].roomCode, joined[i].email))
        {
          WithInputEnableOnlyTouchesMatches(j, c.args.roomCode, c.args.userEmail, c.args.isInputEnable, i);
          if j[i] != joined[i] {
            var w :| 0 <= w < n - 1 && calls[w].name == ToolName && ReplyAt(replies, w) == Applied
                     && calls[w].args.roomCode == joined[i].roomCode && calls[w].args.userEmail == joined[i].email;
            assert 0 <= w < n;
          }
        }
      } else {
        forall i | 0 <= i < |joined| && j[i] != joined[i]
          ensures Targeted(calls, replies, n, joined[i].roomCode, joined[i].email)
        {
          var w :| 0 <= w < n - 1 && calls[w].name == ToolName && ReplyAt(replies, w) == Applied
                   && calls[w].args.roomCode == joined[i].roomCode && calls[w].args.userEmail == joined[i].email;
          assert 0 <= w < n;
        }
      }
    }
  }

  // ----- stored assistant messages -----

  /** Assistant rows with the given contents, all carrying the requester's email and visibility. */
  function AssistantRows(contents: seq<string>, roomCode: string, email: string, isPublic: bool, d: ColumnDefaults)
    : (rows: seq<Message>)
    ensures |rows| == |contents|
    ensures forall i :: 0 <= i < |contents| ==>
              rows[i] == Message(Some(contents[i]), "assistant", email, roomCode, isPublic, d.isContext)
  {
    seq(|contents|, i requires 0 <= i < |contents| =>
      Message(Some(contents[i]), "assistant", email, roomCode, isPublic, d.isContext))
  }

  lemma AssistantRowsSnoc(contents: seq<string>, c: string, roomCode: string, email: string, isPublic: bool,
                          d: ColumnDefaults)
    ensures AssistantRows(contents + [c], roomCode, email, isPublic, d)
            == AssistantRows(contents, roomCode, email, isPublic, d)
               + [Message(Some(c), "assistant", email, roomCode, isPublic, d.isContext)]
  {
  }

  /** The completion's own text, stored only when it is non-empty. */
  function FinalText(content: Option<string>): seq<string> {
    if Truthy(content) then [content.value] else []
  }

  /** Rows the foreign keys accept are stored; the handler ignores the error otherwise. */
  function Kept<T>(accepted: bool, rows: seq<T>): seq<T> {
    if accepted then rows else []
  }

  /** Whether the store takes a message from `email` in room `roomCode`. */
  predicate PostAccepted(store: Store, email: string, roomCode: string)
    reads store
  {
    email in store.profiles && HasRoom(store.rooms, roomCode)
  }

  /**
   * One call of the loop: a call of `enableUserChat` runs the update and yields the tool entry with its
   * reply text, unless the update threw; a call of any other name runs nothing.
   */
  method ExecuteToolCall(store: Store, call: ToolCall, reply: UpdateReply) returns (pushed: Option<Entry>)
    requires store.Valid()
    modifies store
    ensures store.Valid() && store.rooms == old(store.rooms) && store.messages == old(store.messages)
    ensures store.joined == if call.name == ToolName && reply == Applied
                            then WithInputEnable(old(store.joined), call.args.roomCode, call.args.userEmail, call.args.isInputEnable)
                            else old(store.joined)
    ensures pushed == if call.name == ToolName && reply != Threw
                      then Some(ToolEntry(call.id, call.name, Some(ResultText(call.args, reply == Applied))))
                      else None
  {
    pushed := None;
    if call.name == ToolName {
      if reply == Applied {
        store.UpdateInputEnable(call.args.roomCode, call.args.userEmail, call.args.isInputEnable);
      }
      if reply != Threw {
        pushed := Some(ToolEntry(call.id, call.name, Some(ResultText(call.args, reply == Applied))));
      }
    }
  }

  /**
   * One round of the tool loop: the call runs, and an assistant message with the content of the working
   * list's last entry is stored.
   */
  method ToolStep(store: Store, final: seq<Entry>, calls: seq<ToolCall>, replies: seq<UpdateReply>, i: nat,
                  response: Option<string>, roomCode: string, email: string, isPublic: bool,
                  ghost joined0: seq<Membership>, ghost messages0: seq<Message>, ghost accepted: bool)
    returns (final': seq<Entry>)
    requires store.Valid() && i < |calls| && |final| > 0
    requires accepted == PostAccepted(store, email, roomCode)
    requires final[|final| - 1].content == LastContent(calls, replies, response, i)
    requires store.joined == ApplyUpdates(joined0, calls, replies, i)
    requires store.messages == messages0 +
               Kept(accepted, AssistantRows(ToolReplies(calls, replies, response, i), roomCode, email, isPublic, store.defaults))
    modifies store
    ensures store.Valid() && store.rooms == old(store.rooms) && accepted == PostAccepted(store, email, roomCode)
    ensures |final'| >= |final|
    ensures final'[|final'| - 1].content == LastContent(calls, replies, response, i + 1)
    ensures store.joined == ApplyUpdates(joined0, calls, replies, i + 1)
    ensures store.messages == messages0 +
              Kept(accepted, AssistantRows(ToolReplies(calls, replies, response, i + 1), roomCode, email, isPublic, store.defaults))
  {
    var pushed := ExecuteToolCall(store, calls[i], ReplyAt(replies, i));
    final' := if pushed.Some? then final + [pushed.value] else final;
    assert final'[|final'| - 1].content == LastContent(calls, replies, response, i + 1) by {
      if pushed.Some? {
        assert Pushes(calls, replies, i);
      } else {
        assert !Pushes(calls, replies, i);
      }
    }
    var content := final'[|final'| - 1].content.GetOr("");
    assert ToolReplies(calls, replies, response, i + 1) == ToolReplies(calls, replies, response, i) + [content];
    PostAssistant(store, content, roomCode, email, isPublic, messages0, accepted, ToolReplies(calls, replies, response, i));
  }

  /** Stores one assistant message of the requester; the store drops it when it refuses the requester. */
  method PostAssistant(store: Store, content: string, roomCode: string, email: string, isPublic: bool,
                       ghost messages0: seq<Message>, ghost accepted: bool, ghost posted: seq<string>)
    requires store.Valid() && accepted == PostAccepted(store, email, roomCode)
    requires store.messages == messages0 + Kept(accepted, AssistantRows(posted, roomCode, email, isPublic, store.defaults))
    modifies store
    ensures store.Valid() && store.rooms == old(store.rooms) && store.joined == old(store.joined)
    ensures store.messages == messages0 + Kept(accepted, AssistantRows(posted + [content], roomCode, email, isPublic, store.defaults))
  {
    var row := Message(Some(content), "assistant", email, roomCode, isPublic, store.defaults.isContext);
    ghost var before := store.messages;
    var ok := store.InsertMessage(row);
    PostStep(store.messages, before, messages0, accepted, posted, content, roomCode, email, isPublic, store.defaults);
  }

  /**
   * The tool loop: each call of the known function updates the flag and pushes its reply text, and every
   * call, known or not, stores an assistant message with the content of the working list's last entry.
   */
  method RunToolCalls(store: Store, working: seq<Entry>, calls: seq<ToolCall>, replies: seq<UpdateReply>,
                      roomCode: string, email: string, isPublic: bool)
    returns (final: seq<Entry>)
    requires store.Valid() && |working| > 0
    modifies store
    ensures store.Valid() && store.rooms == old(store.rooms)
    ensures |final| >= |working|
    ensures final[|final| - 1].content == LastContent(calls, replies, working[|working| - 1].content, |calls|)
    ensures store.joined == ApplyUpdates(old(store.joined), calls, replies, |calls|)
    ensures store.messages == old(store.messages) +
              Kept(old(PostAccepted(store, email, roomCode)),
                   AssistantRows(ToolReplies(calls, replies, working[|working| - 1].content, |calls|),
                                 roomCode, email, isPublic, store.defaults))
  {
    var response := working[|working| - 1].content;
    ghost var accepted := PostAccepted(store, email, roomCode);
    final := working;
    var i := 0;
    while i < |calls|
      invariant 0 <= i <= |calls|
      invariant store.Valid() && store.rooms == old(store.rooms) && accepted == PostAccepted(store, email, roomCode)
      invariant |final| >= |working|
      invariant final[|final| - 1].content == LastContent(calls, replies, response, i)
      invariant store.joined == ApplyUpdates(old(store.joined), calls, replies, i)
      invariant store.messages == old(store.messages) +
                  Kept(accepted, AssistantRows(ToolReplies(calls, replies, response, i), roomCode, email, isPublic, store.defaults))
    {
      final := ToolStep(store, final, calls, replies, i, response, roomCode, email, isPublic,
                        old(store.joined), old(store.messages), accepted);
      i := i + 1;
    }
  }

  /** Carries the stored assistant messages across one more insert. */
  lemma PostStep(now: seq<Message>, before: seq<Message>, start: seq<Message>, accepted: bool, posted: seq<string>,
                 content: string, roomCode: string, email: string, isPublic: bool, d: ColumnDefaults)
    requires before == start + Kept(accepted, AssistantRows(posted, roomCode, email, isPublic, d))
    requires now == before + Kept(accepted, [Message(Some(content), "assistant", email, roomCode, isPublic, d.isContext)])
    ensures now == start + Kept(accepted, AssistantRows(posted + [content], roomCode, email, isPublic, d))
  {
    AssistantRowsSnoc(posted, content, roomCode, email, isPublic, d);
  }

  /**
   * The tail of the handler once the completion is in: the tool-call loop, then the final text when it is
   * non-empty, each stored as an assistant message of the requester.
   */
  method PostReplies(store: Store, context: seq<Entry>, completion: Completion, replies: seq<UpdateReply>,
                     roomCode: string, email: string, isPublic: bool)
    requires store.Valid()
    modifies store
    ensures store.Valid() && store.rooms == old(store.rooms)
    ensures var calls := completion.toolCalls.GetOr([]);
            && store.messages == old(store.messages) +
                 Kept(old(PostAccepted(store, email, roomCode)),
                      AssistantRows(ToolReplies(calls, replies, completion.content, |calls|) + FinalText(completion.content),
                                    roomCode, email, isPublic, store.defaults))
            && store.joined == ApplyUpdates(old(store.joined), calls, replies, |calls|)
  {
    ghost var accepted := PostAccepted(store, email, roomCode);
    ghost var calls := completion.toolCalls.GetOr([]);
    ghost var posted := ToolReplies(calls, replies, completion.content, |calls|);
    if completion.toolCalls.Some? {
      var final := RunToolCalls(store, context + [Entry("assistant", completion.content)], completion.toolCalls.value,
                                replies, roomCode, email, isPublic);
    }
    assert store.messages == old(store.messages) + Kept(accepted, AssistantRows(posted, roomCode, email, isPublic, store.defaults));
    if Truthy(completion.content) {
      PostAssistant(store, completion.content.value, roomCode, email, isPublic, old(store.messages), accepted, posted);
    } else {
      assert posted + FinalText(completion.content) == posted;
    }
  }

  /**
   * `handleOpenAIChatMessage`. The requester's identity is `auth`; a missing identity stores "" as the
   * email, which no profile has, so every insert of the turn is refused. `readFault` stands for an error
   * reading the log, `completion` for the completion's reply and `replies` for the store's answers to
   * the updates; `prompt` is the system instruction text for a mediator type.
   */
  method HandleChatMessage(store: Store, text: string, roomCode: string, isPrivateMode: bool, isContextMode: bool,
                           auth: Option<string>, readFault: bool, prompt: string -> string,
                           completion: Completion, replies: seq<UpdateReply>)
    returns (outcome: Outcome)
    requires store.Valid()
    modifies store
    ensures store.Valid() && store.rooms == old(store.rooms)
    ensures var email := auth.GetOr("");
            var own := Message(Some(text), "user", email, roomCode, !isPrivateMode, isContextMode);
            var accepted := old(PostAccepted(store, email, roomCode));
            var logged := old(store.messages) + Kept(accepted, [own]);
            var found := old(FindRoom(store.rooms, roomCode));
            var calls := completion.toolCalls.GetOr([]);
            var replyRows := AssistantRows(ToolReplies(calls, replies, completion.content, |calls|)
                                           + FinalText(completion.content),
                                           roomCode, email, !isPrivateMode, store.defaults);
            && (readFault || found.None? ==>
                  && outcome == (if readFault then ReadFailed else RoomMissing)
                  && store.messages == logged && store.joined == old(store.joined))
            && (!readFault && found.Some? ==>
                  && outcome == Answered(Context(RoomLog(logged, roomCode), roomCode, auth, found.value.mediatorType, prompt))
                  && store.messages == logged + Kept(accepted, replyRows)
                  && store.joined == ApplyUpdates(old(store.joined), calls, replies, |calls|))
  {
    var email := auth.GetOr("");
    var isPublic := !isPrivateMode;
    var own := Message(Some(text), "user", email, roomCode, isPublic, isContextMode);
    var accepted := store.InsertMessage(own);
    assert store.messages == old(store.messages) + Kept(accepted, [own]);
    if readFault {
      return ReadFailed;
    }
    var log := RoomLog(store.messages, roomCode);
    var found := FindRoom(store.rooms, roomCode);
    if found.None? {
      return RoomMissing;
    }
    var context := Context(log, roomCode, auth, found.value.mediatorType, prompt);
    outcome := Answered(context);
    PostReplies(store, context, completion, replies, roomCode, email, isPublic);
  }

}
