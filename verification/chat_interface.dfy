/** The chat view's message state (src/components/Chat/ChatInterface.tsx):
    the initial load, the live feed, the deferred refresh and the two-step
    send flow, as transitions over the list of messages and the loading flag.
    Every backend answer is a parameter, and so are the values the source
    draws from the clock and `Math.random` for the ids and timestamps it makes
    up. The duplicate checks of the send flow read the list as it was when the
    send started (the handler's closure), which is the `shown` argument below. */
module ChatInterface {
  import opened Base
  import opened Text
  import opened Types

  datatype ChatState = ChatState(messages: seq<Message>, isLoading: bool)

  /** The backend requests the send flow issues, in order. */
  datatype Request =
    | InsertMessage(chatId: string, content: string, isBot: bool)
    | SendAction(chatId: string, content: string)

  /** What the insert mutation did: threw, or returned the inserted row (or no row). */
  datatype InsertOutcome = InsertThrows | InsertReturns(row: Option<Message>)

  /** The AI action's `message` field: a plain string or a message-shaped object
      (an object without an id has the empty id, one without content the empty content). */
  datatype Reply = TextReply(text: string) | ObjectReply(message: Message)

  datatype ActionResponse = ActionResponse(success: bool, message: Option<Reply>, error: Option<string>)

  /** What the AI action did: threw, or returned a (possibly missing) `sendMessage` payload. */
  datatype ActionOutcome = ActionThrows | ActionReturns(response: Option<ActionResponse>)

  /** Values the source makes up from the clock and randomness. */
  datatype Generated = Generated(replyId: string, errorId: string, now: string)

  /** The outcome of one send: the final state, the requests issued, and whether
      the deferred re-fetch was scheduled. */
  datatype SendResult = SendResult(state: ChatState, requests: seq<Request>, refreshScheduled: bool)

  const ApologyText: string := "Sorry, I'm having trouble responding right now. Please try again."
  const ErrorPrefix: string := "AI Response Error: "
  const UnknownError: string := "Unknown error"

  predicate Succeeded(action: ActionOutcome) {
    action.ActionReturns? && action.response.Some? && action.response.value.success
  }

  /** The bot message shown when the insert or the action throws. It carries no chat id. */
  function Apology(gen: Generated): Message {
    Message(gen.errorId, ApologyText, None, None, true, gen.now)
  }

  /** The bot message shown when the action reports failure. */
  function ErrorBubble(response: Option<ActionResponse>, chatId: string, gen: Generated): (m: Message)
    ensures m.isBot && m.chatId == Some(chatId) && m.userId.None?
    ensures response.Some? && Truthy(response.value.error) ==> m.content == ErrorPrefix + response.value.error.value
    ensures !(response.Some? && Truthy(response.value.error)) ==> m.content == ErrorPrefix + UnknownError
  {
    var error := if response.Some? then response.value.error else None;
    Message(gen.errorId, ErrorPrefix + OrElse(error, UnknownError), Some(chatId), None, true, gen.now)
  }

  /** What a successful action appends: a reply object with an id (unless
      already shown); a bot message made up around the content of an object
      without an id; nothing for anything else, a plain string included. */
  function ReplyMessages(shown: seq<Message>, reply: Option<Reply>, chatId: string, gen: Generated): (r: seq<Message>)
    ensures |r| <= 1
    ensures r != [] ==> reply.Some? && reply.value.ObjectReply?
    ensures r != [] && HasId(reply.value.message) ==> r == [reply.value.message] && !IdPresent(shown, r[0].id)
    ensures r != [] && !HasId(reply.value.message) ==>
      r[0] == Message(gen.replyId, reply.value.message.content, Some(chatId), None, true, gen.now)
      && r[0].content != ""
    ensures reply.Some? && reply.value.ObjectReply? && !HasId(reply.value.message)
      ==> (r != [] <==> reply.value.message.content != "")
    ensures reply.Some? && reply.value.ObjectReply? && HasId(reply.value.message)
      ==> (r != [] <==> !IdPresent(shown, reply.value.message.id))
  {
    match reply
    case Some(ObjectReply(m)) =>
      if HasId(m) then (if IdPresent(shown, m.id) then [] else [m])
      else if m.content != "" then [Message(gen.replyId, m.content, Some(chatId), None, true, gen.now)]
      else []
    case _ => []
  }

  /** What the second step appends, and whether it schedules the re-fetch:
      the reply on reported success, one error bubble on reported failure, one
      apology when the action throws. */
  function ActionStep(shown: seq<Message>, chatId: string, action: ActionOutcome, gen: Generated): (r: (seq<Message>, bool))
    ensures |r.0| <= 1
    ensures r.1 <==> Succeeded(action)
    ensures !Succeeded(action) ==> |r.0| == 1 && r.0[0].isBot
    ensures action.ActionThrows? ==> r.0 == [Apology(gen)]
    ensures action.ActionReturns? && !Succeeded(action) ==> r.0 == [ErrorBubble(action.response, chatId, gen)]
    ensures forall k :: 0 <= k < |r.0| ==>
      r.0[k].isBot || (Succeeded(action) && action.response.value.message == Some(ObjectReply(r.0[k])))
  {
    match action
    case ActionThrows => ([Apology(gen)], false)
    case ActionReturns(response) =>
      if response.Some? && response.value.success then
        (ReplyMessages(shown, response.value.message, chatId, gen), true)
      else
        ([ErrorBubble(response, chatId, gen)], false)
  }

  /** The inserted row as the first step appends it: only when present and
      its id is not already shown. */
  function UserRow(shown: seq<Message>, row: Option<Message>): (r: seq<Message>)
    ensures |r| <= 1
    ensures r != [] <==> row.Some? && !IdPresent(shown, row.value.id)
    ensures r != [] ==> r == [row.value]
  {
    if row.Some? && !IdPresent(shown, row.value.id) then [row.value] else []
  }

  /** Everything a non-blank send appends, in order: the apology when the insert
      throws, otherwise the user's row followed by what the action step adds. */
  function Appended(shown: seq<Message>, chatId: string, insert: InsertOutcome,
                    action: ActionOutcome, gen: Generated): (r: seq<Message>)
    ensures |r| <= 2
    ensures insert.InsertThrows? ==> r == [Apology(gen)]
    ensures !Succeeded(action) ==> |r| >= 1
    ensures forall k :: 0 <= k < |r| ==>
      || r[k].isBot
      || insert == InsertReturns(Some(r[k]))
      || (Succeeded(action) && action.response.value.message == Some(ObjectReply(r[k])))
  {
    match insert
    case InsertThrows => [Apology(gen)]
    case InsertReturns(row) => UserRow(shown, row) + ActionStep(shown, chatId, action, gen).0
  }

  lemma SuffixOfAppend(a: seq<Message>, b: seq<Message>)
    ensures (a + b)[|a|..] == b && a <= a + b
  {
  }

  lemma PrefixOfAppend(a: seq<Message>, b: seq<Message>)
    ensures (a + b)[..|a|] == a
  {
  }

  lemma LastOfAppend(a: seq<Message>, m: Message)
    ensures |a + [m]| == |a| + 1 && (a + [m])[|a|] == m
  {
  }

  lemma AppendAssoc(a: seq<Message>, b: seq<Message>, c: seq<Message>)
    ensures a + (b + c) == (a + b) + c
  {
  }

  /** `handleSendMessage(content)` run to completion. */
  function HandleSend(s: ChatState, chatId: string, content: string,
                      insert: InsertOutcome, action: ActionOutcome, gen: Generated): (r: SendResult)
    // blank content: no request, no change, not even to the loading flag
    ensures Trim(content) == "" ==> r.state == s && r.requests == [] && !r.refreshScheduled
    // otherwise the insert goes first, as a user message with the trimmed content
    ensures Trim(content) != "" ==> 1 <= |r.requests| <= 2 && r.requests[0] == InsertMessage(chatId, Trim(content), false)
    // the action is requested, with the same content, only after an insert that did not throw
    ensures Trim(content) != "" ==> (|r.requests| == 2 <==> insert.InsertReturns?)
    ensures |r.requests| == 2 ==> r.requests[1] == SendAction(chatId, Trim(content))
    // the list only grows at its end, by what `Appended` lists, and loading is over
    ensures Trim(content) != "" ==> r.state.messages == s.messages + Appended(s.messages, chatId, insert, action, gen)
    ensures Trim(content) != "" ==>
      s.messages <= r.state.messages && |r.state.messages| <= |s.messages| + 2 && !r.state.isLoading
    // every path other than a reported success shows something new
    ensures Trim(content) != "" && !Succeeded(action) ==> |r.state.messages| > |s.messages|
    // every appended message is the inserted row, the reply object, or a bot message
    ensures forall k :: |s.messages| <= k < |r.state.messages| ==>
      || r.state.messages[k].isBot
      || insert == InsertReturns(Some(r.state.messages[k]))
      || (Succeeded(action) && action.response.value.message == Some(ObjectReply(r.state.messages[k])))
    // the deferred re-fetch is scheduled exactly when the action reported success
    ensures r.refreshScheduled <==> Trim(content) != "" && insert.InsertReturns? && Succeeded(action)
  {
    var text := Trim(content);
    if text == "" then SendResult(s, [], false)
    else
      var extra := Appended(s.messages, chatId, insert, action, gen);
      SuffixOfAppend(s.messages, extra);
      var requests := if insert.InsertThrows? then [InsertMessage(chatId, text, false)]
                      else [InsertMessage(chatId, text, false), SendAction(chatId, text)];
      SendResult(ChatState(s.messages + extra, false), requests, insert.InsertReturns? && Succeeded(action))
  }

  /** The live feed's `onData`: the payload's first message is appended when it
      has an id. There is no duplicate check on this path. */
  function OnFeed(s: ChatState, payload: Option<seq<Message>>): (r: ChatState)
    ensures r.isLoading == s.isLoading
    ensures s.messages <= r.messages && |r.messages| <= |s.messages| + 1
    ensures |r.messages| == |s.messages| + 1 <==> payload.Some? && |payload.value| > 0 && HasId(payload.value[0])
    ensures |r.messages| == |s.messages| + 1 ==> r.messages[|s.messages|] == payload.value[0]
  {
    match payload
    case Some(ms) =>
      if |ms| > 0 && HasId(ms[0]) then ChatState(s.messages + [ms[0]], s.isLoading) else s
    case None => s
  }

  /** The initial query's `onCompleted`: the list becomes the fetched messages,
      or empty when the chat carried none. */
  function OnLoaded(s: ChatState, fetched: Option<seq<Message>>): (r: ChatState)
    ensures r.isLoading == s.isLoading
    ensures fetched.Some? ==> r.messages == fetched.value
    ensures fetched.None? ==> r.messages == []
  {
    ChatState(fetched.GetOr([]), s.isLoading)
  }

  /** The initial query's `onError`: the list is emptied. */
  function OnLoadError(s: ChatState): (r: ChatState)
    ensures r.messages == [] && r.isLoading == s.isLoading
  {
    ChatState([], s.isLoading)
  }

  /** What the deferred re-fetch got: an exception, or the chat's messages if any. */
  datatype RefreshOutcome = RefreshThrows | RefreshReturns(fetched: Option<seq<Message>>)

  /** `refreshMessages`: the list is replaced by the fetched messages; a missing
      result or an exception leaves it as it was. */
  function OnRefresh(s: ChatState, outcome: RefreshOutcome): (r: ChatState)
    ensures r.isLoading == s.isLoading
    ensures outcome.RefreshReturns? && outcome.fetched.Some? ==> r.messages == outcome.fetched.value
    ensures !(outcome.RefreshReturns? && outcome.fetched.Some?) ==> r == s
  {
    match outcome
    case RefreshReturns(Some(ms)) => ChatState(ms, s.isLoading)
    case _ => s
  }

  // ---------------------------------------------------------------------
  // The send flow, outcome by outcome

  /** A throwing insert stops the flow: the action is never requested and the
      one apology is the only change. */
  lemma SendWhenInsertThrows(s: ChatState, chatId: string, content: string, action: ActionOutcome, gen: Generated)
    requires Trim(content) != ""
    ensures var r := HandleSend(s, chatId, content, InsertThrows, action, gen);
      && (forall k :: 0 <= k < |r.requests| ==> !r.requests[k].SendAction?)
      && r.state == ChatState(s.messages + [Apology(gen)], false)
      && !r.refreshScheduled
  {
    var r := HandleSend(s, chatId, content, InsertThrows, action, gen);
    assert |r.requests| == 1;
  }

  /** After an insert that returned, the list is the old one, then the user's
      row if it was appended, then what the action step adds. */
  lemma SendAppendsInOrder(s: ChatState, chatId: string, content: string, row: Option<Message>,
                           action: ActionOutcome, gen: Generated)
    requires Trim(content) != ""
    ensures HandleSend(s, chatId, content, InsertReturns(row), action, gen).state.messages
      == s.messages + UserRow(s.messages, row) + ActionStep(s.messages, chatId, action, gen).0
  {
    AppendAssoc(s.messages, UserRow(s.messages, row), ActionStep(s.messages, chatId, action, gen).0);
  }

  /** The inserted row is appended exactly when its id is not already shown. */
  lemma SendAppendsRowUnlessShown(s: ChatState, chatId: string, content: string, row: Message,
                                  action: ActionOutcome, gen: Generated)
    requires Trim(content) != ""
    ensures var r := HandleSend(s, chatId, content, InsertReturns(Some(row)), action, gen);
      && (IdPresent(s.messages, row.id) ==> r.state.messages[..|s.messages|] == s.messages)
      && (!IdPresent(s.messages, row.id) ==> r.state.messages[..|s.messages| + 1] == s.messages + [row])
  {
    var user := UserRow(s.messages, Some(row));
    var replies := ActionStep(s.messages, chatId, action, gen).0;
    SendAppendsInOrder(s, chatId, content, Some(row), action, gen);
    PrefixOfAppend(s.messages + user, replies);
    PrefixOfAppend(s.messages, user);
  }

  /** An action that throws after the insert returned appends the apology
      last, after the user's row if that was appended, and schedules no re-fetch. */
  lemma SendWhenActionThrows(s: ChatState, chatId: string, content: string, row: Option<Message>, gen: Generated)
    requires Trim(content) != ""
    ensures var r := HandleSend(s, chatId, content, InsertReturns(row), ActionThrows, gen);
      && r.state.messages == s.messages + UserRow(s.messages, row) + [Apology(gen)]
      && |r.requests| == 2 && !r.refreshScheduled && !r.state.isLoading
  {
    SendAppendsInOrder(s, chatId, content, row, ActionThrows, gen);
  }

  /** A reported failure appends exactly one bot message quoting the error,
      and schedules no re-fetch. */
  lemma SendWhenActionFails(s: ChatState, chatId: string, content: string, row: Option<Message>,
                            response: Option<ActionResponse>, gen: Generated)
    requires Trim(content) != ""
    requires response.None? || !response.value.success
    ensures var r := HandleSend(s, chatId, content, InsertReturns(row), ActionReturns(response), gen);
      var last := r.state.messages[|r.state.messages| - 1];
      && |r.state.messages| > |s.messages|
      && last.isBot && last.chatId == Some(chatId)
      && last.content == ErrorPrefix + (if response.Some? then OrElse(response.value.error, UnknownError) else UnknownError)
      && !r.refreshScheduled
  {
    SendAppendsInOrder(s, chatId, content, row, ActionReturns(response), gen);
    var bubble := ErrorBubble(response, chatId, gen);
    LastOfAppend(s.messages + UserRow(s.messages, row), bubble);
  }

  /** A reported success with no usable reply appends nothing after the user's
      row: a plain-string reply is dropped like a missing one. */
  lemma SendWhenReplyUnusable(s: ChatState, chatId: string, content: string, row: Message,
                              reply: Option<Reply>, error: Option<string>, gen: Generated)
    requires Trim(content) != ""
    requires !IdPresent(s.messages, row.id)
    requires reply.None? || reply.value.TextReply? || (!HasId(reply.value.message) && reply.value.message.content == "")
    ensures var r := HandleSend(s, chatId, content, InsertReturns(Some(row)),
                                ActionReturns(Some(ActionResponse(true, reply, error))), gen);
      r.state.messages == s.messages + [row] && r.refreshScheduled
  {
    var action := ActionReturns(Some(ActionResponse(true, reply, error)));
    assert ReplyMessages(s.messages, reply, chatId, gen) == [];
    assert ActionStep(s.messages, chatId, action, gen).0 == [];
    assert Appended(s.messages, chatId, InsertReturns(Some(row)), action, gen) == [row];
  }

  /** A reported success whose reply has content but no id appends, after the
      user's row, one bot message in this chat, from no user, with that content. */
  lemma SendMakesUpBotReply(s: ChatState, chatId: string, content: string, row: Option<Message>,
                            reply: Message, error: Option<string>, gen: Generated)
    requires Trim(content) != ""
    requires !HasId(reply) && reply.content != ""
    ensures var r := HandleSend(s, chatId, content, InsertReturns(row),
                                ActionReturns(Some(ActionResponse(true, Some(ObjectReply(reply)), error))), gen);
      && r.state.messages == s.messages + UserRow(s.messages, row)
                             + [Message(gen.replyId, reply.content, Some(chatId), None, true, gen.now)]
      && r.refreshScheduled
  {
    var action := ActionReturns(Some(ActionResponse(true, Some(ObjectReply(reply)), error)));
    SendAppendsInOrder(s, chatId, content, row, action, gen);
    MadeUpReplyStep(s.messages, chatId, reply, error, gen);
  }

  lemma MadeUpReplyStep(shown: seq<Message>, chatId: string, reply: Message, error: Option<string>, gen: Generated)
    requires !HasId(reply) && reply.content != ""
    ensures ActionStep(shown, chatId, ActionReturns(Some(ActionResponse(true, Some(ObjectReply(reply)), error))), gen)
      == ([Message(gen.replyId, reply.content, Some(chatId), None, true, gen.now)], true)
  {
  }
}
