/** The chat sidebar (src/components/Layout/Sidebar.tsx): the per-chat
    message counts, seeded from the chat list and bumped by the live message
    feed, their labels, and the user's avatar initial and shown name. */
module Sidebar {
  import opened Base
  import opened Text
  import opened Types

  type Counts = map<string, nat>

  /** `chat.messages?.length || 0`. */
  function MessageCount(c: Chat): nat {
    if c.messages.Some? then |c.messages.value| else 0
  }

  /** `counts[key] || 0`. */
  function CountOf(counts: Counts, key: string): nat {
    if key in counts then counts[key] else 0
  }

  /** The count effect: one entry per chat id, later chats overwriting earlier
      ones with the same id; nothing from the previous map survives. */
  function InitCounts(chats: seq<Chat>): (r: Counts)
    ensures forall k :: k in r <==> exists i :: 0 <= i < |chats| && chats[i].id == k
    decreases |chats|
  {
    if |chats| == 0 then map[]
    else
      var last := chats[|chats| - 1];
      var r := InitCounts(chats[..|chats| - 1])[last.id := MessageCount(last)];
      assert forall i :: 0 <= i < |chats| - 1 ==> chats[..|chats| - 1][i] == chats[i];
      r
  }

  /** With distinct chat ids, every chat's entry is its number of messages. */
  lemma {:induction false} InitCountsOfDistinct(chats: seq<Chat>, i: nat)
    requires forall a, b :: 0 <= a < b < |chats| ==> chats[a].id != chats[b].id
    requires i < |chats|
    ensures InitCounts(chats)[chats[i].id] == MessageCount(chats[i])
    decreases |chats|
  {
    if i < |chats| - 1 {
      var prefix := chats[..|chats| - 1];
      assert prefix[i] == chats[i];
      InitCountsOfDistinct(prefix, i);
    }
  }

  /** The key the feed's first message is counted under: `newMessage.chat_id`,
      which becomes the text "undefined" when missing. */
  function CountKey(m: Message): string {
    m.chatId.GetOr("undefined")
  }

  /** The subscription's `skip: !selectedChatId`: with no chat selected the
      feed is off and delivers nothing. */
  predicate FeedSkipped(selected: Option<string>) {
    !Truthy(selected)
  }

  /** The feed's `onData` while a chat is selected: the first message of the
      payload, if any, bumps its chat's count by one; every other entry stays
      as it was. With the feed skipped nothing arrives and nothing changes. */
  function OnCountEvent(counts: Counts, selected: Option<string>, payload: Option<seq<Message>>): (r: Counts)
    ensures FeedSkipped(selected) ==> r == counts
    ensures payload.None? || |payload.value| == 0 ==> r == counts
    ensures !FeedSkipped(selected) && payload.Some? && |payload.value| > 0 ==>
      var key := CountKey(payload.value[0]);
      && r.Keys == counts.Keys + {key}
      && r[key] == CountOf(counts, key) + 1
      && forall k :: k in counts && k != key ==> r[k] == counts[k]
  {
    if !FeedSkipped(selected) && payload.Some? && |payload.value| > 0 then
      var key := CountKey(payload.value[0]);
      counts[key := CountOf(counts, key) + 1]
    else counts
  }

  /** The counts after a series of feed events under one selection. */
  function ApplyEvents(counts: Counts, selected: Option<string>, payloads: seq<Option<seq<Message>>>): Counts
    decreases |payloads|
  {
    if |payloads| == 0 then counts
    else ApplyEvents(OnCountEvent(counts, selected, payloads[0]), selected, payloads[1..])
  }

  /** How many of the events carry a first message counted under `key`. */
  function Arrivals(payloads: seq<Option<seq<Message>>>, key: string): nat
    decreases |payloads|
  {
    if |payloads| == 0 then 0
    else
      var p := payloads[0];
      (if p.Some? && |p.value| > 0 && CountKey(p.value[0]) == key then 1 else 0) + Arrivals(payloads[1..], key)
  }

  /** After any events, a chat's count is its seeded count plus the messages
      the feed reported for it while a chat was selected, and exactly its
      seeded count while none is. */
  lemma {:induction false} ApplyEventsCounts(counts: Counts, selected: Option<string>,
                                             payloads: seq<Option<seq<Message>>>, key: string)
    ensures CountOf(ApplyEvents(counts, selected, payloads), key)
      == CountOf(counts, key) + (if FeedSkipped(selected) then 0 else Arrivals(payloads, key))
    decreases |payloads|
  {
    if |payloads| > 0 {
      ApplyEventsCounts(OnCountEvent(counts, selected, payloads[0]), selected, payloads[1..], key);
    }
  }

  /** With no chat selected the counts stay exactly as seeded. */
  lemma {:induction false} SkippedFeedChangesNothing(counts: Counts, selected: Option<string>,
                                                     payloads: seq<Option<seq<Message>>>)
    requires FeedSkipped(selected)
    ensures ApplyEvents(counts, selected, payloads) == counts
    decreases |payloads|
  {
    if |payloads| > 0 {
      SkippedFeedChangesNothing(OnCountEvent(counts, selected, payloads[0]), selected, payloads[1..]);
    }
  }

  function Suffix(n: nat): string {
    if n == 1 then " message" else " messages"
  }

  lemma EndsWith(d: string, suffix: string)
    ensures |d + suffix| >= |suffix| && (d + suffix)[|d + suffix| - |suffix|..] == suffix
  {
    assert (d + suffix)[|d|..] == suffix;
  }

  /** The plural suffix does not end in the singular one. */
  lemma PluralIsNotSingular()
    ensures " messages"[1..] != " message"
  {
    assert " messages"[1..][0] == 'm';
  }

  lemma ZeroLabel()
    ensures NatToString(0) + Suffix(0) == "0 messages"
  {
    assert NatToString(0) == [DigitChar(0)];
  }

  /** What a label for `n` says. */
  lemma LabelFacts(n: nat)
    ensures var r := NatToString(n) + Suffix(n);
      && ParseInt(r) == Some(n)
      && |r| >= 9
      && (n == 1 <==> r[|r| - 8..] == " message")
      && (n != 1 ==> r[|r| - 9..] == " messages")
  {
    var d := NatToString(n);
    var suffix := Suffix(n);
    ParseIntOfNatToStringThen(n, suffix);
    EndsWith(d, suffix);
    var r := d + suffix;
    if n != 1 {
      PluralIsNotSingular();
      assert r[|r| - 8..] == r[|r| - 9..][1..];
    }
  }

  /** `{count} message` for exactly one, `{count} messages` otherwise: the
      label reads back through `parseInt` as the stored count, and carries the
      singular suffix exactly when that count is one. */
  function CountLabel(counts: Counts, chatId: string): (r: string)
    ensures ParseInt(r) == Some(CountOf(counts, chatId))
    ensures |r| >= 9
    ensures CountOf(counts, chatId) == 1 <==> r[|r| - 8..] == " message"
    ensures CountOf(counts, chatId) != 1 ==> r[|r| - 9..] == " messages"
    ensures chatId !in counts ==> r == "0 messages"
  {
    var n := CountOf(counts, chatId);
    LabelFacts(n);
    ZeroLabel();
    NatToString(n) + Suffix(n)
  }

  /** `(displayName?.[0] || email?.[0] || 'U').toUpperCase()`. */
  function AvatarInitial(user: Option<User>): (c: char)
    ensures user.Some? && Truthy(user.value.displayName) ==> c == UpperAscii(user.value.displayName.value[0])
    ensures user.Some? && !Truthy(user.value.displayName) && user.value.email != "" ==> c == UpperAscii(user.value.email[0])
    ensures user.None? || (!Truthy(user.value.displayName) && user.value.email == "") ==> c == 'U'
  {
    if user.Some? && Truthy(user.value.displayName) then UpperAscii(user.value.displayName.value[0])
    else if user.Some? && user.value.email != "" then UpperAscii(user.value.email[0])
    else 'U'
  }

  const FallbackName: string := "User"

  /** `displayName || email?.split('@')[0] || 'User'`. */
  function ShownName(user: Option<User>): (r: string)
    ensures r != ""
    ensures user.Some? && Truthy(user.value.displayName) ==> r == user.value.displayName.value
    ensures user.Some? && !Truthy(user.value.displayName) && user.value.email != "" && user.value.email[0] != '@' ==>
      (r <= user.value.email && '@' !in r && (|r| < |user.value.email| ==> user.value.email[|r|] == '@'))
    ensures user.None? || (!Truthy(user.value.displayName) && (user.value.email == "" || user.value.email[0] == '@')) ==>
      r == FallbackName
  {
    if user.Some? && Truthy(user.value.displayName) then user.value.displayName.value
    else if user.Some? && BeforeFirst(user.value.email, '@') != "" then BeforeFirst(user.value.email, '@')
    else FallbackName
  }

  /** Avatar and name agree: unless the name fell back to "User", the avatar
      shows the name's first character in upper case. */
  lemma AvatarIsInitialOfName(user: Option<User>)
    requires user.Some? && (Truthy(user.value.displayName) || BeforeFirst(user.value.email, '@') != "")
    ensures AvatarInitial(user) == UpperAscii(ShownName(user)[0])
  {
  }
}
