# A verified model of the CHatbot_using_n8n client's decision logic

The repository is a React/TypeScript chat client. It talks to a hosted auth
provider and a GraphQL backend, and an n8n workflow answers the chat. Almost
all of it is UI glue. What this project models are the small decision
procedures underneath. Each one is written as a pure Dafny function, and every
server, provider, storage or clock result is passed in as a parameter:

- **Chat messages** (`ChatInterface`, `MessageList`, `ChatDisplay`). The chat
  holds a list of messages. The send flow changes it: insert the user's
  message, call the AI action, then append the reply, an error bubble or an
  apology. The live feed, the initial load and the deferred refresh change it
  too. The list view drops null entries and entries without an id, keeps the
  first message for each id, and renders bubbles.
  - The state may hold an id twice, because the feed appends without
    checking.
  - The list view is the one place that guarantees each id is shown once.
    `ChatDisplay` proves this for every chat state, and so for whatever
    state any sequence of events leaves.
- **Message box** (`MessageInput`): submit gating, the Enter key, the button
  and the character counter.
- **Verification storage and cooldown** (`EmailVerificationStore`). The pending
  address and the send time are kept in a key-value store, modelled as a map
  from strings to strings. The one-minute resend cooldown is read back through
  `parseInt`, and both of its readings are modelled:
  - whether a resend is allowed;
  - the countdown in whole seconds.
- **Token freshness and auth errors** (`Auth`, `Apollo`):
  - when the access token is refreshed;
  - which GraphQL errors count as auth errors;
  - the headers sent;
  - which transport an operation takes;
  - when a failed operation is retried.
- **Views**:
  - the route table and the background refresh guards (`App`);
  - the verification-link page (`EmailVerificationView`);
  - the "check your email" screen (`VerificationPending`);
  - the dashboard (`Dashboard`);
  - the sidebar's message counts and user name (`Sidebar`).
- **E-mail templates** (`EmailTemplates`). The two verification e-mails are
  modelled as sequences of literal text, named passages of fixed copy, and
  input slots.

Shared definitions:
- `Base` holds `Option` and JavaScript truthiness. A missing value and the
  empty string are both falsy.
- `Text` holds `trim`, `includes`, `split(c)[0]`, number-to-text,
  `parseInt`, ASCII case mapping, and JavaScript's `length`, which counts
  UTF-16 code units.
- `Types` holds the `Message`, `Chat` and `User` records. A message id that is
  missing, `null` or empty is the empty string.

## Behaviour of the code worth knowing

- **Plain-string AI reply.** The action's reply may be a plain string or a
  message object. A plain string has neither `id` nor `content`, so the code
  appends nothing for it (`ChatInterface.ReplyMessages`).
- **Deferred re-fetch.** It is scheduled only when the action reports success.
  A failed action appends an error bubble and does not refresh.
- **Live feed.** It appends the first message of each event without looking
  for duplicates. The duplicate checks in the send flow read the list as it
  was when the send started, not after the user's message was appended.
- **List-view placeholder.** The test looks at the raw array. An array holding
  only null or id-less entries therefore shows an empty thread, not the
  placeholder.
- **Stored timestamp.** `storePendingVerificationEmail` is never called in the
  files modelled here. The page that resends reads the stored address, but
  nothing shown writes it.
  - The stored time is read with `parseInt`. An unreadable stamp gives `NaN`.
    It then blocks the resend, and the countdown is `NaN`. Both are modelled.
- **Apollo's error link.** It classifies errors more narrowly than
  `handleAuthError`. A bare 401 status is an auth error to the latter and is
  never forwarded by the former.

## Model

| member | source | states |
|---|---|---|
| `Base.OrElse` | src/App.tsx:18 | `x \|\| fallback` gives the value exactly when it is present and non-empty, else the fallback |
| `Text.Trim` | src/components/Chat/ChatInterface.tsx:103 | trimming gives the empty string exactly when every character is ECMAScript white space, and the result is a piece of the input |
| `Text.BeforeFirst` | src/components/Layout/Sidebar.tsx:198 | `split(c)[0]` is a prefix free of `c`, followed in the input by `c` unless it is all of it |
| `Text.ParseIntOfNatToString` | src/utils/emailVerification.ts:120 | `parseInt` reads a written send time back as the same number |
| `Text.Utf16LengthIff` | src/components/Chat/MessageInput.tsx:43 | JavaScript's `length` equals the number of characters exactly when none lies outside the Basic Multilingual Plane |
| `MessageList.Valid` | src/components/Chat/MessageList.tsx:31 | the first filter keeps only messages with an id and never grows the list |
| `MessageList.ValidMembership` | src/components/Chat/MessageList.tsx:31 | a message survives the first filter exactly when it is a non-null entry with an id |
| `MessageList.IndexOfId` | src/components/Chat/MessageList.tsx:34 | `findIndex` is the first position holding the id, or -1 when no position holds it |
| `MessageList.KeepFirstIsFirstSeen` | src/components/Chat/MessageList.tsx:32-35 | the positional `findIndex(...) === index` filter equals one pass that skips ids already shown |
| `MessageList.VisibleSpec` | src/components/Chat/MessageList.tsx:30-36 | the shown list has ids only and no id twice; it shows every valid id, keeps each id's first message, and preserves input order |
| `MessageList.VisibleIdempotent` | src/components/Chat/MessageList.tsx:30-36 | filtering the shown list again changes nothing |
| `MessageList.RenderBubble` | src/components/Chat/MessageList.tsx:51-65 | a message renders nothing exactly when its content is empty; bot messages align at the start and the user's at the end |
| `MessageList.Bubbles` | src/components/Chat/MessageList.tsx:36-38 | no rendered bubble is empty and there is at most one bubble per message |
| `MessageList.BubblesExact` | src/components/Chat/MessageList.tsx:36-38 | the bubbles are exactly the renderings of the messages that render something |
| `MessageList.Render` | src/components/Chat/MessageList.tsx:10-42 | the placeholder appears exactly for an empty array; the typing indicator appears exactly in the non-empty branch while loading |
| `MessageList.InvalidOnlyShowsEmptyThread` | src/components/Chat/MessageList.tsx:10-38 | an array of only null or id-less entries shows an empty thread, not the placeholder |
| `ChatInterface.ErrorBubble` | src/components/Chat/ChatInterface.tsx:171-178 | the failure bubble is a bot message of this chat with no user, reading "AI Response Error: " and then the error or "Unknown error" |
| `ChatInterface.ReplyMessages` | src/components/Chat/ChatInterface.tsx:139-162 | on success, a reply with an id is appended only if absent; content without an id becomes one bot message of this chat; anything else appends nothing |
| `ChatInterface.ActionStep` | src/components/Chat/ChatInterface.tsx:126-188 | the AI action appends at most one message and reports success exactly when `success` is true; a throw appends exactly the fixed apology, a reported failure exactly the error bubble for that response |
| `ChatInterface.UserRow` | src/components/Chat/ChatInterface.tsx:117-123 | the insert's row is appended exactly when it came back and its id is not among the messages shown when the send started |
| `ChatInterface.Appended` | src/components/Chat/ChatInterface.tsx:107-188 | a send appends at most two messages, only the apology when the insert throws, at least one unless the action succeeded, and each is a bot message, the inserted row or the reply object |
| `ChatInterface.HandleSend` | src/components/Chat/ChatInterface.tsx:102-192 | see the send-flow notes below the table |
| `ChatInterface.OnFeed` | src/components/Chat/ChatInterface.tsx:70-88 | a feed event appends exactly the payload's first message when it has an id, with no duplicate check, and changes nothing else |
| `ChatInterface.OnLoaded` | src/components/Chat/ChatInterface.tsx:51-60 | the initial load replaces the list with the fetched messages, or empties it when none came |
| `ChatInterface.OnLoadError` | src/components/Chat/ChatInterface.tsx:61-64 | a failed initial load empties the list |
| `ChatInterface.OnRefresh` | src/components/Chat/ChatInterface.tsx:26-46 | a refresh replaces the list only when messages came back; otherwise the state is unchanged |
| `ChatInterface.SendWhenInsertThrows` | src/components/Chat/ChatInterface.tsx:180-191 | if the insert throws, the AI is never asked, exactly the fixed apology is appended, loading ends and no refresh is scheduled |
| `ChatInterface.SendAppendsInOrder` | src/components/Chat/ChatInterface.tsx:117-179 | after an insert that returned, the new list is the old one, then the user's row if appended, then what the action step adds |
| `ChatInterface.SendAppendsRowUnlessShown` | src/components/Chat/ChatInterface.tsx:117-123 | the inserted row is appended right after the old list exactly when its id is not already shown |
| `ChatInterface.SendWhenActionFails` | src/components/Chat/ChatInterface.tsx:168-179 | an unsuccessful action appends the error bubble last and schedules no refresh |
| `ChatInterface.SendWhenActionThrows` | src/components/Chat/ChatInterface.tsx:126-191 | an action that throws after the insert returned leaves the old list, the user's row if appended, then the fixed apology; loading ends and no refresh is scheduled |
| `ChatInterface.SendWhenReplyUnusable` | src/components/Chat/ChatInterface.tsx:139-167 | a success whose reply is missing, a plain string, or has neither id nor content appends only the user's row, and still schedules the refresh |
| `ChatInterface.SendMakesUpBotReply` | src/components/Chat/ChatInterface.tsx:149-161 | a reply with content but no id leaves the list as the old list, the user's row if appended, and one synthesised bot message with that content, this chat and no user; the refresh is scheduled |
| `ChatDisplay.ShowsEachIdOnce` | src/components/Chat/MessageList.tsx:30-36 | in any chat state, each id held by a message is displayed exactly once, other ids never, in state order |
| `ChatDisplay.EchoedRowIsShownOnce` | src/components/Chat/ChatInterface.tsx:77-83 | a row returned by the insert and echoed by the feed is held twice in the state and displayed once |
| `MessageInput.Submit` | src/components/Chat/MessageInput.tsx:11-16 | the untrimmed text is sent exactly when it is not all white space and nothing is loading; the field then empties, otherwise it is unchanged; there is no length limit |
| `MessageInput.KeyPress` | src/components/Chat/MessageInput.tsx:18-23 | Enter without Shift submits, and every other key leaves the field as it is |
| `MessageInput.View` | src/components/Chat/MessageInput.tsx:30-54 | the input is disabled while loading; the button is disabled exactly for blank text or while loading; the counter reads back as the text's JavaScript length in UTF-16 code units |
| `MessageInput.CounterReadsLength` | src/components/Chat/MessageInput.tsx:43 | the counter reads back, through `parseInt`, as the text's length in UTF-16 code units |
| `MessageInput.CounterCountsCodeUnits` | src/components/Chat/MessageInput.tsx:43 | the counter equals the number of characters exactly when none lies outside the Basic Multilingual Plane |
| `MessageInput.EmojiCountsTwice` | src/components/Chat/MessageInput.tsx:43 | a single emoji counts as 2 |
| `MessageInput.ButtonMatchesSubmit` | src/components/Chat/MessageInput.tsx:51 | the send button is enabled exactly when clicking it would send |
| `MessageInput.SubmittedTextIsNotIgnored` | src/components/Chat/MessageInput.tsx:11-16 | whatever the box sends, the chat inserts, as the user's message with the text trimmed |
| `EmailVerificationStore.StorePending` | src/utils/emailVerification.ts:79-86 | storing sets the address and a stamp that reads back as the send time, and touches no other key |
| `EmailVerificationStore.GetPending` | src/utils/emailVerification.ts:91-98 | the stored address, absent exactly when the key is absent |
| `EmailVerificationStore.ClearData` | src/utils/emailVerification.ts:103-110 | clearing removes both keys and no other entry |
| `EmailVerificationStore.ReadStamp` | src/utils/emailVerification.ts:117-120 | a missing or empty stamp means "never sent"; otherwise it holds the number `parseInt` reads, or `NaN` |
| `EmailVerificationStore.CanResend` | src/utils/emailVerification.ts:115-129 | a missing or empty stamp allows a resend; a stamp `parseInt` cannot read blocks it; otherwise a resend is allowed exactly when at least 60000 ms have passed since the stamp |
| `EmailVerificationStore.CeilDiv` | src/utils/emailVerification.ts:144 | `Math.ceil(a / b)` is the least multiple count covering `a` |
| `EmailVerificationStore.ResendCountdown` | src/utils/emailVerification.ts:134-149 | the countdown is 0 without a stamp and `NaN` for an unreadable one; otherwise it is the remaining time rounded up to whole seconds, floored at 0 |
| `EmailVerificationStore.CountdownZeroIffCanResend` | src/utils/emailVerification.ts:115-149 | for the same storage and instant, the countdown is zero exactly when a resend is allowed |
| `EmailVerificationStore.CountdownZeroThenCanResendLater` | src/utils/emailVerification.ts:115-149 | a zero countdown read at one instant means a resend is allowed at any later instant |
| `EmailVerificationStore.ResendStaysAllowed` | src/utils/emailVerification.ts:115-149 | once allowed, a resend stays allowed at every later instant, with nothing left to wait |
| `EmailVerificationStore.CountdownAtMostAMinute` | src/utils/emailVerification.ts:13 | with a send time not in the future, the countdown is at most 60 seconds |
| `EmailVerificationStore.StoreThenGet` | src/utils/emailVerification.ts:79-98 | storing then reading gives back the address |
| `EmailVerificationStore.StoreRecordsStamp` | src/utils/emailVerification.ts:79-86 | the stamp written by a store reads back, through `parseInt`, as the send time |
| `EmailVerificationStore.StoreStartsCooldown` | src/utils/emailVerification.ts:79-129 | after a store at time t, a resend at time n is allowed exactly when n - t is at least 60000 |
| `EmailVerificationStore.ClearAllowsResend` | src/utils/emailVerification.ts:103-149 | after clearing, a resend is allowed, the countdown is 0 and no address is stored |
| `EmailVerificationStore.VerificationStatus` | src/utils/emailVerification.ts:63-74 | with no user, neither verified nor pending; otherwise pending is the negation of verified |
| `EmailVerificationStore.VerificationRequired` | src/utils/emailVerification.ts:55-74 | verification is required exactly when the status says pending |
| `EmailVerificationStore.SendVerificationEmail` | src/utils/emailVerification.ts:19-50 | success exactly when the provider accepted; otherwise its message, or a fixed text on an exception |
| `Auth.RefreshTokenIfNeeded` | src/utils/auth.ts:7-47 | see the token-refresh notes below the table |
| `Auth.KeptTokenIsFresh` | src/utils/auth.ts:18-31 | a token kept without refreshing is not expired and has at least 300 more seconds; an expired token with a readable expiry is refreshed |
| `Auth.TokenExpired` | src/utils/auth.ts:75-83 | a missing, zero or undecodable expiry counts as expired; a readable non-zero expiry is expired exactly when it, in milliseconds, is at or before now, and then the token is always within the refresh margin |
| `Auth.HandleAuthError` | src/utils/auth.ts:49-73 | while signed in, an auth-classified error causes one refresh; the result is true exactly when it worked, and sign-out happens exactly when it failed; otherwise nothing happens |
| `Auth.BearerOrEmpty` | src/utils/auth.ts:93 | "Bearer " and the token when it is present and non-empty, else the empty string |
| `Auth.GetAuthHeaders` | src/utils/auth.ts:85-95 | exactly one authorization header: empty when signed out, otherwise "Bearer " and the token `refreshTokenIfNeeded` returns (empty when that is none), with its refresh calls |
| `Auth.FreshTokenSentAsIs` | src/utils/auth.ts:85-95 | a token far from expiry is sent as "Bearer " and the token, without any refresh |
| `Apollo.AuthLink` | src/config/apollo.ts:30-66 | signed in, the auth headers override the incoming ones; signed out or on an exception, authorization is forced to empty; other headers are kept |
| `Apollo.WsHeaders` | src/config/apollo.ts:16-27 | the socket header is "Bearer " and the token when there is one, else empty |
| `Apollo.Route` | src/config/apollo.ts:109-119 | exactly subscription operations go over the socket, everything else over HTTP |
| `Apollo.ForwardedToAuth` | src/config/apollo.ts:69-101 | the link hands on exactly the errors with code UNAUTHENTICATED or an invalid-refresh-token message, and only while signed in |
| `Apollo.ForwardedToAuthSplits` | src/config/apollo.ts:71-78 | the errors are forwarded in the response's order: forwarding a response split in two gives the first part's forwarded errors followed by the rest's |
| `Apollo.ForwardedErrorsAreAuthErrors` | src/config/apollo.ts:78-83 | every forwarded error is auth-classified by `handleAuthError`, so it causes one refresh and a retry exactly when the refresh worked |
| `Apollo.StatusOnlyErrorIsNotForwarded` | src/config/apollo.ts:78 | an error with only a 401 status is an auth error to `handleAuthError` but is never forwarded |
| `Apollo.RetryHeaders` | src/config/apollo.ts:87-93 | the retry keeps the old headers and replaces authorization with "Bearer " and the current token |
| `Apollo.Retry` | src/config/apollo.ts:78-96 | a retry is requested exactly for an error the link itself recognises, while signed in, when the refresh worked; equivalently, exactly when the link forwards the error and `handleAuthError` reports a refresh |
| `Apollo.StatusOnlyErrorIsNotRetried` | src/config/apollo.ts:78-96 | an error with only a 401 status is never retried, whatever the refresh would do |
| `App.BaseUrl` | src/App.tsx:17-19 | the configured URL when set and non-empty, else the fixed default |
| `App.RouteKey` | src/App.tsx:89-108 | the form the router compares is the path up to its trailing slashes, case-folded, one slash for a run of slashes and empty only for the empty path |
| `App.PatternIsItsOwnKey` | src/App.tsx:89-108 | each route pattern matches itself |
| `App.Route` | src/App.tsx:78-108 | see the routing notes below the table |
| `App.ScreensMatchAuthState` | src/App.tsx:89-108 | no path shows the dashboard when signed out, nor the sign-in or verification screen when signed in |
| `App.RedirectsSettle` | src/App.tsx:89-108 | every redirect goes to the base followed by /dashboard when signed in and /auth otherwise; with an empty base it reaches the dashboard or the sign-in form in one step |
| `App.UnrootedTargetMatchesNothing` | src/App.tsx:89-108 | a path that does not begin with "/", such as an absolute URL, matches no route |
| `App.TrailingSlashesIgnored` | src/App.tsx:89-108 | appending slashes to a non-empty path does not change the screen |
| `App.MixedCaseDashboard` | src/App.tsx:95-98 | "/DashBoard//" shows the dashboard to a signed-in user |
| `App.RefreshOnlyWhileSignedIn` | src/App.tsx:43-76 | a token refresh fires exactly at ticks and visible-tab events where the provider says signed in and the last status change said signed in |
| `EmailVerificationView.Initial` | src/components/Auth/EmailVerification.tsx:11 | the page starts in the verifying state with no message |
| `EmailVerificationView.OnMount` | src/components/Auth/EmailVerification.tsx:22-85 | see the verification-link notes below the table |
| `EmailVerificationView.ErrorParamTakesPrecedence` | src/components/Auth/EmailVerification.tsx:29-49 | with an error in the link, the token and the provider's answer do not matter |
| `EmailVerificationView.HandleResend` | src/components/Auth/EmailVerification.tsx:87-113 | without a stored address it asks for one and sends nothing; otherwise one send, then the message is cleared or shows the error or a default |
| `EmailVerificationView.ResendFollowsStorage` | src/components/Auth/EmailVerification.tsx:91-96 | after storing an address the page sends; after clearing it asks for an address |
| `VerificationPending.Initial` | src/components/Auth/VerificationPending.tsx:13-18 | the screen starts processing, able to resend, with no message |
| `VerificationPending.Poll` | src/components/Auth/VerificationPending.tsx:21-29 | polling reads the countdown at one instant and the permission at a second; read at the same instant, the countdown is zero exactly when a resend is allowed, and a zero countdown comes with permission at any later second read; nothing else changes |
| `VerificationPending.PollCanDisagree` | src/components/Auth/VerificationPending.tsx:21-26 | when the two reads straddle the end of the cooldown, the screen shows one second left while a resend is already allowed |
| `VerificationPending.ProcessingDone` | src/components/Auth/VerificationPending.tsx:32-34 | the processing timer clears only the processing flag |
| `VerificationPending.HandleResend` | src/components/Auth/VerificationPending.tsx:42-64 | during the cooldown nothing happens; otherwise one send, success exactly when the provider accepted, else the provider's error or the fixed fallback text, and sending ends |
| `VerificationPending.CountdownText` | src/components/Auth/VerificationPending.tsx:167 | the printed countdown reads back as its seconds, or is "NaN" |
| `VerificationPending.ButtonLabel` | src/components/Auth/VerificationPending.tsx:154-174 | the label shows Sending, then Processing, then the wait, then Resend, in that order of precedence |
| `VerificationPending.EnabledIffResendLabel` | src/components/Auth/VerificationPending.tsx:149-174 | the button is enabled exactly when its label invites a resend |
| `VerificationPending.SupportLinkCannotBypassCooldown` | src/components/Auth/VerificationPending.tsx:212-215 | when the poll's permission read finds the cooldown running, the button is disabled, the support link stays clickable unless a send is running, and its handler sends nothing |
| `VerificationPending.BackToSignIn` | src/components/Auth/VerificationPending.tsx:66-75 | leaving clears the verification data, then uses the callback exactly when one was given, else goes to /auth |
| `VerificationPending.BackToSignInResetsCooldown` | src/components/Auth/VerificationPending.tsx:66-75 | after leaving, a poll finds a resend allowed with nothing to wait |
| `Dashboard.AutoSelect` | src/pages/Dashboard.tsx:24-28 | the first chat is selected when there are chats and nothing is selected; an existing selection is never overridden |
| `Dashboard.AutoSelectIdempotent` | src/pages/Dashboard.tsx:24-28 | running the selection effect again changes nothing |
| `Dashboard.HandleCreateChat` | src/pages/Dashboard.tsx:30-52 | see the chat-creation notes below the table |
| `Dashboard.View` | src/pages/Dashboard.tsx:54-136 | auth loading first, then signed out, then chats loading; the workspace appears exactly with chats and the empty state exactly with none (missing or empty list); the chat pane opens exactly on a selection |
| `Dashboard.WorkspaceOpensAChat` | src/pages/Dashboard.tsx:24-28 | after the effect, the workspace has a chat open: the chosen one, or else the first |
| `Dashboard.CreateNeedsQueryableUser` | src/pages/Dashboard.tsx:17-111 | a create issued from the empty state or the workspace, the only screens with a create button, comes from a signed-in user with an id, so the chat query for that user is not skipped |
| `Sidebar.InitCounts` | src/components/Layout/Sidebar.tsx:34-40 | the seeded counts have one key per chat id and no other |
| `Sidebar.InitCountsOfDistinct` | src/components/Layout/Sidebar.tsx:34-40 | with distinct ids, each chat's count is its number of messages (0 when absent) |
| `Sidebar.OnCountEvent` | src/components/Layout/Sidebar.tsx:43-56 | with no chat selected the feed is skipped and nothing changes; otherwise an event's first message bumps its chat's count by one, a missing one counting as 0, every other entry is unchanged, and an empty event changes nothing |
| `Sidebar.ApplyEventsCounts` | src/components/Layout/Sidebar.tsx:43-56 | after any events, a chat's count is its seeded count plus the messages the feed reported for it while a chat was selected, and just the seeded count while none was |
| `Sidebar.SkippedFeedChangesNothing` | src/components/Layout/Sidebar.tsx:43-46 | with no chat selected the counts stay exactly as seeded |
| `Sidebar.CountLabel` | src/components/Layout/Sidebar.tsx:177 | the label reads back through `parseInt` as the chat's count, 0 when absent; it ends in " message" exactly for a count of one and in " messages" otherwise; a missing entry shows "0 messages" |
| `Sidebar.LabelFacts` | src/components/Layout/Sidebar.tsx:177 | a count written with its suffix reads back as the count and ends in the singular suffix exactly for one, in the plural otherwise |
| `Sidebar.AvatarInitial` | src/components/Layout/Sidebar.tsx:193 | the upper-cased first character of the display name, else of the e-mail, else "U" |
| `Sidebar.ShownName` | src/components/Layout/Sidebar.tsx:198 | the display name when set; else, for an e-mail not starting with "@", its text before the first "@"; else "User"; never empty |
| `Sidebar.AvatarIsInitialOfName` | src/components/Layout/Sidebar.tsx:193-198 | unless the name fell back to "User", the avatar is the upper-cased first character of the shown name |
| `EmailTemplates.SlotAppears` | src/utils/emailTemplates.ts:14-186 | every interpolated input occurs verbatim (unescaped) in the rendered text |
| `EmailTemplates.VerificationEmail` | src/utils/emailTemplates.ts:14-18 | the subject is exactly "Verify your", the application name, then "account" |
| `EmailTemplates.ResendEmail` | src/utils/emailTemplates.ts:192-196 | the subject is exactly "New verification email for" and the application name |
| `EmailTemplates.HtmlCarriesInputs` | src/utils/emailTemplates.ts:136-156 | an HTML body with the link runs contains the link as an href target, the link as visible text, the support address as a mailto target, and every input |
| `EmailTemplates.VerificationEmailCarriesInputs` | src/utils/emailTemplates.ts:14-187 | the verification e-mail's HTML and text bodies carry all of the inputs |
| `EmailTemplates.ResendEmailCarriesInputs` | src/utils/emailTemplates.ts:192-345 | the resend e-mail's HTML and text bodies carry all of the inputs |

Notes on the rows marked "see the notes below the table":

- **`ChatInterface.HandleSend`**
  - Blank content changes nothing and sends nothing.
  - Otherwise the insert receives the trimmed text with `isBot` false.
  - The AI action receives the trimmed text, and only after an insert that
    returned.
  - The new list is the old one followed by what `ChatInterface.Appended`
    lists, so the old list stays a prefix.
  - New entries are bot messages, the inserted row or the reply.
  - Loading ends.
  - A refresh is scheduled exactly on success.
- **`Auth.RefreshTokenIfNeeded`**
  - Signed out: it returns nothing and does not refresh.
  - It refreshes once when there is no token.
  - It refreshes once when the token expires within 300 seconds.
  - The token it returns is the refreshed one, or the old one if the refresh
    failed.
  - A token with a missing or zero expiry is returned as is.
- **`App.Route`**
  - While loading, every path shows the loading screen.
  - A path matches a pattern when it is the pattern in any letter case
    followed by any number of slashes (`App.RouteKey`).
  - The dashboard appears exactly at /dashboard when signed in.
  - The sign-in form appears exactly at /auth when signed out.
  - The verification page appears exactly at /verify-email when signed out.
  - "/" always redirects.
  - A redirect happens exactly in four cases: at "/", at /dashboard when
    signed out (to the base URL followed by /auth), and at /auth or
    /verify-email when signed in (to the base URL followed by /dashboard).
  - Any other path matches no route and shows nothing.
  - Redirects go to the base URL followed by /dashboard or /auth.
- **`EmailVerificationView.OnMount`**
  - Signed in: it navigates to /dashboard and stays in the verifying state.
  - An error in the link gives the expired state exactly when the error
    contains "expired" or "invalid"; otherwise it gives the failed state with
    the error.
  - No token gives the failed state.
  - Otherwise it succeeds exactly when the provider then reports signed in.
- **`Dashboard.HandleCreateChat`**
  - It does nothing while a create runs or without a user id.
  - Otherwise it issues one create.
  - A returned chat becomes the selection, and the list is refetched.
  - On failure the selection is unchanged.
  - The progress flag ends false.

## Left out

- Network and provider calls are not modelled. Their results are parameters:
  - the nhost auth calls;
  - GraphQL queries, mutations and subscriptions;
  - `nhost.auth.resend`;
  - the webhooks in `src/components/Auth/AuthForm.tsx` and `src/config/bolt.ts`.
- Apollo's link composition is not modelled: `setContext`, `onError`, `split`,
  `from`, and the fire-and-forget `forward(operation)`. Only the decisions are.
- Timers, intervals and event listeners are replaced by explicit steps, for
  example `VerificationPending.Poll` and `App.SchedulerEvent`. This covers the
  refresh delay, the two-second waits, and the five-second hiding of the
  success note.
- JWT decoding is abstracted to an optional expiry in seconds. `None` stands
  for a token that does not decode or has no `exp`.
- The clock, random ids and locale formatting are parameters (`Generated`,
  `now`). Dates are opaque strings.
- Exceptions from browser storage are not modelled. The `try`/`catch` around
  each storage call only logs. `canResendVerification` would answer true and
  `getResendCountdown` 0 in that case, and the model does not include that.
- React state batching and concurrent sends are not modelled. Sends are
  sequential, and each send's duplicate checks read the list as it was when
  that send began.
- The debug logging effect in src/App.tsx:22-40 only logs.
- These flags are not modelled: `isVerifying` in EmailVerification,
  `isCreating` in Sidebar, and `isSidebarOpen` in Dashboard. Sign-out, themes
  and scrolling are not modelled either. None of them decides anything
  modelled here.
- Presentational markup, the GraphQL documents, the transport URLs and the
  rest of `AuthForm.tsx` are not part of this model.
- `sendVerificationEmail` builds the template inputs but only logs them, so
  that step is left out.
- `EmailTemplates`: the style sheets are opaque constants, and the layout white
  space inside the template literals is simplified. The claims are about where
  the inputs appear, not about the exact boilerplate text.
- Auth.RefreshTokenIfNeeded: does not model an exception escaping the
  provider's `isAuthenticated` or `getAccessToken`, which the outer `catch`
  turns into `null`.
- Sidebar.AvatarInitial: upper-cases ASCII letters only. JavaScript's
  `toUpperCase` also maps other scripts; full Unicode case mapping is out of
  scope. The model takes the first character, where `displayName[0]` takes
  the first UTF-16 code unit; for a name starting outside the Basic
  Multilingual Plane that unit is a lone surrogate, which a Dafny `char`
  cannot hold.
- App.RedirectsSettle: how the router resolves a redirect whose target does
  not begin with "/" is not modelled. With the default base the target is an
  absolute URL, and `App.UnrootedTargetMatchesNothing` only says that, read as
  a path, it matches no route.
- Sidebar: the `if (!isAuthenticated) return null` guard (Sidebar.tsx:69) only
  decides whether the markup is drawn, and the markup is not modelled.
- App.Route: percent-encoded characters are not decoded before matching.
  The router decodes them first, so a path such as /%64ashboard is not
  matched by the model.
- Numbers are exact integers here, where the source computes with IEEE
  doubles. This covers stored timestamps read by `parseInt`, `now - lastSent`,
  `Math.ceil(remaining / 1000)`, the character counter and the message counts.
  The two agree only below 2^53. For example, a stored stamp of twenty digits
  is rounded by `parseInt` in the source but read exactly by `Text.ParseInt`,
  so `EmailVerificationStore.ResendCountdown` and the "Wait …s" text can
  differ for it.
- Apollo.ForwardedToAuth: a GraphQL error without a message is treated as not
  matching. The code would throw on it, but GraphQL errors always carry a
  message.
- Sidebar.InitCounts: states which keys exist. The values are given by
  `Sidebar.InitCountsOfDistinct` for chat lists with distinct ids. With
  repeated ids the later chat's count wins, and that is not stated.
