/** The dashboard page (src/pages/Dashboard.tsx): automatic selection of the
    first chat, the guarded "new chat" handler, the precedence of the page's
    screens and when the chat list query runs. The selected chat id is an
    optional string tested for truthiness, as the page does. */
module Dashboard {
  import opened Base
  import opened Types

  /** The selection after the auto-select effect: the first chat's id when
      there are chats and nothing (truthy) is selected. */
  function AutoSelect(chats: Option<seq<Chat>>, selected: Option<string>): (r: Option<string>)
    ensures Truthy(selected) ==> r == selected
    ensures !Truthy(selected) && chats.Some? && |chats.value| > 0 ==> r == Some(chats.value[0].id)
    ensures !Truthy(selected) && (chats.None? || |chats.value| == 0) ==> r == selected
  {
    if chats.Some? && |chats.value| > 0 && !Truthy(selected) then Some(chats.value[0].id) else selected
  }

  /** Running the effect again changes nothing. */
  lemma AutoSelectIdempotent(chats: Option<seq<Chat>>, selected: Option<string>)
    ensures AutoSelect(chats, AutoSelect(chats, selected)) == AutoSelect(chats, selected)
  {
  }

  datatype CreateOutcome = CreateThrows | CreateReturns(chat: Option<Chat>)

  /** The selection and progress flag after `handleCreateChat`, with the
      mutations and refetches it issued. */
  datatype Created = Created(selected: Option<string>, isCreating: bool, mutationCalls: nat, refetchCalls: nat)

  function HandleCreateChat(isCreating: bool, userId: Option<string>, selected: Option<string>,
                            outcome: CreateOutcome): (r: Created)
    ensures isCreating || !Truthy(userId) ==> r == Created(selected, isCreating, 0, 0)
    ensures !isCreating && Truthy(userId) ==> !r.isCreating && r.mutationCalls == 1
    ensures !isCreating && Truthy(userId) && outcome.CreateReturns? && outcome.chat.Some? ==>
      r.selected == Some(outcome.chat.value.id) && r.refetchCalls == 1
    ensures !(outcome.CreateReturns? && outcome.chat.Some?) ==> r.selected == selected && r.refetchCalls == 0
  {
    if isCreating || !Truthy(userId) then Created(selected, isCreating, 0, 0)
    else match outcome
      case CreateReturns(Some(chat)) => Created(Some(chat.id), false, 1, 1)
      case _ => Created(selected, false, 1, 0)
  }

  /** What occupies the chat area next to the sidebar. */
  datatype ChatPane = ChatOpen(chatId: string) | SelectPrompt

  datatype Page =
    | VerifyingAuth
    | AuthRequired
    | LoadingChats
    | EmptyStatePage
    | Workspace(chats: seq<Chat>, pane: ChatPane)

  /** The page's screens, in the order the component tests for them. */
  function View(authLoading: bool, isAuthenticated: bool, chatsLoading: bool,
                chats: Option<seq<Chat>>, selected: Option<string>): (p: Page)
    ensures authLoading ==> p == VerifyingAuth
    ensures !authLoading && !isAuthenticated ==> p == AuthRequired
    ensures !authLoading && isAuthenticated && chatsLoading ==> p == LoadingChats
    ensures p.Workspace? <==> !authLoading && isAuthenticated && !chatsLoading && chats.Some? && |chats.value| > 0
    ensures p == EmptyStatePage <==> !authLoading && isAuthenticated && !chatsLoading && (chats.None? || |chats.value| == 0)
    ensures p.Workspace? ==> p.chats == chats.value && (p.pane.ChatOpen? <==> Truthy(selected))
    ensures p.Workspace? && Truthy(selected) ==> p.pane.chatId == selected.value
  {
    if authLoading then VerifyingAuth
    else if !isAuthenticated then AuthRequired
    else if chatsLoading then LoadingChats
    else
      var list := chats.GetOr([]);
      if |list| == 0 then EmptyStatePage
      else Workspace(list, if Truthy(selected) then ChatOpen(selected.value) else SelectPrompt)
  }

  /** Once the effect has run, a workspace whose first chat has an id always
      has a chat open, and a chosen chat is never replaced. */
  lemma WorkspaceOpensAChat(chats: seq<Chat>, selected: Option<string>)
    requires |chats| > 0 && chats[0].id != ""
    ensures var p := View(false, true, false, Some(chats), AutoSelect(Some(chats), selected));
      p.Workspace? && p.pane.ChatOpen?
      && p.pane.chatId == (if Truthy(selected) then selected.value else chats[0].id)
  {
  }

  /** The chat list query is skipped unless signed in with a user id. */
  predicate QuerySkipped(isAuthenticated: bool, userId: Option<string>) {
    !isAuthenticated || !Truthy(userId)
  }

  /** The create buttons are shown only on the empty state and in the
      workspace, both of which need a signed-in user; a create that goes out
      from either also needs a user id, so the chat list query is running
      for the same user whenever a chat is created. */
  lemma CreateNeedsQueryableUser(authLoading: bool, isAuthenticated: bool, chatsLoading: bool,
                                 chats: Option<seq<Chat>>, isCreating: bool, userId: Option<string>,
                                 selected: Option<string>, outcome: CreateOutcome)
    requires var p := View(authLoading, isAuthenticated, chatsLoading, chats, selected);
      p == EmptyStatePage || p.Workspace?
    requires HandleCreateChat(isCreating, userId, selected, outcome).mutationCalls > 0
    ensures !QuerySkipped(isAuthenticated, userId)
  {
  }
}
