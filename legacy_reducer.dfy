/** The application state of the older client and its reducer
    (src/contexts/AppContext.tsx). It has fewer cases than the newer one:
    actions it declares but does not handle fall through to `default`. */
module LegacyReducer {

  import opened Wrappers
  import opened ChatTypes
  import opened ConversationList

  /** The prompt settings; the older client's initial state also carries a
      user-prompt template. */
  datatype PromptConfig = PromptConfig(systemPrompt: string, userPromptTemplate: string)

  /** `apiConfig` starts as `null`. */
  datatype AppState = AppState(
    conversations: seq<Conversation>,
    currentConversationId: Option<string>,
    apiConfig: Option<ApiConfig>,
    promptConfig: PromptConfig,
    theme: Theme,
    sidebarCollapsed: bool,
    promptPanelCollapsed: bool)

  /** The `Partial<AppState>` payload of LOAD_STATE: `None` is a field the
      saved state does not have. */
  datatype Loaded = Loaded(
    conversations: Option<seq<Conversation>>,
    currentConversationId: Option<Option<string>>,
    apiConfig: Option<Option<ApiConfig>>,
    promptConfig: Option<PromptConfig>,
    theme: Option<Theme>,
    sidebarCollapsed: Option<bool>,
    promptPanelCollapsed: Option<bool>)

  datatype Action =
    | AddConversation(conversation: Conversation)
    | DeleteConversation(id: string)
    | UpdateConversation(conversation: Conversation)
    | SetCurrentConversation(currentId: Option<string>)
    | AddMessage(conversationId: string, message: Message)
    | UpdateMessage(conversationId: string, messageId: string, content: string)
    | UpdateConversationTitle(conversationId: string, title: string)
    | DeleteMessagesAfter(conversationId: string, messageId: string)
    | ClearConversation(id: string)
    | TogglePinConversation(id: string)
    | SetApiConfig(apiConfig: ApiConfig)
    | SetPromptConfig(promptConfig: PromptConfig)
    | SetTheme(theme: Theme)
    | ToggleSidebar
    | TogglePromptPanel
    | ToggleApiConfigPanel
    | LoadState(loaded: Loaded)

  const DEFAULT_SYSTEM_PROMPT: string := "You are a helpful AI assistant."
  const DEFAULT_USER_TEMPLATE: string := "{{user_input}}"

  function InitialState(): (s: AppState)
    ensures s.conversations == [] && s.currentConversationId.None? && s.apiConfig.None?
    ensures s.promptConfig.userPromptTemplate == DEFAULT_USER_TEMPLATE
  {
    AppState([], None, None, PromptConfig(DEFAULT_SYSTEM_PROMPT, DEFAULT_USER_TEMPLATE), Light, false, true)
  }

  /** `{...state, ...payload}`. */
  function Overlay(s: AppState, p: Loaded): AppState {
    AppState(
      p.conversations.GetOr(s.conversations),
      p.currentConversationId.GetOr(s.currentConversationId),
      p.apiConfig.GetOr(s.apiConfig),
      p.promptConfig.GetOr(s.promptConfig),
      p.theme.GetOr(s.theme),
      p.sidebarCollapsed.GetOr(s.sidebarCollapsed),
      p.promptPanelCollapsed.GetOr(s.promptPanelCollapsed))
  }

  /** `appReducer(state, action)` of the older client. */
  function Reduce(s: AppState, a: Action, now: int): AppState {
    match a
    case AddConversation(c) =>
      s.(conversations := s.conversations + [c], currentConversationId := Some(c.id))
    case DeleteConversation(id) =>
      s.(conversations := Without(s.conversations, id),
         currentConversationId :=
           if s.currentConversationId == Some(id) then FirstOtherId(s.conversations, id)
           else s.currentConversationId)
    case UpdateConversation(c) =>
      s.(conversations := MapWhere(s.conversations, c.id, _ => c))
    case SetCurrentConversation(id) =>
      s.(currentConversationId := id)
    case AddMessage(cid, m) =>
      s.(conversations := MapWhere(s.conversations, cid,
           (c: Conversation) => c.(messages := c.messages + [m], updatedAt := now)))
    case UpdateMessage(cid, mid, content) =>
      s.(conversations := MapWhere(s.conversations, cid,
           (c: Conversation) => c.(messages := MapMessagesWhere(c.messages, mid, (m: Message) => m.(content := content)), updatedAt := now)))
    case ClearConversation(id) =>
      s.(conversations := MapWhere(s.conversations, id,
           (c: Conversation) => c.(messages := [], updatedAt := now)))
    case SetApiConfig(cfg) => s.(apiConfig := Some(cfg))
    case SetPromptConfig(cfg) => s.(promptConfig := cfg)
    case SetTheme(t) => s.(theme := t)
    case ToggleSidebar => s.(sidebarCollapsed := !s.sidebarCollapsed)
    case TogglePromptPanel => s.(promptPanelCollapsed := !s.promptPanelCollapsed)
    case LoadState(p) => Overlay(s, p)
    case _ => s
  }

  // ---------------------------------------------------------------------
  // Properties of the reducer, case by case.

  /** ADD_CONVERSATION appends the conversation and selects it. */
  lemma AddConversationAppends(s: AppState, c: Conversation, now: int)
    ensures var r := Reduce(s, AddConversation(c), now);
      r.conversations == s.conversations + [c] && c in r.conversations
      && r.currentConversationId == Some(c.id)
      && r.(conversations := s.conversations, currentConversationId := s.currentConversationId) == s
  {
  }

  /** DELETE_CONVERSATION drops the id; the selection moves to the first
      other conversation (or none) only when the deleted conversation was
      selected. */
  lemma DeleteConversationRemoves(s: AppState, id: string, now: int)
    ensures var r := Reduce(s, DeleteConversation(id), now);
      (forall c :: c in r.conversations <==> c in s.conversations && c.id != id)
      && (s.currentConversationId == Some(id) ==>
            r.currentConversationId == FirstOtherId(s.conversations, id) && r.currentConversationId != Some(id))
      && (s.currentConversationId != Some(id) ==> r.currentConversationId == s.currentConversationId)
      && r.(conversations := s.conversations, currentConversationId := s.currentConversationId) == s
  {
  }

  /** UPDATE_CONVERSATION replaces the matching conversations wholesale. */
  lemma UpdateConversationReplaces(s: AppState, c: Conversation, now: int)
    ensures var r := Reduce(s, UpdateConversation(c), now);
      |r.conversations| == |s.conversations|
      && (forall i :: 0 <= i < |s.conversations| ==>
            r.conversations[i] == if s.conversations[i].id == c.id then c else s.conversations[i])
      && r.(conversations := s.conversations) == s
  {
  }

  /** ADD_MESSAGE appends only to the target; UPDATE_MESSAGE changes only the
      content of the matching message of the target. Both stamp the target
      and change nothing else. */
  lemma MessageActionsTargetOne(s: AppState, cid: string, mid: string, m: Message, content: string, now: int)
    ensures var r := Reduce(s, AddMessage(cid, m), now);
      |r.conversations| == |s.conversations|
      && (forall i :: 0 <= i < |s.conversations| ==>
            if s.conversations[i].id == cid
            then r.conversations[i] == s.conversations[i].(messages := s.conversations[i].messages + [m], updatedAt := now)
            else r.conversations[i] == s.conversations[i])
      && r.(conversations := s.conversations) == s
    ensures var r := Reduce(s, UpdateMessage(cid, mid, content), now);
      |r.conversations| == |s.conversations|
      && (forall i :: 0 <= i < |s.conversations| && s.conversations[i].id != cid ==>
            r.conversations[i] == s.conversations[i])
      && (forall i :: 0 <= i < |s.conversations| && s.conversations[i].id == cid ==>
            r.conversations[i].(messages := s.conversations[i].messages) == s.conversations[i].(updatedAt := now)
            && |r.conversations[i].messages| == |s.conversations[i].messages|
            && (forall j :: 0 <= j < |s.conversations[i].messages| ==>
                  r.conversations[i].messages[j] ==
                    if s.conversations[i].messages[j].id == mid
                    then s.conversations[i].messages[j].(content := content)
                    else s.conversations[i].messages[j]))
      && r.(conversations := s.conversations) == s
  {
  }

  /** CLEAR_CONVERSATION empties the target only, and (unlike the newer
      reducer) keeps its manual-rename mark. */
  lemma ClearEmptiesTargetOnly(s: AppState, id: string, now: int)
    ensures var r := Reduce(s, ClearConversation(id), now);
      |r.conversations| == |s.conversations|
      && (forall i :: 0 <= i < |s.conversations| ==>
            if s.conversations[i].id == id
            then r.conversations[i] == s.conversations[i].(messages := [], updatedAt := now)
            else r.conversations[i] == s.conversations[i])
      && r.(conversations := s.conversations) == s
  {
  }

  /** LOAD_STATE lays the payload over the state: a field the payload has
      wins, a field it lacks keeps its value; an empty payload changes
      nothing. */
  lemma LoadStateOverlays(s: AppState, p: Loaded, now: int)
    ensures var r := Reduce(s, LoadState(p), now);
      (p.conversations.Some? ==> r.conversations == p.conversations.value)
      && (p.conversations.None? ==> r.conversations == s.conversations)
      && (p.currentConversationId.Some? ==> r.currentConversationId == p.currentConversationId.value)
      && (p.currentConversationId.None? ==> r.currentConversationId == s.currentConversationId)
      && (p.apiConfig.Some? ==> r.apiConfig == p.apiConfig.value)
      && (p.apiConfig.None? ==> r.apiConfig == s.apiConfig)
      && (p.promptConfig.Some? ==> r.promptConfig == p.promptConfig.value)
      && (p.promptConfig.None? ==> r.promptConfig == s.promptConfig)
      && (p.theme.Some? ==> r.theme == p.theme.value)
      && (p.theme.None? ==> r.theme == s.theme)
      && (p.sidebarCollapsed.Some? ==> r.sidebarCollapsed == p.sidebarCollapsed.value)
      && (p.sidebarCollapsed.None? ==> r.sidebarCollapsed == s.sidebarCollapsed)
      && (p.promptPanelCollapsed.Some? ==> r.promptPanelCollapsed == p.promptPanelCollapsed.value)
      && (p.promptPanelCollapsed.None? ==> r.promptPanelCollapsed == s.promptPanelCollapsed)
    ensures Reduce(s, LoadState(Loaded(None, None, None, None, None, None, None)), now) == s
  {
  }

  /** TOGGLE_SIDEBAR and TOGGLE_PROMPT_PANEL are involutions; the actions
      this reducer declares but has no case for leave the state as it is. */
  lemma TogglesAndUnhandled(s: AppState, a: Action, now: int)
    ensures (a.ToggleSidebar? || a.TogglePromptPanel?) ==> Reduce(Reduce(s, a, now), a, now) == s
    ensures (a.UpdateConversationTitle? || a.DeleteMessagesAfter? || a.TogglePinConversation? || a.ToggleApiConfigPanel?)
      ==> Reduce(s, a, now) == s
  {
  }
}
