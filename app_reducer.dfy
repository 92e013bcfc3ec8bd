/** The application state of the newer client and its reducer
    (frontend/src/contexts/AppContext.tsx). `Date.now()` is the parameter
    `now`. */
module AppReducer {

  import opened Wrappers
  import opened ChatTypes
  import opened ConversationList

  datatype PromptConfig = PromptConfig(systemPrompt: string)

  datatype AppState = AppState(
    conversations: seq<Conversation>,
    currentConversationId: Option<string>,
    apiConfig: ApiConfig,
    promptConfig: PromptConfig,
    n8nConfig: N8NConfig,
    useN8N: bool,
    theme: Theme,
    sidebarCollapsed: bool,
    promptPanelCollapsed: bool,
    apiConfigPanelCollapsed: bool,
    settingsPanelCollapsed: bool,
    editingMessageId: Option<string>,
    user: Option<User>,
    isPro: bool)

  /** The API settings of a saved state as they were loaded: `provider` is
      `""` when it is missing and `apiKeys` is `None` when the object is
      missing. */
  datatype LoadedApiConfig = LoadedApiConfig(provider: string, apiKeys: Option<map<string, string>>, legacyKey: string)

  /** The `Partial<AppState>` payload of LOAD_STATE: `None` is a field the
      saved state does not have. `user` is `None` for a missing or `null`
      user, `isPro` is `false` for a missing or `false` flag (the reducer
      reads both through `||`). */
  datatype Loaded = Loaded(
    conversations: Option<seq<Conversation>>,
    currentConversationId: Option<Option<string>>,
    apiConfig: Option<LoadedApiConfig>,
    promptConfig: Option<PromptConfig>,
    n8nConfig: Option<N8NConfig>,
    useN8N: Option<bool>,
    theme: Option<Theme>,
    sidebarCollapsed: Option<bool>,
    promptPanelCollapsed: Option<bool>,
    apiConfigPanelCollapsed: Option<bool>,
    settingsPanelCollapsed: Option<bool>,
    editingMessageId: Option<Option<string>>,
    user: Option<User>,
    isPro: bool)

  datatype Action =
    | AddConversation(conversation: Conversation)
    | DeleteConversation(id: string)
    | UpdateConversation(conversation: Conversation)
    | TogglePinConversation(id: string)
    | SetCurrentConversation(currentId: Option<string>)
    | AddMessage(conversationId: string, message: Message)
    | UpdateMessage(conversationId: string, messageId: string, content: string)
    | SetMessageStreaming(conversationId: string, messageId: string, isStreaming: bool)
    | UpdateConversationTitle(conversationId: string, title: string)
    | DeleteMessagesAfter(conversationId: string, messageId: string)
    | ClearConversation(id: string)
    | SetApiConfig(apiConfig: ApiConfig)
    | SetPromptConfig(promptConfig: PromptConfig)
    | SetN8NConfig(n8nConfig: N8NConfig)
    | SetUseN8N(useN8N: bool)
    | SetTheme(theme: Theme)
    | ToggleSidebar
    | TogglePromptPanel
    | ToggleApiConfigPanel
    | ToggleSettingsPanel
    | SetUser(user: Option<User>)
    | SetProStatus(isPro: bool)
    | LoadState(loaded: Loaded)
    | ToggleMessageThinkingCollapsed(conversationId: string, messageId: string)

  const DEFAULT_N8N_CONFIG: N8NConfig := N8NConfig("", "webhook", Some("POST"), Some(""), None)

  /** The state the client starts from; `systemPrompt` is the default
      prompt, which comes from outside this model. */
  function InitialState(systemPrompt: string): (s: AppState)
    ensures s.conversations == [] && s.currentConversationId.None?
    ensures s.apiConfig.provider == ZHIPU && SavedKey(s.apiConfig.apiKeys, ZHIPU) == DEFAULT_ZHIPU_KEY
    ensures !s.useN8N && s.theme == Dark && !s.isPro && s.user.None?
  {
    AppState([], None, ApiConfig(ZHIPU, map[ZHIPU := DEFAULT_ZHIPU_KEY], ""), PromptConfig(systemPrompt),
             DEFAULT_N8N_CONFIG, false, Dark, true, true, true, true, None, None, false)
  }

  /** The API settings after LOAD_STATE's repairs. */
  function RepairApiConfig(loaded: Option<LoadedApiConfig>): (r: ApiConfig)
    ensures r.provider != "" && SavedKey(r.apiKeys, ZHIPU) != ""
    ensures loaded.Some? && loaded.value.provider != "" ==> r.provider == loaded.value.provider
    ensures loaded.Some? && loaded.value.apiKeys.Some? ==>
      forall k :: k != ZHIPU ==> SavedKey(r.apiKeys, k) == SavedKey(loaded.value.apiKeys.value, k)
    ensures loaded.Some? && loaded.value.apiKeys.Some? && SavedKey(loaded.value.apiKeys.value, ZHIPU) != "" ==>
      r.apiKeys == loaded.value.apiKeys.value
  {
    match loaded
    case None => ApiConfig(ZHIPU, map[ZHIPU := DEFAULT_ZHIPU_KEY], "")
    case Some(c) =>
      var provider := if c.provider == "" then ZHIPU else c.provider;
      var keys :=
        match c.apiKeys
        case None => map[ZHIPU := DEFAULT_ZHIPU_KEY]
        case Some(ks) => if SavedKey(ks, ZHIPU) == "" then ks[ZHIPU := DEFAULT_ZHIPU_KEY] else ks;
      ApiConfig(provider, keys, c.legacyKey)
  }

  /** LOAD_STATE: the payload, repaired, laid over the current state, with no
      conversation selected. */
  function Load(s: AppState, p: Loaded): AppState {
    AppState(
      if p.conversations.Some? then StopStreaming(p.conversations.value) else s.conversations,
      None,
      RepairApiConfig(p.apiConfig),
      p.promptConfig.GetOr(s.promptConfig),
      p.n8nConfig.GetOr(DEFAULT_N8N_CONFIG),
      p.useN8N.GetOr(false),
      p.theme.GetOr(s.theme),
      p.sidebarCollapsed.GetOr(s.sidebarCollapsed),
      p.promptPanelCollapsed.GetOr(s.promptPanelCollapsed),
      p.apiConfigPanelCollapsed.GetOr(s.apiConfigPanelCollapsed),
      p.settingsPanelCollapsed.GetOr(s.settingsPanelCollapsed),
      p.editingMessageId.GetOr(s.editingMessageId),
      p.user,
      p.isPro)
  }

  /** `appReducer(state, action)`. */
  function Reduce(s: AppState, a: Action, now: int): AppState {
    match a
    case AddConversation(c) =>
      s.(conversations := s.conversations + [c], currentConversationId := Some(c.id))
    case DeleteConversation(id) =>
      s.(conversations := Without(s.conversations, id),
         currentConversationId :=
           if s.currentConversationId == Some(id) then FirstOtherId(s.conversations, id)
           else s.currentConversationId)
    case UpdateConversation(c) =>
      s.(conversations := MapWhere(s.conversations, c.id, _ => c))
    case TogglePinConversation(id) =>
      s.(conversations := MapWhere(s.conversations, id, (c: Conversation) => c.(isPinned := !c.isPinned)))
    case SetCurrentConversation(id) =>
      s.(currentConversationId := id)
    case AddMessage(cid, m) =>
      s.(conversations := MapWhere(s.conversations, cid,
           (c: Conversation) => c.(messages := c.messages + [m], updatedAt := now)))
    case UpdateMessage(cid, mid, content) =>
      s.(conversations := MapWhere(s.conversations, cid,
           (c: Conversation) => c.(messages := MapMessagesWhere(c.messages, mid, (m: Message) => m.(content := content)), updatedAt := now)))
    case SetMessageStreaming(cid, mid, on) =>
      s.(conversations := MapWhere(s.conversations, cid,
           (c: Conversation) => c.(messages := MapMessagesWhere(c.messages, mid, (m: Message) => m.(isStreaming := on)), updatedAt := now)))
    case UpdateConversationTitle(cid, title) =>
      s.(conversations := MapWhere(s.conversations, cid,
           (c: Conversation) => if c.isManuallyRenamed then c else c.(name := title, updatedAt := now)))
    case DeleteMessagesAfter(cid, mid) =>
      s.(conversations := MapWhere(s.conversations, cid, (c: Conversation) => KeepThrough(c, mid, now)))
    case ClearConversation(id) =>
      s.(conversations := MapWhere(s.conversations, id,
           (c: Conversation) => c.(messages := [], updatedAt := now, isManuallyRenamed := false)))
    case SetApiConfig(cfg) => s.(apiConfig := cfg)
    case SetPromptConfig(cfg) => s.(promptConfig := cfg)
    case SetN8NConfig(cfg) => s.(n8nConfig := cfg)
    case SetUseN8N(on) => s.(useN8N := on)
    case SetTheme(t) => s.(theme := t)
    case ToggleSidebar => s.(sidebarCollapsed := !s.sidebarCollapsed)
    case TogglePromptPanel => s.(promptPanelCollapsed := !s.promptPanelCollapsed)
    case ToggleApiConfigPanel => s.(apiConfigPanelCollapsed := !s.apiConfigPanelCollapsed)
    case ToggleSettingsPanel => s.(settingsPanelCollapsed := !s.settingsPanelCollapsed)
    case SetUser(u) => s.(user := u, isPro := u.Some? && u.value.isPro)
    case SetProStatus(on) =>
      s.(isPro := on, user := if s.user.Some? then Some(s.user.value.(isPro := on)) else None)
    case LoadState(p) => Load(s, p)
    case ToggleMessageThinkingCollapsed(_, _) => s
  }

  // ---------------------------------------------------------------------
  // Properties of the reducer, case by case.

  /** ADD_CONVERSATION appends the conversation and selects it; nothing
      else changes. */
  lemma AddConversationAppends(s: AppState, c: Conversation, now: int)
    ensures var r := Reduce(s, AddConversation(c), now);
      |r.conversations| == |s.conversations| + 1
      && r.conversations[..|s.conversations|] == s.conversations
      && r.conversations[|s.conversations|] == c
      && r.currentConversationId == Some(c.id)
      && r.(conversations := s.conversations, currentConversationId := s.currentConversationId) == s
  {
    var r := Reduce(s, AddConversation(c), now);
    assert r.conversations[..|s.conversations|] == s.conversations;
  }

  /** DELETE_CONVERSATION drops every conversation with the id and keeps the
      rest; the selection moves to the first other conversation (or none)
      only when the deleted one was selected. */
  lemma DeleteConversationRemoves(s: AppState, id: string, now: int)
    ensures var r := Reduce(s, DeleteConversation(id), now);
      (forall c :: c in r.conversations <==> c in s.conversations && c.id != id)
      && (s.currentConversationId == Some(id) ==>
            r.currentConversationId == FirstOtherId(s.conversations, id) && r.currentConversationId != Some(id))
      && (s.currentConversationId != Some(id) ==> r.currentConversationId == s.currentConversationId)
      && r.(conversations := s.conversations, currentConversationId := s.currentConversationId) == s
  {
  }

  /** UPDATE_CONVERSATION replaces the conversations with the payload's id
      wholesale and leaves the others as they are. */
  lemma UpdateConversationReplaces(s: AppState, c: Conversation, now: int)
    ensures var r := Reduce(s, UpdateConversation(c), now);
      |r.conversations| == |s.conversations|
      && (forall i :: 0 <= i < |s.conversations| ==>
            r.conversations[i] == if s.conversations[i].id == c.id then c else s.conversations[i])
      && r.(conversations := s.conversations) == s
  {
  }

  /** TOGGLE_PIN_CONVERSATION flips `isPinned` of the matching
      conversations, and doing it twice restores the state. */
  lemma TogglePinTwice(s: AppState, id: string, now: int)
    ensures var r := Reduce(s, TogglePinConversation(id), now);
      (forall i :: 0 <= i < |s.conversations| && s.conversations[i].id == id ==>
         r.conversations[i] == s.conversations[i].(isPinned := !s.conversations[i].isPinned))
      && Reduce(r, TogglePinConversation(id), now) == s
  {
    var r := Reduce(s, TogglePinConversation(id), now);
    var r2 := Reduce(r, TogglePinConversation(id), now);
    assert r2.conversations == s.conversations;
  }

  /** ADD_MESSAGE appends the message to the target conversations and
      stamps them; every other conversation is unchanged. */
  lemma AddMessageTargetsOne(s: AppState, cid: string, m: Message, now: int)
    ensures var r := Reduce(s, AddMessage(cid, m), now);
      |r.conversations| == |s.conversations|
      && (forall i :: 0 <= i < |s.conversations| && s.conversations[i].id == cid ==>
            r.conversations[i].messages == s.conversations[i].messages + [m]
            && r.conversations[i].updatedAt == now
            && r.conversations[i].(messages := s.conversations[i].messages, updatedAt := s.conversations[i].updatedAt)
               == s.conversations[i])
      && (forall i :: 0 <= i < |s.conversations| && s.conversations[i].id != cid ==>
            r.conversations[i] == s.conversations[i])
      && r.(conversations := s.conversations) == s
  {
  }

  /** UPDATE_MESSAGE changes only the content of the matching messages of
      the target conversations, and stamps those conversations; count and
      order of messages stay. */
  lemma UpdateMessageChangesContentOnly(s: AppState, cid: string, mid: string, content: string, now: int)
    ensures var r := Reduce(s, UpdateMessage(cid, mid, content), now);
      |r.conversations| == |s.conversations|
      && (forall i :: 0 <= i < |s.conversations| && s.conversations[i].id != cid ==>
            r.conversations[i] == s.conversations[i])
      && (forall i :: 0 <= i < |s.conversations| && s.conversations[i].id == cid ==>
            r.conversations[i].(messages := s.conversations[i].messages) == s.conversations[i].(updatedAt := now)
            && |r.conversations[i].messages| == |s.conversations[i].messages|
            && (forall j :: 0 <= j < |s.conversations[i].messages| ==>
                  r.conversations[i].messages[j] ==
                    if s.conversations[i].messages[j].id == mid
                    then s.conversations[i].messages[j].(content := content)
                    else s.conversations[i].messages[j]))
      && r.(conversations := s.conversations) == s
  {
  }

  /** SET_MESSAGE_STREAMING changes only the `isStreaming` flag of the
      matching messages of the target conversations, and stamps those
      conversations. */
  lemma SetStreamingChangesFlagOnly(s: AppState, cid: string, mid: string, on: bool, now: int)
    ensures var r := Reduce(s, SetMessageStreaming(cid, mid, on), now);
      |r.conversations| == |s.conversations|
      && (forall i :: 0 <= i < |s.conversations| && s.conversations[i].id != cid ==>
            r.conversations[i] == s.conversations[i])
      && (forall i :: 0 <= i < |s.conversations| && s.conversations[i].id == cid ==>
            r.conversations[i].(messages := s.conversations[i].messages) == s.conversations[i].(updatedAt := now)
            && |r.conversations[i].messages| == |s.conversations[i].messages|
            && (forall j :: 0 <= j < |s.conversations[i].messages| ==>
                  r.conversations[i].messages[j] ==
                    if s.conversations[i].messages[j].id == mid
                    then s.conversations[i].messages[j].(isStreaming := on)
                    else s.conversations[i].messages[j]))
      && r.(conversations := s.conversations) == s
  {
  }

  /** UPDATE_CONVERSATION_TITLE renames the target only when it was not
      renamed by hand. */
  lemma TitleRespectsManualRename(s: AppState, cid: string, title: string, now: int)
    ensures var r := Reduce(s, UpdateConversationTitle(cid, title), now);
      |r.conversations| == |s.conversations|
      && (forall i :: 0 <= i < |s.conversations| && (s.conversations[i].id != cid || s.conversations[i].isManuallyRenamed) ==>
            r.conversations[i] == s.conversations[i])
      && (forall i :: 0 <= i < |s.conversations| && s.conversations[i].id == cid && !s.conversations[i].isManuallyRenamed ==>
            r.conversations[i] == s.conversations[i].(name := title, updatedAt := now))
      && r.(conversations := s.conversations) == s
  {
  }

  /** DELETE_MESSAGES_AFTER keeps, in the target conversation, the messages
      up to and including the first one with the id; without such a message
      the conversation is untouched. */
  lemma DeleteMessagesAfterKeepsPrefix(s: AppState, cid: string, mid: string, now: int)
    ensures var r := Reduce(s, DeleteMessagesAfter(cid, mid), now);
      |r.conversations| == |s.conversations|
      && (forall i :: 0 <= i < |s.conversations| && s.conversations[i].id != cid ==>
            r.conversations[i] == s.conversations[i])
      && (forall i :: 0 <= i < |s.conversations| && s.conversations[i].id == cid ==>
            var ms := s.conversations[i].messages;
            var kept := r.conversations[i].messages;
            ((forall j :: 0 <= j < |ms| ==> ms[j].id != mid) ==> r.conversations[i] == s.conversations[i])
            && ((exists j :: 0 <= j < |ms| && ms[j].id == mid) ==>
                  kept != [] && kept == ms[..|kept|] && kept[|kept| - 1].id == mid
                  && forall j :: 0 <= j < |kept| - 1 ==> kept[j].id != mid))
      && r.(conversations := s.conversations) == s
  {
    var r := Reduce(s, DeleteMessagesAfter(cid, mid), now);
    forall i | 0 <= i < |s.conversations| && s.conversations[i].id == cid
      && exists j :: 0 <= j < |s.conversations[i].messages| && s.conversations[i].messages[j].id == mid
      ensures var kept := r.conversations[i].messages;
        kept != [] && kept == s.conversations[i].messages[..|kept|] && kept[|kept| - 1].id == mid
        && forall j :: 0 <= j < |kept| - 1 ==> kept[j].id != mid
    {
      KeepThroughEndsAtMessage(s.conversations[i], mid, now);
    }
  }

  /** CLEAR_CONVERSATION empties the target and lifts its manual-rename
      mark; the others are unchanged. */
  lemma ClearEmptiesTarget(s: AppState, id: string, now: int)
    ensures var r := Reduce(s, ClearConversation(id), now);
      |r.conversations| == |s.conversations|
      && (forall i :: 0 <= i < |s.conversations| && s.conversations[i].id == id ==>
            r.conversations[i].messages == [] && !r.conversations[i].isManuallyRenamed
            && r.conversations[i].name == s.conversations[i].name)
      && (forall i :: 0 <= i < |s.conversations| && s.conversations[i].id != id ==>
            r.conversations[i] == s.conversations[i])
      && r.(conversations := s.conversations) == s
  {
  }

  /** The panel toggles are involutions. */
  lemma TogglesAreInvolutions(s: AppState, a: Action, now: int)
    requires a.ToggleSidebar? || a.TogglePromptPanel? || a.ToggleApiConfigPanel? || a.ToggleSettingsPanel?
    ensures Reduce(Reduce(s, a, now), a, now) == s
    ensures Reduce(s, a, now) != s
  {
  }

  /** An action the reducer has no case for (TOGGLE_MESSAGE_THINKING_COLLAPSED)
      leaves the state as it is. */
  lemma UnhandledActionIsIdentity(s: AppState, cid: string, mid: string, now: int)
    ensures Reduce(s, ToggleMessageThinkingCollapsed(cid, mid), now) == s
  {
  }

  /** SET_USER derives `isPro` from the user; SET_PRO_STATUS keeps the
      user's own flag in step with it. */
  lemma ProStatusFollowsUser(s: AppState, u: Option<User>, on: bool, now: int)
    ensures var r := Reduce(s, SetUser(u), now);
      r.user == u && (r.isPro <==> u.Some? && u.value.isPro)
    ensures var r := Reduce(s, SetProStatus(on), now);
      r.isPro == on && r.user.Some? == s.user.Some?
      && (r.user.Some? ==> r.user.value == s.user.value.(isPro := on))
  {
  }

  /** LOAD_STATE: the payload laid over the state, with the loaded
      conversations no longer streaming, the API config repaired, the
      webhook settings and their switch defaulted, nothing selected, and
      the user and Pro flag taken from the payload. */
  lemma LoadStateNormalises(s: AppState, p: Loaded, now: int)
    ensures var r := Reduce(s, LoadState(p), now);
      r.currentConversationId.None?
      && r.apiConfig == RepairApiConfig(p.apiConfig)
      && r.apiConfig.provider != "" && SavedKey(r.apiConfig.apiKeys, ZHIPU) != ""
      && r.n8nConfig == p.n8nConfig.GetOr(DEFAULT_N8N_CONFIG)
      && r.useN8N == (p.useN8N.Some? && p.useN8N.value)
      && r.user == p.user && r.isPro == p.isPro
      && (p.conversations.Some? ==>
            r.conversations == StopStreaming(p.conversations.value)
            && |r.conversations| == |p.conversations.value|
            && forall i, j :: 0 <= i < |r.conversations| && 0 <= j < |r.conversations[i].messages| ==>
                 !r.conversations[i].messages[j].isStreaming)
      && (p.conversations.None? ==> r.conversations == s.conversations)
      && r.promptConfig == p.promptConfig.GetOr(s.promptConfig)
      && r.theme == p.theme.GetOr(s.theme)
      && r.sidebarCollapsed == p.sidebarCollapsed.GetOr(s.sidebarCollapsed)
      && r.promptPanelCollapsed == p.promptPanelCollapsed.GetOr(s.promptPanelCollapsed)
      && r.apiConfigPanelCollapsed == p.apiConfigPanelCollapsed.GetOr(s.apiConfigPanelCollapsed)
      && r.settingsPanelCollapsed == p.settingsPanelCollapsed.GetOr(s.settingsPanelCollapsed)
      && r.editingMessageId == p.editingMessageId.GetOr(s.editingMessageId)
  {
  }
}
