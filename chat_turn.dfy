/** The chat handlers of the newer client: `getCurrentApiKey`,
    `isN8NConfigValid`, `handleSend` and `handleClear`
    (frontend/src/components/MessageInput.tsx), and `handleStartEdit` and
    `handleResend` (frontend/src/components/MessageList.tsx).
    A handler reads the reducer state, dispatches actions in order and awaits
    one model call. The call's outcome is a parameter. `Date.now()` is `now`
    when read before the call and `later` when read after it. */
module ChatTurn {

  import opened Wrappers
  import opened Strs
  import opened ChatTypes
  import opened ConversationList
  import opened AppReducer
  import TitleGenerator
  import Http

  const N8N_ALERT: string := "请先在设置中配置N8N URL"
  const KEY_ALERT: string := "请先在设置中配置API Key"
  const SEND_FAILED: string := "发送消息失败"
  const RESEND_FAILED: string := "重新发送失败"
  const ERROR_PREFIX: string := "错误: "
  const SYSTEM_ID: string := "msg-system"

  // ---------------------------------------------------------------------
  // What a handler reads from the state.

  /** `getCurrentApiKey()`: the key saved for the selected provider, else
      the built-in key when that provider is zhipu, else `''`. */
  function ApiKeyFor(cfg: ApiConfig): (key: string)
    ensures key == "" <==> SavedKey(cfg.apiKeys, cfg.provider) == "" && cfg.provider != ZHIPU
    ensures SavedKey(cfg.apiKeys, cfg.provider) != "" ==> key == SavedKey(cfg.apiKeys, cfg.provider)
    ensures SavedKey(cfg.apiKeys, cfg.provider) == "" && cfg.provider == ZHIPU ==> key == DEFAULT_ZHIPU_KEY
  {
    var saved := SavedKey(cfg.apiKeys, cfg.provider);
    if saved != "" then saved
    else if cfg.provider == ZHIPU then DEFAULT_ZHIPU_KEY
    else ""
  }

  /** `isN8NConfigValid()`: webhook mode is on and the URL has a character
      that is not whitespace. */
  function N8NConfigValid(s: AppState): (ok: bool)
    ensures ok <==> s.useN8N && exists i :: 0 <= i < |s.n8nConfig.url| && !IsWhitespace(s.n8nConfig.url[i])
  {
    s.useN8N && s.n8nConfig.url != "" && Trim(s.n8nConfig.url) != ""
  }

  /** `conversations.find(c => c.id === id)`. */
  function FindConversation(cs: seq<Conversation>, id: string): (r: Option<Conversation>)
    ensures r.Some? ==> exists i :: 0 <= i < |cs| && cs[i] == r.value && r.value.id == id
                                   && forall j :: 0 <= j < i ==> cs[j].id != id
    ensures r.None? <==> forall i :: 0 <= i < |cs| ==> cs[i].id != id
  {
    if cs == [] then None
    else if cs[0].id == id then Some(cs[0])
    else
      var r := FindConversation(cs[1..], id);
      assert r.Some? ==> exists i :: 0 <= i < |cs[1..]| && cs[1..][i] == r.value && r.value.id == id
                                     && (forall j :: 0 <= j < i ==> cs[1..][j].id != id)
                                     && cs[i + 1] == r.value && (forall j :: 0 <= j < i + 1 ==> cs[j].id != id);
      r
  }

  /** `currentConversation` of the input box: no conversation when the
      current id is `null` or `''`, otherwise the first with that id. */
  function CurrentForSend(s: AppState): (r: Option<Conversation>)
    ensures s.currentConversationId.None? || s.currentConversationId == Some("") ==> r.None?
    ensures r.Some? ==> Some(r.value.id) == s.currentConversationId && r.value in s.conversations
  {
    match s.currentConversationId
    case None => None
    case Some(id) => if id == "" then None else FindConversation(s.conversations, id)
  }

  /** `currentConversation` of the message list: the first conversation
      whose id is the current id (none when that is `null`). */
  function CurrentForList(s: AppState): (r: Option<Conversation>)
    ensures s.currentConversationId.None? ==> r.None?
    ensures r.Some? ==> Some(r.value.id) == s.currentConversationId && r.value in s.conversations
  {
    match s.currentConversationId
    case None => None
    case Some(id) => FindConversation(s.conversations, id)
  }

  // ---------------------------------------------------------------------
  // The records a turn creates.

  function UserId(t: nat): string { "msg-" + NatStr(t) + "-user" }

  function AssistantId(t: nat): string { "msg-" + NatStr(t) + "-assistant" }

  /** A user message id never equals an assistant message id, and two
      assistant ids are equal only when they were made at the same
      millisecond. */
  lemma IdsDiffer(a: nat, b: nat)
    ensures UserId(a) != AssistantId(b)
    ensures AssistantId(a) == AssistantId(b) ==> a == b
  {
    var u := UserId(a);
    var v := AssistantId(b);
    assert u[|u| - 1] == 'r' && v[|v| - 1] == 't';
    if AssistantId(a) == AssistantId(b) {
      var x := AssistantId(a);
      assert NatStr(a) == x[4..4 + |NatStr(a)|];
      assert |NatStr(a)| == |NatStr(b)|;
      assert NatStr(b) == x[4..4 + |NatStr(b)|];
      NatStrInjective(a, b);
    }
  }

  /** The conversation a send creates when none is selected. */
  function NewConversation(count: nat, now: nat): Conversation {
    Conversation("conv-" + NatStr(now), "会话 " + NatStr(count + 1), [], now, now, false, false)
  }

  /** The stored user message: the trimmed input. */
  function UserMessage(input: string, now: nat): Message {
    Message(UserId(now), Role.User, Trim(input), now, false)
  }

  /** The system prompt as the first outgoing message, when its trimmed
      text is not empty. */
  function SystemPrefix(prompt: string, t: nat): (r: seq<Message>)
    ensures |r| <= 1
    ensures r != [] <==> exists i :: 0 <= i < |prompt| && !IsWhitespace(prompt[i])
    ensures r != [] ==> r[0] == Message(SYSTEM_ID, System, prompt, t, false)
  {
    if Trim(prompt) != "" then [Message(SYSTEM_ID, System, prompt, t, false)] else []
  }

  /** A message whose content is the error's text. */
  function ErrorText(e: Http.Thrown, fallback: string): string {
    match e
    case ErrorValue(m) => m
    case OtherValue => fallback
  }

  // ---------------------------------------------------------------------
  // handleSend: the guards and what it sends.

  /** What a handler hands to the network: the model call with the API
      settings, or the webhook call with the webhook settings. */
  datatype Call = ModelCall(apiConfig: ApiConfig, messages: seq<Message>) | WebhookCall(n8nConfig: N8NConfig, messages: seq<Message>)

  /** What `handleSend` decides before its first dispatch: to do nothing, to
      show an alert, or to run a turn in `conversation` (a new one when
      `isNew`). */
  datatype SendPlan =
    | Ignored
    | Alerted(text: string)
    | Turn(conversation: Conversation, isNew: bool, user: Message, placeholder: Message, call: Call)

  /** The guards of `handleSend` and the records of the turn. */
  function PlanSend(s: AppState, input: string, isLoading: bool, now: nat): (p: SendPlan)
    ensures p.Ignored? <==> AllWhitespace(input) || isLoading
    ensures p.Alerted? <==>
      !AllWhitespace(input) && !isLoading && (if s.useN8N then !N8NConfigValid(s) else ApiKeyFor(s.apiConfig) == "")
    ensures p.Alerted? ==> p.text == if s.useN8N then N8N_ALERT else KEY_ALERT
    ensures p.Turn? ==>
      p.user.role == Role.User && p.user.content == Trim(input) && p.user.content != ""
      && p.placeholder.role == Assistant && p.placeholder.content == "" && !p.placeholder.isStreaming
      && p.user.id != p.placeholder.id
    ensures p.Turn? ==> (p.isNew <==> CurrentForSend(s).None?)
    ensures p.Turn? && !p.isNew ==> p.conversation == CurrentForSend(s).value
    ensures p.Turn? && p.isNew ==>
      p.conversation.messages == [] && p.conversation.name == "会话 " + NatStr(|s.conversations| + 1)
    ensures p.Turn? ==> p.call == SendCall(s, p.conversation, p.user, now)
    ensures p.Turn? ==> p.user.id == UserId(now) && p.placeholder.id == AssistantId(now)
  {
    if AllWhitespace(input) || isLoading then Ignored
    else if s.useN8N && !N8NConfigValid(s) then Alerted(N8N_ALERT)
    else if !s.useN8N && ApiKeyFor(s.apiConfig) == "" then Alerted(KEY_ALERT)
    else
      var current := CurrentForSend(s);
      var c := if current.Some? then current.value else NewConversation(|s.conversations|, now);
      var user := UserMessage(input, now);
      IdsDiffer(now, now);
      var call := SendCall(s, c, user, now);
      Turn(c, current.None?, user, Message(AssistantId(now), Assistant, "", now, false), call)
  }

  /** The call a turn makes: outside webhook mode the system prompt (when
      it is not blank), the earlier non-system messages and the new user
      message go to the model; in webhook mode the same list with its system
      messages filtered out goes to the webhook. */
  function SendCall(s: AppState, c: Conversation, user: Message, now: nat): Call {
    var messages :=
      (if s.useN8N then [] else SystemPrefix(s.promptConfig.systemPrompt, now))
      + NonSystem(c.messages) + [user];
    if s.useN8N then WebhookCall(s.n8nConfig, NonSystem(messages)) else ModelCall(s.apiConfig, messages)
  }

  /** Outside webhook mode the outgoing list is the system prompt (when it
      is not blank), then the earlier non-system messages in order, then the
      user message. */
  lemma SendToModel(s: AppState, c: Conversation, user: Message, now: nat)
    requires !s.useN8N && user.role == Role.User
    ensures var ms := SystemPrefix(s.promptConfig.systemPrompt, now) + NonSystem(c.messages) + [user];
      SendCall(s, c, user, now) == ModelCall(s.apiConfig, ms)
      && ms[|ms| - 1] == user && NonSystem(ms) == NonSystem(c.messages) + [user]
  {
    var pre := SystemPrefix(s.promptConfig.systemPrompt, now);
    var h := NonSystem(c.messages);
    SendCallToModel(s, c, user, now);
    PrefixIsSystem(s.promptConfig.systemPrompt, now);
    assert NonSystem(h) == h;
    OutgoingHistory(pre, h, user);
  }

  /** Outside webhook mode the call goes to the model with the full list. */
  lemma SendCallToModel(s: AppState, c: Conversation, user: Message, now: nat)
    requires !s.useN8N
    ensures SendCall(s, c, user, now) ==
      ModelCall(s.apiConfig, SystemPrefix(s.promptConfig.systemPrompt, now) + NonSystem(c.messages) + [user])
  {
  }

  /** System messages ahead of a filtered history and a user message drop
      out of the filter; the rest stays. */
  lemma OutgoingHistory(pre: seq<Message>, h: seq<Message>, user: Message)
    requires NonSystem(pre) == [] && h == NonSystem(h) && user.role == Role.User
    ensures NonSystem(pre + h + [user]) == h + [user]
  {
    HistoryThenUser(h, user);
    NonSystemAppend(pre, h + [user]);
    assert pre + h + [user] == pre + (h + [user]);
  }

  lemma PrefixIsSystem(prompt: string, t: nat)
    ensures NonSystem(SystemPrefix(prompt, t)) == []
  {
    var pre := SystemPrefix(prompt, t);
    if pre != [] {
      assert pre == [pre[0]];
      SystemDropped(pre[0]);
    }
  }

  /** A lone system message is filtered out. */
  lemma SystemDropped(m: Message)
    requires m.role == System
    ensures NonSystem([m]) == []
  {
    assert [m][1..] == [];
  }

  /** In webhook mode the outgoing list is the earlier non-system messages
      in order, then the user message: no system message at all. */
  lemma SendToWebhook(s: AppState, c: Conversation, user: Message, now: nat)
    requires s.useN8N && user.role == Role.User
    ensures SendCall(s, c, user, now) == WebhookCall(s.n8nConfig, NonSystem(c.messages) + [user])
  {
    var h := NonSystem(c.messages);
    HistoryThenUser(h, user);
    assert [] + h + [user] == h + [user];
  }

  lemma HistoryThenUser(h: seq<Message>, user: Message)
    requires h == NonSystem(h) && user.role == Role.User
    ensures NonSystem(h + [user]) == h + [user]
  {
    NonSystemAppend(h, [user]);
    assert NonSystem([user]) == [user];
  }

  // ---------------------------------------------------------------------
  // The actions a handler dispatches.

  /** A dispatched action with the clock reading the reducer sees. */
  datatype Step = Step(action: Action, at: nat)

  /** The state after the steps, in order. */
  function Replay(s: AppState, steps: seq<Step>): AppState
    decreases |steps|
  {
    if steps == [] then s else Replay(Reduce(s, steps[0].action, steps[0].at), steps[1..])
  }

  /** A timer the handler starts: `action` is dispatched `delay`
      milliseconds later. */
  datatype Delayed = Delayed(delay: nat, action: Action)

  function Max(a: int, b: int): int { if a < b then b else a }

  /** The first-round title rule: the conversation is retitled when it
      had no non-system message before the send and was never renamed by
      hand. */
  function TitleStep(c: Conversation, title: string): (r: Option<Action>)
    ensures r.Some? <==> NonSystem(c.messages) == [] && !c.isManuallyRenamed
    ensures r.Some? ==> r.value == UpdateConversationTitle(c.id, title)
  {
    if |NonSystem(c.messages)| == 0 && !c.isManuallyRenamed then Some(UpdateConversationTitle(c.id, title))
    else None
  }

  /** `generateTitle(userMessage.content, assistantMessage.content)` for a
      reply, as the source computes it; a failed call makes no title. */
  function TitleOfAsWritten(p: SendPlan, reply: Http.Settled): (t: string)
    requires p.Turn?
    ensures reply.Returned? ==> t != "" && |t| <= 20
  {
    match reply
    case Returned(text) => TitleGenerator.GenerateTitleAsWritten(p.user.content, text)
    case Threw(_) => ""
  }

  /** The same title with the corrected cleaning, which drops fenced code
      blocks. */
  function TitleOf(p: SendPlan, reply: Http.Settled): (t: string)
    requires p.Turn?
    ensures reply.Returned? ==> t != "" && |t| <= 20 && IsTrimmed(t)
  {
    match reply
    case Returned(text) => TitleGenerator.GenerateTitle(p.user.content, text)
    case Threw(_) => ""
  }

  /** The timer a turn starts: only a reply starts one. */
  function StreamTimer(p: SendPlan, reply: Http.Settled): (timer: Option<Delayed>)
    requires p.Turn?
    ensures timer.Some? <==> reply.Returned?
    ensures timer.Some? ==>
      timer.value == Delayed(Max(|reply.text| * 30, 1000), SetMessageStreaming(p.conversation.id, p.placeholder.id, false))
  {
    match reply
    case Returned(text) => Some(Delayed(Max(|text| * 30, 1000), SetMessageStreaming(p.conversation.id, p.placeholder.id, false)))
    case Threw(_) => None
  }

  /** The three actions that follow the optional ADD_CONVERSATION. */
  function Three(p: SendPlan, now: nat): seq<Step>
    requires p.Turn?
  {
    var cid := p.conversation.id;
    [Step(AddMessage(cid, p.user), now),
     Step(AddMessage(cid, p.placeholder), now),
     Step(SetMessageStreaming(cid, p.placeholder.id, true), now)]
  }

  /** The actions of a turn up to the model call. */
  function Opening(p: SendPlan, now: nat): seq<Step>
    requires p.Turn?
  {
    (if p.isNew then [Step(AddConversation(p.conversation), now)] else []) + Three(p, now)
  }

  /** The actions of a turn after the model call. On failure the error is
      written, with UPDATE_MESSAGE, to the message `errorTarget`. */
  function Closing(p: SendPlan, reply: Http.Settled, later: nat, errorTarget: string, title: string): seq<Step>
    requires p.Turn?
  {
    var cid := p.conversation.id;
    match reply
    case Returned(text) =>
      [Step(UpdateMessage(cid, p.placeholder.id, text), later)]
      + (match TitleStep(p.conversation, title)
         case Some(a) => [Step(a, later)]
         case None => [])
    case Threw(e) =>
      [Step(UpdateMessage(cid, errorTarget, ERROR_PREFIX + ErrorText(e, SEND_FAILED)), later)]
  }

  /** The actions `handleSend` dispatches, with the error written to the
      placeholder. */
  function SendSteps(p: SendPlan, reply: Http.Settled, now: nat, later: nat, title: string): seq<Step>
    requires p.Turn?
  {
    Opening(p, now) + Closing(p, reply, later, p.placeholder.id, title)
  }

  /** The actions `handleSend` dispatches as the source writes them: the
      error goes to an id made from the clock after the call. */
  function SendStepsAsWritten(p: SendPlan, reply: Http.Settled, now: nat, later: nat, title: string): seq<Step>
    requires p.Turn?
  {
    Opening(p, now) + Closing(p, reply, later, AssistantId(later), title)
  }

  // ---------------------------------------------------------------------
  // The handlers, on a session that holds the reducer state.

  /** The state held by the app context, and the actions dispatched to it. */
  class ChatSession {
    var state: AppState
    var log: seq<Step>

    constructor(s: AppState)
      ensures state == s && log == []
    {
      state := s;
      log := [];
    }

    /** `dispatch(action)` at clock reading `at`. */
    method Dispatch(a: Action, at: nat)
      modifies this
      ensures state == Reduce(old(state), a, at)
      ensures log == old(log) + [Step(a, at)]
    {
      state := Reduce(state, a, at);
      log := log + [Step(a, at)];
    }

    /** Dispatches the steps one after another. */
    method Run(steps: seq<Step>)
      modifies this
      ensures state == Replay(old(state), steps)
      ensures log == old(log) + steps
    {
      var i := 0;
      while i < |steps|
        invariant 0 <= i <= |steps|
        invariant Replay(state, steps[i..]) == Replay(old(state), steps)
        invariant log == old(log) + steps[..i]
      {
        assert steps[i..][1..] == steps[i + 1..];
        Dispatch(steps[i].action, steps[i].at);
        assert steps[..i + 1] == steps[..i] + [steps[i]];
        i := i + 1;
      }
    }

    /** `handleSend()`, given the outcome of its awaited call, as the
        source writes it: the guards, then for a turn the opening actions,
        the reply written into the placeholder and the first-round retitle,
        or the error written to the id made from the clock after the call.
        A reply also starts the timer that ends the streaming display. */
    method HandleSend(input: string, isLoading: bool, now: nat, later: nat, reply: Http.Settled)
      returns (p: SendPlan, timer: Option<Delayed>)
      modifies this
      ensures p == PlanSend(old(state), input, isLoading, now)
      ensures !p.Turn? ==> state == old(state) && log == old(log) && timer.None?
      ensures p.Turn? ==>
        var steps := SendStepsAsWritten(p, reply, now, later, TitleOfAsWritten(p, reply));
        state == Replay(old(state), steps) && log == old(log) + steps && timer == StreamTimer(p, reply)
    {
      p := PlanSend(state, input, isLoading, now);
      timer := None;
      if p.Turn? {
        Run(SendStepsAsWritten(p, reply, now, later, TitleOfAsWritten(p, reply)));
        timer := StreamTimer(p, reply);
      }
    }

    /** The corrected `handleSend()`: the error goes into the placeholder
        and the title is cleaned with fenced code blocks dropped. */
    method HandleSendCorrected(input: string, isLoading: bool, now: nat, later: nat, reply: Http.Settled)
      returns (p: SendPlan, timer: Option<Delayed>)
      modifies this
      ensures p == PlanSend(old(state), input, isLoading, now)
      ensures !p.Turn? ==> state == old(state) && log == old(log) && timer.None?
      ensures p.Turn? ==>
        var steps := SendSteps(p, reply, now, later, TitleOf(p, reply));
        state == Replay(old(state), steps) && log == old(log) + steps && timer == StreamTimer(p, reply)
    {
      p := PlanSend(state, input, isLoading, now);
      timer := None;
      if p.Turn? {
        Run(SendSteps(p, reply, now, later, TitleOf(p, reply)));
        timer := StreamTimer(p, reply);
      }
    }

    /** `handleClear()`: with a current conversation and the user's
        confirmation, clears it; otherwise nothing happens. */
    method HandleClear(confirmed: bool, now: nat)
      modifies this
      ensures CurrentForSend(old(state)).Some? && confirmed ==>
        var a := ClearConversation(CurrentForSend(old(state)).value.id);
        state == Reduce(old(state), a, now) && log == old(log) + [Step(a, now)]
      ensures CurrentForSend(old(state)).None? || !confirmed ==> state == old(state) && log == old(log)
    {
      var current := CurrentForSend(state);
      if current.Some? && confirmed {
        Dispatch(ClearConversation(current.value.id), now);
      }
    }
  }

  // ---------------------------------------------------------------------
  // What a turn does to the conversation it runs in.

  /** The conversations once the turn's conversation exists. */
  function Before(s: AppState, p: SendPlan): seq<Conversation>
    requires p.Turn?
  {
    if p.isNew then s.conversations + [p.conversation] else s.conversations
  }

  /** The state once the turn's conversation exists. */
  lemma OpeningStart(s: AppState, p: SendPlan, now: nat) returns (t: AppState)
    requires p.Turn?
    ensures t == s.(conversations := Before(s, p),
                    currentConversationId := if p.isNew then Some(p.conversation.id) else s.currentConversationId)
    ensures Replay(s, Opening(p, now)) == Replay(t, Three(p, now))
  {
    t := s.(conversations := Before(s, p),
            currentConversationId := if p.isNew then Some(p.conversation.id) else s.currentConversationId);
    if p.isNew {
      assert Opening(p, now)[1..] == Three(p, now);
    } else {
      assert Opening(p, now) == Three(p, now);
    }
  }

  /** Replaying two lists is replaying their concatenation. */
  lemma {:induction false} ReplayAppend(s: AppState, a: seq<Step>, b: seq<Step>)
    ensures Replay(s, a + b) == Replay(Replay(s, a), b)
    decreases |a|
  {
    if a != [] {
      assert (a + b)[1..] == a[1..] + b;
      ReplayAppend(Reduce(s, a[0].action, a[0].at), a[1..], b);
    } else {
      assert a + b == b;
      assert Replay(s, a) == s;
    }
  }

  /** Mapping a fresh last message by id changes only that message. */
  lemma MapFreshLast(ms: seq<Message>, m: Message, f: Message -> Message)
    requires forall j :: 0 <= j < |ms| ==> ms[j].id != m.id
    ensures MapMessagesWhere(ms + [m], m.id, f) == ms + [f(m)]
  {
    var all := ms + [m];
    assert all[..|all| - 1] == ms && all[|all| - 1] == m;
    MapNoMatch(ms, m.id, f);
  }

  /** Mapping by an id no message has changes nothing. */
  lemma MapNoMatch(ms: seq<Message>, id: string, f: Message -> Message)
    requires forall j :: 0 <= j < |ms| ==> ms[j].id != id
    ensures MapMessagesWhere(ms, id, f) == ms
  {
    var r := MapMessagesWhere(ms, id, f);
    assert forall j :: 0 <= j < |ms| ==> r[j] == ms[j];
  }

  /** Three steps replayed are three reductions. */
  lemma ReplayThree(t: AppState, a: Step, b: Step, c: Step)
    ensures Replay(t, [a, b, c]) == Reduce(Reduce(Reduce(t, a.action, a.at), b.action, b.at), c.action, c.at)
  {
    var t1 := Reduce(t, a.action, a.at);
    var t2 := Reduce(t1, b.action, b.at);
    var t3 := Reduce(t2, c.action, c.at);
    assert [a, b, c][1..] == [b, c];
    assert Replay(t, [a, b, c]) == Replay(t1, [b, c]);
    assert [b, c][1..] == [c];
    assert Replay(t1, [b, c]) == Replay(t2, [c]);
    assert [c][1..] == [];
    assert Replay(t2, [c]) == Replay(t3, []);
  }

  /** The three opening actions append the user message and the placeholder,
      now marked as streaming, to every conversation with the turn's id;
      the other conversations are untouched. */
  lemma OpeningAppends(t: AppState, cid: string, u: Message, ph: Message, now: nat, i: nat)
    requires u.id != ph.id
    requires i < |t.conversations|
    requires forall j :: 0 <= j < |t.conversations[i].messages| ==> t.conversations[i].messages[j].id != ph.id
    ensures var r := Replay(t, [Step(AddMessage(cid, u), now), Step(AddMessage(cid, ph), now),
                                Step(SetMessageStreaming(cid, ph.id, true), now)]);
      |r.conversations| == |t.conversations|
      && r.conversations[i] ==
           (if t.conversations[i].id == cid
            then t.conversations[i].(messages := t.conversations[i].messages + [u, ph.(isStreaming := true)], updatedAt := now)
            else t.conversations[i])
  {
    ReplayThree(t, Step(AddMessage(cid, u), now), Step(AddMessage(cid, ph), now),
                Step(SetMessageStreaming(cid, ph.id, true), now));
    var s1 := Reduce(t, AddMessage(cid, u), now);
    var s2 := Reduce(s1, AddMessage(cid, ph), now);
    AddAt(t, cid, u, now, i);
    AddAt(s1, cid, ph, now, i);
    var c := t.conversations[i];
    if c.id == cid {
      var ms := c.messages + [u];
      StreamLast(s2, cid, ms, ph, true, now, i);
      assert ms + [ph.(isStreaming := true)] == c.messages + [u, ph.(isStreaming := true)];
    } else {
      StreamOther(s2, cid, ph.id, now, i);
    }
  }

  /** ADD_MESSAGE, seen at one index. */
  lemma AddAt(t: AppState, cid: string, m: Message, at: nat, i: nat)
    requires i < |t.conversations|
    ensures var r := Reduce(t, AddMessage(cid, m), at);
      |r.conversations| == |t.conversations|
      && r.conversations[i] ==
           (if t.conversations[i].id == cid
            then t.conversations[i].(messages := t.conversations[i].messages + [m], updatedAt := at)
            else t.conversations[i])
  {
  }

  /** SET_MESSAGE_STREAMING on the last message, whose id no earlier message
      has. */
  lemma StreamLast(t: AppState, cid: string, ms: seq<Message>, m: Message, on: bool, at: nat, i: nat)
    requires i < |t.conversations| && t.conversations[i].id == cid && t.conversations[i].messages == ms + [m]
    requires forall j :: 0 <= j < |ms| ==> ms[j].id != m.id
    ensures var r := Reduce(t, SetMessageStreaming(cid, m.id, on), at);
      |r.conversations| == |t.conversations|
      && r.conversations[i] == t.conversations[i].(messages := ms + [m.(isStreaming := on)], updatedAt := at)
  {
    MapFreshLast(ms, m, (x: Message) => x.(isStreaming := on));
  }

  /** SET_MESSAGE_STREAMING leaves a conversation with another id alone. */
  lemma StreamOther(t: AppState, cid: string, mid: string, at: nat, i: nat)
    requires i < |t.conversations| && t.conversations[i].id != cid
    ensures var r := Reduce(t, SetMessageStreaming(cid, mid, true), at);
      |r.conversations| == |t.conversations| && r.conversations[i] == t.conversations[i]
  {
  }

  /** The message actions a turn dispatches into conversation `cid`. */
  predicate Targets(a: Action, cid: string) {
    (a.AddMessage? || a.UpdateMessage? || a.SetMessageStreaming? || a.UpdateConversationTitle? || a.DeleteMessagesAfter?)
    && a.conversationId == cid
  }

  /** One action aimed at `cid` keeps the list's length and ids, leaves the
      other conversations and the rest of the state alone. */
  lemma ReduceTargets(t: AppState, a: Action, at: nat, cid: string)
    requires Targets(a, cid)
    ensures var r := Reduce(t, a, at);
      |r.conversations| == |t.conversations|
      && r.(conversations := t.conversations) == t
      && (forall i :: 0 <= i < |t.conversations| ==> r.conversations[i].id == t.conversations[i].id)
      && (forall i :: 0 <= i < |t.conversations| && t.conversations[i].id != cid ==> r.conversations[i] == t.conversations[i])
  {
    match a {
      case AddMessage(_, _) =>
      case UpdateMessage(_, _, _) =>
      case SetMessageStreaming(_, _, _) =>
      case UpdateConversationTitle(_, _) =>
      case DeleteMessagesAfter(_, mid) =>
        forall c: Conversation ensures KeepThrough(c, mid, at).id == c.id { }
    }
  }

  /** Actions aimed at `cid` change only the conversations with that id. */
  lemma {:induction false} ReplayTargets(t: AppState, steps: seq<Step>, cid: string)
    requires forall k :: 0 <= k < |steps| ==> Targets(steps[k].action, cid)
    ensures var r := Replay(t, steps);
      |r.conversations| == |t.conversations|
      && r.(conversations := t.conversations) == t
      && (forall i :: 0 <= i < |t.conversations| ==> r.conversations[i].id == t.conversations[i].id)
      && (forall i :: 0 <= i < |t.conversations| && t.conversations[i].id != cid ==> r.conversations[i] == t.conversations[i])
    decreases |steps|
  {
    if steps != [] {
      ReduceTargets(t, steps[0].action, steps[0].at, cid);
      ReplayTargets(Reduce(t, steps[0].action, steps[0].at), steps[1..], cid);
    }
  }

  /** UPDATE_MESSAGE on the last message, whose id no earlier message has. */
  lemma UpdateLast(t: AppState, cid: string, ms: seq<Message>, m: Message, content: string, at: nat, i: nat)
    requires i < |t.conversations| && t.conversations[i].id == cid && t.conversations[i].messages == ms + [m]
    requires forall j :: 0 <= j < |ms| ==> ms[j].id != m.id
    ensures var r := Reduce(t, UpdateMessage(cid, m.id, content), at);
      |r.conversations| == |t.conversations|
      && r.conversations[i] == t.conversations[i].(messages := ms + [m.(content := content)], updatedAt := at)
  {
    MapFreshLast(ms, m, (x: Message) => x.(content := content));
  }

  /** UPDATE_MESSAGE on an id no message has changes no message. */
  lemma UpdateMissing(t: AppState, cid: string, mid: string, content: string, at: nat, i: nat)
    requires i < |t.conversations| && t.conversations[i].id == cid
    requires forall j :: 0 <= j < |t.conversations[i].messages| ==> t.conversations[i].messages[j].id != mid
    ensures var r := Reduce(t, UpdateMessage(cid, mid, content), at);
      |r.conversations| == |t.conversations|
      && r.conversations[i] == t.conversations[i].(updatedAt := at)
  {
    var ms := t.conversations[i].messages;
    assert MapMessagesWhere(ms, mid, (x: Message) => x.(content := content)) == ms;
  }

  /** The title step touches no message; it renames the conversation
      unless it was renamed by hand. */
  lemma TitleStepEffect(t: AppState, a: Option<Action>, at: nat, i: nat)
    requires a.Some? ==> a.value.UpdateConversationTitle?
    requires i < |t.conversations|
    ensures var r := Replay(t, match a case Some(x) => [Step(x, at)] case None => []);
      var c := t.conversations[i];
      |r.conversations| == |t.conversations| && r.conversations[i].messages == c.messages
      && r.conversations[i].name ==
           (if a.Some? && c.id == a.value.conversationId && !c.isManuallyRenamed then a.value.title else c.name)
  {
    if a.Some? {
      assert [Step(a.value, at)][1..] == [];
    }
  }

  /** Where a send succeeds, the turn's conversation gains the user message
      and the placeholder holding the reply, still marked as streaming until
      the timer fires. */
  lemma SendSucceeds(s: AppState, p: SendPlan, now: nat, later: nat, text: string, title: string, i: nat)
    requires p.Turn? && p.user.id != p.placeholder.id
    requires var cs := Before(s, p);
      i < |cs| && cs[i].id == p.conversation.id
      && forall j :: 0 <= j < |cs[i].messages| ==> cs[i].messages[j].id != p.placeholder.id
    ensures var cs := Before(s, p);
      var r := Replay(s, SendSteps(p, Http.Returned(text), now, later, title));
      |r.conversations| == |cs|
      && r.conversations[i].messages == cs[i].messages + [p.user, p.placeholder.(content := text, isStreaming := true)]
      && r.conversations[i].name ==
           (if TitleStep(p.conversation, title).Some? && !cs[i].isManuallyRenamed then title else cs[i].name)
  {
    var cs := Before(s, p);
    var r1 := OpenTurn(s, p, now, i);
    FreshAfterUser(cs[i].messages, p.user, p.placeholder);
    var cid := p.conversation.id;
    var ph := p.placeholder.(isStreaming := true);
    var retitle := TitleStep(p.conversation, title);
    var rest := match retitle case Some(x) => [Step(x, later)] case None => [];
    var update := Step(UpdateMessage(cid, ph.id, text), later);
    assert Closing(p, Http.Returned(text), later, p.placeholder.id, title) == [update] + rest;
    ReplayAppend(s, Opening(p, now), [update] + rest);
    ReplayCons(r1, update, rest);
    var r2 := Reduce(r1, UpdateMessage(cid, ph.id, text), later);
    UpdateLast(r1, cid, cs[i].messages + [p.user], ph, text, later, i);
    assert r2.conversations[i].messages == cs[i].messages + [p.user, p.placeholder.(content := text, isStreaming := true)];
    TitleStepEffect(r2, retitle, later, i);
  }

  lemma ReplayCons(t: AppState, x: Step, rest: seq<Step>)
    ensures Replay(t, [x] + rest) == Replay(Reduce(t, x.action, x.at), rest)
  {
    assert ([x] + rest)[1..] == rest;
  }

  /** The state after the opening actions, at the index of the turn's
      conversation. */
  lemma OpenTurn(s: AppState, p: SendPlan, now: nat, i: nat) returns (r1: AppState)
    requires p.Turn? && p.user.id != p.placeholder.id
    requires var cs := Before(s, p);
      i < |cs| && cs[i].id == p.conversation.id
      && forall j :: 0 <= j < |cs[i].messages| ==> cs[i].messages[j].id != p.placeholder.id
    ensures r1 == Replay(s, Opening(p, now))
    ensures var cs := Before(s, p);
      |r1.conversations| == |cs|
      && r1.conversations[i] == cs[i].(messages := (cs[i].messages + [p.user]) + [p.placeholder.(isStreaming := true)], updatedAt := now)
  {
    var cs := Before(s, p);
    var t := OpeningStart(s, p, now);
    OpeningAppends(t, p.conversation.id, p.user, p.placeholder, now, i);
    r1 := Replay(s, Opening(p, now));
    assert cs[i].messages + [p.user, p.placeholder.(isStreaming := true)]
        == (cs[i].messages + [p.user]) + [p.placeholder.(isStreaming := true)];
  }

  /** The user message does not take the placeholder's id. */
  lemma FreshAfterUser(ms: seq<Message>, u: Message, ph: Message)
    requires u.id != ph.id && forall j :: 0 <= j < |ms| ==> ms[j].id != ph.id
    ensures forall j :: 0 <= j < |ms + [u]| ==> (ms + [u])[j].id != ph.id
  {
  }

  /** Where a send fails, the placeholder shows the error text. */
  lemma SendFails(s: AppState, p: SendPlan, now: nat, later: nat, e: Http.Thrown, title: string, i: nat)
    requires p.Turn? && p.user.id != p.placeholder.id
    requires var cs := Before(s, p);
      i < |cs| && cs[i].id == p.conversation.id
      && forall j :: 0 <= j < |cs[i].messages| ==> cs[i].messages[j].id != p.placeholder.id
    ensures var cs := Before(s, p);
      var r := Replay(s, SendSteps(p, Http.Threw(e), now, later, title));
      |r.conversations| == |cs|
      && r.conversations[i].messages ==
           cs[i].messages + [p.user, p.placeholder.(content := ERROR_PREFIX + ErrorText(e, SEND_FAILED), isStreaming := true)]
  {
    var cs := Before(s, p);
    var r1 := OpenTurn(s, p, now, i);
    FreshAfterUser(cs[i].messages, p.user, p.placeholder);
    var cid := p.conversation.id;
    var ph := p.placeholder.(isStreaming := true);
    var text := ERROR_PREFIX + ErrorText(e, SEND_FAILED);
    var update := Step(UpdateMessage(cid, ph.id, text), later);
    assert Closing(p, Http.Threw(e), later, p.placeholder.id, title) == [update] + [];
    ReplayAppend(s, Opening(p, now), [update] + []);
    ReplayCons(r1, update, []);
    UpdateLast(r1, cid, cs[i].messages + [p.user], ph, text, later, i);
  }

  /** As the source writes it, a failed send loses its error: the error is
      written to `msg-<later>-assistant`, which is not the placeholder once
      the clock has moved on, so no message changes and the placeholder stays
      empty and streaming. */
  lemma SendFailureLostAsWritten(s: AppState, p: SendPlan, now: nat, later: nat, e: Http.Thrown, title: string, i: nat)
    requires p.Turn? && p.user.id == UserId(now) && p.placeholder.id == AssistantId(now)
    requires later != now
    requires var cs := Before(s, p);
      i < |cs| && cs[i].id == p.conversation.id
      && forall j :: 0 <= j < |cs[i].messages| ==>
           cs[i].messages[j].id != p.placeholder.id && cs[i].messages[j].id != AssistantId(later)
    ensures var cs := Before(s, p);
      var r := Replay(s, SendStepsAsWritten(p, Http.Threw(e), now, later, title));
      |r.conversations| == |cs|
      && r.conversations[i].messages == cs[i].messages + [p.user, p.placeholder.(isStreaming := true)]
  {
    IdsDiffer(now, later);
    IdsDiffer(later, now);
    var cs := Before(s, p);
    var r1 := OpenTurn(s, p, now, i);
    FreshAfterUser(cs[i].messages, p.user, p.placeholder);
    var cid := p.conversation.id;
    var update := Step(UpdateMessage(cid, AssistantId(later), ERROR_PREFIX + ErrorText(e, SEND_FAILED)), later);
    assert Closing(p, Http.Threw(e), later, AssistantId(later), title) == [update] + [];
    ReplayAppend(s, Opening(p, now), [update] + []);
    ReplayCons(r1, update, []);
    UpdateMissing(r1, cid, AssistantId(later), ERROR_PREFIX + ErrorText(e, SEND_FAILED), later, i);
  }

  /** On success the source's handler and the corrected one dispatch the
      same actions for a given title: they differ only in where an error
      goes, so `SendSucceeds` describes both. */
  lemma SuccessAlike(p: SendPlan, now: nat, later: nat, text: string, title: string)
    requires p.Turn?
    ensures SendStepsAsWritten(p, Http.Returned(text), now, later, title)
         == SendSteps(p, Http.Returned(text), now, later, title)
  {
  }

  /** A turn changes only the conversations with its id (and, for a new
      conversation, appends and selects it); every other field of the state
      is kept. */
  lemma SendLeavesOthers(s: AppState, p: SendPlan, reply: Http.Settled, now: nat, later: nat, target: string, title: string)
    requires p.Turn?
    ensures var cs := Before(s, p);
      var r := Replay(s, Opening(p, now) + Closing(p, reply, later, target, title));
      |r.conversations| == |cs|
      && (forall i :: 0 <= i < |cs| && cs[i].id != p.conversation.id ==> r.conversations[i] == cs[i])
      && r.currentConversationId == (if p.isNew then Some(p.conversation.id) else s.currentConversationId)
      && r.(conversations := s.conversations, currentConversationId := s.currentConversationId) == s
  {
    var r1 := Replay(s, Opening(p, now));
    var closing := Closing(p, reply, later, target, title);
    OpeningLeavesOthers(s, p, now);
    ClosingTargets(p, reply, later, target, title);
    ReplayTargets(r1, closing, p.conversation.id);
    ReplayAppend(s, Opening(p, now), closing);
  }

  /** The opening actions change only the conversations with the turn's id. */
  lemma OpeningLeavesOthers(s: AppState, p: SendPlan, now: nat)
    requires p.Turn?
    ensures var cs := Before(s, p);
      var r := Replay(s, Opening(p, now));
      |r.conversations| == |cs|
      && (forall i :: 0 <= i < |cs| && cs[i].id != p.conversation.id ==> r.conversations[i] == cs[i])
      && r.currentConversationId == (if p.isNew then Some(p.conversation.id) else s.currentConversationId)
      && r.(conversations := s.conversations, currentConversationId := s.currentConversationId) == s
  {
    var t := OpeningStart(s, p, now);
    ReplayTargets(t, Three(p, now), p.conversation.id);
  }

  lemma ClosingTargets(p: SendPlan, reply: Http.Settled, later: nat, target: string, title: string)
    requires p.Turn?
    ensures var closing := Closing(p, reply, later, target, title);
      forall k :: 0 <= k < |closing| ==> Targets(closing[k].action, p.conversation.id)
  {
  }

  // ---------------------------------------------------------------------
  // handleStartEdit, handleCancelEdit and handleResend.

  /** The history a resend keeps: the messages up to and including the
      first one with `id`, that one carrying `text`; nothing when no
      message has the id (`findIndex` gives -1 and the slice is empty). */
  function Kept(ms: seq<Message>, id: string, text: string): (r: seq<Message>)
    ensures FindMessage(ms, id).None? ==> r == []
    ensures FindMessage(ms, id).Some? ==>
      var k := FindMessage(ms, id).value;
      |r| == k + 1 && r[..k] == ms[..k] && r[k] == ms[k].(content := text)
  {
    match FindMessage(ms, id)
    case None => []
    case Some(k) => MapMessagesWhere(ms[..k + 1], id, (m: Message) => m.(content := text))
  }

  /** What `handleResend` decides before its first dispatch: nothing, or a
      resend in `conversation` of the trimmed edit `text`. */
  datatype ResendPlan =
    | NoResend
    | Resend(conversation: Conversation, messageId: string, text: string, kept: seq<Message>,
             placeholder: Message, call: Call)

  /** The guards of `handleResend` and the records of the resend. The
      outgoing list is sent to the model even in webhook mode. */
  function PlanResend(s: AppState, editContent: string, isResending: bool, messageId: string, now: nat): (p: ResendPlan)
    ensures p.NoResend? <==>
      CurrentForList(s).None? || ApiKeyFor(s.apiConfig) == "" || isResending || AllWhitespace(editContent)
    ensures p.Resend? ==>
      p.conversation == CurrentForList(s).value && p.messageId == messageId
      && p.text == Trim(editContent) && p.text != ""
      && p.kept == Kept(p.conversation.messages, messageId, p.text)
      && p.placeholder == Message(AssistantId(now), Assistant, "", now, true)
      && p.call == ModelCall(s.apiConfig, SystemPrefix(s.promptConfig.systemPrompt, now) + NonSystem(p.kept))
  {
    var current := CurrentForList(s);
    if current.None? || ApiKeyFor(s.apiConfig) == "" || isResending || AllWhitespace(editContent) then NoResend
    else
      var c := current.value;
      var text := Trim(editContent);
      var kept := Kept(c.messages, messageId, text);
      Resend(c, messageId, text, kept, Message(AssistantId(now), Assistant, "", now, true),
             ModelCall(s.apiConfig, SystemPrefix(s.promptConfig.systemPrompt, now) + NonSystem(kept)))
  }

  /** The actions of a resend up to the model call: the edit, the cut and
      the placeholder. */
  function ResendOpening(p: ResendPlan, now: nat): seq<Step>
    requires p.Resend?
  {
    var cid := p.conversation.id;
    [Step(UpdateMessage(cid, p.messageId, p.text), now),
     Step(DeleteMessagesAfter(cid, p.messageId), now),
     Step(AddMessage(cid, p.placeholder), now)]
  }

  /** The actions of a resend after the model call: the reply goes into the
      placeholder, which then stops streaming; an error is appended as a
      message of its own, with an id made from the clock after the call. */
  function ResendClosing(p: ResendPlan, reply: Http.Settled, later: nat): seq<Step>
    requires p.Resend?
  {
    var cid := p.conversation.id;
    match reply
    case Returned(text) =>
      [Step(UpdateMessage(cid, p.placeholder.id, text), later),
       Step(SetMessageStreaming(cid, p.placeholder.id, false), later)]
    case Threw(e) =>
      [Step(AddMessage(cid, ResendError(e, later)), later)]
  }

  /** The message a failed resend appends. */
  function ResendError(e: Http.Thrown, later: nat): Message {
    Message(AssistantId(later), Assistant, ERROR_PREFIX + ErrorText(e, RESEND_FAILED), later, false)
  }

  function ResendSteps(p: ResendPlan, reply: Http.Settled, now: nat, later: nat): seq<Step>
    requires p.Resend?
  {
    ResendOpening(p, now) + ResendClosing(p, reply, later)
  }

  /** The editing state of the message list. */
  class EditBox {
    var editingId: Option<string>
    var editContent: string

    constructor()
      ensures editingId.None? && editContent == ""
    {
      editingId := None;
      editContent := "";
    }

    /** `handleStartEdit(message)`: only a user message can be edited; its
        text becomes the edit text. */
    method HandleStartEdit(m: Message)
      modifies this
      ensures m.role == Role.User ==> editingId == Some(m.id) && editContent == m.content
      ensures m.role != Role.User ==> editingId == old(editingId) && editContent == old(editContent)
    {
      if m.role == Role.User {
        editingId := Some(m.id);
        editContent := m.content;
      }
    }

    /** `handleCancelEdit()`. */
    method HandleCancelEdit()
      modifies this
      ensures editingId.None? && editContent == ""
    {
      editingId := None;
      editContent := "";
    }

    /** `handleResend(messageId)`, given the outcome of its awaited call.
        A resend clears the edit state whatever the outcome. */
    method HandleResend(app: ChatSession, messageId: string, isResending: bool, now: nat, later: nat, reply: Http.Settled)
      returns (p: ResendPlan)
      modifies this, app
      ensures p == PlanResend(old(app.state), old(editContent), isResending, messageId, now)
      ensures p.NoResend? ==>
        app.state == old(app.state) && app.log == old(app.log)
        && editingId == old(editingId) && editContent == old(editContent)
      ensures p.Resend? ==>
        var steps := ResendSteps(p, reply, now, later);
        app.state == Replay(old(app.state), steps) && app.log == old(app.log) + steps
        && editingId.None? && editContent == ""
    {
      p := PlanResend(app.state, editContent, isResending, messageId, now);
      if p.Resend? {
        RunResend(app, p, reply, now, later);
      }
    }

    /** The dispatches of a resend that passed the guards. */
    method RunResend(app: ChatSession, p: ResendPlan, reply: Http.Settled, now: nat, later: nat)
      requires p.Resend?
      modifies this, app
      ensures var steps := ResendSteps(p, reply, now, later);
        app.state == Replay(old(app.state), steps) && app.log == old(app.log) + steps
      ensures editingId.None? && editContent == ""
    {
      app.Run(ResendSteps(p, reply, now, later));
      editingId := None;
      editContent := "";
    }
  }

  // ---------------------------------------------------------------------
  // What a resend does to the conversation it runs in.

  /** Messages with the same ids, in the same order, have the same first
      match for any id. */
  lemma {:induction false} SameIdsSameFind(a: seq<Message>, b: seq<Message>, id: string)
    requires |a| == |b| && forall j :: 0 <= j < |a| ==> a[j].id == b[j].id
    ensures FindMessage(a, id) == FindMessage(b, id)
    decreases |a|
  {
    if a != [] && a[0].id != id {
      SameIdsSameFind(a[1..], b[1..], id);
    }
  }

  /** UPDATE_MESSAGE on the edited message followed by DELETE_MESSAGES_AFTER
      leaves the conversation holding exactly the kept history; with no
      message of that id both are no-ops on the messages. */
  lemma EditThenCut(t: AppState, cid: string, mid: string, text: string, at: nat, i: nat)
    requires i < |t.conversations| && t.conversations[i].id == cid
    ensures var r := Reduce(Reduce(t, UpdateMessage(cid, mid, text), at), DeleteMessagesAfter(cid, mid), at);
      var ms := t.conversations[i].messages;
      |r.conversations| == |t.conversations|
      && r.conversations[i].messages == (if FindMessage(ms, mid).Some? then Kept(ms, mid, text) else ms)
  {
    var ms := t.conversations[i].messages;
    UpdateAt(t, cid, mid, text, at, i);
    var u := Reduce(t, UpdateMessage(cid, mid, text), at);
    CutAt(u, cid, mid, at, i);
    EditedPrefix(ms, u.conversations[i].messages, mid, text);
  }

  /** UPDATE_MESSAGE, seen at one index of the target. */
  lemma UpdateAt(t: AppState, cid: string, mid: string, text: string, at: nat, i: nat)
    requires i < |t.conversations| && t.conversations[i].id == cid
    ensures var u := Reduce(t, UpdateMessage(cid, mid, text), at);
      var ms := t.conversations[i].messages;
      var mm := u.conversations[i].messages;
      |u.conversations| == |t.conversations| && u.conversations[i].id == cid && |mm| == |ms|
      && forall j :: 0 <= j < |ms| ==> mm[j] == if ms[j].id == mid then ms[j].(content := text) else ms[j]
  {
  }

  /** DELETE_MESSAGES_AFTER, seen at one index of the target. */
  lemma CutAt(u: AppState, cid: string, mid: string, at: nat, i: nat)
    requires i < |u.conversations| && u.conversations[i].id == cid
    ensures var r := Reduce(u, DeleteMessagesAfter(cid, mid), at);
      |r.conversations| == |u.conversations| && r.conversations[i] == KeepThrough(u.conversations[i], mid, at)
  {
  }

  /** Cutting the edited list after the edited message gives the kept
      history. */
  lemma EditedPrefix(ms: seq<Message>, mm: seq<Message>, mid: string, text: string)
    requires |mm| == |ms|
    requires forall j :: 0 <= j < |ms| ==> mm[j] == if ms[j].id == mid then ms[j].(content := text) else ms[j]
    ensures FindMessage(mm, mid) == FindMessage(ms, mid)
    ensures FindMessage(ms, mid).Some? ==> mm[..FindMessage(ms, mid).value + 1] == Kept(ms, mid, text)
  {
    SameIdsSameFind(ms, mm, mid);
    match FindMessage(ms, mid) {
      case None =>
      case Some(k) =>
        var kept := Kept(ms, mid, text);
        forall j | 0 <= j <= k ensures mm[..k + 1][j] == kept[j] {
          if j < k {
            assert kept[j] == kept[..k][j] == ms[..k][j];
          }
        }
    }
  }

  /** Two steps replayed are two reductions. */
  lemma ReplayTwo(t: AppState, a: Step, b: Step)
    ensures Replay(t, [a, b]) == Reduce(Reduce(t, a.action, a.at), b.action, b.at)
  {
    var t1 := Reduce(t, a.action, a.at);
    assert [a, b][1..] == [b];
    assert Replay(t, [a, b]) == Replay(t1, [b]);
    var t2 := Reduce(t1, b.action, b.at);
    assert [b][1..] == [];
    assert Replay(t1, [b]) == Replay(t2, []);
    assert Replay(t2, []) == t2;
  }

  /** The state after the opening actions of a resend, at the index of the
      resend's conversation: the kept history and the streaming
      placeholder. */
  lemma ResendOpened(s: AppState, p: ResendPlan, now: nat, i: nat) returns (r1: AppState)
    requires p.Resend? && i < |s.conversations| && s.conversations[i].id == p.conversation.id
    requires FindMessage(s.conversations[i].messages, p.messageId).Some?
    requires p.kept == Kept(s.conversations[i].messages, p.messageId, p.text)
    ensures r1 == Replay(s, ResendOpening(p, now))
    ensures |r1.conversations| == |s.conversations| && r1.conversations[i].id == p.conversation.id
    ensures r1.conversations[i].messages == p.kept + [p.placeholder]
  {
    var cid := p.conversation.id;
    ReplayThree(s, Step(UpdateMessage(cid, p.messageId, p.text), now), Step(DeleteMessagesAfter(cid, p.messageId), now),
                Step(AddMessage(cid, p.placeholder), now));
    EditThenCut(s, cid, p.messageId, p.text, now, i);
    var s2 := Reduce(Reduce(s, UpdateMessage(cid, p.messageId, p.text), now), DeleteMessagesAfter(cid, p.messageId), now);
    ReduceTargets(s, UpdateMessage(cid, p.messageId, p.text), now, cid);
    ReduceTargets(Reduce(s, UpdateMessage(cid, p.messageId, p.text), now), DeleteMessagesAfter(cid, p.messageId), now, cid);
    AddAt(s2, cid, p.placeholder, now, i);
    r1 := Replay(s, ResendOpening(p, now));
  }

  /** Where a resend succeeds, the conversation is the kept history, ending
      with the edited message, then the placeholder holding the reply with
      streaming switched off. */
  lemma ResendSucceeds(s: AppState, p: ResendPlan, now: nat, later: nat, text: string, i: nat)
    requires p.Resend? && i < |s.conversations| && s.conversations[i].id == p.conversation.id
    requires FindMessage(s.conversations[i].messages, p.messageId).Some?
    requires p.kept == Kept(s.conversations[i].messages, p.messageId, p.text)
    requires forall j :: 0 <= j < |p.kept| ==> p.kept[j].id != p.placeholder.id
    ensures var r := Replay(s, ResendSteps(p, Http.Returned(text), now, later));
      |r.conversations| == |s.conversations|
      && r.conversations[i].messages == p.kept + [p.placeholder.(content := text, isStreaming := false)]
      && p.kept[|p.kept| - 1].id == p.messageId && p.kept[|p.kept| - 1].content == p.text
  {
    var cid := p.conversation.id;
    var pid := p.placeholder.id;
    var r1 := ResendOpened(s, p, now, i);
    var a := Step(UpdateMessage(cid, pid, text), later);
    var b := Step(SetMessageStreaming(cid, pid, false), later);
    assert ResendClosing(p, Http.Returned(text), later) == [a, b];
    ReplayAppend(s, ResendOpening(p, now), [a, b]);
    ReplayTwo(r1, a, b);
    UpdateLast(r1, cid, p.kept, p.placeholder, text, later, i);
    var r2 := Reduce(r1, a.action, a.at);
    StreamLast(r2, cid, p.kept, p.placeholder.(content := text), false, later, i);
  }

  /** Where a resend fails, the error is appended as a message of its own
      after the placeholder, which keeps its empty text and is never switched
      out of streaming. */
  lemma ResendFailureLeavesPlaceholder(s: AppState, p: ResendPlan, now: nat, later: nat, e: Http.Thrown, i: nat)
    requires p.Resend? && i < |s.conversations| && s.conversations[i].id == p.conversation.id
    requires FindMessage(s.conversations[i].messages, p.messageId).Some?
    requires p.kept == Kept(s.conversations[i].messages, p.messageId, p.text)
    ensures var r := Replay(s, ResendSteps(p, Http.Threw(e), now, later));
      |r.conversations| == |s.conversations|
      && r.conversations[i].messages == p.kept + [p.placeholder, ResendError(e, later)]
  {
    var cid := p.conversation.id;
    var r1 := ResendOpened(s, p, now, i);
    var a := Step(AddMessage(cid, ResendError(e, later)), later);
    assert ResendClosing(p, Http.Threw(e), later) == [a];
    ReplayAppend(s, ResendOpening(p, now), [a]);
    ReplayCons(r1, a, []);
    AddAt(r1, cid, ResendError(e, later), later, i);
    assert (p.kept + [p.placeholder]) + [ResendError(e, later)] == p.kept + [p.placeholder, ResendError(e, later)];
  }

  /** A resend of a message id the conversation does not hold sends no
      history at all, only the system prompt when there is one, while the
      conversation keeps every message. */
  lemma ResendOfMissingMessage(s: AppState, edit: string, isResending: bool, mid: string, now: nat)
    requires PlanResend(s, edit, isResending, mid, now).Resend?
    requires forall j :: 0 <= j < |CurrentForList(s).value.messages| ==> CurrentForList(s).value.messages[j].id != mid
    ensures var p := PlanResend(s, edit, isResending, mid, now);
      p.kept == [] && p.call.messages == SystemPrefix(s.promptConfig.systemPrompt, now)
  {
    var p := PlanResend(s, edit, isResending, mid, now);
    assert NonSystem(p.kept) == [];
  }
}
