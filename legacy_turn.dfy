/** `handleSend` and `handleClear` of the older client
    (src/components/MessageInput.tsx). The user's text goes through the
    prompt template before it is sent, and the reply streams into the
    placeholder chunk by chunk. The call's outcome (the deltas passed to
    `onChunk` and how the promise settled) is a parameter; `Date.now()` is
    `now` before the call and `later` after it, and the locale date and time
    strings are parameters. */
module LegacyTurn {

  import opened Wrappers
  import opened Strs
  import opened ChatTypes
  import opened ConversationList
  import opened LegacyReducer
  import PromptTemplate
  import SseStream
  import LegacyApi
  import Http
  import ChatTurn

  /** `state.conversations.find(c => c.id === state.currentConversationId)`. */
  function Current(s: AppState): (r: Option<Conversation>)
    ensures s.currentConversationId.None? ==> r.None?
    ensures r.Some? ==> Some(r.value.id) == s.currentConversationId && r.value in s.conversations
    ensures s.currentConversationId.Some? && r.None? ==>
      forall i :: 0 <= i < |s.conversations| ==> s.conversations[i].id != s.currentConversationId.value
  {
    match s.currentConversationId
    case None => None
    case Some(id) => ChatTurn.FindConversation(s.conversations, id)
  }

  /** The variables the template is filled with. */
  function TemplateVars(userInput: string, date: string, time: string): map<string, string> {
    map["user_input" := userInput, "date" := date, "time" := time]
  }

  /** What `handleSend` decides before its first dispatch: nothing, or a
      turn in `conversation` sending `outgoing`. */
  datatype SendPlan =
    | Ignored
    | Turn(conversation: Conversation, user: Message, placeholder: Message, outgoing: seq<Message>)

  /** The guards of `handleSend` and the records of the turn: the stored
      user message holds the trimmed input, while the copy that is sent holds
      the template filled with it. */
  function PlanSend(s: AppState, input: string, isLoading: bool, now: nat, date: string, time: string): (p: SendPlan)
    ensures p.Ignored? <==> AllWhitespace(input) || Current(s).None? || s.apiConfig.None? || isLoading
    ensures p.Turn? ==>
      p.conversation == Current(s).value
      && p.user == Message(ChatTurn.UserId(now), Role.User, Trim(input), now, false) && p.user.content != ""
      && p.placeholder == Message(ChatTurn.AssistantId(now), Assistant, "", now, false)
      && p.user.id != p.placeholder.id
    ensures p.Turn? ==>
      var sent := p.user.(content := PromptTemplate.Parse(s.promptConfig.userPromptTemplate, TemplateVars(Trim(input), date, time)));
      p.outgoing == ChatTurn.SystemPrefix(s.promptConfig.systemPrompt, now) + NonSystem(p.conversation.messages) + [sent]
  {
    if AllWhitespace(input) || Current(s).None? || s.apiConfig.None? || isLoading then Ignored
    else
      var c := Current(s).value;
      var user := Message(ChatTurn.UserId(now), Role.User, Trim(input), now, false);
      var content := PromptTemplate.Parse(s.promptConfig.userPromptTemplate, TemplateVars(Trim(input), date, time));
      ChatTurn.IdsDiffer(now, now);
      Turn(c, user, Message(ChatTurn.AssistantId(now), Assistant, "", now, false),
           ChatTurn.SystemPrefix(s.promptConfig.systemPrompt, now) + NonSystem(c.messages) + [user.(content := content)])
  }

  /** The outgoing list ends with the user's templated message, and its
      non-system part is the earlier non-system history followed by that
      message. */
  lemma OutgoingEndsWithUser(s: AppState, input: string, isLoading: bool, now: nat, date: string, time: string)
    requires PlanSend(s, input, isLoading, now, date, time).Turn?
    ensures var p := PlanSend(s, input, isLoading, now, date, time);
      var sent := p.outgoing[|p.outgoing| - 1];
      sent.id == p.user.id && sent.role == Role.User
      && NonSystem(p.outgoing) == NonSystem(p.conversation.messages) + [sent]
  {
    var p := PlanSend(s, input, isLoading, now, date, time);
    var sent := p.outgoing[|p.outgoing| - 1];
    ChatTurn.PrefixIsSystem(s.promptConfig.systemPrompt, now);
    ChatTurn.OutgoingHistory(ChatTurn.SystemPrefix(s.promptConfig.systemPrompt, now), NonSystem(p.conversation.messages), sent);
  }

  /** With the default template `{{user_input}}` the text sent is the
      trimmed input itself. */
  lemma DefaultTemplateSendsInput(s: AppState, input: string, isLoading: bool, now: nat, date: string, time: string)
    requires s.promptConfig.userPromptTemplate == DEFAULT_USER_TEMPLATE
    requires PlanSend(s, input, isLoading, now, date, time).Turn?
    ensures var p := PlanSend(s, input, isLoading, now, date, time);
      p.outgoing[|p.outgoing| - 1].content == Trim(input)
  {
    var p := PlanSend(s, input, isLoading, now, date, time);
    var vars := TemplateVars(Trim(input), date, time);
    var sent := p.user.(content := PromptTemplate.Parse(s.promptConfig.userPromptTemplate, vars));
    var front := ChatTurn.SystemPrefix(s.promptConfig.systemPrompt, now) + NonSystem(p.conversation.messages);
    assert p.outgoing == front + [sent];
    assert p.outgoing[|p.outgoing| - 1] == sent;
    DefaultTemplateFills(vars);
  }

  /** The default template is replaced by the value of `user_input`. */
  lemma DefaultTemplateFills(vars: map<string, string>)
    requires "user_input" in vars
    ensures PromptTemplate.Parse(DEFAULT_USER_TEMPLATE, vars) == vars["user_input"]
  {
    assert DEFAULT_USER_TEMPLATE == "{{" + "user_input" + "}}" + "";
    PromptTemplate.SinglePass("user_input", "", vars);
  }

  // ---------------------------------------------------------------------
  // The actions a turn dispatches.

  // `Step`, `Replay` and the replay lemmas below have the shape of those in
  // ChatTurn, but range over the older client's state and reducer.

  /** A dispatched action with the clock reading the reducer sees. */
  datatype Step = Step(action: Action, at: nat)

  /** The state after the steps, in order. */
  function Replay(s: AppState, steps: seq<Step>): AppState
    decreases |steps|
  {
    if steps == [] then s else Replay(Reduce(s, steps[0].action, steps[0].at), steps[1..])
  }

  /** The actions before the call: the user message, then the empty
      placeholder. */
  function Opening(p: SendPlan, now: nat): seq<Step>
    requires p.Turn?
  {
    [Step(AddMessage(p.conversation.id, p.user), now), Step(AddMessage(p.conversation.id, p.placeholder), now)]
  }

  /** One UPDATE_MESSAGE per delta, each carrying the text accumulated so
      far. */
  function ChunkSteps(cid: string, pid: string, deltas: seq<string>, at: nat): (r: seq<Step>)
    ensures |r| == |deltas|
  {
    seq(|deltas|, i requires 0 <= i < |deltas| => Step(UpdateMessage(cid, pid, SseStream.Concat(deltas[..i + 1])), at))
  }

  /** The action after a failed call: the error text written, with
      UPDATE_MESSAGE, to the message `errorTarget`. */
  function Closing(p: SendPlan, settled: Http.Settled, later: nat, errorTarget: string): seq<Step>
    requires p.Turn?
  {
    match settled
    case Returned(_) => []
    case Threw(e) =>
      [Step(UpdateMessage(p.conversation.id, errorTarget, ChatTurn.ERROR_PREFIX + ChatTurn.ErrorText(e, ChatTurn.SEND_FAILED)), later)]
  }

  /** The actions `handleSend` dispatches, with the error written to the
      placeholder. */
  function SendSteps(p: SendPlan, outcome: LegacyApi.Outcome, now: nat, later: nat): seq<Step>
    requires p.Turn?
  {
    Opening(p, now) + ChunkSteps(p.conversation.id, p.placeholder.id, outcome.deltas, later)
    + Closing(p, outcome.settled, later, p.placeholder.id)
  }

  /** The actions as the source writes them: the error goes to an id made
      from the clock after the call. */
  function SendStepsAsWritten(p: SendPlan, outcome: LegacyApi.Outcome, now: nat, later: nat): seq<Step>
    requires p.Turn?
  {
    Opening(p, now) + ChunkSteps(p.conversation.id, p.placeholder.id, outcome.deltas, later)
    + Closing(p, outcome.settled, later, ChatTurn.AssistantId(later))
  }

  /** Each delta's update carries a prefix of every later update's text, and
      the last carries all the deltas joined. */
  lemma ChunkContentsGrow(cid: string, pid: string, deltas: seq<string>, at: nat)
    ensures var steps := ChunkSteps(cid, pid, deltas, at);
      (forall i, j :: 0 <= i <= j < |deltas| ==>
         IsPrefix(steps[i].action.content, steps[j].action.content))
      && (deltas != [] ==> steps[|deltas| - 1].action.content == SseStream.Concat(deltas))
  {
    var steps := ChunkSteps(cid, pid, deltas, at);
    forall i, j | 0 <= i <= j < |deltas|
      ensures IsPrefix(steps[i].action.content, steps[j].action.content)
    {
      ChunkAt(cid, pid, deltas, at, i);
      ChunkAt(cid, pid, deltas, at, j);
      ConcatPrefix(deltas, i, j);
    }
    if deltas != [] {
      ChunkAt(cid, pid, deltas, at, |deltas| - 1);
      LastChunkIsWhole(deltas);
    }
  }

  /** The update for one delta carries the deltas joined up to it. */
  lemma ChunkAt(cid: string, pid: string, deltas: seq<string>, at: nat, i: nat)
    requires i < |deltas|
    ensures ChunkSteps(cid, pid, deltas, at)[i].action.UpdateMessage?
    ensures ChunkSteps(cid, pid, deltas, at)[i].action.content == SseStream.Concat(deltas[..i + 1])
  {
  }

  /** The deltas joined up to the last one are all the deltas joined. */
  lemma LastChunkIsWhole(deltas: seq<string>)
    requires deltas != []
    ensures SseStream.Concat(deltas[..|deltas| - 1 + 1]) == SseStream.Concat(deltas)
  {
    assert deltas[..|deltas| - 1 + 1] == deltas;
  }

  /** The deltas joined up to one point are a prefix of the deltas joined up
      to a later point. */
  lemma ConcatPrefix(deltas: seq<string>, i: nat, j: nat)
    requires i <= j < |deltas|
    ensures IsPrefix(SseStream.Concat(deltas[..i + 1]), SseStream.Concat(deltas[..j + 1]))
  {
    var d := deltas[..j + 1];
    SseStream.ConcatSplit(d, i + 1);
    assert d[..i + 1] == deltas[..i + 1];
  }

  /** `a` is a prefix of `b`. */
  predicate IsPrefix(a: string, b: string) {
    |a| <= |b| && b[..|a|] == a
  }

  // ---------------------------------------------------------------------
  // The handler, on a session that holds the reducer state.

  class LegacySession {
    var state: AppState
    var log: seq<Step>

    constructor(s: AppState)
      ensures state == s && log == []
    {
      state := s;
      log := [];
    }

    /** `dispatch(action)` at clock reading `at`. */
    method Dispatch(a: Action, at: nat)
      modifies this
      ensures state == Reduce(old(state), a, at)
      ensures log == old(log) + [Step(a, at)]
    {
      state := Reduce(state, a, at);
      log := log + [Step(a, at)];
    }

    /** Dispatches the steps one after another. */
    method Run(steps: seq<Step>)
      modifies this
      ensures state == Replay(old(state), steps)
      ensures log == old(log) + steps
    {
      var i := 0;
      while i < |steps|
        invariant 0 <= i <= |steps|
        invariant Replay(state, steps[i..]) == Replay(old(state), steps)
        invariant log == old(log) + steps[..i]
      {
        assert steps[i..][1..] == steps[i + 1..];
        Dispatch(steps[i].action, steps[i].at);
        assert steps[..i + 1] == steps[..i] + [steps[i]];
        i := i + 1;
      }
    }

    /** The `onChunk` callback, called once per delta: each call dispatches
        the text so far plus the delta and then extends the local copy of
        the placeholder's content. */
    method StreamDeltas(cid: string, pid: string, deltas: seq<string>, at: nat) returns (content: string)
      modifies this
      ensures content == SseStream.Concat(deltas)
      ensures state == Replay(old(state), ChunkSteps(cid, pid, deltas, at))
      ensures log == old(log) + ChunkSteps(cid, pid, deltas, at)
    {
      var steps := ChunkSteps(cid, pid, deltas, at);
      content := "";
      var k := 0;
      while k < |deltas|
        invariant 0 <= k <= |deltas|
        invariant content == SseStream.Concat(deltas[..k])
        invariant Replay(state, steps[k..]) == Replay(old(state), steps)
        invariant log == old(log) + steps[..k]
      {
        SseStream.ConcatSnoc(deltas, k);
        assert steps[k] == Step(UpdateMessage(cid, pid, content + deltas[k]), at);
        assert steps[k..][1..] == steps[k + 1..];
        Dispatch(UpdateMessage(cid, pid, content + deltas[k]), at);
        assert steps[..k + 1] == steps[..k] + [steps[k]];
        content := content + deltas[k];
        k := k + 1;
      }
      assert deltas[..k] == deltas;
    }

    /** `handleSend()`, given the outcome of its call, as the source writes
        it: a failed call's error goes to the id made from the clock after
        the call. */
    method HandleSend(input: string, isLoading: bool, now: nat, later: nat, date: string, time: string,
                      outcome: LegacyApi.Outcome)
      returns (p: SendPlan)
      modifies this
      ensures p == PlanSend(old(state), input, isLoading, now, date, time)
      ensures !p.Turn? ==> state == old(state) && log == old(log)
      ensures p.Turn? ==>
        var steps := SendStepsAsWritten(p, outcome, now, later);
        state == Replay(old(state), steps) && log == old(log) + steps
    {
      p := PlanSend(state, input, isLoading, now, date, time);
      if p.Turn? {
        RunTurn(p, outcome, now, later, ChatTurn.AssistantId(later));
      }
    }

    /** The corrected `handleSend()`: a failed call's error goes into the
        placeholder. */
    method HandleSendCorrected(input: string, isLoading: bool, now: nat, later: nat, date: string, time: string,
                               outcome: LegacyApi.Outcome)
      returns (p: SendPlan)
      modifies this
      ensures p == PlanSend(old(state), input, isLoading, now, date, time)
      ensures !p.Turn? ==> state == old(state) && log == old(log)
      ensures p.Turn? ==>
        var steps := SendSteps(p, outcome, now, later);
        state == Replay(old(state), steps) && log == old(log) + steps
    {
      p := PlanSend(state, input, isLoading, now, date, time);
      if p.Turn? {
        RunTurn(p, outcome, now, later, p.placeholder.id);
      }
    }

    /** The dispatches of a turn that passed the guards: the two messages,
        one update per streamed delta, and, when the call failed, the error
        update addressed to `errorTarget`. */
    method RunTurn(p: SendPlan, outcome: LegacyApi.Outcome, now: nat, later: nat, errorTarget: string)
      requires p.Turn?
      modifies this
      ensures var steps := Opening(p, now) + ChunkSteps(p.conversation.id, p.placeholder.id, outcome.deltas, later)
          + Closing(p, outcome.settled, later, errorTarget);
        state == Replay(old(state), steps) && log == old(log) + steps
    {
      var streamed := Opening(p, now) + ChunkSteps(p.conversation.id, p.placeholder.id, outcome.deltas, later);
      var closing := Closing(p, outcome.settled, later, errorTarget);
      ReplayAppend(state, streamed, closing);
      OpenAndStream(p, outcome.deltas, now, later);
      Run(closing);
    }

    /** The two messages, then one update per streamed delta. */
    method OpenAndStream(p: SendPlan, deltas: seq<string>, now: nat, later: nat)
      requires p.Turn?
      modifies this
      ensures var steps := Opening(p, now) + ChunkSteps(p.conversation.id, p.placeholder.id, deltas, later);
        state == Replay(old(state), steps) && log == old(log) + steps
    {
      var opening := Opening(p, now);
      ReplayAppend(state, opening, ChunkSteps(p.conversation.id, p.placeholder.id, deltas, later));
      Run(opening);
      var _ := StreamDeltas(p.conversation.id, p.placeholder.id, deltas, later);
    }

    /** `handleClear()`: with a current conversation and the user's
        confirmation, clears it. */
    method HandleClear(confirmed: bool, now: nat)
      modifies this
      ensures Current(old(state)).Some? && confirmed ==>
        var a := ClearConversation(Current(old(state)).value.id);
        state == Reduce(old(state), a, now) && log == old(log) + [Step(a, now)]
      ensures Current(old(state)).None? || !confirmed ==> state == old(state) && log == old(log)
    {
      var current := Current(state);
      if current.Some? && confirmed {
        Dispatch(ClearConversation(current.value.id), now);
      }
    }
  }

  // ---------------------------------------------------------------------
  // What a turn does to its conversation.
  // (These lemmas follow ChatTurn's, over the older client's `AppState`
  // and reducer.)

  /** Replaying two lists is replaying their concatenation. */
  lemma {:induction false} ReplayAppend(s: AppState, a: seq<Step>, b: seq<Step>)
    ensures Replay(s, a + b) == Replay(Replay(s, a), b)
    decreases |a|
  {
    if a != [] {
      assert (a + b)[1..] == a[1..] + b;
      ReplayAppend(Reduce(s, a[0].action, a[0].at), a[1..], b);
    } else {
      assert a + b == b;
      assert Replay(s, a) == s;
    }
  }

  /** Two steps replayed are two reductions. */
  lemma ReplayTwo(t: AppState, a: Step, b: Step)
    ensures Replay(t, [a, b]) == Reduce(Reduce(t, a.action, a.at), b.action, b.at)
  {
    var t1 := Reduce(t, a.action, a.at);
    assert [a, b][1..] == [b];
    assert Replay(t, [a, b]) == Replay(t1, [b]);
    var t2 := Reduce(t1, b.action, b.at);
    assert [b][1..] == [];
    assert Replay(t1, [b]) == Replay(t2, []);
    assert Replay(t2, []) == t2;
  }

  /** ADD_MESSAGE, seen at one index. */
  lemma AddAt(t: AppState, cid: string, m: Message, at: nat, i: nat)
    requires i < |t.conversations|
    ensures var r := Reduce(t, AddMessage(cid, m), at);
      |r.conversations| == |t.conversations|
      && r.conversations[i] ==
           (if t.conversations[i].id == cid
            then t.conversations[i].(messages := t.conversations[i].messages + [m], updatedAt := at)
            else t.conversations[i])
  {
  }

  /** UPDATE_MESSAGE on the last message, whose id no earlier message has. */
  lemma UpdateLast(t: AppState, cid: string, ms: seq<Message>, m: Message, content: string, at: nat, i: nat)
    requires i < |t.conversations| && t.conversations[i].id == cid && t.conversations[i].messages == ms + [m]
    requires forall j :: 0 <= j < |ms| ==> ms[j].id != m.id
    ensures var r := Reduce(t, UpdateMessage(cid, m.id, content), at);
      |r.conversations| == |t.conversations|
      && r.conversations[i] == t.conversations[i].(messages := ms + [m.(content := content)], updatedAt := at)
  {
    ChatTurn.MapFreshLast(ms, m, (x: Message) => x.(content := content));
  }

  /** UPDATE_MESSAGE on an id no message has changes no message. */
  lemma UpdateMissing(t: AppState, cid: string, mid: string, content: string, at: nat, i: nat)
    requires i < |t.conversations| && t.conversations[i].id == cid
    requires forall j :: 0 <= j < |t.conversations[i].messages| ==> t.conversations[i].messages[j].id != mid
    ensures var r := Reduce(t, UpdateMessage(cid, mid, content), at);
      |r.conversations| == |t.conversations| && r.conversations[i].messages == t.conversations[i].messages
  {
    ChatTurn.MapNoMatch(t.conversations[i].messages, mid, (x: Message) => x.(content := content));
  }

  /** The opening actions append the user message and the placeholder. */
  lemma Opened(s: AppState, p: SendPlan, now: nat, i: nat) returns (r1: AppState)
    requires p.Turn? && i < |s.conversations| && s.conversations[i].id == p.conversation.id
    ensures r1 == Replay(s, Opening(p, now))
    ensures |r1.conversations| == |s.conversations| && r1.conversations[i].id == p.conversation.id
    ensures r1.conversations[i].messages == (s.conversations[i].messages + [p.user]) + [p.placeholder]
  {
    var cid := p.conversation.id;
    var a := Step(AddMessage(cid, p.user), now);
    var b := Step(AddMessage(cid, p.placeholder), now);
    assert Opening(p, now) == [a, b];
    ReplayTwo(s, a, b);
    AddAt(s, cid, p.user, now, i);
    AddAt(Reduce(s, a.action, a.at), cid, p.placeholder, now, i);
    r1 := Replay(s, Opening(p, now));
  }

  /** Replaying the first `k` chunk updates leaves the placeholder holding
      the first `k` deltas joined (its own text while `k` is zero). */
  lemma {:induction false} ChunksFill(t: AppState, cid: string, ms: seq<Message>, ph: Message, deltas: seq<string>, at: nat, i: nat, k: nat)
    requires i < |t.conversations| && t.conversations[i].id == cid && t.conversations[i].messages == ms + [ph]
    requires forall j :: 0 <= j < |ms| ==> ms[j].id != ph.id
    requires k <= |deltas|
    ensures var r := Replay(t, ChunkSteps(cid, ph.id, deltas, at)[..k]);
      |r.conversations| == |t.conversations| && r.conversations[i].id == cid
      && r.conversations[i].messages == ms + [if k == 0 then ph else ph.(content := SseStream.Concat(deltas[..k]))]
    decreases k
  {
    var steps := ChunkSteps(cid, ph.id, deltas, at);
    if k == 0 {
      assert steps[..0] == [];
    } else {
      ChunksFill(t, cid, ms, ph, deltas, at, i, k - 1);
      var r0 := Replay(t, steps[..k - 1]);
      assert steps[..k] == steps[..k - 1] + [steps[k - 1]];
      ReplayAppend(t, steps[..k - 1], [steps[k - 1]]);
      assert [steps[k - 1]][1..] == [];
      var cur := if k - 1 == 0 then ph else ph.(content := SseStream.Concat(deltas[..k - 1]));
      UpdateLast(r0, cid, ms, cur, SseStream.Concat(deltas[..k]), at, i);
    }
  }

  /** The state once the opening actions and every chunk update ran: the
      placeholder holds every delta joined. */
  lemma Streamed(s: AppState, p: SendPlan, deltas: seq<string>, now: nat, later: nat, i: nat) returns (r2: AppState)
    requires p.Turn? && p.user.id != p.placeholder.id && p.placeholder.content == ""
    requires i < |s.conversations| && s.conversations[i].id == p.conversation.id
    requires forall j :: 0 <= j < |s.conversations[i].messages| ==> s.conversations[i].messages[j].id != p.placeholder.id
    ensures r2 == Replay(s, Opening(p, now) + ChunkSteps(p.conversation.id, p.placeholder.id, deltas, later))
    ensures |r2.conversations| == |s.conversations| && r2.conversations[i].id == p.conversation.id
    ensures r2.conversations[i].messages ==
      (s.conversations[i].messages + [p.user]) + [p.placeholder.(content := SseStream.Concat(deltas))]
  {
    var ms := s.conversations[i].messages + [p.user];
    var r1 := Opened(s, p, now, i);
    var chunks := ChunkSteps(p.conversation.id, p.placeholder.id, deltas, later);
    ReplayAppend(s, Opening(p, now), chunks);
    ChunksFill(r1, p.conversation.id, ms, p.placeholder, deltas, later, i, |deltas|);
    assert chunks[..|deltas|] == chunks;
    assert deltas[..|deltas|] == deltas;
    r2 := Replay(s, Opening(p, now) + chunks);
  }

  /** Where the call returns, the conversation gains the user message (its
      trimmed input, not the templated text) and the placeholder holding
      every delta joined. */
  lemma LegacySendSucceeds(s: AppState, p: SendPlan, outcome: LegacyApi.Outcome, now: nat, later: nat, i: nat)
    requires p.Turn? && outcome.settled.Returned? && p.user.id != p.placeholder.id && p.placeholder.content == ""
    requires i < |s.conversations| && s.conversations[i].id == p.conversation.id
    requires forall j :: 0 <= j < |s.conversations[i].messages| ==> s.conversations[i].messages[j].id != p.placeholder.id
    ensures var r := Replay(s, SendSteps(p, outcome, now, later));
      |r.conversations| == |s.conversations|
      && r.conversations[i].messages ==
           s.conversations[i].messages + [p.user, p.placeholder.(content := SseStream.Concat(outcome.deltas))]
  {
    var chunks := ChunkSteps(p.conversation.id, p.placeholder.id, outcome.deltas, later);
    var r2 := Streamed(s, p, outcome.deltas, now, later, i);
    assert SendSteps(p, outcome, now, later) == (Opening(p, now) + chunks) + [];
    ReplayAppend(s, Opening(p, now) + chunks, []);
  }

  /** Where the call fails, the placeholder's text (whatever streamed so
      far) is replaced by the error text. */
  lemma LegacySendFails(s: AppState, p: SendPlan, outcome: LegacyApi.Outcome, e: Http.Thrown, now: nat, later: nat, i: nat)
    requires p.Turn? && outcome.settled == Http.Threw(e) && p.user.id != p.placeholder.id && p.placeholder.content == ""
    requires i < |s.conversations| && s.conversations[i].id == p.conversation.id
    requires forall j :: 0 <= j < |s.conversations[i].messages| ==> s.conversations[i].messages[j].id != p.placeholder.id
    ensures var r := Replay(s, SendSteps(p, outcome, now, later));
      |r.conversations| == |s.conversations|
      && r.conversations[i].messages ==
           s.conversations[i].messages
           + [p.user, p.placeholder.(content := ChatTurn.ERROR_PREFIX + ChatTurn.ErrorText(e, ChatTurn.SEND_FAILED))]
  {
    var cid := p.conversation.id;
    var chunks := ChunkSteps(cid, p.placeholder.id, outcome.deltas, later);
    var r2 := Streamed(s, p, outcome.deltas, now, later, i);
    var text := ChatTurn.ERROR_PREFIX + ChatTurn.ErrorText(e, ChatTurn.SEND_FAILED);
    var update := Step(UpdateMessage(cid, p.placeholder.id, text), later);
    assert SendSteps(p, outcome, now, later) == (Opening(p, now) + chunks) + [update];
    ReplayAppend(s, Opening(p, now) + chunks, [update]);
    assert [update][1..] == [];
    var ms := s.conversations[i].messages + [p.user];
    var cur := p.placeholder.(content := SseStream.Concat(outcome.deltas));
    UpdateLast(r2, cid, ms, cur, text, later, i);
  }

  /** As the source writes it, a failed call loses its error: the error is
      written to `msg-<later>-assistant`, which is not the placeholder once
      the clock has moved on, so the placeholder keeps whatever streamed
      (nothing at all when the call failed before streaming). */
  lemma LegacyErrorLostAsWritten(s: AppState, p: SendPlan, outcome: LegacyApi.Outcome, e: Http.Thrown, now: nat, later: nat, i: nat)
    requires p.Turn? && outcome.settled == Http.Threw(e) && p.placeholder.content == ""
    requires p.user.id == ChatTurn.UserId(now) && p.placeholder.id == ChatTurn.AssistantId(now) && later != now
    requires i < |s.conversations| && s.conversations[i].id == p.conversation.id
    requires forall j :: 0 <= j < |s.conversations[i].messages| ==>
      s.conversations[i].messages[j].id != p.placeholder.id && s.conversations[i].messages[j].id != ChatTurn.AssistantId(later)
    ensures var r := Replay(s, SendStepsAsWritten(p, outcome, now, later));
      |r.conversations| == |s.conversations|
      && r.conversations[i].messages ==
           s.conversations[i].messages + [p.user, p.placeholder.(content := SseStream.Concat(outcome.deltas))]
  {
    ChatTurn.IdsDiffer(now, later);
    ChatTurn.IdsDiffer(later, now);
    ChatTurn.IdsDiffer(now, now);
    var cid := p.conversation.id;
    var target := ChatTurn.AssistantId(later);
    var chunks := ChunkSteps(cid, p.placeholder.id, outcome.deltas, later);
    var r2 := Streamed(s, p, outcome.deltas, now, later, i);
    var update := Step(UpdateMessage(cid, target, ChatTurn.ERROR_PREFIX + ChatTurn.ErrorText(e, ChatTurn.SEND_FAILED)), later);
    assert SendStepsAsWritten(p, outcome, now, later) == (Opening(p, now) + chunks) + [update];
    ReplayAppend(s, Opening(p, now) + chunks, [update]);
    assert [update][1..] == [];
    UpdateMissing(r2, cid, target, ChatTurn.ERROR_PREFIX + ChatTurn.ErrorText(e, ChatTurn.SEND_FAILED), later, i);
    assert (s.conversations[i].messages + [p.user]) + [p.placeholder.(content := SseStream.Concat(outcome.deltas))]
        == s.conversations[i].messages + [p.user, p.placeholder.(content := SseStream.Concat(outcome.deltas))];
  }
}
