/** The list operations both revisions of the app reducer build their cases
    from (frontend/src/contexts/AppContext.tsx, src/contexts/AppContext.tsx):
    `filter` by id, `find` of the first other conversation, `map` over the
    conversations or messages whose id matches, and `findIndex`. */
module ConversationList {

  import opened Wrappers
  import opened ChatTypes

  /** `cs.map(c => c.id === id ? f(c) : c)`. */
  function MapWhere(cs: seq<Conversation>, id: string, f: Conversation -> Conversation): (r: seq<Conversation>)
    ensures |r| == |cs|
    ensures forall i :: 0 <= i < |cs| && cs[i].id == id ==> r[i] == f(cs[i])
    ensures forall i :: 0 <= i < |cs| && cs[i].id != id ==> r[i] == cs[i]
  {
    if cs == [] then []
    else
      var last := cs[|cs| - 1];
      MapWhere(cs[..|cs| - 1], id, f) + [if last.id == id then f(last) else last]
  }

  /** `ms.map(m => m.id === id ? f(m) : m)`: the same map as `MapWhere`, kept
      apart because messages and conversations are different types. */
  function MapMessagesWhere(ms: seq<Message>, id: string, f: Message -> Message): (r: seq<Message>)
    ensures |r| == |ms|
    ensures forall i :: 0 <= i < |ms| && ms[i].id == id ==> r[i] == f(ms[i])
    ensures forall i :: 0 <= i < |ms| && ms[i].id != id ==> r[i] == ms[i]
  {
    if ms == [] then []
    else
      var last := ms[|ms| - 1];
      MapMessagesWhere(ms[..|ms| - 1], id, f) + [if last.id == id then f(last) else last]
  }

  /** `cs.filter(c => c.id !== id)`: every conversation with that id goes,
      the others stay in their order. */
  function Without(cs: seq<Conversation>, id: string): (r: seq<Conversation>)
    ensures |r| <= |cs|
    ensures forall c :: c in r <==> c in cs && c.id != id
    ensures (forall i :: 0 <= i < |cs| ==> cs[i].id != id) ==> r == cs
  {
    if cs == [] then []
    else
      var rest := Without(cs[..|cs| - 1], id);
      assert cs == cs[..|cs| - 1] + [cs[|cs| - 1]];
      if cs[|cs| - 1].id == id then rest else rest + [cs[|cs| - 1]]
  }

  /** Filtering distributes over concatenation, so the kept conversations
      keep their relative order. */
  lemma {:induction false} WithoutAppend(a: seq<Conversation>, b: seq<Conversation>, id: string)
    ensures Without(a + b, id) == Without(a, id) + Without(b, id)
  {
    if b != [] {
      assert (a + b)[..|a + b| - 1] == a + b[..|b| - 1];
      assert (a + b)[|a + b| - 1] == b[|b| - 1];
      WithoutAppend(a, b[..|b| - 1], id);
    } else {
      assert a + b == a;
    }
  }

  /** `i` is the position `cs.find(c => c.id !== id)` stops at. */
  ghost predicate FirstOtherAt(cs: seq<Conversation>, id: string, i: int) {
    0 <= i < |cs| && cs[i].id != id && forall j :: 0 <= j < i ==> cs[j].id == id
  }

  /** `cs.find(c => c.id !== id)?.id || null`: the id of the first
      conversation with another id; `null` when there is none, and also when
      that conversation's id is the empty string (`|| null`). */
  function FirstOtherId(cs: seq<Conversation>, id: string): (r: Option<string>)
    ensures r.Some? ==> r.value != id && r.value != ""
    ensures r.Some? ==> exists i :: FirstOtherAt(cs, id, i) && cs[i].id == r.value
    ensures r.None? ==> forall i :: FirstOtherAt(cs, id, i) ==> cs[i].id == ""
  {
    if cs == [] then None
    else if cs[0].id != id then
      assert FirstOtherAt(cs, id, 0);
      if cs[0].id != "" then Some(cs[0].id) else None
    else
      var r := FirstOtherId(cs[1..], id);
      assert forall i :: FirstOtherAt(cs, id, i) ==> i >= 1 && FirstOtherAt(cs[1..], id, i - 1);
      assert r.Some? ==> exists i :: FirstOtherAt(cs[1..], id, i) && cs[1..][i].id == r.value
                                        && FirstOtherAt(cs, id, i + 1);
      r
  }

  /** `ms.findIndex(m => m.id === id)`, with `None` for `-1`. */
  function FindMessage(ms: seq<Message>, id: string): (r: Option<nat>)
    ensures r.Some? ==> r.value < |ms| && ms[r.value].id == id
    ensures r.Some? ==> forall j :: 0 <= j < r.value ==> ms[j].id != id
    ensures r.None? <==> forall j :: 0 <= j < |ms| ==> ms[j].id != id
  {
    if ms == [] then None
    else if ms[0].id == id then Some(0)
    else
      match FindMessage(ms[1..], id)
      case None => None
      case Some(k) => Some(k + 1)
  }

  /** The DELETE_MESSAGES_AFTER rewrite of one conversation: keep the
      messages up to and including the first one with `messageId`; without
      such a message the conversation is returned as it is. */
  function KeepThrough(c: Conversation, messageId: string, now: int): (r: Conversation)
    ensures FindMessage(c.messages, messageId).None? ==> r == c
    ensures FindMessage(c.messages, messageId).Some? ==>
      var k := FindMessage(c.messages, messageId).value;
      r == c.(messages := c.messages[..k + 1], updatedAt := now)
  {
    match FindMessage(c.messages, messageId)
    case None => c
    case Some(k) => c.(messages := c.messages[..k + 1], updatedAt := now)
  }

  /** After KeepThrough the conversation ends with the first message that
      has `messageId`, and no earlier message has it. */
  lemma KeepThroughEndsAtMessage(c: Conversation, messageId: string, now: int)
    requires exists j :: 0 <= j < |c.messages| && c.messages[j].id == messageId
    ensures var r := KeepThrough(c, messageId, now);
      r.messages != [] && r.messages[|r.messages| - 1].id == messageId
      && (forall j :: 0 <= j < |r.messages| - 1 ==> r.messages[j].id != messageId)
      && r.messages == c.messages[..|r.messages|]
  {
  }

  /** Every message of every conversation with `isStreaming` cleared. */
  function StopStreaming(cs: seq<Conversation>): (r: seq<Conversation>)
    ensures |r| == |cs|
    ensures forall i :: 0 <= i < |cs| ==>
      r[i] == cs[i].(messages := r[i].messages) && |r[i].messages| == |cs[i].messages|
    ensures forall i, j :: 0 <= i < |cs| && 0 <= j < |r[i].messages| ==>
      r[i].messages[j] == cs[i].messages[j].(isStreaming := false)
  {
    if cs == [] then []
    else
      var c := cs[|cs| - 1];
      StopStreaming(cs[..|cs| - 1]) + [c.(messages := Quiet(c.messages))]
  }

  /** `ms.map(m => ({...m, isStreaming: false}))`. */
  function Quiet(ms: seq<Message>): (r: seq<Message>)
    ensures |r| == |ms|
    ensures forall j :: 0 <= j < |ms| ==> r[j] == ms[j].(isStreaming := false)
  {
    if ms == [] then [] else Quiet(ms[..|ms| - 1]) + [ms[|ms| - 1].(isStreaming := false)]
  }
}
