/** The records the chat client keeps in memory (frontend/src/types/index.ts
    and src/types/index.ts). Both revisions share these datatypes: a field
    that only the newer revision has is `false`, `None` or `""` in the older
    one, and an optional boolean that is absent reads as `false`, exactly as
    the source's `!x` tests read it. */
module ChatTypes {

  import opened Wrappers

  datatype Role = System | User | Assistant

  /** One turn of a conversation. `isStreaming` is the optional flag of the
      newer revision; absent means `false`. */
  datatype Message = Message(
    id: string,
    role: Role,
    content: string,
    timestamp: int,
    isStreaming: bool)

  datatype Conversation = Conversation(
    id: string,
    name: string,
    messages: seq<Message>,
    createdAt: int,
    updatedAt: int,
    isManuallyRenamed: bool,
    isPinned: bool)

  /** Selected provider and the key saved for each provider. `legacyKey` is the
      `apiKey` field an older saved configuration may still carry (`""` when
      it has none). Provider names are kept as strings because a loaded
      configuration may name a provider the switch does not know. */
  datatype ApiConfig = ApiConfig(
    provider: string,
    apiKeys: map<string, string>,
    legacyKey: string)

  /** Settings of the workflow-automation webhook. `httpMethod` (the source's `method`) is `None` when not
      set; `apiKey` and `customHeaders` are optional. */
  datatype N8NConfig = N8NConfig(
    url: string,
    urlType: string,
    httpMethod: Option<string>,
    apiKey: Option<string>,
    customHeaders: Option<map<string, string>>)

  datatype User = User(id: string, phone: Option<string>, isPro: bool, proExpiresAt: Option<int>)

  datatype Theme = Light | Dark

  const ZHIPU: string := "zhipu"
  const OPENAI: string := "openai"
  const CLAUDE: string := "claude"
  const TONGYI: string := "tongyi"
  const WENXIN: string := "wenxin"
  const SPARK: string := "spark"
  const DOUBAO: string := "doubao"

  /** The key built into the client for the zhipu provider. */
  const DEFAULT_ZHIPU_KEY: string := "403c7c9f1f124bf684a881fa01376bb8.IzkE5f2FI6WcXmJB"

  /** `apiKeys[name]`, with `""` for a missing entry (both are falsy). */
  function SavedKey(keys: map<string, string>, name: string): string {
    if name in keys then keys[name] else ""
  }

  /** `messages.filter(m => m.role !== 'system')`. */
  function NonSystem(ms: seq<Message>): (r: seq<Message>)
    ensures |r| <= |ms|
    ensures forall i :: 0 <= i < |r| ==> r[i].role != System
    ensures (forall i :: 0 <= i < |ms| ==> ms[i].role != System) ==> r == ms
  {
    if ms == [] then []
    else if ms[0].role == System then NonSystem(ms[1..])
    else [ms[0]] + NonSystem(ms[1..])
  }

  lemma {:induction false} NonSystemAppend(a: seq<Message>, b: seq<Message>)
    ensures NonSystem(a + b) == NonSystem(a) + NonSystem(b)
  {
    if a != [] {
      assert (a + b)[1..] == a[1..] + b;
      NonSystemAppend(a[1..], b);
    } else {
      assert a + b == b;
    }
  }

  /** Every message of `NonSystem(ms)` is a message of `ms`, in order. */
  lemma {:induction false} NonSystemSubsequence(ms: seq<Message>)
    ensures forall m :: m in NonSystem(ms) <==> m in ms && m.role != System
  {
    if ms != [] {
      NonSystemSubsequence(ms[1..]);
      assert ms == [ms[0]] + ms[1..];
    }
  }
}
