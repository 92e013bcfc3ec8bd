/** The model-provider adapters and the `callModelAPI` dispatcher of
    frontend/src/utils/apiService.ts, and the older copy in
    src/utils/apiService.ts, which shapes requests identically but never
    streams.

    `fetch` is the parameter `send`, which gives the reply to a request; the
    dispatcher's result records the requests it sent, so "throws before any
    request" is `sent == []`. The SSE payload parser is the parameter
    `delta`, as in `SseStream`. */
module Providers {

  import opened Wrappers
  import opened Strs
  import opened ChatTypes
  import opened Http
  import SseStream

  const NO_KEY_MESSAGE: string := "API Key未配置，请在右侧面板中设置API Key"
  const SPARK_MESSAGE: string := "星火大模型API暂未实现，请使用其他模型"
  const UNSUPPORTED_PREFIX: string := "不支持的API提供商: "
  const REQUEST_FAILED: string := "API请求失败"
  const CALL_FAILED: string := "API调用失败"

  const ZHIPU_URL: string := "https://open.bigmodel.cn/api/paas/v4/chat/completions"
  const OPENAI_URL: string := "https://api.openai.com/v1/chat/completions"
  const CLAUDE_URL: string := "https://api.anthropic.com/v1/messages"
  const TONGYI_URL: string := "https://dashscope.aliyuncs.com/api/v1/services/aigc/text-generation/generation"
  const WENXIN_URL: string := "https://aip.baidubce.com/rpc/2.0/ai_custom/v1/wenxinworkshop/chat/completions"
  const DOUBAO_URL: string := "https://ark.cn-beijing.volces.com/api/v3/chat/completions"

  // ---------------------------------------------------------------------
  // Message shaping

  /** A message as the wire carries it: a role and a text. */
  datatype Turn = Turn(role: Role, content: string)

  function Turns(ms: seq<Message>): (ts: seq<Turn>)
    ensures |ts| == |ms|
  {
    if ms == [] then [] else [Turn(ms[0].role, ms[0].content)] + Turns(ms[1..])
  }

  /** The role name each adapter writes for a message it keeps all roles of. */
  function RoleName(r: Role): string {
    match r
    case Assistant => "assistant"
    case System => "system"
    case User => "user"
  }

  /** Reading a role name back. */
  function ParseRole(s: string): (r: Option<Role>)
    ensures r.Some? ==> RoleName(r.value) == s
  {
    if s == "assistant" then Some(Assistant)
    else if s == "system" then Some(System)
    else if s == "user" then Some(Role.User)
    else None
  }

  /** Reading a wire message list back, `None` when a role is unknown. */
  function Unwire(ws: seq<WireMessage>): Option<seq<Turn>> {
    if ws == [] then Some([])
    else
      match (ParseRole(ws[0].role), Unwire(ws[1..]))
      case (Some(r), Some(rest)) => Some([Turn(r, ws[0].content)] + rest)
      case _ => None
  }

  /** `m.role === 'assistant' ? 'assistant' : m.role === 'system' ? 'system' : 'user'`
      over the whole list (openai, tongyi, doubao). */
  function AllRoles(ms: seq<Message>): seq<WireMessage> {
    if ms == [] then [] else [WireMessage(RoleName(ms[0].role), ms[0].content)] + AllRoles(ms[1..])
  }

  /** `m.role === 'assistant' ? 'assistant' : 'user'` over the list. */
  function TwoRoles(ms: seq<Message>): seq<WireMessage> {
    if ms == [] then []
    else [WireMessage(if ms[0].role == Assistant then "assistant" else "user", ms[0].content)] + TwoRoles(ms[1..])
  }

  /** `ms[i]` is the first system message of `ms`. */
  predicate FirstSystemAt(ms: seq<Message>, i: int) {
    0 <= i < |ms| && ms[i].role == System && forall j :: 0 <= j < i ==> ms[j].role != System
  }

  /** `messages.find(m => m.role === 'system')?.content`. */
  function FirstSystem(ms: seq<Message>): (r: Option<string>)
    ensures r.None? <==> forall i :: 0 <= i < |ms| ==> ms[i].role != System
    ensures r.Some? ==> exists i :: FirstSystemAt(ms, i) && ms[i].content == r.value
  {
    if ms == [] then None
    else if ms[0].role == System then
      assert FirstSystemAt(ms, 0);
      Some(ms[0].content)
    else
      var r := FirstSystem(ms[1..]);
      assert r.Some? ==> exists i :: FirstSystemAt(ms, i) && ms[i].content == r.value by {
        if r.Some? {
          var i :| FirstSystemAt(ms[1..], i) && ms[1..][i].content == r.value;
          assert FirstSystemAt(ms, i + 1);
        }
      }
      assert r.None? ==> forall i :: 0 <= i < |ms| ==> ms[i].role != System by {
        if r.None? {
          forall i | 1 <= i < |ms| ensures ms[i].role != System {
            assert ms[i] == ms[1..][i - 1];
          }
        }
      }
      r
  }

  /** Lines 66-86: non-system messages with two roles, preceded by the first
      system message when there is one. */
  function ZhipuMessages(ms: seq<Message>): seq<WireMessage> {
    var formatted := TwoRoles(NonSystem(ms));
    match FirstSystem(ms)
    case Some(c) => [WireMessage("system", c)] + formatted
    case None => formatted
  }

  /** Lines 224-230: the conversation without its system messages. */
  function ClaudeMessages(ms: seq<Message>): seq<WireMessage> {
    TwoRoles(NonSystem(ms))
  }

  /** Lines 305-310: system messages are dropped. */
  function WenxinMessages(ms: seq<Message>): seq<WireMessage> {
    TwoRoles(NonSystem(ms))
  }

  lemma {:induction false} AllRolesRoundTrip(ms: seq<Message>)
    ensures Unwire(AllRoles(ms)) == Some(Turns(ms))
  {
    if ms != [] {
      AllRolesRoundTrip(ms[1..]);
    }
  }

  lemma {:induction false} TwoRolesRoundTrip(ms: seq<Message>)
    requires forall i :: 0 <= i < |ms| ==> ms[i].role != System
    ensures Unwire(TwoRoles(ms)) == Some(Turns(ms))
  {
    if ms != [] {
      TwoRolesRoundTrip(ms[1..]);
    }
  }

  lemma {:induction false} TwoRolesNoSystem(ms: seq<Message>)
    ensures forall i :: 0 <= i < |TwoRoles(ms)| ==> TwoRoles(ms)[i].role != "system"
    ensures |TwoRoles(ms)| == |ms|
  {
    if ms != [] {
      TwoRolesNoSystem(ms[1..]);
    }
  }

  /** zhipu: the non-system messages keep their order, roles and texts; a
      "system" entry comes first exactly when the list has a system message,
      holds the first one, and is the only "system" entry. */
  lemma ZhipuShape(ms: seq<Message>)
    ensures var ws := ZhipuMessages(ms);
      && (FirstSystem(ms).Some? <==> |ws| > 0 && ws[0].role == "system")
      && (FirstSystem(ms).Some? ==> ws[0].content == FirstSystem(ms).value && Unwire(ws[1..]) == Some(Turns(NonSystem(ms))))
      && (FirstSystem(ms).None? ==> Unwire(ws) == Some(Turns(NonSystem(ms))))
      && (forall i :: 1 <= i < |ws| ==> ws[i].role != "system")
  {
    var formatted := TwoRoles(NonSystem(ms));
    TwoRolesRoundTrip(NonSystem(ms));
    TwoRolesNoSystem(NonSystem(ms));
    if FirstSystem(ms).Some? {
      var ws := ZhipuMessages(ms);
      assert ws[1..] == formatted;
      assert forall i :: 1 <= i < |ws| ==> ws[i] == formatted[i - 1];
    }
  }

  /** claude and wenxin: no "system" entry at all, the other messages in
      order with their roles and texts. */
  lemma SystemFreeShape(ms: seq<Message>)
    ensures Unwire(ClaudeMessages(ms)) == Some(Turns(NonSystem(ms)))
    ensures forall i :: 0 <= i < |ClaudeMessages(ms)| ==> ClaudeMessages(ms)[i].role != "system"
    ensures Unwire(WenxinMessages(ms)) == Some(Turns(NonSystem(ms)))
    ensures forall i :: 0 <= i < |WenxinMessages(ms)| ==> WenxinMessages(ms)[i].role != "system"
  {
    TwoRolesRoundTrip(NonSystem(ms));
    TwoRolesNoSystem(NonSystem(ms));
  }

  // ---------------------------------------------------------------------
  // Requests

  function ZhipuRequest(key: string, ms: seq<Message>, stream: bool): Request {
    Request(ZHIPU_URL, BearerHeaders(key), ChatBody("glm-4", ZhipuMessages(ms), stream))
  }

  function OpenAIRequest(key: string, ms: seq<Message>, stream: bool): Request {
    Request(OPENAI_URL, BearerHeaders(key), ChatBody("gpt-3.5-turbo", AllRoles(ms), stream))
  }

  /** Lines 224-250: the first system message's text goes to `system`. */
  function ClaudeRequest(key: string, ms: seq<Message>): (req: Request)
    ensures req.body.ClaudeBody? && req.body.system == FirstSystem(ms) && req.body.maxTokens == 1024
  {
    Request(CLAUDE_URL, AnthropicHeaders(key),
      ClaudeBody("claude-3-sonnet-20240229", 1024, ClaudeMessages(ms), FirstSystem(ms), false))
  }

  function TongyiRequest(key: string, ms: seq<Message>): Request {
    Request(TONGYI_URL, BearerHeaders(key), TongyiBody("qwen-turbo", AllRoles(ms)))
  }

  /** Line 316: the key travels as the `access_token` query parameter. */
  function WenxinRequest(key: string, ms: seq<Message>): Request {
    Request(WENXIN_URL + "?access_token=" + key, map["Content-Type" := "application/json"], WenxinBody(WenxinMessages(ms)))
  }

  function DoubaoRequest(key: string, ms: seq<Message>): Request {
    Request(DOUBAO_URL, BearerHeaders(key), ChatBody("ep-20241205100410-abcde", AllRoles(ms), false))
  }

  /** openai, tongyi and doubao keep every message, in order, with its role. */
  lemma AllRolesProviders(key: string, ms: seq<Message>, stream: bool)
    ensures Unwire(OpenAIRequest(key, ms, stream).body.messages) == Some(Turns(ms))
    ensures Unwire(TongyiRequest(key, ms).body.inputMessages) == Some(Turns(ms))
    ensures Unwire(DoubaoRequest(key, ms).body.messages) == Some(Turns(ms))
  {
    AllRolesRoundTrip(ms);
  }

  // ---------------------------------------------------------------------
  // Replies

  /** Where each adapter finds the reply text in a successful response. */
  datatype ReplyShape = ChoicesShape | ClaudeShape | TongyiShape | WenxinShape

  /** `data.choices?.[0]?.message?.content || ''` and its siblings. */
  function Extract(shape: ReplyShape, json: Json): string {
    match shape
    case ChoicesShape => Lookup(json, "choices.0.message.content")
    case ClaudeShape => Lookup(json, "content.0.text")
    case TongyiShape => Or(Lookup(json, "output.text"), Lookup(json, "output.choices.0.message.content"))
    case WenxinShape => Lookup(json, "result")
  }

  /** The message thrown for a non-OK response: `error.error?.message ||
      error.message || 'API请求失败'`, where an unparsable body reads as
      `{ error: { message: statusText } }`. */
  function FailureText(statusText: string, json: Json): (m: string)
    ensures m != ""
    ensures json.Unparsable? ==> m == Or(statusText, REQUEST_FAILED)
  {
    match json
    case Unparsable(_) => Or(statusText, REQUEST_FAILED)
    case Fields(_) => Or(Lookup(json, "error.message"), Or(Lookup(json, "message"), REQUEST_FAILED))
  }

  /** A non-streaming adapter after its request has been sent. */
  function Unary(reply: Reply, shape: ReplyShape): (s: Settled)
    ensures reply.Response? && reply.ok && reply.json.Fields? ==> s == Returned(Extract(shape, reply.json))
    ensures reply.Response? && !reply.ok ==> s == Threw(ErrorValue(FailureText(reply.statusText, reply.json)))
  {
    match reply
    case Rejected(t) => Threw(t)
    case Response(ok, statusText, json, _) =>
      if !ok then Threw(ErrorValue(FailureText(statusText, json)))
      else
        match json
        case Unparsable(e) => Threw(ErrorValue(e))
        case Fields(_) => Returned(Extract(shape, json))
  }

  /** A streaming adapter after its request has been sent: the `onChunk`
      arguments come with the outcome. */
  function Streamed(reply: Reply, delta: string -> Option<string>): (r: (Settled, seq<string>))
    ensures r.1 != [] ==> reply.Response? && reply.ok && reply.body.Chunks?
    ensures reply.Response? && reply.ok && reply.body.Chunks? ==>
      r == (Returned(SseStream.ReadText(SseStream.Concat(reply.body.chunks), delta).accumulated),
            SseStream.ReadText(SseStream.Concat(reply.body.chunks), delta).calls)
  {
    match reply
    case Rejected(t) => (Threw(t), [])
    case Response(ok, statusText, json, body) =>
      if !ok then (Threw(ErrorValue(FailureText(statusText, json))), [])
      else
        match body
        case Unreadable => (Threw(ErrorValue(SseStream.UNREADABLE_MESSAGE)), [])
        case Chunks(cs) =>
          var acc := SseStream.ReadText(SseStream.Concat(cs), delta);
          (Returned(acc.accumulated), acc.calls)
  }

  /** Lines 442-450: an `Error` is rethrown as it is, anything else becomes
      an `Error` with a fixed message. */
  function Caught(s: Settled): (r: Result<string>)
    ensures s.Returned? <==> r.Success?
    ensures s.Returned? ==> r.value == s.text
    ensures s.Threw? && s.thrown.ErrorValue? ==> r == Failure(s.thrown.message)
    ensures s.Threw? && s.thrown.OtherValue? ==> r == Failure(CALL_FAILED)
  {
    match s
    case Returned(t) => Success(t)
    case Threw(ErrorValue(m)) => Failure(m)
    case Threw(OtherValue) => Failure(CALL_FAILED)
  }

  // ---------------------------------------------------------------------
  // Dispatch

  /** What a call produced: the result, the requests sent, and the
      arguments of the `onChunk` calls. */
  datatype CallOutcome = CallOutcome(result: Result<string>, sent: seq<Request>, calls: seq<string>)

  /** Line 389: the provider's saved key, else the legacy `apiKey`, else "". */
  function ApiKey(config: ApiConfig): (k: string)
    ensures k == "" <==> SavedKey(config.apiKeys, config.provider) == "" && config.legacyKey == ""
    ensures SavedKey(config.apiKeys, config.provider) != "" ==> k == SavedKey(config.apiKeys, config.provider)
  {
    Or(SavedKey(config.apiKeys, config.provider), config.legacyKey)
  }

  predicate KnownProvider(p: string) {
    p in {ZHIPU, OPENAI, CLAUDE, TONGYI, WENXIN, SPARK, DOUBAO}
  }

  /** The providers the dispatcher streams from when `onChunk` is given. */
  predicate StreamingProvider(p: string) {
    p == ZHIPU || p == OPENAI
  }

  /** The request the dispatcher sends for a provider that has an adapter. */
  function RequestFor(p: string, key: string, ms: seq<Message>, stream: bool): Request
    requires KnownProvider(p) && p != SPARK
  {
    if p == ZHIPU then ZhipuRequest(key, ms, stream)
    else if p == OPENAI then OpenAIRequest(key, ms, stream)
    else if p == CLAUDE then ClaudeRequest(key, ms)
    else if p == TONGYI then TongyiRequest(key, ms)
    else if p == WENXIN then WenxinRequest(key, ms)
    else DoubaoRequest(key, ms)
  }

  /** `callModelAPI` of frontend/src/utils/apiService.ts; `onChunk` tells
      whether the caller passed a callback. */
  function CallModelAPI(config: ApiConfig, ms: seq<Message>, onChunk: bool,
                        send: Request -> Reply, delta: string -> Option<string>): (r: CallOutcome)
    ensures ApiKey(config) == "" ==> r == CallOutcome(Failure(NO_KEY_MESSAGE), [], [])
    ensures ApiKey(config) != "" && !KnownProvider(config.provider) ==>
      r == CallOutcome(Failure(UNSUPPORTED_PREFIX + config.provider), [], [])
    ensures config.provider == SPARK ==> r.result.Failure? && r.sent == [] && r.calls == []
    ensures ApiKey(config) != "" && KnownProvider(config.provider) && config.provider != SPARK ==>
      r.sent == [RequestFor(config.provider, ApiKey(config), ms, onChunk && StreamingProvider(config.provider))]
    ensures r.calls != [] ==> onChunk && StreamingProvider(config.provider)
  {
    var key := ApiKey(config);
    if key == "" then CallOutcome(Failure(NO_KEY_MESSAGE), [], [])
    else
      var p := config.provider;
      if p == ZHIPU || p == OPENAI then
        ChoicesCall(RequestFor(p, key, ms, onChunk), onChunk, send, delta)
      else if p == CLAUDE then AdapterCall(ClaudeRequest(key, ms), ClaudeShape, send)
      else if p == TONGYI then AdapterCall(TongyiRequest(key, ms), TongyiShape, send)
      else if p == WENXIN then AdapterCall(WenxinRequest(key, ms), WenxinShape, send)
      else if p == SPARK then
        CallOutcome(Caught(Threw(ErrorValue(SPARK_MESSAGE))), [], [])
      else if p == DOUBAO then AdapterCall(DoubaoRequest(key, ms), ChoicesShape, send)
      else
        CallOutcome(Caught(Threw(ErrorValue(UNSUPPORTED_PREFIX + p))), [], [])
  }

  /** A zhipu or openai call: streamed when the caller passed a callback,
      otherwise read as one `choices` reply. */
  function ChoicesCall(req: Request, useStream: bool, send: Request -> Reply,
                       delta: string -> Option<string>): (r: CallOutcome)
    ensures r.sent == [req]
    ensures r.calls != [] ==> useStream
  {
    if useStream then
      var (s, calls) := Streamed(send(req), delta);
      CallOutcome(Caught(s), [req], calls)
    else
      AdapterCall(req, ChoicesShape, send)
  }

  /** A call through an adapter that reads one JSON reply. */
  function AdapterCall(req: Request, shape: ReplyShape, send: Request -> Reply): (r: CallOutcome)
    ensures r.sent == [req] && r.calls == []
  {
    CallOutcome(Caught(Unary(send(req), shape)), [req], [])
  }

  /** Providers other than zhipu and openai ignore the callback. */
  lemma OnChunkIgnoredElsewhere(config: ApiConfig, ms: seq<Message>, send: Request -> Reply, delta: string -> Option<string>)
    requires !StreamingProvider(config.provider)
    ensures CallModelAPI(config, ms, true, send, delta) == CallModelAPI(config, ms, false, send, delta)
  {
  }

  /** A streamed call returns what the SSE reader returns on the body, and
      its result is the last text passed to `onChunk` (or "" with none). */
  lemma StreamedCallIsReaderResult(config: ApiConfig, ms: seq<Message>, send: Request -> Reply,
                                   delta: string -> Option<string>, cs: seq<string>)
    requires ApiKey(config) != "" && StreamingProvider(config.provider)
    requires send(RequestFor(config.provider, ApiKey(config), ms, true)).Response?
    requires send(RequestFor(config.provider, ApiKey(config), ms, true)).ok
    requires send(RequestFor(config.provider, ApiKey(config), ms, true)).body == SseStream.Chunks(cs)
    ensures var r := CallModelAPI(config, ms, true, send, delta);
      var final := SseStream.ReadText(SseStream.Concat(cs), delta);
      && r.result == Success(final.accumulated) && r.calls == final.calls
      && (r.calls == [] ==> r.result.value == "")
      && (r.calls != [] ==> r.result.value == r.calls[|r.calls| - 1])
  {
    var req := RequestFor(config.provider, ApiKey(config), ms, true);
    StreamingCall(config, ms, send, delta);
    StreamedChunks(send(req), delta, cs);
  }

  /** A readable streamed body settles with the reader's text, which is the
      last text passed to `onChunk`. */
  lemma StreamedChunks(reply: Reply, delta: string -> Option<string>, cs: seq<string>)
    requires reply.Response? && reply.ok && reply.body == SseStream.Chunks(cs)
    ensures var final := SseStream.ReadText(SseStream.Concat(cs), delta);
      && Caught(Streamed(reply, delta).0) == Success(final.accumulated)
      && Streamed(reply, delta).1 == final.calls
      && (final.calls == [] ==> final.accumulated == "")
      && (final.calls != [] ==> final.accumulated == final.calls[|final.calls| - 1])
  {
    var final := SseStream.ReadText(SseStream.Concat(cs), delta);
    SseStream.CallsFormPrefixChain(SseStream.Concat(cs), delta);
    assert SseStream.LastCall(final);
  }

  /** A streaming provider called with a callback sends one streaming
      request and settles as the streamed read of its reply. */
  lemma StreamingCall(config: ApiConfig, ms: seq<Message>, send: Request -> Reply, delta: string -> Option<string>)
    requires ApiKey(config) != "" && StreamingProvider(config.provider)
    ensures var req := RequestFor(config.provider, ApiKey(config), ms, true);
      CallModelAPI(config, ms, true, send, delta)
        == CallOutcome(Caught(Streamed(send(req), delta).0), [req], Streamed(send(req), delta).1)
  {
  }

  /** A response without the field an adapter reads gives "" rather than an
      error. */
  lemma MissingFieldGivesEmpty(statusText: string, f: map<string, string>, body: SseStream.Body, shape: ReplyShape)
    requires forall path :: path in f ==> f[path] == ""
    ensures Unary(Response(true, statusText, Fields(f), body), shape) == Returned("")
  {
  }

  /** `callModelAPI` of src/utils/apiService.ts: the same key rule and the
      same adapters, never streaming. */
  function LegacyCallModelAPI(config: ApiConfig, ms: seq<Message>, send: Request -> Reply): (r: CallOutcome)
    ensures ApiKey(config) == "" ==> r == CallOutcome(Failure(NO_KEY_MESSAGE), [], [])
    ensures r.calls == []
    ensures ApiKey(config) != "" && config.provider == SPARK ==> r.result == Failure(SPARK_MESSAGE) && r.sent == []
  {
    var key := ApiKey(config);
    if key == "" then CallOutcome(Failure(NO_KEY_MESSAGE), [], [])
    else
      var p := config.provider;
      if p == ZHIPU then
        var req := ZhipuRequest(key, ms, false);
        CallOutcome(Caught(Unary(send(req), ChoicesShape)), [req], [])
      else if p == OPENAI then
        var req := OpenAIRequest(key, ms, false);
        CallOutcome(Caught(Unary(send(req), ChoicesShape)), [req], [])
      else if p == CLAUDE then
        var req := ClaudeRequest(key, ms);
        CallOutcome(Caught(Unary(send(req), ClaudeShape)), [req], [])
      else if p == TONGYI then
        var req := TongyiRequest(key, ms);
        CallOutcome(Caught(Unary(send(req), TongyiShape)), [req], [])
      else if p == WENXIN then
        var req := WenxinRequest(key, ms);
        CallOutcome(Caught(Unary(send(req), WenxinShape)), [req], [])
      else if p == SPARK then
        CallOutcome(Caught(Threw(ErrorValue(SPARK_MESSAGE))), [], [])
      else if p == DOUBAO then
        var req := DoubaoRequest(key, ms);
        CallOutcome(Caught(Unary(send(req), ChoicesShape)), [req], [])
      else
        CallOutcome(Caught(Threw(ErrorValue(UNSUPPORTED_PREFIX + p))), [], [])
  }

  /** The older dispatcher behaves as the newer one called without a
      callback, whatever the replies. */
  lemma LegacyIsNonStreaming(config: ApiConfig, ms: seq<Message>, send: Request -> Reply, delta: string -> Option<string>)
    ensures LegacyCallModelAPI(config, ms, send) == CallModelAPI(config, ms, false, send, delta)
  {
  }
}
