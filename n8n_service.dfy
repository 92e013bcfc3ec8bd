/** `callN8NWebhook` (frontend/src/utils/n8nService.ts): the request sent to a
    workflow-automation webhook, and how its answer or failure becomes the
    string the caller receives or the `Error` it sees.

    `fetch` is a parameter: the reply it settles with is given, together
    with what `response.text()` and `JSON.parse` make of the body. */
module N8NService {

  import opened Wrappers
  import opened Strs
  import opened ChatTypes
  import opened Http

  const URL_MISSING: string := "N8N URL未配置，请在设置中配置N8N URL"
  const NETWORK_FAILURE: string := "网络错误：无法连接到N8N服务，请检查URL是否正确"
  const CALL_FAILED: string := "N8N调用失败"
  const STATUS_FAILURE: string := "N8N请求失败: "

  /** One `{role, content}` entry of the conversation history. */
  datatype HistoryItem = HistoryItem(role: Role, content: string)

  /** The JSON body of a POST: the history twice, under two names, and the
      current user message. */
  datatype Payload = Payload(messages: seq<HistoryItem>, userMessage: string, conversationHistory: seq<HistoryItem>)

  /** The two query parameters of a GET, before serialisation. */
  datatype Query = Query(messages: seq<HistoryItem>, userMessage: string)

  /** What is handed to `fetch`: the base URL and the query appended to it
      (GET only), the method, the headers and the body (POST only). */
  datatype WebhookRequest = WebhookRequest(
    url: string,
    query: Option<Query>,
    httpMethod: string,
    headers: map<string, string>,
    body: Option<Payload>)

  /** What `JSON.parse(responseText)` gives: an exception, `null`, or another
      value with its string-valued properties and its rendering by
      `JSON.stringify(value, null, 2)`. */
  datatype Parsed = NotJson | NullJson | JsonValue(fields: map<string, string>, pretty: string)

  /** What `response.text()` settles with. */
  datatype BodyRead = Read(text: string) | ReadFailed(thrown: Thrown)

  /** How `fetch` settles: rejected, or a response with its `ok` flag,
      status, status text, body text and the body parsed as JSON. */
  datatype WebhookReply =
    | FetchRejected(thrown: Thrown)
    | Answered(ok: bool, status: int, statusText: string, body: BodyRead, parsed: Parsed)

  // ---------------------------------------------------------------------
  // The request.

  /** `!config.url || !config.url.trim()`: the guard that throws before any
      request is made. */
  predicate UrlMissing(config: N8NConfig) {
    config.url == "" || Trim(config.url) == ""
  }

  /** The position of the last message whose role is `user`. */
  function LastUserIndex(ms: seq<Message>): (r: Option<nat>)
    ensures r.None? <==> forall i :: 0 <= i < |ms| ==> ms[i].role != Role.User
    ensures r.Some? ==> r.value < |ms| && ms[r.value].role == Role.User
    ensures r.Some? ==> forall j :: r.value < j < |ms| ==> ms[j].role != Role.User
  {
    if ms == [] then None
    else if ms[|ms| - 1].role == Role.User then Some(|ms| - 1)
    else LastUserIndex(ms[..|ms| - 1])
  }

  /** `userMessages[userMessages.length - 1]?.content || ''`: the content of
      the last user message, `""` when there is none. */
  function LastUserContent(ms: seq<Message>): string {
    match LastUserIndex(ms)
    case None => ""
    case Some(i) => ms[i].content
  }

  /** The conversation history: every message that is not a system message,
      reduced to its role and content, in the original order. */
  function History(ms: seq<Message>): (h: seq<HistoryItem>)
    ensures |h| == |NonSystem(ms)|
    ensures forall i :: 0 <= i < |h| ==> h[i] == HistoryItem(NonSystem(ms)[i].role, NonSystem(ms)[i].content)
    ensures forall i :: 0 <= i < |h| ==> h[i].role != Role.System
  {
    var kept := NonSystem(ms);
    seq(|kept|, i requires 0 <= i < |kept| => HistoryItem(kept[i].role, kept[i].content))
  }

  /** `config.apiKey && config.apiKey.trim()`. */
  predicate KeyGiven(apiKey: Option<string>) {
    apiKey.Some? && apiKey.value != "" && Trim(apiKey.value) != ""
  }

  /** The headers set before the custom ones: the content type, and the key
      under two names when one is configured. */
  function BaseHeaders(apiKey: Option<string>): (h: map<string, string>)
    ensures h.Keys == if KeyGiven(apiKey) then {"Content-Type", "Authorization", "X-API-Key"} else {"Content-Type"}
  {
    if KeyGiven(apiKey) then
      map["Content-Type" := "application/json", "Authorization" := "Bearer " + apiKey.value, "X-API-Key" := apiKey.value]
    else map["Content-Type" := "application/json"]
  }

  /** The custom headers, none when the setting is absent. */
  function Custom(config: N8NConfig): map<string, string> {
    config.customHeaders.GetOr(map[])
  }

  /** The headers sent: the base ones with every custom header written over
      them. */
  function Headers(config: N8NConfig): map<string, string> {
    BaseHeaders(config.apiKey) + Custom(config)
  }

  /** `config.method || 'POST'`. */
  function MethodOf(config: N8NConfig): (m: string)
    ensures m != ""
    ensures config.httpMethod.None? || config.httpMethod == Some("") ==> m == "POST"
    ensures config.httpMethod.Some? && config.httpMethod.value != "" ==> m == config.httpMethod.value
  {
    if config.httpMethod.None? || config.httpMethod.value == "" then "POST" else config.httpMethod.value
  }

  /** `config.method === 'POST' || !config.method`: the body is attached. */
  predicate SendsBody(config: N8NConfig) {
    config.httpMethod == Some("POST") || config.httpMethod.None? || config.httpMethod == Some("")
  }

  /** The request `callN8NWebhook` makes, `None` when the URL guard throws
      first. */
  function RequestFor(config: N8NConfig, ms: seq<Message>): (r: Option<WebhookRequest>)
    ensures r.None? <==> AllWhitespace(config.url)
    ensures r.Some? ==>
      r.value.url == config.url && r.value.httpMethod == MethodOf(config) && r.value.headers == Headers(config)
  {
    if UrlMissing(config) then None
    else
      var history := History(ms);
      var user := LastUserContent(ms);
      Some(WebhookRequest(
        config.url,
        if !SendsBody(config) && config.httpMethod == Some("GET") then Some(Query(history, user)) else None,
        MethodOf(config),
        Headers(config),
        if SendsBody(config) then Some(Payload(history, user, history)) else None))
  }

  /** The header-building statements: the base headers, then each custom
      header assigned in turn. */
  method BuildHeaders(config: N8NConfig) returns (headers: map<string, string>)
    ensures headers == Headers(config)
    ensures headers.Keys == BaseHeaders(config.apiKey).Keys + Custom(config).Keys
    ensures forall k :: k in Custom(config) ==> headers[k] == Custom(config)[k]
    ensures forall k :: k in BaseHeaders(config.apiKey) && k !in Custom(config) ==> headers[k] == BaseHeaders(config.apiKey)[k]
  {
    headers := BaseHeaders(config.apiKey);
    if config.customHeaders.Some? {
      var rest := config.customHeaders.value;
      ghost var done: map<string, string> := map[];
      while rest != map[]
        invariant headers == BaseHeaders(config.apiKey) + done
        invariant done + rest == config.customHeaders.value
        invariant done.Keys !! rest.Keys
        decreases rest.Keys
      {
        var k :| k in rest;
        MoveHeader(BaseHeaders(config.apiKey), done, rest, k);
        headers := headers[k := rest[k]];
        done := done[k := rest[k]];
        rest := rest - {k};
      }
      assert done == config.customHeaders.value;
    }
  }

  /** One iteration of the header loop keeps its invariant. */
  lemma MoveHeader(base: map<string, string>, done: map<string, string>, rest: map<string, string>, k: string)
    requires k in rest && done.Keys !! rest.Keys
    ensures (base + done)[k := rest[k]] == base + done[k := rest[k]]
    ensures done[k := rest[k]] + (rest - {k}) == done + rest
    ensures done[k := rest[k]].Keys !! (rest - {k}).Keys
  {
    var moved := done[k := rest[k]];
    assert (base + done)[k := rest[k]].Keys == (base + moved).Keys;
    assert (moved + (rest - {k})).Keys == (done + rest).Keys;
  }

  // ---------------------------------------------------------------------
  // The answer.

  /** A string-valued property, `""` when it is missing. */
  function Field(fields: map<string, string>, name: string): string {
    if name in fields then fields[name] else ""
  }

  /** The string returned for a successful response whose body is
      `responseText`: the first truthy property among `text`, `content` and
      `message`, else the re-serialised JSON; the raw text when the body is
      not JSON or is `null` (reading a property of `null` throws inside the
      same `try`). */
  function Answer(responseText: string, parsed: Parsed): (r: string)
    ensures !parsed.JsonValue? ==> r == responseText
    ensures parsed.JsonValue? ==>
      r in {Field(parsed.fields, "text"), Field(parsed.fields, "content"), Field(parsed.fields, "message"), parsed.pretty}
  {
    match parsed
    case NotJson => responseText
    case NullJson => responseText
    case JsonValue(fields, pretty) =>
      if Field(fields, "text") != "" then Field(fields, "text")
      else if Field(fields, "content") != "" then Field(fields, "content")
      else if Field(fields, "message") != "" then Field(fields, "message")
      else pretty
  }

  /** `includes('Failed to fetch') || includes('NetworkError')`. */
  predicate IsNetworkError(message: string) {
    Contains(message, "Failed to fetch") || Contains(message, "NetworkError")
  }

  /** The outer `catch`: a network error is replaced by a fixed message,
      another `Error` is thrown again, and anything else becomes an `Error`
      with a fixed message. */
  function Caught(e: Thrown): (r: Thrown)
    ensures r.ErrorValue?
    ensures e.ErrorValue? && !IsNetworkError(e.message) ==> r == e
  {
    match e
    case ErrorValue(m) => if IsNetworkError(m) then ErrorValue(NETWORK_FAILURE) else e
    case OtherValue => ErrorValue(CALL_FAILED)
  }

  /** The message thrown for a response that is not OK. */
  function StatusError(status: int, errorText: string): string {
    STATUS_FAILURE + IntStr(status) + " " + errorText
  }

  /** How the call settles once the request has gone out. Everything thrown
      inside the `try`, the status error included, passes through the
      outer `catch`. */
  function Outcome(reply: WebhookReply): (r: Settled)
    ensures r.Threw? ==> r.thrown.ErrorValue?
    ensures r.Returned? <==> reply.Answered? && reply.ok && reply.body.Read?
  {
    match reply
    case FetchRejected(e) => Threw(Caught(e))
    case Answered(ok, status, statusText, body, parsed) =>
      if !ok then
        Threw(Caught(ErrorValue(StatusError(status, if body.Read? then body.text else statusText))))
      else
        match body
        case ReadFailed(e) => Threw(Caught(e))
        case Read(text) => Returned(Answer(text, parsed))
  }

  /** `callN8NWebhook(config, messages)`: the request it makes, if any, and
      how it settles given the reply to that request. */
  method CallWebhook(config: N8NConfig, ms: seq<Message>, reply: WebhookReply)
    returns (sent: Option<WebhookRequest>, settled: Settled)
    ensures sent == RequestFor(config, ms)
    ensures sent.None? ==> settled == Threw(ErrorValue(URL_MISSING))
    ensures sent.Some? ==> settled == Outcome(reply)
  {
    if config.url == "" || Trim(config.url) == "" {
      return None, Threw(ErrorValue(URL_MISSING));
    }
    var history := History(ms);
    var user := LastUserContent(ms);
    var headers := BuildHeaders(config);
    var httpMethod := MethodOf(config);
    var query: Option<Query> := None;
    var body: Option<Payload> := None;
    if config.httpMethod == Some("POST") || config.httpMethod.None? || config.httpMethod == Some("") {
      body := Some(Payload(history, user, history));
    } else if config.httpMethod == Some("GET") {
      query := Some(Query(history, user));
    }
    sent := Some(WebhookRequest(config.url, query, httpMethod, headers, body));
    settled := Outcome(reply);
  }

  // ---------------------------------------------------------------------
  // Properties.

  /** A blank URL throws before any request, whatever the reply would have
      been; a URL with a visible character always leads to a request. */
  lemma NoRequestWithoutUrl(config: N8NConfig, ms: seq<Message>)
    ensures RequestFor(config, ms).None? <==> forall i :: 0 <= i < |config.url| ==> IsWhitespace(config.url[i])
  {
  }

  /** The `Authorization` and `X-API-Key` headers are there exactly when a
      non-blank key is configured, unless a custom header of the same name
      is set, and then they carry the key. */
  lemma AuthHeadersOnlyWithKey(config: N8NConfig)
    requires "Authorization" !in Custom(config) && "X-API-Key" !in Custom(config)
    ensures ("Authorization" in Headers(config)) <==> KeyGiven(config.apiKey)
    ensures ("X-API-Key" in Headers(config)) <==> KeyGiven(config.apiKey)
    ensures KeyGiven(config.apiKey) ==>
      Headers(config)["Authorization"] == "Bearer " + config.apiKey.value
      && Headers(config)["X-API-Key"] == config.apiKey.value
    ensures KeyGiven(config.apiKey) <==> config.apiKey.Some? && !AllWhitespace(config.apiKey.value)
  {
  }

  /** Custom headers are applied last: each one is sent with its own value,
      even over `Content-Type` or the key headers. */
  lemma CustomHeadersWin(config: N8NConfig, name: string)
    requires name in Custom(config)
    ensures name in Headers(config) && Headers(config)[name] == Custom(config)[name]
    ensures name == "Content-Type" ==> Headers(config)["Content-Type"] == Custom(config)["Content-Type"]
  {
  }

  /** POST, or no method, sends the history, the user message and the
      history again as the body, with no query; GET sends no body and puts
      the history and the user message in the query; any other method sends
      neither. */
  lemma BodyOrQuery(config: N8NConfig, ms: seq<Message>)
    requires !AllWhitespace(config.url)
    ensures var r := RequestFor(config, ms).value;
      && (r.body.Some? <==> (config.httpMethod.None? || config.httpMethod == Some("") || config.httpMethod == Some("POST")))
      && (r.body.Some? ==> r.body.value == Payload(History(ms), LastUserContent(ms), History(ms)) && r.httpMethod == "POST")
      && (r.query.Some? <==> config.httpMethod == Some("GET"))
      && (r.query.Some? ==> r.query.value == Query(History(ms), LastUserContent(ms)) && r.httpMethod == "GET")
      && !(r.body.Some? && r.query.Some?)
  {
  }

  /** The message list the chat turn hands to the webhook (the history
      without system messages, then the new user message) makes the new
      message the `userMessage`, and its history is the old history with
      the new message appended. */
  lemma WebhookTurnSendsInput(h: seq<Message>, user: Message)
    requires user.role == Role.User
    ensures LastUserContent(NonSystem(h) + [user]) == user.content
    ensures History(NonSystem(h) + [user]) == History(h) + [HistoryItem(Role.User, user.content)]
  {
    var ms := NonSystem(h) + [user];
    NonSystemOfNonSystem(h);
    NonSystemAppendOne(NonSystem(h), user);
    assert NonSystem(ms) == NonSystem(h) + [user];
  }

  /** Dropping the system messages twice drops nothing more. */
  lemma {:induction false} NonSystemOfNonSystem(ms: seq<Message>)
    ensures NonSystem(NonSystem(ms)) == NonSystem(ms)
    decreases |ms|
  {
    if ms != [] {
      NonSystemOfNonSystem(ms[1..]);
      if ms[0].role != Role.System {
        assert ([ms[0]] + NonSystem(ms[1..]))[1..] == NonSystem(ms[1..]);
      }
    }
  }

  /** A message that is not a system message survives at the end. */
  lemma {:induction false} NonSystemAppendOne(ms: seq<Message>, m: Message)
    requires m.role != Role.System
    ensures NonSystem(ms + [m]) == NonSystem(ms) + [m]
    decreases |ms|
  {
    if ms != [] {
      assert (ms + [m])[1..] == ms[1..] + [m];
      NonSystemAppendOne(ms[1..], m);
    }
  }

  /** A truthy `text` wins over everything; `content` wins when `text` is
      falsy; `message` when both are; the re-serialised JSON only when all
      three are falsy. */
  lemma AnswerPriority(responseText: string, fields: map<string, string>, pretty: string)
    ensures Field(fields, "text") != "" ==> Answer(responseText, JsonValue(fields, pretty)) == fields["text"]
    ensures Field(fields, "text") == "" && Field(fields, "content") != "" ==>
      Answer(responseText, JsonValue(fields, pretty)) == fields["content"]
    ensures Field(fields, "text") == "" && Field(fields, "content") == "" && Field(fields, "message") != "" ==>
      Answer(responseText, JsonValue(fields, pretty)) == fields["message"]
    ensures Field(fields, "text") == "" && Field(fields, "content") == "" && Field(fields, "message") == "" ==>
      Answer(responseText, JsonValue(fields, pretty)) == pretty
  {
  }

  /** The fixed messages mention no network failure, so passing an already
      caught value through the `catch` again changes nothing. */
  lemma CaughtIdempotent(e: Thrown)
    ensures Caught(Caught(e)) == Caught(e)
  {
    MissingCharNotContained(NETWORK_FAILURE, "Failed to fetch", 0);
    MissingCharNotContained(NETWORK_FAILURE, "NetworkError", 1);
    MissingCharNotContained(CALL_FAILED, "Failed to fetch", 0);
    MissingCharNotContained(CALL_FAILED, "NetworkError", 1);
  }

  /** A string lacking one of the characters of `p` does not contain `p`. */
  lemma MissingCharNotContained(s: string, p: string, k: nat)
    requires k < |p| && forall i :: 0 <= i < |s| ==> s[i] != p[k]
    ensures !Contains(s, p)
  {
    forall i | 0 <= i <= |s| - |p|
      ensures !OccursAt(s, p, i)
    {
      assert s[i..i + |p|][k] == s[i + k];
    }
  }

  /** A response that is not OK throws the status and the body text (the
      status text when the body cannot be read); if that text itself
      mentions a network failure, the caller sees the network message
      instead. */
  lemma StatusFailureReported(status: int, statusText: string, body: BodyRead, parsed: Parsed)
    ensures var errorText := if body.Read? then body.text else statusText;
      var r := Outcome(Answered(false, status, statusText, body, parsed));
      && (!IsNetworkError(StatusError(status, errorText)) ==> r == Threw(ErrorValue(StatusError(status, errorText))))
      && (IsNetworkError(StatusError(status, errorText)) ==> r == Threw(ErrorValue(NETWORK_FAILURE)))
  {
  }

  /** Every way the call fails surfaces as an `Error`: the URL guard, a
      rejected fetch, a bad status, an unreadable body. */
  lemma FailuresAreErrors(config: N8NConfig, ms: seq<Message>, reply: WebhookReply)
    ensures var r := if RequestFor(config, ms).None? then Threw(ErrorValue(URL_MISSING)) else Outcome(reply);
      r.Threw? ==> r.thrown.ErrorValue?
  {
  }
}
