/** What the provider adapters send and what comes back, with `fetch`, the
    status line and `response.json()` reduced to values. */
module Http {

  import opened Wrappers
  import SseStream

  /** One entry of a request's message list. */
  datatype WireMessage = WireMessage(role: string, content: string)

  /** The JSON request bodies the adapters build. `stream` is `false` where
      the source leaves the field out. */
  datatype RequestBody =
    | ChatBody(model: string, messages: seq<WireMessage>, stream: bool)
    | ClaudeBody(model: string, maxTokens: nat, messages: seq<WireMessage>, system: Option<string>, stream: bool)
    | TongyiBody(model: string, inputMessages: seq<WireMessage>)
    | WenxinBody(messages: seq<WireMessage>)

  /** A POST request. */
  datatype Request = Request(url: string, headers: map<string, string>, body: RequestBody)

  /** What `response.json()` gives: the parse error's message, or the
      string-valued properties of the document, each under its access path
      (`"choices.0.message.content"`). */
  datatype Json = Unparsable(error: string) | Fields(strings: map<string, string>)

  /** A value thrown by a callee: an `Error` with its message, or anything
      else. */
  datatype Thrown = ErrorValue(message: string) | OtherValue

  /** What `fetch` settles with: a rejection, or a response with its `ok`
      flag, status text, body as JSON, and body as a stream of decoded
      chunks. */
  datatype Reply =
    | Rejected(thrown: Thrown)
    | Response(ok: bool, statusText: string, json: Json, body: SseStream.Body)

  /** How an adapter's promise settles. */
  datatype Settled = Returned(text: string) | Threw(thrown: Thrown)

  /** `json?.a?.b` for a string-valued property, `""` when it is missing. */
  function Lookup(json: Json, path: string): string {
    match json
    case Unparsable(_) => ""
    case Fields(f) => if path in f then f[path] else ""
  }

  /** `a || b` on strings. */
  function Or(a: string, b: string): (r: string)
    ensures r == a || r == b
    ensures r == "" <==> a == "" && b == ""
  {
    if a != "" then a else b
  }

  /** The headers of a bearer-authenticated JSON request. */
  function BearerHeaders(key: string): (h: map<string, string>)
    ensures h.Keys == {"Content-Type", "Authorization"}
    ensures h["Authorization"] == "Bearer " + key
  {
    map["Content-Type" := "application/json", "Authorization" := "Bearer " + key]
  }

  /** The headers of a request to the Anthropic Messages API. */
  function AnthropicHeaders(key: string): (h: map<string, string>)
    ensures h.Keys == {"Content-Type", "x-api-key", "anthropic-version"}
    ensures h["x-api-key"] == key && h["anthropic-version"] == "2023-06-01"
  {
    map["Content-Type" := "application/json", "x-api-key" := key, "anthropic-version" := "2023-06-01"]
  }
}
