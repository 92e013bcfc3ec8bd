/** The two provider adapters of the older client (src/utils/api.ts) and
    their `callAPI` dispatcher. The configuration there is an endpoint, a
    key and a wire format; all system messages are merged into one text;
    and the streaming loop splits each chunk by itself, with no buffer
    carried between reads, passing each new delta (not the running text) to
    `onChunk`.

    `fetch` is the parameter `send`; `JSON.parse` followed by the lookup of
    the streamed delta is the parameter `parseDelta` (OpenAI) or
    `parseEvent` (Anthropic). */
module LegacyApi {

  import opened Wrappers
  import opened Strs
  import opened ChatTypes
  import opened Http
  import SseStream
  import Providers

  datatype ApiConfig = ApiConfig(endpoint: string, apiKey: string, format: string)

  const MISSING_CONFIG_MESSAGE: string := "API endpoint and API key are required"
  const REQUEST_FAILED: string := "API request failed"
  const CUSTOM_MESSAGE: string := "Custom API format not yet implemented"
  const UNSUPPORTED_PREFIX: string := "Unsupported API format: "
  const SYSTEM_SEPARATOR: string := "\n\n"

  // ---------------------------------------------------------------------
  // System merging

  /** The texts of the system messages, in order. */
  function SystemContents(ms: seq<Message>): seq<string> {
    if ms == [] then []
    else if ms[0].role == System then [ms[0].content] + SystemContents(ms[1..])
    else SystemContents(ms[1..])
  }

  /** Lines 18-22 and 103-107: `systemMessages.map(m => m.content).join('\n\n')`. */
  function SystemText(ms: seq<Message>): string {
    Join(SystemContents(ms), SYSTEM_SEPARATOR)
  }

  /** A join with a non-empty separator is empty only for no part or a
      single empty part. */
  lemma {:induction false} JoinEmpty(parts: seq<string>, sep: string)
    requires sep != ""
    ensures Join(parts, sep) == "" <==> parts == [] || parts == [""]
    decreases |parts|
  {
    if |parts| >= 2 {
      assert |Join(parts, sep)| >= |sep|;
    } else if |parts| == 1 {
      assert parts == [parts[0]];
    }
  }

  lemma {:induction false} SystemContentsEmpty(ms: seq<Message>)
    ensures SystemContents(ms) == [] <==> forall i :: 0 <= i < |ms| ==> ms[i].role != System
  {
    if ms != [] {
      SystemContentsEmpty(ms[1..]);
      assert forall i :: 1 <= i < |ms| ==> ms[i] == ms[1..][i - 1];
    }
  }

  /** No system entry is emitted exactly when the conversation has no system
      message, or a single one with empty text. */
  lemma SystemTextEmpty(ms: seq<Message>)
    ensures SystemText(ms) == "" <==>
      (forall i :: 0 <= i < |ms| ==> ms[i].role != System) || SystemContents(ms) == [""]
  {
    JoinEmpty(SystemContents(ms), SYSTEM_SEPARATOR);
    SystemContentsEmpty(ms);
  }

  /** Lines 23-31: the merged system text first when it is non-empty, then
      the other messages with their own roles. */
  function OpenAIMessages(ms: seq<Message>): seq<WireMessage> {
    var conversation := Providers.AllRoles(NonSystem(ms));
    var system := SystemText(ms);
    if system != "" then [WireMessage("system", system)] + conversation else conversation
  }

  /** The merged system text leads the list when it is non-empty and is the
      only "system" entry; the rest is the conversation in order. */
  lemma OpenAIMessagesShape(ms: seq<Message>)
    ensures var ws := OpenAIMessages(ms);
      && (SystemText(ms) != "" <==> |ws| > 0 && ws[0].role == "system")
      && (SystemText(ms) != "" ==> ws[0].content == SystemText(ms) && Providers.Unwire(ws[1..]) == Some(Providers.Turns(NonSystem(ms))))
      && (SystemText(ms) == "" ==> Providers.Unwire(ws) == Some(Providers.Turns(NonSystem(ms))))
  {
    var conversation := Providers.AllRoles(NonSystem(ms));
    Providers.AllRolesRoundTrip(NonSystem(ms));
    NoSystemWired(NonSystem(ms));
    if SystemText(ms) != "" {
      assert OpenAIMessages(ms)[1..] == conversation;
    }
  }

  lemma {:induction false} NoSystemWired(ms: seq<Message>)
    requires forall i :: 0 <= i < |ms| ==> ms[i].role != System
    ensures |Providers.AllRoles(ms)| == |ms|
    ensures forall i :: 0 <= i < |ms| ==> Providers.AllRoles(ms)[i].role != "system"
  {
    if ms != [] {
      NoSystemWired(ms[1..]);
      assert forall i :: 1 <= i < |ms| ==> Providers.AllRoles(ms)[i] == Providers.AllRoles(ms[1..])[i - 1];
    }
  }

  /** Lines 33-44: `stream: !!onChunk`. */
  function OpenAIRequest(config: ApiConfig, ms: seq<Message>, onChunk: bool): (req: Request)
    ensures req.body.ChatBody? && req.body.stream == onChunk
    ensures req.url == config.endpoint && "Authorization" in req.headers && req.headers["Authorization"] == "Bearer " + config.apiKey
  {
    Request(config.endpoint, BearerHeaders(config.apiKey), ChatBody("gpt-3.5-turbo", OpenAIMessages(ms), onChunk))
  }

  /** Lines 109-120: `system` is set only when the merged text is non-empty. */
  function AnthropicMessagesBody(ms: seq<Message>, stream: bool): (body: RequestBody)
    ensures body.ClaudeBody? && body.maxTokens == 1024
    ensures body.system == (if SystemText(ms) != "" then Some(SystemText(ms)) else None)
  {
    var system := SystemText(ms);
    ClaudeBody("claude-3-sonnet-20240229", 1024, Providers.TwoRoles(NonSystem(ms)),
      if system != "" then Some(system) else None, stream)
  }

  /** The request of lines 109-130 as written: the body has no `stream`
      field, whether a callback is given or not. */
  function AnthropicRequestAsWritten(config: ApiConfig, ms: seq<Message>, onChunk: bool): (req: Request)
    ensures req.body.ClaudeBody? && !req.body.stream
  {
    Request(config.endpoint, AnthropicHeaders(config.apiKey), AnthropicMessagesBody(ms, false))
  }

  /** The request with streaming asked for whenever the response is going to
      be read as a stream. */
  function AnthropicRequest(config: ApiConfig, ms: seq<Message>, onChunk: bool): (req: Request)
    ensures req.body.ClaudeBody? && req.body.stream == onChunk
    ensures req.url == config.endpoint && "x-api-key" in req.headers && req.headers["x-api-key"] == config.apiKey
  {
    Request(config.endpoint, AnthropicHeaders(config.apiKey), AnthropicMessagesBody(ms, onChunk))
  }

  /** The two requests differ only in the `stream` flag, and only when a
      callback is given: as written, a streamed read is never asked for. */
  lemma AnthropicStreamNeverRequested(config: ApiConfig, ms: seq<Message>)
    ensures !AnthropicRequestAsWritten(config, ms, true).body.stream
    ensures AnthropicRequest(config, ms, true).body.stream
    ensures AnthropicRequestAsWritten(config, ms, false) == AnthropicRequest(config, ms, false)
  {
  }

  // ---------------------------------------------------------------------
  // The per-chunk stream loop

  /** `chunk.split('\n').filter(line => line.trim() !== '')`. */
  function NonBlank(lines: seq<string>): (r: seq<string>)
    ensures |r| <= |lines|
    ensures forall i :: 0 <= i < |r| ==> Kept(r[i]) && r[i] in lines
    ensures forall i :: 0 <= i < |lines| && Kept(lines[i]) ==> lines[i] in r
  {
    if lines == [] then []
    else
      var rest := NonBlank(lines[1..]);
      assert forall i :: 1 <= i < |lines| ==> lines[i] == lines[1..][i - 1];
      if Kept(lines[0]) then [lines[0]] + rest else rest
  }

  /** A line the filter keeps: `line.trim() !== ''`. */
  predicate Kept(line: string) {
    Trim(line) != ""
  }

  function ChunkLines(chunk: string): seq<string> {
    NonBlank(SplitNewlines(chunk))
  }

  /** Lines 65-80 (and 150-167): the line must start with "data: " as it is,
      untrimmed; the payload is compared with "[DONE]" as it is; a delta
      counts only when non-empty. */
  function LineEvent(line: string, parseDelta: string -> Option<string>): SseStream.LineKind {
    if !StartsWith(line, "data: ") then SseStream.Ignored
    else
      var data := line[6..];
      if data == "[DONE]" then SseStream.Done
      else
        match parseDelta(data)
        case Some(c) => if c != "" then SseStream.Delta(c) else SseStream.Ignored
        case None => SseStream.Ignored
  }

  /** The text so far, the deltas passed to `onChunk`, and whether "[DONE]"
      was seen. */
  datatype Progress = Progress(full: string, deltas: seq<string>, stopped: bool)

  const BEGIN: Progress := Progress("", [], false)

  function StepLine(p: Progress, kind: SseStream.LineKind): Progress {
    if p.stopped then p
    else
      match kind
      case Ignored => p
      case Done => p.(stopped := true)
      case Delta(c) => Progress(p.full + c, p.deltas + [c], false)
  }

  function RunLines(lines: seq<string>, parseDelta: string -> Option<string>, p: Progress): Progress
    decreases |lines|
  {
    if lines == [] then p else RunLines(lines[1..], parseDelta, StepLine(p, LineEvent(lines[0], parseDelta)))
  }

  /** The chunks read in order from `p`, each split by itself. */
  function RunChunksFrom(chunks: seq<string>, parseDelta: string -> Option<string>, p: Progress): Progress
    decreases |chunks|
  {
    if chunks == [] then p
    else RunChunksFrom(chunks[1..], parseDelta, RunLines(ChunkLines(chunks[0]), parseDelta, p))
  }

  /** What the loop makes of the whole stream. */
  function RunChunks(chunks: seq<string>, parseDelta: string -> Option<string>): Progress {
    RunChunksFrom(chunks, parseDelta, BEGIN)
  }

  lemma {:induction false} RunLinesStopped(lines: seq<string>, parseDelta: string -> Option<string>, p: Progress)
    requires p.stopped
    ensures RunLines(lines, parseDelta, p) == p
    decreases |lines|
  {
    if lines != [] {
      RunLinesStopped(lines[1..], parseDelta, p);
    }
  }

  lemma {:induction false} RunLinesAppend(a: seq<string>, b: seq<string>, parseDelta: string -> Option<string>, p: Progress)
    ensures RunLines(a + b, parseDelta, p) == RunLines(b, parseDelta, RunLines(a, parseDelta, p))
    decreases |a|
  {
    if a == [] {
      assert a + b == b;
    } else {
      assert (a + b)[1..] == a[1..] + b;
      RunLinesAppend(a[1..], b, parseDelta, StepLine(p, LineEvent(a[0], parseDelta)));
    }
  }

  /** Once stopped, later chunks change nothing. */
  lemma {:induction false} RunChunksStopped(chunks: seq<string>, parseDelta: string -> Option<string>, p: Progress)
    requires p.stopped
    ensures RunChunksFrom(chunks, parseDelta, p) == p
    decreases |chunks|
  {
    if chunks != [] {
      RunLinesStopped(ChunkLines(chunks[0]), parseDelta, p);
      RunChunksStopped(chunks[1..], parseDelta, p);
    }
  }

  /** The deltas are non-empty and the text is their concatenation. */
  ghost predicate Consistent(p: Progress) {
    && (forall i :: 0 <= i < |p.deltas| ==> p.deltas[i] != "")
    && p.full == SseStream.Concat(p.deltas)
  }

  lemma {:induction false} RunLinesConsistent(lines: seq<string>, parseDelta: string -> Option<string>, p: Progress)
    requires Consistent(p)
    ensures Consistent(RunLines(lines, parseDelta, p))
    decreases |lines|
  {
    if lines != [] {
      var q := StepLine(p, LineEvent(lines[0], parseDelta));
      assert Consistent(q) by {
        if !p.stopped && LineEvent(lines[0], parseDelta).Delta? {
          assert q.deltas[..|q.deltas| - 1] == p.deltas;
        }
      }
      RunLinesConsistent(lines[1..], parseDelta, q);
    }
  }

  lemma {:induction false} RunChunksFromConsistent(chunks: seq<string>, parseDelta: string -> Option<string>, p: Progress)
    requires Consistent(p)
    ensures Consistent(RunChunksFrom(chunks, parseDelta, p))
    decreases |chunks|
  {
    if chunks != [] {
      RunLinesConsistent(ChunkLines(chunks[0]), parseDelta, p);
      RunChunksFromConsistent(chunks[1..], parseDelta, RunLines(ChunkLines(chunks[0]), parseDelta, p));
    }
  }

  /** The returned text is the concatenation of the deltas passed to
      `onChunk`, none of which is empty. */
  lemma RunChunksConsistent(chunks: seq<string>, parseDelta: string -> Option<string>)
    ensures Consistent(RunChunks(chunks, parseDelta))
  {
    RunChunksFromConsistent(chunks, parseDelta, BEGIN);
  }

  /** Lines 51-85: the streaming loop; the text it returns and the deltas it
      passes to `onChunk`. */
  method ReadStream(chunks: seq<string>, parseDelta: string -> Option<string>) returns (full: string, deltas: seq<string>)
    ensures full == RunChunks(chunks, parseDelta).full && deltas == RunChunks(chunks, parseDelta).deltas
  {
    full, deltas := "", [];
    var i := 0;
    while i < |chunks|
      invariant 0 <= i <= |chunks|
      invariant RunChunksFrom(chunks[i..], parseDelta, Progress(full, deltas, false)) == RunChunks(chunks, parseDelta)
    {
      assert chunks[i..][1..] == chunks[i + 1..];
      var lines := NonBlank(SplitNewlines(chunks[i]));
      var done;
      full, deltas, done := ReadChunkLines(lines, parseDelta, full, deltas);
      if done {
        RunChunksStopped(chunks[i + 1..], parseDelta, Progress(full, deltas, true));
        return;
      }
      i := i + 1;
    }
  }

  /** The `for` loop over one chunk's lines; `done` tells whether it
      returned on "[DONE]". */
  method ReadChunkLines(lines: seq<string>, parseDelta: string -> Option<string>, full0: string, deltas0: seq<string>)
    returns (full: string, deltas: seq<string>, done: bool)
    ensures RunLines(lines, parseDelta, Progress(full0, deltas0, false)) == Progress(full, deltas, done)
  {
    ghost var start := Progress(full0, deltas0, false);
    full, deltas := full0, deltas0;
    var j := 0;
    assert lines[..0] == [];
    while j < |lines|
      invariant 0 <= j <= |lines|
      invariant RunLines(lines[..j], parseDelta, start) == Progress(full, deltas, false)
    {
      RunLinesAppend(lines[..j], [lines[j]], parseDelta, start);
      assert lines[..j + 1] == lines[..j] + [lines[j]];
      ghost var cur := Progress(full, deltas, false);
      var line := lines[j];
      if StartsWith(line, "data: ") {
        var data := line[6..];
        if data == "[DONE]" {
          assert LineEvent(line, parseDelta) == SseStream.Done;
          assert lines == lines[..j + 1] + lines[j + 1..];
          RunLinesAppend(lines[..j + 1], lines[j + 1..], parseDelta, start);
          RunLinesStopped(lines[j + 1..], parseDelta, Progress(full, deltas, true));
          return full, deltas, true;
        }
        match parseDelta(data)
        case Some(content) =>
          if content != "" {
            assert LineEvent(line, parseDelta) == SseStream.Delta(content);
            full := full + content;
            deltas := deltas + [content];
          } else {
            assert LineEvent(line, parseDelta) == SseStream.Ignored;
          }
        case None =>
          assert LineEvent(line, parseDelta) == SseStream.Ignored;
      } else {
        assert LineEvent(line, parseDelta) == SseStream.Ignored;
      }
      assert StepLine(cur, LineEvent(line, parseDelta)) == Progress(full, deltas, false);
      j := j + 1;
    }
    assert lines[..j] == lines;
    done := false;
  }

  /** A line that starts with a non-blank character survives the filter. */
  lemma NotBlank(s: string)
    requires s != [] && !IsWhitespace(s[0])
    ensures Trim(s) != ""
  {
    assert !AllWhitespace(s);
  }

  /** The lines of a text with one '\n', at its end. */
  lemma OneLine(l: string)
    requires '\n' !in l && l != [] && !IsWhitespace(l[0])
    ensures ChunkLines(l + "\n") == [l]
  {
    var s := l + "\n";
    assert s[|l|] == '\n';
    assert forall k :: 0 <= k < |l| ==> s[k] == l[k];
    assert FindChar(s, '\n', 0) == Some(|l|);
    assert s[..|l|] == l;
    assert s[|l| + 1..] == [];
    assert FindChar([], '\n', 0) == None;
    assert Lines(s) == [l];
    assert Tail(s) == [];
    assert SplitNewlines(s) == [l, ""];
    NotBlank(l);
    assert Trim("") == "";
    assert NonBlank([l, ""]) == [l] + NonBlank([""]);
  }

  /** The lines of a text without '\n'. */
  lemma NoNewline(l: string)
    requires '\n' !in l && l != [] && !IsWhitespace(l[0])
    ensures ChunkLines(l) == [l]
  {
    assert FindChar(l, '\n', 0) == None;
    assert SplitNewlines(l) == [l];
    NotBlank(l);
  }

  /** The parser of the example below: "AB" is the delta "x", anything else
      is not a delta. */
  function ParseAB(d: string): Option<string> {
    if d == "AB" then Some("x") else None
  }

  lemma RunLinesSingle(l: string, parseDelta: string -> Option<string>, p: Progress)
    ensures RunLines([l], parseDelta, p) == StepLine(p, LineEvent(l, parseDelta))
  {
    assert [l][1..] == [];
  }

  lemma RunChunksSingle(c: string, parseDelta: string -> Option<string>, p: Progress)
    ensures RunChunksFrom([c], parseDelta, p) == RunLines(ChunkLines(c), parseDelta, p)
  {
    assert [c][1..] == [];
  }

  lemma RunChunksPair(c: string, d: string, parseDelta: string -> Option<string>)
    ensures RunChunks([c, d], parseDelta) == RunLines(ChunkLines(d), parseDelta, RunLines(ChunkLines(c), parseDelta, BEGIN))
  {
    assert [c, d][1..] == [d];
    RunChunksSingle(d, parseDelta, RunLines(ChunkLines(c), parseDelta, BEGIN));
  }

  lemma WholeLineLines()
    ensures ChunkLines("data: AB\n") == ["data: AB"]
  {
    OneLine("data: AB");
    assert "data: AB" + "\n" == "data: AB\n";
  }

  lemma WholeLineEvent()
    ensures LineEvent("data: AB", ParseAB) == SseStream.Delta("x")
  {
    assert "data: AB"[6..] == "AB";
  }

  lemma OneRead()
    ensures RunChunks(["data: AB\n"], ParseAB).full == "x"
  {
    WholeLineLines();
    WholeLineEvent();
    RunLinesSingle("data: AB", ParseAB, BEGIN);
    RunChunksSingle("data: AB\n", ParseAB, BEGIN);
  }

  lemma FirstHalfIgnored()
    ensures ChunkLines("data: A") == ["data: A"]
    ensures LineEvent("data: A", ParseAB) == SseStream.Ignored
  {
    NoNewline("data: A");
    assert "data: A"[6..] == "A";
  }

  lemma SecondHalfIgnored()
    ensures ChunkLines("B\n") == ["B"]
    ensures LineEvent("B", ParseAB) == SseStream.Ignored
  {
    OneLine("B");
    assert "B" + "\n" == "B\n";
  }

  lemma TwoReads()
    ensures RunChunks(["data: A", "B\n"], ParseAB).full == ""
  {
    FirstHalfIgnored();
    SecondHalfIgnored();
    RunLinesSingle("data: A", ParseAB, BEGIN);
    RunLinesSingle("B", ParseAB, BEGIN);
    RunChunksPair("data: A", "B\n", ParseAB);
  }

  /** A line split across two reads is parsed as two fragments: the text
      "data: AB\n" yields "x" in one read and nothing in two. */
  lemma SplitLineIsLost()
    ensures RunChunks(["data: AB\n"], ParseAB).full == "x"
    ensures RunChunks(["data: A", "B\n"], ParseAB).full == ""
  {
    OneRead();
    TwoReads();
  }

  // ---------------------------------------------------------------------
  // Adapters and dispatch

  /** What a call produced: how its promise settled, the requests sent, and
      the deltas passed to `onChunk`. */
  datatype Outcome = Outcome(settled: Settled, sent: seq<Request>, deltas: seq<string>)

  /** `error.error?.message || 'API request failed'`, where an unparsable
      body reads as `{ error: { message: statusText } }`. */
  function FailureText(statusText: string, json: Json): (m: string)
    ensures m != ""
    ensures json.Unparsable? ==> m == Or(statusText, REQUEST_FAILED)
  {
    match json
    case Unparsable(_) => Or(statusText, REQUEST_FAILED)
    case Fields(_) => Or(Lookup(json, "error.message"), REQUEST_FAILED)
  }

  /** The part after the request common to both adapters: a rejection or a
      non-OK status throws; with a callback and a readable body the stream
      loop runs; otherwise the JSON body is read at `path`. */
  function Settle(reply: Reply, onChunk: bool, parseDelta: string -> Option<string>, path: string): (r: (Settled, seq<string>))
    ensures r.1 != [] ==> onChunk
    ensures reply.Response? && reply.ok && onChunk && reply.body.Chunks? ==>
      r.0 == Returned(RunChunks(reply.body.chunks, parseDelta).full) && r.1 == RunChunks(reply.body.chunks, parseDelta).deltas
  {
    match reply
    case Rejected(t) => (Threw(t), [])
    case Response(ok, statusText, json, body) =>
      if !ok then (Threw(ErrorValue(FailureText(statusText, json))), [])
      else if onChunk && body.Chunks? then
        var p := RunChunks(body.chunks, parseDelta);
        (Returned(p.full), p.deltas)
      else
        match json
        case Unparsable(e) => (Threw(ErrorValue(e)), [])
        case Fields(_) => (Returned(Lookup(json, path)), [])
  }

  /** `callOpenAIAPI`. */
  function CallOpenAIAPI(config: ApiConfig, ms: seq<Message>, onChunk: bool,
                         send: Request -> Reply, parseDelta: string -> Option<string>): (r: Outcome)
    ensures config.endpoint == "" || config.apiKey == "" ==>
      r == Outcome(Threw(ErrorValue(MISSING_CONFIG_MESSAGE)), [], [])
    ensures config.endpoint != "" && config.apiKey != "" ==> r.sent == [OpenAIRequest(config, ms, onChunk)]
    ensures r.deltas != [] ==> onChunk
  {
    if config.endpoint == "" || config.apiKey == "" then Outcome(Threw(ErrorValue(MISSING_CONFIG_MESSAGE)), [], [])
    else
      var req := OpenAIRequest(config, ms, onChunk);
      var (s, deltas) := Settle(send(req), onChunk, parseDelta, "choices.0.message.content");
      Outcome(s, [req], deltas)
  }

  /** An Anthropic stream event: its `type` and its `delta.text` ("" when
      missing). */
  datatype AnthropicEvent = AnthropicEvent(eventType: string, deltaText: string)

  /** Lines 157-163: only `content_block_delta` events carry text. */
  function AnthropicDelta(parseEvent: string -> Option<AnthropicEvent>, data: string): Option<string> {
    match parseEvent(data)
    case Some(e) => if e.eventType == "content_block_delta" then Some(e.deltaText) else None
    case None => None
  }

  /** A line adds text to an Anthropic stream only when it carries a
      `content_block_delta` event with non-empty text. */
  lemma AnthropicCountsOnlyContentDeltas(line: string, parseEvent: string -> Option<AnthropicEvent>, t: string)
    requires LineEvent(line, d => AnthropicDelta(parseEvent, d)) == SseStream.Delta(t)
    ensures StartsWith(line, "data: ") && t != ""
    ensures parseEvent(line[6..]) == Some(AnthropicEvent("content_block_delta", t))
  {
  }

  /** `callAnthropicAPI` as written: the request never asks for a stream,
      yet with a callback the response is read as one. */
  function CallAnthropicAPI(config: ApiConfig, ms: seq<Message>, onChunk: bool,
                            send: Request -> Reply, parseEvent: string -> Option<AnthropicEvent>): (r: Outcome)
    ensures config.endpoint == "" || config.apiKey == "" ==>
      r == Outcome(Threw(ErrorValue(MISSING_CONFIG_MESSAGE)), [], [])
    ensures config.endpoint != "" && config.apiKey != "" ==> r.sent == [AnthropicRequestAsWritten(config, ms, onChunk)]
    ensures r.deltas != [] ==> onChunk
  {
    AnthropicCall(config, ms, onChunk, send, parseEvent, AnthropicRequestAsWritten(config, ms, onChunk))
  }

  /** `callAnthropicAPI` with the request corrected to ask for streaming
      when a callback is given. */
  function CallAnthropicAPICorrected(config: ApiConfig, ms: seq<Message>, onChunk: bool,
                                     send: Request -> Reply, parseEvent: string -> Option<AnthropicEvent>): (r: Outcome)
    ensures config.endpoint == "" || config.apiKey == "" ==>
      r == Outcome(Threw(ErrorValue(MISSING_CONFIG_MESSAGE)), [], [])
    ensures config.endpoint != "" && config.apiKey != "" ==> r.sent == [AnthropicRequest(config, ms, onChunk)]
    ensures r.deltas != [] ==> onChunk
    ensures !onChunk ==> r == CallAnthropicAPI(config, ms, onChunk, send, parseEvent)
  {
    AnthropicCall(config, ms, onChunk, send, parseEvent, AnthropicRequest(config, ms, onChunk))
  }

  /** The guards, then `req` sent and its reply settled. */
  function AnthropicCall(config: ApiConfig, ms: seq<Message>, onChunk: bool, send: Request -> Reply,
                         parseEvent: string -> Option<AnthropicEvent>, req: Request): (r: Outcome)
    ensures r.deltas != [] ==> onChunk
  {
    if config.endpoint == "" || config.apiKey == "" then Outcome(Threw(ErrorValue(MISSING_CONFIG_MESSAGE)), [], [])
    else
      var (s, deltas) := Settle(send(req), onChunk, d => AnthropicDelta(parseEvent, d), "content.0.text");
      Outcome(s, [req], deltas)
  }

  /** `callAPI`: dispatch on the configured format. */
  function CallAPI(config: ApiConfig, ms: seq<Message>, onChunk: bool, send: Request -> Reply,
                   parseDelta: string -> Option<string>, parseEvent: string -> Option<AnthropicEvent>): (r: Outcome)
    ensures config.format == "openai" ==> r == CallOpenAIAPI(config, ms, onChunk, send, parseDelta)
    ensures config.format == "anthropic" ==> r == CallAnthropicAPI(config, ms, onChunk, send, parseEvent)
    ensures config.format == "custom" ==> r == Outcome(Threw(ErrorValue(CUSTOM_MESSAGE)), [], [])
    ensures config.format !in {"openai", "anthropic", "custom"} ==>
      r == Outcome(Threw(ErrorValue(UNSUPPORTED_PREFIX + config.format)), [], [])
  {
    if config.format == "openai" then CallOpenAIAPI(config, ms, onChunk, send, parseDelta)
    else if config.format == "anthropic" then CallAnthropicAPI(config, ms, onChunk, send, parseEvent)
    else if config.format == "custom" then Outcome(Threw(ErrorValue(CUSTOM_MESSAGE)), [], [])
    else Outcome(Threw(ErrorValue(UNSUPPORTED_PREFIX + config.format)), [], [])
  }

  /** Streaming is asked for exactly when a callback is given to the
      OpenAI adapter, and never by the Anthropic one; whatever the adapter
      returns after a streamed read is the concatenation of the non-empty
      deltas it passed to `onChunk`. */
  lemma StreamedReadIsDeltaConcat(config: ApiConfig, ms: seq<Message>, send: Request -> Reply,
                                  parseDelta: string -> Option<string>, parseEvent: string -> Option<AnthropicEvent>, onChunk: bool)
    requires config.format in {"openai", "anthropic"} && config.endpoint != "" && config.apiKey != ""
    ensures var r := CallAPI(config, ms, onChunk, send, parseDelta, parseEvent);
      && |r.sent| == 1 && r.sent[0].body.stream == (onChunk && config.format == "openai")
      && (forall i :: 0 <= i < |r.deltas| ==> r.deltas[i] != "")
      && (r.deltas != [] ==> r.settled == Returned(SseStream.Concat(r.deltas)))
  {
    var r := CallAPI(config, ms, onChunk, send, parseDelta, parseEvent);
    var req := r.sent[0];
    var pd := if config.format == "openai" then parseDelta else d => AnthropicDelta(parseEvent, d);
    assert r.deltas == Settle(send(req), onChunk, pd, if config.format == "openai" then "choices.0.message.content" else "content.0.text").1;
    var reply := send(req);
    if reply.Response? && reply.ok && onChunk && reply.body.Chunks? {
      RunChunksConsistent(reply.body.chunks, pd);
    }
  }
}
