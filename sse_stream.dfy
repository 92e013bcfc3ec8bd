/** `readSSEStream` (frontend/src/utils/apiService.ts:18-57): the reader of a
    server-sent-events response from an OpenAI-compatible chat endpoint.

    The response body is the sequence of text chunks the decoder produced, one
    per `reader.read()`. `JSON.parse(payload)` followed by the lookup of
    `choices[0].delta.content` is the parameter `delta`: it gives the delta
    when the payload parses and that field is a string, and `None` otherwise
    (a parse error and a missing field are both skipped by the source).

    The framing is a subset of server-sent events (section 9.2 of the WHATWG
    HTML Living Standard): only '\n'-terminated lines are looked at, a line
    counts when, once trimmed, it starts with exactly "data: ", and the
    payload "[DONE]" is the providers' end marker, which the standard does
    not know. */
module SseStream {

  import opened Wrappers
  import opened Strs

  /** The response body: `Unreadable` when `response.body?.getReader()` gives
      nothing. */
  datatype Body = Unreadable | Chunks(chunks: seq<string>)

  /** What one complete line does to the accumulation. */
  datatype LineKind = Ignored | Done | Delta(text: string)

  /** The reader's state after some lines: the accumulated text, every
      argument passed to `onChunk` so far, and whether "[DONE]" was seen. */
  datatype Acc = Acc(accumulated: string, calls: seq<string>, stopped: bool)

  const START: Acc := Acc("", [], false)

  const UNREADABLE_MESSAGE: string := "Response body is not readable"

  /** The decoded text of all chunks, in order. */
  function Concat(chunks: seq<string>): string {
    if chunks == [] then "" else Concat(chunks[..|chunks| - 1]) + chunks[|chunks| - 1]
  }

  /** Lines 38-47: how one complete line is read. */
  function Classify(line: string, delta: string -> Option<string>): LineKind {
    var s := Trim(line);
    if !StartsWith(s, "data: ") then Ignored
    else
      var payload := Trim(s[6..]);
      if payload == "[DONE]" then Done
      else
        match delta(payload)
        case None => Ignored
        case Some(d) => Delta(d)
  }

  function Step(st: Acc, kind: LineKind): Acc {
    if st.stopped then st
    else
      match kind
      case Ignored => st
      case Done => st.(stopped := true)
      case Delta(d) => Acc(st.accumulated + d, st.calls + [st.accumulated + d], false)
  }

  /** The lines read in order, starting from `st`. */
  function Run(lines: seq<string>, delta: string -> Option<string>, st: Acc): Acc
    decreases |lines|
  {
    if lines == [] then st else Run(lines[1..], delta, Step(st, Classify(lines[0], delta)))
  }

  /** What the reader makes of a whole decoded body: only its complete lines
      count, read from the start. */
  function ReadText(text: string, delta: string -> Option<string>): Acc {
    Run(Lines(text), delta, START)
  }

  lemma {:induction false} RunAppend(a: seq<string>, b: seq<string>, delta: string -> Option<string>, st: Acc)
    ensures Run(a + b, delta, st) == Run(b, delta, Run(a, delta, st))
    decreases |a|
  {
    if a == [] {
      assert a + b == b;
    } else {
      assert (a + b)[1..] == a[1..] + b;
      RunAppend(a[1..], b, delta, Step(st, Classify(a[0], delta)));
    }
  }

  /** Once "[DONE]" has been seen nothing changes any more. */
  lemma {:induction false} RunStopped(lines: seq<string>, delta: string -> Option<string>, st: Acc)
    requires st.stopped
    ensures Run(lines, delta, st) == st
    decreases |lines|
  {
    if lines != [] {
      RunStopped(lines[1..], delta, st);
    }
  }

  lemma ConcatSnoc(chunks: seq<string>, i: nat)
    requires i < |chunks|
    ensures Concat(chunks[..i + 1]) == Concat(chunks[..i]) + chunks[i]
  {
    assert chunks[..i + 1][..i] == chunks[..i];
  }

  /** Reading one more chunk: the complete lines it finishes are read on
      from where the earlier chunks left off. */
  lemma ChunkStep(chunks: seq<string>, i: nat, delta: string -> Option<string>)
    requires i < |chunks|
    ensures ReadText(Concat(chunks[..i + 1]), delta) ==
      Run(Lines(Tail(Concat(chunks[..i])) + chunks[i]), delta, ReadText(Concat(chunks[..i]), delta))
    ensures Tail(Concat(chunks[..i + 1])) == Tail(Tail(Concat(chunks[..i])) + chunks[i])
  {
    var prefix := Concat(chunks[..i]);
    ConcatSnoc(chunks, i);
    LinesAppend(prefix, chunks[i]);
    RunAppend(Lines(prefix), Lines(Tail(prefix) + chunks[i]), delta, START);
  }

  /** Reading one more line. */
  lemma RunSnoc(lines: seq<string>, j: nat, delta: string -> Option<string>, st: Acc)
    requires j < |lines|
    ensures Run(lines[..j + 1], delta, st) == Step(Run(lines[..j], delta, st), Classify(lines[j], delta))
  {
    var before := lines[..j];
    assert lines[..j + 1] == before + [lines[j]];
    RunAppend(before, [lines[j]], delta, st);
    RunOne(lines[j], delta, Run(before, delta, st));
  }

  /** Reading a single line is one step. */
  lemma RunOne(line: string, delta: string -> Option<string>, st: Acc)
    ensures Run([line], delta, st) == Step(st, Classify(line, delta))
  {
    assert [line][1..] == [];
  }

  /** `readSSEStream`: returns what the source resolves with (or the error it
      throws) and the arguments of the successive `onChunk` calls. The result
      is that of reading the concatenated text, whatever the chunking. */
  method ReadSSEStream(body: Body, delta: string -> Option<string>) returns (r: Result<string>, calls: seq<string>)
    ensures body.Unreadable? ==> r == Failure(UNREADABLE_MESSAGE) && calls == []
    ensures body.Chunks? ==>
      var final := ReadText(Concat(body.chunks), delta);
      r == Success(final.accumulated) && calls == final.calls
  {
    if body.Unreadable? {
      return Failure(UNREADABLE_MESSAGE), [];
    }
    var chunks := body.chunks;
    var buffer := "";
    var accumulated := "";
    calls := [];
    var i := 0;
    while i < |chunks|
      invariant 0 <= i <= |chunks|
      invariant buffer == Tail(Concat(chunks[..i]))
      invariant ReadText(Concat(chunks[..i]), delta) == Acc(accumulated, calls, false)
    {
      ChunkStep(chunks, i, delta);
      buffer := buffer + chunks[i];
      var parts := SplitNewlines(buffer);
      var lines := parts[..|parts| - 1];
      buffer := parts[|parts| - 1];
      assert lines == Lines(Tail(Concat(chunks[..i])) + chunks[i]);
      var done;
      accumulated, calls, done := ReadLines(lines, delta, accumulated, calls);
      if done {
        DoneIgnoresRest(chunks, i, delta);
        return Success(accumulated), calls;
      }
      i := i + 1;
    }
    assert chunks[..i] == chunks;
    r := Success(accumulated);
  }

  /** The inner loop of `readSSEStream` (lines 37-54) over the complete lines
      of one read: `done` tells whether it returned on "[DONE]". */
  method ReadLines(lines: seq<string>, delta: string -> Option<string>, accumulated0: string, calls0: seq<string>)
    returns (accumulated: string, calls: seq<string>, done: bool)
    ensures Run(lines, delta, Acc(accumulated0, calls0, false)) == Acc(accumulated, calls, done)
  {
    ghost var before := Acc(accumulated0, calls0, false);
    accumulated, calls := accumulated0, calls0;
    var j := 0;
    assert lines[..0] == [];
    while j < |lines|
      invariant 0 <= j <= |lines|
      invariant Run(lines[..j], delta, before) == Acc(accumulated, calls, false)
    {
      RunSnoc(lines, j, delta, before);
      ghost var cur := Acc(accumulated, calls, false);
      var s := Trim(lines[j]);
      if StartsWith(s, "data: ") {
        var payload := Trim(s[6..]);
        if payload == "[DONE]" {
          assert Classify(lines[j], delta) == Done;
          SplitAt(lines, j + 1);
          RunAppend(lines[..j + 1], lines[j + 1..], delta, before);
          RunStopped(lines[j + 1..], delta, Acc(accumulated, calls, true));
          return accumulated, calls, true;
        }
        match delta(payload)
        case Some(d) =>
          assert Classify(lines[j], delta) == Delta(d);
          accumulated := accumulated + d;
          calls := calls + [accumulated];
          assert Step(cur, Delta(d)) == Acc(accumulated, calls, false);
        case None =>
          assert Classify(lines[j], delta) == Ignored;
      } else {
        assert Classify(lines[j], delta) == Ignored;
      }
      assert Run(lines[..j + 1], delta, before) == Acc(accumulated, calls, false);
      j := j + 1;
      assert Run(lines[..j], delta, before) == Acc(accumulated, calls, false);
    }
    assert lines[..j] == lines;
    done := false;
  }

  /** Helper for the early return: the lines of later chunks leave a stopped
      read as it was. */
  lemma DoneIgnoresRest(chunks: seq<string>, i: nat, delta: string -> Option<string>)
    requires i < |chunks|
    requires ReadText(Concat(chunks[..i + 1]), delta).stopped
    ensures ReadText(Concat(chunks), delta) == ReadText(Concat(chunks[..i + 1]), delta)
  {
    var head := Concat(chunks[..i + 1]);
    var rest := Concat(chunks[i + 1..]);
    var later := Lines(Tail(head) + rest);
    ConcatSplit(chunks, i + 1);
    LinesAppend(head, rest);
    RunAppend(Lines(head), later, delta, START);
    RunStopped(later, delta, ReadText(head, delta));
  }

  lemma SplitAt<T>(xs: seq<T>, k: nat)
    requires k <= |xs|
    ensures xs == xs[..k] + xs[k..]
  {
  }

  lemma {:induction false} ConcatSplit(chunks: seq<string>, k: nat)
    requires k <= |chunks|
    ensures Concat(chunks) == Concat(chunks[..k]) + Concat(chunks[k..])
    decreases |chunks| - k
  {
    if k == |chunks| {
      assert chunks[..k] == chunks;
      assert chunks[k..] == [];
    } else {
      ConcatSplit(chunks, k + 1);
      ConcatSnoc(chunks, k);
      var tl := chunks[k..];
      assert tl[..|tl| - 1] == chunks[k..|chunks| - 1];
      ConcatCons(chunks[k], chunks[k + 1..]);
      assert [chunks[k]] + chunks[k + 1..] == tl;
    }
  }

  lemma {:induction false} ConcatCons(c: string, cs: seq<string>)
    ensures Concat([c] + cs) == c + Concat(cs)
    decreases |cs|
  {
    if cs == [] {
      assert [c] + cs == [c];
      assert [c][..0] == [];
    } else {
      var all := [c] + cs;
      var init := cs[..|cs| - 1];
      var last := cs[|cs| - 1];
      assert all[..|all| - 1] == [c] + init && all[|all| - 1] == last;
      assert Concat(all) == Concat([c] + init) + last;
      ConcatCons(c, init);
      assert Concat(cs) == Concat(init) + last;
      assert (c + Concat(init)) + last == c + (Concat(init) + last);
    }
  }

  // ---------------------------------------------------------------------
  // Properties of the accumulation

  /** Every `onChunk` argument extends every earlier one, and the text the
      reader returns is the last argument, or "" when `onChunk` was never
      called. */
  ghost predicate PrefixChain(st: Acc) {
    && (forall i, j :: 0 <= i <= j < |st.calls| ==> st.calls[i] <= st.calls[j])
    && LastCall(st)
  }

  /** The text returned is the last `onChunk` argument, or "" with none. */
  ghost predicate LastCall(st: Acc) {
    if st.calls == [] then st.accumulated == "" else st.accumulated == st.calls[|st.calls| - 1]
  }

  lemma {:induction false} RunKeepsPrefixChain(lines: seq<string>, delta: string -> Option<string>, st: Acc)
    requires PrefixChain(st)
    ensures PrefixChain(Run(lines, delta, st))
    decreases |lines|
  {
    if lines != [] {
      var next := Step(st, Classify(lines[0], delta));
      StepKeepsPrefixChain(st, Classify(lines[0], delta));
      RunKeepsPrefixChain(lines[1..], delta, next);
    }
  }

  /** One step keeps the chain: a delta's call extends the text so far. */
  lemma StepKeepsPrefixChain(st: Acc, kind: LineKind)
    requires PrefixChain(st)
    ensures PrefixChain(Step(st, kind))
  {
    if !st.stopped && kind.Delta? {
      var next := st.accumulated + kind.text;
      var c := st.calls + [next];
      assert st.accumulated <= next;
      forall i, j | 0 <= i <= j < |c|
        ensures c[i] <= c[j]
      {
        if j < |st.calls| {
          assert c[i] == st.calls[i] && c[j] == st.calls[j];
        } else if i < |st.calls| {
          assert c[i] == st.calls[i] <= st.accumulated;
          PrefixTransitive(c[i], st.accumulated, next);
        }
      }
    }
  }

  /** Being a prefix is transitive. */
  lemma PrefixTransitive(a: string, b: string, c: string)
    requires a <= b && b <= c
    ensures a <= c
  {
    assert c[..|b|][..|a|] == c[..|a|];
  }

  /** The chain property of a whole read. */
  lemma CallsFormPrefixChain(text: string, delta: string -> Option<string>)
    ensures PrefixChain(ReadText(text, delta))
  {
    RunKeepsPrefixChain(Lines(text), delta, START);
  }

  /** A text that ends where a line ends leaves nothing in the buffer. */
  lemma {:induction false} TailAtLineEnd(x: string)
    requires x == [] || x[|x| - 1] == '\n'
    ensures Tail(x) == []
    decreases |x|
  {
    match FindChar(x, '\n', 0)
    case None =>
    case Some(i) =>
      TailAtLineEnd(x[i + 1..]);
  }

  lemma LinesWithoutNewline(y: string)
    requires '\n' !in y
    ensures Lines(y) == [] && Tail(y) == y
  {
  }

  /** One line with its terminator is one complete line. */
  lemma LinesOfOneLine(l: string)
    requires '\n' !in l
    ensures Lines(l + "\n") == [l]
  {
    var s := l + "\n";
    assert s[|l|] == '\n';
    assert forall k :: 0 <= k < |l| ==> s[k] == l[k] && s[k] != '\n';
    assert FindChar(s, '\n', 0) == Some(|l|);
    assert s[..|l|] == l;
    assert s[|l| + 1..] == [];
    LinesWithoutNewline([]);
  }

  /** The complete lines of `x + y` when `x` ends where a line ends. */
  lemma LinesAtBoundary(x: string, y: string)
    requires x == [] || x[|x| - 1] == '\n'
    ensures Lines(x + y) == Lines(x) + Lines(y)
  {
    LinesAppend(x, y);
    TailAtLineEnd(x);
    assert Tail(x) + y == y;
  }

  /** A final line without its '\n' stays in the buffer and is never read. */
  lemma UnterminatedLineIgnored(text: string, last: string, delta: string -> Option<string>)
    requires text == [] || text[|text| - 1] == '\n'
    requires '\n' !in last
    ensures ReadText(text + last, delta) == ReadText(text, delta)
  {
    LinesAtBoundary(text, last);
    LinesWithoutNewline(last);
    assert Lines(text) + [] == Lines(text);
  }

  lemma RunSingle(l: string, delta: string -> Option<string>, st: Acc)
    ensures Run([l], delta, st) == Step(st, Classify(l, delta))
  {
    assert [l][1..] == [];
  }

  /** A read whose text has a complete line after a line boundary: that line
      is read right after the text before it, and what follows is read from
      the state it leaves. */
  lemma ReadAroundLine(pre: string, line: string, post: string, delta: string -> Option<string>)
    requires pre == [] || pre[|pre| - 1] == '\n'
    requires '\n' !in line
    ensures ReadText(pre + line + "\n" + post, delta) ==
      Run(Lines(post), delta, Step(ReadText(pre, delta), Classify(line, delta)))
  {
    var mid := line + "\n";
    assert pre + line + "\n" + post == pre + (mid + post);
    LinesAtBoundary(pre, mid + post);
    LinesAtBoundary(mid, post);
    LinesOfOneLine(line);
    var rest := [line] + Lines(post);
    assert rest[0] == line && rest[1..] == Lines(post);
    RunAppend(Lines(pre), rest, delta, START);
  }

  /** The same with nothing after the line. */
  lemma ReadThroughLine(pre: string, line: string, delta: string -> Option<string>)
    requires pre == [] || pre[|pre| - 1] == '\n'
    requires '\n' !in line
    ensures ReadText(pre + line + "\n", delta) == Step(ReadText(pre, delta), Classify(line, delta))
  {
    ReadAroundLine(pre, line, [], delta);
    assert pre + line + "\n" + [] == pre + line + "\n";
    LinesWithoutNewline([]);
  }

  /** A line that is not a "data: " line, or whose payload does not give a
      delta, can be removed without changing anything. */
  lemma IgnoredLineRemovable(pre: string, line: string, post: string, delta: string -> Option<string>)
    requires pre == [] || pre[|pre| - 1] == '\n'
    requires '\n' !in line
    requires Classify(line, delta) == Ignored
    ensures ReadText(pre + line + "\n" + post, delta) == ReadText(pre + post, delta)
  {
    ReadAroundLine(pre, line, post, delta);
    LinesAtBoundary(pre, post);
    RunAppend(Lines(pre), Lines(post), delta, START);
  }

  /** A "[DONE]" line ends the read: whatever follows it is never looked at,
      and the text and the `onChunk` calls are those before it. */
  lemma DoneLineEndsRead(pre: string, line: string, post: string, delta: string -> Option<string>)
    requires pre == [] || pre[|pre| - 1] == '\n'
    requires '\n' !in line
    requires Classify(line, delta) == Done
    ensures ReadText(pre + line + "\n" + post, delta) == ReadText(pre + line + "\n", delta)
    ensures ReadText(pre + line + "\n", delta).accumulated == ReadText(pre, delta).accumulated
    ensures ReadText(pre + line + "\n", delta).calls == ReadText(pre, delta).calls
  {
    var before := ReadText(pre, delta);
    var after := Step(before, Done);
    assert after.accumulated == before.accumulated && after.calls == before.calls && after.stopped;
    ReadAroundLine(pre, line, post, delta);
    ReadThroughLine(pre, line, delta);
    RunStopped(Lines(post), delta, after);
  }

  /** A line that carries a delta appends it and passes the new total to
      `onChunk`, unless "[DONE]" came earlier. */
  lemma DeltaLineAppends(pre: string, line: string, delta: string -> Option<string>, d: string)
    requires pre == [] || pre[|pre| - 1] == '\n'
    requires '\n' !in line
    requires Classify(line, delta) == Delta(d)
    requires !ReadText(pre, delta).stopped
    ensures ReadText(pre + line + "\n", delta).accumulated == ReadText(pre, delta).accumulated + d
    ensures ReadText(pre + line + "\n", delta).calls == ReadText(pre, delta).calls + [ReadText(pre, delta).accumulated + d]
  {
    ReadThroughLine(pre, line, delta);
    DeltaStep(ReadText(pre + line + "\n", delta), ReadText(pre, delta), d);
  }

  /** A delta read while the reader still runs is appended and reported. */
  lemma DeltaStep(after: Acc, before: Acc, d: string)
    requires !before.stopped && after == Step(before, Delta(d))
    ensures after.accumulated == before.accumulated + d
    ensures after.calls == before.calls + [before.accumulated + d]
  {
  }
}
