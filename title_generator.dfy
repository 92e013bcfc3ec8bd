/** `generateTitle` (frontend/src/utils/titleGenerator.ts): a conversation
    title of at most 20 characters made from the first user message, or
    from the first reply when the message is shorter than three characters.
    Each regular-expression `replace` is a left-to-right scan that resumes
    after each match, the way a global regular expression advances. */
module TitleGenerator {

  import opened Wrappers
  import opened Strs

  const DEFAULT_TITLE: string := "新对话"
  const MAX_TITLE: nat := 20
  const FENCE: string := "```"

  /** The characters `.` does not match, and after which `^` matches in
      multi-line mode. */
  predicate IsLineTerminator(c: char) {
    c == '\n' || c == '\r' || c == '\U{2028}' || c == '\U{2029}'
  }

  /** The number of leading characters of `t` that satisfy `p`: how far a
      greedy `[...]+` over that class reaches. */
  function Run(t: string, p: char -> bool): (k: nat)
    ensures k <= |t|
    ensures forall j :: 0 <= j < k ==> p(t[j])
    ensures k < |t| ==> !p(t[k])
  {
    if t == [] || !p(t[0]) then 0 else 1 + Run(t[1..], p)
  }

  /** Where the lazy `(.*?)` of `d(.*?)d` stops in the text `t` after the
      opening `d`: the first index at which `d` occurs again, provided no
      line terminator comes before it. With `dotAll` (`[\s\S]*?`) line
      terminators are crossed too. */
  function LazyClose(t: string, d: string, dotAll: bool): (r: Option<nat>)
    requires d != []
    ensures r.Some? ==> r.value + |d| <= |t| && StartsWith(t[r.value..], d)
    ensures r.Some? ==> forall j :: 0 <= j < r.value ==> !StartsWith(t[j..], d)
    ensures r.Some? && !dotAll ==> forall j :: 0 <= j < r.value ==> !IsLineTerminator(t[j])
    ensures r.None? && dotAll ==> forall j :: 0 <= j <= |t| ==> !StartsWith(t[j..], d)
    decreases |t|
  {
    if StartsWith(t, d) then Some(0)
    else if t == [] || (!dotAll && IsLineTerminator(t[0])) then None
    else
      match LazyClose(t[1..], d, dotAll)
      case None =>
        assert forall j :: 1 <= j <= |t| ==> t[j..] == t[1..][j - 1..];
        None
      case Some(k) =>
        assert forall j :: 1 <= j <= |t| ==> t[j..] == t[1..][j - 1..];
        Some(k + 1)
  }

  /** `s.replace(/^#+\s+/gm, '')`: a run of `#` followed by a run of
      whitespace is dropped where it begins a line. */
  function DropHeadings(s: string, atLineStart: bool): (r: string)
    ensures |r| <= |s|
    ensures (forall i :: 0 <= i < |s| ==> s[i] != '#') ==> r == s
    decreases |s|
  {
    if s == [] then []
    else
      var h := Run(s, c => c == '#');
      var w := Run(s[h..], IsWhitespace);
      if atLineStart && h > 0 && w > 0 then
        DropHeadings(s[h + w..], IsLineTerminator(s[h + w - 1]))
      else
        [s[0]] + DropHeadings(s[1..], IsLineTerminator(s[0]))
  }

  /** `s.replace(/d(.*?)d/g, '$1')` for `d` one of `**`, `*`, a backtick:
      each delimited span on one line is replaced by its inner text. */
  function Unwrap(s: string, d: string): (r: string)
    requires d != []
    ensures |r| <= |s|
    ensures (forall i :: 0 <= i < |s| ==> s[i] != d[0]) ==> r == s
    decreases |s|
  {
    if s == [] then []
    else if StartsWith(s, d) && LazyClose(s[|d|..], d, false).Some? then
      var k := LazyClose(s[|d|..], d, false).value;
      s[|d|..|d| + k] + Unwrap(s[|d| + k + |d|..], d)
    else [s[0]] + Unwrap(s[1..], d)
  }

  /** No two backticks side by side. */
  predicate NoBacktickPair(s: string) {
    forall i :: 0 <= i < |s| - 1 ==> !(s[i] == '`' && s[i + 1] == '`')
  }

  /** s.replace(/```[\s\S]*?```/g, ''): each fenced block is dropped. */
  function DropFences(s: string): (r: string)
    ensures |r| <= |s|
    ensures NoBacktickPair(s) ==> r == s
    decreases |s|
  {
    if s == [] then []
    else if StartsWith(s, FENCE) && LazyClose(s[3..], FENCE, true).Some? then
      var k := LazyClose(s[3..], FENCE, true).value;
      assert s[..3][0] == '`' && s[..3][1] == '`';
      DropFences(s[3 + k + 3..])
    else
      assert NoBacktickPair(s) ==> NoBacktickPair(s[1..]) by {
        if NoBacktickPair(s) {
          forall i | 0 <= i < |s[1..]| - 1 ensures !(s[1..][i] == '`' && s[1..][i + 1] == '`') {
            assert s[1..][i] == s[i + 1] && s[1..][i + 1] == s[i + 2];
          }
        }
      }
      [s[0]] + DropFences(s[1..])
  }

  /** `s.replace(/\[([^\]]+)\]\([^\)]+\)/g, '$1')`: each link becomes its
      text. */
  function DropLinks(s: string): (r: string)
    ensures |r| <= |s|
    ensures (forall i :: 0 <= i < |s| ==> s[i] != '[') ==> r == s
    decreases |s|
  {
    if s == [] then []
    else if s[0] == '[' then
      var k := Run(s[1..], c => c != ']');
      if k > 0 && 3 + k <= |s| && s[2 + k] == '(' then
        var m := Run(s[3 + k..], c => c != ')');
        if m > 0 && 3 + k + m < |s| then
          s[1..1 + k] + DropLinks(s[4 + k + m..])
        else [s[0]] + DropLinks(s[1..])
      else [s[0]] + DropLinks(s[1..])
    else [s[0]] + DropLinks(s[1..])
  }

  /** `s.replace(/\n+/g, ' ')`: each run of newlines becomes one space. */
  function NewlinesToSpaces(s: string): (r: string)
    ensures '\n' !in r
    ensures |r| <= |s|
    ensures '\n' !in s ==> r == s
    decreases |s|
  {
    if s == [] then []
    else if s[0] == '\n' then
      [' '] + NewlinesToSpaces(s[Run(s, c => c == '\n')..])
    else [s[0]] + NewlinesToSpaces(s[1..])
  }

  /** The characters of the trailing-punctuation class. */
  predicate IsClosingPunct(c: char) {
    || c == '。' || c == '，' || c == '、' || c == '；' || c == '：' || c == '！' || c == '？'
    || c == ',' || c == ';' || c == ':' || c == '!' || c == '?' || c == '.'
  }

  /** `s.replace(/[。，、；：！？,;:!?.]+$/, '')`: the longest run of closing
      punctuation at the end is dropped. */
  function DropTrailingPunct(s: string): (r: string)
    ensures |r| <= |s| && r == s[..|r|]
    ensures forall j :: |r| <= j < |s| ==> IsClosingPunct(s[j])
    ensures r == [] || !IsClosingPunct(r[|r| - 1])
  {
    if s != [] && IsClosingPunct(s[|s| - 1]) then DropTrailingPunct(s[..|s| - 1]) else s
  }

  /** `s.lastIndexOf(' ')`, with `None` for -1. */
  function LastSpace(s: string): (r: Option<nat>)
    ensures r.Some? ==> r.value < |s| && s[r.value] == ' '
    ensures r.Some? ==> forall j :: r.value < j < |s| ==> s[j] != ' '
    ensures r.None? ==> forall j :: 0 <= j < |s| ==> s[j] != ' '
  {
    if s == [] then None
    else if s[|s| - 1] == ' ' then Some(|s| - 1)
    else LastSpace(s[..|s| - 1])
  }

  /** The text the title is made from: the trimmed user message, unless it
      is shorter than three characters and a reply is given. */
  function Source(user: string, assistant: string): (text: string)
    ensures |Trim(user)| >= 3 || assistant == "" ==> text == Trim(user)
    ensures |Trim(user)| < 3 && assistant != "" ==> text == Trim(assistant)
  {
    if |Trim(user)| < 3 && assistant != "" then Trim(assistant) else Trim(user)
  }

  /** The markdown passes in the order the source applies them: the inline
      code pass runs before the fenced-block pass. */
  function CleanAsWritten(text: string): (r: string)
    ensures IsTrimmed(r)
  {
    var t := Unwrap(Unwrap(Unwrap(DropHeadings(text, true), "**"), "*"), "`");
    Trim(NewlinesToSpaces(DropLinks(DropFences(t))))
  }

  /** The markdown passes with fenced blocks dropped before inline code is
      unwrapped, so that a fenced block is removed as a whole. */
  function Clean(text: string): (r: string)
    ensures IsTrimmed(r)
    ensures '\n' !in r
  {
    var t := DropFences(Unwrap(Unwrap(DropHeadings(text, true), "**"), "*"));
    Trim(NewlinesToSpaces(DropLinks(Unwrap(t, "`"))))
  }

  /** The first 20 characters, cut back to the last space when the text was
      longer and that space is past index 10. */
  function Cut(text: string): (title: string)
    ensures |title| <= MAX_TITLE && |title| <= |text| && title == text[..|title|]
    ensures |text| <= MAX_TITLE ==> title == text
    ensures |text| > MAX_TITLE ==> |title| > 10
  {
    var title := if |text| <= MAX_TITLE then text else text[..MAX_TITLE];
    if |text| > MAX_TITLE then
      match LastSpace(title)
      case Some(i) => if i > 10 then title[..i] else title
      case None => title
    else title
  }

  /** The fallback, the trailing-punctuation cut and the final trim. */
  function Finish(title: string): (r: string)
    ensures r != [] && IsTrimmed(r)
    ensures r == DEFAULT_TITLE || |r| <= |title|
    ensures title != [] && IsTrimmed(title) && !IsClosingPunct(title[|title| - 1]) ==> r == title
  {
    var t := if title == [] then DEFAULT_TITLE else title;
    var u := Trim(DropTrailingPunct(t));
    assert title != [] && IsTrimmed(title) && !IsClosingPunct(title[|title| - 1]) ==> u == title by {
      if title != [] && IsTrimmed(title) && !IsClosingPunct(title[|title| - 1]) {
        TrimOfTrimmed(title);
      }
    }
    assert title == [] ==> u == DEFAULT_TITLE by {
      if title == [] {
        DefaultTitleKept();
      }
    }
    if u == [] then DEFAULT_TITLE else u
  }

  /** The fallback title survives the punctuation cut and the trim. */
  lemma DefaultTitleKept()
    ensures Trim(DropTrailingPunct(DEFAULT_TITLE)) == DEFAULT_TITLE
  {
    assert DEFAULT_TITLE[2] == '话';
    assert !IsClosingPunct(DEFAULT_TITLE[2]);
    assert DropTrailingPunct(DEFAULT_TITLE) == DEFAULT_TITLE;
    assert !IsWhitespace(DEFAULT_TITLE[0]) && !IsWhitespace(DEFAULT_TITLE[2]);
    TrimOfTrimmed(DEFAULT_TITLE);
  }

  /** `generateTitle` as the source writes it. */
  function GenerateTitleAsWritten(user: string, assistant: string): (r: string)
    ensures r != [] && |r| <= MAX_TITLE && IsTrimmed(r)
  {
    Finish(Cut(CleanAsWritten(Source(user, assistant))))
  }

  /** `generateTitle` with the fenced-block pass ahead of the inline-code
      pass: never empty, trimmed, and at most 20 characters. */
  function GenerateTitle(user: string, assistant: string): (r: string)
    ensures r != [] && |r| <= MAX_TITLE && IsTrimmed(r)
  {
    Finish(Cut(Clean(Source(user, assistant))))
  }

  // ---------------------------------------------------------------------
  // Properties.

  /** A short plain message is its own title: no markdown marker, no
      newline, at most 20 characters, not ending in closing punctuation. */
  lemma PlainTextIsOwnTitle(user: string, assistant: string)
    requires IsTrimmed(user) && 3 <= |user| <= MAX_TITLE
    requires forall i :: 0 <= i < |user| ==> IsPlain(user[i])
    requires !IsClosingPunct(user[|user| - 1])
    ensures GenerateTitle(user, assistant) == user
  {
    TrimOfTrimmed(user);
    assert Source(user, assistant) == user;
    PlainTextIsClean(user);
    assert Cut(user) == user;
  }

  /** A character no markdown pass reacts to. */
  predicate IsPlain(c: char) {
    c != '#' && c != '*' && c != '`' && c != '[' && c != '\n'
  }

  /** The markdown passes leave trimmed plain text alone. */
  lemma PlainTextIsClean(text: string)
    requires IsTrimmed(text)
    requires forall i :: 0 <= i < |text| ==> IsPlain(text[i])
    ensures Clean(text) == text
  {
    var a := DropHeadings(text, true);
    assert a == text;
    var b := Unwrap(a, "**");
    assert b == text;
    var c := Unwrap(b, "*");
    assert c == text;
    assert NoBacktickPair(c);
    var d := DropFences(c);
    assert d == text;
    var e := Unwrap(d, "`");
    assert e == text;
    var f := DropLinks(e);
    assert f == text;
    assert '\n' !in f;
    var g := NewlinesToSpaces(f);
    assert g == text;
    TrimOfTrimmed(text);
  }

  /** After the inline-code pass no two backticks are adjacent: a kept
      backtick has no other backtick after it on its line, and an unwrapped
      span contains none. */
  lemma {:induction false} InlineLeavesNoBacktickPair(s: string)
    ensures NoBacktickPair(Unwrap(s, "`"))
    decreases |s|
  {
    if s != [] {
      if StartsWith(s, "`") && LazyClose(s[1..], "`", false).Some? {
        var k := LazyClose(s[1..], "`", false).value;
        InlineLeavesNoBacktickPair(s[1 + k + 1..]);
        SpanCase(s, k);
      } else {
        InlineLeavesNoBacktickPair(s[1..]);
        KeptCase(s);
      }
    }
  }

  /** A span at the front contributes its inner text, which holds no
      backtick. */
  lemma SpanCase(s: string, k: nat)
    requires s != [] && StartsWith(s, "`") && LazyClose(s[1..], "`", false) == Some(k)
    requires NoBacktickPair(Unwrap(s[1 + k + 1..], "`"))
    ensures NoBacktickPair(Unwrap(s, "`"))
  {
    var inner := s[1..1 + k];
    var rest := Unwrap(s[1 + k + 1..], "`");
    SpanHasNoBacktick(s[1..], k);
    assert s[1..][..k] == inner;
    assert Unwrap(s, "`") == inner + rest;
    NoPairJoin(inner, rest);
  }

  /** A character the pass keeps is never a backtick followed by one. */
  lemma KeptCase(s: string)
    requires s != [] && !(StartsWith(s, "`") && LazyClose(s[1..], "`", false).Some?)
    requires NoBacktickPair(Unwrap(s[1..], "`"))
    ensures NoBacktickPair(Unwrap(s, "`"))
  {
    var rest := Unwrap(s[1..], "`");
    if s[0] == '`' {
      KeptBacktickNotFollowed(s);
    }
    assert Unwrap(s, "`") == [s[0]] + rest;
    NoPairJoin([s[0]], rest);
  }

  /** Two strings without a backtick pair join into one, unless a backtick
      ends the first and starts the second. */
  lemma NoPairJoin(a: string, b: string)
    requires NoBacktickPair(a) && NoBacktickPair(b)
    requires a == [] || b == [] || a[|a| - 1] != '`' || b[0] != '`'
    ensures NoBacktickPair(a + b)
  {
    forall i | 0 <= i < |a + b| - 1 ensures !((a + b)[i] == '`' && (a + b)[i + 1] == '`') {
      if i + 1 < |a| {
        assert (a + b)[i] == a[i] && (a + b)[i + 1] == a[i + 1];
      } else if i >= |a| {
        assert (a + b)[i] == b[i - |a|] && (a + b)[i + 1] == b[i - |a| + 1];
      }
    }
  }

  /** The inner text of a backtick span holds no backtick. */
  lemma SpanHasNoBacktick(t: string, k: nat)
    requires LazyClose(t, "`", false) == Some(k)
    ensures forall j :: 0 <= j < k ==> t[j] != '`'
    ensures NoBacktickPair(t[..k]) && (k == 0 || t[..k][k - 1] != '`')
  {
    forall j | 0 <= j < k ensures t[j] != '`' {
      assert !StartsWith(t[j..], "`");
      assert t[j..][..1] == [t[j]];
    }
  }

  /** A backtick the pass keeps is not followed by one in the output. */
  lemma KeptBacktickNotFollowed(s: string)
    requires s != [] && s[0] == '`'
    requires !(StartsWith(s, "`") && LazyClose(s[1..], "`", false).Some?)
    ensures var rest := Unwrap(s[1..], "`"); rest == [] || rest[0] != '`'
  {
    assert s[..1] == "`";
    var t := s[1..];
    if t != [] {
      assert !StartsWith(t, "`") by {
        assert t[..1] != "`";
      }
      assert Unwrap(t, "`") == [t[0]] + Unwrap(t[1..], "`");
    }
  }

  /** Because the inline-code pass runs first, the fenced-block pass of the
      source never changes anything. */
  lemma FencePassNeverFires(s: string)
    ensures DropFences(Unwrap(s, "`")) == Unwrap(s, "`")
  {
    InlineLeavesNoBacktickPair(s);
  }

  /** With the passes in the intended order, a fenced block and everything
      in it are dropped. */
  lemma FencedBlockDropped(body: string, rest: string)
    requires forall j :: 0 <= j <= |body| ==> !StartsWith((body + FENCE)[j..], FENCE) || j == |body|
    ensures DropFences(FENCE + body + FENCE + rest) == DropFences(rest)
  {
    var s := FENCE + body + FENCE + rest;
    assert s[..3] == FENCE;
    assert s[3..] == body + FENCE + rest;
    FenceClosesAfterBody(body, rest);
    assert s[3 + |body| + 3..] == rest;
  }

  /** The lazy match after an opening fence stops at the first closing fence. */
  lemma FenceClosesAfterBody(body: string, rest: string)
    requires forall j :: 0 <= j <= |body| ==> !StartsWith((body + FENCE)[j..], FENCE) || j == |body|
    ensures LazyClose(body + FENCE + rest, FENCE, true) == Some(|body|)
  {
    var t := body + FENCE + rest;
    assert t[|body|..][..3] == FENCE;
    var k := LazyClose(t, FENCE, true);
    assert k.Some?;
    assert t[k.value..][..3] == (body + FENCE)[k.value..][..3];
  }

  /** The heading, bold and italic passes leave text without `#` and `*`
      alone. */
  lemma PrefixPassesIdentity(s: string)
    requires forall i :: 0 <= i < |s| ==> s[i] != '#' && s[i] != '*'
    ensures Unwrap(Unwrap(DropHeadings(s, true), "**"), "*") == s
  {
    assert DropHeadings(s, true) == s;
    assert Unwrap(s, "**") == s;
  }

  /** For the message "```a```" the source's passes give the title "a": the
      inline-code pass pairs the backticks up and the fence is never seen. */
  lemma FenceTitleAsWritten(s: string)
    requires s == "```a```"
    ensures GenerateTitleAsWritten(s, "") == "a"
  {
    SourceOfFence(s);
    FencePrefix(s);
    InlineOfFence(s);
    PlainA(Unwrap(s, "`"));
    TitleFromPlainCode(s, Unwrap(s, "`"));
  }

  /** When the passes before the fence pass leave trimmed plain text of at
      most 20 characters, that text is the title. */
  lemma TitleFromPlainCode(s: string, u: string)
    requires Source(s, "") == s
    requires Unwrap(Unwrap(Unwrap(DropHeadings(s, true), "**"), "*"), "`") == u
    requires u != [] && |u| <= MAX_TITLE && IsTrimmed(u) && !IsClosingPunct(u[|u| - 1])
    requires forall i :: 0 <= i < |u| ==> IsPlain(u[i])
    ensures GenerateTitleAsWritten(s, "") == u
  {
    LaterPassesIdentity(u);
    assert CleanAsWritten(s) == u;
    assert Cut(u) == u;
  }

  lemma PlainA(u: string)
    requires u == "a"
    ensures u != [] && |u| <= MAX_TITLE && IsTrimmed(u) && !IsClosingPunct(u[|u| - 1])
    ensures forall i :: 0 <= i < |u| ==> IsPlain(u[i])
  {
  }

  lemma FencePrefix(s: string)
    requires s == "```a```"
    ensures Unwrap(Unwrap(DropHeadings(s, true), "**"), "*") == s
  {
    assert forall i :: 0 <= i < |s| ==> s[i] == '`' || s[i] == 'a';
    PrefixPassesIdentity(s);
  }

  /** The fence, link and newline passes and the trim leave trimmed plain
      text alone. */
  lemma LaterPassesIdentity(t: string)
    requires IsTrimmed(t) && forall i :: 0 <= i < |t| ==> IsPlain(t[i])
    ensures Trim(NewlinesToSpaces(DropLinks(DropFences(t)))) == t
  {
    assert NoBacktickPair(t) by {
      forall i | 0 <= i < |t| - 1 ensures t[i] != '`' { assert IsPlain(t[i]); }
    }
    var a := DropFences(t);
    assert a == t;
    assert forall i :: 0 <= i < |a| ==> a[i] != '[' by {
      forall i | 0 <= i < |a| ensures a[i] != '[' { assert IsPlain(t[i]); }
    }
    var b := DropLinks(a);
    assert b == t;
    assert '\n' !in b by {
      forall i | 0 <= i < |b| ensures b[i] != '\n' { assert IsPlain(t[i]); }
    }
    var c := NewlinesToSpaces(b);
    assert c == t;
    TrimOfTrimmed(t);
  }

  lemma SourceOfFence(s: string)
    requires s == "```a```"
    ensures Source(s, "") == s
  {
    assert s[0] == '`' && s[6] == '`';
    TrimOfTrimmed(s);
  }

  /** The inline-code pass on "```a```": an empty span, the span "a", an
      empty span. */
  lemma InlineOfFence(s: string)
    requires s == "```a```"
    ensures Unwrap(s, "`") == "a"
  {
    assert s[..1] == "`" && s[1..][..1] == "`";
    assert LazyClose(s[1..], "`", false) == Some(0);
    assert s[2..] == "`a```";
    InlineOfTail(s[2..]);
  }

  lemma InlineOfTail(t: string)
    requires t == "`a```"
    ensures Unwrap(t, "`") == "a"
  {
    assert t[..1] == "`";
    assert t[1..][..1] == "a" && t[1..][1..][..1] == "`";
    assert LazyClose(t[1..][1..], "`", false) == Some(0);
    assert LazyClose(t[1..], "`", false) == Some(1);
    assert t[1..2] == "a" && t[3..] == "``";
    InlineOfPair(t[3..]);
  }

  lemma InlineOfPair(v: string)
    requires v == "``"
    ensures Unwrap(v, "`") == []
  {
    assert v[..1] == "`" && v[1..][..1] == "`";
    assert LazyClose(v[1..], "`", false) == Some(0);
    assert v[2..] == [];
  }

  /** With the passes in the intended order the same message is all code,
      so the title falls back to the default. */
  lemma FenceTitle(s: string)
    requires s == "```a```"
    ensures GenerateTitle(s, "") == DEFAULT_TITLE
  {
    SourceOfFence(s);
    FencePrefix(s);
    FenceOfFence(s);
    EmptyCleanGivesDefault(s);
  }

  /** A message the passes wipe out gets the default title. */
  lemma EmptyCleanGivesDefault(s: string)
    requires Source(s, "") == s
    requires DropFences(Unwrap(Unwrap(DropHeadings(s, true), "**"), "*")) == []
    ensures GenerateTitle(s, "") == DEFAULT_TITLE
  {
    var t := DropFences(Unwrap(Unwrap(DropHeadings(s, true), "**"), "*"));
    assert |Unwrap(t, "`")| == 0;
    assert |DropLinks(Unwrap(t, "`"))| == 0;
    assert |NewlinesToSpaces(DropLinks(Unwrap(t, "`")))| == 0;
    var e := Clean(s);
    assert |e| == 0;
    var c := Cut(e);
    assert |c| == 0;
    assert GenerateTitle(s, "") == Finish(c);
  }

  lemma FenceOfFence(s: string)
    requires s == "```a```"
    ensures DropFences(s) == []
  {
    assert s == FENCE + "a" + FENCE + "";
    var b := "a" + FENCE;
    assert b[..3] == "a``";
    assert b[1..][..3] == FENCE;
    FencedBlockDropped("a", "");
  }
}
