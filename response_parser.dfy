/** The tag extractor that splits a finished model reply into a reasoning
    part and an answer part (frontend/src/utils/responseParser.ts and the
    older src/utils/responseParser.ts). Both revisions run the same code over
    different sentinel tags, so one definition takes the tags as a value and
    each revision is that definition applied to its own tags.

    `content.match(/<T>([\s\S]*?)<\/T>/)` is the leftmost match: the first
    opening tag that has a closing tag somewhere after it, and, because the
    group is lazy, the first closing tag after that opening tag. */
module ResponseParser {

  import opened Wrappers
  import opened Strs

  datatype Tags = Tags(thinkOpen: string, thinkClose: string, answerOpen: string, answerClose: string)

  /** The tags of frontend/src/utils/responseParser.ts. */
  const FRONTEND_TAGS: Tags := Tags("<思考过程>", "</思考过程>", "<回答>", "</回答>")

  /** The tags of src/utils/responseParser.ts. */
  const LEGACY_TAGS: Tags := Tags("<思维链>", "</思维链>", "<回答>", "</回答>")

  datatype Parsed = Parsed(thinkingChain: string, answer: string)

  /** `s` holds a closed span: an `open` followed, somewhere later, by a `close`. */
  predicate HasSpan(s: string, open: string, close: string) {
    exists i, j :: 0 <= i && i + |open| <= j <= |s| && OccursAt(s, open, i) && OccursAt(s, close, j)
  }

  /** Bounds `(a, b)` of the inner text of the span the regular expression
      matches, or `None` when it does not match. */
  function FirstSpan(s: string, open: string, close: string): (r: Option<(nat, nat)>)
    ensures r.Some? ==> |open| <= r.value.0 <= r.value.1 && r.value.1 + |close| <= |s|
    ensures r.None? <==> !HasSpan(s, open, close)
  {
    match IndexOf(s, open, 0)
    case None => None
    case Some(i) =>
      match IndexOf(s, close, i + |open|)
      case None =>
        assert !HasSpan(s, open, close) by {
          forall i', j' | 0 <= i' && i' + |open| <= j' && OccursAt(s, open, i')
            ensures !OccursAt(s, close, j')
          {
            assert i <= i';
          }
        }
        None
      case Some(j) => Some((i + |open|, j))
  }

  /** The span found is exactly the one the regular expression describes: its
      opening tag is the first one in `s`, its closing tag the first one after
      that opening tag; conversely those two occurrences determine it. */
  lemma FirstSpanIsLeftmostLazy(s: string, open: string, close: string, a: nat, b: nat)
    ensures FirstSpan(s, open, close) == Some((a, b)) <==>
      && |open| <= a <= b
      && OccursAt(s, open, a - |open|)
      && (forall k :: 0 <= k < a - |open| ==> !OccursAt(s, open, k))
      && OccursAt(s, close, b)
      && (forall k :: a <= k < b ==> !OccursAt(s, close, k))
  {
    if |open| <= a <= b && OccursAt(s, open, a - |open|)
      && (forall k :: 0 <= k < a - |open| ==> !OccursAt(s, open, k))
      && OccursAt(s, close, b)
      && (forall k :: a <= k < b ==> !OccursAt(s, close, k))
    {
      var i := IndexOf(s, open, 0);
      assert i == Some(a - |open|);
      var j := IndexOf(s, close, a);
      assert j == Some(b);
    }
  }

  /** The inner text of the span found holds no closing tag. */
  lemma InnerHasNoClose(s: string, open: string, close: string, a: nat, b: nat)
    requires |close| > 0
    requires FirstSpan(s, open, close) == Some((a, b))
    ensures !Contains(s[a..b], close)
  {
    FirstSpanIsLeftmostLazy(s, open, close, a, b);
    forall k | 0 <= k <= |s[a..b]| - |close| && OccursAt(s[a..b], close, k)
      ensures false
    {
      assert k + |close| <= b - a;
      OccursInSlice(s, a, b, close, k);
    }
  }

  /** The trimmed inner text of the first closed span, or `""`. */
  function Field(s: string, open: string, close: string): (f: string)
    ensures IsTrimmed(f)
    ensures Contains(s, f)
    ensures |close| > 0 ==> !Contains(f, close)
    ensures !HasSpan(s, open, close) ==> f == ""
  {
    match FirstSpan(s, open, close)
    case None =>
      assert OccursAt(s, "", 0);
      ""
    case Some((a, b)) =>
      TrimOfSliceContained(s, a, b);
      if |close| > 0 then
        TrimmedInnerHasNoClose(s, open, close, a, b);
        Trim(s[a..b])
      else Trim(s[a..b])
  }

  /** Trimming the inner text of the first span cannot bring a closing tag
      into it. */
  lemma TrimmedInnerHasNoClose(s: string, open: string, close: string, a: nat, b: nat)
    requires |close| > 0
    requires FirstSpan(s, open, close) == Some((a, b))
    ensures !Contains(Trim(s[a..b]), close)
  {
    InnerHasNoClose(s, open, close, a, b);
    TrimKeepsAbsent(s[a..b], close);
  }

  /** What a string does not contain, its trimmed form does not either. */
  lemma TrimKeepsAbsent(t: string, p: string)
    requires !Contains(t, p)
    ensures !Contains(Trim(t), p)
  {
    var f := Trim(t);
    if Contains(f, p) {
      var off := TrimOffset(t);
      ContainsOfSlice(t, off, off + |f|, p);
    }
  }

  /** `parseAIResponse` over the given tags. */
  function ParseTagged(content: string, tags: Tags): (r: Parsed)
    ensures IsTrimmed(r.thinkingChain) && IsTrimmed(r.answer)
    ensures Contains(content, r.thinkingChain) && Contains(content, r.answer)
    ensures |tags.thinkClose| > 0 ==> !Contains(r.thinkingChain, tags.thinkClose)
    ensures |tags.answerClose| > 0 && r.thinkingChain != "" ==> !Contains(r.answer, tags.answerClose)
    ensures r.thinkingChain != "" ==> HasSpan(content, tags.thinkOpen, tags.thinkClose)
    ensures !HasSpan(content, tags.thinkOpen, tags.thinkClose) && !HasSpan(content, tags.answerOpen, tags.answerClose)
      ==> r == Parsed("", Trim(content))
  {
    var thinkingChain := Field(content, tags.thinkOpen, tags.thinkClose);
    var answer := Field(content, tags.answerOpen, tags.answerClose);
    if thinkingChain == "" && answer == "" then
      var t := Trim(content);
      assert Contains(content, t) by {
        SliceContains(content, TrimOffset(content), TrimOffset(content) + |t|);
      }
      Parsed("", t)
    else
      Parsed(thinkingChain, answer)
  }

  /** `parseAIResponse` of frontend/src/utils/responseParser.ts. */
  function ParseAIResponse(content: string): (r: Parsed)
    ensures IsTrimmed(r.thinkingChain) && IsTrimmed(r.answer)
    ensures Contains(content, r.thinkingChain) && Contains(content, r.answer)
    ensures !Contains(r.thinkingChain, "</思考过程>")
  {
    ParseTagged(content, FRONTEND_TAGS)
  }

  /** `parseAIResponse` of src/utils/responseParser.ts. */
  function ParseLegacyAIResponse(content: string): (r: Parsed)
    ensures IsTrimmed(r.thinkingChain) && IsTrimmed(r.answer)
    ensures Contains(content, r.thinkingChain) && Contains(content, r.answer)
    ensures !Contains(r.thinkingChain, "</思维链>")
  {
    ParseTagged(content, LEGACY_TAGS)
  }

  /** With a closed span of each kind, the fields are the trimmed inner texts
      of the first span of each kind, whichever comes first in `content`, as
      long as one of them is non-empty. */
  lemma ClosedSpansGiveFields(content: string, tags: Tags, a1: nat, b1: nat, a2: nat, b2: nat)
    requires |tags.thinkOpen| <= a1 <= b1 && OccursAt(content, tags.thinkOpen, a1 - |tags.thinkOpen|)
    requires forall k :: 0 <= k < a1 - |tags.thinkOpen| ==> !OccursAt(content, tags.thinkOpen, k)
    requires OccursAt(content, tags.thinkClose, b1)
    requires forall k :: a1 <= k < b1 ==> !OccursAt(content, tags.thinkClose, k)
    requires |tags.answerOpen| <= a2 <= b2 && OccursAt(content, tags.answerOpen, a2 - |tags.answerOpen|)
    requires forall k :: 0 <= k < a2 - |tags.answerOpen| ==> !OccursAt(content, tags.answerOpen, k)
    requires OccursAt(content, tags.answerClose, b2)
    requires forall k :: a2 <= k < b2 ==> !OccursAt(content, tags.answerClose, k)
    requires Trim(content[a1..b1]) != "" || Trim(content[a2..b2]) != ""
    ensures ParseTagged(content, tags) == Parsed(Trim(content[a1..b1]), Trim(content[a2..b2]))
  {
    FirstSpanIsLeftmostLazy(content, tags.thinkOpen, tags.thinkClose, a1, b1);
    FirstSpanIsLeftmostLazy(content, tags.answerOpen, tags.answerClose, a2, b2);
  }

  /** An opening tag whose first occurrence has no closing tag after it gives
      an empty field. */
  lemma UnclosedTagGivesEmptyField(s: string, open: string, close: string, i: nat)
    requires OccursAt(s, open, i)
    requires forall k :: 0 <= k < i ==> !OccursAt(s, open, k)
    requires forall j :: i + |open| <= j ==> !OccursAt(s, close, j)
    ensures Field(s, open, close) == ""
  {
    forall i', j' | 0 <= i' && i' + |open| <= j' <= |s| && OccursAt(s, open, i')
      ensures !OccursAt(s, close, j')
    {
      assert i <= i';
    }
  }

  /** When both fields come out empty, whether the tags are missing or their
      spans hold only whitespace, the answer is the whole trimmed content. */
  lemma BothEmptyFallsBack(content: string, tags: Tags)
    requires Field(content, tags.thinkOpen, tags.thinkClose) == ""
    requires Field(content, tags.answerOpen, tags.answerClose) == ""
    ensures ParseTagged(content, tags) == Parsed("", Trim(content))
  {
  }

  /** With exactly one non-empty field there is no fallback: each field is
      its own capture, so the empty one stays empty even when `content` has
      other text. */
  lemma OneFieldNoFallback(content: string, tags: Tags)
    requires (Field(content, tags.thinkOpen, tags.thinkClose) != "")
      != (Field(content, tags.answerOpen, tags.answerClose) != "")
    ensures ParseTagged(content, tags)
      == Parsed(Field(content, tags.thinkOpen, tags.thinkClose), Field(content, tags.answerOpen, tags.answerClose))
  {
  }

  lemma TrimIdempotent(s: string)
    ensures Trim(Trim(s)) == Trim(s)
  {
    TrimOfTrimmed(Trim(s));
  }

  /** A span of a slice is a span of the whole. */
  lemma SpanOfSlice(s: string, a: nat, b: nat, open: string, close: string)
    requires a <= b <= |s|
    requires HasSpan(s[a..b], open, close)
    ensures HasSpan(s, open, close)
  {
    var i, j :| 0 <= i && i + |open| <= j && OccursAt(s[a..b], open, i) && OccursAt(s[a..b], close, j);
    OccursInSlice(s, a, b, open, i);
    OccursInSlice(s, a, b, close, j);
  }

  /** Content without closed spans parses to its trimmed self, and parsing
      that answer again gives the same pair. */
  lemma {:induction false} ReparseWithoutSpans(content: string, tags: Tags)
    requires !HasSpan(content, tags.thinkOpen, tags.thinkClose)
    requires !HasSpan(content, tags.answerOpen, tags.answerClose)
    ensures ParseTagged(ParseTagged(content, tags).answer, tags) == ParseTagged(content, tags)
  {
    var t := Trim(content);
    var off := TrimOffset(content);
    assert t == content[off..off + |t|];
    if HasSpan(t, tags.thinkOpen, tags.thinkClose) {
      SpanOfSlice(content, off, off + |t|, tags.thinkOpen, tags.thinkClose);
    }
    if HasSpan(t, tags.answerOpen, tags.answerClose) {
      SpanOfSlice(content, off, off + |t|, tags.answerOpen, tags.answerClose);
    }
    TrimIdempotent(content);
  }
}
