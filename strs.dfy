/** The handful of JavaScript string operations the modelled code relies on:
    `trim`, `startsWith`, `indexOf`, `includes`, `split('\n')` and number
    formatting. Strings are sequences of Unicode scalar values; JavaScript
    counts UTF-16 code units, which agrees for every character of the Basic
    Multilingual Plane. */
module Strs {

  import opened Wrappers

  /** JavaScript's WhiteSpace and LineTerminator characters, the set that
      `String.prototype.trim` and the regular-expression class `\s` remove. */
  predicate IsWhitespace(c: char) {
    || c == ' ' || c == '\t' || c == '\n' || c == '\r'
    || c == '\U{B}' || c == '\U{C}' || c == '\U{A0}' || c == '\U{1680}'
    || ('\U{2000}' <= c <= '\U{200A}')
    || c == '\U{2028}' || c == '\U{2029}' || c == '\U{202F}' || c == '\U{205F}'
    || c == '\U{3000}' || c == '\U{FEFF}'
  }

  predicate AllWhitespace(s: string) {
    forall i :: 0 <= i < |s| ==> IsWhitespace(s[i])
  }

  /** No leading and no trailing whitespace. */
  predicate IsTrimmed(s: string) {
    s == [] || (!IsWhitespace(s[0]) && !IsWhitespace(s[|s| - 1]))
  }

  function TrimStart(s: string): (r: string)
    ensures |r| <= |s| && r == s[|s| - |r|..]
    ensures AllWhitespace(s[..|s| - |r|])
    ensures r == [] || !IsWhitespace(r[0])
  {
    if s != [] && IsWhitespace(s[0]) then
      var r := TrimStart(s[1..]);
      assert AllWhitespace(s[..|s| - |r|]) by {
        var w := s[1..][..|s| - 1 - |r|];
        var cut := s[..|s| - |r|];
        assert cut == [s[0]] + w;
        forall i | 0 <= i < |cut| ensures IsWhitespace(cut[i]) {
          if i > 0 {
            assert cut[i] == w[i - 1];
          }
        }
      }
      r
    else s
  }

  function TrimEnd(s: string): (r: string)
    ensures |r| <= |s| && r == s[..|r|]
    ensures AllWhitespace(s[|r|..])
    ensures r == [] || !IsWhitespace(r[|r| - 1])
  {
    if s != [] && IsWhitespace(s[|s| - 1]) then TrimEnd(s[..|s| - 1]) else s
  }

  /** Number of leading whitespace characters that `Trim` removes. */
  function TrimOffset(s: string): (k: nat)
    ensures k <= |s|
  {
    |s| - |TrimStart(s)|
  }

  /** `String.prototype.trim`: the result is the slice of `s` left once the
      whitespace runs at both ends are removed. */
  function Trim(s: string): (r: string)
    ensures TrimOffset(s) + |r| <= |s|
    ensures r == s[TrimOffset(s)..TrimOffset(s) + |r|]
    ensures AllWhitespace(s[..TrimOffset(s)]) && AllWhitespace(s[TrimOffset(s) + |r|..])
    ensures IsTrimmed(r)
    ensures r == [] <==> AllWhitespace(s)
  {
    var t := TrimStart(s);
    var r := TrimEnd(t);
    assert r == [] ==> AllWhitespace(s) by {
      if r == [] {
        assert t == [];
        forall i | 0 <= i < |s| ensures IsWhitespace(s[i]) {
          assert s[i] == s[..|s| - |t|][i];
        }
      }
    }
    assert AllWhitespace(s[TrimOffset(s) + |r|..]) by {
      assert s[TrimOffset(s) + |r|..] == t[|r|..];
    }
    assert r != [] ==> r[0] == t[0] && t[0] == s[|s| - |t|];
    r
  }

  /** Trimming a string that has no surrounding whitespace changes nothing. */
  lemma TrimOfTrimmed(t: string)
    requires IsTrimmed(t)
    ensures Trim(t) == t
  {
    if t != [] {
      assert TrimStart(t) == t;
      assert TrimEnd(t) == t;
    }
  }

  /** `p` occurs in `s` at index `i`. */
  predicate OccursAt(s: string, p: string, i: int) {
    0 <= i && i + |p| <= |s| && s[i..i + |p|] == p
  }

  /** `s.startsWith(p)`. */
  predicate StartsWith(s: string, p: string) {
    OccursAt(s, p, 0)
  }

  /** `s.includes(p)`. */
  predicate Contains(s: string, p: string) {
    exists i :: 0 <= i <= |s| - |p| && OccursAt(s, p, i)
  }

  /** An occurrence inside a slice is an occurrence in the whole string. */
  lemma OccursInSlice(s: string, a: nat, b: nat, p: string, k: nat)
    requires a <= b <= |s|
    requires OccursAt(s[a..b], p, k)
    ensures OccursAt(s, p, a + k)
  {
    assert k + |p| <= b - a;
    forall i | 0 <= i < |p| ensures s[a + k..a + k + |p|][i] == p[i] {
      assert p[i] == s[a..b][k..k + |p|][i] == s[a..b][k + i];
    }
  }

  /** What a slice of `s` contains, `s` contains too. */
  lemma ContainsOfSlice(s: string, a: nat, b: nat, p: string)
    requires a <= b <= |s|
    requires Contains(s[a..b], p)
    ensures Contains(s, p)
  {
    var k :| 0 <= k <= |s[a..b]| - |p| && OccursAt(s[a..b], p, k);
    OccursInSlice(s, a, b, p, k);
  }

  /** A slice of a slice is a slice. */
  lemma SliceContains(s: string, a: nat, b: nat)
    requires a <= b <= |s|
    ensures Contains(s, s[a..b])
  {
    assert OccursAt(s, s[a..b], a);
  }

  /** The trimmed text of a slice of `s` is itself a slice of `s`. */
  lemma TrimOfSliceContained(s: string, a: nat, b: nat)
    requires a <= b <= |s|
    ensures Contains(s, Trim(s[a..b]))
  {
    var inner := s[a..b];
    var off := TrimOffset(inner);
    var f := Trim(inner);
    SliceOfSliceContained(s, a, b, off, off + |f|);
  }

  /** A slice of a slice of `s` occurs in `s`. */
  lemma SliceOfSliceContained(s: string, a: nat, b: nat, c: nat, d: nat)
    requires a <= b <= |s| && c <= d <= b - a
    ensures Contains(s, s[a..b][c..d])
  {
    SliceOfSlice(s, a, b, c, d);
    assert OccursAt(s, s[a..b][c..d], a + c);
  }

  lemma SliceOfSlice(s: string, a: nat, b: nat, c: nat, d: nat)
    requires a <= b <= |s| && c <= d <= b - a
    ensures s[a..b][c..d] == s[a + c..a + d]
  {
    assert |s[a..b][c..d]| == d - c;
    forall i | 0 <= i < d - c ensures s[a..b][c..d][i] == s[a + c..a + d][i] {
      assert s[a..b][c..d][i] == s[a..b][c + i];
    }
  }

  /** `s.indexOf(p, from)`, with `None` for -1. */
  function IndexOf(s: string, p: string, from: nat): (r: Option<nat>)
    decreases |s| - from
    ensures r.Some? ==> from <= r.value && OccursAt(s, p, r.value)
    ensures r.Some? ==> forall j :: from <= j < r.value ==> !OccursAt(s, p, j)
    ensures r.None? ==> forall j :: from <= j ==> !OccursAt(s, p, j)
  {
    if from + |p| > |s| then None
    else if OccursAt(s, p, from) then Some(from)
    else IndexOf(s, p, from + 1)
  }

  /** Index of the first `c` in `s` at or after `from`. */
  function FindChar(s: string, c: char, from: nat): (r: Option<nat>)
    decreases |s| - from
    ensures r.Some? ==> from <= r.value < |s| && s[r.value] == c
    ensures r.Some? ==> forall j :: from <= j < r.value ==> s[j] != c
    ensures r.None? ==> forall j :: from <= j < |s| ==> s[j] != c
  {
    if from >= |s| then None
    else if s[from] == c then Some(from)
    else FindChar(s, c, from + 1)
  }

  /** The lines of `s` that are terminated by '\n', in order, without the
      terminator: every element of `s.split('\n')` but the last. */
  function Lines(s: string): (ls: seq<string>)
    decreases |s|
  {
    match FindChar(s, '\n', 0)
    case None => []
    case Some(i) => [s[..i]] + Lines(s[i + 1..])
  }

  /** The text after the last '\n' of `s` (all of `s` if it has none): the
      last element of `s.split('\n')`. */
  function Tail(s: string): (t: string)
    decreases |s|
    ensures '\n' !in t
  {
    match FindChar(s, '\n', 0)
    case None => s
    case Some(i) => Tail(s[i + 1..])
  }

  /** `s.split('\n')`: never empty. */
  function SplitNewlines(s: string): (parts: seq<string>)
    ensures |parts| >= 1
  {
    Lines(s) + [Tail(s)]
  }

  /** The first '\n' of `x + y` is the first of `x` when `x` has one. */
  lemma FindCharAppend(x: string, y: string, c: char)
    ensures FindChar(x, c, 0).Some? ==> FindChar(x + y, c, 0) == FindChar(x, c, 0)
    ensures FindChar(x, c, 0).None? ==> c !in x
  {
    var q := FindChar(x, c, 0);
    if q.Some? {
      assert (x + y)[q.value] == c;
      assert forall j | 0 <= j < q.value :: (x + y)[j] == x[j];
    }
  }

  /** Splitting a concatenation: the complete lines of `x + y` are those of
      `x` followed by those of the unterminated rest of `x` joined to `y`. */
  lemma {:induction false} LinesAppend(x: string, y: string)
    ensures Lines(x + y) == Lines(x) + Lines(Tail(x) + y)
    ensures Tail(x + y) == Tail(Tail(x) + y)
    decreases |x|
  {
    FindCharAppend(x, y, '\n');
    match FindChar(x, '\n', 0)
    case None =>
    case Some(i) =>
      assert (x + y)[..i] == x[..i];
      assert (x + y)[i + 1..] == x[i + 1..] + y;
      LinesAppend(x[i + 1..], y);
  }

  /** Decimal rendering of a natural number (`String(n)`). */
  function NatStr(n: nat): (r: string)
    ensures |r| >= 1
    decreases n
  {
    var d := ['0', '1', '2', '3', '4', '5', '6', '7', '8', '9'][n % 10];
    if n < 10 then [d] else NatStr(n / 10) + [d]
  }

  /** Different numbers have different renderings. */
  lemma {:induction false} NatStrInjective(a: nat, b: nat)
    requires NatStr(a) == NatStr(b)
    ensures a == b
    decreases a
  {
    var ds := ['0', '1', '2', '3', '4', '5', '6', '7', '8', '9'];
    var x := NatStr(a);
    assert x[|x| - 1] == ds[a % 10] && x[|x| - 1] == ds[b % 10];
    assert a % 10 == b % 10;
    if a >= 10 && b >= 10 {
      assert NatStr(a / 10) == x[..|x| - 1] == NatStr(b / 10);
      NatStrInjective(a / 10, b / 10);
    } else {
      assert a < 10 && b < 10;
    }
  }

  /** Decimal rendering of an integer, with a leading '-' when negative. */
  function IntStr(n: int): (r: string)
    ensures |r| >= 1
  {
    if n < 0 then "-" + NatStr(-n) else NatStr(n)
  }

  /** `parts.join(sep)`. */
  function Join(parts: seq<string>, sep: string): (r: string)
    ensures parts == [] ==> r == ""
    ensures |parts| == 1 ==> r == parts[0]
  {
    if parts == [] then ""
    else if |parts| == 1 then parts[0]
    else Join(parts[..|parts| - 1], sep) + sep + parts[|parts| - 1]
  }
}
