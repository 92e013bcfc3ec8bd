/** `parseTemplate` and `extractVariables` (src/utils/promptTemplate.ts):
    a left-to-right scan for `{{name}}` placeholders, `name` being one or
    more word characters, as a global regular expression finds them. */
module PromptTemplate {

  import opened Wrappers

  /** A character of the regular-expression class `\w`. */
  predicate IsWordChar(c: char) {
    ('a' <= c <= 'z') || ('A' <= c <= 'Z') || ('0' <= c <= '9') || c == '_'
  }

  /** What `\w+` can match. */
  predicate IsName(n: string) {
    |n| > 0 && forall i :: 0 <= i < |n| ==> IsWordChar(n[i])
  }

  /** The number of word characters `t` starts with. */
  function WordRun(t: string): (k: nat)
    ensures k <= |t|
    ensures forall j :: 0 <= j < k ==> IsWordChar(t[j])
    ensures k < |t| ==> !IsWordChar(t[k])
  {
    if t == [] || !IsWordChar(t[0]) then 0 else 1 + WordRun(t[1..])
  }

  /** The name of the placeholder `s` starts with, if it starts with one. */
  function Placeholder(s: string): (r: Option<string>)
    ensures r.Some? ==> IsName(r.value) && |r.value| + 4 <= |s| && s[..|r.value| + 4] == "{{" + r.value + "}}"
  {
    if |s| >= 2 && s[0] == '{' && s[1] == '{' then
      var k := WordRun(s[2..]);
      if k > 0 && 4 + k <= |s| && s[2 + k] == '}' && s[3 + k] == '}' then
        assert s[..k + 4] == "{{" + s[2..2 + k] + "}}";
        Some(s[2..2 + k])
      else None
    else None
  }

  /** When no placeholder is recognised at the front, none is there: no
      `{{name}}` starts the text. */
  lemma NoPlaceholderAtFront(s: string)
    requires Placeholder(s).None?
    ensures forall n :: IsName(n) && |n| + 4 <= |s| ==> s[..|n| + 4] != "{{" + n + "}}"
  {
    forall n | IsName(n) && |n| + 4 <= |s|
      ensures s[..|n| + 4] != "{{" + n + "}}"
    {
      if s[..|n| + 4] == "{{" + n + "}}" {
        RunOfPlaceholder(s, n);
      }
    }
  }

  /** A placeholder's name is exactly the word run after its `{{`. */
  lemma RunOfPlaceholder(s: string, n: string)
    requires IsName(n) && |n| + 4 <= |s| && s[..|n| + 4] == "{{" + n + "}}"
    ensures s[0] == '{' && s[1] == '{' && WordRun(s[2..]) == |n| && s[2 + |n|] == '}' && s[3 + |n|] == '}'
  {
    var t := s[2..];
    assert forall j :: 0 <= j < |n| ==> t[j] == n[j];
    assert t[|n|] == s[..|n| + 4][2 + |n|];
  }

  /** The `\w+` names every object literal inherits from `Object.prototype`.
      Reading one of them from the variables object gives a defined value,
      even when the object has no such property of its own. */
  predicate Inherited(n: string) {
    n in {"constructor", "toString", "toLocaleString", "valueOf", "hasOwnProperty",
          "isPrototypeOf", "propertyIsEnumerable", "__proto__", "__defineGetter__",
          "__defineSetter__", "__lookupGetter__", "__lookupSetter__"}
  }

  /** The text an inherited value becomes when the replacer returns it: a
      built-in function prints as its native source text, and `__proto__`
      reads `Object.prototype`, which prints as `[object Object]`. */
  function InheritedText(n: string): (r: string)
    requires Inherited(n)
    ensures n == "__proto__" <==> r == "[object Object]"
  {
    if n == "__proto__" then "[object Object]"
    else if n == "constructor" then "function Object() { [native code] }"
    else "function " + n + "() { [native code] }"
  }

  /** `variables[varName]`: an own property first, then an inherited one,
      otherwise `undefined` (None). */
  function Lookup(vars: map<string, string>, n: string): (r: Option<string>)
    ensures n in vars ==> r == Some(vars[n])
    ensures n !in vars ==> (r.Some? <==> Inherited(n))
    ensures n !in vars && Inherited(n) ==> r == Some(InheritedText(n))
  {
    if n in vars then Some(vars[n])
    else if Inherited(n) then Some(InheritedText(n))
    else None
  }

  /** A name the replacer leaves alone: `variables[name]` is `undefined`. */
  predicate Unbound(vars: map<string, string>, n: string) {
    n !in vars && !Inherited(n)
  }

  /** `template.replace(/\{\{(\w+)\}\}/g, ...)`: each placeholder whose name
      has a value becomes that value, any other placeholder stays as it is,
      and the text between placeholders is copied. */
  function Parse(s: string, vars: map<string, string>): (r: string)
    decreases |s|
  {
    if s == [] then []
    else
      match Placeholder(s)
      case Some(n) =>
        (match Lookup(vars, n) case Some(v) => v case None => s[..|n| + 4]) + Parse(s[|n| + 4..], vars)
      case None => [s[0]] + Parse(s[1..], vars)
  }

  /** `extractVariables(template)`: the placeholder names, in the order they
      appear, duplicates kept. */
  function Names(s: string): (r: seq<string>)
    ensures forall i :: 0 <= i < |r| ==> IsName(r[i])
    decreases |s|
  {
    if s == [] then []
    else
      match Placeholder(s)
      case Some(n) => [n] + Names(s[|n| + 4..])
      case None => Names(s[1..])
  }

  /** Placeholders whose names have no value, own or inherited, leave the
      template unchanged; in particular a template without placeholders is
      returned as it is. */
  lemma {:induction false} UnboundNamesLeaveTemplate(s: string, vars: map<string, string>)
    requires forall n :: n in Names(s) ==> Unbound(vars, n)
    ensures Parse(s, vars) == s
    decreases |s|
  {
    if s != [] {
      var k := UnboundStep(s, vars);
      UnboundNamesLeaveTemplate(s[k..], vars);
      assert s == s[..k] + s[k..];
    }
  }

  /** One step of the scan over a template whose names have no value: the
      part scanned is copied, and the rest's names have no value either. */
  lemma UnboundStep(s: string, vars: map<string, string>) returns (k: nat)
    requires s != [] && forall n :: n in Names(s) ==> Unbound(vars, n)
    ensures 0 < k <= |s|
    ensures Parse(s, vars) == s[..k] + Parse(s[k..], vars)
    ensures forall n :: n in Names(s[k..]) ==> Unbound(vars, n)
  {
    match Placeholder(s)
    case Some(n) =>
      PlaceholderStep(s, n, vars);
      k := |n| + 4;
    case None =>
      LiteralStep(s, vars);
      k := 1;
  }

  /** One step of the scan over a leading placeholder without a value. */
  lemma PlaceholderStep(s: string, n: string, vars: map<string, string>)
    requires Placeholder(s) == Some(n) && forall m :: m in Names(s) ==> Unbound(vars, m)
    ensures Unbound(vars, n) && Names(s) == [n] + Names(s[|n| + 4..])
    ensures Parse(s, vars) == s[..|n| + 4] + Parse(s[|n| + 4..], vars)
  {
  }

  /** One step of the scan over a character that starts no placeholder. */
  lemma LiteralStep(s: string, vars: map<string, string>)
    requires s != [] && Placeholder(s).None?
    ensures Names(s) == Names(s[1..])
    ensures Parse(s, vars) == [s[0]] + Parse(s[1..], vars)
  {
  }

  /** With no variables at all the template is returned unchanged, as long
      as no placeholder names an inherited property. */
  lemma NoVariablesIdentity(s: string)
    requires forall n :: n in Names(s) ==> !Inherited(n)
    ensures Parse(s, map[]) == s
  {
    UnboundNamesLeaveTemplate(s, map[]);
  }

  /** A template with no placeholder has no names. */
  lemma {:induction false} NoPlaceholderNoNames(s: string)
    requires forall i :: 0 <= i < |s| ==> Placeholder(s[i..]).None?
    ensures Names(s) == []
    decreases |s|
  {
    if s != [] {
      assert s[0..] == s;
      assert forall i :: 0 <= i < |s[1..]| ==> s[1..][i..] == s[i + 1..];
      NoPlaceholderNoNames(s[1..]);
    }
  }

  /** A placeholder at the front is replaced by its value verbatim and the
      scan resumes after it: whatever the value contains (even `{{x}}`) is
      not scanned again. */
  lemma SinglePass(n: string, rest: string, vars: map<string, string>)
    requires IsName(n) && Lookup(vars, n).Some?
    ensures Parse("{{" + n + "}}" + rest, vars) == Lookup(vars, n).value + Parse(rest, vars)
  {
    var s := "{{" + n + "}}" + rest;
    assert s[2..] == n + "}}" + rest;
    PlaceholderOfName(n, rest);
    assert s[|n| + 4..] == rest;
  }

  /** `{{n}}` followed by anything is read as the placeholder `n`. */
  lemma PlaceholderOfName(n: string, rest: string)
    requires IsName(n)
    ensures Placeholder("{{" + n + "}}" + rest) == Some(n)
  {
    var s := "{{" + n + "}}" + rest;
    var t := s[2..];
    assert t == n + "}}" + rest;
    var k := WordRun(t);
    assert t[|n|] == '}';
    assert k == |n|;
    assert s[2..2 + k] == n;
  }

  /** A placeholder with no value is kept verbatim and the scan resumes
      after it. */
  lemma UnboundPlaceholderKept(n: string, rest: string, vars: map<string, string>)
    requires IsName(n) && Unbound(vars, n)
    ensures Parse("{{" + n + "}}" + rest, vars) == "{{" + n + "}}" + Parse(rest, vars)
  {
    var s := "{{" + n + "}}" + rest;
    PlaceholderOfName(n, rest);
    assert s[..|n| + 4] == "{{" + n + "}}";
    assert s[|n| + 4..] == rest;
  }

  /** `extractVariables` lists a leading placeholder's name first, then the
      names found in the rest of the template. */
  lemma NamesOfPlaceholderFirst(n: string, rest: string)
    requires IsName(n)
    ensures Names("{{" + n + "}}" + rest) == [n] + Names(rest)
  {
    var s := "{{" + n + "}}" + rest;
    PlaceholderOfName(n, rest);
    assert s[|n| + 4..] == rest;
  }

  /** A placeholder naming an inherited property is replaced even when the
      variables have no such property of their own: `{{constructor}}`
      becomes the text of the `Object` function. */
  lemma InheritedPlaceholderReplaced(rest: string, vars: map<string, string>)
    requires "constructor" !in vars
    ensures Parse("{{constructor}}" + rest, vars) == "function Object() { [native code] }" + Parse(rest, vars)
  {
    assert "{{constructor}}" == "{{" + "constructor" + "}}";
    SinglePass("constructor", rest, vars);
  }
}
