/** The JavaScript value semantics the relay code leans on: truthiness of an
    optional string, the `||` fallback, interpolation of a possibly undefined
    value into a template literal, and `s.split('\n')[0]`. */
module Js {
  import opened Wrappers

  /** Truthiness of a `string | undefined | null`: the absent value and the
      empty string are falsy, every other string is truthy. */
  predicate Truthy(v: Option<string>) {
    v.Some? && v.value != ""
  }

  /** `a || b` on optional strings: the right operand is used exactly when
      the left one is falsy. */
  function Or(a: Option<string>, b: Option<string>): (r: Option<string>)
    ensures r == a || r == b
    ensures r != a ==> !Truthy(a)
    ensures !Truthy(a) ==> r == b
    ensures Truthy(r) <==> Truthy(a) || Truthy(b)
  {
    if Truthy(a) then a else b
  }

  /** `${v}` inside a template literal: an undefined value renders as the
      text "undefined". */
  function Render(v: Option<string>): (r: string)
    ensures v.Some? ==> r == v.value
    ensures v.None? ==> r == "undefined" && '\n' !in r
  {
    match v
    case Some(s) => s
    case None => "undefined"
  }

  /** `s.split('\n')[0]`: the longest prefix of `s` without a line feed. */
  function FirstLine(s: string): (r: string)
    ensures r <= s
    ensures '\n' !in r
    ensures |r| < |s| ==> s[|r|] == '\n'
  {
    if |s| == 0 || s[0] == '\n' then "" else [s[0]] + FirstLine(s[1..])
  }

  /** Everything after the first line feed of `s` (empty when there is none). */
  function AfterFirstLine(s: string): (r: string)
    ensures |FirstLine(s)| < |s| ==> s == FirstLine(s) + "\n" + r
  {
    var k := |FirstLine(s)|;
    if k < |s| then s[k + 1..] else ""
  }

  /** Splitting a joined pair of lines at the first line feed gives back the
      two parts, provided the first part holds no line feed. */
  lemma SplitJoin(a: string, b: string)
    requires '\n' !in a
    ensures FirstLine(a + "\n" + b) == a
    ensures AfterFirstLine(a + "\n" + b) == b
  {
    var s := a + "\n" + b;
    var r := FirstLine(s);
    assert s[|a|] == '\n';
    assert r == a;
    assert s[|a| + 1..] == b;
  }
}
