/**
 * The JavaScript string built-ins the panels rely on: `String.prototype.trim`,
 * `split(',')[1]` and `includes`.
 */
module JsStrings {
  import opened Wrappers

  /** The characters `trim` removes: ECMAScript WhiteSpace and LineTerminator. */
  predicate IsJsWhitespace(c: char) {
    || c == '\t' || c == '\n' || c == '\U{000B}' || c == '\U{000C}' || c == '\r'
    || c == ' ' || c == '\U{00A0}' || c == '\U{1680}'
    || ('\U{2000}' <= c <= '\U{200A}')
    || c == '\U{2028}' || c == '\U{2029}' || c == '\U{202F}' || c == '\U{205F}'
    || c == '\U{3000}' || c == '\U{FEFF}'
  }

  /** True when every character of `s` is whitespace (so `!s.trim()` holds). */
  predicate AllWhitespace(s: string) {
    forall k | 0 <= k < |s| :: IsJsWhitespace(s[k])
  }

  /** The number of whitespace characters at the start of `s`. */
  function LeadingWhitespace(s: string): (n: nat)
    ensures n <= |s|
    ensures forall k | 0 <= k < n :: IsJsWhitespace(s[k])
    ensures n < |s| ==> !IsJsWhitespace(s[n])
  {
    if |s| == 0 || !IsJsWhitespace(s[0]) then 0 else 1 + LeadingWhitespace(s[1..])
  }

  /** The number of whitespace characters at the end of `s`. */
  function TrailingWhitespace(s: string): (n: nat)
    ensures n <= |s|
    ensures forall k | |s| - n <= k < |s| :: IsJsWhitespace(s[k])
    ensures n < |s| ==> !IsJsWhitespace(s[|s| - 1 - n])
  {
    if |s| == 0 || !IsJsWhitespace(s[|s| - 1]) then 0 else 1 + TrailingWhitespace(s[..|s| - 1])
  }

  /**
   * `s.trim()`: the longest infix of `s` that neither starts nor ends with
   * whitespace, obtained by dropping only whitespace at both ends.
   */
  function Trim(s: string): (r: string)
    ensures r == [] <==> AllWhitespace(s)
    ensures r != [] ==> !IsJsWhitespace(r[0]) && !IsJsWhitespace(r[|r| - 1])
    ensures r != [] ==> exists a :: 0 <= a && a + |r| <= |s| && r == s[a..a + |r|]
                                    && AllWhitespace(s[..a]) && AllWhitespace(s[a + |r|..])
  {
    var a := LeadingWhitespace(s);
    if a == |s| then []
    else
      var b := |s| - TrailingWhitespace(s);
      assert !IsJsWhitespace(s[a]);
      assert AllWhitespace(s[..a]);
      assert AllWhitespace(s[b..]);
      s[a..b]
  }

  /** Where the first comma of `s` is, if it has one. */
  function FirstComma(s: string): (r: Option<nat>)
    ensures r.None? <==> ',' !in s
    ensures r.Some? ==> r.value < |s| && s[r.value] == ',' && ',' !in s[..r.value]
  {
    if |s| == 0 then None
    else if s[0] == ',' then Some(0)
    else
      match FirstComma(s[1..])
      case None => None
      case Some(i) =>
        assert s[..i + 1] == [s[0]] + s[1..][..i];
        Some(i + 1)
  }

  /** The text of `s` up to its first comma, or all of it when there is none. */
  function UpToComma(s: string): (r: string)
    ensures ',' !in r
    ensures r <= s
    ensures |r| < |s| ==> s[|r|] == ','
  {
    match FirstComma(s)
    case None => s
    case Some(i) => s[..i]
  }

  /**
   * `s.split(',')[1]`: the second comma-separated field, or `undefined`
   * when `s` has no comma at all.
   */
  function SecondField(s: string): (r: Option<string>)
    ensures r.None? <==> ',' !in s
    ensures r.Some? ==> ',' !in r.value
  {
    match FirstComma(s)
    case None => None
    case Some(i) => Some(UpToComma(s[i + 1..]))
  }

  /** The field `d` that follows a comma-free prefix `p` and a comma is what `SecondField` returns. */
  lemma SecondFieldOfJoin(p: string, d: string, rest: string)
    requires ',' !in p && ',' !in d
    requires rest == [] || rest[0] == ','
    ensures SecondField(p + "," + d + rest) == Some(d)
  {
    var s := p + "," + d + rest;
    assert s[..|p|] == p;
    assert s[|p|] == ',';
    assert forall k | 0 <= k < |p| :: s[k] == p[k];
    var i := FirstComma(s).value;
    assert i == |p|;
    assert s[i + 1..] == d + rest;
    var u := UpToComma(d + rest);
    assert forall k | 0 <= k < |d| :: (d + rest)[k] == d[k];
    assert rest != [] ==> (d + rest)[|d|] == ',';
    assert |u| == |d|;
    assert u == (d + rest)[..|d|] == d;
  }

  /** `s.includes(sub)`. */
  predicate Includes(s: string, sub: string) {
    exists i | 0 <= i <= |s| :: OccursAt(s, sub, i)
  }

  /** `sub` occurs in `s` starting at index `i`. */
  predicate OccursAt(s: string, sub: string, i: int) {
    0 <= i && i + |sub| <= |s| && s[i..i + |sub|] == sub
  }
}
