/**
 * The few JavaScript string operations the application relies on: truthiness,
 * `||` on strings, `trim`, `startsWith` and the white-space class shared by
 * `trim` and the regular-expression escape `\s`.
 */
module JsString {
  import opened Wrappers

  /** The characters that `String.prototype.trim` removes and that `\s` matches. */
  predicate IsWhitespace(c: char) {
    || c == '\t' || c == '\n' || c == '\U{B}' || c == '\U{C}' || c == '\r' || c == ' '
    || c == '\U{A0}' || c == '\U{1680}' || ('\U{2000}' <= c <= '\U{200A}')
    || c == '\U{2028}' || c == '\U{2029}' || c == '\U{202F}' || c == '\U{205F}'
    || c == '\U{3000}' || c == '\U{FEFF}'
  }

  predicate AllWhitespace(s: string) {
    forall i :: 0 <= i < |s| ==> IsWhitespace(s[i])
  }

  /** A string that is present and non-empty: JavaScript truthiness of `string | null`. */
  predicate Truthy(s: Option<string>) {
    s.Some? && s.value != ""
  }

  /** `a || b` on two strings: `a` unless it is empty. */
  function OrElse(a: string, b: string): (r: string)
    ensures r == a || r == b
    ensures r != "" <==> a != "" || b != ""
  {
    if a != "" then a else b
  }

  /** `s.trimStart()`. */
  function TrimStart(s: string): (r: string)
    ensures |r| <= |s| && r == s[|s| - |r|..]
    ensures forall i :: 0 <= i < |s| - |r| ==> IsWhitespace(s[i])
    ensures r != [] ==> !IsWhitespace(r[0])
  {
    if s != [] && IsWhitespace(s[0]) then
      var r := TrimStart(s[1..]);
      assert forall i :: 1 <= i < |s| - |r| ==> s[i] == s[1..][i - 1];
      r
    else s
  }

  /** `s.trimEnd()`. */
  function TrimEnd(s: string): (r: string)
    ensures |r| <= |s| && r == s[..|r|]
    ensures AllWhitespace(s[|r|..])
    ensures r != [] ==> !IsWhitespace(r[|r| - 1])
  {
    if s != [] && IsWhitespace(s[|s| - 1]) then
      var r := TrimEnd(s[..|s| - 1]);
      assert s[..|s| - 1][..|r|] == s[..|r|];
      assert s[|r|..] == s[..|s| - 1][|r|..] + [s[|s| - 1]];
      r
    else s
  }

  /** `s.trim()`: what is left once white space is removed at both ends. */
  function Trim(s: string): (r: string)
    ensures r != [] ==> !IsWhitespace(r[0]) && !IsWhitespace(r[|r| - 1])
    ensures r == [] <==> AllWhitespace(s)
    ensures exists a, b :: SliceBetweenWhitespace(s, a, b, r)
  {
    var front := TrimStart(s);
    TrimIsSlice(s, front, TrimEnd(front));
    TrimEnd(front)
  }

  /** `r` is `s[a..b]`, and all of `s` before `a` and from `b` on is white space. */
  predicate SliceBetweenWhitespace(s: string, a: int, b: int, r: string) {
    0 <= a <= b <= |s| && r == s[a..b] && AllWhitespace(s[..a]) && AllWhitespace(s[b..])
  }

  /** A suffix after white space, cut before white space, is a slice between white-space ends. */
  lemma TrimIsSlice(s: string, front: string, r: string)
    requires |front| <= |s| && front == s[|s| - |front|..]
    requires forall i :: 0 <= i < |s| - |front| ==> IsWhitespace(s[i])
    requires |r| <= |front| && r == front[..|r|] && AllWhitespace(front[|r|..])
    ensures r == [] ==> AllWhitespace(s)
    ensures SliceBetweenWhitespace(s, |s| - |front|, |s| - |front| + |r|, r)
  {
    var a := |s| - |front|;
    var b := a + |r|;
    assert s[b..] == front[|r|..];
    if r == [] {
      assert s == s[..a] + front;
    }
  }

  /** `r` is `s` without the character at `k`, the first occurrence of `c`. */
  predicate RemovedAt(s: string, c: char, k: int, r: string) {
    0 <= k < |s| && s[k] == c && c !in s[..k] && r == s[..k] + s[k + 1..]
  }

  /** `s.replace(c, "")` for a one-character pattern: removes the first occurrence of `c` only. */
  function RemoveFirst(s: string, c: char): (r: string)
    ensures c !in s ==> r == s
    ensures c in s ==> |r| == |s| - 1
    ensures c in s ==> exists k :: RemovedAt(s, c, k, r)
  {
    if s == [] then []
    else if s[0] == c then
      assert RemovedAt(s, c, 0, s[1..]);
      s[1..]
    else
      var rest := RemoveFirst(s[1..], c);
      RemoveFirstStep(s, c, rest);
      [s[0]] + rest
  }

  /** One step of RemoveFirst past a character other than `c`. */
  lemma RemoveFirstStep(s: string, c: char, rest: string)
    requires s != [] && s[0] != c
    requires c in s[1..] ==> exists k :: RemovedAt(s[1..], c, k, rest)
    ensures c in s ==> c in s[1..]
    ensures c in s ==> exists k :: RemovedAt(s, c, k, [s[0]] + rest)
  {
    if c in s {
      assert c in s[1..] by {
        assert s == [s[0]] + s[1..];
      }
      var k' :| RemovedAt(s[1..], c, k', rest);
      RemovedAtCons(s, c, k', rest);
    }
  }

  lemma RemovedAtCons(s: string, c: char, k: int, rest: string)
    requires s != [] && s[0] != c && RemovedAt(s[1..], c, k, rest)
    ensures RemovedAt(s, c, k + 1, [s[0]] + rest)
  {
    assert s[..k + 1] == [s[0]] + s[1..][..k];
    assert s[k + 2..] == s[1..][k + 1..];
  }

  /** Mapping 'A'..'Z' to 'a'..'z'; every other character is kept. */
  function LowerChar(c: char): char {
    if 'A' <= c <= 'Z' then (c as int - 'A' as int + 'a' as int) as char else c
  }

  /** `s.toLowerCase()` restricted to ASCII letters. */
  function Lower(s: string): (r: string)
    ensures |r| == |s|
    ensures forall i :: 0 <= i < |s| ==> r[i] == LowerChar(s[i])
  {
    seq(|s|, i requires 0 <= i < |s| => LowerChar(s[i]))
  }

  /** `hay.includes(needle)`. */
  predicate Contains(hay: string, needle: string)
    decreases |hay|
  {
    needle <= hay || (hay != [] && Contains(hay[1..], needle))
  }

  /** Prisma's `contains` with `mode: "insensitive"`, with case folded on ASCII letters only. */
  predicate ContainsInsensitive(hay: string, needle: string) {
    Contains(Lower(hay), Lower(needle))
  }
}
