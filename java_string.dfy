/**
 * The few operations of java.lang.String that the HTTP client's path logic
 * relies on, over Dafny strings. A Java `String` is a sequence of UTF-16 code
 * units; here it is a `seq<char>`.
 */
module JavaString {

  /** `s.startsWith(prefix)` */
  predicate StartsWith(s: string, prefix: string)
  {
    prefix <= s
  }

  /** `s.endsWith(suffix)` */
  predicate EndsWith(s: string, suffix: string)
  {
    |suffix| <= |s| && s[|s| - |suffix|..] == suffix
  }

  /** `s.indexOf(c)`: the position of the first `c` in `s`, or -1 when there is none. */
  function IndexOf(s: string, c: char): (i: int)
    ensures -1 <= i < |s|
    ensures i == -1 <==> c !in s
    ensures i >= 0 ==> s[i] == c && c !in s[..i]
  {
    if s == [] then -1
    else if s[0] == c then 0
    else
      var j := IndexOf(s[1..], c);
      if j == -1 then -1
      else
        assert s[..j + 1] == [s[0]] + s[1..][..j];
        j + 1
  }

  /** The first occurrence is the only position with `c` and no `c` before it. */
  lemma IndexOfUnique(s: string, c: char, i: int)
    requires 0 <= i < |s| && s[i] == c && c !in s[..i]
    ensures IndexOf(s, c) == i
  {
  }

  /** The first `c` lies beyond any prefix free of `c`. */
  lemma IndexOfPastPrefix(s: string, a: string, c: char)
    requires a <= s && c !in a && c in s
    ensures IndexOf(s, c) >= |a|
  {
  }

  // Proof helpers: small steps stated once, so that the proofs using them do
  // not have to re-derive them elementwise in a large context.

  /** Concatenation regroups. */
  lemma ConcatAssoc(a: string, b: string, c: string)
    ensures a + b + c == a + (b + c)
  {
  }

  /** A prefix of `a` is a prefix of anything that starts with `a`. */
  lemma StartsWithConcat(a: string, b: string, prefix: string)
    requires StartsWith(a, prefix)
    ensures StartsWith(a + b, prefix)
  {
    assert (a + b)[..|prefix|] == a[..|prefix|];
  }

  /** Whatever comes first, a string ends with what it ends with. */
  lemma EndsWithConcat(a: string, b: string)
    ensures EndsWith(a + b, b)
  {
    assert (a + b)[|a|..] == b;
  }

  /** A prefix free of `c`, then `c`: the first `c` is at the seam. */
  lemma IndexOfAtSeam(a: string, b: string, c: char)
    requires c !in a && b != [] && b[0] == c
    ensures IndexOf(a + b, c) == |a|
  {
    var s := a + b;
    assert s[|a|] == c && s[..|a|] == a;
    IndexOfUnique(s, c, |a|);
  }

  /**
   * `s.split(quote(c), 2)`: at most one split, at the first `c`. Without a `c`
   * the array holds `s` alone; otherwise the text before the first `c` and
   * everything after it, empty pieces included.
   */
  function SplitLimit2(s: string, c: char): (parts: seq<string>)
    ensures |parts| == if c in s then 2 else 1
    ensures c !in s ==> parts[0] == s
    ensures c in s ==> s == parts[0] + [c] + parts[1] && c !in parts[0]
  {
    var i := IndexOf(s, c);
    if i == -1 then [s]
    else
      assert s == s[..i] + [c] + s[i + 1..];
      [s[..i], s[i + 1..]]
  }

  /** The split is the only decomposition around a first `c`. */
  lemma SplitLimit2Unique(a: string, c: char, b: string)
    requires c !in a
    ensures SplitLimit2(a + [c] + b, c) == [a, b]
  {
    var s := a + [c] + b;
    assert s[|a|] == c && s[..|a|] == a;
    IndexOfUnique(s, c, |a|);
    assert s[|a| + 1..] == b;
  }

  /** `Character.toLowerCase` on the ASCII letters; every other character is kept. */
  function LowerAscii(c: char): (l: char)
  {
    if 'A' <= c <= 'Z' then (c as int - 'A' as int + 'a' as int) as char else c
  }

  /** `s.toLowerCase()`, character by character. */
  function ToLower(s: string): (r: string)
    ensures |r| == |s|
  {
    if s == [] then [] else [LowerAscii(s[0])] + ToLower(s[1..])
  }

  /** Each character is lower-cased in place. */
  lemma {:induction false} ToLowerAt(s: string, i: int)
    requires 0 <= i < |s|
    ensures ToLower(s)[i] == LowerAscii(s[i])
    decreases |s|
  {
    if i > 0 {
      ToLowerAt(s[1..], i - 1);
    }
  }

  /**
   * `Character.isWhitespace` as in Java 7 and 8 (Unicode 6.x): the ASCII
   * controls 9-13 and 28-31, the space, and the Unicode space, line and
   * paragraph separators other than the non-breaking ones (U+00A0, U+2007,
   * U+202F). U+180E still counts as a space separator in that Unicode version.
   */
  predicate IsWhitespace(c: char)
  {
    c == ' ' || '\t' <= c <= '\r' || '\U{1C}' <= c <= '\U{1F}' ||
    c == '\U{1680}' || c == '\U{180E}' || ('\U{2000}' <= c <= '\U{200A}' && c != '\U{2007}') ||
    c == '\U{2028}' || c == '\U{2029}' || c == '\U{205F}' || c == '\U{3000}'
  }

  /**
   * The tokens a `Scanner` with its default delimiter (runs of whitespace)
   * yields, appended one after another: `s` with every whitespace character
   * removed.
   */
  function JoinedTokens(s: string): (r: string)
    ensures |r| <= |s|
    ensures forall c :: c in r ==> c in s && !IsWhitespace(c)
  {
    if s == [] then []
    else if IsWhitespace(s[0]) then JoinedTokens(s[1..])
    else [s[0]] + JoinedTokens(s[1..])
  }

  /** Text without whitespace is one token and comes back unchanged. */
  lemma {:induction false} JoinedTokensNoWhitespace(s: string)
    requires forall c :: c in s ==> !IsWhitespace(c)
    ensures JoinedTokens(s) == s
    decreases |s|
  {
    if s != [] {
      assert s[0] in s;
      assert forall c :: c in s[1..] ==> c in s;
      JoinedTokensNoWhitespace(s[1..]);
    }
  }

  /** Tokens are collected piece by piece. */
  lemma {:induction false} JoinedTokensConcat(a: string, b: string)
    ensures JoinedTokens(a + b) == JoinedTokens(a) + JoinedTokens(b)
    decreases |a|
  {
    if a != [] {
      assert (a + b)[0] == a[0] && (a + b)[1..] == a[1..] + b;
      JoinedTokensConcat(a[1..], b);
    } else {
      assert a + b == b;
    }
  }

  /** The whitespace between two pieces of text is lost: they are glued together. */
  lemma JoinedTokensGlues(a: string, b: string)
    ensures JoinedTokens(a + " " + b) == JoinedTokens(a) + JoinedTokens(b)
  {
    JoinedTokensConcat(a + " ", b);
    JoinedTokensConcat(a, " ");
    assert JoinedTokens(" ") == [];
  }
}
