/**
 * The fragment of java.util.regex that `String.matches("https?://.*")` uses:
 * a pattern is a sequence of terms, each a single atom that must occur once,
 * may occur once (`?`) or may repeat (`*`). `String.matches` succeeds when
 * the pattern matches the WHOLE string; a backtracking matcher succeeds when
 * some way of matching exists, which is what the disjunctions below say.
 */
module Regex {

  /** The line terminators that `.` does not match when DOTALL is off. */
  predicate IsLineTerminator(c: char)
  {
    c == '\n' || c == '\r' || c == '\U{85}' || c == '\U{2028}' || c == '\U{2029}'
  }

  datatype Atom = Literal(c: char) | AnyButLineTerminator

  datatype Term = Once(atom: Atom) | Optional(atom: Atom) | Star(atom: Atom)

  predicate AtomMatches(a: Atom, c: char)
  {
    match a
    case Literal(l) => c == l
    case AnyButLineTerminator => !IsLineTerminator(c)
  }

  /** Whether pattern `p` matches all of `s`. */
  predicate Matches(p: seq<Term>, s: string)
    decreases |p|, |s|
  {
    if p == [] then s == []
    else match p[0]
      case Once(a) => |s| > 0 && AtomMatches(a, s[0]) && Matches(p[1..], s[1..])
      case Optional(a) =>
        (|s| > 0 && AtomMatches(a, s[0]) && Matches(p[1..], s[1..])) || Matches(p[1..], s)
      case Star(a) =>
        Matches(p[1..], s) || (|s| > 0 && AtomMatches(a, s[0]) && Matches(p, s[1..]))
  }

  /** The pattern spelling out a literal string, one `Once` term per character. */
  function Literals(lit: string): (p: seq<Term>)
    ensures |p| == |lit|
  {
    if lit == [] then [] else [Once(Literal(lit[0]))] + Literals(lit[1..])
  }

  /** A literal run followed by `rest` matches exactly the strings that start with it. */
  lemma {:induction false} MatchesLiterals(lit: string, rest: seq<Term>, s: string)
    ensures Matches(Literals(lit) + rest, s) <==> lit <= s && Matches(rest, s[|lit|..])
    decreases |lit|
  {
    if lit != [] {
      var p := Literals(lit) + rest;
      assert p[0] == Once(Literal(lit[0]));
      assert p[1..] == Literals(lit[1..]) + rest;
      if |s| > 0 {
        MatchesLiterals(lit[1..], rest, s[1..]);
        assert lit <= s <==> s[0] == lit[0] && lit[1..] <= s[1..];
        if |lit| <= |s| { assert s[1..][|lit| - 1..] == s[|lit|..]; }
      }
    } else {
      assert Literals(lit) + rest == rest;
    }
  }

  /** An optional atom in front of `rest`. */
  lemma MatchesOptional(a: Atom, rest: seq<Term>, s: string)
    ensures Matches([Optional(a)] + rest, s) <==>
            (|s| > 0 && AtomMatches(a, s[0]) && Matches(rest, s[1..])) || Matches(rest, s)
  {
    assert ([Optional(a)] + rest)[1..] == rest;
  }

  /** `.*` matches exactly the strings without a line terminator. */
  lemma {:induction false} MatchesDotStar(s: string)
    ensures Matches([Star(AnyButLineTerminator)], s) <==>
            forall i :: 0 <= i < |s| ==> !IsLineTerminator(s[i])
    decreases |s|
  {
    var p := [Star(AnyButLineTerminator)];
    assert p[1..] == [];
    if |s| > 0 {
      MatchesDotStar(s[1..]);
      assert forall i :: 0 <= i < |s| - 1 ==> s[1..][i] == s[i + 1];
      if !IsLineTerminator(s[0]) && forall i :: 0 <= i < |s| - 1 ==> !IsLineTerminator(s[1..][i]) {
        forall i | 0 <= i < |s|
          ensures !IsLineTerminator(s[i])
        {
          if i > 0 { assert s[i] == s[1..][i - 1]; }
        }
      }
    }
  }
}
