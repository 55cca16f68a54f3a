/** The fragment of ECMAScript regular expressions that the detectors use:
    a concatenation of single characters, bracket classes and `.`, tested
    with `String.prototype.match` and no `g` flag, so the test succeeds
    when a match starts at any position of the subject. A string is a
    sequence of Unicode scalar values, one `char` each. README's "## Left out"
    says where this differs from JavaScript's UTF-16 code units. */
module Regex {

  /** The characters `.` does not match without the `s` flag
      (LineTerminator, section 12.3 of ECMA-262). */
  predicate IsLineTerminator(c: char) {
    c == '\n' || c == '\r' || c == '\U{2028}' || c == '\U{2029}'
  }

  datatype Atom =
    | Char(c: char)            // a literal or escaped character, such as `\$` or `\(`
    | OneOf(cs: set<char>)     // a bracket class, such as `['"]`
    | AnyButLineTerminator     // `.`

  type Pattern = seq<Atom>

  predicate AtomMatches(a: Atom, c: char) {
    match a
    case Char(x) => c == x
    case OneOf(cs) => c in cs
    case AnyButLineTerminator => !IsLineTerminator(c)
  }

  /** The pattern matches the characters of `s` starting at index `i`. */
  predicate MatchesAt(p: Pattern, s: string, i: nat) {
    i + |p| <= |s| && forall k :: 0 <= k < |p| ==> AtomMatches(p[k], s[i + k])
  }

  /** The backtracking-free search the regex engine performs: try each start
      position from `i` on, left to right. */
  function SearchFrom(p: Pattern, s: string, i: nat): (found: bool)
    ensures found <==> exists j: nat :: i <= j && MatchesAt(p, s, j)
    decreases |s| - i
  {
    if i + |p| > |s| then false
    else MatchesAt(p, s, i) || SearchFrom(p, s, i + 1)
  }

  /** `s.match(p)` is truthy. */
  function Search(p: Pattern, s: string): (found: bool)
    ensures found <==> exists j: nat :: MatchesAt(p, s, j)
  {
    SearchFrom(p, s, 0)
  }

  /** A pattern made of literal characters only, such as `NgElementConstructor`. */
  function Literal(w: string): Pattern {
    seq(|w|, k requires 0 <= k < |w| => Char(w[k]))
  }

  /** Reference definition of substring presence, independent of patterns. */
  ghost predicate OccursAt(w: string, s: string, i: nat) {
    i + |w| <= |s| && s[i..i + |w|] == w
  }

  ghost predicate Contains(s: string, w: string) {
    exists i: nat :: OccursAt(w, s, i)
  }

  /** Matching a concatenation is matching its parts one after the other. */
  lemma MatchesConcat(p: Pattern, q: Pattern, s: string, i: nat)
    ensures MatchesAt(p + q, s, i) <==> MatchesAt(p, s, i) && MatchesAt(q, s, i + |p|)
  {
    if MatchesAt(p, s, i) && MatchesAt(q, s, i + |p|) {
      forall k | 0 <= k < |p + q| ensures AtomMatches((p + q)[k], s[i + k]) {
        if k >= |p| {
          assert (p + q)[k] == q[k - |p|];
          assert AtomMatches(q[k - |p|], s[i + |p| + (k - |p|)]);
        }
      }
    }
    if MatchesAt(p + q, s, i) {
      forall k | 0 <= k < |p| ensures AtomMatches(p[k], s[i + k]) {
        assert (p + q)[k] == p[k];
      }
      forall k | 0 <= k < |q| ensures AtomMatches(q[k], s[i + |p| + k]) {
        assert (p + q)[|p| + k] == q[k];
      }
    }
  }

  lemma MatchesSingle(a: Atom, s: string, i: nat)
    ensures MatchesAt([a], s, i) <==> i < |s| && AtomMatches(a, s[i])
  {
    if i < |s| && AtomMatches(a, s[i]) {
      assert forall k :: 0 <= k < 1 ==> AtomMatches([a][k], s[i + k]);
    }
    if MatchesAt([a], s, i) {
      assert AtomMatches([a][0], s[i + 0]);
    }
  }

  lemma LiteralMatchesAt(w: string, s: string, i: nat)
    ensures MatchesAt(Literal(w), s, i) <==> OccursAt(w, s, i)
  {
    if MatchesAt(Literal(w), s, i) {
      assert forall k :: 0 <= k < |w| ==> s[i..i + |w|][k] == w[k] by {
        forall k | 0 <= k < |w| ensures s[i..i + |w|][k] == w[k] {
          assert AtomMatches(Literal(w)[k], s[i + k]);
        }
      }
    }
    if OccursAt(w, s, i) {
      forall k | 0 <= k < |w| ensures AtomMatches(Literal(w)[k], s[i + k]) {
        assert s[i..i + |w|][k] == w[k];
      }
    }
  }

  /** Searching for a literal pattern is substring presence. */
  lemma SearchLiteral(w: string, s: string)
    ensures Search(Literal(w), s) <==> Contains(s, w)
  {
    forall j: nat ensures MatchesAt(Literal(w), s, j) <==> OccursAt(w, s, j) {
      LiteralMatchesAt(w, s, j);
    }
  }
}
