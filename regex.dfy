/**
 * The fragment of ECMAScript regular expressions that the schema's validators
 * use, with no flags set: `^` (start of input), `$` (end of input), a literal
 * character, `.` (any character but a line terminator) and `*` on an atom.
 * `Test` is `RegExp.prototype.test` for a pattern without the `g` or `y` flag:
 * it tries every start position from 0 to the end of the input.
 */
module Regex {

  datatype Atom = Literal(c: char) | Dot

  datatype Term =
    | Begin          // `^`; without the `m` flag it holds only at position 0
    | End            // `$`; without the `m` flag it holds only at the end of the input
    | Once(a: Atom)  // the atom, exactly once
    | Many(a: Atom)  // the atom, any number of times

  type Pattern = seq<Term>

  /** The line terminators of ECMAScript: LF, CR, LINE SEPARATOR, PARAGRAPH SEPARATOR. */
  predicate IsLineTerminator(c: char) {
    c == '\n' || c == '\r' || c == '\U{2028}' || c == '\U{2029}'
  }

  /** Without the `s` flag, `.` matches every character except a line terminator. */
  predicate AtomMatches(a: Atom, c: char) {
    match a
    case Literal(x) => c == x
    case Dot => !IsLineTerminator(c)
  }

  /** Whether `p` matches some prefix of `s[i..]` (backtracking over every way `*` can stop). */
  predicate MatchAt(p: Pattern, s: string, i: nat)
    requires i <= |s|
    decreases |p|, |s| - i
  {
    if p == [] then true
    else match p[0]
      case Begin => i == 0 && MatchAt(p[1..], s, i)
      case End => i == |s| && MatchAt(p[1..], s, i)
      case Once(a) => i < |s| && AtomMatches(a, s[i]) && MatchAt(p[1..], s, i + 1)
      case Many(a) =>
        MatchAt(p[1..], s, i) || (i < |s| && AtomMatches(a, s[i]) && MatchAt(p, s, i + 1))
  }

  /** Whether a match starts at some position from `i` on. */
  predicate SearchFrom(p: Pattern, s: string, i: nat)
    requires i <= |s|
    decreases |s| - i
  {
    MatchAt(p, s, i) || (i < |s| && SearchFrom(p, s, i + 1))
  }

  /** `RegExp.prototype.test(s)` for a pattern without the `g` or `y` flag. */
  predicate Test(p: Pattern, s: string) {
    SearchFrom(p, s, 0)
  }

  /** A pattern that begins with `^` can only match at position 0, so searching adds nothing. */
  lemma {:induction false} AnchoredTest(p: Pattern, s: string)
    requires p != [] && p[0] == Begin
    ensures Test(p, s) <==> MatchAt(p, s, 0)
  {
    if |s| > 0 {
      AnchoredSearchMisses(p, s, 1);
    }
  }

  lemma {:induction false} AnchoredSearchMisses(p: Pattern, s: string, i: nat)
    requires p != [] && p[0] == Begin
    requires 0 < i <= |s|
    ensures !SearchFrom(p, s, i)
    decreases |s| - i
  {
    if i < |s| {
      AnchoredSearchMisses(p, s, i + 1);
    }
  }

  /** `.*$` matches from `i` exactly when no line terminator occurs from `i` to the end. */
  lemma {:induction false} DotStarEnd(s: string, i: nat)
    requires i <= |s|
    ensures MatchAt([Many(Dot), End], s, i) <==> forall k | i <= k < |s| :: !IsLineTerminator(s[k])
    decreases |s| - i
  {
    var p := [Many(Dot), End];
    assert p[1..] == [End];
    assert MatchAt([End], s, i) <==> i == |s| by {
      assert [End][1..] == [];
    }
    if i < |s| {
      DotStarEnd(s, i + 1);
    }
  }
}
