/**
 * String helpers: ASCII case folding (the part of .NET's ordinal
 * case-insensitive comparison that this model covers) and substring search.
 */
module Text {

  predicate IsAsciiUpper(c: char) { 'A' <= c <= 'Z' }

  predicate IsAsciiLetter(c: char) { 'A' <= c <= 'Z' || 'a' <= c <= 'z' }

  /** Folds one character: an ASCII capital becomes its small letter. */
  function FoldChar(c: char): (d: char)
    ensures !IsAsciiUpper(d)
    ensures IsAsciiUpper(c) ==> 'a' <= d <= 'z' && d as int - c as int == 32
    ensures !IsAsciiUpper(c) ==> d == c
  {
    if IsAsciiUpper(c) then (c as int + 32) as char else c
  }

  /** Folds every character of `s`. */
  function Fold(s: string): (r: string)
    ensures |r| == |s|
    ensures forall i :: 0 <= i < |r| ==> !IsAsciiUpper(r[i])
  {
    seq(|s|, i requires 0 <= i < |s| => FoldChar(s[i]))
  }

  /** Two strings are equal ignoring ASCII case when they fold to the same string. */
  predicate EqualsIgnoreCase(a: string, b: string): (eq: bool)
    ensures a == b ==> eq
    ensures eq ==> |a| == |b|
  {
    Fold(a) == Fold(b)
  }

  /**
   * Reference definition of a case-insensitive match of two characters:
   * equal, or the same ASCII letter in the two cases.
   */
  predicate CharsMatch(c: char, d: char) {
    c == d || (IsAsciiLetter(c) && IsAsciiLetter(d) && (c as int - d as int == 32 || d as int - c as int == 32))
  }

  lemma FoldCharMatches(c: char, d: char)
    ensures FoldChar(c) == FoldChar(d) <==> CharsMatch(c, d)
  {
  }

  /** Folding is idempotent: a folded string is its own fold. */
  lemma FoldIdempotent(s: string)
    ensures Fold(Fold(s)) == Fold(s)
  {
    var f := Fold(s);
    assert forall i :: 0 <= i < |f| ==> Fold(f)[i] == f[i];
  }

  /** A string with no ASCII capital is its own fold. */
  lemma FoldFixesNonUpper(s: string)
    requires forall i :: 0 <= i < |s| ==> !IsAsciiUpper(s[i])
    ensures Fold(s) == s
  {
  }

  /** Case-insensitive equality is exactly position-wise `CharsMatch`. */
  lemma EqualsIgnoreCaseIsCharwise(a: string, b: string)
    ensures EqualsIgnoreCase(a, b) <==> |a| == |b| && forall i :: 0 <= i < |a| ==> CharsMatch(a[i], b[i])
  {
    if EqualsIgnoreCase(a, b) {
      forall i | 0 <= i < |a| ensures CharsMatch(a[i], b[i]) {
        assert Fold(a)[i] == Fold(b)[i];
        FoldCharMatches(a[i], b[i]);
      }
    }
    if |a| == |b| && forall i :: 0 <= i < |a| ==> CharsMatch(a[i], b[i]) {
      forall i | 0 <= i < |a| ensures Fold(a)[i] == Fold(b)[i] {
        FoldCharMatches(a[i], b[i]);
      }
    }
  }

  /** `t` occurs in `s` starting at position `i`. */
  predicate OccursAt(s: string, t: string, i: int) {
    0 <= i <= |s| - |t| && s[i..i + |t|] == t
  }

  /** `t` occurs in `s` at some position. */
  predicate Contains(s: string, t: string) {
    exists i :: 0 <= i <= |s| && OccursAt(s, t, i)
  }

  /** The middle part of a concatenation occurs in it. */
  lemma ContainsMiddle(pre: string, t: string, post: string)
    ensures Contains(pre + t + post, t)
  {
    var s := pre + t + post;
    assert OccursAt(s, t, |pre|);
  }
}
