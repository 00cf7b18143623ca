/**
 * The two string primitives the verification pipeline relies on: the
 * case-insensitive prefix test of a JavaScript regular expression anchored
 * with `^` and carrying the `i` flag, and `String.prototype.indexOf`.
 */
module Strings {

  /**
   * ASCII case folding. A JavaScript regular expression with the `i` flag and
   * without the `u` flag canonicalises both sides with toUpperCase and never
   * folds a non-ASCII character onto an ASCII one, so for patterns made of
   * ASCII letters, digits and punctuation this folding decides the same.
   */
  function Lower(c: char): (d: char)
    ensures !('A' <= d <= 'Z')
    ensures d == c || ('A' <= c <= 'Z' && d as int == c as int + 32)
  {
    if 'A' <= c <= 'Z' then (c as int + 32) as char else c
  }

  /** The string with every character folded. */
  function Fold(s: string): (r: string)
    ensures |r| == |s| && forall i :: 0 <= i < |s| ==> r[i] == Lower(s[i])
  {
    seq(|s|, i requires 0 <= i < |s| => Lower(s[i]))
  }

  /** `s` begins with `p`, letters compared case-insensitively. */
  predicate StartsWithIgnoreCase(s: string, p: string): (b: bool)
    ensures p <= s ==> b
  {
    |p| <= |s| && forall i :: 0 <= i < |p| ==> Lower(s[i]) == Lower(p[i])
  }

  /** Comparing ignoring case is comparing the folded strings: `p` folded is a prefix of `s` folded. */
  lemma StartsWithIgnoreCaseFolded(s: string, p: string)
    ensures StartsWithIgnoreCase(s, p) <==> Fold(p) <= Fold(s)
  {
    if StartsWithIgnoreCase(s, p) {
      assert Fold(p) == Fold(s)[..|p|];
    }
    if Fold(p) <= Fold(s) {
      forall i | 0 <= i < |p| ensures Lower(s[i]) == Lower(p[i]) {
        assert Fold(p)[i] == Fold(s)[i];
      }
    }
  }

  /** One differing character is enough to refute a prefix. */
  lemma MismatchAt(s: string, p: string, i: nat)
    requires i < |p| && i < |s| && Lower(s[i]) != Lower(p[i])
    ensures !StartsWithIgnoreCase(s, p)
  {
  }

  /** A prefix `a + b` is `a` followed, at offset |a|, by `b`. */
  lemma StartsWithConcat(s: string, a: string, b: string)
    ensures StartsWithIgnoreCase(s, a + b) <==>
              StartsWithIgnoreCase(s, a) && StartsWithIgnoreCase(s[|a|..], b)
  {
    var ab := a + b;
    if StartsWithIgnoreCase(s, ab) {
      forall i | 0 <= i < |a| ensures Lower(s[i]) == Lower(a[i]) {
        assert ab[i] == a[i];
      }
      forall i | 0 <= i < |b| ensures Lower(s[|a|..][i]) == Lower(b[i]) {
        assert ab[|a| + i] == b[i];
      }
    }
    if StartsWithIgnoreCase(s, a) && StartsWithIgnoreCase(s[|a|..], b) {
      forall i | 0 <= i < |ab| ensures Lower(s[i]) == Lower(ab[i]) {
        if i >= |a| {
          assert s[|a|..][i - |a|] == s[i];
        }
      }
    }
  }

  /** `t` occurs in `s` starting at index `i`. */
  predicate OccursAt(s: string, t: string, i: int) {
    0 <= i && i + |t| <= |s| && s[i..i + |t|] == t
  }

  /** The first index at or after `from` where `t` occurs in `s`, or -1. */
  function IndexOfFrom(s: string, t: string, from: nat): (r: int)
    decreases |s| - from
    ensures r == -1 || (from <= r && OccursAt(s, t, r))
    ensures r == -1 <==> forall i :: from <= i ==> !OccursAt(s, t, i)
    ensures r != -1 ==> forall i :: from <= i < r ==> !OccursAt(s, t, i)
  {
    if from + |t| > |s| then -1
    else if s[from..from + |t|] == t then from
    else IndexOfFrom(s, t, from + 1)
  }

  /** `s.indexOf(t)`: the first index where `t` occurs in `s`, or -1 when it does not occur. */
  function IndexOf(s: string, t: string): (r: int)
    ensures r == -1 <==> forall i :: !OccursAt(s, t, i)
    ensures r != -1 ==> OccursAt(s, t, r) && forall i :: i < r ==> !OccursAt(s, t, i)
  {
    IndexOfFrom(s, t, 0)
  }

}
