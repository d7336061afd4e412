/**
 String helpers shared by the model: substring search in the sense of
 JavaScript's `indexOf(t) > -1`, ASCII lower-casing
 (what a case-insensitive regular expression does for ASCII tokens) and
 string concatenation.
 */
module Text {

  /** `t` occurs in `s` starting at index `i`. */
  predicate StartsAt(s: string, i: nat, t: string)
  {
    i + |t| <= |s| && s[i..i + |t|] == t
  }

  /** `t` occurs somewhere in `s`: `s.indexOf(t) > -1`. */
  predicate Contains(s: string, t: string)
  {
    exists i: nat :: i <= |s| && StartsAt(s, i, t)
  }

  function LowerChar(c: char): (r: char)
    ensures 'A' <= c <= 'Z' ==> 'a' <= r <= 'z'
    ensures !('A' <= c <= 'Z') ==> r == c
  {
    if 'A' <= c <= 'Z' then (c as int - 'A' as int + 'a' as int) as char else c
  }

  /** Lower-cases the ASCII letters of `s` and leaves every other character alone. */
  function Lower(s: string): (r: string)
    ensures |r| == |s|
    ensures forall i :: 0 <= i < |s| ==> r[i] == LowerChar(s[i])
  {
    seq(|s|, i requires 0 <= i < |s| => LowerChar(s[i]))
  }

  /** Lower-casing is compatible with substring occurrence: an occurrence of
      `t` in `s` is an occurrence of `Lower(t)` in `Lower(s)` at the same place. */
  lemma LowerPreservesOccurrence(s: string, i: nat, t: string)
    requires StartsAt(s, i, t)
    ensures StartsAt(Lower(s), i, Lower(t))
  {
    assert Lower(s)[i..i + |t|] == Lower(s[i..i + |t|]);
  }

  /** Corollary of the above for `Contains`. */
  lemma LowerPreservesContains(s: string, t: string)
    requires Contains(s, t)
    ensures Contains(Lower(s), Lower(t))
  {
    var i: nat :| i <= |s| && StartsAt(s, i, t);
    LowerPreservesOccurrence(s, i, t);
  }

  /** The concatenation of a list of strings, in order. */
  function Concat(parts: seq<string>): (r: string)
    ensures |parts| == 0 ==> r == ""
    ensures |parts| == 1 ==> r == parts[0]
  {
    if |parts| == 0 then "" else parts[0] + Concat(parts[1..])
  }

  /** Concatenation distributes over appending lists. */
  lemma {:induction false} ConcatAppend(a: seq<string>, b: seq<string>)
    ensures Concat(a + b) == Concat(a) + Concat(b)
    decreases |a|
  {
    if |a| > 0 {
      assert (a + b)[1..] == a[1..] + b;
      ConcatAppend(a[1..], b);
    } else {
      assert a + b == b;
    }
  }

  /** Joins `parts` with `sep` between neighbours, as JavaScript renders an array
      (`String([x, y]) == "x,y"` with `sep == ","`). */
  function Join(parts: seq<string>, sep: string): (r: string)
    ensures |parts| == 1 ==> r == parts[0]
    ensures |parts| == 0 ==> r == ""
  {
    if |parts| == 0 then ""
    else if |parts| == 1 then parts[0]
    else parts[0] + sep + Join(parts[1..], sep)
  }
}
