/** The `java.lang.String` queries the plugin relies on: `startsWith`, `contains`, and
    splitting at the first occurrence of a separator character. Each executable test
    is paired with a declarative definition and proved equal to it. */
module Strings {
  import opened Wrappers

  /** `p` is a prefix of `s`. */
  predicate IsPrefix(p: string, s: string) {
    |p| <= |s| && s[..|p|] == p
  }

  /** `f` occurs in `s` starting at index `i`. */
  predicate OccursAt(f: string, s: string, i: nat) {
    i + |f| <= |s| && s[i..i + |f|] == f
  }

  /** `f` occurs somewhere in `s`; the empty string occurs in every string. */
  ghost predicate IsSubstring(f: string, s: string) {
    exists i: nat :: OccursAt(f, s, i)
  }

  /** `s.startsWith(p)`, compared character by character. */
  function StartsWith(s: string, p: string): (r: bool)
    ensures r <==> IsPrefix(p, s)
  {
    if |p| == 0 then true
    else if |s| == 0 then false
    else
      assert IsPrefix(p, s) <==> s[0] == p[0] && IsPrefix(p[1..], s[1..]) by {
        if IsPrefix(p, s) {
          assert s[1..][..|p| - 1] == s[..|p|][1..];
        }
        if s[0] == p[0] && IsPrefix(p[1..], s[1..]) {
          assert s[..|p|] == [s[0]] + s[1..][..|p| - 1];
        }
      }
      s[0] == p[0] && StartsWith(s[1..], p[1..])
  }

  /** An occurrence at `i + 1` in `s` is an occurrence at `i` in `s[1..]`. */
  lemma ShiftOccurrence(f: string, s: string, i: nat)
    requires |s| > 0
    ensures OccursAt(f, s, i + 1) <==> OccursAt(f, s[1..], i)
  {
    if i + 1 + |f| <= |s| {
      assert s[i + 1..i + 1 + |f|] == s[1..][i..i + |f|];
    }
  }

  /** `s.contains(f)`: try every starting position from the left. */
  function Contains(s: string, f: string): (r: bool)
    ensures r <==> IsSubstring(f, s)
    decreases |s|
  {
    if StartsWith(s, f) then
      assert OccursAt(f, s, 0);
      true
    else if |s| == 0 then
      assert !IsSubstring(f, s) by {
        assert !OccursAt(f, s, 0);
      }
      false
    else
      assert IsSubstring(f, s) <==> IsSubstring(f, s[1..]) by {
        if IsSubstring(f, s) {
          assert !OccursAt(f, s, 0);
          var i: nat :| OccursAt(f, s, i);
          ShiftOccurrence(f, s, i - 1);
        }
        if IsSubstring(f, s[1..]) {
          var i: nat :| OccursAt(f, s[1..], i);
          ShiftOccurrence(f, s, i);
        }
      }
      Contains(s[1..], f)
  }

  /** Index of the first occurrence of `c` in `s`, if any. */
  function IndexOf(s: string, c: char): (r: Option<nat>)
    ensures r.None? <==> c !in s
    ensures r.Some? ==> r.value < |s| && s[r.value] == c && c !in s[..r.value]
  {
    if |s| == 0 then None
    else if s[0] == c then Some(0)
    else
      match IndexOf(s[1..], c)
      case None => None
      case Some(i) =>
        assert s[..i + 1] == [s[0]] + s[1..][..i];
        Some(i + 1)
  }

  /** Splits `s` at the first `c`: the part before it and the part after it. */
  function SplitFirst(s: string, c: char): (r: Option<(string, string)>)
    ensures r.None? <==> c !in s
    ensures r.Some? ==> s == r.value.0 + [c] + r.value.1 && c !in r.value.0
  {
    match IndexOf(s, c)
    case None => None
    case Some(i) =>
      assert s == s[..i] + [c] + s[i + 1..];
      Some((s[..i], s[i + 1..]))
  }

  /** Splitting a joined string at a separator that is not in its left part gives the parts back. */
  lemma {:induction false} SplitFirstJoin(a: string, c: char, b: string)
    requires c !in a
    ensures SplitFirst(a + [c] + b, c) == Some((a, b))
  {
    var s := a + [c] + b;
    var r := SplitFirst(s, c);
    assert c in s by { assert s[|a|] == c; }
    var (a', b') := r.value;
    assert s == a' + [c] + b' && c !in a';
    assert s[|a'|] == c && s[|a|] == c;
    assert forall k | 0 <= k < |a| :: s[k] == a[k];
    assert forall k | 0 <= k < |a'| :: s[k] == a'[k];
    assert |a'| == |a|;
    assert a' == s[..|a|] == a;
    assert b' == s[|a| + 1..] == b;
  }
}
