/**
 * The directory segment an interpreter version maps to. A version such as
 * `3.8.*` carries a wildcard, and `*` may not appear in a path, so the
 * segment is `version.split('.*')[0]`: everything before the first `.*`.
 */
module Versions {

  /** `.*` starts at index `i` of `s`. */
  predicate WildcardAt(s: string, i: int) {
    0 <= i && i + 1 < |s| && s[i] == '.' && s[i + 1] == '*'
  }

  predicate HasWildcard(s: string) {
    exists i :: 0 <= i < |s| && WildcardAt(s, i)
  }

  /**
   * `v.split('.*')[0]`. The segment is a prefix of `v` free of `.*`; where it
   * stops short of the end of `v`, a `.*` begins, so it is the text before
   * the first one.
   */
  function Segment(v: string): (seg: string)
    ensures |seg| <= |v| && seg == v[..|seg|]
    ensures !HasWildcard(seg)
    ensures |seg| < |v| ==> WildcardAt(v, |seg|)
    decreases |v|
  {
    if |v| < 2 then
      assert forall i :: !WildcardAt(v, i);
      v
    else if v[0] == '.' && v[1] == '*' then
      assert forall i :: !WildcardAt("", i);
      ""
    else
      var rest := Segment(v[1..]);
      var seg := [v[0]] + rest;
      assert forall i :: WildcardAt(seg, i) ==> i >= 1 && WildcardAt(rest, i - 1);
      seg
  }

  /** The segment is the whole version exactly when the version has no wildcard. */
  lemma SegmentIsVersionIff(v: string)
    ensures Segment(v) == v <==> !HasWildcard(v)
  {
    var seg := Segment(v);
    if seg != v {
      assert WildcardAt(v, |seg|);
    }
  }

  /**
   * Whatever follows a `.*` is cut off, so `3.8.*` and `3.8` give the same
   * segment, and so do `3.8.*` and `3.8.*.1`.
   */
  lemma {:induction false} SegmentCutsAtWildcard(v: string, rest: string)
    ensures Segment(v + ".*" + rest) == Segment(v)
    decreases |v|
  {
    var w := v + ".*" + rest;
    if |v| == 0 {
      assert w[0] == '.' && w[1] == '*';
    } else if |v| == 1 {
      assert w[0] == v[0] && w[1] == '.';
      assert w[1..] == ".*" + rest;
    } else if v[0] == '.' && v[1] == '*' {
      assert w[0] == '.' && w[1] == '*';
    } else {
      assert w[0] == v[0] && w[1] == v[1];
      assert w[1..] == v[1..] + ".*" + rest;
      SegmentCutsAtWildcard(v[1..], rest);
    }
  }

  /** The docstring's example version `3.8.*` lives in directory `3.8`. */
  lemma WildcardPatchVersion()
    ensures Segment("3.8.*") == Segment("3.8") == "3.8"
  {
    SegmentCutsAtWildcard("3.8", "");
    assert "3.8" + ".*" + "" == "3.8.*";
    SegmentIsVersionIff("3.8");
    assert !WildcardAt("3.8", 0) && !WildcardAt("3.8", 1) && !WildcardAt("3.8", 2);
  }
}
