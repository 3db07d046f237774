/** The wildcard matcher of libs/v6core/src/trace_log.cpp. */
module Glob {

  /** tolower of the C locale. */
  function Lower(c: char): (r: char) { if 'A' <= c <= 'Z' then c - 'A' + 'a' else c }

  /** The same character, or the two cases of one letter. */
  predicate SameLetter(a: char, b: char)
  {
    || a == b
    || ('A' <= a <= 'Z' && b as int == a as int + 32)
    || ('A' <= b <= 'Z' && a as int == b as int + 32)
  }

  lemma LowerMeans(a: char, b: char)
    ensures Lower(a) == Lower(b) <==> SameLetter(a, b)
  {
  }

  /** The language of a pattern: '*' matches any string, any other character itself up to case. */
  predicate Matches(p: string, v: string)
  {
    if p == "" then v == ""
    else if p[0] == '*' then exists k :: 0 <= k <= |v| && Matches(p[1..], v[k..])
    else v != "" && SameLetter(p[0], v[0]) && Matches(p[1..], v[1..])
  }

  predicate StarFree(q: string) { forall i :: 0 <= i < |q| ==> q[i] != '*' }

  /** A star-free prefix consumes exactly its own length. */
  lemma {:induction false} StarFreePrefix(q: string, rest: string, w: string)
    requires StarFree(q) && Matches(q + rest, w)
    ensures |q| <= |w| && Matches(rest, w[|q|..])
  {
    if q == "" {
      assert q + rest == rest && w[0..] == w;
    } else {
      assert (q + rest)[1..] == q[1..] + rest;
      StarFreePrefix(q[1..], rest, w[1..]);
      assert w[1..][|q| - 1..] == w[|q|..];
    }
  }

  /** Some later position for the last star still matches. */
  predicate Retry(p: string, v: string, star: int, from: nat)
    requires -1 <= star < |p|
  {
    star >= 0 && exists k :: from < k <= |v| && Matches(p[star + 1..], v[k..])
  }

  /** When the next star is reached, every retry of the previous star is a retry of the new one. */
  lemma LaterStarIsEnough(p: string, v: string, star: int, from: nat, pi: nat, vi: nat)
    requires 0 <= star < pi < |p| && p[pi] == '*' && from <= vi <= |v|
    requires StarFree(p[star + 1..pi]) && pi - (star + 1) == vi - from
    requires Retry(p, v, star, from)
    ensures exists k :: vi <= k <= |v| && Matches(p[pi + 1..], v[k..])
  {
    var k :| from < k <= |v| && Matches(p[star + 1..], v[k..]);
    var q := p[star + 1..pi];
    assert p[star + 1..] == q + p[pi..];
    StarFreePrefix(q, p[pi..], v[k..]);
    var w := v[k..][|q|..];
    assert w == v[k + |q|..] && p[pi..][0] == '*' && p[pi..][1..] == p[pi + 1..];
    var d :| 0 <= d <= |w| && Matches(p[pi + 1..], w[d..]);
    assert w[d..] == v[k + |q| + d..];
  }

  lemma StarStep(p: string, v: string, pi: nat, vi: nat)
    requires pi < |p| && p[pi] == '*' && vi <= |v|
    ensures Matches(p[pi..], v[vi..]) <==> Matches(p[pi + 1..], v[vi..]) || Retry(p, v, pi, vi)
  {
    assert p[pi..][0] == '*' && p[pi..][1..] == p[pi + 1..];
    if Matches(p[pi..], v[vi..]) {
      var d :| 0 <= d <= |v[vi..]| && Matches(p[pi + 1..], v[vi..][d..]);
      assert v[vi..][d..] == v[vi + d..];
    }
    if Matches(p[pi + 1..], v[vi..]) { assert v[vi..][0..] == v[vi..]; }
    if k :| vi < k <= |v| && Matches(p[pi + 1..], v[k..]) { assert v[vi..][k - vi..] == v[k..]; }
  }

  /** At the end of the value no retry is left: the literal part after the star no longer fits. */
  lemma NoRetryAtEnd(p: string, v: string, star: int, from: nat, pi: nat)
    requires -1 <= star < pi <= |p| && from <= |v|
    requires star >= 0 ==> StarFree(p[star + 1..pi]) && pi - (star + 1) == |v| - from
    ensures !Retry(p, v, star, from)
  {
    if star >= 0 && exists k :: from < k <= |v| && Matches(p[star + 1..], v[k..]) {
      var k :| from < k <= |v| && Matches(p[star + 1..], v[k..]);
      assert p[star + 1..] == p[star + 1..pi] + p[pi..];
      StarFreePrefix(p[star + 1..pi], p[pi..], v[k..]);
    }
  }

  lemma RetryNext(p: string, v: string, star: int, from: nat)
    requires 0 <= star < |p| && from < |v|
    ensures Retry(p, v, star, from) <==> Matches(p[star + 1..], v[from + 1..]) || Retry(p, v, star, from + 1)
  {
  }

  /** What the matcher knows: the match is the current attempt or a retry of the last star, whose literal tail so far
      covers exactly the characters since its anchor. */
  predicate Tracks(p: string, v: string, pi: nat, vi: nat, star: int, from: nat)
  {
    && pi <= |p| && from <= vi <= |v| && -1 <= star < pi
    && (star >= 0 ==> StarFree(p[star + 1..pi]) && pi - (star + 1) == vi - from)
    && (Matches(p, v) <==> Matches(p[pi..], v[vi..]) || Retry(p, v, star, from))
  }

  predicate Same(p: string, v: string, pi: nat, vi: nat)
    requires vi < |v|
  {
    pi < |p| && p[pi] != '*' && SameLetter(p[pi], v[vi])
  }

  lemma LiteralStep(p: string, v: string, pi: nat, vi: nat, star: int, from: nat)
    requires Tracks(p, v, pi, vi, star, from) && vi < |v| && Same(p, v, pi, vi)
    ensures Tracks(p, v, pi + 1, vi + 1, star, from)
  {
    hide Retry;
    assert p[pi..][1..] == p[pi + 1..] && v[vi..][1..] == v[vi + 1..];
    if star >= 0 { assert p[star + 1..pi + 1] == p[star + 1..pi] + [p[pi]]; }
  }

  lemma ReachStar(p: string, v: string, pi: nat, vi: nat, star: int, from: nat)
    requires Tracks(p, v, pi, vi, star, from) && vi < |v| && pi < |p| && p[pi] == '*'
    ensures Tracks(p, v, pi + 1, vi, pi, vi)
  {
    StarStep(p, v, pi, vi);
    hide Matches;
    if Retry(p, v, star, from) {
      LaterStarIsEnough(p, v, star, from, pi, vi);
      var k :| vi <= k <= |v| && Matches(p[pi + 1..], v[k..]);
      assert k == vi || Retry(p, v, pi, vi);
    }
  }

  lemma Backtrack(p: string, v: string, pi: nat, vi: nat, star: int, from: nat)
    requires Tracks(p, v, pi, vi, star, from) && vi < |v| && !Same(p, v, pi, vi) && !(pi < |p| && p[pi] == '*')
    ensures star < 0 ==> !Matches(p, v)
    ensures star >= 0 ==> Tracks(p, v, star + 1, from + 1, star, from + 1)
  {
    assert !Matches(p[pi..], v[vi..]) by { if pi < |p| { assert p[pi..][0] == p[pi] && v[vi..][0] == v[vi]; } }
    hide Matches;
    if star >= 0 { RetryNext(p, v, star, from); }
  }

  lemma AtEnd(p: string, v: string, pi: nat, star: int, from: nat)
    requires Tracks(p, v, pi, |v|, star, from)
    ensures Matches(p, v) <==> Matches(p[pi..], "")
  {
    hide Matches;
    NoRetryAtEnd(p, v, star, from, pi);
    assert v[|v|..] == "";
  }

  lemma TrailingStar(p: string, pi: nat)
    requires pi < |p| && p[pi] == '*'
    ensures Matches(p[pi..], "") <==> Matches(p[pi + 1..], "")
  {
    StarStep(p, "", pi, 0);
  }

  lemma EndOfPattern(p: string, pi: nat)
    requires pi <= |p| && (pi < |p| ==> p[pi] != '*')
    ensures Matches(p[pi..], "") <==> pi == |p|
  {
  }

  /** The greedy matcher, which remembers only the last star, decides the language for all strings. */
  method GlobMatches(pattern: string, value: string) returns (r: bool)
    ensures r <==> Matches(pattern, value)
  {
    hide Matches, Retry, StarFree, SameLetter, Lower;
    var pi, vi, star, from := 0, 0, -1, 0;
    assert Tracks(pattern, value, 0, 0, -1, 0) by { Begins(pattern, value); }
    while vi < |value|
      invariant 0 <= pi <= |pattern| && 0 <= from <= vi <= |value| && -1 <= star < pi
      invariant Tracks(pattern, value, pi, vi, star, from)
      decreases |pattern| - star, |value| - from, |value| - vi
    {
      if pi < |pattern| { LowerMeans(pattern[pi], value[vi]); }
      if pi < |pattern| && pattern[pi] != '*' && Lower(pattern[pi]) == Lower(value[vi]) {
        LiteralStep(pattern, value, pi, vi, star, from);
        pi, vi := pi + 1, vi + 1;
      } else if pi < |pattern| && pattern[pi] == '*' {
        ReachStar(pattern, value, pi, vi, star, from);
        star, from := pi, vi;
        pi := pi + 1;
      } else {
        Backtrack(pattern, value, pi, vi, star, from);
        if star < 0 { return false; }
        pi, from := star + 1, from + 1;
        vi := from;
      }
    }
    AtEnd(pattern, value, pi, star, from);
    while pi < |pattern| && pattern[pi] == '*'
      invariant 0 <= pi <= |pattern|
      invariant Matches(pattern, value) <==> Matches(pattern[pi..], "")
    {
      TrailingStar(pattern, pi);
      pi := pi + 1;
    }
    EndOfPattern(pattern, pi);
    r := pi == |pattern|;
  }

  lemma Begins(p: string, v: string)
    ensures Tracks(p, v, 0, 0, -1, 0)
  {
    assert p[0..] == p && v[0..] == v;
  }
}
