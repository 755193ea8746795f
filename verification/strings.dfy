/** Facts about slicing concatenated strings, shared by the text-building modules. */
module Strings {

  /** Slicing after a prefix is slicing the rest. */
  lemma SliceShift(x: string, rest: string, a: nat, b: nat)
    requires a <= b <= |rest|
    ensures (x + rest)[|x| + a..|x| + b] == rest[a..b]
  {
    assert (x + rest)[|x|..] == rest;
  }

  /** The middle part of a three-part concatenation. */
  lemma MiddleOf(a: string, b: string, c: string)
    ensures (a + b + c)[|a|..|a| + |b|] == b
  {
    assert (a + b + c)[|a|..] == b + c;
  }

  /** A slice of a slice is a slice. */
  lemma SliceOfSlice(c: string, s: nat, b: string, x: nat, y: nat)
    requires s + |b| <= |c| && c[s..s + |b|] == b && x <= y <= |b|
    ensures c[s + x..s + y] == b[x..y]
  {
    forall k | 0 <= k < y - x
      ensures c[s + x..s + y][k] == b[x..y][k]
    {
      assert c[s..s + |b|][x + k] == c[s + x + k];
    }
  }

  /** Where `x + y + z` stands in `c` at `s`, `y` stands at `s + |x|`. */
  lemma MiddleAt(c: string, s: nat, x: string, y: string, z: string)
    requires s + |x + y + z| <= |c| && c[s..s + |x + y + z|] == x + y + z
    ensures c[s + |x|..s + |x| + |y|] == y
  {
    MiddleOf(x, y, z);
    SliceOfSlice(c, s, x + y + z, |x|, |x| + |y|);
  }

  /** Where `a + b + m + d + e` stands in `c` at `s`, each of the five pieces stands at its own offset. */
  lemma FivePiecesAt(c: string, s: nat, a: string, b: string, m: string, d: string, e: string)
    requires s + |a + b + m + d + e| <= |c| && c[s..s + |a + b + m + d + e|] == a + b + m + d + e
    ensures var t := s + |a|; var u := t + |b| + |m|; var v := u + |d|;
      && c[s..t] == a && c[t..t + |b|] == b && c[t + |b|..u] == m && c[u..v] == d && c[v..v + |e|] == e
  {
    var w := a + b + m + d + e;
    assert w == [] + a + (b + m + d + e);
    MiddleAt(c, s, [], a, b + m + d + e);
    assert w == a + b + (m + d + e);
    MiddleAt(c, s, a, b, m + d + e);
    assert w == (a + b) + m + (d + e);
    MiddleAt(c, s, a + b, m, d + e);
    MiddleAt(c, s, a + b + m, d, e);
    assert w == (a + b + m + d) + e + [];
    MiddleAt(c, s, a + b + m + d, e, []);
  }

  /** In `prefix + body + suffix`, the three parts stand where their lengths put them. */
  lemma WrapSlices(prefix: string, body: string, suffix: string)
    ensures var m := prefix + body + suffix;
      && |m| == |prefix| + |body| + |suffix|
      && m[..|prefix|] == prefix
      && m[|prefix|..|m| - |suffix|] == body
      && m[|m| - |suffix|..] == suffix
  {
    var m := prefix + body + suffix;
    assert m[..|prefix|] == prefix;
    assert m[|prefix|..|m| - |suffix|] == body;
    assert m[|m| - |suffix|..] == suffix;
  }

  /** A string that starts with `prefix` and ends with `suffix` (not overlapping) is the two around its middle. */
  lemma UnwrapSlices(prefix: string, suffix: string, m: string)
    requires |prefix| + |suffix| <= |m|
    requires m[..|prefix|] == prefix && m[|m| - |suffix|..] == suffix
    ensures m == prefix + m[|prefix|..|m| - |suffix|] + suffix
  {
    assert m == m[..|prefix|] + m[|prefix|..|m| - |suffix|] + m[|m| - |suffix|..];
  }

  /**
   * In `(pre + begin + nl) + body + (nl + end + post)`, each piece stands at
   * the offset the pieces before it add up to.
   */
  lemma EnvelopeLayout(pre: string, begin: string, nl: string, body: string, end: string, post: string)
    ensures var m, k := (pre + begin + nl) + body + (nl + end + post), |pre| + |begin|;
      && k + 2 * |nl| + |body| + |end| <= |m|
      && m[|pre|..k] == begin
      && m[k..k + |nl|] == nl
      && m[k + |nl|..k + |nl| + |body|] == body
      && m[k + |nl| + |body|..k + 2 * |nl| + |body|] == nl
      && m[k + 2 * |nl| + |body|..k + 2 * |nl| + |body| + |end|] == end
  {
    var a, c := pre + begin + nl, nl + end + post;
    var m := a + body + c;
    var k := |pre| + |begin|;
    WrapSlices(a, body, c);
    assert m[0..|a|] == a;
    MiddleOf(pre, begin, nl);
    assert a[k..|a|] == nl;
    SliceOfSlice(m, 0, a, |pre|, k);
    SliceOfSlice(m, 0, a, k, |a|);
    MiddleOf(nl, end, post);
    assert c[..|nl|] == nl;
    SliceOfSlice(m, |a| + |body|, c, 0, |nl|);
    SliceOfSlice(m, |a| + |body|, c, |nl|, |nl| + |end|);
  }
}
