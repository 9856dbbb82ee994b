/** The glob patterns of the Redis KEYS command, restricted to `*`, `?` and literal characters. */
module Glob {

  /** `*` matches any run of characters, `?` any one character, anything else itself. */
  predicate Match(p: string, s: string)
    decreases |p| + |s|
  {
    if p == [] then s == []
    else if p[0] == '*' then Match(p[1..], s) || (s != [] && Match(p, s[1..]))
    else s != [] && (p[0] == '?' || p[0] == s[0]) && Match(p[1..], s[1..])
  }

  /** A pattern piece with no wildcard matches only itself. */
  predicate NoMeta(p: string) {
    forall k :: 0 <= k < |p| ==> p[k] != '*' && p[k] != '?'
  }

  /** A key matched by `p + q`, where `p` has no wildcard, starts with `p`. */
  lemma {:induction false} LiteralPrefix(p: string, q: string, s: string)
    requires NoMeta(p) && Match(p + q, s)
    ensures |p| <= |s| && s[..|p|] == p
    decreases |p|
  {
    if p != [] {
      var pq := p + q;
      assert pq[0] == p[0] && pq[1..] == p[1..] + q;
      LiteralPrefix(p[1..], q, s[1..]);
      assert s == [s[0]] + s[1..];
    }
  }

  /** `*` matches every key. */
  lemma StarMatchesAll(s: string)
    ensures Match("*", s)
    decreases |s|
  {
    if s != [] {
      StarMatchesAll(s[1..]);
    }
  }
}
