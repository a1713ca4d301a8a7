/** Keys made by joining ids with a separator that starts with a colon. */
module JoinedKeys {
  predicate NoColon(s: string) {
    ':' !in s
  }

  /** Of two ways to split a key, the longer first part holds a colon. */
  lemma ColonInside(a: string, x: string, b: string, y: string, sep: string)
    requires sep != "" && sep[0] == ':'
    requires a + sep + x == b + sep + y && |b| < |a|
    ensures ':' in a
  {
    assert (b + sep + y)[|b|] == ':';
    assert a[|b|] == (a + sep + x)[|b|];
  }

  /** With no colon in the first part there is one way to split. */
  lemma SplitsOneWay(a: string, x: string, b: string, y: string, sep: string)
    requires sep != "" && sep[0] == ':'
    requires NoColon(a) && NoColon(b) && a + sep + x == b + sep + y
    ensures a == b && x == y
  {
    if |b| < |a| { ColonInside(a, x, b, y, sep); }
    if |a| < |b| { ColonInside(b, y, a, x, sep); }
    assert a == (a + sep + x)[..|a|] && b == (b + sep + y)[..|b|];
    assert x == (a + sep + x)[|a| + |sep|..] && y == (b + sep + y)[|b| + |sep|..];
  }

  lemma SplitAtColon(s: string) returns (x: string, y: string)
    requires !NoColon(s)
    ensures s == x + ":" + y
  {
    var i :| 0 <= i < |s| && s[i] == ':';
    x, y := s[..i], s[i + 1..];
  }
}
