/** Lists in strictly increasing order of a key. */
module Ordered {
  ghost predicate Increasing<T>(s: seq<T>, key: T -> int) {
    forall i, j :: 0 <= i < j < |s| ==> key(s[i]) < key(s[j])
  }

  lemma LastIsLargest<T(!new)>(s: seq<T>, key: T -> int)
    requires s != [] && Increasing(s, key)
    ensures var init, last := s[..|s| - 1], s[|s| - 1];
            s == init + [last] && Increasing(init, key) && forall x :: x in init ==> key(x) < key(last)
  {
    var init, last := s[..|s| - 1], s[|s| - 1];
    forall x | x in init ensures key(x) < key(last) {
      var i :| 0 <= i < |init| && init[i] == x;
      assert key(s[i]) < key(last);
    }
  }

  /** Such a list is determined by its members. */
  lemma {:induction false} SameMembers<T(!new)>(a: seq<T>, b: seq<T>, key: T -> int)
    requires Increasing(a, key) && Increasing(b, key)
    requires forall x :: x in a <==> x in b
    ensures a == b
  {
    assert a != [] ==> a[0] in b;
    assert b != [] ==> b[0] in a;
    if a != [] {
      var x, y := a[|a| - 1], b[|b| - 1];
      LastIsLargest(a, key);
      LastIsLargest(b, key);
      assert x in b && y in a;
      assert x == y;
      var a', b' := a[..|a| - 1], b[..|b| - 1];
      forall z ensures z in a' <==> z in b' {
        assert z in a' ==> z in a && z != x;
        assert z in b' ==> z in b && z != y;
      }
      SameMembers(a', b', key);
    }
  }
}
