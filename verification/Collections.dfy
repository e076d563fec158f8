/** First and last elements of finite sets of day numbers, sizes of subsets, and one step of a permutation. */
module Collections {

  lemma HasElement(s: set<int>)
    requires s != {}
    ensures exists x :: x in s
  {
    if !exists x :: x in s { assert false; }
  }

  ghost function Latest(s: set<int>): (x: int)
    requires s != {}
    ensures x in s && forall y :: y in s ==> y <= x
  {
    HasElement(s);
    var x :| x in s;
    if s == {x} then x
    else
      var rest := Latest(s - {x});
      assert forall y :: y in s ==> y == x || y in s - {x};
      if x < rest then rest else x
  }

  lemma EarliestExists(s: set<int>)
    requires s != {}
    ensures exists x :: x in s && forall y :: y in s ==> x <= y
  {
    HasElement(s);
    var x :| x in s;
    if s != {x} {
      EarliestExists(s - {x});
      var z :| z in s - {x} && forall y :: y in s - {x} ==> z <= y;
      assert forall y :: y in s ==> y == x || y in s - {x};
      if x < z { assert forall y :: y in s ==> x <= y; } else { assert forall y :: y in s ==> z <= y; }
    }
  }

  ghost function Earliest(s: set<int>): (x: int)
    requires s != {}
    ensures x in s && forall y :: y in s ==> x <= y
  {
    EarliestExists(s);
    var x :| x in s && forall y :: y in s ==> x <= y;
    x
  }

  lemma LatestExists(s: set<int>)
    requires s != {}
    ensures exists x :: x in s && forall y :: y in s ==> y <= x
  {
    var x := Latest(s);
    assert x in s && forall y :: y in s ==> y <= x;
  }

  lemma SmallerSubset<T>(a: set<T>, b: set<T>)
    requires a <= b
    ensures |a| <= |b|
  {
    assert b == a + (b - a);
  }

  /** Taking the last element of `a` out of a permutation of it leaves a permutation of the rest. */
  lemma TakeLast<T>(a: seq<T>, b: seq<T>) returns (k: nat)
    requires a != [] && multiset(a) == multiset(b)
    ensures k < |b| && b[k] == a[|a| - 1]
    ensures multiset(a[..|a| - 1]) == multiset(b[..k] + b[k + 1..])
  {
    var last := a[|a| - 1];
    assert last in multiset(a);
    k :| 0 <= k < |b| && b[k] == last;
    assert a == a[..|a| - 1] + [last];
    assert b == b[..k] + ([last] + b[k + 1..]);
    assert multiset(a) == multiset(a[..|a| - 1]) + multiset{last};
    assert multiset(b) == multiset(b[..k]) + (multiset{last} + multiset(b[k + 1..]));
    assert multiset(b[..k] + b[k + 1..]) == multiset(b[..k]) + multiset(b[k + 1..]);
    Cancel(multiset(a[..|a| - 1]), multiset(b[..k] + b[k + 1..]), last);
  }

  lemma Cancel<T>(p: multiset<T>, q: multiset<T>, x: T)
    requires p + multiset{x} == q + multiset{x}
    ensures p == q
  {
    assert p == (p + multiset{x}) - multiset{x};
    assert q == (q + multiset{x}) - multiset{x};
  }
}
