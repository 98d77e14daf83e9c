/** Facts about sets that several modules use. */
module Collections {

  lemma SomeOf<T(!new)>(s: set<T>) returns (x: T)
    requires s != {}
    ensures x in s
  {
    x :| x in s;
  }

  lemma Another<T(!new)>(s: set<T>, x: T) returns (y: T)
    requires x in s && s != {x}
    ensures y in s && y != x
  {
    y := SomeOf(s - {x});
  }

  lemma SubsetSize<T>(a: set<T>, b: set<T>)
    requires a <= b
    ensures |a| <= |b|
  {
    assert b == a + (b - a);
    assert |b| == |a| + |b - a|;
  }
}
