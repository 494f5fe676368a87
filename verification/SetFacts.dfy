/** Small facts about finite sets that several modules share. */
module SetFacts {

  lemma {:induction false} SubsetIsSmaller<T>(a: set<T>, b: set<T>)
    requires a <= b
    ensures |a| <= |b|
  {
    if a != {} {
      var x :| x in a;
      SubsetIsSmaller(a - {x}, b - {x});
    }
  }

  lemma SomethingElse<T>(s: set<T>, x: T)
    requires |s| >= 2
    ensures exists y :: y in s && y != x
  {
    if s - {x} == {} {
      SubsetIsSmaller(s, {x});
    }
    var y :| y in s - {x};
  }

  lemma SubsetByMembers<T>(a: set<T>, b: set<T>)
    requires forall x :: x in a ==> x in b
    ensures a <= b
  {}

  /** Different members of a set are no more than the set has. */
  lemma {:induction false} NoMoreThan<T>(items: seq<T>, within: set<T>)
    requires forall i :: 0 <= i < |items| ==> items[i] in within
    requires forall i, j :: 0 <= i < j < |items| ==> items[i] != items[j]
    ensures |items| <= |within|
  {
    if items != [] {
      NoMoreThan(items[1..], within - {items[0]});
    }
  }

  /** The order in which a hash is walked: any, but every key once. */
  method HashOrder<T(==)>(keys: set<T>) returns (order: seq<T>)
    ensures forall k :: k in order <==> k in keys
    ensures forall i, j :: 0 <= i < j < |order| ==> order[i] != order[j]
  {
    order := [];
    var rest := keys;
    while rest != {}
      invariant forall k :: k in keys <==> k in order || k in rest
      invariant forall k :: k in order ==> k !in rest
      invariant forall i, j :: 0 <= i < j < |order| ==> order[i] != order[j]
    {
      var k :| k in rest;
      rest := rest - {k};
      order := order + [k];
    }
  }
}
