/** Facts about finite sets. */
module Sets {
  lemma {:induction false} SubsetIsSmaller<T>(a: set<T>, b: set<T>)
    requires a <= b
    ensures |a| <= |b|
  {
    if a != {} {
      var x :| x in a;
      SubsetIsSmaller(a - {x}, b - {x});
    }
  }

  lemma ProperSubsetIsSmaller<T>(a: set<T>, b: set<T>)
    requires a < b
    ensures |a| < |b|
  {
    var x :| x in b && x !in a;
    SubsetIsSmaller(a, b - {x});
  }

  lemma {:induction false} UpperBound(s: set<nat>) returns (m: nat)
    ensures forall i :: i in s ==> i < m
  {
    m := 0;
    if s != {} {
      var x :| x in s;
      var n := UpperBound(s - {x});
      m := if x < n then n else x + 1;
      assert s == (s - {x}) + {x};
    }
  }
}
