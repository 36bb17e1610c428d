/** Sizes of finite sets. */
module SetFacts {
  lemma SubsetSize<T>(a: set<T>, b: set<T>)
    requires a <= b
    ensures |a| <= |b|
  {
    if a != {} {
      var x :| x in a;
      SubsetSize(a - {x}, b - {x});
    }
  }

  lemma Pick<T>(s: set<T>) returns (x: T)
    requires s != {}
    ensures x in s
  {
    x :| x in s;
  }

  lemma Least(s: set<int>) returns (lo: int)
    requires s != {}
    ensures lo in s && forall i :: i in s ==> lo <= i
  {
    lo := Pick(s);
    if s != {lo} {
      var x := lo;
      var rest := Least(s - {x});
      lo := if rest < x then rest else x;
      assert forall i :: i in s ==> i in s - {x} || i == x;
    }
  }
}
