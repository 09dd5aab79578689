/** Sets of the numbers below a bound. */
module Counting {
  function Below(n: nat): (r: set<nat>)
    ensures |r| == n && forall x: nat :: x in r <==> x < n
  {
    if n == 0 then {} else Below(n - 1) + {n - 1}
  }

  lemma {:induction false} SubsetSize(a: set<nat>, n: nat)
    requires forall x <- a :: x < n
    ensures |a| <= n && (|a| == n <==> forall x: nat :: x < n ==> x in a)
  {
    if n > 0 {
      SubsetSize(a - {n - 1}, n - 1);
      if n - 1 in a {
        assert |a - {n - 1}| == |a| - 1;
      } else {
        assert a - {n - 1} == a;
      }
    }
  }
}
