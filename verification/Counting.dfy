/** Two facts about finite sets that counting arguments need. */
module Counting {
  lemma {:induction false} SubsetSize<T>(small: set<T>, large: set<T>)
    requires small <= large
    ensures |small| <= |large|
    ensures |small| == |large| ==> small == large
  {
    if small != {} {
      var x :| x in small;
      SubsetSize(small - {x}, large - {x});
    }
  }

  // The n integers from lo on.
  function Range(lo: int, n: nat): (r: set<int>)
    ensures forall x :: x in r <==> lo <= x < lo + n
    ensures |r| == n
  {
    if n == 0 then {} else Range(lo, n - 1) + {lo + n - 1}
  }
}
