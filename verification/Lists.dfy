/** Lists without repetition, in the order of first appearance (`Array.from(new Set(values))`),
    and sums over lists. */
module Lists {
  function Unique<T(==, !new)>(values: seq<T>): (r: seq<T>)
    ensures forall x :: x in r <==> x in values
    ensures Distinct(r)
  {
    if values == [] then []
    else
      var (rest, last) := (Unique(values[..|values| - 1]), values[|values| - 1]);
      if last in rest then rest else rest + [last]
  }

  predicate Distinct<T(==)>(values: seq<T>) {
    forall i, j :: 0 <= i < j < |values| ==> values[i] != values[j]
  }

  lemma UniqueMore<T(!new)>(values: seq<T>, x: T)
    ensures Unique(values + [x]) == if x in values then Unique(values) else Unique(values) + [x]
  {
    assert (values + [x])[..|values|] == values;
  }

  // Values seen before leave no trace.
  lemma {:induction false} UniqueConcat<T(!new)>(a: seq<T>, b: seq<T>)
    ensures Unique(Unique(a) + b) == Unique(a + b)
  {
    hide Unique;
    if b == [] {
      assert Unique(a) + [] == Unique(a) && a + [] == a;
      UniqueTwice(a);
    } else {
      var (init, last) := (b[..|b| - 1], b[|b| - 1]);
      UniqueConcat(a, init);
      UniqueMore(Unique(a) + init, last);
      UniqueMore(a + init, last);
      assert Unique(a) + b == Unique(a) + init + [last] && a + b == a + init + [last];
    }
  }

  lemma {:induction false} UniqueTwice<T(!new)>(a: seq<T>)
    ensures Unique(Unique(a)) == Unique(a)
  {
    DistinctUnique(Unique(a));
  }

  lemma {:induction false} DistinctUnique<T(!new)>(a: seq<T>)
    requires Distinct(a)
    ensures Unique(a) == a
  {
    if a != [] {
      DistinctUnique(a[..|a| - 1]);
      assert a[..|a| - 1] + [a[|a| - 1]] == a;
    }
  }

  // The order is that of the first appearances.
  lemma {:induction false} UniqueOrder<T(!new)>(values: seq<T>, i: int, j: int)
    requires 0 <= i < j < |Unique(values)|
    ensures exists p :: 0 <= p < |values| && values[p] == Unique(values)[i] && Unique(values)[j] !in values[..p + 1]
  {
    var (init, last) := (values[..|values| - 1], values[|values| - 1]);
    var r := Unique(values);
    if last in Unique(init) || j < |Unique(init)| {
      UniqueOrder(init, i, j);
      var p :| 0 <= p < |init| && init[p] == r[i] && r[j] !in init[..p + 1];
      assert values[p] == r[i] && values[..p + 1] == init[..p + 1];
    } else {
      assert r[i] in init;
      var p :| 0 <= p < |init| && init[p] == r[i];
      assert values[p] == r[i] && r[j] !in init && forall k :: 0 <= k <= p ==> values[k] == init[k];
      assert r[j] !in values[..p + 1];
    }
  }

  function Total<T>(values: seq<T>, weight: T -> nat): nat {
    if values == [] then 0 else Total(values[..|values| - 1], weight) + weight(values[|values| - 1])
  }

  lemma TotalMore<T>(values: seq<T>, x: T, weight: T -> nat)
    ensures Total(values + [x], weight) == Total(values, weight) + weight(x)
  {
    assert (values + [x])[..|values|] == values;
  }

  lemma {:induction false} TotalConcat<T>(a: seq<T>, b: seq<T>, weight: T -> nat)
    ensures Total(a + b, weight) == Total(a, weight) + Total(b, weight)
  {
    if b == [] {
      assert a + b == a;
    } else {
      TotalConcat(a, b[..|b| - 1], weight);
      assert (a + b)[..|a + b| - 1] == a + b[..|b| - 1];
    }
  }

  // A sum does not depend on the order.
  lemma {:induction false} TotalPermuted<T>(a: seq<T>, b: seq<T>, weight: T -> nat)
    requires multiset(a) == multiset(b)
    ensures Total(a, weight) == Total(b, weight)
    decreases |a|
  {
    hide Total;
    if a == [] {
      assert |multiset(b)| == |b|;
    } else {
      var (init, last) := (a[..|a| - 1], a[|a| - 1]);
      assert a == init + [last];
      assert last in multiset(b);
      var j :| 0 <= j < |b| && b[j] == last;
      Removed(init, last, b, j);
      TotalPermuted(init, b[..j] + b[j + 1..], weight);
      TotalMore(init, last, weight);
      TotalWithout(b, j, weight);
    }
  }

  lemma Removed<T>(init: seq<T>, last: T, b: seq<T>, j: int)
    requires 0 <= j < |b| && b[j] == last && multiset(init + [last]) == multiset(b)
    ensures multiset(init) == multiset(b[..j] + b[j + 1..])
  {
    var (before, after) := (b[..j], b[j + 1..]);
    assert b == before + [last] + after;
    assert multiset(init) == multiset(init + [last]) - multiset{last};
    assert multiset(before + after) == multiset(b) - multiset{last};
  }

  lemma TotalWithout<T>(values: seq<T>, j: int, weight: T -> nat)
    requires 0 <= j < |values|
    ensures Total(values, weight) == Total(values[..j] + values[j + 1..], weight) + weight(values[j])
  {
    hide Total;
    var (before, after) := (values[..j], values[j + 1..]);
    assert values == before + [values[j]] + after;
    TotalConcat(before + [values[j]], after, weight);
    TotalMore(before, values[j], weight);
    TotalConcat(before, after, weight);
  }
}
