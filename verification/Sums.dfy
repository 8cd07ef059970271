/** Sums over sequences. */
module Sums {

  function Sum<T>(items: seq<T>, weight: T -> nat): nat {
    if items == [] then 0 else Sum(items[..|items| - 1], weight) + weight(items[|items| - 1])
  }

  lemma {:induction false} SumOfUpdate<T>(items: seq<T>, weight: T -> nat, i: nat, x: T)
    requires i < |items|
    ensures Sum(items[i := x], weight) == Sum(items, weight) - weight(items[i]) + weight(x)
  {
    var last := |items| - 1;
    if i == last {
      assert items[i := x][..last] == items[..last];
    } else {
      assert items[i := x][..last] == items[..last][i := x];
      SumOfUpdate(items[..last], weight, i, x);
    }
  }

  /** The places whose item weighs 1, when every other item weighs 0. */
  lemma {:induction false} SumIsCount<T>(items: seq<T>, weight: T -> nat, places: set<int>)
    requires forall k :: k in places ==> 0 <= k < |items|
    requires forall k | 0 <= k < |items| :: weight(items[k]) == if k in places then 1 else 0
    ensures Sum(items, weight) == |places|
  {
    if items == [] {
      forall k
        ensures k !in places
      {
      }
    } else {
      var last := |items| - 1;
      SumIsCount(items[..last], weight, places - {last});
      if last in places {
        assert |places| == |places - {last}| + 1;
      } else {
        assert places - {last} == places;
      }
    }
  }

  lemma {:induction false} SumOfEqual<T>(items: seq<T>, weight: T -> nat, w: nat)
    requires forall i | 0 <= i < |items| :: weight(items[i]) == w
    ensures Sum(items, weight) == w * |items|
  {
    if items != [] {
      SumOfEqual(items[..|items| - 1], weight, w);
    }
  }

  lemma {:induction false} SumAtMost<T>(items: seq<T>, weight: T -> nat, w: nat)
    requires forall i | 0 <= i < |items| :: weight(items[i]) <= w
    ensures Sum(items, weight) <= w * |items|
  {
    if items != [] {
      SumAtMost(items[..|items| - 1], weight, w);
      assert w * |items| == w * (|items| - 1) + w;
    }
  }

  lemma {:induction false} SumOfPointwise<T>(items: seq<T>, items': seq<T>, weight: T -> nat)
    requires |items| == |items'| && forall k | 0 <= k < |items| :: weight(items[k]) == weight(items'[k])
    ensures Sum(items, weight) == Sum(items', weight)
  {
    if items != [] {
      SumOfPointwise(items[..|items| - 1], items'[..|items'| - 1], weight);
    }
  }

  /** Two weights that differ by one at one place. */
  lemma {:induction false} SumOfOneMore<T>(items: seq<T>, weight: T -> nat, weight': T -> nat, i: nat)
    requires i < |items| && weight'(items[i]) == weight(items[i]) + 1
    requires forall k | 0 <= k < |items| && k != i :: weight'(items[k]) == weight(items[k])
    ensures Sum(items, weight') == Sum(items, weight) + 1
  {
    var last := |items| - 1;
    if i == last {
      SumOfSameWeights(items[..last], weight, weight');
    } else {
      SumOfOneMore(items[..last], weight, weight', i);
    }
  }

  lemma {:induction false} SumOfSameWeights<T>(items: seq<T>, weight: T -> nat, weight': T -> nat)
    requires forall k | 0 <= k < |items| :: weight'(items[k]) == weight(items[k])
    ensures Sum(items, weight') == Sum(items, weight)
  {
    if items != [] {
      SumOfSameWeights(items[..|items| - 1], weight, weight');
    }
  }

  lemma {:induction false} SumOfConcat<T>(a: seq<T>, b: seq<T>, weight: T -> nat)
    ensures Sum(a + b, weight) == Sum(a, weight) + Sum(b, weight)
  {
    if b == [] {
      assert a + b == a;
    } else {
      assert (a + b)[..|a + b| - 1] == a + b[..|b| - 1];
      SumOfConcat(a, b[..|b| - 1], weight);
    }
  }
}
