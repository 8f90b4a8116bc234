/** Sums of a weight over the elements of a sequence. */
module Totals {

  ghost function Total<T>(items: seq<T>, weight: T -> nat): nat {
    if items == [] then 0 else Total(items[..|items| - 1], weight) + weight(items[|items| - 1])
  }

  lemma {:induction false} TotalUpdate<T>(items: seq<T>, i: nat, x: T, weight: T -> nat)
    requires i < |items|
    ensures Total(items[i := x], weight) == Total(items, weight) - weight(items[i]) + weight(x)
    ensures weight(items[i]) <= Total(items, weight)
  {
    var n := |items| - 1;
    if i == n {
      assert items[i := x][..n] == items[..n];
    } else {
      assert items[i := x][..n] == items[..n][i := x];
      TotalUpdate(items[..n], i, x, weight);
    }
  }

  lemma TotalAppend<T>(items: seq<T>, x: T, weight: T -> nat)
    ensures Total(items + [x], weight) == Total(items, weight) + weight(x)
  {
    assert (items + [x])[..|items|] == items;
  }

  /** Pointwise domination, where the left list may be a prefix-sized one. */
  lemma {:induction false} TotalBounded<T>(left: seq<T>, leftWeight: T -> nat, right: seq<T>, rightWeight: T -> nat)
    requires |left| <= |right|
    requires forall i :: 0 <= i < |left| ==> leftWeight(left[i]) <= rightWeight(right[i])
    ensures Total(left, leftWeight) <= Total(right, rightWeight)
  {
    if right != [] {
      var n := |right| - 1;
      if |left| == |right| {
        assert forall i :: 0 <= i < n ==> left[..n][i] == left[i] && right[..n][i] == right[i];
        TotalBounded(left[..n], leftWeight, right[..n], rightWeight);
      } else {
        assert forall i :: 0 <= i < n ==> right[..n][i] == right[i];
        TotalBounded(left, leftWeight, right[..n], rightWeight);
      }
    }
  }

  /** The total of a sum of two weights. */
  lemma {:induction false} TotalSum<T>(items: seq<T>, a: T -> nat, b: T -> nat, c: T -> nat)
    requires forall i :: 0 <= i < |items| ==> c(items[i]) == a(items[i]) + b(items[i])
    ensures Total(items, c) == Total(items, a) + Total(items, b)
  {
    if items != [] {
      var n := |items| - 1;
      assert forall i :: 0 <= i < n ==> items[..n][i] == items[i];
      TotalSum(items[..n], a, b, c);
    }
  }

  /** The multiset union of what each element contributes. */
  ghost function Bag<T, E>(items: seq<T>, entry: T -> multiset<E>): multiset<E> {
    if items == [] then multiset{} else Bag(items[..|items| - 1], entry) + entry(items[|items| - 1])
  }

  lemma {:induction false} BagUpdate<T, E>(items: seq<T>, i: nat, x: T, entry: T -> multiset<E>)
    requires i < |items|
    ensures entry(items[i]) <= Bag(items, entry)
    ensures Bag(items[i := x], entry) == Bag(items, entry) - entry(items[i]) + entry(x)
  {
    var n := |items| - 1;
    if i == n {
      assert items[i := x][..n] == items[..n];
    } else {
      assert items[i := x][..n] == items[..n][i := x];
      BagUpdate(items[..n], i, x, entry);
    }
  }

  lemma BagUnchanged<T, E>(items: seq<T>, i: nat, x: T, entry: T -> multiset<E>)
    requires i < |items| && entry(x) == entry(items[i])
    ensures Bag(items[i := x], entry) == Bag(items, entry)
  {
    BagUpdate(items, i, x, entry);
    assert Bag(items, entry) - entry(items[i]) + entry(items[i]) == Bag(items, entry);
  }

  lemma BagAppend<T, E>(items: seq<T>, x: T, entry: T -> multiset<E>)
    ensures Bag(items + [x], entry) == Bag(items, entry) + entry(x)
  {
    assert (items + [x])[..|items|] == items;
  }

  lemma {:induction false} BagSize<T, E>(items: seq<T>, entry: T -> multiset<E>, weight: T -> nat)
    requires forall i :: 0 <= i < |items| ==> |entry(items[i])| == weight(items[i])
    ensures |Bag(items, entry)| == Total(items, weight)
  {
    if items != [] {
      var n := |items| - 1;
      assert forall i :: 0 <= i < n ==> items[..n][i] == items[i];
      BagSize(items[..n], entry, weight);
    }
  }
}
