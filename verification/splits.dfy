/** The 80/20 train/test rule both data scripts use, `int(n * 0.8)`, in its
    two forms: slicing a list at the split index (organize_data.py) and
    routing item i by comparing it with the split index (data_loader.py). */
module Splits {
  import opened Waste

  /** `int(n * 0.8)`: the largest k with 5k <= 4n. */
  function TrainCount(n: nat): (k: nat)
    ensures k <= n
    ensures 5 * k <= 4 * n < 5 * k + 5
  {
    (4 * n) / 5
  }

  /** `images[:split_idx]` and `images[split_idx:]`. */
  function Partition<T>(xs: seq<T>): (r: (seq<T>, seq<T>))
    ensures r.0 + r.1 == xs
    ensures |r.0| == TrainCount(|xs|)
  {
    var k := TrainCount(|xs|);
    (xs[..k], xs[k..])
  }

  /** `"train" if i < train_count else "test"`, for item i of n. */
  function Route(i: nat, n: nat): (s: Split)
    ensures s == Train <==> i < TrainCount(n)
  {
    if i < TrainCount(n) then Train else Test
  }

  /** The items routed to `split`, in their original order. */
  function Routed<T>(xs: seq<T>, split: Split, n: nat, offset: nat): seq<T>
    decreases |xs|
  {
    if |xs| == 0 then []
    else
      var here := if Route(offset, n) == split then [xs[0]] else [];
      here + Routed(xs[1..], split, n, offset + 1)
  }

  lemma {:induction false} RoutedAll<T>(xs: seq<T>, split: Split, n: nat, offset: nat)
    requires forall i :: offset <= i < offset + |xs| ==> Route(i, n) == split
    ensures Routed(xs, split, n, offset) == xs
    decreases |xs|
  {
    if |xs| > 0 {
      RoutedAll(xs[1..], split, n, offset + 1);
      assert [xs[0]] + xs[1..] == xs;
    }
  }

  lemma {:induction false} RoutedNone<T>(xs: seq<T>, split: Split, n: nat, offset: nat)
    requires forall i :: offset <= i < offset + |xs| ==> Route(i, n) != split
    ensures Routed(xs, split, n, offset) == []
    decreases |xs|
  {
    if |xs| > 0 {
      RoutedNone(xs[1..], split, n, offset + 1);
    }
  }

  lemma {:induction false} RoutedAppend<T>(xs: seq<T>, ys: seq<T>, split: Split, n: nat, offset: nat)
    ensures Routed(xs + ys, split, n, offset) == Routed(xs, split, n, offset) + Routed(ys, split, n, offset + |xs|)
    decreases |xs|
  {
    if |xs| > 0 {
      assert (xs + ys)[1..] == xs[1..] + ys;
      RoutedAppend(xs[1..], ys, split, n, offset + 1);
    } else {
      assert xs + ys == ys;
    }
  }

  /** The index rule and the slicing rule agree: routing every item of a
      list by its index sends exactly the slice's train part to train and
      its test part to test, each in the original order. */
  lemma {:induction false} RouteAgreesWithPartition<T>(xs: seq<T>)
    ensures Routed(xs, Train, |xs|, 0) == Partition(xs).0
    ensures Routed(xs, Test, |xs|, 0) == Partition(xs).1
  {
    var k := TrainCount(|xs|);
    var train, test := xs[..k], xs[k..];
    assert train + test == xs;
    RoutedAppend(train, test, Train, |xs|, 0);
    RoutedAppend(train, test, Test, |xs|, 0);
    RoutedAll(train, Train, |xs|, 0);
    RoutedNone(train, Test, |xs|, 0);
    RoutedNone(test, Train, |xs|, k);
    RoutedAll(test, Test, |xs|, k);
  }
}
