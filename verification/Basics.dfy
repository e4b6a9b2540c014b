/** Small facts about sequences and sets that every other module uses. */
module Basics {
  datatype Option<+T> = None | Some(value: T)

  /** The sequence without its element at position `p`. */
  function RemoveAt<T>(xs: seq<T>, p: nat): (r: seq<T>)
    requires p < |xs|
    ensures |r| == |xs| - 1
    ensures multiset(xs) == multiset(r) + multiset{xs[p]}
    ensures forall x :: x in r ==> x in xs
  {
    assert xs == xs[..p] + [xs[p]] + xs[p + 1..];
    xs[..p] + xs[p + 1..]
  }

  /** Dropping a shared element from both sides keeps multiset inclusion. */
  lemma PopShared<T>(init: seq<T>, ys: seq<T>, p: nat)
    requires p < |ys|
    requires multiset(init + [ys[p]]) <= multiset(ys)
    ensures multiset(init) <= multiset(RemoveAt(ys, p))
  {
    var rest := RemoveAt(ys, p);
    forall x ensures multiset(init)[x] <= multiset(rest)[x] {
      assert multiset(init + [ys[p]])[x] <= multiset(ys)[x];
    }
  }

  lemma MultisetPrefix<T>(xs: seq<T>, more: seq<T>, all: seq<T>)
    requires multiset(xs + more) <= multiset(all)
    ensures multiset(xs) <= multiset(all)
  {
    forall x ensures multiset(xs)[x] <= multiset(all)[x] {
      assert multiset(xs + more)[x] <= multiset(all)[x];
    }
  }

  /** A set of numbers below `n` that has `n` elements holds them all. */
  lemma {:induction false} FullSet(s: set<nat>, n: nat)
    requires forall x :: x in s ==> x < n
    requires |s| == n
    ensures forall x: nat :: x < n ==> x in s
  {
    if n > 0 {
      if n - 1 in s {
        FullSet(s - {n - 1}, n - 1);
      } else {
        SmallSet(s, n - 1);
      }
    }
  }

  lemma {:induction false} SmallSet(s: set<nat>, n: nat)
    requires forall x :: x in s ==> x < n
    ensures |s| <= n
  {
    if n == 0 {
      assert s == {};
    } else {
      SmallSet(s - {n - 1}, n - 1);
      assert s <= (s - {n - 1}) + {n - 1};
    }
  }

  /** Conversely, a set that holds exactly the numbers below `n` has `n` elements. */
  lemma {:induction false} CountsAll(s: set<nat>, n: nat)
    requires forall x: nat :: x in s <==> x < n
    ensures |s| == n
  {
    if n == 0 {
      assert s == {};
    } else {
      CountsAll(s - {n - 1}, n - 1);
    }
  }

  /** `n - 1` distinct peers of `k` among `n` shards are all of them. */
  lemma AllPeers(s: set<nat>, k: nat, n: nat)
    requires k < n && k !in s
    requires forall x :: x in s ==> x < n
    requires |s| == n - 1
    ensures forall x: nat :: x < n && x != k ==> x in s
  {
    FullSet(s + {k}, n);
  }
}
