/** Sorting by a comparison the program supplies, as a permutation of places. */
module Sorting {

  ghost predicate IsOrder(order: seq<nat>, n: nat) {
    && |order| == n && (forall k :: 0 <= k < n ==> order[k] < n)
    && (forall j, k :: 0 <= j < k < n ==> order[j] != order[k])
  }

  /** The comparison behaves on these elements: asymmetric, and "not before" is
      transitive. */
  ghost predicate Behaves<T(!new)>(xs: seq<T>, less: (T, T) -> bool) {
    && (forall a, b {:trigger less(a, b)} :: a in xs && b in xs && less(a, b) ==> !less(b, a))
    && (forall a, b, c {:trigger less(b, a), less(c, b)} :: a in xs && b in xs && c in xs && !less(b, a) && !less(c, b) ==> !less(c, a))
  }

  ghost predicate InOrder<T>(xs: seq<T>, less: (T, T) -> bool, order: seq<nat>)
    requires forall k :: 0 <= k < |order| ==> order[k] < |xs|
  {
    forall j, k :: 0 <= j < k < |order| ==> !less(xs[order[k]], xs[order[j]])
  }

  /** Where the comparison does not put a later element first, the places keep their
      order. */
  ghost predicate Stable<T>(xs: seq<T>, less: (T, T) -> bool, order: seq<nat>)
    requires forall k :: 0 <= k < |order| ==> order[k] < |xs|
  {
    forall j, k :: 0 <= j < k < |order| && order[j] > order[k] ==> less(xs[order[j]], xs[order[k]])
  }

  function Arranged<T>(xs: seq<T>, order: seq<nat>): (s: seq<T>)
    requires forall k :: 0 <= k < |order| ==> order[k] < |xs|
    ensures |s| == |order|
  {
    seq(|order|, k requires 0 <= k < |order| => xs[order[k]])
  }

  /** A stable insertion sort. Any comparison gives a permutation; one that
      behaves gives an ordered one. */
  method Sort<T(!new)>(xs: seq<T>, less: (T, T) -> bool) returns (order: seq<nat>)
    ensures IsOrder(order, |xs|)
    ensures Stable(xs, less, order) && (Behaves(xs, less) ==> InOrder(xs, less, order))
    ensures multiset(Arranged(xs, order)) == multiset(xs)
  {
    hide Arranged, Behaves, InOrder, IsOrder, Stable;
    order := [];
    NothingSorted(xs, less);
    var i := 0;
    while i < |xs|
      invariant i <= |xs| && IsOrder(order, i) && |order| == i && forall k :: 0 <= k < i ==> order[k] < i
      invariant Stable(xs, less, order) && (Behaves(xs, less) ==> InOrder(xs, less, order))
      invariant multiset(Arranged(xs, order)) == multiset(xs[..i])
    {
      var p := i;
      while p > 0 && less(xs[i], xs[order[p - 1]])
        invariant p <= i
        invariant forall k :: p <= k < i ==> less(xs[i], xs[order[k]])
      {
        p := p - 1;
      }
      if Behaves(xs, less) {
        Inserted(xs, less, order, i, p);
      }
      StaysStable(xs, less, order, i, p);
      ArrangedGrows(xs, order, i, p);
      OrderGrows(order, i, p);
      order := order[..p] + [i] + order[p..];
      i := i + 1;
      Places(order, i);
    }
    Places(order, i);
    assert xs[..i] == xs;
  }

  lemma NothingSorted<T(!new)>(xs: seq<T>, less: (T, T) -> bool)
    ensures IsOrder([], 0) && InOrder(xs, less, []) && Stable(xs, less, []) && multiset(Arranged(xs, [])) == multiset(xs[..0])
  {
  }

  lemma Places(order: seq<nat>, n: nat)
    requires IsOrder(order, n)
    ensures |order| == n && forall k :: 0 <= k < n ==> order[k] < n
  {
  }

  lemma OrderGrows(order: seq<nat>, i: nat, p: nat)
    requires IsOrder(order, i) && p <= i
    ensures IsOrder(order[..p] + [i] + order[p..], i + 1)
  {
  }

  lemma ArrangedGrows<T>(xs: seq<T>, order: seq<nat>, i: nat, p: nat)
    requires i < |xs| && p <= |order| && forall k :: 0 <= k < |order| ==> order[k] < |xs|
    requires multiset(Arranged(xs, order)) == multiset(xs[..i])
    ensures forall k :: 0 <= k <= |order| ==> (order[..p] + [i] + order[p..])[k] < |xs|
    ensures multiset(Arranged(xs, order[..p] + [i] + order[p..])) == multiset(xs[..i + 1])
  {
    var s := Arranged(xs, order);
    assert Arranged(xs, order[..p] + [i] + order[p..]) == s[..p] + [xs[i]] + s[p..];
    assert s == s[..p] + s[p..];
    assert xs[..i + 1] == xs[..i] + [xs[i]];
  }

  lemma StaysStable<T>(xs: seq<T>, less: (T, T) -> bool, order: seq<nat>, i: nat, p: nat)
    requires i < |xs| && IsOrder(order, i) && Stable(xs, less, order) && p <= i
    requires forall k :: p <= k < i ==> less(xs[i], xs[order[k]])
    ensures var more := order[..p] + [i] + order[p..];
            (forall k :: 0 <= k < |more| ==> more[k] < |xs|) && Stable(xs, less, more)
  {
  }

  lemma Inserted<T(!new)>(xs: seq<T>, less: (T, T) -> bool, order: seq<nat>, i: nat, p: nat)
    requires i < |xs| && IsOrder(order, i) && Behaves(xs, less) && InOrder(xs, less, order) && p <= i
    requires forall k :: p <= k < i ==> less(xs[i], xs[order[k]])
    requires p > 0 ==> !less(xs[i], xs[order[p - 1]])
    ensures var more := order[..p] + [i] + order[p..];
            (forall k :: 0 <= k < |more| ==> more[k] < |xs|) && InOrder(xs, less, more)
  {
    var more := order[..p] + [i] + order[p..];
    forall j, k | 0 <= j < k < |more|
      ensures !less(xs[more[k]], xs[more[j]])
    {
      if k == p && j < p - 1 {
        assert !less(xs[order[p - 1]], xs[order[j]]);
      }
      assert xs[more[k]] in xs && xs[more[j]] in xs;
    }
  }

  ghost predicate Ascends<T>(a: seq<T>, less: (T, T) -> bool) {
    forall j, k :: 0 <= j < k < |a| ==> less(a[j], a[k]) && !less(a[k], a[j])
  }

  lemma HeadsAgree<T>(a: seq<T>, b: seq<T>, less: (T, T) -> bool)
    requires |a| > 0 && |b| > 0 && a[0] in b && b[0] in a && Ascends(a, less) && Ascends(b, less)
    ensures a[0] == b[0]
  {
    var j :| 0 <= j < |b| && b[j] == a[0];
    var k :| 0 <= k < |a| && a[k] == b[0];
    assert j == 0 || k == 0;
  }

  lemma Tail<T>(a: seq<T>, less: (T, T) -> bool)
    requires |a| > 0 && Ascends(a, less)
    ensures Ascends(a[1..], less) && multiset(a[1..]) == multiset(a) - multiset{a[0]}
  {
    assert a == [a[0]] + a[1..];
  }

  /** Two strictly ascending arrangements of the same elements are the same. */
  lemma {:induction false} OneArrangement<T>(a: seq<T>, b: seq<T>, less: (T, T) -> bool)
    requires multiset(a) == multiset(b) && Ascends(a, less) && Ascends(b, less)
    ensures a == b
    decreases |a|
  {
    hide Ascends;
    assert |multiset(a)| == |a| && |multiset(b)| == |b|;
    if |a| > 0 {
      assert a[0] in multiset(a) && b[0] in multiset(b);
      HeadsAgree(a, b, less);
      Tail(a, less);
      Tail(b, less);
      OneArrangement(a[1..], b[1..], less);
      assert a == [a[0]] + a[1..] && b == [b[0]] + b[1..];
    }
  }
}
