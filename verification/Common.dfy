/** Small pieces shared by the other modules. */
module Common {

  datatype Option<+T> = None | Some(value: T)

  /** xs without the element at index i (a std::list erase or splice-out). */
  function RemoveAt<T>(xs: seq<T>, i: nat): (r: seq<T>)
    requires i < |xs|
    ensures |r| == |xs| - 1
  {
    xs[..i] + xs[i + 1..]
  }

  /** How often each number below n occurs when every one of them occurs exactly once. */
  ghost predicate EachOnce(m: multiset<nat>, n: nat)
  {
    forall k: nat :: m[k] == if k < n then 1 else 0
  }

  lemma RemoveAtMultiset<T>(xs: seq<T>, i: nat)
    requires i < |xs|
    ensures multiset(xs) == multiset(RemoveAt(xs, i)) + multiset{xs[i]}
  {
    assert xs == xs[..i] + [xs[i]] + xs[i + 1..];
  }

  lemma Overwrite<V>(m: map<nat, V>, k: nat, a: V, b: V)
    ensures m[k := a][k := b] == m[k := b]
    ensures m[k := a] - {k} == m - {k}
  {
  }

  lemma ConsMultiset<T>(x: T, xs: seq<T>)
    ensures multiset([x] + xs) == multiset{x} + multiset(xs)
  {
  }

  lemma RepeatedCountsTwice<T>(xs: seq<T>, i: nat, j: nat)
    requires i < j < |xs| && xs[i] == xs[j]
    ensures multiset(xs)[xs[i]] >= 2
  {
    RemoveAtMultiset(xs, j);
    assert RemoveAt(xs, j)[i] == xs[i];
    assert xs[i] in multiset(RemoveAt(xs, j));
  }

  lemma EachOnceNext(m: multiset<nat>, n: nat)
    requires EachOnce(m, n)
    ensures EachOnce(m + multiset{n}, n + 1)
  {
  }

  /** A part of an each-once census has no repetitions, stays in range and meets no other part. */
  lemma EachOncePart(m: multiset<nat>, a: seq<nat>, rest: multiset<nat>, n: nat)
    requires EachOnce(m, n) && m == multiset(a) + rest
    ensures forall i, j :: 0 <= i < j < |a| ==> a[i] != a[j]
    ensures forall i :: 0 <= i < |a| ==> a[i] < n && a[i] !in rest
  {
    forall i, j | 0 <= i < j < |a| ensures a[i] != a[j] {
      assert m[a[i]] == multiset(a)[a[i]] + rest[a[i]];
      if a[i] == a[j] {
        RepeatedCountsTwice(a, i, j);
      }
    }
    forall i | 0 <= i < |a| ensures a[i] < n && a[i] !in rest {
      assert a[i] in multiset(a);
      assert m[a[i]] == multiset(a)[a[i]] + rest[a[i]];
    }
  }

  /** Pairwise distinct elements all taken from ys are no more than ys has. */
  lemma {:induction false} DistinctFit(xs: seq<nat>, ys: seq<nat>)
    requires forall i, j :: 0 <= i < j < |xs| ==> xs[i] != xs[j]
    requires forall i :: 0 <= i < |xs| ==> xs[i] in ys
    ensures |xs| <= |ys|
    decreases |xs|
  {
    if xs != [] {
      var last := xs[|xs| - 1];
      var j :| 0 <= j < |ys| && ys[j] == last;
      forall i | 0 <= i < |xs| - 1 ensures xs[i] in RemoveAt(ys, j) {
        var k :| 0 <= k < |ys| && ys[k] == xs[i];
        assert k < j ==> RemoveAt(ys, j)[k] == xs[i];
        assert k > j ==> RemoveAt(ys, j)[k - 1] == xs[i];
      }
      DistinctFit(xs[..|xs| - 1], RemoveAt(ys, j));
    }
  }

  function SetOf(xs: seq<nat>): set<nat> {
    set x | x in xs
  }

  lemma {:induction false} DistinctCount(xs: seq<nat>)
    requires forall i, j :: 0 <= i < j < |xs| ==> xs[i] != xs[j]
    ensures |SetOf(xs)| == |xs|
    decreases |xs|
  {
    if xs != [] {
      var init, last := xs[..|xs| - 1], xs[|xs| - 1];
      DistinctCount(init);
      assert xs == init + [last];
      assert last !in init;
      assert last !in SetOf(init);
      assert SetOf(xs) == SetOf(init) + {last};
    }
  }
}
