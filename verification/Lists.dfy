/** Sums over lists and sorting, for any element type.  Sorting stands in for
    sort.Sort: callers rely only on getting a sorted permutation. */
module Lists {
  import opened Basics

  /** The sum of `f` over the first `n` elements. */
  function SumBy<T>(xs: seq<T>, f: T -> int, n: nat): int
    requires n <= |xs|
  {
    if n == 0 then 0 else SumBy(xs, f, n - 1) + f(xs[n - 1])
  }

  lemma {:induction false} SumByPrefix<T>(xs: seq<T>, ys: seq<T>, f: T -> int, n: nat)
    requires n <= |xs| && n <= |ys| && forall i :: 0 <= i < n ==> f(xs[i]) == f(ys[i])
    ensures SumBy(xs, f, n) == SumBy(ys, f, n)
  {
    if n > 0 { SumByPrefix(xs, ys, f, n - 1); }
  }

  lemma {:induction false} Regroup<T>(a: seq<T>, b: seq<T>, c: seq<T>)
    ensures a + (b + c) == a + b + c
  {
  }

  lemma AppendOne<T>(xs: seq<T>, x: T, ys: seq<T>)
    ensures (xs + [x]) + ys == xs + ([x] + ys)
  {
  }

  lemma TailHead<T>(xs: seq<T>, i: nat)
    requires i < |xs|
    ensures xs[i..] == [xs[i]] + xs[i + 1..]
  {
  }

  /** Taking out the element at `k`. */
  function Without<T>(xs: seq<T>, k: nat): (ys: seq<T>)
    requires k < |xs|
    ensures |ys| == |xs| - 1
  {
    xs[..k] + xs[k + 1..]
  }

  lemma {:induction false} SumByWithout<T>(xs: seq<T>, f: T -> int, k: nat, n: nat)
    requires k < n <= |xs|
    ensures SumBy(xs, f, n) == SumBy(Without(xs, k), f, n - 1) + f(xs[k])
  {
    if k == n - 1 {
      SumByPrefix(xs, Without(xs, k), f, n - 1);
    } else {
      SumByWithout(xs, f, k, n - 1);
      assert Without(xs, k)[n - 2] == xs[n - 1];
    }
  }

  lemma {:induction false} MultisetWithout<T>(xs: seq<T>, k: nat)
    requires k < |xs|
    ensures multiset(Without(xs, k)) == multiset(xs) - multiset{xs[k]}
  {
    assert xs == xs[..k] + [xs[k]] + xs[k + 1..];
  }

  /** Rearranging a list does not change a sum over it. */
  lemma {:induction false} SumByPermuted<T>(xs: seq<T>, ys: seq<T>, f: T -> int)
    requires multiset(xs) == multiset(ys)
    ensures |xs| == |ys| && SumBy(xs, f, |xs|) == SumBy(ys, f, |ys|)
    decreases |xs|
  {
    assert |xs| == |multiset(xs)| && |ys| == |multiset(ys)|;
    if |xs| > 0 {
      var last := |xs| - 1;
      assert xs[last] in multiset(ys);
      var k :| 0 <= k < |ys| && ys[k] == xs[last];
      MultisetWithout(xs, last);
      MultisetWithout(ys, k);
      SumByPermuted(Without(xs, last), Without(ys, k), f);
      SumByWithout(xs, f, last, |xs|);
      SumByWithout(ys, f, k, |ys|);
    }
  }

  lemma PermutedMembers<T>(xs: seq<T>, ys: seq<T>)
    requires multiset(xs) == multiset(ys)
    ensures forall x :: x in xs <==> x in ys
  {
    forall x ensures x in xs <==> x in ys {
      assert x in xs <==> x in multiset(xs);
      assert x in ys <==> x in multiset(ys);
    }
  }

  // ------------------------------------------------------------ distinct keys

  ghost predicate DistinctKeys<T, K>(xs: seq<T>, key: T -> K) {
    forall i, j {:trigger key(xs[i]), key(xs[j])} :: 0 <= i < j < |xs| ==> key(xs[i]) != key(xs[j])
  }

  lemma {:induction false} CountOne<T>(xs: seq<T>, v: T, p: nat)
    requires p < |xs| && xs[p] == v && forall i :: 0 <= i < |xs| && i != p ==> xs[i] != v
    ensures multiset(xs)[v] == 1
  {
    var a, b := xs[..p], xs[p + 1..];
    assert xs == a + [v] + b;
    assert v !in a && v !in b;
  }

  lemma {:induction false} CountTwo<T>(xs: seq<T>, v: T, p: nat, q: nat)
    requires p < q < |xs| && xs[p] == v && xs[q] == v
    ensures multiset(xs)[v] >= 2
  {
    assert xs == xs[..p] + [v] + xs[p + 1..q] + [v] + xs[q + 1..];
  }

  lemma {:induction false} PermutedDistinct<T, K>(xs: seq<T>, ys: seq<T>, key: T -> K)
    requires multiset(xs) == multiset(ys) && DistinctKeys(xs, key)
    ensures DistinctKeys(ys, key)
  {
    forall i, j | 0 <= i < j < |ys| ensures key(ys[i]) != key(ys[j]) {
      assert ys[i] in multiset(xs) && ys[j] in multiset(xs);
      var p :| 0 <= p < |xs| && xs[p] == ys[i];
      var q :| 0 <= q < |xs| && xs[q] == ys[j];
      if p == q {
        assert forall k :: 0 <= k < |xs| && k != p ==> key(xs[k]) != key(xs[p]);
        CountOne(xs, xs[p], p);
        CountTwo(ys, xs[p], i, j);
      }
    }
  }

  // ------------------------------------------------------------------ sorting

  ghost predicate TotalPreorder<T(!new)>(leq: (T, T) -> bool) {
    && (forall x, y :: leq(x, y) || leq(y, x))
    && (forall x, y, z {:trigger leq(x, y), leq(y, z)} :: leq(x, y) && leq(y, z) ==> leq(x, z))
  }

  ghost predicate Sorted<T>(xs: seq<T>, leq: (T, T) -> bool) {
    forall i, j :: 0 <= i < j < |xs| ==> leq(xs[i], xs[j])
  }

  /** Insertion sort. */
  method Sort<T(!new)>(xs: seq<T>, leq: (T, T) -> bool) returns (ys: seq<T>)
    requires TotalPreorder(leq)
    ensures multiset(ys) == multiset(xs)
    ensures Sorted(ys, leq)
  {
    ys := [];
    for n := 0 to |xs|
      invariant multiset(ys) == multiset(xs[..n])
      invariant Sorted(ys, leq)
    {
      ys := Insert(ys, xs[n], leq);
      assert xs[..n + 1] == xs[..n] + [xs[n]];
    }
    assert xs[..|xs|] == xs;
  }

  method Insert<T(!new)>(ys: seq<T>, x: T, leq: (T, T) -> bool) returns (zs: seq<T>)
    requires TotalPreorder(leq) && Sorted(ys, leq)
    ensures multiset(zs) == multiset(ys) + multiset{x}
    ensures Sorted(zs, leq)
  {
    var k := |ys|;
    while k > 0 && !leq(ys[k - 1], x)
      invariant 0 <= k <= |ys|
      invariant forall j :: k <= j < |ys| ==> leq(x, ys[j])
    {
      k := k - 1;
    }
    zs := ys[..k] + [x] + ys[k..];
    assert ys == ys[..k] + ys[k..];
    forall i | 0 <= i < k ensures leq(ys[i], x) {
      if i < k - 1 { assert leq(ys[i], ys[k - 1]) && leq(ys[k - 1], x); }
    }
    InsertedSorted(ys, x, k, leq);
  }

  lemma InsertedSorted<T(!new)>(ys: seq<T>, x: T, k: nat, leq: (T, T) -> bool)
    requires k <= |ys| && Sorted(ys, leq)
    requires forall i :: 0 <= i < k ==> leq(ys[i], x)
    requires forall j :: k <= j < |ys| ==> leq(x, ys[j])
    ensures Sorted(ys[..k] + [x] + ys[k..], leq)
  {
    var zs := ys[..k] + [x] + ys[k..];
    assert forall i :: 0 <= i < |zs| ==> zs[i] == if i < k then ys[i] else if i == k then x else ys[i - 1];
  }

  // --------------------------------------------------------------- histories

  /** `trace` are the states before each action and after the last: all are
      good, and consecutive ones are related by the action between them. */
  ghost predicate IsTrace<S, A>(trace: seq<S>, actions: seq<A>, good: S -> bool, next: (S, A, S) -> bool) {
    && |trace| == |actions| + 1
    && (forall k :: 0 <= k < |trace| ==> good(trace[k]))
    && (forall k :: 0 <= k < |actions| ==> next(trace[k], actions[k], trace[k + 1]))
  }

  lemma {:induction false} ExtendTrace<S, A>(trace: seq<S>, actions: seq<A>, good: S -> bool, next: (S, A, S) -> bool,
                                             s: S, a: A)
    requires IsTrace(trace, actions, good, next) && good(s) && next(trace[|actions|], a, s)
    ensures IsTrace(trace + [s], actions + [a], good, next)
  {
    var longer, more := trace + [s], actions + [a];
    forall k | 0 <= k < |more| ensures next(longer[k], more[k], longer[k + 1]) {
      assert longer[k] == trace[k];
    }
  }

  /** The state after the first `n` actions. */
  function Fold<S, A>(next: (S, A) -> S, s: S, actions: seq<A>, n: nat): S
    requires n <= |actions|
  {
    if n == 0 then s else next(Fold(next, s, actions, n - 1), actions[n - 1])
  }

  lemma {:induction false} FoldKeeps<S(!new), A>(next: (S, A) -> S, s: S, actions: seq<A>, n: nat, good: S -> bool)
    requires n <= |actions| && good(s)
    requires forall t, k {:trigger next(t, actions[k])} :: 0 <= k < |actions| && good(t) ==> good(next(t, actions[k]))
    ensures good(Fold(next, s, actions, n))
  {
    if n > 0 { FoldKeeps(next, s, actions, n - 1, good); }
  }

  /** What every step leaves alone once it is set stays for the rest of the run. */
  lemma {:induction false} FoldSettles<S(!new), A, T>(next: (S, A) -> S, s: S, actions: seq<A>, m: nat, n: nat,
                                                      good: S -> bool, f: S -> Option<T>)
    requires m <= n <= |actions| && good(s)
    requires forall t, k {:trigger next(t, actions[k])} :: 0 <= k < |actions| && good(t) ==> good(next(t, actions[k]))
    requires forall t, k {:trigger next(t, actions[k])} :: 0 <= k < |actions| && good(t) && f(t).Some? ==>
      f(next(t, actions[k])) == f(t)
    ensures var x := f(Fold(next, s, actions, m)); x.Some? ==> f(Fold(next, s, actions, n)) == x
  {
    if m < n {
      FoldSettles(next, s, actions, m, n - 1, good, f);
      FoldKeeps(next, s, actions, n - 1, good);
    }
  }
}
