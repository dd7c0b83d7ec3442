/** The arithmetic of proposer rotation (types/validator_set.go:166-178),
    free of clipping: `v` are the voting powers, `p` the priorities.  One step
    adds every power to its priority and takes the total from one of the
    largest.  These are the bounds behind "Proof of 1 is tricky, left to the
    reader" (types/validator_set.go:22). */
module Rotation {
  import opened Basics

  // ------------------------------------------------------------- finite sums

  /** The sum of `s[i]` over the `i < n` marked in `m`. */
  function MaskSum(s: seq<int>, m: seq<bool>, n: nat): int
    requires n <= |s| && n <= |m|
  {
    if n == 0 then 0 else MaskSum(s, m, n - 1) + (if m[n - 1] then s[n - 1] else 0)
  }

  function Count(m: seq<bool>, n: nat): nat
    requires n <= |m|
  {
    if n == 0 then 0 else Count(m, n - 1) + (if m[n - 1] then 1 else 0)
  }

  function Sum(s: seq<int>, n: nat): int
    requires n <= |s|
  {
    if n == 0 then 0 else Sum(s, n - 1) + s[n - 1]
  }

  lemma {:induction false} SumAll(s: seq<int>, m: seq<bool>, n: nat)
    requires n <= |s| && n <= |m| && forall i :: 0 <= i < n ==> m[i]
    ensures MaskSum(s, m, n) == Sum(s, n) && Count(m, n) == n
  {
    if n > 0 { SumAll(s, m, n - 1); }
  }

  /** `k` copies of `c`. */
  function Copies(k: nat, c: int): int
  {
    if k == 0 then 0 else Copies(k - 1, c) + c
  }

  lemma {:induction false} CopiesIsProduct(k: nat, c: int)
    ensures Copies(k, c) == k * c && Copies(k, c) as real == k as real * c as real
  {
    if k > 0 {
      CopiesIsProduct(k - 1, c);
      assert k * c == (k - 1) * c + c && k as real * c as real == (k - 1) as real * c as real + c as real;
    }
  }

  lemma {:induction false} MaskAtMost(s: seq<int>, m: seq<bool>, n: nat, c: int)
    requires n <= |s| && n <= |m|
    requires forall i :: 0 <= i < n && m[i] ==> s[i] <= c
    ensures MaskSum(s, m, n) <= Copies(Count(m, n), c)
  {
    if n > 0 { MaskAtMost(s, m, n - 1, c); }
  }

  lemma {:induction false} MaskOfPowers(v: seq<int>, m: seq<bool>, n: nat)
    requires n <= |v| && n <= |m| && forall i :: 0 <= i < n ==> v[i] >= 0
    ensures 0 <= MaskSum(v, m, n) <= Sum(v, n)
    ensures forall i :: 0 <= i < n ==> v[i] <= Sum(v, n)
  {
    if n > 0 { MaskOfPowers(v, m, n - 1); }
  }

  lemma {:induction false} CountAtMost(m: seq<bool>, n: nat)
    requires n <= |m|
    ensures Count(m, n) <= n
    ensures forall i :: 0 <= i < n && !m[i] ==> Count(m, n) < n
    ensures forall i :: 0 <= i < n && m[i] ==> Count(m, n) > 0
  {
    if n > 0 { CountAtMost(m, n - 1); }
  }

  /** Marking one more index. */
  lemma {:induction false} MaskGrow(s: seq<int>, m: seq<bool>, n: nat, a: nat)
    requires n <= |s| && n <= |m| && a < |m| && !m[a]
    ensures MaskSum(s, m[a := true], n) == MaskSum(s, m, n) + (if a < n then s[a] else 0)
    ensures Count(m[a := true], n) == Count(m, n) + (if a < n then 1 else 0)
  {
    if n > 0 { MaskGrow(s, m, n - 1, a); }
  }

  lemma {:induction false} NothingMarked(s: seq<int>, m: seq<bool>, n: nat)
    requires n <= |s| && n <= |m| && forall i :: 0 <= i < n ==> !m[i]
    ensures MaskSum(s, m, n) == 0 && Count(m, n) == 0
  {
    if n > 0 { NothingMarked(s, m, n - 1); }
  }

  /** Marking more never weighs less. */
  lemma {:induction false} MaskSubset(v: seq<int>, a: seq<bool>, b: seq<bool>, n: nat)
    requires n <= |v| && n <= |a| && n <= |b| && forall i :: 0 <= i < n ==> v[i] >= 0 && (a[i] ==> b[i])
    ensures MaskSum(v, a, n) <= MaskSum(v, b, n)
  {
    if n > 0 { MaskSubset(v, a, b, n - 1); }
  }

  /** What two markings share weighs at least their excess over everything. */
  lemma {:induction false} MaskOverlap(v: seq<int>, a: seq<bool>, b: seq<bool>, c: seq<bool>, n: nat)
    requires n <= |v| && n <= |a| && n <= |b| && n <= |c|
    requires forall i :: 0 <= i < n ==> v[i] >= 0 && (a[i] && b[i] ==> c[i])
    ensures MaskSum(v, a, n) + MaskSum(v, b, n) <= Sum(v, n) + MaskSum(v, c, n)
  {
    if n > 0 { MaskOverlap(v, a, b, c, n - 1); }
  }

  // ---------------------------------------------------------------- one step

  /** `a` has a largest raised priority, and pays the total `t`. */
  ghost predicate IsStep(v: seq<int>, p: seq<int>, a: nat, q: seq<int>) {
    && |v| == |p| == |q| && a < |v|
    && (forall i :: 0 <= i < |v| ==> p[i] + v[i] <= p[a] + v[a])
    && (forall i :: 0 <= i < |v| ==> q[i] == p[i] + v[i] - (if i == a then Sum(v, |v|) else 0))
  }

  lemma {:induction false} MaskStep(v: seq<int>, p: seq<int>, a: nat, q: seq<int>, m: seq<bool>, n: nat)
    requires IsStep(v, p, a, q) && n <= |v| && n <= |m|
    ensures MaskSum(q, m, n)
         == MaskSum(p, m, n) + MaskSum(v, m, n) - (if a < n && m[a] then Sum(v, |v|) else 0)
  {
    if n > 0 { MaskStep(v, p, a, q, m, n - 1); }
  }

  lemma {:induction false} SumStep(v: seq<int>, p: seq<int>, a: nat, q: seq<int>)
    requires IsStep(v, p, a, q)
    ensures Sum(q, |q|) == Sum(p, |p|)
  {
    var m := seq(|v|, i => true);
    MaskStep(v, p, a, q, m, |v|);
    SumAll(q, m, |v|);
    SumAll(p, m, |v|);
    SumAll(v, m, |v|);
  }

  // --------------------------------------------------- the averaging bound

  /** Every set of `k` validators has priority sum at most `cap(k)`. */
  ghost predicate Capped(p: seq<int>, cap: nat -> real) {
    forall m: seq<bool> :: |m| == |p| && Count(m, |p|) >= 1 ==> MaskCapped(p, m, cap)
  }

  ghost predicate MaskCapped(p: seq<int>, m: seq<bool>, cap: nat -> real)
    requires |m| == |p|
  {
    MaskSum(p, m, |p|) as real <= cap(Count(m, |p|))
  }

  /** What a family of caps must satisfy: dropping from a set of `k + 1` one
      whose priority `top` was the highest leaves at most `cap(k)`. */
  ghost predicate Telescopes(cap: nat -> real, t: int, n: nat) {
    forall k: nat, sum: int, top: int :: 1 <= k < n ==> FewerCapped(cap, t, k, sum, top)
  }

  ghost predicate FewerCapped(cap: nat -> real, t: int, k: nat, sum: int, top: int) {
    sum <= Copies(k, top) && (sum + top - t) as real <= cap(k + 1) ==> sum as real <= cap(k)
  }

  /** The step keeps the cap of every set that contains the chosen validator: it
      gains no more than it pays. */
  lemma {:induction false} MaskCappedWith(v: seq<int>, p: seq<int>, a: nat, q: seq<int>, m: seq<bool>, cap: nat -> real)
    requires IsStep(v, p, a, q) && forall i :: 0 <= i < |v| ==> v[i] >= 0
    requires Capped(p, cap) && |m| == |q| && Count(m, |q|) >= 1 && m[a]
    ensures MaskCapped(q, m, cap)
  {
    MaskStep(v, p, a, q, m, |v|);
    MaskOfPowers(v, m, |v|);
    assert MaskCapped(p, m, cap);
  }

  /** And of every other set: adding the chosen one, which was at least as high
      as all of them, gives a set one larger whose cap is already known. */
  lemma {:induction false} MaskCappedWithout(v: seq<int>, p: seq<int>, a: nat, q: seq<int>, m: seq<bool>,
                                             cap: nat -> real)
    requires IsStep(v, p, a, q) && forall i :: 0 <= i < |v| ==> v[i] >= 0
    requires Capped(p, cap) && Telescopes(cap, Sum(v, |v|), |v|)
    requires |m| == |q| && Count(m, |q|) >= 1 && !m[a]
    ensures MaskCapped(q, m, cap)
  {
    var n, t, k := |v|, Sum(v, |v|), Count(m, |v|);
    MaskGrow(q, m, n, a);
    MaskCappedWith(v, p, a, q, m[a := true], cap);
    CountAtMost(m, n);
    MaskAtMost(q, m, n, q[a] + t);
    assert FewerCapped(cap, t, k, MaskSum(q, m, n), q[a] + t);
  }

  lemma {:induction false} CappedStep(v: seq<int>, p: seq<int>, a: nat, q: seq<int>, cap: nat -> real)
    requires IsStep(v, p, a, q) && forall i :: 0 <= i < |v| ==> v[i] >= 0
    requires Capped(p, cap) && Telescopes(cap, Sum(v, |v|), |v|)
    ensures Capped(q, cap)
  {
    forall m: seq<bool> | |m| == |q| && Count(m, |q|) >= 1 ensures MaskCapped(q, m, cap) {
      if m[a] { MaskCappedWith(v, p, a, q, m, cap); } else { MaskCappedWithout(v, p, a, q, m, cap); }
    }
  }

  // ------------------------------------------------------------ harmonic caps

  /** `base`, plus `t/(k+1) + ... + t/n`. */
  ghost function AverageCap(base: real, t: real, n: nat, k: nat): real
    requires 1 <= k
    decreases n - k
  {
    if k >= n then base else AverageCap(base, t, n, k + 1) + t / ((k + 1) as real)
  }

  ghost function HarmonicCap(base: int, t: int, n: nat): nat -> real {
    (k: nat) => if k == 0 then 0.0 else k as real * AverageCap(base as real, t as real, n, k)
  }

  lemma {:induction false} AverageOfMore(k: real, s: real, top: real, cap: real)
    requires k > 0.0 && s <= k * top && s + top <= (k + 1.0) * cap
    ensures s <= k * cap
  {
    assert k * (s + top) <= k * ((k + 1.0) * cap) == (k + 1.0) * (k * cap);
    assert (k + 1.0) * s <= k * s + k * top;
  }

  lemma {:induction false} CapGrow(base: real, t: real, n: nat, k: nat)
    requires 1 <= k < n
    ensures (k + 1) as real * AverageCap(base, t, n, k) == (k + 1) as real * AverageCap(base, t, n, k + 1) + t
  {
    var c := (k + 1) as real;
    assert c * (t / c) == t;
  }

  lemma {:induction false} HarmonicCapTelescopes(base: int, t: int, n: nat)
    ensures Telescopes(HarmonicCap(base, t, n), t, n)
  {
    var cap := HarmonicCap(base, t, n);
    forall k: nat, sum: int, top: int | 1 <= k < n ensures FewerCapped(cap, t, k, sum, top) {
      if sum <= Copies(k, top) && (sum + top - t) as real <= cap(k + 1) {
        CopiesIsProduct(k, top);
        CapGrow(base as real, t as real, n, k);
        AverageOfMore(k as real, sum as real, top as real, AverageCap(base as real, t as real, n, k));
      }
    }
  }

  lemma {:induction false} CapNext(base: real, t: real, n: nat, k: nat)
    requires 1 <= k && t >= 0.0
    ensures AverageCap(base, t, n, k) <= AverageCap(base, t, n, k + 1) + t / (k + 1) as real
  {
  }

  lemma {:induction false} CapSpan(base: real, t: real, n: nat, k: nat, m: nat, step: real)
    requires 1 <= k <= m && t >= 0.0 && step >= t / (k + 1) as real
    ensures AverageCap(base, t, n, k) <= AverageCap(base, t, n, m) + (m - k) as real * step
    decreases m - k
  {
    if k < m {
      Shrinks(t, (k + 1) as real);
      CapNext(base, t, n, k);
      CapSpan(base, t, n, k + 1, m, step);
      DistributeReal((m - k - 1) as real, step);
    }
  }

  lemma Shrinks(t: real, c: real)
    requires t >= 0.0 && c > 0.0
    ensures t / c >= t / (c + 1.0) >= 0.0
  {
  }

  lemma DistributeReal(k: real, x: real)
    ensures (k + 1.0) * x == k * x + x
  {
  }

  lemma PartOfWhole(k: real, t: real)
    requires k >= 0.0 && t >= 0.0
    ensures k * (t / (k + 1.0)) <= t
  {
    var x := t / (k + 1.0);
    assert (k + 1.0) * x == t;
    DistributeReal(k, x);
  }

  /** `k` doubled `e` times. */
  function Doubled(k: nat, e: nat): nat
    decreases e
  {
    if e == 0 then k else Doubled(2 * k, e - 1)
  }

  lemma {:induction false} DoubledIsPow2(k: nat, e: nat)
    ensures Doubled(k, e) == k * Pow2(e)
    decreases e
  {
    if e > 0 {
      DoubledIsPow2(2 * k, e - 1);
      Reassociate(k, Pow2(e - 1));
    }
  }

  lemma Reassociate(k: nat, p: nat)
    ensures (2 * k) * p == k * (2 * p)
  {
  }

  /** The harmonic sum grows like a logarithm: doubling `k` costs at most `t`. */
  lemma {:induction false} CapLog(base: real, t: real, n: nat, k: nat, e: nat)
    requires k >= 1 && t >= 0.0 && n <= Doubled(k, e)
    ensures AverageCap(base, t, n, k) <= base + e as real * t
    decreases e
  {
    if e > 0 {
      CapLog(base, t, n, 2 * k, e - 1);
      CapDouble(base, t, n, k);
      DistributeReal((e - 1) as real, t);
    }
  }

  lemma {:induction false} CapDouble(base: real, t: real, n: nat, k: nat)
    requires k >= 1 && t >= 0.0
    ensures AverageCap(base, t, n, k) <= AverageCap(base, t, n, 2 * k) + t
  {
    CapSpan(base, t, n, k, 2 * k, t / (k + 1) as real);
    PartOfWhole(k as real, t);
  }

  // -------------------------------------------------------------- whole runs

  /** `ps` are the priorities before each step and after the last; `cs` are the
      validators chosen. */
  ghost predicate IsRun(v: seq<int>, ps: seq<seq<int>>, cs: seq<nat>) {
    && |ps| == |cs| + 1
    && |ps[0]| == |v|
    && (forall i :: 0 <= i < |v| ==> v[i] >= 0)
    && forall s :: 0 <= s < |cs| ==> IsStep(v, ps[s], cs[s], ps[s + 1])
  }

  /** How often `i` is among the first `s` chosen. */
  function Chosen(cs: seq<nat>, s: nat, i: nat): nat
    requires s <= |cs|
  {
    if s == 0 then 0 else Chosen(cs, s - 1, i) + (if cs[s - 1] == i then 1 else 0)
  }

  lemma {:induction false} RunLength(v: seq<int>, ps: seq<seq<int>>, cs: seq<nat>, s: nat)
    requires IsRun(v, ps, cs) && s < |ps|
    ensures |ps[s]| == |v|
  {
    if s > 0 { assert IsStep(v, ps[s - 1], cs[s - 1], ps[s]); }
  }

  /** Conservation: each priority is its start, plus its power per step, minus
      the total per time chosen; the sum never changes. */
  lemma {:induction false} RunAccount(v: seq<int>, ps: seq<seq<int>>, cs: seq<nat>, s: nat, i: nat)
    requires IsRun(v, ps, cs) && s < |ps| && i < |v|
    ensures |ps[s]| == |v|
    ensures ps[s][i] == ps[0][i] + s * v[i] - Sum(v, |v|) * Chosen(cs, s, i)
    ensures Sum(ps[s], |v|) == Sum(ps[0], |v|)
  {
    if s > 0 {
      RunAccount(v, ps, cs, s - 1, i);
      assert IsStep(v, ps[s - 1], cs[s - 1], ps[s]);
      SumStep(v, ps[s - 1], cs[s - 1], ps[s]);
      Distribute(s - 1, v[i]);
      Distribute(Chosen(cs, s - 1, i), Sum(v, |v|));
    }
  }

  lemma Distribute(k: int, x: int)
    ensures (k + 1) * x == k * x + x && x * (k + 1) == x * k + x
  {
  }

  /** The one who pays was not below average, so it keeps at least minus the total. */
  lemma {:induction false} PayerBound(v: seq<int>, p: seq<int>, a: nat, q: seq<int>)
    requires IsStep(v, p, a, q) && Sum(p, |p|) >= 0 && Sum(v, |v|) >= 0
    ensures q[a] >= -Sum(v, |v|)
  {
    var t, all := Sum(v, |v|), seq(|v|, i => true);
    var raised := q[a := q[a] + t];
    if raised[a] < 0 {
      SumStep(v, p, a, q);
      SumAll(q, all, |v|);
      SumUpdate(q, a, q[a] + t, |v|);
      SumNegative(raised, |v|);
    }
  }

  lemma {:induction false} SumUpdate(s: seq<int>, a: nat, x: int, n: nat)
    requires n <= |s| && a < |s|
    ensures Sum(s[a := x], n) == Sum(s, n) + (if a < n then x - s[a] else 0)
  {
    if n > 0 { SumUpdate(s, a, x, n - 1); }
  }

  lemma {:induction false} SumNegative(s: seq<int>, n: nat)
    requires n <= |s| && forall i :: 0 <= i < n ==> s[i] < 0
    ensures Sum(s, n) <= 0 && (n > 0 ==> Sum(s, n) < 0)
  {
    if n > 0 { SumNegative(s, n - 1); }
  }

  /** No priority ever falls below minus twice the total. */
  lemma {:induction false} RunLowerBound(v: seq<int>, ps: seq<seq<int>>, cs: seq<nat>, s: nat, i: nat)
    requires IsRun(v, ps, cs) && s < |ps| && i < |v|
    requires Sum(ps[0], |v|) >= 0 && forall j :: 0 <= j < |v| ==> ps[0][j] >= -2 * Sum(v, |v|)
    ensures |ps[s]| == |v| && ps[s][i] >= -2 * Sum(v, |v|)
  {
    MaskOfPowers(v, seq(|v|, j => true), |v|);
    if s > 0 {
      RunLowerBound(v, ps, cs, s - 1, i);
      RunAccount(v, ps, cs, s - 1, i);
      assert IsStep(v, ps[s - 1], cs[s - 1], ps[s]);
      PayerBound(v, ps[s - 1], cs[s - 1], ps[s]);
    }
  }

  lemma {:induction false} RunCapped(v: seq<int>, ps: seq<seq<int>>, cs: seq<nat>, s: nat, cap: nat -> real)
    requires IsRun(v, ps, cs) && s < |ps| && Capped(ps[0], cap) && Telescopes(cap, Sum(v, |v|), |v|)
    ensures Capped(ps[s], cap)
  {
    if s > 0 {
      RunCapped(v, ps, cs, s - 1, cap);
      assert IsStep(v, ps[s - 1], cs[s - 1], ps[s]);
      CappedStep(v, ps[s - 1], cs[s - 1], ps[s], cap);
    }
  }

  lemma {:induction false} StartCapped(p: seq<int>, base: int, t: int)
    requires t >= 0 && forall i :: 0 <= i < |p| ==> p[i] <= base
    ensures Capped(p, HarmonicCap(base, t, |p|))
  {
    var cap := HarmonicCap(base, t, |p|);
    forall m: seq<bool> | |m| == |p| && Count(m, |p|) >= 1 ensures MaskCapped(p, m, cap) {
      MaskAtMost(p, m, |p|, base);
      HarmonicCapAbove(base, t, |p|, Count(m, |p|));
    }
  }

  lemma {:induction false} HarmonicCapAbove(base: int, t: int, n: nat, k: nat)
    requires 1 <= k && t >= 0
    ensures Copies(k, base) as real <= HarmonicCap(base, t, n)(k)
  {
    CopiesIsProduct(k, base);
    CapAboveBase(base as real, t as real, n, k);
    MulMonotone(k as real, base as real, AverageCap(base as real, t as real, n, k));
  }

  lemma MulMonotone(k: real, x: real, y: real)
    requires k >= 0.0 && x <= y
    ensures k * x <= k * y
  {
  }

  lemma {:induction false} CapAboveBase(base: real, t: real, n: nat, k: nat)
    requires 1 <= k && t >= 0.0
    ensures base <= AverageCap(base, t, n, k)
    decreases n - k
  {
    if k < n {
      CapAboveBase(base, t, n, k + 1);
      Shrinks(t, (k + 1) as real);
    }
  }

  /** No priority ever exceeds `base` by more than `e` totals, where `base`
      bounds the starting priorities and there are at most `2^e` validators.
      The number of steps does not matter. */
  lemma {:induction false} RunUpperBound(v: seq<int>, ps: seq<seq<int>>, cs: seq<nat>, s: nat, i: nat, base: int, e: nat)
    requires IsRun(v, ps, cs) && s < |ps| && i < |v| <= Pow2(e)
    requires forall j :: 0 <= j < |v| ==> ps[0][j] <= base
    ensures |ps[s]| == |v| && ps[s][i] <= base + e * Sum(v, |v|)
  {
    var n, t := |v|, Sum(v, |v|);
    var cap := HarmonicCap(base, t, n);
    RunLength(v, ps, cs, s);
    MaskOfPowers(v, seq(n, j => true), n);
    StartCapped(ps[0], base, t);
    HarmonicCapTelescopes(base, t, n);
    RunCapped(v, ps, cs, s, cap);
    SingleCapped(ps[s], i, cap);
    DoubledIsPow2(1, e);
    CapLog(base as real, t as real, n, 1, e);
    CopiesIsProduct(e, t);
  }

  lemma {:induction false} SingleCapped(p: seq<int>, i: nat, cap: nat -> real)
    requires i < |p| && Capped(p, cap)
    ensures p[i] as real <= cap(1)
  {
    var m := seq(|p|, j => j == i);
    SingleMask(p, m, i, |p|);
    assert MaskCapped(p, m, cap);
  }

  lemma {:induction false} SingleMask(p: seq<int>, m: seq<bool>, i: nat, n: nat)
    requires n <= |p| && n <= |m| && forall j :: 0 <= j < n ==> m[j] == (j == i)
    ensures Count(m, n) == (if i < n then 1 else 0)
    ensures MaskSum(p, m, n) == (if i < n then p[i] else 0)
  {
    if n > 0 { SingleMask(p, m, i, n - 1); }
  }

  /** Over few steps growth is at most linear. */
  lemma {:induction false} RunShortBound(v: seq<int>, ps: seq<seq<int>>, cs: seq<nat>, s: nat, i: nat)
    requires IsRun(v, ps, cs) && s < |ps| && i < |v|
    ensures |ps[s]| == |v| && ps[s][i] <= ps[0][i] + s * Sum(v, |v|)
  {
    RunLength(v, ps, cs, s);
    MaskOfPowers(v, seq(|v|, j => true), |v|);
    if s > 0 {
      RunShortBound(v, ps, cs, s - 1, i);
      assert IsStep(v, ps[s - 1], cs[s - 1], ps[s]);
      Distribute(s - 1, Sum(v, |v|));
    }
  }

  /** Proportional fairness, both ways: after `s` steps from priorities within
      two totals of zero, a validator has been chosen `s * v[i] / t` times, give
      or take a constant that depends on the number of validators only. */
  lemma {:induction false} RunFair(v: seq<int>, ps: seq<seq<int>>, cs: seq<nat>, s: nat, i: nat, e: nat)
    requires IsRun(v, ps, cs) && s < |ps| && i < |v| <= Pow2(e)
    requires Sum(ps[0], |v|) >= 0
    requires forall j :: 0 <= j < |v| ==> -2 * Sum(v, |v|) <= ps[0][j] <= 2 * Sum(v, |v|)
    ensures var t := Sum(v, |v|);
            s * v[i] - (4 + e) * t <= t * Chosen(cs, s, i) <= s * v[i] + 4 * t
  {
    var t := Sum(v, |v|);
    RunAccount(v, ps, cs, s, i);
    RunLowerBound(v, ps, cs, s, i);
    RunUpperBound(v, ps, cs, s, i, 2 * t, e);
    assert (4 + e) * t == 4 * t + e * t;
  }
}
