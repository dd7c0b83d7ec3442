/** Rescaling makes a lasting difference (types/validator_set.go:116-178): a rotation
    that goes on from rescaled priorities never meets the one that goes on from
    the priorities before rescaling, if those were reached from a normalised
    start. */
module Divergence {
  import opened Int64
  import opened Rotation
  import opened Priorities

  // -------------------------------------------------- how far one priority moves

  lemma {:induction false} QuotientOf(p: nat, r: int)
    requires r >= 2
    ensures 0 <= p / r && 2 * (p / r) <= p && (r >= 3 ==> 3 * (p / r) <= p) && (r == 2 ==> p <= 2 * (p / r) + 1)
  {
    DivBounds(p, r);
    DivNonneg(p, r);
    MulNonneg(r - 2, p / r);
    if r >= 3 { MulNonneg(r - 3, p / r); }
    ProductMinus(r, p / r);
  }

  lemma ProductMinus(r: int, k: int)
    ensures (r - 2) * k == r * k - 2 * k && (r - 3) * k == r * k - 3 * k
  {
  }

  /** Up to where priorities are that moved down by no total. */
  function Ceiling(r: int, d: int): int { if r == 2 then 2 * d else d }

  lemma {:induction false} MultipleOf(t: int, m: int)
    requires t >= 0
    ensures (m >= 1 ==> t * m >= t) && (m <= 0 ==> t * m <= 0) && (m <= -1 ==> t * m <= -t)
  {
    if m >= 1 { MulNonneg(t, m - 1); } else { MulNonneg(t, -m); }
    if m <= -1 { MulNonneg(t, -m - 1); }
  }

  /** A priority that scaling and shifting move by whole totals: `m` says how many. */
  lemma {:induction false} Moved(p: int, r: int, d: int, t: int, m: int)
    requires r >= 2 && 0 <= d <= 1 && t >= 2 && p - (Quot(p, r) + d) == t * m
    ensures m >= 1 ==> p >= t + Ceiling(r, d) && (r == 2 ==> p > t + Ceiling(r, d))
    ensures m <= 0 ==> p <= Ceiling(r, d)
    ensures m <= -1 ==> p <= d - t
  {
    MultipleOf(t, m);
    QuotSigns(p, r);
    QuotientOf(Abs(p), r);
  }

  // ------------------------------------------------------- a gap of one total

  lemma {:induction false} MaskAbove(s: seq<int>, m: seq<bool>, n: nat, c: int, k: nat)
    requires n <= |s| && n <= |m| && forall i :: 0 <= i < n && m[i] ==> s[i] >= c
    ensures MaskSum(s, m, n) >= Copies(Count(m, n), c)
    ensures k < n && m[k] && s[k] > c ==> MaskSum(s, m, n) > Copies(Count(m, n), c)
  {
    if n > 0 { MaskAbove(s, m, n - 1, c, k); }
  }

  lemma {:induction false} MaskBelow(s: seq<int>, q: seq<int>, m: seq<bool>, n: nat)
    requires n <= |s| && n <= |q| && n <= |m| && forall i :: 0 <= i < n && m[i] ==> s[i] <= q[i]
    ensures MaskSum(s, m, n) <= MaskSum(q, m, n)
  {
    if n > 0 { MaskBelow(s, q, m, n - 1); }
  }

  /** Validators outside `m` end at `u` or below.  If one of them ever paid, then
      those in `m` were at most a total above `u` at that time, and together they
      have not gained since; if not, they have not gained since the start. */
  lemma {:induction false} HeapShrinks(v: seq<int>, ps: seq<seq<int>>, cs: seq<nat>, s: nat, m: seq<bool>, u: int)
    requires IsRun(v, ps, cs) && s < |ps| && |m| == |v| == |ps[s]|
    requires forall i :: 0 <= i < |v| && !m[i] ==> ps[s][i] <= u
    ensures || MaskSum(ps[s], m, |v|) <= Copies(Count(m, |v|), Sum(v, |v|) + u)
            || (&& MaskSum(ps[s], m, |v|) <= MaskSum(ps[0], m, |v|)
                && forall i :: 0 <= i < |v| && !m[i] ==> ps[0][i] <= ps[s][i])
  {
    if s > 0 {
      var p, a, q := ps[s - 1], cs[s - 1], ps[s];
      assert IsStep(v, p, a, q);
      if m[a] {
        MaskStep(v, p, a, q, m, |v|);
        MaskOfPowers(v, m, |v|);
        HeapShrinks(v, ps, cs, s - 1, m, u);
      } else {
        MaskAtMost(q, m, |v|, Sum(v, |v|) + u);
      }
    }
  }

  /** After a run from priorities at most two totals apart, with somebody far below
      zero: validators that are at least a total above all others are just that. */
  lemma {:induction false} GapIsTight(v: seq<int>, ps: seq<seq<int>>, cs: seq<nat>, m: seq<bool>, u: int, c: nat, k: nat)
    requires IsRun(v, ps, cs) && |m| == |v| == |ps[|cs|]| && c < |v| && k < |v|
    requires Within(ps[0], 2 * Sum(v, |v|))
    requires forall i :: 0 <= i < |v| ==> if m[i] then ps[|cs|][i] >= Sum(v, |v|) + u else ps[|cs|][i] <= u
    requires !m[c] && ps[|cs|][c] <= u - Sum(v, |v|) && m[k]
    ensures ps[|cs|][k] == Sum(v, |v|) + u
  {
    var p, t, n := ps[|cs|], Sum(v, |v|), |v|;
    HeapShrinks(v, ps, cs, |cs|, m, u);
    MaskAbove(p, m, n, t + u, k);
    if MaskSum(p, m, n) > Copies(Count(m, n), t + u) {
      forall i | 0 <= i < n && m[i] ensures ps[0][i] <= t + u {
        assert ps[0][i] - ps[0][c] <= 2 * t;
      }
      MaskAtMost(ps[0], m, n, t + u);
    }
  }

  // ------------------------------------------------------------------ meeting

  /** Two runs that meet have started whole totals apart. */
  lemma {:induction false} MeetingMoves(v: seq<int>, ps: seq<seq<int>>, cs: seq<nat>, qs: seq<seq<int>>, ds: seq<nat>,
                                        i: nat)
    requires IsRun(v, ps, cs) && IsRun(v, qs, ds) && |cs| == |ds| && ps[|cs|] == qs[|ds|] && i < |v|
    ensures ps[0][i] - qs[0][i] == Sum(v, |v|) * (Chosen(cs, |cs|, i) - Chosen(ds, |ds|, i))
  {
    var b, t := |cs|, Sum(v, |v|);
    RunAccount(v, ps, cs, b, i);
    RunAccount(v, qs, ds, b, i);
    Subtract(t, Chosen(cs, b, i), Chosen(ds, b, i));
  }

  lemma Subtract(t: int, x: int, y: int)
    ensures t * (x - y) == t * x - t * y
  {
  }

  lemma {:induction false} SumScaled(p: seq<int>, q: seq<int>, m: seq<int>, t: int, n: nat)
    requires n <= |p| == |q| == |m| && forall i :: 0 <= i < |p| ==> p[i] - q[i] == t * m[i]
    ensures Sum(p, n) - Sum(q, n) == t * Sum(m, n)
  {
    if n > 0 {
      SumScaled(p, q, m, t, n - 1);
      Subtract(t, Sum(m, n), m[n - 1]);
    }
  }

  lemma {:induction false} SumSigned(m: seq<int>, n: nat, sign: int, k: nat)
    requires n <= |m| && (sign == 1 || sign == -1) && forall i :: 0 <= i < n ==> sign * m[i] >= 0
    ensures sign * Sum(m, n) >= 0 && (k < n && m[k] != 0 ==> Sum(m, n) != 0)
  {
    if n > 0 { SumSigned(m, n - 1, sign, k); }
  }

  lemma {:induction false} SmallMultiple(t: int, s: int)
    requires t >= 0 && -t < t * s < t
    ensures s == 0
  {
    MultipleOf(t, s);
  }

  /** Whoever moves down is matched by somebody who moves up. */
  lemma {:induction false} Balanced(p: seq<int>, q: seq<int>, m: seq<int>, t: nat) returns (a: nat, c: nat)
    requires |p| == |q| == |m| <= t && forall i :: 0 <= i < |p| ==> p[i] - q[i] == t * m[i]
    requires 0 <= Sum(p, |p|) < |p| && 0 <= Sum(q, |q|) < |q| && p != q
    ensures a < |m| && c < |m| && m[a] >= 1 && m[c] <= -1
  {
    SumScaled(p, q, m, t, |p|);
    SmallMultiple(t, Sum(m, |m|));
    var k :| 0 <= k < |p| && p[k] != q[k];
    if forall i :: 0 <= i < |m| ==> m[i] <= 0 {
      SumSigned(m, |m|, -1, k);
      assert false;
    }
    if forall i :: 0 <= i < |m| ==> m[i] >= 0 {
      SumSigned(m, |m|, 1, k);
      assert false;
    }
    a :| 0 <= a < |m| && m[a] > 0;
    c :| 0 <= c < |m| && m[c] < 0;
  }

  lemma {:induction false} AtLeastOneEach(v: seq<int>, n: nat)
    requires n <= |v| && forall k :: 0 <= k < n ==> v[k] >= 1
    ensures n <= Sum(v, n)
  {
    if n > 0 { AtLeastOneEach(v, n - 1); }
  }

  /** `q` is `p` divided by `r` and shifted up by `d`. */
  ghost predicate IsScaled(p: seq<int>, q: seq<int>, r: int, d: int)
    requires r >= 2
  {
    |p| == |q| && forall i :: 0 <= i < |p| ==> q[i] == Quot(p[i], r) + d
  }

  /** Scaled priorities that differ by whole totals, `ms` says how many: who moves
      down is a total above everybody else. */
  lemma {:induction false} MovedAll(p: seq<int>, q: seq<int>, r: int, d: int, t: int, ms: seq<int>, i: nat)
    requires r >= 2 && 0 <= d <= 1 && t >= 2 && IsScaled(p, q, r, d) && |ms| == |p| && i < |p|
    requires p[i] - q[i] == t * ms[i]
    ensures var u := Ceiling(r, d); if ms[i] >= 1 then p[i] >= t + u && (r == 2 ==> p[i] > t + u) else p[i] <= u
    ensures ms[i] <= -1 ==> p[i] <= Ceiling(r, d) - t
  {
    Moved(p[i], r, d, t, ms[i]);
  }

  /** `ps` is a run from a normalised start, and `q` is its end scaled and centred.
      If that takes division by three or more, somebody is above two totals. */
  ghost predicate Diverges(v: seq<int>, ps: seq<seq<int>>, cs: seq<nat>, q: seq<int>, r: int, d: int) {
    && IsRun(v, ps, cs) && |ps[|cs|]| == |v| && (forall i :: 0 <= i < |v| ==> v[i] >= 1)
    && Within(ps[0], 2 * Sum(v, |v|))
    && r >= 2 && 0 <= d <= 1 && IsScaled(ps[|cs|], q, r, d) && ps[|cs|] != q
    && 0 <= Sum(ps[|cs|], |v|) < |v| && 0 <= Sum(q, |v|) < |v|
    && (r >= 3 ==> exists k :: 0 <= k < |v| && ps[|cs|][k] > 2 * Sum(v, |v|))
  }

  /** The priorities before and after scaling are not whole totals apart. */
  lemma {:induction false} NotWholeTotals(v: seq<int>, ps: seq<seq<int>>, cs: seq<nat>, q: seq<int>, r: int, d: int,
                                          ms: seq<int>)
    requires Diverges(v, ps, cs, q, r, d) && |ms| == |v|
    ensures exists i :: 0 <= i < |v| && ps[|cs|][i] - q[i] != Sum(v, |v|) * ms[i]
  {
    var p, t, u := ps[|cs|], Sum(v, |v|), Ceiling(r, d);
    if forall i :: 0 <= i < |v| ==> p[i] - q[i] == t * ms[i] {
      AtLeastOneEach(v, |v|);
      var a, c := Balanced(p, q, ms, t);
      var m := seq(|v|, i requires 0 <= i < |v| => ms[i] >= 1);
      forall i | 0 <= i < |v|
        ensures if m[i] then p[i] >= t + u else p[i] <= u
      {
        MovedAll(p, q, r, d, t, ms, i);
      }
      MovedAll(p, q, r, d, t, ms, c);
      MovedAll(p, q, r, d, t, ms, a);
      var k := a;
      if r >= 3 { k :| 0 <= k < |v| && p[k] > 2 * t; }
      GapIsTight(v, ps, cs, m, u, c, k);
      assert false;
    }
  }

  /** So runs from them never meet. */
  lemma {:induction false} NeverMeet(v: seq<int>, ps: seq<seq<int>>, cs: seq<nat>, r: int, d: int,
                                     ps': seq<seq<int>>, cs': seq<nat>, qs: seq<seq<int>>, ds: seq<nat>)
    requires IsRun(v, ps', cs') && IsRun(v, qs, ds) && |cs'| == |ds|
    requires Diverges(v, ps, cs, qs[0], r, d) && ps'[0] == ps[|cs|]
    ensures ps'[|cs'|] != qs[|ds|]
  {
    if ps'[|cs'|] == qs[|ds|] {
      var ms := seq(|v|, i requires 0 <= i < |v| => Chosen(cs', |cs'|, i) - Chosen(ds, |ds|, i));
      forall i | 0 <= i < |v| ensures ps'[0][i] - qs[0][i] == Sum(v, |v|) * ms[i] {
        MeetingMoves(v, ps', cs', qs, ds, i);
      }
      NotWholeTotals(v, ps, cs, qs[0], r, d, ms);
      assert false;
    }
  }

  // ------------------------------------------------------- rounds of a call

  ghost predicate PaysIn(v: seq<int>, xs: nat -> seq<int>, k: nat, c: nat) { IsStep(v, xs(k), c, xs(k + 1)) }

  ghost predicate IsRound(v: seq<int>, xs: nat -> seq<int>, k: nat) { exists c: nat :: PaysIn(v, xs, k, c) }

  /** Rounds from `a` to `a + b` are a run. */
  lemma {:induction false} RunOfRounds(v: seq<int>, xs: nat -> seq<int>, a: nat, b: nat)
    returns (ps: seq<seq<int>>, cs: seq<nat>)
    requires |xs(a)| == |v| && forall i :: 0 <= i < |v| ==> v[i] >= 0
    requires forall k :: a <= k < a + b ==> IsRound(v, xs, k)
    ensures IsRun(v, ps, cs) && |cs| == b && ps[0] == xs(a) && ps[b] == xs(a + b)
    decreases b
  {
    ps, cs := [xs(a)], [];
    if b > 0 {
      ps, cs := RunOfRounds(v, xs, a, b - 1);
      assert IsRound(v, xs, a + b - 1);
      var c: nat :| PaysIn(v, xs, a + b - 1, c);
      ps, cs := ps + [xs(a + b)], cs + [c];
    }
  }

  /** Where a call starts from: centred, and at most two totals apart. */
  ghost predicate IsStart(v: seq<int>, p: seq<int>) {
    && |p| == |v| && Within(p, 2 * Sum(v, |v|)) && 0 <= Sum(p, |p|) < |p|
    && forall i :: 0 <= i < |p| ==> p[i] >= -2 * Sum(v, |v|)
  }

  /** `xs` are the priorities after each of the `n` rounds of a call. */
  ghost predicate IsCall(v: seq<int>, xs: nat -> seq<int>, n: nat) {
    && (forall i :: 0 <= i < |v| ==> v[i] >= 1) && IsStart(v, xs(0))
    && forall k :: 0 <= k < n ==> IsRound(v, xs, k)
  }

  /** Far apart means that somebody is high up, since nobody falls below minus two
      totals. */
  lemma {:induction false} SomebodyHigh(v: seq<int>, ps: seq<seq<int>>, cs: seq<nat>)
    requires |v| > 0 && IsRun(v, ps, cs) && IsStart(v, ps[0])
    requires |ps[|cs|]| == |v| && Spread(ps[|cs|]) > 4 * Sum(v, |v|)
    ensures exists k :: 0 <= k < |v| && ps[|cs|][k] > 2 * Sum(v, |v|)
  {
    var p := ps[|cs|];
    var k :| 0 <= k < |p| && p[k] == MaxOf(p, |p|);
    var l :| 0 <= l < |p| && p[l] == MinOf(p, |p|);
    RunLowerBound(v, ps, cs, |cs|, l);
  }

  /** `q` is `p` rescaled and centred. */
  ghost predicate IsRescaled(v: seq<int>, p: seq<int>, q: seq<int>, r: int, d: int) {
    && |v| > 0 && |p| == |q| == |v| && r >= 2 && 0 <= d <= 1 && IsScaled(p, q, r, d) && p != q
    && (r >= 3 ==> Spread(p) > 4 * Sum(v, |v|))
  }

  /** If the next call, with priorities `ys`, has to rescale what `a` rounds have
      left, then it is never where the first call would be. */
  lemma {:induction false} RoundsDiverge(v: seq<int>, xs: nat -> seq<int>, ys: nat -> seq<int>, a: nat, b: nat, n: nat,
                                         r: int, d: int)
    requires n == a + b && IsCall(v, xs, n) && IsCall(v, ys, b) && IsRescaled(v, xs(a), ys(0), r, d)
    ensures ys(b) != xs(n)
  {
    var ps, cs := RunOfRounds(v, xs, 0, a);
    var ps', cs' := RunOfRounds(v, xs, a, b);
    var qs, ds := RunOfRounds(v, ys, 0, b);
    RunAccount(v, ps, cs, a, 0);
    if r >= 3 { SomebodyHigh(v, ps, cs); }
    NeverMeet(v, ps, cs, r, d, ps', cs', qs, ds);
  }

  // ---------------------------------------------- the scaling of the source

  /** What truncation takes off a sum. */
  lemma {:induction false} SumDivided(ps: seq<int>, r: int, n: nat)
    requires r >= 1 && n <= |ps|
    ensures r * Sum(Divided(ps, r), n) - Copies(n, r - 1) <= Sum(ps, n)
         <= r * Sum(Divided(ps, r), n) + Copies(n, r - 1)
  {
    if n > 0 {
      SumDivided(ps, r, n - 1);
      var x, s := Quot(ps[n - 1], r), Sum(Divided(ps, r), n - 1);
      assert Divided(ps, r)[n - 1] == x;
      RemainderBounds(ps[n - 1], r);
      Subtract(r, s + x, x);
    }
  }

  lemma {:induction false} RemainderBounds(x: int, r: int)
    requires r >= 1
    ensures r * Quot(x, r) - (r - 1) <= x <= r * Quot(x, r) + (r - 1)
  {
    QuotSigns(x, r);
    DivBounds(Abs(x), r);
    Subtract(r, 0, Abs(x) / r);
  }

  /** Centred priorities stay nearly centred: dividing moves the average by at most one. */
  lemma {:induction false} AverageOfDivided(ps: seq<int>, r: int)
    requires |ps| > 0 && r >= 1 && 0 <= Sum(ps, |ps|) < |ps|
    ensures |Divided(ps, r)| == |ps| && -1 <= Average(Divided(ps, r)) <= 0
  {
    var n, s := |ps|, Sum(Divided(ps, r), |ps|);
    SumDivided(ps, r, n);
    CopiesIsProduct(n, r - 1);
    BelowWhole(s, n, r, Sum(ps, n));
    FloorOfSmall(s, n);
  }

  lemma {:induction false} BelowWhole(s: int, n: int, r: int, x: int)
    requires r >= 1 && 0 <= x < n && r * s - n * (r - 1) <= x <= r * s + n * (r - 1)
    ensures -n < s < n
  {
    Expand(n, r, 0);
    BelowProduct(r, s, n);
    BelowProduct(r, -n, s);
    assert r * n == n * r && r * (-n) == -(n * r);
  }

  lemma {:induction false} FloorOfSmall(s: int, n: int)
    requires n > 0 && -n < s < n
    ensures -1 <= s / n <= 0
  {
  }

  lemma {:induction false} BigRatio(diff: int, d: int)
    requires diff > d > 0 && Ratio(diff, d) >= 3
    ensures diff > 2 * d
  {
    var x := diff + d - 1;
    assert x == d * (x / d) + x % d;
    MulNonneg(d, x / d - 3);
    Subtract(d, x / d, 3);
  }
}
