/** Proposer priorities as types/validator_set.go:140-234 computes them, with
    clipping, truncating division and flooring average.  The lemmas say when no
    operation clips or overflows and what each normalisation achieves. */
module Priorities {
  import opened Basics
  import opened Int64
  import opened Rotation

  // ------------------------------------------------------------------ extremes

  function MaxOf(s: seq<int>, n: nat): (m: int)
    requires 1 <= n <= |s|
    ensures forall i :: 0 <= i < n ==> s[i] <= m
    ensures exists i :: 0 <= i < n && s[i] == m
  {
    if n == 1 then s[0]
    else
      var m := MaxOf(s, n - 1);
      if s[n - 1] > m then s[n - 1] else m
  }

  function MinOf(s: seq<int>, n: nat): (m: int)
    requires 1 <= n <= |s|
    ensures forall i :: 0 <= i < n ==> s[i] >= m
    ensures exists i :: 0 <= i < n && s[i] == m
  {
    if n == 1 then s[0]
    else
      var m := MinOf(s, n - 1);
      if s[n - 1] < m then s[n - 1] else m
  }

  /** computeMaxMinPriorityDiff. */
  function Spread(ps: seq<int>): int
    requires |ps| > 0
  {
    MaxOf(ps, |ps|) - MinOf(ps, |ps|)
  }

  /** All pairwise distances are at most `d`. */
  ghost predicate Within(ps: seq<int>, d: int) {
    forall i, j :: 0 <= i < |ps| && 0 <= j < |ps| ==> ps[i] - ps[j] <= d
  }

  lemma SpreadWithin(ps: seq<int>)
    requires |ps| > 0
    ensures Within(ps, Spread(ps))
    ensures forall d :: Within(ps, d) ==> Spread(ps) <= d
  {
  }

  // ------------------------------------------------------------------- scaling

  function Ratio(diff: int, diffMax: int): int
    requires diffMax > 0
  {
    (diff + diffMax - 1) / diffMax
  }

  lemma RatioCovers(diff: int, diffMax: int)
    requires diff > diffMax > 0
    ensures Ratio(diff, diffMax) >= 2 && diff <= Ratio(diff, diffMax) * diffMax
  {
    var x := diff + diffMax - 1;
    assert x == diffMax * (x / diffMax) + x % diffMax;
  }

  function Divided(ps: seq<int>, r: int): seq<int>
    requires r > 0
  {
    seq(|ps|, i requires 0 <= i < |ps| => Quot(ps[i], r))
  }

  /** RescalePriorities. */
  function Rescaled(ps: seq<int>, diffMax: int): (qs: seq<int>)
    requires |ps| > 0
    ensures |qs| == |ps|
  {
    if diffMax <= 0 || Spread(ps) <= diffMax then ps
    else
      RatioCovers(Spread(ps), diffMax);
      Divided(ps, Ratio(Spread(ps), diffMax))
  }

  lemma DivBounds(x: nat, r: int)
    requires r > 0
    ensures r * (x / r) <= x < r * (x / r) + r
  {
  }

  lemma DivSmaller(x: nat, r: int)
    requires r > 0
    ensures x / r <= x
  {
    DivBounds(x, r);
    MulNonneg(r - 1, x / r);
    Expand(x / r, r, 0);
  }

  lemma MulNonneg(a: nat, b: nat)
    ensures a * b >= 0
  {
  }

  lemma Expand(r: int, k: int, d: int)
    ensures r * (k - d - 1) == r * k - r * d - r == (k - d - 1) * r
  {
  }

  lemma MulLonger(r: int, k: int, d: int)
    requires r > 0
    ensures k > d ==> r * k >= r * d + r
  {
    Expand(r, k, d);
    if k > d { MulNonneg(r, k - d - 1); }
  }

  lemma FloorDistance(u: nat, w: nat, r: int, d: int)
    requires r > 0 && u - w <= r * d
    ensures u / r - w / r <= d
  {
    DivBounds(u, r);
    DivBounds(w, r);
    assert r * (u / r - w / r) == r * (u / r) - r * (w / r);
    MulLonger(r, u / r - w / r, d);
  }

  lemma FloorSum(u: nat, w: nat, r: int, d: int)
    requires r > 0 && u + w <= r * d
    ensures u / r + w / r <= d
  {
    DivBounds(u, r);
    DivBounds(w, r);
    assert r * (u / r + w / r) == r * (u / r) + r * (w / r);
    MulLonger(r, u / r + w / r, d);
  }

  lemma DivNonneg(u: nat, r: int)
    requires r > 0
    ensures u / r >= 0
  {
  }

  lemma QuotSigns(x: int, r: int)
    requires r > 0
    ensures Quot(x, r) == if x >= 0 then x / r else -(-x / r)
    ensures Abs(Quot(x, r)) <= Abs(x) && (x >= 0 ==> Quot(x, r) >= 0) && (x < 0 ==> Quot(x, r) <= 0)
  {
    DivNonneg(Abs(x), r);
    DivSmaller(Abs(x), r);
  }

  /** Truncating division by `r` shrinks distances of at most `r * d` to at most
      `d`, on either side of zero and across it. */
  lemma QuotientDistance(x: int, y: int, r: int, d: int)
    requires r > 0 && d >= 0 && x - y <= r * d
    ensures Quot(x, r) - Quot(y, r) <= d
  {
    QuotSigns(x, r);
    QuotSigns(y, r);
    if x >= 0 && y >= 0 {
      FloorDistance(x, y, r, d);
    } else if x < 0 && y < 0 {
      FloorDistance(-y, -x, r, d);
    } else if x >= 0 {
      FloorSum(x, -y, r, d);
    }
  }

  lemma {:induction false} RescaledWithin(ps: seq<int>, diffMax: int)
    requires |ps| > 0 && diffMax > 0
    ensures Within(Rescaled(ps, diffMax), diffMax)
    ensures forall i :: 0 <= i < |ps| ==> Abs(Rescaled(ps, diffMax)[i]) <= Abs(ps[i])
  {
    SpreadWithin(ps);
    if Spread(ps) > diffMax {
      var qs := Rescaled(ps, diffMax);
      forall i, j | 0 <= i < |ps| && 0 <= j < |ps|
        ensures qs[i] - qs[j] <= diffMax && Abs(qs[i]) <= Abs(ps[i])
      {
        RescaledPair(ps, diffMax, i, j);
      }
    }
  }

  lemma {:induction false} RescaledPair(ps: seq<int>, diffMax: int, i: nat, j: nat)
    requires i < |ps| && j < |ps| && Spread(ps) > diffMax > 0
    ensures Rescaled(ps, diffMax)[i] - Rescaled(ps, diffMax)[j] <= diffMax
    ensures Abs(Rescaled(ps, diffMax)[i]) <= Abs(ps[i])
  {
    SpreadWithin(ps);
    RatioCovers(Spread(ps), diffMax);
    QuotientDistance(ps[i], ps[j], Ratio(Spread(ps), diffMax), diffMax);
    QuotSigns(ps[i], Ratio(Spread(ps), diffMax));
  }

  // --------------------------------------------------- the same in int64

  /** computeMaxMinPriorityDiff on any priorities: the subtraction wraps. */
  function WrappedSpread(ps: seq<int>): int
    requires |ps| > 0
  {
    var diff := Wrap(Spread(ps));
    if diff < 0 then Wrap(-diff) else diff
  }

  /** It is the spread exactly if the spread fits. */
  lemma {:induction false} WrappedSpreadIs(ps: seq<int>)
    requires |ps| > 0 && AllFit(ps)
    ensures WrappedSpread(ps) == Spread(ps) <==> Fits(Spread(ps))
  {
    assert 0 <= Spread(ps) <= MAX - MIN;
  }

  function WrappedRatio(diff: int, diffMax: int): int
    requires diffMax > 0
  {
    Quot(Wrap(diff + diffMax - 1), diffMax)
  }

  function WrappedDivided(ps: seq<int>, ratio: int): (qs: seq<int>)
    requires ratio != 0
    ensures |qs| == |ps|
  {
    seq(|ps|, i requires 0 <= i < |ps| => Wrap(Quot(ps[i], ratio)))
  }

  /** RescalePriorities on any priorities: no result where the ratio wraps to zero
      and the source divides by it. */
  function WrappedRescaled(ps: seq<int>, diffMax: int): (r: Option<seq<int>>)
    requires |ps| > 0
    ensures r.Some? ==> |r.value| == |ps|
  {
    if diffMax <= 0 || WrappedSpread(ps) <= diffMax then Some(ps)
    else
      var ratio := WrappedRatio(WrappedSpread(ps), diffMax);
      if ratio == 0 then None else Some(WrappedDivided(ps, ratio))
  }

  lemma {:induction false} QuotFits(x: int, r: int)
    requires Fits(x) && r > 0
    ensures Fits(Quot(x, r))
  {
    QuotSigns(x, r);
  }

  lemma {:induction false} WrappedDividedExact(ps: seq<int>, r: int)
    requires r > 0 && AllFit(ps)
    ensures WrappedDivided(ps, r) == Divided(ps, r)
  {
    forall i | 0 <= i < |ps| ensures Wrap(Quot(ps[i], r)) == Quot(ps[i], r) {
      QuotFits(ps[i], r);
    }
  }

  lemma {:induction false} WrappedRatioExact(diff: int, diffMax: int)
    requires diff > diffMax > 0 && Fits(diff + diffMax - 1)
    ensures WrappedRatio(diff, diffMax) == Ratio(diff, diffMax)
  {
  }

  /** Nothing wraps if the spread and the numerator of the ratio fit. */
  lemma {:induction false} WrappedRescaledExact(ps: seq<int>, diffMax: int)
    requires |ps| > 0 && AllFit(ps)
    requires diffMax > 0 ==> Fits(Spread(ps)) && Fits(Spread(ps) + diffMax - 1)
    ensures WrappedRescaled(ps, diffMax) == Some(Rescaled(ps, diffMax))
  {
    if diffMax > 0 {
      WrappedSpreadIs(ps);
      if Spread(ps) > diffMax {
        var r := Ratio(Spread(ps), diffMax);
        RatioCovers(Spread(ps), diffMax);
        WrappedRatioExact(Spread(ps), diffMax);
        WrappedDividedExact(ps, r);
        assert Rescaled(ps, diffMax) == Divided(ps, r);
      }
    }
  }

  // ------------------------------------------- when rescaling is below its bound

  function Remainder(x: int, r: int): int
    requires r > 0
  {
    x - r * Quot(x, r)
  }

  lemma {:induction false} DivMonotone(x: nat, y: nat, r: int)
    requires x <= y && r > 0
    ensures x / r <= y / r
  {
    DivBounds(x, r);
    DivBounds(y, r);
    MulLonger(r, x / r, y / r);
  }

  lemma {:induction false} QuotMonotone(x: int, y: int, r: int)
    requires x <= y && r > 0
    ensures Quot(x, r) <= Quot(y, r)
  {
    if x >= 0 {
      DivMonotone(x, y, r);
    } else if y < 0 {
      DivMonotone(-y, -x, r);
    } else {
      DivNonneg(-x, r);
      DivNonneg(y, r);
    }
  }

  lemma {:induction false} DividedExtremes(ps: seq<int>, r: int, n: nat)
    requires r > 0 && 0 < n <= |ps|
    ensures MaxOf(Divided(ps, r), n) == Quot(MaxOf(ps, n), r) && MinOf(Divided(ps, r), n) == Quot(MinOf(ps, n), r)
  {
    if n > 1 {
      DividedExtremes(ps, r, n - 1);
      var x, hi, lo := ps[n - 1], MaxOf(ps, n - 1), MinOf(ps, n - 1);
      if x <= hi { QuotMonotone(x, hi, r); } else { QuotMonotone(hi, x, r); }
      if x <= lo { QuotMonotone(x, lo, r); } else { QuotMonotone(lo, x, r); }
    }
  }

  lemma {:induction false} BelowProduct(r: int, k: int, d: int)
    requires r > 0
    ensures k < d <==> r * k < r * d
  {
    MulLonger(r, d, k);
    MulLonger(r, k, d);
  }

  /** The comment promises priorities *less* than the bound apart.  That holds
      exactly if they started so, or lose enough to truncation on the way. */
  ghost predicate TruncatedEnough(ps: seq<int>, diffMax: int)
    requires |ps| > 0 && diffMax > 0
  {
    if Spread(ps) <= diffMax then Spread(ps) < diffMax
    else
      RatioCovers(Spread(ps), diffMax);
      var r := Ratio(Spread(ps), diffMax);
      Spread(ps) - (Remainder(MaxOf(ps, |ps|), r) - Remainder(MinOf(ps, |ps|), r)) < r * diffMax
  }

  lemma {:induction false} RescaledBelow(ps: seq<int>, diffMax: int)
    requires |ps| > 0 && diffMax > 0
    ensures Spread(Rescaled(ps, diffMax)) < diffMax <==> TruncatedEnough(ps, diffMax)
  {
    if Spread(ps) > diffMax {
      RatioCovers(Spread(ps), diffMax);
      var r := Ratio(Spread(ps), diffMax);
      var hi, lo := MaxOf(ps, |ps|), MinOf(ps, |ps|);
      DividedSpread(ps, diffMax, r);
      QuotientsBelow(hi, lo, r, diffMax);
    }
  }

  lemma {:induction false} DividedSpread(ps: seq<int>, diffMax: int, r: int)
    requires |ps| > 0 && Spread(ps) > diffMax > 0 && r == Ratio(Spread(ps), diffMax) && r > 0
    ensures Spread(Rescaled(ps, diffMax)) == Quot(MaxOf(ps, |ps|), r) - Quot(MinOf(ps, |ps|), r)
  {
    RatioCovers(Spread(ps), diffMax);
    assert Rescaled(ps, diffMax) == Divided(ps, r);
    DividedExtremes(ps, r, |ps|);
  }

  lemma {:induction false} QuotientsBelow(hi: int, lo: int, r: int, d: int)
    requires r > 0
    ensures Quot(hi, r) - Quot(lo, r) < d <==> hi - lo - (Remainder(hi, r) - Remainder(lo, r)) < r * d
  {
    var x, y := Quot(hi, r), Quot(lo, r);
    assert r * (x - y) == r * x - r * y;
    BelowProduct(r, x - y, d);
  }

  /** Priorities that stay, or end up, exactly the bound apart. */
  lemma {:induction false} RescaledAtBound()
    ensures Spread(Rescaled([2, 0], 2)) == 2 && Spread(Rescaled([4, 0], 2)) == 2
  {
    assert MaxOf([2, 0], 2) == 2 && MinOf([2, 0], 2) == 0;
    assert MaxOf([4, 0], 2) == 4 && MinOf([4, 0], 2) == 0;
    var qs := Rescaled([4, 0], 2);
    assert qs[0] == 2 && qs[1] == 0;
    assert MaxOf(qs, 2) == 2 && MinOf(qs, 2) == 0;
  }

  // ----------------------------------------------------------------- centring

  ghost predicate AllFit(ps: seq<int>) {
    forall i :: 0 <= i < |ps| ==> Fits(ps[i])
  }

  /** computeAvgProposerPriority: big.Int.Div floors for a positive divisor. */
  function Average(ps: seq<int>): int
    requires |ps| > 0
  {
    Sum(ps, |ps|) / |ps|
  }

  lemma {:induction false} SumBetween(ps: seq<int>, n: nat, lo: int, hi: int)
    requires n <= |ps| && forall i :: 0 <= i < n ==> lo <= ps[i] <= hi
    ensures n * lo <= Sum(ps, n) <= n * hi
  {
    if n > 0 {
      SumBetween(ps, n - 1, lo, hi);
      Distribute(n - 1, lo);
      Distribute(n - 1, hi);
    }
  }

  lemma DivBetween(x: int, n: int, lo: int, hi: int)
    requires n > 0 && n * lo <= x <= n * hi
    ensures lo <= x / n <= hi
    ensures 0 <= x - n * (x / n) < n
  {
    var q := x / n;
    assert x == n * q + x % n;
    MulLonger(n, lo, q);
    MulLonger(n, q, hi);
  }

  /** The average lies between the extremes, so it is an int64 and the panic at
      types/validator_set.go:193 cannot happen. */
  lemma {:induction false} AverageBetween(ps: seq<int>, lo: int, hi: int)
    requires |ps| > 0 && forall i :: 0 <= i < |ps| ==> lo <= ps[i] <= hi
    ensures lo <= Average(ps) <= hi
    ensures 0 <= Sum(ps, |ps|) - |ps| * Average(ps) < |ps|
  {
    SumBetween(ps, |ps|, lo, hi);
    DivBetween(Sum(ps, |ps|), |ps|, lo, hi);
  }

  /** shiftByAvgProposerPriority. */
  function Centered(ps: seq<int>): (qs: seq<int>)
    requires |ps| > 0 && AllFit(ps)
    ensures |qs| == |ps| && AllFit(qs)
  {
    AverageBetween(ps, MIN, MAX);
    seq(|ps|, i requires 0 <= i < |ps| => SubClip(ps[i], Average(ps)))
  }

  lemma {:induction false} SumShift(ps: seq<int>, qs: seq<int>, c: int, n: nat)
    requires n <= |ps| && n <= |qs| && forall i :: 0 <= i < n ==> qs[i] == ps[i] - c
    ensures Sum(qs, n) == Sum(ps, n) - n * c
  {
    if n > 0 {
      SumShift(ps, qs, c, n - 1);
      Distribute(n - 1, c);
    }
  }

  /** Priorities within `d` of each other are centred without clipping: their
      sum lands in `[0, n)` and each of them in `[-d, d]`. */
  lemma {:induction false} CenteredExact(ps: seq<int>, d: int)
    requires |ps| > 0 && AllFit(ps) && 0 <= d <= MAX && Within(ps, d)
    ensures var qs := Centered(ps);
            && (forall i :: 0 <= i < |ps| ==> qs[i] == ps[i] - Average(ps))
            && 0 <= Sum(qs, |qs|) < |qs|
            && Within(qs, d)
            && (forall i :: 0 <= i < |ps| ==> -d <= qs[i] <= d)
  {
    var qs, n, avg := Centered(ps), |ps|, Average(ps);
    AverageBetween(ps, MinOf(ps, n), MaxOf(ps, n));
    forall i | 0 <= i < n ensures qs[i] == ps[i] - avg && -d <= qs[i] <= d {
      assert ps[i] - MinOf(ps, n) <= d && MaxOf(ps, n) - ps[i] <= d;
    }
    SumShift(ps, qs, avg, n);
  }
}
