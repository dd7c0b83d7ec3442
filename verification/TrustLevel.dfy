/** The trust level of the light client (light/verifier.go:173-180) and the
    threshold it makes (types/validation.go:107-112), on uint64 fractions and
    int64 powers. */
module TrustLevel {
  import opened Int64
  import opened Validation
  import opened Priorities

  const TWO_64 := MAX_UINT64 + 1

  /** ValidateTrustLevel; the product by three wraps. */
  predicate Accepted(level: Fraction) {
    !(level.num * 3 % TWO_64 < level.den || level.num >= level.den || level.den == 0)
  }

  /** The denominator reads as a negative int64 and the product is not smaller. */
  predicate Misread(total: int, level: Fraction) {
    level.den > MAX && level.num <= MAX && total * level.num >= TWO_64 - level.den
  }

  /** What the comment promises: at least a third and less than one. */
  predicate InRange(level: Fraction) { level.num < level.den <= 3 * level.num }

  /** Accepted levels are at least a third, whatever wraps. */
  lemma {:induction false} AtLeastOneThird(level: Fraction)
    requires IsFraction(level) && Accepted(level)
    ensures InRange(level)
  {
  }

  /** The wrap-around also rejects levels in range: exactly those whose tripled
      numerator reaches 2^64 and comes out below the denominator. */
  lemma {:induction false} AcceptedIs(level: Fraction)
    requires IsFraction(level)
    ensures Accepted(level) <==>
      InRange(level) && (3 * level.num < TWO_64 || (3 * level.num < 2 * TWO_64 && 3 * level.num - TWO_64 >= level.den))
  {
    if 3 * level.num >= 2 * TWO_64 {
      assert level.num * 3 % TWO_64 == 3 * level.num - 2 * TWO_64;
    } else if 3 * level.num >= TWO_64 {
      assert level.num * 3 % TWO_64 == 3 * level.num - TWO_64;
    }
  }

  /** About one half, and rejected. */
  lemma {:induction false} RejectedHalf()
    ensures var level := Fraction(TWO_64 / 2, MAX_UINT64); IsFraction(level) && InRange(level) && !Accepted(level)
  {
  }

  lemma {:induction false} Cancel(a: nat, b: nat, d: nat)
    requires a * d > b * d
    ensures a > b
  {
    if a <= b { Monotone(a, b, d); }
  }

  /** `tally` parts of `total` above `total * num / den` are more than a third. */
  lemma {:induction false} AboveThird(total: nat, num: nat, den: nat, tally: nat)
    requires den > 0 && 3 * num >= den && tally > total * num / den
    ensures 3 * tally > total
  {
    QuotientBelow(total * num, den, tally);
    assert total * (3 * num) >= total * den by {
      Monotone(den, 3 * num, total);
      assert total * den == den * total && total * (3 * num) == (3 * num) * total;
    }
    assert total * (3 * num) == 3 * (total * num) && (3 * tally) * den == 3 * (tally * den);
    Cancel(3 * tally, total, den);
  }

  lemma {:induction false} ThresholdOfSmall(total: nat, level: Fraction)
    requires Fits(total) && IsFraction(level) && Accepted(level) && level.den <= MAX && !Scaled(total, level).1
    ensures Threshold(total, level) == total * level.num / level.den
  {
    SafeMulRange(total, level.num);
    MulNonneg(total, level.num);
  }

  /** Denominators that do not fit in int64. */
  lemma {:induction false} ThresholdOfBig(total: nat, level: Fraction)
    requires Fits(total) && IsFraction(level) && Accepted(level) && level.den > MAX && level.num <= MAX
    requires !Scaled(total, level).1
    ensures Threshold(total, level) == -(total * level.num / (TWO_64 - level.den)) && total <= 2
  {
    AtLeastOneThird(level);
    SafeMulRange(total, level.num);
    MulNonneg(total, level.num);
    if total >= 3 { Monotone(3, total, level.num); }
  }

  lemma {:induction false} QuotientAtLeast(total: nat, n: nat, d: nat)
    requires 0 < d <= n
    ensures total * n / d >= total
  {
    MulNonneg(total, n);
    Monotone(d, n, total);
    assert total * n == n * total && total * d == d * total;
    QuotientBelow(total * n, d, total);
  }

  lemma {:induction false} QuotOfNegatives(p: int, d: int)
    requires p >= 0 && d > 0
    ensures Quot(-p, -d) == p / d
  {
    assert Abs(-p) == p && Abs(-d) == d;
    if p == 0 {
      QuotientBelow(0, d, 1);
      DivNonneg(0, d);
    }
  }

  /** The product of a total and a numerator that reads as `-n`. */
  lemma {:induction false} NegativeProduct(total: nat, n: int)
    requires Fits(total) && 0 < n <= MAX && !SafeMul(total, -n).1
    ensures SafeMul(total, -n).0 == -(total * n)
  {
    SafeMulRange(total, -n);
    assert total * (-n) == -(total * n);
  }

  /** Numerators that do not fit either. */
  lemma {:induction false} ThresholdOfHuge(total: nat, level: Fraction)
    requires Fits(total) && IsFraction(level) && MAX < level.num < level.den && !Scaled(total, level).1
    ensures Threshold(total, level) >= total
  {
    var n, d := TWO_64 - level.num, TWO_64 - level.den;
    assert Wrap(level.num) == -n && Wrap(level.den) == -d;
    if n <= MAX {
      NegativeProduct(total, n);
    } else {
      SafeMulRange(total, MIN);
      assert total * MIN == -(total * n);
    }
    MulNonneg(total, n);
    QuotOfNegatives(total * n, d);
    QuotientAtLeast(total, n, d);
  }

  lemma {:induction false} QuotientAtLeastOne(p: nat, d: nat)
    requires d > 0
    ensures p >= d <==> p / d >= 1
  {
  }

  /** Whoever is above the threshold holds more than a third. */
  ghost predicate MeansThird(needed: int, total: nat) {
    forall tally :: 0 <= tally <= total && tally > needed ==> 3 * tally > total
  }

  lemma {:induction false} SmallMeansThird(total: nat, num: nat, den: nat)
    requires den > 0 && 3 * num >= den
    ensures MeansThird(total * num / den, total) && total * num / den >= 0
  {
    MulNonneg(total, num);
    forall tally | 0 <= tally <= total && tally > total * num / den ensures 3 * tally > total {
      AboveThird(total, num, den, tally);
    }
  }

  lemma {:induction false} BigMeansThird(total: nat, needed: int)
    requires total <= 2 && needed <= 0 && (needed < 0 ==> total > 0)
    ensures MeansThird(needed, total) <==> needed == 0
  {
    if needed < 0 {
      assert 0 <= 0 <= total && 0 > needed && !(3 * 0 > total);
    }
  }

  /** A negated quotient is zero exactly when the product is smaller. */
  lemma {:induction false} NegatedQuotient(total: nat, num: nat, d: nat)
    requires d > 0
    ensures var needed := -(total * num / d);
      needed <= 0 && (needed < 0 <==> total * num >= d) && (needed < 0 ==> total > 0)
  {
    MulNonneg(total, num);
    QuotientAtLeastOne(total * num, d);
    assert total == 0 ==> total * num == 0;
  }

  /** Signers above the threshold of an accepted level hold more than a third of
      the power, for every tally, exactly when the level is not misread.  A
      misread level needs a total power of one or two. */
  lemma {:induction false} ThresholdIsThird(total: nat, level: Fraction)
    requires Fits(total) && IsFraction(level) && Accepted(level) && !Scaled(total, level).1
    ensures MeansThird(Threshold(total, level), total) <==> !Misread(total, level)
    ensures Misread(total, level) <==> Threshold(total, level) < 0
    ensures Misread(total, level) ==> 1 <= total <= 2
  {
    var needed := Threshold(total, level);
    if level.den <= MAX {
      AtLeastOneThird(level);
      ThresholdOfSmall(total, level);
      SmallMeansThird(total, level.num, level.den);
    } else if level.num <= MAX {
      ThresholdOfBig(total, level);
      NegatedQuotient(total, level.num, TWO_64 - level.den);
      BigMeansThird(total, needed);
    } else {
      ThresholdOfHuge(total, level);
      assert MeansThird(needed, total);
    }
  }

  /** A level just above a third that is accepted and misread. */
  lemma {:induction false} MisreadLevel()
    ensures var level := Fraction(MAX_UINT64 / 3, MAX_UINT64);
      IsFraction(level) && Accepted(level) && !Scaled(1, level).1 && !MeansThird(Threshold(1, level), 1)
  {
    var level := Fraction(MAX_UINT64 / 3, MAX_UINT64);
    SafeMulRange(1, level.num);
    ThresholdIsThird(1, level);
  }
}
