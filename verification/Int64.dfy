/** The int64 arithmetic of types/validator_set.go:871-933 over unbounded
    integers: every operation states when it leaves the int64 range. */
module Int64 {

  const MAX: int := 0x7fff_ffff_ffff_ffff
  const MIN: int := -0x8000_0000_0000_0000

  const MAX_UINT64: int := 0xffff_ffff_ffff_ffff

  /** MaxTotalVotingPower. */
  const MAX_POWER: int := 0x7fff_ffff_ffff_ffff / 8

  predicate Fits(x: int) { MIN <= x <= MAX }

  /** safeAdd: the sum, or -1 and an overflow flag. */
  function SafeAdd(a: int, b: int): (r: (int, bool))
    requires Fits(a) && Fits(b)
    ensures r.1 <==> !Fits(a + b)
    ensures !r.1 ==> r.0 == a + b
  {
    if b > 0 && a > MAX - b then (-1, true)
    else if b < 0 && a < MIN - b then (-1, true)
    else (a + b, false)
  }

  function SafeSub(a: int, b: int): (r: (int, bool))
    requires Fits(a) && Fits(b)
    ensures r.1 <==> !Fits(a - b)
    ensures !r.1 ==> r.0 == a - b
  {
    if b > 0 && a < MIN + b then (-1, true)
    else if b < 0 && a > MAX + b then (-1, true)
    else (a - b, false)
  }

  /** safeAddClip: the nearest int64 to the sum. */
  function AddClip(a: int, b: int): (c: int)
    requires Fits(a) && Fits(b)
    ensures c == if a + b > MAX then MAX else if a + b < MIN then MIN else a + b
  {
    var (c, overflow) := SafeAdd(a, b);
    if overflow then (if b < 0 then MIN else MAX) else c
  }

  /** safeSubClip: the nearest int64 to the difference. */
  function SubClip(a: int, b: int): (c: int)
    requires Fits(a) && Fits(b)
    ensures c == if a - b > MAX then MAX else if a - b < MIN then MIN else a - b
  {
    var (c, overflow) := SafeSub(a, b);
    if overflow then (if b > 0 then MIN else MAX) else c
  }

  function Abs(x: int): nat { if x < 0 then -x else x }

  /** Division that truncates toward zero, as in Go. */
  function Quot(a: int, b: int): int
    requires b != 0
  {
    if (a >= 0) == (b > 0) then Abs(a) / Abs(b) else -(Abs(a) / Abs(b))
  }

  /** Two's complement wrap-around of an int64 result. */
  function Wrap(x: int): (w: int)
    ensures Fits(w)
    ensures Fits(x) ==> w == x
  {
    (x - MIN) % 0x1_0000_0000_0000_0000 + MIN
  }

  /** It changes a number by multiples of 2^64 only. */
  lemma {:induction false} WrapCongruent(x: int)
    ensures exists k: int :: Wrap(x) == x + k * 0x1_0000_0000_0000_0000
  {
    var k := (x - MIN) / 0x1_0000_0000_0000_0000;
    assert Wrap(x) == x + (-k) * 0x1_0000_0000_0000_0000;
  }

  /** safeMul: the product, or 0 and an overflow flag. */
  function SafeMul(a: int, b: int): (r: (int, bool))
    requires Fits(a) && Fits(b)
  {
    if a == 0 || b == 0 then (0, false)
    else
      var absOfB, absOfA := if b < 0 then Wrap(-b) else b, if a < 0 then Wrap(-a) else a;
      if absOfA > Quot(MAX, absOfB) then (0, true) else (Wrap(a * b), false)
  }

  lemma {:induction false} QuotientBelow(m: nat, d: nat, a: nat)
    requires d > 0
    ensures a > m / d <==> a * d > m
  {
    var q := m / d;
    assert q * d <= m < q * d + d;
    if a > q {
      assert a * d >= (q + 1) * d by { Monotone(q + 1, a, d); }
    } else {
      assert a * d <= q * d by { Monotone(a, q, d); }
    }
  }

  lemma {:induction false} Monotone(a: nat, b: nat, d: nat)
    requires a <= b
    ensures a * d <= b * d
  {
  }

  lemma {:induction false} AbsProduct(a: int, b: int)
    ensures Abs(a * b) == Abs(a) * Abs(b)
  {
    if a >= 0 && b >= 0 {
    } else if a < 0 && b < 0 {
      assert a * b == (-a) * (-b);
      Monotone(0, -a, -b);
    } else if a < 0 {
      assert a * b == -((-a) * b);
      Monotone(0, -a, b);
    } else {
      assert a * b == -(a * (-b));
      Monotone(0, a, -b);
    }
  }

  /** With any first factor but the smallest int64, safeMul reports an overflow
      exactly when the product is outside [-MAX, MAX], and otherwise returns it. */
  lemma {:induction false} SafeMulRange(a: int, b: int)
    requires Fits(a) && Fits(b) && a != MIN
    ensures SafeMul(a, b).1 <==> !(-MAX <= a * b <= MAX)
    ensures !SafeMul(a, b).1 ==> SafeMul(a, b).0 == a * b
  {
    if a != 0 && b != 0 {
      AbsProduct(a, b);
      if b == MIN {
        Monotone(1, Abs(a), -MIN);
      } else {
        QuotientBelow(MAX, Abs(b), Abs(a));
      }
    }
  }

  /** With the smallest int64 as first factor no overflow is ever reported. */
  lemma {:induction false} SafeMulOfMin(b: int)
    requires Fits(b)
    ensures SafeMul(MIN, b) == (Wrap(MIN * b), false)
  {
    if b != 0 {
      var absOfB := if b < 0 then Wrap(-b) else b;
      assert absOfB == MIN || absOfB > 0;
      if absOfB > 0 { QuotientBelow(MAX, absOfB, 0); }
    }
  }

  /** What a safe multiplication promises: a flag exactly when the product does not
      fit in int64, and otherwise the product. */
  ghost predicate SafelyMultiplied(a: int, b: int, r: (int, bool)) {
    (r.1 <==> !Fits(a * b)) && (!r.1 ==> r.0 == a * b)
  }

  lemma {:induction false} MinTimes(b: int)
    ensures Fits(MIN * b) <==> b == 0 || b == 1
  {
  }

  /** safeMul keeps that promise exactly for these factors. */
  lemma {:induction false} SafeMulExact(a: int, b: int)
    requires Fits(a) && Fits(b)
    ensures SafelyMultiplied(a, b, SafeMul(a, b)) <==> if a == MIN then b == 0 || b == 1 else a * b != MIN
  {
    if a == MIN {
      SafeMulOfMin(b);
      MinTimes(b);
    } else {
      SafeMulRange(a, b);
    }
  }

  /** An overflow that is missed, and one that is none. */
  lemma {:induction false} SafeMulFails()
    ensures SafeMul(MIN, 2) == (0, false) && !Fits(MIN * 2)
    ensures SafeMul(2, MIN / 2).1 && Fits(2 * (MIN / 2))
  {
    SafeMulOfMin(2);
    SafeMulRange(2, MIN / 2);
  }
}
