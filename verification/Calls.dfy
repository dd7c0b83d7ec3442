/** Consecutive IncrementProposerPriority calls (types/validator_set.go:116-138).
    Each call rescales first, so two calls need not do what one call with the sum
    of their rounds does. */
module Calls {
  import opened Int64
  import opened Rotation
  import opened Priorities
  import opened Validator
  import opened Proposer
  import opened Divergence

  /** Rotation neither makes nor destroys priority. */
  lemma {:induction false} IncrementedSum(vs: seq<Validator>, times: nat, e: nat)
    requires |vs| > 0 && Bounded(vs) && HasRoom(vs, times, e)
    ensures Bounded(Incremented(vs, times)) && 0 <= Sum(Prios(Incremented(vs, times)), |vs|) < |vs|
  {
    var ps, cs := IncrementedExact(vs, times, e);
    NormalizedPrios(vs);
    RunAccount(Powers(vs), ps, cs, times, 0);
  }

  lemma {:induction false} CenteredAlready(ps: seq<int>)
    requires |ps| > 0 && AllFit(ps) && 0 <= Sum(ps, |ps|) < |ps|
    ensures Centered(ps) == ps
  {
    assert Average(ps) == 0;
    forall i | 0 <= i < |ps| ensures Centered(ps)[i] == ps[i] { assert Fits(ps[i]); }
  }

  lemma {:induction false} WithOwnPrios(vs: seq<Validator>)
    ensures WithPrios(vs, Prios(vs)) == vs
  {
  }

  /** Centred priorities are normalised already exactly if they need no scaling. */
  lemma {:induction false} NormalizedAlready(us: seq<Validator>)
    requires |us| > 0 && Bounded(us) && 0 <= Sum(Prios(us), |us|) < |us|
    ensures Normalized(us) == us <==> Spread(Prios(us)) <= 2 * Total(us)
  {
    NormalizedFits(us);
    if Spread(Prios(us)) <= 2 * Total(us) {
      CenteredAlready(Prios(us));
      WithOwnPrios(us);
    } else if Normalized(us) == us {
      NormalizedPrios(us);
      SpreadWithin(Prios(us));
      assert false;
    }
  }

  ghost predicate Follows<T>(f: T -> T, xs: nat -> T) {
    forall k: nat {:trigger f(xs(k))} :: xs(k + 1) == f(xs(k))
  }

  /** `x` after `k` applications of `f`. */
  ghost function Iterated<T>(f: T -> T, x: T, k: nat): T {
    if k == 0 then x else f(Iterated(f, x, k - 1))
  }

  lemma {:induction false} IteratedFrom<T>(f: T -> T, x: T, a: nat, b: nat, n: nat)
    requires n == a + b
    ensures Iterated(f, Iterated(f, x, a), b) == Iterated(f, x, n)
  {
    if b > 0 { IteratedFrom(f, x, a, b - 1, n - 1); }
  }

  lemma {:induction false} FollowingIterates<T>(f: T -> T, xs: nat -> T, k: nat)
    requires Follows(f, xs)
    ensures xs(k) == Iterated(f, xs(0), k)
  {
    if k > 0 {
      FollowingIterates(f, xs, k - 1);
      assert xs(k - 1 + 1) == f(xs(k - 1));
    }
  }

  ghost function OneStep(): seq<Validator> -> seq<Validator> {
    (us: seq<Validator>) => if |us| > 0 && FitsAll(us) then Stepped(us) else us
  }

  ghost function StepsOf(vs: seq<Validator>): nat -> seq<Validator>
    requires |vs| > 0 && FitsAll(vs)
  {
    (k: nat) => Steps(vs, k)
  }

  lemma {:induction false} StepsFollow(vs: seq<Validator>)
    requires |vs| > 0 && FitsAll(vs)
    ensures Follows(OneStep(), StepsOf(vs))
  {
    forall k: nat ensures StepsOf(vs)(k + 1) == OneStep()(StepsOf(vs)(k)) { StepsNext(vs, k); }
  }

  lemma {:induction false} StepsNext(vs: seq<Validator>, k: nat)
    requires |vs| > 0 && FitsAll(vs)
    ensures StepsOf(vs)(k + 1) == OneStep()(StepsOf(vs)(k))
  {
  }

  lemma {:induction false} StepsIterate(vs: seq<Validator>, k: nat)
    requires |vs| > 0 && FitsAll(vs)
    ensures Steps(vs, k) == Iterated(OneStep(), vs, k)
  {
    StepsFollow(vs);
    FollowingIterates(OneStep(), StepsOf(vs), k);
  }

  lemma {:induction false} StepsCompose(vs: seq<Validator>, a: nat, b: nat, n: nat)
    requires |vs| > 0 && FitsAll(vs) && n == a + b
    ensures Steps(Steps(vs, a), b) == Steps(vs, n)
  {
    StepsIterate(vs, a);
    StepsIterate(Steps(vs, a), b);
    StepsIterate(vs, n);
    IteratedFrom(OneStep(), vs, a, b, n);
  }

  lemma {:induction false} ComposeFrom(vs: seq<Validator>, us: seq<Validator>, a: nat, b: nat, n: nat)
    requires |vs| > 0 && Bounded(vs) && n == a + b && us == Incremented(vs, a) && Bounded(us) && Normalized(us) == us
    ensures Incremented(us, b) == Incremented(vs, n)
  {
    NormalizedBounds(vs);
    StepsCompose(Normalized(vs), a, b, n);
  }

  // ------------------------------------------------- after a rescaling

  /** What normalising does to centred priorities that are too far apart. */
  lemma {:induction false} ScaledAway(us: seq<Validator>) returns (r: int, d: int)
    requires |us| > 0 && Bounded(us) && 0 <= Sum(Prios(us), |us|) < |us| && Spread(Prios(us)) > 2 * Total(us)
    ensures r >= 2 && 0 <= d <= 1 && IsScaled(Prios(us), Prios(Normalized(us)), r, d)
    ensures r >= 3 ==> Spread(Prios(us)) > 4 * Total(us)
  {
    var ps, t := Prios(us), Total(us);
    NormalizedFits(us);
    RatioCovers(Spread(ps), 2 * t);
    r := Ratio(Spread(ps), 2 * t);
    AverageOfDivided(ps, r);
    d := -Average(Divided(ps, r));
    CenteredExact(Divided(ps, r), 2 * t);
    assert Prios(Normalized(us)) == Centered(Divided(ps, r));
    if r >= 3 { BigRatio(Spread(ps), 2 * t); }
  }

  lemma {:induction false} ScaledDiffer(us: seq<Validator>)
    requires |us| > 0 && Bounded(us) && Spread(Prios(us)) > 2 * Total(us)
    ensures Prios(us) != Prios(Normalized(us))
  {
    NormalizedPrios(us);
    SpreadWithin(Prios(Normalized(us)));
  }

  lemma {:induction false} PowersPositive(vs: seq<Validator>)
    requires Bounded(vs)
    ensures forall i :: 0 <= i < |vs| ==> Powers(vs)[i] >= 1
  {
  }

  lemma {:induction false} BoundedStep(us: seq<Validator>)
    requires |us| > 0 && Bounded(us)
    ensures FitsAll(us) && IsStep(Powers(us), Prios(us), Most(Raised(us), |us|), Prios(Stepped(us)))
  {
    BoundedPowers(us);
    SteppedExact(us);
  }

  /** The priorities after each round of one call. */
  ghost function PriosAfter(vs: seq<Validator>): nat -> seq<int>
    requires |vs| > 0 && Bounded(vs)
  {
    (k: nat) => Prios(Incremented(vs, k))
  }

  lemma {:induction false} RoundOf(vs: seq<Validator>, k: nat, e: nat)
    requires |vs| > 0 && Bounded(vs) && HasRoom(vs, k, e)
    ensures IsRound(Powers(vs), PriosAfter(vs), k)
  {
    var us := Incremented(vs, k);
    assert FitsAll(us) && Incremented(vs, k + 1) == Stepped(us) by { NormalizedBounds(vs); }
    IncrementedSum(vs, k, e);
    SameMembersTotal(vs, us);
    BoundedStep(us);
    assert PaysIn(Powers(vs), PriosAfter(vs), k, Most(Raised(us), |us|));
  }

  lemma {:induction false} HasRoomAfter(vs: seq<Validator>, us: seq<Validator>, m: nat, k: nat, e: nat)
    requires |vs| > 0 && Bounded(vs) && |us| == |vs| && Total(us) == Total(vs) && k <= m && HasRoom(vs, m, e)
    ensures HasRoom(us, k, e)
  {
    BoundedPowers(vs);
    MulNonneg(m - k, Total(vs));
    assert (m + 2) * Total(vs) == (m - k) * Total(vs) + (k + 2) * Total(vs);
  }

  lemma {:induction false} StartOf(vs: seq<Validator>)
    requires |vs| > 0 && Bounded(vs)
    ensures IsStart(Powers(vs), PriosAfter(vs)(0)) && PriosAfter(vs)(0) == Prios(Normalized(vs))
  {
    IncrementedZero(vs);
    NormalizedPrios(vs);
  }

  lemma {:induction false} CallOf(vs: seq<Validator>, n: nat, m: nat, e: nat)
    requires |vs| > 0 && Bounded(vs) && n <= m + 1 && HasRoom(vs, m, e)
    ensures IsCall(Powers(vs), PriosAfter(vs), n)
  {
    forall k | 0 <= k < n ensures IsRound(Powers(vs), PriosAfter(vs), k) {
      HasRoomAfter(vs, vs, m, k, e);
      RoundOf(vs, k, e);
    }
    StartOf(vs);
    PowersPositive(vs);
  }

  lemma {:induction false} RescaledStart(us: seq<Validator>) returns (r: int, d: int)
    requires |us| > 0 && Bounded(us) && 0 <= Sum(Prios(us), |us|) < |us| && Spread(Prios(us)) > 2 * Total(us)
    ensures IsRescaled(Powers(us), Prios(us), PriosAfter(us)(0), r, d)
  {
    r, d := ScaledAway(us);
    ScaledDiffer(us);
    StartOf(us);
  }

  lemma {:induction false} PriosDiverge(vs: seq<Validator>, us: seq<Validator>, a: nat, b: nat, n: nat, m: nat, e: nat)
    requires |vs| > 0 && Bounded(vs) && n == a + b <= m + 1 && HasRoom(vs, m, e)
    requires |us| == |vs| && Bounded(us) && Powers(us) == Powers(vs) && HasRoom(us, m, e)
    requires PriosAfter(vs)(a) == Prios(us) && 0 <= Sum(Prios(us), |us|) < |us| && Spread(Prios(us)) > 2 * Total(us)
    ensures PriosAfter(us)(b) != PriosAfter(vs)(n)
  {
    var r, d := RescaledStart(us);
    CallOf(us, b, m, e);
    CallOf(vs, n, m, e);
    RoundsDiverge(Powers(vs), PriosAfter(vs), PriosAfter(us), a, b, n, r, d);
  }

  /** Once rescaled, the calls do not come back to where one call would be. */
  lemma {:induction false} CallsDiverge(vs: seq<Validator>, us: seq<Validator>, a: nat, b: nat, n: nat, m: nat, e: nat)
    requires |vs| > 0 && Bounded(vs) && a <= m && n == a + b <= m + 1 && HasRoom(vs, m, e)
    requires us == Incremented(vs, a) && Spread(Prios(us)) > 2 * Total(vs)
    ensures Bounded(us) && Incremented(us, b) != Incremented(vs, n)
  {
    HasRoomAfter(vs, vs, m, a, e);
    IncrementedSum(vs, a, e);
    SameMembersTotal(vs, us);
    HasRoomAfter(vs, us, m, m, e);
    PriosDiverge(vs, us, a, b, n, m, e);
  }

  lemma {:induction false} CallsMeet(vs: seq<Validator>, us: seq<Validator>, a: nat, b: nat, n: nat, e: nat)
    requires |vs| > 0 && Bounded(vs) && n == a + b && HasRoom(vs, a, e) && us == Incremented(vs, a)
    requires Spread(Prios(us)) <= 2 * Total(vs)
    ensures Bounded(us) && Incremented(us, b) == Incremented(vs, n)
  {
    IncrementedSum(vs, a, e);
    SameMembersTotal(vs, us);
    NormalizedAlready(us);
    ComposeFrom(vs, us, a, b, n);
  }

  /** A call with `a` rounds and one with `b` end where one call with all of them
      does, exactly if the priorities are at most two totals apart in between. */
  lemma {:induction false} CallsCompose(vs: seq<Validator>, a: nat, b: nat, n: nat, m: nat, e: nat)
    requires |vs| > 0 && Bounded(vs) && 0 < b && n == a + b <= m + 1 && HasRoom(vs, m, e)
    ensures Bounded(Incremented(vs, a))
    ensures Incremented(Incremented(vs, a), b) == Incremented(vs, n)
       <==> Spread(Prios(Incremented(vs, a))) <= 2 * Total(vs)
  {
    var us := Incremented(vs, a);
    if Spread(Prios(us)) <= 2 * Total(vs) {
      HasRoomAfter(vs, vs, m, a, e);
      CallsMeet(vs, us, a, b, n, e);
    } else {
      CallsDiverge(vs, us, a, b, n, m, e);
    }
  }

  /** Without asking for room in the second call: it may be any call at all exactly
      under the same condition. */
  lemma {:induction false} AllCallsCompose(vs: seq<Validator>, a: nat, e: nat)
    requires |vs| > 0 && Bounded(vs) && HasRoom(vs, a, e)
    ensures Bounded(Incremented(vs, a))
    ensures (forall b: nat, n: nat :: b > 0 && n == a + b ==> Incremented(Incremented(vs, a), b) == Incremented(vs, n))
       <==> Spread(Prios(Incremented(vs, a))) <= 2 * Total(vs)
  {
    CallsCompose(vs, a, 1, a + 1, a, e);
    var us := Incremented(vs, a);
    if Spread(Prios(us)) <= 2 * Total(vs) {
      forall b: nat, n: nat | b > 0 && n == a + b ensures Incremented(us, b) == Incremented(vs, n) {
        CallsMeet(vs, us, a, b, n, e);
      }
    }
  }

  /** The next choice of a call, from where the call stands. */
  lemma {:induction false} NextChoice(vs: seq<Validator>, k: nat, us: seq<Validator>)
    requires |vs| > 0 && Bounded(vs) && us == Incremented(vs, k)
    ensures FitsAll(us) && Incremented(vs, k + 1) == Stepped(us)
    ensures Choices(vs, k + 1) == Choices(vs, k) + [Most(Raised(us), |us|)]
  {
    NormalizedBounds(vs);
  }
}
