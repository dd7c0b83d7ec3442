/** Proposer selection on lists of validators (types/validator_set.go:116-234):
    what one IncrementProposerPriority call computes, and why it neither clips
    nor overflows. */
module Proposer {
  import opened Basics
  import opened Int64
  import opened Rotation
  import opened Priorities
  import opened Validator

  function Powers(vs: seq<Validator>): (ws: seq<int>)
    ensures |ws| == |vs|
  {
    seq(|vs|, i requires 0 <= i < |vs| => vs[i].power)
  }

  function Prios(vs: seq<Validator>): (ps: seq<int>)
    ensures |ps| == |vs|
  {
    seq(|vs|, i requires 0 <= i < |vs| => vs[i].priority)
  }

  function Total(vs: seq<Validator>): int { Sum(Powers(vs), |vs|) }

  function WithPrios(vs: seq<Validator>, ps: seq<int>): (us: seq<Validator>)
    requires |ps| == |vs|
    ensures Prios(us) == ps && SameMembers(vs, us)
  {
    seq(|vs|, i requires 0 <= i < |vs| => vs[i].(priority := ps[i]))
  }

  /** Nothing but priorities differs. */
  ghost predicate SameMembers(vs: seq<Validator>, us: seq<Validator>) {
    |us| == |vs| && forall i {:trigger us[i]} :: 0 <= i < |vs| ==> us[i] == vs[i].(priority := us[i].priority)
  }

  lemma SameMembersTotal(vs: seq<Validator>, us: seq<Validator>)
    requires SameMembers(vs, us)
    ensures Powers(us) == Powers(vs) && Total(us) == Total(vs)
    ensures Distinct(vs) ==> Distinct(us)
  {
    assert Powers(us) == Powers(vs);
  }

  /** What every validator set met in a run satisfies. */
  ghost predicate Bounded(vs: seq<Validator>) {
    && Distinct(vs)
    && (forall i :: 0 <= i < |vs| ==> vs[i].power >= 1)
    && Total(vs) <= MAX_POWER
    && (forall i :: 0 <= i < |vs| ==> -3 * MAX_POWER <= vs[i].priority <= 3 * MAX_POWER)
  }

  lemma BoundedPowers(vs: seq<Validator>)
    requires forall i :: 0 <= i < |vs| ==> vs[i].power >= 1
    ensures forall i :: 0 <= i < |vs| ==> Powers(vs)[i] == vs[i].power <= Total(vs)
    ensures 0 <= Total(vs) && (|vs| > 0 ==> Total(vs) >= 1)
  {
    var ws := Powers(vs);
    assert forall i :: 0 <= i < |vs| ==> ws[i] == vs[i].power;
    MaskOfPowers(ws, seq(|vs|, i => true), |vs|);
    if |vs| > 0 { assert 1 <= ws[0] <= Sum(ws, |vs|); }
  }

  // -------------------------------------------------------------- one round

  /** The fold of getValWithMostPriority over the first `n` validators, as an index. */
  function Most(vs: seq<Validator>, n: nat): (a: nat)
    requires 1 <= n <= |vs|
    ensures a < n
  {
    if n == 1 then 0
    else
      var a := Most(vs, n - 1);
      if Precedes(vs[a], vs[n - 1]) then a else n - 1
  }

  lemma {:induction false} MostPrecedes(vs: seq<Validator>, n: nat, j: nat)
    requires 1 <= n <= |vs| && Distinct(vs) && j < n
    ensures j != Most(vs, n) ==> Precedes(vs[Most(vs, n)], vs[j])
  {
    if n > 1 {
      var a := Most(vs, n - 1);
      PrecedesTotal(vs[a], vs[n - 1]);
      if j < n - 1 {
        MostPrecedes(vs, n - 1, j);
        if j != a && Most(vs, n) == n - 1 { PrecedesTransitive(vs[n - 1], vs[a], vs[j]); }
      }
    }
  }

  ghost predicate FitsAll(vs: seq<Validator>) {
    && Fits(Total(vs))
    && forall i :: 0 <= i < |vs| ==> Fits(vs[i].power) && Fits(vs[i].priority)
  }

  function Raised(vs: seq<Validator>): (us: seq<Validator>)
    requires FitsAll(vs)
    ensures SameMembers(vs, us) && forall i :: 0 <= i < |us| ==> Fits(us[i].priority)
  {
    seq(|vs|, i requires 0 <= i < |vs| => vs[i].(priority := AddClip(vs[i].priority, vs[i].power)))
  }

  /** incrementProposerPriority. */
  function Stepped(vs: seq<Validator>): (us: seq<Validator>)
    requires |vs| > 0 && FitsAll(vs)
    ensures SameMembers(vs, us) && FitsAll(us)
  {
    var raised := Raised(vs);
    var a := Most(raised, |vs|);
    var us := raised[a := raised[a].(priority := SubClip(raised[a].priority, Total(vs)))];
    SameMembersTotal(vs, us);
    us
  }

  /** A step within the int64 range is a step of the unclipped rotation, and the
      proposer is the one that precedes all others. */
  lemma {:induction false} SteppedExact(vs: seq<Validator>)
    requires |vs| > 0 && FitsAll(vs) && Distinct(vs) && Total(vs) >= 0
    requires forall i :: 0 <= i < |vs| ==> MIN <= vs[i].priority + vs[i].power - Total(vs)
    requires forall i :: 0 <= i < |vs| ==> vs[i].priority + vs[i].power <= MAX
    ensures IsStep(Powers(vs), Prios(vs), Most(Raised(vs), |vs|), Prios(Stepped(vs)))
  {
    var raised, a := Raised(vs), Most(Raised(vs), |vs|);
    SameMembersTotal(vs, raised);
    forall i | 0 <= i < |vs| ensures raised[i].priority <= raised[a].priority {
      MostPrecedes(raised, |vs|, i);
    }
  }

  // ------------------------------------------------------------- one whole call

  /** RescalePriorities to twice the total, then shiftByAvgProposerPriority. */
  function Normalized(vs: seq<Validator>): (us: seq<Validator>)
    requires |vs| > 0 && Bounded(vs)
    ensures SameMembers(vs, us)
  {
    NormalizedFits(vs);
    WithPrios(vs, Centered(Rescaled(Prios(vs), 2 * Total(vs))))
  }

  /** The two int64 computations inside RescalePriorities stay in range, and so
      does everything it yields. */
  lemma {:induction false} NormalizedFits(vs: seq<Validator>)
    requires |vs| > 0 && Bounded(vs)
    ensures 0 <= Spread(Prios(vs)) && Fits(Spread(Prios(vs))) && Fits(Spread(Prios(vs)) + 2 * Total(vs) - 1)
    ensures AllFit(Rescaled(Prios(vs), 2 * Total(vs))) && Within(Rescaled(Prios(vs), 2 * Total(vs)), 2 * Total(vs))
    ensures 1 <= Total(vs)
  {
    var ps, d := Prios(vs), 2 * Total(vs);
    BoundedPowers(vs);
    SpreadBounds(ps, 3 * MAX_POWER);
    RescaledWithin(ps, d);
  }

  lemma SpreadBounds(ps: seq<int>, c: int)
    requires |ps| > 0 && forall i :: 0 <= i < |ps| ==> -c <= ps[i] <= c
    ensures 0 <= Spread(ps) <= 2 * c
    ensures forall i :: 0 <= i < |ps| ==> Abs(ps[i]) <= c
  {
  }

  ghost predicate InTwo(ps: seq<int>, t: int) { forall i :: 0 <= i < |ps| ==> -2 * t <= ps[i] <= 2 * t }

  lemma {:induction false} NormalizedPrios(vs: seq<Validator>)
    requires |vs| > 0 && Bounded(vs)
    ensures var ps, t := Prios(Normalized(vs)), Total(vs); Within(ps, 2 * t) && 0 <= Sum(ps, |ps|) < |ps| && InTwo(ps, t)
  {
    var t := Total(vs);
    NormalizedFits(vs);
    CenteredExact(Rescaled(Prios(vs), 2 * t), 2 * t);
    assert Prios(Normalized(vs)) == Centered(Rescaled(Prios(vs), 2 * t));
  }

  /** After scaling and centring the priorities span at most two totals, lie
      within two totals of zero, and sum to less than one per validator. */
  lemma {:induction false} NormalizedBounds(vs: seq<Validator>)
    requires |vs| > 0 && Bounded(vs)
    ensures var us, t := Normalized(vs), Total(vs);
            && Total(us) == t && Powers(us) == Powers(vs)
            && Bounded(us) && FitsAll(us)
            && Within(Prios(us), 2 * t)
            && 0 <= Sum(Prios(us), |us|) < |us|
            && (forall i :: 0 <= i < |us| ==> -2 * t <= us[i].priority <= 2 * t)
  {
    var us, t := Normalized(vs), Total(vs);
    NormalizedPrios(vs);
    SameMembersTotal(vs, us);
    BoundedPowers(us);
    forall i | 0 <= i < |us| ensures -2 * t <= us[i].priority <= 2 * t {
      assert us[i].priority == Prios(us)[i];
    }
  }

  function Steps(vs: seq<Validator>, k: nat): (us: seq<Validator>)
    requires |vs| > 0 && FitsAll(vs)
    ensures SameMembers(vs, us) && FitsAll(us)
  {
    if k == 0 then vs else Stepped(Steps(vs, k - 1))
  }

  /** The validator that paid in round `k`. */
  function Payer(vs: seq<Validator>, k: nat): Validator
    requires |vs| > 0 && FitsAll(vs) && k > 0
  {
    Steps(vs, k)[Most(Raised(Steps(vs, k - 1)), |vs|)]
  }

  lemma {:induction false} StepsUnfold(vs: seq<Validator>, k: nat)
    requires |vs| > 0 && FitsAll(vs)
    ensures var us := Steps(vs, k);
      Steps(vs, k + 1) == Stepped(us) && Payer(vs, k + 1) == Steps(vs, k + 1)[Most(Raised(us), |us|)]
  {
  }

  lemma {:induction false} NextRound(vs: seq<Validator>, k: nat, n: nat)
    requires |vs| > 0 && FitsAll(vs) && n == k + 1
    ensures var us := Steps(vs, k);
      && Total(us) == Total(vs) && (Distinct(vs) ==> Distinct(us))
      && Steps(vs, n) == Stepped(us) && Payer(vs, n) == Stepped(us)[Most(Raised(us), |us|)]
  {
    SameMembersTotal(vs, Steps(vs, k));
    StepsUnfold(vs, k);
  }

  /** IncrementProposerPriority. */
  function Incremented(vs: seq<Validator>, times: nat): (us: seq<Validator>)
    requires |vs| > 0 && Bounded(vs)
    ensures SameMembers(vs, us)
  {
    NormalizedBounds(vs);
    Steps(Normalized(vs), times)
  }

  /** The validators that pay in the rounds of one call, in order. */
  function Choices(vs: seq<Validator>, times: nat): (cs: seq<nat>)
    requires |vs| > 0 && Bounded(vs)
    ensures |cs| == times
  {
    if times == 0 then []
    else
      NormalizedBounds(vs);
      Choices(vs, times - 1) + [Most(Raised(Incremented(vs, times - 1)), |vs|)]
  }

  /** Room for `times` rounds: few rounds, or few enough validators (at most
      `2^e`) for their total.  One round always has room. */
  ghost predicate HasRoom(vs: seq<Validator>, times: nat, e: nat) {
    || (times + 2) * Total(vs) <= 3 * MAX_POWER
    || (|vs| <= Pow2(e) && (e + 3) * Total(vs) <= 3 * MAX_POWER)
  }

  lemma OneRoundHasRoom(vs: seq<Validator>, e: nat)
    requires Total(vs) <= MAX_POWER
    ensures HasRoom(vs, 1, e)
  {
  }

  /** Where a run from normalised priorities stands after `s` of `times` rounds. */
  lemma {:induction false} RunStaysLow(vs: seq<Validator>, ps: seq<seq<int>>, cs: seq<nat>, times: nat, e: nat, i: nat)
    requires |vs| > 0 && Bounded(vs) && HasRoom(vs, times, e) && i < |vs|
    requires IsRun(Powers(vs), ps, cs) && |cs| < times && ps[0] == Prios(Normalized(vs))
    ensures |ps[|cs|]| == |vs|
    ensures -2 * Total(vs) <= ps[|cs|][i] && ps[|cs|][i] + vs[i].power <= 3 * MAX_POWER
  {
    var v, t, s := Powers(vs), Total(vs), |cs|;
    NormalizedBounds(vs);
    BoundedPowers(vs);
    RunLowerBound(v, ps, cs, s, i);
    if (times + 2) * t <= 3 * MAX_POWER {
      RunShortBound(v, ps, cs, s, i);
      ShortRoom(s, times, t);
    } else {
      RunUpperBound(v, ps, cs, s, i, 2 * t, e);
      assert (e + 3) * t == e * t + 3 * t;
    }
  }

  lemma ShortRoom(s: nat, times: nat, t: nat)
    requires s < times
    ensures s * t + 3 * t <= (times + 2) * t
  {
    MulNonneg(times - s - 1, t);
    assert (times - s - 1) * t == times * t - s * t - t;
  }

  /** The proof left to the reader: with room for it, a call clips nowhere.  Its
      rounds are a run `ps`, `cs` of the unclipped rotation that starts from the
      normalised priorities, and it leaves a bounded set again. */
  lemma {:induction false} IncrementedExact(vs: seq<Validator>, times: nat, e: nat)
    returns (ps: seq<seq<int>>, cs: seq<nat>)
    requires |vs| > 0 && Bounded(vs) && HasRoom(vs, times, e)
    ensures IsRun(Powers(vs), ps, cs) && |cs| == times
    ensures ps[0] == Prios(Normalized(vs)) && ps[times] == Prios(Incremented(vs, times))
    ensures cs == Choices(vs, times)
    ensures Bounded(Incremented(vs, times))
    decreases times
  {
    if times == 0 {
      ps, cs := [Prios(Normalized(vs))], [];
      IncrementedZero(vs);
    } else {
      HasRoomLess(vs, times, e);
      ps, cs := IncrementedExact(vs, times - 1, e);
      ps, cs := IncrementedOnce(vs, ps, cs, times, e);
    }
  }

  lemma {:induction false} IncrementedZero(vs: seq<Validator>)
    requires |vs| > 0 && Bounded(vs)
    ensures Incremented(vs, 0) == Normalized(vs) && Bounded(Normalized(vs))
    ensures forall i :: 0 <= i < |vs| ==> Powers(vs)[i] >= 0
  {
    NormalizedBounds(vs);
    BoundedPowers(vs);
  }

  lemma {:induction false} IncrementedOnce(vs: seq<Validator>, ps: seq<seq<int>>, cs: seq<nat>, times: nat, e: nat)
    returns (ps': seq<seq<int>>, cs': seq<nat>)
    requires |vs| > 0 && Bounded(vs) && HasRoom(vs, times, e) && |cs| + 1 == times
    requires IsRun(Powers(vs), ps, cs)
    requires ps[0] == Prios(Normalized(vs)) && ps[|cs|] == Prios(Incremented(vs, times - 1))
    ensures IsRun(Powers(vs), ps', cs') && ps'[0] == ps[0]
    ensures |cs'| == times && ps'[times] == Prios(Incremented(vs, times))
    ensures cs == Choices(vs, times - 1) ==> cs' == Choices(vs, times)
    ensures Bounded(Incremented(vs, times))
  {
    var us := Incremented(vs, times - 1);
    assert FitsAll(us) && Incremented(vs, times) == Stepped(us) by { NormalizedBounds(vs); }
    RunStaysLowAll(vs, us, ps, cs, times, e);
    ps', cs' := ExtendRun(vs, us, ps, cs);
  }

  lemma {:induction false} HasRoomLess(vs: seq<Validator>, times: nat, e: nat)
    requires times > 0 && Bounded(vs) && HasRoom(vs, times, e)
    ensures HasRoom(vs, times - 1, e)
  {
    BoundedPowers(vs);
    Distribute(times + 1, Total(vs));
  }

  lemma {:induction false} RunStaysLowAll(vs: seq<Validator>, us: seq<Validator>, ps: seq<seq<int>>, cs: seq<nat>,
                                          times: nat, e: nat)
    requires |vs| > 0 && Bounded(vs) && HasRoom(vs, times, e) && SameMembers(vs, us)
    requires IsRun(Powers(vs), ps, cs) && |cs| < times && ps[0] == Prios(Normalized(vs)) && ps[|cs|] == Prios(us)
    ensures forall i :: 0 <= i < |us| ==> -2 * Total(vs) <= us[i].priority
    ensures forall i :: 0 <= i < |us| ==> us[i].priority + us[i].power <= 3 * MAX_POWER
  {
    forall i | 0 <= i < |us|
      ensures -2 * Total(vs) <= us[i].priority && us[i].priority + us[i].power <= 3 * MAX_POWER
    {
      RunStaysLow(vs, ps, cs, times, e, i);
      assert us[i].priority == Prios(us)[i];
    }
  }

  lemma {:induction false} ExtendRun(vs: seq<Validator>, us: seq<Validator>, ps: seq<seq<int>>, cs: seq<nat>)
    returns (ps': seq<seq<int>>, cs': seq<nat>)
    requires |vs| > 0 && Bounded(vs) && SameMembers(vs, us) && FitsAll(us)
    requires IsRun(Powers(vs), ps, cs) && ps[|cs|] == Prios(us)
    requires forall i :: 0 <= i < |us| ==> -2 * Total(vs) <= us[i].priority
    requires forall i :: 0 <= i < |us| ==> us[i].priority + us[i].power <= 3 * MAX_POWER
    ensures IsRun(Powers(vs), ps', cs') && ps'[0] == ps[0]
    ensures cs' == cs + [Most(Raised(us), |us|)] && ps'[|cs'|] == Prios(Stepped(us))
    ensures Bounded(Stepped(us))
  {
    SameMembersTotal(vs, us);
    BoundedPowers(vs);
    SteppedExact(us);
    var a, next := Most(Raised(us), |us|), Stepped(us);
    ps', cs' := ps + [Prios(next)], cs + [a];
    SameMembersTotal(us, next);
    forall i | 0 <= i < |next| ensures -3 * MAX_POWER <= next[i].priority <= 3 * MAX_POWER {
      assert next[i].priority == Prios(next)[i] && us[i].priority == Prios(us)[i] && Powers(us)[i] == us[i].power;
    }
  }

  /** Proportional fairness of one call: among `times` rounds validator `i` is
      chosen `times * power / total` times, up to a constant.  Nobody is chosen
      more than four times too often, and nobody starves. */
  lemma {:induction false} IncrementedFair(vs: seq<Validator>, times: nat, e: nat, i: nat)
    requires |vs| > 0 && Bounded(vs) && HasRoom(vs, times, e) && i < |vs| <= Pow2(e)
    ensures var t, n := Total(vs), Chosen(Choices(vs, times), times, i);
            times * vs[i].power - (4 + e) * t <= t * n <= times * vs[i].power + 4 * t
  {
    var ps, cs := IncrementedExact(vs, times, e);
    StartInTwo(vs);
    FairRun(vs, ps, cs, times, i, e);
  }

  lemma {:induction false} StartInTwo(vs: seq<Validator>)
    requires |vs| > 0 && Bounded(vs)
    ensures var ps := Prios(Normalized(vs)); Sum(ps, |vs|) >= 0 && InTwo(ps, Total(vs))
  {
    NormalizedBounds(vs);
    var ps := Prios(Normalized(vs));
    assert forall j :: 0 <= j < |vs| ==> ps[j] == Normalized(vs)[j].priority;
  }

  lemma {:induction false} FairRun(vs: seq<Validator>, ps: seq<seq<int>>, cs: seq<nat>, times: nat, i: nat, e: nat)
    requires IsRun(Powers(vs), ps, cs) && |cs| == times && i < |vs| <= Pow2(e)
    requires Sum(ps[0], |vs|) >= 0 && InTwo(ps[0], Total(vs))
    ensures var t, n := Total(vs), Chosen(cs, times, i);
            times * vs[i].power - (4 + e) * t <= t * n <= times * vs[i].power + 4 * t
  {
    assert Powers(vs)[i] == vs[i].power;
    RunFair(Powers(vs), ps, cs, times, i, e);
  }
}
