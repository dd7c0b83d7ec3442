/** A history in which two IncrementProposerPriority calls with one round elect
    another proposer than one call with two: three validators of power 6 are
    created, and then two of them lose most of it. */
module Instance {
  import opened Int64
  import opened Lists
  import opened Rotation
  import opened Priorities
  import opened Validator
  import opened Proposer
  import opened ChangeSet
  import opened ValidatorSet
  import opened Calls

  // ------------------------------------------------------- lists of three

  lemma {:induction false} SumOfThree(s: seq<int>)
    requires |s| == 3
    ensures Sum(s, 3) == s[0] + s[1] + s[2]
  {
    assert Sum(s, 0) == 0;
    assert Sum(s, 1) == s[0];
    assert Sum(s, 2) == s[0] + s[1];
  }

  lemma {:induction false} ExtremesOfThree(s: seq<int>)
    requires |s| == 3
    ensures forall i :: 0 <= i < 3 ==> MinOf(s, 3) <= s[i] <= MaxOf(s, 3)
    ensures MaxOf(s, 3) in [s[0], s[1], s[2]] && MinOf(s, 3) in [s[0], s[1], s[2]]
  {
  }

  /** Three validators with small powers and priorities. */
  ghost predicate Small(vs: seq<Validator>) {
    && |vs| == 3 && Distinct(vs)
    && forall i :: 0 <= i < 3 ==> 1 <= vs[i].power <= 10 && -30 <= vs[i].priority <= 30
  }

  lemma {:induction false} SmallBounded(vs: seq<Validator>)
    requires Small(vs)
    ensures Total(vs) == vs[0].power + vs[1].power + vs[2].power
    ensures Bounded(vs) && FitsAll(vs)
    ensures Prios(vs) == [vs[0].priority, vs[1].priority, vs[2].priority]
  {
    SumOfThree(Powers(vs));
  }

  /** Centred and close enough: normalising does nothing. */
  lemma {:induction false} SmallNormalized(vs: seq<Validator>)
    requires Small(vs) && 0 <= vs[0].priority + vs[1].priority + vs[2].priority < 3
    requires forall i, j :: 0 <= i < 3 && 0 <= j < 3 ==>
               vs[i].priority - vs[j].priority <= 2 * (vs[0].power + vs[1].power + vs[2].power)
    ensures Bounded(vs) && Normalized(vs) == vs
  {
    SmallBounded(vs);
    SumOfThree(Prios(vs));
    SpreadWithin(Prios(vs));
    assert Within(Prios(vs), 2 * Total(vs));
    NormalizedAlready(vs);
  }

  // ------------------------------------------------- two calls are not one call

  /** Powers 6, 2 and 1, by decreasing power. */
  function Trio(p: int, q: int, r: int): seq<Validator> {
    [Validator([3], [3], 6, p), Validator([2], [2], 2, q), Validator([1], [1], 1, r)]
  }

  lemma {:induction false} TrioSmall(p: int, q: int, r: int)
    requires -30 <= p <= 30 && -30 <= q <= 30 && -30 <= r <= 30
    ensures Small(Trio(p, q, r)) && Bounded(Trio(p, q, r)) && FitsAll(Trio(p, q, r)) && Total(Trio(p, q, r)) == 9
    ensures Prios(Trio(p, q, r)) == [p, q, r]
  {
    assert Distinct(Trio(p, q, r));
    SmallBounded(Trio(p, q, r));
  }

  /** One round that the first or the second wins, without a tie. */
  lemma {:induction false} TrioStep(p: int, q: int, r: int)
    requires -20 <= p <= 20 && -20 <= q <= 20 && -20 <= r <= 20 && r + 1 < p + 6 != q + 2
    ensures FitsAll(Trio(p, q, r))
    ensures var a := Most(Raised(Trio(p, q, r)), 3);
      if p + 6 < q + 2 then a == 1 && Stepped(Trio(p, q, r)) == Trio(p + 6, q - 7, r + 1)
      else a == 0 && Stepped(Trio(p, q, r)) == Trio(p - 3, q + 2, r + 1)
  {
    TrioSmall(p, q, r);
    var up := Raised(Trio(p, q, r));
    assert up == Trio(p + 6, q + 2, r + 1);
    assert Most(up, 1) == 0;
    assert Most(up, 2) == if p + 6 < q + 2 then 1 else 0;
  }

  lemma {:induction false} TrioScaled()
    ensures Rescaled([3, 8, -11], 18) == [1, 4, -5]
  {
    ExtremesOfThree([3, 8, -11]);
    assert Spread([3, 8, -11]) == 19;
    assert Ratio(19, 18) == 2;
    assert Quot(3, 2) == 1 && Quot(8, 2) == 4 && Quot(-11, 2) == -5;
    assert Divided([3, 8, -11], 2) == [1, 4, -5];
  }

  lemma {:induction false} TrioUnscaled()
    ensures Bounded(Trio(6, 6, -12)) && Normalized(Trio(6, 6, -12)) == Trio(6, 6, -12)
  {
    TrioSmall(6, 6, -12);
    SmallNormalized(Trio(6, 6, -12));
  }

  lemma {:induction false} TrioCentered()
    ensures AllFit([1, 4, -5]) && Centered([1, 4, -5]) == [1, 4, -5]
  {
    SumOfThree([1, 4, -5]);
    CenteredAlready([1, 4, -5]);
  }

  lemma {:induction false} TrioWith()
    ensures WithPrios(Trio(3, 8, -11), [1, 4, -5]) == Trio(1, 4, -5)
  {
  }

  lemma {:induction false} TrioRescaled()
    ensures Bounded(Trio(3, 8, -11)) && Normalized(Trio(3, 8, -11)) == Trio(1, 4, -5)
  {
    TrioSmall(3, 8, -11);
    TrioScaled();
    TrioCentered();
    TrioWith();
  }

  lemma {:induction false} TrioFirstRound()
    ensures var vs := Trio(6, 6, -12); Bounded(vs) && Choices(vs, 1) == [0] && Incremented(vs, 1) == Trio(3, 8, -11)
  {
    var vs := Trio(6, 6, -12);
    TrioUnscaled();
    IncrementedZero(vs);
    NextChoice(vs, 0, vs);
    TrioStep(6, 6, -12);
    assert Choices(vs, 0) == [];
  }

  lemma {:induction false} TrioSecondRound(vs: seq<Validator>, k: nat)
    requires |vs| > 0 && Bounded(vs) && Choices(vs, k) == [0] && Incremented(vs, k) == Trio(3, 8, -11)
    ensures Choices(vs, k + 1) == [0, 1]
  {
    NextChoice(vs, k, Trio(3, 8, -11));
    TrioStep(3, 8, -11);
  }

  lemma {:induction false} TrioNextCall()
    ensures var us := Trio(3, 8, -11); Bounded(us) && Choices(us, 1) == [0]
  {
    var us := Trio(3, 8, -11);
    TrioRescaled();
    IncrementedZero(us);
    NextChoice(us, 0, Trio(1, 4, -5));
    TrioStep(1, 4, -5);
    assert Choices(us, 0) == [];
  }

  /** Powers 6, 2 and 1 with priorities 6, 6 and -12: the second round of one call
      elects the second validator, a second call the first. */
  lemma {:induction false} TwoCallsAreNotOne()
    ensures var vs := Trio(6, 6, -12);
      && Bounded(vs) && Bounded(Incremented(vs, 1))
      && Choices(vs, 2) == [0, 1] && Choices(Incremented(vs, 1), 1) == [0]
  {
    TrioFirstRound();
    TrioSecondRound(Trio(6, 6, -12), 1);
    TrioNextCall();
  }

  // ------------------------------------------------------------ how it comes up

  /** Three validators of power 6, by address. */
  function Equals(p: int, q: int, r: int): seq<Validator> {
    [Validator([1], [1], 6, p), Validator([2], [2], 6, q), Validator([3], [3], 6, r)]
  }

  /** Two of them lose power. */
  function Losses(): seq<Validator> { [Validator([1], [1], 1, 0), Validator([2], [2], 2, 0)] }

  /** Powers 1, 2 and 6, by address. */
  function Changed(p: int, q: int, r: int): seq<Validator> {
    [Validator([1], [1], 1, p), Validator([2], [2], 2, q), Validator([3], [3], 6, r)]
  }

  lemma {:induction false} EqualsSmall(p: int, q: int, r: int)
    requires -30 <= p <= 30 && -30 <= q <= 30 && -30 <= r <= 30
    ensures Small(Equals(p, q, r)) && Bounded(Equals(p, q, r)) && FitsAll(Equals(p, q, r)) && Total(Equals(p, q, r)) == 18
    ensures Prios(Equals(p, q, r)) == [p, q, r]
  {
    assert Distinct(Equals(p, q, r));
    SmallBounded(Equals(p, q, r));
  }

  lemma {:induction false} SumByThree<T>(xs: seq<T>, f: T -> int)
    requires |xs| == 3
    ensures SumBy(xs, f, 3) == f(xs[0]) + f(xs[1]) + f(xs[2])
  {
    assert SumBy(xs, f, 1) == f(xs[0]);
    assert SumBy(xs, f, 2) == f(xs[0]) + f(xs[1]);
  }

  lemma {:induction false} SumByTwo<T>(xs: seq<T>, f: T -> int)
    requires |xs| == 2
    ensures SumBy(xs, f, 2) == f(xs[0]) + f(xs[1])
  {
    assert SumBy(xs, f, 1) == f(xs[0]);
  }

  lemma {:induction false} EqualsAcceptable()
    ensures Acceptable([], Equals(0, 0, 0), false)
    ensures TotalAfter([], Equals(0, 0, 0)) == TotalBeforeRemovals([], Equals(0, 0, 0)) == 18
  {
    var valz := Equals(0, 0, 0);
    SumByThree(valz, Delta([]));
    SumByThree(valz, Gain([]));
    assert valz[0] in valz;
  }

  lemma {:induction false} EqualsTarget(v: Validator)
    ensures v in Equals(-20, -20, -20) <==> InTarget(v, [], Equals(0, 0, 0))
  {
    var valz := Equals(0, 0, 0);
    EqualsAcceptable();
    forall i | 0 <= i < 3 ensures Repriced([], valz[i], 18) == Equals(-20, -20, -20)[i] { }
    if v in Equals(-20, -20, -20) {
      var i :| 0 <= i < 3 && v == Equals(-20, -20, -20)[i];
      assert valz[i] in valz && v == Repriced([], valz[i], 18);
    }
  }

  lemma {:induction false} TwentiesCentered()
    ensures AllFit([-20, -20, -20]) && Centered([-20, -20, -20]) == [0, 0, 0]
    ensures Rescaled([-20, -20, -20], 36) == [-20, -20, -20]
  {
    SumOfThree([-20, -20, -20]);
    ExtremesOfThree([-20, -20, -20]);
    assert Average([-20, -20, -20]) == -20;
  }

  lemma {:induction false} EqualsCentered()
    ensures Bounded(Equals(-20, -20, -20)) && Normalized(Equals(-20, -20, -20)) == Equals(0, 0, 0)
  {
    EqualsSmall(-20, -20, -20);
    TwentiesCentered();
    assert WithPrios(Equals(-20, -20, -20), [0, 0, 0]) == Equals(0, 0, 0);
  }

  lemma {:induction false} EqualsOrdered(p: int, q: int, r: int)
    ensures Ascending(Equals(p, q, r)) && Sorted(Equals(p, q, r), ByPower())
  {
    assert Less([1], [2]) && Less([2], [3]) && Less([1], [3]);
    assert !Less([2], [1]) && !Less([3], [2]) && !Less([3], [1]);
  }

  /** All that an update has to be, in one place. */
  lemma {:induction false} MakesUpdate(vs: seq<Validator>, changes: seq<Validator>, merged: seq<Validator>,
                                       us: seq<Validator>)
    requires |merged| > 0 && Bounded(merged) && Ascending(merged) && Total(merged) == TotalAfter(vs, changes)
    requires forall v :: v in merged <==> InTarget(v, vs, changes)
    requires multiset(us) == multiset(Normalized(merged)) && Sorted(us, ByPower())
    ensures Updated(vs, changes, merged, us)
  {
  }

  lemma {:induction false} EqualsUpdated()
    ensures Updated([], Equals(0, 0, 0), Equals(-20, -20, -20), Equals(0, 0, 0))
  {
    var valz, merged := Equals(0, 0, 0), Equals(-20, -20, -20);
    assert |merged| > 0 && Total(merged) == TotalAfter([], valz) by {
      EqualsAcceptable();
      EqualsSmall(-20, -20, -20);
    }
    EqualsCentered();
    EqualsOrdered(-20, -20, -20);
    EqualsOrdered(0, 0, 0);
    forall v ensures v in merged <==> InTarget(v, [], valz) { EqualsTarget(v); }
    MakesUpdate([], valz, merged, valz);
  }

  lemma {:induction false} EqualsStep()
    ensures FitsAll(Equals(0, 0, 0)) && Stepped(Equals(0, 0, 0)) == Equals(-12, 6, 6)
  {
    EqualsSmall(0, 0, 0);
    var up := Raised(Equals(0, 0, 0));
    assert up == Equals(6, 6, 6);
    assert Less([1], [2]) && Less([1], [3]);
    assert Most(up, 1) == 0;
    assert Most(up, 2) == 0;
  }

  lemma {:induction false} EqualsRotated()
    ensures Bounded(Equals(0, 0, 0)) && Incremented(Equals(0, 0, 0), 1) == Equals(-12, 6, 6)
  {
    var us := Equals(0, 0, 0);
    EqualsSmall(0, 0, 0);
    SmallNormalized(us);
    IncrementedZero(us);
    NextChoice(us, 0, us);
    EqualsStep();
  }

  lemma {:induction false} MakesCreated(valz: seq<Validator>, merged: seq<Validator>, us: seq<Validator>,
                                        vs: seq<Validator>)
    requires Updated([], valz, merged, us) && Sound(us) && vs == Incremented(us, 1)
    ensures Created(valz, merged, us, vs)
  {
    SoundNormalizes(merged);
    SoundNormalizes(us);
    SoundRotates(us);
  }

  lemma {:induction false} EqualsCreated()
    ensures Created(Equals(0, 0, 0), Equals(-20, -20, -20), Equals(0, 0, 0), Equals(-12, 6, 6))
  {
    EqualsUpdated();
    EqualsRotated();
    MakesCreated(Equals(0, 0, 0), Equals(-20, -20, -20), Equals(0, 0, 0), Equals(-12, 6, 6));
  }

  lemma {:induction false} LossesFound()
    ensures Find(Losses(), [1]) == 0 && Find(Losses(), [2]) == 1 && Find(Losses(), [3]) == -1
    ensures var vs := Equals(-12, 6, 6); Find(vs, [1]) == 0 && Find(vs, [2]) == 1 && Find(vs, [3]) == 2
  {
  }

  lemma {:induction false} LossesAcceptable()
    ensures Acceptable(Equals(-12, 6, 6), Losses(), true)
    ensures TotalAfter(Equals(-12, 6, 6), Losses()) == TotalBeforeRemovals(Equals(-12, 6, 6), Losses()) == 9
  {
    var vs, changes := Equals(-12, 6, 6), Losses();
    EqualsSmall(-12, 6, 6);
    LossesFound();
    SumByTwo(changes, Delta(vs));
    SumByTwo(changes, Gain(vs));
    assert changes[0] in changes;
  }

  lemma {:induction false} LossesRepriced()
    ensures var vs, changes, merged := Equals(-12, 6, 6), Losses(), Changed(-12, 6, 6);
      && merged[0] == Repriced(vs, changes[0], 9) && merged[1] == Repriced(vs, changes[1], 9) && merged[2] == vs[2]
      && Has(changes, [1]) && Has(changes, [2]) && !Has(changes, [3])
  {
    LossesFound();
  }

  lemma {:induction false} LossesTarget(v: Validator)
    ensures v in Changed(-12, 6, 6) <==> InTarget(v, Equals(-12, 6, 6), Losses())
  {
    var vs, changes, merged := Equals(-12, 6, 6), Losses(), Changed(-12, 6, 6);
    assert TotalBeforeRemovals(vs, changes) == 9 by { LossesAcceptable(); }
    LossesRepriced();
    if v in merged {
      if v == merged[0] {
        assert changes[0] in changes;
      } else if v == merged[1] {
        assert changes[1] in changes;
      } else {
        assert v == vs[2];
      }
    }
  }

  lemma {:induction false} ChangedOrdered()
    ensures Ascending(Changed(-12, 6, 6)) && Sorted(Trio(6, 6, -12), ByPower())
    ensures multiset(Trio(6, 6, -12)) == multiset(Changed(-12, 6, 6))
  {
    assert Less([1], [2]) && Less([2], [3]) && Less([1], [3]);
    var a, b, c := Changed(-12, 6, 6)[0], Changed(-12, 6, 6)[1], Changed(-12, 6, 6)[2];
    assert Trio(6, 6, -12) == [c, b, a] && Changed(-12, 6, 6) == [a, b, c];
  }

  lemma {:induction false} ChangedNormalized()
    ensures Bounded(Changed(-12, 6, 6)) && Total(Changed(-12, 6, 6)) == 9
    ensures Normalized(Changed(-12, 6, 6)) == Changed(-12, 6, 6)
  {
    assert Distinct(Changed(-12, 6, 6));
    SmallBounded(Changed(-12, 6, 6));
    SmallNormalized(Changed(-12, 6, 6));
  }

  lemma {:induction false} LossesUpdated()
    ensures Updated(Equals(-12, 6, 6), Losses(), Changed(-12, 6, 6), Trio(6, 6, -12))
  {
    var vs, merged := Equals(-12, 6, 6), Changed(-12, 6, 6);
    assert |merged| > 0 && Total(merged) == TotalAfter(vs, Losses()) by {
      LossesAcceptable();
      ChangedNormalized();
    }
    ChangedNormalized();
    ChangedOrdered();
    forall v ensures v in merged <==> InTarget(v, vs, Losses()) { LossesTarget(v); }
    MakesUpdate(vs, Losses(), merged, Trio(6, 6, -12));
  }

  lemma {:induction false} UpdateFollows(vs: seq<Validator>, changes: seq<Validator>, merged: seq<Validator>,
                                         us: seq<Validator>)
    requires Sound(vs) && changes != [] && Acceptable(vs, changes, true) && Updated(vs, changes, merged, us)
    ensures Next()(vs, Update(changes), us) && AreSound()(us)
  {
    UpdatedBounded(vs, changes, merged, us);
    SoundNormalizes(merged);
  }

  /** A history of one action. */
  lemma {:induction false} OneAction(vs: seq<Validator>, a: Action, us: seq<Validator>)
    ensures Sound(vs) && Next()(vs, a, us) && AreSound()(us) ==> IsHistory([vs, us], [a])
  {
    if Sound(vs) && Next()(vs, a, us) && AreSound()(us) {
      HistoryStarts(vs, []);
      ExtendTrace([vs], [], AreSound(), Next(), us, a);
    }
  }

  /** NewValidatorSet with three equal validators, and one update: that leads to the
      priorities for which two calls are not one. */
  lemma {:induction false} TrioIsReached()
    ensures Acceptable([], Equals(0, 0, 0), false)
    ensures Created(Equals(0, 0, 0), Equals(-20, -20, -20), Equals(0, 0, 0), Equals(-12, 6, 6))
    ensures IsHistory([Equals(-12, 6, 6), Trio(6, 6, -12)], [Update(Losses())])
  {
    EqualsAcceptable();
    EqualsCreated();
    EqualsSmall(-12, 6, 6);
    LossesAcceptable();
    LossesUpdated();
    UpdateFollows(Equals(-12, 6, 6), Losses(), Changed(-12, 6, 6), Trio(6, 6, -12));
    OneAction(Equals(-12, 6, 6), Update(Losses()), Trio(6, 6, -12));
  }
}
