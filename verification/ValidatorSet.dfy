/** types/validator_set.go: the validator set as an object.  Every method keeps
    `Valid()`, so it holds in every state of every run that starts from an empty
    set and interleaves updates with proposer rotations. */
module ValidatorSet {
  import opened Basics
  import opened Int64
  import opened Lists
  import opened Rotation
  import opened Priorities
  import opened Validator
  import opened Proposer
  import opened ChangeSet

  class ValidatorSet {
    var validators: seq<Validator>
    var proposer: Option<Validator>
    var totalVotingPower: int

    /** The cached total is either not yet computed or right. */
    ghost predicate Valid()
      reads this
    {
      && Bounded(validators)
      && (totalVotingPower == 0 || totalVotingPower == Total(validators))
    }

    constructor ()
      ensures Valid() && validators == [] && proposer == None
    {
      validators, proposer, totalVotingPower := [], None, 0;
    }

    /** updateTotalVotingPower: neither clips nor panics on a bounded set. */
    method UpdateTotalVotingPower()
      requires Bounded(validators)
      modifies this`totalVotingPower
      ensures totalVotingPower == Total(validators)
    {
      var sum := 0;
      for i := 0 to |validators|
        invariant sum == Sum(Powers(validators), i)
        invariant 0 <= sum <= MAX_POWER
      {
        PrefixBound(validators, i + 1);
        sum := AddClip(sum, validators[i].power);
      }
      totalVotingPower := sum;
    }

    /** TotalVotingPower: computed on first use. */
    method TotalVotingPower() returns (t: int)
      requires Valid()
      modifies this`totalVotingPower
      ensures Valid() && t == totalVotingPower == Total(validators)
    {
      if totalVotingPower == 0 {
        UpdateTotalVotingPower();
      }
      t := totalVotingPower;
    }

    /** computeMaxMinPriorityDiff, for any priorities; the subtraction may wrap. */
    method ComputeMaxMinPriorityDiff() returns (diff: int)
      requires |validators| > 0 && AllFit(Prios(validators))
      ensures diff == WrappedSpread(Prios(validators))
      ensures diff == Spread(Prios(validators)) <==> Fits(Spread(Prios(validators)))
    {
      var max, min := Extremes();
      WrappedSpreadIs(Prios(validators));
      diff := Wrap(max - min);
      if diff < 0 { diff := Wrap(-1 * diff); }
    }

    /** Its loop. */
    method Extremes() returns (max: int, min: int)
      requires |validators| > 0 && AllFit(Prios(validators))
      ensures max == MaxOf(Prios(validators), |validators|) && min == MinOf(Prios(validators), |validators|)
    {
      max, min := MIN, MAX;
      for i := 0 to |validators|
        invariant i == 0 ==> max == MIN && min == MAX
        invariant i > 0 ==> max == MaxOf(Prios(validators), i) && min == MinOf(Prios(validators), i)
      {
        var p := validators[i].priority;
        ExtremesNext(Prios(validators), i, p);
        if p < min { min := p; }
        if p > max { max := p; }
      }
    }

    /** RescalePriorities, for any priorities and any bound.  The source panics on
        an empty set, and divides by zero where `ok` is false. */
    method RescalePriorities(diffMax: int) returns (ok: bool)
      requires |validators| > 0 && AllFit(Prios(validators))
      modifies this`validators
      ensures var r := WrappedRescaled(Prios(old(validators)), diffMax);
        ok == r.Some? && validators == if ok then WithPrios(old(validators), r.value) else old(validators)
    {
      if diffMax <= 0 { return true; }
      var diff := ComputeMaxMinPriorityDiff();
      var ratio := WrappedRatio(diff, diffMax);
      if diff > diffMax {
        if ratio == 0 { return false; }
        DivideAll(ratio);
      }
      ok := true;
    }

    /** The loop of RescalePriorities. */
    method DivideAll(ratio: int)
      requires ratio != 0
      modifies this`validators
      ensures validators == WithPrios(old(validators), WrappedDivided(Prios(old(validators)), ratio))
    {
      ghost var vs := validators;
      for i := 0 to |validators|
        invariant |validators| == |vs|
        invariant forall j :: 0 <= j < |vs| ==>
          validators[j] == if j < i then vs[j].(priority := Wrap(Quot(vs[j].priority, ratio))) else vs[j]
      {
        validators := validators[i := validators[i].(priority := Wrap(Quot(validators[i].priority, ratio)))];
      }
    }

    /** shiftByAvgProposerPriority. */
    method ShiftByAvgProposerPriority()
      requires |validators| > 0 && AllFit(Prios(validators))
      modifies this`validators
      ensures validators == WithPrios(old(validators), Centered(Prios(old(validators))))
    {
      ghost var vs, ps := validators, Prios(validators);
      var avg := ComputeAvgProposerPriority();
      for i := 0 to |validators|
        invariant |validators| == |vs|
        invariant forall j :: 0 <= j < |vs| ==>
                    validators[j] == if j < i then vs[j].(priority := Centered(ps)[j]) else vs[j]
      {
        assert Fits(ps[i]);
        validators := validators[i := validators[i].(priority := SubClip(validators[i].priority, avg))];
      }
    }

    /** computeAvgProposerPriority sums in arbitrary precision. */
    method ComputeAvgProposerPriority() returns (avg: int)
      requires |validators| > 0 && AllFit(Prios(validators))
      ensures avg == Average(Prios(validators)) && Fits(avg)
    {
      var sum := 0;
      for i := 0 to |validators|
        invariant sum == Sum(Prios(validators), i)
      {
        sum := sum + validators[i].priority;
      }
      AverageBetween(Prios(validators), MIN, MAX);
      avg := sum / |validators|;
    }

    /** getValWithMostPriority, as an index; comparing never panics, since
        addresses are distinct. */
    method GetValWithMostPriority() returns (a: nat)
      requires |validators| > 0 && Distinct(validators)
      ensures a == Most(validators, |validators|)
      ensures forall j :: 0 <= j < |validators| && j != a ==> Precedes(validators[a], validators[j])
      ensures forall j :: 0 <= j < |validators| ==> validators[j].priority <= validators[a].priority
      ensures forall j :: 0 <= j < |validators| && j != a && validators[j].priority == validators[a].priority ==>
        Less(validators[a].address, validators[j].address)
    {
      a := 0;
      for i := 1 to |validators|
        invariant a == Most(validators, i)
      {
        assert validators[a].address != validators[i].address;
        if Compare(validators[a], validators[i]) == validators[i] {
          a := i;
        }
      }
      forall j | 0 <= j < |validators| && j != a ensures Precedes(validators[a], validators[j]) {
        MostPrecedes(validators, |validators|, j);
      }
    }

    /** incrementProposerPriority. */
    method IncrementOnce() returns (mostest: Validator)
      requires |validators| > 0 && Distinct(validators) && FitsAll(validators) && totalVotingPower == Total(validators)
      modifies this`validators
      ensures validators == Stepped(old(validators))
      ensures mostest == validators[Most(Raised(old(validators)), |validators|)]
    {
      ghost var vs := validators;
      for i := 0 to |validators|
        invariant |validators| == |vs|
        invariant forall j :: 0 <= j < |vs| ==> validators[j] == if j < i then Raised(vs)[j] else vs[j]
      {
        validators := validators[i := validators[i].(priority := AddClip(validators[i].priority, validators[i].power))];
      }
      assert validators == Raised(vs);
      SameMembersTotal(vs, validators);
      var a := GetValWithMostPriority();
      mostest := validators[a].(priority := SubClip(validators[a].priority, totalVotingPower));
      validators := validators[a := mostest];
    }

    /** IncrementProposerPriority: rescale, centre, then rotate `times` times.
        The proposer is the validator that paid last.  With room for `times`
        rounds the set stays valid. */
    method IncrementProposerPriority(times: nat, ghost e: nat)
      requires Valid() && |validators| > 0 && times > 0
      modifies this
      ensures validators == Incremented(old(validators), times)
      ensures FitsAll(Normalized(old(validators)))
      ensures proposer == Some(Payer(Normalized(old(validators)), times))
      ensures HasRoom(old(validators), times, e) ==> Valid()
    {
      ghost var vs := validators;
      var t := TotalVotingPower();
      RescaleAndCenter(t);
      assert Distinct(validators) && FitsAll(validators) && Total(validators) == t by { NormalizedBounds(vs); }
      Rotate(times);
      if HasRoom(vs, times, e) {
        assert Bounded(validators) by { var ps, cs := IncrementedExact(vs, times, e); }
        SameMembersTotal(vs, validators);
      }
    }

    /** The loop of IncrementProposerPriority. */
    method Rotate(times: nat)
      requires |validators| > 0 && times > 0
      requires Distinct(validators) && FitsAll(validators) && totalVotingPower == Total(validators)
      modifies this`validators, this`proposer
      ensures validators == Steps(old(validators), times)
      ensures proposer == Some(Payer(old(validators), times))
    {
      ghost var vs := validators;
      var i := 0;
      while i < times
        invariant i <= times && validators == Steps(vs, i)
        invariant i > 0 ==> proposer == Some(Payer(vs, i))
      {
        var n := i + 1;
        NextRound(vs, i, n);
        var mostest := IncrementOnce();
        proposer := Some(mostest);
        i := n;
      }
    }

    /** updateWithChangeSet.  It succeeds exactly on acceptable changes; then the
        set is the updated one and its total is right.  On failure, and on an
        empty change list, members and proposer stay as they are. */
    method UpdateWithChangeSet(changes: seq<Validator>, allowDeletes: bool)
      returns (ok: bool, ghost merged: seq<Validator>)
      requires Valid()
      modifies this
      ensures Valid() && proposer == old(proposer)
      ensures ok <==> changes == [] || Acceptable(old(validators), changes, allowDeletes)
      ensures !ok || changes == [] ==> validators == old(validators)
      ensures ok && changes != [] ==> Updated(old(validators), changes, merged, validators)
      ensures ok && changes != [] ==> totalVotingPower == Total(validators) == TotalAfter(old(validators), changes)
    {
      merged := [];
      if |changes| == 0 { return true, merged; }
      ghost var vs := validators;
      var total := TotalVotingPower();
      var accepted, updates, deletes, tvp := CheckChanges(validators, total, changes, allowDeletes);
      if !accepted { return false, merged; }
      merged := Install(changes, updates, deletes, tvp);
      UpdatedBounded(vs, changes, merged, validators);
      ok := true;
    }

    /** The part of updateWithChangeSet after the checks. */
    method Install(ghost changes: seq<Validator>, updates: seq<Validator>, deletes: seq<Validator>, tvp: int)
      returns (merged: seq<Validator>)
      requires Bounded(validators) && Acceptable(validators, changes, true) && Processed(changes, updates, deletes)
      requires forall d :: d in deletes ==> Has(validators, d.address)
      requires tvp == TotalBeforeRemovals(validators, changes) && 0 <= tvp <= 2 * MAX_POWER
      requires SumBy(updates, Delta(validators), |updates|) + SumBy(deletes, Delta(validators), |deletes|)
            == SumBy(changes, Delta(validators), |changes|)
      modifies this`validators, this`totalVotingPower
      ensures Updated(old(validators), changes, merged, validators)
      ensures totalVotingPower == TotalAfter(old(validators), changes)
    {
      ghost var vs := validators;
      merged := MergeChanges(validators, changes, updates, deletes, tvp);
      MergedBounded(vs, changes, merged);
      validators := merged;
      UpdateTotalVotingPower();
      RescaleAndCenter(totalVotingPower);
      ByPowerOrders();
      var sorted := Sort(validators, ByPower());
      validators := sorted;
    }

    method RescaleAndCenter(t: int)
      requires |validators| > 0 && Bounded(validators) && t == Total(validators)
      modifies this`validators
      ensures validators == Normalized(old(validators))
    {
      ghost var vs := validators;
      assert Fits(2 * t) by { BoundedPowers(vs); }
      NormalizedFits(vs);
      WrappedRescaledExact(Prios(vs), 2 * t);
      var ok := RescalePriorities(2 * t);
      ShiftByAvgProposerPriority();
      TwiceWithPrios(vs, Rescaled(Prios(vs), 2 * t), Centered(Rescaled(Prios(vs), 2 * t)));
    }
  }

  lemma {:induction false} ExtremesNext(ps: seq<int>, i: nat, p: int)
    requires i < |ps| && ps[i] == p && Fits(p)
    ensures MaxOf(ps, i + 1) == if i > 0 && MaxOf(ps, i) >= p then MaxOf(ps, i) else p
    ensures MinOf(ps, i + 1) == if i > 0 && MinOf(ps, i) <= p then MinOf(ps, i) else p
    ensures MIN <= p <= MAX
  {
  }

  // ------------------------------------------------------------------ updates

  /** `us` is the outcome of a successful update of `vs`: the members the changes
      ask for, normalised, in order of decreasing power. */
  ghost predicate Updated(vs: seq<Validator>, changes: seq<Validator>, merged: seq<Validator>, us: seq<Validator>) {
    && |merged| > 0 && Bounded(merged) && Ascending(merged)
    && (forall v :: v in merged <==> InTarget(v, vs, changes))
    && Total(merged) == TotalAfter(vs, changes)
    && multiset(us) == multiset(Normalized(merged)) && Sorted(us, ByPower())
  }

  /** An update is a map update: the power at each address is the one asked for, or
      the one it had; no power means not a member. */
  lemma {:induction false} UpdatedPower(vs: seq<Validator>, changes: seq<Validator>, merged: seq<Validator>,
                                        us: seq<Validator>, a: Address)
    requires Bounded(vs) && WellFormed(changes) && Updated(vs, changes, merged, us)
    ensures PowerAt(us, a) == if Has(changes, a) then PowerAt(changes, a) else PowerAt(vs, a)
    ensures Has(us, a) <==> PowerAt(us, a) > 0
  {
    var ns := Normalized(merged);
    UpdatedBounded(vs, changes, merged, us);
    NormalizedBounds(merged);
    PermutedValidators(ns, us);
    SamePowerAt(merged, us, ns, a);
    MergedPower(vs, changes, merged, a);
  }

  lemma {:induction false} SamePowerAt(merged: seq<Validator>, us: seq<Validator>, ns: seq<Validator>, a: Address)
    requires SameMembers(merged, ns) && Distinct(merged) && Distinct(us) && forall v :: v in ns <==> v in us
    ensures (Has(us, a) <==> Has(merged, a)) && PowerAt(us, a) == PowerAt(merged, a)
  {
    if Has(us, a) {
      var u := us[Find(us, a)];
      assert u in ns;
      var i :| 0 <= i < |ns| && ns[i] == u;
      HasMember(merged, merged[i]);
    }
    if Has(merged, a) {
      var i := Find(merged, a);
      assert ns[i] in us;
      HasMember(us, ns[i]);
    }
  }

  lemma {:induction false} MergedPower(vs: seq<Validator>, changes: seq<Validator>, merged: seq<Validator>, a: Address)
    requires Bounded(vs) && WellFormed(changes) && Bounded(merged)
    requires forall v :: v in merged <==> InTarget(v, vs, changes)
    ensures PowerAt(merged, a) == if Has(changes, a) then PowerAt(changes, a) else PowerAt(vs, a)
    ensures Has(merged, a) <==> PowerAt(merged, a) > 0
  {
    if Has(changes, a) {
      var c := changes[Find(changes, a)];
      assert c in changes;
      if c.power > 0 {
        var v := Repriced(vs, c, TotalBeforeRemovals(vs, changes));
        assert InTarget(v, vs, changes);
        HasMember(merged, v);
      } else {
        TargetAt(vs, changes, merged, a);
      }
    } else if Has(vs, a) {
      var v := vs[Find(vs, a)];
      assert InTarget(v, vs, changes);
      HasMember(merged, v);
    } else {
      TargetAt(vs, changes, merged, a);
    }
  }

  /** A member of the target is the change for its address, or has none. */
  lemma {:induction false} TargetAt(vs: seq<Validator>, changes: seq<Validator>, merged: seq<Validator>, a: Address)
    requires Distinct(changes) && forall v :: v in merged <==> InTarget(v, vs, changes)
    ensures Has(merged, a) ==> if Has(changes, a) then PowerAt(changes, a) > 0 else Has(vs, a)
  {
    if Has(merged, a) {
      var v := merged[Find(merged, a)];
      assert v in merged;
      if v in vs && !Has(changes, v.address) {
        HasMember(vs, v);
      } else {
        var c :| c in changes && c.power > 0 && v == Repriced(vs, c, TotalBeforeRemovals(vs, changes));
        HasMember(changes, c);
      }
    }
  }

  /** By decreasing power, and by increasing address where powers are equal. */
  lemma {:induction false} UpdatedOrder(vs: seq<Validator>, changes: seq<Validator>, merged: seq<Validator>,
                                        us: seq<Validator>, i: nat, j: nat)
    requires Updated(vs, changes, merged, us) && i < j < |us|
    ensures us[i].power > us[j].power || (us[i].power == us[j].power && Less(us[i].address, us[j].address))
  {
    assert ByPower()(us[i], us[j]);
    UpdatedBounded(vs, changes, merged, us);
    LessTotal(us[i].address, us[j].address);
  }

  /** The checks of updateWithChangeSet, which come before any change is made. */
  method CheckChanges(vals: seq<Validator>, total: int, changes: seq<Validator>, allowDeletes: bool)
    returns (ok: bool, updates: seq<Validator>, deletes: seq<Validator>, tvp: int)
    requires Bounded(vals) && total == Total(vals)
    ensures ok <==> Acceptable(vals, changes, allowDeletes)
    ensures ok ==> Processed(changes, updates, deletes) && forall d :: d in deletes ==> Has(vals, d.address)
    ensures ok ==> tvp == TotalBeforeRemovals(vals, changes) && 0 <= tvp <= 2 * MAX_POWER
    ensures ok ==> (SumBy(updates, Delta(vals), |updates|) + SumBy(deletes, Delta(vals), |deletes|)
                    == SumBy(changes, Delta(vals), |changes|))
  {
    tvp := 0;
    ok, updates, deletes := ProcessChanges(changes, Delta(vals), Gain(vals));
    if !ok { return; }
    AscendingDistinct(updates);
    AscendingDistinct(deletes);
    if !allowDeletes && |deletes| != 0 {
      assert deletes[0] in deletes;
      ok := false;
      return;
    }
    assert allowDeletes || forall c :: c in changes ==> c.power > 0;
    var numNew := NumNewValidators(updates, vals);
    if numNew == 0 && |vals| == |deletes| {
      if forall d :: d in deletes ==> Has(vals, d.address) { EmptinessTest(vals, changes, updates, deletes); }
      ok := false;
      return;
    }
    var found, removed := VerifyRemovals(deletes, vals);
    if !found {
      ok := false;
      return;
    }
    EmptinessTest(vals, changes, updates, deletes);
    SplitTotals(vals, changes, updates, deletes);
    ok, tvp := VerifyUpdates(updates, vals, total, removed);
  }

  lemma {:induction false} SplitTotals(vals: seq<Validator>, changes: seq<Validator>, updates: seq<Validator>,
                                       deletes: seq<Validator>)
    requires Bounded(vals) && Processed(changes, updates, deletes) && WellFormed(changes)
    requires SumBy(updates, Delta(vals), |updates|) + SumBy(deletes, Delta(vals), |deletes|)
          == SumBy(changes, Delta(vals), |changes|)
    requires SumBy(updates, Gain(vals), |updates|) + SumBy(deletes, Gain(vals), |deletes|)
          == SumBy(changes, Gain(vals), |changes|)
    ensures TotalAfter(vals, changes)
         == Total(vals) - SumBy(deletes, At(vals), |deletes|) + SumBy(updates, Delta(vals), |updates|)
    ensures TotalBeforeRemovals(vals, changes) == Total(vals) + SumBy(updates, Delta(vals), |updates|) >= 0
    ensures 0 <= SumBy(deletes, At(vals), |deletes|) <= Total(vals)
  {
    AscendingDistinct(updates);
    AscendingDistinct(deletes);
    assert forall j :: 0 <= j < |deletes| ==> deletes[j] in deletes;
    assert forall j :: 0 <= j < |updates| ==> updates[j] in updates;
    RemovalDeltas(vals, vals, deletes, |deletes|);
    GainsOfUpdates(vals, updates, |updates|);
    GainsOfRemovals(vals, deletes, |deletes|);
    FoundPowerBound(deletes, vals, |deletes|);
    FoundPowerBound(updates, vals, |updates|);
    DeltaAboveFound(updates, vals, |updates|);
  }

  lemma {:induction false} GainsOfUpdates(vals: seq<Validator>, updates: seq<Validator>, n: nat)
    requires n <= |updates| && forall j :: 0 <= j < |updates| ==> updates[j].power > 0
    ensures SumBy(updates, Gain(vals), n) == SumBy(updates, Delta(vals), n)
  {
    if n > 0 { GainsOfUpdates(vals, updates, n - 1); }
  }

  lemma {:induction false} GainsOfRemovals(vals: seq<Validator>, deletes: seq<Validator>, n: nat)
    requires n <= |deletes| && forall j :: 0 <= j < |deletes| ==> deletes[j].power == 0
    ensures SumBy(deletes, Gain(vals), n) == 0
  {
    if n > 0 { GainsOfRemovals(vals, deletes, n - 1); }
  }

  lemma {:induction false} MergedBounded(vs: seq<Validator>, changes: seq<Validator>, merged: seq<Validator>)
    requires Bounded(vs) && Acceptable(vs, changes, true) && Ascending(merged)
    requires forall v :: v in merged <==> InTarget(v, vs, changes)
    requires Total(merged) == TotalAfter(vs, changes)
    requires 0 <= TotalBeforeRemovals(vs, changes) <= 2 * MAX_POWER
    ensures Bounded(merged) && |merged| > 0
  {
    AscendingDistinct(merged);
    forall i | 0 <= i < |merged|
      ensures merged[i].power >= 1 && -3 * MAX_POWER <= merged[i].priority <= 3 * MAX_POWER
    {
      TargetBounded(vs, changes, merged[i]);
    }
    if c :| c in changes && c.power > 0 {
      var v := Repriced(vs, c, TotalBeforeRemovals(vs, changes));
      assert InTarget(v, vs, changes);
      assert v in merged;
    } else {
      var v :| v in vs && !Has(changes, v.address);
      assert InTarget(v, vs, changes);
      assert v in merged;
    }
  }

  lemma {:induction false} TargetBounded(vs: seq<Validator>, changes: seq<Validator>, v: Validator)
    requires Bounded(vs) && InTarget(v, vs, changes) && 0 <= TotalBeforeRemovals(vs, changes) <= 2 * MAX_POWER
    ensures v.power >= 1 && -3 * MAX_POWER <= v.priority <= 3 * MAX_POWER
  {
  }

  lemma {:induction false} UpdatedBounded(vs: seq<Validator>, changes: seq<Validator>, merged: seq<Validator>,
                                          us: seq<Validator>)
    requires Updated(vs, changes, merged, us)
    ensures Bounded(us) && |us| == |merged| && Total(us) == TotalAfter(vs, changes)
    ensures forall i :: 0 <= i < |us| ==> -2 * Total(us) <= us[i].priority <= 2 * Total(us)
  {
    var ns := Normalized(merged);
    NormalizedBounds(merged);
    PermutedValidators(ns, us);
    PermutedTotal(ns, us);
    forall i | 0 <= i < |us|
      ensures us[i].power >= 1 && -2 * Total(us) <= us[i].priority <= 2 * Total(us)
    {
      assert us[i] in ns;
    }
  }

  lemma {:induction false} PermutedTotal(vs: seq<Validator>, us: seq<Validator>)
    requires multiset(vs) == multiset(us)
    ensures Total(vs) == Total(us)
  {
    SumByPermuted(vs, us, Pow());
    TotalIsSum(vs, |vs|);
    TotalIsSum(us, |us|);
  }

  // --------------------------------------------------------------- whole runs

  ghost predicate Sound(vs: seq<Validator>) { |vs| > 0 && Bounded(vs) }

  /** The rescale-and-shift of `vs` neither wraps nor clips, and leaves a spread of
      at most twice the total and a sum in [0, n). */
  ghost predicate NormalizesExactly(vs: seq<Validator>)
    requires Sound(vs)
  {
    var ps, qs, d := Prios(vs), Prios(Normalized(vs)), 2 * Total(vs);
    var rs := Rescaled(ps, d);
    && Fits(Spread(ps)) && Fits(Spread(ps) + d - 1) && WrappedRescaled(ps, d) == Some(rs)
    && (forall i :: 0 <= i < |vs| ==> qs[i] == rs[i] - Average(rs))
    && Within(qs, d) && 0 <= Sum(qs, |vs|) < |vs|
  }

  lemma {:induction false} SoundNormalizes(vs: seq<Validator>)
    requires Sound(vs)
    ensures NormalizesExactly(vs)
  {
    var d := 2 * Total(vs);
    NormalizedFits(vs);
    assert AllFit(Prios(vs)) by { assert forall i :: 0 <= i < |vs| ==> Prios(vs)[i] == vs[i].priority; }
    WrappedRescaledExact(Prios(vs), d);
    CenteredExact(Rescaled(Prios(vs), d), d);
    assert Prios(Normalized(vs)) == Centered(Rescaled(Prios(vs), d));
  }

  /** `us` is `vs` after one step of the unclipped rotation from normalised
      priorities. */
  ghost predicate RotatesExactly(vs: seq<Validator>, us: seq<Validator>)
    requires Sound(vs)
  {
    us == Incremented(vs, 1) && IsRun(Powers(vs), [Prios(Normalized(vs)), Prios(us)], Choices(vs, 1))
  }

  lemma {:induction false} SoundRotates(vs: seq<Validator>)
    requires Sound(vs)
    ensures RotatesExactly(vs, Incremented(vs, 1)) && Sound(Incremented(vs, 1))
  {
    OneRoundHasRoom(vs, 0);
    var ps, cs := IncrementedExact(vs, 1, 0);
    assert |ps| == 2 && ps == [ps[0], ps[1]];
  }

  /** What NewValidatorSet makes of `valz`: the validators given, in `merged` by
      address and in `us` normalised by power, after one exact rotation. */
  ghost predicate Created(valz: seq<Validator>, merged: seq<Validator>, us: seq<Validator>, vs: seq<Validator>) {
    && Updated([], valz, merged, us) && NormalizesExactly(merged)
    && Sound(us) && NormalizesExactly(us) && RotatesExactly(us, vs)
  }

  /** NewValidatorSet; `None` stands for its panic. */
  method NewValidatorSet(valz: seq<Validator>)
    returns (r: Option<ValidatorSet>, ghost merged: seq<Validator>, ghost us: seq<Validator>)
    ensures r.Some? <==> valz == [] || Acceptable([], valz, false)
    ensures r.Some? ==> fresh(r.value) && r.value.Valid()
    ensures r.Some? && valz == [] ==> r.value.validators == []
    ensures r.Some? && valz != [] ==> |r.value.validators| > 0 && Created(valz, merged, us, r.value.validators)
    ensures r.Some? && valz != [] ==> Total(r.value.validators) == TotalAfter([], valz)
  {
    var vset := new ValidatorSet();
    var ok;
    ok, merged := vset.UpdateWithChangeSet(valz, false);
    us := vset.validators;
    if !ok { return None, merged, us; }
    if |valz| > 0 {
      UpdatedBounded([], valz, merged, us);
      SoundNormalizes(merged);
      SoundNormalizes(us);
      SoundRotates(us);
      OneRoundHasRoom(us, 0);
      vset.IncrementProposerPriority(1, 0);
      SameMembersTotal(us, vset.validators);
    }
    r := Some(vset);
  }

  datatype Action = Update(changes: seq<Validator>) | Rotate

  /** What one action does to the list of validators, all of it without wrapping
      or clipping. */
  ghost predicate Follows(vs: seq<Validator>, a: Action, us: seq<Validator>)
    requires Sound(vs)
  {
    match a
    case Update(changes) =>
      if changes != [] && Acceptable(vs, changes, true)
      then exists merged :: Updated(vs, changes, merged, us) && NormalizesExactly(merged)
      else us == vs
    case Rotate => NormalizesExactly(vs) && RotatesExactly(vs, us)
  }

  ghost function Next(): (seq<Validator>, Action, seq<Validator>) -> bool {
    (vs: seq<Validator>, a: Action, us: seq<Validator>) => Sound(vs) && Follows(vs, a, us)
  }

  ghost function AreSound(): seq<Validator> -> bool {
    (vs: seq<Validator>) => Sound(vs)
  }

  ghost predicate IsHistory(trace: seq<seq<Validator>>, actions: seq<Action>) {
    IsTrace(trace, actions, AreSound(), Next())
  }

  /** Every history of a validator set: from any acceptable initial list, any
      interleaving of UpdateWithChangeSet and IncrementProposerPriority(1)
      passes through bounded, non-empty sets only; every rescale-and-shift and
      every rotation on the way, those of the creation included, is exact. */
  method Run(valz: seq<Validator>, actions: seq<Action>)
    returns (trace: seq<seq<Validator>>, ghost merged: seq<Validator>, ghost us: seq<Validator>)
    requires valz != [] && Acceptable([], valz, false)
    ensures IsHistory(trace, actions)
    ensures Created(valz, merged, us, trace[0])
  {
    var r;
    r, merged, us := NewValidatorSet(valz);
    ghost var vs := r.value.validators;
    trace := Continue(r.value, actions);
    assert trace[0] == vs;
  }

  /** Any actions on a valid, non-empty set. */
  method Continue(vset: ValidatorSet, actions: seq<Action>) returns (trace: seq<seq<Validator>>)
    requires vset.Valid() && |vset.validators| > 0
    modifies vset
    ensures IsHistory(trace, actions) && trace[0] == old(vset.validators)
  {
    trace := [vset.validators];
    HistoryStarts(vset.validators, actions);
    for n := 0 to |actions|
      invariant vset.Valid() && IsHistoryOf(vset.validators, trace, actions[..n]) && trace[0] == old(vset.validators)
    {
      trace := Record(vset, actions[n], trace, actions[..n]);
      assert actions[..n + 1] == actions[..n] + [actions[n]];
    }
    assert actions[..|actions|] == actions;
  }

  /** A history that ends in `vs`. */
  ghost predicate IsHistoryOf(vs: seq<Validator>, trace: seq<seq<Validator>>, actions: seq<Action>) {
    IsHistory(trace, actions) && trace[|actions|] == vs
  }

  lemma {:induction false} HistoryStarts(vs: seq<Validator>, actions: seq<Action>)
    requires Sound(vs)
    ensures IsHistoryOf(vs, [vs], actions[..0])
  {
  }

  method Record(vset: ValidatorSet, a: Action, trace: seq<seq<Validator>>, ghost actions: seq<Action>)
    returns (longer: seq<seq<Validator>>)
    requires vset.Valid() && IsHistoryOf(vset.validators, trace, actions)
    modifies vset
    ensures vset.Valid() && IsHistoryOf(vset.validators, longer, actions + [a]) && longer[0] == trace[0]
  {
    assert AreSound()(trace[|actions|]);
    Act(vset, a);
    longer := trace + [vset.validators];
    ExtendTrace(trace, actions, AreSound(), Next(), vset.validators, a);
  }

  method Act(vset: ValidatorSet, a: Action)
    requires vset.Valid() && Sound(vset.validators)
    modifies vset
    ensures vset.Valid() && Sound(vset.validators)
    ensures Follows(old(vset.validators), a, vset.validators)
  {
    ghost var vs := vset.validators;
    match a
    case Update(changes) =>
      var ok, merged := vset.UpdateWithChangeSet(changes, true);
      if ok && changes != [] {
        UpdatedBounded(vs, changes, merged, vset.validators);
        SoundNormalizes(merged);
      }
    case Rotate =>
      SoundNormalizes(vs);
      SoundRotates(vs);
      OneRoundHasRoom(vs, 0);
      vset.IncrementProposerPriority(1, 0);
  }

  lemma TwiceWithPrios(vs: seq<Validator>, ps: seq<int>, qs: seq<int>)
    requires |ps| == |qs| == |vs|
    ensures WithPrios(WithPrios(vs, ps), qs) == WithPrios(vs, qs)
  {
  }

  lemma {:induction false} PrefixBound(vs: seq<Validator>, n: nat)
    requires Bounded(vs) && n <= |vs|
    ensures 0 <= Sum(Powers(vs), n) <= Total(vs)
    ensures forall i :: 0 <= i < |vs| ==> 0 <= vs[i].power <= Total(vs)
    decreases |vs| - n
  {
    BoundedPowers(vs);
    MaskOfPowers(Powers(vs), seq(|vs|, i => true), n);
    if n < |vs| { PrefixBound(vs, n + 1); }
  }
}
