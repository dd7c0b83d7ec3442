/** Consecutive proposer rotations of a history (types/validator_set.go:116-178), each
    of them a call of its own that may rescale: how often a validator is elected,
    and when the rotations are the rounds of one call. */
module Fairness {
  import opened Rotation
  import opened Priorities
  import opened Validator
  import opened Proposer
  import opened ValidatorSet
  import opened Calls

  // ------------------------------------------------------- runs with restarts

  ghost predicate Between(p: seq<int>, low: int, high: int) { forall i :: 0 <= i < |p| ==> low <= p[i] <= high }

  /** Step `j` starts from `ns[j]`, within two totals of zero, and leads to
      `ps[j + 1]`. */
  ghost predicate IsRelay(v: seq<int>, ns: seq<seq<int>>, ps: seq<seq<int>>, cs: seq<nat>) {
    && |ns| == |cs| && |ps| == |cs| + 1 && (forall i :: 0 <= i < |v| ==> v[i] >= 0)
    && forall j :: 0 <= j < |cs| ==>
         IsStep(v, ns[j], cs[j], ps[j + 1]) && Between(ns[j], -2 * Sum(v, |v|), 2 * Sum(v, |v|)) && Sum(ns[j], |v|) >= 0
  }

  /** How many of the first `k` steps, the very first aside, do not start where the
      one before ended. */
  ghost function Restarts(ns: seq<seq<int>>, ps: seq<seq<int>>, k: nat): nat
    requires k <= |ns| && k <= |ps|
  {
    if k <= 1 then 0 else Restarts(ns, ps, k - 1) + (if ns[k - 1] == ps[k - 1] then 0 else 1)
  }

  lemma {:induction false} AfterStep(v: seq<int>, p: seq<int>, a: nat, q: seq<int>)
    requires IsStep(v, p, a, q) && Between(p, -2 * Sum(v, |v|), 2 * Sum(v, |v|)) && Sum(p, |v|) >= 0
    requires forall i :: 0 <= i < |v| ==> v[i] >= 0
    ensures Between(q, -2 * Sum(v, |v|), 3 * Sum(v, |v|))
  {
    MaskOfPowers(v, seq(|v|, i => true), |v|);
    PayerBound(v, p, a, q);
  }

  /** What the restarts have added to the priority of `i`. */
  ghost function Gained(ns: seq<seq<int>>, ps: seq<seq<int>>, k: nat, i: nat): int
    requires k <= |ns| && k <= |ps| && forall j :: 0 < j < k ==> i < |ns[j]| && i < |ps[j]|
  {
    if k <= 1 then 0 else Gained(ns, ps, k - 1, i) + ns[k - 1][i] - ps[k - 1][i]
  }

  lemma {:induction false} RelayLength(v: seq<int>, ns: seq<seq<int>>, ps: seq<seq<int>>, cs: seq<nat>)
    requires IsRelay(v, ns, ps, cs)
    ensures forall j :: 0 <= j < |ns| ==> |ns[j]| == |v|
    ensures forall j :: 0 < j < |ps| ==> |ps[j]| == |v|
  {
    forall j | 0 < j < |ps| ensures |ps[j]| == |v| { assert IsStep(v, ns[j - 1], cs[j - 1], ps[j - 1 + 1]); }
  }

  /** Conservation: what is paid for being elected is power, priority, or gained by
      restarts. */
  lemma {:induction false} RelayAccount(v: seq<int>, ns: seq<seq<int>>, ps: seq<seq<int>>, cs: seq<nat>, k: nat, i: nat)
    requires IsRelay(v, ns, ps, cs) && 1 <= k <= |cs| && i < |v|
    ensures (forall j :: 0 <= j < |ns| ==> |ns[j]| == |v|) && forall j :: 0 < j < |ps| ==> |ps[j]| == |v|
    ensures Sum(v, |v|) * Chosen(cs, k, i) == k * v[i] + ns[0][i] - ps[k][i] + Gained(ns, ps, k, i)
  {
    RelayLength(v, ns, ps, cs);
    assert IsStep(v, ns[k - 1], cs[k - 1], ps[k - 1 + 1]);
    Distribute(Chosen(cs, k - 1, i), Sum(v, |v|));
    Distribute(k - 1, v[i]);
    if k > 1 { RelayAccount(v, ns, ps, cs, k - 1, i); }
  }

  /** The most that one restart can add or take. */
  lemma {:induction false} RestartBound(v: seq<int>, ns: seq<seq<int>>, ps: seq<seq<int>>, cs: seq<nat>, j: nat, k: nat,
                                        i: nat)
    requires IsRelay(v, ns, ps, cs) && j < |cs| && 1 <= k <= |cs| && i < |v|
    ensures |ns[j]| == |ps[k]| == |v| && -5 * Sum(v, |v|) <= ns[j][i] - ps[k][i] <= 4 * Sum(v, |v|)
  {
    AfterStep(v, ns[k - 1], cs[k - 1], ps[k]);
    assert IsStep(v, ns[j], cs[j], ps[j + 1]);
    assert Between(ns[j], -2 * Sum(v, |v|), 2 * Sum(v, |v|));
  }

  lemma {:induction false} GainedBound(v: seq<int>, ns: seq<seq<int>>, ps: seq<seq<int>>, cs: seq<nat>, k: nat, i: nat)
    requires IsRelay(v, ns, ps, cs) && k <= |cs| && i < |v|
    requires (forall j :: 0 <= j < |ns| ==> |ns[j]| == |v|) && forall j :: 0 < j < |ps| ==> |ps[j]| == |v|
    ensures var x := Copies(Restarts(ns, ps, k), Sum(v, |v|)); -5 * x <= Gained(ns, ps, k, i) <= 4 * x
  {
    if k > 1 {
      GainedBound(v, ns, ps, cs, k - 1, i);
      RestartBound(v, ns, ps, cs, k - 1, k - 1, i);
    }
  }

  /** Elected `n` times in `k` steps, for a share of `w` in `t`, with `m` restarts. */
  ghost predicate IsFair(k: nat, w: int, t: int, n: nat, m: nat) {
    k * w - 5 * (t * (m + 1)) <= t * n <= k * w + 4 * (t * (m + 1))
  }

  lemma {:induction false} RelayFair(v: seq<int>, ns: seq<seq<int>>, ps: seq<seq<int>>, cs: seq<nat>, k: nat, i: nat,
                                     w: int, t: int, n: nat, m: nat)
    requires IsRelay(v, ns, ps, cs) && k <= |cs| && i < |v| && w == v[i] && t == Sum(v, |v|)
    requires n == Chosen(cs, k, i) && m == Restarts(ns, ps, k)
    ensures IsFair(k, w, t, n, m)
  {
    MaskOfPowers(v, seq(|v|, j => true), |v|);
    CopiesIsProduct(m, t);
    Distribute(m, t);
    if k > 0 {
      RelayAccount(v, ns, ps, cs, k, i);
      GainedBound(v, ns, ps, cs, k, i);
      RestartBound(v, ns, ps, cs, 0, k, i);
    }
  }

  // ---------------------------------------------------- rotations of validators

  /** Each list is the one before after a call with one round. */
  ghost predicate Rotations(us: seq<seq<Validator>>) {
    && |us| > 0 && (forall j :: 0 <= j < |us| ==> Sound(us[j]))
    && forall j :: 0 < j < |us| ==> RotatesExactly(us[j - 1], us[j])
  }

  /** Who is elected by each. */
  ghost function Elected(us: seq<seq<Validator>>): (cs: seq<nat>)
    requires Rotations(us)
    ensures |cs| == |us| - 1
  {
    seq(|us| - 1, j requires 0 <= j < |us| - 1 => Choices(us[j], 1)[0])
  }

  /** How many of the first `k` rotations, the very first aside, rescale. */
  ghost function Rescalings(us: seq<seq<Validator>>, k: nat): nat
    requires Rotations(us) && k <= |us|
  {
    if k <= 1 then 0
    else Rescalings(us, k - 1) + (if Spread(Prios(us[k - 1])) <= 2 * Total(us[k - 1]) then 0 else 1)
  }

  lemma {:induction false} RotationKeeps(vs: seq<Validator>, us: seq<Validator>)
    requires Sound(vs) && RotatesExactly(vs, us)
    ensures Powers(us) == Powers(vs) && Total(us) == Total(vs) && |us| == |vs|
  {
    SameMembersTotal(vs, us);
  }

  lemma {:induction false} RotationsKeep(us: seq<seq<Validator>>, j: nat)
    requires Rotations(us) && j < |us|
    ensures Powers(us[j]) == Powers(us[0]) && Total(us[j]) == Total(us[0]) && |us[j]| == |us[0]|
  {
    if j > 0 {
      RotationsKeep(us, j - 1);
      assert RotatesExactly(us[j - 1], us[j]);
      RotationKeeps(us[j - 1], us[j]);
    }
  }

  /** One rotation as a step, from where it normalises to. */
  lemma {:induction false} RotationStep(vs: seq<Validator>, us: seq<Validator>, v: seq<int>)
    requires Sound(vs) && RotatesExactly(vs, us) && v == Powers(vs)
    ensures IsStep(v, Prios(Normalized(vs)), Choices(vs, 1)[0], Prios(us))
    ensures Between(Prios(Normalized(vs)), -2 * Sum(v, |v|), 2 * Sum(v, |v|)) && 0 <= Sum(Prios(Normalized(vs)), |v|) < |v|
    ensures Sum(Prios(us), |v|) == Sum(Prios(Normalized(vs)), |v|)
  {
    var ps, cs := [Prios(Normalized(vs)), Prios(us)], Choices(vs, 1);
    assert IsStep(v, ps[0], cs[0], ps[1]);
    NormalizedPrios(vs);
    SumStep(v, ps[0], cs[0], ps[1]);
  }

  /** After a rotation the next one restarts exactly if it rescales. */
  lemma {:induction false} RestartsAre(vs: seq<Validator>, us: seq<Validator>)
    requires Sound(vs) && Sound(us) && RotatesExactly(vs, us)
    ensures Prios(Normalized(us)) == Prios(us) <==> Spread(Prios(us)) <= 2 * Total(us)
  {
    RotationStep(vs, us, Powers(vs));
    RotationKeeps(vs, us);
    NormalizedAlready(us);
    if Spread(Prios(us)) > 2 * Total(us) { ScaledDiffer(us); }
  }

  ghost function Starts(us: seq<seq<Validator>>): (ns: seq<seq<int>>)
    requires Rotations(us)
    ensures |ns| == |us| - 1
  {
    seq(|us| - 1, j requires 0 <= j < |us| - 1 => Prios(Normalized(us[j])))
  }

  ghost function Ends(us: seq<seq<Validator>>): (ps: seq<seq<int>>)
    requires Rotations(us)
    ensures |ps| == |us|
  {
    seq(|us|, j requires 0 <= j < |us| => Prios(us[j]))
  }

  lemma {:induction false} RotationsRelay(us: seq<seq<Validator>>)
    requires Rotations(us)
    ensures IsRelay(Powers(us[0]), Starts(us), Ends(us), Elected(us))
  {
    var v, ns, ps, cs := Powers(us[0]), Starts(us), Ends(us), Elected(us);
    forall j | 0 <= j < |cs|
      ensures IsStep(v, ns[j], cs[j], ps[j + 1])
      ensures Between(ns[j], -2 * Sum(v, |v|), 2 * Sum(v, |v|)) && Sum(ns[j], |v|) >= 0
    {
      RotationsKeep(us, j);
      assert RotatesExactly(us[j + 1 - 1], us[j + 1]);
      RotationStep(us[j], us[j + 1], v);
    }
    PowersPositive(us[0]);
  }

  lemma {:induction false} RestartsCount(us: seq<seq<Validator>>, k: nat)
    requires Rotations(us) && k < |us|
    ensures Restarts(Starts(us), Ends(us), k) == Rescalings(us, k)
  {
    if k > 1 {
      RestartsCount(us, k - 1);
      assert RotatesExactly(us[k - 1 - 1], us[k - 1]);
      RestartsAre(us[k - 2], us[k - 1]);
    }
  }

  /** Proportional fairness of any number of rotations: validator `i` is elected
      `k * power / total` times, up to a constant for every rescaling on the way. */
  lemma {:induction false} RotationsFair(us: seq<seq<Validator>>, k: nat, i: nat, w: int, t: int, n: nat, m: nat)
    requires Rotations(us) && |us| == k + 1 && i < |us[0]| && w == us[0][i].power && t == Total(us[0])
    requires n == Chosen(Elected(us), k, i) && m == Rescalings(us, k)
    ensures IsFair(k, w, t, n, m)
  {
    RotationsRelay(us);
    RestartsCount(us, k);
    assert Powers(us[0])[i] == w;
    RelayFair(Powers(us[0]), Starts(us), Ends(us), Elected(us), k, i, w, t, n, m);
  }

  /** Rotations that follow each other in a history. */
  lemma {:induction false} HistoryRotates(trace: seq<seq<Validator>>, actions: seq<Action>, j: nat, k: nat)
    requires IsHistory(trace, actions) && j + k <= |actions| && forall x :: j <= x < j + k ==> actions[x].Rotate?
    ensures Rotations(trace[j..j + k + 1])
  {
    var us := trace[j..j + k + 1];
    forall x | 0 <= x < |us| ensures Sound(us[x]) {
      assert AreSound()(trace[j + x]);
    }
    forall x | 0 < x < |us| ensures RotatesExactly(us[x - 1], us[x]) {
      assert Next()(trace[j + x - 1], actions[j + x - 1], trace[j + x - 1 + 1]);
    }
  }

  /** So whenever a set is rotated `k` times in a row, in any history. */
  lemma {:induction false} HistoryFair(trace: seq<seq<Validator>>, actions: seq<Action>, j: nat, k: nat,
                                       us: seq<seq<Validator>>, i: nat)
    requires IsHistory(trace, actions) && j + k <= |actions| && forall x :: j <= x < j + k ==> actions[x].Rotate?
    requires us == trace[j..j + k + 1] && i < |us[0]|
    ensures Rotations(us)
    ensures IsFair(k, us[0][i].power, Total(us[0]), Chosen(Elected(us), k, i), Rescalings(us, k))
  {
    HistoryRotates(trace, actions, j, k);
    RotationsFair(us, k, i, us[0][i].power, Total(us[0]), Chosen(Elected(us), k, i), Rescalings(us, k));
  }

  // ------------------------------------------------------ the rounds of one call

  /** The loop comment describes the rounds of a call as that many calls with one
      round.  That holds, for all rounds up to the last, exactly if no call but the
      first has to rescale. */
  lemma {:induction false} RoundsAreCalls(us: seq<seq<Validator>>, m: nat, e: nat)
    requires Rotations(us) && |us| <= m + 2 && HasRoom(us[0], m, e)
    ensures (forall j :: 0 < j < |us| ==> us[j] == Incremented(us[0], j))
       <==> (forall j :: 0 < j < |us| - 1 ==> Spread(Prios(us[j])) <= 2 * Total(us[0]))
  {
    if forall j :: 0 < j < |us| ==> us[j] == Incremented(us[0], j) {
      forall j | 0 < j < |us| - 1 ensures Spread(Prios(us[j])) <= 2 * Total(us[0]) {
        RoundIsCall(us, j, j + 1, m, e);
      }
    }
    if forall j :: 0 < j < |us| - 1 ==> Spread(Prios(us[j])) <= 2 * Total(us[0]) {
      forall j | 0 < j < |us| ensures us[j] == Incremented(us[0], j) { CallsAreRounds(us, j, m, e); }
    }
  }

  lemma {:induction false} RoundIsCall(us: seq<seq<Validator>>, j: nat, n: nat, m: nat, e: nat)
    requires Rotations(us) && n == j + 1 < |us| && n <= m + 1 && HasRoom(us[0], m, e) && us[j] == Incremented(us[0], j)
    ensures us[n] == Incremented(us[0], n) <==> Spread(Prios(us[j])) <= 2 * Total(us[0])
  {
    assert RotatesExactly(us[n - 1], us[n]);
    CallsCompose(us[0], j, 1, n, m, e);
  }

  lemma {:induction false} CallsAreRounds(us: seq<seq<Validator>>, n: nat, m: nat, e: nat)
    requires Rotations(us) && 0 < n < |us| <= m + 2 && HasRoom(us[0], m, e)
    requires forall j :: 0 < j < |us| - 1 ==> Spread(Prios(us[j])) <= 2 * Total(us[0])
    ensures us[n] == Incremented(us[0], n)
  {
    if n == 1 {
      assert RotatesExactly(us[1 - 1], us[1]);
    } else {
      CallsAreRounds(us, n - 1, m, e);
      RoundIsCall(us, n - 1, n, m, e);
    }
  }
}
