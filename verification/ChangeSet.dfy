/** Validator set updates (types/validator_set.go:365-637): validating a list of
    changes, and merging it into an address-sorted list. */
module ChangeSet {
  import opened Int64
  import opened Lists
  import opened Rotation
  import opened Validator
  import opened Proposer

  // ----------------------------------------------------------------- look-ups

  /** GetByAddress: the first index with address `a`, or -1. */
  function Find(vs: seq<Validator>, a: Address): (k: int)
    ensures -1 <= k < |vs|
    ensures k == -1 ==> forall j :: 0 <= j < |vs| ==> vs[j].address != a
    ensures k >= 0 ==> vs[k].address == a
  {
    FindFrom(vs, a, 0)
  }

  function FindFrom(vs: seq<Validator>, a: Address, i: nat): (k: int)
    requires i <= |vs|
    ensures -1 <= k < |vs|
    ensures k == -1 ==> forall j :: i <= j < |vs| ==> vs[j].address != a
    ensures k >= 0 ==> vs[k].address == a
    decreases |vs| - i
  {
    if i == |vs| then -1 else if vs[i].address == a then i else FindFrom(vs, a, i + 1)
  }

  lemma {:induction false} FindIsFirst(vs: seq<Validator>, a: Address, i: nat)
    requires i <= |vs|
    ensures var k := FindFrom(vs, a, i); k >= 0 ==> k >= i && forall j :: i <= j < k ==> vs[j].address != a
    decreases |vs| - i
  {
    if i < |vs| && vs[i].address != a { FindIsFirst(vs, a, i + 1); }
  }

  predicate Has(vs: seq<Validator>, a: Address) { Find(vs, a) >= 0 }

  /** The power at address `a`; none counts as zero. */
  function PowerAt(vs: seq<Validator>, a: Address): int {
    if Has(vs, a) then vs[Find(vs, a)].power else 0
  }

  lemma HasMember(vs: seq<Validator>, v: Validator)
    requires v in vs
    ensures Has(vs, v.address)
    ensures Distinct(vs) ==> vs[Find(vs, v.address)] == v
  {
    var i :| 0 <= i < |vs| && vs[i] == v;
    var k := Find(vs, v.address);
    assert vs[i].address == vs[k].address;
  }

  /** The same members answer every look-up alike. */
  lemma SameMembersSameFind(vs: seq<Validator>, us: seq<Validator>, a: Address)
    requires Distinct(us) && forall v :: v in vs <==> v in us
    ensures Has(vs, a) <==> Has(us, a)
    ensures Has(vs, a) ==> us[Find(us, a)] == vs[Find(vs, a)]
  {
    if Has(vs, a) { HasMember(us, vs[Find(vs, a)]); }
    if Has(us, a) { HasMember(vs, us[Find(us, a)]); }
  }

  // --------------------------------------------------------- well-formed lists

  /** What processChanges demands of a change list.  An empty address counts as
      a duplicate of the initial, nil, previous address. */
  ghost predicate WellFormed(changes: seq<Validator>) {
    && Distinct(changes)
    && forall c :: c in changes ==> InRange(c)
  }

  /** processChanges: the changes with power, and the removals, by address. */
  method ProcessChanges(changes: seq<Validator>, ghost f: Validator -> int, ghost g: Validator -> int)
    returns (ok: bool, updates: seq<Validator>, removals: seq<Validator>)
    ensures ok <==> WellFormed(changes)
    ensures ok ==> Ascending(updates) && Ascending(removals)
    ensures ok ==> forall v :: v in updates <==> v in changes && v.power > 0
    ensures ok ==> forall v :: v in removals <==> v in changes && v.power == 0
    ensures ok ==> SumBy(updates, f, |updates|) + SumBy(removals, f, |removals|) == SumBy(changes, f, |changes|)
    ensures ok ==> SumBy(updates, g, |updates|) + SumBy(removals, g, |removals|) == SumBy(changes, g, |changes|)
  {
    ByAddressOrders();
    var sorted := Sort(changes, ByAddress());
    PermutedValidators(changes, sorted);
    SumByPermuted(changes, sorted, f);
    SumByPermuted(changes, sorted, g);
    ok, updates, removals := ScanChanges(sorted, f, g);
    if WellFormed(changes) { SortedAscending(sorted); }
    if ok { AscendingDistinct(sorted); }
  }

  ghost predicate InRange(c: Validator) {
    c.address != [] && 0 <= c.power <= MAX_POWER
  }

  /** The loop over the sorted changes, comparing each address with the last. */
  method ScanChanges(sorted: seq<Validator>, ghost f: Validator -> int, ghost g: Validator -> int)
    returns (ok: bool, updates: seq<Validator>, removals: seq<Validator>)
    requires Sorted(sorted, ByAddress())
    ensures ok <==> Ascending(sorted) && forall c :: c in sorted ==> InRange(c)
    ensures ok ==> Split(sorted, updates, removals)
    ensures ok ==> SumBy(updates, f, |updates|) + SumBy(removals, f, |removals|) == SumBy(sorted, f, |sorted|)
    ensures ok ==> SumBy(updates, g, |updates|) + SumBy(removals, g, |removals|) == SumBy(sorted, g, |sorted|)
  {
    updates, removals := [], [];
    var prevAddr: Address := [];
    for i := 0 to |sorted|
      invariant prevAddr == if i == 0 then [] else sorted[i - 1].address
      invariant forall j :: 0 <= j < i ==> InRange(sorted[j])
      invariant Scanned(sorted, i, updates, removals, f)
      invariant Scanned(sorted, i, updates, removals, g)
    {
      var c := sorted[i];
      if c.address == prevAddr {
        LessIrreflexive(c.address);
        assert c in sorted;
        return false, [], [];
      }
      if c.power < 0 || c.power > MAX_POWER {
        assert c in sorted;
        return false, [], [];
      }
      ScanNext(sorted, i, updates, removals, f);
      ScanNext(sorted, i, updates, removals, g);
      if c.power == 0 {
        removals := removals + [c];
      } else {
        updates := updates + [c];
      }
      prevAddr := c.address;
    }
    assert sorted[..|sorted|] == sorted;
    ok := true;
  }

  ghost predicate Scanned(sorted: seq<Validator>, i: nat, updates: seq<Validator>, removals: seq<Validator>,
                          f: Validator -> int)
    requires i <= |sorted|
  {
    && Ascending(sorted[..i])
    && Split(sorted[..i], updates, removals)
    && SumBy(updates, f, |updates|) + SumBy(removals, f, |removals|) == SumBy(sorted, f, i)
  }

  lemma {:induction false} ScanNext(sorted: seq<Validator>, i: nat, updates: seq<Validator>, removals: seq<Validator>,
                                    f: Validator -> int)
    requires i < |sorted| && Sorted(sorted, ByAddress()) && Scanned(sorted, i, updates, removals, f)
    requires sorted[i].address != if i == 0 then [] else sorted[i - 1].address
    requires sorted[i].power >= 0
    ensures sorted[i].address != []
    ensures sorted[i].power > 0 ==> Scanned(sorted, i + 1, updates + [sorted[i]], removals, f)
    ensures sorted[i].power == 0 ==> Scanned(sorted, i + 1, updates, removals + [sorted[i]], f)
  {
    NextAscends(sorted, i);
    SplitNext(sorted, i, updates, removals);
    SumSnoc(updates, removals, sorted[i], f);
  }

  /** `updates` and `removals` divide an ascending list by power. */
  ghost predicate Split(vs: seq<Validator>, updates: seq<Validator>, removals: seq<Validator>) {
    && Ascending(updates) && Ascending(removals)
    && (forall v :: v in updates <==> v in vs && v.power > 0)
    && (forall v :: v in removals <==> v in vs && v.power == 0)
  }

  lemma {:induction false} NextAscends(sorted: seq<Validator>, i: nat)
    requires i < |sorted| && Sorted(sorted, ByAddress()) && Ascending(sorted[..i])
    requires sorted[i].address != if i == 0 then [] else sorted[i - 1].address
    ensures Ascending(sorted[..i + 1]) && sorted[i].address != []
    ensures forall w :: w in sorted[..i] ==> Less(w.address, sorted[i].address)
  {
    if i > 0 {
      assert ByAddress()(sorted[i - 1], sorted[i]);
      LessTotal(sorted[i - 1].address, sorted[i].address);
      forall w | w in sorted[..i] ensures Less(w.address, sorted[i].address) {
        var j :| 0 <= j < i && sorted[j] == w;
        if j < i - 1 {
          assert sorted[..i][j] == w && sorted[..i][i - 1] == sorted[i - 1];
          LessTransitive(w.address, sorted[i - 1].address, sorted[i].address);
        }
      }
    }
    AscendingSnoc(sorted[..i], sorted[i]);
    assert sorted[..i + 1] == sorted[..i] + [sorted[i]];
  }

  lemma {:induction false} SplitNext(sorted: seq<Validator>, i: nat, updates: seq<Validator>, removals: seq<Validator>)
    requires i < |sorted| && Split(sorted[..i], updates, removals) && sorted[i].power >= 0
    requires forall w :: w in sorted[..i] ==> Less(w.address, sorted[i].address)
    ensures sorted[i].power > 0 ==> Split(sorted[..i + 1], updates + [sorted[i]], removals)
    ensures sorted[i].power == 0 ==> Split(sorted[..i + 1], updates, removals + [sorted[i]])
  {
    assert sorted[..i + 1] == sorted[..i] + [sorted[i]];
    AscendingSnoc(updates, sorted[i]);
    AscendingSnoc(removals, sorted[i]);
  }

  lemma {:induction false} SumSnoc(updates: seq<Validator>, removals: seq<Validator>, c: Validator, f: Validator -> int)
    ensures SumBy(updates + [c], f, |updates| + 1) == SumBy(updates, f, |updates|) + f(c)
    ensures SumBy(removals + [c], f, |removals| + 1) == SumBy(removals, f, |removals|) + f(c)
  {
    SumByPrefix(updates, updates + [c], f, |updates|);
    SumByPrefix(removals, removals + [c], f, |removals|);
  }

  // ------------------------------------------------------------- power sums

  function Pow(): Validator -> int { (v: Validator) => v.power }

  /** The power `vals` holds at the address of a change. */
  function At(vals: seq<Validator>): Validator -> int { (c: Validator) => PowerAt(vals, c.address) }

  /** What a change adds to the total. */
  function Delta(vals: seq<Validator>): Validator -> int { (c: Validator) => c.power - PowerAt(vals, c.address) }

  lemma {:induction false} TotalIsSum(vs: seq<Validator>, n: nat)
    requires n <= |vs|
    ensures Sum(Powers(vs), n) == SumBy(vs, Pow(), n)
  {
    if n > 0 { TotalIsSum(vs, n - 1); }
  }

  /** The validators found for the first `n` of some distinct addresses: none is
      found twice, so their powers are part of the total. */
  lemma {:induction false} FoundMask(cs: seq<Validator>, vals: seq<Validator>, n: nat) returns (m: seq<bool>)
    requires n <= |cs| && Distinct(cs) && Distinct(vals)
    ensures |m| == |vals|
    ensures forall i :: 0 <= i < |vals| && m[i] ==> exists j :: 0 <= j < n && cs[j].address == vals[i].address
    ensures MaskSum(Powers(vals), m, |vals|) == SumBy(cs, At(vals), n)
    ensures (forall j :: 0 <= j < n ==> Has(vals, cs[j].address)) ==> Count(m, |vals|) == n
  {
    if n == 0 {
      m := seq(|vals|, i => false);
      NothingMarked(Powers(vals), m, |vals|);
    } else {
      m := FoundMask(cs, vals, n - 1);
      var k := Find(vals, cs[n - 1].address);
      if k >= 0 {
        assert !m[k];
        MaskGrow(Powers(vals), m, |vals|, k);
        m := m[k := true];
      }
    }
  }

  lemma {:induction false} FoundPowerBound(cs: seq<Validator>, vals: seq<Validator>, n: nat)
    requires n <= |cs| && Distinct(cs) && Distinct(vals) && forall i :: 0 <= i < |vals| ==> vals[i].power >= 0
    ensures 0 <= SumBy(cs, At(vals), n) <= Total(vals)
  {
    var m := FoundMask(cs, vals, n);
    MaskOfPowers(Powers(vals), m, |vals|);
  }

  lemma {:induction false} CountFull(m: seq<bool>, n: nat, i: nat)
    requires n <= |m| && i < n && Count(m, n) == n
    ensures m[i]
  {
    CountAtMost(m, n);
  }

  /** Distinct removals that are all present are no more than the validators,
      and equally many only if every validator is removed. */
  lemma {:induction false} RemovalsFit(deletes: seq<Validator>, vals: seq<Validator>)
    requires Distinct(deletes) && Distinct(vals) && forall d :: d in deletes ==> Has(vals, d.address)
    ensures |deletes| <= |vals|
    ensures |deletes| == |vals| ==> forall i :: 0 <= i < |vals| ==> Has(deletes, vals[i].address)
  {
    var m := FoundMask(deletes, vals, |deletes|);
    CountAtMost(m, |vals|);
    if |deletes| == |vals| {
      forall i | 0 <= i < |vals| ensures Has(deletes, vals[i].address) {
        CountFull(m, |vals|, i);
        var j :| 0 <= j < |deletes| && deletes[j].address == vals[i].address;
        HasMember(deletes, deletes[j]);
      }
    }
  }

  // ------------------------------------------------------------- verification

  /** verifyRemovals: every removal is of a validator in the set. */
  method VerifyRemovals(deletes: seq<Validator>, vals: seq<Validator>) returns (ok: bool, removed: int)
    requires Distinct(deletes) && Distinct(vals) && Total(vals) <= MAX_POWER
    requires forall i :: 0 <= i < |vals| ==> vals[i].power >= 0
    ensures ok <==> forall d :: d in deletes ==> Has(vals, d.address)
    ensures ok ==> removed == SumBy(deletes, At(vals), |deletes|) && |deletes| <= |vals|
  {
    removed := 0;
    for i := 0 to |deletes|
      invariant forall j :: 0 <= j < i ==> Has(vals, deletes[j].address)
      invariant removed == SumBy(deletes, At(vals), i)
    {
      var k := Find(vals, deletes[i].address);
      if k == -1 {
        assert deletes[i] in deletes;
        return false, removed;
      }
      FoundPowerBound(deletes, vals, i + 1);
      assert Fits(removed + vals[k].power);
      removed := removed + vals[k].power;
    }
    RemovalsFit(deletes, vals);
    ok := true;
  }

  function ByDelta(vals: seq<Validator>): (Validator, Validator) -> bool {
    (v: Validator, w: Validator) => Delta(vals)(v) <= Delta(vals)(w)
  }

  lemma ByDeltaOrders(vals: seq<Validator>)
    ensures TotalPreorder(ByDelta(vals))
  {
  }

  /** verifyUpdates: checking every partial sum, smallest delta first, is the
      same as checking the final sum. */
  method VerifyUpdates(updates: seq<Validator>, vals: seq<Validator>, total: int, removed: int)
    returns (ok: bool, tvpAfterUpdatesBeforeRemovals: int)
    requires Distinct(updates) && Distinct(vals) && total == Total(vals) <= MAX_POWER && 0 <= removed <= total
    requires forall i :: 0 <= i < |vals| ==> vals[i].power >= 0
    requires forall u :: u in updates ==> 0 <= u.power <= MAX_POWER
    ensures ok <==> total - removed + SumBy(updates, Delta(vals), |updates|) <= MAX_POWER
    ensures ok ==> tvpAfterUpdatesBeforeRemovals == total + SumBy(updates, Delta(vals), |updates|)
  {
    ByDeltaOrders(vals);
    var sorted := Sort(updates, ByDelta(vals));
    PermutedValidators(updates, sorted);
    SumByPermuted(updates, sorted, Delta(vals));
    var tvpAfterRemovals;
    ok, tvpAfterRemovals := AddDeltas(sorted, vals, total - removed);
    tvpAfterUpdatesBeforeRemovals := if ok then tvpAfterRemovals + removed else 0;
  }

  /** The loop over the sorted updates: once over the maximum, the rest only adds. */
  method AddDeltas(sorted: seq<Validator>, vals: seq<Validator>, start: int) returns (ok: bool, sum: int)
    requires Distinct(sorted) && Distinct(vals) && Total(vals) <= MAX_POWER && 0 <= start <= MAX_POWER
    requires Sorted(sorted, ByDelta(vals)) && forall k :: 0 <= k < |vals| ==> vals[k].power >= 0
    requires forall k :: 0 <= k < |sorted| ==> 0 <= sorted[k].power <= MAX_POWER
    ensures ok <==> start + SumBy(sorted, Delta(vals), |sorted|) <= MAX_POWER
    ensures ok ==> sum == start + SumBy(sorted, Delta(vals), |sorted|)
  {
    sum := start;
    for i := 0 to |sorted|
      invariant sum == start + SumBy(sorted, Delta(vals), i) <= MAX_POWER
    {
      DeltaRange(sorted, vals, i);
      assert Fits(sum + Delta(vals)(sorted[i]));
      sum := sum + Delta(vals)(sorted[i]);
      if sum > MAX_POWER {
        RestOnlyGrows(sorted, vals, i, |sorted|);
        return false, 0;
      }
    }
    ok := true;
  }

  lemma {:induction false} DeltaRange(cs: seq<Validator>, vals: seq<Validator>, i: nat)
    requires i < |cs| && Distinct(cs) && Distinct(vals)
    requires forall k :: 0 <= k < |vals| ==> vals[k].power >= 0
    requires forall k :: 0 <= k < |cs| ==> 0 <= cs[k].power <= MAX_POWER
    ensures Delta(vals)(cs[i]) <= MAX_POWER && SumBy(cs, Delta(vals), i + 1) >= -Total(vals)
  {
    FoundPowerBound(cs, vals, i + 1);
    DeltaAboveFound(cs, vals, i + 1);
  }

  lemma {:induction false} DeltaAboveFound(cs: seq<Validator>, vals: seq<Validator>, n: nat)
    requires n <= |cs| && forall k :: 0 <= k < |cs| ==> cs[k].power >= 0
    ensures SumBy(cs, Delta(vals), n) >= -SumBy(cs, At(vals), n)
  {
    if n > 0 { DeltaAboveFound(cs, vals, n - 1); }
  }

  lemma {:induction false} RestOnlyGrows(cs: seq<Validator>, vals: seq<Validator>, i: nat, n: nat)
    requires i < n <= |cs| && Sorted(cs, ByDelta(vals)) && Delta(vals)(cs[i]) > 0
    ensures SumBy(cs, Delta(vals), n) >= SumBy(cs, Delta(vals), i + 1)
  {
    if i + 1 < n {
      RestOnlyGrows(cs, vals, i, n - 1);
      assert ByDelta(vals)(cs[i], cs[n - 1]);
    }
  }

  // ----------------------------------------------------------- new priorities

  /** A joining validator starts at -1.125 times the total it joins; a member
      keeps its priority. */
  function NewPriority(vals: seq<Validator>, c: Validator, tvp: int): int {
    if Has(vals, c.address) then vals[Find(vals, c.address)].priority else -(tvp + tvp / 8)
  }

  function Repriced(vals: seq<Validator>, c: Validator, tvp: int): Validator {
    c.(priority := NewPriority(vals, c, tvp))
  }

  /** Nothing but the priority changes.  Whoever is in the set keeps it; whoever is
      not starts at minus nine eighths of the total, rounded toward zero, so that
      leaving and joining again does not reset a priority to zero. */
  lemma {:induction false} RepricedMeans(vals: seq<Validator>, c: Validator, tvp: int, k: nat)
    requires Distinct(vals) && 0 <= tvp
    ensures var v := Repriced(vals, c, tvp); v.address == c.address && v.pubKey == c.pubKey && v.power == c.power
    ensures k < |vals| && vals[k].address == c.address ==> Repriced(vals, c, tvp).priority == vals[k].priority
    ensures (forall j :: 0 <= j < |vals| ==> vals[j].address != c.address) ==>
      9 * tvp - 8 < -8 * Repriced(vals, c, tvp).priority <= 9 * tvp
  {
    if k < |vals| && vals[k].address == c.address { HasMember(vals, vals[k]); }
  }

  /** computeNewPriorities; the shift by three is a division by eight. */
  method ComputeNewPriorities(updates: seq<Validator>, vals: seq<Validator>, tvp: int) returns (out: seq<Validator>)
    requires 0 <= tvp <= 2 * MAX_POWER
    ensures |out| == |updates| && forall i :: 0 <= i < |updates| ==> out[i] == Repriced(vals, updates[i], tvp)
  {
    out := [];
    for i := 0 to |updates|
      invariant |out| == i && forall j :: 0 <= j < i ==> out[j] == Repriced(vals, updates[j], tvp)
    {
      assert Fits(tvp + tvp / 8) && Fits(-(tvp + tvp / 8));
      out := out + [Repriced(vals, updates[i], tvp)];
    }
  }

  // ------------------------------------------------------------------ merging

  /** The loop of applyUpdates from positions `p` and `q` on. */
  function MergeFrom(e: seq<Validator>, p: nat, u: seq<Validator>, q: nat): seq<Validator>
    requires p <= |e| && q <= |u|
    decreases |e| - p + |u| - q
  {
    if p == |e| then u[q..]
    else if q == |u| then e[p..]
    else if Less(e[p].address, u[q].address) then [e[p]] + MergeFrom(e, p + 1, u, q)
    else if e[p].address == u[q].address then [u[q]] + MergeFrom(e, p + 1, u, q + 1)
    else [u[q]] + MergeFrom(e, p, u, q + 1)
  }

  lemma AboveHead(vs: seq<Validator>, p: nat, v: Validator)
    requires Ascending(vs) && p < |vs| && v in vs[p..]
    ensures v == vs[p] || Less(vs[p].address, v.address)
  {
    var i :| 0 <= i < |vs[p..]| && vs[p..][i] == v;
    assert vs[p + i] == v;
    if i > 0 { assert Less(vs[p].address, vs[p + i].address); }
  }

  lemma TailStep(vs: seq<Validator>, p: nat, v: Validator)
    requires p < |vs|
    ensures v in vs[p..] <==> v == vs[p] || v in vs[p + 1..]
  {
    assert vs[p..] == [vs[p]] + vs[p + 1..];
  }

  lemma FoundInTail(vs: seq<Validator>, p: nat, a: Address)
    requires p <= |vs|
    ensures FindFrom(vs, a, p) >= 0 <==> exists v :: v in vs[p..] && v.address == a
  {
    var k := FindFrom(vs, a, p);
    if k >= 0 {
      FindIsFirst(vs, a, p);
      assert vs[p..][k - p] == vs[k];
    } else {
      forall v | v in vs[p..] ensures v.address != a {
        var i :| 0 <= i < |vs[p..]| && vs[p..][i] == v;
        assert vs[p + i] == v;
      }
    }
  }

  /** Every address in the tail of `vs` lies above `a`, so `a` is not there. */
  lemma AboveNotFound(vs: seq<Validator>, p: nat, a: Address)
    requires Ascending(vs) && p <= |vs| && (p < |vs| ==> Less(a, vs[p].address))
    ensures FindFrom(vs, a, p) == -1
  {
    FoundInTail(vs, p, a);
    forall v | v in vs[p..] ensures v.address != a {
      AboveHead(vs, p, v);
      if v != vs[p] { LessTransitive(a, vs[p].address, v.address); }
      LessAsymmetric(a, v.address);
    }
  }

  lemma {:induction false} MergeMember(e: seq<Validator>, p: nat, u: seq<Validator>, q: nat, v: Validator)
    requires Ascending(e) && Ascending(u) && p <= |e| && q <= |u|
    ensures v in MergeFrom(e, p, u, q) <==> v in u[q..] || (v in e[p..] && FindFrom(u, v.address, q) == -1)
    decreases |e| - p + |u| - q
  {
    if p < |e| && q < |u| {
      TailStep(e, p, v);
      TailStep(u, q, v);
      if Less(e[p].address, u[q].address) {
        MergeMember(e, p + 1, u, q, v);
        AboveNotFound(u, q, e[p].address);
      } else if e[p].address == u[q].address {
        MergeMember(e, p + 1, u, q + 1, v);
        MatchedHead(e, p, u, q, v);
      } else {
        LessTotal(e[p].address, u[q].address);
        MergeMember(e, p, u, q + 1, v);
        UnmatchedHead(e, p, u, q, v);
      }
    }
  }

  lemma MatchedHead(e: seq<Validator>, p: nat, u: seq<Validator>, q: nat, v: Validator)
    requires Ascending(e) && Ascending(u) && p < |e| && q < |u| && e[p].address == u[q].address
    ensures v in e[p + 1..] ==> v.address != u[q].address
    ensures FindFrom(u, e[p].address, q) == q
  {
    if v in e[p + 1..] {
      TailStep(e, p, v);
      AboveNext(e, p, v);
      LessAsymmetric(e[p].address, v.address);
    }
  }

  lemma AboveNext(vs: seq<Validator>, p: nat, v: Validator)
    requires Ascending(vs) && p < |vs| && v in vs[p + 1..]
    ensures Less(vs[p].address, v.address)
  {
    var i :| 0 <= i < |vs[p + 1..]| && vs[p + 1..][i] == v;
    assert vs[p + 1 + i] == v;
    assert Less(vs[p].address, vs[p + 1 + i].address);
  }

  lemma UnmatchedHead(e: seq<Validator>, p: nat, u: seq<Validator>, q: nat, v: Validator)
    requires Ascending(e) && p < |e| && q < |u| && Less(u[q].address, e[p].address)
    ensures v in e[p..] ==> v.address != u[q].address
  {
    if v in e[p..] {
      AboveHead(e, p, v);
      if v != e[p] { LessTransitive(u[q].address, e[p].address, v.address); }
      LessAsymmetric(u[q].address, v.address);
    }
  }

  lemma AscendingCons(v: Validator, vs: seq<Validator>)
    requires Ascending(vs) && forall w :: w in vs ==> Less(v.address, w.address)
    ensures Ascending([v] + vs)
  {
    var us := [v] + vs;
    forall i, j | 0 <= i < j < |us| ensures Less(us[i].address, us[j].address) {
      assert us[j] == vs[j - 1] && vs[j - 1] in vs;
      if i > 0 { assert us[i] == vs[i - 1]; }
    }
  }

  lemma AscendingTail(vs: seq<Validator>, p: nat)
    requires Ascending(vs) && p <= |vs|
    ensures Ascending(vs[p..])
  {
  }

  lemma {:induction false} MergeAscending(e: seq<Validator>, p: nat, u: seq<Validator>, q: nat)
    requires Ascending(e) && Ascending(u) && p <= |e| && q <= |u|
    ensures Ascending(MergeFrom(e, p, u, q))
    decreases |e| - p + |u| - q
  {
    if p == |e| {
      AscendingTail(u, q);
    } else if q == |u| {
      AscendingTail(e, p);
    } else {
      LessTotal(e[p].address, u[q].address);
      var takeOld := Less(e[p].address, u[q].address);
      var p' := if takeOld || e[p].address == u[q].address then p + 1 else p;
      var q' := if takeOld then q else q + 1;
      var head, rest := if takeOld then e[p] else u[q], MergeFrom(e, p', u, q');
      MergeAscending(e, p', u, q');
      forall v | v in rest ensures Less(head.address, v.address) {
        MergeMember(e, p', u, q', v);
        RestAbove(e, p, p', u, q, q', head, v);
      }
      AscendingCons(head, rest);
    }
  }

  lemma RestAbove(e: seq<Validator>, p: nat, p': nat, u: seq<Validator>, q: nat, q': nat, head: Validator, v: Validator)
    requires Ascending(e) && Ascending(u) && p < |e| && q < |u|
    requires || (head == e[p] && p' == p + 1 && q' == q && Less(e[p].address, u[q].address))
             || (head == u[q] && p' == p + 1 && q' == q + 1 && e[p].address == u[q].address)
             || (head == u[q] && p' == p && q' == q + 1 && Less(u[q].address, e[p].address))
    requires v in u[q'..] || v in e[p'..]
    ensures Less(head.address, v.address)
  {
    if v in u[q'..] {
      if q' == q { AboveHead(u, q, v); } else { AboveNext(u, q, v); }
      if q' == q && v != u[q] { LessTransitive(head.address, u[q].address, v.address); }
    } else {
      if p' == p { AboveHead(e, p, v); } else { AboveNext(e, p, v); }
      if p' == p && v != e[p] { LessTransitive(head.address, e[p].address, v.address); }
    }
  }

  // --------------------------------------------------- totals through a merge

  /** The sum of `f` from index `i` on. */
  function TailSum(xs: seq<Validator>, f: Validator -> int, i: nat): int
    requires i <= |xs|
    decreases |xs| - i
  {
    if i == |xs| then 0 else f(xs[i]) + TailSum(xs, f, i + 1)
  }

  lemma {:induction false} TailSumIsSum(xs: seq<Validator>, f: Validator -> int, i: nat)
    requires i <= |xs|
    ensures TailSum(xs, f, i) == SumBy(xs, f, |xs|) - SumBy(xs, f, i)
    decreases |xs| - i
  {
    if i < |xs| { TailSumIsSum(xs, f, i + 1); }
  }

  lemma {:induction false} SumOfTail(xs: seq<Validator>, f: Validator -> int, i: nat, n: nat)
    requires i + n <= |xs|
    ensures SumBy(xs[i..], f, n) == SumBy(xs, f, i + n) - SumBy(xs, f, i)
  {
    if n > 0 { SumOfTail(xs, f, i, n - 1); }
  }

  lemma {:induction false} SumCons(x: Validator, xs: seq<Validator>, f: Validator -> int, n: nat)
    requires n <= |xs|
    ensures SumBy([x] + xs, f, n + 1) == f(x) + SumBy(xs, f, n)
  {
    if n > 0 { SumCons(x, xs, f, n - 1); }
  }

  function PowerFrom(vs: seq<Validator>, p: nat, a: Address): int
    requires p <= |vs|
  {
    if FindFrom(vs, a, p) >= 0 then vs[FindFrom(vs, a, p)].power else 0
  }

  function AtFrom(vals: seq<Validator>, p: nat): Validator -> int
    requires p <= |vals|
  {
    (c: Validator) => PowerFrom(vals, p, c.address)
  }

  function DeltaFrom(vals: seq<Validator>, p: nat): Validator -> int
    requires p <= |vals|
  {
    (c: Validator) => c.power - PowerFrom(vals, p, c.address)
  }

  /** Passing a validator below all remaining changes does not affect their deltas. */
  lemma {:induction false} PassBelow(e: seq<Validator>, p: nat, u: seq<Validator>, q: nat)
    requires Ascending(u) && p < |e| && q <= |u| && (q < |u| ==> Less(e[p].address, u[q].address))
    ensures TailSum(u, DeltaFrom(e, p), q) == TailSum(u, DeltaFrom(e, p + 1), q)
    ensures TailSum(u, AtFrom(e, p), q) == TailSum(u, AtFrom(e, p + 1), q)
    decreases |u| - q
  {
    if q < |u| {
      LessAsymmetric(e[p].address, u[q].address);
      if q + 1 < |u| { LessTransitive(e[p].address, u[q].address, u[q + 1].address); }
      PassBelow(e, p, u, q + 1);
    }
  }

  lemma {:induction false} MergeSum(e: seq<Validator>, p: nat, u: seq<Validator>, q: nat)
    requires Ascending(e) && Ascending(u) && p <= |e| && q <= |u|
    ensures var m := MergeFrom(e, p, u, q);
            SumBy(m, Pow(), |m|) == TailSum(e, Pow(), p) + TailSum(u, DeltaFrom(e, p), q)
    decreases |e| - p + |u| - q
  {
    if p == |e| || q == |u| {
      MergeSumTails(e, p, u, q);
    } else {
      LessTotal(e[p].address, u[q].address);
      var takeOld := Less(e[p].address, u[q].address);
      var p' := if takeOld || e[p].address == u[q].address then p + 1 else p;
      var q' := if takeOld then q else q + 1;
      var head, rest := if takeOld then e[p] else u[q], MergeFrom(e, p', u, q');
      MergeSum(e, p', u, q');
      SumCons(head, rest, Pow(), |rest|);
      MergeSumStep(e, p, p', u, q, q', head);
    }
  }

  lemma {:induction false} MergeSumTails(e: seq<Validator>, p: nat, u: seq<Validator>, q: nat)
    requires p <= |e| && q <= |u| && (p == |e| || q == |u|)
    ensures var m := MergeFrom(e, p, u, q);
            SumBy(m, Pow(), |m|) == TailSum(e, Pow(), p) + TailSum(u, DeltaFrom(e, p), q)
  {
    if p == |e| {
      NothingFound(e, u, q);
      TailSumIsSum(u, Pow(), q);
      SumOfTail(u, Pow(), q, |u| - q);
    } else {
      TailSumIsSum(e, Pow(), p);
      SumOfTail(e, Pow(), p, |e| - p);
    }
  }

  lemma {:induction false} MergeSumStep(e: seq<Validator>, p: nat, p': nat, u: seq<Validator>, q: nat, q': nat,
                                        head: Validator)
    requires Ascending(e) && Ascending(u) && p < |e| && q < |u|
    requires || (head == e[p] && p' == p + 1 && q' == q && Less(e[p].address, u[q].address))
             || (head == u[q] && p' == p + 1 && q' == q + 1 && e[p].address == u[q].address)
             || (head == u[q] && p' == p && q' == q + 1 && Less(u[q].address, e[p].address))
    ensures TailSum(e, Pow(), p) + TailSum(u, DeltaFrom(e, p), q)
         == head.power + TailSum(e, Pow(), p') + TailSum(u, DeltaFrom(e, p'), q')
  {
    if p' == p {
      AboveNotFound(e, p, u[q].address);
    } else {
      PassBelow(e, p, u, q');
    }
  }

  lemma {:induction false} NothingFound(e: seq<Validator>, u: seq<Validator>, q: nat)
    requires q <= |u|
    ensures TailSum(u, DeltaFrom(e, |e|), q) == TailSum(u, Pow(), q)
    decreases |u| - q
  {
    if q < |u| { NothingFound(e, u, q + 1); }
  }

  lemma {:induction false} FromStart(e: seq<Validator>, u: seq<Validator>, q: nat)
    requires q <= |u|
    ensures TailSum(u, DeltaFrom(e, 0), q) == TailSum(u, Delta(e), q)
    ensures TailSum(u, AtFrom(e, 0), q) == TailSum(u, At(e), q)
    decreases |u| - q
  {
    if q < |u| { FromStart(e, u, q + 1); }
  }

  /** `v` survives the update: it is an update, or untouched by one. */
  ghost predicate InUpdated(v: Validator, existing: seq<Validator>, updates: seq<Validator>) {
    v in updates || (v in existing && !Has(updates, v.address))
  }

  /** applyUpdates: the union, updates winning, still sorted by address; the
      total moves by the deltas. */
  method ApplyUpdates(existing: seq<Validator>, updates: seq<Validator>) returns (merged: seq<Validator>)
    requires Ascending(existing) && Ascending(updates)
    ensures Ascending(merged)
    ensures forall v :: v in merged <==> InUpdated(v, existing, updates)
    ensures SumBy(merged, Pow(), |merged|)
         == SumBy(existing, Pow(), |existing|) + SumBy(updates, Delta(existing), |updates|)
  {
    merged := MergeLists(existing, updates);
    MergeProperties(existing, updates);
  }

  /** The three loops of applyUpdates. */
  method MergeLists(existing: seq<Validator>, updates: seq<Validator>) returns (merged: seq<Validator>)
    ensures merged == MergeFrom(existing, 0, updates, 0)
  {
    merged := [];
    var p, q := 0, 0;
    ghost var whole := MergeFrom(existing, 0, updates, 0);
    while p < |existing| && q < |updates|
      invariant 0 <= p <= |existing| && 0 <= q <= |updates|
      invariant merged + MergeFrom(existing, p, updates, q) == whole
      decreases |existing| - p + |updates| - q
    {
      if Less(existing[p].address, updates[q].address) {
        AppendOne(merged, existing[p], MergeFrom(existing, p + 1, updates, q));
        merged := merged + [existing[p]];
        p := p + 1;
      } else {
        ghost var p' := if existing[p].address == updates[q].address then p + 1 else p;
        AppendOne(merged, updates[q], MergeFrom(existing, p', updates, q + 1));
        merged := merged + [updates[q]];
        if existing[p].address == updates[q].address {
          p := p + 1;
        }
        q := q + 1;
      }
    }
    assert MergeFrom(existing, p, updates, q) == existing[p..] + updates[q..];
    Regroup(merged, existing[p..], updates[q..]);
    merged := AppendFrom(merged, existing, p);
    merged := AppendFrom(merged, updates, q);
  }

  /** The loops that add what is left of a list. */
  method AppendFrom<T>(xs: seq<T>, ys: seq<T>, from: nat) returns (r: seq<T>)
    requires from <= |ys|
    ensures r == xs + ys[from..]
  {
    r := xs;
    for j := from to |ys|
      invariant r == xs + ys[from..j]
    {
      r := r + [ys[j]];
    }
  }

  lemma {:induction false} MergeProperties(e: seq<Validator>, u: seq<Validator>)
    requires Ascending(e) && Ascending(u)
    ensures var m := MergeFrom(e, 0, u, 0);
            && Ascending(m)
            && (forall v :: v in m <==> InUpdated(v, e, u))
            && SumBy(m, Pow(), |m|) == SumBy(e, Pow(), |e|) + SumBy(u, Delta(e), |u|)
  {
    MergeAscending(e, 0, u, 0);
    forall v ensures v in MergeFrom(e, 0, u, 0) <==> InUpdated(v, e, u) {
      MergeMember(e, 0, u, 0, v);
    }
    MergeSum(e, 0, u, 0);
    FromStart(e, u, 0);
    TailSumIsSum(e, Pow(), 0);
    TailSumIsSum(u, Delta(e), 0);
  }

  // ----------------------------------------------------------------- removing

  /** The loop of applyRemovals from positions `p` and `q` on. */
  function RemoveFrom(e: seq<Validator>, p: nat, d: seq<Validator>, q: nat): seq<Validator>
    requires p <= |e| && q <= |d|
    decreases |e| - p
  {
    if q == |d| || p == |e| then e[p..]
    else if e[p].address == d[q].address then RemoveFrom(e, p + 1, d, q + 1)
    else [e[p]] + RemoveFrom(e, p + 1, d, q)
  }

  /** Every pending removal is of a validator still ahead. */
  ghost predicate Pending(e: seq<Validator>, p: nat, d: seq<Validator>, q: nat)
    requires p <= |e| && q <= |d|
  {
    forall j :: q <= j < |d| ==> FindFrom(e, d[j].address, p) >= 0
  }

  lemma {:induction false} PendingNext(e: seq<Validator>, p: nat, d: seq<Validator>, q: nat)
    requires Ascending(e) && Ascending(d) && p <= |e| && q < |d| && Pending(e, p, d, q)
    ensures p < |e|
    ensures e[p].address == d[q].address ==> Pending(e, p + 1, d, q + 1)
    ensures e[p].address != d[q].address ==> Less(e[p].address, d[q].address) && Pending(e, p + 1, d, q)
  {
    var k := FindFrom(e, d[q].address, p);
    FindIsFirst(e, d[q].address, p);
    forall j | q < j < |d| ensures FindFrom(e, d[j].address, p + 1) >= 0 {
      assert Less(d[q].address, d[j].address);
      if e[p].address == d[j].address {
        if k > p { assert Less(e[p].address, e[k].address); }
        LessAsymmetric(d[q].address, d[j].address);
      }
    }
    if e[p].address != d[q].address { assert Less(e[p].address, e[k].address); }
  }

  lemma {:induction false} RemoveMember(e: seq<Validator>, p: nat, d: seq<Validator>, q: nat, v: Validator)
    requires Ascending(e) && Ascending(d) && p <= |e| && q <= |d| && Pending(e, p, d, q)
    ensures v in RemoveFrom(e, p, d, q) <==> v in e[p..] && FindFrom(d, v.address, q) == -1
    decreases |e| - p
  {
    if q < |d| {
      PendingNext(e, p, d, q);
      if e[p].address == d[q].address {
        RemoveMember(e, p + 1, d, q + 1, v);
        assert v in e[p..] && FindFrom(d, v.address, q) == -1
          <==> v in e[p + 1..] && FindFrom(d, v.address, q + 1) == -1 by {
          TailStep(e, p, v);
          MatchedHead(e, p, d, q, v);
        }
      } else {
        RemoveMember(e, p + 1, d, q, v);
        assert v in e[p..] && FindFrom(d, v.address, q) == -1
          <==> v == e[p] || (v in e[p + 1..] && FindFrom(d, v.address, q) == -1) by {
          TailStep(e, p, v);
          AboveNotFound(d, q, e[p].address);
        }
      }
    }
  }

  lemma {:induction false} RemoveLength(e: seq<Validator>, p: nat, d: seq<Validator>, q: nat)
    requires Ascending(e) && Ascending(d) && p <= |e| && q <= |d| && Pending(e, p, d, q)
    ensures |RemoveFrom(e, p, d, q)| == |e| - p - (|d| - q)
    decreases |e| - p
  {
    if q < |d| {
      PendingNext(e, p, d, q);
      RemoveLength(e, p + 1, d, if e[p].address == d[q].address then q + 1 else q);
    }
  }

  /** What is left weighs what there was minus what the removals held. */
  ghost predicate Balanced(e: seq<Validator>, p: nat, d: seq<Validator>, q: nat)
    requires p <= |e| && q <= |d|
  {
    var r := RemoveFrom(e, p, d, q);
    SumBy(r, Pow(), |r|) == TailSum(e, Pow(), p) - TailSum(d, AtFrom(e, p), q)
  }

  lemma {:induction false} BalancedMatch(e: seq<Validator>, p: nat, d: seq<Validator>, q: nat)
    requires p < |e| && q < |d| && e[p].address == d[q].address && Balanced(e, p + 1, d, q + 1)
    requires TailSum(d, AtFrom(e, p), q + 1) == TailSum(d, AtFrom(e, p + 1), q + 1)
    ensures Balanced(e, p, d, q)
  {
  }

  lemma {:induction false} BalancedSkip(e: seq<Validator>, p: nat, d: seq<Validator>, q: nat)
    requires p < |e| && q < |d| && e[p].address != d[q].address && Balanced(e, p + 1, d, q)
    requires TailSum(d, AtFrom(e, p), q) == TailSum(d, AtFrom(e, p + 1), q)
    ensures Balanced(e, p, d, q)
  {
    var rest := RemoveFrom(e, p + 1, d, q);
    SumCons(e[p], rest, Pow(), |rest|);
  }

  lemma {:induction false} RemoveSum(e: seq<Validator>, p: nat, d: seq<Validator>, q: nat)
    requires Ascending(e) && Ascending(d) && p <= |e| && q <= |d| && Pending(e, p, d, q)
    ensures Balanced(e, p, d, q)
    decreases |e| - p
  {
    if q == |d| {
      TailSumIsSum(e, Pow(), p);
      SumOfTail(e, Pow(), p, |e| - p);
    } else {
      PendingNext(e, p, d, q);
      if e[p].address == d[q].address {
        RemoveSum(e, p + 1, d, q + 1);
        PassBelow(e, p, d, q + 1);
        BalancedMatch(e, p, d, q);
      } else {
        RemoveSum(e, p + 1, d, q);
        PassBelow(e, p, d, q);
        BalancedSkip(e, p, d, q);
      }
    }
  }

  lemma {:induction false} RemoveAscending(e: seq<Validator>, p: nat, d: seq<Validator>, q: nat)
    requires Ascending(e) && Ascending(d) && p <= |e| && q <= |d| && Pending(e, p, d, q)
    ensures Ascending(RemoveFrom(e, p, d, q))
    decreases |e| - p
  {
    if q == |d| {
      AscendingTail(e, p);
    } else {
      PendingNext(e, p, d, q);
      if e[p].address == d[q].address {
        RemoveAscending(e, p + 1, d, q + 1);
      } else {
        var rest := RemoveFrom(e, p + 1, d, q);
        RemoveAscending(e, p + 1, d, q);
        forall v | v in rest ensures Less(e[p].address, v.address) {
          RemoveMember(e, p + 1, d, q, v);
          AboveNext(e, p, v);
        }
        AscendingCons(e[p], rest);
      }
    }
  }

  /** applyRemovals: exactly the validators that are not removed; the total
      drops by what they held. */
  method ApplyRemovals(existing: seq<Validator>, deletes: seq<Validator>) returns (kept: seq<Validator>)
    requires Ascending(existing) && Ascending(deletes)
    requires forall j :: 0 <= j < |deletes| ==> Has(existing, deletes[j].address)
    ensures Ascending(kept) && |kept| == |existing| - |deletes|
    ensures forall v :: v in kept <==> v in existing && !Has(deletes, v.address)
    ensures SumBy(kept, Pow(), |kept|)
         == SumBy(existing, Pow(), |existing|) - SumBy(deletes, At(existing), |deletes|)
  {
    kept := RemoveListed(existing, deletes);
    RemoveProperties(existing, deletes);
  }

  /** The two loops of applyRemovals; `existing` never runs out first. */
  method RemoveListed(existing: seq<Validator>, deletes: seq<Validator>) returns (kept: seq<Validator>)
    requires Ascending(existing) && Ascending(deletes) && Pending(existing, 0, deletes, 0)
    ensures kept == RemoveFrom(existing, 0, deletes, 0)
  {
    kept := [];
    var p, q := 0, 0;
    ghost var whole := RemoveFrom(existing, 0, deletes, 0);
    while q < |deletes|
      invariant 0 <= p <= |existing| && 0 <= q <= |deletes|
      invariant Pending(existing, p, deletes, q)
      invariant kept + RemoveFrom(existing, p, deletes, q) == whole
      decreases |existing| - p
    {
      PendingNext(existing, p, deletes, q);
      if existing[p].address == deletes[q].address {
        q := q + 1;
      } else {
        AppendOne(kept, existing[p], RemoveFrom(existing, p + 1, deletes, q));
        kept := kept + [existing[p]];
      }
      p := p + 1;
    }
    assert RemoveFrom(existing, p, deletes, |deletes|) == existing[p..];
    for j := p to |existing|
      invariant kept + existing[j..] == whole
    {
      TailHead(existing, j);
      AppendOne(kept, existing[j], existing[j + 1..]);
      kept := kept + [existing[j]];
    }
    assert existing[|existing|..] == [];
  }

  lemma {:induction false} RemoveProperties(e: seq<Validator>, d: seq<Validator>)
    requires Ascending(e) && Ascending(d) && Pending(e, 0, d, 0)
    ensures var r := RemoveFrom(e, 0, d, 0);
            && Ascending(r) && |r| == |e| - |d|
            && (forall v :: v in r <==> v in e && !Has(d, v.address))
            && SumBy(r, Pow(), |r|) == SumBy(e, Pow(), |e|) - SumBy(d, At(e), |d|)
  {
    RemoveAscending(e, 0, d, 0);
    forall v ensures v in RemoveFrom(e, 0, d, 0) <==> v in e && !Has(d, v.address) {
      RemoveMember(e, 0, d, 0, v);
    }
    RemoveLength(e, 0, d, 0);
    RemoveSum(e, 0, d, 0);
    FromStart(e, d, 0);
    TailSumIsSum(e, Pow(), 0);
    TailSumIsSum(d, At(e), 0);
  }

  // ------------------------------------------------- what an update amounts to

  /** What a change adds before removals are taken out. */
  function Gain(vals: seq<Validator>): Validator -> int {
    (c: Validator) => if c.power > 0 then c.power - PowerAt(vals, c.address) else 0
  }

  function TotalBeforeRemovals(vals: seq<Validator>, changes: seq<Validator>): int {
    Total(vals) + SumBy(changes, Gain(vals), |changes|)
  }

  function TotalAfter(vals: seq<Validator>, changes: seq<Validator>): int {
    Total(vals) + SumBy(changes, Delta(vals), |changes|)
  }

  /** When updateWithChangeSet accepts a non-empty change list. */
  ghost predicate Acceptable(vals: seq<Validator>, changes: seq<Validator>, allowDeletes: bool) {
    && WellFormed(changes)
    && (allowDeletes || forall c :: c in changes ==> c.power > 0)
    && (forall c :: c in changes && c.power == 0 ==> Has(vals, c.address))
    && SomeoneStays(vals, changes)
    && TotalAfter(vals, changes) <= MAX_POWER
  }

  ghost predicate SomeoneStays(vals: seq<Validator>, changes: seq<Validator>) {
    (exists c :: c in changes && c.power > 0) || (exists v :: v in vals && !Has(changes, v.address))
  }

  /** The members after an update: each change with power, at its address, and
      every old validator that no change addresses. */
  ghost predicate InTarget(v: Validator, vals: seq<Validator>, changes: seq<Validator>) {
    || (v in vals && !Has(changes, v.address))
    || (exists c :: c in changes && c.power > 0 && v == Repriced(vals, c, TotalBeforeRemovals(vals, changes)))
  }

  /** `updates` and `deletes` are what processChanges makes of `changes`. */
  ghost predicate Processed(changes: seq<Validator>, updates: seq<Validator>, deletes: seq<Validator>) {
    && Distinct(changes)
    && Ascending(updates) && Ascending(deletes)
    && (forall v :: v in updates <==> v in changes && v.power > 0)
    && (forall v :: v in deletes <==> v in changes && v.power == 0)
  }

  lemma {:induction false} HasChange(changes: seq<Validator>, updates: seq<Validator>, deletes: seq<Validator>,
                                     a: Address)
    requires Processed(changes, updates, deletes) && forall c :: c in changes ==> c.power >= 0
    ensures Has(changes, a) <==> Has(updates, a) || Has(deletes, a)
    ensures !(Has(updates, a) && Has(deletes, a))
  {
    if Has(changes, a) {
      var c := changes[Find(changes, a)];
      if c.power > 0 { HasMember(updates, c); } else { HasMember(deletes, c); }
    }
    if Has(updates, a) { HasMember(changes, updates[Find(updates, a)]); }
    if Has(deletes, a) { HasMember(changes, deletes[Find(deletes, a)]); }
  }

  /** The emptiness test of updateWithChangeSet, made on counts before the
      removals are checked, is exact once they are. */
  lemma {:induction false} EmptinessTest(vals: seq<Validator>, changes: seq<Validator>,
                                         updates: seq<Validator>, deletes: seq<Validator>)
    requires Distinct(vals) && Processed(changes, updates, deletes) && forall c :: c in changes ==> c.power >= 0
    requires forall d :: d in deletes ==> Has(vals, d.address)
    ensures (forall u :: u in updates ==> Has(vals, u.address)) && |vals| == |deletes| <==> !SomeoneStays(vals, changes)
  {
    AscendingDistinct(deletes);
    RemovalsFit(deletes, vals);
    if (forall u :: u in updates ==> Has(vals, u.address)) && |vals| == |deletes| {
      forall v | v in vals ensures Has(changes, v.address) { HasChange(changes, updates, deletes, v.address); }
      forall c | c in changes ensures c.power == 0 {
        if c.power > 0 {
          HasMember(updates, c);
          HasChange(changes, updates, deletes, c.address);
        }
      }
    }
    if !SomeoneStays(vals, changes) {
      forall v | v in vals ensures Has(deletes, v.address) {
        HasMember(deletes, changes[Find(changes, v.address)]);
      }
      RemovalsFit(vals, deletes);
    }
  }

  method NumNewValidators(updates: seq<Validator>, vals: seq<Validator>) returns (n: nat)
    ensures n == 0 <==> forall u :: u in updates ==> Has(vals, u.address)
  {
    n := 0;
    for i := 0 to |updates|
      invariant n == 0 <==> forall j :: 0 <= j < i ==> Has(vals, updates[j].address)
    {
      if !Has(vals, updates[i].address) { n := n + 1; }
    }
    assert n != 0 ==> exists j :: 0 <= j < |updates| && updates[j] in updates && !Has(vals, updates[j].address);
  }

  /** `out` is `updates` with new priorities. */
  ghost predicate AreRepriced(vals: seq<Validator>, updates: seq<Validator>, tvp: int, out: seq<Validator>) {
    |out| == |updates| && forall i :: 0 <= i < |updates| ==> out[i] == Repriced(vals, updates[i], tvp)
  }

  lemma {:induction false} RepricedAlike(vals: seq<Validator>, updates: seq<Validator>, tvp: int, out: seq<Validator>)
    requires AreRepriced(vals, updates, tvp, out) && Ascending(updates)
    ensures Ascending(out)
    ensures forall v :: v in out <==> exists u :: u in updates && v == Repriced(vals, u, tvp)
    ensures forall a :: Has(out, a) <==> Has(updates, a)
  {
    assert forall i :: 0 <= i < |out| ==> out[i].address == updates[i].address;
    forall v ensures v in out <==> exists u :: u in updates && v == Repriced(vals, u, tvp) {
      if v in out {
        var i :| 0 <= i < |out| && out[i] == v;
        assert updates[i] in updates;
      }
      if u :| u in updates && v == Repriced(vals, u, tvp) {
        var i :| 0 <= i < |updates| && updates[i] == u;
        assert out[i] == v;
      }
    }
    forall a ensures Has(out, a) <==> Has(updates, a) {
      if Has(out, a) { HasMember(updates, updates[Find(out, a)]); }
      if Has(updates, a) { HasMember(out, out[Find(updates, a)]); }
    }
  }

  /** A validator to be removed is still there, with its power, after the updates. */
  lemma {:induction false} StillThere(vals: seq<Validator>, existing: seq<Validator>, updates: seq<Validator>,
                                      both: seq<Validator>, a: Address)
    requires Distinct(both) && (forall v :: v in existing <==> v in vals)
    requires Has(vals, a) && !Has(updates, a)
    requires forall v :: v in both <==> InUpdated(v, existing, updates)
    ensures Has(both, a) && PowerAt(both, a) == PowerAt(vals, a)
  {
    var v := vals[Find(vals, a)];
    assert v in existing && InUpdated(v, existing, updates);
    HasMember(both, v);
  }

  /** The middle of updateWithChangeSet: reprice, merge, remove. */
  method MergeChanges(vals: seq<Validator>, ghost changes: seq<Validator>, updates: seq<Validator>,
                      deletes: seq<Validator>, tvp: int)
    returns (merged: seq<Validator>)
    requires Distinct(vals) && Processed(changes, updates, deletes) && WellFormed(changes)
    requires forall d :: d in deletes ==> Has(vals, d.address)
    requires tvp == TotalBeforeRemovals(vals, changes) && 0 <= tvp <= 2 * MAX_POWER
    requires SumBy(updates, Delta(vals), |updates|) + SumBy(deletes, Delta(vals), |deletes|)
          == SumBy(changes, Delta(vals), |changes|)
    ensures Ascending(merged)
    ensures forall v :: v in merged <==> InTarget(v, vals, changes)
    ensures Total(merged) == TotalAfter(vals, changes)
  {
    var repriced := ComputeNewPriorities(updates, vals, tvp);
    RepricedAlike(vals, updates, tvp, repriced);
    ByAddressOrders();
    var existing := Sort(vals, ByAddress());
    PermutedValidators(vals, existing);
    SortedAscending(existing);
    var both := ApplyUpdates(existing, repriced);
    AscendingDistinct(both);
    forall j | 0 <= j < |deletes|
      ensures Has(both, deletes[j].address) && PowerAt(both, deletes[j].address) == PowerAt(vals, deletes[j].address)
    {
      RemovedUntouched(changes, updates, deletes, j);
      StillThere(vals, existing, repriced, both, deletes[j].address);
    }
    merged := ApplyRemovals(both, deletes);
    TargetMembers(vals, changes, updates, deletes, existing, repriced, both, merged);
    TargetTotal(vals, changes, updates, deletes, tvp, existing, repriced, both, merged);
  }

  lemma {:induction false} RemovedUntouched(changes: seq<Validator>, updates: seq<Validator>, deletes: seq<Validator>,
                                            j: nat)
    requires Processed(changes, updates, deletes) && WellFormed(changes) && j < |deletes|
    ensures deletes[j] in deletes && !Has(updates, deletes[j].address)
  {
    HasMember(deletes, deletes[j]);
    HasChange(changes, updates, deletes, deletes[j].address);
  }

  /** Exactly which changes are accepted: distinct validators with addresses and powers
      in range, removals allowed and of members, and somebody left. */
  lemma {:induction false} AcceptableIs(vals: seq<Validator>, changes: seq<Validator>, allowDeletes: bool)
    ensures Acceptable(vals, changes, allowDeletes) <==>
      && (forall i, j :: 0 <= i < j < |changes| ==> changes[i].address != changes[j].address)
      && (forall i :: 0 <= i < |changes| ==> changes[i].address != [] && 0 <= changes[i].power <= MAX_POWER)
      && (forall i :: 0 <= i < |changes| && changes[i].power == 0 ==>
            allowDeletes && exists k :: 0 <= k < |vals| && vals[k].address == changes[i].address)
      && (exists v :: InTarget(v, vals, changes))
      && TotalAfter(vals, changes) <= MAX_POWER
  {
    StaysIs(vals, changes);
    if Acceptable(vals, changes, allowDeletes) {
      forall i | 0 <= i < |changes|
        ensures InRange(changes[i]) && (changes[i].power == 0 ==> allowDeletes && Has(vals, changes[i].address))
      {
        assert changes[i] in changes;
      }
    }
  }

  lemma {:induction false} StaysIs(vals: seq<Validator>, changes: seq<Validator>)
    ensures SomeoneStays(vals, changes) <==> exists v :: InTarget(v, vals, changes)
  {
    if c :| c in changes && c.power > 0 {
      assert InTarget(Repriced(vals, c, TotalBeforeRemovals(vals, changes)), vals, changes);
    }
    if v :| v in vals && !Has(changes, v.address) {
      assert InTarget(v, vals, changes);
    }
  }

  lemma {:induction false} TargetMembers(vals: seq<Validator>, changes: seq<Validator>, updates: seq<Validator>,
                                         deletes: seq<Validator>, existing: seq<Validator>, repriced: seq<Validator>,
                                         both: seq<Validator>, merged: seq<Validator>)
    requires Processed(changes, updates, deletes) && WellFormed(changes)
    requires forall v :: v in existing <==> v in vals
    requires forall v :: v in repriced <==>
               exists u :: u in updates && v == Repriced(vals, u, TotalBeforeRemovals(vals, changes))
    requires forall a :: Has(repriced, a) <==> Has(updates, a)
    requires forall v :: v in both <==> InUpdated(v, existing, repriced)
    requires forall v :: v in merged <==> v in both && !Has(deletes, v.address)
    ensures forall v :: v in merged <==> InTarget(v, vals, changes)
  {
    forall v ensures v in merged <==> InTarget(v, vals, changes) {
      HasChange(changes, updates, deletes, v.address);
      if v in repriced { HasMember(repriced, v); }
      assert v in repriced <==>
        exists c :: c in changes && c.power > 0 && v == Repriced(vals, c, TotalBeforeRemovals(vals, changes));
    }
  }

  lemma {:induction false} TargetTotal(vals: seq<Validator>, changes: seq<Validator>, updates: seq<Validator>,
                                       deletes: seq<Validator>, tvp: int, existing: seq<Validator>,
                                       repriced: seq<Validator>, both: seq<Validator>, merged: seq<Validator>)
    requires multiset(vals) == multiset(existing) && Distinct(vals) && Processed(changes, updates, deletes)
    requires AreRepriced(vals, updates, tvp, repriced)
    requires forall j :: 0 <= j < |deletes| ==> PowerAt(both, deletes[j].address) == PowerAt(vals, deletes[j].address)
    requires SumBy(both, Pow(), |both|)
          == SumBy(existing, Pow(), |existing|) + SumBy(repriced, Delta(existing), |repriced|)
    requires SumBy(merged, Pow(), |merged|) == SumBy(both, Pow(), |both|) - SumBy(deletes, At(both), |deletes|)
    requires SumBy(updates, Delta(vals), |updates|) + SumBy(deletes, Delta(vals), |deletes|)
          == SumBy(changes, Delta(vals), |changes|)
    ensures Total(merged) == TotalAfter(vals, changes)
  {
    TotalIsSum(merged, |merged|);
    TotalIsSum(vals, |vals|);
    SumByPermuted(vals, existing, Pow());
    PermutedValidators(vals, existing);
    SameDeltas(vals, existing, updates, tvp, repriced, |updates|);
    assert forall j :: 0 <= j < |deletes| ==> deletes[j] in deletes;
    RemovalDeltas(vals, both, deletes, |deletes|);
  }

  lemma {:induction false} SameDeltas(vals: seq<Validator>, existing: seq<Validator>, updates: seq<Validator>, tvp: int,
                                      repriced: seq<Validator>, n: nat)
    requires n <= |updates| && AreRepriced(vals, updates, tvp, repriced)
    requires Distinct(existing) && forall v :: v in vals <==> v in existing
    ensures SumBy(repriced, Delta(existing), n) == SumBy(updates, Delta(vals), n)
  {
    if n > 0 {
      SameDeltas(vals, existing, updates, tvp, repriced, n - 1);
      SameMembersSameFind(vals, existing, updates[n - 1].address);
    }
  }

  lemma {:induction false} RemovalDeltas(vals: seq<Validator>, both: seq<Validator>, deletes: seq<Validator>, n: nat)
    requires n <= |deletes| && forall j :: 0 <= j < |deletes| ==> deletes[j].power == 0
    requires forall j :: 0 <= j < |deletes| ==> PowerAt(both, deletes[j].address) == PowerAt(vals, deletes[j].address)
    ensures SumBy(deletes, Delta(vals), n) == -SumBy(deletes, At(both), n)
    ensures SumBy(deletes, At(both), n) == SumBy(deletes, At(vals), n)
  {
    if n > 0 {
      RemovalDeltas(vals, both, deletes, n - 1);
    }
  }
}
