/** types/validator.go: a validator and the order that picks the proposer. */
module Validator {
  import opened Basics
  import opened Lists

  type Address = Bytes

  type PubKey = Bytes

  datatype Validator = Validator(address: Address, pubKey: PubKey, power: int, priority: int)

  /** bytes.Compare(a, b) < 0: lexicographic order. */
  predicate Less(a: Bytes, b: Bytes)
  {
    if b == [] then false
    else if a == [] then true
    else if a[0] != b[0] then a[0] < b[0]
    else Less(a[1..], b[1..])
  }

  /** At the first difference `a` has ended or has the smaller byte. */
  lemma {:induction false} LessIsLexicographic(a: Bytes, b: Bytes)
    ensures Less(a, b) <==> exists k :: 0 <= k < |b| && k <= |a| && a[..k] == b[..k] && (k == |a| || a[k] < b[k])
  {
    if a == [] || b == [] || a[0] != b[0] {
      if b != [] && (a == [] || a[0] < b[0]) { assert a[..0] == b[..0]; }
    } else {
      LessIsLexicographic(a[1..], b[1..]);
      if Less(a, b) {
        var k :| && 0 <= k < |b[1..]| && k <= |a[1..]| && a[1..][..k] == b[1..][..k]
                 && (k == |a[1..]| || a[1..][k] < b[1..][k]);
        assert a[..k + 1] == [a[0]] + a[1..][..k] && b[..k + 1] == [b[0]] + b[1..][..k];
      }
      forall k | 0 <= k < |b| && k <= |a| && a[..k] == b[..k] && (k == |a| || a[k] < b[k]) ensures Less(a, b) {
        assert a[..k][1..] == a[1..][..k - 1] && b[..k][1..] == b[1..][..k - 1];
      }
    }
  }

  lemma {:induction false} LessIrreflexive(a: Bytes)
    ensures !Less(a, a)
  {
    if a != [] { LessIrreflexive(a[1..]); }
  }

  lemma {:induction false} LessTotal(a: Bytes, b: Bytes)
    ensures Less(a, b) || a == b || Less(b, a)
  {
    if a != [] && b != [] && a[0] == b[0] {
      LessTotal(a[1..], b[1..]);
      assert a == [a[0]] + a[1..] && b == [b[0]] + b[1..];
    }
  }

  lemma {:induction false} LessTransitive(a: Bytes, b: Bytes, c: Bytes)
    requires Less(a, b) && Less(b, c)
    ensures Less(a, c)
  {
    if a != [] && a[0] == b[0] == c[0] { LessTransitive(a[1..], b[1..], c[1..]); }
  }

  lemma LessAsymmetric(a: Bytes, b: Bytes)
    requires Less(a, b)
    ensures !Less(b, a) && a != b
  {
    LessIrreflexive(a);
    if Less(b, a) { LessTransitive(a, b, a); }
  }

  /** `v` is proposed before `w`: higher priority, or equal priority and the
      smaller address. */
  predicate Precedes(v: Validator, w: Validator) {
    v.priority > w.priority || (v.priority == w.priority && Less(v.address, w.address))
  }

  lemma PrecedesTotal(v: Validator, w: Validator)
    requires v.address != w.address
    ensures Precedes(v, w) <==> !Precedes(w, v)
  {
    LessTotal(v.address, w.address);
    if Less(v.address, w.address) {
      LessAsymmetric(v.address, w.address);
    } else {
      LessAsymmetric(w.address, v.address);
    }
  }

  /** CompareProposerPriority; it panics on two validators with one address. */
  function Compare(v: Validator, w: Validator): (r: Validator)
    requires v.address != w.address
    ensures r == if Precedes(v, w) then v else w
    ensures Precedes(v, w) <==> !Precedes(w, v)
  {
    PrecedesTotal(v, w);
    if v.priority > w.priority then v
    else if v.priority < w.priority then w
    else if Less(v.address, w.address) then v
    else w
  }

  lemma PrecedesTransitive(u: Validator, v: Validator, w: Validator)
    requires Precedes(u, v) && Precedes(v, w)
    ensures Precedes(u, w)
  {
    if u.priority == v.priority == w.priority { LessTransitive(u.address, v.address, w.address); }
  }

  predicate Distinct(vs: seq<Validator>) {
    forall i, j {:trigger vs[i].address, vs[j].address} :: 0 <= i < j < |vs| ==> vs[i].address != vs[j].address
  }

  /** Strictly increasing addresses. */
  ghost predicate Ascending(vs: seq<Validator>) {
    forall i, j {:trigger vs[i].address, vs[j].address} :: 0 <= i < j < |vs| ==> Less(vs[i].address, vs[j].address)
  }

  lemma AscendingDistinct(vs: seq<Validator>)
    requires Ascending(vs)
    ensures Distinct(vs)
  {
    forall i, j | 0 <= i < j < |vs| ensures vs[i].address != vs[j].address {
      LessAsymmetric(vs[i].address, vs[j].address);
    }
  }

  lemma AscendingSnoc(vs: seq<Validator>, v: Validator)
    requires Ascending(vs) && forall w :: w in vs ==> Less(w.address, v.address)
    ensures Ascending(vs + [v])
  {
    var us := vs + [v];
    forall i, j | 0 <= i < j < |us| ensures Less(us[i].address, us[j].address) {
      assert us[i] == vs[i] && vs[i] in vs;
      if j < |vs| { assert us[j] == vs[j]; }
    }
  }

  // ------------------------------------------------------------- sort orders

  /** ValidatorsByAddress, as a non-strict order. */
  function ByAddress(): (Validator, Validator) -> bool {
    (v: Validator, w: Validator) => !Less(w.address, v.address)
  }

  /** ValidatorsByVotingPower: decreasing power, then increasing address. */
  function ByPower(): (Validator, Validator) -> bool {
    (v: Validator, w: Validator) => !PowerBefore(w, v)
  }

  predicate PowerBefore(v: Validator, w: Validator) {
    v.power > w.power || (v.power == w.power && Less(v.address, w.address))
  }

  lemma NotLessTransitive(a: Bytes, b: Bytes, c: Bytes)
    requires !Less(b, a) && !Less(c, b)
    ensures !Less(c, a)
  {
    LessTotal(a, b);
    LessTotal(b, c);
    if a != b && b != c {
      LessTransitive(a, b, c);
      LessAsymmetric(a, c);
    }
  }

  lemma LessNotBoth(a: Bytes, b: Bytes)
    ensures !(Less(a, b) && Less(b, a))
  {
    if Less(a, b) { LessAsymmetric(a, b); }
  }

  lemma ByAddressOrders()
    ensures TotalPreorder(ByAddress())
  {
    var leq := ByAddress();
    forall x: Validator, y: Validator ensures leq(x, y) || leq(y, x) { LessNotBoth(x.address, y.address); }
    forall x: Validator, y: Validator, z: Validator | leq(x, y) && leq(y, z) ensures leq(x, z) {
      NotLessTransitive(x.address, y.address, z.address);
    }
  }

  lemma ByPowerOrders()
    ensures TotalPreorder(ByPower())
  {
    var leq := ByPower();
    forall x: Validator, y: Validator ensures leq(x, y) || leq(y, x) { LessNotBoth(x.address, y.address); }
    forall x: Validator, y: Validator, z: Validator | leq(x, y) && leq(y, z) ensures leq(x, z) {
      if x.power == y.power == z.power { NotLessTransitive(x.address, y.address, z.address); }
    }
  }

  /** Sorted by address and free of duplicates is strictly ascending. */
  lemma SortedAscending(vs: seq<Validator>)
    requires Sorted(vs, ByAddress()) && Distinct(vs)
    ensures Ascending(vs)
  {
    forall i, j | 0 <= i < j < |vs| ensures Less(vs[i].address, vs[j].address) {
      assert ByAddress()(vs[i], vs[j]);
      LessTotal(vs[i].address, vs[j].address);
    }
  }

  lemma PermutedValidators(vs: seq<Validator>, us: seq<Validator>)
    requires multiset(vs) == multiset(us)
    ensures forall v :: v in vs <==> v in us
    ensures Distinct(vs) <==> Distinct(us)
    ensures |vs| == |us|
  {
    PermutedMembers(vs, us);
    var key := (v: Validator) => v.address;
    if Distinct(vs) {
      assert DistinctKeys(vs, key);
      PermutedDistinct(vs, us, key);
      assert forall i :: 0 <= i < |us| ==> key(us[i]) == us[i].address;
    }
    if Distinct(us) {
      assert DistinctKeys(us, key);
      PermutedDistinct(us, vs, key);
      assert forall i :: 0 <= i < |vs| ==> key(vs[i]) == vs[i].address;
    }
    assert |vs| == |multiset(vs)| && |us| == |multiset(us)|;
  }
}
