/** Safety of light-client verification: from a canonical trusted block, every
    block of a verified trace is canonical, or the hash has been broken on inputs
    that are named (light/client.go:629-701, light/verifier.go:33-180). */
module LightSafety {
  import opened Basics
  import opened Rotation
  import opened Validator
  import opened Proposer
  import opened TreeShape
  import opened MerkleTree
  import opened Votes
  import opened Validation
  import opened TrustLevel
  import opened LightVerifier
  import opened LightClient

  /** The chain everyone agrees on, and the keys of correct validators. */
  datatype Chain = Chain(chainID: string, header: int -> Header, vals: int -> seq<Validator>, correct: PubKey -> bool)

  /** Headers commit to their own and to the next validator set. */
  ghost predicate WellFormedAt(c: Client, ch: Chain, n: int) {
    && ch.header(n).height == n && ch.header(n).chainID == ch.chainID && Powered(ch.vals(n))
    && ch.header(n).validatorsHash == ValsHash(c, ch.vals(n))
    && ch.header(n).nextValidatorsHash == ValsHash(c, ch.vals(n + 1))
  }

  ghost predicate WellFormed(c: Client, ch: Chain) {
    forall n :: n > 0 ==> WellFormedAt(c, ch, n)
  }

  function FaultyMask(ch: Chain, vs: seq<Validator>): seq<bool> {
    seq(|vs|, i requires 0 <= i < |vs| => !ch.correct(vs[i].pubKey))
  }

  /** Faulty validators hold at most a third of the power. */
  ghost predicate MostlyCorrectAt(ch: Chain, n: int) {
    3 * MaskSum(Powers(ch.vals(n)), FaultyMask(ch, ch.vals(n)), |ch.vals(n)|) <= Total(ch.vals(n))
  }

  ghost predicate MostlyCorrect(ch: Chain) {
    forall n :: n > 0 ==> MostlyCorrectAt(ch, n)
  }

  /** The trust level is not misread for the set at `n`. */
  ghost predicate LevelOk(c: Client, ch: Chain, n: int) { !Misread(Total(ch.vals(n)), c.trustLevel) }

  /** A precommit for a block of this chain. */
  predicate IsPrecommit(ch: Chain, msg: CanonicalVote) {
    msg.kind == PRECOMMIT && msg.chainID == ch.chainID && msg.height > 0 && msg.blockID.Some?
  }

  /** Correct validators precommit only blocks of the chain. */
  ghost predicate SignCanonical(c: Client, ch: Chain) {
    forall key, msg, signature :: ch.correct(key) && c.crypto.verify(key, msg, signature) && IsPrecommit(ch, msg) ==>
      msg.blockID.value.hash == HeaderHash(c, ch.header(msg.height))
  }

  /** Different headers, and different validators, are encoded differently. */
  ghost predicate Injective(enc: Encoding) {
    && (forall a, b :: enc.fields(a) == enc.fields(b) ==> a == b)
    && (forall k, p, l, q :: enc.validator(k, p) == enc.validator(l, q) ==> k == l && p == q)
  }

  ghost predicate Assumptions(c: Client, ch: Chain) {
    && FixedWidth(c.h) && Injective(c.enc) && WellFormed(c, ch) && MostlyCorrect(ch) && SignCanonical(c, ch)
    && forall n :: n > 0 ==> LevelOk(c, ch, n)
  }

  /** The same keys with the same powers. */
  ghost predicate SameSet(vs: seq<Validator>, ws: seq<Validator>) {
    |vs| == |ws| && forall i :: 0 <= i < |vs| ==> vs[i].pubKey == ws[i].pubKey && vs[i].power == ws[i].power
  }

  ghost predicate Canonical(ch: Chain, b: LightBlock) {
    b.header.height > 0 && b.header == ch.header(b.header.height) && SameSet(b.vals, ch.vals(b.header.height))
  }

  /** Two nodes of the Merkle trees of `xs` and `ys` that collide. */
  ghost predicate Clash(h: HashFn, xs: seq<Bytes>, ys: seq<Bytes>) {
    exists x, y :: x in TreeNodes(Sha(h), xs) && y in TreeNodes(Sha(h), ys) && Collision(h, Encode(x), Encode(y))
  }

  /** The block breaks the hash against the header or the set of its height. */
  ghost predicate Clashes(c: Client, ch: Chain, b: LightBlock) {
    || Clash(c.h, c.enc.fields(ch.header(b.header.height)), c.enc.fields(b.header))
    || Clash(c.h, ValidatorBytes(c, ch.vals(b.header.height)), ValidatorBytes(c, b.vals))
  }

  // ------------------------------------------------------------- hash binding

  lemma {:induction false} RootsBind(h: HashFn, xs: seq<Bytes>, ys: seq<Bytes>)
    requires FixedWidth(h) && MerkleRoot(h, xs) == MerkleRoot(h, ys)
    ensures xs == ys || Clash(h, xs, ys)
  {
    var x, y := MerkleRootBinding(h, xs, ys);
    if xs != ys { assert x in TreeNodes(Sha(h), xs); }
  }

  lemma {:induction false} RootIsWide(h: HashFn, xs: seq<Bytes>)
    requires FixedWidth(h)
    ensures |MerkleRoot(h, xs)| == HASH_SIZE
  {
    ShaIsWide(h);
    assert MerkleRoot(h, xs) == Sha(h)(RootNode(Sha(h), xs));
  }

  lemma {:induction false} HeaderBinds(c: Client, ch: Chain, b: LightBlock)
    requires FixedWidth(c.h) && Injective(c.enc) && WellFormed(c, ch) && b.header.height > 0
    requires HeaderHash(c, b.header) == HeaderHash(c, ch.header(b.header.height))
    ensures b.header == ch.header(b.header.height) || Clashes(c, ch, b)
  {
    var hd := ch.header(b.header.height);
    assert WellFormedAt(c, ch, b.header.height);
    RootIsWide(c.h, ValidatorBytes(c, ch.vals(b.header.height)));
    RootIsWide(c.h, c.enc.fields(hd));
    assert hd.validatorsHash != [] && b.header.validatorsHash != [];
    RootsBind(c.h, c.enc.fields(hd), c.enc.fields(b.header));
  }

  lemma {:induction false} BytesBind(c: Client, vs: seq<Validator>, ws: seq<Validator>)
    requires Injective(c.enc) && ValidatorBytes(c, vs) == ValidatorBytes(c, ws)
    ensures SameSet(vs, ws)
  {
    var xs, ys := ValidatorBytes(c, vs), ValidatorBytes(c, ws);
    assert |xs| == |vs| && |ys| == |ws|;
    forall i | 0 <= i < |vs| ensures vs[i].pubKey == ws[i].pubKey && vs[i].power == ws[i].power {
      assert xs[i] == c.enc.validator(vs[i].pubKey, vs[i].power) && ys[i] == c.enc.validator(ws[i].pubKey, ws[i].power);
    }
  }

  lemma {:induction false} ValsBind(c: Client, ch: Chain, b: LightBlock)
    requires FixedWidth(c.h) && Injective(c.enc)
    requires ValsHash(c, b.vals) == ValsHash(c, ch.vals(b.header.height))
    ensures SameSet(b.vals, ch.vals(b.header.height)) || Clashes(c, ch, b)
  {
    var vs := ch.vals(b.header.height);
    RootsBind(c.h, ValidatorBytes(c, vs), ValidatorBytes(c, b.vals));
    if ValidatorBytes(c, vs) == ValidatorBytes(c, b.vals) { BytesBind(c, b.vals, vs); }
  }

  // --------------------------------------------------------- a correct signer

  lemma {:induction false} SameSetSums(vs: seq<Validator>, ws: seq<Validator>, m: seq<bool>, n: nat)
    requires SameSet(vs, ws) && n <= |vs| && |m| == |vs|
    ensures Sum(Powers(vs), n) == Sum(Powers(ws), n) && MaskSum(Powers(vs), m, n) == MaskSum(Powers(ws), m, n)
  {
    if n > 0 { SameSetSums(vs, ws, m, n - 1); }
  }

  /** More than a third of a set of the chain includes a correct validator. */
  lemma {:induction false} CorrectSigner(ch: Chain, vs: seq<Validator>, height: int, m: seq<bool>) returns (i: nat)
    requires MostlyCorrectAt(ch, height) && SameSet(vs, ch.vals(height)) && Powered(vs)
    requires |m| == |vs| && 3 * MaskSum(Powers(vs), m, |vs|) > Total(vs)
    ensures i < |vs| && m[i] && ch.correct(vs[i].pubKey)
  {
    var ws := ch.vals(height);
    SameSetSums(vs, ws, m, |vs|);
    var faulty := FaultyMask(ch, ws);
    if forall k :: 0 <= k < |m| && m[k] ==> faulty[k] {
      MaskSubset(Powers(ws), m, faulty, |ws|);
      assert false;
    }
    i :| 0 <= i < |m| && m[i] && !faulty[i];
  }

  /** A correct signature on the commit makes the header the canonical one. */
  lemma {:induction false} SignedIsCanonical(c: Client, ch: Chain, b: LightBlock, j: Job, i: nat, v: nat)
    requires SignCanonical(c, ch) && Consistent(c, b, ch.chainID)
    requires j.chainID == ch.chainID && j.crypto == c.crypto && j.commit == b.commit
    requires i < |b.commit.signatures| && b.commit.signatures[i].flag.ForBlock?
    requires v < |j.vals| && ch.correct(j.vals[v].pubKey) && ValidEntry(j.crypto, EntryAt(j, i, v))
    ensures HeaderHash(c, b.header) == HeaderHash(c, ch.header(b.header.height))
  {
    var msg := SignBytes(j.chainID, GetVote(j.commit, i));
    assert IsPrecommit(ch, msg) && msg.blockID.value == b.commit.blockID && msg.height == b.header.height;
  }

  lemma {:induction false} TrustedSigner(c: Client, ch: Chain, a: LightBlock, b: LightBlock) returns (i: nat, v: nat)
    requires MostlyCorrectAt(ch, a.header.height) && LevelOk(c, ch, a.header.height)
    requires SameSet(a.vals, ch.vals(a.header.height))
    requires SoundBatch(c) && Loadable(a) && Accepted(c.trustLevel)
    requires TrustedCommit(c, a, b)
    ensures i < |b.commit.signatures| && b.commit.signatures[i].flag.ForBlock?
    ensures v < |a.vals| && ch.correct(a.vals[v].pubKey) && ValidEntry(c.crypto, EntryAt(TrustJob(c, a, b), i, v))
  {
    var j, r := TrustJob(c, a, b), TrustedRule(c, a);
    var k :| 0 <= k <= |j.commit.signatures| && Settles(j, r, k);
    var m := Signers(j, r, k);
    MaskOfPowers(Powers(a.vals), m, |a.vals|);
    SameSetSums(a.vals, ch.vals(a.header.height), m, |a.vals|);
    ThresholdIsThird(Total(a.vals), c.trustLevel);
    v := CorrectSigner(ch, a.vals, a.header.height, m);
    i :| 0 <= i < k && IsSigner(j, r, i, v);
    assert Signed(j, r, i);
  }

  lemma {:induction false} OwnSigner(c: Client, ch: Chain, a: LightBlock, b: LightBlock) returns (i: nat)
    requires MostlyCorrectAt(ch, b.header.height) && Powered(b.vals)
    requires SameSet(b.vals, ch.vals(b.header.height)) && OwnCommit(c, a, b)
    ensures i < |b.commit.signatures| && b.commit.signatures[i].flag.ForBlock?
    ensures i < |b.vals| && ch.correct(b.vals[i].pubKey) && ValidEntry(c.crypto, EntryAt(OwnJob(c, a, b), i, i))
  {
    var j := OwnJob(c, a, b);
    var k :| 0 <= k <= |j.vals| && LightPrefix(j, k);
    var m := seq(|j.vals|, n requires 0 <= n < |j.vals| => n < k && ForBlockMask(j.commit)[n]);
    CutMask(Powers(j.vals), ForBlockMask(j.commit), m, k, |j.vals|);
    TotalOfPowered(b.vals);
    i := CorrectSigner(ch, b.vals, b.header.height, m);
    assert SignedAt(j, i);
  }

  /** Marks below `k` only. */
  lemma {:induction false} CutMask(s: seq<int>, m: seq<bool>, cut: seq<bool>, k: nat, n: nat)
    requires |m| == |cut| == |s| && k <= n <= |s| && forall i :: 0 <= i < |s| ==> cut[i] == (i < k && m[i])
    ensures MaskSum(s, cut, n) == MaskSum(s, m, k)
    decreases n
  {
    if n > k {
      CutMask(s, m, cut, k, n - 1);
    } else {
      SameMarks(s, cut, m, k);
    }
  }

  lemma {:induction false} SameMarks(s: seq<int>, a: seq<bool>, b: seq<bool>, n: nat)
    requires n <= |s| && n <= |a| && n <= |b| && forall i :: 0 <= i < n ==> a[i] == b[i]
    ensures MaskSum(s, a, n) == MaskSum(s, b, n)
  {
    if n > 0 { SameMarks(s, a, b, n - 1); }
  }

  // -------------------------------------------------------------- the theorem

  lemma {:induction false} NonAdjacentSafe(c: Client, ch: Chain, a: LightBlock, b: LightBlock, now: int)
    requires Assumptions(c, ch) && SoundBatch(c) && Loadable(a) && Canonical(ch, a) && NonAdjacentOk(c, a, b, now)
    ensures Canonical(ch, b) || Clashes(c, ch, b)
  {
    var n := a.header.height;
    assert WellFormedAt(c, ch, n) && MostlyCorrectAt(ch, n) && LevelOk(c, ch, n);
    var i, v := TrustedSigner(c, ch, a, b);
    SignedIsCanonical(c, ch, b, TrustJob(c, a, b), i, v);
    HeaderBinds(c, ch, b);
    if b.header == ch.header(b.header.height) {
      assert WellFormedAt(c, ch, b.header.height);
      ValsBind(c, ch, b);
    }
  }

  lemma {:induction false} AdjacentSafe(c: Client, ch: Chain, a: LightBlock, b: LightBlock, now: int)
    requires Assumptions(c, ch) && Loadable(a) && Loadable(b) && Canonical(ch, a) && AdjacentOk(c, a, b, now)
    ensures Canonical(ch, b) || Clashes(c, ch, b)
  {
    var n := a.header.height;
    assert WellFormedAt(c, ch, n) && b.header.height == n + 1 && MostlyCorrectAt(ch, n + 1);
    ValsBind(c, ch, b);
    if SameSet(b.vals, ch.vals(b.header.height)) {
      var i := OwnSigner(c, ch, a, b);
      SignedIsCanonical(c, ch, b, OwnJob(c, a, b), i, i);
      HeaderBinds(c, ch, b);
    }
  }

  lemma {:induction false} LinkSafe(c: Client, ch: Chain, a: LightBlock, b: LightBlock, now: int)
    requires Assumptions(c, ch) && Loadable(b) && Canonical(ch, a) && Link(c, a, b, now)
    ensures Canonical(ch, b) || Clashes(c, ch, b)
  {
    if Adjacent(a, b) {
      AdjacentSafe(c, ch, a, b, now);
    } else {
      NonAdjacentSafe(c, ch, a, b, now);
    }
  }

  /** What passes from each to the next unless something breaks. */
  lemma {:induction false} Spreads<T>(xs: seq<T>, good: T -> bool, bad: T -> bool, n: nat)
    requires n <= |xs| && (n > 0 ==> good(xs[0]))
    requires forall k :: 0 <= k < |xs| - 1 && good(xs[k]) ==> good(xs[k + 1]) || bad(xs[k + 1])
    ensures (forall k :: 0 <= k < n ==> good(xs[k])) || (exists k :: 0 <= k < n && bad(xs[k]))
  {
    if n > 1 {
      Spreads(xs, good, bad, n - 1);
      assert good(xs[n - 2]) ==> good(xs[n - 2 + 1]) || bad(xs[n - 2 + 1]);
    }
  }

  /** From a canonical trusted block, all of a trace is canonical, or one of its
      blocks breaks the hash. */
  lemma {:induction false} TraceSafe(c: Client, ch: Chain, trace: seq<LightBlock>, now: int)
    requires Assumptions(c, ch) && Linked(c, trace, now) && |trace| > 0 && Canonical(ch, trace[0])
    ensures || (forall k :: 0 <= k < |trace| ==> Canonical(ch, trace[k]))
            || (exists k :: 0 <= k < |trace| && Clashes(c, ch, trace[k]))
  {
    var good, bad := (b: LightBlock) => Canonical(ch, b), (b: LightBlock) => Clashes(c, ch, b);
    forall k | 0 <= k < |trace| - 1 && good(trace[k]) ensures good(trace[k + 1]) || bad(trace[k + 1]) {
      LinkSafe(c, ch, trace[k], trace[k + 1], now);
    }
    Spreads(trace, good, bad, |trace|);
    if !(forall k :: 0 <= k < |trace| ==> good(trace[k])) {
      var k :| 0 <= k < |trace| && bad(trace[k]);
      assert Clashes(c, ch, trace[k]);
    } else {
      assert forall k :: 0 <= k < |trace| ==> good(trace[k]);
    }
  }

  /** Skipping verification against any source, honest or not. */
  method SkipSafely(c: Client, ghost ch: Chain, source: Provider, trusted: LightBlock, target: LightBlock, now: int)
    returns (r: Result<seq<LightBlock>, SkipError>)
    requires Assumptions(c, ch) && SoundBatch(c) && Answers(source)
    requires Loadable(trusted) && Loadable(target) && Canonical(ch, trusted)
    ensures r.Ok? ==>
      || (forall k :: 0 <= k < |r.value| ==> Canonical(ch, r.value[k]))
      || (exists k :: 0 <= k < |r.value| && Clashes(c, ch, r.value[k]))
    ensures r.Ok? ==> forall i, j {:trigger r.value[i], r.value[j]} :: 0 <= i < j < |r.value| ==>
      r.value[i].header.height < r.value[j].header.height && r.value[i].header.time < r.value[j].header.time
  {
    ghost var fetched;
    r, fetched := VerifySkipping(c, source, trusted, target, now);
    if r.Ok? {
      TraceSafe(c, ch, r.value, now);
      forall i, j | 0 <= i < j < |r.value|
        ensures r.value[i].header.height < r.value[j].header.height && r.value[i].header.time < r.value[j].header.time
      {
        TraceIncreases(c, r.value, now, i, j);
      }
    }
  }
}
