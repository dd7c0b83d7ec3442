/** Completeness of skipping verification: a source that serves an unexpired
    chain whose neighbours verify is never refused
    (light/client.go:647-700, light/verifier.go:103-180). */
module LightCompleteness {
  import opened Basics
  import opened Int64
  import opened Validator
  import opened Proposer
  import opened Validation
  import opened TrustLevel
  import opened LightVerifier
  import opened LightClient

  /** Every signature for the block is its own validator's, found by address. */
  ghost predicate WellSigned(c: Client, chainID: string, b: LightBlock) {
    && |b.commit.signatures| == |b.vals| && Distinct(b.vals)
    && forall i :: 0 <= i < |b.vals| && b.commit.signatures[i].flag.ForBlock? ==>
         SignedBy(c, chainID, b, i) && b.commit.signatures[i].address == b.vals[i].address
  }

  ghost predicate SignedBy(c: Client, chainID: string, b: LightBlock, i: nat)
    requires i < |b.vals| == |b.commit.signatures|
  {
    SignedAt(Job(chainID, b.vals, b.proposer, c.crypto, b.commit), i)
  }

  /** An address stands for the same key in both sets. */
  ghost predicate KeysAgree(vs: seq<Validator>, ws: seq<Validator>) {
    forall i, j {:trigger vs[i].address, ws[j].address} :: 0 <= i < |vs| && 0 <= j < |ws| ==>
      (vs[i].address == ws[j].address ==> vs[i].pubKey == ws[j].pubKey)
  }

  // --------------------------------------------- the trusting check is clean

  lemma {:induction false} CleanSignature(c: Client, a: LightBlock, b: LightBlock, needed: int, i: nat)
    requires WellSigned(c, a.header.chainID, b) && KeysAgree(a.vals, b.vals) && i < |b.commit.signatures|
    requires Relevant(TrustJob(c, a, b), TrustRule(needed), i)
    ensures Signed(TrustJob(c, a, b), TrustRule(needed), i)
    ensures b.commit.signatures[i].address == b.vals[i].address
  {
    var j, r := TrustJob(c, a, b), TrustRule(needed);
    var v := Signer(j, r, i).value;
    assert a.vals[v].address == b.vals[i].address;
    assert SignedBy(c, a.header.chainID, b, i);
  }

  lemma {:induction false} CleanTrust(c: Client, a: LightBlock, b: LightBlock, needed: int)
    requires WellSigned(c, a.header.chainID, b) && KeysAgree(a.vals, b.vals)
    ensures Clean(TrustJob(c, a, b), TrustRule(needed))
  {
    var j, r := TrustJob(c, a, b), TrustRule(needed);
    forall i | 0 <= i < |b.commit.signatures| && Relevant(j, r, i) ensures Signed(j, r, i) {
      CleanSignature(c, a, b, needed, i);
    }
    forall i | 0 <= i < |b.commit.signatures| ensures FirstTime(j, r, i) {
      if Relevant(j, r, i) {
        CleanSignature(c, a, b, needed, i);
        forall h | 0 <= h < i && Relevant(j, r, h) ensures Signer(j, r, h) != Signer(j, r, i) {
          CleanSignature(c, a, b, needed, h);
        }
      }
    }
  }

  // --------------------------------------------------------------- the chain

  /** Blocks for the heights from `lo` to `hi`: each verifies against the one
      before it, is well signed, and leaves the trust level computable. */
  ghost predicate GoodChain(c: Client, source: Provider, lo: int, hi: int, now: int) {
    && SoundBatch(c) && Answers(source) && Accepted(c.trustLevel)
    && 0 < lo && Fits(hi) && (hi - lo) * VERIFY_SKIPPING_NUMERATOR <= MAX
    && (forall n {:trigger source(n)} :: lo <= n <= hi ==> source(n).Some?)
    && Linked(c, source, lo, hi, now)
    && (forall n :: lo <= n <= hi ==> GoodBlock(c, source, n))
    && (forall v, f {:trigger source(v), source(f)} :: lo <= v < f <= hi ==> GoodPair(c, source(v).value, source(f).value))
  }

  /** The sets agree on keys, and it does not come to a batch verifier that refuses
      an empty batch. */
  ghost predicate GoodPair(c: Client, a: LightBlock, b: LightBlock) {
    && KeysAgree(a.vals, b.vals)
    && (Fits(Total(a.vals)) && IsFraction(c.trustLevel) ==> !EmptyBatchRefused(c, a, b))
  }

  /** It does not with a level that is read right. */
  lemma {:induction false} ReadRightDecides(c: Client, a: LightBlock, b: LightBlock)
    requires KeysAgree(a.vals, b.vals) && Accepted(c.trustLevel) && 0 <= Total(a.vals)
    requires !Misread(Total(a.vals), c.trustLevel)
    ensures GoodPair(c, a, b)
  {
    if Fits(Total(a.vals)) && IsFraction(c.trustLevel) && LevelFits(c, a) {
      ThresholdIsThird(Total(a.vals), c.trustLevel);
    }
  }

  /** Nor with verification one by one, whatever the level. */
  lemma {:induction false} OneByOneDecides(c: Client, a: LightBlock, b: LightBlock)
    requires KeysAgree(a.vals, b.vals) && !c.batch.supports(a.proposer)
    ensures GoodPair(c, a, b)
  {
  }

  /** Nor with a signer of the trusted set in the batch. */
  lemma {:induction false} CommonSignerDecides(c: Client, a: LightBlock, b: LightBlock, i: nat, v: nat)
    requires KeysAgree(a.vals, b.vals) && i < |b.commit.signatures| && v < |a.vals|
    requires b.commit.signatures[i].flag.ForBlock? && b.commit.signatures[i].address == a.vals[v].address
    ensures GoodPair(c, a, b)
  {
    if Fits(Total(a.vals)) && IsFraction(c.trustLevel) && LevelFits(c, a) {
      assert Relevant(TrustJob(c, a, b), TrustedRule(c, a), i);
    }
  }

  /** Every block but the last verifies the next one. */
  ghost predicate Linked(c: Client, source: Provider, lo: int, hi: int, now: int) {
    forall n :: lo <= n < hi ==> Neighbours(c, source, n, now)
  }

  ghost predicate Neighbours(c: Client, source: Provider, n: int, now: int) {
    source(n).Some? && source(n + 1).Some? && AdjacentOk(c, source(n).value, source(n + 1).value, now)
  }

  /** No overflow in the threshold, and good signatures. */
  ghost predicate GoodBlock(c: Client, source: Provider, n: int) {
    && source(n).Some? && Loadable(source(n).value)
    && LevelFits(c, source(n).value)
    && WellSigned(c, source(n).value.header.chainID, source(n).value)
  }

  /** Along the chain the chain ID stays and time passes. */
  lemma {:induction false} TimePasses(c: Client, source: Provider, lo: int, hi: int, now: int, v: int, f: int)
    requires Linked(c, source, lo, hi, now) && lo <= v < f <= hi
    ensures source(v).Some? && source(f).Some?
    ensures source(v).value.header.chainID == source(f).value.header.chainID
    ensures source(v).value.header.time < source(f).value.header.time
    decreases f - v
  {
    assert Neighbours(c, source, f - 1, now);
    NeighbourTimes(c, source, f - 1, now);
    if v < f - 1 { TimePasses(c, source, lo, hi, now, v, f - 1); }
  }

  lemma {:induction false} NeighbourTimes(c: Client, source: Provider, n: int, now: int)
    requires Neighbours(c, source, n, now)
    ensures source(n).value.header.chainID == source(n + 1).value.header.chainID
    ensures source(n).value.header.time < source(n + 1).value.header.time
  {
  }

  lemma {:induction false} SkipReady(c: Client, source: Provider, lo: int, hi: int, now: int, v: int, f: int)
    requires GoodChain(c, source, lo, hi, now) && lo <= v && v + 2 <= f <= hi
    ensures Loadable(source(v).value) && Bisectable(c, source(v).value, source(f).value, now)
  {
    var a, p, b := source(v).value, source(f - 1).value, source(f).value;
    assert Neighbours(c, source, v, now) && Neighbours(c, source, f - 1, now);
    assert GoodBlock(c, source, v) && GoodBlock(c, source, f);
    TimePasses(c, source, lo, hi, now, v, f);
    TimePasses(c, source, lo, hi, now, v, f - 1);
    assert OwnJob(c, a, b) == OwnJob(c, p, b);
    CleanTrust(c, a, b, Threshold(Total(a.vals), c.trustLevel));
  }

  lemma {:induction false} ChainReady(c: Client, source: Provider, lo: int, hi: int, now: int, v: int, f: int)
    requires GoodChain(c, source, lo, hi, now) && lo <= v < f <= hi
    ensures Ready(c, source(v).value, source(f).value, now)
  {
    if f == v + 1 {
      assert Neighbours(c, source, v, now);
    } else {
      SkipReady(c, source, lo, hi, now, v, f);
    }
  }

  /** Such a chain is served willingly, so skipping verification succeeds on it
      for every accepted trust level. */
  lemma {:induction false} ChainIsWilling(c: Client, source: Provider, trusted: LightBlock, target: LightBlock, now: int)
    requires trusted.header.height < target.header.height
    requires GoodChain(c, source, trusted.header.height, target.header.height, now)
    requires source(trusted.header.height) == Some(trusted) && source(target.header.height) == Some(target)
    ensures Willing(c, source, trusted, target, now)
  {
    var lo, hi := trusted.header.height, target.header.height;
    forall v, f | lo <= v < f <= hi ensures Ready(c, source(v).value, source(f).value, now) {
      ChainReady(c, source, lo, hi, now, v, f);
    }
  }

  /** Both verification modes return a trace. */
  method VerifyChain(c: Client, source: Provider, trusted: LightBlock, target: LightBlock, now: int)
    returns (skipping: seq<LightBlock>, sequential: seq<LightBlock>)
    requires trusted.header.height < target.header.height < MAX && Loadable(trusted) && Loadable(target)
    requires GoodChain(c, source, trusted.header.height, target.header.height, now)
    requires source(trusted.header.height) == Some(trusted) && source(target.header.height) == Some(target)
    ensures TraceOf(c, skipping, trusted, target, now) && FullTrace(c, sequential, trusted, target, now)
  {
    ChainIsWilling(c, source, trusted, target, now);
    var r, _ := VerifySkipping(c, source, trusted, target, now);
    var q := VerifySequential(c, source, trusted, target, now);
    skipping, sequential := r.value, q.value;
  }
}
