/** light/client.go:536-707: skipping and sequential verification against a
    provider, which is a function from heights to blocks. */
module LightClient {
  import opened Basics
  import opened Int64
  import opened Rotation
  import opened Proposer
  import opened Votes
  import Validation
  import opened LightVerifier

  const VERIFY_SKIPPING_NUMERATOR := 9
  const VERIFY_SKIPPING_DENOMINATOR := 16

  /** schedule, in int64. */
  function Schedule(lastVerified: int, lastFailed: int): int {
    var product := Wrap(Wrap(lastFailed - lastVerified) * VERIFY_SKIPPING_NUMERATOR);
    Wrap(lastVerified + Quot(product, VERIFY_SKIPPING_DENOMINATOR))
  }

  /** The next height to try is below the failed one, and above the verified one
      exactly when the product has not wrapped to something small. */
  lemma {:induction false} PivotBetween(v: int, f: int)
    requires 0 < v && v + 2 <= f && Fits(f)
    ensures Schedule(v, f) < f
    ensures v < Schedule(v, f) <==> Wrap((f - v) * VERIFY_SKIPPING_NUMERATOR) >= VERIFY_SKIPPING_DENOMINATOR
    ensures (f - v) * VERIFY_SKIPPING_NUMERATOR <= MAX ==> v < Schedule(v, f)
  {
    var w := Wrap((f - v) * VERIFY_SKIPPING_NUMERATOR);
    var x := Quot(w, VERIFY_SKIPPING_DENOMINATOR);
    assert Schedule(v, f) == Wrap(v + x);
    if (f - v) * 9 <= MAX {
      assert w == (f - v) * 9 && 1 <= x < f - v;
    } else {
      assert x < f - v;
    }
  }

  /** Nine sixteenths of the way up, if nothing wraps. */
  lemma {:induction false} PivotIs(v: int, f: int)
    requires 0 < v && v + 2 <= f && Fits(f) && (f - v) * 9 <= MAX
    ensures 16 * (Schedule(v, f) - v) <= 9 * (f - v) < 16 * (Schedule(v, f) - v) + 16
  {
    PivotBetween(v, f);
  }

  /** A pivot that is not above the verified height. */
  lemma {:induction false} PivotBelow()
    ensures var v, f := 1, MAX / 9 + 2; v + 2 <= f && Fits(f) && Schedule(v, f) <= v
  {
    PivotBetween(1, MAX / 9 + 2);
  }

  type Provider = int -> Option<LightBlock>

  /** Providers answer with the height asked for. */
  ghost predicate Answers(source: Provider) {
    forall height :: source(height).Some? ==> source(height).value.header.height == height && Loadable(source(height).value)
  }

  /** Consecutive blocks of a trace have been verified against each other. */
  ghost predicate AllAttested(c: Client, trace: seq<LightBlock>, now: int) {
    forall k :: 0 < k < |trace| ==> Attested(c, trace[k - 1], trace[k], now)
  }

  ghost predicate Linked(c: Client, trace: seq<LightBlock>, now: int) {
    && SoundBatch(c)
    && (forall k :: 0 <= k < |trace| ==> Loadable(trace[k]))
    && (forall k :: 0 <= k < |trace| - 1 ==> Link(c, trace[k], trace[k + 1], now))
  }

  ghost predicate Link(c: Client, a: LightBlock, b: LightBlock, now: int) {
    SoundBatch(c) && Loadable(a) && Verified(c, a, b, now)
  }

  ghost predicate TraceOf(c: Client, trace: seq<LightBlock>, trusted: LightBlock, target: LightBlock, now: int) {
    Linked(c, trace, now) && |trace| >= 1 && trace[0] == trusted && trace[|trace| - 1] == target
  }

  lemma {:induction false} LinkMore(c: Client, trace: seq<LightBlock>, trusted: LightBlock, a: LightBlock, b: LightBlock,
                                    now: int)
    requires TraceOf(c, trace, trusted, a, now) && Loadable(b) && Verified(c, a, b, now)
    ensures TraceOf(c, trace + [b], trusted, b, now)
  {
    var longer := trace + [b];
    forall k | 0 <= k < |longer| - 1 ensures Link(c, longer[k], longer[k + 1], now) {
      if k < |trace| - 1 { assert Link(c, trace[k], trace[k + 1], now); }
    }
  }

  /** The validators marked signed for the block of the commit that comes with `b`. */
  ghost predicate SignedBy(c: Client, b: LightBlock, mask: seq<bool>) {
    && |mask| == |b.vals| == |b.commit.signatures|
    && forall i :: 0 <= i < |mask| && mask[i] ==>
         && b.commit.signatures[i].flag.ForBlock?
         && c.crypto.verify(b.vals[i].pubKey, SignBytes(b.header.chainID, GetVote(b.commit, i)),
                            b.commit.signatures[i].signature)
  }

  /** What a block must be to be accepted after `a`, adjacent or not: it is for the
      same chain, later, not from the future and not expired; header, validators and
      commit belong together; and more than two thirds of its validators signed. */
  ghost predicate Attested(c: Client, a: LightBlock, b: LightBlock, now: int) {
    && b.header.chainID == a.header.chainID && b.header.height > a.header.height && b.header.time > a.header.time
    && c.basic(b.header, b.commit) && b.header.height > 0 && !IsZero(b.commit.blockID)
    && now < b.header.time + c.trustingPeriod && b.header.time < now + c.maxClockDrift
    && b.commit.height == b.header.height && b.commit.blockID.hash == HeaderHash(c, b.header)
    && b.header.validatorsHash == ValsHash(c, b.vals)
    && exists mask :: SignedBy(c, b, mask) && 3 * MaskSum(Powers(b.vals), mask, |mask|) > 2 * Total(b.vals)
  }

  /** The signatures that settled a commit, and nothing beyond. */
  function Prefix(mask: seq<bool>, k: nat): (m: seq<bool>)
    ensures |m| == |mask|
  {
    seq(|mask|, i requires 0 <= i < |mask| => i < k && mask[i])
  }

  lemma {:induction false} PrefixSum(v: seq<int>, mask: seq<bool>, k: nat, n: nat)
    requires k <= n <= |v| && n <= |mask|
    ensures MaskSum(v, Prefix(mask, k), n) == MaskSum(v, mask, k)
  {
    if n > 0 {
      PrefixSum(v, mask, if k < n then k else n - 1, n - 1);
      if k == n { PrefixSame(v, mask, k, n - 1); }
    }
  }

  lemma {:induction false} PrefixSame(v: seq<int>, mask: seq<bool>, k: nat, n: nat)
    requires n <= k && n <= |v| && n <= |mask|
    ensures MaskSum(v, Prefix(mask, k), n) == MaskSum(v, mask, n)
  {
    if n > 0 { PrefixSame(v, mask, k, n - 1); }
  }

  lemma {:induction false} OwnCommitSigned(c: Client, a: LightBlock, b: LightBlock) returns (mask: seq<bool>)
    requires OwnCommit(c, a, b) && b.header.chainID == a.header.chainID
    ensures SignedBy(c, b, mask) && 3 * MaskSum(Powers(b.vals), mask, |mask|) > 2 * Total(b.vals)
  {
    var j := OwnJob(c, a, b);
    var k :| 0 <= k <= |j.vals| && Validation.LightPrefix(j, k);
    mask := Prefix(Validation.ForBlockMask(b.commit), k);
    PrefixSum(Powers(b.vals), Validation.ForBlockMask(b.commit), k, |b.vals|);
    forall i | 0 <= i < |mask| && mask[i]
      ensures c.crypto.verify(b.vals[i].pubKey, SignBytes(b.header.chainID, GetVote(b.commit, i)),
                              b.commit.signatures[i].signature)
    {
      assert Validation.SignedAt(j, i);
    }
  }

  /** Every link of a trace, by either check, attests to its block. */
  lemma {:induction false} LinkAttests(c: Client, a: LightBlock, b: LightBlock, now: int)
    requires Link(c, a, b, now)
    ensures Attested(c, a, b, now)
  {
    var mask := OwnCommitSigned(c, a, b);
  }

  lemma {:induction false} TraceAttests(c: Client, trace: seq<LightBlock>, now: int)
    requires Linked(c, trace, now)
    ensures AllAttested(c, trace, now)
  {
    forall k | 0 < k < |trace| ensures Attested(c, trace[k - 1], trace[k], now) {
      assert Link(c, trace[k - 1], trace[k - 1 + 1], now);
      LinkAttests(c, trace[k - 1], trace[k], now);
    }
  }

  /** Heights and times of a trace strictly increase. */
  lemma {:induction false} TraceIncreases(c: Client, trace: seq<LightBlock>, now: int, i: nat, j: nat)
    requires Linked(c, trace, now) && i < j < |trace|
    ensures trace[i].header.height < trace[j].header.height && trace[i].header.time < trace[j].header.time
  {
    assert Link(c, trace[j - 1], trace[j], now);
    if i < j - 1 { TraceIncreases(c, trace, now, i, j - 1); }
  }

  // ---------------------------------------------------------------- skipping

  datatype SkipError = VerificationFailed(from: int, to: int, reason: Option<LightError>)

  /** The local variables of verifySkipping. */
  datatype Search = Search(cache: seq<LightBlock>, depth: nat, verified: LightBlock, trace: seq<LightBlock>)

  /** From the target down, cached heights strictly decrease and stay above the
      verified one, except maybe for the block to be looked at next. */
  ghost predicate CacheOk(s: Search, target: LightBlock) {
    && s.depth < |s.cache| && s.cache[0] == target && s.verified.header.height > 0
    && (forall k :: 0 <= k < |s.cache| ==> Loadable(s.cache[k]))
    && (forall i, j {:trigger s.cache[i], s.cache[j]} :: 0 <= i < j < |s.cache| ==>
          s.cache[i].header.height > s.cache[j].header.height)
    && (forall k :: 0 <= k < |s.cache| && k != s.depth ==> s.cache[k].header.height > s.verified.header.height)
  }

  ghost predicate SearchOk(c: Client, s: Search, trusted: LightBlock, target: LightBlock, now: int) {
    CacheOk(s, target) && TraceOf(c, s.trace, trusted, s.verified, now)
  }

  /** The block at `depth` has been verified. */
  function Advanced(s: Search): Search
    requires s.depth < |s.cache|
  {
    Search(s.cache[..s.depth], 0, s.cache[s.depth], s.trace + [s.cache[s.depth]])
  }

  lemma {:induction false} AdvancedOk(c: Client, s: Search, trusted: LightBlock, target: LightBlock, now: int)
    requires SearchOk(c, s, trusted, target, now) && s.depth > 0 && Verified(c, s.verified, s.cache[s.depth], now)
    ensures SearchOk(c, Advanced(s), trusted, target, now)
    ensures s.verified.header.height < s.cache[s.depth].header.height < target.header.height
  {
    LinkMore(c, s.trace, trusted, s.verified, s.cache[s.depth], now);
  }

  lemma {:induction false} DeeperOk(s: Search, target: LightBlock)
    requires CacheOk(s, target) && s.depth < |s.cache| - 1
    requires s.cache[s.depth].header.height > s.verified.header.height
    ensures CacheOk(s.(depth := s.depth + 1), target)
    ensures s.cache[s.depth + 1].header.height < s.cache[s.depth].header.height
  {
  }

  lemma {:induction false} FetchedOk(s: Search, target: LightBlock, b: LightBlock)
    requires CacheOk(s, target) && s.depth == |s.cache| - 1 && Loadable(b)
    requires s.cache[s.depth].header.height > s.verified.header.height
    requires b.header.height < s.cache[s.depth].header.height
    ensures CacheOk(s.(cache := s.cache + [b], depth := s.depth + 1), target)
  {
    var t := s.(cache := s.cache + [b], depth := s.depth + 1);
    forall i, j | 0 <= i < j < |t.cache| ensures t.cache[i].header.height > t.cache[j].header.height {
      if j == |s.cache| && i < s.depth { assert s.cache[i].header.height > s.cache[s.depth].header.height; }
    }
  }

  // --------------------------------------------------------- heights fetched

  ghost predicate InCache(s: Search, height: int) {
    exists k :: 0 <= k < |s.cache| && s.cache[k].header.height == height
  }

  /** Heights fetched so far are distinct, and cached or already passed. */
  ghost predicate FetchedOnce(s: Search, fetched: seq<int>) {
    && (forall n :: 0 <= n < |fetched| ==> fetched[n] <= s.verified.header.height || InCache(s, fetched[n]))
    && Different(fetched)
  }

  ghost predicate Different(fetched: seq<int>) {
    forall m, n {:trigger fetched[m], fetched[n]} :: 0 <= m < n < |fetched| ==> fetched[m] != fetched[n]
  }

  /** The last height fetched has wrapped to one already passed; the next turn will
      find that out and fail. */
  ghost predicate FetchedBelow(s: Search, fetched: seq<int>) {
    && s.depth < |s.cache| && s.cache[s.depth].header.height <= s.verified.header.height
    && |fetched| > 0 && Different(fetched[..|fetched| - 1])
  }

  lemma {:induction false} AdvancedFetched(s: Search, target: LightBlock, fetched: seq<int>)
    requires CacheOk(s, target) && FetchedOnce(s, fetched)
    requires s.cache[s.depth].header.height > s.verified.header.height
    ensures FetchedOnce(Advanced(s), fetched)
  {
    var t := Advanced(s);
    forall n | 0 <= n < |fetched| ensures fetched[n] <= t.verified.header.height || InCache(t, fetched[n]) {
      if fetched[n] > t.verified.header.height {
        var k :| 0 <= k < |s.cache| && s.cache[k].header.height == fetched[n];
        assert k < s.depth;
        assert t.cache[k] == s.cache[k];
      }
    }
  }

  lemma {:induction false} FetchMore(s: Search, target: LightBlock, fetched: seq<int>, b: LightBlock)
    requires CacheOk(s, target) && FetchedOnce(s, fetched) && s.depth == |s.cache| - 1
    requires s.verified.header.height < b.header.height < s.cache[s.depth].header.height
    ensures FetchedOnce(s.(cache := s.cache + [b], depth := s.depth + 1), fetched + [b.header.height])
  {
    var t := s.(cache := s.cache + [b], depth := s.depth + 1);
    var more := fetched + [b.header.height];
    forall n | 0 <= n < |more| ensures more[n] <= t.verified.header.height || InCache(t, more[n]) {
      if n < |fetched| && fetched[n] > s.verified.header.height {
        var k :| 0 <= k < |s.cache| && s.cache[k].header.height == fetched[n];
        assert t.cache[k].header.height == more[n];
      } else if n == |fetched| {
        assert t.cache[|s.cache|] == b;
      }
    }
    assert forall k :: 0 <= k < |s.cache| ==> s.cache[k].header.height > b.header.height by {
      forall k | 0 <= k < |s.cache| ensures s.cache[k].header.height > b.header.height {
        if k < s.depth { assert s.cache[k].header.height > s.cache[s.depth].header.height; }
      }
    }
  }

  // -------------------------------------------------------- a willing source

  /** Verify has no reason to refuse for good. */
  ghost predicate Ready(c: Client, a: LightBlock, b: LightBlock, now: int) {
    SoundBatch(c) && Loadable(a) && if Adjacent(a, b) then AdjacentOk(c, a, b, now) else Bisectable(c, a, b, now)
  }

  /** Blocks for all heights from `lo` to `hi`, each ready to be verified against
      each before it. */
  ghost predicate Serves(c: Client, source: Provider, lo: int, hi: int, now: int) {
    && 0 < lo && (hi - lo) * VERIFY_SKIPPING_NUMERATOR <= MAX
    && (forall k :: lo <= k <= hi ==> source(k).Some?)
    && (forall v, f {:trigger source(v), source(f)} :: lo <= v < f <= hi ==>
          Ready(c, source(v).value, source(f).value, now))
  }

  /** All blocks of the search are the source's. */
  ghost predicate FromSource(source: Provider, lo: int, hi: int, s: Search) {
    && lo <= s.verified.header.height && source(s.verified.header.height) == Some(s.verified)
    && (forall k :: 0 <= k < |s.cache| ==>
          s.verified.header.height < s.cache[k].header.height <= hi && source(s.cache[k].header.height) == Some(s.cache[k]))
  }

  lemma {:induction false} AdvancedFromSource(source: Provider, lo: int, hi: int, s: Search, target: LightBlock)
    requires CacheOk(s, target) && FromSource(source, lo, hi, s)
    ensures FromSource(source, lo, hi, Advanced(s))
  {
  }

  lemma {:induction false} FetchedFromSource(source: Provider, lo: int, hi: int, s: Search, pivot: int)
    requires Answers(source) && FromSource(source, lo, hi, s) && source(pivot).Some?
    requires s.verified.header.height < pivot <= hi
    ensures FromSource(source, lo, hi, s.(cache := s.cache + [source(pivot).value], depth := s.depth + 1))
  {
  }

  // -------------------------------------------------------------------- a turn

  datatype Outcome = Done(trace: seq<LightBlock>) | Failed(error: SkipError) | Going(next: Search, asked: Option<int>)

  /** Either the verified height grows, or a lower cached height is tried. */
  ghost predicate Progress(s: Search, t: Search, target: LightBlock) {
    && s.depth < |s.cache| && t.depth < |t.cache|
    && (|| s.verified.header.height < t.verified.header.height < target.header.height
        || (&& t.verified == s.verified
            && s.verified.header.height < s.cache[s.depth].header.height
            && t.cache[t.depth].header.height < s.cache[s.depth].header.height))
  }

  /** The height to ask for next. */
  function Pivot(s: Search): int
    requires s.depth < |s.cache|
  {
    Schedule(s.verified.header.height, s.cache[s.depth].header.height)
  }

  /** How a turn goes on: past a verified block, deeper into the cache, or with the
      block at the pivot at its end. */
  ghost predicate Continues(source: Provider, s: Search, o: Outcome)
    requires s.depth < |s.cache| && o.Going?
  {
    && s.cache[s.depth].header.height > s.verified.header.height
    && (o.asked.None? ==> o.next == Advanced(s) || o.next == s.(depth := s.depth + 1))
    && (o.asked.Some? ==>
          && s.depth == |s.cache| - 1 && o.asked.value == Pivot(s) && source(Pivot(s)).Some?
          && s.cache[s.depth].header.height >= s.verified.header.height + 2
          && o.next == s.(cache := s.cache + [source(Pivot(s)).value], depth := s.depth + 1))
  }

  /** There is a height to ask for, and the source has no answer. */
  ghost predicate Unanswered(source: Provider, s: Search)
    requires s.depth < |s.cache|
  {
    s.cache[s.depth].header.height >= s.verified.header.height + 2 && source(Pivot(s)).None?
  }

  /** A failure names the block verified last and the one that could not be verified
      or, without a reason, not be had. */
  ghost predicate FailsAt(source: Provider, s: Search, e: SkipError)
    requires s.depth < |s.cache|
  {
    && e.from == s.verified.header.height && e.reason != Some(NewValSetCantBeTrusted)
    && if e.reason.Some? then e.to == s.cache[s.depth].header.height else e.to == Pivot(s) && source(Pivot(s)).None?
  }

  method Turn(c: Client, source: Provider, s: Search, ghost trusted: LightBlock, target: LightBlock, now: int)
    returns (o: Outcome)
    requires SoundBatch(c) && Answers(source) && SearchOk(c, s, trusted, target, now)
    ensures o.Done? ==> TraceOf(c, o.trace, trusted, target, now)
    ensures o.Going? ==> SearchOk(c, o.next, trusted, target, now) && Progress(s, o.next, target)
    ensures o.Going? ==> Continues(source, s, o)
    ensures o.Failed? && Ready(c, s.verified, s.cache[s.depth], now) ==> Unanswered(source, s)
    ensures o.Failed? ==> FailsAt(source, s, o.error)
  {
    var b := s.cache[s.depth];
    var err := Verify(c, s.verified, b, now);
    if err.None? {
      if s.depth == 0 {
        LinkMore(c, s.trace, trusted, s.verified, target, now);
        return Done(s.trace + [target]);
      }
      AdvancedOk(c, s, trusted, target, now);
      return Going(Advanced(s), None);
    }
    if err != Some(NewValSetCantBeTrusted) {
      return Failed(VerificationFailed(s.verified.header.height, b.header.height, err));
    }
    if s.depth == |s.cache| - 1 {
      var pivot := Schedule(s.verified.header.height, b.header.height);
      PivotBetween(s.verified.header.height, b.header.height);
      var interim := source(pivot);
      if interim.None? { return Failed(VerificationFailed(s.verified.header.height, pivot, None)); }
      FetchedOk(s, target, interim.value);
      return Going(s.(cache := s.cache + [interim.value], depth := s.depth + 1), Some(pivot));
    }
    DeeperOk(s, target);
    o := Going(s.(depth := s.depth + 1), None);
  }

  /** The products in schedule stay in int64 for heights this close. */
  ghost predicate Close(trusted: LightBlock, target: LightBlock) {
    (target.header.height - trusted.header.height) * VERIFY_SKIPPING_NUMERATOR <= MAX
  }

  /** What a turn asks for is new, unless the pivot has wrapped. */
  lemma {:induction false} TurnFetches(source: Provider, s: Search, o: Outcome, trusted: LightBlock, target: LightBlock,
                                       fetched: seq<int>)
    requires Answers(source) && CacheOk(s, target) && FetchedOnce(s, fetched) && o.Going?
    requires trusted.header.height <= s.verified.header.height && Continues(source, s, o)
    ensures var more := fetched + if o.asked.Some? then [o.asked.value] else [];
      FetchedOnce(o.next, more) || (!Close(trusted, target) && FetchedBelow(o.next, more))
  {
    if o.asked.Some? {
      assert s.cache[s.depth].header.height <= target.header.height;
      PivotBetween(s.verified.header.height, s.cache[s.depth].header.height);
      if o.asked.value > s.verified.header.height {
        FetchMore(s, target, fetched, source(o.asked.value).value);
      } else {
        assert (fetched + [o.asked.value])[..|fetched|] == fetched;
      }
    } else {
      assert fetched + [] == fetched;
      if o.next == Advanced(s) { AdvancedFetched(s, target, fetched); }
    }
  }

  ghost predicate PivotInside(s: Search)
    requires s.depth < |s.cache|
  {
    var v, f := s.verified.header.height, s.cache[s.depth].header.height;
    f >= v + 2 ==> v < Pivot(s) < f
  }

  /** What the turn looks at is ready, and the pivot is there. */
  lemma {:induction false} TurnAnswered(c: Client, source: Provider, s: Search, target: LightBlock, lo: int, now: int)
    requires Answers(source) && CacheOk(s, target) && Serves(c, source, lo, target.header.height, now)
    requires FromSource(source, lo, target.header.height, s)
    ensures Ready(c, s.verified, s.cache[s.depth], now) && !Unanswered(source, s) && PivotInside(s)
  {
    var v, f := s.verified.header.height, s.cache[s.depth].header.height;
    assert Ready(c, source(v).value, source(f).value, now);
    if f >= v + 2 { PivotBetween(v, f); }
  }

  /** With a willing source, a turn does not fail and asks it for more. */
  lemma {:induction false} TurnServed(c: Client, source: Provider, s: Search, o: Outcome, target: LightBlock, lo: int,
                                      now: int)
    requires Answers(source) && CacheOk(s, target) && Serves(c, source, lo, target.header.height, now)
    requires FromSource(source, lo, target.header.height, s)
    requires o.Failed? && Ready(c, s.verified, s.cache[s.depth], now) ==> Unanswered(source, s)
    requires o.Going? ==> Continues(source, s, o)
    ensures !o.Failed?
    ensures o.Going? ==> FromSource(source, lo, target.header.height, o.next)
  {
    TurnAnswered(c, source, s, target, lo, now);
    if o.Going? { TurnContinues(source, s, o, target, lo); }
  }

  lemma {:induction false} TurnContinues(source: Provider, s: Search, o: Outcome, target: LightBlock, lo: int)
    requires Answers(source) && CacheOk(s, target) && FromSource(source, lo, target.header.height, s)
    requires o.Going? && Continues(source, s, o) && PivotInside(s)
    ensures FromSource(source, lo, target.header.height, o.next)
  {
    if o.asked.Some? {
      FetchedFromSource(source, lo, target.header.height, s, o.asked.value);
    } else if o.next == Advanced(s) {
      AdvancedFromSource(source, lo, target.header.height, s, target);
    }
  }

  /** The loop of verifySkipping; `s` is where it ended. */
  method SkipToTarget(c: Client, source: Provider, trusted: LightBlock, target: LightBlock, now: int)
    returns (r: Result<seq<LightBlock>, SkipError>, ghost fetched: seq<int>, ghost s': Search)
    requires SoundBatch(c) && Answers(source) && Loadable(trusted) && Loadable(target) && trusted.header.height > 0
    ensures r.Ok? ==> TraceOf(c, r.value, trusted, target, now)
    ensures FetchedOnce(s', fetched) || (!Close(trusted, target) && FetchedBelow(s', fetched))
    ensures Willing(c, source, trusted, target, now) ==> r.Ok?
  {
    var s := Search([target], 0, trusted, [trusted]);
    fetched := [];
    ghost var lo, hi := trusted.header.height, target.header.height;
    while true
      invariant SearchOk(c, s, trusted, target, now) && lo <= s.verified.header.height
      invariant FetchedOnce(s, fetched) || (!Close(trusted, target) && FetchedBelow(s, fetched))
      invariant Willing(c, source, trusted, target, now) ==> FromSource(source, lo, hi, s)
      decreases hi - s.verified.header.height, s.cache[s.depth].header.height - s.verified.header.height
    {
      var o := Turn(c, source, s, trusted, target, now);
      if Willing(c, source, trusted, target, now) { TurnServed(c, source, s, o, target, lo, now); }
      if o.Done? { return Ok(o.trace), fetched, s; }
      if o.Failed? { return Err(o.error), fetched, s; }
      TurnFetches(source, s, o, trusted, target, fetched);
      fetched := fetched + if o.asked.Some? then [o.asked.value] else [];
      s := o.next;
    }
  }

  /** verifySkipping.  A trace is a chain of verified blocks from the trusted to
      the target; no height is fetched twice, but for a last one that has wrapped;
      and a willing source gets one. */
  method VerifySkipping(c: Client, source: Provider, trusted: LightBlock, target: LightBlock, now: int)
    returns (r: Result<seq<LightBlock>, SkipError>, ghost fetched: seq<int>)
    requires SoundBatch(c) && Answers(source) && Loadable(trusted) && Loadable(target) && trusted.header.height > 0
    ensures r.Ok? ==> TraceOf(c, r.value, trusted, target, now) && AllAttested(c, r.value, now)
    ensures Close(trusted, target) ==> Different(fetched)
    ensures fetched != [] ==> Different(fetched[..|fetched| - 1])
    ensures Willing(c, source, trusted, target, now) ==> r.Ok?
  {
    ghost var s;
    r, fetched, s := SkipToTarget(c, source, trusted, target, now);
    if r.Ok? { TraceAttests(c, r.value, now); }
  }

  /** The source serves everything from the trusted block to the target. */
  ghost predicate Willing(c: Client, source: Provider, trusted: LightBlock, target: LightBlock, now: int) {
    && trusted.header.height < target.header.height
    && source(trusted.header.height) == Some(trusted) && source(target.header.height) == Some(target)
    && Serves(c, source, trusted.header.height, target.header.height, now)
  }

  // -------------------------------------------------------------- sequential

  /** Every height from the trusted block to the target, in order. */
  ghost predicate FullTrace(c: Client, trace: seq<LightBlock>, trusted: LightBlock, last: LightBlock, now: int) {
    && TraceOf(c, trace, trusted, last, now) && |trace| == last.header.height - trusted.header.height + 1
    && forall k :: 0 <= k < |trace| ==> trace[k].header.height == trusted.header.height + k
  }

  lemma {:induction false} FullTraceMore(c: Client, trace: seq<LightBlock>, trusted: LightBlock, a: LightBlock,
                                         b: LightBlock, now: int)
    requires FullTrace(c, trace, trusted, a, now) && Loadable(b) && AdjacentOk(c, a, b, now) && a.header.height < MAX
    ensures FullTrace(c, trace + [b], trusted, b, now)
  {
    assert Adjacent(a, b);
    LinkMore(c, trace, trusted, a, b, now);
  }

  /** The block for the next height: the target, or the source's. */
  function NextBlock(source: Provider, target: LightBlock, height: int): Option<LightBlock> {
    if height == target.header.height then Some(target) else source(height)
  }

  method FetchAdjacent(c: Client, source: Provider, verified: LightBlock, target: LightBlock, height: int, now: int)
    returns (r: Result<LightBlock, SkipError>)
    requires SoundBatch(c) && Answers(source) && Loadable(verified) && Loadable(target)
    requires height == Wrap(verified.header.height + 1)
    ensures r.Ok? <==>
      var b := NextBlock(source, target, height); b.Some? && AdjacentOk(c, verified, b.value, now)
    ensures r.Ok? ==> NextBlock(source, target, height) == Some(r.value) && Loadable(r.value)
    ensures r.Ok? ==> verified.header.height < MAX && r.value.header.height == height == verified.header.height + 1
    ensures r.Err? ==> r.error.from == verified.header.height && r.error.to == height
    ensures r.Err? ==> (r.error.reason.None? <==> NextBlock(source, target, height).None?)
  {
    var interim := NextBlock(source, target, height);
    if interim.None? { return Err(VerificationFailed(verified.header.height, height, None)); }
    var err := VerifyAdjacent(c, verified, interim.value, now);
    if err.Some? { return Err(VerificationFailed(verified.header.height, interim.value.header.height, err)); }
    r := Ok(interim.value);
  }

  /** Where sequential verification stands after some heights. */
  ghost predicate Climbed(c: Client, source: Provider, trusted: LightBlock, target: LightBlock, verified: LightBlock,
                          trace: seq<LightBlock>, now: int)
  {
    && Loadable(verified) && FullTrace(c, trace, trusted, verified, now)
    && (Willing(c, source, trusted, target, now) ==> source(verified.header.height) == Some(verified))
    && if trusted.header.height < target.header.height
       then verified.header.height < target.header.height || verified == target
       else trace == [trusted] && verified == trusted
  }

  lemma {:induction false} ClimbMore(c: Client, source: Provider, trusted: LightBlock, target: LightBlock,
                                     verified: LightBlock, trace: seq<LightBlock>, b: LightBlock, now: int)
    requires Climbed(c, source, trusted, target, verified, trace, now) && b.header.height <= target.header.height
    requires NextBlock(source, target, b.header.height) == Some(b) && Loadable(b) && AdjacentOk(c, verified, b, now)
    requires verified.header.height < MAX && b.header.height == verified.header.height + 1
    ensures Climbed(c, source, trusted, target, b, trace + [b], now)
  {
    FullTraceMore(c, trace, trusted, verified, b, now);
  }

  /** A willing source has the next block. */
  lemma {:induction false} ClimbReady(c: Client, source: Provider, trusted: LightBlock, target: LightBlock,
                                      verified: LightBlock, height: int, now: int)
    requires Willing(c, source, trusted, target, now) && source(verified.header.height) == Some(verified)
    requires trusted.header.height <= verified.header.height && Loadable(target)
    requires height == verified.header.height + 1 == Wrap(verified.header.height + 1) <= target.header.height
    requires Answers(source)
    ensures var b := NextBlock(source, target, height); b.Some? && AdjacentOk(c, verified, b.value, now)
  {
    assert Ready(c, source(verified.header.height).value, source(height).value, now);
  }

  /** verifySequential, up to the replacement of a failing primary: every height
      in turn, each verified against the one before.  The height wraps after the
      largest int64, so a target there is never reached; a target that is not
      above the trusted block is not looked at. */
  method VerifySequential(c: Client, source: Provider, trusted: LightBlock, target: LightBlock, now: int)
    returns (r: Result<seq<LightBlock>, SkipError>)
    requires SoundBatch(c) && Answers(source) && Loadable(trusted) && Loadable(target)
    ensures r.Ok? && trusted.header.height < target.header.height ==> FullTrace(c, r.value, trusted, target, now)
    ensures r.Ok? ==> AllAttested(c, r.value, now)
    ensures r.Ok? && trusted.header.height >= target.header.height ==> r.value == [trusted]
    ensures target.header.height == MAX ==> r.Err?
    ensures r.Err? ==>
      trusted.header.height <= r.error.from && r.error.to == Wrap(r.error.from + 1) && r.error.to <= target.header.height
    ensures Willing(c, source, trusted, target, now) && target.header.height < MAX ==> r.Ok?
  {
    var verified, trace := trusted, [trusted];
    var height := Wrap(trusted.header.height + 1);
    while height <= target.header.height
      invariant height == Wrap(verified.header.height + 1)
      invariant Climbed(c, source, trusted, target, verified, trace, now)
      decreases MAX - verified.header.height
    {
      if Willing(c, source, trusted, target, now) && height == verified.header.height + 1 {
        ClimbReady(c, source, trusted, target, verified, height, now);
      }
      var interim := FetchAdjacent(c, source, verified, target, height, now);
      if interim.Err? { return Err(interim.error); }
      ClimbMore(c, source, trusted, target, verified, trace, interim.value, now);
      verified := interim.value;
      trace := trace + [verified];
      height := Wrap(height + 1);
    }
    TraceAttests(c, trace, now);
    r := Ok(trace);
  }
}
