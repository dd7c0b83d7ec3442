/** What AddVote and SetPeerMaj23 answer and change (types/vote_set.go:153-342), field
    by field and in terms of what is held and claimed before the call. */
module VoteEffects {
  import opened Basics
  import opened Proposer
  import opened Votes
  import opened Tally

  // ------------------------------------------------------- what AddVote answers

  ghost predicate RightStep(cfg: Config, v: Vote) {
    v.height == cfg.height && v.round == cfg.round && v.kind == cfg.kind
  }

  /** The vote is for this step and by the validator it names. */
  ghost predicate WellAddressed(cfg: Config, v: Vote) {
    0 <= v.index < |cfg.vals| && v.address != [] && RightStep(cfg, v) && v.address == cfg.vals[v.index].address
  }

  ghost predicate WellSigned(cfg: Config, v: Vote)
    requires 0 <= v.index < |cfg.vals|
  {
    var key := cfg.vals[v.index].pubKey;
    cfg.crypto.addressOf(key) == v.address && cfg.crypto.verify(key, SignBytes(cfg.chainID, v), v.signature)
  }

  /** `u` is held, and a vote by the same validator for the same block as `v`. */
  ghost predicate HeldLike(cfg: Config, s: State, v: Vote, u: Vote) {
    v.index >= 0 && Holds(cfg, s, v.index, u) && K(cfg, u) == K(cfg, v)
  }

  ghost predicate AlreadyHeld(cfg: Config, s: State, v: Vote) { exists u :: HeldLike(cfg, s, v, u) }

  /** A new vote that may be counted. */
  ghost predicate IsNew(cfg: Config, s: State, v: Vote) {
    WellAddressed(cfg, v) && !AlreadyHeld(cfg, s, v) && WellSigned(cfg, v)
  }

  /** The flag and the error that AddVote returns, each in exactly its case. */
  ghost predicate Answered(cfg: Config, s: State, v: Vote, added: bool, error: Option<VoteError>)
    requires |s.votes| == |cfg.vals|
  {
    && (error == Some(InvalidIndex) <==> v.index < 0 || (v.address != [] && RightStep(cfg, v) && v.index >= |cfg.vals|))
    && (error == Some(InvalidAddress) <==>
          v.index >= 0 && (v.address == [] || (RightStep(cfg, v) && v.index < |cfg.vals| && !WellAddressed(cfg, v))))
    && (error == Some(UnexpectedStep) <==> v.index >= 0 && v.address != [] && !RightStep(cfg, v))
    && (error == Some(NonDeterministicSignature) <==>
          WellAddressed(cfg, v) && exists u :: HeldLike(cfg, s, v, u) && u.signature != v.signature)
    && (error == Some(InvalidSignature) <==> WellAddressed(cfg, v) && !AlreadyHeld(cfg, s, v) && !WellSigned(cfg, v))
    && (error.Some? && error.value.Conflicting? <==> IsNew(cfg, s, v) && s.votes[v.index].Some?)
    && (error.Some? && error.value.Conflicting? ==> s.votes[v.index] == Some(error.value.existing))
    && (added <==> IsNew(cfg, s, v) && (s.votes[v.index].None? || Claimed(cfg, s.peers, K(cfg, v))))
  }

  lemma {:induction false} ExistingIsHeld(cfg: Config, s: State, v: Vote)
    requires Inv(cfg, s) && 0 <= v.index < |cfg.vals|
    ensures Sized(cfg, s)
    ensures var e := Existing(cfg, s, v.index, K(cfg, v));
      && (e.None? <==> !AlreadyHeld(cfg, s, v))
      && (e.Some? ==> forall u :: HeldLike(cfg, s, v, u) <==> u == e.value)
  {
    ExistingMeans(cfg, s, v.index, K(cfg, v));
    var e := Existing(cfg, s, v.index, K(cfg, v));
    if e.Some? {
      assert HeldLike(cfg, s, v, e.value);
      forall u | HeldLike(cfg, s, v, u) ensures u == e.value { HeldOnce(cfg, s, v, u, e.value); }
    }
  }

  /** At most one vote per validator and block is held. */
  lemma {:induction false} HeldOnce(cfg: Config, s: State, v: Vote, a: Vote, b: Vote)
    requires Inv(cfg, s) && HeldLike(cfg, s, v, a) && HeldLike(cfg, s, v, b) && v.index < |s.votes|
    ensures a == b
  {
    if s.votes[v.index].Some? { assert VoteOk(cfg, s, v.index, s.votes[v.index].value); }
  }

  lemma {:induction false} FreshIsNew(cfg: Config, s: State, v: Vote)
    requires Inv(cfg, s) && cfg.votable(v.blockID)
    ensures Fresh(cfg, s, v) <==> IsNew(cfg, s, v)
  {
    InvSized(cfg, s);
    if 0 <= v.index < |cfg.vals| { ExistingIsHeld(cfg, s, v); }
  }

  lemma {:induction false} TrackedIsClaimed(cfg: Config, s: State, v: Vote)
    requires Inv(cfg, s) && 0 <= v.index < |cfg.vals|
    ensures |s.votes| == |cfg.vals|
    ensures Tracked(cfg, s, v) <==> s.votes[v.index].None? || Claimed(cfg, s.peers, K(cfg, v))
  {
  }

  lemma {:induction false} RefusedWhen(cfg: Config, v: Vote)
    ensures var e := Refused(cfg, v);
      && (e.None? <==> WellAddressed(cfg, v))
      && (e == Some(InvalidIndex) <==> v.index < 0 || (v.address != [] && RightStep(cfg, v) && v.index >= |cfg.vals|))
      && (e == Some(InvalidAddress) <==>
            v.index >= 0 && (v.address == [] || (RightStep(cfg, v) && v.index < |cfg.vals| && !WellAddressed(cfg, v))))
      && (e == Some(UnexpectedStep) <==> v.index >= 0 && v.address != [] && !RightStep(cfg, v))
      && (e.Some? ==> e.value in {InvalidIndex, InvalidAddress, UnexpectedStep})
  {
  }

  /** AddVote answers as it should, for every vote. */
  lemma {:induction false} AddVoteAnswers(cfg: Config, s: State, v: Vote)
    requires Inv(cfg, s)
    ensures Sized(cfg, s)
    ensures var r := AddVote(cfg, s, v); Answered(cfg, s, v, r.added, r.error)
  {
    InvSized(cfg, s);
    RefusedWhen(cfg, v);
    if WellAddressed(cfg, v) {
      ExistingIsHeld(cfg, s, v);
      TrackedIsClaimed(cfg, s, v);
      var e := Existing(cfg, s, v.index, K(cfg, v));
      if e.Some? { assert HeldLike(cfg, s, v, e.value); }
    }
  }

  // -------------------------------------------------------- what AddVote changes

  /** What is counted under key `k`: nothing if it is not tracked. */
  ghost function CountedFor(cfg: Config, s: State, k: Bytes): BlockVotes {
    if k in s.byBlock then s.byBlock[k] else BlockVotes(false, NoBits(|cfg.vals|), NoVotes(|cfg.vals|), 0)
  }

  /** `bv'` is `bv` with the vote of validator `i` and its power. */
  ghost predicate CountsOneMore(bv: BlockVotes, bv': BlockVotes, i: nat, v: Vote, power: int) {
    && bv'.peerMaj23 == bv.peerMaj23 && bv'.sum == bv.sum + power
    && |bv'.votes| == |bv.votes| && |bv'.bits| == |bv.bits| && i < |bv.votes| && i < |bv.bits|
    && (forall j :: 0 <= j < |bv.votes| ==> bv'.votes[j] == if j == i then Some(v) else bv.votes[j])
    && (forall j :: 0 <= j < |bv.bits| ==> bv'.bits[j] == (j == i || bv.bits[j]))
  }

  /** The block votes after a counted vote. */
  ghost predicate BlocksAfter(cfg: Config, s: State, t: State, v: Vote, added: bool)
    requires 0 <= v.index < |cfg.vals|
  {
    var k := K(cfg, v);
    if added then
      && k in t.byBlock && CountsOneMore(CountedFor(cfg, s, k), t.byBlock[k], v.index, v, cfg.vals[v.index].power)
      && forall j :: j != k ==> (j in t.byBlock <==> j in s.byBlock) && (j in s.byBlock ==> t.byBlock[j] == s.byBlock[j])
    else t.byBlock == s.byBlock
  }

  /** The first block with more than two thirds of the power is the majority. */
  ghost predicate MajorityAfter(cfg: Config, s: State, t: State, v: Vote, added: bool) {
    var k := K(cfg, v);
    if s.maj23.Some? then t.maj23 == s.maj23
    else if added && k in t.byBlock && 3 * t.byBlock[k].sum > 2 * Total(cfg.vals) then t.maj23 == Some(v.blockID)
    else t.maj23.None?
  }

  /** The vote held for validator `j`: a first vote is, and so is one for the majority;
      when a majority is found, the votes for it are. */
  ghost function HeldAfter(cfg: Config, s: State, t: State, v: Vote, j: nat): Option<Vote>
    requires j < |s.votes|
  {
    var votes := CountedFor(cfg, s, K(cfg, v)).votes;
    if j == v.index && (s.votes[j].None? || MajorityIs(cfg, t, K(cfg, v))) then Some(v)
    else if s.maj23.None? && t.maj23.Some? && j < |votes| && votes[j].Some? then votes[j]
    else s.votes[j]
  }

  ghost predicate VotesAfter(cfg: Config, s: State, t: State, v: Vote) {
    |t.votes| == |s.votes| && forall j :: 0 <= j < |s.votes| ==> t.votes[j] == HeldAfter(cfg, s, t, v, j)
  }

  /** All that a vote does to the state. */
  ghost predicate Counts(cfg: Config, s: State, t: State, v: Vote, added: bool)
    requires |s.votes| == |s.bits| == |cfg.vals|
  {
    if !IsNew(cfg, s, v) then t == s
    else
      && t.peers == s.peers && BlocksAfter(cfg, s, t, v, added) && MajorityAfter(cfg, s, t, v, added)
      && VotesAfter(cfg, s, t, v)
      && t.sum == s.sum + (if s.votes[v.index].None? then cfg.vals[v.index].power else 0)
      && |t.bits| == |s.bits| && forall j :: 0 <= j < |s.bits| ==> t.bits[j] == (j == v.index || s.bits[j])
  }

  /** A tracked vote, before the majority is looked at. */
  lemma {:induction false} KeptCounts(cfg: Config, s: State, v: Vote)
    requires Fresh(cfg, s, v) && |s.votes| == |cfg.vals|
    ensures BlocksAfter(cfg, s, Kept(cfg, s, v), v, true)
    ensures Kept(cfg, s, v).byBlock[K(cfg, v)].votes[v.index] == Some(v)
  {
  }

  lemma {:induction false} RecordedCounts(cfg: Config, s: State, v: Vote)
    requires Fresh(cfg, s, v) && Tallied(cfg, s.votes, s.bits, s.sum)
    ensures var t := Recorded(cfg, s, v, cfg.vals[v.index].power);
      && t.peers == s.peers && t.maj23 == s.maj23 && t.byBlock == s.byBlock
      && t.sum == s.sum + (if s.votes[v.index].None? then cfg.vals[v.index].power else 0)
      && |t.bits| == |s.bits| && (forall j :: 0 <= j < |s.bits| ==> t.bits[j] == (j == v.index || s.bits[j]))
      && VotesAfter(cfg, s, t, v)
  {
  }

  lemma {:induction false} QuorumIsTwoThirds(cfg: Config, sum: int)
    requires Countable(cfg)
    ensures sum >= Quorum(cfg) <==> 3 * sum > 2 * Total(cfg.vals)
  {
    QuorumBounds(cfg);
  }

  /** A tracked vote for a block that had no quorum. */
  lemma {:induction false} TrackedCounts(cfg: Config, s: State, v: Vote)
    requires Inv(cfg, s) && Fresh(cfg, s, v) && Tracked(cfg, s, v) && Countable(cfg)
    ensures Counts(cfg, s, AddVerified(cfg, s, v).0, v, true)
  {
    var t := AddVerified(cfg, s, v).0;
    TrackedAdd(cfg, s, v);
    KeptCounts(cfg, s, v);
    RecordedCounts(cfg, s, v);
    FreshIsNew(cfg, s, v);
    BlockForOk(cfg, s, v);
    QuorumIsTwoThirds(cfg, Kept(cfg, s, v).byBlock[K(cfg, v)].sum);
    assert BlocksAfter(cfg, s, t, v, true);
    assert MajorityAfter(cfg, s, t, v, true);
  }

  /** AddVote counts what it should, and nothing else. */
  lemma {:induction false} AddVoteCounts(cfg: Config, s: State, v: Vote)
    requires Inv(cfg, s) && Countable(cfg) && cfg.votable(v.blockID)
    ensures Sized(cfg, s)
    ensures var r := AddVote(cfg, s, v); Counts(cfg, s, r.state, v, r.added)
  {
    InvSized(cfg, s);
    FreshIsNew(cfg, s, v);
    if Fresh(cfg, s, v) {
      FreshAdd(cfg, s, v);
      if Tracked(cfg, s, v) {
        TrackedCounts(cfg, s, v);
      } else {
        RecordedCounts(cfg, s, v);
      }
    } else {
      OldVoteAnswer(cfg, s, v);
    }
  }

  // --------------------------------------------------- what SetPeerMaj23 does

  /** The first claim of a peer is recorded and its block is tracked; a later one
      changes nothing and is accepted exactly if it is the same. */
  ghost predicate ClaimRecorded(cfg: Config, s: State, t: State, peer: string, b: BlockID, ok: bool) {
    if peer in s.peers then t == s && (ok <==> s.peers[peer] == b)
    else
      var k := cfg.key(b);
      && ok && t.votes == s.votes && t.bits == s.bits && t.sum == s.sum && t.maj23 == s.maj23
      && (forall p :: p in t.peers <==> p == peer || p in s.peers)
      && (forall p :: p in t.peers ==> t.peers[p] == if p == peer then b else s.peers[p])
      && (forall j :: j in t.byBlock <==> j == k || j in s.byBlock)
      && (forall j :: j in t.byBlock ==>
            t.byBlock[j] == if j == k then CountedFor(cfg, s, k).(peerMaj23 := true) else s.byBlock[j])
  }

  lemma {:induction false} ClaimIsRecorded(cfg: Config, s: State, peer: string, b: BlockID)
    ensures var (t, ok) := SetPeerMaj23(cfg, s, peer, b); ClaimRecorded(cfg, s, t, peer, b, ok)
  {
  }

  ghost predicate IsClaim(e: Event, peer: string) { e.Claim? && e.peer == peer }

  lemma {:induction false} PeersAfterStep(cfg: Config, s: State, e: Event, p: string)
    ensures var t := Step(cfg, s, e);
      && (p in t.peers <==> p in s.peers || IsClaim(e, p))
      && (p in t.peers ==> t.peers[p] == if p in s.peers then s.peers[p] else e.block)
  {
  }

  /** Whether the peer has claimed among the first `n` events, and what at first. */
  ghost function FirstClaim(events: seq<Event>, n: nat, p: string): Option<BlockID>
    requires n <= |events|
  {
    if n == 0 then None
    else if FirstClaim(events, n - 1, p).Some? then FirstClaim(events, n - 1, p)
    else if IsClaim(events[n - 1], p) then Some(events[n - 1].block)
    else None
  }

  lemma {:induction false} FirstClaimIs(events: seq<Event>, n: nat, p: string)
    requires n <= |events|
    ensures FirstClaim(events, n, p).None? <==> forall k :: 0 <= k < n ==> !IsClaim(events[k], p)
    ensures FirstClaim(events, n, p).Some? ==>
      exists k :: 0 <= k < n && IsClaim(events[k], p) && FirstClaim(events, n, p) == Some(events[k].block)
                  && forall l :: 0 <= l < k ==> !IsClaim(events[l], p)
  {
    if n > 0 {
      FirstClaimIs(events, n - 1, p);
      if FirstClaim(events, n - 1, p).None? && IsClaim(events[n - 1], p) { assert IsClaim(events[n - 1], p); }
    }
  }

  /** Over any run exactly the first claim of each peer is on record. */
  lemma {:induction false} ClaimsOfRun(cfg: Config, events: seq<Event>, n: nat, p: string)
    requires n <= |events|
    ensures var peers := After(cfg, events, n).peers;
      FirstClaim(events, n, p) == if p in peers then Some(peers[p]) else None
  {
    if n > 0 {
      ClaimsOfRun(cfg, events, n - 1, p);
      AfterNext(cfg, events, n);
      PeersAfterStep(cfg, After(cfg, events, n - 1), events[n - 1], p);
    }
  }

  lemma {:induction false} AfterNext(cfg: Config, events: seq<Event>, n: nat)
    requires 0 < n <= |events|
    ensures After(cfg, events, n) == Step(cfg, After(cfg, events, n - 1), events[n - 1])
  {
  }
}
