/** Vote tallying as a state machine (types/vote_set.go:61-342, 647-677): the
    value a VoteSet holds and what AddVote and SetPeerMaj23 make of it. */
module Tally {
  import opened Basics
  import opened Lists
  import opened Rotation
  import opened Validator
  import opened Proposer
  import opened Votes

  /** What a VoteSet is created for, and how blocks are told apart in it: `key` is
      BlockID.Key, and `votable` holds of the blocks that votes may come for. */
  datatype Config = Config(chainID: string, height: int, round: int, kind: int, vals: seq<Validator>, crypto: Crypto,
                           key: BlockID -> Bytes, votable: BlockID -> bool)

  /** The key of the block voted for. */
  function K(cfg: Config, v: Vote): Bytes { cfg.key(v.blockID) }

  /** blockVotes. */
  datatype BlockVotes = BlockVotes(peerMaj23: bool, bits: seq<bool>, votes: seq<Option<Vote>>, sum: int)

  /** The mutable part of a VoteSet. */
  datatype State = State(votes: seq<Option<Vote>>, bits: seq<bool>, sum: int, maj23: Option<BlockID>,
                         byBlock: map<Bytes, BlockVotes>, peers: map<string, BlockID>)

  datatype VoteError =
    | InvalidIndex
    | InvalidAddress
    | UnexpectedStep
    | NonDeterministicSignature
    | InvalidSignature
    | Conflicting(existing: Vote)

  datatype AddResult = AddResult(state: State, added: bool, error: Option<VoteError>)

  function NoVotes(n: nat): seq<Option<Vote>> { seq(n, i => None) }

  function NoBits(n: nat): seq<bool> { seq(n, i => false) }

  /** NewVoteSet. */
  function Initial(cfg: Config): State {
    State(NoVotes(|cfg.vals|), NoBits(|cfg.vals|), 0, None, map[], map[])
  }

  function NewBlockVotes(peerMaj23: bool, n: nat): BlockVotes {
    BlockVotes(peerMaj23, NoBits(n), NoVotes(n), 0)
  }

  /** More than two thirds of the total power. */
  function Quorum(cfg: Config): int { Total(cfg.vals) * 2 / 3 + 1 }

  // ------------------------------------------------------------- transitions

  /** getVote. */
  function Existing(cfg: Config, s: State, i: nat, k: Bytes): Option<Vote>
    requires i < |s.votes| && (k in s.byBlock ==> i < |s.byBlock[k].votes|)
  {
    if s.votes[i].Some? && K(cfg, s.votes[i].value) == k then s.votes[i]
    else if k in s.byBlock then s.byBlock[k].votes[i]
    else None
  }

  /** Every list has one entry per validator. */
  ghost predicate Sized(cfg: Config, s: State) {
    && |s.votes| == |s.bits| == |cfg.vals|
    && forall b :: b in s.byBlock ==> |s.byBlock[b].votes| == |s.byBlock[b].bits| == |cfg.vals|
  }

  /** blockVotes.addVerifiedVote. */
  function BlockAdd(bv: BlockVotes, v: Vote, power: int): BlockVotes
    requires 0 <= v.index < |bv.votes| && |bv.bits| == |bv.votes|
  {
    if bv.votes[v.index].None? then
      bv.(bits := bv.bits[v.index := true], votes := bv.votes[v.index := Some(v)], sum := bv.sum + power)
    else bv
  }

  /** The votes of a block take precedence over the ones held. */
  function CopyOver(held: seq<Option<Vote>>, block: seq<Option<Vote>>): (r: seq<Option<Vote>>)
    requires |held| == |block|
    ensures |r| == |held|
  {
    seq(|held|, i requires 0 <= i < |held| => if block[i].Some? then block[i] else held[i])
  }

  predicate MajorityIs(cfg: Config, s: State, k: Bytes) { s.maj23.Some? && cfg.key(s.maj23.value) == k }

  /** The primary vote list after a verified vote: a first vote is recorded, a
      later one only if it is for the majority block. */
  function Recorded(cfg: Config, s: State, v: Vote, power: int): State
    requires 0 <= v.index < |s.votes| && |s.bits| == |s.votes|
  {
    if s.votes[v.index].None? then
      s.(votes := s.votes[v.index := Some(v)], bits := s.bits[v.index := true], sum := s.sum + power)
    else if MajorityIs(cfg, s, K(cfg, v)) then
      s.(votes := s.votes[v.index := Some(v)], bits := s.bits[v.index := true])
    else s
  }

  /** Whether the vote is also kept under its block: always for a first vote,
      and for a conflicting one if a peer claims a majority for the block. */
  predicate Tracked(cfg: Config, s: State, v: Vote)
    requires 0 <= v.index < |s.votes|
  {
    s.votes[v.index].None? || (K(cfg, v) in s.byBlock && s.byBlock[K(cfg, v)].peerMaj23)
  }

  function BlockVotesFor(cfg: Config, s: State, k: Bytes): BlockVotes {
    if k in s.byBlock then s.byBlock[k] else NewBlockVotes(false, |cfg.vals|)
  }

  /** Counting the vote for its block, and the first block to cross the quorum. */
  function Counted(cfg: Config, s: State, v: Vote, power: int): State
    requires Sized(cfg, s) && 0 <= v.index < |cfg.vals|
  {
    var before := BlockVotesFor(cfg, s, K(cfg, v));
    var after := BlockAdd(before, v, power);
    var t := s.(byBlock := s.byBlock[K(cfg, v) := after]);
    if before.sum < Quorum(cfg) <= after.sum && s.maj23.None? then
      t.(maj23 := Some(v.blockID), votes := CopyOver(t.votes, after.votes))
    else t
  }

  /** addVerifiedVote. */
  function AddVerified(cfg: Config, s: State, v: Vote): (State, bool)
    requires Sized(cfg, s) && 0 <= v.index < |cfg.vals|
  {
    var power := cfg.vals[v.index].power;
    var r := Recorded(cfg, s, v, power);
    if Tracked(cfg, s, v) then (Counted(cfg, r, v, power), true) else (r, false)
  }

  /** Vote.Verify. */
  predicate Verifies(cfg: Config, v: Vote)
    requires 0 <= v.index < |cfg.vals|
  {
    var key := cfg.vals[v.index].pubKey;
    cfg.crypto.addressOf(key) == v.address && cfg.crypto.verify(key, SignBytes(cfg.chainID, v), v.signature)
  }

  /** The checks of addVote that need no vote already held. */
  function Refused(cfg: Config, v: Vote): (e: Option<VoteError>)
    ensures e.None? ==> 0 <= v.index < |cfg.vals|
  {
    if v.index < 0 then Some(InvalidIndex)
    else if |v.address| == 0 then Some(InvalidAddress)
    else if v.height != cfg.height || v.round != cfg.round || v.kind != cfg.kind then Some(UnexpectedStep)
    else if v.index >= |cfg.vals| then Some(InvalidIndex)
    else if v.address != cfg.vals[v.index].address then Some(InvalidAddress)
    else None
  }

  /** addVote. */
  function AddVote(cfg: Config, s: State, v: Vote): AddResult
    requires Sized(cfg, s)
  {
    var refused := Refused(cfg, v);
    if refused.Some? then AddResult(s, false, refused)
    else
      var known := Existing(cfg, s, v.index, K(cfg, v));
      if known.Some? then
        if known.value.signature == v.signature then AddResult(s, false, None)
        else AddResult(s, false, Some(NonDeterministicSignature))
      else if !Verifies(cfg, v) then AddResult(s, false, Some(InvalidSignature))
      else
        var (t, added) := AddVerified(cfg, s, v);
        AddResult(t, added, if s.votes[v.index].Some? then Some(Conflicting(s.votes[v.index].value)) else None)
  }

  /** SetPeerMaj23; the flag says whether the claim was accepted. */
  function SetPeerMaj23(cfg: Config, s: State, peer: string, b: BlockID): (State, bool)
  {
    if peer in s.peers then (s, s.peers[peer] == b)
    else
      var k := cfg.key(b);
      var bv := if k in s.byBlock then s.byBlock[k].(peerMaj23 := true) else NewBlockVotes(true, |cfg.vals|);
      (s.(peers := s.peers[peer := b], byBlock := s.byBlock[k := bv]), true)
  }

  // --------------------------------------------------------------- invariant

  /** `v` passed every check for validator `i`. */
  ghost predicate GoodVote(cfg: Config, v: Vote, i: nat) {
    i < |cfg.vals| && v.index == i && Refused(cfg, v).None? && Verifies(cfg, v) && cfg.votable(v.blockID)
  }

  /** The bits mark the votes held, and the sum is their power. */
  ghost predicate Tallied(cfg: Config, votes: seq<Option<Vote>>, bits: seq<bool>, sum: int) {
    && |votes| == |bits| == |cfg.vals|
    && (forall i :: 0 <= i < |votes| ==> bits[i] == votes[i].Some?)
    && sum == MaskSum(Powers(cfg.vals), bits, |cfg.vals|)
  }

  /** What is kept under key `k`: votes for it by validators that have voted. */
  ghost predicate BlockOk(cfg: Config, s: State, k: Bytes, bv: BlockVotes) {
    && Tallied(cfg, bv.votes, bv.bits, bv.sum)
    && |s.votes| == |bv.votes|
    && forall i :: 0 <= i < |bv.votes| && bv.votes[i].Some? ==>
         GoodVote(cfg, bv.votes[i].value, i) && K(cfg, bv.votes[i].value) == k && s.votes[i].Some?
  }

  ghost predicate BlocksOk(cfg: Config, s: State) {
    forall b :: b in s.byBlock ==> BlockOk(cfg, s, b, s.byBlock[b])
  }

  /** Votes held are for tracked blocks, and kept there too unless the block
      already has its majority. */
  ghost predicate VotesOk(cfg: Config, s: State) {
    && Tallied(cfg, s.votes, s.bits, s.sum)
    && forall i :: 0 <= i < |s.votes| && s.votes[i].Some? ==> VoteOk(cfg, s, i, s.votes[i].value)
  }

  ghost predicate VoteOk(cfg: Config, s: State, i: nat, v: Vote) {
    && GoodVote(cfg, v, i)
    && K(cfg, v) in s.byBlock
    && (!MajorityIs(cfg, s, K(cfg, v)) ==>
          i < |s.byBlock[K(cfg, v)].votes| && s.byBlock[K(cfg, v)].votes[i] == Some(v))
  }

  /** The majority is set exactly when some tracked block has a quorum; every
      vote kept for it is the one held for its validator. */
  ghost predicate MajorityOk(cfg: Config, s: State) {
    && (s.maj23.None? ==> forall b :: b in s.byBlock ==> s.byBlock[b].sum < Quorum(cfg))
    && (s.maj23.Some? ==>
          var k := cfg.key(s.maj23.value);
          && cfg.votable(s.maj23.value) && k in s.byBlock && s.byBlock[k].sum >= Quorum(cfg)
          && MajorityHeld(s, s.byBlock[k].votes))
  }

  ghost predicate MajorityHeld(s: State, votes: seq<Option<Vote>>) {
    |s.votes| == |votes| && forall i :: 0 <= i < |votes| && votes[i].Some? ==> s.votes[i] == votes[i]
  }

  /** Some peer claims a majority for key `k`. */
  ghost predicate Claimed(cfg: Config, peers: map<string, BlockID>, k: Bytes) {
    exists p :: p in peers && cfg.key(peers[p]) == k
  }

  /** Memory bound: tracked blocks never outnumber voters plus claiming peers.  The
      blocks that peers claim are tracked, and marked exactly so. */
  ghost predicate TrackingOk(cfg: Config, s: State) {
    && |s.bits| == |cfg.vals|
    && |s.byBlock| <= Count(s.bits, |s.bits|) + |s.peers|
    && (forall p :: p in s.peers ==> cfg.key(s.peers[p]) in s.byBlock && s.byBlock[cfg.key(s.peers[p])].peerMaj23)
    && forall k :: k in s.byBlock && s.byBlock[k].peerMaj23 ==> Claimed(cfg, s.peers, k)
  }

  ghost predicate Inv(cfg: Config, s: State) {
    VotesOk(cfg, s) && BlocksOk(cfg, s) && MajorityOk(cfg, s) && TrackingOk(cfg, s)
  }

  /** Only nil and complete blocks may be voted for, and keys tell those apart. */
  ghost predicate TellsApart(cfg: Config) {
    && (forall b :: cfg.votable(b) ==> Proper(b))
    && (forall a, b {:trigger cfg.key(a), cfg.key(b)} ::
          cfg.votable(a) && cfg.votable(b) && cfg.key(a) == cfg.key(b) ==> a == b)
  }

  /** As the keys of the source do, after Vote.ValidateBasic. */
  lemma {:induction false} KeysTellApart(cfg: Config)
    requires forall b :: cfg.key(b) == Key(b) && cfg.votable(b) == Proper(b)
    ensures TellsApart(cfg)
  {
    forall a, b | cfg.votable(a) && cfg.votable(b) && cfg.key(a) == cfg.key(b) ensures a == b {
      KeyInjective(a, b);
    }
  }

  // ------------------------------------------------ what every step preserves

  /** The validator sets the counting relies on. */
  ghost predicate Countable(cfg: Config) {
    forall i :: 0 <= i < |cfg.vals| ==> cfg.vals[i].power >= 1
  }

  lemma {:induction false} QuorumBounds(cfg: Config)
    requires Countable(cfg)
    ensures 1 <= Quorum(cfg) && 2 * Total(cfg.vals) < 3 * Quorum(cfg) <= 2 * Total(cfg.vals) + 3
  {
    BoundedPowers(cfg.vals);
  }

  lemma {:induction false} InvSized(cfg: Config, s: State)
    requires VotesOk(cfg, s) && BlocksOk(cfg, s)
    ensures Sized(cfg, s)
  {
    forall b | b in s.byBlock ensures |s.byBlock[b].votes| == |s.byBlock[b].bits| == |cfg.vals| {
      assert BlockOk(cfg, s, b, s.byBlock[b]);
    }
  }

  lemma {:induction false} TalliedNothing(cfg: Config)
    ensures Tallied(cfg, NoVotes(|cfg.vals|), NoBits(|cfg.vals|), 0)
    ensures Count(NoBits(|cfg.vals|), |cfg.vals|) == 0
  {
    NothingMarked(Powers(cfg.vals), NoBits(|cfg.vals|), |cfg.vals|);
  }

  lemma {:induction false} TalliedAdd(cfg: Config, votes: seq<Option<Vote>>, bits: seq<bool>, sum: int, i: nat, v: Vote)
    requires Tallied(cfg, votes, bits, sum) && i < |votes| && votes[i].None?
    ensures Tallied(cfg, votes[i := Some(v)], bits[i := true], sum + cfg.vals[i].power)
    ensures Count(bits[i := true], |bits|) == Count(bits, |bits|) + 1
  {
    MaskGrow(Powers(cfg.vals), bits, |bits|, i);
  }

  lemma {:induction false} TalliedReplace(cfg: Config, votes: seq<Option<Vote>>, bits: seq<bool>, sum: int, i: nat, v: Vote)
    requires Tallied(cfg, votes, bits, sum) && i < |votes| && votes[i].Some?
    ensures bits[i := true] == bits && Tallied(cfg, votes[i := Some(v)], bits, sum)
  {
  }

  lemma {:induction false} InitialInv(cfg: Config)
    requires Countable(cfg)
    ensures Inv(cfg, Initial(cfg))
  {
    TalliedNothing(cfg);
  }

  /** What a vote has passed when it reaches addVerifiedVote. */
  ghost predicate Fresh(cfg: Config, s: State, v: Vote) {
    && Sized(cfg, s) && 0 <= v.index && GoodVote(cfg, v, v.index)
    && Existing(cfg, s, v.index, K(cfg, v)).None?
  }

  lemma {:induction false} BlockForOk(cfg: Config, s: State, v: Vote)
    requires Inv(cfg, s) && Fresh(cfg, s, v) && Countable(cfg)
    ensures BlockOk(cfg, s, K(cfg, v), BlockVotesFor(cfg, s, K(cfg, v)))
    ensures BlockVotesFor(cfg, s, K(cfg, v)).votes[v.index].None?
    ensures K(cfg, v) !in s.byBlock ==> BlockVotesFor(cfg, s, K(cfg, v)).sum < Quorum(cfg)
  {
    if K(cfg, v) !in s.byBlock {
      TalliedNothing(cfg);
      QuorumBounds(cfg);
    }
  }

  /** Blocks stay in order as long as nobody's vote is lost. */
  lemma {:induction false} BlockOkGrows(cfg: Config, s: State, t: State, k: Bytes, bv: BlockVotes)
    requires BlockOk(cfg, s, k, bv) && |t.votes| == |s.votes|
    requires forall i :: 0 <= i < |s.votes| && s.votes[i].Some? ==> t.votes[i].Some?
    ensures BlockOk(cfg, t, k, bv)
  {
  }

  lemma {:induction false} BlockAddOk(cfg: Config, s: State, v: Vote, k: Bytes, bv: BlockVotes)
    requires BlockOk(cfg, s, k, bv) && 0 <= v.index && GoodVote(cfg, v, v.index) && K(cfg, v) == k
    requires bv.votes[v.index].None? && s.votes[v.index].Some?
    ensures BlockOk(cfg, s, k, BlockAdd(bv, v, cfg.vals[v.index].power))
    ensures BlockAdd(bv, v, cfg.vals[v.index].power).votes == bv.votes[v.index := Some(v)]
  {
    TalliedAdd(cfg, bv.votes, bv.bits, bv.sum, v.index, v);
  }

  /** Everyone who had voted still has. */
  ghost predicate NobodyLost(s: State, t: State) {
    |t.votes| == |s.votes| && forall i :: 0 <= i < |s.votes| && s.votes[i].Some? ==> t.votes[i].Some?
  }

  lemma {:induction false} RecordedVotes(cfg: Config, s: State, v: Vote)
    requires Inv(cfg, s) && Fresh(cfg, s, v)
    ensures var t := Recorded(cfg, s, v, cfg.vals[v.index].power);
      && Tallied(cfg, t.votes, t.bits, t.sum) && NobodyLost(s, t) && t.votes[v.index].Some?
      && Count(t.bits, |t.bits|) == Count(s.bits, |s.bits|) + (if s.votes[v.index].None? then 1 else 0)
  {
    if s.votes[v.index].None? {
      TalliedAdd(cfg, s.votes, s.bits, s.sum, v.index, v);
    } else {
      TalliedReplace(cfg, s.votes, s.bits, s.sum, v.index, v);
    }
  }

  lemma {:induction false} BlocksKept(cfg: Config, s: State, t: State)
    requires BlocksOk(cfg, s) && NobodyLost(s, t) && t.byBlock == s.byBlock
    ensures BlocksOk(cfg, t)
  {
    forall b | b in t.byBlock ensures BlockOk(cfg, t, b, t.byBlock[b]) {
      BlockOkGrows(cfg, s, t, b, s.byBlock[b]);
    }
  }

  /** A conflicting vote replaces the one held only if it is for the majority. */
  lemma {:induction false} UntrackedKeepsVotes(cfg: Config, s: State, v: Vote)
    requires VotesOk(cfg, s) && MajorityOk(cfg, s) && Fresh(cfg, s, v) && !Tracked(cfg, s, v)
    ensures VotesOk(cfg, Recorded(cfg, s, v, cfg.vals[v.index].power))
  {
    var t := Recorded(cfg, s, v, cfg.vals[v.index].power);
    TalliedReplace(cfg, s.votes, s.bits, s.sum, v.index, v);
    forall i | 0 <= i < |t.votes| && t.votes[i].Some? ensures VoteOk(cfg, t, i, t.votes[i].value) {
      assert s.votes[i].Some? ==> VoteOk(cfg, s, i, s.votes[i].value);
    }
  }

  lemma {:induction false} UntrackedKeepsMajority(cfg: Config, s: State, v: Vote)
    requires MajorityOk(cfg, s) && Fresh(cfg, s, v) && !Tracked(cfg, s, v)
    ensures MajorityOk(cfg, Recorded(cfg, s, v, cfg.vals[v.index].power))
  {
    var t := Recorded(cfg, s, v, cfg.vals[v.index].power);
    if s.maj23.Some? {
      var votes := s.byBlock[cfg.key(s.maj23.value)].votes;
      assert MajorityHeld(s, votes);
      assert MajorityHeld(t, votes);
    }
  }

  /** A conflicting vote that is not tracked. */
  lemma {:induction false} UntrackedKeepsInv(cfg: Config, s: State, v: Vote)
    requires Inv(cfg, s) && Fresh(cfg, s, v) && !Tracked(cfg, s, v)
    ensures Inv(cfg, Recorded(cfg, s, v, cfg.vals[v.index].power))
  {
    var t := Recorded(cfg, s, v, cfg.vals[v.index].power);
    UntrackedKeepsVotes(cfg, s, v);
    UntrackedKeepsMajority(cfg, s, v);
    RecordedVotes(cfg, s, v);
    BlocksKept(cfg, s, t);
  }

  /** The state after a tracked vote, before the majority is looked at. */
  function Kept(cfg: Config, s: State, v: Vote): State
    requires Sized(cfg, s) && 0 <= v.index < |cfg.vals|
  {
    var power := cfg.vals[v.index].power;
    var r := Recorded(cfg, s, v, power);
    r.(byBlock := s.byBlock[K(cfg, v) := BlockAdd(BlockVotesFor(cfg, s, K(cfg, v)), v, power)])
  }

  lemma {:induction false} KeptBlocks(cfg: Config, s: State, v: Vote)
    requires Inv(cfg, s) && Fresh(cfg, s, v) && Countable(cfg)
    ensures BlocksOk(cfg, Kept(cfg, s, v))
    ensures Kept(cfg, s, v).byBlock[K(cfg, v)].votes == BlockVotesFor(cfg, s, K(cfg, v)).votes[v.index := Some(v)]
  {
    var t := Kept(cfg, s, v);
    RecordedVotes(cfg, s, v);
    BlockForOk(cfg, s, v);
    var bv := BlockVotesFor(cfg, s, K(cfg, v));
    BlockOkGrows(cfg, s, t, K(cfg, v), bv);
    BlockAddOk(cfg, t, v, K(cfg, v), bv);
    forall b | b in t.byBlock ensures BlockOk(cfg, t, b, t.byBlock[b]) {
      if b != K(cfg, v) { BlockOkGrows(cfg, s, t, b, s.byBlock[b]); }
    }
  }

  lemma {:induction false} KeptVotes(cfg: Config, s: State, v: Vote)
    requires Inv(cfg, s) && Fresh(cfg, s, v) && Countable(cfg)
    ensures VotesOk(cfg, Kept(cfg, s, v))
  {
    var t := Kept(cfg, s, v);
    RecordedVotes(cfg, s, v);
    KeptBlocks(cfg, s, v);
    forall i | 0 <= i < |t.votes| && t.votes[i].Some? ensures VoteOk(cfg, t, i, t.votes[i].value) {
      if s.votes[i].Some? { assert VoteOk(cfg, s, i, s.votes[i].value); }
      KeptVote(cfg, s, v, i);
    }
  }

  lemma {:induction false} KeptVote(cfg: Config, s: State, v: Vote, i: nat)
    requires Fresh(cfg, s, v) && i < |s.votes| && Kept(cfg, s, v).votes[i].Some?
    requires s.votes[i].Some? ==> VoteOk(cfg, s, i, s.votes[i].value)
    requires Kept(cfg, s, v).byBlock[K(cfg, v)].votes == BlockVotesFor(cfg, s, K(cfg, v)).votes[v.index := Some(v)]
    ensures VoteOk(cfg, Kept(cfg, s, v), i, Kept(cfg, s, v).votes[i].value)
  {
    var t := Kept(cfg, s, v);
    if i == v.index && t.votes[i] == Some(v) {
    } else {
      assert t.votes[i] == s.votes[i];
    }
  }

  lemma {:induction false} SizeOfUpdate<K, V>(m: map<K, V>, k: K, v: V)
    ensures |m[k := v]| == |m| + (if k in m then 0 else 1)
  {
    assert m[k := v].Keys == m.Keys + {k};
  }

  lemma {:induction false} KeptTracking(cfg: Config, s: State, v: Vote)
    requires Fresh(cfg, s, v) && Tracked(cfg, s, v) && TrackingOk(cfg, s)
    requires var r := Recorded(cfg, s, v, cfg.vals[v.index].power);
             Count(r.bits, |r.bits|) == Count(s.bits, |s.bits|) + (if s.votes[v.index].None? then 1 else 0)
    ensures TrackingOk(cfg, Kept(cfg, s, v))
  {
    var t := Kept(cfg, s, v);
    SizeOfUpdate(s.byBlock, K(cfg, v), t.byBlock[K(cfg, v)]);
    forall p | p in t.peers ensures cfg.key(t.peers[p]) in t.byBlock && t.byBlock[cfg.key(t.peers[p])].peerMaj23 {
      assert cfg.key(s.peers[p]) in s.byBlock;
    }
  }

  /** The vote does not make the first quorum. */
  lemma {:induction false} KeptMajority(cfg: Config, s: State, v: Vote)
    requires Fresh(cfg, s, v) && MajorityOk(cfg, s) && Countable(cfg)
    requires s.maj23.None? ==> Kept(cfg, s, v).byBlock[K(cfg, v)].sum < Quorum(cfg)
    ensures MajorityOk(cfg, Kept(cfg, s, v))
  {
    var t := Kept(cfg, s, v);
    if s.maj23.Some? {
      var k := cfg.key(s.maj23.value);
      assert MajorityHeld(s, s.byBlock[k].votes);
      assert MajorityHeld(t, t.byBlock[k].votes);
    }
  }

  /** The first quorum: its votes become the ones held. */
  function Elected(cfg: Config, s: State, b: BlockID): State
    requires cfg.key(b) in s.byBlock && |s.byBlock[cfg.key(b)].votes| == |s.votes|
  {
    s.(maj23 := Some(b), votes := CopyOver(s.votes, s.byBlock[cfg.key(b)].votes))
  }

  /** A tracked vote makes the first quorum or none. */
  lemma {:induction false} TrackedAdd(cfg: Config, s: State, v: Vote)
    requires Sized(cfg, s) && 0 <= v.index < |cfg.vals| && Tracked(cfg, s, v)
    ensures var t, before := Kept(cfg, s, v), BlockVotesFor(cfg, s, K(cfg, v));
      AddVerified(cfg, s, v).0 ==
      if before.sum < Quorum(cfg) <= t.byBlock[K(cfg, v)].sum && s.maj23.None? then Elected(cfg, t, v.blockID) else t
  {
  }

  lemma {:induction false} ElectedVotes(cfg: Config, s: State, b: BlockID)
    requires VotesOk(cfg, s) && s.maj23.None?
    requires cfg.key(b) in s.byBlock && BlockOk(cfg, s, cfg.key(b), s.byBlock[cfg.key(b)])
    ensures VotesOk(cfg, Elected(cfg, s, b)) && NobodyLost(s, Elected(cfg, s, b))
  {
    var t := Elected(cfg, s, b);
    assert Tallied(cfg, t.votes, t.bits, t.sum);
    forall i | 0 <= i < |t.votes| && t.votes[i].Some? ensures VoteOk(cfg, t, i, t.votes[i].value) {
      if s.votes[i].Some? { assert VoteOk(cfg, s, i, s.votes[i].value); }
    }
  }

  lemma {:induction false} ElectedInv(cfg: Config, s: State, b: BlockID)
    requires VotesOk(cfg, s) && BlocksOk(cfg, s) && TrackingOk(cfg, s) && s.maj23.None?
    requires cfg.votable(b)
    requires var k := cfg.key(b); k in s.byBlock && BlockOk(cfg, s, k, s.byBlock[k]) && s.byBlock[k].sum >= Quorum(cfg)
    ensures Inv(cfg, Elected(cfg, s, b))
  {
    var t := Elected(cfg, s, b);
    ElectedVotes(cfg, s, b);
    BlocksKept(cfg, s, t);
    assert TrackingOk(cfg, t);
    assert MajorityHeld(t, t.byBlock[cfg.key(b)].votes);
  }

  /** A vote that is tracked. */
  lemma {:induction false} TrackedKeepsInv(cfg: Config, s: State, v: Vote)
    requires Inv(cfg, s) && Fresh(cfg, s, v) && Tracked(cfg, s, v) && Countable(cfg)
    ensures Inv(cfg, AddVerified(cfg, s, v).0)
  {
    var t := Kept(cfg, s, v);
    KeptVotes(cfg, s, v);
    KeptBlocks(cfg, s, v);
    assert TrackingOk(cfg, t) by { RecordedVotes(cfg, s, v); KeptTracking(cfg, s, v); }
    BlockForOk(cfg, s, v);
    TrackedAdd(cfg, s, v);
    if s.maj23.None? && t.byBlock[K(cfg, v)].sum >= Quorum(cfg) {
      assert BlockOk(cfg, t, K(cfg, v), t.byBlock[K(cfg, v)]);
      ElectedInv(cfg, t, v.blockID);
    } else {
      KeptMajority(cfg, s, v);
    }
  }

  lemma {:induction false} MajorityIsFinal(cfg: Config, s: State, v: Vote)
    requires Sized(cfg, s)
    ensures s.maj23.Some? ==> AddVote(cfg, s, v).state.maj23 == s.maj23
    ensures NobodyLost(s, AddVote(cfg, s, v).state)
  {
  }

  /** AddVote keeps the invariant, for every vote the source lets in; the first
      majority seen is final, and nobody's vote is forgotten. */
  lemma {:induction false} AddVoteKeepsInv(cfg: Config, s: State, v: Vote)
    requires Inv(cfg, s) && Countable(cfg) && cfg.votable(v.blockID)
    ensures Sized(cfg, s) && Inv(cfg, AddVote(cfg, s, v).state)
    ensures s.maj23.Some? ==> AddVote(cfg, s, v).state.maj23 == s.maj23
    ensures NobodyLost(s, AddVote(cfg, s, v).state)
  {
    InvSized(cfg, s);
    MajorityIsFinal(cfg, s, v);
    if Refused(cfg, v).None? && Existing(cfg, s, v.index, K(cfg, v)).None? && Verifies(cfg, v) {
      if Tracked(cfg, s, v) {
        TrackedKeepsInv(cfg, s, v);
      } else {
        UntrackedKeepsInv(cfg, s, v);
      }
    }
  }

  lemma {:induction false} PeerKeepsVotes(cfg: Config, s: State, peer: string, b: BlockID)
    requires VotesOk(cfg, s)
    ensures VotesOk(cfg, SetPeerMaj23(cfg, s, peer, b).0)
  {
    var t := SetPeerMaj23(cfg, s, peer, b).0;
    forall i | 0 <= i < |t.votes| && t.votes[i].Some? ensures VoteOk(cfg, t, i, t.votes[i].value) {
      assert VoteOk(cfg, s, i, s.votes[i].value);
    }
  }

  lemma {:induction false} PeerKeepsBlocks(cfg: Config, s: State, peer: string, b: BlockID)
    requires VotesOk(cfg, s) && BlocksOk(cfg, s)
    ensures BlocksOk(cfg, SetPeerMaj23(cfg, s, peer, b).0)
  {
    var t := SetPeerMaj23(cfg, s, peer, b).0;
    TalliedNothing(cfg);
    forall k | k in t.byBlock ensures BlockOk(cfg, t, k, t.byBlock[k]) {
      if k in s.byBlock { assert BlockOk(cfg, s, k, s.byBlock[k]); }
    }
  }

  lemma {:induction false} SetPeerKeepsInv(cfg: Config, s: State, peer: string, b: BlockID)
    requires Inv(cfg, s) && Countable(cfg)
    ensures Inv(cfg, SetPeerMaj23(cfg, s, peer, b).0)
  {
    var t := SetPeerMaj23(cfg, s, peer, b).0;
    PeerKeepsVotes(cfg, s, peer, b);
    PeerKeepsBlocks(cfg, s, peer, b);
    PeerKeepsTracking(cfg, s, peer, b);
    if peer !in s.peers {
      QuorumBounds(cfg);
      assert MajorityOk(cfg, t);
    }
  }

  lemma {:induction false} PeerKeepsTracking(cfg: Config, s: State, peer: string, b: BlockID)
    requires TrackingOk(cfg, s)
    ensures TrackingOk(cfg, SetPeerMaj23(cfg, s, peer, b).0)
  {
    var t := SetPeerMaj23(cfg, s, peer, b).0;
    if peer !in s.peers {
      SizeOfUpdate(s.byBlock, cfg.key(b), t.byBlock[cfg.key(b)]);
      SizeOfUpdate(s.peers, peer, b);
      forall k | k in t.byBlock && t.byBlock[k].peerMaj23 ensures Claimed(cfg, t.peers, k) {
        StillClaimed(cfg, s, peer, b, k);
      }
    }
  }

  lemma {:induction false} StillClaimed(cfg: Config, s: State, peer: string, b: BlockID, k: Bytes)
    requires peer !in s.peers
    ensures k == cfg.key(b) || Claimed(cfg, s.peers, k) ==> Claimed(cfg, s.peers[peer := b], k)
  {
    var peers := s.peers[peer := b];
    assert peer in peers && peers[peer] == b;
    if Claimed(cfg, s.peers, k) {
      var p :| p in s.peers && cfg.key(s.peers[p]) == k;
      assert p in peers && peers[p] == s.peers[p];
    }
  }

  // ------------------------------------------------------- what AddVote means

  /** Two signed votes by one validator of the set for different blocks. */
  ghost predicate DoubleSigned(cfg: Config, a: Vote, b: Vote) {
    0 <= a.index == b.index && GoodVote(cfg, a, a.index) && GoodVote(cfg, b, b.index) && a.blockID != b.blockID
  }

  /** A new vote that verifies: if added it is kept under its block, a conflict
      is a proof of double signing, and a vote for the majority is canonical. */
  lemma {:induction false} NewVoteAnswer(cfg: Config, s: State, v: Vote)
    requires Inv(cfg, s) && Fresh(cfg, s, v)
    ensures var r := AddVote(cfg, s, v);
      && (r.added ==> Entered(cfg, r.state, v.index, v))
      && (r.error.Some? ==> r.error.value.Conflicting? && DoubleSigned(cfg, r.error.value.existing, v))
      && (!r.added ==> r.error.Some?)
      && (MajorityIs(cfg, s, K(cfg, v)) ==> r.state.votes[v.index] == Some(v))
  {
    if s.votes[v.index].Some? { assert VoteOk(cfg, s, v.index, s.votes[v.index].value); }
    AddedEnters(cfg, s, v);
  }

  lemma {:induction false} AddedEnters(cfg: Config, s: State, v: Vote)
    requires Inv(cfg, s) && Fresh(cfg, s, v)
    ensures AddVote(cfg, s, v).added ==> Entered(cfg, AddVote(cfg, s, v).state, v.index, v)
    ensures MajorityIs(cfg, s, K(cfg, v)) ==> AddVote(cfg, s, v).state.votes[v.index] == Some(v)
  {
    FreshAdd(cfg, s, v);
    KeptHolds(cfg, s, v);
    if Tracked(cfg, s, v) { TrackedAdd(cfg, s, v); }
  }

  lemma {:induction false} FreshAdd(cfg: Config, s: State, v: Vote)
    requires Fresh(cfg, s, v)
    ensures var r := AddVote(cfg, s, v); r.state == AddVerified(cfg, s, v).0 && r.added == Tracked(cfg, s, v)
  {
  }

  lemma {:induction false} KeptHolds(cfg: Config, s: State, v: Vote)
    requires Fresh(cfg, s, v)
    ensures Entered(cfg, Kept(cfg, s, v), v.index, v)
    ensures MajorityIs(cfg, s, K(cfg, v)) ==> Kept(cfg, s, v).votes[v.index] == Some(v)
    ensures Kept(cfg, s, v).votes == Recorded(cfg, s, v, cfg.vals[v.index].power).votes
  {
  }

  /** Any other vote changes nothing; no error means it is already held. */
  lemma {:induction false} OldVoteAnswer(cfg: Config, s: State, v: Vote)
    requires Inv(cfg, s) && cfg.votable(v.blockID) && Sized(cfg, s) && !Fresh(cfg, s, v)
    ensures var r := AddVote(cfg, s, v);
      && r.state == s && !r.added
      && (r.error.None? ==>
            && 0 <= v.index < |s.votes|
            && (exists u :: Holds(cfg, s, v.index, u) && K(cfg, u) == K(cfg, v) && u.signature == v.signature))
  {
    if Refused(cfg, v).None? && Existing(cfg, s, v.index, K(cfg, v)).Some? {
      ExistingMeans(cfg, s, v.index, K(cfg, v));
    }
  }

  /** What getVote finds: a vote of the validator under that key, and none only if
      none is held. */
  lemma {:induction false} ExistingMeans(cfg: Config, s: State, i: nat, k: Bytes)
    requires Inv(cfg, s) && i < |cfg.vals|
    ensures Sized(cfg, s)
    ensures var e := Existing(cfg, s, i, k);
      && (e.Some? ==> Holds(cfg, s, i, e.value) && K(cfg, e.value) == k && GoodVote(cfg, e.value, i))
      && (e.None? <==> forall u :: Holds(cfg, s, i, u) ==> K(cfg, u) != k)
  {
    InvSized(cfg, s);
    if k in s.byBlock { assert BlockOk(cfg, s, k, s.byBlock[k]); }
    if s.votes[i].Some? { assert VoteOk(cfg, s, i, s.votes[i].value); }
    var e := Existing(cfg, s, i, k);
    if e.Some? { assert Holds(cfg, s, i, e.value); }
  }

  /** `u` is held for validator `i`, canonically or under its block. */
  ghost predicate Holds(cfg: Config, s: State, i: nat, u: Vote) {
    || (i < |s.votes| && s.votes[i] == Some(u))
    || (K(cfg, u) in s.byBlock && i < |s.byBlock[K(cfg, u)].votes| && s.byBlock[K(cfg, u)].votes[i] == Some(u))
  }

  // --------------------------------------------------------------- every run

  datatype Event = Add(vote: Vote) | Claim(peer: string, block: BlockID)

  /** Votes are for blocks that may be voted for: those Vote.ValidateBasic lets
      through, say, or any at all. */
  ghost predicate Admitted(cfg: Config, events: seq<Event>) {
    forall k :: 0 <= k < |events| && events[k].Add? ==> cfg.votable(events[k].vote.blockID)
  }

  ghost function Step(cfg: Config, s: State, e: Event): State {
    match e
    case Add(v) => if Sized(cfg, s) then AddVote(cfg, s, v).state else s
    case Claim(peer, b) => SetPeerMaj23(cfg, s, peer, b).0
  }

  ghost function Next(cfg: Config): (State, Event) -> State { (s: State, e: Event) => Step(cfg, s, e) }

  ghost function IsInv(cfg: Config): State -> bool { (s: State) => Inv(cfg, s) }

  /** The state after the first `n` events, in any order and from anyone. */
  ghost function After(cfg: Config, events: seq<Event>, n: nat): State
    requires n <= |events|
  {
    Fold(Next(cfg), Initial(cfg), events, n)
  }

  lemma {:induction false} StepKeepsInv(cfg: Config, s: State, e: Event)
    requires Inv(cfg, s) && Countable(cfg) && (e.Add? ==> cfg.votable(e.vote.blockID))
    ensures Inv(cfg, Step(cfg, s, e)) && (s.maj23.Some? ==> Step(cfg, s, e).maj23 == s.maj23)
  {
    match e
    case Add(v) => AddVoteKeepsInv(cfg, s, v);
    case Claim(peer, b) => SetPeerKeepsInv(cfg, s, peer, b);
  }

  lemma {:induction false} NextKeepsInv(cfg: Config, s: State, e: Event)
    requires IsInv(cfg)(s) && Countable(cfg) && (e.Add? ==> cfg.votable(e.vote.blockID))
    ensures IsInv(cfg)(Next(cfg)(s, e)) && (s.maj23.Some? ==> Next(cfg)(s, e).maj23 == s.maj23)
  {
    StepKeepsInv(cfg, s, e);
  }

  /** Every state of every run satisfies the invariant. */
  lemma {:induction false} InvOfRun(cfg: Config, events: seq<Event>, n: nat)
    requires Countable(cfg) && Admitted(cfg, events) && n <= |events|
    ensures Inv(cfg, After(cfg, events, n))
  {
    InitialInv(cfg);
    forall s, k | 0 <= k < |events| && IsInv(cfg)(s) ensures IsInv(cfg)(Next(cfg)(s, events[k])) {
      NextKeepsInv(cfg, s, events[k]);
    }
    FoldKeeps(Next(cfg), Initial(cfg), events, n, IsInv(cfg));
    assert IsInv(cfg)(After(cfg, events, n));
  }

  /** Once a majority is reported it is reported for ever. */
  lemma {:induction false} MajorityOfRun(cfg: Config, events: seq<Event>, m: nat, n: nat)
    requires Countable(cfg) && Admitted(cfg, events) && m <= n <= |events|
    ensures After(cfg, events, m).maj23.Some? ==> After(cfg, events, n).maj23 == After(cfg, events, m).maj23
  {
    InitialInv(cfg);
    var good, next, f := IsInv(cfg), Next(cfg), (s: State) => s.maj23;
    forall s, k | 0 <= k < |events| && good(s)
      ensures good(next(s, events[k])) && (f(s).Some? ==> f(next(s, events[k])) == f(s))
    {
      NextKeepsInv(cfg, s, events[k]);
    }
    FoldSettles(next, Initial(cfg), events, m, n, good, f);
  }

  /** It is reported exactly when the votes counted for one block weigh more
      than two thirds. */
  lemma {:induction false} MajorityMeansQuorum(cfg: Config, s: State)
    requires Inv(cfg, s) && Countable(cfg)
    ensures s.maj23.Some? <==> exists b :: b in s.byBlock && 3 * s.byBlock[b].sum > 2 * Total(cfg.vals)
  {
    QuorumBounds(cfg);
    if s.maj23.Some? { assert cfg.key(s.maj23.value) in s.byBlock; }
  }

  // ------------------------------------- where canonical votes are also kept

  /** "All votes in .votes will have a corresponding entry in .votesByBlock". */
  ghost predicate AllEntered(cfg: Config, s: State) {
    forall i :: 0 <= i < |s.votes| && s.votes[i].Some? ==> Entered(cfg, s, i, s.votes[i].value)
  }

  ghost predicate Entered(cfg: Config, s: State, i: nat, v: Vote) {
    K(cfg, v) in s.byBlock && i < |s.byBlock[K(cfg, v)].votes| && s.byBlock[K(cfg, v)].votes[i] == Some(v)
  }

  /** The vote comes from a validator whose vote for another block is held, is
      for the majority block, and no peer has claimed that majority. */
  predicate LateForMajority(cfg: Config, s: State, v: Vote)
    requires 0 <= v.index < |s.votes|
  {
    && s.votes[v.index].Some? && MajorityIs(cfg, s, K(cfg, v))
    && !(K(cfg, v) in s.byBlock && s.byBlock[K(cfg, v)].peerMaj23)
  }

  /** A verified new vote keeps that documented property except when it is late
      for the majority: then it replaces the one held without being entered. */
  lemma {:induction false} EnteredUnlessLate(cfg: Config, s: State, v: Vote)
    requires Inv(cfg, s) && AllEntered(cfg, s) && Fresh(cfg, s, v) && Countable(cfg)
    ensures AllEntered(cfg, AddVote(cfg, s, v).state) <==> !LateForMajority(cfg, s, v)
  {
    var t := AddVote(cfg, s, v).state;
    BlockForOk(cfg, s, v);
    if LateForMajority(cfg, s, v) {
      assert t.votes[v.index] == Some(v);
      assert !Entered(cfg, t, v.index, v);
    } else if !Tracked(cfg, s, v) {
      assert t == s;
    } else {
      forall i | 0 <= i < |t.votes| && t.votes[i].Some? ensures Entered(cfg, t, i, t.votes[i].value) {
        assert s.votes[i].Some? ==> Entered(cfg, s, i, s.votes[i].value);
        EnteredStep(cfg, s, v, i);
      }
    }
  }

  lemma {:induction false} EnteredStep(cfg: Config, s: State, v: Vote, i: nat)
    requires Fresh(cfg, s, v) && Tracked(cfg, s, v) && i < |s.votes|
    requires s.votes[i].Some? ==> Entered(cfg, s, i, s.votes[i].value)
    requires BlockOk(cfg, s, K(cfg, v), BlockVotesFor(cfg, s, K(cfg, v)))
    requires BlockVotesFor(cfg, s, K(cfg, v)).votes[v.index].None?
    ensures var t := AddVote(cfg, s, v).state;
      |t.votes| == |s.votes| && (t.votes[i].Some? ==> Entered(cfg, t, i, t.votes[i].value))
  {
    KeptEntered(cfg, s, v, i);
    TrackedAdd(cfg, s, v);
  }

  lemma {:induction false} KeptEntered(cfg: Config, s: State, v: Vote, i: nat)
    requires Fresh(cfg, s, v) && Tracked(cfg, s, v) && i < |s.votes|
    requires s.votes[i].Some? ==> Entered(cfg, s, i, s.votes[i].value)
    requires BlockVotesFor(cfg, s, K(cfg, v)).votes[v.index].None?
    ensures var t := Kept(cfg, s, v); t.votes[i].Some? ==> Entered(cfg, t, i, t.votes[i].value)
  {
  }

  // A validator of power 1 votes for block 2, one of power 3 for block 1, and
  // then the first one for block 1.

  function SmallBlock(n: byte): BlockID { BlockID(seq(HASH_SIZE, i => n), PartSetHeader(1, seq(HASH_SIZE, i => n))) }

  function SmallConfig(): Config {
    Config("", 1, 0, PREVOTE, [Validator([1], [1], 3, 0), Validator([2], [2], 1, 0)], Crypto(k => k, (k, m, s) => true),
           b => Key(b), b => true)
  }

  function SmallKey(n: byte): Bytes { SmallConfig().key(SmallBlock(n)) }

  function SmallVote(i: nat, n: byte): Vote
    requires i < 2
  {
    Vote(PREVOTE, 1, 0, SmallBlock(n), 0, SmallConfig().vals[i].address, i, [])
  }

  lemma {:induction false} SmallCounts()
    ensures Total(SmallConfig().vals) == 4 && Quorum(SmallConfig()) == 3 && Countable(SmallConfig())
    ensures SmallKey(1) != SmallKey(2) && IsComplete(SmallBlock(1)) && IsComplete(SmallBlock(2))
  {
    var ws := Powers(SmallConfig().vals);
    assert ws == [3, 1];
    assert Sum(ws, 1) == 3 && Sum(ws, 2) == 4;
    assert SmallBlock(1).hash[0] != SmallBlock(2).hash[0];
    if Key(SmallBlock(1)) == Key(SmallBlock(2)) { KeyInjective(SmallBlock(1), SmallBlock(2)); }
  }

  lemma {:induction false} SmallFirst(s: State)
    requires Sized(SmallConfig(), Initial(SmallConfig()))
    requires s == AddVote(SmallConfig(), Initial(SmallConfig()), SmallVote(1, 2)).state
    ensures Inv(SmallConfig(), s) && AllEntered(SmallConfig(), s) && Sized(SmallConfig(), s)
    ensures s.votes == [None, Some(SmallVote(1, 2))] && s.maj23.None?
    ensures forall k :: k in s.byBlock ==> k == SmallKey(2)
  {
    SmallCounts();
    var cfg := SmallConfig();
    InitialInv(cfg);
    AddVoteKeepsInv(cfg, Initial(cfg), SmallVote(1, 2));
    EnteredUnlessLate(cfg, Initial(cfg), SmallVote(1, 2));
    InvSized(cfg, s);
  }

  lemma {:induction false} SmallSecond(s: State, t: State)
    requires Inv(SmallConfig(), s) && AllEntered(SmallConfig(), s) && Sized(SmallConfig(), s)
    requires s.votes == [None, Some(SmallVote(1, 2))] && s.maj23.None?
    requires forall k :: k in s.byBlock ==> k == SmallKey(2)
    requires t == AddVote(SmallConfig(), s, SmallVote(0, 1)).state
    ensures Inv(SmallConfig(), t) && AllEntered(SmallConfig(), t) && Sized(SmallConfig(), t)
    ensures t.maj23 == Some(SmallBlock(1)) && t.votes[1] == Some(SmallVote(1, 2))
    ensures SmallKey(1) in t.byBlock && t.byBlock[SmallKey(1)].votes[1].None? && !t.byBlock[SmallKey(1)].peerMaj23
  {
    SmallCounts();
    var cfg := SmallConfig();
    var b := SmallVote(0, 1);
    assert SmallKey(1) !in s.byBlock;
    AddVoteKeepsInv(cfg, s, b);
    EnteredUnlessLate(cfg, s, b);
    InvSized(cfg, t);
  }

  lemma {:induction false} SmallThird(t: State)
    requires Inv(SmallConfig(), t) && AllEntered(SmallConfig(), t) && Sized(SmallConfig(), t)
    requires t.maj23 == Some(SmallBlock(1)) && t.votes[1] == Some(SmallVote(1, 2))
    requires SmallKey(1) in t.byBlock && t.byBlock[SmallKey(1)].votes[1].None? && !t.byBlock[SmallKey(1)].peerMaj23
    ensures !AllEntered(SmallConfig(), AddVote(SmallConfig(), t, SmallVote(1, 1)).state)
  {
    SmallCounts();
    EnteredUnlessLate(SmallConfig(), t, SmallVote(1, 1));
  }

  /** After these votes the canonical vote of the second validator is in no list
      of votes by block. */
  lemma {:induction false} LateVoteIsNotEntered() returns (s: State, t: State)
    ensures Sized(SmallConfig(), Initial(SmallConfig()))
    ensures s == AddVote(SmallConfig(), Initial(SmallConfig()), SmallVote(1, 2)).state && Sized(SmallConfig(), s)
    ensures t == AddVote(SmallConfig(), s, SmallVote(0, 1)).state && Sized(SmallConfig(), t)
    ensures !AllEntered(SmallConfig(), AddVote(SmallConfig(), t, SmallVote(1, 1)).state)
  {
    s := AddVote(SmallConfig(), Initial(SmallConfig()), SmallVote(1, 2)).state;
    SmallFirst(s);
    t := AddVote(SmallConfig(), s, SmallVote(0, 1)).state;
    SmallSecond(s, t);
    SmallThird(t);
  }
}
