/** Commits made from vote sets, and vote sets restored from commits
    (types/vote_set.go:613-637, types/block.go:776-805). */
module Commits {
  import opened Basics
  import opened Rotation
  import opened Validator
  import opened Proposer
  import opened Votes
  import opened Tally
  import opened VoteSet
  import Validation

  // ------------------------------------------------------------ making commits

  /** A vote for another block than the majority leaves no trace. */
  function SigFor(b: BlockID, v: Option<Vote>): CommitSig
    requires v.Some? ==> Proper(v.value.blockID)
  {
    var c := CommitSigOf(v);
    if c.flag.ForBlock? && v.Some? && v.value.blockID != b then ABSENT else c
  }

  /** A commit for block `b` has the signatures of the votes for it and for nil, and
      says which is which. */
  ghost predicate Summarizes(sig: CommitSig, v: Option<Vote>, b: BlockID) {
    && (sig.flag.Absent? <==> v.None? || (v.value.blockID != b && !IsZero(v.value.blockID)))
    && (sig.flag.Absent? ==> sig.address == [] && sig.signature == [] && sig.timestamp == 0)
    && (!sig.flag.Absent? ==>
          && sig.address == v.value.address && sig.timestamp == v.value.timestamp && sig.signature == v.value.signature
          && (sig.flag.ForNil? <==> IsZero(v.value.blockID)))
  }

  /** Every vote held could be signed over. */
  ghost predicate AllProper(votes: seq<Option<Vote>>) {
    forall i :: 0 <= i < |votes| && votes[i].Some? ==> Proper(votes[i].value.blockID)
  }

  function SigsFor(b: BlockID, votes: seq<Option<Vote>>): seq<CommitSig>
    requires AllProper(votes)
  {
    seq(|votes|, i requires 0 <= i < |votes| => SigFor(b, votes[i]))
  }

  lemma {:induction false} InvProper(cfg: Config, s: State)
    requires VotesOk(cfg, s) && TellsApart(cfg)
    ensures AllProper(s.votes)
  {
    forall i | 0 <= i < |s.votes| && s.votes[i].Some? ensures Proper(s.votes[i].value.blockID) {
      assert VoteOk(cfg, s, i, s.votes[i].value);
    }
  }

  lemma {:induction false} SigsSummarize(b: BlockID, votes: seq<Option<Vote>>)
    requires AllProper(votes)
    ensures forall i :: 0 <= i < |votes| ==> Summarizes(SigsFor(b, votes)[i], votes[i], b)
  {
    forall i | 0 <= i < |votes| ensures Summarizes(SigFor(b, votes[i]), votes[i], b) {
      SigSummarizes(b, votes[i]);
    }
  }

  lemma {:induction false} SigSummarizes(b: BlockID, v: Option<Vote>)
    requires v.Some? ==> Proper(v.value.blockID)
    ensures Summarizes(SigFor(b, v), v, b)
  {
  }

  ghost function CommitOf(cfg: Config, s: State): Commit
    requires AllProper(s.votes) && s.maj23.Some?
  {
    Commit(cfg.height, cfg.round, s.maj23.value, SigsFor(s.maj23.value, s.votes))
  }

  /** MakeCommit; the source panics without a majority, for prevotes, and on a vote
      for a block that is neither nil nor complete. */
  method MakeCommit(voteSet: VoteSet) returns (c: Commit)
    requires voteSet.Valid() && voteSet.cfg.kind == PRECOMMIT && voteSet.maj23.Some? && AllProper(voteSet.votes)
    ensures c == CommitOf(voteSet.cfg, voteSet.Value())
    ensures c.height == voteSet.cfg.height && c.round == voteSet.cfg.round && Some(c.blockID) == voteSet.maj23
    ensures |c.signatures| == |voteSet.votes|
    ensures forall i :: 0 <= i < |voteSet.votes| ==> Summarizes(c.signatures[i], voteSet.votes[i], c.blockID)
  {
    SigsSummarize(voteSet.maj23.value, voteSet.votes);
    var sigs := CollectSigs(voteSet.maj23.value, voteSet.votes);
    c := Commit(voteSet.cfg.height, voteSet.cfg.round, voteSet.maj23.value, sigs);
  }

  method CollectSigs(b: BlockID, votes: seq<Option<Vote>>) returns (sigs: seq<CommitSig>)
    requires AllProper(votes)
    ensures sigs == SigsFor(b, votes)
  {
    sigs := [];
    for i := 0 to |votes|
      invariant |sigs| == i && forall k :: 0 <= k < i ==> sigs[k] == SigFor(b, votes[k])
    {
      var sig := CommitSigOf(votes[i]);
      // if the block does not match, exclude the signature
      if sig.flag.ForBlock? && votes[i].value.blockID != b { sig := ABSENT; }
      sigs := sigs + [sig];
    }
  }

  // --------------------------------------------------- made commits are accepted

  /** The commit as the verifiers are given it. */
  function JobOf(cfg: Config, proposer: PubKey, c: Commit): Validation.Job {
    Validation.Job(cfg.chainID, cfg.vals, proposer, cfg.crypto, c)
  }

  /** A vote set of precommits with a majority, among blocks that can be told
      apart. */
  ghost predicate Committable(cfg: Config, s: State) {
    Inv(cfg, s) && Countable(cfg) && TellsApart(cfg) && cfg.kind == PRECOMMIT && s.maj23.Some? && AllProper(s.votes)
  }

  /** Every reachable one with a majority is. */
  lemma {:induction false} RunIsCommittable(cfg: Config, events: seq<Event>, n: nat)
    requires Countable(cfg) && TellsApart(cfg) && Admitted(cfg, events) && n <= |events|
    requires cfg.kind == PRECOMMIT && After(cfg, events, n).maj23.Some?
    ensures Committable(cfg, After(cfg, events, n))
  {
    InvOfRun(cfg, events, n);
    InvProper(cfg, After(cfg, events, n));
  }

  /** The votes kept for the majority are for it, and are the ones held. */
  lemma {:induction false} MajorityVote(cfg: Config, s: State, i: nat)
    requires Inv(cfg, s) && TellsApart(cfg) && s.maj23.Some? && i < |cfg.vals|
    ensures var k := cfg.key(s.maj23.value);
      && k in s.byBlock && |s.byBlock[k].bits| == |cfg.vals| == |s.votes|
      && (s.byBlock[k].bits[i] ==> s.votes[i].Some? && s.votes[i].value.blockID == s.maj23.value)
  {
    var k := cfg.key(s.maj23.value);
    var bv := s.byBlock[k];
    assert BlockOk(cfg, s, k, bv) && MajorityHeld(s, bv.votes);
    if bv.bits[i] { assert GoodVote(cfg, bv.votes[i].value, i); }
  }

  /** Each signature of a made commit is the one of the vote it comes from. */
  lemma {:induction false} MadeSignature(cfg: Config, s: State, proposer: PubKey, i: nat)
    requires Committable(cfg, s) && i < |s.votes|
    ensures |CommitOf(cfg, s).signatures| == |cfg.vals| == |s.votes|
    ensures !CommitOf(cfg, s).signatures[i].flag.Absent? ==>
      && s.votes[i].Some? && GetVote(CommitOf(cfg, s), i) == s.votes[i].value
      && Validation.SignedAt(JobOf(cfg, proposer, CommitOf(cfg, s)), i)
  {
    if s.votes[i].Some? { assert VoteOk(cfg, s, i, s.votes[i].value); }
  }

  lemma {:induction false} MadePower(cfg: Config, s: State)
    requires Committable(cfg, s) && IsComplete(s.maj23.value)
    ensures |CommitOf(cfg, s).signatures| == |cfg.vals|
    ensures MaskSum(Powers(cfg.vals), Validation.ForBlockMask(CommitOf(cfg, s)), |cfg.vals|) >= Quorum(cfg)
  {
    var k := cfg.key(s.maj23.value);
    var bv := s.byBlock[k];
    var mask := Validation.ForBlockMask(CommitOf(cfg, s));
    assert BlockOk(cfg, s, k, bv);
    BoundedPowers(cfg.vals);
    forall i | 0 <= i < |cfg.vals| && bv.bits[i] ensures mask[i] {
      MajorityVote(cfg, s, i);
    }
    MaskSubset(Powers(cfg.vals), bv.bits, mask, |cfg.vals|);
  }

  /** The commit of a precommit vote set passes VerifyCommit, for its block and
      height, exactly when the majority is for a block and not for nil. */
  lemma {:induction false} MadeCommitVerifies(cfg: Config, s: State, proposer: PubKey)
    requires Committable(cfg, s)
    ensures Validation.BelongsTo(JobOf(cfg, proposer, CommitOf(cfg, s)), s.maj23.value, cfg.height)
    ensures Validation.Committed(JobOf(cfg, proposer, CommitOf(cfg, s))) <==> s.maj23 != Some(NIL_BLOCK)
  {
    var j := JobOf(cfg, proposer, CommitOf(cfg, s));
    QuorumBounds(cfg);
    if s.maj23 == Some(NIL_BLOCK) {
      NilCommitIsEmpty(cfg, s);
      BoundedPowers(cfg.vals);
    } else {
      MadePower(cfg, s);
      forall i | 0 <= i < |j.vals| && !j.commit.signatures[i].flag.Absent? ensures Validation.SignedAt(j, i) {
        MadeSignature(cfg, s, proposer, i);
      }
    }
  }

  lemma {:induction false} NilCommitIsEmpty(cfg: Config, s: State)
    requires Committable(cfg, s) && s.maj23 == Some(NIL_BLOCK)
    ensures |CommitOf(cfg, s).signatures| == |cfg.vals|
    ensures MaskSum(Powers(cfg.vals), Validation.ForBlockMask(CommitOf(cfg, s)), |cfg.vals|) == 0
  {
    NothingMarked(Powers(cfg.vals), Validation.ForBlockMask(CommitOf(cfg, s)), |cfg.vals|);
  }

  // ------------------------------------------------- restoring from a commit

  /** The vote set a commit is restored into. */
  function ConfigFor(chain: Config, c: Commit): Config {
    chain.(height := c.height, round := c.round, kind := PRECOMMIT)
  }

  /** The signatures present are for blocks that may be voted for. */
  ghost predicate VotableCommit(cfg: Config, c: Commit) {
    forall i :: 0 <= i < |c.signatures| && !c.signatures[i].flag.Absent? ==> cfg.votable(GetVote(c, i).blockID)
  }

  /** Every signature present belongs to its validator. */
  ghost predicate Restorable(cfg: Config, c: Commit, n: nat)
    requires n <= |c.signatures|
  {
    forall i :: 0 <= i < n && !c.signatures[i].flag.Absent? ==> GoodVote(cfg, GetVote(c, i), i)
  }

  /** Nobody has voted twice: what is kept by block is what is held. */
  ghost predicate NoConflicts(s: State) {
    forall k :: k in s.byBlock ==> MajorityHeld(s, s.byBlock[k].votes)
  }

  /** The votes of the first `k` signatures. */
  ghost predicate Holding(s: State, c: Commit, k: nat)
    requires k <= |c.signatures|
  {
    forall i :: 0 <= i < |s.votes| ==>
      s.votes[i] == if i < k && !c.signatures[i].flag.Absent? then Some(GetVote(c, i)) else None
  }

  /** A first vote of a validator is always added without an error. */
  lemma {:induction false} FirstVoteAdded(cfg: Config, s: State, v: Vote)
    requires Inv(cfg, s) && Countable(cfg) && NoConflicts(s)
    requires 0 <= v.index && GoodVote(cfg, v, v.index) && s.votes[v.index].None?
    ensures Sized(cfg, s)
    ensures var r := AddVote(cfg, s, v);
      r.added && r.error.None? && r.state.votes == s.votes[v.index := Some(v)] && NoConflicts(r.state)
  {
    InvSized(cfg, s);
    if K(cfg, v) in s.byBlock { assert MajorityHeld(s, s.byBlock[K(cfg, v)].votes); }
    FreshFirstVote(cfg, s, v);
  }

  lemma {:induction false} FreshFirstVote(cfg: Config, s: State, v: Vote)
    requires Fresh(cfg, s, v) && NoConflicts(s) && s.votes[v.index].None?
    ensures var r := AddVote(cfg, s, v);
      r.added && r.error.None? && r.state.votes == s.votes[v.index := Some(v)] && NoConflicts(r.state)
  {
    var t := AddVote(cfg, s, v).state;
    var bv := BlockVotesFor(cfg, s, K(cfg, v));
    assert MajorityHeld(s, bv.votes);
    assert bv.votes[v.index].None?;
    assert t.votes == s.votes[v.index := Some(v)];
    forall k | k in t.byBlock ensures MajorityHeld(t, t.byBlock[k].votes) {
      if k != K(cfg, v) { assert MajorityHeld(s, s.byBlock[k].votes); }
    }
  }

  /** The next signature of a commit is added exactly when it is its validator's. */
  lemma {:induction false} RestoreNext(cfg: Config, s: State, c: Commit, k: nat)
    requires Inv(cfg, s) && Countable(cfg) && NoConflicts(s)
    requires k < |c.signatures| && Holding(s, c, k) && !c.signatures[k].flag.Absent? && cfg.votable(GetVote(c, k).blockID)
    ensures Sized(cfg, s)
    ensures var r := AddVote(cfg, s, GetVote(c, k)); r.added && r.error.None? <==> GoodVote(cfg, GetVote(c, k), k)
    ensures GoodVote(cfg, GetVote(c, k), k) ==>
      var t := AddVote(cfg, s, GetVote(c, k)).state; NoConflicts(t) && Holding(t, c, k + 1)
  {
    InvSized(cfg, s);
    var v := GetVote(c, k);
    if GoodVote(cfg, v, k) {
      FirstVoteAdded(cfg, s, v);
    } else {
      OldVoteAnswer(cfg, s, v);
    }
  }

  /** The state after the first `k` signatures. */
  ghost predicate Restoring(cfg: Config, s: State, c: Commit, k: nat)
    requires k <= |c.signatures|
  {
    NoConflicts(s) && Holding(s, c, k) && Restorable(cfg, c, k)
  }

  /** The next signature, absent or added. */
  method RestoreVote(voteSet: VoteSet, c: Commit, k: nat) returns (ok: bool)
    requires voteSet.Valid() && k < |c.signatures| && VotableCommit(voteSet.cfg, c)
    requires Restoring(voteSet.cfg, voteSet.Value(), c, k)
    modifies voteSet
    ensures voteSet.Valid()
    ensures ok ==> Restoring(voteSet.cfg, voteSet.Value(), c, k + 1)
    ensures !ok ==> !Restorable(voteSet.cfg, c, |c.signatures|)
  {
    if c.signatures[k].flag.Absent? { return true; }
    RestoreNext(voteSet.cfg, voteSet.Value(), c, k);
    var added, err := voteSet.AddVote(GetVote(c, k));
    ok := added && err.None?;
  }

  /** The signature at `i` is by the validator at `i`, for what the commit says. */
  ghost predicate OwnSignature(chain: Config, c: Commit, i: nat)
    requires i < |c.signatures|
  {
    var sig := c.signatures[i];
    && i < |chain.vals| && sig.address != [] && sig.address == chain.vals[i].address
    && chain.crypto.addressOf(chain.vals[i].pubKey) == sig.address
    && chain.crypto.verify(chain.vals[i].pubKey, SignBytes(chain.chainID, GetVote(c, i)), sig.signature)
  }

  lemma {:induction false} GoodIsOwn(chain: Config, c: Commit, i: nat)
    requires i < |c.signatures| && chain.votable(GetVote(c, i).blockID)
    ensures GoodVote(ConfigFor(chain, c), GetVote(c, i), i) <==> OwnSignature(chain, c, i)
  {
  }

  lemma {:induction false} RestorableIs(chain: Config, c: Commit)
    requires VotableCommit(chain, c)
    ensures Restorable(ConfigFor(chain, c), c, |c.signatures|) <==>
      forall i :: 0 <= i < |c.signatures| && !c.signatures[i].flag.Absent? ==> OwnSignature(chain, c, i)
  {
    forall i | 0 <= i < |c.signatures| && !c.signatures[i].flag.Absent?
      ensures GoodVote(ConfigFor(chain, c), GetVote(c, i), i) <==> OwnSignature(chain, c, i)
    {
      GoodIsOwn(chain, c, i);
    }
  }

  /** CommitToVoteSet; no result where the source panics. */
  method CommitToVoteSet(chain: Config, c: Commit) returns (r: Option<VoteSet>)
    requires c.height != 0 && Countable(chain) && VotableCommit(chain, c)
    ensures r.Some? <==> Restorable(ConfigFor(chain, c), c, |c.signatures|)
    ensures r.Some? <==> forall i :: 0 <= i < |c.signatures| && !c.signatures[i].flag.Absent? ==> OwnSignature(chain, c, i)
    ensures r.Some? ==> r.value.Valid() && r.value.cfg == ConfigFor(chain, c)
    ensures r.Some? ==> r.value.cfg.height == c.height && r.value.cfg.round == c.round && r.value.cfg.kind == PRECOMMIT
    ensures r.Some? ==> NoConflicts(r.value.Value()) && Holding(r.value.Value(), c, |c.signatures|)
  {
    RestorableIs(chain, c);
    var voteSet := new VoteSet(ConfigFor(chain, c));
    for k := 0 to |c.signatures|
      invariant fresh(voteSet) && voteSet.Valid() && voteSet.cfg == ConfigFor(chain, c)
      invariant Restoring(voteSet.cfg, voteSet.Value(), c, k)
    {
      var ok := RestoreVote(voteSet, c, k);
      if !ok { return None; }
    }
    r := Some(voteSet);
  }

  /** The commit of a vote set can be restored. */
  lemma {:induction false} MadeIsRestorable(cfg: Config, s: State)
    requires Committable(cfg, s)
    ensures Restorable(cfg, CommitOf(cfg, s), |CommitOf(cfg, s).signatures|)
    ensures ConfigFor(cfg, CommitOf(cfg, s)) == cfg && VotableCommit(cfg, CommitOf(cfg, s))
  {
    var c := CommitOf(cfg, s);
    forall i | 0 <= i < |c.signatures| && !c.signatures[i].flag.Absent? ensures GoodVote(cfg, GetVote(c, i), i) {
      MadeSignature(cfg, s, [], i);
      assert VoteOk(cfg, s, i, s.votes[i].value);
    }
  }

  /** Without conflicts, votes enough for `b` make it the majority. */
  lemma {:induction false} QuorumIsFound(cfg: Config, s: State, b: BlockID, mask: seq<bool>)
    requires Inv(cfg, s) && Countable(cfg) && TellsApart(cfg) && NoConflicts(s) && |mask| == |cfg.vals| && cfg.votable(b)
    requires forall i :: 0 <= i < |mask| && mask[i] ==> s.votes[i].Some? && s.votes[i].value.blockID == b
    requires MaskSum(Powers(cfg.vals), mask, |mask|) >= Quorum(cfg)
    ensures s.maj23 == Some(b)
  {
    BoundedPowers(cfg.vals);
    if s.maj23.None? {
      EnteredFor(cfg, s, b, mask);
    } else {
      NoSecondMajority(cfg, s, b, mask);
    }
  }

  lemma {:induction false} EnteredFor(cfg: Config, s: State, b: BlockID, mask: seq<bool>)
    requires Inv(cfg, s) && Countable(cfg) && |mask| == |cfg.vals| && s.maj23.None?
    requires forall i :: 0 <= i < |mask| && mask[i] ==> s.votes[i].Some? && s.votes[i].value.blockID == b
    requires MaskSum(Powers(cfg.vals), mask, |mask|) >= Quorum(cfg)
    ensures cfg.key(b) in s.byBlock && s.byBlock[cfg.key(b)].sum >= Quorum(cfg)
  {
    var k := cfg.key(b);
    BoundedPowers(cfg.vals);
    QuorumBounds(cfg);
    forall i | 0 <= i < |mask| && mask[i] ensures k in s.byBlock && Entered(cfg, s, i, s.votes[i].value) {
      assert VoteOk(cfg, s, i, s.votes[i].value);
    }
    if forall i :: 0 <= i < |mask| ==> !mask[i] {
      NothingMarked(Powers(cfg.vals), mask, |mask|);
      assert false;
    }
    var bv := s.byBlock[k];
    assert BlockOk(cfg, s, k, bv);
    MaskSubset(Powers(cfg.vals), mask, bv.bits, |mask|);
  }

  lemma {:induction false} NoSecondMajority(cfg: Config, s: State, b: BlockID, mask: seq<bool>)
    requires Inv(cfg, s) && Countable(cfg) && TellsApart(cfg) && |mask| == |cfg.vals| && s.maj23.Some?
    requires forall i :: 0 <= i < |mask| && mask[i] ==> s.votes[i].Some? && s.votes[i].value.blockID == b
    requires MaskSum(Powers(cfg.vals), mask, |mask|) >= Quorum(cfg)
    ensures s.maj23.value == b
  {
    var bv := s.byBlock[cfg.key(s.maj23.value)];
    assert BlockOk(cfg, s, cfg.key(s.maj23.value), bv);
    BoundedPowers(cfg.vals);
    QuorumBounds(cfg);
    var none := NoBits(|mask|);
    NothingMarked(Powers(cfg.vals), none, |mask|);
    if s.maj23.value != b {
      forall i | 0 <= i < |mask| ensures !(bv.bits[i] && mask[i]) {
        MajorityVote(cfg, s, i);
      }
      MaskOverlap(Powers(cfg.vals), bv.bits, mask, none, |mask|);
      assert false;
    }
  }

  /** What is restored from a made commit has the same majority and makes the
      same commit, also when the majority is for nil. */
  lemma {:induction false} RestoredMakesSameCommit(cfg: Config, s: State, t: State)
    requires Committable(cfg, s)
    requires Inv(cfg, t) && NoConflicts(t) && Holding(t, CommitOf(cfg, s), |CommitOf(cfg, s).signatures|)
    ensures t.maj23 == s.maj23 && Committable(cfg, t) && CommitOf(cfg, t) == CommitOf(cfg, s)
  {
    var c, b := CommitOf(cfg, s), s.maj23.value;
    var bv := s.byBlock[cfg.key(b)];
    assert BlockOk(cfg, s, cfg.key(b), bv);
    forall i | 0 <= i < |bv.bits| && bv.bits[i] ensures t.votes[i].Some? && t.votes[i].value.blockID == b {
      MajorityVote(cfg, s, i);
      MadeSignature(cfg, s, [], i);
    }
    QuorumIsFound(cfg, t, b, bv.bits);
    InvProper(cfg, t);
    forall i | 0 <= i < |c.signatures| ensures CommitOf(cfg, t).signatures[i] == c.signatures[i] {
      SameSignature(cfg, s, t, i);
    }
    assert CommitOf(cfg, t).signatures == c.signatures;
  }

  lemma {:induction false} SameSignature(cfg: Config, s: State, t: State, i: nat)
    requires Committable(cfg, s) && i < |s.votes|
    requires Committable(cfg, t) && Holding(t, CommitOf(cfg, s), |CommitOf(cfg, s).signatures|) && t.maj23 == s.maj23
    ensures i < |t.votes| && CommitOf(cfg, t).signatures[i] == CommitOf(cfg, s).signatures[i]
  {
    MadeSignature(cfg, s, [], i);
    SigForAgain(s.maj23.value, s.votes[i], t.votes[i]);
  }

  lemma {:induction false} SigForAgain(b: BlockID, v: Option<Vote>, w: Option<Vote>)
    requires v.Some? ==> Proper(v.value.blockID)
    requires w == if SigFor(b, v).flag.Absent? then None else v
    ensures SigFor(b, w) == SigFor(b, v)
  {
  }

  // ---------------------------------------------------------- the whole round

  lemma {:induction false} FaithfulToAny(b: Validation.Batch, cfg: Config, proposer: PubKey, c: Commit, c': Commit)
    requires Validation.Faithful(b, JobOf(cfg, proposer, c))
    ensures Validation.Faithful(b, JobOf(cfg, proposer, c'))
  {
    var j, j' := JobOf(cfg, proposer, c), JobOf(cfg, proposer, c');
    assert j.vals == j'.vals && j.crypto == j'.crypto;
  }

  /** Whatever precommits and claims came in, the commit they make is accepted by
      its own validators unless it is for nil, and a vote set restored from it has
      the same majority and makes the same commit. */
  method CommitAndRestore(cfg: Config, events: seq<Event>, b: Validation.Batch, proposer: PubKey)
    returns (c: Commit, err: Option<Validation.CommitError>, restored: VoteSet, again: Commit)
    requires cfg.height != 0 && cfg.kind == PRECOMMIT && Countable(cfg) && TellsApart(cfg) && Admitted(cfg, events)
    requires After(cfg, events, |events|).maj23.Some?
    requires Validation.Faithful(b, JobOf(cfg, proposer, Commit(cfg.height, cfg.round, NIL_BLOCK, [])))
    ensures var s := After(cfg, events, |events|);
      && c.height == cfg.height && c.round == cfg.round && Some(c.blockID) == s.maj23 && |c.signatures| == |s.votes|
      && forall i :: 0 <= i < |s.votes| ==> Summarizes(c.signatures[i], s.votes[i], c.blockID)
    ensures err.None? <==> c.blockID != NIL_BLOCK
    ensures restored.Valid() && restored.cfg == cfg && restored.maj23 == Some(c.blockID)
    ensures again == c
  {
    ghost var s := After(cfg, events, |events|);
    RunIsCommittable(cfg, events, |events|);
    var voteSet := Replay(cfg, events);
    c := MakeCommit(voteSet);
    FaithfulToAny(b, cfg, proposer, Commit(cfg.height, cfg.round, NIL_BLOCK, []), c);
    MadeCommitVerifies(cfg, s, proposer);
    err := Validation.VerifyCommit(b, JobOf(cfg, proposer, c), voteSet.maj23.value, cfg.height);
    restored, again := RestoreAndRemake(cfg, s, c);
  }

  method RestoreAndRemake(cfg: Config, ghost s: State, c: Commit) returns (restored: VoteSet, again: Commit)
    requires cfg.height != 0 && Committable(cfg, s) && c == CommitOf(cfg, s)
    ensures restored.Valid() && restored.cfg == cfg && restored.maj23 == s.maj23
    ensures again == c
  {
    MadeIsRestorable(cfg, s);
    var r := CommitToVoteSet(cfg, c);
    restored := r.value;
    RestoredMakesSameCommit(cfg, s, restored.Value());
    again := MakeCommit(restored);
  }
}
