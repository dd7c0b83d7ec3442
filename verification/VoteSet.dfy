/** The VoteSet object (types/vote_set.go:61-342, 647-677): its methods update
    the fields in place and are proved against the transitions of Tally. */
module VoteSet {
  import opened Basics
  import opened Votes
  import opened Tally
  import opened VoteEffects

  class VoteSet {
    const cfg: Config
    var votesBitArray: seq<bool>
    var votes: seq<Option<Vote>>
    var sum: int
    var maj23: Option<BlockID>
    var votesByBlock: map<Bytes, BlockVotes>
    var peerMaj23s: map<string, BlockID>

    ghost function Value(): State
      reads this
    {
      State(votes, votesBitArray, sum, maj23, votesByBlock, peerMaj23s)
    }

    ghost predicate Valid()
      reads this
    {
      Inv(cfg, Value()) && Countable(cfg)
    }

    /** The source panics for height 0. */
    constructor (cfg: Config)
      requires cfg.height != 0 && Countable(cfg)
      ensures Valid() && this.cfg == cfg && Value() == Initial(cfg)
    {
      this.cfg := cfg;
      votesBitArray := NoBits(|cfg.vals|);
      votes := NoVotes(|cfg.vals|);
      sum := 0;
      maj23 := None;
      votesByBlock := map[];
      peerMaj23s := map[];
      new;
      InitialInv(cfg);
    }

    /** getVote: the vote of validator `i` held under key `k`, if there is one. */
    method GetVote(i: nat, k: Bytes) returns (v: Option<Vote>)
      requires Valid() && i < |cfg.vals|
      ensures Sized(cfg, Value()) && v == Existing(cfg, Value(), i, k)
      ensures v.Some? ==> Holds(cfg, Value(), i, v.value) && K(cfg, v.value) == k
      ensures v.None? ==> forall u :: Holds(cfg, Value(), i, u) ==> K(cfg, u) != k
    {
      ExistingMeans(cfg, Value(), i, k);
      if votes[i].Some? && K(cfg, votes[i].value) == k { return votes[i]; }
      if k in votesByBlock { return votesByBlock[k].votes[i]; }
      v := None;
    }

    /** Validates as much as possible before the signature; the two panics of
        the source are the unreachable branches. */
    method AddVote(v: Vote) returns (added: bool, err: Option<VoteError>)
      requires Valid() && cfg.votable(v.blockID)
      modifies this
      ensures Valid()
      ensures old(Sized(cfg, Value())) && AddResult(Value(), added, err) == Tally.AddVote(cfg, old(Value()), v)
      ensures Answered(cfg, old(Value()), v, added, err) && Counts(cfg, old(Value()), Value(), v, added)
      ensures old(maj23).Some? ==> maj23 == old(maj23)
    {
      ghost var s := Value();
      AddVoteKeepsInv(cfg, s, v);
      AddVoteAnswers(cfg, s, v);
      AddVoteCounts(cfg, s, v);
      if v.index < 0 { return false, Some(InvalidIndex); }
      if |v.address| == 0 { return false, Some(InvalidAddress); }
      if v.height != cfg.height || v.round != cfg.round || v.kind != cfg.kind { return false, Some(UnexpectedStep); }
      if v.index >= |cfg.vals| { return false, Some(InvalidIndex); }
      if v.address != cfg.vals[v.index].address { return false, Some(InvalidAddress); }
      var existing := GetVote(v.index, K(cfg, v));
      if existing.Some? {
        if existing.value.signature == v.signature { return false, None; }
        return false, Some(NonDeterministicSignature);
      }
      if !Verifies(cfg, v) { return false, Some(InvalidSignature); }
      var conflicting: Option<Vote>;
      added, conflicting := AddVerifiedVote(v);
      if conflicting.Some? { return added, Some(Conflicting(conflicting.value)); }
      if !added { assert false; }
      err := None;
    }

    method AddVerifiedVote(v: Vote) returns (added: bool, conflicting: Option<Vote>)
      requires Sized(cfg, Value()) && 0 <= v.index < |cfg.vals| && Existing(cfg, Value(), v.index, K(cfg, v)).None?
      modifies this
      ensures (Value(), added) == AddVerified(cfg, old(Value()), v)
      ensures conflicting == old(votes)[v.index] && (added || conflicting.Some?)
    {
      ghost var s := Value();
      var power := cfg.vals[v.index].power;
      conflicting := votes[v.index];
      Record(v, power);
      ghost var r := Value();
      if K(cfg, v) in votesByBlock {
        if conflicting.Some? && !votesByBlock[K(cfg, v)].peerMaj23 { return false, conflicting; }
      } else {
        if conflicting.Some? { return false, conflicting; }
        votesByBlock := votesByBlock[K(cfg, v) := NewBlockVotes(false, |cfg.vals|)];
      }
      CountForBlock(v, power);
      assert Value().byBlock == Counted(cfg, r, v, power).byBlock;
      added := true;
    }

    /** The first half of addVerifiedVote: the primary list of votes. */
    method Record(v: Vote, power: int)
      requires Sized(cfg, Value()) && 0 <= v.index < |cfg.vals| && Existing(cfg, Value(), v.index, K(cfg, v)).None?
      modifies `votes, `votesBitArray, `sum
      ensures Value() == Recorded(cfg, old(Value()), v, power)
    {
      if votes[v.index].Some? {
        if votes[v.index].value.blockID == v.blockID { assert false; }
        if maj23.Some? && cfg.key(maj23.value) == K(cfg, v) {
          votes := votes[v.index := Some(v)];
          votesBitArray := votesBitArray[v.index := true];
        }
      } else {
        votes := votes[v.index := Some(v)];
        votesBitArray := votesBitArray[v.index := true];
        sum := sum + power;
      }
    }

    /** The second half of addVerifiedVote: the tracked block and the quorum. */
    method CountForBlock(v: Vote, power: int)
      requires Sized(cfg, Value()) && 0 <= v.index < |cfg.vals| && K(cfg, v) in votesByBlock
      modifies `votes, `maj23, `votesByBlock
      ensures Value() == Counted(cfg, old(Value()), v, power)
    {
      var origSum := votesByBlock[K(cfg, v)].sum;
      var quorum := Quorum(cfg);
      votesByBlock := votesByBlock[K(cfg, v) := BlockAdd(votesByBlock[K(cfg, v)], v, power)];
      var bv := votesByBlock[K(cfg, v)];
      if origSum < quorum && quorum <= bv.sum {
        if maj23.None? {
          maj23 := Some(v.blockID);
          CopyVotes(bv.votes);
        }
      }
    }

    /** Copies the votes of the majority block over. */
    method CopyVotes(block: seq<Option<Vote>>)
      requires |block| == |votes|
      modifies `votes
      ensures votes == CopyOver(old(votes), block)
    {
      for i := 0 to |block|
        invariant |votes| == |block|
        invariant forall j :: 0 <= j < |votes| ==>
          votes[j] == if j < i && block[j].Some? then block[j] else old(votes)[j]
      {
        if block[i].Some? { votes := votes[i := block[i]]; }
      }
    }

    method SetPeerMaj23(peer: string, b: BlockID) returns (ok: bool)
      requires Valid()
      modifies this
      ensures Valid()
      ensures (Value(), ok) == Tally.SetPeerMaj23(cfg, old(Value()), peer, b)
      ensures ClaimRecorded(cfg, old(Value()), Value(), peer, b, ok)
      ensures maj23 == old(maj23)
    {
      SetPeerKeepsInv(cfg, Value(), peer, b);
      ClaimIsRecorded(cfg, Value(), peer, b);
      ok := RecordClaim(peer, b);
    }

    method RecordClaim(peer: string, b: BlockID) returns (ok: bool)
      modifies `peerMaj23s, `votesByBlock
      ensures (Value(), ok) == Tally.SetPeerMaj23(cfg, old(Value()), peer, b)
    {
      if peer in peerMaj23s { return peerMaj23s[peer] == b; }
      peerMaj23s := peerMaj23s[peer := b];
      TrackClaimed(cfg.key(b));
      ok := true;
    }

    /** Its second half: an entry by block, if needed. */
    method TrackClaimed(k: Bytes)
      modifies `votesByBlock
      ensures votesByBlock == old(votesByBlock)[k :=
        if k in old(votesByBlock) then old(votesByBlock)[k].(peerMaj23 := true) else NewBlockVotes(true, |cfg.vals|)]
    {
      if k in votesByBlock {
        if votesByBlock[k].peerMaj23 {
          assert votesByBlock[k := votesByBlock[k].(peerMaj23 := true)] == votesByBlock;
          return;
        }
        votesByBlock := votesByBlock[k := votesByBlock[k].(peerMaj23 := true)];
      } else {
        votesByBlock := votesByBlock[k := NewBlockVotes(true, |cfg.vals|)];
      }
    }
  }

  method Handle(voteSet: VoteSet, e: Event)
    requires voteSet.Valid() && (e.Add? ==> voteSet.cfg.votable(e.vote.blockID))
    modifies voteSet
    ensures voteSet.Valid() && voteSet.Value() == Next(voteSet.cfg)(old(voteSet.Value()), e)
  {
    match e
    case Add(v) => var _, _ := voteSet.AddVote(v);
    case Claim(peer, b) => var _ := voteSet.SetPeerMaj23(peer, b);
  }

  /** Any run of a VoteSet object goes through the states of `After`. */
  method Replay(cfg: Config, events: seq<Event>) returns (voteSet: VoteSet)
    requires cfg.height != 0 && Countable(cfg) && Admitted(cfg, events)
    ensures voteSet.Valid() && voteSet.cfg == cfg && voteSet.Value() == After(cfg, events, |events|)
  {
    voteSet := new VoteSet(cfg);
    for n := 0 to |events|
      invariant fresh(voteSet) && voteSet.Valid() && voteSet.cfg == cfg && voteSet.Value() == After(cfg, events, n)
    {
      Handle(voteSet, events[n]);
    }
  }
}
