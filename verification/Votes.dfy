/** Block identifiers, votes and commits (types/block.go, types/vote.go,
    types/canonical.go).  Sign bytes are modelled by the canonical record they
    encode; signature checking is an arbitrary predicate. */
module Votes {
  import opened Basics
  import opened Validator

  datatype PartSetHeader = PartSetHeader(total: nat, hash: Bytes)

  datatype BlockID = BlockID(hash: Bytes, parts: PartSetHeader)

  const NIL_BLOCK := BlockID([], PartSetHeader(0, []))

  predicate IsZero(b: BlockID) { b == NIL_BLOCK }

  predicate IsComplete(b: BlockID) {
    |b.hash| == HASH_SIZE && b.parts.total > 0 && |b.parts.hash| == HASH_SIZE
  }

  /** The identifiers Vote.ValidateBasic lets through (types/vote.go:178-182). */
  predicate Proper(b: BlockID) { IsZero(b) || IsComplete(b) }

  // -------------------------------------------------------------- block keys

  /** Protobuf variable-length integer. */
  function Varint(n: nat): Bytes
  {
    if n < 128 then [n as byte] else [(n % 128 + 128) as byte] + Varint(n / 128)
  }

  /** Protobuf encoding of a part set header: fields with zero values are omitted. */
  function MarshalParts(p: PartSetHeader): Bytes {
    (if p.total == 0 then [] else [8] + Varint(p.total)) +
    (if p.hash == [] then [] else [18] + Varint(|p.hash|) + p.hash)
  }

  /** BlockID.Key. */
  function Key(b: BlockID): Bytes { b.hash + MarshalParts(b.parts) }

  /** Read the variable-length integer at the start, and what follows it. */
  function ReadVarint(s: Bytes): (nat, Bytes) {
    if s == [] then (0, [])
    else if s[0] < 128 then (s[0] as nat, s[1..])
    else
      var (high, rest) := ReadVarint(s[1..]);
      (128 * high + (s[0] - 128) as nat, rest)
  }

  lemma {:induction false} VarintReads(n: nat, rest: Bytes)
    ensures ReadVarint(Varint(n) + rest) == (n, rest)
  {
    var s := Varint(n) + rest;
    if n < 128 {
      assert s[0] as nat == n && s[1..] == rest;
    } else {
      assert s[0] as nat == n % 128 + 128 && s[1..] == Varint(n / 128) + rest;
      VarintReads(n / 128, rest);
    }
  }

  lemma {:induction false} CompleteKey(b: BlockID)
    requires IsComplete(b)
    ensures |Key(b)| > 67
    ensures Key(b)[..32] == b.hash
    ensures Key(b)[|Key(b)| - 32..] == b.parts.hash
    ensures Key(b)[33..|Key(b)| - 34] == Varint(b.parts.total)
    ensures Key(b)[32] == 8 && Key(b)[|Key(b)| - 34] == 18 && Key(b)[|Key(b)| - 33] == 32
  {
    var total := Varint(b.parts.total);
    assert |total| > 0;
    var tail := [18] + Varint(32) + b.parts.hash;
    assert Varint(32) == [32];
    assert Key(b) == b.hash + [8] + total + tail;
  }

  /** Distinct votable blocks have distinct keys, so the map of votes by key is a
      map of votes by block. */
  lemma {:induction false} KeyInjective(a: BlockID, b: BlockID)
    requires Proper(a) && Proper(b) && Key(a) == Key(b)
    ensures a == b
  {
    assert |Key(NIL_BLOCK)| == 0;
    if IsComplete(a) { CompleteKey(a); }
    if IsComplete(b) { CompleteKey(b); }
    if IsComplete(a) && IsComplete(b) { VarintReads(a.parts.total, []); VarintReads(b.parts.total, []); }
  }

  // ------------------------------------------------------------------- votes

  const PREVOTE := 1
  const PRECOMMIT := 2

  datatype Vote = Vote(kind: int, height: int, round: int, blockID: BlockID, timestamp: int,
                       address: Address, index: int, signature: Bytes)

  /** CanonicalVote: what is signed; the nil block is left out. */
  datatype CanonicalVote = CanonicalVote(kind: int, height: int, round: int, blockID: Option<BlockID>,
                                         timestamp: int, chainID: string)

  /** VoteSignBytes. */
  function SignBytes(chainID: string, v: Vote): CanonicalVote {
    CanonicalVote(v.kind, v.height, v.round, if IsZero(v.blockID) then None else Some(v.blockID), v.timestamp, chainID)
  }

  /** A signature is for one chain, kind, height, round, block and time, and for
      nothing else of the vote. */
  lemma {:induction false} SignBytesBind(chainID: string, v: Vote, chainID': string, v': Vote)
    ensures SignBytes(chainID, v) == SignBytes(chainID', v') <==>
      && chainID == chainID' && v.kind == v'.kind && v.height == v'.height && v.round == v'.round
      && v.blockID == v'.blockID && v.timestamp == v'.timestamp
  {
  }

  /** Keys and signatures, uninterpreted. */
  datatype Crypto = Crypto(addressOf: PubKey -> Address, verify: (PubKey, CanonicalVote, Bytes) -> bool)

  // ----------------------------------------------------------------- commits

  datatype Flag = Absent | ForBlock | ForNil

  datatype CommitSig = CommitSig(flag: Flag, address: Address, timestamp: int, signature: Bytes)

  const ABSENT := CommitSig(Absent, [], 0, [])

  datatype Commit = Commit(height: int, round: int, blockID: BlockID, signatures: seq<CommitSig>)

  /** Vote.CommitSig; the source panics on an improper block. */
  function CommitSigOf(v: Option<Vote>): CommitSig
    requires v.Some? ==> Proper(v.value.blockID)
  {
    match v
    case None => ABSENT
    case Some(v) =>
      CommitSig(if IsComplete(v.blockID) then ForBlock else ForNil, v.address, v.timestamp, v.signature)
  }

  /** Commit.GetVote. */
  function GetVote(c: Commit, i: nat): Vote
    requires i < |c.signatures|
  {
    var s := c.signatures[i];
    Vote(PRECOMMIT, c.height, c.round, if s.flag.ForBlock? then c.blockID else NIL_BLOCK,
         s.timestamp, s.address, i, s.signature)
  }
}
