/** light/verifier.go: checking one header against a trusted one.  Header fields
    not named here are in `rest`; their stateless checks are a predicate, and
    the encodings that are hashed are functions. */
module LightVerifier {
  import opened Basics
  import opened Int64
  import opened Validator
  import opened Proposer
  import opened MerkleTree
  import opened Votes
  import opened Validation
  import opened TrustLevel

  datatype Header = Header(chainID: string, height: int, time: int, validatorsHash: Bytes, nextValidatorsHash: Bytes,
                           rest: seq<Bytes>)

  /** A signed header and the validator set that comes with it. */
  datatype LightBlock = LightBlock(header: Header, commit: Commit, vals: seq<Validator>, proposer: PubKey)

  /** The byte strings a header and a validator contribute to their Merkle trees. */
  datatype Encoding = Encoding(fields: Header -> seq<Bytes>, validator: (PubKey, int) -> Bytes)

  datatype Client = Client(h: HashFn, enc: Encoding, crypto: Crypto, batch: Batch, basic: (Header, Commit) -> bool,
                           trustingPeriod: int, maxClockDrift: int, trustLevel: Fraction)

  datatype LightError =
    | MissingField
    | HeadersAdjacent
    | HeadersNotAdjacent
    | BadTrustLevel
    | OldHeaderExpired
    | InvalidHeader
    | NewValSetCantBeTrusted

  // ------------------------------------------------------------------- hashes

  /** Header.Hash: nil without a validators hash. */
  function HeaderHash(c: Client, hd: Header): Bytes {
    if hd.validatorsHash == [] then [] else MerkleRoot(c.h, c.enc.fields(hd))
  }

  /** Addresses and priorities do not enter the hash of a validator set. */
  function ValidatorBytes(c: Client, vals: seq<Validator>): seq<Bytes> {
    seq(|vals|, i requires 0 <= i < |vals| => c.enc.validator(vals[i].pubKey, vals[i].power))
  }

  function ValsHash(c: Client, vals: seq<Validator>): Bytes { MerkleRoot(c.h, ValidatorBytes(c, vals)) }

  // ------------------------------------------------------------ what is checked

  /** What building a validator set and ValidatorSet.ValidateBasic guarantee. */
  ghost predicate Loadable(b: LightBlock) {
    |b.vals| > 0 && Powered(b.vals) && 0 <= Total(b.vals) <= MAX_POWER && Fits(b.header.height)
  }

  /** The trust level is a fraction, and the batch verifier is faithful to the keys. */
  ghost predicate SoundBatch(c: Client) {
    IsFraction(c.trustLevel) && forall j: Job :: j.crypto == c.crypto ==> Faithful(c.batch, j)
  }

  /** checkRequiredHeaderFields; zero is the zero time. */
  predicate Required(hd: Header) { hd.height != 0 && hd.time != 0 && hd.chainID != "" }

  predicate Expired(c: Client, b: LightBlock, now: int) { !(b.header.time + c.trustingPeriod > now) }

  /** SignedHeader.ValidateBasic. */
  predicate Consistent(c: Client, b: LightBlock, chainID: string) {
    && c.basic(b.header, b.commit) && b.header.height > 0 && !IsZero(b.commit.blockID)
    && b.header.chainID == chainID && b.commit.height == b.header.height
    && HeaderHash(c, b.header) == b.commit.blockID.hash
  }

  /** verifyNewHeaderAndVals. */
  predicate NewHeaderOk(c: Client, a: LightBlock, b: LightBlock, now: int) {
    && Consistent(c, b, a.header.chainID) && b.header.height > a.header.height && b.header.time > a.header.time
    && b.header.time < now + c.maxClockDrift && b.header.validatorsHash == ValsHash(c, b.vals)
  }

  function OwnJob(c: Client, a: LightBlock, b: LightBlock): Job {
    Job(a.header.chainID, b.vals, b.proposer, c.crypto, b.commit)
  }

  /** The commit of `b`, to be looked up in the set of `a`. */
  function TrustJob(c: Client, a: LightBlock, b: LightBlock): Job {
    Job(a.header.chainID, a.vals, a.proposer, c.crypto, b.commit)
  }

  /** More than two thirds of the new set signed. */
  ghost predicate OwnCommit(c: Client, a: LightBlock, b: LightBlock) {
    BelongsTo(OwnJob(c, a, b), b.commit.blockID, b.header.height) && LightCommitted(OwnJob(c, a, b))
  }

  /** The threshold can be computed. */
  predicate LevelFits(c: Client, a: LightBlock)
    requires Fits(Total(a.vals))
  {
    c.trustLevel.den != 0 && !Scaled(Total(a.vals), c.trustLevel).1
  }

  function TrustedRule(c: Client, a: LightBlock): Rule
    requires Fits(Total(a.vals)) && IsFraction(c.trustLevel) && LevelFits(c, a)
  {
    TrustRule(Threshold(Total(a.vals), c.trustLevel))
  }

  /** The trust level of the trusted set signed. */
  ghost predicate TrustedCommit(c: Client, a: LightBlock, b: LightBlock)
    requires Fits(Total(a.vals)) && IsFraction(c.trustLevel)
  {
    && LevelFits(c, a) && Accepts(TrustJob(c, a, b), TrustedRule(c, a))
    && Decided(c.batch, TrustJob(c, a, b), TrustedRule(c, a))
  }

  /** A negative threshold with nobody of the trusted set among the signers, and a
      batch verifier that refuses an empty batch. */
  ghost predicate EmptyBatchRefused(c: Client, a: LightBlock, b: LightBlock)
    requires Fits(Total(a.vals)) && IsFraction(c.trustLevel)
  {
    && LevelFits(c, a) && Threshold(Total(a.vals), c.trustLevel) < 0
    && !Decided(c.batch, TrustJob(c, a, b), TrustedRule(c, a))
  }

  /** The trusted validators that signed are too few, and that is all that is wrong. */
  ghost predicate TooFewCommon(c: Client, a: LightBlock, b: LightBlock)
    requires Fits(Total(a.vals)) && IsFraction(c.trustLevel)
  {
    LevelFits(c, a) && FallsShort(c.batch, TrustJob(c, a, b), TrustedRule(c, a))
  }

  ghost predicate Adjacent(a: LightBlock, b: LightBlock) { b.header.height == Wrap(a.header.height + 1) }

  ghost predicate AdjacentOk(c: Client, a: LightBlock, b: LightBlock, now: int) {
    && Required(a.header) && a.header.nextValidatorsHash != [] && Adjacent(a, b) && !Expired(c, b, now)
    && NewHeaderOk(c, a, b, now) && b.header.validatorsHash == a.header.nextValidatorsHash && OwnCommit(c, a, b)
  }

  /** The checks of VerifyNonAdjacent before any signature is looked at. */
  ghost predicate PlainChecks(c: Client, a: LightBlock, b: LightBlock, now: int) {
    && Required(a.header) && !Adjacent(a, b) && Accepted(c.trustLevel) && !Expired(c, b, now) && NewHeaderOk(c, a, b, now)
  }

  ghost predicate NonAdjacentOk(c: Client, a: LightBlock, b: LightBlock, now: int)
    requires Fits(Total(a.vals)) && IsFraction(c.trustLevel)
  {
    PlainChecks(c, a, b, now) && TrustedCommit(c, a, b) && OwnCommit(c, a, b)
  }

  /** What a successful Verify has established. */
  ghost predicate Verified(c: Client, a: LightBlock, b: LightBlock, now: int)
    requires Fits(Total(a.vals)) && IsFraction(c.trustLevel)
  {
    if Adjacent(a, b) then AdjacentOk(c, a, b, now) else NonAdjacentOk(c, a, b, now)
  }

  /** Everything is in order but for, possibly, the overlap of the two sets. */
  ghost predicate Bisectable(c: Client, a: LightBlock, b: LightBlock, now: int)
    requires Fits(Total(a.vals)) && IsFraction(c.trustLevel)
  {
    && PlainChecks(c, a, b, now) && OwnCommit(c, a, b) && LevelFits(c, a) && Clean(TrustJob(c, a, b), TrustedRule(c, a))
    && !EmptyBatchRefused(c, a, b)
  }

  // ------------------------------------------------------------------ checking

  method CheckNewHeader(c: Client, a: LightBlock, b: LightBlock, now: int) returns (ok: bool)
    ensures ok <==> NewHeaderOk(c, a, b, now)
  {
    if !Consistent(c, b, a.header.chainID) { return false; }
    if b.header.height <= a.header.height { return false; }
    if !(b.header.time > a.header.time) { return false; }
    if !(b.header.time < now + c.maxClockDrift) { return false; }
    ok := b.header.validatorsHash == ValsHash(c, b.vals);
  }

  method CheckOwnCommit(c: Client, a: LightBlock, b: LightBlock) returns (ok: bool)
    requires SoundBatch(c) && Powered(b.vals)
    ensures ok <==> OwnCommit(c, a, b)
  {
    var j := OwnJob(c, a, b);
    assert Faithful(c.batch, j);
    var err := VerifyCommitLight(c.batch, j, b.commit.blockID, b.header.height);
    ok := err.None?;
  }

  /** VerifyNonAdjacent.  Expiry is that of the new header: with what comes first in
      order, an expired trusted header is refused for it exactly if the new one
      has expired too. */
  method VerifyNonAdjacent(c: Client, a: LightBlock, b: LightBlock, now: int) returns (err: Option<LightError>)
    requires SoundBatch(c) && Loadable(a) && Loadable(b)
    ensures err.None? <==> NonAdjacentOk(c, a, b, now)
    ensures err == Some(MissingField) <==> a.header.height == 0 || a.header.time == 0 || a.header.chainID == ""
    ensures err == Some(HeadersAdjacent) <==> Required(a.header) && Adjacent(a, b)
    ensures Required(a.header) && !Adjacent(a, b) ==> (err == Some(BadTrustLevel) <==> !Accepted(c.trustLevel))
    ensures Required(a.header) && !Adjacent(a, b) && Accepted(c.trustLevel) ==>
      (err == Some(OldHeaderExpired) <==> b.header.time + c.trustingPeriod <= now)
    ensures err != Some(HeadersNotAdjacent)
    ensures err == Some(NewValSetCantBeTrusted) <==> PlainChecks(c, a, b, now) && TooFewCommon(c, a, b)
    ensures err == Some(NewValSetCantBeTrusted) ==> !TrustedCommit(c, a, b)
    ensures Bisectable(c, a, b, now) ==> err.None? || err == Some(NewValSetCantBeTrusted)
    ensures PlainChecks(c, a, b, now) && EmptyBatchRefused(c, a, b) ==> err == Some(InvalidHeader)
  {
    if !Required(a.header) { return Some(MissingField); }
    if b.header.height == Wrap(a.header.height + 1) { return Some(HeadersAdjacent); }
    if !Accepted(c.trustLevel) { return Some(BadTrustLevel); }
    if Expired(c, b, now) { return Some(OldHeaderExpired); }
    var ok := CheckNewHeader(c, a, b, now);
    if !ok { return Some(InvalidHeader); }
    var j := TrustJob(c, a, b);
    assert Faithful(c.batch, j);
    var e := VerifyCommitLightTrusting(c.batch, j, c.trustLevel);
    if e.Some? {
      return Some(if e.value.NotEnough? then NewValSetCantBeTrusted else InvalidHeader);
    }
    var own := CheckOwnCommit(c, a, b);
    if !own { return Some(InvalidHeader); }
    err := None;
  }

  /** VerifyAdjacent, with the same reading of expiry. */
  method VerifyAdjacent(c: Client, a: LightBlock, b: LightBlock, now: int) returns (err: Option<LightError>)
    requires SoundBatch(c) && Loadable(b)
    ensures err.None? <==> AdjacentOk(c, a, b, now)
    ensures err == Some(MissingField) <==>
      a.header.height == 0 || a.header.time == 0 || a.header.chainID == "" || a.header.nextValidatorsHash == []
    ensures Required(a.header) && a.header.nextValidatorsHash != [] ==>
      (err == Some(HeadersNotAdjacent) <==> !Adjacent(a, b))
    ensures Required(a.header) && a.header.nextValidatorsHash != [] && Adjacent(a, b) ==>
      (err == Some(OldHeaderExpired) <==> b.header.time + c.trustingPeriod <= now)
    ensures err.Some? ==> err.value in {MissingField, HeadersNotAdjacent, OldHeaderExpired, InvalidHeader}
  {
    if !Required(a.header) || a.header.nextValidatorsHash == [] { return Some(MissingField); }
    if b.header.height != Wrap(a.header.height + 1) { return Some(HeadersNotAdjacent); }
    if Expired(c, b, now) { return Some(OldHeaderExpired); }
    var ok := CheckNewHeader(c, a, b, now);
    if !ok { return Some(InvalidHeader); }
    if b.header.validatorsHash != a.header.nextValidatorsHash { return Some(InvalidHeader); }
    var own := CheckOwnCommit(c, a, b);
    if !own { return Some(InvalidHeader); }
    err := None;
  }

  /** What is in order when either check comes to expiry. */
  ghost predicate AskedForExpiry(c: Client, a: LightBlock, b: LightBlock) {
    Required(a.header) && if Adjacent(a, b) then a.header.nextValidatorsHash != [] else Accepted(c.trustLevel)
  }

  /** Verify: a new set that cannot be trusted yet is at least two heights up.  The
      comments promise OldHeaderExpired for an expired trusted header; it is the
      answer exactly if the new one has expired. */
  method Verify(c: Client, a: LightBlock, b: LightBlock, now: int) returns (err: Option<LightError>)
    requires SoundBatch(c) && Loadable(a) && Loadable(b)
    ensures err.None? <==> Verified(c, a, b, now)
    ensures err == Some(NewValSetCantBeTrusted) ==> b.header.height >= a.header.height + 2
    ensures err == Some(OldHeaderExpired) <==> AskedForExpiry(c, a, b) && Expired(c, b, now)
    ensures Bisectable(c, a, b, now) ==> err.None? || err == Some(NewValSetCantBeTrusted)
  {
    if b.header.height != Wrap(a.header.height + 1) {
      err := VerifyNonAdjacent(c, a, b, now);
    } else {
      err := VerifyAdjacent(c, a, b, now);
    }
  }

  // ------------------------------------------------------------------- expiry

  /** One validator, two heights, and a trusting period that ends between them. */
  function Digest(): Bytes { seq(HASH_SIZE, i => 7) }

  function SmallHeader(height: int, time: int): Header { Header("c", height, time, Digest(), Digest(), []) }

  function SmallBlock(height: int, time: int): LightBlock {
    LightBlock(SmallHeader(height, time),
               Commit(height, 0, BlockID(Digest(), PartSetHeader(1, Digest())), [CommitSig(ForBlock, [], 0, [])]),
               [Validator([], [], 1, 0)], [])
  }

  function SmallClient(): Client {
    Client(x => Digest(), Encoding(hd => [], (key, power) => []), Crypto(key => [], (key, msg, signature) => true),
           Batch(key => false, (key, msg, signature) => true, es => (true, [])), (hd, commit) => true, 3, 1, Fraction(1, 3))
  }

  lemma {:induction false} SmallCommit()
    ensures OwnCommit(SmallClient(), SmallBlock(1, 1), SmallBlock(2, 5))
  {
    var j := OwnJob(SmallClient(), SmallBlock(1, 1), SmallBlock(2, 5));
    assert Powers(j.vals) == [1];
    assert LightPrefix(j, 1);
  }

  /** The trusted header expired at time 4; at time 6 the next one is verified
      against it. */
  lemma {:induction false} ExpiredButVerified()
    ensures var c, a, b := SmallClient(), SmallBlock(1, 1), SmallBlock(2, 5);
      Expired(c, a, 6) && AdjacentOk(c, a, b, 6) && FixedWidth(c.h) && IsComplete(b.commit.blockID)
  {
    SmallCommit();
  }
}
