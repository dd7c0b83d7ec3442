# A model of Tendermint Core in Dafny

This project models the parts of Tendermint Core that decide who proposes, when
a block is committed, and what a node or a light client may believe, and proves
what those parts promise:

* **Proposer rotation and validator-set updates** - the weighted round-robin on
  int64 priorities, with rescaling, centring and clipping, and the change-set
  algorithm that sorts, checks, merges and removes.
* **Votes and commits** - the vote set that tracks conflicting votes and finds
  the first two-thirds majority, the commits made from it, and the one-by-one
  and batch verifiers of commits.
* **The light client** - verification of one header against another, skipping
  and sequential verification, and what a trace of verified blocks is worth.
* **Merkle trees and part sets** - the tree of section 2.1 of RFC 6962, the audit
  paths of section 2.1.1, and blocks cut into parts that carry such paths.
* **The double-sign guard and the encrypted stream** of the signer.

Hashes, signatures, batch verifiers, ciphers and the encodings that are hashed
are function values, so every statement holds for all of them; what is assumed
of them is always written as a hypothesis. No hash is assumed injective: where
binding matters, the statement is that the claim holds or that two named inputs,
each hashed by a named computation, collide. Sign bytes are modelled by the
canonical record they encode. Code that updates fields or arrays in place is
modelled by classes and methods with loops, proved against functions on values;
pure code by functions.

## How the files fit together

`Rotation`, `Priorities`, `Divergence` and `Int64` hold the arithmetic, `Validator`,
`Proposer`, `Calls`, `ChangeSet` and `ValidatorSet` the validator set, `Fairness` and
`Instance` what follows for its histories. `Votes`, `Tally`, `VoteEffects`,
`VoteSet`, `Commits` and `Validation` are about votes and commits, `FilePV` about
the guard and `Agreement` about the two together. `TrustLevel`, `LightVerifier`,
`LightClient`, `LightSafety` and `LightCompleteness` are the light client.
`TreeShape`, `MerkleTree` and `MerkleProof` are the Merkle tree, `Chunks` and
`PartSet` the part set, and `LittleEndian` and `SecretConnection` the stream.
`Basics` and `Lists` are shared vocabulary.

The main theorems, each over all inputs, runs or reachable states:

* `ValidatorSet.Run` - from any acceptable validators, no interleaving of updates
  and rotations clips, overflows or panics, and every normalisation ends within
  its bounds: the claim that types/validator_set.go:22 leaves to the reader.
* `Proposer.IncrementedFair`, `Fairness.HistoryFair` - how often a validator
  proposes, within one call and over any rotations in a history.
* `Calls.CallsCompose`, `Divergence.NeverMeet` - exactly when a call can be split in
  two: a rescaling in between makes a difference that no number of rounds undoes.
* `ValidatorSet.ValidatorSet.UpdateWithChangeSet` - exactly when an update is
  accepted, and what the set is then.
* `VoteEffects.AddVoteAnswers`, `VoteEffects.AddVoteCounts` - what a vote is answered
  and what it changes.
* `Tally.InvOfRun`, `Tally.MajorityOfRun` - what every vote set satisfies, after
  any votes and claims.
* `Commits.CommitAndRestore` - after any votes and claims, the commit made passes
  verification unless it is for nil, and restores the vote set.
* `Validation.VerifyCommitSingle`, `Validation.VerifyCommitBatch` - both accept
  the same commits.
* `FilePV.SignedWhen`, `FilePV.NoDoubleSigning`, `Agreement.AgreementOfRuns` - the guard across crashes,
  and agreement within a round from it.
* `LightSafety.SkipSafely`, `LightCompleteness.VerifyChain`,
  `LightClient.VerifySkipping` - safety, completeness and termination of skipping
  verification.
* `MerkleTree.HashFromByteSlicesIterative`, `MerkleProof.ProofsFromByteSlices`,
  `MerkleProof.VerifySound` - the two root computations agree, proofs are
  complete and sound.
* `PartSet.Transfer`, `SecretConnection.Converse`, `SecretConnection.Drain` - what
  goes in comes out.

## Where the code and its comments differ

The model follows the code.

* Both header checks of light/verifier.go ask whether the *untrusted* header has
  expired; the comments promise that of the trusted one.
  `LightVerifier.Verify` says exactly when the error for expiry is returned, and
  `LightVerifier.ExpiredButVerified` shows an expired trusted header that gets by.
* light/verifier.go:170-172 gives the range of trust levels as [1/3, 1]; one is
  rejected, and so are levels whose tripled numerator wraps
  (`TrustLevel.AcceptedIs`). Denominators of 2^63 and above are accepted and read as negative
  numbers further on: `TrustLevel.ThresholdIsThird` says exactly when that
  matters, and `TrustLevel.MisreadLevel` shows an instance.
* types/vote_set.go:49-50 says that all canonical votes also have an entry by
  block; `Tally.EnteredUnlessLate` says exactly when a new vote breaks that, and
  `Tally.LateVoteIsNotEntered` shows it.
* privval/secret_connection.go:453 speaks of wrap-around; the nonce stops at its
  maximum.
* types/validator_set.go:140-142 says that rescaled priorities are less than the
  bound apart; they may be exactly that far apart, as `Priorities.RescaledAtBound`
  shows and `Priorities.RescaledBelow` makes exact.
* types/validator_set.go:131 describes the rounds of a call as that many calls with
  one round. Each such call would also rescale: `Fairness.RoundsAreCalls` says exactly
  when that makes no difference, and `Instance.TwoCallsAreNotOne` shows that it can,
  on a set that `Instance.TrioIsReached` reaches.
* safeMul (types/validator_set.go:913-933) misses overflows when its first factor
  is the smallest int64, which its caller never passes: `Int64.SafeMulExact`.
* types/part_set.go:168 divides in uint32, so data whose rounded-up length reaches
  2^32 is not covered: `Chunks.SplitIsLossless` is an equivalence, and
  `Chunks.LongDataIsLost` an instance.

## Model

| member | source | states |
|---|---|---|
| `Int64.SafeAdd` | types/validator_set.go:873-880 | reports an overflow exactly when the sum leaves int64, and otherwise returns it |
| `Int64.SafeSub` | types/validator_set.go:882-889 | the same for differences |
| `Int64.AddClip` | types/validator_set.go:891-900 | the int64 nearest to the sum |
| `Int64.SubClip` | types/validator_set.go:902-911 | the int64 nearest to the difference |
| `Int64.WrapCongruent` | types/validator_set.go:211-215 | int64 arithmetic that leaves the range is off by a multiple of 2^64 |
| `Int64.SafeMulExact` | types/validator_set.go:913-933 | for all int64 factors: an overflow is reported exactly when the product does not fit, and otherwise the product is returned, exactly if the first factor is not the smallest int64 (or the second is 0 or 1) and the product is not |
| `Int64.SafeMulRange` | types/validator_set.go:913-933 | with any other first factor an overflow is reported exactly outside [-MaxInt64, MaxInt64] |
| `Int64.SafeMulOfMin` | types/validator_set.go:913-933 | with the smallest int64 as first factor none is ever reported |
| `Int64.SafeMulFails` | types/validator_set.go:913-933 | an overflow that is missed, and a product that fits and is reported |
| `Validator.Compare` | types/validator.go:63-83 | the result comes first in a strict total order, by priority and then by smaller address |
| `Validator.PrecedesTransitive` | types/validator.go:63-83 | that order is transitive |
| `Validator.LessIsLexicographic` | types/validator.go:63-83 | addresses compare like bytes.Compare: at the first difference |
| `Priorities.RescaledWithin` | types/validator_set.go:143-164 | after truncating division by the ratio, any two priorities are at most the bound apart, and none has grown |
| `Priorities.RescaledBelow` | types/validator_set.go:140-164 | they are less than the bound apart, as the comment says, exactly if they started so or truncation takes enough off the largest and the smallest |
| `Priorities.RescaledAtBound` | types/validator_set.go:140-164 | priorities that end up exactly the bound apart |
| `Priorities.WrappedSpreadIs` | types/validator_set.go:197-216 | on any int64 priorities the wrapping difference is the spread exactly if the spread fits |
| `Priorities.WrappedRescaledExact` | types/validator_set.go:143-164 | on any int64 priorities nothing wraps if the spread and the numerator of the ratio fit |
| `Priorities.AverageBetween` | types/validator_set.go:181-194 | the average lies between the extremes, so it is an int64 and its panic cannot happen |
| `Priorities.CenteredExact` | types/validator_set.go:226-234 | centring does not clip; the sum becomes at least 0 and less than the number of validators, and each priority is within the spread of zero |
| `Rotation.RunAccount` | types/validator_set.go:166-178 | conservation: after any number of steps each priority is its start, plus its power per step, minus the total per time chosen, and the sum never changes |
| `Rotation.RunLowerBound` | types/validator_set.go:166-178 | no priority ever falls below minus twice the total |
| `Rotation.RunUpperBound` | types/validator_set.go:166-178 | with at most 2^e validators no priority rises more than e totals above where they started, however many steps are taken |
| `Proposer.SteppedExact` | types/validator_set.go:166-178 | one step without clipping raises everyone by their power and charges the total to one of the largest |
| `Proposer.NormalizedFits` | types/validator_set.go:143-216 | on bounded sets the spread and the numerator of the ratio fit in int64 |
| `Proposer.NormalizedBounds` | types/validator_set.go:116-130 | rescaling and centring leave a spread of at most twice the total and a sum in [0, n), and keep members and powers |
| `Proposer.IncrementedExact` | types/validator_set.go:116-138 | a whole call is a run of the unclipped rotation from normalised priorities, and leaves a bounded set |
| `Proposer.IncrementedFair` | types/validator_set.go:116-178 | within one call nobody is chosen more than k*power/total + 4 times, nor less than k*power/total - 4 - e times among at most 2^e validators |
| `Calls.IncrementedSum` | types/validator_set.go:116-138 | after a call with room the priorities still sum to at least 0 and less than one per validator |
| `Calls.NormalizedAlready` | types/validator_set.go:126-128 | priorities with such a sum are left alone by rescaling and centring exactly if they are at most twice the total apart |
| `Calls.StepsCompose` | types/validator_set.go:131-134 | a + b rounds are a rounds and then b rounds |
| `Divergence.GapIsTight` | types/validator_set.go:166-178 | after any rounds from priorities at most twice the total apart, with somebody far below zero, validators that are at least one total above all others are just that |
| `Divergence.NeverMeet` | types/validator_set.go:116-178 | rounds that go on from rescaled priorities never meet those that go on from the priorities before, however many there are, if these were reached from a normalised start |
| `Divergence.AverageOfDivided` | types/validator_set.go:143-194 | dividing centred priorities moves their average by at most one |
| `Calls.CallsCompose` | types/validator_set.go:116-138 | a call with a rounds and then one with b > 0 end where one call with a + b rounds does, exactly if the priorities are at most twice the total apart in between |
| `Calls.AllCallsCompose` | types/validator_set.go:116-138 | the second call may be any call, without room for its rounds, exactly under the same condition |
| `ValidatorSet.ValidatorSet.UpdateTotalVotingPower` | types/validator_set.go:298-312 | the cached total is the sum of the powers, without clipping or panic |
| `ValidatorSet.ValidatorSet.TotalVotingPower` | types/validator_set.go:316-321 | computed on first use, always the sum |
| `ValidatorSet.ValidatorSet.ComputeMaxMinPriorityDiff` | types/validator_set.go:197-216 | on any priorities the wrapping difference of the extremes; the spread exactly if that fits |
| `ValidatorSet.ValidatorSet.RescalePriorities` | types/validator_set.go:143-164 | on any priorities and any bound, the in-place int64 computation, with the division by zero it can run into, and nothing else changes |
| `ValidatorSet.ValidatorSet.ShiftByAvgProposerPriority` | types/validator_set.go:226-234 | the in-place loop computes the centred priorities |
| `ValidatorSet.ValidatorSet.ComputeAvgProposerPriority` | types/validator_set.go:181-194 | the rounded-down average |
| `ValidatorSet.ValidatorSet.GetValWithMostPriority` | types/validator_set.go:218-224 | the validator that precedes all others; comparing never panics |
| `ValidatorSet.ValidatorSet.IncrementOnce` | types/validator_set.go:166-178 | one rotation, and the validator that paid |
| `ValidatorSet.ValidatorSet.IncrementProposerPriority` | types/validator_set.go:116-138 | normalise, rotate, and make the last to pay the proposer; with room for the rounds the set stays bounded |
| `ChangeSet.Find` | types/validator_set.go:270-277 | an index with the address, or none if there is none |
| `ChangeSet.FindIsFirst` | types/validator_set.go:270-277 | and the first such index |
| `ChangeSet.ProcessChanges` | types/validator_set.go:373-407 | succeeds exactly on distinct non-empty addresses and powers in range, and splits the changes into updates and removals in address order |
| `ChangeSet.VerifyUpdates` | types/validator_set.go:424-451 | checking every partial sum, smallest first, is the same as checking the final total |
| `ChangeSet.RepricedMeans` | types/validator_set.go:474-493 | only the priority changes: members keep theirs, and others start at minus nine eighths of the total, rounded toward zero |
| `ChangeSet.ApplyUpdates` | types/validator_set.go:499-534 | the union with updates winning, in address order, and the total moved by the deltas |
| `ChangeSet.VerifyRemovals` | types/validator_set.go:538-552 | succeeds exactly if every removal is of a member, and then returns the power removed |
| `ChangeSet.ApplyRemovals` | types/validator_set.go:557-581 | exactly the members that are not removed, in order, and the total lowered by what was removed |
| `ChangeSet.EmptinessTest` | types/validator_set.go:602-605 | the test on counts is true exactly if nobody would be left |
| `ChangeSet.MergeChanges` | types/validator_set.go:621-626 | reprice, merge and remove give exactly the target members and total |
| `ChangeSet.AcceptableIs` | types/validator_set.go:587-612 | exactly which changes are accepted: distinct addresses, none empty, powers in range, removals allowed and of members, somebody left, and the total in range |
| `ValidatorSet.CheckChanges` | types/validator_set.go:587-619 | the checks before any change succeed exactly on acceptable changes |
| `ValidatorSet.ValidatorSet.UpdateWithChangeSet` | types/validator_set.go:587-637 | a map update: succeeds exactly on acceptable changes; then the members are the old ones overridden by the updates without the removed ones, by decreasing power, with the right total; otherwise members and proposer are as before |
| `ValidatorSet.UpdatedBounded` | types/validator_set.go:628-635 | after an update the set is bounded and priorities lie within two totals of zero |
| `ValidatorSet.UpdatedOrder` | types/validator_set.go:754-759 | by decreasing power, and by increasing address where powers are equal |
| `ValidatorSet.UpdatedPower` | types/validator_set.go:587-637 | an update is a map update: the power at each address is the one asked for, or the one it had, and no power means not a member |
| `ValidatorSet.NewValidatorSet` | types/validator_set.go:70-80 | panics exactly on unacceptable validators; otherwise the set is what an update of the empty set gives after one rotation, both exact, with the total of the validators given |
| `ValidatorSet.Run` | types/validator_set.go:17-31 | from any acceptable validators, every interleaving of updates and single rotations passes through bounded, non-empty sets only; on the way every rescale-and-shift fits in int64, does not clip, and leaves a spread of at most two totals and a sum in [0, n), and every rotation is a step of the unclipped one |
| `ValidatorSet.SoundNormalizes` | types/validator_set.go:143-234 | on a bounded set the rescale-and-shift is exact in that sense |
| `ValidatorSet.SoundRotates` | types/validator_set.go:116-178 | on a bounded set a rotation is exact and leaves a bounded set |
| `Fairness.RelayAccount` | types/validator_set.go:116-178 | conservation across calls: what a validator pays for being elected is its power per rotation, its priority, and what rescalings gave it |
| `Fairness.RotationsFair` | types/validator_set.go:116-178 | in k rotations with m rescalings a validator is elected at most k*power/total + 4(m+1) and at least k*power/total - 5(m+1) times, whatever the number of validators |
| `Fairness.HistoryFair` | types/validator_set.go:116-178 | so wherever a set is rotated k times in a row, in any history |
| `Fairness.RoundsAreCalls` | types/validator_set.go:131-134 | the rounds of a call are calls with one round, as the comment says, up to any of them exactly if the priorities are at most twice the total apart after each but the last |
| `Instance.TwoCallsAreNotOne` | types/validator_set.go:131-134 | three validators for which two calls with one round elect another proposer than one call with two |
| `Instance.TrioIsReached` | types/validator_set.go:70-80 | NewValidatorSet and one update lead to these three |
| `Votes.KeyInjective` | types/block.go:1185-1193 | different votable blocks have different keys |
| `Votes.CompleteKey` | types/block.go:1185-1193 | the key of a complete block: its hash, tag and encoding of the part count, then tag, length and part set hash |
| `Votes.VarintReads` | types/block.go:1185-1193 | the part count in a key is read back from its variable-length encoding, whatever follows |
| `Votes.SignBytesBind` | types/canonical.go:56-65 | a signature is for one chain, kind, height, round, block and time, and for nothing else of the vote |
| `Tally.KeysTellApart` | types/vote_set.go:160 | so votes by key are votes by block, after Vote.ValidateBasic |
| `Tally.QuorumBounds` | types/vote_set.go:281 | the quorum is the least integer above two thirds of the power |
| `Tally.AddVoteKeepsInv` | types/vote_set.go:154-302 | AddVote keeps the invariant, whichever blocks may be voted for: sums are the power of the votes held, tracked blocks are bounded by voters and claiming peers, the majority is a tracked block with a quorum whose votes are canonical; the first majority is final |
| `Tally.SetPeerKeepsInv` | types/vote_set.go:309-342 | so does SetPeerMaj23 |
| `Tally.NewVoteAnswer` | types/vote_set.go:207-302 | what is added is kept under its block, a conflict comes with two signed votes of one validator for different blocks, and a vote for the majority becomes canonical |
| `Tally.OldVoteAnswer` | types/vote_set.go:154-205 | any other vote changes nothing, and is accepted silently only if one with the same signature is held |
| `VoteEffects.AddVoteAnswers` | types/vote_set.go:154-216 | each error is returned exactly in its case, a duplicate without one; a vote is added exactly if it is new, well addressed and well signed, and either the first of its validator or for a block that some peer claims |
| `VoteEffects.AddVoteCounts` | types/vote_set.go:231-302 | field by field: the power of an added vote goes into the sum of its block and no other changes; a first vote goes into the total; the first block above two thirds becomes the majority, and its votes the ones held; any other vote changes nothing |
| `VoteEffects.HeldOnce` | types/vote_set.go:219-227 | at most one vote per validator and block is held |
| `VoteEffects.ClaimIsRecorded` | types/vote_set.go:309-342 | field by field: a first claim is recorded and its block tracked and marked; a later one changes nothing and is accepted exactly if it is the same |
| `VoteEffects.ClaimsOfRun` | types/vote_set.go:317-325 | over any run exactly the first claim of each peer is on record |
| `Tally.InvOfRun` | types/vote_set.go:154-342 | the invariant holds after every sequence of votes and claims |
| `Tally.MajorityOfRun` | types/vote_set.go:286-298 | once reported, the majority stays for the rest of the run |
| `Tally.MajorityMeansQuorum` | types/vote_set.go:279-298 | a majority is reported exactly when some tracked block has more than two thirds |
| `Tally.EnteredUnlessLate` | types/vote_set.go:49-50 | a new vote keeps "all canonical votes have an entry by block" exactly unless it conflicts, is for the majority, and no peer has claimed that majority |
| `Tally.LateVoteIsNotEntered` | types/vote_set.go:245-265 | three votes of two validators after which it is false |
| `VoteSet.VoteSet.constructor` | types/vote_set.go:78-96 | an empty vote set satisfies the invariant |
| `VoteSet.VoteSet.GetVote` | types/vote_set.go:219-227 | a vote of the validator that is held under the key, and none only if none is held |
| `VoteSet.VoteSet.AddVote` | types/vote_set.go:154-216 | the method does what the transition says and keeps the invariant; its answer and its effect are those of the two rows above; its panic cannot happen |
| `VoteSet.VoteSet.AddVerifiedVote` | types/vote_set.go:231-302 | the same for a verified vote; its panic cannot happen |
| `VoteSet.VoteSet.CopyVotes` | types/vote_set.go:292-296 | the loop puts the votes for the majority over the ones held |
| `VoteSet.VoteSet.SetPeerMaj23` | types/vote_set.go:309-342 | does what the transition says, with the effect stated above, and keeps the invariant |
| `VoteSet.Replay` | types/vote_set.go:154-342 | objects go through exactly the states of the state machine |
| `Commits.MakeCommit` | types/vote_set.go:613-637 | one signature per validator: present exactly for votes for the majority and for nil, with the address, time and signature of the vote, and told apart by the flag |
| `Commits.MadeCommitVerifies` | types/vote_set.go:613-637 | the commit of a precommit set with a majority passes VerifyCommit exactly if the majority is not for nil |
| `Commits.RunIsCommittable` | types/vote_set.go:613-637 | every reachable precommit set with a majority is such a set |
| `Commits.CommitToVoteSet` | types/block.go:776-788 | panics exactly if some present signature is not its validator's, and otherwise holds those votes without conflict |
| `Commits.MadeIsRestorable` | types/block.go:773-788 | never panics on a made commit |
| `Commits.RestoredMakesSameCommit` | types/block.go:773-805 | the restored set has the same majority and makes the same commit |
| `Commits.CommitAndRestore` | types/block.go:773-805 | the whole round on objects: for any run of votes and claims with a majority, the commit made is accepted exactly if it is not for nil, never fails to be restored, and the restored set has the same majority and makes the same commit |
| `Validation.LookUp` | types/validation.go:177-203 | finds the signer by index or address, and a second signature of one validator exactly when there is one |
| `Validation.VerifyCommitSingle` | types/validation.go:265-332 | accepts exactly if some allowed stopping point has only valid signatures, none twice, and enough power; an error names the first signature that is wrong or given twice, or the power found and needed; if nothing is wrong with the signatures the only error is too little power |
| `Validation.VerifyCommitBatch` | types/validation.go:152-256 | with a faithful verifier accepts exactly the same, despite deferring the checks, except that with a negative threshold and no signature to look at the verifier's answer for an empty batch decides; the "BUG" error means exactly that it said no |
| `Validation.VerifyByRule` | types/validation.go:40-50 | in a batch or one by one: shortage of power is reported exactly if nothing else is found to be wrong |
| `Validation.AcceptedIsDecided` | types/validation.go:227-256 | with a threshold of at least zero that does not happen |
| `Validation.FullAccepts` | types/validation.go:25-51 | what that means with VerifyCommit's rules: every present signature is valid, and those for the block weigh more than two thirds |
| `Validation.LightAccepts` | types/validation.go:59-84 | with VerifyCommitLight's: some prefix of the signatures for the block is valid and weighs more than two thirds |
| `Validation.VerifyCommit` | types/validation.go:25-51 | accepts exactly commits of the right size, height and block that are committed in that sense; each of those three errors exactly in its case |
| `Validation.VerifyCommitLight` | types/validation.go:59-84 | the same for the light sense |
| `Validation.FullImpliesLight` | types/validation.go:25-84 | what VerifyCommit accepts, VerifyCommitLight accepts |
| `Validation.Signers` | types/validation.go:177-226 | a tally is the power of distinct validators with counted signatures |
| `Validation.VerifyCommitLightTrusting` | types/validation.go:94-130 | a zero denominator and an overflow exactly have their errors; otherwise accepts exactly above the threshold, by address, and with that exception |
| `FilePV.CheckHRS` | privval/file.go:95-127 | an error exactly on regression or without sign bytes; reuse only at the last step; otherwise a later step |
| `FilePV.OnlyDifferByTimestamp` | privval/file.go:416-452 | succeeds exactly if some timestamp makes the messages equal, and returns the old one |
| `FilePV.FilePV.Sign` | privval/file.go:319-398 | answer and saved state are those of the transition; the decoding panics cannot happen |
| `FilePV.SigningIsExact` | privval/file.go:319-398 | a signature handed out covers exactly the stored sign bytes, rewritten timestamp included; a new one is for a later step |
| `FilePV.SigningAgain` | privval/file.go:333-346 | asking again after a crash with any timestamp gives the same signature |
| `FilePV.SignedWhen` | privval/file.go:319-398 | exactly when a request is signed, by kind of message: always with a working key for a later height or round, and within a round from proposal to prevote to precommit; never backwards; again for the same kind exactly if some timestamp makes the messages equal |
| `FilePV.SignedAtFirst` | privval/file.go:319-398 | and when nothing has been signed yet |
| `FilePV.RoundIsSigned` | privval/file.go:319-398 | a proposal, a prevote and a precommit of one round are all handed out |
| `FilePV.ProposalBytesBind` | types/canonical.go:42-52 | a signature is for one chain and proposal |
| `FilePV.RunGuarded` | privval/file.go:319-410 | over every run with crashes before or after saving and restarts, the steps signed strictly increase and only saved signatures are handed out |
| `FilePV.NoDoubleSigning` | privval/file.go:319-410 | over every such run, signatures for one height, round and step cover the same bytes |
| `Agreement.QuorumsOverlap` | types/vote_set.go:279-298 | two quorums share more than a third of the power |
| `Agreement.Agreement` | types/vote_set.go:279-302 | two vote sets of one step in any reachable states do not report different majorities, if keys that sign through the guard hold two thirds |
| `Agreement.AgreementOfRuns` | types/vote_set.go:154-302 | the same, for any two runs of vote sets |
| `TrustLevel.ThresholdIsThird` | types/validation.go:106-111 | for an accepted level, being above the threshold means more than a third for every tally exactly if the level is not misread |
| `TrustLevel.MisreadLevel` | light/verifier.go:173-180 | an accepted level for which it does not |
| `TrustLevel.AcceptedIs` | light/verifier.go:170-180 | levels in [1/3, 1) are accepted exactly if three times the numerator does not wrap to less than the denominator, and no others are |
| `TrustLevel.RejectedHalf` | light/verifier.go:170-180 | a level of about one half that is rejected |
| `LightVerifier.VerifyNonAdjacent` | light/verifier.go:33-88 | succeeds exactly if all checks hold; each early error is reported exactly in its case, expiry exactly if the new header has expired; a set that cannot be trusted is reported exactly if the plain checks pass and too few trusted validators signed, nothing else being wrong |
| `LightVerifier.VerifyAdjacent` | light/verifier.go:103-149 | succeeds exactly if the checks hold, the validators are the announced ones, and two thirds of them signed; each error in its case, expiry exactly if the new header has expired |
| `LightVerifier.Verify` | light/verifier.go:152-168 | succeeds exactly if the one of the two that applies does; a set that cannot be trusted is at least two heights up; whatever the age of the trusted header, the error for expiry is returned exactly if the checks before it pass and the new header has expired |
| `LightVerifier.ExpiredButVerified` | light/verifier.go:121-124 | a complete block, with 32-byte digests, verified against a trusted header that has expired |
| `LightClient.PivotBetween` | light/client.go:704-707 | the next height is below the failed one, and above the verified one exactly if the product has not wrapped to less than 16 |
| `LightClient.PivotIs` | light/client.go:704-707 | it is nine sixteenths of the way up, if nothing wraps |
| `LightClient.PivotBelow` | light/client.go:704-707 | heights for which it is not |
| `LightClient.Turn` | light/client.go:647-699 | one turn of the loop keeps cached heights strictly decreasing above the verified one, extends the trace by verified blocks only, and makes lexicographic progress |
| `LightClient.LinkAttests` | light/verifier.go:33-168 | whatever block is accepted, adjacent or not: it is for the same chain, later, neither expired nor from the future, its header, validators and commit belong together, and validators with more than two thirds of its own power signed it |
| `LightClient.VerifySkipping` | light/client.go:629-701 | terminates; a trace is a chain of verified blocks, each attested in that sense, from the trusted block to the target; no height is fetched twice, except that for heights so far apart that the product wraps the last one may be; and a willing source is never refused |
| `LightClient.VerifySequential` | light/client.go:536-616 | a trace has every height once, each block verified against the one before and attested; an error names two neighbouring heights; a willing source is never refused; a target at the largest int64 is never reached |
| `LightClient.TraceIncreases` | light/verifier.go:241-252 | heights and times of a trace strictly increase |
| `LightSafety.HeaderBinds` | types/block.go:448-484 | equal header hashes mean equal headers, or a collision in their trees |
| `LightSafety.ValsBind` | types/validator_set.go:347-353 | equal validator hashes mean the same keys and powers, or a collision |
| `LightSafety.TrustedSigner` | types/validation.go:94-130 | an accepted trusting check includes the signature of a correct validator |
| `LightSafety.NonAdjacentSafe` | light/verifier.go:33-88 | a block verified against a canonical one is canonical, or breaks the hash |
| `LightSafety.AdjacentSafe` | light/verifier.go:103-149 | the same for neighbours |
| `LightSafety.TraceSafe` | light/client.go:629-701 | from a canonical block, all of a trace is canonical, or one of its blocks breaks the hash |
| `LightSafety.SkipSafely` | light/client.go:629-701 | skipping verification against any source is safe in that sense, and heights and times increase |
| `LightCompleteness.CleanTrust` | types/validation.go:94-130 | on well-signed commits the trusting check can only be short of power |
| `LightCompleteness.ChainIsWilling` | light/verifier.go:103-180 | a source of an unexpired chain whose neighbours verify is willing, for every accepted trust level that is computable, unless it comes to a batch verifier that refuses an empty batch |
| `LightCompleteness.ReadRightDecides` | types/validation.go:106-130 | it does not with a level that is not misread |
| `LightCompleteness.OneByOneDecides` | types/validation.go:265-332 | nor, whatever the level, with verification one by one |
| `LightCompleteness.CommonSignerDecides` | types/validation.go:152-256 | nor with a signer of the trusted set in the batch |
| `LightCompleteness.VerifyChain` | light/client.go:647-700 | on such a source both modes return a trace |
| `TreeShape.SplitPointIsLargest` | crypto/merkle/tree.go:101-112 | the largest power of two less than the length |
| `TreeShape.RootIsFold` | crypto/merkle/tree.go:15-27 | the recursive root is a fold over the leaf digests |
| `TreeShape.FoldLevel` | crypto/merkle/tree.go:68-98 | pairing one level left to right leaves the tree above it unchanged |
| `TreeShape.PathSound` | crypto/merkle/proof.go:151-181 | a path to the root ends in an item, at its index if the total is right, or two nodes collide |
| `TreeShape.AuntsGiveRoot` | crypto/merkle/proof.go:151-181 | the audit path of every item leads to the root |
| `TreeShape.PathLength` | crypto/merkle/proof.go:151-184 | a path leads somewhere exactly if the index is in range and the path is as long as the audit path is |
| `MerkleTree.MerkleRootBinding` | crypto/merkle/tree.go:11-27 | equal roots mean equal lists, or two hashed strings collide |
| `MerkleTree.RootEquations` | crypto/merkle/tree.go:11-27 | the equations of section 2.1 of RFC 6962 over bytes, split at the largest power of two below the length |
| `MerkleTree.HashFromByteSlicesIterative` | crypto/merkle/tree.go:68-98 | the in-place, level-by-level computation gives the recursive root |
| `MerkleTree.PairInPlace` | crypto/merkle/tree.go:82-95 | no digest is overwritten before it is read |
| `MerkleProof.FlattenAunts` | crypto/merkle/proof.go:197-215 | walking the links collects the audit path from the leaf up |
| `MerkleProof.TrailsFromByteSlices` | crypto/merkle/proof.go:219-239 | the links built make a trail for every item |
| `MerkleProof.ProofsFromByteSlices` | crypto/merkle/proof.go:35-48 | the root is the recursive one and every proof verifies its item |
| `MerkleProof.ProofVerifies` | crypto/merkle/proof.go:52-68 | the audit path of every item passes Verify |
| `MerkleProof.VerifyErrors` | crypto/merkle/proof.go:52-68 | each error exactly in its case |
| `MerkleProof.PathEquations` | crypto/merkle/proof.go:35-49 | the audit paths of section 2.1.1 of RFC 6962 over bytes |
| `MerkleProof.VerifySound` | crypto/merkle/proof.go:52-68 | an accepted leaf is an item, at the index claimed if the total is right, or two named strings collide, whatever the aunts |
| `MerkleProof.TotalIsNotBound` | crypto/merkle/proof.go:52-68 | why the total has to be checked by the caller |
| `MerkleProof.EmptyRootAcceptsBrokenPaths` | crypto/merkle/proof.go:52-68 | an empty root hash accepts exactly the paths that cannot be followed |
| `Chunks.CutUp` | types/part_set.go:168-180 | the slicing loop, on uint32 positions, never out of bounds |
| `Chunks.SplitIsLossless` | types/part_set.go:166-180 | the parts make up the data again exactly if the rounded-up length is below 2^32 |
| `Chunks.LongDataIsLost` | types/part_set.go:166-180 | one byte short of 2^32, in block parts, leaves no parts at all |
| `PartSet.NewPartSetFromData` | types/part_set.go:166-194 | all parts with proofs under the root; the accounts are exact exactly if the parts make up the data |
| `PartSet.PartSet.FromHeader` | types/part_set.go:197-206 | an empty set with exact accounts |
| `PartSet.AddAnswers` | types/part_set.go:266-294 | a part is added exactly if its index is in range and empty and its proof verifies; each error exactly in its case; only an added part changes anything, and what |
| `PartSet.PartSet.AddPart` | types/part_set.go:266-294 | does what the transition says, errors included, and keeps count, size and bits exact |
| `PartSet.PartSet.IsComplete` | types/part_set.go:302-304 | comparing counts means that no part is missing |
| `PartSet.PartSet.GetReader` | types/part_set.go:306-325 | what is left to read is all parts joined |
| `PartSet.AnyOrder` | types/part_set.go:266-294 | adding parts in any order with repeats holds exactly those, and is complete exactly if every index has come by |
| `PartSet.RoundTrip` | types/part_set.go:166-294 | once complete, the parts are the data and its size is right |
| `PartSet.AcceptedIsGenuine` | types/part_set.go:284-286 | an accepted part whose proof is for the total of the set is the part at its index exactly if that equals the part at the index of its proof, or a string hashed for the tree and one hashed by the check collide |
| `PartSet.AssembledIsGenuine` | types/part_set.go:266-304 | a complete set of such parts, from anywhere, holds the parts of the data exactly if every proof is for an equal part, or one of them makes such a collision |
| `PartSet.AssembledIsData` | types/part_set.go:266-325 | with proofs for their own indices, joined they are the data and the size is right, or one of them makes such a collision |
| `PartSet.IndexIsNotChecked` | types/part_set.go:273-286 | a part may sit at another index than its proof shows |
| `PartSet.PartSetReader.Read` | types/part_set.go:327-346 | reads on across parts; the end is reported exactly when a non-empty buffer is not filled |
| `PartSet.ReadThrough` | types/part_set.go:327-346 | through any non-empty buffers as much is read as they hold together, and the end is reported exactly if they hold more than there is |
| `PartSet.Transfer` | types/part_set.go:166-346 | from data to data: cut up, added in any order with repeats to a set made from the header, and read through any non-empty buffers, all of the data comes out |
| `SecretConnection.NoncesDiffer` | privval/secret_connection.go:453-466 | different counters make different nonces |
| `SecretConnection.NonceBytes` | privval/secret_connection.go:453-466 | four zero bytes and the counter, least significant byte first |
| `SecretConnection.IncrNonce` | privval/secret_connection.go:457-466 | the counter goes up by one in place, and stops at the largest |
| `SecretConnection.MakeFrame` | privval/secret_connection.go:199-215 | a frame carries its chunk, whatever the buffer held |
| `SecretConnection.ParseFrame` | privval/secret_connection.go:262-270 | the chunk of any frame, or an error exactly if its length is too big |
| `SecretConnection.CarriesOne` | privval/secret_connection.go:212-213 | a frame carries one chunk only |
| `SecretConnection.ChunksAre` | privval/secret_connection.go:194-203 | the data is cut into chunks of 1024 bytes, but for the last |
| `SecretConnection.Pipe.WriteChunk` | privval/secret_connection.go:196-228 | one frame in flight more, sealed with a nonce of its own |
| `SecretConnection.Pipe.Write` | privval/secret_connection.go:191-231 | all data is sent in order unless nonces run out, in those chunks |
| `SecretConnection.Pipe.ReceiveChunk` | privval/secret_connection.go:246-270 | opens the next frame; neither decryption nor the length check can fail |
| `SecretConnection.Pipe.Read` | privval/secret_connection.go:234-277 | the next bytes, as many as fit; the rest is buffered |
| `SecretConnection.Pipe.ReadsInOrder` | privval/secret_connection.go:191-277 | in every state bytes read are a prefix of bytes written, the counters differ by the frames in flight, and no nonce has sealed twice |
| `SecretConnection.Converse` | privval/secret_connection.go:191-277 | the same for any interleaving of Writes and Reads with any sizes |
| `SecretConnection.Drain` | privval/secret_connection.go:234-277 | reading until the end yields all that was written and not yet read |

## Left out

- ValidatorSet.ValidatorSet.IncrementProposerPriority: promises that the set stays bounded only with room for the rounds, which one round always has; nothing is claimed for arbitrarily many rounds with arbitrarily many validators at the largest total. The proposer is kept as a value, so its aliasing with the list is not captured.
- Calls.CallsCompose: for calls with room for all rounds but the last; `Calls.AllCallsCompose` needs room in the first call only.
- Fairness.RoundsAreCalls: the same, for all rounds but the last.
- VoteSet.VoteSet.AddVerifiedVote: the per-block vote lists are values in a map, where the source shares objects.
- LightVerifier.VerifyNonAdjacent: the causes of an invalid header are not told apart in the contract; times are integers, so saturation of time arithmetic is not modelled.
- LightClient.VerifySkipping: distinct fetches and completeness without the exception are for heights close enough that the product in schedule does not wrap, nine times their distance being an int64.
- LightCompleteness.ChainIsWilling: for heights close enough that nine times their distance is an int64, as the product in schedule wraps beyond that.
- LightCompleteness.VerifyChain: the same.
- LightClient.VerifySequential: returns the first error where the source may replace the primary and try again.
- FilePV.FilePV.Sign: votes and proposals share one method, as their two functions differ only in the record signed; the JSON file is its contents, and Reset, which is documented as unsafe, is not part of a run.
- SecretConnection.Pipe.Write: every write to the connection succeeds.
- SecretConnection.Pipe.ReceiveChunk: frames that nobody sent are not modelled.
- SecretConnection.Pipe.Read: the wire is a queue of sealed frames, not of bytes.
- Handshakes, key derivation and concrete cryptography: foreign code; signatures, ciphers and hashes are function values here.
- Protobuf encodings other than that of part set headers: hashed encodings are functions, injective where the statement says so.
- ValidateBasic checks of single fields of headers and commits: one predicate parameter.
- Provider replacement, witnesses, the detector, the trusted store and backwards verification of the light client: orchestration around what is modelled.
- Locks, contexts, logging and nil receivers: every method is modelled as running alone on an object that exists.
- Evidence, genesis, parameters, mempool, consensus state machine, networking and RPC: other parts of the repository.
