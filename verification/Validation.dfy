/** Commit verification (types/validation.go).  What the one-by-one and the
    batch routine accept is one declarative condition, `Accepts`. */
module Validation {
  import opened Basics
  import opened Int64
  import opened Rotation
  import opened Validator
  import opened Proposer
  import opened Votes
  import ChangeSet

  /** A commit to be verified against a validator set. */
  datatype Job = Job(chainID: string, vals: seq<Validator>, proposer: PubKey, crypto: Crypto, commit: Commit)

  /** Which signatures are skipped and counted, and when to stop. */
  datatype Rule = Rule(needed: int, ignore: CommitSig -> bool, count: CommitSig -> bool, countAll: bool, byIndex: bool)

  /** A batch verifier for the key type of the proposer. */
  datatype Batch = Batch(supports: PubKey -> bool,
                         add: (PubKey, CanonicalVote, Bytes) -> bool,
                         verify: seq<Entry> -> (bool, seq<bool>))

  datatype Entry = Entry(key: PubKey, msg: CanonicalVote, signature: Bytes)

  datatype CommitError =
    | WrongSize
    | WrongHeight
    | WrongBlock
    | ZeroDenominator
    | Overflow
    | DoubleVote(first: nat, second: nat)
    | Unsupported
    | BadEntry
    | WrongSignature(idx: nat)
    | NotEnough(got: int, needed: int)
    | Bug

  // ------------------------------------------------------ what is acceptable

  /** The rules below look a validator up by position only in commits of the
      same size as the set. */
  ghost predicate Fitting(j: Job, r: Rule) { r.byIndex ==> |j.commit.signatures| <= |j.vals| }

  /** Whose signature is at `i`, if anyone's in the set. */
  function Signer(j: Job, r: Rule, i: nat): (v: Option<nat>)
    requires Fitting(j, r) && i < |j.commit.signatures|
    ensures v.Some? ==> v.value < |j.vals|
  {
    if r.byIndex then Some(i)
    else
      var k := ChangeSet.Find(j.vals, j.commit.signatures[i].address);
      if k < 0 then None else Some(k)
  }

  predicate Relevant(j: Job, r: Rule, i: nat)
    requires Fitting(j, r) && i < |j.commit.signatures|
  {
    !r.ignore(j.commit.signatures[i]) && Signer(j, r, i).Some?
  }

  function EntryAt(j: Job, i: nat, v: nat): Entry
    requires i < |j.commit.signatures| && v < |j.vals|
  {
    Entry(j.vals[v].pubKey, SignBytes(j.chainID, GetVote(j.commit, i)), j.commit.signatures[i].signature)
  }

  predicate ValidEntry(c: Crypto, e: Entry) { c.verify(e.key, e.msg, e.signature) }

  predicate Signed(j: Job, r: Rule, i: nat)
    requires Fitting(j, r) && i < |j.commit.signatures| && Relevant(j, r, i)
  {
    ValidEntry(j.crypto, EntryAt(j, i, Signer(j, r, i).value))
  }

  ghost predicate AllSigned(j: Job, r: Rule, k: nat)
    requires Fitting(j, r) && k <= |j.commit.signatures|
  {
    forall i :: 0 <= i < k && Relevant(j, r, i) ==> Signed(j, r, i)
  }

  ghost predicate OncePerValidator(j: Job, r: Rule, k: nat)
    requires Fitting(j, r) && k <= |j.commit.signatures|
  {
    forall i :: 0 <= i < k ==> FirstTime(j, r, i)
  }

  /** The signer at `i`, if any, has not signed before. */
  ghost predicate FirstTime(j: Job, r: Rule, i: nat)
    requires Fitting(j, r) && i < |j.commit.signatures|
  {
    Relevant(j, r, i) ==> forall h :: 0 <= h < i && Relevant(j, r, h) ==> Signer(j, r, h) != Signer(j, r, i)
  }

  /** The power behind the signatures before `k` that count. */
  function Tally(j: Job, r: Rule, k: nat): int
    requires Fitting(j, r) && k <= |j.commit.signatures|
  {
    if k == 0 then 0
    else Tally(j, r, k - 1) +
         if Relevant(j, r, k - 1) && r.count(j.commit.signatures[k - 1]) then j.vals[Signer(j, r, k - 1).value].power else 0
  }

  /** Verification may stop at the end, and unless all signatures have to be
      checked after any relevant one. */
  predicate MayStop(j: Job, r: Rule, k: nat)
    requires Fitting(j, r) && k <= |j.commit.signatures|
  {
    k == |j.commit.signatures| || (!r.countAll && k > 0 && Relevant(j, r, k - 1))
  }

  /** The signatures before `k` settle the matter. */
  ghost predicate Settles(j: Job, r: Rule, k: nat)
    requires Fitting(j, r) && k <= |j.commit.signatures|
  {
    MayStop(j, r, k) && AllSigned(j, r, k) && OncePerValidator(j, r, k) && Tally(j, r, k) > r.needed
  }

  ghost predicate Accepts(j: Job, r: Rule)
    requires Fitting(j, r)
  {
    exists k :: 0 <= k <= |j.commit.signatures| && Settles(j, r, k)
  }

  /** Nothing is wrong with any signature that would be looked at. */
  ghost predicate Clean(j: Job, r: Rule)
    requires Fitting(j, r)
  {
    AllSigned(j, r, |j.commit.signatures|) && OncePerValidator(j, r, |j.commit.signatures|)
  }

  // --------------------------------------------------------- the state of a scan

  /** `seen` maps the validators met so far to where they were met. */
  ghost predicate SeenOk(j: Job, r: Rule, idx: nat, seen: map<nat, nat>)
    requires Fitting(j, r) && idx <= |j.commit.signatures|
  {
    && (forall v :: v in seen ==> seen[v] < idx && Relevant(j, r, seen[v]) && Signer(j, r, seen[v]) == Some(v))
    && (forall i :: 0 <= i < idx && Relevant(j, r, i) && !r.byIndex ==> Signer(j, r, i).value in seen)
  }

  /** Nothing before `idx` was enough. */
  ghost predicate Undecided(j: Job, r: Rule, idx: nat)
    requires Fitting(j, r) && idx <= |j.commit.signatures|
  {
    forall k :: 0 <= k <= idx && k < |j.commit.signatures| && MayStop(j, r, k) ==> Tally(j, r, k) <= r.needed
  }

  /** An error at `idx` spoils every longer prefix. */
  lemma {:induction false} Spoilt(j: Job, r: Rule, idx: nat)
    requires Fitting(j, r) && idx < |j.commit.signatures| && Undecided(j, r, idx)
    requires !(AllSigned(j, r, idx + 1) && OncePerValidator(j, r, idx + 1))
    ensures !Accepts(j, r) && !Clean(j, r)
  {
    forall k | 0 <= k <= |j.commit.signatures| ensures !Settles(j, r, k) {
    }
  }

  lemma {:induction false} Enough(j: Job, r: Rule, k: nat)
    requires Fitting(j, r) && k <= |j.commit.signatures| && Settles(j, r, k)
    ensures Accepts(j, r)
  {
  }

  lemma {:induction false} BadSignature(j: Job, r: Rule, idx: nat)
    requires Fitting(j, r) && idx < |j.commit.signatures| && Undecided(j, r, idx)
    requires Relevant(j, r, idx) && !Signed(j, r, idx)
    ensures !Accepts(j, r) && !Clean(j, r)
  {
    assert !AllSigned(j, r, idx + 1);
    Spoilt(j, r, idx);
  }

  lemma {:induction false} StopEarly(j: Job, r: Rule, idx: nat)
    requires Fitting(j, r) && idx < |j.commit.signatures| && Relevant(j, r, idx) && Signed(j, r, idx) && !r.countAll
    requires AllSigned(j, r, idx) && OncePerValidator(j, r, idx + 1) && Tally(j, r, idx + 1) > r.needed
    ensures Accepts(j, r)
  {
    Enough(j, r, idx + 1);
  }

  lemma {:induction false} TooLittle(j: Job, r: Rule)
    requires Fitting(j, r) && Undecided(j, r, |j.commit.signatures|) && Tally(j, r, |j.commit.signatures|) <= r.needed
    ensures !Accepts(j, r)
  {
  }

  /** Moving on past a signature that is skipped, or valid and not yet enough. */
  lemma {:induction false} MoveOn(j: Job, r: Rule, idx: nat)
    requires Fitting(j, r) && idx < |j.commit.signatures| && Undecided(j, r, idx)
    requires Relevant(j, r, idx) && !r.countAll ==> Tally(j, r, idx + 1) <= r.needed
    ensures Undecided(j, r, idx + 1)
    ensures AllSigned(j, r, idx) && (Relevant(j, r, idx) ==> Signed(j, r, idx)) ==> AllSigned(j, r, idx + 1)
  {
  }

  lemma {:induction false} TallyStep(j: Job, r: Rule, idx: nat, v: nat)
    requires Fitting(j, r) && idx < |j.commit.signatures| && v < |j.vals|
    requires Relevant(j, r, idx) ==> Signer(j, r, idx) == Some(v)
    ensures Tally(j, r, idx + 1) == Tally(j, r, idx) +
      if Relevant(j, r, idx) && r.count(j.commit.signatures[idx]) then j.vals[v].power else 0
  {
  }

  /** What the lookup of one signature yields. */
  datatype Found = Skip | Twice(first: nat) | At(v: nat, seen: map<nat, nat>)

  method LookUp(j: Job, r: Rule, idx: nat, seen: map<nat, nat>) returns (f: Found)
    requires Fitting(j, r) && idx < |j.commit.signatures| && SeenOk(j, r, idx, seen) && OncePerValidator(j, r, idx)
    ensures f.Skip? <==> !Relevant(j, r, idx)
    ensures f.Skip? ==> OncePerValidator(j, r, idx + 1) && SeenOk(j, r, idx + 1, seen)
    ensures f.Twice? ==> !OncePerValidator(j, r, idx + 1) && SameSigner(j, r, f.first, idx)
    ensures f.At? ==> Signer(j, r, idx) == Some(f.v) && OncePerValidator(j, r, idx + 1) && SeenOk(j, r, idx + 1, f.seen)
  {
    var sig := j.commit.signatures[idx];
    if r.ignore(sig) { return Skip; }
    if r.byIndex {
      assert FirstTime(j, r, idx);
      return At(idx, seen);
    }
    var v := ChangeSet.Find(j.vals, sig.address);
    if v < 0 { return Skip; }
    if v in seen {
      assert !FirstTime(j, r, idx) by { assert Signer(j, r, seen[v]) == Signer(j, r, idx); }
      return Twice(seen[v]);
    }
    assert FirstTime(j, r, idx);
    f := At(v, seen[v := idx]);
  }

  // -------------------------------------------------------------- one by one

  /** One signature: stop with an answer, or go on with what has been seen. */
  datatype Single = Stop(err: Option<CommitError>) | GoOn(seen: map<nat, nat>, tallied: int)

  ghost predicate SoFar(j: Job, r: Rule, idx: nat, seen: map<nat, nat>, tallied: int)
    requires Fitting(j, r) && idx <= |j.commit.signatures|
  {
    && tallied == Tally(j, r, idx) && SeenOk(j, r, idx, seen) && OncePerValidator(j, r, idx)
    && AllSigned(j, r, idx) && Undecided(j, r, idx)
  }

  /** Everything before `i` is fine, and not enough. */
  ghost predicate FineBefore(j: Job, r: Rule, i: nat)
    requires Fitting(j, r) && i <= |j.commit.signatures|
  {
    AllSigned(j, r, i) && OncePerValidator(j, r, i) && Undecided(j, r, i)
  }

  /** The signatures at `a` and `i` are by one validator. */
  ghost predicate SameSigner(j: Job, r: Rule, a: nat, i: nat)
    requires Fitting(j, r)
  {
    a < i < |j.commit.signatures| && Relevant(j, r, a) && Relevant(j, r, i) && Signer(j, r, a) == Signer(j, r, i)
  }

  /** What an error of the one-by-one routine means: the first signature that is
      wrong or given twice, or all of them too little together. */
  ghost predicate SingleError(j: Job, r: Rule, e: CommitError)
    requires Fitting(j, r)
  {
    match e
    case WrongSignature(i) =>
      i < |j.commit.signatures| && FineBefore(j, r, i) && FirstTime(j, r, i) && Relevant(j, r, i) && !Signed(j, r, i)
    case DoubleVote(a, i) => SameSigner(j, r, a, i) && FineBefore(j, r, i)
    case NotEnough(got, needed) =>
      FineBefore(j, r, |j.commit.signatures|) && got == Tally(j, r, |j.commit.signatures|) <= needed == r.needed
    case _ => false
  }

  method VerifyOne(j: Job, r: Rule, idx: nat, seen: map<nat, nat>, tallied: int) returns (s: Single)
    requires Fitting(j, r) && idx < |j.commit.signatures| && SoFar(j, r, idx, seen, tallied)
    ensures s.GoOn? ==> SoFar(j, r, idx + 1, s.seen, s.tallied)
    ensures s.Stop? ==> (s.err.None? <==> Accepts(j, r)) && (s.err.Some? ==> !Clean(j, r) && SingleError(j, r, s.err.value))
  {
    s := GoOn(seen, tallied);
    var f := LookUp(j, r, idx, seen);
    if f.Twice? {
      Spoilt(j, r, idx);
      return Stop(Some(DoubleVote(f.first, idx)));
    }
    if f.At? {
      if !ValidEntry(j.crypto, EntryAt(j, idx, f.v)) {
        BadSignature(j, r, idx);
        return Stop(Some(WrongSignature(idx)));
      }
      s := GoOn(f.seen, if r.count(j.commit.signatures[idx]) then tallied + j.vals[f.v].power else tallied);
      TallyStep(j, r, idx, f.v);
      if !r.countAll && s.tallied > r.needed {
        StopEarly(j, r, idx);
        return Stop(None);
      }
    }
    MoveOn(j, r, idx);
  }

  method VerifyCommitSingle(j: Job, r: Rule) returns (err: Option<CommitError>)
    requires Fitting(j, r)
    ensures err.None? <==> Accepts(j, r)
    ensures err.Some? ==> SingleError(j, r, err.value) && (Clean(j, r) ==> err.value.NotEnough?)
  {
    var seen, tallied := map[], 0;
    for idx := 0 to |j.commit.signatures|
      invariant SoFar(j, r, idx, seen, tallied)
    {
      var s := VerifyOne(j, r, idx, seen, tallied);
      if s.Stop? { return s.err; }
      seen, tallied := s.seen, s.tallied;
    }
    if tallied <= r.needed {
      TooLittle(j, r);
      return Some(NotEnough(tallied, r.needed));
    }
    Enough(j, r, |j.commit.signatures|);
    err := None;
  }

  // ------------------------------------------------------------------- batch

  ghost predicate AllValid(c: Crypto, es: seq<Entry>) {
    forall n :: 0 <= n < |es| ==> ValidEntry(c, es[n])
  }

  /** The batch verifier takes what the keys accept, and decides as they do. */
  ghost predicate Faithful(b: Batch, j: Job) {
    && (forall v, msg, signature :: 0 <= v < |j.vals| && j.crypto.verify(j.vals[v].pubKey, msg, signature) ==>
          b.add(j.vals[v].pubKey, msg, signature))
    && (forall es :: Decides(j.crypto, es, b.verify(es)))
  }

  ghost predicate Decides(c: Crypto, es: seq<Entry>, answer: (bool, seq<bool>)) {
    && (es != [] ==> (answer.0 <==> AllValid(c, es)))
    && (!answer.0 ==> |answer.1| == |es| && forall n :: 0 <= n < |es| ==> answer.1[n] == ValidEntry(c, es[n]))
  }

  /** The entries of the relevant signatures before `k`, with their positions. */
  ghost predicate Gathered(j: Job, r: Rule, k: nat, entries: seq<Entry>, idxs: seq<nat>)
    requires Fitting(j, r) && k <= |j.commit.signatures|
  {
    && |entries| == |idxs|
    && (forall n :: 0 <= n < |idxs| ==>
          idxs[n] < k && Relevant(j, r, idxs[n]) && entries[n] == EntryAt(j, idxs[n], Signer(j, r, idxs[n]).value))
    && (forall i :: 0 <= i < k && Relevant(j, r, i) ==> i in idxs)
    && (forall m, n {:trigger idxs[m], idxs[n]} :: 0 <= m < n < |idxs| ==> idxs[m] < idxs[n])
  }

  lemma {:induction false} GatheredValid(j: Job, r: Rule, k: nat, entries: seq<Entry>, idxs: seq<nat>)
    requires Fitting(j, r) && k <= |j.commit.signatures| && Gathered(j, r, k, entries, idxs)
    ensures AllValid(j.crypto, entries) <==> AllSigned(j, r, k)
  {
    if AllSigned(j, r, k) {
      forall n | 0 <= n < |entries| ensures ValidEntry(j.crypto, entries[n]) {
        assert Signed(j, r, idxs[n]);
      }
    }
    if AllValid(j.crypto, entries) {
      forall i | 0 <= i < k && Relevant(j, r, i) ensures Signed(j, r, i) {
        var n :| 0 <= n < |idxs| && idxs[n] == i;
        assert ValidEntry(j.crypto, entries[n]);
      }
    }
  }

  lemma {:induction false} GatherNext(j: Job, r: Rule, k: nat, entries: seq<Entry>, idxs: seq<nat>)
    requires Fitting(j, r) && k < |j.commit.signatures| && Gathered(j, r, k, entries, idxs)
    ensures !Relevant(j, r, k) ==> Gathered(j, r, k + 1, entries, idxs)
    ensures Relevant(j, r, k) ==>
      Gathered(j, r, k + 1, entries + [EntryAt(j, k, Signer(j, r, k).value)], idxs + [k])
  {
  }

  /** What gathering ends with: an error, or a place to stop and the entries to
      verify. */
  datatype Gathering = Failed(error: CommitError) | Gathering(k: nat, tallied: int, entries: seq<Entry>, idxs: seq<nat>)

  /** `g` is the first place to stop at. */
  ghost predicate IsFirstStop(j: Job, r: Rule, g: Gathering)
    requires Fitting(j, r) && g.Gathering?
  {
    && g.k <= |j.commit.signatures| && Gathered(j, r, g.k, g.entries, g.idxs) && g.tallied == Tally(j, r, g.k)
    && OncePerValidator(j, r, g.k) && MayStop(j, r, g.k)
    && (forall k :: 0 <= k < g.k && MayStop(j, r, k) ==> Tally(j, r, k) <= r.needed)
    && (g.k < |j.commit.signatures| ==> g.tallied > r.needed)
  }

  lemma {:induction false} FirstStopHere(j: Job, r: Rule, g: Gathering)
    requires Fitting(j, r) && g.Gathering? && g.k <= |j.commit.signatures|
    requires Gathered(j, r, g.k, g.entries, g.idxs) && g.tallied == Tally(j, r, g.k) && OncePerValidator(j, r, g.k)
    requires if g.k == |j.commit.signatures| then Undecided(j, r, g.k) || (g.k > 0 && Undecided(j, r, g.k - 1))
             else MayStop(j, r, g.k) && Undecided(j, r, g.k - 1) && g.tallied > r.needed
    ensures IsFirstStop(j, r, g)
  {
  }

  /** What an error while gathering means: the first signature given twice, or not
      taken by the batch verifier. */
  ghost predicate GatherError(b: Batch, j: Job, r: Rule, e: CommitError)
    requires Fitting(j, r)
  {
    match e
    case DoubleVote(a, i) => SameSigner(j, r, a, i) && OncePerValidator(j, r, i) && Undecided(j, r, i)
    case BadEntry => exists i: nat :: NotTaken(b, j, r, i) && OncePerValidator(j, r, i + 1) && Undecided(j, r, i)
    case _ => false
  }

  ghost predicate NotTaken(b: Batch, j: Job, r: Rule, i: nat)
    requires Fitting(j, r)
  {
    && i < |j.commit.signatures| && Relevant(j, r, i)
    && var e := EntryAt(j, i, Signer(j, r, i).value); !b.add(e.key, e.msg, e.signature)
  }

  ghost predicate WeightIsReached(j: Job, r: Rule)
    requires Fitting(j, r)
  {
    exists k :: 0 <= k <= |j.commit.signatures| && MayStop(j, r, k) && Tally(j, r, k) > r.needed
  }

  /** Too little power signed, and nothing else is found to be wrong. */
  ghost predicate FallsShort(b: Batch, j: Job, r: Rule)
    requires Fitting(j, r)
  {
    var n := |j.commit.signatures|;
    && OncePerValidator(j, r, n) && Undecided(j, r, n) && Tally(j, r, n) <= r.needed
    && if ShouldBatchVerify(b, j) then forall i :: 0 <= i < n ==> !NotTaken(b, j, r, i) else AllSigned(j, r, n)
  }

  lemma {:induction false} ShortIsNotReached(b: Batch, j: Job, r: Rule)
    requires Fitting(j, r) && FallsShort(b, j, r)
    ensures !WeightIsReached(j, r) && !Accepts(j, r)
  {
  }

  /** What an error of the batch routine means: weight comes before signatures. */
  ghost predicate BatchError(b: Batch, j: Job, r: Rule, e: CommitError)
    requires Fitting(j, r)
  {
    match e
    case NotEnough(got, needed) =>
      var n := |j.commit.signatures|;
      FallsShort(b, j, r) && got == Tally(j, r, n) && needed == r.needed
    case WrongSignature(i) => IsFirstWrong(j, r, i) && WeightIsReached(j, r)
    case Bug => r.needed < 0 && !Decided(b, j, r)
    case _ => GatherError(b, j, r, e)
  }

  /** The local variables of the loop. */
  datatype Scan = Scan(seen: map<nat, nat>, tallied: int, entries: seq<Entry>, idxs: seq<nat>)

  ghost predicate Scanning(b: Batch, j: Job, r: Rule, idx: nat, s: Scan)
    requires Fitting(j, r) && idx <= |j.commit.signatures|
  {
    && s.tallied == Tally(j, r, idx) && SeenOk(j, r, idx, s.seen) && OncePerValidator(j, r, idx)
    && Gathered(j, r, idx, s.entries, s.idxs) && Undecided(j, r, idx)
    && forall i :: 0 <= i < idx ==> !NotTaken(b, j, r, i)
  }

  /** A relevant signature joins the batch. */
  method AddEntry(b: Batch, j: Job, r: Rule, idx: nat, v: nat, s: Scan) returns (ok: bool, t: Scan)
    requires Fitting(j, r) && Faithful(b, j) && idx < |j.commit.signatures|
    requires s.tallied == Tally(j, r, idx) && Gathered(j, r, idx, s.entries, s.idxs)
    requires Relevant(j, r, idx) && Signer(j, r, idx) == Some(v)
    ensures !ok ==> !Signed(j, r, idx) && NotTaken(b, j, r, idx)
    ensures ok ==> t.tallied == Tally(j, r, idx + 1) && Gathered(j, r, idx + 1, t.entries, t.idxs) && t.seen == s.seen
    ensures ok ==> !NotTaken(b, j, r, idx)
  {
    var e := EntryAt(j, idx, v);
    ok := b.add(e.key, e.msg, e.signature);
    t := s.(entries := s.entries + [e], idxs := s.idxs + [idx]);
    if r.count(j.commit.signatures[idx]) { t := t.(tallied := s.tallied + j.vals[v].power); }
    GatherNext(j, r, idx, s.entries, s.idxs);
    TallyStep(j, r, idx, v);
  }

  method GatherOne(b: Batch, j: Job, r: Rule, idx: nat, s: Scan) returns (done: Option<Gathering>, t: Scan)
    requires Fitting(j, r) && Faithful(b, j) && idx < |j.commit.signatures| && Scanning(b, j, r, idx, s)
    ensures done.None? ==> Scanning(b, j, r, idx + 1, t)
    ensures done.Some? && done.value.Failed? ==> !Accepts(j, r) && !Clean(j, r) && GatherError(b, j, r, done.value.error)
    ensures done.Some? && done.value.Gathering? ==> IsFirstStop(j, r, done.value) && done.value.tallied > r.needed
  {
    t := s;
    var f := LookUp(j, r, idx, s.seen);
    if f.Twice? {
      Spoilt(j, r, idx);
      return Some(Failed(DoubleVote(f.first, idx))), t;
    }
    if f.At? {
      var ok;
      ok, t := AddEntry(b, j, r, idx, f.v, s.(seen := f.seen));
      if !ok {
        BadSignature(j, r, idx);
        return Some(Failed(BadEntry)), t;
      }
      if !r.countAll && t.tallied > r.needed {
        var g := Gathering(idx + 1, t.tallied, t.entries, t.idxs);
        FirstStopHere(j, r, g);
        return Some(g), t;
      }
    } else {
      GatherNext(j, r, idx, s.entries, s.idxs);
    }
    MoveOn(j, r, idx);
    done := None;
  }

  method Gather(b: Batch, j: Job, r: Rule) returns (g: Gathering)
    requires Fitting(j, r) && Faithful(b, j)
    ensures g.Failed? ==> !Accepts(j, r) && !Clean(j, r) && GatherError(b, j, r, g.error)
    ensures g.Gathering? ==> IsFirstStop(j, r, g)
    ensures g.Gathering? && g.tallied <= r.needed ==> forall i :: 0 <= i < |j.commit.signatures| ==> !NotTaken(b, j, r, i)
  {
    var s := Scan(map[], 0, [], []);
    for idx := 0 to |j.commit.signatures|
      invariant Scanning(b, j, r, idx, s)
    {
      var done;
      done, s := GatherOne(b, j, r, idx, s);
      if done.Some? { return done.value; }
    }
    g := Gathering(|j.commit.signatures|, s.tallied, s.entries, s.idxs);
    FirstStopHere(j, r, g);
  }

  lemma {:induction false} FirstStopDecides(j: Job, r: Rule, g: Gathering)
    requires Fitting(j, r) && g.Gathering? && IsFirstStop(j, r, g)
    ensures Accepts(j, r) <==> g.tallied > r.needed && AllValid(j.crypto, g.entries)
    ensures Clean(j, r) ==> AllValid(j.crypto, g.entries)
  {
    GatheredValid(j, r, g.k, g.entries, g.idxs);
    if g.tallied > r.needed && AllValid(j.crypto, g.entries) {
      Enough(j, r, g.k);
    } else {
      forall k | 0 <= k <= |j.commit.signatures| ensures !Settles(j, r, k) {
      }
    }
  }

  /** Something counted, so something was gathered. */
  lemma {:induction false} TallyNeedsEntries(j: Job, r: Rule, k: nat)
    requires Fitting(j, r) && k <= |j.commit.signatures| && Tally(j, r, k) != 0
    ensures exists i :: 0 <= i < k && Relevant(j, r, i)
  {
    if !Relevant(j, r, k - 1) { TallyNeedsEntries(j, r, k - 1); }
  }

  const BATCH_VERIFY_THRESHOLD := 2

  predicate ShouldBatchVerify(b: Batch, j: Job) {
    |j.commit.signatures| >= BATCH_VERIFY_THRESHOLD && b.supports(j.proposer)
  }

  ghost predicate AnyRelevant(j: Job, r: Rule)
    requires Fitting(j, r)
  {
    exists i :: 0 <= i < |j.commit.signatures| && Relevant(j, r, i)
  }

  /** There is something to verify, or the batch verifier is content with nothing;
      one by one, nothing is fine. */
  ghost predicate Decided(b: Batch, j: Job, r: Rule)
    requires Fitting(j, r)
  {
    !ShouldBatchVerify(b, j) || AnyRelevant(j, r) || b.verify([]).0
  }

  lemma {:induction false} EntriesAreRelevant(j: Job, r: Rule, g: Gathering)
    requires Fitting(j, r) && g.Gathering? && IsFirstStop(j, r, g)
    ensures g.entries != [] <==> AnyRelevant(j, r)
  {
    if g.entries != [] { assert Relevant(j, r, g.idxs[0]); }
  }

  /** Only a negative threshold is met without looking at a signature. */
  lemma {:induction false} AcceptedIsDecided(b: Batch, j: Job, r: Rule)
    requires Fitting(j, r) && Accepts(j, r) && r.needed >= 0
    ensures Decided(b, j, r)
  {
    var k :| 0 <= k <= |j.commit.signatures| && Settles(j, r, k);
    TallyNeedsEntries(j, r, k);
  }

  /** Accepts what the one-by-one routine accepts, except that with no signature to
      look at and a negative threshold the verifier's answer for an empty batch
      decides; the "BUG" error means exactly that it said no. */
  method VerifyCommitBatch(b: Batch, j: Job, r: Rule) returns (err: Option<CommitError>)
    requires Fitting(j, r) && Faithful(b, j)
    ensures err == Some(Unsupported) <==> |j.commit.signatures| < 2 || !b.supports(j.proposer)
    ensures ShouldBatchVerify(b, j) ==> (err.None? <==> Accepts(j, r) && Decided(b, j, r))
    ensures ShouldBatchVerify(b, j) ==> (err == Some(Bug) <==> r.needed < 0 && !Decided(b, j, r))
    ensures ShouldBatchVerify(b, j) && err.Some? ==> BatchError(b, j, r, err.value)
    ensures ShouldBatchVerify(b, j) && err.Some? && Clean(j, r) ==> err.value.NotEnough? || err.value.Bug?
  {
    if !b.supports(j.proposer) || |j.commit.signatures| < BATCH_VERIFY_THRESHOLD { return Some(Unsupported); }
    var g := Gather(b, j, r);
    if g.Failed? { return Some(g.error); }
    if r.needed >= 0 && Accepts(j, r) { AcceptedIsDecided(b, j, r); }
    if g.tallied != 0 { TallyNeedsEntries(j, r, g.k); }
    FirstStopDecides(j, r, g);
    EntriesAreRelevant(j, r, g);
    if g.tallied <= r.needed {
      assert g.k == |j.commit.signatures|;
      return Some(NotEnough(g.tallied, r.needed));
    }
    err := VerifyGathered(b, j, r, g);
  }

  /** Enough has been gathered; whether it is valid is for the batch verifier to say. */
  method VerifyGathered(b: Batch, j: Job, r: Rule, g: Gathering) returns (err: Option<CommitError>)
    requires Fitting(j, r) && Faithful(b, j) && g.Gathering? && IsFirstStop(j, r, g)
    ensures err.None? <==> b.verify(g.entries).0
    ensures err.Some? && g.entries == [] ==> err == Some(Bug)
    ensures err.Some? && g.entries != [] ==> err.value.WrongSignature? && IsFirstWrong(j, r, err.value.idx)
  {
    var (ok, validSigs) := b.verify(g.entries);
    if ok { return None; }
    assert Decides(j.crypto, g.entries, (ok, validSigs));
    err := FirstInvalid(g.idxs, validSigs);
    if g.entries != [] {
      var n :| 0 <= n < |validSigs| && !validSigs[n] && (forall m :: 0 <= m < n ==> validSigs[m])
               && err == Some(WrongSignature(g.idxs[n]));
      FirstWrong(j, r, g, validSigs, n);
    }
  }

  /** The signature at `i` is wrong, those before are not, and they are not enough. */
  ghost predicate IsFirstWrong(j: Job, r: Rule, i: nat)
    requires Fitting(j, r)
  {
    i < |j.commit.signatures| && Relevant(j, r, i) && !Signed(j, r, i) && AllSigned(j, r, i) && Undecided(j, r, i)
  }

  lemma {:induction false} FirstWrong(j: Job, r: Rule, g: Gathering, valid: seq<bool>, n: nat)
    requires Fitting(j, r) && g.Gathering? && IsFirstStop(j, r, g)
    requires n < |valid| == |g.entries| && !valid[n] && forall m :: 0 <= m < n ==> valid[m]
    requires forall m :: 0 <= m < |valid| ==> valid[m] == ValidEntry(j.crypto, g.entries[m])
    ensures IsFirstWrong(j, r, g.idxs[n])
  {
    forall i | 0 <= i < g.idxs[n] && Relevant(j, r, i) ensures Signed(j, r, i) {
      var m :| 0 <= m < |g.idxs| && g.idxs[m] == i;
      assert valid[m];
    }
  }

  /** The first invalid signature of a batch. */
  method FirstInvalid(idxs: seq<nat>, valid: seq<bool>) returns (err: Option<CommitError>)
    requires |valid| == |idxs|
    ensures err.Some?
    ensures valid == [] ==> err == Some(Bug)
    ensures (exists n :: 0 <= n < |valid| && !valid[n]) ==>
      exists n :: 0 <= n < |valid| && !valid[n] && (forall m :: 0 <= m < n ==> valid[m]) &&
        err == Some(WrongSignature(idxs[n]))
  {
    for n := 0 to |valid|
      invariant forall m :: 0 <= m < n ==> valid[m]
    {
      if !valid[n] { return Some(WrongSignature(idxs[n])); }
    }
    err := Some(Bug);
  }

  // ----------------------------------------------------- the three verifiers

  /** ValidatorSet.ValidateBasic: no negative power. */
  ghost predicate Powered(vs: seq<Validator>) {
    forall i :: 0 <= i < |vs| ==> vs[i].power >= 0
  }

  lemma {:induction false} TotalOfPowered(vs: seq<Validator>)
    requires Powered(vs)
    ensures 0 <= Total(vs)
  {
    MaskOfPowers(Powers(vs), seq(|vs|, i => true), |vs|);
  }

  /** verifyBasicValsAndCommit. */
  predicate BelongsTo(j: Job, blockID: BlockID, height: int) {
    |j.vals| == |j.commit.signatures| && height == j.commit.height && blockID == j.commit.blockID
  }

  ghost predicate BasicErrors(j: Job, blockID: BlockID, height: int, err: Option<CommitError>) {
    && (err == Some(WrongSize) <==> |j.vals| != |j.commit.signatures|)
    && (err == Some(WrongHeight) <==> |j.vals| == |j.commit.signatures| && height != j.commit.height)
    && (err == Some(WrongBlock) <==>
          |j.vals| == |j.commit.signatures| && height == j.commit.height && blockID != j.commit.blockID)
  }

  ghost predicate VerifyError(b: Batch, j: Job, r: Rule, e: CommitError)
    requires Fitting(j, r)
  {
    if ShouldBatchVerify(b, j) then BatchError(b, j, r, e) else SingleError(j, r, e)
  }

  lemma {:induction false} TallyNonneg(j: Job, r: Rule, k: nat)
    requires Fitting(j, r) && k <= |j.commit.signatures| && Powered(j.vals)
    ensures Tally(j, r, k) >= 0
  {
    if k > 0 { TallyNonneg(j, r, k - 1); }
  }

  /** Shortage of power is reported if nothing else is wrong. */
  lemma {:induction false} NotEnoughIs(b: Batch, j: Job, r: Rule, e: CommitError)
    requires Fitting(j, r) && VerifyError(b, j, r, e) && FallsShort(b, j, r) && Powered(j.vals)
    ensures e.NotEnough?
  {
    ShortIsNotReached(b, j, r);
    TallyNonneg(j, r, |j.commit.signatures|);
    assert e.DoubleVote? && e.second < |j.commit.signatures| ==> FirstTime(j, r, e.second);
  }

  /** In a batch if that pays and the keys allow it, and one by one otherwise. */
  method VerifyByRule(b: Batch, j: Job, r: Rule) returns (err: Option<CommitError>)
    requires Fitting(j, r) && Faithful(b, j) && Powered(j.vals)
    ensures err.None? <==> Accepts(j, r) && Decided(b, j, r)
    ensures err.Some? ==> VerifyError(b, j, r, err.value)
    ensures err.Some? && err.value.NotEnough? <==> FallsShort(b, j, r)
    ensures err == Some(Bug) <==> r.needed < 0 && !Decided(b, j, r)
    ensures err.Some? && Clean(j, r) ==> err.value.NotEnough? || err.value.Bug?
  {
    if ShouldBatchVerify(b, j) {
      err := VerifyCommitBatch(b, j, r);
    } else {
      err := VerifyCommitSingle(j, r);
    }
    if FallsShort(b, j, r) {
      ShortIsNotReached(b, j, r);
      NotEnoughIs(b, j, r, err.value);
    }
  }

  function FullRule(vs: seq<Validator>): Rule {
    Rule(Total(vs) * 2 / 3, (c: CommitSig) => c.flag.Absent?, (c: CommitSig) => c.flag.ForBlock?, true, true)
  }

  function LightRule(vs: seq<Validator>): Rule {
    Rule(Total(vs) * 2 / 3, (c: CommitSig) => !c.flag.ForBlock?, (c: CommitSig) => true, false, true)
  }

  function TrustRule(needed: int): Rule {
    Rule(needed, (c: CommitSig) => !c.flag.ForBlock?, (c: CommitSig) => true, false, false)
  }

  /** The signature at `i` is good for the validator at `i`. */
  predicate SignedAt(j: Job, i: nat)
    requires i < |j.commit.signatures| == |j.vals|
  {
    ValidEntry(j.crypto, EntryAt(j, i, i))
  }

  function ForBlockMask(c: Commit): seq<bool> {
    seq(|c.signatures|, i requires 0 <= i < |c.signatures| => c.signatures[i].flag.ForBlock?)
  }

  /** Every signature present is valid, and those for the block weigh more than
      two thirds. */
  ghost predicate Committed(j: Job)
    requires |j.vals| == |j.commit.signatures|
  {
    && (forall i :: 0 <= i < |j.vals| && !j.commit.signatures[i].flag.Absent? ==> SignedAt(j, i))
    && 3 * MaskSum(Powers(j.vals), ForBlockMask(j.commit), |j.vals|) > 2 * Total(j.vals)
  }

  /** Some prefix of the signatures for the block is valid and weighs more than
      two thirds. */
  ghost predicate LightCommitted(j: Job)
    requires |j.vals| == |j.commit.signatures|
  {
    exists k :: 0 <= k <= |j.vals| && LightPrefix(j, k)
  }

  ghost predicate LightPrefix(j: Job, k: nat)
    requires k <= |j.vals| == |j.commit.signatures|
  {
    && (forall i :: 0 <= i < k && j.commit.signatures[i].flag.ForBlock? ==> SignedAt(j, i))
    && 3 * MaskSum(Powers(j.vals), ForBlockMask(j.commit), k) > 2 * Total(j.vals)
  }

  lemma {:induction false} TallyByIndex(j: Job, r: Rule, k: nat)
    requires k <= |j.vals| == |j.commit.signatures| && (r == FullRule(j.vals) || r == LightRule(j.vals))
    ensures Tally(j, r, k) == MaskSum(Powers(j.vals), ForBlockMask(j.commit), k)
    ensures OncePerValidator(j, r, k)
  {
    if k > 0 {
      TallyByIndex(j, r, k - 1);
      assert FirstTime(j, r, k - 1);
    }
  }

  lemma {:induction false} FullAccepts(j: Job)
    requires |j.vals| == |j.commit.signatures|
    ensures Accepts(j, FullRule(j.vals)) <==> Committed(j)
  {
    var r := FullRule(j.vals);
    TallyByIndex(j, r, |j.vals|);
    assert forall i :: 0 <= i < |j.vals| ==> (Relevant(j, r, i) <==> !j.commit.signatures[i].flag.Absent?);
    assert forall i :: 0 <= i < |j.vals| && Relevant(j, r, i) ==> (Signed(j, r, i) <==> SignedAt(j, i));
    if Committed(j) {
      assert Settles(j, r, |j.vals|);
    }
  }

  lemma {:induction false} LightAccepts(j: Job)
    requires |j.vals| == |j.commit.signatures| && Powered(j.vals)
    ensures Accepts(j, LightRule(j.vals)) <==> LightCommitted(j)
  {
    var r := LightRule(j.vals);
    forall k | 0 <= k <= |j.vals|
      ensures LightPrefix(j, k) <==> AllSigned(j, r, k) && Tally(j, r, k) > r.needed
      ensures OncePerValidator(j, r, k)
    {
      LightPrefixIs(j, k);
      TallyByIndex(j, r, k);
    }
    if LightCommitted(j) {
      var k :| 0 <= k <= |j.vals| && LightPrefix(j, k);
      var m := LastRelevant(j, k);
      assert Settles(j, r, m);
    }
  }

  lemma {:induction false} LightPrefixIs(j: Job, k: nat)
    requires k <= |j.vals| == |j.commit.signatures|
    ensures var r := LightRule(j.vals); LightPrefix(j, k) <==> AllSigned(j, r, k) && Tally(j, r, k) > r.needed
  {
    var r := LightRule(j.vals);
    TallyByIndex(j, r, k);
    assert forall i :: 0 <= i < k ==> (Relevant(j, r, i) <==> j.commit.signatures[i].flag.ForBlock?);
    assert forall i :: 0 <= i < k && Relevant(j, r, i) ==> (Signed(j, r, i) <==> SignedAt(j, i));
  }

  /** Prefixes that weigh enough end, after trimming, in a relevant signature. */
  lemma {:induction false} LastRelevant(j: Job, k: nat) returns (m: nat)
    requires k <= |j.vals| == |j.commit.signatures| && Powered(j.vals)
    requires var r := LightRule(j.vals); AllSigned(j, r, k) && Tally(j, r, k) > r.needed
    ensures m <= k
    ensures var r := LightRule(j.vals); AllSigned(j, r, m) && Tally(j, r, m) > r.needed && MayStop(j, r, m)
  {
    var r := LightRule(j.vals);
    TotalOfPowered(j.vals);
    if MayStop(j, r, k) {
      m := k;
    } else {
      assert k > 0;
      m := LastRelevant(j, k - 1);
    }
  }

  /** VerifyCommit. */
  method VerifyCommit(b: Batch, j: Job, blockID: BlockID, height: int) returns (err: Option<CommitError>)
    requires Powered(j.vals) && Faithful(b, j)
    ensures err.None? <==> BelongsTo(j, blockID, height) && Committed(j)
    ensures BasicErrors(j, blockID, height, err)
    ensures err.Some? && BelongsTo(j, blockID, height) ==> VerifyError(b, j, FullRule(j.vals), err.value)
  {
    if |j.vals| != |j.commit.signatures| { return Some(WrongSize); }
    if height != j.commit.height { return Some(WrongHeight); }
    if blockID != j.commit.blockID { return Some(WrongBlock); }
    TotalOfPowered(j.vals);
    FullAccepts(j);
    var r := FullRule(j.vals);
    if Accepts(j, r) { AcceptedIsDecided(b, j, r); }
    err := VerifyByRule(b, j, r);
  }

  /** VerifyCommitLight. */
  method VerifyCommitLight(b: Batch, j: Job, blockID: BlockID, height: int) returns (err: Option<CommitError>)
    requires Powered(j.vals) && Faithful(b, j)
    ensures err.None? <==> BelongsTo(j, blockID, height) && LightCommitted(j)
    ensures BasicErrors(j, blockID, height, err)
    ensures err.Some? && BelongsTo(j, blockID, height) ==> VerifyError(b, j, LightRule(j.vals), err.value)
  {
    if |j.vals| != |j.commit.signatures| { return Some(WrongSize); }
    if height != j.commit.height { return Some(WrongHeight); }
    if blockID != j.commit.blockID { return Some(WrongBlock); }
    TotalOfPowered(j.vals);
    LightAccepts(j);
    var r := LightRule(j.vals);
    if Accepts(j, r) { AcceptedIsDecided(b, j, r); }
    err := VerifyByRule(b, j, r);
  }

  /** What VerifyCommit accepts, VerifyCommitLight accepts. */
  lemma {:induction false} FullImpliesLight(j: Job)
    requires |j.vals| == |j.commit.signatures| && Committed(j)
    ensures LightCommitted(j)
  {
    assert LightPrefix(j, |j.vals|);
  }

  /** The validators behind a tally. */
  lemma {:induction false} Signers(j: Job, r: Rule, k: nat) returns (m: seq<bool>)
    requires Fitting(j, r) && k <= |j.commit.signatures| && OncePerValidator(j, r, k)
    ensures |m| == |j.vals| && MaskSum(Powers(j.vals), m, |j.vals|) == Tally(j, r, k)
    ensures forall v :: 0 <= v < |m| && m[v] ==> exists i :: 0 <= i < k && IsSigner(j, r, i, v)
  {
    if k == 0 {
      m := seq(|j.vals|, v => false);
      NothingMarked(Powers(j.vals), m, |j.vals|);
    } else {
      m := Signers(j, r, k - 1);
      if Relevant(j, r, k - 1) && r.count(j.commit.signatures[k - 1]) {
        var v := Signer(j, r, k - 1).value;
        assert FirstTime(j, r, k - 1);
        MaskGrow(Powers(j.vals), m, |j.vals|, v);
        m := m[v := true];
        assert IsSigner(j, r, k - 1, v);
      }
    }
  }

  /** The signature at `i` counts for validator `v`. */
  ghost predicate IsSigner(j: Job, r: Rule, i: nat, v: nat)
    requires Fitting(j, r)
  {
    && i < |j.commit.signatures| && Relevant(j, r, i) && Signer(j, r, i) == Some(v)
    && r.count(j.commit.signatures[i])
  }

  /** A fraction of two uint64 numbers. */
  datatype Fraction = Fraction(num: nat, den: nat)

  predicate IsFraction(f: Fraction) { f.num <= MAX_UINT64 && f.den <= MAX_UINT64 }

  /** The product in the threshold, and whether it overflows. */
  function Scaled(total: int, level: Fraction): (int, bool)
    requires Fits(total)
  {
    SafeMul(total, Wrap(level.num))
  }

  /** The threshold, with the casts of both numbers to int64. */
  function Threshold(total: int, level: Fraction): int
    requires Fits(total) && IsFraction(level) && level.den != 0
  {
    assert Wrap(level.den) != 0;
    Quot(Scaled(total, level).0, Wrap(level.den))
  }

  /** VerifyCommitLightTrusting: the set need not be the one of the commit, so
      validators are looked up by address. */
  method VerifyCommitLightTrusting(b: Batch, j: Job, level: Fraction) returns (err: Option<CommitError>)
    requires Powered(j.vals) && Faithful(b, j) && |j.vals| > 0 && Fits(Total(j.vals)) && IsFraction(level)
    ensures err == Some(ZeroDenominator) <==> level.den == 0
    ensures err == Some(Overflow) <==> level.den != 0 && Scaled(Total(j.vals), level).1
    ensures level.den != 0 && !Scaled(Total(j.vals), level).1 ==>
      var r := TrustRule(Threshold(Total(j.vals), level));
      && (err.None? <==> Accepts(j, r) && Decided(b, j, r))
      && (err.Some? && Clean(j, r) && (r.needed >= 0 || Decided(b, j, r)) ==> err.value.NotEnough?)
      && (r.needed < 0 && !Decided(b, j, r) ==> err == Some(Bug))
      && (err.Some? ==> VerifyError(b, j, r, err.value))
      && (err.Some? && err.value.NotEnough? <==> FallsShort(b, j, r))
  {
    if level.den == 0 { return Some(ZeroDenominator); }
    var (product, overflow) := SafeMul(Total(j.vals), Wrap(level.num));
    if overflow { return Some(Overflow); }
    assert Wrap(level.den) != 0;
    var r := TrustRule(Quot(product, Wrap(level.den)));
    err := VerifyByRule(b, j, r);
  }
}
