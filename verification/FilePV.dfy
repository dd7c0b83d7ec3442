/** The double-sign guard of a validator key (privval/file.go).  Sign bytes are
    the canonical records they encode; a crash may hit before or after the last
    sign state is saved, and a restart reloads what was saved. */
module FilePV {
  import opened Basics
  import opened Lists
  import opened Votes

  datatype Proposal = Proposal(height: int, round: int, polRound: int, blockID: BlockID, timestamp: int, signature: Bytes)

  datatype CanonicalProposal = CanonicalProposal(height: int, round: int, polRound: int, blockID: Option<BlockID>,
                                                 timestamp: int, chainID: string)

  datatype Message = VoteMessage(vote: Vote) | ProposalMessage(proposal: Proposal)

  datatype Signable = VoteBytes(vote: CanonicalVote) | ProposalBytes(proposal: CanonicalProposal)

  function ProposalSignBytes(chainID: string, p: Proposal): CanonicalProposal {
    CanonicalProposal(p.height, p.round, p.polRound, if IsZero(p.blockID) then None else Some(p.blockID),
                      p.timestamp, chainID)
  }

  /** A signature is for one chain and proposal. */
  lemma {:induction false} ProposalBytesBind(chainID: string, p: Proposal, chainID': string, p': Proposal)
    ensures ProposalSignBytes(chainID, p) == ProposalSignBytes(chainID', p') <==>
      chainID == chainID' && p.(signature := []) == p'.(signature := [])
  {
  }

  function BytesOf(chainID: string, m: Message): Signable {
    match m
    case VoteMessage(v) => VoteBytes(SignBytes(chainID, v))
    case ProposalMessage(p) => ProposalBytes(ProposalSignBytes(chainID, p))
  }

  const STEP_NONE := 0
  const STEP_PROPOSE := 1
  const STEP_PREVOTE := 2
  const STEP_PRECOMMIT := 3

  /** Height, round and step, ordered lexicographically. */
  datatype HRS = HRS(height: int, round: int, step: int)

  predicate Before(a: HRS, b: HRS) {
    || a.height < b.height
    || (a.height == b.height && a.round < b.round)
    || (a.height == b.height && a.round == b.round && a.step < b.step)
  }

  /** voteToStep; the source panics on other vote types. */
  function VoteToStep(kind: int): int { if kind == PREVOTE then STEP_PREVOTE else STEP_PRECOMMIT }

  predicate Known(m: Message) { m.VoteMessage? ==> m.vote.kind == PREVOTE || m.vote.kind == PRECOMMIT }

  /** The height, round and step that sign bytes are for. */
  function At(b: Signable): HRS {
    match b
    case VoteBytes(v) => HRS(v.height, v.round, VoteToStep(v.kind))
    case ProposalBytes(p) => HRS(p.height, p.round, STEP_PROPOSE)
  }

  /** FilePVLastSignState. */
  datatype LastSignState = LastSignState(height: int, round: int, step: int, signature: Option<Bytes>,
                                         signBytes: Option<Signable>)

  const NOTHING_SIGNED := LastSignState(0, 0, STEP_NONE, None, None)

  function Last(s: LastSignState): HRS { HRS(s.height, s.round, s.step) }

  /** Sign bytes are for a proposal, a prevote or a precommit. */
  predicate KnownBytes(b: Signable) { b.VoteBytes? ==> b.vote.kind == PREVOTE || b.vote.kind == PRECOMMIT }

  /** Sign bytes are kept with their own step and with a signature. */
  ghost predicate Consistent(s: LastSignState) {
    && (s.signBytes.Some? <==> s.signature.Some?)
    && (s.signBytes.Some? ==> KnownBytes(s.signBytes.value))
    && (s.signBytes.Some? ==> At(s.signBytes.value) == Last(s))
    && (s.signBytes.None? ==> s.step == STEP_NONE)
  }

  datatype SignError = Regression | NoSignBytes | ConflictingData | KeyFailed

  /** CheckHRS: whether the last signature is to be reused. */
  function CheckHRS(s: LastSignState, h: HRS): (r: Result<bool, SignError>)
    requires Consistent(s)
    ensures r.Err? <==> Before(h, Last(s)) || (h == Last(s) && s.signBytes.None?)
    ensures r == Ok(true) ==> h == Last(s) && s.signBytes.Some?
    ensures r == Ok(false) ==> Before(Last(s), h)
  {
    if s.height > h.height then Err(Regression)
    else if s.height == h.height && s.round > h.round then Err(Regression)
    else if s.height == h.height && s.round == h.round && s.step > h.step then Err(Regression)
    else if s.height == h.height && s.round == h.round && s.step == h.step then
      if s.signBytes.None? then Err(NoSignBytes) else Ok(true)
    else Ok(false)
  }

  function SetTimestamp(b: Signable, t: int): Signable {
    match b
    case VoteBytes(v) => VoteBytes(v.(timestamp := t))
    case ProposalBytes(p) => ProposalBytes(p.(timestamp := t))
  }

  function TimestampOf(b: Signable): int {
    match b
    case VoteBytes(v) => v.timestamp
    case ProposalBytes(p) => p.timestamp
  }

  /** check…OnlyDifferByTimestamp, at any time of day; the source panics when the
      two do not decode as the same kind of message. */
  function OnlyDifferByTimestamp(last: Signable, next: Signable, now: int): (t: Option<int>)
    requires last.VoteBytes? == next.VoteBytes?
    ensures t.Some? <==> exists u :: SetTimestamp(next, u) == last
    ensures t.Some? ==> t.value == TimestampOf(last) && SetTimestamp(next, t.value) == last
  {
    if SetTimestamp(last, now) == SetTimestamp(next, now) then
      assert SetTimestamp(next, TimestampOf(last)) == last;
      Some(TimestampOf(last))
    else None
  }

  function Resigned(m: Message, timestamp: int, signature: Bytes): Message {
    match m
    case VoteMessage(v) => VoteMessage(v.(timestamp := timestamp, signature := signature))
    case ProposalMessage(p) => ProposalMessage(p.(timestamp := timestamp, signature := signature))
  }

  /** The message as signed, or why it was not. */
  type Answer = Result<Message, SignError>

  /** The file the state is saved to. */
  class StateFile {
    var saved: LastSignState

    constructor (s: LastSignState)
      ensures saved == s
    {
      saved := s;
    }
  }

  class FilePV {
    const file: StateFile
    const sign: Signable -> Option<Bytes>
    var last: LastSignState

    ghost predicate Valid()
      reads this, file
    {
      last == file.saved && Consistent(last)
    }

    /** Loading the state of a previous run, if any. */
    constructor (file: StateFile, sign: Signable -> Option<Bytes>)
      requires Consistent(file.saved)
      ensures Valid() && this.file == file && this.sign == sign && last == file.saved
    {
      this.file := file;
      this.sign := sign;
      last := file.saved;
    }

    /** SignVote and SignProposal; `now` is the clock of the timestamp check. */
    method Sign(chainID: string, m: Message, now: int) returns (answer: Answer)
      requires Valid() && Known(m)
      modifies this, file
      ensures Valid()
      ensures (file.saved, answer) == Signing(old(last), chainID, m, sign(BytesOf(chainID, m)))
    {
      var bytes := BytesOf(chainID, m);
      var h := At(bytes);
      var check := CheckHRS(last, h);
      if check.Err? { return Err(check.error); }
      if check.value {
        SameKind(last.signBytes.value, bytes);
        if bytes == last.signBytes.value { return Ok(Resigned(m, TimestampOf(bytes), last.signature.value)); }
        var timestamp := OnlyDifferByTimestamp(last.signBytes.value, bytes, now);
        if timestamp.Some? { return Ok(Resigned(m, timestamp.value, last.signature.value)); }
        return Err(ConflictingData);
      }
      var sig := sign(bytes);
      if sig.None? { return Err(KeyFailed); }
      SaveSigned(h, bytes, sig.value);
      answer := Ok(Resigned(m, TimestampOf(bytes), sig.value));
    }

    method SaveSigned(h: HRS, bytes: Signable, sig: Bytes)
      modifies this, file
      ensures last == file.saved == LastSignState(h.height, h.round, h.step, Some(sig), Some(bytes))
    {
      last := LastSignState(h.height, h.round, h.step, Some(sig), Some(bytes));
      file.saved := last;
    }
  }

  // ----------------------------------------------------------- one request

  /** Sign bytes for the same step are of the same kind. */
  lemma {:induction false} SameKind(a: Signable, b: Signable)
    requires At(a) == At(b)
    ensures a.VoteBytes? == b.VoteBytes?
  {
  }

  /** What a request does to the saved state, and its answer.  The clock does not
      matter. */
  function Signing(s: LastSignState, chainID: string, m: Message, sig: Option<Bytes>): (LastSignState, Answer)
    requires Consistent(s)
  {
    var bytes := BytesOf(chainID, m);
    var h := At(bytes);
    var check := CheckHRS(s, h);
    if check.Err? then (s, Err(check.error))
    else if check.value then
      SameKind(s.signBytes.value, bytes);
      var t := OnlyDifferByTimestamp(s.signBytes.value, bytes, 0);
      if t.Some? then (s, Ok(Resigned(m, t.value, s.signature.value))) else (s, Err(ConflictingData))
    else if sig.None? then (s, Err(KeyFailed))
    else (LastSignState(h.height, h.round, h.step, sig, Some(bytes)), Ok(Resigned(m, TimestampOf(bytes), sig.value)))
  }

  /** A reused signature comes with a message whose sign bytes, timestamp
      included, are exactly the stored ones; a new one is for a later step. */
  lemma {:induction false} SigningIsExact(s: LastSignState, chainID: string, m: Message, sig: Option<Bytes>)
    requires Consistent(s) && Known(m)
    ensures var (t, answer) := Signing(s, chainID, m, sig);
      && Consistent(t)
      && (t != s ==>
            && Before(Last(s), Last(t)) && answer.Ok?
            && sig.Some? && t.signature == sig && t.signBytes == Some(BytesOf(chainID, m)))
      && (answer.Ok? ==>
            && t.signBytes == Some(BytesOf(chainID, answer.value)) && t.signature == Some(SignatureOf(answer.value))
            && answer.value == Resigned(m, TimestampOf(t.signBytes.value), t.signature.value))
  {
    var bytes := BytesOf(chainID, m);
    if At(bytes) == Last(s) && s.signBytes.Some? { SameKind(s.signBytes.value, bytes); }
  }

  function HeightOf(b: Signable): int { if b.VoteBytes? then b.vote.height else b.proposal.height }

  function RoundOf(b: Signable): int { if b.VoteBytes? then b.vote.round else b.proposal.round }

  /** An earlier height, or an earlier round of the same height. */
  ghost predicate RoundBefore(h: int, r: int, h': int, r': int) { h < h' || (h == h' && r < r') }

  /** What comes first in one round: a proposal before votes, and a prevote before a
      precommit. */
  ghost predicate KindBefore(a: Signable, b: Signable) {
    || (a.ProposalBytes? && b.VoteBytes?)
    || (a.VoteBytes? && a.vote.kind == PREVOTE && b.VoteBytes? && b.vote.kind == PRECOMMIT)
  }

  ghost predicate Earlier(a: Signable, b: Signable) {
    || RoundBefore(HeightOf(a), RoundOf(a), HeightOf(b), RoundOf(b))
    || (HeightOf(a) == HeightOf(b) && RoundOf(a) == RoundOf(b) && KindBefore(a, b))
  }

  /** The order of steps is that of heights, rounds and kinds of message. */
  lemma {:induction false} EarlierIsBefore(a: Signable, b: Signable)
    requires KnownBytes(a) && KnownBytes(b)
    ensures Earlier(a, b) <==> Before(At(a), At(b))
    ensures At(a) == At(b) <==> !Earlier(a, b) && !Earlier(b, a)
  {
  }

  /** A signature by the key, with the timestamp asked for. */
  ghost predicate SignsAnew(t: LastSignState, answer: Answer, chainID: string, m: Message, sig: Bytes) {
    && answer == Ok(Resigned(m, TimestampOf(BytesOf(chainID, m)), sig))
    && t.signBytes == Some(BytesOf(chainID, m)) && t.signature == Some(sig)
  }

  /** Exactly when a request is signed, after something has been: later ones are
      whenever the key works, earlier ones never; for the same kind of message in
      the same round the last signature is given again, exactly if some timestamp
      makes the message the one signed. */
  lemma {:induction false} SignedWhen(s: LastSignState, chainID: string, m: Message, sig: Option<Bytes>)
    requires Consistent(s) && Known(m) && s.signBytes.Some?
    ensures var (t, answer) := Signing(s, chainID, m, sig);
      var last, next := s.signBytes.value, BytesOf(chainID, m);
      && (Earlier(last, next) && sig.Some? ==> SignsAnew(t, answer, chainID, m, sig.value))
      && (Earlier(last, next) && sig.None? ==> answer == Err(KeyFailed) && t == s)
      && (Earlier(next, last) ==> answer == Err(Regression) && t == s)
      && (!Earlier(last, next) && !Earlier(next, last) ==>
            && t == s
            && (if exists u :: BytesOf(chainID, Resigned(m, u, SignatureOf(m))) == last
                then answer == Ok(Resigned(m, TimestampOf(last), s.signature.value))
                else answer == Err(ConflictingData)))
  {
    var last, next := s.signBytes.value, BytesOf(chainID, m);
    EarlierIsBefore(last, next);
    EarlierIsBefore(next, last);
    if At(next) == Last(s) {
      SameKind(last, next);
      TimestampsAre(chainID, m, last);
    }
  }

  lemma {:induction false} TimestampsAre(chainID: string, m: Message, last: Signable)
    ensures (exists u :: SetTimestamp(BytesOf(chainID, m), u) == last) <==>
            exists u :: BytesOf(chainID, Resigned(m, u, SignatureOf(m))) == last
  {
    forall u ensures SetTimestamp(BytesOf(chainID, m), u) == BytesOf(chainID, Resigned(m, u, SignatureOf(m))) { }
  }

  /** And before anything has been. */
  lemma {:induction false} SignedAtFirst(s: LastSignState, chainID: string, m: Message, sig: Option<Bytes>)
    requires Consistent(s) && Known(m) && s.signBytes.None?
    ensures var (t, answer) := Signing(s, chainID, m, sig);
      var next := BytesOf(chainID, m);
      if RoundBefore(HeightOf(next), RoundOf(next), s.height, s.round) then answer == Err(Regression) && t == s
      else if sig.None? then answer == Err(KeyFailed) && t == s
      else SignsAnew(t, answer, chainID, m, sig.value)
  {
  }

  function SignatureOf(m: Message): Bytes {
    match m
    case VoteMessage(v) => v.signature
    case ProposalMessage(p) => p.signature
  }

  /** Asking again after a crash, with any timestamp, gives the same signature. */
  lemma {:induction false} SigningAgain(s: LastSignState, chainID: string, m: Message, sig: Option<Bytes>, timestamp: int,
                                        sig': Option<Bytes>)
    requires Consistent(s) && Known(m) && Signing(s, chainID, m, sig).1.Ok?
    ensures var (t, answer) := Signing(s, chainID, m, sig);
      Consistent(t) && Signing(t, chainID, Resigned(m, timestamp, SignatureOf(m)), sig') == (t, answer)
  {
    SigningIsExact(s, chainID, m, sig);
    var (t, answer) := Signing(s, chainID, m, sig);
    var again := BytesOf(chainID, Resigned(m, timestamp, SignatureOf(m)));
    assert SetTimestamp(again, TimestampOf(t.signBytes.value)) == t.signBytes.value;
    SameKind(t.signBytes.value, again);
  }

  // ----------------------------------------------------- runs with crashes

  datatype Crash = NoCrash | BeforeSave | AfterSave

  datatype Event = Request(chainID: string, message: Message, sig: Option<Bytes>, crash: Crash) | Restart

  /** A signature and what it covers. */
  datatype Pair = Pair(bytes: Signable, signature: Bytes)

  /** The process, if up, the file, all that was ever saved as signed, and the
      signatures handed out. */
  datatype World = World(process: Option<LastSignState>, file: LastSignState, signed: seq<Pair>, released: seq<Pair>)

  const START := World(None, NOTHING_SIGNED, [], [])

  ghost function Step(w: World, e: Event): World {
    match e
    case Restart => w.(process := Some(w.file))
    case Request(chainID, m, sig, crash) =>
      if w.process.None? || !Consistent(w.process.value) then w
      else if !Known(m) then w.(process := None)
      else
        var (t, answer) := Signing(w.process.value, chainID, m, sig);
        if crash.BeforeSave? then w.(process := None)
        else
          var signed := w.signed + NewlySigned(w.process.value, t, chainID, m, sig);
          if crash.AfterSave? then World(None, t, signed, w.released)
          else World(Some(t), t, signed, w.released + Handed(chainID, answer))
  }

  function NewlySigned(s: LastSignState, t: LastSignState, chainID: string, m: Message, sig: Option<Bytes>): seq<Pair> {
    if t != s && sig.Some? then [Pair(BytesOf(chainID, m), sig.value)] else []
  }

  function Handed(chainID: string, answer: Answer): seq<Pair> {
    match answer
    case Ok(m) => [Pair(BytesOf(chainID, m), SignatureOf(m))]
    case Err(_) => []
  }

  /** Steps signed strictly increase. */
  ghost predicate Increasing(ps: seq<Pair>) {
    forall i, j {:trigger ps[i], ps[j]} :: 0 <= i < j < |ps| ==> Before(At(ps[i].bytes), At(ps[j].bytes))
  }

  /** The file holds the last of the signatures, whose steps increase. */
  ghost predicate Logged(file: LastSignState, signed: seq<Pair>) {
    && Consistent(file) && Increasing(signed)
    && (if signed == [] then file == NOTHING_SIGNED else Holds(file, signed[|signed| - 1]))
  }

  ghost predicate Guarded(w: World) {
    && (w.process.Some? ==> w.process.value == w.file)
    && Logged(w.file, w.signed)
    && (forall k :: 0 <= k < |w.released| ==> w.released[k] in w.signed)
  }

  ghost predicate Holds(s: LastSignState, p: Pair) { s.signBytes == Some(p.bytes) && s.signature == Some(p.signature) }

  lemma {:induction false} IncreasingMore(ps: seq<Pair>, p: Pair)
    requires Increasing(ps) && (ps != [] ==> Before(At(ps[|ps| - 1].bytes), At(p.bytes)))
    ensures Increasing(ps + [p])
  {
    var qs := ps + [p];
    forall i, j | 0 <= i < j < |qs| ensures Before(At(qs[i].bytes), At(qs[j].bytes)) {
      if j == |ps| && i < |ps| - 1 { assert Before(At(ps[i].bytes), At(ps[|ps| - 1].bytes)); }
    }
  }

  /** One request keeps file and log in step, and hands out nothing unlogged. */
  lemma {:induction false} SigningLogged(s: LastSignState, signed: seq<Pair>, chainID: string, m: Message,
                                         sig: Option<Bytes>)
    requires Logged(s, signed) && Known(m)
    ensures var (t, answer) := Signing(s, chainID, m, sig);
      var more := signed + NewlySigned(s, t, chainID, m, sig);
      Logged(t, more) && forall k :: 0 <= k < |Handed(chainID, answer)| ==> Handed(chainID, answer)[k] in more
  {
    SigningIsExact(s, chainID, m, sig);
    var t := Signing(s, chainID, m, sig).0;
    if t != s {
      IncreasingMore(signed, Pair(BytesOf(chainID, m), sig.value));
    } else {
      assert signed + [] == signed;
    }
  }

  lemma {:induction false} StepGuarded(w: World, e: Event)
    requires Guarded(w)
    ensures Guarded(Step(w, e))
  {
    if e.Request? && w.process.Some? && Known(e.message) {
      SigningLogged(w.file, w.signed, e.chainID, e.message, e.sig);
    }
  }

  ghost function Next(): (World, Event) -> World { (w: World, e: Event) => Step(w, e) }

  ghost function IsGuarded(): World -> bool { (w: World) => Guarded(w) }

  /** The world after any events, crashes and restarts included. */
  ghost function After(events: seq<Event>): World { Fold(Next(), START, events, |events|) }

  lemma {:induction false} RunGuarded(events: seq<Event>)
    ensures Guarded(After(events))
  {
    forall w, k | 0 <= k < |events| && IsGuarded()(w) ensures IsGuarded()(Next()(w, events[k])) {
      StepGuarded(w, events[k]);
    }
    FoldKeeps(Next(), START, events, |events|, IsGuarded());
    assert IsGuarded()(After(events));
  }

  /** The guard does not get in the way: a proposal, a prevote and a precommit of one
      round are all handed out, in that order. */
  lemma {:induction false} RoundIsSigned(chainID: string, p: Proposal, v: Vote, w: Vote, a: Bytes, b: Bytes, c: Bytes)
    requires p.height == v.height == w.height > 0 && p.round == v.round == w.round
    requires v.kind == PREVOTE && w.kind == PRECOMMIT
    ensures var ms := [ProposalMessage(p), VoteMessage(v), VoteMessage(w)];
      After([Restart, Request(chainID, ms[0], Some(a), NoCrash), Request(chainID, ms[1], Some(b), NoCrash),
             Request(chainID, ms[2], Some(c), NoCrash)]).released
        == [Pair(BytesOf(chainID, ms[0]), a), Pair(BytesOf(chainID, ms[1]), b), Pair(BytesOf(chainID, ms[2]), c)]
  {
    var ms := [ProposalMessage(p), VoteMessage(v), VoteMessage(w)];
    var events := [Restart, Request(chainID, ms[0], Some(a), NoCrash), Request(chainID, ms[1], Some(b), NoCrash),
                   Request(chainID, ms[2], Some(c), NoCrash)];
    var w1 := Step(START, events[0]);
    var w2 := Step(w1, events[1]);
    SignedAtFirst(w1.file, chainID, ms[0], Some(a));
    StepReleases(w1, chainID, ms[0], a);
    var w3 := Step(w2, events[2]);
    SignedWhen(w2.file, chainID, ms[1], Some(b));
    StepReleases(w2, chainID, ms[1], b);
    var w4 := Step(w3, events[3]);
    SignedWhen(w3.file, chainID, ms[2], Some(c));
    StepReleases(w3, chainID, ms[2], c);
    FoldOfFour(Next(), START, events);
  }

  lemma {:induction false} StepReleases(w: World, chainID: string, m: Message, sig: Bytes)
    requires w.process == Some(w.file) && Consistent(w.file) && Known(m)
    requires var (t, answer) := Signing(w.file, chainID, m, Some(sig)); SignsAnew(t, answer, chainID, m, sig)
    ensures var w' := Step(w, Request(chainID, m, Some(sig), NoCrash));
      && w'.process == Some(w'.file) && Consistent(w'.file) && w'.file.signBytes == Some(BytesOf(chainID, m))
      && w'.released == w.released + [Pair(BytesOf(chainID, m), sig)]
  {
    SigningIsExact(w.file, chainID, m, Some(sig));
  }

  lemma {:induction false} FoldOfFour<S, A>(next: (S, A) -> S, s: S, xs: seq<A>)
    requires |xs| == 4
    ensures Fold(next, s, xs, 4) == next(next(next(next(s, xs[0]), xs[1]), xs[2]), xs[3])
  {
    assert Fold(next, s, xs, 1) == next(s, xs[0]);
    assert Fold(next, s, xs, 3) == next(next(next(s, xs[0]), xs[1]), xs[2]);
  }

  /** No double signing: whatever is handed out for one height, round and step
      over any run covers the same bytes, with the same signature. */
  lemma {:induction false} NoDoubleSigning(events: seq<Event>, a: Pair, b: Pair)
    requires a in After(events).released && b in After(events).released && At(a.bytes) == At(b.bytes)
    ensures a == b
  {
    RunGuarded(events);
    var w := After(events);
    var i :| 0 <= i < |w.signed| && w.signed[i] == a;
    var j :| 0 <= j < |w.signed| && w.signed[j] == b;
    assert !Before(At(a.bytes), At(b.bytes));
  }
}
