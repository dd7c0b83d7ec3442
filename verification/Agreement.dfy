/** Agreement within a round: two vote sets of the same step never report
    different majorities when keys guarded by FilePV hold two thirds of the
    power (types/vote_set.go:279-302, privval/file.go:319-356). */
module Agreement {
  import opened Rotation
  import opened Proposer
  import opened Votes
  import opened Tally
  import FilePV

  /** Validator `i` signs only through the guard: what verifies under its key was
      handed out in its run. */
  ghost predicate SignsThrough(cfg: Config, i: nat, run: seq<FilePV.Event>)
    requires i < |cfg.vals|
  {
    forall msg, signature :: cfg.crypto.verify(cfg.vals[i].pubKey, msg, signature) ==> Released(run, msg)
  }

  ghost predicate Released(run: seq<FilePV.Event>, msg: CanonicalVote) {
    exists p :: p in FilePV.After(run).released && p.bytes == FilePV.VoteBytes(msg)
  }

  /** The validators marked in `guarded` sign through the guard, and hold at least
      two thirds of the power. */
  ghost predicate MostlyGuarded(cfg: Config, guarded: seq<bool>, runs: seq<seq<FilePV.Event>>) {
    && |guarded| == |runs| == |cfg.vals|
    && (forall i :: 0 <= i < |guarded| && guarded[i] ==> SignsThrough(cfg, i, runs[i]))
    && 3 * MaskSum(Powers(cfg.vals), guarded, |guarded|) >= 2 * Total(cfg.vals)
  }

  function Both(a: seq<bool>, b: seq<bool>): (c: seq<bool>)
    requires |a| == |b|
    ensures |c| == |a|
  {
    seq(|a|, i requires 0 <= i < |a| => a[i] && b[i])
  }

  /** Two quorums share more than a third of the power. */
  lemma {:induction false} QuorumsOverlap(cfg: Config, a: seq<bool>, b: seq<bool>)
    requires Countable(cfg) && |a| == |b| == |cfg.vals|
    requires MaskSum(Powers(cfg.vals), a, |a|) >= Quorum(cfg) && MaskSum(Powers(cfg.vals), b, |b|) >= Quorum(cfg)
    ensures 3 * MaskSum(Powers(cfg.vals), Both(a, b), |a|) > Total(cfg.vals)
  {
    BoundedPowers(cfg.vals);
    QuorumBounds(cfg);
    MaskOverlap(Powers(cfg.vals), a, b, Both(a, b), |a|);
  }

  /** Marks weighing more than a third meet marks weighing two thirds. */
  lemma {:induction false} SomeoneInBoth(cfg: Config, a: seq<bool>, b: seq<bool>) returns (i: nat)
    requires Countable(cfg) && |a| == |b| == |cfg.vals|
    requires 3 * MaskSum(Powers(cfg.vals), a, |a|) > Total(cfg.vals)
    requires 3 * MaskSum(Powers(cfg.vals), b, |b|) >= 2 * Total(cfg.vals)
    ensures i < |a| && a[i] && b[i]
  {
    BoundedPowers(cfg.vals);
    var c := Both(a, b);
    MaskOverlap(Powers(cfg.vals), a, b, c, |a|);
    if forall k :: 0 <= k < |c| ==> !c[k] {
      NothingMarked(Powers(cfg.vals), c, |c|);
      assert false;
    }
    i :| 0 <= i < |c| && c[i];
  }

  /** A guarded key does not vote for two blocks in one step. */
  lemma {:induction false} OneVotePerStep(cfg: Config, i: nat, run: seq<FilePV.Event>, a: Vote, b: Vote)
    requires i < |cfg.vals| && SignsThrough(cfg, i, run) && GoodVote(cfg, a, i) && GoodVote(cfg, b, i)
    ensures a.blockID == b.blockID
  {
    var m, n := SignBytes(cfg.chainID, a), SignBytes(cfg.chainID, b);
    assert Released(run, m) && Released(run, n);
    var p :| p in FilePV.After(run).released && p.bytes == FilePV.VoteBytes(m);
    var q :| q in FilePV.After(run).released && q.bytes == FilePV.VoteBytes(n);
    FilePV.NoDoubleSigning(run, p, q);
  }

  /** Two vote sets of one step, fed with anything in any order, do not report
      majorities with different keys, so not different majorities if keys tell
      the blocks voted for apart. */
  lemma {:induction false} Agreement(cfg: Config, s: State, t: State, guarded: seq<bool>, runs: seq<seq<FilePV.Event>>)
    requires Countable(cfg) && Inv(cfg, s) && Inv(cfg, t) && MostlyGuarded(cfg, guarded, runs)
    requires s.maj23.Some? && t.maj23.Some?
    ensures cfg.key(s.maj23.value) == cfg.key(t.maj23.value)
    ensures TellsApart(cfg) ==> s.maj23 == t.maj23
  {
    var a, b := cfg.key(s.maj23.value), cfg.key(t.maj23.value);
    var x, y := s.byBlock[a], t.byBlock[b];
    assert BlockOk(cfg, s, a, x) && BlockOk(cfg, t, b, y);
    QuorumsOverlap(cfg, x.bits, y.bits);
    var i := SomeoneInBoth(cfg, Both(x.bits, y.bits), guarded);
    OneVotePerStep(cfg, i, runs[i], x.votes[i].value, y.votes[i].value);
  }

  /** The same, spelt out for runs of vote sets. */
  lemma {:induction false} AgreementOfRuns(cfg: Config, e: seq<Event>, f: seq<Event>, guarded: seq<bool>,
                                           runs: seq<seq<FilePV.Event>>)
    requires Countable(cfg) && TellsApart(cfg) && Admitted(cfg, e) && Admitted(cfg, f) && MostlyGuarded(cfg, guarded, runs)
    ensures var s, t := After(cfg, e, |e|), After(cfg, f, |f|); s.maj23.Some? && t.maj23.Some? ==> s.maj23 == t.maj23
  {
    var s, t := After(cfg, e, |e|), After(cfg, f, |f|);
    InvOfRun(cfg, e, |e|);
    InvOfRun(cfg, f, |f|);
    if s.maj23.Some? && t.maj23.Some? { Agreement(cfg, s, t, guarded, runs); }
  }
}
