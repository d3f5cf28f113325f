/**
 When close breaks the bound of residual completions by residual commits
 (src/star_runtime/speech/audio/output.py:390-397, 428-436, 785-786).
 */
module ResidualBound {
  import opened Wrappers
  import opened Control
  import opened Player
  import opened BargeIn
  import opened CommitTokens

  /** A payload block with a token whose completion has not been counted yet. */
  ghost predicate Outstanding(b: Playback) {
    b.HoldsToken() && b.f.HasPayload()
  }

  /** After close no further token is minted, so at most the outstanding block can still be counted. */
  ghost predicate Covered(p: Player, b: Playback) {
    p.stop && p.n.residualCompleted + One(Outstanding(b)) <= p.n.residualCommitted
  }

  lemma GateKeepsCovered(c: Config, p: Player, b: Playback, l: GateLabel)
    requires Covered(p, b) && GateEnabled(c, p, b, l)
    ensures var (q, d) := GateStep(c, p, b, l); Covered(q, d)
  {
  }

  lemma DeviceKeepsCovered(p: Player, b: Playback, l: DeviceLabel)
    requires Covered(p, b) && DeviceEnabled(b, l)
    ensures var (q, d) := DeviceStep(p, b, l); Covered(q, d)
  {
  }

  lemma {:induction false} RunKeepsCovered(c: Config, a: State, ls: seq<Label>, b: State)
    requires Covered(a.player, a.playback) && Run(c, a, ls, b)
    ensures Covered(b.player, b.playback)
    decreases |ls|
  {
    if ls != [] {
      StepKeepsCovered(c, a, ls[0]);
      RunKeepsCovered(c, Step(c, a, ls[0]), ls[1..], b);
    }
  }

  lemma StepKeepsCovered(c: Config, s: State, l: Label)
    requires Covered(s.player, s.playback) && Enabled(c, s, l)
    ensures Covered(Step(c, s, l).player, Step(c, s, l).playback)
  {
    match l
    case Pre(id, m) => PreemptOnPlayer(s, id, m);
    case Work(w) => WorkerLeavesGate(c, s, w);
    case Gate(g) => GateKeepsCovered(c, s.player, s.playback, g);
    case Device(d) => DeviceKeepsCovered(s.player, s.playback, d);
    case _ =>
  }

  /** Some continuation counts more residual completions than commits. */
  ghost predicate CanExceed(c: Config, a: State) {
    exists ls, z :: Run(c, a, ls, z) && z.player.n.residualCompleted > z.player.n.residualCommitted
  }

  /** The outstanding block is written to the end. */
  lemma Completes(c: Config, a: State) returns (ls: seq<Label>, z: State)
    requires Outstanding(a.playback) && Tokens(a.player, a.playback)
    ensures Run(c, a, ls, z)
    ensures z.player.n.residualCommitted == a.player.n.residualCommitted
    ensures z.player.n.residualCompleted == a.player.n.residualCompleted + One(a.player.Stale(a.playback.f))
  {
    ls, z := [], a;
    if z.playback.Committed? {
      ls, z := Then(c, a, ls, z, Device(Authorize));
    }
    if z.playback.Authorized? {
      ls, z := Then(c, a, ls, z, Device(DeviceWrite(true)));
    }
    ls, z := Then(c, a, ls, z, Device(FinishWrite));
  }

  /**
   The exact condition: the first close can be followed by more residual completions than
   commits if and only if a payload block is between its final gate and the count of its
   completion, and no earlier interruption has a commit to spare.
   */
  lemma CloseExceedsExactly(c: Config, a: State)
    requires Reachable(c, a) && !a.player.stop
    ensures CanExceed(c, Step(c, a, Close))
      <==> Outstanding(a.playback) && a.player.n.residualCompleted == a.player.n.residualCommitted
  {
    ReachablePlayer(c, a);
    var b := Step(c, a, Close);
    if Outstanding(a.playback) && a.player.n.residualCompleted == a.player.n.residualCommitted {
      AbortKeepsAll(c, a.player, a.playback);
      assert !a.player.Stale(a.playback.f) && b.player.Stale(b.playback.f);
      var ls, z := Completes(c, b);
    } else {
      assert Covered(b.player, b.playback);
      forall ls, z | Run(c, b, ls, z)
        ensures z.player.n.residualCompleted <= z.player.n.residualCommitted
      {
        RunKeepsCovered(c, b, ls, z);
      }
    }
  }

  /**
   The test abort makes is enough: if close finds no write commit with payload, completions
   stay within commits in every continuation.
   */
  lemma QuietCloseKeepsBound(c: Config, a: State, ls: seq<Label>, z: State)
    requires Reachable(c, a) && !a.player.stop && !(a.player.commit.Some? && a.player.commitHasPayload)
    requires Run(c, Step(c, a, Close), ls, z)
    ensures z.player.n.residualCompleted <= z.player.n.residualCommitted
  {
    ReachablePlayer(c, a);
    assert !Outstanding(a.playback);
    RunKeepsCovered(c, Step(c, a, Close), ls, z);
  }
}
