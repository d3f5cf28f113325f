/**
 What becomes of every payload block taken off the ring
 (src/star_runtime/speech/audio/output.py:597-714), in every reachable state.
 */
module BlockFates {
  import opened Wrappers
  import opened Control
  import opened Player
  import opened BargeIn
  import opened CommitTokens

  /** A payload block on its way to the final gate. */
  ghost predicate Unjudged(b: Playback) {
    (b.Dequeued? || b.Checked?) && b.f.HasPayload()
  }

  ghost predicate Balanced(p: Player, b: Playback) {
    p.log.fates.taken == p.n.staleDropped + p.log.fates.lost + p.log.fates.minted + One(Unjudged(b))
  }

  /** Stopping advances the generation, so the generation check rejects before the stop check is reached. */
  lemma StoppedIsStale(c: Config, p: Player, b: Playback)
    requires Generations(c, p, b) && Unjudged(b) && p.stop
    ensures p.Stale(b.f)
  {
  }

  lemma NextBlockKeepsBalance(c: Config, p: Player, b: Playback)
    requires Balanced(p, b) && GateEnabled(c, p, b, NextBlock)
    ensures var (q, d) := GateStep(c, p, b, NextBlock); Balanced(q, d)
  {
  }

  lemma GateKeepsBalance(c: Config, p: Player, b: Playback, l: GateLabel)
    requires Generations(c, p, b) && Balanced(p, b) && GateEnabled(c, p, b, l)
    ensures var (q, d) := GateStep(c, p, b, l); Balanced(q, d)
  {
    if l.NextBlock? {
      NextBlockKeepsBalance(c, p, b);
    } else if Unjudged(b) && p.stop {
      StoppedIsStale(c, p, b);
    }
  }

  lemma DeviceKeepsBalance(p: Player, b: Playback, l: DeviceLabel)
    requires Balanced(p, b) && DeviceEnabled(b, l)
    ensures var (q, d) := DeviceStep(p, b, l); Balanced(q, d)
  {
  }

  lemma StepKeepsBalance(c: Config, s: State, l: Label)
    requires PlayerInv(c, s) && Balanced(s.player, s.playback) && Enabled(c, s, l)
    ensures Balanced(Step(c, s, l).player, Step(c, s, l).playback)
  {
    match l
    case Pre(id, m) => PreemptOnPlayer(s, id, m);
    case Work(w) => WorkerLeavesGate(c, s, w);
    case Gate(g) => GateKeepsBalance(c, s.player, s.playback, g);
    case Device(d) => DeviceKeepsBalance(s.player, s.playback, d);
    case _ =>
  }

  lemma {:induction false} RunKeepsBalance(c: Config, a: State, ls: seq<Label>, b: State)
    requires PlayerInv(c, a) && Balanced(a.player, a.playback) && Run(c, a, ls, b)
    ensures Balanced(b.player, b.playback)
    decreases |ls|
  {
    if ls != [] {
      StepKeepsPlayer(c, a, ls[0]);
      StepKeepsBalance(c, a, ls[0]);
      RunKeepsBalance(c, Step(c, a, ls[0]), ls[1..], b);
    }
  }

  /**
   No payload block disappears uncounted: every one taken off the ring was dropped as stale,
   lost to a failed stream restart, or given a token, or is still on its way to the gate.
   */
  lemma EveryBlockAccounted(c: Config, s: State)
    requires Reachable(c, s)
    ensures s.player.log.fates.taken
      == s.player.n.staleDropped + s.player.log.fates.lost + s.player.log.fates.minted + One(Unjudged(s.playback))
  {
    var sessionId, ls :| sessionId != "" && Run(c, Init(sessionId), ls, s);
    RunKeepsBalance(c, Init(sessionId), ls, s);
  }

  /** A check turns a payload block away exactly when the generation has moved on, and counts it exactly then. */
  lemma RejectionIsCounted(c: Config, s: State, g: GateLabel)
    requires Reachable(c, s) && (g.FirstCheck? || g.FinalGate?)
    requires GateEnabled(c, s.player, s.playback, g) && Unjudged(s.playback)
    ensures var t := Step(c, s, Gate(g));
      && (t.playback.Leaving? <==> s.playback.f.epoch != s.player.gen)
      && t.player.n.staleDropped == s.player.n.staleDropped + One(t.playback.Leaving?)
  {
    ReachablePlayer(c, s);
    if s.player.stop {
      StoppedIsStale(c, s.player, s.playback);
    }
  }
}
