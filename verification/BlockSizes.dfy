/**
 How much the playback thread takes at once (src/star_runtime/speech/audio/output.py:580-608):
 whole blocks while speech is coming in, a partial one only to end a drained timeline.
 */
module BlockSizes {
  import opened Wrappers
  import opened Control
  import opened Player
  import opened BargeIn
  import opened CommitTokens

  /** When the playback thread goes on: to leave, with a whole block, to drain the rest, or with clock silence. */
  lemma GoesOnExactly(c: Config, s: State)
    ensures Enabled(c, s, Gate(NextBlock)) <==>
      && s.playback.Waiting?
      && (s.player.stop || c.block <= |s.player.ring| || (s.player.drain && s.player.ring != []) || c.continuous)
  {
  }

  /** What it takes. */
  lemma NextBlockTakes(c: Config, s: State)
    requires c.Valid() && Enabled(c, s, Gate(NextBlock)) && !s.player.stop
    ensures var t := Step(c, s, Gate(NextBlock));
      t.playback.Dequeued? && TakesBlock(c, s.player, t.playback.f, t.player.ring)
  {
    BlockTaken(c, s.player, s.playback);
  }

  // ---------------------------------------------------------------------------
  // Who asks for the rest
  // ---------------------------------------------------------------------------

  /** An enqueue call has begun. */
  ghost predicate Opens(s: State, l: Label) {
    && l.Work? && l.w.OpenEnqueue? && s.worker.Stamped? && s.worker.pcm != []
    && !s.player.stop && !s.cancel
  }

  /** The steps that take a drain request back: more speech, an abort, an idle player, or the end of the last block. */
  ghost predicate EndsDrain(s: State, l: Label) {
    || Opens(s, l)
    || (l.Pre? && l.p.PreAbort?)
    || (l == Work(PollIdle) && s.player.ring == [] && s.player.inflight == 0)
    || (l == Device(CleanUpWrite) && s.player.ring == [])
  }

  lemma WorkerDrains(c: Config, s: State, l: WorkerLabel)
    requires WorkerEnabled(s, l)
    ensures WorkerStep(c, s, l).player.drain
      == (l.StartWait? || (s.player.drain && !EndsDrain(s, Work(l))))
  {
    if !TouchesPlayer(l) {
      WorkerLeavesPlayer(c, s, l);
    }
  }

  lemma GateLeavesDrain(c: Config, p: Player, b: Playback, l: GateLabel)
    requires GateEnabled(c, p, b, l)
    ensures GateStep(c, p, b, l).0.drain == p.drain
  {
    if l.NextBlock? && !p.stop {
      NextBlockDequeues(c, p, b);
    }
  }

  lemma DeviceDrains(p: Player, b: Playback, l: DeviceLabel)
    requires DeviceEnabled(b, l)
    ensures DeviceStep(p, b, l).0.drain == (p.drain && !(l.CleanUpWrite? && p.ring == []))
  {
  }

  /** A drain is requested by the worker's wait and by nothing else, and taken back by these steps and no others. */
  lemma DrainExactly(c: Config, s: State, l: Label)
    requires Enabled(c, s, l)
    ensures Step(c, s, l).player.drain <==> l == Work(StartWait) || (s.player.drain && !EndsDrain(s, l))
  {
    match l
    case Work(w) => WorkerDrains(c, s, w);
    case Gate(g) => GateLeavesDrain(c, s.player, s.playback, g);
    case Device(d) => DeviceDrains(s.player, s.playback, d);
    case Pre(id, m) => PreemptDrains(s, id, m);
    case _ =>
  }

  lemma PreemptDrains(s: State, id: nat, l: PreemptLabel)
    requires PreemptEnabled(s, id, l)
    ensures PreemptStep(s, id, l).player.drain == (s.player.drain && !l.PreAbort?)
  {
    PreemptOnPlayer(s, id, l);
  }

  lemma {:induction false} RunStaysUndrained(c: Config, a: State, ls: seq<Label>, b: State)
    requires !a.player.drain && Run(c, a, ls, b) && Work(StartWait) !in ls
    ensures !b.player.drain
    decreases |ls|
  {
    if ls != [] {
      DrainExactly(c, a, ls[0]);
      RunStaysUndrained(c, Step(c, a, ls[0]), ls[1..], b);
    }
  }

  /**
   Behind the opening of an enqueue call, or an abort, every payload block is a whole one
   until the worker waits for the player: speech is never broken off in the middle of a block.
   */
  lemma WholeBlocks(c: Config, o: State, l: Label, ls: seq<Label>, b: State)
    requires c.Valid() && Enabled(c, o, l) && (Opens(o, l) || (l.Pre? && l.p.PreAbort?))
    requires Run(c, Step(c, o, l), ls, b) && Work(StartWait) !in ls
    requires Enabled(c, b, Gate(NextBlock)) && !b.player.stop
    ensures var t := Step(c, b, Gate(NextBlock)); t.playback.f.HasPayload() ==> |t.playback.f.block| == c.block
  {
    DrainExactly(c, o, l);
    RunStaysUndrained(c, Step(c, o, l), ls, b);
    NextBlockTakes(c, b);
  }

  // ---------------------------------------------------------------------------
  // When the player is idle
  // ---------------------------------------------------------------------------

  /** The in-flight count is that of the block the playback thread holds, and none while it waits. */
  ghost predicate Counted(p: Player, b: Playback) {
    && (b.HoldsFrame() ==> p.inflight == |b.f.block|)
    && (b.Waiting? ==> p.inflight == 0)
  }

  lemma GateKeepsCounted(c: Config, p: Player, b: Playback, l: GateLabel)
    requires Counted(p, b) && GateEnabled(c, p, b, l)
    ensures var (q, d) := GateStep(c, p, b, l); Counted(q, d)
  {
    if l.NextBlock? && !p.stop {
      NextBlockDequeues(c, p, b);
    }
  }

  lemma StepKeepsCounted(c: Config, s: State, l: Label)
    requires Counted(s.player, s.playback) && Enabled(c, s, l)
    ensures Counted(Step(c, s, l).player, Step(c, s, l).playback)
  {
    match l
    case Pre(id, m) => PreemptOnPlayer(s, id, m);
    case Work(w) => WorkerLeavesGate(c, s, w);
    case Gate(g) => GateKeepsCounted(c, s.player, s.playback, g);
    case _ =>
  }

  lemma {:induction false} RunKeepsCounted(c: Config, a: State, ls: seq<Label>, b: State)
    requires Counted(a.player, a.playback) && Run(c, a, ls, b)
    ensures Counted(b.player, b.playback)
    decreases |ls|
  {
    if ls != [] {
      StepKeepsCounted(c, a, ls[0]);
      RunKeepsCounted(c, Step(c, a, ls[0]), ls[1..], b);
    }
  }

  lemma ReachableCounted(c: Config, s: State)
    requires Reachable(c, s)
    ensures Counted(s.player, s.playback)
  {
    var sessionId, ls :| sessionId != "" && Run(c, Init(sessionId), ls, s);
    RunKeepsCounted(c, Init(sessionId), ls, s);
  }

  /**
   The worker's wait goes on exactly while audio is queued or held by the playback thread and
   no one has cancelled; between two blocks an empty queue always ends it.
   */
  lemma WaitsExactly(c: Config, s: State)
    requires Reachable(c, s) && WorkerEnabled(s, PollIdle)
    ensures var t := Step(c, s, Work(PollIdle));
      && (t.worker.Draining? <==> !s.cancel && !(s.player.ring == [] && s.player.inflight == 0))
      && (t.worker.Draining? || t.worker == Finishing(s.worker.r))
      && (s.playback.HoldsFrame() && s.playback.f.HasPayload() && !s.cancel ==> t.worker.Draining?)
      && (s.playback.Waiting? && s.player.ring == [] ==> !t.worker.Draining?)
  {
    ReachableCounted(c, s);
  }
}
