/**
 The player's counters (docs/playback_metrics.md:43-53,
 src/star_runtime/speech/audio/output.py:300-350, 376-398, 597-862): over every run each is the
 number of times its event occurred, no more and no less.
 */
module PlaybackMetrics {
  import opened Wrappers
  import opened Control
  import opened Player
  import opened BargeIn
  import opened BlockSizes
  import opened CommitTokens
  import opened EnqueueCalls
  import opened RecoveryMarks

  // ---------------------------------------------------------------------------
  // Which generation is recovering
  // ---------------------------------------------------------------------------

  /** While the player runs, the generation an abort began is recovering or has recovered. */
  ghost predicate Recovering(p: Player) {
    !p.stop ==>
      && (p.gen == 0 ==> p.pendingRecovery == None)
      && (0 < p.gen ==>
            || p.pendingRecovery == Some(p.gen)
            || (p.pendingRecovery == None && p.gen in p.log.marks.recoveries))
  }

  /** A payload block of the recovering generation goes to the device as a recovery. */
  ghost predicate Flagged(p: Player, b: Playback) {
    b.HoldsToken() && b.f.HasPayload() && p.pendingRecovery == Some(b.f.epoch) ==> b.recovery
  }

  lemma GateKeepsRecovering(c: Config, p: Player, b: Playback, l: GateLabel)
    requires Recovering(p) && Flagged(p, b) && GateEnabled(c, p, b, l)
    ensures var (q, d) := GateStep(c, p, b, l); Recovering(q) && Flagged(q, d)
  {
    if l.NextBlock? && !p.stop {
      NextBlockDequeues(c, p, b);
    } else if l.FinalGate? && !p.Stale(b.f) && !p.stop {
      FinalGateMints(c, p, b);
    } else {
      ChecksMintNothing(c, p, b, l);
      ChecksLeaveRecovery(c, p, b, l);
    }
  }

  lemma ChecksLeaveRecovery(c: Config, p: Player, b: Playback, l: GateLabel)
    requires GateEnabled(c, p, b, l)
    requires (l.NextBlock? ==> p.stop) && (l.FinalGate? ==> p.Stale(b.f) || p.stop)
    ensures var q := GateStep(c, p, b, l).0;
      q.stop == p.stop && q.gen == p.gen && q.pendingRecovery == p.pendingRecovery
  {
  }

  lemma DeviceKeepsRecovering(p: Player, b: Playback, l: DeviceLabel)
    requires Recovering(p) && Flagged(p, b) && DeviceEnabled(b, l)
    ensures var (q, d) := DeviceStep(p, b, l); Recovering(q) && Flagged(q, d)
  {
    if l.FinishWrite? {
      CompleteKeepsRecovering(p, b.f, b.recovery);
    } else {
      DeviceLeavesRecovery(p, b, l);
      DeviceKeepsFrame(p, b, l);
    }
  }

  lemma CompleteKeepsRecovering(p: Player, f: Frame, recovery: bool)
    requires Recovering(p)
    ensures Recovering(p.Complete(f, recovery))
  {
    if p.Recovers(f, recovery) {
      var gs := p.Complete(f, recovery).log.marks.recoveries;
      assert gs[|gs| - 1] == f.epoch;
    }
  }

  lemma WorkerKeepsRecovering(c: Config, s: State, l: WorkerLabel)
    requires Recovering(s.player) && Flagged(s.player, s.playback) && WorkerEnabled(s, l)
    ensures var t := WorkerStep(c, s, l); Recovering(t.player) && Flagged(t.player, t.playback)
  {
    WorkerLeavesGate(c, s, l);
  }

  lemma StepKeepsRecovering(c: Config, s: State, l: Label)
    requires PlayerInv(c, s) && Recovering(s.player) && Flagged(s.player, s.playback) && Enabled(c, s, l)
    ensures var t := Step(c, s, l); Recovering(t.player) && Flagged(t.player, t.playback)
  {
    match l
    case Pre(id, m) => PreemptOnPlayer(s, id, m);
    case Work(w) => WorkerKeepsRecovering(c, s, w);
    case Gate(g) => GateKeepsRecovering(c, s.player, s.playback, g);
    case Device(d) => DeviceKeepsRecovering(s.player, s.playback, d);
    case _ =>
  }

  // ---------------------------------------------------------------------------
  // Counters and their events
  // ---------------------------------------------------------------------------

  datatype Metric =
    | Interruptions
    | StaleBlocksDropped
    | ForbiddenAttempts
    | ResidualCommits
    | ResidualCompletions
    | ReplacementEnqueues
    | ReplacementDequeues
    | Recoveries
    | BlocksWritten
    | SilenceBlocks
    | BackpressureWaits

  function Value(n: Counters, m: Metric): nat {
    match m
    case Interruptions => n.interruptions
    case StaleBlocksDropped => n.staleDropped
    case ForbiddenAttempts => n.forbidden
    case ResidualCommits => n.residualCommitted
    case ResidualCompletions => n.residualCompleted
    case ReplacementEnqueues => n.replacementEnqueues
    case ReplacementDequeues => n.replacementDequeues
    case Recoveries => n.recoveries
    case BlocksWritten => n.blocksWritten
    case SilenceBlocks => n.silenceBlocks
    case BackpressureWaits => n.backpressureWaits
  }

  ghost predicate Aborts(l: Label) {
    l.Pre? && l.p.PreAbort?
  }

  ghost predicate Completes(s: State, l: Label) {
    l == Device(FinishWrite) && s.playback.Written?
  }

  /** The playback thread takes a payload block. */
  ghost predicate TakesPayload(c: Config, s: State, l: Label) {
    && l == Gate(NextBlock) && !s.player.stop
    && (0 < c.block <= |s.player.ring| || (s.player.drain && s.player.ring != [] && |s.player.ring| < c.block))
  }

  /** What each counter counts, as the documentation describes it. */
  ghost predicate Happens(c: Config, s: State, l: Label, m: Metric) {
    var p, b := s.player, s.playback;
    match m
    case Interruptions => Aborts(l)
    case StaleBlocksDropped =>
      && (l == Gate(FirstCheck) || l == Gate(FinalGate))
      && (b.Dequeued? || b.Checked?) && b.f.HasPayload() && b.f.epoch != p.gen
    case ForbiddenAttempts => false
    case ResidualCommits => Aborts(l) && p.commit.Some? && HoldsPayloadToken(p, b)
    case ResidualCompletions => Completes(s, l) && b.f.HasPayload() && b.f.epoch != p.gen
    case ReplacementEnqueues => Opens(s, l) && 0 < p.gen && p.gen !in p.log.marks.enqueues
    case ReplacementDequeues => TakesPayload(c, s, l) && 0 < p.gen && p.gen !in p.log.marks.dequeues
    case Recoveries => Completes(s, l) && b.f.HasPayload() && p.pendingRecovery == Some(b.f.epoch)
    case BlocksWritten => Completes(s, l) && b.f.HasPayload()
    case SilenceBlocks => Completes(s, l) && !b.f.HasPayload()
    case BackpressureWaits =>
      l == Work(WriteRing) && s.worker.Enqueuing? && s.worker.rest != [] && Welcome(s) && c.capacity <= |p.ring|
  }

  /** A payload block holds the commit token; behind its completion, until the cleanup, the gate's own mark says so. */
  ghost predicate HoldsPayloadToken(p: Player, b: Playback) {
    if b.HoldsToken() then b.f.HasPayload() else b.Leaving? && b.held.Some? && p.commitHasPayload
  }

  ghost predicate Counts(c: Config, s: State, l: Label, n: Counters) {
    forall m: Metric :: Value(n, m) == Value(s.player.n, m) + One(Happens(c, s, l, m))
  }

  lemma AbortCounts(c: Config, s: State, l: Label)
    requires PlayerInv(c, s) && Enabled(c, s, l) && Aborts(l)
    ensures Counts(c, s, l, s.player.Abort().n)
  {
  }

  lemma NothingCounts(c: Config, s: State, l: Label)
    requires l.Own? || l.Put? || l.Close? || (l.Pre? && !l.p.PreAbort?)
    ensures Counts(c, s, l, s.player.n)
  {
  }

  lemma WorkerCounts(c: Config, s: State, w: WorkerLabel)
    requires Marked(s.player) && Recovering(s.player) && WorkerEnabled(s, w)
    ensures Counts(c, s, Work(w), WorkerStep(c, s, w).player.n)
  {
    if w.OpenEnqueue? {
      OpenCounts(c, s, w);
    } else if w.WriteRing? {
      WriteCounts(c, s);
    } else if TouchesPlayer(w) {
      WorkerPrepares(c, s, w);
    } else {
      WorkerLeavesPlayer(c, s, w);
    }
  }

  lemma OpenCounts(c: Config, s: State, w: WorkerLabel)
    requires Marked(s.player) && Recovering(s.player) && WorkerEnabled(s, w) && w.OpenEnqueue?
    ensures Counts(c, s, Work(w), WorkerStep(c, s, w).player.n)
  {
    var p := s.player;
    if Opens(s, Work(w)) {
      assert WorkerStep(c, s, w).player == p.Open();
      FirstOfGeneration(p);
    } else {
      assert WorkerStep(c, s, w).player == p;
    }
  }

  /** Whether the generation's first enqueue and dequeue are still to come, by its marks. */
  lemma FirstOfGeneration(p: Player)
    requires Marked(p) && Recovering(p) && !p.stop
    ensures p.pendingRecovery == Some(p.gen) && !p.firstEnqueue <==> 0 < p.gen && p.gen !in p.log.marks.enqueues
    ensures p.pendingRecovery == Some(p.gen) && !p.firstDequeue <==> 0 < p.gen && p.gen !in p.log.marks.dequeues
  {
  }

  lemma WriteCounts(c: Config, s: State)
    requires s.worker.Enqueuing?
    ensures Counts(c, s, Work(WriteRing), WorkerStep(c, s, WriteRing).player.n)
  {
    var p, q := s.player, WorkerStep(c, s, WriteRing).player;
    if s.worker.rest != [] && Welcome(s) {
      if c.capacity <= |p.ring| {
        assert q.n == p.n.(backpressureWaits := p.n.backpressureWaits + 1);
      } else {
        assert q.n == p.n;
      }
    } else {
      assert q == p;
    }
  }

  lemma GateCounts(c: Config, s: State, g: GateLabel)
    requires c.Valid() && PlayerInv(c, s) && Marked(s.player) && Recovering(s.player)
    requires GateEnabled(c, s.player, s.playback, g)
    ensures Counts(c, s, Gate(g), GateStep(c, s.player, s.playback, g).0.n)
  {
    var p, b := s.player, s.playback;
    if g.NextBlock? {
      DequeueCounts(c, s);
    } else {
      ChecksCount(c, s, g);
    }
  }

  lemma ChecksCount(c: Config, s: State, g: GateLabel)
    requires GateEnabled(c, s.player, s.playback, g) && !g.NextBlock?
    ensures Counts(c, s, Gate(g), GateStep(c, s.player, s.playback, g).0.n)
  {
    var p, b := s.player, s.playback;
    var q := GateStep(c, p, b, g).0;
    if Happens(c, s, Gate(g), StaleBlocksDropped) {
      assert q.n == p.n.(staleDropped := p.n.staleDropped + 1);
    } else {
      assert q.n == p.n;
    }
  }

  lemma DequeueCounts(c: Config, s: State)
    requires c.Valid() && Marked(s.player) && Recovering(s.player)
    requires GateEnabled(c, s.player, s.playback, NextBlock)
    ensures Counts(c, s, Gate(NextBlock), GateStep(c, s.player, s.playback, NextBlock).0.n)
  {
    var p := s.player;
    if p.stop {
      NothingTaken(c, s);
    } else {
      NextBlockDequeues(c, p, s.playback);
      PayloadTaken(c, s);
      FirstOfGeneration(p);
      var k := p.NextCount(c).value;
      var first := p.pendingRecovery == Some(p.gen) && !p.firstDequeue;
      assert p.Dequeue(k).n == p.n.(replacementDequeues := p.n.replacementDequeues + One(k != 0 && first));
    }
  }

  lemma NothingTaken(c: Config, s: State)
    requires s.player.stop && s.playback.Waiting?
    ensures Counts(c, s, Gate(NextBlock), s.player.n)
  {
  }

  lemma PayloadTaken(c: Config, s: State)
    requires c.Valid() && !s.player.stop && s.player.NextCount(c).Some?
    ensures TakesPayload(c, s, Gate(NextBlock)) <==> s.player.NextCount(c).value != 0
  {
  }

  lemma DeviceCounts(c: Config, s: State, d: DeviceLabel)
    requires PlayerInv(c, s) && Flagged(s.player, s.playback) && DeviceEnabled(s.playback, d)
    ensures Counts(c, s, Device(d), DeviceStep(s.player, s.playback, d).0.n)
  {
    var p, b := s.player, s.playback;
    if d.FinishWrite? {
      CompleteCounts(c, s);
    } else {
      assert DeviceStep(p, b, d).0.n == p.n;
    }
  }

  lemma CompleteCounts(c: Config, s: State)
    requires Recovery(s.player, s.playback) && Flagged(s.player, s.playback) && s.playback.Written?
    ensures Counts(c, s, Device(FinishWrite), s.player.Complete(s.playback.f, s.playback.recovery).n)
  {
  }

  /** A step changes a counter by one if its event occurs, and otherwise not at all. */
  lemma StepCounts(c: Config, s: State, l: Label)
    requires c.Valid() && Tallied(c, s) && Enabled(c, s, l)
    ensures Counts(c, s, l, Step(c, s, l).player.n)
  {
    match l
    case Pre(id, m) =>
      PreemptOnPlayer(s, id, m);
      if m.PreAbort? {
        AbortCounts(c, s, l);
      } else {
        assert PreemptStep(s, id, m).player == s.player;
        NothingCounts(c, s, l);
      }
    case Work(w) => WorkerCounts(c, s, w);
    case Gate(g) => GateCounts(c, s, g);
    case Device(d) => DeviceCounts(c, s, d);
    case _ => NothingCounts(c, s, l);
  }

  ghost predicate Tallied(c: Config, s: State) {
    PlayerInv(c, s) && Marked(s.player) && Recovering(s.player) && Flagged(s.player, s.playback)
  }

  lemma StepKeepsTallied(c: Config, s: State, l: Label)
    requires Tallied(c, s) && Enabled(c, s, l)
    ensures Tallied(c, Step(c, s, l))
  {
    StepKeepsPlayer(c, s, l);
    StepKeepsMarks(c, s, l);
    StepKeepsRecovering(c, s, l);
  }

  /** How often the event of a counter occurred in a run. */
  ghost function Occurrences(c: Config, a: State, ls: seq<Label>, m: Metric): nat
    decreases |ls|
  {
    if ls == [] || !Enabled(c, a, ls[0]) then 0
    else One(Happens(c, a, ls[0], m)) + Occurrences(c, Step(c, a, ls[0]), ls[1..], m)
  }

  lemma {:induction false} RunCounts(c: Config, a: State, ls: seq<Label>, b: State, m: Metric)
    requires c.Valid() && Tallied(c, a) && Run(c, a, ls, b)
    ensures Value(b.player.n, m) == Value(a.player.n, m) + Occurrences(c, a, ls, m)
    decreases |ls|
  {
    if ls != [] {
      StepCounts(c, a, ls[0]);
      StepKeepsTallied(c, a, ls[0]);
      RunCounts(c, Step(c, a, ls[0]), ls[1..], b, m);
    }
  }

  lemma InitTallied(c: Config, sessionId: string)
    requires sessionId != ""
    ensures Tallied(c, Init(sessionId))
  {
    InitPlayer(c, sessionId);
  }

  lemma InitPlayer(c: Config, sessionId: string)
    ensures PlayerInv(c, Init(sessionId))
  {
  }

  lemma InitZero(sessionId: string, m: Metric)
    ensures Value(Init(sessionId).player.n, m) == 0
  {
  }

  /** From the start of the player each counter is exactly the number of its events. */
  lemma EveryMetricCounts(c: Config, sessionId: string, ls: seq<Label>, s: State, m: Metric)
    requires c.Valid() && sessionId != "" && Run(c, Init(sessionId), ls, s)
    ensures Value(s.player.n, m) == Occurrences(c, Init(sessionId), ls, m)
  {
    InitTallied(c, sessionId);
    InitZero(sessionId, m);
    RunCounts(c, Init(sessionId), ls, s, m);
  }

  lemma {:induction false} RunKeepsTallied(c: Config, a: State, ls: seq<Label>, b: State)
    requires Tallied(c, a) && Run(c, a, ls, b)
    ensures Tallied(c, b)
    decreases |ls|
  {
    if ls != [] {
      StepKeepsTallied(c, a, ls[0]);
      RunKeepsTallied(c, Step(c, a, ls[0]), ls[1..], b);
    }
  }

  // ---------------------------------------------------------------------------
  // Device calls
  // ---------------------------------------------------------------------------

  /** How many device calls a run makes, and how many of them succeed. */
  function DeviceCalls(ls: seq<Label>, ok: bool): nat {
    if ls == [] then 0 else (if ls[0] == Device(DeviceWrite(ok)) then 1 else 0) + DeviceCalls(ls[1..], ok)
  }

  /** A block is written exactly behind a successful device call. */
  ghost predicate Calls(s: State, t: State, l: Label) {
    && |t.player.log.hardware| == |s.player.log.hardware| + One(l.Device? && l.d.DeviceWrite?)
    && t.player.n.blocksWritten + t.player.n.silenceBlocks + One(t.playback.Written?)
       == s.player.n.blocksWritten + s.player.n.silenceBlocks + One(s.playback.Written?)
          + One(l == Device(DeviceWrite(true)))
  }

  lemma GateCallsNothing(c: Config, p: Player, b: Playback, l: GateLabel)
    requires GateEnabled(c, p, b, l)
    ensures var (q, d) := GateStep(c, p, b, l);
      && !b.Written? && !d.Written?
      && q.log.hardware == p.log.hardware
      && q.n.blocksWritten == p.n.blocksWritten && q.n.silenceBlocks == p.n.silenceBlocks
  {
    if l.NextBlock? && !p.stop {
      NextBlockDequeues(c, p, b);
    } else if l.FinalGate? && !p.Stale(b.f) && !p.stop {
      FinalGateMints(c, p, b);
    }
  }

  lemma DeviceCallsOnce(s: State, t: State, l: DeviceLabel)
    requires DeviceEnabled(s.playback, l) && (t.player, t.playback) == DeviceStep(s.player, s.playback, l)
    ensures Calls(s, t, Device(l))
  {
  }

  lemma StepCalls(c: Config, s: State, l: Label)
    requires Enabled(c, s, l)
    ensures Calls(s, Step(c, s, l), l)
  {
    match l
    case Pre(id, m) => PreemptOnPlayer(s, id, m);
    case Work(w) => WorkerLeavesGate(c, s, w);
    case Gate(g) => GateCallsNothing(c, s.player, s.playback, g);
    case Device(d) => DeviceCallsOnce(s, Step(c, s, l), d);
    case _ =>
  }

  lemma {:induction false} RunCalls(c: Config, a: State, ls: seq<Label>, b: State)
    requires Run(c, a, ls, b)
    ensures |b.player.log.hardware| == |a.player.log.hardware| + DeviceCalls(ls, true) + DeviceCalls(ls, false)
    ensures b.player.n.blocksWritten + b.player.n.silenceBlocks + One(b.playback.Written?)
         == a.player.n.blocksWritten + a.player.n.silenceBlocks + One(a.playback.Written?) + DeviceCalls(ls, true)
    decreases |ls|
  {
    if ls != [] {
      StepCalls(c, a, ls[0]);
      RunCalls(c, Step(c, a, ls[0]), ls[1..], b);
    }
  }

  /** Every device call is a submission, and the written blocks are those of the successful calls. */
  lemma WritesAreDeviceCalls(c: Config, sessionId: string, ls: seq<Label>, s: State)
    requires Run(c, Init(sessionId), ls, s)
    ensures |s.player.log.hardware| == DeviceCalls(ls, true) + DeviceCalls(ls, false)
    ensures s.player.n.blocksWritten + s.player.n.silenceBlocks + One(s.playback.Written?) == DeviceCalls(ls, true)
  {
    RunCalls(c, Init(sessionId), ls, s);
  }

  /**
   The first payload write completed in a generation that an abort began is its recovery, and
   nothing else is: such a write leaves the generation recovered, and recovers it unless it was.
   */
  lemma FirstWriteRecovers(c: Config, s: State)
    requires Reachable(c, s) && s.playback.Written? && !s.player.stop
    requires s.playback.f.HasPayload() && s.playback.f.epoch == s.player.gen > 0
    ensures var before := s.player.log.marks.recoveries;
      Step(c, s, Device(FinishWrite)).player.log.marks.recoveries
        == if s.player.gen in before then before else before + [s.player.gen]
  {
    ReachableTallied(c, s);
    CompletedRecovers(s.player, s.playback.f, s.playback.recovery);
  }

  lemma CompletedRecovers(p: Player, f: Frame, recovery: bool)
    requires Marked(p) && Recovering(p) && !p.stop && f.epoch == p.gen > 0
    requires p.pendingRecovery == Some(f.epoch) ==> recovery
    ensures var before, after := p.log.marks.recoveries, p.Complete(f, recovery).log.marks.recoveries;
      after == if p.gen in before then before else before + [p.gen]
  {
  }

  lemma ReachableTallied(c: Config, s: State)
    requires Reachable(c, s)
    ensures Tallied(c, s)
  {
    var sessionId, ls :| sessionId != "" && Run(c, Init(sessionId), ls, s);
    InitTallied(c, sessionId);
    RunKeepsTallied(c, Init(sessionId), ls, s);
  }
}
