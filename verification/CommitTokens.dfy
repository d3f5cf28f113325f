/**
 Commit-token safety and the accounting counters, over every interleaving of the protocol.
 Each invariant is a predicate on the player, the playback thread and, where needed, the
 producer; one lemma per thread shows that the thread keeps it.
 */
module CommitTokens {
  import opened Collections
  import opened Wrappers
  import opened Control
  import opened Player
  import opened BargeIn

  // ---------------------------------------------------------------------------
  // What the worker does to the player
  // ---------------------------------------------------------------------------

  /** A producer can change these fields and nothing else: not the generation, the gate, or what was dequeued. */
  ghost predicate GateUntouched(p: Player, q: Player) {
    q == p.(
      ring := q.ring,
      enqueueStamp := q.enqueueStamp,
      aborted := q.aborted,
      drain := q.drain,
      firstEnqueue := q.firstEnqueue,
      n := p.n.(replacementEnqueues := q.n.replacementEnqueues, backpressureWaits := q.n.backpressureWaits),
      log := p.log.(accepted := q.log.accepted, marks := p.log.marks.(enqueues := q.log.marks.enqueues)))
  }

  ghost predicate QueueSame(p: Player, q: Player) {
    && q.ring == p.ring && q.gen == p.gen
    && q.log.accepted == p.log.accepted && q.log.dequeued == p.log.dequeued && q.log.cleared == p.log.cleared
  }

  predicate TouchesPlayer(l: WorkerLabel) {
    l.SetStamp? || l.OpenEnqueue? || l.WriteRing? || l.StartWait? || l.PollIdle?
  }

  lemma WorkerLeavesPlayer(c: Config, s: State, l: WorkerLabel)
    requires WorkerEnabled(s, l) && !TouchesPlayer(l)
    ensures WorkerStep(c, s, l).player == s.player && WorkerStep(c, s, l).playback == s.playback
    ensures !WorkerStep(c, s, l).worker.Enqueuing?
  {
  }

  lemma WriteLeavesGate(c: Config, p: Player, rest: seq<int>, gen: nat, stamp: Option<ControlStamp>)
    ensures GateUntouched(p, p.Write(c, rest, gen, stamp))
  {
    var q := p.Write(c, rest, gen, stamp);
    if p.Fits(c, rest) == 0 {
      assert q == p.(n := p.n.(backpressureWaits := p.n.backpressureWaits + 1));
    } else {
      assert q == p.(ring := q.ring, log := p.log.(accepted := q.log.accepted));
    }
  }

  lemma OpenLeavesGate(p: Player)
    ensures GateUntouched(p, p.Open())
  {
  }

  lemma OpenLeavesQueue(p: Player)
    ensures QueueSame(p, p.Open())
  {
  }

  /** How an enqueue call begins and goes on. */
  lemma WorkerEnqueues(c: Config, s: State, l: WorkerLabel)
    requires WorkerEnabled(s, l)
    ensures var t := WorkerStep(c, s, l);
      t.worker.Enqueuing? ==>
        || (l.OpenEnqueue? && t.worker.gen == s.player.gen && t.player == s.player.Open() && !s.player.stop)
        || (l.WriteRing? && s.worker.Enqueuing? && t.worker.gen == s.worker.gen
            && t.player == s.player.Write(c, s.worker.rest, s.worker.gen, s.worker.stamp))
  {
  }

  lemma WorkerWrites(c: Config, s: State, l: WorkerLabel)
    requires WorkerEnabled(s, l) && l.WriteRing?
    ensures var t := WorkerStep(c, s, l);
      && t.playback == s.playback
      && (t.player == s.player || t.player == s.player.Write(c, s.worker.rest, s.worker.gen, s.worker.stamp))
  {
  }

  lemma WorkerOpens(c: Config, s: State, l: WorkerLabel)
    requires WorkerEnabled(s, l) && l.OpenEnqueue?
    ensures var t := WorkerStep(c, s, l);
      t.playback == s.playback && (t.player == s.player || t.player == s.player.Open())
  {
  }

  lemma WorkerPrepares(c: Config, s: State, l: WorkerLabel)
    requires WorkerEnabled(s, l) && TouchesPlayer(l) && !l.WriteRing? && !l.OpenEnqueue?
    ensures var t, p := WorkerStep(c, s, l), s.player;
      && t.playback == s.playback
      && (t.player == p.(enqueueStamp := t.player.enqueueStamp) || t.player == p.(drain := t.player.drain))
  {
  }

  lemma WorkerLeavesGate(c: Config, s: State, l: WorkerLabel)
    requires WorkerEnabled(s, l)
    ensures var t := WorkerStep(c, s, l);
      && t.playback == s.playback && GateUntouched(s.player, t.player)
      && (l.WriteRing? || QueueSame(s.player, t.player))
  {
    if l.WriteRing? {
      WorkerWrites(c, s, l);
      WriteLeavesGate(c, s.player, s.worker.rest, s.worker.gen, s.worker.stamp);
    } else if l.OpenEnqueue? {
      WorkerOpens(c, s, l);
      OpenLeavesGate(s.player);
      OpenLeavesQueue(s.player);
    } else if TouchesPlayer(l) {
      WorkerPrepares(c, s, l);
    } else {
      WorkerLeavesPlayer(c, s, l);
    }
  }

  lemma PreemptOnPlayer(s: State, id: nat, l: PreemptLabel)
    requires PreemptEnabled(s, id, l)
    ensures var t := PreemptStep(s, id, l);
      t.playback == s.playback && t.worker == s.worker && (t.player == s.player || t.player == s.player.Abort())
  {
  }

  lemma FinalGateMints(c: Config, p: Player, b: Playback)
    requires b.Checked? && !p.Stale(b.f) && !p.stop
    ensures var f := p.Refresh(b.f);
      && f.epoch == p.gen
      && GateStep(c, p, b, FinalGate)
        == (p.Mint(f), Committed(f, p.lastToken + 1, f.HasPayload() && p.pendingRecovery == Some(f.epoch)))
  {
  }

  // ---------------------------------------------------------------------------
  // Tokens
  // ---------------------------------------------------------------------------

  /** The token was minted while generation `epoch` was current. */
  ghost predicate MintedIn(p: Player, token: nat, epoch: nat) {
    1 <= token <= |p.log.mints| && p.log.mints[token - 1] == epoch
  }

  ghost predicate Tokens(p: Player, b: Playback) {
    && p.lastToken == |p.log.mints|
    && p.n.forbidden == 0
    && (b.HoldsToken() ==>
          && p.commit == Some(b.token) && p.writeEpoch == Some(b.f.epoch) && p.commitHasPayload == b.f.HasPayload()
          && MintedIn(p, b.token, b.f.epoch))
    && (b.Leaving? ==> p.commit == b.held && p.writeEpoch == if b.held.Some? then Some(b.epoch) else None)
    && (!b.HoldsToken() && !b.Leaving? ==> p.commit == None && p.writeEpoch == None)
  }

  lemma GateKeepsTokens(c: Config, p: Player, b: Playback, l: GateLabel)
    requires Tokens(p, b) && GateEnabled(c, p, b, l)
    ensures var (q, d) := GateStep(c, p, b, l); Tokens(q, d)
  {
    if l.NextBlock? && !p.stop {
      NextBlockDequeues(c, p, b);
    } else if l.FinalGate? && !p.Stale(b.f) && !p.stop {
      FinalGateMints(c, p, b);
      MintKeepsTokens(p, b, p.Refresh(b.f), GateStep(c, p, b, l).1.recovery);
    }
  }

  lemma MintKeepsTokens(p: Player, b: Playback, f: Frame, recovery: bool)
    requires Tokens(p, b) && b.Checked? && f.epoch == p.gen
    ensures Tokens(p.Mint(f), Committed(f, p.lastToken + 1, recovery))
  {
  }

  lemma DeviceKeepsTokens(p: Player, b: Playback, l: DeviceLabel)
    requires Tokens(p, b) && DeviceEnabled(b, l)
    ensures var (q, d) := DeviceStep(p, b, l); Tokens(q, d)
  {
  }

  /** Every submission carries its own token, minted while its own generation was current. */
  ghost predicate Hardware(p: Player, b: Playback) {
    var h := p.log.hardware;
    && (forall i :: 0 <= i < |h| ==> MintedIn(p, h[i].token, h[i].frame.epoch))
    && (forall i, j :: 0 <= i < j < |h| ==> h[i].token < h[j].token)
    && (b.Committed? || b.Authorized? ==> forall i :: 0 <= i < |h| ==> h[i].token < b.token)
  }

  lemma GateKeepsHardware(c: Config, p: Player, b: Playback, l: GateLabel)
    requires Tokens(p, b) && Hardware(p, b) && GateEnabled(c, p, b, l)
    ensures var (q, d) := GateStep(c, p, b, l); Hardware(q, d)
  {
    if l.NextBlock? && !p.stop {
      NextBlockDequeues(c, p, b);
    } else if l.FinalGate? && !p.Stale(b.f) && !p.stop {
      FinalGateMints(c, p, b);
      MintKeepsHardware(p, b, p.Refresh(b.f), GateStep(c, p, b, l).1.recovery);
    } else {
      ChecksMintNothing(c, p, b, l);
    }
  }

  lemma ChecksMintNothing(c: Config, p: Player, b: Playback, l: GateLabel)
    requires GateEnabled(c, p, b, l)
    requires (l.NextBlock? ==> p.stop) && (l.FinalGate? ==> p.Stale(b.f) || p.stop)
    ensures var (q, d) := GateStep(c, p, b, l); !d.HoldsToken() && q.log == p.log.(fates := q.log.fates)
  {
  }

  lemma MintKeepsHardware(p: Player, b: Playback, f: Frame, recovery: bool)
    requires Tokens(p, b) && Hardware(p, b) && b.Checked?
    ensures Hardware(p.Mint(f), Committed(f, p.lastToken + 1, recovery))
  {
    assert p.Mint(f).log.hardware == p.log.hardware && p.log.mints <= p.Mint(f).log.mints;
  }

  lemma DeviceKeepsHardware(p: Player, b: Playback, l: DeviceLabel)
    requires Tokens(p, b) && Hardware(p, b) && DeviceEnabled(b, l)
    ensures var (q, d) := DeviceStep(p, b, l); Hardware(q, d)
  {
    var (q, d) := DeviceStep(p, b, l);
    assert q.log.mints == p.log.mints;
  }

  // ---------------------------------------------------------------------------
  // Generations
  // ---------------------------------------------------------------------------

  ghost predicate OfGen(xs: seq<Sample>, gen: nat) {
    forall i :: 0 <= i < |xs| ==> xs[i].gen == gen
  }

  /** The ring holds only samples of enqueue calls begun in the current generation. */
  ghost predicate Generations(c: Config, p: Player, b: Playback) {
    && |p.ring| <= c.capacity
    && OfGen(p.ring, p.gen)
    && (b.HoldsFrame() ==> b.f.epoch <= p.gen && OfGen(b.f.block, b.f.epoch))
    && (b.HoldsFrame() && b.f.HasPayload() && p.stop ==> b.f.epoch < p.gen)
    && (p.stop ==> p.ring == [])
    && (b.Exited? ==> p.stop)
  }

  /** An enqueue call that may still write was begun in the current generation. */
  ghost predicate Producer(p: Player, w: Worker) {
    w.Enqueuing? ==> w.gen <= p.gen && (!p.aborted && !p.stop ==> w.gen == p.gen)
  }

  lemma WorkerKeepsGenerations(c: Config, s: State, l: WorkerLabel)
    requires Generations(c, s.player, s.playback) && Producer(s.player, s.worker) && WorkerEnabled(s, l)
    ensures var t := WorkerStep(c, s, l); Generations(c, t.player, t.playback) && Producer(t.player, t.worker)
  {
    WorkerLeavesGate(c, s, l);
    WorkerEnqueues(c, s, l);
    if l.WriteRing? {
      WorkerWrites(c, s, l);
    }
  }

  lemma NextBlockKeepsGenerations(c: Config, p: Player, b: Playback)
    requires Generations(c, p, b) && GateEnabled(c, p, b, NextBlock)
    ensures var (q, d) := GateStep(c, p, b, NextBlock);
      Generations(c, q, d) && q.aborted == p.aborted && q.stop == p.stop && q.gen == p.gen
  {
    if !p.stop {
      NextBlockDequeues(c, p, b);
    }
  }

  lemma GateKeepsGenerations(c: Config, p: Player, b: Playback, l: GateLabel)
    requires Generations(c, p, b) && GateEnabled(c, p, b, l)
    ensures var (q, d) := GateStep(c, p, b, l);
      Generations(c, q, d) && q.aborted == p.aborted && q.stop == p.stop && q.gen == p.gen
  {
    if l.NextBlock? {
      NextBlockKeepsGenerations(c, p, b);
    }
  }

  lemma DeviceKeepsGenerations(c: Config, p: Player, b: Playback, l: DeviceLabel)
    requires Generations(c, p, b) && DeviceEnabled(b, l)
    ensures var (q, d) := DeviceStep(p, b, l);
      Generations(c, q, d) && q.aborted == p.aborted && q.stop == p.stop && q.gen == p.gen
  {
  }

  // ---------------------------------------------------------------------------
  // Generation-pure FIFO and conservation
  // ---------------------------------------------------------------------------

  /** The samples of one generation, in order. */
  ghost function Gen(xs: seq<Sample>, gen: nat): seq<Sample> {
    if xs == [] then []
    else Gen(xs[..|xs| - 1], gen) + if xs[|xs| - 1].gen == gen then [xs[|xs| - 1]] else []
  }

  lemma {:induction false} GenConcat(xs: seq<Sample>, ys: seq<Sample>, gen: nat)
    ensures Gen(xs + ys, gen) == Gen(xs, gen) + Gen(ys, gen)
    decreases |ys|
  {
    if ys == [] {
      assert xs + ys == xs;
    } else {
      assert (xs + ys)[..|xs + ys| - 1] == xs + ys[..|ys| - 1];
      GenConcat(xs, ys[..|ys| - 1], gen);
    }
  }

  lemma {:induction false} GenPure(xs: seq<Sample>, own: nat, gen: nat)
    requires OfGen(xs, own)
    ensures Gen(xs, gen) == if gen == own then xs else []
    decreases |xs|
  {
    if xs != [] {
      GenPure(xs[..|xs| - 1], own, gen);
      assert gen == own ==> xs == xs[..|xs| - 1] + [xs[|xs| - 1]];
    }
  }

  lemma {:induction false} GenNone(xs: seq<Sample>, gen: nat)
    requires forall i :: 0 <= i < |xs| ==> xs[i].gen < gen
    ensures Gen(xs, gen) == []
    decreases |xs|
  {
    if xs != [] {
      GenNone(xs[..|xs| - 1], gen);
    }
  }

  ghost predicate UpTo(xs: seq<Sample>, gen: nat) {
    forall i :: 0 <= i < |xs| ==> xs[i].gen <= gen
  }

  /** What left the ring is, generation by generation, a prefix of what entered it; nothing is lost uncounted. */
  ghost predicate Fifo(p: Player) {
    && |p.log.accepted| == |p.log.dequeued| + |p.ring| + p.log.cleared
    && FifoLogs(p.log.accepted, p.log.dequeued, p.ring, p.gen)
  }

  ghost predicate FifoLogs(accepted: seq<Sample>, dequeued: seq<Sample>, ring: seq<Sample>, gen: nat) {
    && UpTo(accepted, gen) && UpTo(dequeued, gen)
    && Gen(accepted, gen) == Gen(dequeued, gen) + ring
    && Prefixes(dequeued, accepted)
  }

  ghost predicate Prefixes(dequeued: seq<Sample>, accepted: seq<Sample>) {
    forall g: nat :: Gen(dequeued, g) <= Gen(accepted, g)
  }

  lemma AcceptMore(accepted: seq<Sample>, dequeued: seq<Sample>, ring: seq<Sample>, added: seq<Sample>, gen: nat)
    requires FifoLogs(accepted, dequeued, ring, gen) && OfGen(added, gen)
    ensures FifoLogs(accepted + added, dequeued, ring + added, gen)
  {
    GenConcat(accepted, added, gen);
    GenPure(added, gen, gen);
    Regroup(Gen(dequeued, gen), ring, added);
    forall g: nat ensures Gen(dequeued, g) <= Gen(accepted + added, g) {
      GenConcat(accepted, added, g);
      assert Gen(dequeued, g) <= Gen(accepted, g);
    }
  }

  lemma DequeueMore(accepted: seq<Sample>, dequeued: seq<Sample>, out: seq<Sample>, rest: seq<Sample>, gen: nat)
    requires FifoLogs(accepted, dequeued, out + rest, gen) && OfGen(out, gen)
    ensures FifoLogs(accepted, dequeued + out, rest, gen)
  {
    GenConcat(dequeued, out, gen);
    GenPure(out, gen, gen);
    Regroup(Gen(dequeued, gen), out, rest);
    forall g: nat ensures Gen(dequeued + out, g) <= Gen(accepted, g) {
      GenConcat(dequeued, out, g);
      GenPure(out, gen, g);
      assert Gen(dequeued, g) <= Gen(accepted, g);
    }
  }

  lemma WriteKeepsFifo(c: Config, p: Player, rest: seq<int>, stamp: Option<ControlStamp>)
    requires Fifo(p)
    ensures Fifo(p.Write(c, rest, p.gen, stamp))
  {
    if p.Fits(c, rest) > 0 {
      var added := Tag(rest[..p.Fits(c, rest)], p.gen, stamp);
      AcceptMore(p.log.accepted, p.log.dequeued, p.ring, added, p.gen);
    }
  }

  lemma DequeueKeepsFifo(p: Player, count: nat)
    requires OfGen(p.ring, p.gen) && Fifo(p) && count <= |p.ring|
    ensures Fifo(p.Dequeue(count))
  {
    if count > 0 {
      var out := p.ring[..count];
      assert p.ring == out + p.ring[count..];
      DequeueMore(p.log.accepted, p.log.dequeued, out, p.ring[count..], p.gen);
    }
  }

  lemma ClearKeepsFifo(p: Player, q: Player)
    requires Fifo(p)
    requires q.ring == [] && q.gen == p.gen + 1 && q.log == p.log.(cleared := p.log.cleared + |p.ring|)
    ensures Fifo(q)
  {
    GenNone(p.log.accepted, q.gen);
    GenNone(p.log.dequeued, q.gen);
  }

  lemma ChecksLeaveQueue(c: Config, p: Player, b: Playback, l: GateLabel)
    requires GateEnabled(c, p, b, l) && (l.NextBlock? ==> p.stop)
    ensures QueueSame(p, GateStep(c, p, b, l).0)
  {
  }

  lemma GateKeepsFifo(c: Config, p: Player, b: Playback, l: GateLabel)
    requires OfGen(p.ring, p.gen) && Fifo(p) && GateEnabled(c, p, b, l)
    ensures Fifo(GateStep(c, p, b, l).0)
  {
    if l.NextBlock? && !p.stop {
      NextBlockDequeues(c, p, b);
      DequeueKeepsFifo(p, p.NextCount(c).value);
    } else {
      ChecksLeaveQueue(c, p, b, l);
    }
  }

  lemma DeviceKeepsFifo(p: Player, b: Playback, l: DeviceLabel)
    requires Fifo(p) && DeviceEnabled(b, l)
    ensures Fifo(DeviceStep(p, b, l).0)
  {
    assert QueueSame(p, DeviceStep(p, b, l).0);
  }

  lemma WorkerKeepsFifo(c: Config, s: State, l: WorkerLabel)
    requires Producer(s.player, s.worker) && Fifo(s.player) && WorkerEnabled(s, l)
    ensures Fifo(WorkerStep(c, s, l).player)
  {
    if l.WriteRing? {
      WriteKeepsFifo(c, s.player, s.worker.rest, s.worker.stamp);
    } else {
      WorkerLeavesGate(c, s, l);
    }
  }

  // ---------------------------------------------------------------------------
  // Counters
  // ---------------------------------------------------------------------------

  function One(b: bool): nat {
    if b then 1 else 0
  }

  /** A payload write whose token outlived its generation. */
  ghost predicate ResidualPending(p: Player, b: Playback) {
    b.HoldsToken() && p.Stale(b.f)
  }

  ghost predicate Residuals(p: Player, b: Playback) {
    && p.n.residualCompleted + One(ResidualPending(p, b)) <= p.n.residualCommitted + One(p.stop)
    && p.n.residualCommitted <= p.n.interruptions
  }

  lemma GateKeepsResiduals(c: Config, p: Player, b: Playback, l: GateLabel)
    requires Residuals(p, b) && GateEnabled(c, p, b, l)
    ensures var (q, d) := GateStep(c, p, b, l); Residuals(q, d)
  {
    if l.NextBlock? && !p.stop {
      NextBlockDequeues(c, p, b);
    }
  }

  lemma DeviceKeepsResiduals(p: Player, b: Playback, l: DeviceLabel)
    requires Residuals(p, b) && DeviceEnabled(b, l)
    ensures var (q, d) := DeviceStep(p, b, l); Residuals(q, d)
  {
  }

  lemma AbortKeepsResiduals(c: Config, p: Player, b: Playback)
    requires Tokens(p, b) && Generations(c, p, b) && Residuals(p, b)
    ensures Residuals(p.Abort(), b) && Residuals(p.Close(), b)
  {
  }

  /** How far the current interruption has recovered, and that nothing is counted twice. */
  ghost predicate Recovery(p: Player, b: Playback) {
    var pending := p.pendingRecovery.Some?;
    && (pending ==> p.pendingRecovery.value <= p.gen)
    && (p.firstDequeue ==> p.firstEnqueue)
    && (p.pendingRecovery == Some(p.gen) && p.ring != [] ==> p.firstEnqueue)
    && (b.HoldsFrame() && b.f.HasPayload() && p.pendingRecovery == Some(b.f.epoch) ==> p.firstDequeue)
    && (b.HoldsToken() && b.recovery ==> b.f.HasPayload())
    && p.n.recoveries + One(pending && p.firstDequeue) <= p.n.replacementDequeues
    && p.n.replacementDequeues + One(pending && p.firstEnqueue && !p.firstDequeue) <= p.n.replacementEnqueues
    && p.n.replacementEnqueues + One(pending && !p.firstEnqueue) <= p.n.interruptions
  }

  /** An enqueue call of the recovering generation has been recorded. */
  ghost predicate Replacing(p: Player, w: Worker) {
    w.Enqueuing? && p.pendingRecovery == Some(w.gen) && w.gen == p.gen ==> p.firstEnqueue
  }

  lemma WorkerKeepsRecovery(c: Config, s: State, l: WorkerLabel)
    requires Producer(s.player, s.worker) && Recovery(s.player, s.playback) && Replacing(s.player, s.worker)
    requires WorkerEnabled(s, l)
    ensures var t := WorkerStep(c, s, l); Recovery(t.player, t.playback) && Replacing(t.player, t.worker)
  {
    WorkerLeavesGate(c, s, l);
    WorkerEnqueues(c, s, l);
    if l.WriteRing? {
      WorkerWrites(c, s, l);
    } else if l.OpenEnqueue? {
      WorkerOpens(c, s, l);
    } else if TouchesPlayer(l) {
      WorkerPrepares(c, s, l);
    } else {
      WorkerLeavesPlayer(c, s, l);
    }
  }

  lemma NextBlockKeepsRecovery(c: Config, p: Player, b: Playback, l: GateLabel)
    requires Recovery(p, b) && GateEnabled(c, p, b, l) && l.NextBlock?
    ensures var (q, d) := GateStep(c, p, b, l);
      Recovery(q, d) && q.pendingRecovery == p.pendingRecovery && q.firstEnqueue == p.firstEnqueue
  {
    if !p.stop {
      NextBlockDequeues(c, p, b);
      DequeueKeepsRecovery(p, b, p.NextCount(c).value);
    }
  }

  lemma DequeueKeepsRecovery(p: Player, b: Playback, count: nat)
    requires Recovery(p, b) && b.Waiting? && count <= |p.ring|
    ensures Recovery(p.Dequeue(count), Dequeued(Frame(p.gen, p.ring[..count])))
  {
    var q := p.Dequeue(count);
    if count == 0 {
      assert q == p.(inflight := 0) && p.ring[..0] == [];
    } else if p.pendingRecovery != Some(p.gen) || p.firstDequeue {
      assert q.firstDequeue == p.firstDequeue && q.n == p.n;
    } else {
      assert q.firstDequeue && p.firstEnqueue;
      assert q.n == p.n.(replacementDequeues := p.n.replacementDequeues + 1);
    }
  }

  lemma GateKeepsRecovery(c: Config, p: Player, b: Playback, l: GateLabel)
    requires Generations(c, p, b) && Recovery(p, b) && GateEnabled(c, p, b, l)
    ensures var (q, d) := GateStep(c, p, b, l);
      Recovery(q, d) && q.pendingRecovery == p.pendingRecovery && q.firstEnqueue == p.firstEnqueue
  {
    if l.NextBlock? {
      NextBlockKeepsRecovery(c, p, b, l);
    }
  }

  lemma DeviceKeepsRecovery(c: Config, p: Player, b: Playback, l: DeviceLabel)
    requires Generations(c, p, b) && Recovery(p, b) && DeviceEnabled(b, l)
    ensures var (q, d) := DeviceStep(p, b, l);
      && Recovery(q, d)
      && (q.pendingRecovery == p.pendingRecovery || q.pendingRecovery == None) && q.firstEnqueue == p.firstEnqueue
  {
    if l.FinishWrite? {
      CompleteKeepsRecovery(p, b);
    } else {
      DeviceLeavesRecovery(p, b, l);
      DeviceKeepsFrame(p, b, l);
    }
  }

  /** Before and after the completion the playback thread changes only the gate. */
  lemma DeviceLeavesRecovery(p: Player, b: Playback, l: DeviceLabel)
    requires DeviceEnabled(b, l) && !l.FinishWrite?
    ensures var q := DeviceStep(p, b, l).0;
      q == p.(writeEpoch := q.writeEpoch, commit := q.commit, commitHasPayload := q.commitHasPayload,
              inflight := q.inflight, drain := q.drain,
              n := p.n.(forbidden := q.n.forbidden), log := p.log.(hardware := q.log.hardware))
  {
    var q := DeviceStep(p, b, l).0;
    match l
    case Authorize => assert q == p.(n := p.n.(forbidden := q.n.forbidden));
    case DeviceWrite(_) => assert q == p.(log := p.log.(hardware := q.log.hardware));
    case CleanUpWrite => assert q.n == p.n && q.log == p.log;
  }

  lemma DeviceKeepsFrame(p: Player, b: Playback, l: DeviceLabel)
    requires DeviceEnabled(b, l)
    ensures var d := DeviceStep(p, b, l).1;
      d.HoldsFrame() ==> b.HoldsToken() && d.HoldsToken() && d.f == b.f && d.recovery == b.recovery
  {
  }

  lemma CompleteKeepsRecovery(p: Player, b: Playback)
    requires Recovery(p, b) && b.Written?
    ensures Recovery(p.Complete(b.f, b.recovery), Leaving(b.f.epoch, Some(b.token)))
  {
  }

  lemma AbortKeepsRecovery(c: Config, p: Player, b: Playback)
    requires Generations(c, p, b) && Recovery(p, b)
    ensures Recovery(p.Abort(), b) && Recovery(p.Close(), b)
  {
  }

  // ---------------------------------------------------------------------------
  // Every reachable state
  // ---------------------------------------------------------------------------

  ghost predicate Accounted(c: Config, p: Player, b: Playback) {
    Tokens(p, b) && Hardware(p, b) && Generations(c, p, b) && Fifo(p) && Residuals(p, b) && Recovery(p, b)
  }

  ghost predicate PlayerInv(c: Config, s: State) {
    Accounted(c, s.player, s.playback) && Producer(s.player, s.worker) && Replacing(s.player, s.worker)
  }

  lemma GateKeepsAll(c: Config, p: Player, b: Playback, l: GateLabel)
    requires Accounted(c, p, b) && GateEnabled(c, p, b, l)
    ensures var (q, d) := GateStep(c, p, b, l); Accounted(c, q, d)
  {
    GateKeepsTokens(c, p, b, l);
    GateKeepsHardware(c, p, b, l);
    GateKeepsGenerations(c, p, b, l);
    GateKeepsFifo(c, p, b, l);
    GateKeepsResiduals(c, p, b, l);
    GateKeepsRecovery(c, p, b, l);
  }

  lemma DeviceKeepsAll(c: Config, p: Player, b: Playback, l: DeviceLabel)
    requires Accounted(c, p, b) && DeviceEnabled(b, l)
    ensures var (q, d) := DeviceStep(p, b, l); Accounted(c, q, d)
  {
    DeviceKeepsTokens(p, b, l);
    DeviceKeepsHardware(p, b, l);
    DeviceKeepsGenerations(c, p, b, l);
    DeviceKeepsFifo(p, b, l);
    DeviceKeepsResiduals(p, b, l);
    DeviceKeepsRecovery(c, p, b, l);
  }

  lemma AbortKeepsAll(c: Config, p: Player, b: Playback)
    requires Accounted(c, p, b)
    ensures Accounted(c, p.Abort(), b) && Accounted(c, p.Close(), b)
  {
    ClearKeepsFifo(p, p.Abort());
    ClearKeepsFifo(p, p.Close());
    AbortKeepsResiduals(c, p, b);
    AbortKeepsRecovery(c, p, b);
  }

  lemma WorkerKeepsAll(c: Config, s: State, l: WorkerLabel)
    requires PlayerInv(c, s) && WorkerEnabled(s, l)
    ensures PlayerInv(c, WorkerStep(c, s, l))
  {
    WorkerLeavesGate(c, s, l);
    WorkerKeepsGenerations(c, s, l);
    WorkerKeepsFifo(c, s, l);
    WorkerKeepsRecovery(c, s, l);
  }

  lemma StepKeepsPlayer(c: Config, s: State, l: Label)
    requires PlayerInv(c, s) && Enabled(c, s, l)
    ensures PlayerInv(c, Step(c, s, l))
  {
    var p, b := s.player, s.playback;
    match l
    case Own(_) =>
    case Put(_) =>
    case Close => AbortKeepsAll(c, p, b);
    case Pre(id, m) =>
      PreemptOnPlayer(s, id, m);
      AbortKeepsAll(c, p, b);
    case Work(w) => WorkerKeepsAll(c, s, w);
    case Gate(g) =>
      GateKeepsAll(c, p, b, g);
      GateKeepsGenerations(c, p, b, g);
      GateKeepsRecovery(c, p, b, g);
    case Device(d) =>
      DeviceKeepsAll(c, p, b, d);
      DeviceKeepsGenerations(c, p, b, d);
      DeviceKeepsRecovery(c, p, b, d);
  }

  lemma {:induction false} RunKeepsPlayer(c: Config, a: State, ls: seq<Label>, b: State)
    requires PlayerInv(c, a) && Run(c, a, ls, b)
    ensures PlayerInv(c, b)
    decreases |ls|
  {
    if ls != [] {
      StepKeepsPlayer(c, a, ls[0]);
      RunKeepsPlayer(c, Step(c, a, ls[0]), ls[1..], b);
    }
  }

  lemma ReachablePlayer(c: Config, s: State)
    requires Reachable(c, s)
    ensures PlayerInv(c, s)
  {
    var sessionId, ls :| sessionId != "" && Run(c, Init(sessionId), ls, s);
    RunKeepsPlayer(c, Init(sessionId), ls, s);
  }
}
