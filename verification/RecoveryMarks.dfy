/**
 Recovery, generation by generation (src/star_runtime/speech/audio/output.py:306-312, 376-389,
 619-626, 730-732, 787-792): which generations had a first replacement enqueue, a first
 replacement dequeue and a recovery recorded.
 */
module RecoveryMarks {
  import opened Wrappers
  import opened Control
  import opened Player
  import opened BargeIn
  import opened CommitTokens

  /** Each generation at most once, in order. */
  ghost predicate Rising(gs: seq<nat>) {
    forall i, j :: 0 <= i < j < |gs| ==> gs[i] < gs[j]
  }

  ghost predicate AtMost(gs: seq<nat>, bound: nat) {
    forall i :: 0 <= i < |gs| ==> gs[i] <= bound
  }

  ghost predicate Within(gs: seq<nat>, hs: seq<nat>) {
    forall g :: g in gs ==> g in hs
  }

  /** One kind of mark: `count` of them, up to generation `gen`; `done` says that the pending one is recorded. */
  ghost predicate Kept(gs: seq<nat>, count: nat, gen: nat, pending: Option<nat>, done: bool) {
    && Rising(gs) && AtMost(gs, gen) && |gs| == count
    && (pending.Some? ==> AtMost(gs, pending.value) && (pending.value in gs <==> done))
  }

  lemma KeptMore(gs: seq<nat>, count: nat, gen: nat)
    requires Kept(gs, count, gen, Some(gen), false)
    ensures Kept(gs + [gen], count + 1, gen, Some(gen), true)
    ensures Within(gs, gs + [gen])
  {
    assert (gs + [gen])[|gs|] == gen;
    forall i | 0 <= i < |gs| ensures gs[i] < gen {
      assert gs[i] in gs;
    }
  }

  /** A new interruption: its generation is above everything recorded. */
  lemma KeptNext(gs: seq<nat>, count: nat, gen: nat, pending: Option<nat>, done: bool)
    requires Kept(gs, count, gen, pending, done)
    ensures Kept(gs, count, gen + 1, Some(gen + 1), false) && Kept(gs, count, gen + 1, pending, done)
    ensures Kept(gs, count, gen, None, true)
  {
  }

  ghost predicate Marked(p: Player) {
    var m := p.log.marks;
    && Kept(m.enqueues, p.n.replacementEnqueues, p.gen, p.pendingRecovery, p.firstEnqueue)
    && Kept(m.dequeues, p.n.replacementDequeues, p.gen, p.pendingRecovery, p.firstDequeue)
    && Kept(m.recoveries, p.n.recoveries, p.gen, p.pendingRecovery, false)
    && Within(m.dequeues, m.enqueues) && Within(m.recoveries, m.dequeues)
  }

  lemma OpenKeepsMarks(p: Player)
    requires Marked(p)
    ensures Marked(p.Open())
  {
    if p.pendingRecovery == Some(p.gen) && !p.firstEnqueue {
      KeptMore(p.log.marks.enqueues, p.n.replacementEnqueues, p.gen);
    }
  }

  lemma DequeueKeepsMarks(p: Player, count: nat)
    requires Marked(p) && count <= |p.ring|
    requires p.pendingRecovery == Some(p.gen) && p.ring != [] ==> p.firstEnqueue
    ensures Marked(p.Dequeue(count))
  {
    if count > 0 && p.pendingRecovery == Some(p.gen) && !p.firstDequeue {
      KeptMore(p.log.marks.dequeues, p.n.replacementDequeues, p.gen);
    }
  }

  lemma CompleteKeepsMarks(p: Player, f: Frame, recovery: bool)
    requires Marked(p)
    requires p.Recovers(f, recovery) ==> p.firstDequeue
    ensures Marked(p.Complete(f, recovery))
  {
    var m, gs := p.log.marks, p.log.marks.recoveries;
    if p.Recovers(f, recovery) {
      assert f.epoch in m.dequeues && f.epoch !in gs;
      forall i | 0 <= i < |gs| ensures gs[i] < f.epoch {
        assert gs[i] in gs;
      }
      assert f.epoch <= p.gen;
      KeptNext(m.enqueues, p.n.replacementEnqueues, p.gen, p.pendingRecovery, p.firstEnqueue);
      KeptNext(m.dequeues, p.n.replacementDequeues, p.gen, p.pendingRecovery, p.firstDequeue);
    }
  }

  lemma ClearKeepsMarks(p: Player)
    requires Marked(p)
    ensures Marked(p.Abort()) && Marked(p.Close())
  {
    var m := p.log.marks;
    KeptNext(m.enqueues, p.n.replacementEnqueues, p.gen, p.pendingRecovery, p.firstEnqueue);
    KeptNext(m.dequeues, p.n.replacementDequeues, p.gen, p.pendingRecovery, p.firstDequeue);
    KeptNext(m.recoveries, p.n.recoveries, p.gen, p.pendingRecovery, false);
  }

  /** What a step that records nothing leaves alone. */
  ghost predicate MarksSame(p: Player, q: Player) {
    && q.log.marks == p.log.marks && q.gen == p.gen
    && q.pendingRecovery == p.pendingRecovery && q.firstEnqueue == p.firstEnqueue && q.firstDequeue == p.firstDequeue
    && q.n.replacementEnqueues == p.n.replacementEnqueues
    && q.n.replacementDequeues == p.n.replacementDequeues && q.n.recoveries == p.n.recoveries
  }

  lemma SameKeepsMarks(p: Player, q: Player)
    requires Marked(p) && MarksSame(p, q)
    ensures Marked(q)
  {
  }

  lemma WriteKeepsMarks(c: Config, p: Player, rest: seq<int>, gen: nat, stamp: Option<ControlStamp>)
    requires Marked(p)
    ensures Marked(p.Write(c, rest, gen, stamp))
  {
    var q := p.Write(c, rest, gen, stamp);
    if p.Fits(c, rest) == 0 {
      assert q == p.(n := p.n.(backpressureWaits := p.n.backpressureWaits + 1));
    } else {
      assert q == p.(ring := q.ring, log := p.log.(accepted := q.log.accepted));
    }
    SameKeepsMarks(p, q);
  }

  lemma ChecksLeaveMarks(c: Config, p: Player, b: Playback, l: GateLabel)
    requires GateEnabled(c, p, b, l) && (l.NextBlock? ==> p.stop)
    ensures MarksSame(p, GateStep(c, p, b, l).0)
  {
    if l.FinalGate? && !p.Stale(b.f) && !p.stop {
      FinalGateMints(c, p, b);
    }
  }

  lemma WorkerKeepsMarks(c: Config, s: State, l: WorkerLabel)
    requires Marked(s.player) && WorkerEnabled(s, l)
    ensures Marked(WorkerStep(c, s, l).player)
  {
    if l.OpenEnqueue? {
      WorkerOpens(c, s, l);
      OpenKeepsMarks(s.player);
    } else if l.WriteRing? {
      WorkerWrites(c, s, l);
      WriteKeepsMarks(c, s.player, s.worker.rest, s.worker.gen, s.worker.stamp);
    } else if TouchesPlayer(l) {
      WorkerPrepares(c, s, l);
      SameKeepsMarks(s.player, WorkerStep(c, s, l).player);
    } else {
      WorkerLeavesPlayer(c, s, l);
    }
  }

  lemma GateKeepsMarks(c: Config, p: Player, b: Playback, l: GateLabel)
    requires Marked(p) && Recovery(p, b) && GateEnabled(c, p, b, l)
    ensures Marked(GateStep(c, p, b, l).0)
  {
    if l.NextBlock? && !p.stop {
      NextBlockDequeues(c, p, b);
      DequeueKeepsMarks(p, p.NextCount(c).value);
    } else {
      ChecksLeaveMarks(c, p, b, l);
      SameKeepsMarks(p, GateStep(c, p, b, l).0);
    }
  }

  lemma DeviceKeepsMarks(p: Player, b: Playback, l: DeviceLabel)
    requires Marked(p) && Recovery(p, b) && DeviceEnabled(b, l)
    ensures Marked(DeviceStep(p, b, l).0)
  {
    if l.FinishWrite? {
      CompleteKeepsMarks(p, b.f, b.recovery);
    } else {
      DeviceLeavesRecovery(p, b, l);
    }
  }

  lemma StepKeepsMarks(c: Config, s: State, l: Label)
    requires PlayerInv(c, s) && Marked(s.player) && Enabled(c, s, l)
    ensures Marked(Step(c, s, l).player)
  {
    match l
    case Pre(id, m) =>
      PreemptOnPlayer(s, id, m);
      ClearKeepsMarks(s.player);
    case Close => ClearKeepsMarks(s.player);
    case Work(w) => WorkerKeepsMarks(c, s, w);
    case Gate(g) => GateKeepsMarks(c, s.player, s.playback, g);
    case Device(d) => DeviceKeepsMarks(s.player, s.playback, d);
    case _ =>
  }

  lemma {:induction false} RunKeepsMarks(c: Config, a: State, ls: seq<Label>, b: State)
    requires PlayerInv(c, a) && Marked(a.player) && Run(c, a, ls, b)
    ensures Marked(b.player)
    decreases |ls|
  {
    if ls != [] {
      StepKeepsPlayer(c, a, ls[0]);
      StepKeepsMarks(c, a, ls[0]);
      RunKeepsMarks(c, Step(c, a, ls[0]), ls[1..], b);
    }
  }

  lemma ReachableMarks(c: Config, s: State)
    requires Reachable(c, s)
    ensures Marked(s.player)
  {
    var sessionId, ls :| sessionId != "" && Run(c, Init(sessionId), ls, s);
    RunKeepsMarks(c, Init(sessionId), ls, s);
  }

  /**
   In every reachable state each generation has at most one replacement enqueue, one
   replacement dequeue and one recovery, a generation that recovered has been dequeued, one
   that was dequeued has been enqueued, and the counters count exactly these.
   */
  lemma RecoveryPerGeneration(c: Config, s: State)
    requires Reachable(c, s)
    ensures var m := s.player.log.marks;
      && Rising(m.enqueues) && Rising(m.dequeues) && Rising(m.recoveries)
      && Within(m.recoveries, m.dequeues) && Within(m.dequeues, m.enqueues)
      && |m.enqueues| == s.player.n.replacementEnqueues
      && |m.dequeues| == s.player.n.replacementDequeues
      && |m.recoveries| == s.player.n.recoveries
  {
    ReachableMarks(c, s);
  }

  /** The order within a generation: what a step records stands behind what was recorded before it. */
  lemma RecordedInOrder(c: Config, s: State, l: Label, gen: nat)
    requires Reachable(c, s) && Enabled(c, s, l)
    ensures var m, k := s.player.log.marks, Step(c, s, l).player.log.marks;
      && (gen in k.recoveries && gen !in m.recoveries ==> gen in m.dequeues && gen in m.enqueues)
      && (gen in k.dequeues && gen !in m.dequeues ==> gen in m.enqueues)
  {
    ReachablePlayer(c, s);
    ReachableMarks(c, s);
    var p, b := s.player, s.playback;
    match l
    case Pre(id, m) => PreemptOnPlayer(s, id, m);
    case Work(w) => WorkerLeavesGate(c, s, w);
    case Gate(g) => GateRecordsInOrder(c, p, b, g, gen);
    case Device(d) => DeviceRecordsInOrder(p, b, d, gen);
    case _ =>
  }

  lemma GateRecordsInOrder(c: Config, p: Player, b: Playback, l: GateLabel, gen: nat)
    requires Marked(p) && Recovery(p, b) && GateEnabled(c, p, b, l)
    ensures var k := GateStep(c, p, b, l).0.log.marks;
      && k.recoveries == p.log.marks.recoveries
      && (gen in k.dequeues && gen !in p.log.marks.dequeues ==> gen in p.log.marks.enqueues)
  {
    if l.NextBlock? && !p.stop {
      NextBlockDequeues(c, p, b);
      DequeueRecordsInOrder(p, p.NextCount(c).value, gen);
    } else {
      ChecksLeaveMarks(c, p, b, l);
    }
  }

  lemma DequeueRecordsInOrder(p: Player, count: nat, gen: nat)
    requires Marked(p) && count <= |p.ring|
    requires p.pendingRecovery == Some(p.gen) && p.ring != [] ==> p.firstEnqueue
    ensures var m, k := p.log.marks, p.Dequeue(count).log.marks;
      k.recoveries == m.recoveries && (gen in k.dequeues && gen !in m.dequeues ==> gen in m.enqueues)
  {
  }

  lemma DeviceRecordsInOrder(p: Player, b: Playback, l: DeviceLabel, gen: nat)
    requires Marked(p) && Recovery(p, b) && DeviceEnabled(b, l)
    ensures var k := DeviceStep(p, b, l).0.log.marks;
      && k.dequeues == p.log.marks.dequeues
      && (gen in k.recoveries && gen !in p.log.marks.recoveries ==>
            gen in p.log.marks.dequeues && gen in p.log.marks.enqueues)
  {
    if l.FinishWrite? {
      CompleteRecordsInOrder(p, b.f, b.recovery, gen);
    } else {
      DeviceLeavesRecovery(p, b, l);
    }
  }

  lemma CompleteRecordsInOrder(p: Player, f: Frame, recovery: bool, gen: nat)
    requires Marked(p)
    requires p.Recovers(f, recovery) ==> p.firstDequeue
    ensures var m, k := p.log.marks, p.Complete(f, recovery).log.marks;
      && k.dequeues == m.dequeues
      && (gen in k.recoveries && gen !in m.recoveries ==> gen in m.dequeues && gen in m.enqueues)
  {
  }
}
