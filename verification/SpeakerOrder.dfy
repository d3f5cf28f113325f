/**
 What the player promises about its counters and its output, in every reachable state.
 */
module SpeakerOrder {
  import opened Collections
  import opened Wrappers
  import opened Control
  import opened Player
  import opened BargeIn
  import opened CommitTokens

  /** `xs` is what remains of `ys` after leaving some elements out. */
  ghost predicate Selection<T>(xs: seq<T>, ys: seq<T>)
    decreases |ys|
  {
    xs == [] ||
    (ys != [] &&
     var front := ys[..|ys| - 1];
     (xs[|xs| - 1] == ys[|ys| - 1] && Selection(xs[..|xs| - 1], front)) || Selection(xs, front))
  }

  lemma {:induction false} SelectionExtends<T>(xs: seq<T>, ys: seq<T>, zs: seq<T>)
    requires Selection(xs, ys)
    ensures Selection(xs + zs, ys + zs)
    decreases |zs|
  {
    if zs == [] {
      assert xs + zs == xs && ys + zs == ys;
    } else {
      var front := zs[..|zs| - 1];
      SelectionExtends(xs, ys, front);
      assert (xs + zs)[..|xs + zs| - 1] == xs + front;
      assert (ys + zs)[..|ys + zs| - 1] == ys + front;
    }
  }

  lemma {:induction false} SelectionTrims<T>(xs: seq<T>, zs: seq<T>, ys: seq<T>)
    requires Selection(xs + zs, ys)
    ensures Selection(xs, ys)
    decreases |ys|, |zs|
  {
    if zs == [] {
      assert xs + zs == xs;
    } else if xs != [] {
      var whole := xs + zs;
      var front := ys[..|ys| - 1];
      assert whole[..|whole| - 1] == xs + zs[..|zs| - 1];
      if Selection(whole, front) {
        SelectionTrims(xs, zs, front);
      } else {
        SelectionTrims(xs, zs[..|zs| - 1], front);
      }
    }
  }

  lemma {:induction false} SelectionOfSelection<T>(xs: seq<T>, ys: seq<T>, zs: seq<T>)
    requires Selection(xs, ys) && Selection(ys, zs)
    ensures Selection(xs, zs)
    decreases |zs|
  {
    if xs != [] {
      var n := |zs| - 1;
      if Selection(ys, zs[..n]) {
        SelectionOfSelection(xs, ys, zs[..n]);
      } else if xs[|xs| - 1] == ys[|ys| - 1] && Selection(xs[..|xs| - 1], ys[..|ys| - 1]) {
        SelectionOfSelection(xs[..|xs| - 1], ys[..|ys| - 1], zs[..n]);
      } else {
        SelectionOfSelection(xs, ys[..|ys| - 1], zs[..n]);
      }
    }
  }

  /** Everything handed to the device, in order. */
  ghost function Played(h: seq<Submission>): seq<Sample> {
    if h == [] then [] else Played(h[..|h| - 1]) + h[|h| - 1].frame.block
  }

  /** The dequeued block that has not reached the device yet. */
  ghost function Held(b: Playback): seq<Sample> {
    if b.Dequeued? || b.Checked? || b.Committed? || b.Authorized? then b.f.block else []
  }

  ghost predicate Ordered(p: Player, b: Playback) {
    && Selection(p.log.dequeued + p.ring, p.log.accepted)
    && Submitted(p.log.hardware, Held(b), p.log.dequeued)
  }

  ghost predicate Submitted(h: seq<Submission>, held: seq<Sample>, dequeued: seq<Sample>) {
    Selection(Played(h) + held, dequeued)
  }

  /** The order survives if the held block is given up. */
  lemma LettingGo(h: seq<Submission>, held: seq<Sample>, dequeued: seq<Sample>)
    requires Submitted(h, held, dequeued)
    ensures Submitted(h, [], dequeued)
  {
    SelectionTrims(Played(h), held, dequeued);
    assert Played(h) + [] == Played(h);
  }

  lemma Submitting(h: seq<Submission>, s: Submission, dequeued: seq<Sample>)
    requires Submitted(h, s.frame.block, dequeued)
    ensures Submitted(h + [s], [], dequeued)
  {
    assert (h + [s])[..|h + [s]| - 1] == h;
    assert Played(h + [s]) + [] == Played(h) + s.frame.block;
  }

  lemma Dequeuing(h: seq<Submission>, dequeued: seq<Sample>, out: seq<Sample>)
    requires Submitted(h, [], dequeued)
    ensures Submitted(h, out, dequeued + out)
  {
    assert Played(h) + [] == Played(h);
    SelectionExtends(Played(h), dequeued, out);
  }

  lemma WriteKeepsOrder(c: Config, p: Player, rest: seq<int>, gen: nat, stamp: Option<ControlStamp>, b: Playback)
    requires Ordered(p, b)
    ensures Ordered(p.Write(c, rest, gen, stamp), b)
  {
    if p.Fits(c, rest) > 0 {
      var added := Tag(rest[..p.Fits(c, rest)], gen, stamp);
      SelectionExtends(p.log.dequeued + p.ring, p.log.accepted, added);
      Regroup(p.log.dequeued, p.ring, added);
    }
  }

  lemma DequeueKeepsOrder(p: Player, b: Playback, count: nat)
    requires Ordered(p, b) && b.Waiting? && count <= |p.ring|
    ensures Ordered(p.Dequeue(count), Dequeued(Frame(p.gen, p.ring[..count])))
  {
    if count > 0 {
      var out := p.ring[..count];
      assert p.ring == out + p.ring[count..];
      Regroup(p.log.dequeued, out, p.ring[count..]);
      Dequeuing(p.log.hardware, p.log.dequeued, out);
    }
  }

  lemma NextBlockKeepsOrder(c: Config, p: Player, b: Playback)
    requires Ordered(p, b) && GateEnabled(c, p, b, NextBlock)
    ensures var (q, d) := GateStep(c, p, b, NextBlock); Ordered(q, d)
  {
    if !p.stop {
      NextBlockDequeues(c, p, b);
      DequeueKeepsOrder(p, b, p.NextCount(c).value);
    }
  }

  lemma GateLeavesHardware(c: Config, p: Player, b: Playback, l: GateLabel)
    requires GateEnabled(c, p, b, l)
    ensures GateStep(c, p, b, l).0.log.hardware == p.log.hardware
  {
    if l.NextBlock? && !p.stop {
      NextBlockDequeues(c, p, b);
    }
  }

  lemma ChecksKeepOrLetGo(c: Config, p: Player, b: Playback, l: GateLabel)
    requires GateEnabled(c, p, b, l) && (l.NextBlock? ==> p.stop)
    ensures var d := GateStep(c, p, b, l).1; Held(d) == Held(b) || Held(d) == []
  {
  }

  lemma GateKeepsOrder(c: Config, p: Player, b: Playback, l: GateLabel)
    requires Ordered(p, b) && GateEnabled(c, p, b, l)
    ensures var (q, d) := GateStep(c, p, b, l); Ordered(q, d)
  {
    if l.NextBlock? {
      NextBlockKeepsOrder(c, p, b);
    } else {
      ChecksLeaveQueue(c, p, b, l);
      GateLeavesHardware(c, p, b, l);
      ChecksKeepOrLetGo(c, p, b, l);
      LettingGo(p.log.hardware, Held(b), p.log.dequeued);
    }
  }

  lemma DeviceLeavesLogs(p: Player, b: Playback, l: DeviceLabel)
    requires DeviceEnabled(b, l) && !l.DeviceWrite?
    ensures var (q, d) := DeviceStep(p, b, l);
      QueueSame(p, q) && q.log.hardware == p.log.hardware && (Held(d) == Held(b) || Held(d) == [])
  {
  }

  lemma DeviceKeepsOrder(p: Player, b: Playback, l: DeviceLabel)
    requires Ordered(p, b) && DeviceEnabled(b, l)
    ensures var (q, d) := DeviceStep(p, b, l); Ordered(q, d)
  {
    if l.DeviceWrite? {
      Submitting(p.log.hardware, Submission(b.token, b.f), p.log.dequeued);
    } else {
      DeviceLeavesLogs(p, b, l);
      LettingGo(p.log.hardware, Held(b), p.log.dequeued);
    }
  }

  lemma ClearKeepsOrder(p: Player, q: Player, b: Playback)
    requires Ordered(p, b)
    requires q.ring == [] && q.log == p.log.(cleared := q.log.cleared)
    ensures Ordered(q, b)
  {
    SelectionTrims(p.log.dequeued, p.ring, p.log.accepted);
    assert p.log.dequeued + [] == p.log.dequeued;
  }

  lemma StepKeepsOrder(c: Config, s: State, l: Label)
    requires Ordered(s.player, s.playback) && Enabled(c, s, l)
    ensures Ordered(Step(c, s, l).player, Step(c, s, l).playback)
  {
    var p, b := s.player, s.playback;
    match l
    case Own(_) =>
    case Put(_) =>
    case Close => ClearKeepsOrder(p, p.Close(), b);
    case Pre(id, m) =>
      PreemptOnPlayer(s, id, m);
      ClearKeepsOrder(p, p.Abort(), b);
    case Work(w) =>
      if w.WriteRing? {
        WriteKeepsOrder(c, p, s.worker.rest, s.worker.gen, s.worker.stamp, b);
      } else {
        WorkerLeavesGate(c, s, w);
      }
    case Gate(g) => GateKeepsOrder(c, p, b, g);
    case Device(d) => DeviceKeepsOrder(p, b, d);
  }

  lemma {:induction false} RunKeepsOrder(c: Config, a: State, ls: seq<Label>, b: State)
    requires Ordered(a.player, a.playback) && Run(c, a, ls, b)
    ensures Ordered(b.player, b.playback)
    decreases |ls|
  {
    if ls != [] {
      StepKeepsOrder(c, a, ls[0]);
      RunKeepsOrder(c, Step(c, a, ls[0]), ls[1..], b);
    }
  }

  // ---------------------------------------------------------------------------
  // The promises
  // ---------------------------------------------------------------------------

  /** The speaker plays a selection of the accepted samples: in order, none twice, none invented. */
  lemma SpeakerPlaysInOrder(c: Config, s: State)
    requires Reachable(c, s)
    ensures Selection(Played(s.player.log.hardware), s.player.log.accepted)
  {
    var sessionId, ls :| sessionId != "" && Run(c, Init(sessionId), ls, s);
    RunKeepsOrder(c, Init(sessionId), ls, s);
    var p := s.player;
    SelectionTrims(Played(p.log.hardware), Held(s.playback), p.log.dequeued);
    SelectionTrims(p.log.dequeued, p.ring, p.log.accepted);
    SelectionOfSelection(Played(p.log.hardware), p.log.dequeued, p.log.accepted);
  }

  /**
   Commit tokens: no forbidden attempt ever happens, and every block that reached the device
   carried a token of its own, minted while the block's own generation was current.
   */
  lemma CommitTokenSafety(c: Config, s: State)
    requires Reachable(c, s)
    ensures s.player.n.forbidden == 0
    ensures forall i :: 0 <= i < |s.player.log.hardware| ==>
              MintedIn(s.player, s.player.log.hardware[i].token, s.player.log.hardware[i].frame.epoch)
    ensures forall i, j :: 0 <= i < j < |s.player.log.hardware| ==>
              s.player.log.hardware[i].token < s.player.log.hardware[j].token
    ensures forall i :: 0 <= i < |s.player.log.hardware| ==>
              OfGen(s.player.log.hardware[i].frame.block, s.player.log.hardware[i].frame.epoch)
  {
    ReachablePlayer(c, s);
    ReachableFrames(c, s);
  }

  /** Generation purity of everything submitted. */
  ghost predicate PureFrames(p: Player) {
    forall i :: 0 <= i < |p.log.hardware| ==> OfGen(p.log.hardware[i].frame.block, p.log.hardware[i].frame.epoch)
  }

  lemma {:induction false} RunKeepsFrames(c: Config, a: State, ls: seq<Label>, b: State)
    requires PlayerInv(c, a) && PureFrames(a.player) && Run(c, a, ls, b)
    ensures PureFrames(b.player)
    decreases |ls|
  {
    if ls != [] {
      StepKeepsPlayer(c, a, ls[0]);
      StepKeepsFrames(c, a, ls[0]);
      RunKeepsFrames(c, Step(c, a, ls[0]), ls[1..], b);
    }
  }

  lemma DeviceKeepsFrames(c: Config, p: Player, b: Playback, l: DeviceLabel)
    requires Generations(c, p, b) && PureFrames(p) && DeviceEnabled(b, l)
    ensures PureFrames(DeviceStep(p, b, l).0)
  {
    if l.DeviceWrite? {
      assert DeviceStep(p, b, l).0.log.hardware == p.log.hardware + [Submission(b.token, b.f)];
    } else {
      DeviceLeavesLogs(p, b, l);
    }
  }

  lemma StepKeepsFrames(c: Config, s: State, l: Label)
    requires PlayerInv(c, s) && PureFrames(s.player) && Enabled(c, s, l)
    ensures PureFrames(Step(c, s, l).player)
  {
    match l
    case Pre(id, m) => PreemptOnPlayer(s, id, m);
    case Work(w) => WorkerLeavesGate(c, s, w);
    case Gate(g) => GateLeavesHardware(c, s.player, s.playback, g);
    case Device(d) => DeviceKeepsFrames(c, s.player, s.playback, d);
    case _ =>
  }

  lemma ReachableFrames(c: Config, s: State)
    requires Reachable(c, s)
    ensures PureFrames(s.player)
  {
    var sessionId, ls :| sessionId != "" && Run(c, Init(sessionId), ls, s);
    RunKeepsFrames(c, Init(sessionId), ls, s);
  }

  /**
   Until close, residual completions <= residual commits <= interruptions; a close can add
   one residual completion that no interruption counted, and no more.
   */
  lemma ResidualAccounting(c: Config, s: State)
    requires Reachable(c, s)
    ensures s.player.n.residualCompleted <= s.player.n.residualCommitted + One(s.player.stop)
    ensures s.player.n.residualCommitted <= s.player.n.interruptions
  {
    ReachablePlayer(c, s);
  }

  /** Every recovery has its dequeue, every dequeue its enqueue, every enqueue its interruption. */
  lemma RecoveryAccounting(c: Config, s: State)
    requires Reachable(c, s)
    ensures s.player.n.recoveries <= s.player.n.replacementDequeues
    ensures s.player.n.replacementDequeues <= s.player.n.replacementEnqueues
    ensures s.player.n.replacementEnqueues <= s.player.n.interruptions
  {
    ReachablePlayer(c, s);
  }

  /**
   The ring is generation-pure and first-in first-out: it holds only samples of enqueue calls
   begun in the current generation, each generation's dequeued samples are a prefix of what
   that generation accepted, and accepted = dequeued + queued + cleared.
   */
  lemma GenerationPureFifo(c: Config, s: State)
    requires Reachable(c, s)
    ensures |s.player.ring| <= c.capacity && OfGen(s.player.ring, s.player.gen)
    ensures forall g: nat :: Gen(s.player.log.dequeued, g) <= Gen(s.player.log.accepted, g)
    ensures Gen(s.player.log.accepted, s.player.gen) == Gen(s.player.log.dequeued, s.player.gen) + s.player.ring
    ensures |s.player.log.accepted| == |s.player.log.dequeued| + |s.player.ring| + s.player.log.cleared
  {
    ReachablePlayer(c, s);
  }

  // ---------------------------------------------------------------------------
  // Writes
  // ---------------------------------------------------------------------------

  /** Every completed write was submitted and every submission minted; the special completions are payload writes. */
  ghost predicate Writes(p: Player, b: Playback) {
    && p.n.blocksWritten + p.n.silenceBlocks + One(b.Written?) <= |p.log.hardware|
    && |p.log.hardware| + One(b.Committed? || b.Authorized?) <= |p.log.mints|
    && p.n.residualCompleted <= p.n.blocksWritten
    && p.n.recoveries <= p.n.blocksWritten
  }

  lemma NextBlockKeepsWrites(c: Config, p: Player, b: Playback)
    requires Writes(p, b) && GateEnabled(c, p, b, NextBlock)
    ensures var (q, d) := GateStep(c, p, b, NextBlock); Writes(q, d)
  {
  }

  lemma GateKeepsWrites(c: Config, p: Player, b: Playback, l: GateLabel)
    requires Writes(p, b) && GateEnabled(c, p, b, l)
    ensures var (q, d) := GateStep(c, p, b, l); Writes(q, d)
  {
    if l.NextBlock? {
      NextBlockKeepsWrites(c, p, b);
    }
  }

  lemma DeviceKeepsWrites(p: Player, b: Playback, l: DeviceLabel)
    requires Writes(p, b) && Recovery(p, b) && DeviceEnabled(b, l)
    ensures var (q, d) := DeviceStep(p, b, l); Writes(q, d)
  {
  }

  lemma StepKeepsWrites(c: Config, s: State, l: Label)
    requires PlayerInv(c, s) && Writes(s.player, s.playback) && Enabled(c, s, l)
    ensures Writes(Step(c, s, l).player, Step(c, s, l).playback)
  {
    match l
    case Pre(id, m) => PreemptOnPlayer(s, id, m);
    case Work(w) => WorkerLeavesGate(c, s, w);
    case Gate(g) => GateKeepsWrites(c, s.player, s.playback, g);
    case Device(d) => DeviceKeepsWrites(s.player, s.playback, d);
    case _ =>
  }

  lemma {:induction false} RunKeepsWrites(c: Config, a: State, ls: seq<Label>, b: State)
    requires PlayerInv(c, a) && Writes(a.player, a.playback) && Run(c, a, ls, b)
    ensures Writes(b.player, b.playback)
    decreases |ls|
  {
    if ls != [] {
      StepKeepsPlayer(c, a, ls[0]);
      StepKeepsWrites(c, a, ls[0]);
      RunKeepsWrites(c, Step(c, a, ls[0]), ls[1..], b);
    }
  }

  /**
   Completed blocks and silence never exceed submissions, submissions never exceed minted
   tokens, and residual completions and recoveries are among the completed blocks.
   */
  lemma WriteAccounting(c: Config, s: State)
    requires Reachable(c, s)
    ensures s.player.n.blocksWritten + s.player.n.silenceBlocks <= |s.player.log.hardware| <= s.player.lastToken
    ensures s.player.n.residualCompleted <= s.player.n.blocksWritten
    ensures s.player.n.recoveries <= s.player.n.blocksWritten
  {
    var sessionId, ls :| sessionId != "" && Run(c, Init(sessionId), ls, s);
    RunKeepsWrites(c, Init(sessionId), ls, s);
    ReachablePlayer(c, s);
  }
}
