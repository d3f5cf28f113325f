/**
 The generation-gated PCM player (src/star_runtime/speech/audio/output.py) as a value.

 Every function on `Player` is the body of one critical section of `AlsaOutputPlayer`;
 `Playback` is where the playback thread stands between two of them.  Samples carry the
 generation and the turn stamp of the enqueue call that accepted them, and `Log` records
 what happened so far; no branch reads either.
 */
module Player {
  import opened Wrappers
  import opened Control

  datatype Config = Config(capacity: nat, block: nat, continuous: bool) {
    predicate Valid() {
      1 <= block <= capacity
    }
  }

  datatype Sample = Sample(pcm: int, gen: nat, stamp: Option<ControlStamp>)

  /** A dequeued block with the generation it was dequeued under; clock silence is the empty block. */
  datatype Frame = Frame(epoch: nat, block: seq<Sample>) {
    predicate HasPayload() {
      block != []
    }
  }

  datatype Submission = Submission(token: nat, frame: Frame)

  datatype Counters = Counters(
    interruptions: nat,
    staleDropped: nat,
    forbidden: nat,
    residualCommitted: nat,
    residualCompleted: nat,
    replacementEnqueues: nat,
    replacementDequeues: nat,
    recoveries: nat,
    blocksWritten: nat,
    silenceBlocks: nat,
    backpressureWaits: nat
  )

  /**
   `accepted` and `dequeued` are all samples ever written to and read from the ring,
   `cleared` counts those an abort discarded, `mints[t]` is the generation that was current
   when commit token `t + 1` was minted, `hardware` is every block handed to the device.
   */
  datatype Log = Log(
    accepted: seq<Sample>,
    dequeued: seq<Sample>,
    cleared: nat,
    mints: seq<nat>,
    hardware: seq<Submission>,
    fates: Fates,
    marks: Marks
  )

  /** Payload blocks taken off the ring, lost to a failed stream restart, and given a token. */
  datatype Fates = Fates(taken: nat, lost: nat, minted: nat)

  /** The generations in which a first replacement enqueue, a first dequeue and a recovery were recorded. */
  datatype Marks = Marks(enqueues: seq<nat>, dequeues: seq<nat>, recoveries: seq<nat>) {
    function Enqueue(now: bool, gen: nat): Marks {
      if now then this.(enqueues := enqueues + [gen]) else this
    }

    function Dequeue(now: bool, gen: nat): Marks {
      if now then this.(dequeues := dequeues + [gen]) else this
    }

    function Recover(now: bool, gen: nat): Marks {
      if now then this.(recoveries := recoveries + [gen]) else this
    }
  }

  datatype Player = Player(
    ring: seq<Sample>,
    gen: nat,
    aborted: bool,
    stop: bool,
    drain: bool,
    inflight: nat,
    enqueueStamp: Option<ControlStamp>,
    writeEpoch: Option<nat>,
    commit: Option<nat>,
    commitHasPayload: bool,
    lastToken: nat,
    pendingRecovery: Option<nat>,
    firstEnqueue: bool,
    firstDequeue: bool,
    n: Counters,
    log: Log
  ) {
    // ---- producer side ------------------------------------------------------

    function SetStamp(stamp: ControlStamp): Player {
      this.(enqueueStamp := if stamp.Scoped() then Some(stamp) else None)
    }

    /** The first critical section of an enqueue call that neither raises nor is cancelled. */
    function Open(): Player {
      var first := pendingRecovery == Some(gen) && !firstEnqueue;
      this.(
        aborted := false,
        drain := false,
        firstEnqueue := firstEnqueue || first,
        n := n.(replacementEnqueues := n.replacementEnqueues + if first then 1 else 0),
        log := log.(marks := log.marks.Enqueue(first, gen)))
    }

    predicate RefusesWrite(cancel: bool) {
      stop || aborted || cancel
    }

    function Fits(c: Config, rest: seq<int>): nat {
      if c.capacity <= |ring| then 0
      else if |rest| <= c.capacity - |ring| then |rest|
      else c.capacity - |ring|
    }

    /** One turn of the enqueue loop: a partial write, or a backpressure wait. */
    function Write(c: Config, rest: seq<int>, openGen: nat, stamp: Option<ControlStamp>): Player {
      var k := Fits(c, rest);
      var tagged := Tag(rest[..k], openGen, stamp);
      if k == 0 then this.(n := n.(backpressureWaits := n.backpressureWaits + 1))
      else this.(ring := ring + tagged, log := log.(accepted := log.accepted + tagged))
    }

    function RequestDrain(): Player {
      this.(drain := true)
    }

    predicate Quiet() {
      ring == [] && inflight == 0
    }

    function EndDrain(): Player {
      this.(drain := false)
    }

    // ---- invalidation -------------------------------------------------------

    function Abort(): Player {
      var residual := commit.Some? && commitHasPayload;
      this.(
        aborted := true,
        ring := [],
        drain := false,
        gen := gen + 1,
        pendingRecovery := Some(gen + 1),
        firstEnqueue := false,
        firstDequeue := false,
        n := n.(
          residualCommitted := n.residualCommitted + (if residual then 1 else 0),
          interruptions := n.interruptions + 1),
        log := log.(cleared := log.cleared + |ring|))
    }

    function Close(): Player {
      this.(stop := true, ring := [], gen := gen + 1, log := log.(cleared := log.cleared + |ring|))
    }

    // ---- playback thread ----------------------------------------------------

    /** How many samples the next block takes: None while the thread must wait, 0 for clock silence. */
    function NextCount(c: Config): Option<nat> {
      if c.block <= |ring| then Some(c.block)
      else if drain && ring != [] then Some(|ring|)
      else if c.continuous then Some(0)
      else None
    }

    function Dequeue(count: nat): Player
      requires count <= |ring|
    {
      if count == 0 then this.(inflight := 0) else
        var first := pendingRecovery == Some(gen) && !firstDequeue;
        this.(
          ring := ring[count..],
          inflight := count,
          firstDequeue := firstDequeue || first,
          n := n.(replacementDequeues := n.replacementDequeues + if first then 1 else 0),
          log := log.(
            dequeued := log.dequeued + ring[..count],
            fates := log.fates.(taken := log.fates.taken + 1),
            marks := log.marks.Dequeue(first, gen)))
    }

    /** A block whose generation has been invalidated. */
    predicate Stale(f: Frame) {
      f.HasPayload() && f.epoch != gen
    }

    function DropStale(): Player {
      this.(n := n.(staleDropped := n.staleDropped + 1))
    }

    /** Silence is not turn work: the final gate refreshes its generation. */
    function Refresh(f: Frame): Frame {
      if f.HasPayload() then f else f.(epoch := gen)
    }

    /** The final gate mints the commit token for a refreshed frame. */
    function Mint(f: Frame): Player {
      this.(
        lastToken := lastToken + 1,
        commit := Some(lastToken + 1),
        writeEpoch := Some(f.epoch),
        commitHasPayload := f.HasPayload(),
        log := log.(
          mints := log.mints + [gen],
          fates := log.fates.(minted := log.fates.minted + if f.HasPayload() then 1 else 0)))
    }

    /** A block given up because the stream could not be restarted. */
    function LoseRestart(f: Frame): Player {
      this.(log := log.(fates := log.fates.(lost := log.fates.lost + if f.HasPayload() then 1 else 0)))
    }

    predicate Authorizes(f: Frame, token: nat) {
      commit == Some(token) && writeEpoch == Some(f.epoch)
    }

    function Forbid(): Player {
      this.(n := n.(forbidden := n.forbidden + 1))
    }

    function Submit(f: Frame, token: nat): Player {
      this.(log := log.(hardware := log.hardware + [Submission(token, f)]))
    }

    predicate Recovers(f: Frame, recoveryWrite: bool) {
      recoveryWrite && pendingRecovery == Some(f.epoch)
    }

    function Complete(f: Frame, recoveryWrite: bool): Player {
      var recovered := Recovers(f, recoveryWrite);
      this.(
        pendingRecovery := if recovered then None else pendingRecovery,
        n := n.(
          blocksWritten := n.blocksWritten + (if f.HasPayload() then 1 else 0),
          silenceBlocks := n.silenceBlocks + (if f.HasPayload() then 0 else 1),
          residualCompleted := n.residualCompleted + (if Stale(f) then 1 else 0),
          recoveries := n.recoveries + (if recovered then 1 else 0)),
        log := log.(marks := log.marks.Recover(recovered, f.epoch)))
    }

    function CleanUp(epoch: nat, token: Option<nat>): Player {
      this.(
        writeEpoch := if writeEpoch == Some(epoch) then None else writeEpoch,
        commit := if token.Some? && commit == token then None else commit,
        commitHasPayload := if token.Some? && commit == token then false else commitHasPayload,
        inflight := 0,
        drain := drain && ring != [])
    }
  }

  function Tag(pcm: seq<int>, gen: nat, stamp: Option<ControlStamp>): seq<Sample> {
    seq(|pcm|, i requires 0 <= i < |pcm| => Sample(pcm[i], gen, stamp))
  }

  function NewPlayer(): Player {
    Player([], 0, false, false, false, 0, None, None, None, false, 0, None, false, false,
           Counters(0, 0, 0, 0, 0, 0, 0, 0, 0, 0, 0), Log([], [], 0, [], [], Fates(0, 0, 0), Marks([], [], [])))
  }

  /** Where the playback thread stands between two critical sections. */
  datatype Playback =
    | Waiting
    | Exited
    | Dequeued(f: Frame)
    | Checked(f: Frame)
    | Committed(f: Frame, token: nat, recovery: bool)
    | Authorized(f: Frame, token: nat, recovery: bool)
    | Written(f: Frame, token: nat, recovery: bool)
    | Leaving(epoch: nat, held: Option<nat>)
  {
    predicate HoldsFrame() {
      !Waiting? && !Exited? && !Leaving?
    }

    /** The frame holds a commit token. */
    predicate HoldsToken() {
      Committed? || Authorized? || Written?
    }
  }

  /** The points of the playback loop up to the final gate. */
  datatype GateLabel = NextBlock | FirstCheck | RestartFails | FinalGate

  /** The points of the playback loop after the final gate. */
  datatype DeviceLabel = Authorize | DeviceWrite(ok: bool) | FinishWrite | CleanUpWrite

  predicate GateEnabled(c: Config, p: Player, b: Playback, l: GateLabel) {
    match l
    case NextBlock => b.Waiting? && (p.stop || p.NextCount(c).Some?)
    case FirstCheck => b.Dequeued?
    case RestartFails => b.Checked?
    case FinalGate => b.Checked?
  }

  function GateStep(c: Config, p: Player, b: Playback, l: GateLabel): (Player, Playback)
    requires GateEnabled(c, p, b, l)
  {
    match l
    case NextBlock =>
      if p.stop then (p, Exited)
      else
        var count := p.NextCount(c).value;
        (p.Dequeue(count), Dequeued(Frame(p.gen, p.ring[..count])))
    case FirstCheck =>
      if p.Stale(b.f) then (p.DropStale(), Leaving(b.f.epoch, None))
      else if p.stop then (p, Leaving(b.f.epoch, None))
      else (p, Checked(b.f))
    case RestartFails => (p.LoseRestart(b.f), Leaving(b.f.epoch, None))
    case FinalGate =>
      if p.Stale(b.f) then (p.DropStale(), Leaving(b.f.epoch, None))
      else if p.stop then (p, Leaving(b.f.epoch, None))
      else
        var f := p.Refresh(b.f);
        (p.Mint(f), Committed(f, p.lastToken + 1, f.HasPayload() && p.pendingRecovery == Some(f.epoch)))
  }

  /** What the playback thread takes next while the player runs. */
  lemma NextBlockDequeues(c: Config, p: Player, b: Playback)
    requires GateEnabled(c, p, b, NextBlock) && !p.stop
    ensures var k := p.NextCount(c).value;
      GateStep(c, p, b, NextBlock) == (p.Dequeue(k), Dequeued(Frame(p.gen, p.ring[..k])))
  {
  }

  /**
   A block taken off the ring, and the queue left behind it: a whole block, or with a drain
   requested all of a shorter queue, or clock silence when there is neither.
   */
  ghost predicate TakesBlock(c: Config, p: Player, f: Frame, left: seq<Sample>) {
    && p.ring == f.block + left && f.epoch == p.gen
    && (f.HasPayload() ==> |f.block| == c.block || (p.drain && left == [] && |p.ring| < c.block))
    && (!f.HasPayload() ==> c.continuous && |p.ring| < c.block && !(p.drain && p.ring != []))
  }

  lemma BlockTaken(c: Config, p: Player, b: Playback)
    requires c.Valid() && GateEnabled(c, p, b, NextBlock) && !p.stop
    ensures var (q, d) := GateStep(c, p, b, NextBlock); d.Dequeued? && TakesBlock(c, p, d.f, q.ring)
  {
    NextBlockDequeues(c, p, b);
    var (q, d) := GateStep(c, p, b, NextBlock);
    assert p.ring == d.f.block + q.ring;
  }

  predicate DeviceEnabled(b: Playback, l: DeviceLabel) {
    match l
    case Authorize => b.Committed?
    case DeviceWrite(_) => b.Authorized?
    case FinishWrite => b.Written?
    case CleanUpWrite => b.Leaving?
  }

  function DeviceStep(p: Player, b: Playback, l: DeviceLabel): (Player, Playback)
    requires DeviceEnabled(b, l)
  {
    match l
    case Authorize =>
      if p.Authorizes(b.f, b.token) then (p, Authorized(b.f, b.token, b.recovery))
      else (p.Forbid(), Leaving(b.f.epoch, Some(b.token)))
    case DeviceWrite(ok) =>
      (p.Submit(b.f, b.token),
       if ok then Written(b.f, b.token, b.recovery) else Leaving(b.f.epoch, Some(b.token)))
    case FinishWrite => (p.Complete(b.f, b.recovery), Leaving(b.f.epoch, Some(b.token)))
    case CleanUpWrite => (p.CleanUp(b.epoch, b.held), Playback.Waiting)
  }
}
