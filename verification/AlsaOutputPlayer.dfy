/**
 The player as an object (src/star_runtime/speech/audio/output.py:121-862): an array ring, a
 deque of timing spans and the gate's fields, updated in place.  There is one method for each
 critical section, and each leaves the object at exactly the value the step system of
 `Player` and `BargeIn` gives, so everything proved there holds of the object.
 */
module AlsaOutput {
  import opened Wrappers
  import opened Control
  import opened Player
  import opened PcmRing
  import opened TimingSpans

  ghost function Stamps(xs: seq<Sample>): seq<Option<ControlStamp>> {
    seq(|xs|, i requires 0 <= i < |xs| => xs[i].stamp)
  }

  lemma StampsSplit(xs: seq<Sample>, k: nat)
    requires k <= |xs|
    ensures Stamps(xs)[..k] == Stamps(xs[..k]) && Stamps(xs)[k..] == Stamps(xs[k..])
  {
  }

  /** `k` more samples under one stamp. */
  lemma {:induction false} StampsTag(xs: seq<Sample>, pcm: seq<int>, gen: nat, stamp: Option<ControlStamp>)
    ensures Stamps(xs + Tag(pcm, gen, stamp)) == Stamps(xs) + Repeat(|pcm|, stamp)
    decreases |pcm|
  {
    if pcm == [] {
      assert xs + Tag(pcm, gen, stamp) == xs;
    } else {
      var front := pcm[..|pcm| - 1];
      var last := Sample(pcm[|pcm| - 1], gen, stamp);
      StampsTag(xs, front, gen, stamp);
      assert xs + Tag(pcm, gen, stamp) == (xs + Tag(front, gen, stamp)) + [last];
      assert Stamps((xs + Tag(front, gen, stamp)) + [last]) == Stamps(xs + Tag(front, gen, stamp)) + [stamp];
    }
  }

  lemma NothingAdded(p: Player, gen: nat, stamp: Option<ControlStamp>)
    ensures var added := Tag([], gen, stamp);
      p.(ring := p.ring + added, log := p.log.(accepted := p.log.accepted + added)) == p
  {
    assert p.ring + Tag([], gen, stamp) == p.ring;
    assert p.log.accepted + Tag([], gen, stamp) == p.log.accepted;
  }

  datatype OpenResult = Raised | Refused | Opened(stamp: Option<ControlStamp>)

  class AlsaOutputPlayer {
    const c: Config
    const ring: PcmRingBuffer<Sample>
    var spans: seq<Span>
    var gen: nat
    var aborted: bool
    var stop: bool
    var drain: bool
    var inflight: nat
    var enqueueStamp: Option<ControlStamp>
    var writeEpoch: Option<nat>
    var commit: Option<nat>
    var commitHasPayload: bool
    var lastToken: nat
    var pendingRecovery: Option<nat>
    var firstEnqueue: bool
    var firstDequeue: bool
    var n: Counters
    ghost var log: Log

    ghost function Repr(): set<object> {
      {this, ring, ring.samples}
    }

    /** The spans are the run-length encoding of the queued samples' stamps. */
    ghost predicate Valid()
      reads Repr()
    {
      && c.Valid()
      && ring.Valid()
      && ring.samples.Length == c.capacity
      && Canonical(spans)
      && Expand(spans) == Stamps(ring.Contents())
    }

    ghost function View(): Player
      requires Valid()
      reads Repr()
    {
      Player(ring.Contents(), gen, aborted, stop, drain, inflight, enqueueStamp, writeEpoch, commit, commitHasPayload,
             lastToken, pendingRecovery, firstEnqueue, firstDequeue, n, log)
    }

    constructor (c: Config)
      requires c.Valid()
      ensures Valid() && fresh(ring) && fresh(ring.samples) && this.c == c && View() == NewPlayer()
    {
      this.c := c;
      this.ring := new PcmRingBuffer(c.capacity);
      spans, gen, aborted, stop, drain, inflight := [], 0, false, false, false, 0;
      enqueueStamp, writeEpoch, commit, commitHasPayload, lastToken := None, None, None, false, 0;
      pendingRecovery, firstEnqueue, firstDequeue := None, false, false;
      n := Counters(0, 0, 0, 0, 0, 0, 0, 0, 0, 0, 0);
      log := Log([], [], 0, [], [], Fates(0, 0, 0), Marks([], [], []));
    }

    // ---- producer -----------------------------------------------------------

    method SetControlStamp(stamp: ControlStamp)
      requires Valid()
      modifies this
      ensures Valid() && View() == old(View()).SetStamp(stamp)
      ensures enqueueStamp.Some? <==> stamp.sessionId != "" && stamp.turnId != "" && stamp.epoch > 0
      ensures enqueueStamp.Some? ==> enqueueStamp.value == stamp
    {
      enqueueStamp := if stamp.Scoped() then Some(stamp) else None;
    }

    /** The first critical section of enqueue. */
    method OpenEnqueue(cancel: bool) returns (r: OpenResult)
      requires Valid()
      modifies this
      ensures Valid()
      ensures r == if old(stop) then Raised else if cancel then Refused else Opened(old(enqueueStamp))
      ensures View() == if r.Opened? then old(View()).Open() else old(View())
    {
      if stop {
        return Raised;
      }
      if cancel {
        return Refused;
      }
      r := Opened(enqueueStamp);
      Reopen();
    }

    method Reopen()
      requires Valid()
      modifies this
      ensures Valid() && View() == old(View()).Open()
    {
      NoteEnqueue();
      aborted := false;
      drain := false;
    }

    /** Counts the first enqueue of a replacement turn. */
    method NoteEnqueue()
      modifies this`firstEnqueue, this`n, this`log
      ensures var first := pendingRecovery == Some(gen) && !old(firstEnqueue);
        && firstEnqueue == (old(firstEnqueue) || first)
        && n == old(n).(replacementEnqueues := old(n).replacementEnqueues + if first then 1 else 0)
        && log == old(log).(marks := old(log).marks.Enqueue(first, gen))
    {
      if pendingRecovery == Some(gen) && !firstEnqueue {
        firstEnqueue := true;
        n := n.(replacementEnqueues := n.replacementEnqueues + 1);
        log := log.(marks := log.marks.Enqueue(true, gen));
      }
    }

    /** Writes as many samples as fit, with their spans. */
    method WriteSome(rest: seq<int>, openGen: nat, stamp: Option<ControlStamp>) returns (count: nat)
      requires Valid()
      modifies this`spans, this`log, ring, ring.samples
      ensures Valid() && count == old(View()).Fits(c, rest)
      ensures var added := Tag(rest[..count], openGen, stamp);
        View() == old(View()).(
          ring := old(View()).ring + added,
          log := old(log).(accepted := old(log).accepted + added))
    {
      ghost var was := ring.Contents();
      var tagged := Tag(rest, openGen, stamp);
      count := ring.Write(tagged);
      assert tagged[..count] == Tag(rest[..count], openGen, stamp);
      AppendEncodes(spans, count, stamp);
      spans := Append(spans, count, stamp);
      StampsTag(was, rest[..count], openGen, stamp);
      log := log.(accepted := log.accepted + tagged[..count]);
    }

    /** One turn of the enqueue loop; None when the call gives up. */
    method EnqueueSome(rest: seq<int>, openGen: nat, stamp: Option<ControlStamp>, cancel: bool)
      returns (written: Option<nat>)
      requires Valid()
      modifies Repr()
      ensures Valid()
      ensures written == if old(View()).RefusesWrite(cancel) then None else Some(old(View()).Fits(c, rest))
      ensures View() == if written.Some? then old(View()).Write(c, rest, openGen, stamp) else old(View())
    {
      if stop || aborted || cancel {
        return None;
      }
      var count := WriteSome(rest, openGen, stamp);
      if count == 0 {
        NothingAdded(old(View()), openGen, stamp);
        n := n.(backpressureWaits := n.backpressureWaits + 1);
      }
      written := Some(count);
    }

    method RequestDrain()
      requires Valid()
      modifies this
      ensures Valid() && View() == old(View()).RequestDrain()
    {
      drain := true;
    }

    /** One poll of wait_until_idle. */
    method PollIdle() returns (idle: bool)
      requires Valid()
      modifies this
      ensures Valid() && idle == old(View()).Quiet()
      ensures View() == if idle then old(View()).EndDrain() else old(View())
    {
      idle := ring.size == 0 && inflight == 0;
      if idle {
        drain := false;
      }
    }

    // ---- invalidation -------------------------------------------------------

    /** Empties the ring and the spans; the samples count as cleared. */
    method ClearQueue()
      requires Valid()
      modifies this`spans, this`log, ring
      ensures Valid()
      ensures View() == old(View()).(ring := [], log := old(log).(cleared := old(log).cleared + |old(View()).ring|))
    {
      log := log.(cleared := log.cleared + ring.size);
      ring.Clear();
      spans := [];
    }

    method Abort()
      requires Valid()
      modifies this, ring
      ensures Valid() && View() == old(View()).Abort()
    {
      ClearQueue();
      NextGeneration();
    }

    /** Starts the generation whose first block will count as the recovery. */
    method NextGeneration()
      modifies this`aborted, this`drain, this`gen, this`pendingRecovery, this`firstEnqueue, this`firstDequeue, this`n
      ensures aborted && !drain && gen == old(gen) + 1 && pendingRecovery == Some(gen) && !firstEnqueue && !firstDequeue
      ensures n == old(n).(
        residualCommitted := old(n).residualCommitted + if commit.Some? && commitHasPayload then 1 else 0,
        interruptions := old(n).interruptions + 1)
    {
      aborted := true;
      drain := false;
      gen := gen + 1;
      pendingRecovery := Some(gen);
      firstEnqueue, firstDequeue := false, false;
      if commit.Some? && commitHasPayload {
        n := n.(residualCommitted := n.residualCommitted + 1);
      }
      n := n.(interruptions := n.interruptions + 1);
    }

    method Close()
      requires Valid()
      modifies this, ring
      ensures Valid() && View() == old(View()).Close()
    {
      stop := true;
      ClearQueue();
      gen := gen + 1;
    }

    // ---- playback thread ----------------------------------------------------

    /** How many samples to take next; None means wait on the condition. */
    method Available() returns (count: Option<nat>)
      requires Valid()
      ensures count == View().NextCount(c)
    {
      if c.block <= ring.size {
        return Some(c.block);
      }
      if drain && ring.size > 0 {
        return Some(ring.size);
      }
      if c.continuous {
        return Some(0);
      }
      count := None;
    }

    /** Takes `count` samples off the ring and off the spans. */
    method TakeBlock(count: nat) returns (block: seq<Sample>, stamps: seq<ControlStamp>)
      requires Valid() && count <= ring.size
      modifies this`spans, this`log, ring
      ensures Valid() && block == old(View()).ring[..count]
      ensures View() == old(View()).(
        ring := old(View()).ring[count..],
        log := old(log).(dequeued := old(log).dequeued + block))
      ensures stamps == Distinct(Stamps(block))
    {
      ghost var was := ring.Contents();
      var taken := ring.Read(count);
      block := taken[..];
      StampsSplit(was, count);
      spans, stamps := Consume(spans, count);
      log := log.(dequeued := log.dequeued + block);
    }

    /** Takes a payload block. */
    method DequeueBlock(count: nat) returns (block: seq<Sample>, stamps: seq<ControlStamp>)
      requires Valid() && 0 < count <= ring.size
      modifies this, ring
      ensures Valid() && block == old(View()).ring[..count] && gen == old(gen)
      ensures View() == old(View()).Dequeue(count)
      ensures stamps == Distinct(Stamps(block))
    {
      block, stamps := TakeBlock(count);
      NoteDequeue(count);
    }

    /** Counts the first block of a replacement turn. */
    method NoteDequeue(count: nat)
      modifies this`inflight, this`firstDequeue, this`n, this`log
      ensures log == old(log).(
        fates := old(log).fates.(taken := old(log).fates.taken + 1),
        marks := old(log).marks.Dequeue(pendingRecovery == Some(gen) && !old(firstDequeue), gen))
      ensures var first := pendingRecovery == Some(gen) && !old(firstDequeue);
        && inflight == count && firstDequeue == (old(firstDequeue) || first)
        && n == old(n).(replacementDequeues := old(n).replacementDequeues + if first then 1 else 0)
    {
      inflight := count;
      log := log.(fates := log.fates.(taken := log.fates.taken + 1));
      if pendingRecovery == Some(gen) && !firstDequeue {
        firstDequeue := true;
        n := n.(replacementDequeues := n.replacementDequeues + 1);
        log := log.(marks := log.marks.Dequeue(true, gen));
      }
    }

    /** Takes the next block off the ring, with the distinct stamps of its samples. */
    method NextBlock(ghost b: Playback) returns (next: Playback, stamps: seq<ControlStamp>)
      requires Valid() && GateEnabled(c, View(), b, GateLabel.NextBlock)
      modifies this, ring
      ensures Valid() && (View(), next) == GateStep(c, old(View()), b, GateLabel.NextBlock)
      ensures stamps == if next.Dequeued? then Distinct(Stamps(next.f.block)) else []
      ensures next.Dequeued? <==> !old(stop)
      ensures next.Dequeued? ==> old(ring.Contents()) == next.f.block + ring.Contents()
      ensures next.Dequeued? && next.f.HasPayload() ==>
        |next.f.block| == c.block || (old(drain) && ring.Contents() == [] && |next.f.block| < c.block)
      ensures next.Dequeued? && !next.f.HasPayload() ==>
        c.continuous && |ring.Contents()| < c.block && !(old(drain) && ring.Contents() != [])
    {
      if stop {
        return Exited, [];
      }
      var count := Available();
      NextBlockDequeues(c, View(), b);
      BlockTaken(c, View(), b);
      if count.value == 0 {
        inflight := 0;
        assert old(View()).ring[..0] == [];
        return Dequeued(Frame(gen, [])), [];
      }
      var block;
      block, stamps := DequeueBlock(count.value);
      next := Dequeued(Frame(gen, block));
    }

    method FirstCheck(b: Playback) returns (next: Playback)
      requires Valid() && b.Dequeued?
      modifies this
      ensures Valid() && (View(), next) == GateStep(c, old(View()), b, GateLabel.FirstCheck)
    {
      if b.f.HasPayload() && b.f.epoch != gen {
        n := n.(staleDropped := n.staleDropped + 1);
        return Leaving(b.f.epoch, None);
      }
      if stop {
        return Leaving(b.f.epoch, None);
      }
      next := Checked(b.f);
    }

    /** The stream could not be restarted: the block is given up. */
    method RestartFailed(b: Playback) returns (next: Playback)
      requires Valid() && b.Checked?
      modifies this`log
      ensures Valid() && (View(), next) == GateStep(c, old(View()), b, GateLabel.RestartFails)
    {
      log := log.(fates := log.fates.(lost := log.fates.lost + if b.f.HasPayload() then 1 else 0));
      next := Leaving(b.f.epoch, None);
    }

    method MintToken(f: Frame)
      modifies this`lastToken, this`commit, this`writeEpoch, this`commitHasPayload, this`log
      ensures lastToken == old(lastToken) + 1 && commit == Some(lastToken)
      ensures writeEpoch == Some(f.epoch) && commitHasPayload == f.HasPayload()
      ensures log == old(log).(
        mints := old(log).mints + [gen],
        fates := old(log).fates.(minted := old(log).fates.minted + if f.HasPayload() then 1 else 0))
    {
      lastToken := lastToken + 1;
      commit := Some(lastToken);
      writeEpoch := Some(f.epoch);
      commitHasPayload := f.HasPayload();
      log := log.(
        mints := log.mints + [gen],
        fates := log.fates.(minted := log.fates.minted + if f.HasPayload() then 1 else 0));
    }

    /** The final generation check; passing it mints the commit token. */
    method FinalGate(b: Playback) returns (next: Playback)
      requires Valid() && b.Checked?
      modifies this
      ensures Valid() && (View(), next) == GateStep(c, old(View()), b, GateLabel.FinalGate)
    {
      if b.f.HasPayload() && b.f.epoch != gen {
        n := n.(staleDropped := n.staleDropped + 1);
        return Leaving(b.f.epoch, None);
      }
      if stop {
        return Leaving(b.f.epoch, None);
      }
      var f := if b.f.HasPayload() then b.f else b.f.(epoch := gen);
      MintToken(f);
      next := Committed(f, lastToken, f.HasPayload() && pendingRecovery == Some(f.epoch));
    }

    /** Only the exact token minted by the final gate may be submitted. */
    method Authorize(b: Playback) returns (next: Playback)
      requires Valid() && b.Committed?
      modifies this
      ensures Valid() && (View(), next) == DeviceStep(old(View()), b, DeviceLabel.Authorize)
      ensures next.Authorized? <==> old(commit) == Some(b.token) && old(writeEpoch) == Some(b.f.epoch)
      ensures n.forbidden == old(n.forbidden) + if next.Authorized? then 0 else 1
    {
      if commit == Some(b.token) && writeEpoch == Some(b.f.epoch) {
        next := Authorized(b.f, b.token, b.recovery);
      } else {
        n := n.(forbidden := n.forbidden + 1);
        next := Leaving(b.f.epoch, Some(b.token));
      }
    }

    /** The device call itself, outside the lock; it may fail. */
    method DeviceWrite(b: Playback, ok: bool) returns (next: Playback)
      requires Valid() && b.Authorized?
      modifies this`log
      ensures Valid() && (View(), next) == DeviceStep(old(View()), b, DeviceLabel.DeviceWrite(ok))
    {
      log := log.(hardware := log.hardware + [Submission(b.token, b.f)]);
      next := if ok then Written(b.f, b.token, b.recovery) else Leaving(b.f.epoch, Some(b.token));
    }

    /** Counts a completed write, and whether its generation is over. */
    method CountWrite(f: Frame)
      modifies this`n
      ensures n == old(n).(
        blocksWritten := old(n).blocksWritten + (if f.HasPayload() then 1 else 0),
        silenceBlocks := old(n).silenceBlocks + (if f.HasPayload() then 0 else 1),
        residualCompleted := old(n).residualCompleted + (if f.HasPayload() && f.epoch != gen then 1 else 0))
    {
      if f.HasPayload() {
        n := n.(blocksWritten := n.blocksWritten + 1);
      } else {
        n := n.(silenceBlocks := n.silenceBlocks + 1);
      }
      if f.HasPayload() && f.epoch != gen {
        n := n.(residualCompleted := n.residualCompleted + 1);
      }
    }

    /** Counts the recovery of the pending generation. */
    method NoteRecovery(f: Frame, recovery: bool)
      modifies this`pendingRecovery, this`n, this`log
      ensures var recovered := recovery && old(pendingRecovery) == Some(f.epoch);
        && pendingRecovery == (if recovered then None else old(pendingRecovery))
        && n == old(n).(recoveries := old(n).recoveries + if recovered then 1 else 0)
        && log == old(log).(marks := old(log).marks.Recover(recovered, f.epoch))
    {
      if recovery && pendingRecovery == Some(f.epoch) {
        n := n.(recoveries := n.recoveries + 1);
        log := log.(marks := log.marks.Recover(true, f.epoch));
        pendingRecovery := None;
      }
    }

    method FinishWrite(b: Playback) returns (next: Playback)
      requires Valid() && b.Written?
      modifies this
      ensures Valid() && (View(), next) == DeviceStep(old(View()), b, DeviceLabel.FinishWrite)
    {
      CountWrite(b.f);
      NoteRecovery(b.f, b.recovery);
      next := Leaving(b.f.epoch, Some(b.token));
    }

    /** Gives up the write's epoch and its token, when they are still its own. */
    method ReleaseWrite(epoch: nat, held: Option<nat>)
      modifies this`writeEpoch, this`commit, this`commitHasPayload
      ensures writeEpoch == if old(writeEpoch) == Some(epoch) then None else old(writeEpoch)
      ensures commit == if held.Some? && old(commit) == held then None else old(commit)
      ensures commitHasPayload == if held.Some? && old(commit) == held then false else old(commitHasPayload)
    {
      if writeEpoch == Some(epoch) {
        writeEpoch := None;
      }
      if held.Some? && commit == held {
        commit := None;
        commitHasPayload := false;
      }
    }

    method CleanUp(b: Playback) returns (next: Playback)
      requires Valid() && b.Leaving?
      modifies this
      ensures Valid() && (View(), next) == DeviceStep(old(View()), b, DeviceLabel.CleanUpWrite)
    {
      ReleaseWrite(b.epoch, b.held);
      inflight := 0;
      if ring.size == 0 {
        drain := false;
      }
      next := Playback.Waiting;
    }
  }
}
