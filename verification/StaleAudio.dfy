/**
 What a returned preempt_output guarantees about the audio of the turns it invalidates,
 over every interleaving of the protocol.
 */
module StaleAudio {
  import opened Wrappers
  import opened Control
  import opened Player
  import opened BargeIn
  import opened CommitTokens

  ghost predicate Carries(xs: seq<Sample>, stamp: ControlStamp) {
    exists i :: 0 <= i < |xs| && xs[i].stamp == Some(stamp)
  }

  ghost function NewlyAccepted(a: State, b: State): seq<Sample> {
    var n := |a.player.log.accepted|;
    if n <= |b.player.log.accepted| then b.player.log.accepted[n..] else []
  }

  ghost function NewlySubmitted(a: State, b: State): seq<Submission> {
    var n := |a.player.log.hardware|;
    if n <= |b.player.log.hardware| then b.player.log.hardware[n..] else []
  }

  // ---------------------------------------------------------------------------
  // When a stale stamp can still enter the ring
  // ---------------------------------------------------------------------------

  /** The worker has passed its last currency check for `stamp` and nothing has told it to stop. */
  ghost predicate Armed(s: State, stamp: ControlStamp) {
    && !s.cancel
    && !s.player.stop
    && match s.worker
       case Fresh(r, _, pcm) => r.stamp == stamp && pcm != []
       case Stamped(r, _, pcm) => r.stamp == stamp && pcm != []
       case Enqueuing(r, _, rest, _, _) => r.stamp == stamp && rest != [] && !s.player.aborted
       case _ => false
  }

  /** The stamp that will tag the samples is the request's own. */
  ghost predicate StampInv(s: State) {
    && s.ledger.Valid()
    && (s.worker.Fresh? ==> s.worker.r.stamp.Scoped())
    && (s.worker.Stamped? ==> s.player.enqueueStamp == Some(s.worker.r.stamp))
    && (s.worker.Enqueuing? ==> s.worker.stamp == Some(s.worker.r.stamp))
  }

  lemma WorkerKeepsStamps(c: Config, s: State, l: WorkerLabel)
    requires StampInv(s) && WorkerEnabled(s, l)
    ensures StampInv(WorkerStep(c, s, l))
  {
    if l.CompleteTurn? {
      ApplyKeepsValid(s.ledger, TurnCompleted(s.worker.r.stamp));
    }
  }

  ghost predicate ProducerSame(p: Player, q: Player) {
    q.enqueueStamp == p.enqueueStamp && q.aborted == p.aborted && q.stop == p.stop && q.log.accepted == p.log.accepted
  }

  lemma NextBlockLeavesProducer(c: Config, p: Player, b: Playback)
    requires GateEnabled(c, p, b, NextBlock)
    ensures ProducerSame(p, GateStep(c, p, b, NextBlock).0)
  {
  }

  lemma GateLeavesProducer(c: Config, p: Player, b: Playback, l: GateLabel)
    requires GateEnabled(c, p, b, l)
    ensures ProducerSame(p, GateStep(c, p, b, l).0)
  {
    if l.NextBlock? {
      NextBlockLeavesProducer(c, p, b);
    }
  }

  lemma DeviceLeavesProducer(p: Player, b: Playback, l: DeviceLabel)
    requires DeviceEnabled(b, l)
    ensures ProducerSame(p, DeviceStep(p, b, l).0)
  {
  }

  /** What every thread but the worker leaves to the worker. */
  lemma OthersLeaveProducer(c: Config, s: State, l: Label)
    requires Enabled(c, s, l) && !l.Work?
    ensures var t := Step(c, s, l);
      && t.worker == s.worker
      && t.player.enqueueStamp == s.player.enqueueStamp && t.player.log.accepted == s.player.log.accepted
      && (s.cancel ==> t.cancel) && (s.player.stop ==> t.player.stop) && (s.player.aborted ==> t.player.aborted)
  {
    match l
    case Own(_) =>
    case Put(_) =>
    case Close =>
    case Pre(id, m) => PreemptOnPlayer(s, id, m);
    case Gate(g) => GateLeavesProducer(c, s.player, s.playback, g);
    case Device(d) => DeviceLeavesProducer(s.player, s.playback, d);
  }

  lemma StepKeepsLedger(c: Config, s: State, l: Label)
    requires s.ledger.Valid() && Enabled(c, s, l)
    ensures var t := Step(c, s, l).ledger; t.Valid() && s.ledger.issued <= t.issued
  {
    match l
    case Own(e) => ApplyKeepsValid(s.ledger, e);
    case Work(w) => if w.CompleteTurn? { ApplyKeepsValid(s.ledger, TurnCompleted(s.worker.r.stamp)); }
    case _ =>
  }

  lemma StepKeepsStamps(c: Config, s: State, l: Label)
    requires StampInv(s) && Enabled(c, s, l)
    ensures StampInv(Step(c, s, l))
  {
    if l.Work? {
      WorkerKeepsStamps(c, s, l.w);
    } else {
      OthersLeaveProducer(c, s, l);
      StepKeepsLedger(c, s, l);
    }
  }

  lemma PastForGood(a: Ledger, b: Ledger, stamp: ControlStamp)
    requires a.Valid() && b.Valid() && a.issued <= b.issued && a.Past(stamp)
    ensures b.Past(stamp) && !b.owner.IsCurrent(stamp)
  {
    var i :| 0 <= i < |a.issued| && a.issued[i] == stamp;
    assert b.issued[i] == stamp && i < |a.issued| - 1;
    IssuedOnce(b, i, |b.issued| - 1);
  }

  /** The worker cannot arm itself for a past stamp, and writes it only while armed. */
  lemma WorkerStaysUnarmed(c: Config, s: State, l: WorkerLabel, stamp: ControlStamp)
    requires StampInv(s) && WorkerEnabled(s, l)
    requires !s.ledger.owner.IsCurrent(stamp) && !Armed(s, stamp)
    ensures var t := WorkerStep(c, s, l);
      && !Armed(t, stamp)
      && s.player.log.accepted <= t.player.log.accepted
      && !Carries(NewlyAccepted(s, t), stamp)
  {
    if l.WriteRing? {
      WriterStaysUnarmed(c, s, l, stamp);
    } else {
      ArmsOnlyCurrent(c, s, l, stamp);
      WorkerLeavesGate(c, s, l);
    }
  }

  lemma ArmsOnlyCurrent(c: Config, s: State, l: WorkerLabel, stamp: ControlStamp)
    requires WorkerEnabled(s, l) && !l.WriteRing?
    requires !s.ledger.owner.IsCurrent(stamp) && !Armed(s, stamp)
    ensures !Armed(WorkerStep(c, s, l), stamp)
  {
  }

  lemma WriterStaysUnarmed(c: Config, s: State, l: WorkerLabel, stamp: ControlStamp)
    requires StampInv(s) && WorkerEnabled(s, l) && l.WriteRing? && !Armed(s, stamp)
    ensures var t := WorkerStep(c, s, l);
      && !Armed(t, stamp)
      && s.player.log.accepted <= t.player.log.accepted
      && !Carries(NewlyAccepted(s, t), stamp)
  {
    if s.worker.rest != [] && !s.player.RefusesWrite(s.cancel) {
      WriteAccepts(c, s.player, s.worker.rest, s.worker.gen, s.worker.stamp);
    }
  }

  lemma WriteAccepts(c: Config, p: Player, rest: seq<int>, gen: nat, stamp: Option<ControlStamp>)
    ensures var q := p.Write(c, rest, gen, stamp);
      && p.log.accepted <= q.log.accepted
      && forall i :: |p.log.accepted| <= i < |q.log.accepted| ==> q.log.accepted[i].stamp == stamp
  {
  }

  /** The stamp is past and the worker is not armed for it. */
  ghost predicate Shut(s: State, stamp: ControlStamp) {
    s.ledger.Past(stamp) && !Armed(s, stamp)
  }

  lemma StepStaysShut(c: Config, s: State, l: Label, stamp: ControlStamp)
    requires StampInv(s) && Enabled(c, s, l) && Shut(s, stamp)
    ensures var t := Step(c, s, l);
      && Shut(t, stamp)
      && s.player.log.accepted <= t.player.log.accepted
      && !Carries(NewlyAccepted(s, t), stamp)
  {
    StepKeepsLedger(c, s, l);
    PastForGood(s.ledger, Step(c, s, l).ledger, stamp);
    if l.Work? {
      WorkerStaysUnarmed(c, s, l.w, stamp);
    } else {
      OthersLeaveProducer(c, s, l);
    }
  }

  lemma CarriesConcat(xs: seq<Sample>, ys: seq<Sample>, stamp: ControlStamp)
    ensures Carries(xs + ys, stamp) <==> Carries(xs, stamp) || Carries(ys, stamp)
  {
    if Carries(xs, stamp) {
      var i :| 0 <= i < |xs| && xs[i].stamp == Some(stamp);
      assert (xs + ys)[i].stamp == Some(stamp);
    }
    if Carries(ys, stamp) {
      var i :| 0 <= i < |ys| && ys[i].stamp == Some(stamp);
      assert (xs + ys)[|xs| + i].stamp == Some(stamp);
    }
  }

  lemma NewlyAcceptedSplits(a: State, m: State, b: State)
    requires a.player.log.accepted <= m.player.log.accepted <= b.player.log.accepted
    ensures NewlyAccepted(a, b) == NewlyAccepted(a, m) + NewlyAccepted(m, b)
  {
  }

  lemma {:induction false} RunStaysShut(c: Config, a: State, ls: seq<Label>, b: State, stamp: ControlStamp)
    requires StampInv(a) && Run(c, a, ls, b) && Shut(a, stamp)
    ensures StampInv(b) && Shut(b, stamp)
    ensures a.player.log.accepted <= b.player.log.accepted
    ensures !Carries(NewlyAccepted(a, b), stamp)
    decreases |ls|
  {
    if ls != [] {
      var m := Step(c, a, ls[0]);
      StepKeepsStamps(c, a, ls[0]);
      StepStaysShut(c, a, ls[0], stamp);
      RunStaysShut(c, m, ls[1..], b, stamp);
      NewlyAcceptedSplits(a, m, b);
      CarriesConcat(NewlyAccepted(a, m), NewlyAccepted(m, b), stamp);
    }
  }
}
