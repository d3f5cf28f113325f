/**
 The converse of StaleAudio: an armed worker can always still deliver.  Together they say
 exactly when a sample of a past turn can still enter the ring.
 */
module StaleReach {
  import opened Wrappers
  import opened Control
  import opened Player
  import opened BargeIn
  import opened CommitTokens
  import opened StaleAudio

  /** `b` differs from `a` only in the playback thread and what that thread writes. */
  ghost predicate PlaybackOnly(a: State, b: State) {
    && b == a.(player := b.player, playback := b.playback)
    && b.player.stop == a.player.stop && b.player.aborted == a.player.aborted
    && b.player.log.accepted == a.player.log.accepted
    && b.player.enqueueStamp == a.player.enqueueStamp
  }

  /** How many critical sections the playback thread is from waiting for a block. */
  function Distance(b: Playback): nat {
    match b
    case Waiting => 0
    case Exited => 0
    case Leaving(_, _) => 1
    case Written(_, _, _) => 2
    case Authorized(_, _, _) => 3
    case Committed(_, _, _) => 4
    case Checked(_) => 5
    case Dequeued(_) => 6
  }

  /** A label that takes the playback thread towards waiting without dequeuing anything. */
  function Onward(b: Playback): Label
    requires !b.Waiting? && !b.Exited?
  {
    match b
    case Leaving(_, _) => Device(CleanUpWrite)
    case Written(_, _, _) => Device(FinishWrite)
    case Authorized(_, _, _) => Device(DeviceWrite(true))
    case Committed(_, _, _) => Device(Authorize)
    case Checked(_) => Gate(FinalGate)
    case Dequeued(_) => Gate(FirstCheck)
  }

  lemma OnwardChecks(c: Config, p: Player, b: Playback, l: GateLabel)
    requires GateEnabled(c, p, b, l) && (l.FirstCheck? || l.FinalGate?)
    ensures var (q, d) := GateStep(c, p, b, l);
      && ProducerSame(p, q) && q.ring == p.ring && q.gen == p.gen && q.drain == p.drain
      && Distance(d) < Distance(b) && !d.Exited?
  {
    if l.FinalGate? && !p.Stale(b.f) && !p.stop {
      FinalGateMints(c, p, b);
    }
  }

  lemma OnwardDevice(p: Player, b: Playback, l: DeviceLabel)
    requires DeviceEnabled(b, l)
    ensures var (q, d) := DeviceStep(p, b, l);
      && ProducerSame(p, q) && q.ring == p.ring && q.gen == p.gen && (p.drain && p.ring != [] ==> q.drain)
      && Distance(d) < Distance(b) && !d.Exited?
  {
  }

  lemma OnwardStep(c: Config, a: State)
    requires !a.playback.Waiting? && !a.playback.Exited?
    ensures Enabled(c, a, Onward(a.playback))
    ensures var b := Step(c, a, Onward(a.playback));
      && PlaybackOnly(a, b) && b.player.ring == a.player.ring && b.player.gen == a.player.gen
      && (a.player.drain && a.player.ring != [] ==> b.player.drain)
      && Distance(b.playback) < Distance(a.playback) && !b.playback.Exited?
  {
    if a.playback.Dequeued? || a.playback.Checked? {
      OnwardChecks(c, a.player, a.playback, Onward(a.playback).g);
    } else {
      OnwardDevice(a.player, a.playback, Onward(a.playback).d);
    }
  }

  lemma {:induction false} ReachWaiting(c: Config, a: State) returns (ls: seq<Label>, b: State)
    requires !a.playback.Exited?
    ensures Run(c, a, ls, b) && PlaybackOnly(a, b) && b.player.ring == a.player.ring && b.playback.Waiting?
    ensures b.player.gen == a.player.gen && (a.player.drain && a.player.ring != [] ==> b.player.drain)
    decreases Distance(a.playback)
  {
    if a.playback.Waiting? {
      ls, b := [], a;
    } else {
      var l := Onward(a.playback);
      OnwardStep(c, a);
      var ms;
      ms, b := ReachWaiting(c, Step(c, a, l));
      ls := [l] + ms;
      assert ls[1..] == ms;
    }
  }

  /** The playback thread alone can always make room in a full ring. */
  lemma MakeRoom(c: Config, a: State) returns (ls: seq<Label>, b: State)
    requires c.Valid() && Generations(c, a.player, a.playback) && !a.player.stop
    ensures Run(c, a, ls, b) && PlaybackOnly(a, b) && |b.player.ring| < c.capacity
  {
    if |a.player.ring| < c.capacity {
      return [], a;
    }
    var ms, m := ReachWaiting(c, a);
    b := Step(c, m, Gate(NextBlock));
    GateLeavesProducer(c, m.player, m.playback, NextBlock);
    RunOne(c, m, Gate(NextBlock));
    RunConcat(c, a, ms, m, [Gate(NextBlock)], b);
    ls := ms + [Gate(NextBlock)];
  }

  /** Once inside an enqueue call that nothing has stopped, the next sample can be accepted. */
  lemma EnqueuingDelivers(c: Config, a: State, stamp: ControlStamp) returns (ls: seq<Label>, b: State)
    requires c.Valid() && PlayerInv(c, a) && StampInv(a)
    requires a.worker.Enqueuing? && Armed(a, stamp)
    ensures Run(c, a, ls, b) && Carries(NewlyAccepted(a, b), stamp) && Carries(b.player.ring, stamp)
  {
    var ms, m := MakeRoom(c, a);
    b := Step(c, m, Work(WriteRing));
    RunOne(c, m, Work(WriteRing));
    RunConcat(c, a, ms, m, [Work(WriteRing)], b);
    ls := ms + [Work(WriteRing)];
    var n := |m.player.log.accepted|;
    assert b.player.log.accepted[n].stamp == Some(stamp);
    assert NewlyAccepted(a, b)[0] == b.player.log.accepted[n];
    assert b.player.ring[|m.player.ring|].stamp == Some(stamp);
  }

  lemma StampedDelivers(c: Config, a: State, stamp: ControlStamp) returns (ls: seq<Label>, b: State)
    requires c.Valid() && PlayerInv(c, a) && StampInv(a)
    requires a.worker.Stamped? && Armed(a, stamp)
    ensures Run(c, a, ls, b) && Carries(NewlyAccepted(a, b), stamp) && Carries(b.player.ring, stamp)
  {
    var l := Work(OpenEnqueue([0]));
    var m := Step(c, a, l);
    StepKeepsPlayer(c, a, l);
    StepKeepsStamps(c, a, l);
    var ms;
    ms, b := EnqueuingDelivers(c, m, stamp);
    ls := [l] + ms;
    assert ls[1..] == ms;
  }

  lemma ArmedDelivers(c: Config, a: State, stamp: ControlStamp) returns (ls: seq<Label>, b: State)
    requires c.Valid() && PlayerInv(c, a) && StampInv(a) && Armed(a, stamp)
    ensures Run(c, a, ls, b) && Carries(NewlyAccepted(a, b), stamp) && Carries(b.player.ring, stamp)
  {
    if a.worker.Enqueuing? {
      ls, b := EnqueuingDelivers(c, a, stamp);
    } else if a.worker.Stamped? {
      ls, b := StampedDelivers(c, a, stamp);
    } else {
      var l := Work(SetStamp);
      var m := Step(c, a, l);
      StepKeepsPlayer(c, a, l);
      StepKeepsStamps(c, a, l);
      var ms;
      ms, b := StampedDelivers(c, m, stamp);
      ls := [l] + ms;
      assert ls[1..] == ms;
    }
  }

  lemma {:induction false} RunKeepsStamps(c: Config, a: State, ls: seq<Label>, b: State)
    requires StampInv(a) && Run(c, a, ls, b)
    ensures StampInv(b) && a.ledger.issued <= b.ledger.issued
    decreases |ls|
  {
    if ls != [] {
      StepKeepsStamps(c, a, ls[0]);
      StepKeepsLedger(c, a, ls[0]);
      RunKeepsStamps(c, Step(c, a, ls[0]), ls[1..], b);
    }
  }

  lemma ReachableStamps(c: Config, s: State)
    requires Reachable(c, s)
    ensures StampInv(s)
  {
    var sessionId, ls :| sessionId != "" && Run(c, Init(sessionId), ls, s);
    RunKeepsStamps(c, Init(sessionId), ls, s);
  }

  /** Some continuation of `a` puts a sample of `stamp` into the ring. */
  ghost predicate CanAccept(c: Config, a: State, stamp: ControlStamp) {
    exists ls, b :: Run(c, a, ls, b) && Carries(NewlyAccepted(a, b), stamp)
  }

  /**
   The exact condition: in any reachable state, a sample of a turn the owner has moved past
   can still enter the ring if and only if the worker is armed for that turn.
   */
  lemma StaleAcceptableExactly(c: Config, a: State, stamp: ControlStamp)
    requires c.Valid() && Reachable(c, a) && a.ledger.Past(stamp)
    ensures CanAccept(c, a, stamp) <==> Armed(a, stamp)
  {
    ReachablePlayer(c, a);
    ReachableStamps(c, a);
    if Armed(a, stamp) {
      var ls, b := ArmedDelivers(c, a, stamp);
    } else {
      forall ls, b | Run(c, a, ls, b)
        ensures !Carries(NewlyAccepted(a, b), stamp)
      {
        RunStaysShut(c, a, ls, b, stamp);
      }
    }
  }
}
