/**
 When a turn the owner has moved past can still be heard: exactly while it is not silenced.
 One direction is PreemptOutput.RunStaysSilenced; here is the other, by showing that queued
 audio can always be brought to the device.
 */
module StaleHeard {
  import opened Wrappers
  import opened Control
  import opened Player
  import opened BargeIn
  import opened CommitTokens
  import opened StaleAudio
  import opened StaleReach
  import opened PreemptOutput

  // ---------------------------------------------------------------------------
  // Growth
  // ---------------------------------------------------------------------------

  ghost predicate Grows(a: State, b: State) {
    a.player.log.hardware <= b.player.log.hardware && a.player.lastToken <= b.player.lastToken
  }

  lemma StepGrows(c: Config, s: State, l: Label)
    requires Enabled(c, s, l)
    ensures Grows(s, Step(c, s, l))
  {
    match l
    case Pre(id, m) => PreemptOnPlayer(s, id, m);
    case Work(w) => WorkerLeavesGate(c, s, w);
    case Gate(g) => GateGrows(c, s.player, s.playback, g);
    case Device(d) => DeviceGrows(s.player, s.playback, d);
    case _ =>
  }

  lemma DeviceGrows(p: Player, b: Playback, l: DeviceLabel)
    requires DeviceEnabled(b, l)
    ensures var q := DeviceStep(p, b, l).0; p.log.hardware <= q.log.hardware && q.lastToken == p.lastToken
  {
    if l.DeviceWrite? {
      assert DeviceStep(p, b, l).0.log.hardware == p.log.hardware + [Submission(b.token, b.f)];
    }
  }

  lemma GateGrows(c: Config, p: Player, b: Playback, l: GateLabel)
    requires GateEnabled(c, p, b, l)
    ensures var q := GateStep(c, p, b, l).0; q.log.hardware == p.log.hardware && p.lastToken <= q.lastToken
  {
    if l.NextBlock? && !p.stop {
      assert GateStep(c, p, b, l).0 == p.Dequeue(p.NextCount(c).value);
    }
  }

  lemma {:induction false} RunGrows(c: Config, a: State, ls: seq<Label>, b: State)
    requires Run(c, a, ls, b)
    ensures Grows(a, b)
    decreases |ls|
  {
    if ls != [] {
      StepGrows(c, a, ls[0]);
      RunGrows(c, Step(c, a, ls[0]), ls[1..], b);
    }
  }

  /** The newest submission of `z` carries `stamp` under a token minted after `a`. */
  ghost predicate Heard(a: State, z: State, stamp: ControlStamp) {
    var n := |z.player.log.hardware|;
    && |a.player.log.hardware| < n
    && Carries(z.player.log.hardware[n - 1].frame.block, stamp)
    && a.player.lastToken < z.player.log.hardware[n - 1].token
  }

  lemma HeardLater(c: Config, a: State, ls: seq<Label>, m: State, ms: seq<Label>, z: State, stamp: ControlStamp)
    requires Run(c, a, ls, m) && Run(c, m, ms, z) && Heard(m, z, stamp)
    ensures Run(c, a, ls + ms, z) && Heard(a, z, stamp)
  {
    RunGrows(c, a, ls, m);
    RunConcat(c, a, ls, m, ms, z);
  }

  // ---------------------------------------------------------------------------
  // From a dequeued block to the device
  // ---------------------------------------------------------------------------

  lemma CheckedHeard(c: Config, a: State, stamp: ControlStamp) returns (ls: seq<Label>, z: State)
    requires a.playback.Checked? && Carries(a.playback.f.block, stamp)
    requires a.playback.f.epoch == a.player.gen && !a.player.stop
    ensures Run(c, a, ls, z) && Heard(a, z, stamp)
  {
    var f := a.playback.f;
    var l0, l1, l2 := Gate(FinalGate), Device(Authorize), Device(DeviceWrite(true));
    var s1 := Step(c, a, l0);
    assert s1.playback.Committed? && s1.playback.f == f && s1.player.Authorizes(f, s1.playback.token);
    var s2 := Step(c, s1, l1);
    assert s2.playback.Authorized? && s2.playback.f == f && s2.player == s1.player;
    z := Step(c, s2, l2);
    RunOne(c, a, l0);
    RunOne(c, s1, l1);
    RunOne(c, s2, l2);
    RunConcat(c, a, [l0], s1, [l1], s2);
    RunConcat(c, a, [l0] + [l1], s2, [l2], z);
    ls := [l0] + [l1] + [l2];
  }

  lemma FrameHeard(c: Config, a: State, stamp: ControlStamp) returns (ls: seq<Label>, z: State)
    requires (a.playback.Dequeued? || a.playback.Checked?) && Carries(a.playback.f.block, stamp)
    requires a.playback.f.epoch == a.player.gen && !a.player.stop
    ensures Run(c, a, ls, z) && Heard(a, z, stamp)
  {
    if a.playback.Checked? {
      ls, z := CheckedHeard(c, a, stamp);
    } else {
      var l := Gate(FirstCheck);
      var m := Step(c, a, l);
      RunOne(c, a, l);
      var ms;
      ms, z := CheckedHeard(c, m, stamp);
      HeardLater(c, a, [l], m, ms, z, stamp);
      ls := [l] + ms;
    }
  }

  // ---------------------------------------------------------------------------
  // From the ring to the device, once a drain is requested
  // ---------------------------------------------------------------------------

  lemma {:induction false} DrainHeard(c: Config, a: State, stamp: ControlStamp) returns (ls: seq<Label>, z: State)
    requires c.Valid() && a.playback.Waiting? && a.player.drain && !a.player.stop && Carries(a.player.ring, stamp)
    ensures Run(c, a, ls, z) && Heard(a, z, stamp)
    decreases |a.player.ring|
  {
    var l := Gate(NextBlock);
    var count := a.player.NextCount(c).value;
    var m := Step(c, a, l);
    RunOne(c, a, l);
    assert m.playback == Dequeued(Frame(a.player.gen, a.player.ring[..count]))
        && m.player.ring == a.player.ring[count..];
    assert m.player.drain && !m.player.stop && m.player.gen == a.player.gen;
    assert a.player.ring == a.player.ring[..count] + a.player.ring[count..];
    CarriesConcat(a.player.ring[..count], a.player.ring[count..], stamp);
    var ms;
    if Carries(a.player.ring[..count], stamp) {
      ms, z := FrameHeard(c, m, stamp);
    } else {
      var ks, w := ReachWaiting(c, m);
      ms, z := DrainHeard(c, w, stamp);
      HeardLater(c, m, ks, w, ms, z, stamp);
      ms := ks + ms;
    }
    HeardLater(c, a, [l], m, ms, z, stamp);
    ls := [l] + ms;
  }

  // ---------------------------------------------------------------------------
  // A drain can always be requested
  // ---------------------------------------------------------------------------

  /** What the detour to a drain request leaves alone. */
  ghost predicate Kept(a: State, b: State) {
    var p, q := a.player, b.player;
    && q.ring == p.ring && q.gen == p.gen && q.stop == p.stop
    && b.playback == a.playback
    && b.ledger.Valid()
  }

  /** The worker is not waiting for anything but the cancel flag, which is set. */
  ghost predicate Unblocked(s: State) {
    s.worker.Draining? || (s.worker.Enqueuing? && s.worker.rest != []) ==> s.cancel
  }

  function Rank(w: Worker): nat {
    match w
    case Idle => 0
    case Completing(_) => 1
    case Confirming(_) => 2
    case Clearing(_) => 3
    case Finishing(_) => 4
    case Draining(_) => 5
    case WaitStart(_) => 6
    case Ended(_, _) => 7
    case Streaming(_, _) => 8
    case Enqueuing(_, _, _, _, _) => 9
    case Stamped(_, _, _) => 10
    case Fresh(_, _, _) => 11
    case Outdated(_, _) => 11
    case Uncancelled(_, _, _) => 12
    case Chunk(_, _, _) => 13
    case Marker(_) => 14
    case Confirmed(_) => 15
    case Cleared(_) => 16
    case Got(_) => 17
  }

  /** A label that takes the worker towards idle. */
  function Forward(w: Worker): WorkerLabel
    requires !w.Idle?
  {
    match w
    case Completing(_) => CompleteTurn
    case Confirming(_) => CheckDone
    case Clearing(_) => ReleaseActive
    case Finishing(_) => TestFinal
    case Draining(_) => PollIdle
    case WaitStart(_) => StartWait
    case Ended(_, _) => TestEnd
    case Streaming(_, _) => EngineRaises
    case Enqueuing(_, _, _, _, _) => WriteRing
    case Stamped(_, _, _) => OpenEnqueue([])
    case Fresh(_, _, _) => SetStamp
    case Outdated(_, _) => CancelSelf
    case Uncancelled(_, _, _) => CheckChunk
    case Chunk(_, _, _) => TestCancel
    case Marker(_) => TestMarker
    case Confirmed(_) => SetActive
    case Cleared(_) => CheckRequest
    case Got(_) => ClearCancel
  }

  ghost predicate Closer(a: State, b: State) {
    && b.queue == a.queue && b.player.ring == a.player.ring
    && (b.player.drain || (Rank(b.worker) < Rank(a.worker) && Unblocked(b)))
  }

  lemma ForwardToEnd(c: Config, a: State)
    requires 0 < Rank(a.worker) <= 7 && Unblocked(a) && a.player.ring != []
    ensures WorkerEnabled(a, Forward(a.worker)) && Closer(a, WorkerStep(c, a, Forward(a.worker)))
  {
  }

  lemma ForwardMoves(c: Config, a: State)
    requires !a.worker.Idle? && Unblocked(a) && !a.player.stop && a.player.ring != []
    ensures WorkerEnabled(a, Forward(a.worker)) && Closer(a, WorkerStep(c, a, Forward(a.worker)))
  {
    if Rank(a.worker) <= 7 {
      ForwardToEnd(c, a);
    }
  }

  lemma ForwardStep(c: Config, a: State)
    requires !a.worker.Idle? && Unblocked(a) && a.ledger.Valid() && !a.player.stop && a.player.ring != []
    ensures Enabled(c, a, Work(Forward(a.worker)))
    ensures var b := Step(c, a, Work(Forward(a.worker)));
      && Kept(a, b) && b.queue == a.queue
      && (b.player.drain || (Rank(b.worker) < Rank(a.worker) && Unblocked(b)))
  {
    ForwardMoves(c, a);
    WorkerLeavesGate(c, a, Forward(a.worker));
    StepKeepsLedger(c, a, Work(Forward(a.worker)));
  }

  lemma {:induction false} WorkerToIdle(c: Config, a: State) returns (ls: seq<Label>, b: State)
    requires Unblocked(a) && a.ledger.Valid() && !a.player.stop && a.player.ring != []
    ensures Run(c, a, ls, b) && Kept(a, b) && b.queue == a.queue
    ensures b.player.drain || b.worker.Idle?
    decreases Rank(a.worker)
  {
    if a.player.drain || a.worker.Idle? {
      return [], a;
    }
    var l := Work(Forward(a.worker));
    ForwardStep(c, a);
    var m := Step(c, a, l);
    RunOne(c, a, l);
    var ms;
    if m.player.drain {
      ms, b := [], m;
    } else {
      ms, b := WorkerToIdle(c, m);
    }
    RunConcat(c, a, [l], m, ms, b);
    ls := [l] + ms;
  }

  /** With an idle worker the queue can be worked off, request by request. */
  lemma {:induction false} EmptyQueue(c: Config, a: State) returns (ls: seq<Label>, b: State)
    requires a.worker.Idle? && a.ledger.Valid() && !a.player.stop && a.player.ring != []
    ensures Run(c, a, ls, b) && Kept(a, b)
    ensures b.player.drain || (b.worker.Idle? && b.queue == [])
    decreases |a.queue|
  {
    if a.queue == [] {
      return [], a;
    }
    var l := Work(Get);
    var m := Step(c, a, l);
    RunOne(c, a, l);
    var ks, w := WorkerToIdle(c, m);
    RunConcat(c, a, [l], m, ks, w);
    ls, b := [l] + ks, w;
    if !w.player.drain {
      var ms;
      ms, b := EmptyQueue(c, w);
      RunConcat(c, a, ls, w, ms, b);
      ls := ls + ms;
    }
  }

  /** A string longer than every issued turn id. */
  lemma {:induction false} FreshTurnId(issued: seq<ControlStamp>) returns (turnId: string)
    ensures turnId != "" && forall i :: 0 <= i < |issued| ==> |issued[i].turnId| < |turnId|
    decreases |issued|
  {
    if issued == [] {
      return "x";
    }
    var shorter := FreshTurnId(issued[1..]);
    turnId := shorter + issued[0].turnId;
    assert forall i :: 0 < i < |issued| ==> issued[i] == issued[1..][i - 1];
  }

  /** A new turn begins and its first request is queued. */
  lemma NewTurn(c: Config, a: State, finalizeOnly: bool) returns (ls: seq<Label>, b: State, r: Request)
    requires a.ledger.Valid()
    ensures Run(c, a, ls, b) && b == a.(ledger := b.ledger, queue := a.queue + [r])
    ensures b.ledger.Valid() && b.ledger.owner.IsCurrent(r.stamp)
    ensures b.ledger.issued == a.ledger.issued + [r.stamp] && r.finalizeOnly == finalizeOnly && r.final == finalizeOnly
  {
    var turnId := FreshTurnId(a.ledger.issued);
    r := Request("m", ControlStamp(a.ledger.owner.sessionId, turnId, 1), finalizeOnly, finalizeOnly);
    ApplyKeepsValid(a.ledger, TurnBegun(turnId));
    ls, b := Then(c, a, [], a, Own(TurnBegun(turnId)));
    ls, b := Then(c, a, ls, b, Put(r));
  }

  /** A new turn whose only request is a final marker makes the worker request a drain. */
  lemma MarkerDrains(c: Config, a: State) returns (ls: seq<Label>, b: State)
    requires a.worker.Idle? && a.queue == [] && a.ledger.Valid()
    ensures Run(c, a, ls, b) && Kept(a, b) && b.player.drain
  {
    var r;
    ls, b, r := NewTurn(c, a, true);
    ls, b := Then(c, a, ls, b, Work(Get));
    ls, b := CurrentMarkerDrains(c, a, ls, b);
  }

  lemma CurrentMarkerDrains(c: Config, o: State, ls: seq<Label>, a: State) returns (ms: seq<Label>, b: State)
    requires Run(c, o, ls, a) && a.ledger.Valid()
    requires a.worker.Got? && a.worker.r.finalizeOnly && a.ledger.owner.IsCurrent(a.worker.r.stamp)
    ensures Run(c, o, ms, b) && Kept(a, b) && b.player.drain
  {
    ms, b := Then(c, o, ls, a, Work(ClearCancel));
    ms, b := Then(c, o, ms, b, Work(CheckRequest));
    ms, b := Then(c, o, ms, b, Work(SetActive));
    ms, b := Then(c, o, ms, b, Work(TestMarker));
    ms, b := Then(c, o, ms, b, Work(StartWait));
  }

  lemma {:induction false} FreshId(m: map<nat, Preempt>) returns (id: nat)
    ensures forall k :: k in m ==> k < id
    decreases |m|
  {
    if m == map[] {
      return 0;
    }
    var k :| k in m;
    var rest := m - {k};
    assert m.Keys == rest.Keys + {k} && |rest| < |m|;
    var top := FreshId(rest);
    id := top + k + 1;
  }

  /** When a new turn's request is queued, another preempter can set the cancel flag and then stall. */
  lemma CancelSet(c: Config, a: State) returns (ls: seq<Label>, b: State)
    requires a.ledger.Valid()
    ensures Run(c, a, ls, b) && Kept(a, b) && b.cancel && b.worker == a.worker
  {
    var id := FreshId(a.preempts);
    var r;
    ls, b, r := NewTurn(c, a, false);
    ls, b := Then(c, a, ls, b, Pre(id, PreStart));
    ls, b := Then(c, a, ls, b, Pre(id, PreRead));
    ls, b := Then(c, a, ls, b, Pre(id, PreDecide));
    ls, b := Then(c, a, ls, b, Pre(id, PreCancel));
  }

  /** From any state with audio queued, a drain request is reachable without touching that audio. */
  lemma ReachDrain(c: Config, a: State) returns (ls: seq<Label>, b: State)
    requires a.ledger.Valid() && !a.player.stop && a.player.ring != []
    ensures Run(c, a, ls, b) && Kept(a, b) && b.player.drain
  {
    ls, b := CancelSet(c, a);
    var ms, m := WorkerToIdle(c, b);
    RunConcat(c, a, ls, b, ms, m);
    ls, b := ls + ms, m;
    if !b.player.drain {
      ms, m := EmptyQueue(c, b);
      RunConcat(c, a, ls, b, ms, m);
      ls, b := ls + ms, m;
    }
    if !b.player.drain {
      ms, m := MarkerDrains(c, b);
      RunConcat(c, a, ls, b, ms, m);
      ls, b := ls + ms, m;
    }
  }

  // ---------------------------------------------------------------------------
  // The exact condition
  // ---------------------------------------------------------------------------

  lemma RingHeard(c: Config, a: State, stamp: ControlStamp) returns (ls: seq<Label>, z: State)
    requires c.Valid() && PlayerInv(c, a) && a.ledger.Valid() && Carries(a.player.ring, stamp)
    ensures Run(c, a, ls, z) && Heard(a, z, stamp)
  {
    var ks, w := ReachWaiting(c, a);
    var js, d := ReachDrain(c, w);
    var ms;
    ms, z := DrainHeard(c, d, stamp);
    HeardLater(c, w, js, d, ms, z, stamp);
    HeardLater(c, a, ks, w, js + ms, z, stamp);
    ls := ks + (js + ms);
  }

  /** Some continuation of `a` submits a block of `stamp` that was not yet committed in `a`. */
  ghost predicate CanBeHeard(c: Config, a: State, stamp: ControlStamp) {
    exists ls, z, x :: Run(c, a, ls, z) && x in NewlySubmitted(a, z) && Carries(x.frame.block, stamp)
        && a.player.lastToken < x.token
  }

  lemma HeardIsHeard(c: Config, a: State, ls: seq<Label>, z: State, stamp: ControlStamp)
    requires Run(c, a, ls, z) && Heard(a, z, stamp)
    ensures CanBeHeard(c, a, stamp)
  {
    RunGrows(c, a, ls, z);
    var n := |a.player.log.hardware|;
    var x := z.player.log.hardware[|z.player.log.hardware| - 1];
    assert NewlySubmitted(a, z)[|z.player.log.hardware| - 1 - n] == x;
  }

  /**
   In any reachable state, audio of a turn the owner has moved past can still be committed to
   the device if and only if the turn is not silenced: the worker is armed for it, or the
   ring holds some of it, or the playback thread holds a block of it from the current
   generation.
   */
  lemma StaleHeardExactly(c: Config, a: State, stamp: ControlStamp)
    requires c.Valid() && Reachable(c, a) && a.ledger.Past(stamp)
    ensures CanBeHeard(c, a, stamp) <==> !Silenced(a, stamp)
  {
    ReachableSystem(c, a);
    if Silenced(a, stamp) {
      forall ls, z, x | Run(c, a, ls, z) && x in NewlySubmitted(a, z) && Carries(x.frame.block, stamp)
        ensures x.token <= a.player.lastToken
      {
        RunStaysSilenced(c, a, ls, z, stamp);
        assert WasLoaded(a, x, stamp);
      }
    } else if Armed(a, stamp) {
      var ks, b := ArmedDelivers(c, a, stamp);
      RunKeepsSystem(c, a, ks, b);
      var ms, z := RingHeard(c, b, stamp);
      HeardLater(c, a, ks, b, ms, z, stamp);
      HeardIsHeard(c, a, ks + ms, z, stamp);
    } else if Carries(a.player.ring, stamp) {
      var ls, z := RingHeard(c, a, stamp);
      HeardIsHeard(c, a, ls, z, stamp);
    } else {
      var ls, z := FrameHeard(c, a, stamp);
      HeardIsHeard(c, a, ls, z, stamp);
    }
  }
}
