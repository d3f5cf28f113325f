/**
 Concrete interleavings in which a preempt_output call that returned False did not silence
 the turn the owner had moved past, and a shutdown that breaks the residual-write bound.
 */
module Leaks {
  import opened Wrappers
  import opened Control
  import opened Player
  import opened BargeIn
  import opened CommitTokens
  import opened StaleAudio
  import opened PreemptOutput
  import opened FalseReturns

  const SMALL := Config(4, 1, false)
  const TURN := ControlStamp("s", "t", 1)
  const ASK := Request("r", TURN, true, false)

  /** The worker takes up the oldest request. */
  lemma TakesUp(o: State, ls: seq<Label>, a: State) returns (ms: seq<Label>, b: State)
    requires Run(SMALL, o, ls, a) && a.worker.Idle? && a.queue != []
    requires a.ledger.owner.IsCurrent(a.queue[0].stamp) && !a.queue[0].finalizeOnly
    ensures Run(SMALL, o, ms, b)
    ensures b == a.(worker := Streaming(a.queue[0], false), queue := a.queue[1..], cancel := false,
        active := Some(a.queue[0].id))
  {
    ms, b := Then(SMALL, o, ls, a, Work(Get));
    ms, b := Then(SMALL, o, ms, b, Work(ClearCancel));
    ms, b := Then(SMALL, o, ms, b, Work(CheckRequest));
    ms, b := Then(SMALL, o, ms, b, Work(SetActive));
  }

  /** The engine delivers a chunk and the worker finds it current. */
  lemma TakesChunk(o: State, ls: seq<Label>, a: State, pcm: seq<int>) returns (ms: seq<Label>, b: State)
    requires Run(SMALL, o, ls, a) && a.worker.Streaming? && !a.cancel && a.ledger.owner.IsCurrent(a.worker.r.stamp)
    ensures Run(SMALL, o, ms, b) && b == a.(worker := Fresh(a.worker.r, a.worker.started, pcm))
  {
    ms, b := Then(SMALL, o, ls, a, Work(EngineChunk(pcm)));
    ms, b := Then(SMALL, o, ms, b, Work(TestCancel));
    ms, b := Then(SMALL, o, ms, b, Work(CheckChunk));
  }

  /** A turn has begun and one of its requests is queued. */
  lemma OneQueued(r: Request) returns (ls: seq<Label>, a: State)
    ensures Run(SMALL, Init("s"), ls, a)
    ensures a == Init("s").(ledger := Ledger(Owner("s", Some(TURN), None, 0), [TURN]), queue := [r])
  {
    ls, a := Then(SMALL, Init("s"), [], Init("s"), Own(TurnBegun("t")));
    ls, a := Then(SMALL, Init("s"), ls, a, Put(r));
  }

  /** A preempter that finds a queued request gets as far as setting the cancel flag. */
  lemma SetsFlag(o: State, ls: seq<Label>, a: State) returns (ms: seq<Label>, b: State)
    requires Run(SMALL, o, ls, a) && a.preempts == map[] && a.queue != [] && |a.ledger.issued| == 1
    ensures Run(SMALL, o, ms, b) && b == a.(cancel := true, preempts := map[0 := Preempt(Aborting, 0, 0)])
  {
    ms, b := Then(SMALL, o, ls, a, Pre(0, PreStart));
    ms, b := Then(SMALL, o, ms, b, Pre(0, PreRead));
    ms, b := Then(SMALL, o, ms, b, Pre(0, PreDecide));
    ms, b := Then(SMALL, o, ms, b, Pre(0, PreCancel));
  }

  /** The preempter aborts the player and finds nothing left to empty. */
  lemma AbortsEmpty(o: State, ls: seq<Label>, a: State) returns (ms: seq<Label>, b: State)
    requires Run(SMALL, o, ls, a) && a.preempts == map[0 := Preempt(Aborting, 0, 0)] && a.queue == []
    ensures Run(SMALL, o, ms, b)
    ensures b == a.(player := a.player.Abort(), preempts := map[0 := Preempt(Releasing, 0, a.player.lastToken)])
  {
    ms, b := Then(SMALL, o, ls, a, Pre(0, PreAbort));
    ms, b := Then(SMALL, o, ms, b, Pre(0, PreEmpty));
  }

  /** The worker takes up the request it has fetched, and its engine delivers a chunk. */
  lemma Produces(o: State, ls: seq<Label>, a: State, pcm: seq<int>) returns (ms: seq<Label>, b: State)
    requires Run(SMALL, o, ls, a) && a.worker.Got? && a.ledger.owner.IsCurrent(a.worker.r.stamp)
        && !a.worker.r.finalizeOnly
    ensures Run(SMALL, o, ms, b)
    ensures b == a.(worker := Fresh(a.worker.r, false, pcm), cancel := false, active := Some(a.worker.r.id))
  {
    ms, b := Then(SMALL, o, ls, a, Work(ClearCancel));
    ms, b := Then(SMALL, o, ms, b, Work(CheckRequest));
    ms, b := Then(SMALL, o, ms, b, Work(SetActive));
    ms, b := TakesChunk(o, ms, b, pcm);
  }

  /** The engine ends and no audio of a final sentence has to be waited for. */
  lemma EndsRequest(o: State, ls: seq<Label>, a: State) returns (ms: seq<Label>, b: State)
    requires Run(SMALL, o, ls, a) && a.worker.Streaming? && !a.cancel && !(a.worker.r.final && a.worker.started)
    ensures Run(SMALL, o, ms, b)
    ensures b == a.(worker := if a.worker.r.final then Clearing(a.worker.r) else Idle)
  {
    ms, b := Then(SMALL, o, ls, a, Work(EngineEnds));
    ms, b := Then(SMALL, o, ms, b, Work(TestEnd));
    ms, b := Then(SMALL, o, ms, b, Work(TestFinal));
  }

  /** The worker is about to pick up a request while a preempter has set the cancel flag. */
  lemma OrphanSetup() returns (ls: seq<Label>, a: State)
    ensures Run(SMALL, Init("s"), ls, a)
    ensures a.ledger == Ledger(Owner("s", Some(TURN), None, 0), [TURN])
    ensures a.worker == Got(ASK) && a.cancel && a.active == None && a.queue == [] && a.player == NewPlayer()
    ensures a.preempts == map[0 := Preempt(Aborting, 0, 0)]
  {
    var s := Init("s");
    ls, a := OneQueued(ASK);
    ls, a := SetsFlag(s, ls, a);
    ls, a := Then(SMALL, s, ls, a, Work(Get));
  }

  /** The worker clears the flag and starts producing. */
  lemma OrphanBusy() returns (ls: seq<Label>, a: State)
    ensures Run(SMALL, Init("s"), ls, a)
    ensures a.ledger == Ledger(Owner("s", Some(TURN), None, 0), [TURN])
    ensures a.worker == Fresh(ASK, false, [7]) && !a.cancel && a.active == Some("r") && a.queue == []
    ensures a.player == NewPlayer() && a.preempts == map[0 := Preempt(Aborting, 0, 0)]
  {
    var s := Init("s");
    ls, a := OrphanSetup();
    ls, a := Produces(s, ls, a, [7]);
  }

  /** The slow preempter releases the new request. */
  lemma OrphanMade() returns (ls: seq<Label>, a: State)
    ensures Run(SMALL, Init("s"), ls, a)
    ensures a.ledger == Ledger(Owner("s", Some(TURN), None, 0), [TURN])
    ensures a.worker == Fresh(ASK, false, [7]) && !a.cancel && a.active == None && a.queue == []
    ensures a.player == NewPlayer().Abort() && a.preempts.Keys == {0}
    ensures Orphaned(a)
  {
    var s := Init("s");
    ls, a := OrphanBusy();
    ls, a := AbortsEmpty(s, ls, a);
    ls, a := Then(SMALL, s, ls, a, Pre(0, PreRelease));
  }

  /** A preempter that finds nothing active and nothing queued returns False and changes nothing else. */
  lemma PreemptsNothing(a: State, id: nat) returns (ls: seq<Label>, b: State)
    requires id !in a.preempts && a.active == None && a.queue == []
    ensures Run(SMALL, a, ls, b) && PreemptAt(b, id, Returned(false))
    ensures b.player == a.player && b.playback == a.playback && b.worker == a.worker && b.cancel == a.cancel
  {
    ls, b := [], a;
    ls, b := Then(SMALL, a, ls, b, Pre(id, PreStart));
    ls, b := Then(SMALL, a, ls, b, Pre(id, PreRead));
    ls, b := Then(SMALL, a, ls, b, Pre(id, PreDecide));
  }

  /** The orphaned worker writes its chunk. */
  lemma OrphanWrites(b: State) returns (ms: seq<Label>, z: State)
    requires b.worker == Fresh(ASK, false, [7]) && !b.cancel && b.player == NewPlayer().Abort()
    ensures Run(SMALL, b, ms, z) && Carries(NewlyAccepted(b, z), TURN)
  {
    ms, z := EnqueueRun(SMALL, b, [], b, [7]);
    ms, z := Then(SMALL, b, ms, z, Work(WriteRing));
    assert NewlyAccepted(b, z)[0] == Sample(7, 1, Some(TURN));
  }

  /**
   The owner advances the epoch and the barge-in preempts, but finds no active request and an
   empty queue and returns False; the orphaned worker then puts the stale turn into the ring.
   */
  lemma FalseReturnAdmitsStale()
    returns (ks: seq<Label>, a: State, ls: seq<Label>, b: State, ms: seq<Label>, z: State)
    ensures Run(SMALL, Init("s"), ks, a) && a.ledger.Past(TURN) && 1 !in a.preempts
    ensures Run(SMALL, a, ls, b) && PreemptAt(b, 1, Returned(false))
    ensures Run(SMALL, b, ms, z) && Carries(NewlyAccepted(b, z), TURN)
  {
    ks, a := OrphanMade();
    ks, a := Then(SMALL, Init("s"), ks, a, Own(EpochAdvanced));
    ls, b := PreemptsNothing(a, 1);
    ms, z := OrphanWrites(b);
  }

  // ---------------------------------------------------------------------------
  // A final sentence without audio
  // ---------------------------------------------------------------------------

  const FIRST := Request("r", TURN, false, false)

  lemma FirstSentenceQueued() returns (ls: seq<Label>, a: State)
    ensures Run(SMALL, Init("s"), ls, a)
    ensures a.ledger == Ledger(Owner("s", Some(TURN), None, 0), [TURN])
    ensures a.worker == Stamped(FIRST, false, [7]) && !a.cancel && a.active == Some("r") && a.queue == [ASK]
    ensures a.player == NewPlayer().SetStamp(TURN) && a.playback.Waiting? && a.preempts == map[]
  {
    var s := Init("s");
    ls, a := OneQueued(FIRST);
    ls, a := Then(SMALL, s, ls, a, Put(ASK));
    ls, a := TakesUp(s, ls, a);
    ls, a := TakesChunk(s, ls, a, [7]);
    ls, a := Then(SMALL, s, ls, a, Work(SetStamp));
  }

  const HEARD := Sample(7, 0, Some(TURN))

  /** Two samples of the first sentence are in the ring. */
  ghost predicate TwoQueued(p: Player) {
    && p.ring == [HEARD, HEARD] && p.gen == 0 && !p.stop && p.commit == None && p.log.hardware == []
    && p.n.residualCompleted == 0 && p.n.residualCommitted == 0
  }

  /** A chunk that fits goes into the ring of a fresh player in one piece. */
  lemma WritesTwo(o: State, ls: seq<Label>, a: State) returns (ms: seq<Label>, b: State)
    requires Run(SMALL, o, ls, a) && a.worker.Stamped? && a.worker.pcm != [] && !a.cancel
        && a.player == NewPlayer().SetStamp(TURN)
    ensures Run(SMALL, o, ms, b) && TwoQueued(b.player)
    ensures b == a.(worker := Enqueuing(a.worker.r, a.worker.started, [], 0, Some(TURN)), player := b.player)
  {
    ms, b := Then(SMALL, o, ls, a, Work(OpenEnqueue([7, 7])));
    ms, b := Then(SMALL, o, ms, b, Work(WriteRing));
    assert b.player.ring == [HEARD, HEARD];
  }

  lemma FirstSentenceWritten() returns (ls: seq<Label>, a: State)
    ensures Run(SMALL, Init("s"), ls, a)
    ensures a.ledger == Ledger(Owner("s", Some(TURN), None, 0), [TURN])
    ensures a.worker.Enqueuing? && a.worker.r == FIRST && a.worker.rest == []
    ensures !a.cancel && a.active == Some("r") && a.queue == [ASK]
    ensures TwoQueued(a.player) && a.playback.Waiting? && a.preempts == map[]
  {
    var s := Init("s");
    ls, a := FirstSentenceQueued();
    ls, a := WritesTwo(s, ls, a);
  }

  /** Two samples are queued and the worker is through with the first sentence. */
  lemma FirstSentenceDone() returns (ls: seq<Label>, a: State)
    ensures Run(SMALL, Init("s"), ls, a)
    ensures a.ledger == Ledger(Owner("s", Some(TURN), None, 0), [TURN])
    ensures a.worker == Idle && !a.cancel && a.active == Some("r") && a.queue == [ASK]
    ensures TwoQueued(a.player) && a.playback.Waiting? && a.preempts == map[]
  {
    var s := Init("s");
    ls, a := FirstSentenceWritten();
    ls, a := Then(SMALL, s, ls, a, Work(WriteRing));
    ls, a := EndsRequest(s, ls, a);
  }

  lemma FinalSentenceSilent() returns (ls: seq<Label>, a: State)
    ensures Run(SMALL, Init("s"), ls, a)
    ensures a.ledger == Ledger(Owner("s", Some(TURN), None, 0), [TURN])
    ensures a.worker == Clearing(ASK) && !a.cancel && a.active == Some("r") && a.queue == []
    ensures TwoQueued(a.player) && a.playback.Waiting? && a.preempts == map[]
  {
    var s := Init("s");
    ls, a := FirstSentenceDone();
    ls, a := TakesUp(s, ls, a);
    ls, a := EndsRequest(s, ls, a);
  }

  /** The final sentence yields no audio, so the turn completes while its audio is still queued. */
  lemma EarlyCompletion() returns (ls: seq<Label>, a: State)
    ensures Run(SMALL, Init("s"), ls, a)
    ensures a.ledger == Ledger(Owner("s", Some(TURN), Some(TURN), 0), [TURN]) && !a.ledger.owner.CanInvalidate()
    ensures !a.cancel && a.active == None && a.queue == []
    ensures TwoQueued(a.player) && a.playback.Waiting? && a.preempts == map[]
  {
    var s := Init("s");
    ls, a := FinalSentenceSilent();
    ls, a := Then(SMALL, s, ls, a, Work(ReleaseActive));
    ls, a := ConfirmRun(SMALL, s, ls, a);
  }

  /** One block from the ring through the final gate. */
  lemma PassesGate(a: State, ls: seq<Label>, b: State) returns (ms: seq<Label>, d: State)
    requires Run(SMALL, a, ls, b) && b.playback.Waiting? && !b.player.stop && b.player.ring != []
    ensures Run(SMALL, a, ms, d) && d.playback.Committed? && d.playback.f == Frame(b.player.gen, [b.player.ring[0]])
    ensures d.player.commit == Some(d.playback.token) && d.player.writeEpoch == Some(b.player.gen)
    ensures d.player.gen == b.player.gen && d.player.ring == b.player.ring[1..] && !d.player.stop
    ensures d.player.log.hardware == b.player.log.hardware
    ensures d.player.n.residualCommitted == b.player.n.residualCommitted
    ensures d.player.n.residualCompleted == b.player.n.residualCompleted
  {
    ms, d := Then(SMALL, a, ls, b, Gate(NextBlock));
    ms, d := Then(SMALL, a, ms, d, Gate(FirstCheck));
    ms, d := Then(SMALL, a, ms, d, Gate(FinalGate));
  }

  /** A committed block whose token is still the gate's goes to the device and is counted. */
  lemma WritesCommitted(o: State, ls: seq<Label>, a: State) returns (ms: seq<Label>, b: State)
    requires Run(SMALL, o, ls, a) && a.playback.Committed? && a.player.Authorizes(a.playback.f, a.playback.token)
    ensures Run(SMALL, o, ms, b)
    ensures var d := a.playback;
      b == a.(player := a.player.Submit(d.f, d.token).Complete(d.f, d.recovery),
              playback := Leaving(d.f.epoch, Some(d.token)))
  {
    ms, b := Then(SMALL, o, ls, a, Device(Authorize));
    ms, b := Then(SMALL, o, ms, b, Device(DeviceWrite(true)));
    ms, b := Then(SMALL, o, ms, b, Device(FinishWrite));
  }

  /** One block from the ring to the device. */
  lemma PlayOne(a: State, ls: seq<Label>, b: State) returns (ms: seq<Label>, d: State)
    requires Run(SMALL, a, ls, b) && b.playback.Waiting? && !b.player.stop && b.player.ring != []
    ensures Run(SMALL, a, ms, d) && d.playback.Waiting? && !d.player.stop && d.player.ring == b.player.ring[1..]
    ensures |d.player.log.hardware| == |b.player.log.hardware| + 1 && b.player.log.hardware <= d.player.log.hardware
    ensures d.player.log.hardware[|b.player.log.hardware|].frame.block == [b.player.ring[0]]
  {
    ms, d := PassesGate(a, ls, b);
    ms, d := WritesCommitted(a, ms, d);
    ms, d := Then(SMALL, a, ms, d, Device(CleanUpWrite));
  }

  /** A barge-in cannot invalidate the completed turn; the next turn's preempt_output returns False. */
  lemma SupersededUnpreempted() returns (ks: seq<Label>, a: State, ls: seq<Label>, b: State)
    ensures Run(SMALL, Init("s"), ks, a) && a.ledger.Past(TURN) && 1 !in a.preempts
    ensures Run(SMALL, a, ls, b) && PreemptAt(b, 1, Returned(false))
    ensures b.player.ring == [HEARD, HEARD] && !b.player.stop && b.player.log.hardware == [] && b.playback.Waiting?
  {
    ks, a := EarlyCompletion();
    ks, a := Then(SMALL, Init("s"), ks, a, Own(TurnBegun("u")));
    ls, b := PreemptsNothing(a, 1);
  }

  /** After such a completion two stale blocks are played behind a returned preempt_output. */
  lemma FalseReturnLeavesRing()
    returns (ks: seq<Label>, a: State, ls: seq<Label>, b: State, ms: seq<Label>, z: State)
    ensures Run(SMALL, Init("s"), ks, a) && a.ledger.Past(TURN) && 1 !in a.preempts
    ensures Run(SMALL, a, ls, b) && PreemptAt(b, 1, Returned(false))
    ensures Run(SMALL, b, ms, z) && |NewlySubmitted(b, z)| == 2
    ensures Carries(NewlySubmitted(b, z)[0].frame.block, TURN) && Carries(NewlySubmitted(b, z)[1].frame.block, TURN)
  {
    ks, a, ls, b := SupersededUnpreempted();
    ms, z := PlaysBoth(b);
  }

  lemma PlaysBoth(b: State) returns (ms: seq<Label>, z: State)
    requires b.playback.Waiting? && !b.player.stop && b.player.ring == [HEARD, HEARD] && b.player.log.hardware == []
    ensures Run(SMALL, b, ms, z) && |NewlySubmitted(b, z)| == 2
    ensures Carries(NewlySubmitted(b, z)[0].frame.block, TURN) && Carries(NewlySubmitted(b, z)[1].frame.block, TURN)
  {
    ms, z := PlayOne(b, [], b);
    assert z.player.log.hardware[0].frame.block[0] == HEARD;
    ms, z := PlayOne(b, ms, z);
    assert z.player.log.hardware[1].frame.block[0] == HEARD;
  }

  // ---------------------------------------------------------------------------
  // A slow release
  // ---------------------------------------------------------------------------

  /** A preempter has emptied the queue but not yet released the active request. */
  lemma SlowStart() returns (ls: seq<Label>, a: State)
    ensures Run(SMALL, Init("s"), ls, a)
    ensures a.ledger == Ledger(Owner("s", Some(TURN), None, 0), [TURN])
    ensures a.worker == Got(FIRST) && a.queue == [] && a.active == None
    ensures a.player == NewPlayer().Abort() && a.playback.Waiting? && a.preempts == map[0 := Preempt(Releasing, 0, 0)]
  {
    var s := Init("s");
    ls, a := OneQueued(FIRST);
    ls, a := SetsFlag(s, ls, a);
    ls, a := Then(SMALL, s, ls, a, Work(Get));
    ls, a := AbortsEmpty(s, ls, a);
  }

  /** The worker takes the sentence up and is about to open an enqueue call. */
  lemma SlowStamped() returns (ls: seq<Label>, a: State)
    ensures Run(SMALL, Init("s"), ls, a)
    ensures a.ledger == Ledger(Owner("s", Some(TURN), None, 0), [TURN])
    ensures a.worker == Stamped(FIRST, false, [7]) && a.queue == [] && a.active == Some("r") && !a.cancel
    ensures a.player == NewPlayer().Abort().SetStamp(TURN) && a.playback.Waiting?
    ensures a.preempts == map[0 := Preempt(Releasing, 0, 0)]
  {
    var s := Init("s");
    ls, a := SlowStart();
    ls, a := Produces(s, ls, a, [7]);
    ls, a := Then(SMALL, s, ls, a, Work(SetStamp));
  }

  /** The sentence is in the ring. */
  lemma SlowWritten() returns (ls: seq<Label>, a: State)
    ensures Run(SMALL, Init("s"), ls, a)
    ensures a.ledger == Ledger(Owner("s", Some(TURN), None, 0), [TURN])
    ensures a.worker.Enqueuing? && a.worker.r == FIRST && a.worker.rest == []
    ensures a.queue == [] && a.active == Some("r") && !a.cancel
    ensures Carries(a.player.ring, TURN) && a.preempts == map[0 := Preempt(Releasing, 0, 0)]
  {
    var s := Init("s");
    ls, a := SlowStamped();
    ls, a := Then(SMALL, s, ls, a, Work(OpenEnqueue([7])));
    ls, a := Then(SMALL, s, ls, a, Work(WriteRing));
    assert a.player.ring[0] == Sample(7, 1, Some(TURN));
  }

  /** The worker is through with the sentence, the turn goes on, and only now the release comes. */
  lemma SlowDone() returns (ls: seq<Label>, a: State)
    ensures Run(SMALL, Init("s"), ls, a)
    ensures a.ledger == Ledger(Owner("s", Some(TURN), None, 0), [TURN])
    ensures a.worker.Idle? && a.queue == [] && Carries(a.player.ring, TURN)
    ensures a.preempts == map[0 := Preempt(Releasing, 0, 0)]
  {
    var s := Init("s");
    ls, a := SlowWritten();
    ls, a := Then(SMALL, s, ls, a, Work(WriteRing));
    ls, a := EndsRequest(s, ls, a);
  }

  /**
   No turn is completed and no request orphaned, yet the barge-in finds nothing: a release
   that comes after a whole sentence loses the turn's mark while its audio is queued.
   */
  lemma SlowReleaseLeavesRing() returns (ks: seq<Label>, a: State, l: Label, m: State, ls: seq<Label>, b: State)
    ensures Run(SMALL, Init("s"), ks, a) && Enabled(SMALL, a, l)
    ensures LosesMark(a, l, TURN) && !LateRelease(a, l) && a.ledger.owner.completed == None
    ensures Run(SMALL, a, [l] + [Own(EpochAdvanced)], m) && m.ledger.Past(TURN) && 1 !in m.preempts
    ensures Run(SMALL, m, ls, b) && PreemptAt(b, 1, Returned(false)) && !Silenced(b, TURN)
  {
    ks, a := SlowDone();
    l := Pre(0, PreRelease);
    m := SlowReleased(a);
    ls, b := PreemptsNothing(m, 1);
  }

  /** The release, and the owner's step behind it. */
  lemma SlowReleased(a: State) returns (m: State)
    requires a.preempts == map[0 := Preempt(Releasing, 0, 0)]
        && a.ledger == Ledger(Owner("s", Some(TURN), None, 0), [TURN])
    ensures Run(SMALL, a, [Pre(0, PreRelease)] + [Own(EpochAdvanced)], m)
    ensures m == a.(ledger := m.ledger, active := None, preempts := m.preempts) && m.ledger.Past(TURN)
        && 1 !in m.preempts
  {
    var ls;
    ls, m := Then(SMALL, a, [], a, Pre(0, PreRelease));
    ls, m := Then(SMALL, a, ls, m, Own(EpochAdvanced));
  }

  // ---------------------------------------------------------------------------
  // Shutdown
  // ---------------------------------------------------------------------------

  /** close() advances the generation without counting a residual write, so the bound needs its one-block allowance. */
  lemma CloseBreaksResidualBound() returns (ls: seq<Label>, a: State)
    ensures Run(SMALL, Init("s"), ls, a)
    ensures a.player.stop && a.player.n.residualCompleted == 1 && a.player.n.residualCommitted == 0
  {
    var s := Init("s");
    ls, a := FirstSentenceDone();
    ls, a := PassesGate(s, ls, a);
    ls, a := Then(SMALL, s, ls, a, Close);
    ls, a := WritesCommitted(s, ls, a);
  }
}
