/**
 When a turn is completed while its audio is still queued
 (src/star_runtime/speech/tts/controller.py:261-332), and what that means for the next
 preempt_output.
 */
module TurnCompletion {
  import opened Wrappers
  import opened Control
  import opened Player
  import opened BargeIn
  import opened BlockSizes
  import opened CommitTokens
  import opened StaleAudio
  import opened PreemptOutput
  import opened StaleHeard
  import opened FalseReturns

  // ---------------------------------------------------------------------------
  // Which step is to blame
  // ---------------------------------------------------------------------------

  /** The worker is past the decision to release the request and complete its turn. */
  predicate Concluding(w: Worker) {
    w.Clearing? || w.Confirming? || w.Completing?
  }

  /** No conclusion is under way over live audio of the turn. */
  ghost predicate Settled(s: State, stamp: ControlStamp) {
    Concluding(s.worker) ==> !Live(s.player, s.playback, stamp)
  }

  /** The decision to conclude is taken while audio of the turn is still live. */
  ghost predicate Hasty(s: State, l: Label, stamp: ControlStamp) {
    && l == Work(TestFinal) && s.worker.Finishing?
    && (s.worker.r.final || s.cancel) && Live(s.player, s.playback, stamp)
  }

  /** A step that is not the worker's adds no live audio. */
  lemma OthersAddNothing(c: Config, s: State, l: Label, stamp: ControlStamp)
    requires PlayerInv(c, s) && Enabled(c, s, l) && !l.Work?
    ensures var t := Step(c, s, l);
      t.worker == s.worker && (Live(t.player, t.playback, stamp) ==> Live(s.player, s.playback, stamp))
  {
    OthersLeaveProducer(c, s, l);
    match l
    case Own(_) =>
    case Put(_) =>
    case Pre(id, m) =>
      PreemptOnPlayer(s, id, m);
      ClearEndsLive(c, s.player, s.playback, stamp);
    case Close => ClearEndsLive(c, s.player, s.playback, stamp);
    case Gate(g) => GateKeepsLive(c, s.player, s.playback, g, stamp);
    case Device(d) => DeviceKeepsLive(s.player, s.playback, d, stamp);
  }

  /** A conclusion over live audio begins with a hasty step and with no other. */
  lemma HastyExactly(c: Config, s: State, l: Label, stamp: ControlStamp)
    requires PlayerInv(c, s) && StampInv(s) && Enabled(c, s, l) && Settled(s, stamp)
    ensures !Settled(Step(c, s, l), stamp) <==> Hasty(s, l, stamp)
  {
    if l.Work? {
      WorkerAddsLive(c, s, l.w, stamp);
      WorkerConcludes(c, s, l.w);
    } else {
      OthersAddNothing(c, s, l, stamp);
    }
  }

  lemma WorkerConcludes(c: Config, s: State, l: WorkerLabel)
    requires WorkerEnabled(s, l)
    ensures var t := WorkerStep(c, s, l);
      && (Concluding(t.worker) ==>
            !l.WriteRing? && (Concluding(s.worker) || (l.TestFinal? && (s.worker.r.final || s.cancel))))
      && (l.TestFinal? ==> t.player == s.player && t.playback == s.playback)
      && (l.TestFinal? ==> (Concluding(t.worker) <==> s.worker.r.final || s.cancel))
  {
  }

  ghost predicate NeverHasty(c: Config, a: State, ls: seq<Label>, stamp: ControlStamp)
    decreases |ls|
  {
    ls == [] || (Enabled(c, a, ls[0]) && !Hasty(a, ls[0], stamp) && NeverHasty(c, Step(c, a, ls[0]), ls[1..], stamp))
  }

  lemma {:induction false} RunStaysSettled(c: Config, a: State, ls: seq<Label>, b: State, stamp: ControlStamp)
    requires SystemInv(c, a) && Settled(a, stamp) && Run(c, a, ls, b) && NeverHasty(c, a, ls, stamp)
    ensures SystemInv(c, b) && Settled(b, stamp)
    decreases |ls|
  {
    if ls != [] {
      var m := Step(c, a, ls[0]);
      RunOne(c, a, ls[0]);
      RunKeepsSystem(c, a, [ls[0]], m);
      HastyExactly(c, a, ls[0], stamp);
      RunStaysSettled(c, m, ls[1..], b, stamp);
    }
  }

  /** In every run without a hasty step no turn is completed over live audio of `stamp`. */
  lemma CompletesOverSilence(c: Config, sessionId: string, ls: seq<Label>, s: State, stamp: ControlStamp)
    requires sessionId != "" && Run(c, Init(sessionId), ls, s) && NeverHasty(c, Init(sessionId), ls, stamp)
    requires WorkerEnabled(s, CompleteTurn)
    ensures var t := Step(c, s, Work(CompleteTurn)); !Live(t.player, t.playback, stamp)
  {
    InitSystem(c, sessionId);
    RunStaysSettled(c, Init(sessionId), ls, s, stamp);
  }

  // ---------------------------------------------------------------------------
  // A quiet poll is enough
  // ---------------------------------------------------------------------------

  /** A poll that finds the player idle ends the wait with no live audio at all. */
  lemma QuietPollEndsLive(c: Config, s: State, stamp: ControlStamp)
    requires Reachable(c, s) && WorkerEnabled(s, PollIdle) && s.player.Quiet()
    ensures var t := Step(c, s, Work(PollIdle));
      t.worker == Finishing(s.worker.r) && !Live(t.player, t.playback, stamp)
  {
    ReachableCounted(c, s);
  }

  /** While the worker is held up behind a quiet poll nothing becomes live, so its conclusion is not hasty. */
  lemma {:induction false} QuietStaysQuiet(c: Config, a: State, ls: seq<Label>, b: State, stamp: ControlStamp)
    requires PlayerInv(c, a) && !Live(a.player, a.playback, stamp) && Run(c, a, ls, b)
    requires forall i :: 0 <= i < |ls| ==> !ls[i].Work?
    ensures b.worker == a.worker && !Live(b.player, b.playback, stamp) && !Hasty(b, Work(TestFinal), stamp)
    decreases |ls|
  {
    if ls != [] {
      StepKeepsPlayer(c, a, ls[0]);
      OthersAddNothing(c, a, ls[0], stamp);
      QuietStaysQuiet(c, Step(c, a, ls[0]), ls[1..], b, stamp);
    }
  }

  // ---------------------------------------------------------------------------
  // When the worker waits at all
  // ---------------------------------------------------------------------------

  /** An enqueue call returns True in this step. */
  ghost predicate Queues(s: State, l: Label) {
    || (l == Work(WriteRing) && s.worker.Enqueuing? && s.worker.rest == [])
    || (l.Work? && l.w.OpenEnqueue? && s.worker.Stamped? && s.worker.pcm == [])
  }

  /** The worker is with a request whose stream it reads, or has just read. */
  predicate Reads(w: Worker) {
    || w.Streaming? || w.Chunk? || w.Uncancelled? || w.Outdated? || w.Fresh? || w.Stamped? || w.Enqueuing? || w.Ended?
  }

  /** While the stream of a request is read, it counts as started from the first enqueue call that returns True. */
  lemma StartedExactly(c: Config, s: State, l: Label)
    requires Enabled(c, s, l) && Reads(Step(c, s, l).worker)
    ensures Step(c, s, l).worker.started <==> (Reads(s.worker) && s.worker.started) || Queues(s, l)
  {
    if l.Work? {
      WorkerStarts(c, s, l.w);
    } else {
      OthersLeaveProducer(c, s, l);
    }
  }

  lemma WorkerStarts(c: Config, s: State, l: WorkerLabel)
    requires WorkerEnabled(s, l) && Reads(WorkerStep(c, s, l).worker)
    ensures WorkerStep(c, s, l).worker.started <==> (Reads(s.worker) && s.worker.started) || Queues(s, Work(l))
  {
  }

  /** The worker waits behind a bare end marker, or a final sentence that queued audio, if not cancelled. */
  lemma WaitsForPlayback(c: Config, s: State, l: Label)
    requires Enabled(c, s, l)
    ensures !s.worker.WaitStart? && Step(c, s, l).worker.WaitStart? <==>
      && !s.cancel
      && ((l == Work(TestMarker) && s.worker.Marker?)
          || (l == Work(TestEnd) && s.worker.Ended? && s.worker.r.final && s.worker.started))
  {
    if l.Work? {
      WorkerWaits(c, s, l.w);
    } else {
      OthersLeaveProducer(c, s, l);
    }
  }

  lemma WorkerWaits(c: Config, s: State, l: WorkerLabel)
    requires WorkerEnabled(s, l)
    ensures WorkerStep(c, s, l).worker.WaitStart? <==>
      && !s.cancel
      && (l.TestMarker? || (l.TestEnd? && s.worker.r.final && s.worker.started))
  {
  }

  /** Without the wait the request is concluded at once, over whatever audio is live: behind a raise of the engine, */
  lemma RaiseIsHasty(c: Config, s: State, stamp: ControlStamp)
    requires WorkerEnabled(s, EngineRaises) && (s.worker.r.final || s.cancel) && Live(s.player, s.playback, stamp)
    ensures Hasty(Step(c, s, Work(EngineRaises)), Work(TestFinal), stamp)
  {
  }

  /** behind a stream that ended without audio or was cancelled, */
  lemma SilentEndIsHasty(c: Config, s: State, stamp: ControlStamp)
    requires WorkerEnabled(s, TestEnd) && (if s.cancel then true else s.worker.r.final && !s.worker.started)
    requires Live(s.player, s.playback, stamp)
    ensures Hasty(Step(c, s, Work(TestEnd)), Work(TestFinal), stamp)
  {
  }

  /** and behind a wait that was cancelled. */
  lemma CancelledWaitIsHasty(c: Config, s: State, stamp: ControlStamp)
    requires Reachable(c, s) && WorkerEnabled(s, PollIdle) && s.cancel && Live(s.player, s.playback, stamp)
    ensures Hasty(Step(c, s, Work(PollIdle)), Work(TestFinal), stamp)
  {
    if s.player.Quiet() {
      QuietPollEndsLive(c, s, stamp);
    }
  }

  // ---------------------------------------------------------------------------
  // What a hasty conclusion leads to
  // ---------------------------------------------------------------------------

  /** The worker is about to conclude: the request is final or cancelled, still active, and its turn current. */
  ghost predicate AboutToComplete(s: State) {
    && s.worker.Finishing? && (s.worker.r.final || s.cancel)
    && s.active == Some(s.worker.r.id) && s.ledger.owner.IsCurrent(s.worker.r.stamp)
  }

  /** Run without interference, the conclusion completes the turn exactly then, and leaves what is live. */
  lemma CompletesExactly(c: Config, s: State, stamp: ControlStamp) returns (ls: seq<Label>, t: State)
    requires s.worker.Finishing? && s.ledger.owner.completed != Some(s.worker.r.stamp)
    ensures Run(c, s, ls, t) && t.worker.Idle?
    ensures t.ledger.owner.completed == Some(s.worker.r.stamp) <==> AboutToComplete(s)
    ensures AboutToComplete(s) ==>
      t.active == None && !t.ledger.owner.CanInvalidate() && t.queue == s.queue && t.preempts == s.preempts
    ensures Live(t.player, t.playback, stamp) <==> Live(s.player, s.playback, stamp)
  {
    ls, t := ConcludeRun(c, s);
  }

  /**
   Whenever a turn is about to complete over its own live audio with nothing queued behind it,
   it can complete, be superseded by the next turn, and survive that turn's preempt_output,
   which returns False.
   */
  lemma HasteDefeatsPreemption(c: Config, s: State)
    returns (ls: seq<Label>, m: State, ms: seq<Label>, t: State, id: nat)
    requires Reachable(c, s) && AboutToComplete(s) && s.queue == []
    requires s.ledger.owner.completed != Some(s.worker.r.stamp)
    requires Live(s.player, s.playback, s.worker.r.stamp)
    ensures Run(c, s, ls, m) && m.ledger.Past(s.worker.r.stamp) && id !in m.preempts
    ensures Run(c, m, ms, t) && PreemptAt(t, id, Returned(false)) && !Silenced(t, s.worker.r.stamp)
  {
    var stamp := s.worker.r.stamp;
    var ks, d := CompletesExactly(c, s, stamp);
    ReachableSystem(c, s);
    RunKeepsSystem(c, s, ks, d);
    ls, m := Superseded(c, s, ks, d, stamp);
    ReachableExtends(c, s, ls, m);
    ReachablePlayer(c, m);
    FlushedExactly(c, m.player, m.playback, stamp);
    id := FreshId(m.preempts);
    ms, t := CallSilencesExactly(c, m, id, stamp);
  }

  /** The next turn begins. */
  lemma Superseded(c: Config, o: State, ks: seq<Label>, d: State, stamp: ControlStamp)
    returns (ls: seq<Label>, m: State)
    requires Run(c, o, ks, d) && d.ledger.Valid() && d.ledger.owner.current == Some(stamp)
    ensures Run(c, o, ls, m) && m == d.(ledger := m.ledger) && m.ledger.Past(stamp)
  {
    var turnId := FreshTurnId(d.ledger.issued);
    ApplyKeepsValid(d.ledger, TurnBegun(turnId));
    ls, m := Then(c, o, ks, d, Own(TurnBegun(turnId)));
    assert d.ledger.issued[|d.ledger.issued| - 1] == stamp;
    assert m.ledger.issued[|d.ledger.issued| - 1] == stamp;
    IssuedOnce(m.ledger, |d.ledger.issued| - 1, |d.ledger.issued|);
  }
}
