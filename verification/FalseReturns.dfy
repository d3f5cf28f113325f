/**
 What a preempt_output call that returns False guarantees
 (src/star_runtime/speech/tts/controller.py:112-150, 199-202, 296-307): a turn loses its active
 mark while audio of it is still to come or still queued, and the call finds nothing to do.
 */
module FalseReturns {
  import opened Wrappers
  import opened Control
  import opened Player
  import opened BargeIn
  import opened CommitTokens
  import opened StaleAudio
  import opened PreemptOutput

  // ---------------------------------------------------------------------------
  // Audio without an active mark
  // ---------------------------------------------------------------------------

  /** Audio of the turn is in the ring or in a block that can still pass the final gate. */
  ghost predicate Live(p: Player, b: Playback, stamp: ControlStamp) {
    || Carries(p.ring, stamp)
    || ((b.Dequeued? || b.Checked?) && b.f.epoch == p.gen && Carries(b.f.block, stamp))
  }

  /** The worker is producing for the turn and nothing has told it to stop. */
  ghost predicate Producing(s: State, stamp: ControlStamp) {
    s.worker.Busy() && !s.cancel && s.worker.r.stamp == stamp
  }

  /** Audio of the turn is still to come or still queued. */
  ghost predicate Unfinished(s: State, stamp: ControlStamp) {
    Producing(s, stamp) || Live(s.player, s.playback, stamp)
  }

  /** What preempt_output cannot see: the turn is unfinished, but no active request says so. */
  ghost predicate Unmarked(s: State, stamp: ControlStamp) {
    || (Producing(s, stamp) && s.active != Some(s.worker.r.id))
    || (s.active == None && Live(s.player, s.playback, stamp))
  }

  /** The two places that clear the active mark. */
  ghost predicate ClearsMark(s: State, l: Label) {
    (l.Pre? && l.p.PreRelease?) || (l == Work(ReleaseActive) && s.worker.Clearing? && s.active == Some(s.worker.r.id))
  }

  /**
   The mark is cleared while the turn is unfinished: by a preempter whose release comes after
   later audio of the turn, or by the worker when the timeline is not empty.
   */
  ghost predicate LosesMark(s: State, l: Label, stamp: ControlStamp) {
    ClearsMark(s, l) && Unfinished(s, stamp)
  }

  lemma FlushedExactly(c: Config, p: Player, b: Playback, stamp: ControlStamp)
    requires Generations(c, p, b)
    ensures Flushed(p, b, stamp) <==> !Live(p, b, stamp)
  {
  }

  lemma GateKeepsLive(c: Config, p: Player, b: Playback, l: GateLabel, stamp: ControlStamp)
    requires GateEnabled(c, p, b, l)
    ensures var (q, d) := GateStep(c, p, b, l); Live(q, d, stamp) ==> Live(p, b, stamp)
  {
    if l.NextBlock? && !p.stop && !Carries(p.ring, stamp) {
      CarriesPart(p.ring, p.NextCount(c).value, stamp);
    }
  }

  lemma DeviceKeepsLive(p: Player, b: Playback, l: DeviceLabel, stamp: ControlStamp)
    requires DeviceEnabled(b, l)
    ensures var (q, d) := DeviceStep(p, b, l); Live(q, d, stamp) ==> Live(p, b, stamp)
  {
  }

  lemma ClearEndsLive(c: Config, p: Player, b: Playback, stamp: ControlStamp)
    requires Generations(c, p, b)
    ensures !Live(p.Abort(), b, stamp) && !Live(p.Close(), b, stamp)
  {
  }

  /** Only a producing worker adds audio of a turn. */
  lemma WorkerAddsLive(c: Config, s: State, l: WorkerLabel, stamp: ControlStamp)
    requires StampInv(s) && WorkerEnabled(s, l)
    ensures var t := WorkerStep(c, s, l);
      Live(t.player, t.playback, stamp) ==>
        Live(s.player, s.playback, stamp) || (Producing(s, stamp) && s.worker.Enqueuing? && l.WriteRing?)
  {
    WorkerLeavesGate(c, s, l);
    if l.WriteRing? && s.worker.rest != [] && !s.player.RefusesWrite(s.cancel) && s.worker.stamp != Some(stamp) {
      var added := Tag(s.worker.rest[..s.player.Fits(c, s.worker.rest)], s.worker.gen, s.worker.stamp);
      CarriesConcat(s.player.ring, added, stamp);
    }
  }

  lemma WorkerLosesMark(c: Config, s: State, l: WorkerLabel, stamp: ControlStamp)
    requires StampInv(s) && WorkerEnabled(s, l) && !Unmarked(s, stamp)
    ensures Unmarked(WorkerStep(c, s, l), stamp) <==> LosesMark(s, Work(l), stamp)
  {
    var t := WorkerStep(c, s, l);
    WorkerAddsLive(c, s, l, stamp);
    WorkerMarks(c, s, l);
    if l.ReleaseActive? {
      assert t.player == s.player && t.playback == s.playback;
    }
  }

  /** What the worker's step does to the active mark and to its own right to produce. */
  lemma WorkerMarks(c: Config, s: State, l: WorkerLabel)
    requires WorkerEnabled(s, l)
    ensures var t := WorkerStep(c, s, l);
      && (t.active != s.active ==> l.SetActive? || ClearsMark(s, Work(l)))
      && (ClearsMark(s, Work(l)) ==> t.active == None && !s.worker.Busy() && !t.worker.Busy())
      && (t.worker.Busy() && !t.cancel ==>
            if l.SetActive? then t.active == Some(t.worker.r.id)
            else s.worker.Busy() && !s.cancel && t.worker.r == s.worker.r && t.active == s.active)
      && (l.WriteRing? ==> t.active == s.active)
  {
  }

  lemma PreempterLosesMark(c: Config, s: State, id: nat, l: PreemptLabel, stamp: ControlStamp)
    requires Generations(c, s.player, s.playback) && PreemptEnabled(s, id, l) && !Unmarked(s, stamp)
    ensures Unmarked(PreemptStep(s, id, l), stamp) <==> LosesMark(s, Pre(id, l), stamp)
  {
    var t := PreemptStep(s, id, l);
    PreemptOnPlayer(s, id, l);
    ClearEndsLive(c, s.player, s.playback, stamp);
    if l.PreAbort? {
      assert t.active == s.active && t.cancel == s.cancel;
    } else {
      assert t.player == s.player;
    }
  }

  /** Audio ends up without a mark by these steps and by no others. */
  lemma UnmarkedExactly(c: Config, s: State, l: Label, stamp: ControlStamp)
    requires PlayerInv(c, s) && StampInv(s) && Enabled(c, s, l) && !Unmarked(s, stamp)
    ensures Unmarked(Step(c, s, l), stamp) <==> LosesMark(s, l, stamp)
  {
    match l
    case Work(w) => WorkerLosesMark(c, s, w, stamp);
    case Pre(id, m) => PreempterLosesMark(c, s, id, m, stamp);
    case Close => ClearEndsLive(c, s.player, s.playback, stamp);
    case Gate(g) => GateKeepsLive(c, s.player, s.playback, g, stamp);
    case Device(d) => DeviceKeepsLive(s.player, s.playback, d, stamp);
    case _ =>
  }

  // ---------------------------------------------------------------------------
  // Every return
  // ---------------------------------------------------------------------------

  ghost predicate KeepsMark(c: Config, a: State, ls: seq<Label>, stamp: ControlStamp)
    decreases |ls|
  {
    ls == [] || (Enabled(c, a, ls[0]) && !LosesMark(a, ls[0], stamp) && KeepsMark(c, Step(c, a, ls[0]), ls[1..], stamp))
  }

  /** A call that found no active request, and so may return False, has found a silenced turn. */
  ghost predicate FalseIsSilent(s: State, stamp: ControlStamp) {
    forall id :: SawNothing(s, id) && PastAtStart(s, s.preempts[id], stamp) ==> Silenced(s, stamp)
  }

  /** A past turn that is not unmarked is silenced when no request is active. */
  lemma NoMarkNoAudio(c: Config, s: State, stamp: ControlStamp)
    requires PlayerInv(c, s) && s.ledger.Past(stamp) && !Unmarked(s, stamp) && s.active == None
    ensures Silenced(s, stamp)
  {
    FlushedExactly(c, s.player, s.playback, stamp);
    assert Armed(s, stamp) ==> Producing(s, stamp);
  }

  lemma StepKeepsFalseSilent(c: Config, s: State, l: Label, stamp: ControlStamp)
    requires SystemInv(c, s) && !Unmarked(s, stamp) && FalseIsSilent(s, stamp) && Enabled(c, s, l)
    ensures FalseIsSilent(Step(c, s, l), stamp)
  {
    var t := Step(c, s, l);
    forall id | SawNothing(t, id) && PastAtStart(t, t.preempts[id], stamp)
      ensures Silenced(t, stamp)
    {
      SawNothingBefore(c, s, l, id, stamp);
      SilencedNow(c, s, id, stamp);
      StepStaysSilenced(c, s, l, stamp);
    }
  }

  lemma SilencedNow(c: Config, s: State, id: nat, stamp: ControlStamp)
    requires SystemInv(c, s) && !Unmarked(s, stamp) && FalseIsSilent(s, stamp)
    requires id in s.preempts && PastAtStart(s, s.preempts[id], stamp) && (SawNothing(s, id) || s.active == None)
    ensures Silenced(s, stamp)
  {
    assert Achieved(s, s.preempts[id], stamp);
    if s.active == None {
      NoMarkNoAudio(c, s, stamp);
    }
  }

  lemma {:induction false} RunKeepsFalseSilent(c: Config, a: State, ls: seq<Label>, b: State, stamp: ControlStamp)
    requires SystemInv(c, a) && !Unmarked(a, stamp) && FalseIsSilent(a, stamp)
    requires Run(c, a, ls, b) && KeepsMark(c, a, ls, stamp)
    ensures SystemInv(c, b) && !Unmarked(b, stamp) && FalseIsSilent(b, stamp)
    decreases |ls|
  {
    if ls != [] {
      var m := Step(c, a, ls[0]);
      RunOne(c, a, ls[0]);
      RunKeepsSystem(c, a, [ls[0]], m);
      StepKeepsFalseSilent(c, a, ls[0], stamp);
      UnmarkedExactly(c, a, ls[0], stamp);
      RunKeepsFalseSilent(c, m, ls[1..], b, stamp);
    }
  }

  /**
   In every run in which the turn never loses its mark unfinished, every preempt_output call
   that began after the owner had moved past the turn leaves it silenced when it returns,
   whatever it returns.
   */
  lemma EveryReturnSilences(c: Config, sessionId: string, ks: seq<Label>, a: State, ls: seq<Label>, b: State,
                            id: nat, stamp: ControlStamp)
    requires sessionId != ""
    requires Run(c, Init(sessionId), ks, a) && KeepsMark(c, Init(sessionId), ks, stamp)
    requires a.ledger.Past(stamp) && id !in a.preempts
    requires Run(c, a, ls, b) && KeepsMark(c, a, ls, stamp)
    requires id in b.preempts && b.preempts[id].at.Returned?
    ensures Silenced(b, stamp)
  {
    InitKeepsFalseSilent(c, sessionId, ks, a, stamp);
    RunKeepsFalseSilent(c, a, ls, b, stamp);
    StartedLater(c, a, ls, b, id, stamp);
    ReturnSilences(c, b, id, stamp);
  }

  lemma InitKeepsFalseSilent(c: Config, sessionId: string, ls: seq<Label>, s: State, stamp: ControlStamp)
    requires sessionId != "" && Run(c, Init(sessionId), ls, s) && KeepsMark(c, Init(sessionId), ls, stamp)
    ensures SystemInv(c, s) && !Unmarked(s, stamp) && FalseIsSilent(s, stamp)
  {
    InitSystem(c, sessionId);
    RunKeepsFalseSilent(c, Init(sessionId), ls, s, stamp);
  }

  lemma ReturnSilences(c: Config, s: State, id: nat, stamp: ControlStamp)
    requires SystemInv(c, s) && FalseIsSilent(s, stamp)
    requires id in s.preempts && s.preempts[id].at.Returned? && PastAtStart(s, s.preempts[id], stamp)
    ensures Silenced(s, stamp)
  {
    assert Achieved(s, s.preempts[id], stamp);
    if !s.preempts[id].at.result {
      assert SawNothing(s, id);
    }
  }

  // ---------------------------------------------------------------------------
  // One call
  // ---------------------------------------------------------------------------

  /**
   The exact condition for one uninterrupted call: it silences a past turn if and only if a
   request is active or queued, or the turn is silenced already.
   */
  lemma CallSilencesExactly(c: Config, s: State, id: nat, stamp: ControlStamp) returns (ls: seq<Label>, t: State)
    requires Reachable(c, s) && s.ledger.Past(stamp) && id !in s.preempts
    ensures Run(c, s, ls, t) && PreemptAt(t, id, Returned(s.active.Some? || s.queue != []))
    ensures Silenced(t, stamp) <==> s.active.Some? || s.queue != [] || Silenced(s, stamp)
  {
    ls, t := PreemptRun(c, s, id);
    ReachablePlayer(c, s);
    AbortFlushes(c, s, stamp);
  }
}
