/**
 The guarantees of preempt_output (src/star_runtime/speech/tts/controller.py:112-150) when
 the owner has already moved past a turn, as src/star_runtime/speech/service.py:133-147
 arranges: advance the owner first, preempt second.
 */
module PreemptOutput {
  import opened Wrappers
  import opened Control
  import opened Player
  import opened BargeIn
  import opened CommitTokens
  import opened StaleAudio
  import opened StaleReach

  // ---------------------------------------------------------------------------
  // Silence: nothing of the stamp is left in front of the gate
  // ---------------------------------------------------------------------------

  /** No sample of `stamp` is queued, and a dequeued one can no longer pass the gate. */
  ghost predicate Flushed(p: Player, b: Playback, stamp: ControlStamp) {
    && !Carries(p.ring, stamp)
    && ((b.Dequeued? || b.Checked?) && Carries(b.f.block, stamp) ==> b.f.epoch < p.gen)
  }

  /** The playback thread holds a committed block of `stamp` it has not yet submitted. */
  ghost predicate Loaded(b: Playback, stamp: ControlStamp) {
    (b.Committed? || b.Authorized?) && Carries(b.f.block, stamp)
  }

  lemma CarriesPart(xs: seq<Sample>, n: nat, stamp: ControlStamp)
    requires n <= |xs| && !Carries(xs, stamp)
    ensures !Carries(xs[..n], stamp) && !Carries(xs[n..], stamp)
  {
    assert xs == xs[..n] + xs[n..];
    CarriesConcat(xs[..n], xs[n..], stamp);
  }

  lemma GateStaysFlushed(c: Config, p: Player, b: Playback, l: GateLabel, stamp: ControlStamp)
    requires GateEnabled(c, p, b, l) && Flushed(p, b, stamp)
    ensures var (q, d) := GateStep(c, p, b, l);
      && Flushed(q, d, stamp)
      && q.log.hardware == p.log.hardware
      && (Loaded(d, stamp) ==> Loaded(b, stamp))
  {
    if l.NextBlock? && !p.stop {
      CarriesPart(p.ring, p.NextCount(c).value, stamp);
    }
  }

  lemma DeviceStaysFlushed(p: Player, b: Playback, l: DeviceLabel, stamp: ControlStamp)
    requires DeviceEnabled(b, l) && Flushed(p, b, stamp)
    ensures var (q, d) := DeviceStep(p, b, l);
      && Flushed(q, d, stamp)
      && p.log.hardware <= q.log.hardware
      && (Loaded(d, stamp) ==> Loaded(b, stamp) && d.f == b.f && d.token == b.token)
      && forall i :: |p.log.hardware| <= i < |q.log.hardware| && Carries(q.log.hardware[i].frame.block, stamp)
           ==> Loaded(b, stamp) && q.log.hardware[i] == Submission(b.token, b.f) && !Loaded(d, stamp)
  {
  }

  lemma WorkerStaysFlushed(c: Config, s: State, l: WorkerLabel, stamp: ControlStamp)
    requires StampInv(s) && WorkerEnabled(s, l) && Shut(s, stamp) && Flushed(s.player, s.playback, stamp)
    ensures var t := WorkerStep(c, s, l); Flushed(t.player, t.playback, stamp)
    ensures WorkerStep(c, s, l).player.log.hardware == s.player.log.hardware
    ensures WorkerStep(c, s, l).playback == s.playback
  {
    WorkerLeavesGate(c, s, l);
    if l.WriteRing? && s.worker.rest != [] && !s.player.RefusesWrite(s.cancel) {
      assert s.worker.stamp != Some(stamp);
      var added := Tag(s.worker.rest[..s.player.Fits(c, s.worker.rest)], s.worker.gen, s.worker.stamp);
      CarriesConcat(s.player.ring, added, stamp);
    }
  }

  /** Shut and flushed: `stamp` can be heard only through a block already committed. */
  ghost predicate Silenced(s: State, stamp: ControlStamp) {
    Shut(s, stamp) && Flushed(s.player, s.playback, stamp)
  }

  /** `x` is the committed block the playback thread of `a` was about to submit. */
  ghost predicate WasLoaded(a: State, x: Submission, stamp: ControlStamp) {
    Loaded(a.playback, stamp) && x == Submission(a.playback.token, a.playback.f)
  }

  lemma StepStaysSilenced(c: Config, s: State, l: Label, stamp: ControlStamp)
    requires StampInv(s) && Enabled(c, s, l) && Silenced(s, stamp)
    ensures var t := Step(c, s, l);
      && Silenced(t, stamp)
      && s.player.log.hardware <= t.player.log.hardware
      && (Loaded(t.playback, stamp) ==>
            Loaded(s.playback, stamp) && t.playback.f == s.playback.f && t.playback.token == s.playback.token)
      && forall x :: x in NewlySubmitted(s, t) && Carries(x.frame.block, stamp) ==>
           WasLoaded(s, x, stamp) && !Loaded(t.playback, stamp)
  {
    var t := Step(c, s, l);
    StepStaysShut(c, s, l, stamp);
    match l
    case Work(w) => WorkerStaysFlushed(c, s, w, stamp);
    case Gate(g) => GateStaysFlushed(c, s.player, s.playback, g, stamp);
    case Device(d) => DeviceStaysFlushed(s.player, s.playback, d, stamp);
    case Pre(id, m) => PreemptOnPlayer(s, id, m);
    case _ =>
  }

  lemma NewlySubmittedSplits(a: State, m: State, b: State)
    requires a.player.log.hardware <= m.player.log.hardware <= b.player.log.hardware
    ensures NewlySubmitted(a, b) == NewlySubmitted(a, m) + NewlySubmitted(m, b)
  {
  }

  lemma {:induction false} RunStaysSilenced(c: Config, a: State, ls: seq<Label>, b: State, stamp: ControlStamp)
    requires StampInv(a) && Run(c, a, ls, b) && Silenced(a, stamp)
    ensures StampInv(b) && Silenced(b, stamp)
    ensures a.player.log.hardware <= b.player.log.hardware
    ensures forall x :: x in NewlySubmitted(a, b) && Carries(x.frame.block, stamp) ==> WasLoaded(a, x, stamp)
    decreases |ls|
  {
    if ls != [] {
      var m := Step(c, a, ls[0]);
      StepKeepsStamps(c, a, ls[0]);
      StepStaysSilenced(c, a, ls[0], stamp);
      RunStaysSilenced(c, m, ls[1..], b, stamp);
      NewlySubmittedSplits(a, m, b);
    }
  }

  // ---------------------------------------------------------------------------
  // What each preempter has achieved so far
  // ---------------------------------------------------------------------------

  /** The stamps the owner had already replaced when the call began. */
  ghost predicate PastAtStart(s: State, m: Preempt, stamp: ControlStamp) {
    m.past <= |s.ledger.issued| && stamp in s.ledger.issued[..m.past]
  }

  ghost predicate Achieved(s: State, m: Preempt, stamp: ControlStamp) {
    && s.ledger.Past(stamp)
    && (m.at.Cancelled() ==> !Armed(s, stamp))
    && (m.at.Aborted() ==> Flushed(s.player, s.playback, stamp))
    && (m.at.Aborted() && Loaded(s.playback, stamp) ==> s.playback.token <= m.lastToken)
  }

  ghost predicate PreemptInv(s: State) {
    forall id, stamp :: id in s.preempts && PastAtStart(s, s.preempts[id], stamp) ==> Achieved(s, s.preempts[id], stamp)
  }

  ghost predicate PastBound(s: State) {
    forall id :: id in s.preempts ==> s.preempts[id].past <= |s.ledger.issued|
  }

  lemma AbortFlushes(c: Config, s: State, stamp: ControlStamp)
    requires PlayerInv(c, s)
    ensures Flushed(s.player.Abort(), s.playback, stamp)
    ensures Loaded(s.playback, stamp) ==> s.playback.token <= s.player.lastToken
  {
  }

  /** The call's own step. */
  lemma OwnStepAchieves(c: Config, s: State, id: nat, l: PreemptLabel, stamp: ControlStamp)
    requires PlayerInv(c, s) && StampInv(s) && PreemptEnabled(s, id, l)
    requires var t := PreemptStep(s, id, l); PastAtStart(t, t.preempts[id], stamp)
    requires id in s.preempts ==> Achieved(s, s.preempts[id], stamp)
    ensures var t := PreemptStep(s, id, l); Achieved(t, t.preempts[id], stamp)
  {
    match l
    case PreStart => StartsPast(s, id, stamp);
    case PreAbort =>
      AbortFlushes(c, s, stamp);
      AbortMoves(s, id);
    case _ => OwnStepMoves(s, id, l);
  }

  lemma StartsPast(s: State, id: nat, stamp: ControlStamp)
    requires s.ledger.Valid() && id !in s.preempts
    ensures var t := PreemptStep(s, id, PreStart);
      && t.ledger == s.ledger && t.preempts[id].at == Started
      && (PastAtStart(t, t.preempts[id], stamp) ==> s.ledger.Past(stamp))
  {
    var t := PreemptStep(s, id, PreStart);
    if PastAtStart(t, t.preempts[id], stamp) {
      var i :| 0 <= i < |s.ledger.issued| - 1 && s.ledger.issued[i] == stamp;
      IssuedOnce(s.ledger, i, |s.ledger.issued| - 1);
    }
  }

  lemma AbortMoves(s: State, id: nat)
    requires PreemptEnabled(s, id, PreAbort)
    ensures PreemptStep(s, id, PreAbort)
      == s.(player := s.player.Abort(),
            preempts := s.preempts[id := Preempt(Emptying, s.preempts[id].past, s.player.lastToken)])
  {
  }

  /** The other steps of a call only take it on, set the flag, or touch the queue and the active mark. */
  lemma OwnStepMoves(s: State, id: nat, l: PreemptLabel)
    requires PreemptEnabled(s, id, l) && !l.PreStart? && !l.PreAbort?
    ensures var t := PreemptStep(s, id, l);
      && t.ledger == s.ledger && t.player == s.player && t.playback == s.playback && t.worker == s.worker
      && (s.cancel ==> t.cancel)
      && t.preempts[id].lastToken == s.preempts[id].lastToken
      && (t.preempts[id].at.Aborted() ==> s.preempts[id].at.Aborted())
      && (t.preempts[id].at.Cancelled() ==> s.preempts[id].at.Cancelled() || t.cancel)
  {
  }

  /** Any step leaves what another call has achieved. */
  lemma OtherStepKeeps(c: Config, s: State, l: Label, m: Preempt, stamp: ControlStamp)
    requires StampInv(s) && Enabled(c, s, l) && Achieved(s, m, stamp)
    ensures Achieved(Step(c, s, l), m, stamp)
  {
    var t := Step(c, s, l);
    if m.at.Aborted() {
      StepStaysSilenced(c, s, l, stamp);
    } else if m.at.Cancelled() {
      StepStaysShut(c, s, l, stamp);
    } else {
      StepKeepsLedger(c, s, l);
      PastForGood(s.ledger, t.ledger, stamp);
    }
  }

  lemma PreemptMoves(s: State, id: nat, l: PreemptLabel)
    requires PreemptEnabled(s, id, l)
    ensures var t := PreemptStep(s, id, l);
      && t.ledger == s.ledger && id in t.preempts && t.preempts == s.preempts[id := t.preempts[id]]
      && (id in s.preempts ==> t.preempts[id].past == s.preempts[id].past)
      && (id !in s.preempts ==> t.preempts[id].past <= |s.ledger.issued|)
  {
    if l.PreEmpty? {
      assert s.preempts == s.preempts[id := s.preempts[id]];
    }
  }

  lemma PreemptsElsewhere(c: Config, s: State, l: Label)
    requires Enabled(c, s, l)
    ensures var t := Step(c, s, l);
      if l.Pre? then
        && t.ledger == s.ledger && t.preempts.Keys == s.preempts.Keys + {l.id}
        && (l.id in s.preempts ==> t.preempts[l.id].past == s.preempts[l.id].past)
        && (l.id !in s.preempts ==> t.preempts[l.id].past <= |s.ledger.issued|)
        && forall k :: k in s.preempts && k != l.id ==> t.preempts[k] == s.preempts[k]
      else t.preempts == s.preempts
  {
    if l.Pre? {
      PreemptMoves(s, l.id, l.p);
    }
  }

  lemma SamePrefix<T>(a: seq<T>, b: seq<T>, n: nat)
    requires a <= b && n <= |a|
    ensures a[..n] == b[..n]
  {
  }

  /** What was past when a call began does not change while it goes on. */
  lemma PastBefore(c: Config, s: State, l: Label, id: nat, stamp: ControlStamp)
    requires s.ledger.Valid() && PastBound(s) && Enabled(c, s, l) && id in s.preempts
    ensures var t := Step(c, s, l);
      id in t.preempts && (PastAtStart(t, t.preempts[id], stamp) ==> PastAtStart(s, s.preempts[id], stamp))
  {
    var t := Step(c, s, l);
    PreemptsElsewhere(c, s, l);
    StepKeepsLedger(c, s, l);
    SamePrefix(s.ledger.issued, t.ledger.issued, s.preempts[id].past);
  }

  lemma StepKeepsPreempts(c: Config, s: State, l: Label)
    requires PlayerInv(c, s) && StampInv(s) && PastBound(s) && PreemptInv(s) && Enabled(c, s, l)
    ensures PastBound(Step(c, s, l)) && PreemptInv(Step(c, s, l))
  {
    var t := Step(c, s, l);
    PreemptsElsewhere(c, s, l);
    StepKeepsLedger(c, s, l);
    forall id, stamp | id in t.preempts && PastAtStart(t, t.preempts[id], stamp)
      ensures Achieved(t, t.preempts[id], stamp)
    {
      if id in s.preempts {
        PastBefore(c, s, l, id, stamp);
      }
      if l.Pre? && l.id == id {
        OwnStepAchieves(c, s, id, l.p, stamp);
      } else {
        OtherStepKeeps(c, s, l, s.preempts[id], stamp);
      }
    }
  }

  ghost predicate SystemInv(c: Config, s: State) {
    PlayerInv(c, s) && StampInv(s) && PastBound(s) && PreemptInv(s)
  }

  lemma {:induction false} RunKeepsSystem(c: Config, a: State, ls: seq<Label>, b: State)
    requires SystemInv(c, a) && Run(c, a, ls, b)
    ensures SystemInv(c, b)
    ensures a.ledger.issued <= b.ledger.issued
    decreases |ls|
  {
    if ls != [] {
      StepKeepsPlayer(c, a, ls[0]);
      StepKeepsStamps(c, a, ls[0]);
      StepKeepsPreempts(c, a, ls[0]);
      StepKeepsLedger(c, a, ls[0]);
      RunKeepsSystem(c, Step(c, a, ls[0]), ls[1..], b);
    }
  }

  lemma InitSystem(c: Config, sessionId: string)
    requires sessionId != ""
    ensures SystemInv(c, Init(sessionId))
  {
  }

  lemma ReachableSystem(c: Config, s: State)
    requires Reachable(c, s)
    ensures SystemInv(c, s)
  {
    var sessionId, ls :| sessionId != "" && Run(c, Init(sessionId), ls, s);
    InitSystem(c, sessionId);
    RunKeepsSystem(c, Init(sessionId), ls, s);
  }

  lemma StartsLater(c: Config, s: State, l: Label, id: nat, stamp: ControlStamp)
    requires s.ledger.Valid() && s.ledger.Past(stamp) && Enabled(c, s, l)
    requires id in s.preempts ==> PastAtStart(s, s.preempts[id], stamp)
    ensures var t := Step(c, s, l);
      t.ledger.Valid() && t.ledger.Past(stamp) && (id in t.preempts ==> PastAtStart(t, t.preempts[id], stamp))
  {
    var t := Step(c, s, l);
    PreemptsElsewhere(c, s, l);
    StepKeepsLedger(c, s, l);
    PastForGood(s.ledger, t.ledger, stamp);
    if id in s.preempts {
      SamePrefix(s.ledger.issued, t.ledger.issued, s.preempts[id].past);
    } else if id in t.preempts {
      assert l == Pre(id, PreStart);
      var i :| 0 <= i < |s.ledger.issued| && s.ledger.issued[i] == stamp;
      assert t.ledger.issued[..|s.ledger.issued| - 1][i] == stamp;
    }
  }

  /** A call begun after the owner moved past `stamp` counts `stamp` among its past stamps. */
  lemma {:induction false} StartedLater(c: Config, a: State, ls: seq<Label>, b: State, id: nat, stamp: ControlStamp)
    requires a.ledger.Valid() && Run(c, a, ls, b) && a.ledger.Past(stamp)
    requires id in a.preempts ==> PastAtStart(a, a.preempts[id], stamp)
    requires id in b.preempts
    ensures PastAtStart(b, b.preempts[id], stamp)
    decreases |ls|
  {
    if ls != [] {
      StartsLater(c, a, ls[0], id, stamp);
      StartedLater(c, Step(c, a, ls[0]), ls[1..], b, id, stamp);
    }
  }

  // ---------------------------------------------------------------------------
  // The theorems
  // ---------------------------------------------------------------------------

  /**
   Stale audio, end to end.  The owner has moved past `stamp` in `a`; a preempt_output call
   begins after that, and in `b` it has aborted the player (in particular, it may have
   returned True).  Then in every continuation `z`:
   no sample of the turn enters the ring again, none is left in it, and at most one more
   block of the turn reaches the hardware, under a token minted before the abort.
   */
  lemma StaleAudioEndToEnd(c: Config, a: State, ls: seq<Label>, b: State, ms: seq<Label>, z: State, id: nat,
                           stamp: ControlStamp)
    requires Reachable(c, a) && a.ledger.Past(stamp) && id !in a.preempts
    requires Run(c, a, ls, b) && id in b.preempts && b.preempts[id].at.Aborted()
    requires Run(c, b, ms, z)
    ensures !Carries(NewlyAccepted(b, z), stamp) && !Carries(z.player.ring, stamp)
    ensures forall x :: x in NewlySubmitted(b, z) && Carries(x.frame.block, stamp) ==>
              x.token <= b.preempts[id].lastToken
    ensures forall i, j :: 0 <= i < |NewlySubmitted(b, z)| && 0 <= j < |NewlySubmitted(b, z)|
              && Carries(NewlySubmitted(b, z)[i].frame.block, stamp)
              && Carries(NewlySubmitted(b, z)[j].frame.block, stamp)
              ==> i == j
  {
    ReachableSystem(c, a);
    RunKeepsSystem(c, a, ls, b);
    RunKeepsSystem(c, b, ms, z);
    StartedLater(c, a, ls, b, id, stamp);
    assert Achieved(b, b.preempts[id], stamp);
    RunStaysShut(c, b, ms, z, stamp);
    RunStaysSilenced(c, b, ms, z, stamp);
    OneSubmissionPerToken(c, b, z, stamp);
  }

  /** Submissions that all equal one committed block are one submission. */
  lemma OneSubmissionPerToken(c: Config, b: State, z: State, stamp: ControlStamp)
    requires Hardware(z.player, z.playback) && b.player.log.hardware <= z.player.log.hardware
    requires forall x :: x in NewlySubmitted(b, z) && Carries(x.frame.block, stamp) ==> WasLoaded(b, x, stamp)
    ensures forall i, j :: 0 <= i < |NewlySubmitted(b, z)| && 0 <= j < |NewlySubmitted(b, z)|
              && Carries(NewlySubmitted(b, z)[i].frame.block, stamp)
              && Carries(NewlySubmitted(b, z)[j].frame.block, stamp)
              ==> i == j
  {
    var n, xs := |b.player.log.hardware|, NewlySubmitted(b, z);
    forall i, j | 0 <= i < j < |xs| ensures xs[i].token < xs[j].token {
      assert z.player.log.hardware[n + i].token < z.player.log.hardware[n + j].token;
    }
    forall i | 0 <= i < |xs| && Carries(xs[i].frame.block, stamp) ensures xs[i].token == b.playback.token {
      assert xs[i] in xs;
    }
  }

  // ---------------------------------------------------------------------------
  // False returns: sound exactly while no busy request has been orphaned
  // ---------------------------------------------------------------------------

  /** The worker is producing for a request that is no longer the active one, with the cancel flag clear. */
  ghost predicate Orphaned(s: State) {
    s.worker.Busy() && !s.cancel && s.active != Some(s.worker.r.id)
  }

  /** A release of the active request that comes after the worker has cleared the cancel flag for a new one. */
  ghost predicate LateRelease(s: State, l: Label) {
    l.Pre? && l.p.PreRelease? && s.worker.Busy() && !s.cancel
  }

  lemma WorkerKeepsActive(c: Config, s: State, l: WorkerLabel)
    requires WorkerEnabled(s, l) && !Orphaned(s)
    ensures !Orphaned(WorkerStep(c, s, l))
  {
  }

  /** A request is orphaned by a late release and by nothing else. */
  lemma OrphanedExactly(c: Config, s: State, l: Label)
    requires Enabled(c, s, l) && !Orphaned(s)
    ensures Orphaned(Step(c, s, l)) <==> LateRelease(s, l)
  {
    if l.Work? {
      WorkerKeepsActive(c, s, l.w);
    }
  }

  ghost predicate NoLateRelease(c: Config, a: State, ls: seq<Label>)
    decreases |ls|
  {
    ls == [] || (Enabled(c, a, ls[0]) && !LateRelease(a, ls[0]) && NoLateRelease(c, Step(c, a, ls[0]), ls[1..]))
  }

  /** The call may return False, or has. */
  ghost predicate SawNothing(s: State, id: nat) {
    PreemptAt(s, id, ReadActive(None)) || PreemptAt(s, id, Returned(false))
  }

  lemma SawNothingSince(c: Config, s: State, l: Label, id: nat)
    requires Enabled(c, s, l) && SawNothing(Step(c, s, l), id)
    ensures id in s.preempts && (SawNothing(s, id) || (l == Pre(id, PreRead) && s.active == None))
  {
    PreemptsElsewhere(c, s, l);
  }

  /** A call that has seen nothing saw it in this step or before, and was past the turn then too. */
  lemma SawNothingBefore(c: Config, s: State, l: Label, id: nat, stamp: ControlStamp)
    requires s.ledger.Valid() && PastBound(s) && Enabled(c, s, l)
    requires var t := Step(c, s, l); SawNothing(t, id) && PastAtStart(t, t.preempts[id], stamp)
    ensures id in s.preempts && PastAtStart(s, s.preempts[id], stamp)
    ensures SawNothing(s, id) || (l == Pre(id, PreRead) && s.active == None)
  {
    SawNothingSince(c, s, l, id);
    PastBefore(c, s, l, id, stamp);
  }

  /** A call that found no active request, and so may return False, has found nothing armed either. */
  ghost predicate FalseInv(s: State) {
    forall id, stamp :: SawNothing(s, id) && PastAtStart(s, s.preempts[id], stamp) ==> !Armed(s, stamp)
  }

  lemma StepKeepsFalse(c: Config, s: State, l: Label)
    requires SystemInv(c, s) && !Orphaned(s) && FalseInv(s) && Enabled(c, s, l)
    ensures FalseInv(Step(c, s, l))
  {
    var t := Step(c, s, l);
    forall id, stamp | SawNothing(t, id) && PastAtStart(t, t.preempts[id], stamp)
      ensures !Armed(t, stamp)
    {
      SawNothingBefore(c, s, l, id, stamp);
      UnarmedNow(c, s, id, stamp);
      StepStaysShut(c, s, l, stamp);
    }
  }

  lemma UnarmedNow(c: Config, s: State, id: nat, stamp: ControlStamp)
    requires SystemInv(c, s) && !Orphaned(s) && FalseInv(s)
    requires id in s.preempts && PastAtStart(s, s.preempts[id], stamp) && (SawNothing(s, id) || s.active == None)
    ensures Shut(s, stamp)
  {
    assert Achieved(s, s.preempts[id], stamp);
  }

  lemma {:induction false} RunKeepsFalse(c: Config, a: State, ls: seq<Label>, b: State)
    requires SystemInv(c, a) && !Orphaned(a) && FalseInv(a)
    requires Run(c, a, ls, b) && NoLateRelease(c, a, ls)
    ensures SystemInv(c, b) && !Orphaned(b) && FalseInv(b)
    decreases |ls|
  {
    if ls != [] {
      var m := Step(c, a, ls[0]);
      RunOne(c, a, ls[0]);
      RunKeepsSystem(c, a, [ls[0]], m);
      StepKeepsFalse(c, a, ls[0]);
      OrphanedExactly(c, a, ls[0]);
      RunKeepsFalse(c, m, ls[1..], b);
    }
  }

  lemma InitKeepsFalse(c: Config, sessionId: string, ls: seq<Label>, s: State)
    requires sessionId != "" && Run(c, Init(sessionId), ls, s) && NoLateRelease(c, Init(sessionId), ls)
    ensures SystemInv(c, s) && !Orphaned(s) && FalseInv(s)
  {
    InitSystem(c, sessionId);
    RunKeepsFalse(c, Init(sessionId), ls, s);
  }

  /**
   In every run without a late release, every preempt_output call, whatever it returns,
   shuts the ring to the turns the owner had moved past when the call began.
   */
  lemma EveryReturnShuts(c: Config, sessionId: string, ks: seq<Label>, a: State, ls: seq<Label>, b: State,
                         ms: seq<Label>, z: State, id: nat, stamp: ControlStamp)
    requires sessionId != ""
    requires Run(c, Init(sessionId), ks, a) && NoLateRelease(c, Init(sessionId), ks)
    requires a.ledger.Past(stamp) && id !in a.preempts
    requires Run(c, a, ls, b) && NoLateRelease(c, a, ls)
    requires id in b.preempts && b.preempts[id].at.Returned?
    requires Run(c, b, ms, z)
    ensures !Carries(NewlyAccepted(b, z), stamp)
  {
    InitKeepsFalse(c, sessionId, ks, a);
    RunKeepsFalse(c, a, ls, b);
    StartedLater(c, a, ls, b, id, stamp);
    ReturnShuts(c, b, id, stamp);
    RunStaysShut(c, b, ms, z, stamp);
  }

  lemma ReturnShuts(c: Config, s: State, id: nat, stamp: ControlStamp)
    requires SystemInv(c, s) && FalseInv(s)
    requires id in s.preempts && s.preempts[id].at.Returned? && PastAtStart(s, s.preempts[id], stamp)
    ensures Shut(s, stamp)
  {
    assert Achieved(s, s.preempts[id], stamp);
  }
}
