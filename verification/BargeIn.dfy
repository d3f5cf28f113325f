/**
 The barge-in protocol as a step system: the epoch owner, any number of concurrent
 `preempt_output` calls, the one TTS worker and the one playback thread, with one step for
 each critical section or single read or write of a shared flag.
   owner       src/star_runtime/core/control.py
   preempters  src/star_runtime/speech/tts/controller.py:112-150
   worker      src/star_runtime/speech/tts/controller.py:189-337
   playback    src/star_runtime/speech/audio/output.py:580-862
 The transport may queue any request at any time, the engine may deliver any chunks, end or
 raise, the resampler may return any samples, and device calls may fail.
 */
module BargeIn {
  import opened Wrappers
  import opened Control
  import opened Player

  datatype Request = Request(id: string, stamp: ControlStamp, final: bool, finalizeOnly: bool)

  /** Where the TTS worker stands; `started` is whether this request has queued output. */
  datatype Worker =
    | Idle
    | Got(r: Request)
    | Cleared(r: Request)
    | Confirmed(r: Request)
    | Marker(r: Request)
    | Streaming(r: Request, started: bool)
    | Chunk(r: Request, started: bool, pcm: seq<int>)
    | Uncancelled(r: Request, started: bool, pcm: seq<int>)
    | Outdated(r: Request, started: bool)
    | Fresh(r: Request, started: bool, pcm: seq<int>)
    | Stamped(r: Request, started: bool, pcm: seq<int>)
    | Enqueuing(r: Request, started: bool, rest: seq<int>, gen: nat, stamp: Option<ControlStamp>)
    | Ended(r: Request, started: bool)
    | WaitStart(r: Request)
    | Draining(r: Request)
    | Finishing(r: Request)
    | Clearing(r: Request)
    | Confirming(r: Request)
    | Completing(r: Request)
  {
    /** The worker is producing for a request it has published as active. */
    predicate Busy() {
      Marker? || Streaming? || Chunk? || Uncancelled? || Outdated? || Fresh? || Stamped? || Enqueuing?
    }
  }

  datatype PreemptPoint =
    | Started
    | ReadActive(seen: Option<string>)
    | Cancelling
    | Aborting
    | Emptying
    | Releasing
    | Returned(result: bool)
  {
    /** The cancel flag has been set. */
    predicate Cancelled() {
      Aborting? || Emptying? || Releasing? || (Returned? && result)
    }

    /** The player has been aborted. */
    predicate Aborted() {
      Emptying? || Releasing? || (Returned? && result)
    }
  }

  /**
   One call of preempt_output.  `past` is how many stamps the owner had already replaced when
   the call began, `lastToken` the newest commit token at its abort.
   */
  datatype Preempt = Preempt(at: PreemptPoint, past: nat, lastToken: nat)

  datatype State = State(
    ledger: Ledger,
    player: Player,
    playback: Playback,
    worker: Worker,
    queue: seq<Request>,
    cancel: bool,
    active: Option<string>,
    preempts: map<nat, Preempt>
  )

  /** The points of preempt_output. */
  datatype PreemptLabel = PreStart | PreRead | PreDecide | PreCancel | PreAbort | PreEmpty | PreRelease

  /** The points of the TTS worker loop. */
  datatype WorkerLabel =
    | Get
    | ClearCancel
    | CheckRequest
    | SetActive
    | TestMarker
    | EngineChunk(pcm: seq<int>)
    | EngineEnds
    | EngineRaises
    | TestCancel
    | CheckChunk
    | CancelSelf
    | SetStamp
    | OpenEnqueue(converted: seq<int>)
    | WriteRing
    | TestEnd
    | StartWait
    | PollIdle
    | TestFinal
    | ReleaseActive
    | CheckDone
    | CompleteTurn

  datatype Label =
    | Own(e: OwnerEvent)
    | Put(r: Request)
    | Close
    | Pre(id: nat, p: PreemptLabel)
    | Work(w: WorkerLabel)
    | Gate(g: GateLabel)
    | Device(d: DeviceLabel)

  ghost function Init(sessionId: string): State {
    State(FreshLedger(sessionId), NewPlayer(), Playback.Waiting, Idle, [], false, None, map[])
  }

  // ---------------------------------------------------------------------------
  // Preempters
  // ---------------------------------------------------------------------------

  predicate PreemptAt(s: State, id: nat, at: PreemptPoint) {
    id in s.preempts && s.preempts[id].at == at
  }

  function Move(s: State, id: nat, at: PreemptPoint): State
    requires id in s.preempts
  {
    s.(preempts := s.preempts[id := s.preempts[id].(at := at)])
  }

  predicate PreemptEnabled(s: State, id: nat, l: PreemptLabel) {
    match l
    case PreStart => id !in s.preempts
    case PreRead => PreemptAt(s, id, Started)
    case PreDecide => id in s.preempts && s.preempts[id].at.ReadActive?
    case PreCancel => PreemptAt(s, id, Cancelling)
    case PreAbort => PreemptAt(s, id, Aborting)
    case PreEmpty => PreemptAt(s, id, Emptying)
    case PreRelease => PreemptAt(s, id, Releasing)
  }

  function PreemptStep(s: State, id: nat, l: PreemptLabel): State
    requires PreemptEnabled(s, id, l)
  {
    match l
    case PreStart =>
      var n := |s.ledger.issued|;
      s.(preempts := s.preempts[id := Preempt(Started, if n == 0 then 0 else n - 1, 0)])
    case PreRead => Move(s, id, ReadActive(s.active))
    case PreDecide =>
      if s.preempts[id].at.seen == None && s.queue == [] then Move(s, id, Returned(false))
      else Move(s, id, Cancelling)
    case PreCancel => Move(s, id, Aborting).(cancel := true)
    case PreAbort =>
      s.(player := s.player.Abort(),
         preempts := s.preempts[id := s.preempts[id].(at := Emptying, lastToken := s.player.lastToken)])
    case PreEmpty =>
      if s.queue == [] then Move(s, id, Releasing) else s.(queue := s.queue[1..])
    case PreRelease => Move(s, id, Returned(true)).(active := None)
  }

  // ---------------------------------------------------------------------------
  // TTS worker
  // ---------------------------------------------------------------------------

  predicate WorkerEnabled(s: State, l: WorkerLabel) {
    match l
    case Get => s.worker.Idle? && s.queue != []
    case ClearCancel => s.worker.Got?
    case CheckRequest => s.worker.Cleared?
    case SetActive => s.worker.Confirmed?
    case TestMarker => s.worker.Marker?
    case EngineChunk(_) => s.worker.Streaming?
    case EngineEnds => s.worker.Streaming?
    case EngineRaises => s.worker.Streaming?
    case TestCancel => s.worker.Chunk?
    case CheckChunk => s.worker.Uncancelled?
    case CancelSelf => s.worker.Outdated?
    case SetStamp => s.worker.Fresh?
    case OpenEnqueue(_) => s.worker.Stamped?
    case WriteRing => s.worker.Enqueuing?
    case TestEnd => s.worker.Ended?
    case StartWait => s.worker.WaitStart?
    case PollIdle => s.worker.Draining?
    case TestFinal => s.worker.Finishing?
    case ReleaseActive => s.worker.Clearing?
    case CheckDone => s.worker.Confirming?
    case CompleteTurn => s.worker.Completing?
  }

  function WorkerStep(c: Config, s: State, l: WorkerLabel): State
    requires WorkerEnabled(s, l)
  {
    var w := s.worker;
    match l
    case Get => s.(worker := Got(s.queue[0]), queue := s.queue[1..])
    case ClearCancel => s.(worker := Cleared(w.r), cancel := false)
    case CheckRequest => s.(worker := if s.ledger.owner.IsCurrent(w.r.stamp) then Confirmed(w.r) else Idle)
    case SetActive =>
      s.(worker := if w.r.finalizeOnly then Marker(w.r) else Streaming(w.r, false), active := Some(w.r.id))
    case TestMarker => s.(worker := if s.cancel then Finishing(w.r) else WaitStart(w.r))
    case EngineChunk(pcm) => s.(worker := Chunk(w.r, w.started, pcm))
    case EngineEnds => s.(worker := Ended(w.r, w.started))
    case EngineRaises => s.(worker := Finishing(w.r))
    case TestCancel =>
      s.(worker := if s.cancel then Ended(w.r, w.started) else Uncancelled(w.r, w.started, w.pcm))
    case CheckChunk =>
      s.(worker :=
           if s.ledger.owner.IsCurrent(w.r.stamp) then Fresh(w.r, w.started, w.pcm) else Outdated(w.r, w.started))
    case CancelSelf => s.(worker := Ended(w.r, w.started), cancel := true)
    case SetStamp => s.(worker := Stamped(w.r, w.started, w.pcm), player := s.player.SetStamp(w.r.stamp))
    case OpenEnqueue(converted) =>
      if w.pcm == [] then s.(worker := Streaming(w.r, true))
      else if s.player.stop then s.(worker := Finishing(w.r))
      else if s.cancel then s.(worker := Ended(w.r, w.started))
      else s.(worker := Enqueuing(w.r, w.started, converted, s.player.gen, s.player.enqueueStamp),
              player := s.player.Open())
    case WriteRing =>
      if w.rest == [] then s.(worker := Streaming(w.r, true))
      else if s.player.RefusesWrite(s.cancel) then s.(worker := Ended(w.r, w.started))
      else s.(worker := w.(rest := w.rest[s.player.Fits(c, w.rest)..]),
              player := s.player.Write(c, w.rest, w.gen, w.stamp))
    case TestEnd => s.(worker := if !s.cancel && w.r.final && w.started then WaitStart(w.r) else Finishing(w.r))
    case StartWait => s.(worker := Draining(w.r), player := s.player.RequestDrain())
    case PollIdle =>
      if s.player.Quiet() then s.(worker := Finishing(w.r), player := s.player.EndDrain())
      else if s.cancel then s.(worker := Finishing(w.r))
      else s
    case TestFinal => s.(worker := if w.r.final || s.cancel then Clearing(w.r) else Idle)
    case ReleaseActive =>
      if s.active == Some(w.r.id) then s.(worker := Confirming(w.r), active := None) else s.(worker := Idle)
    case CheckDone => s.(worker := if s.ledger.owner.IsCurrent(w.r.stamp) then Completing(w.r) else Idle)
    case CompleteTurn => s.(worker := Idle, ledger := s.ledger.Apply(TurnCompleted(w.r.stamp)))
  }

  // ---------------------------------------------------------------------------
  // Steps and runs
  // ---------------------------------------------------------------------------

  ghost predicate Enabled(c: Config, s: State, l: Label) {
    match l
    case Own(e) => s.ledger.Enabled(e)
    case Put(_) => true
    case Close => true
    case Pre(id, p) => PreemptEnabled(s, id, p)
    case Work(w) => WorkerEnabled(s, w)
    case Gate(g) => GateEnabled(c, s.player, s.playback, g)
    case Device(d) => DeviceEnabled(s.playback, d)
  }

  ghost function Step(c: Config, s: State, l: Label): State
    requires Enabled(c, s, l)
  {
    match l
    case Own(e) => s.(ledger := s.ledger.Apply(e))
    case Put(r) => s.(queue := s.queue + [r])
    case Close => s.(player := s.player.Close())
    case Pre(id, p) => PreemptStep(s, id, p)
    case Work(w) => WorkerStep(c, s, w)
    case Gate(g) =>
      var (p, b) := GateStep(c, s.player, s.playback, g);
      s.(player := p, playback := b)
    case Device(d) =>
      var (p, b) := DeviceStep(s.player, s.playback, d);
      s.(player := p, playback := b)
  }

  /** `b` is where the interleaving `ls` takes the system from `a`. */
  ghost predicate Run(c: Config, a: State, ls: seq<Label>, b: State)
    decreases |ls|
  {
    if ls == [] then a == b
    else Enabled(c, a, ls[0]) && Run(c, Step(c, a, ls[0]), ls[1..], b)
  }

  ghost predicate Reachable(c: Config, s: State) {
    exists sessionId, ls :: sessionId != "" && Run(c, Init(sessionId), ls, s)
  }

  lemma {:induction false} RunConcat(c: Config, a: State, ls: seq<Label>, b: State, ms: seq<Label>, d: State)
    requires Run(c, a, ls, b) && Run(c, b, ms, d)
    ensures Run(c, a, ls + ms, d)
    decreases |ls|
  {
    if ls == [] {
      assert ls + ms == ms;
    } else {
      assert (ls + ms)[1..] == ls[1..] + ms;
      RunConcat(c, Step(c, a, ls[0]), ls[1..], b, ms, d);
    }
  }

  lemma RunOne(c: Config, a: State, l: Label)
    requires Enabled(c, a, l)
    ensures Run(c, a, [l], Step(c, a, l))
  {
    assert [l][1..] == [];
    assert Run(c, Step(c, a, l), [], Step(c, a, l));
  }

  /** One more step at the end of a run. */
  lemma Then(c: Config, a: State, ls: seq<Label>, b: State, l: Label) returns (ms: seq<Label>, d: State)
    requires Run(c, a, ls, b) && Enabled(c, b, l)
    ensures ms == ls + [l] && d == Step(c, b, l) && Run(c, a, ms, d)
  {
    d := Step(c, b, l);
    ms := ls + [l];
    RunOne(c, b, l);
    RunConcat(c, a, ls, b, [l], d);
  }

  lemma ReachableExtends(c: Config, a: State, ls: seq<Label>, b: State)
    requires Reachable(c, a) && Run(c, a, ls, b)
    ensures Reachable(c, b)
  {
    var sessionId, ks :| sessionId != "" && Run(c, Init(sessionId), ks, a);
    RunConcat(c, Init(sessionId), ks, a, ls, b);
  }

  // ---------------------------------------------------------------------------
  // Uninterrupted stretches
  // ---------------------------------------------------------------------------

  lemma {:induction false} EmptyRun(c: Config, o: State, ls: seq<Label>, s: State, id: nat)
    returns (ms: seq<Label>, t: State)
    requires Run(c, o, ls, s) && PreemptAt(s, id, Emptying)
    ensures Run(c, o, ms, t) && t == Move(s, id, Releasing).(queue := [])
    decreases |s.queue|
  {
    var ks, m := Then(c, o, ls, s, Pre(id, PreEmpty));
    if s.queue == [] {
      ms, t := ks, m;
    } else {
      ms, t := EmptyRun(c, o, ks, m, id);
    }
  }

  /** One call from start to return with no other step in between. */
  lemma PreemptRun(c: Config, s: State, id: nat) returns (ls: seq<Label>, t: State)
    requires id !in s.preempts
    ensures Run(c, s, ls, t)
    ensures if s.active == None && s.queue == [] then
        PreemptAt(t, id, Returned(false)) && t == s.(preempts := t.preempts)
      else
        PreemptAt(t, id, Returned(true))
        && t == s.(player := s.player.Abort(), queue := [], cancel := true, active := None, preempts := t.preempts)
  {
    ls, t := [], s;
    ls, t := Then(c, s, ls, t, Pre(id, PreStart));
    ls, t := Then(c, s, ls, t, Pre(id, PreRead));
    ls, t := Then(c, s, ls, t, Pre(id, PreDecide));
    if s.active.Some? || s.queue != [] {
      ls, t := Then(c, s, ls, t, Pre(id, PreCancel));
      ls, t := Then(c, s, ls, t, Pre(id, PreAbort));
      ls, t := EmptyRun(c, s, ls, t, id);
      ls, t := Then(c, s, ls, t, Pre(id, PreRelease));
    }
  }

  /** A chunk found current is tagged and its enqueue call begun. */
  lemma EnqueueRun(c: Config, o: State, ls: seq<Label>, s: State, converted: seq<int>)
    returns (ms: seq<Label>, t: State)
    requires Run(c, o, ls, s) && s.worker.Fresh? && !s.cancel
    ensures Run(c, o, ms, t)
    ensures var w := s.worker;
      var p := s.player.SetStamp(w.r.stamp);
      t == if w.pcm == [] then s.(worker := Streaming(w.r, true), player := p)
           else if p.stop then s.(worker := Finishing(w.r), player := p)
           else s.(worker := Enqueuing(w.r, w.started, converted, p.gen, p.enqueueStamp), player := p.Open())
  {
    ms, t := Then(c, o, ls, s, Work(SetStamp));
    ms, t := Then(c, o, ms, t, Work(OpenEnqueue(converted)));
  }

  /** From the end of a request to the worker's next wait. */
  lemma ConcludeRun(c: Config, s: State) returns (ls: seq<Label>, t: State)
    requires s.worker.Finishing?
    ensures Run(c, s, ls, t)
    ensures var r := s.worker.r;
      t == if !(r.final || s.cancel) || s.active != Some(r.id) then s.(worker := Idle)
           else if s.ledger.owner.IsCurrent(r.stamp)
           then s.(worker := Idle, active := None, ledger := s.ledger.Apply(TurnCompleted(r.stamp)))
           else s.(worker := Idle, active := None)
  {
    ls, t := Then(c, s, [], s, Work(TestFinal));
    if t.worker.Clearing? {
      ls, t := Then(c, s, ls, t, Work(ReleaseActive));
      if t.worker.Confirming? {
        ls, t := ConfirmRun(c, s, ls, t);
      }
    }
  }

  lemma ConfirmRun(c: Config, o: State, ls: seq<Label>, s: State) returns (ms: seq<Label>, t: State)
    requires Run(c, o, ls, s) && s.worker.Confirming?
    ensures Run(c, o, ms, t)
    ensures var stamp := s.worker.r.stamp;
      t == if s.ledger.owner.IsCurrent(stamp) then s.(worker := Idle, ledger := s.ledger.Apply(TurnCompleted(stamp)))
           else s.(worker := Idle)
  {
    ms, t := Then(c, o, ls, s, Work(CheckDone));
    if t.worker.Completing? {
      ms, t := Then(c, o, ms, t, Work(CompleteTurn));
    }
  }
}
