/**
 The TTS controller as an object (src/star_runtime/speech/tts/controller.py:112-337): the
 request queue, the cancel flag and the active request, updated in place.  Each method is a
 stretch of the source's code; run without interference it is one of the interleavings of
 `BargeIn`, step by step in the source's order.
 */
module TtsController {
  import opened Wrappers
  import opened Control
  import opened Player
  import opened AlsaOutput
  import opened BargeIn
  import Scheduler

  class TtsController {
    const player: AlsaOutputPlayer
    const control: RuntimeControlPlane
    const assembler: Scheduler.SentenceAssembler
    var queue: seq<Request>
    var cancel: bool
    var active: Option<string>

    constructor (player: AlsaOutputPlayer, control: RuntimeControlPlane, assembler: Scheduler.SentenceAssembler)
      ensures this.player == player && this.control == control && this.assembler == assembler
      ensures queue == [] && !cancel && active == None
    {
      this.player, this.control, this.assembler := player, control, assembler;
      queue, cancel, active := [], false, None;
    }

    /** The objects show the shared part of the system state `s`. */
    ghost predicate Shows(s: State)
      reads this, control, player, player.Repr()
    {
      && player.Valid()
      && s.player == player.View()
      && s.ledger.owner == control.View()
      && s.queue == queue && s.cancel == cancel && s.active == active
    }

    method DrainQueue()
      modifies this`queue
      ensures queue == []
    {
      while queue != []
        decreases |queue|
      {
        queue := queue[1..];
      }
    }

    /**
     An uninterrupted preempt_output.  Text not yet turned into a request is forgotten in any
     case; then nothing more happens if no request is active or queued, and otherwise the flag
     is set, the player aborted, the queue emptied and the active request released.
     */
    method PreemptOutput(ghost s: State, ghost id: nat)
      returns (interrupted: bool, ghost ls: seq<Label>, ghost t: State)
      requires Shows(s) && id !in s.preempts
      modifies this, player, player.ring, assembler
      ensures assembler.View() == Scheduler.Fresh(assembler.s)
      ensures t == if interrupted then
          s.(player := s.player.Abort(), queue := [], cancel := true, active := None, preempts := t.preempts)
        else s.(preempts := t.preempts)
      ensures Run(player.c, s, ls, t) && Shows(t) && PreemptAt(t, id, Returned(interrupted))
      ensures interrupted <==> old(active).Some? || old(queue) != []
      ensures interrupted ==> cancel && active == None && queue == [] && player.View() == old(player.View()).Abort()
      ensures !interrupted ==> cancel == old(cancel) && active == old(active) && queue == old(queue)
      ensures !interrupted ==> player.View() == old(player.View())
    {
      ls, t := PreemptRun(player.c, s, id);
      assembler.Reset();
      var request := active;
      if request == None && queue == [] {
        return false, ls, t;
      }
      Interrupt(s);
      interrupted := true;
    }

    method Interrupt(ghost s: State)
      requires Shows(s)
      modifies this, player, player.ring
      ensures Shows(s.(player := s.player.Abort(), queue := [], cancel := true, active := None))
    {
      cancel := true;
      player.Abort();
      DrainQueue();
      active := None;
    }

    /** The worker takes up the oldest request: the cancel flag is cleared first, then the stamp checked. */
    method TakeRequest(ghost s: State) returns (taken: Option<Request>, ghost ls: seq<Label>, ghost t: State)
      requires Shows(s) && s.worker.Idle? && queue != []
      modifies this
      ensures Run(player.c, s, ls, t) && Shows(t)
      ensures taken == (if control.View().IsCurrent(old(queue)[0].stamp) then Some(old(queue)[0]) else None)
      ensures t.worker ==
        if taken.None? then Idle
        else if taken.value.finalizeOnly then Marker(taken.value)
        else Streaming(taken.value, false)
      ensures !cancel && queue == old(queue)[1..] && active == if taken.None? then old(active) else Some(taken.value.id)
    {
      ls, t := TakeRun(player.c, s);
      var request := queue[0];
      queue := queue[1..];
      cancel := false;
      var current := control.IsCurrent(request.stamp);
      if !current {
        return None, ls, t;
      }
      active := Some(request.id);
      taken := Some(request);
    }

    /**
     One chunk from the engine, up to the moment its enqueue call has begun: the cancel flag,
     then the stamp, then the player's own checks.
     */
    method OfferChunk(r: Request, pcm: seq<int>, converted: seq<int>, ghost s: State)
      returns (next: ChunkOutcome, ghost ls: seq<Label>, ghost t: State)
      requires Shows(s) && s.worker.Streaming? && s.worker.r == r
      modifies this`cancel, player
      ensures Run(player.c, s, ls, t) && Shows(t)
      ensures t.worker == WorkerAfter(r, s.worker.started, converted, next)
      ensures next.Begun? ==> pcm != [] && control.View().IsCurrent(r.stamp) && !cancel && !player.stop
      ensures next.Begun? ==> next.gen == player.gen
      ensures next.Begun? && r.stamp.Scoped() ==> next.stamp == Some(r.stamp)
    {
      ls, t := ChunkRun(player.c, s, pcm, converted);
      if cancel {
        return Stopped, ls, t;
      }
      var current := control.IsCurrent(r.stamp);
      if !current {
        cancel := true;
        return Stopped, ls, t;
      }
      player.SetControlStamp(r.stamp);
      if pcm == [] {
        return Skipped, ls, t;
      }
      var result := player.OpenEnqueue(cancel);
      next := if result.Opened? then Begun(player.gen, result.stamp) else if result.Raised? then Failed else Stopped;
    }

    /** The end of a request: release it if it is still the active one, and complete its turn if still current. */
    method Conclude(r: Request, ghost s: State) returns (completed: bool, ghost ls: seq<Label>, ghost t: State)
      requires Shows(s) && s.worker == Finishing(r)
      modifies this`active, control
      ensures Run(player.c, s, ls, t) && Shows(t) && t.worker.Idle?
      ensures completed <==> (r.final || cancel) && old(active) == Some(r.id) && old(control.View()).IsCurrent(r.stamp)
      ensures control.View() == if completed then old(control.View()).Complete(r.stamp) else old(control.View())
      ensures active == if (r.final || cancel) && old(active) == Some(r.id) then None else old(active)
    {
      ls, t := ConcludeRun(player.c, s);
      if !(r.final || cancel) || active != Some(r.id) {
        return false, ls, t;
      }
      active := None;
      completed := control.IsCurrent(r.stamp);
      if completed {
        var _ := control.Complete(r.stamp);
      }
    }
  }

  /** What became of a chunk: a running enqueue call, nothing to enqueue, an exception, or the end of the stream. */
  datatype ChunkOutcome = Begun(gen: nat, stamp: Option<ControlStamp>) | Skipped | Failed | Stopped

  function WorkerAfter(r: Request, started: bool, converted: seq<int>, next: ChunkOutcome): Worker {
    match next
    case Begun(gen, stamp) => Enqueuing(r, started, converted, gen, stamp)
    case Skipped => Streaming(r, true)
    case Failed => Finishing(r)
    case Stopped => Ended(r, started)
  }

  lemma TakeRun(c: Config, s: State) returns (ls: seq<Label>, t: State)
    requires s.worker.Idle? && s.queue != []
    ensures Run(c, s, ls, t)
    ensures var r := s.queue[0];
      t == if s.ledger.owner.IsCurrent(r.stamp)
           then s.(worker := if r.finalizeOnly then Marker(r) else Streaming(r, false),
                   queue := s.queue[1..], cancel := false, active := Some(r.id))
           else s.(worker := Idle, queue := s.queue[1..], cancel := false)
  {
    ls, t := Then(c, s, [], s, Work(Get));
    ls, t := Then(c, s, ls, t, Work(ClearCancel));
    ls, t := Then(c, s, ls, t, Work(CheckRequest));
    if t.worker.Confirmed? {
      ls, t := Then(c, s, ls, t, Work(SetActive));
    }
  }

  lemma ChunkRun(c: Config, s: State, pcm: seq<int>, converted: seq<int>) returns (ls: seq<Label>, t: State)
    requires s.worker.Streaming?
    ensures Run(c, s, ls, t)
    ensures var w := s.worker;
      var p := s.player.SetStamp(w.r.stamp);
      t == if s.cancel then s.(worker := Ended(w.r, w.started))
           else if !s.ledger.owner.IsCurrent(w.r.stamp) then s.(worker := Ended(w.r, w.started), cancel := true)
           else if pcm == [] then s.(worker := Streaming(w.r, true), player := p)
           else if p.stop then s.(worker := Finishing(w.r), player := p)
           else s.(worker := Enqueuing(w.r, w.started, converted, p.gen, p.enqueueStamp), player := p.Open())
  {
    ls, t := Then(c, s, [], s, Work(EngineChunk(pcm)));
    ls, t := Then(c, s, ls, t, Work(TestCancel));
    if !s.cancel {
      ls, t := Then(c, s, ls, t, Work(CheckChunk));
      if t.worker.Outdated? {
        ls, t := Then(c, s, ls, t, Work(CancelSelf));
      } else {
        ls, t := EnqueueRun(c, s, ls, t, converted);
      }
    }
  }
}
