/**
 The barge-in itself (src/star_runtime/speech/service.py:125-170): the owner advances first,
 the output is preempted second.
 */
module SpeechService {
  import opened Wrappers
  import opened Control
  import opened Player
  import opened BargeIn
  import opened CommitTokens
  import opened StaleAudio
  import opened PreemptOutput
  import opened TtsController

  /** In every continuation nothing of the turn is accepted or queued, and at most one more block of it submitted. */
  ghost predicate ForeverQuiet(c: Config, t: State, stamp: ControlStamp) {
    forall ms, z :: Run(c, t, ms, z) ==> QuietSince(t, z, stamp)
  }

  ghost predicate QuietSince(t: State, z: State, stamp: ControlStamp) {
    && !Carries(NewlyAccepted(t, z), stamp) && !Carries(z.player.ring, stamp)
    && forall i, j :: 0 <= i < |NewlySubmitted(t, z)| && 0 <= j < |NewlySubmitted(t, z)|
         && Carries(NewlySubmitted(t, z)[i].frame.block, stamp) && Carries(NewlySubmitted(t, z)[j].frame.block, stamp)
         ==> i == j
  }

  lemma PreemptedIsQuiet(c: Config, m: State, ls: seq<Label>, t: State, id: nat, stamp: ControlStamp)
    requires Reachable(c, m) && m.ledger.Past(stamp) && id !in m.preempts
    requires Run(c, m, ls, t) && PreemptAt(t, id, Returned(true))
    ensures ForeverQuiet(c, t, stamp)
  {
    forall ms, z | Run(c, t, ms, z) ensures QuietSince(t, z, stamp) {
      StaleAudioEndToEnd(c, m, ls, t, ms, z, id, stamp);
    }
  }

  /** The owner's step, as the system sees it. */
  lemma OwnerAdvances(c: Config, s: State) returns (m: State)
    requires Reachable(c, s) && s.ledger.owner.CanInvalidate()
    ensures Run(c, s, [Own(EpochAdvanced)], m) && Reachable(c, m)
    ensures m == s.(ledger := m.ledger) && m.ledger.owner == s.ledger.owner.Invalidate()
    ensures m.ledger.Past(s.ledger.owner.InvalidationEvent().stamp)
  {
    m := Step(c, s, Own(EpochAdvanced));
    RunOne(c, s, Own(EpochAdvanced));
    ReachableExtends(c, s, [Own(EpochAdvanced)], m);
    ReachableSystem(c, s);
    var stamp := s.ledger.owner.current.value;
    assert s.ledger.issued[|s.ledger.issued| - 1] == stamp;
    assert m.ledger.issued[|s.ledger.issued| - 1] == stamp;
  }

  /** One call with nothing in between: it silences the turn unless it found nothing and the turn was not silent. */
  lemma PreemptedOrSilent(c: Config, s: State, m: State, t: State, interrupted: bool, stamp: ControlStamp)
    requires Reachable(c, m) && m.ledger.Past(stamp) && m == s.(ledger := m.ledger)
    requires t == if interrupted then
        m.(player := m.player.Abort(), queue := [], cancel := true, active := None, preempts := t.preempts)
      else m.(preempts := t.preempts)
    ensures Silenced(t, stamp) <==> interrupted || (!Armed(s, stamp) && Flushed(s.player, s.playback, stamp))
  {
    ReachablePlayer(c, m);
    AbortFlushes(c, m, stamp);
  }

  /** What a call right behind the owner's step has done for the turn it invalidated. */
  lemma Outcome(c: Config, s: State, m: State, ls: seq<Label>, t: State, id: nat, interrupted: bool,
                stamp: ControlStamp)
    requires Reachable(c, m) && m.ledger.Past(stamp) && m == s.(ledger := m.ledger) && id !in m.preempts
    requires Run(c, m, ls, t) && PreemptAt(t, id, Returned(interrupted))
    requires t == if interrupted then
        m.(player := m.player.Abort(), queue := [], cancel := true, active := None, preempts := t.preempts)
      else m.(preempts := t.preempts)
    ensures Reachable(c, t) && (interrupted ==> ForeverQuiet(c, t, stamp))
    ensures Silenced(t, stamp) <==> interrupted || (!Armed(s, stamp) && Flushed(s.player, s.playback, stamp))
  {
    ReachableExtends(c, m, ls, t);
    PreemptedOrSilent(c, s, m, t, interrupted, stamp);
    if interrupted {
      PreemptedIsQuiet(c, m, ls, t, id, stamp);
    }
  }

  class SpeechService {
    const tts: TtsController
    /** The invalidations sent to the agent's side, and how often the speech provider was told to stop. */
    var published: seq<EpochInvalidated>
    var providerCancels: nat

    constructor (tts: TtsController)
      ensures this.tts == tts && published == [] && providerCancels == 0
    {
      this.tts, published, providerCancels := tts, [], 0;
    }

    /**
     Invalidates the current epoch, preempts its output, publishes the invalidation and only
     then stops the provider.  With nothing to invalidate it touches nothing.  If it preempted,
     the invalidated turn is quiet for ever; if not, the turn is silenced exactly if nothing of
     it was on its way before.
     */
    method InvalidateActiveResponse(ghost s: State, ghost id: nat)
      returns (event: Option<EpochInvalidated>, preempted: bool, ghost t: State)
      requires tts.Shows(s) && Reachable(tts.player.c, s) && id !in s.preempts
      modifies this, tts, tts.control, tts.player, tts.player.ring, tts.assembler
      ensures tts.Shows(t) && Reachable(tts.player.c, t)
      ensures event == if s.ledger.owner.CanInvalidate() then Some(s.ledger.owner.InvalidationEvent()) else None
      ensures event.None? ==> t == s && !preempted && published == old(published)
      ensures event.Some? ==> t.ledger.owner == s.ledger.owner.Invalidate() && PreemptAt(t, id, Returned(preempted))
      ensures event.Some? ==> published == old(published) + [event.value]
      ensures providerCancels == old(providerCancels) + if preempted then 1 else 0
      ensures preempted ==> ForeverQuiet(tts.player.c, t, event.value.stamp)
      ensures event.Some? ==> var stamp := event.value.stamp;
        (Silenced(t, stamp) <==> preempted || (!Armed(s, stamp) && Flushed(s.player, s.playback, stamp)))
    {
      ghost var m;
      event, m := AdvanceOwner(s);
      if event.None? {
        return event, false, s;
      }
      ghost var ls;
      preempted, ls, t := tts.PreemptOutput(m, id);
      Outcome(tts.player.c, s, m, ls, t, id, preempted, event.value.stamp);
      Publish(event.value, preempted);
    }

    /** The owner gives up the current epoch, if there is one to give up. */
    method AdvanceOwner(ghost s: State) returns (event: Option<EpochInvalidated>, ghost m: State)
      requires tts.Shows(s) && Reachable(tts.player.c, s)
      modifies tts.control
      ensures tts.Shows(m) && Reachable(tts.player.c, m) && m == s.(ledger := m.ledger)
      ensures event == if s.ledger.owner.CanInvalidate() then Some(s.ledger.owner.InvalidationEvent()) else None
      ensures event.None? ==> m == s
      ensures event.Some? ==> m.ledger.owner == s.ledger.owner.Invalidate() && m.ledger.Past(event.value.stamp)
    {
      event := tts.control.Invalidate();
      if event.None? {
        return event, s;
      }
      m := OwnerAdvances(tts.player.c, s);
    }

    /** Sends the invalidation, then stops the provider if there was anything to stop. */
    method Publish(event: EpochInvalidated, preempted: bool)
      modifies this`published, this`providerCancels
      ensures published == old(published) + [event]
      ensures providerCancels == old(providerCancels) + if preempted then 1 else 0
    {
      published := published + [event];
      if preempted {
        providerCancels := providerCancels + 1;
      }
    }
  }
}
