/**
 One enqueue call from its opening to its end (src/star_runtime/speech/audio/output.py:290-350),
 in every interleaving with the other threads: what it has put into the ring and what it still
 has to put there are the samples of the chunk.
 */
module EnqueueCalls {
  import opened Collections
  import opened Wrappers
  import opened Control
  import opened Player
  import opened BargeIn
  import opened CommitTokens
  import opened StaleAudio
  import opened StaleReach

  /** The call is open in `a` and after every step. */
  ghost predicate StaysOpen(c: Config, a: State, ls: seq<Label>)
    decreases |ls|
  {
    && a.worker.Enqueuing?
    && (ls != [] ==> Enabled(c, a, ls[0]) && StaysOpen(c, Step(c, a, ls[0]), ls[1..]))
  }

  /** What the open call has still to put into the ring, tagged as it will be. */
  ghost function Remaining(w: Worker): seq<Sample>
    requires w.Enqueuing?
  {
    Tag(w.rest, w.gen, w.stamp)
  }

  lemma TagSplits(pcm: seq<int>, k: nat, gen: nat, stamp: Option<ControlStamp>)
    requires k <= |pcm|
    ensures Tag(pcm[..k], gen, stamp) + Tag(pcm[k..], gen, stamp) == Tag(pcm, gen, stamp)
  {
  }

  /** Nothing has told the open call to give up. */
  ghost predicate Welcome(s: State) {
    !s.player.stop && !s.player.aborted && !s.cancel
  }

  /**
   One turn of the loop: as much of the rest as the ring has room for goes into it, in order,
   and the call goes on; with nothing left, or told to give up, it ends.
   */
  lemma WriteTakes(c: Config, s: State)
    requires s.worker.Enqueuing?
    ensures var t := Step(c, s, Work(WriteRing));
      && (t.worker.Enqueuing? <==> s.worker.rest != [] && Welcome(s))
      && (t.worker.Enqueuing? ==>
            && t.worker.gen == s.worker.gen && t.worker.stamp == s.worker.stamp && t.worker.r == s.worker.r
            && s.player.log.accepted <= t.player.log.accepted
            && t.player.ring == s.player.ring + NewlyAccepted(s, t)
            && NewlyAccepted(s, t) + Remaining(t.worker) == Remaining(s.worker)
            && (t.worker.rest == [] || c.capacity <= |t.player.ring|)
            && (|s.player.ring| <= c.capacity ==> |t.player.ring| <= c.capacity))
      && (!t.worker.Enqueuing? ==>
            && t.player == s.player
            && t.worker == if s.worker.rest == [] then Streaming(s.worker.r, true)
                           else Ended(s.worker.r, s.worker.started))
  {
    if s.worker.rest != [] && Welcome(s) {
      var k := s.player.Fits(c, s.worker.rest);
      var t := Step(c, s, Work(WriteRing));
      TagSplits(s.worker.rest, k, s.worker.gen, s.worker.stamp);
      Written(c, s.player, s.worker.rest, s.worker.gen, s.worker.stamp);
    }
  }

  /** What a partial write puts into the ring. */
  lemma Written(c: Config, p: Player, rest: seq<int>, gen: nat, stamp: Option<ControlStamp>)
    ensures var k := p.Fits(c, rest);
      var added, q := Tag(rest[..k], gen, stamp), p.Write(c, rest, gen, stamp);
      && q.ring == p.ring + added && q.log.accepted == p.log.accepted + added
      && (k == |rest| || c.capacity <= |q.ring|)
  {
    if p.Fits(c, rest) == 0 {
      assert p.ring + Tag(rest[..0], gen, stamp) == p.ring;
      assert p.log.accepted + Tag(rest[..0], gen, stamp) == p.log.accepted;
    }
  }

  lemma StepTakes(c: Config, a: State, l: Label)
    requires Enabled(c, a, l) && a.worker.Enqueuing? && Step(c, a, l).worker.Enqueuing?
    ensures var b := Step(c, a, l);
      && b.worker.gen == a.worker.gen && b.worker.stamp == a.worker.stamp
      && a.player.log.accepted <= b.player.log.accepted
      && NewlyAccepted(a, b) + Remaining(b.worker) == Remaining(a.worker)
  {
    if l.Work? {
      WriteTakes(c, a);
    } else {
      OthersLeaveProducer(c, a, l);
      assert [] + Remaining(a.worker) == Remaining(a.worker);
    }
  }

  lemma {:induction false} RunTakes(c: Config, a: State, ls: seq<Label>, b: State)
    requires Run(c, a, ls, b) && StaysOpen(c, a, ls)
    ensures b.worker.Enqueuing? && b.worker.gen == a.worker.gen && b.worker.stamp == a.worker.stamp
    ensures a.player.log.accepted <= b.player.log.accepted
    ensures NewlyAccepted(a, b) + Remaining(b.worker) == Remaining(a.worker)
    decreases |ls|
  {
    if ls == [] {
      assert NewlyAccepted(a, b) == [];
      assert [] + Remaining(b.worker) == Remaining(b.worker);
    } else {
      var m := Step(c, a, ls[0]);
      StepTakes(c, a, ls[0]);
      RunTakes(c, m, ls[1..], b);
      NewlyAcceptedSplits(a, m, b);
      Regroup(NewlyAccepted(a, m), NewlyAccepted(m, b), Remaining(b.worker));
    }
  }

  /** The opening of a call for the converted samples of a chunk. */
  ghost predicate Opened(c: Config, o: State, converted: seq<int>, a: State) {
    Enabled(c, o, Work(OpenEnqueue(converted))) && a == Step(c, o, Work(OpenEnqueue(converted))) && a.worker.Enqueuing?
  }

  /**
   While a call is open, the samples it has accepted followed by those it has not are the
   converted samples of its chunk, in order, under the generation and the stamp it began with.
   */
  lemma ChunkIsTakenInOrder(c: Config, o: State, converted: seq<int>, a: State, ls: seq<Label>, b: State)
    requires Opened(c, o, converted, a) && Run(c, a, ls, b) && StaysOpen(c, a, ls)
    ensures b.worker.Enqueuing?
    ensures NewlyAccepted(a, b) + Tag(b.worker.rest, o.player.gen, o.player.enqueueStamp)
        == Tag(converted, o.player.gen, o.player.enqueueStamp)
  {
    RunTakes(c, a, ls, b);
  }

  /** A call returns True exactly when its whole chunk has been accepted, and False only when told to give up. */
  lemma CallEndsExactly(c: Config, o: State, converted: seq<int>, a: State, ls: seq<Label>, b: State)
    requires Opened(c, o, converted, a) && Run(c, a, ls, b) && StaysOpen(c, a, ls)
    requires b.worker.Enqueuing? && !Step(c, b, Work(WriteRing)).worker.Enqueuing?
    ensures var t, whole := Step(c, b, Work(WriteRing)), Tag(converted, o.player.gen, o.player.enqueueStamp);
      && NewlyAccepted(a, t) <= whole
      && (t.worker == Streaming(b.worker.r, true) <==> NewlyAccepted(a, t) == whole)
      && (t.worker == Ended(b.worker.r, b.worker.started) <==> NewlyAccepted(a, t) != whole)
      && (NewlyAccepted(a, t) != whole ==> !Welcome(b))
  {
    ChunkIsTakenInOrder(c, o, converted, a, ls, b);
    WriteTakes(c, b);
    var t, rest := Step(c, b, Work(WriteRing)), Tag(b.worker.rest, o.player.gen, o.player.enqueueStamp);
    assert NewlyAccepted(a, t) == NewlyAccepted(a, b);
    assert |rest| == |b.worker.rest|;
    if b.worker.rest == [] {
      assert NewlyAccepted(a, b) + [] == NewlyAccepted(a, b);
    }
  }

  // ---------------------------------------------------------------------------
  // A call that nothing stops
  // ---------------------------------------------------------------------------

  /** The worker and the playback thread alone can always bring a call to its end, with the whole chunk accepted. */
  lemma {:induction false} WholeChunkDelivers(c: Config, a: State) returns (ls: seq<Label>, b: State)
    requires c.Valid() && PlayerInv(c, a) && a.worker.Enqueuing? && Welcome(a)
    ensures Run(c, a, ls, b) && b.worker == Streaming(a.worker.r, true)
    ensures a.player.log.accepted <= b.player.log.accepted && NewlyAccepted(a, b) == Remaining(a.worker)
    decreases |a.worker.rest|
  {
    if a.worker.rest == [] {
      ls, b := Then(c, a, [], a, Work(WriteRing));
      WriteTakes(c, a);
      assert NewlyAccepted(a, b) == Remaining(a.worker);
    } else {
      var ms, m := SomeDelivers(c, a);
      var ks;
      ks, b := WholeChunkDelivers(c, m);
      RunConcat(c, a, ms, m, ks, b);
      ls := ms + ks;
      NewlyAcceptedSplits(a, m, b);
    }
  }

  /** Room is made and at least one more sample accepted. */
  lemma SomeDelivers(c: Config, a: State) returns (ls: seq<Label>, b: State)
    requires c.Valid() && PlayerInv(c, a) && a.worker.Enqueuing? && a.worker.rest != [] && Welcome(a)
    ensures Run(c, a, ls, b) && PlayerInv(c, b) && b.worker.Enqueuing? && Welcome(b) && b.worker.r == a.worker.r
    ensures |b.worker.rest| < |a.worker.rest|
    ensures a.player.log.accepted <= b.player.log.accepted
    ensures NewlyAccepted(a, b) + Remaining(b.worker) == Remaining(a.worker)
  {
    var m;
    ls, m := MakeRoom(c, a);
    WriteTakes(c, m);
    ls, b := Then(c, a, ls, m, Work(WriteRing));
    RunKeepsPlayer(c, a, ls, b);
    assert NewlyAccepted(a, b) == NewlyAccepted(m, b);
    assert |NewlyAccepted(m, b)| + |b.worker.rest| == |a.worker.rest|;
    assert |b.player.ring| == |m.player.ring| + |NewlyAccepted(m, b)|;
  }

  /** The samples an armed worker is about to put into the ring, if its chunk is converted to `converted`. */
  function Coming(w: Worker, converted: seq<int>): seq<int> {
    if w.Enqueuing? then w.rest else converted
  }

  /** An armed worker can always be brought to put its whole chunk into the ring, whatever the resampler makes of it. */
  lemma ArmedDeliversWhole(c: Config, a: State, stamp: ControlStamp, converted: seq<int>)
    returns (ls: seq<Label>, b: State)
    requires c.Valid() && PlayerInv(c, a) && StampInv(a) && Armed(a, stamp)
    ensures Run(c, a, ls, b) && b.worker == Streaming(a.worker.r, true)
    ensures NewlyAccepted(a, b) == Tag(Coming(a.worker, converted), a.player.gen, Some(stamp))
  {
    var m := a;
    ls := [];
    if m.worker.Fresh? {
      ls, m := Then(c, a, ls, m, Work(SetStamp));
    }
    if m.worker.Stamped? {
      ls, m := Then(c, a, ls, m, Work(OpenEnqueue(converted)));
    }
    RunKeepsPlayer(c, a, ls, m);
    var ks;
    ks, b := WholeChunkDelivers(c, m);
    RunConcat(c, a, ls, m, ks, b);
    ls := ls + ks;
  }
}
