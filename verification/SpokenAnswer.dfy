/**
 From the bridge to the sentence scheduler: what is spoken of an answer
 (src/star_runtime/agent/voice_bridge.py:157-331, src/star_runtime/speech/tts/scheduler.py:40-137).
 */
module SpokenAnswer {
  import opened Collections
  import opened Wrappers
  import opened Control
  import opened SpeechText
  import opened Scheduler
  import opened SpeechStream
  import opened VoiceBridge

  /** No more messages are due and accepted than the report says. */
  lemma GetsFurthest(cl: Classes, w: World, r: Report, k: nat)
    requires Describes(cl, w, r) && k <= |w.fragments| && Delivered(cl, w, k)
    ensures k <= r.sent
  {
  }

  /** A world has one description: how far the answer gets, whether it is aborted and whether it is committed. */
  lemma DescribesOnce(cl: Classes, w: World, a: Report, b: Report)
    requires Describes(cl, w, a) && Describes(cl, w, b)
    ensures a.sent == b.sent && a.aborted == b.aborted && (a.ending.Committed? <==> b.ending.Committed?)
  {
    GetsFurthest(cl, w, a, b.sent);
    GetsFurthest(cl, w, b, a.sent);
  }

  lemma LiveSooner(w: World, m: nat, n: nat)
    requires m <= n && LiveTo(w, n)
    ensures LiveTo(w, m)
  {
  }

  /** An answer is committed exactly when it has ink, everything was accepted and the turn stayed current throughout. */
  lemma CommittedExactly(cl: Classes, w: World, r: Report)
    requires Describes(cl, w, r)
    ensures r.ending.Committed? <==>
      && LiveTo(w, |w.fragments| + 3) && !w.breaks && Ink(cl, Concat(w.fragments)) != []
      && forall i :: 0 <= i < |w.fragments| ==> w.accepts(i)
  {
    var n := |w.fragments|;
    if LiveTo(w, n + 3) && !w.breaks && Ink(cl, Concat(w.fragments)) != [] && forall i :: 0 <= i < n ==> w.accepts(i) {
      forall i | 0 <= i < n ensures Reaches(cl, w, i) {
        LiveSooner(w, i + 3, n + 3);
      }
      LiveSooner(w, n + 1, n + 3);
    } else if r.ending.Committed? {
      assert Reaches(cl, w, n - 1);
      forall j | 0 <= j < n + 3 ensures w.live(j) {
        assert j < n + 1 || j == n + 1 || j == n + 2;
      }
    }
  }

  /** What the transport holds of one answer. */
  function Answered(d: Delivery, id: string, stamp: ControlStamp, w: World, r: Report): seq<TextChunk>
    requires r.sent <= |w.fragments|
  {
    Sent(d, id, stamp, w.fragments, r.sent) + Abort(d, id, stamp, r.sent, r.aborted && w.acceptsAbort)
  }

  /** The turn moves on behind the stream, with everything but the last fragment published. */
  ghost predicate MovesOnBehind(w: World) {
    var n := |w.fragments|;
    && 2 <= n && StreamEnds(w) && !w.live(n + 1)
    && forall i :: 0 <= i < n - 1 ==> w.accepts(i)
  }

  /** The first message goes out, not all of them do, and no abort follows. */
  ghost predicate LeavesOpen(cl: Classes, w: World) {
    && w.fragments != [] && Delivered(cl, w, 1) && !Delivered(cl, w, |w.fragments|)
    && (MovesOnBehind(w) || !w.acceptsAbort)
  }

  /** Liveness to the end of the stream covers every message but the last. */
  lemma StreamReaches(cl: Classes, w: World, k: nat)
    requires StreamEnds(w) && k < |w.fragments|
    ensures forall i :: 0 <= i < k ==> Reaches(cl, w, i)
  {
    forall i | 0 <= i < k ensures Reaches(cl, w, i) {
      LiveSooner(w, i + 3, |w.fragments| + 1);
    }
  }

  /** An answer stops silently behind a first message exactly in such surroundings. */
  lemma SilentExactly(cl: Classes, w: World, r: Report)
    requires Describes(cl, w, r)
    ensures 0 < r.sent < |w.fragments| && StopsSilently(w, r.sent) <==> MovesOnBehind(w)
  {
    var n := |w.fragments|;
    if MovesOnBehind(w) {
      StreamReaches(cl, w, n - 1);
      GetsFurthest(cl, w, r, n - 1);
      assert !Reaches(cl, w, n - 1);
    }
  }

  /**
   The exact condition, in terms of the surroundings alone: an answer reaches the speech output
   without any end, neither a final message nor an abort, if and only if it is started and not
   completed, and either the turn moved on between the end of the stream and the final message
   or the transport refuses the abort.
   */
  lemma LeftOpenExactly(cl: Classes, d: Delivery, id: string, stamp: ControlStamp, w: World, r: Report)
    requires Describes(cl, w, r)
    ensures Answered(d, id, stamp, w, r) != [] && !HasFinal(Answered(d, id, stamp, w, r)) <==> LeavesOpen(cl, w)
  {
    var all, n := Answered(d, id, stamp, w, r), |w.fragments|;
    SilentExactly(cl, w, r);
    SentExactly(cl, w, r);
    if r.sent == n && n > 0 {
      assert all[n - 1].isFinal;
    } else if r.aborted && w.acceptsAbort {
      assert all[r.sent].isFinal;
    }
  }

  /** How much was sent, in terms of what was due and accepted. */
  lemma SentExactly(cl: Classes, w: World, r: Report)
    requires Describes(cl, w, r)
    ensures r.sent > 0 <==> w.fragments != [] && Delivered(cl, w, 1)
    ensures r.sent == |w.fragments| <==> Delivered(cl, w, |w.fragments|)
  {
    if w.fragments != [] && Delivered(cl, w, 1) {
      GetsFurthest(cl, w, r, 1);
    }
    if Delivered(cl, w, |w.fragments|) {
      GetsFurthest(cl, w, r, |w.fragments|);
    }
  }

  /** A world in which it happens: two fragments, and the turn moves on behind the stream. */
  lemma LeftOpenHappens(cl: Classes, d: Delivery, id: string, stamp: ControlStamp) returns (w: World, r: Report)
    ensures w.acceptsAbort && Describes(cl, w, r)
    ensures Answered(d, id, stamp, w, r) == [Chunk(d, id, stamp, 0, "Well,", false, false)]
  {
    w := World(["Well,", " yes."], false, k => k < 3, k => true, true, true);
    r := Report(1, false, Silent);
    assert w.live(0) && w.live(1) && w.live(2) && !w.live(3);
    assert Reaches(cl, w, 0) && w.accepts(0);
    assert !Reaches(cl, w, 1);
  }

  // ---------------------------------------------------------------------------
  // Delivery with retries
  // ---------------------------------------------------------------------------

  /** A delivery of `sent` from `next` on: each message is the next new one or repeats an old one. */
  ghost predicate Redelivers(sent: seq<TextChunk>, next: nat, chunks: seq<TextChunk>)
    requires next <= |sent|
    decreases |chunks|
  {
    if chunks == [] then next == |sent|
    else
      || (next < |sent| && chunks[0] == sent[next] && Redelivers(sent, next + 1, chunks[1..]))
      || (chunks[0] in sent[..next] && Redelivers(sent, next, chunks[1..]))
  }

  /** Messages numbered from 0, only the last of them final. */
  ghost predicate Numbered(id: string, sent: seq<TextChunk>) {
    && OneResponse(id, sent)
    && forall i :: 0 <= i < |sent| ==> sent[i].sequence == i && (sent[i].isFinal ==> i == |sent| - 1)
  }

  /** However often messages are repeated, the scheduler takes each of them once. */
  lemma {:induction false} TakesEachOnce(id: string, sent: seq<TextChunk>, next: nat, chunks: seq<TextChunk>)
    requires Numbered(id, sent) && next <= |sent| && Redelivers(sent, next, chunks)
    ensures OneResponse(id, chunks)
    ensures next == 0 || !sent[next - 1].isFinal ==> Taken(next - 1, chunks) == sent[next..]
    decreases |chunks|
  {
    if chunks != [] {
      var c := chunks[0];
      if next < |sent| && c == sent[next] && Redelivers(sent, next + 1, chunks[1..]) {
        TakesEachOnce(id, sent, next + 1, chunks[1..]);
        assert sent[next..] == [c] + sent[next + 1..];
      } else {
        TakesEachOnce(id, sent, next, chunks[1..]);
      }
    }
  }

  lemma {:induction false} SpokenOfSent(s: Settings, d: Delivery, id: string, stamp: ControlStamp,
                                        fragments: seq<string>, k: nat)
    requires k <= |fragments|
    ensures SpokenAll(s, Sent(d, id, stamp, fragments, |fragments|)[k..]) == SpokenFragments(s, fragments[k..])
    decreases |fragments| - k
  {
    var sent := Sent(d, id, stamp, fragments, |fragments|);
    if k < |fragments| {
      SpokenOfSent(s, d, id, stamp, fragments, k + 1);
      assert sent[k..][1..] == sent[k + 1..] && fragments[k..][1..] == fragments[k + 1..];
    }
  }

  /** The fragments with the known style tokens removed. */
  function SpokenFragments(s: Settings, fragments: seq<string>): string {
    if fragments == [] then [] else Spoken(s, fragments[0]) + SpokenFragments(s, fragments[1..])
  }

  /**
   A committed answer, delivered with any repetitions to a scheduler in any state that has not
   seen it: the requests hold all the ink of the model's fragments without the known style
   tokens, in order, belong to the answer, and end with exactly one final request unless there
   was nothing to speak.
   */
  lemma CommittedAnswerIsSpoken(
    cl: Classes, s: Settings, st: State, d: Delivery, id: string, stamp: ControlStamp,
    w: World, r: Report, chunks: seq<TextChunk>)
    requires s.limits.Valid() && st.requestId != Some(id)
    requires Describes(cl, w, r) && r.ending.Committed?
    requires Redelivers(Answered(d, id, stamp, w, r), 0, chunks)
    ensures var (end, requests) := FeedAll(cl, s, st, chunks);
      && RequestInk(cl, requests) == Ink(cl, SpokenFragments(s, w.fragments))
      && (forall i :: 0 <= i < |requests| ==> requests[i].requestId == id && requests[i].stamp == stamp)
      && FinalIsLast(requests)
      && (EndsFinal(requests) <==> Ink(cl, SpokenFragments(s, w.fragments)) != [])
      && end.finalized
  {
    var n := |w.fragments|;
    var sent := Sent(d, id, stamp, w.fragments, n);
    assert Answered(d, id, stamp, w, r) == sent;
    TakesEachOnce(id, sent, 0, chunks);
    assert sent[0..] == sent && w.fragments[0..] == w.fragments;
    SpokenOfSent(s, d, id, stamp, w.fragments, 0);
    assert sent[n - 1].isFinal;
    ResponseTheorem(cl, s, st, id, chunks);
    var (end, requests) := FeedAll(cl, s, st, chunks);
    assert RequestInk(cl, requests) + [] == RequestInk(cl, requests);
  }

  // ---------------------------------------------------------------------------
  // An answer given up
  // ---------------------------------------------------------------------------

  lemma {:induction false} FeedAllConcat(cl: Classes, s: Settings, st: State, a: seq<TextChunk>, b: seq<TextChunk>)
    requires s.limits.Valid()
    ensures var (mid, first) := FeedAll(cl, s, st, a);
      FeedAll(cl, s, st, a + b) == (FeedAll(cl, s, mid, b).0, first + FeedAll(cl, s, mid, b).1)
    decreases |a|
  {
    if a == [] {
      assert a + b == b && [] + FeedAll(cl, s, st, b).1 == FeedAll(cl, s, st, b).1;
    } else {
      var (next, requests) := Feed(cl, s, st, a[0]);
      assert (a + b)[1..] == a[1..] + b;
      FeedAllConcat(cl, s, next, a[1..], b);
      var (mid, first) := FeedAll(cl, s, next, a[1..]);
      Regroup(requests, first, FeedAll(cl, s, mid, b).1);
    }
  }

  /** The abort message on its own: whatever the scheduler held is forgotten, and nothing is requested. */
  lemma AbortForgets(cl: Classes, s: Settings, st: State, d: Delivery, id: string, stamp: ControlStamp, sent: nat)
    requires s.limits.Valid()
    ensures FeedAll(cl, s, st, Abort(d, id, stamp, sent, true)) == (Fresh(s), [])
  {
    var ms := Abort(d, id, stamp, sent, true);
    assert ms[1..] == [] && Feed(cl, s, st, ms[0]) == (Fresh(s), []);
    assert FeedAll(cl, s, Fresh(s), ms[1..]) == (Fresh(s), []);
    NothingMore();
  }

  /**
   An answer given up behind its first message, delivered with any repetitions of its messages
   to a scheduler in any state that has not seen it, and then aborted: the scheduler is left as
   new, the abort itself requests nothing, what was requested before it is ink of the accepted
   fragments, in order, and no request is final, so that nothing of the answer is spoken that
   had not been requested when the abort arrived.
   */
  lemma AbortedAnswerIsForgotten(
    cl: Classes, s: Settings, st: State, d: Delivery, id: string, stamp: ControlStamp,
    w: World, r: Report, chunks: seq<TextChunk>)
    requires s.limits.Valid() && st.requestId != Some(id)
    requires Describes(cl, w, r) && r.aborted && w.acceptsAbort
    requires Redelivers(Sent(d, id, stamp, w.fragments, r.sent), 0, chunks)
    ensures Answered(d, id, stamp, w, r) == Sent(d, id, stamp, w.fragments, r.sent) + Abort(d, id, stamp, r.sent, true)
    ensures var (end, requests) := FeedAll(cl, s, st, chunks + Abort(d, id, stamp, r.sent, true));
      && end == Fresh(s)
      && requests == FeedAll(cl, s, st, chunks).1
      && NoneFinal(requests)
      && RequestInk(cl, requests) <= Ink(cl, SpokenFragments(s, w.fragments[..r.sent]))
      && (forall i :: 0 <= i < |requests| ==> requests[i].requestId == id && requests[i].stamp == stamp)
  {
    var sent := Sent(d, id, stamp, w.fragments, r.sent);
    var (mid, before) := FeedAll(cl, s, st, chunks);
    FeedAllConcat(cl, s, st, chunks, Abort(d, id, stamp, r.sent, true));
    AbortForgets(cl, s, mid, d, id, stamp, r.sent);
    assert before + [] == before;
    PartIsSpoken(cl, s, st, d, id, stamp, w.fragments, r.sent, chunks);
  }

  /** What a part of an answer, none of it final, has requested. */
  lemma PartIsSpoken(cl: Classes, s: Settings, st: State, d: Delivery, id: string, stamp: ControlStamp,
                     fragments: seq<string>, k: nat, chunks: seq<TextChunk>)
    requires s.limits.Valid() && st.requestId != Some(id) && 0 < k < |fragments|
    requires Redelivers(Sent(d, id, stamp, fragments, k), 0, chunks)
    ensures var requests := FeedAll(cl, s, st, chunks).1;
      && NoneFinal(requests)
      && RequestInk(cl, requests) <= Ink(cl, SpokenFragments(s, fragments[..k]))
      && (forall i :: 0 <= i < |requests| ==> requests[i].requestId == id && requests[i].stamp == stamp)
  {
    var sent := Sent(d, id, stamp, fragments, k);
    TakesEachOnce(id, sent, 0, chunks);
    assert sent[0..] == sent;
    SpokenOfPart(s, d, id, stamp, fragments, k, 0);
    ResponseTheorem(cl, s, st, id, chunks);
    var (end, requests) := FeedAll(cl, s, st, chunks);
    assert !HasFinal(sent);
    NotEndingFinal(requests);
  }

  lemma NotEndingFinal(requests: seq<SpeechRequest>)
    requires FinalIsLast(requests) && !EndsFinal(requests)
    ensures NoneFinal(requests)
  {
  }

  lemma {:induction false} SpokenOfPart(s: Settings, d: Delivery, id: string, stamp: ControlStamp,
                                        fragments: seq<string>, k: nat, i: nat)
    requires i <= k <= |fragments|
    ensures SpokenAll(s, Sent(d, id, stamp, fragments, k)[i..]) == SpokenFragments(s, fragments[..k][i..])
    decreases k - i
  {
    var sent := Sent(d, id, stamp, fragments, k);
    if i < k {
      SpokenOfPart(s, d, id, stamp, fragments, k, i + 1);
      assert sent[i..][1..] == sent[i + 1..] && fragments[..k][i..][1..] == fragments[..k][i + 1..];
    } else {
      assert sent[i..] == [] && fragments[..k][i..] == [];
    }
  }

  // ---------------------------------------------------------------------------
  // How an answer is spoken
  // ---------------------------------------------------------------------------

  /** A setting of the message, or the one in force if the message leaves it open. */
  function Or(given: string, inForce: string): string {
    if given != "" then given else inForce
  }

  ghost predicate SpokenIn(requests: seq<SpeechRequest>, language: string, voice: string) {
    forall i :: 0 <= i < |requests| ==> requests[i].language == language && requests[i].voice == voice
  }

  ghost predicate DeliveredBy(d: Delivery, chunks: seq<TextChunk>) {
    forall c :: c in chunks ==> c.language == d.language && c.voice == d.voice && c.instructions == d.instructions
  }

  lemma {:induction false} KeepsDelivery(cl: Classes, s: Settings, st: State, id: string, d: Delivery,
                                         chunks: seq<TextChunk>)
    requires s.limits.Valid() && st.requestId == Some(id) && OneResponse(id, chunks) && DeliveredBy(d, chunks)
    ensures SpokenIn(FeedAll(cl, s, st, chunks).1, Or(d.language, st.language), Or(d.voice, st.voice))
    decreases |chunks|
  {
    if chunks != [] {
      assert chunks[0] in chunks;
      if st.finalized || chunks[0].sequence <= st.lastSequence {
        OldChunkIgnored(cl, s, st, chunks[0]);
        KeepsDelivery(cl, s, st, id, d, chunks[1..]);
      } else {
        SettingsInForce(cl, s, st, chunks[0]);
        FeedKeepsInk(cl, s, st, chunks[0]);
        KeepsDelivery(cl, s, Feed(cl, s, st, chunks[0]).0, id, d, chunks[1..]);
      }
    }
  }

  ghost predicate InstructedBy(requests: seq<SpeechRequest>, instructions: string) {
    forall i :: 0 <= i < |requests| ==> requests[i].instructions == instructions
  }

  lemma {:induction false} KeepsInstructions(cl: Classes, s: Settings, st: State, id: string, d: Delivery,
                                             chunks: seq<TextChunk>)
    requires s.limits.Valid() && st.requestId == Some(id) && OneResponse(id, chunks) && DeliveredBy(d, chunks)
    requires forall c :: c in chunks ==> '[' !in c.text
    ensures InstructedBy(FeedAll(cl, s, st, chunks).1, Or(d.instructions, st.instructions))
    decreases |chunks|
  {
    if chunks != [] {
      assert chunks[0] in chunks;
      if st.finalized || chunks[0].sequence <= st.lastSequence {
        OldChunkIgnored(cl, s, st, chunks[0]);
        KeepsInstructions(cl, s, st, id, d, chunks[1..]);
      } else {
        SettingsInForce(cl, s, st, chunks[0]);
        FeedKeepsInk(cl, s, st, chunks[0]);
        KeepsInstructions(cl, s, Feed(cl, s, st, chunks[0]).0, id, d, chunks[1..]);
      }
    }
  }

  lemma {:induction false} RedeliveredAreSent(sent: seq<TextChunk>, next: nat, chunks: seq<TextChunk>)
    requires next <= |sent| && Redelivers(sent, next, chunks)
    ensures forall c :: c in chunks ==> c in sent
    decreases |chunks|
  {
    if chunks != [] {
      if next < |sent| && chunks[0] == sent[next] && Redelivers(sent, next + 1, chunks[1..]) {
        RedeliveredAreSent(sent, next + 1, chunks[1..]);
      } else {
        RedeliveredAreSent(sent, next, chunks[1..]);
      }
    }
  }

  /**
   Whatever part of an answer is delivered, with any repetitions, to a scheduler in any state
   that has not seen it: every request is in the language and the voice of the delivery, or the
   configured one where the delivery leaves it open, and under its instructions as well if no
   fragment holds a bracket.
   */
  lemma SpokenAsDelivered(cl: Classes, s: Settings, st: State, d: Delivery, id: string, stamp: ControlStamp,
                          fragments: seq<string>, k: nat, chunks: seq<TextChunk>)
    requires s.limits.Valid() && st.requestId != Some(id) && k <= |fragments|
    requires Redelivers(Sent(d, id, stamp, fragments, k), 0, chunks)
    ensures var requests := FeedAll(cl, s, st, chunks).1;
      && SpokenIn(requests, Or(d.language, s.language), Or(d.voice, s.voice))
      && ((forall i :: 0 <= i < k ==> '[' !in fragments[i]) ==>
            InstructedBy(requests, Or(d.instructions, s.instructions)))
  {
    var sent := Sent(d, id, stamp, fragments, k);
    TakesEachOnce(id, sent, 0, chunks);
    RedeliveredAreSent(sent, 0, chunks);
    if chunks != [] {
      StartsOver(cl, s, st, id, chunks);
      KeepsDelivery(cl, s, Begin(s, chunks[0]), id, d, chunks);
      if forall i :: 0 <= i < k ==> '[' !in fragments[i] {
        forall c | c in chunks ensures '[' !in c.text {
          var i :| 0 <= i < |sent| && sent[i] == c;
          assert c.text == fragments[i];
        }
        KeepsInstructions(cl, s, Begin(s, chunks[0]), id, d, chunks);
      }
    }
  }
}
