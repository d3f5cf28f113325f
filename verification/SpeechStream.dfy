/**
 What the sentence scheduler promises about whole streams of chunks
 (src/star_runtime/speech/tts/scheduler.py:40-137): retries change nothing, no ink is lost, and
 a response ends with exactly one final request.
 */
module SpeechStream {
  import opened Collections
  import opened Wrappers
  import opened SpeechText
  import opened Scheduler

  function FeedAll(cl: Classes, s: Settings, st: State, chunks: seq<TextChunk>): (State, seq<SpeechRequest>)
    requires s.limits.Valid()
    decreases |chunks|
  {
    if chunks == [] then (st, [])
    else
      var (next, requests) := Feed(cl, s, st, chunks[0]);
      var (end, later) := FeedAll(cl, s, next, chunks[1..]);
      (end, requests + later)
  }

  // ---------------------------------------------------------------------------
  // Retries and reordering
  // ---------------------------------------------------------------------------

  /**
   The stream without the chunks whose number does not exceed one already seen for the same
   response.  Interrupts and the first chunk of another response stay.
   */
  function Rising(id: Option<string>, last: int, chunks: seq<TextChunk>): seq<TextChunk>
    decreases |chunks|
  {
    if chunks == [] then []
    else
      var c := chunks[0];
      if c.interrupt then [c] + Rising(None, -1, chunks[1..])
      else if id != Some(c.requestId) then
        [c] + Rising(Some(c.requestId), if c.sequence <= -1 then -1 else c.sequence, chunks[1..])
      else if c.sequence <= last then Rising(id, last, chunks[1..])
      else [c] + Rising(id, c.sequence, chunks[1..])
  }

  /** Feeding a stream gives the same requests, and the same state, as feeding its rising part. */
  lemma {:induction false} RetriesChangeNothing(cl: Classes, s: Settings, st: State, last: int, chunks: seq<TextChunk>)
    requires s.limits.Valid()
    requires st.finalized || last == st.lastSequence
    ensures FeedAll(cl, s, st, chunks) == FeedAll(cl, s, st, Rising(st.requestId, last, chunks))
    decreases |chunks|
  {
    if chunks != [] {
      var c := chunks[0];
      var next := Feed(cl, s, st, c).0;
      var risen := RisenTo(st.requestId, last, c);
      FeedTracks(cl, s, st, c, last);
      RetriesChangeNothing(cl, s, next, risen, chunks[1..]);
      if Stale(st.requestId, last, c) {
        assert [] + FeedAll(cl, s, st, chunks[1..]).1 == FeedAll(cl, s, st, chunks[1..]).1;
      } else {
        var rest := Rising(next.requestId, risen, chunks[1..]);
        assert ([c] + rest)[0] == c && ([c] + rest)[1..] == rest;
      }
    }
  }

  predicate Stale(id: Option<string>, last: int, c: TextChunk) {
    !c.interrupt && id == Some(c.requestId) && c.sequence <= last
  }

  /** The highest number seen after `c`. */
  function RisenTo(id: Option<string>, last: int, c: TextChunk): int {
    if c.interrupt then -1
    else if id != Some(c.requestId) then (if c.sequence <= -1 then -1 else c.sequence)
    else if c.sequence <= last then last
    else c.sequence
  }

  lemma FeedTracks(cl: Classes, s: Settings, st: State, c: TextChunk, last: int)
    requires s.limits.Valid()
    requires st.finalized || last == st.lastSequence
    ensures var next := Feed(cl, s, st, c).0;
      && next.requestId == (if c.interrupt then None else Some(c.requestId))
      && (next.finalized || next.lastSequence == RisenTo(st.requestId, last, c))
    ensures Stale(st.requestId, last, c) ==> Feed(cl, s, st, c) == (st, [])
  {
  }

  // ---------------------------------------------------------------------------
  // One response
  // ---------------------------------------------------------------------------

  /** Chunks of one response, none of them an interrupt. */
  ghost predicate OneResponse(id: string, chunks: seq<TextChunk>) {
    forall i :: 0 <= i < |chunks| ==> chunks[i].requestId == id && !chunks[i].interrupt
  }

  /** The chunks the scheduler takes: rising numbers, up to and including the first final one. */
  function Taken(last: int, chunks: seq<TextChunk>): seq<TextChunk>
    decreases |chunks|
  {
    if chunks == [] then []
    else if chunks[0].sequence <= last then Taken(last, chunks[1..])
    else if chunks[0].isFinal then [chunks[0]]
    else [chunks[0]] + Taken(chunks[0].sequence, chunks[1..])
  }

  /** The text of the chunks with the known style tokens removed. */
  function SpokenAll(s: Settings, chunks: seq<TextChunk>): string {
    if chunks == [] then [] else Spoken(s, chunks[0].text) + SpokenAll(s, chunks[1..])
  }

  predicate HasFinal(chunks: seq<TextChunk>) {
    exists i :: 0 <= i < |chunks| && chunks[i].isFinal
  }

  function Texts(requests: seq<SpeechRequest>): (texts: seq<string>)
    ensures |texts| == |requests|
    ensures forall i :: 0 <= i < |texts| ==> texts[i] == requests[i].text
  {
    if requests == [] then [] else [requests[0].text] + Texts(requests[1..])
  }

  /** All the ink of the requests, in order. */
  function RequestInk(cl: Classes, requests: seq<SpeechRequest>): string {
    Ink(cl, Concat(Texts(requests)))
  }

  lemma RequestInkMore(cl: Classes, a: seq<SpeechRequest>, b: seq<SpeechRequest>)
    ensures RequestInk(cl, a + b) == RequestInk(cl, a) + RequestInk(cl, b)
  {
    assert Texts(a + b) == Texts(a) + Texts(b);
    ConcatMore(Texts(a), Texts(b));
    InkConcat(cl, Concat(Texts(a)), Concat(Texts(b)));
  }

  lemma RequestInkOne(cl: Classes, r: SpeechRequest)
    ensures RequestInk(cl, [r]) == Ink(cl, r.text)
  {
    assert Texts([r]) == [r.text];
    assert Concat([r.text]) == r.text + Concat([r.text][1..]) == r.text;
  }

  /** A request that is spoken has ink; the only other kind is the bare end marker. */
  predicate Proper(cl: Classes, st: State, r: SpeechRequest) {
    && st.requestId == Some(r.requestId) && r.stamp == st.stamp
    && (if r.finalizeOnly then r.text == "" && r.finalSentence else Ink(cl, r.text) != [])
  }

  ghost predicate AllProper(cl: Classes, st: State, requests: seq<SpeechRequest>) {
    forall i :: 0 <= i < |requests| ==> Proper(cl, st, requests[i])
  }

  /** At most one request is final, and only the last can be. */
  ghost predicate FinalIsLast(requests: seq<SpeechRequest>) {
    forall i :: 0 <= i < |requests| && requests[i].finalSentence ==> i == |requests| - 1
  }

  ghost predicate NoneFinal(requests: seq<SpeechRequest>) {
    forall i :: 0 <= i < |requests| ==> !requests[i].finalSentence
  }

  predicate EndsFinal(requests: seq<SpeechRequest>) {
    requests != [] && requests[|requests| - 1].finalSentence
  }

  lemma TakenIn(cl: Classes, s: Settings, st: State, c: TextChunk)
    ensures TakeIn(s, st, c).buffer == st.buffer + Spoken(s, c.text)
    ensures Ink(cl, TakeIn(s, st, c).buffer) == Ink(cl, st.buffer) + Ink(cl, Spoken(s, c.text))
  {
    StripStylesText(s, c.text, if c.instructions != "" then c.instructions else st.instructions, "");
    InkConcat(cl, st.buffer, Spoken(s, c.text));
  }

  lemma MadeAll(cl: Classes, st: State, texts: seq<string>)
    requires st.requestId.Some? && forall t :: t in texts ==> Ink(cl, t) != []
    ensures RequestInk(cl, MakeAll(st, texts)) == Ink(cl, Concat(texts))
    ensures AllProper(cl, st, MakeAll(st, texts)) && NoneFinal(MakeAll(st, texts))
  {
    assert Texts(MakeAll(st, texts)) == texts;
    forall i | 0 <= i < |texts| ensures Proper(cl, st, MakeAll(st, texts)[i]) {
      assert texts[i] in texts;
    }
  }

  /** The sentences with the last one made final. */
  function MarkLast(sentences: seq<SpeechRequest>): seq<SpeechRequest>
    requires sentences != []
  {
    sentences[..|sentences| - 1] + [sentences[|sentences| - 1].(finalSentence := true)]
  }

  lemma MarkLastEnds(cl: Classes, st: State, sentences: seq<SpeechRequest>)
    requires sentences != [] && AllProper(cl, st, sentences) && NoneFinal(sentences)
    ensures RequestInk(cl, MarkLast(sentences)) == RequestInk(cl, sentences)
    ensures AllProper(cl, st, MarkLast(sentences)) && FinalIsLast(MarkLast(sentences)) && EndsFinal(MarkLast(sentences))
  {
    var marked := MarkLast(sentences);
    assert Texts(marked) == Texts(sentences);
    forall i | 0 <= i < |marked| ensures Proper(cl, st, marked[i]) {
      assert Proper(cl, st, sentences[i]);
    }
  }

  lemma AppendEnds(cl: Classes, st: State, sentences: seq<SpeechRequest>, last: SpeechRequest)
    requires AllProper(cl, st, sentences) && NoneFinal(sentences) && Proper(cl, st, last) && last.finalSentence
    ensures var all := sentences + [last];
      && RequestInk(cl, all) == RequestInk(cl, sentences) + Ink(cl, last.text)
      && AllProper(cl, st, all) && FinalIsLast(all) && EndsFinal(all)
  {
    RequestInkMore(cl, sentences, [last]);
    RequestInkOne(cl, last);
  }

  /** Closing moves the ink of the buffer into the last request and ends the response if it had any. */
  lemma CloseEnds(cl: Classes, st: State, sentences: seq<SpeechRequest>)
    requires st.requestId.Some? && AllProper(cl, st, sentences) && NoneFinal(sentences)
    ensures var (requests, left) := Close(cl, st, sentences);
      && Ink(cl, left) == []
      && RequestInk(cl, requests) == RequestInk(cl, sentences) + Ink(cl, st.buffer)
      && AllProper(cl, st, requests) && FinalIsLast(requests)
      && (EndsFinal(requests) <==> st.emitted || sentences != [] || Ink(cl, st.buffer) != [])
      && (requests != [] <==> EndsFinal(requests))
  {
    var text := Strip(cl, st.buffer);
    StripKeepsInk(cl, st.buffer);
    if text != [] {
      AppendEnds(cl, st, sentences, Make(st, text, true, false));
    } else if sentences != [] {
      MarkLastEnds(cl, st, sentences);
      assert Close(cl, st, sentences).0 == MarkLast(sentences);
      assert RequestInk(cl, sentences) + [] == RequestInk(cl, sentences);
    } else if st.emitted {
      RequestInkOne(cl, Make(st, "", true, true));
    }
  }

  /** What one chunk that is taken does. */
  lemma FeedKeepsInk(cl: Classes, s: Settings, st: State, c: TextChunk)
    requires s.limits.Valid() && st.requestId == Some(c.requestId) && !c.interrupt
    requires !st.finalized && st.lastSequence < c.sequence
    ensures var (next, requests) := Feed(cl, s, st, c);
      && next.requestId == st.requestId && next.stamp == st.stamp
      && next.lastSequence == c.sequence && next.finalized == c.isFinal
      && next.emitted == (st.emitted || requests != [])
      && RequestInk(cl, requests) + Ink(cl, next.buffer) == Ink(cl, st.buffer) + Ink(cl, Spoken(s, c.text))
      && AllProper(cl, st, requests)
      && (if c.isFinal then
            && Ink(cl, next.buffer) == [] && FinalIsLast(requests)
            && (EndsFinal(requests) <==> st.emitted || Ink(cl, st.buffer) + Ink(cl, Spoken(s, c.text)) != [])
          else NoneFinal(requests))
  {
    var taken := TakeIn(s, st, c);
    TakenIn(cl, s, st, c);
    var (texts, rest) := Drain(cl, s.limits, taken.buffer, !c.isFinal);
    DrainKeepsInk(cl, s.limits, taken.buffer, !c.isFinal);
    var made := MakeAll(taken, texts);
    MadeAll(cl, taken, texts);
    SameMark(cl, taken, st, made);
    if c.isFinal {
      var drained := taken.(buffer := rest);
      SameMark(cl, taken, drained, made);
      CloseEnds(cl, drained, made);
      var (requests, left) := Close(cl, drained, made);
      SameMark(cl, drained, st, requests);
      assert RequestInk(cl, requests) + [] == RequestInk(cl, requests);
      InkOfNone(cl, made);
    }
  }

  /**
   A chunk's overrides hold for its own requests and from then on; a style token in its text
   overrides the instructions once more.
   */
  lemma SettingsInForce(cl: Classes, s: Settings, st: State, c: TextChunk)
    requires s.limits.Valid() && st.requestId == Some(c.requestId) && !c.interrupt
    requires !st.finalized && st.lastSequence < c.sequence
    ensures var (next, requests) := Feed(cl, s, st, c);
      && next.language == (if c.language != "" then c.language else st.language)
      && next.voice == (if c.voice != "" then c.voice else st.voice)
      && ('[' !in c.text ==> next.instructions == if c.instructions != "" then c.instructions else st.instructions)
      && InForce(next, requests)
  {
    var taken := TakeIn(s, st, c);
    if '[' !in c.text {
      PlainPasses(s, c.text, "", if c.instructions != "" then c.instructions else st.instructions);
      assert c.text + "" == c.text;
    }
    var (texts, rest) := Drain(cl, s.limits, taken.buffer, !c.isFinal);
    if c.isFinal {
      CloseInForce(cl, taken.(buffer := rest), MakeAll(taken, texts));
    }
  }

  ghost predicate InForce(st: State, requests: seq<SpeechRequest>) {
    forall i :: 0 <= i < |requests| ==>
      requests[i].language == st.language && requests[i].voice == st.voice
        && requests[i].instructions == st.instructions
  }

  lemma CloseInForce(cl: Classes, st: State, sentences: seq<SpeechRequest>)
    requires st.requestId.Some? && InForce(st, sentences)
    ensures InForce(st, Close(cl, st, sentences).0)
  {
  }

  /** Properness only depends on the response and its stamp. */
  lemma SameMark(cl: Classes, a: State, b: State, requests: seq<SpeechRequest>)
    requires AllProper(cl, a, requests) && a.requestId == b.requestId && a.stamp == b.stamp
    ensures AllProper(cl, b, requests)
  {
    forall i | 0 <= i < |requests| ensures Proper(cl, b, requests[i]) {
      assert Proper(cl, a, requests[i]);
    }
  }

  /** Requests cut off the buffer have ink exactly when there are any. */
  lemma InkOfNone(cl: Classes, requests: seq<SpeechRequest>)
    requires forall i :: 0 <= i < |requests| ==> Ink(cl, requests[i].text) != []
    ensures RequestInk(cl, requests) != [] <==> requests != []
  {
    if requests != [] {
      assert requests == [requests[0]] + requests[1..];
      RequestInkMore(cl, [requests[0]], requests[1..]);
      RequestInkOne(cl, requests[0]);
    }
  }

  /** A chunk that repeats an old number, or follows the end of the response, changes nothing. */
  lemma OldChunkIgnored(cl: Classes, s: Settings, st: State, c: TextChunk)
    requires s.limits.Valid() && st.requestId == Some(c.requestId) && !c.interrupt
    requires st.finalized || c.sequence <= st.lastSequence
    ensures Feed(cl, s, st, c) == (st, [])
  {
  }

  lemma {:induction false} EndedStaysEnded(cl: Classes, s: Settings, st: State, id: string, chunks: seq<TextChunk>)
    requires s.limits.Valid() && st.requestId == Some(id) && OneResponse(id, chunks) && st.finalized
    ensures FeedAll(cl, s, st, chunks) == (st, [])
    decreases |chunks|
  {
    if chunks != [] {
      OldChunkIgnored(cl, s, st, chunks[0]);
      EndedStaysEnded(cl, s, st, id, chunks[1..]);
      NothingMore();
    }
  }

  lemma NothingMore()
    ensures var none: seq<SpeechRequest> := []; none + none == none
  {
  }

  /** What the scheduler promises about a response of which `taken` are the chunks it takes. */
  ghost predicate Conserves(cl: Classes, s: Settings, st: State, taken: seq<TextChunk>, end: State,
                            requests: seq<SpeechRequest>) {
    && RequestInk(cl, requests) + Ink(cl, end.buffer) == Ink(cl, st.buffer) + Ink(cl, SpokenAll(s, taken))
    && end.requestId == st.requestId && end.stamp == st.stamp
    && AllProper(cl, st, requests)
    && FinalIsLast(requests)
    && (end.finalized <==> HasFinal(taken))
    && (end.finalized ==> Ink(cl, end.buffer) == [])
    && (EndsFinal(requests) <==>
          HasFinal(taken) && (st.emitted || Ink(cl, st.buffer) + Ink(cl, SpokenAll(s, taken)) != []))
  }

  /** One response keeps all its ink, in order, and ends with one final request if it had any ink. */
  lemma {:induction false} ResponseConserves(cl: Classes, s: Settings, st: State, id: string, chunks: seq<TextChunk>)
    requires s.limits.Valid() && st.requestId == Some(id) && OneResponse(id, chunks) && !st.finalized
    ensures var (end, requests) := FeedAll(cl, s, st, chunks);
      Conserves(cl, s, st, Taken(st.lastSequence, chunks), end, requests)
    decreases |chunks|
  {
    if chunks == [] {
      assert RequestInk(cl, []) == [];
    } else if chunks[0].sequence <= st.lastSequence {
      OldChunkIgnored(cl, s, st, chunks[0]);
      ResponseConserves(cl, s, st, id, chunks[1..]);
      assert [] + FeedAll(cl, s, st, chunks[1..]).1 == FeedAll(cl, s, st, chunks[1..]).1;
    } else if chunks[0].isFinal {
      var (next, requests) := Feed(cl, s, st, chunks[0]);
      FeedKeepsInk(cl, s, st, chunks[0]);
      EndedStaysEnded(cl, s, next, id, chunks[1..]);
      assert requests + [] == requests;
      SpokenOne(s, chunks[0]);
    } else {
      var (next, requests) := Feed(cl, s, st, chunks[0]);
      FeedKeepsInk(cl, s, st, chunks[0]);
      ResponseConserves(cl, s, next, id, chunks[1..]);
      var (end, later) := FeedAll(cl, s, next, chunks[1..]);
      Chained(cl, s, st, chunks[0], Taken(chunks[0].sequence, chunks[1..]), next, requests, end, later);
    }
  }

  lemma SpokenOne(s: Settings, c: TextChunk)
    ensures SpokenAll(s, [c]) == Spoken(s, c.text)
    ensures HasFinal([c]) <==> c.isFinal
  {
    assert SpokenAll(s, [c]) == Spoken(s, c.text) + SpokenAll(s, [c][1..]) == Spoken(s, c.text);
    if c.isFinal {
      assert [c][0].isFinal;
    }
  }

  lemma ChainedInk(cl: Classes, a: string, spoken: string, rest: string, requests: seq<SpeechRequest>,
                   later: seq<SpeechRequest>, between: string, left: string)
    requires RequestInk(cl, requests) + between == a + Ink(cl, spoken)
    requires RequestInk(cl, later) + left == between + Ink(cl, rest)
    ensures RequestInk(cl, requests + later) + left == a + Ink(cl, spoken + rest)
  {
    InkConcat(cl, spoken, rest);
    RequestInkMore(cl, requests, later);
    Regroup(RequestInk(cl, requests), RequestInk(cl, later), left);
    Regroup(RequestInk(cl, requests), between, Ink(cl, rest));
    Regroup(a, Ink(cl, spoken), Ink(cl, rest));
  }

  /** What a chunk does that does not end the response. */
  ghost predicate Proceeds(cl: Classes, s: Settings, st: State, c: TextChunk, next: State,
                           requests: seq<SpeechRequest>) {
    && next.requestId == st.requestId && next.stamp == st.stamp
    && next.emitted == (st.emitted || requests != [])
    && RequestInk(cl, requests) + Ink(cl, next.buffer) == Ink(cl, st.buffer) + Ink(cl, Spoken(s, c.text))
    && AllProper(cl, st, requests) && NoneFinal(requests)
  }

  /** A chunk that is not final, followed by what conserves the rest. */
  lemma Chained(cl: Classes, s: Settings, st: State, c: TextChunk, taken: seq<TextChunk>, next: State,
                requests: seq<SpeechRequest>, end: State, later: seq<SpeechRequest>)
    requires Proceeds(cl, s, st, c, next, requests) && !c.isFinal
    requires Conserves(cl, s, next, taken, end, later)
    ensures Conserves(cl, s, st, [c] + taken, end, requests + later)
  {
    var spoken, rest := Spoken(s, c.text), SpokenAll(s, taken);
    assert ([c] + taken)[1..] == taken;
    ChainedInk(cl, Ink(cl, st.buffer), spoken, rest, requests, later, Ink(cl, next.buffer), Ink(cl, end.buffer));
    SameMark(cl, next, st, later);
    FinalOfMore(c, taken);
    InkyOrNot(cl, Ink(cl, st.buffer), spoken, rest, requests, Ink(cl, next.buffer));
  }

  /** There is ink in all if and only if something was requested already or ink is still to come. */
  lemma InkyOrNot(cl: Classes, a: string, spoken: string, rest: string, requests: seq<SpeechRequest>, between: string)
    requires RequestInk(cl, requests) + between == a + Ink(cl, spoken)
    requires forall i :: 0 <= i < |requests| ==> Ink(cl, requests[i].text) != []
    ensures a + Ink(cl, spoken + rest) != [] <==> requests != [] || between + Ink(cl, rest) != []
  {
    InkConcat(cl, spoken, rest);
    InkOfNone(cl, requests);
  }

  lemma FinalOfMore(c: TextChunk, taken: seq<TextChunk>)
    ensures HasFinal([c] + taken) <==> c.isFinal || HasFinal(taken)
  {
    var all := [c] + taken;
    if HasFinal(taken) {
      var i :| 0 <= i < |taken| && taken[i].isFinal;
      assert all[i + 1].isFinal;
    }
    if c.isFinal {
      assert all[0].isFinal;
    }
    if HasFinal(all) && !c.isFinal {
      var i :| 0 <= i < |all| && all[i].isFinal;
      assert taken[i - 1].isFinal;
    }
  }

  /** Another response resets the scheduler, whatever it held. */
  lemma StartsOver(cl: Classes, s: Settings, st: State, id: string, chunks: seq<TextChunk>)
    requires s.limits.Valid() && st.requestId != Some(id) && OneResponse(id, chunks) && chunks != []
    ensures FeedAll(cl, s, st, chunks) == FeedAll(cl, s, Begin(s, chunks[0]), chunks)
  {
  }

  /**
   A response that starts in the scheduler, whatever it held before: all the ink of the chunks
   it takes is requested in order, and there is at most one final request, the last, which
   exists exactly when a final chunk was taken and the response had any ink.
   */
  lemma ResponseTheorem(cl: Classes, s: Settings, st: State, id: string, chunks: seq<TextChunk>)
    requires s.limits.Valid() && st.requestId != Some(id) && OneResponse(id, chunks) && chunks != []
    ensures var (end, requests) := FeedAll(cl, s, st, chunks);
      var taken := Taken(-1, chunks);
      && RequestInk(cl, requests) + Ink(cl, end.buffer) == Ink(cl, SpokenAll(s, taken))
      && (forall i :: 0 <= i < |requests| ==> requests[i].requestId == id && requests[i].stamp == chunks[0].stamp)
      && (end.finalized <==> HasFinal(taken)) && (end.finalized ==> Ink(cl, end.buffer) == [])
      && FinalIsLast(requests)
      && (EndsFinal(requests) <==> HasFinal(taken) && Ink(cl, SpokenAll(s, taken)) != [])
  {
    var first := Begin(s, chunks[0]);
    StartsOver(cl, s, st, id, chunks);
    ResponseConserves(cl, s, first, id, chunks);
    assert Ink(cl, first.buffer) + Ink(cl, SpokenAll(s, Taken(-1, chunks))) == Ink(cl, SpokenAll(s, Taken(-1, chunks)));
    var requests := FeedAll(cl, s, st, chunks).1;
    forall i | 0 <= i < |requests| ensures requests[i].requestId == id && requests[i].stamp == chunks[0].stamp {
      assert Proper(cl, first, requests[i]);
    }
  }

  /** What the buffer looks like between chunks. */
  ghost predicate Bounded(cl: Classes, s: Settings, st: State) {
    && !HasStrong(cl, st.buffer)
    && |st.buffer| < s.limits.buffer
    && (!st.finalized ==> Units(cl, st.buffer) < s.limits.max)
  }

  lemma FeedKeepsBounded(cl: Classes, s: Settings, st: State, c: TextChunk)
    requires s.limits.Valid() && cl.Sane() && Bounded(cl, s, st)
    ensures Bounded(cl, s, Feed(cl, s, st, c).0)
  {
    var own := if st.requestId != Some(c.requestId) then Begin(s, c) else st;
    DrainIsBounded(cl, s.limits, TakeIn(s, own, c).buffer, !c.isFinal);
  }

  /** Between any two chunks the buffer holds no sentence end and stays below both limits. */
  lemma {:induction false} BufferStaysBounded(cl: Classes, s: Settings, st: State, chunks: seq<TextChunk>)
    requires s.limits.Valid() && cl.Sane() && Bounded(cl, s, st)
    ensures Bounded(cl, s, FeedAll(cl, s, st, chunks).0)
    decreases |chunks|
  {
    if chunks != [] {
      FeedKeepsBounded(cl, s, st, chunks[0]);
      BufferStaysBounded(cl, s, Feed(cl, s, st, chunks[0]).0, chunks[1..]);
    }
  }
}
