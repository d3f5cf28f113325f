/**
 Where the sentence scheduler cuts (src/star_runtime/speech/tts/scheduler.py:112-193), in
 terms of the text alone: which place is next, and what a request looks like that was cut there.
 */
module SentenceCuts {
  import opened Wrappers
  import opened Control
  import opened SpeechText
  import opened Scheduler
  import opened SpeechStream

  // ---------------------------------------------------------------------------
  // The next cut
  // ---------------------------------------------------------------------------

  /** Enough has gathered for a clause, and a clause end stands at an admissible distance. */
  ghost predicate ClauseDue(cl: Classes, lim: Limits, text: string) {
    && lim.preferred <= Units(cl, text)
    && exists k :: 1 <= k <= |text| && Candidate(cl, lim, text, k, false)
  }

  /** The admissible clause end nearest to the preferred length, the later one on a tie. */
  ghost predicate BestClause(cl: Classes, lim: Limits, text: string, e: nat) {
    && 0 < e <= |text| && Candidate(cl, lim, text, e, false)
    && forall k :: 1 <= k <= |text| && Candidate(cl, lim, text, k, false) ==>
         || Score(cl, lim, text, e) < Score(cl, lim, text, k)
         || (Score(cl, lim, text, e) == Score(cl, lim, text, k) && k <= e)
  }

  lemma SoftEndExactly(cl: Classes, lim: Limits, text: string)
    ensures SoftEnd(cl, lim, text).Some? <==> ClauseDue(cl, lim, text)
    ensures SoftEnd(cl, lim, text).Some? ==> BestClause(cl, lim, text, SoftEnd(cl, lim, text).value)
  {
    BestIsBest(cl, lim, text, |text|, false);
  }

  /** The buffer has reached one of its limits; the spoken one counts only while streaming. */
  ghost predicate LimitReached(cl: Classes, lim: Limits, buffer: string, adaptive: bool) {
    lim.buffer <= |buffer| || (adaptive && lim.max <= Units(cl, buffer))
  }

  /**
   The next cut: behind the first sentence if there is a sentence end; otherwise, while
   streaming, at the best clause end if one is due; otherwise only if a limit is reached.
   */
  lemma NextCut(cl: Classes, lim: Limits, buffer: string, adaptive: bool)
    requires lim.Valid() && cl.Sane() && buffer != []
    ensures var m := Split(cl, lim, buffer, adaptive);
      if HasStrong(cl, buffer) then m.Some? && SentenceEndsAt(cl, buffer, m.value)
      else if adaptive && ClauseDue(cl, lim, buffer) then m.Some? && BestClause(cl, lim, buffer, m.value)
      else m.Some? <==> LimitReached(cl, lim, buffer, adaptive)
  {
    StrongEndFinds(cl, buffer);
    SoftEndExactly(cl, lim, buffer);
    if HasStrong(cl, buffer) {
      StrongEndIsEnd(cl, buffer);
    }
  }

  /** Nothing that is due is left in the buffer. */
  lemma {:induction false} DrainLeavesNothingDue(cl: Classes, lim: Limits, buffer: string, adaptive: bool)
    requires lim.Valid() && cl.Sane()
    ensures var rest := Drain(cl, lim, buffer, adaptive).1;
      !HasStrong(cl, rest) && !(adaptive && ClauseDue(cl, lim, rest)) && !LimitReached(cl, lim, rest, adaptive)
    decreases |buffer|
  {
    if buffer != [] {
      NextCut(cl, lim, buffer, adaptive);
      var split := Split(cl, lim, buffer, adaptive);
      if split.Some? {
        DrainLeavesNothingDue(cl, lim, buffer[split.value..], adaptive);
      }
    }
  }

  // ---------------------------------------------------------------------------
  // What is cut off
  // ---------------------------------------------------------------------------

  /** The first sentence end of the text is in its last marks, with nothing but closers behind them. */
  ghost predicate OneSentence(cl: Classes, text: string) {
    forall i: nat :: FirstStrong(cl, text, i) ==> exists m: nat :: Marks(text, i, m) && Closers(text, m, |text|)
  }

  lemma CloserIsNoMark(c: char)
    ensures Closer(c) ==> !Strong(c) && c != '.'
  {
  }

  /** A mark inside a slice is one of the whole text, unless it is a full stop at the end of the slice. */
  lemma MarkOfSlice(cl: Classes, text: string, a: nat, b: nat, i: nat)
    requires a <= b <= |text| && i < b - a && StrongAt(cl, text[a..b], i) && !StrongAt(cl, text, a + i)
    ensures i == b - a - 1 && Marks(text[a..b], i, b - a)
  {
  }

  /** Up to the end of the first sentence all its ends are in its marks. */
  lemma InMarks(cl: Classes, text: string, j: nat, n: nat, e: nat, p: nat)
    requires EndsWith(cl, text, j, n, e) && p < e && StrongAt(cl, text, p)
    ensures j <= p < n
  {
    CloserIsNoMark(text[p]);
  }

  lemma SliceOfSentence(cl: Classes, text: string, e: nat, a: nat, b: nat)
    requires SentenceEndsAt(cl, text, e) && a <= b <= e
    ensures OneSentence(cl, text[a..b])
  {
    var t := text[a..b];
    var j: nat, n: nat :| EndsWith(cl, text, j, n, e);
    forall i: nat | FirstStrong(cl, t, i) ensures exists m: nat :: Marks(t, i, m) && Closers(t, m, |t|) {
      if StrongAt(cl, text, a + i) {
        InMarks(cl, text, j, n, e, a + i);
        assert t[i] == text[a + i];
        var m: nat := if n <= b then n - a else b - a;
        assert Marks(t, i, m) && Closers(t, m, |t|);
      } else {
        MarkOfSlice(cl, text, a, b, i);
        assert Closers(t, |t|, |t|);
      }
    }
  }

  lemma SliceOfPlain(cl: Classes, text: string, a: nat, b: nat)
    requires !HasStrong(cl, text) && a <= b <= |text|
    ensures OneSentence(cl, text[a..b])
  {
    var t := text[a..b];
    forall i: nat | FirstStrong(cl, t, i) ensures exists m: nat :: Marks(t, i, m) && Closers(t, m, |t|) {
      assert !StrongAt(cl, text, a + i);
      MarkOfSlice(cl, text, a, b, i);
      assert Closers(t, |t|, |t|);
    }
  }

  lemma CutIsOneSentence(cl: Classes, lim: Limits, buffer: string, adaptive: bool)
    requires lim.Valid() && cl.Sane() && buffer != [] && Split(cl, lim, buffer, adaptive).Some?
    ensures OneSentence(cl, Strip(cl, buffer[..Split(cl, lim, buffer, adaptive).value]))
  {
    var e := Split(cl, lim, buffer, adaptive).value;
    var a, b := StripTrims(cl, buffer[..e]);
    assert buffer[..e][a..b] == buffer[a..b];
    NextCut(cl, lim, buffer, adaptive);
    if HasStrong(cl, buffer) {
      SliceOfSentence(cl, buffer, e, a, b);
    } else {
      SliceOfPlain(cl, buffer, a, b);
    }
  }

  /** Every text drained is one sentence, or a part of one. */
  lemma {:induction false} DrainedAreSentences(cl: Classes, lim: Limits, buffer: string, adaptive: bool)
    requires lim.Valid() && cl.Sane()
    ensures forall t :: t in Drain(cl, lim, buffer, adaptive).0 ==> OneSentence(cl, t)
    decreases |buffer|
  {
    if buffer != [] {
      var split := Split(cl, lim, buffer, adaptive);
      if split.Some? {
        CutIsOneSentence(cl, lim, buffer, adaptive);
        DrainedAreSentences(cl, lim, buffer[split.value..], adaptive);
      }
    }
  }

  ghost predicate AllSentences(cl: Classes, requests: seq<SpeechRequest>) {
    forall i :: 0 <= i < |requests| ==> OneSentence(cl, requests[i].text)
  }

  lemma FeedGivesSentences(cl: Classes, s: Settings, st: State, c: TextChunk)
    requires s.limits.Valid() && cl.Sane()
    ensures AllSentences(cl, Feed(cl, s, st, c).1)
  {
    var own := if st.requestId != Some(c.requestId) then Begin(s, c) else st;
    var taken := TakeIn(s, own, c);
    var (texts, rest) := Drain(cl, s.limits, taken.buffer, !c.isFinal);
    DrainedAreSentences(cl, s.limits, taken.buffer, !c.isFinal);
    DrainLeavesNothingDue(cl, s.limits, taken.buffer, !c.isFinal);
    forall i | 0 <= i < |texts| ensures OneSentence(cl, texts[i]) {
      assert texts[i] in texts;
    }
    if own.requestId.Some? && c.isFinal {
      CloseGivesSentences(cl, taken.(buffer := rest), MakeAll(taken, texts));
    }
  }

  lemma CloseGivesSentences(cl: Classes, st: State, sentences: seq<SpeechRequest>)
    requires st.requestId.Some? && AllSentences(cl, sentences) && !HasStrong(cl, st.buffer)
    ensures AllSentences(cl, Close(cl, st, sentences).0)
  {
    var a, b := StripTrims(cl, st.buffer);
    SliceOfPlain(cl, st.buffer, a, b);
  }

  /**
   Whatever chunks a response arrives in, no request runs on behind the end of a sentence: the
   first sentence end of each is in its last marks, with nothing but closers behind them.
   */
  lemma {:induction false} RequestsAreSentences(cl: Classes, s: Settings, st: State, chunks: seq<TextChunk>)
    requires s.limits.Valid() && cl.Sane()
    ensures AllSentences(cl, FeedAll(cl, s, st, chunks).1)
    decreases |chunks|
  {
    if chunks != [] {
      FeedGivesSentences(cl, s, st, chunks[0]);
      RequestsAreSentences(cl, s, Feed(cl, s, st, chunks[0]).0, chunks[1..]);
    }
  }
}
