/**
 The bridge between the agent and the speech output (src/star_runtime/agent/voice_bridge.py:157-331):
 one answer is published with one fragment of look-ahead, so that the last fragment can carry the
 final mark, and is committed to memory only after all of it was accepted.
 */
module VoiceBridge {
  import opened Collections
  import opened Wrappers
  import opened Control
  import opened SpeechText
  import opened Scheduler
  import opened SpeechStream

  /** The settings the bridge copies into every message. */
  datatype Delivery = Delivery(language: string, voice: string, instructions: string)

  /**
   What the surroundings do during one answer.  `live(0)` is the check before the model is asked,
   `live(i + 1)` the one at fragment `i`, and the two after the last fragment stand behind the
   stream and in front of the commit.  `breaks` says that the stream raises after its fragments,
   `accepts(i)` that the transport takes the message numbered `i`.
   */
  datatype World = World(
    fragments: seq<string>,
    breaks: bool,
    live: nat -> bool,
    accepts: nat -> bool,
    acceptsAbort: bool,
    currentAfterError: bool
  )

  datatype Ending = NotCurrent | Abandoned | Silent | Failed(raised: bool) | Superseded | Committed

  datatype Report = Report(sent: nat, aborted: bool, ending: Ending)

  datatype Exchange = Exchange(user: string, answer: string)

  function Chunk(d: Delivery, id: string, stamp: ControlStamp, n: nat, text: string, final: bool,
                 interrupt: bool): TextChunk {
    TextChunk(id, n, text, final, interrupt, d.language, d.voice, d.instructions, stamp)
  }

  /** The first `k` messages of an answer: its fragments, numbered from 0, the last one final. */
  function Sent(d: Delivery, id: string, stamp: ControlStamp, fragments: seq<string>, k: nat): (ms: seq<TextChunk>)
    requires k <= |fragments|
    ensures |ms| == k
    ensures forall i :: 0 <= i < k ==> ms[i] == Chunk(d, id, stamp, i, fragments[i], i == |fragments| - 1, false)
  {
    if k == 0 then []
    else Sent(d, id, stamp, fragments, k - 1) + [Chunk(d, id, stamp, k - 1, fragments[k - 1], k == |fragments|, false)]
  }

  lemma SentMore(before: seq<TextChunk>, d: Delivery, id: string, stamp: ControlStamp, fragments: seq<string>, k: nat)
    requires k < |fragments|
    ensures before + Sent(d, id, stamp, fragments, k)
        + [Chunk(d, id, stamp, k, fragments[k], k == |fragments| - 1, false)]
      == before + Sent(d, id, stamp, fragments, k + 1)
  {
    Regroup(before, Sent(d, id, stamp, fragments, k),
      [Chunk(d, id, stamp, k, fragments[k], k == |fragments| - 1, false)]);
  }

  /** The interrupt that tells the speech output to forget a started answer, if one gets there. */
  function Abort(d: Delivery, id: string, stamp: ControlStamp, sent: nat, arrives: bool): seq<TextChunk> {
    if arrives then [Chunk(d, id, stamp, sent, "", true, true)] else []
  }

  // ---------------------------------------------------------------------------
  // How far an answer gets
  // ---------------------------------------------------------------------------

  /** The first `n` liveness checks found the turn current. */
  ghost predicate LiveTo(w: World, n: nat) {
    forall j :: 0 <= j < n ==> w.live(j)
  }

  /** The model's stream ended by itself with the turn current at each fragment. */
  ghost predicate StreamEnds(w: World) {
    LiveTo(w, |w.fragments| + 1) && !w.breaks
  }

  /** Nothing but the transport stands in the way of message `i`. */
  ghost predicate Reaches(cl: Classes, w: World, i: nat) {
    if i + 1 < |w.fragments| then LiveTo(w, i + 3)
    else i + 1 == |w.fragments| && StreamEnds(w) && w.live(|w.fragments| + 1) && Ink(cl, Concat(w.fragments)) != []
  }

  /** The answer stopped behind the stream because the turn had moved on, without a word to the speech output. */
  ghost predicate StopsSilently(w: World, sent: nat) {
    (sent + 1 == |w.fragments| || w.fragments == []) && StreamEnds(w) && !w.live(|w.fragments| + 1)
  }

  /** The first `sent` messages were due and were accepted. */
  ghost predicate Delivered(cl: Classes, w: World, sent: nat) {
    forall i :: 0 <= i < sent ==> Reaches(cl, w, i) && w.accepts(i)
  }

  /** What one answer does in a given world. */
  ghost predicate Describes(cl: Classes, w: World, r: Report) {
    var n := |w.fragments|;
    && r.sent <= n
    && Delivered(cl, w, r.sent)
    && (r.sent < n ==> !(Reaches(cl, w, r.sent) && w.accepts(r.sent)))
    && (r.ending.Committed? <==> r.sent == n > 0 && w.live(n + 2))
    && (r.aborted <==> 0 < r.sent < n && !StopsSilently(w, r.sent))
    && (r.ending.NotCurrent? <==> !w.live(0))
    && (r.ending.Silent? <==> r.sent <= n && StopsSilently(w, r.sent))
    && (r.ending.Superseded? <==> r.sent == n > 0 && !w.live(n + 2))
    && (r.ending.Failed? ==> r.ending.raised == w.currentAfterError)
  }

  /** The turn was found replaced at fragment `i`. */
  lemma AbandonedHere(cl: Classes, w: World, i: nat, sent: nat)
    requires i < |w.fragments| && LiveTo(w, i + 1) && !w.live(i + 1)
    requires sent == (if i == 0 then 0 else i - 1) && Delivered(cl, w, sent)
    ensures Describes(cl, w, Report(sent, sent > 0, Abandoned))
  {
    assert !LiveTo(w, i + 2) && !LiveTo(w, |w.fragments| + 1);
  }

  /** The transport refused message `sent`, which was not the last. */
  lemma RefusedHere(cl: Classes, w: World, sent: nat)
    requires sent + 1 < |w.fragments| && LiveTo(w, sent + 3) && Delivered(cl, w, sent) && !w.accepts(sent)
    ensures Describes(cl, w, Report(sent, sent > 0, Failed(w.currentAfterError)))
  {
  }

  class VoiceBridge {
    const cl: Classes
    const delivery: Delivery
    var outbox: seq<TextChunk>
    var memory: seq<Exchange>

    constructor (cl: Classes, delivery: Delivery)
      ensures this.cl == cl && this.delivery == delivery && outbox == [] && memory == []
    {
      this.cl, this.delivery := cl, delivery;
      outbox, memory := [], [];
    }

    /** Tells the speech output to forget the answer, if any of it was sent. */
    method AbortTts(id: string, stamp: ControlStamp, sent: nat, accepted: bool)
      modifies this`outbox
      ensures outbox == old(outbox) + Abort(delivery, id, stamp, sent, sent > 0 && accepted)
      ensures sent > 0 && accepted ==> var m := outbox[|old(outbox)|];
        && |outbox| == |old(outbox)| + 1 && m.interrupt && m.isFinal && m.text == ""
        && m.requestId == id && m.sequence == sent && m.stamp == stamp
    {
      if sent > 0 && accepted {
        outbox := outbox + [Chunk(delivery, id, stamp, sent, "", true, true)];
      }
    }

    /** Publishes the fragment held back, now that another one has followed it. */
    method Relay(id: string, stamp: ControlStamp, w: World, sent: nat, text: string, ghost before: seq<TextChunk>)
      returns (accepted: bool)
      requires sent + 1 < |w.fragments| && LiveTo(w, sent + 3) && Delivered(cl, w, sent)
      requires text == w.fragments[sent] && outbox == before + Sent(delivery, id, stamp, w.fragments, sent)
      modifies this`outbox
      ensures accepted == w.accepts(sent)
      ensures accepted ==> Delivered(cl, w, sent + 1)
      ensures outbox == before + Sent(delivery, id, stamp, w.fragments, if accepted then sent + 1 else sent)
    {
      accepted := w.accepts(sent);
      if accepted {
        SentMore(before, delivery, id, stamp, w.fragments, sent);
        outbox := outbox + [Chunk(delivery, id, stamp, sent, text, false, false)];
      }
    }

    /** Stops at fragment `i`, at which the turn was found replaced. */
    method Abandon(id: string, stamp: ControlStamp, w: World, i: nat, sent: nat, ghost before: seq<TextChunk>)
      returns (r: Report)
      requires i < |w.fragments| && LiveTo(w, i + 1) && !w.live(i + 1)
      requires sent == (if i == 0 then 0 else i - 1) && Delivered(cl, w, sent)
      requires outbox == before + Sent(delivery, id, stamp, w.fragments, sent)
      modifies this`outbox
      ensures Describes(cl, w, r) && !r.ending.Committed? && r.sent <= |w.fragments|
      ensures outbox == before + Sent(delivery, id, stamp, w.fragments, r.sent)
        + Abort(delivery, id, stamp, r.sent, r.aborted && w.acceptsAbort)
    {
      AbandonedHere(cl, w, i, sent);
      AbortTts(id, stamp, sent, w.acceptsAbort);
      r := Report(sent, sent > 0, Abandoned);
    }

    /** Stops at message `sent`, which the transport refused. */
    method Refused(id: string, stamp: ControlStamp, w: World, sent: nat, ghost before: seq<TextChunk>)
      returns (r: Report)
      requires sent + 1 < |w.fragments| && LiveTo(w, sent + 3) && Delivered(cl, w, sent) && !w.accepts(sent)
      requires outbox == before + Sent(delivery, id, stamp, w.fragments, sent)
      modifies this`outbox
      ensures Describes(cl, w, r) && !r.ending.Committed? && r.sent <= |w.fragments|
      ensures outbox == before + Sent(delivery, id, stamp, w.fragments, r.sent)
        + Abort(delivery, id, stamp, r.sent, r.aborted && w.acceptsAbort)
    {
      RefusedHere(cl, w, sent);
      AbortTts(id, stamp, sent, w.acceptsAbort);
      r := Report(sent, sent > 0, Failed(w.currentAfterError));
    }

    /** Behind the stream: the last fragment goes out as the final message, then the turn is committed. */
    method Finish(user: string, id: string, stamp: ControlStamp, w: World, pending: Option<string>, sent: nat,
                  ghost before: seq<TextChunk>)
      returns (r: Report)
      requires LiveTo(w, |w.fragments| + 1)
      requires sent == (if w.fragments == [] then 0 else |w.fragments| - 1)
      requires pending == if w.fragments == [] then None else Some(w.fragments[sent])
      requires Delivered(cl, w, sent) && outbox == before + Sent(delivery, id, stamp, w.fragments, sent)
      modifies this
      ensures Describes(cl, w, r)
      ensures outbox == before + Sent(delivery, id, stamp, w.fragments, r.sent)
        + Abort(delivery, id, stamp, r.sent, r.aborted && w.acceptsAbort)
      ensures memory == old(memory) + Remembered(user, w, r)
    {
      if w.breaks {
        AbortTts(id, stamp, sent, w.acceptsAbort);
        return Report(sent, sent > 0, Failed(w.currentAfterError));
      }
      if !w.live(|w.fragments| + 1) {
        return Report(sent, false, Silent);
      }
      var answer := Strip(cl, Concat(w.fragments));
      StripKeepsInk(cl, Concat(w.fragments));
      if answer == "" || pending.None? || !w.accepts(sent) {
        AbortTts(id, stamp, sent, w.acceptsAbort);
        return Report(sent, sent > 0, Failed(w.currentAfterError));
      }
      SentMore(before, delivery, id, stamp, w.fragments, sent);
      outbox := outbox + [Chunk(delivery, id, stamp, sent, pending.value, true, false)];
      if !w.live(|w.fragments| + 2) {
        return Report(sent + 1, false, Superseded);
      }
      memory := memory + [Exchange(user, answer)];
      r := Report(sent + 1, false, Committed);
    }

    /** A committed turn leaves what the user said and the answer, without white space around it; no other turn does. */
    lemma RemembersTheAnswer(user: string, w: World, r: Report) returns (a: nat, b: nat)
      ensures |Remembered(user, w, r)| == if r.ending.Committed? then 1 else 0
      ensures a <= b <= |Concat(w.fragments)|
      ensures forall k :: 0 <= k < a || b <= k < |Concat(w.fragments)| ==> cl.space(Concat(w.fragments)[k])
      ensures a < b ==> !cl.space(Concat(w.fragments)[a]) && !cl.space(Concat(w.fragments)[b - 1])
      ensures r.ending.Committed? ==> Remembered(user, w, r)[0] == Exchange(user, Concat(w.fragments)[a..b])
    {
      a, b := StripTrims(cl, Concat(w.fragments));
    }

    /** What a turn leaves in memory: the whole answer if it was committed, otherwise nothing. */
    function Remembered(user: string, w: World, r: Report): seq<Exchange> {
      if r.ending.Committed? then [Exchange(user, Strip(cl, Concat(w.fragments)))] else []
    }

    /**
     Reads the stream, one fragment of look-ahead behind; `stopped` is the report if the turn is
     given up on the way, otherwise `pending` is the fragment still held back at its end.
     */
    method Stream(id: string, stamp: ControlStamp, w: World, ghost before: seq<TextChunk>)
      returns (stopped: Option<Report>, pending: Option<string>, sent: nat)
      requires w.live(0) && outbox == before
      modifies this`outbox
      ensures stopped.Some? ==> var r := stopped.value;
        && Describes(cl, w, r) && !r.ending.Committed?
        && outbox == before + Sent(delivery, id, stamp, w.fragments, r.sent)
            + Abort(delivery, id, stamp, r.sent, r.aborted && w.acceptsAbort)
      ensures stopped.None? ==>
        && LiveTo(w, |w.fragments| + 1)
        && sent == (if w.fragments == [] then 0 else |w.fragments| - 1)
        && pending == (if w.fragments == [] then None else Some(w.fragments[sent]))
        && Delivered(cl, w, sent) && outbox == before + Sent(delivery, id, stamp, w.fragments, sent)
    {
      var n := |w.fragments|;
      var i := 0;
      sent, pending, stopped := 0, None, None;
      while i < n
        invariant 0 <= i <= n && sent == (if i == 0 then 0 else i - 1)
        invariant LiveTo(w, i + 1)
        invariant pending == if i == 0 then None else Some(w.fragments[i - 1])
        invariant Delivered(cl, w, sent)
        invariant outbox == before + Sent(delivery, id, stamp, w.fragments, sent)
      {
        if !w.live(i + 1) {
          var r := Abandon(id, stamp, w, i, sent, before);
          return Some(r), pending, sent;
        }
        if pending.Some? {
          var accepted := Relay(id, stamp, w, sent, pending.value, before);
          if !accepted {
            var r := Refused(id, stamp, w, sent, before);
            return Some(r), pending, sent;
          }
          sent := sent + 1;
        }
        pending := Some(w.fragments[i]);
        i := i + 1;
      }
    }

    /** The messages accepted, the abort if there was one, and the memory; see `Describes` for how far it gets. */
    method Answer(user: string, id: string, stamp: ControlStamp, w: World) returns (r: Report)
      modifies this
      ensures Describes(cl, w, r)
      ensures outbox == old(outbox) + Sent(delivery, id, stamp, w.fragments, r.sent)
        + Abort(delivery, id, stamp, r.sent, r.aborted && w.acceptsAbort)
      ensures memory == old(memory) + Remembered(user, w, r)
    {
      if !w.live(0) {
        return Report(0, false, NotCurrent);
      }
      var stopped, pending, sent := Stream(id, stamp, w, outbox);
      if stopped.Some? {
        return stopped.value;
      }
      r := Finish(user, id, stamp, w, pending, sent, old(outbox));
    }
  }
}
