/**
 The incremental sentence scheduler (src/star_runtime/speech/tts/scheduler.py).
 `State` is the value of the assembler's fields and `Feed` what one chunk does to it; the
 class updates the fields in place.
 */
module Scheduler {
  import opened Collections
  import opened Wrappers
  import opened Control
  import opened SpeechText

  datatype Settings = Settings(
    limits: Limits,
    styleTokens: map<string, string>,
    instructions: string,
    language: string,
    voice: string
  )

  datatype TextChunk = TextChunk(
    requestId: string,
    sequence: int,
    text: string,
    isFinal: bool,
    interrupt: bool,
    language: string,
    voice: string,
    instructions: string,
    stamp: ControlStamp
  )

  datatype SpeechRequest = SpeechRequest(
    requestId: string,
    text: string,
    language: string,
    voice: string,
    instructions: string,
    finalSentence: bool,
    finalizeOnly: bool,
    stamp: ControlStamp
  )

  datatype State = State(
    requestId: Option<string>,
    buffer: string,
    instructions: string,
    language: string,
    voice: string,
    lastSequence: int,
    emitted: bool,
    finalized: bool,
    stamp: ControlStamp
  )

  function Fresh(s: Settings): State {
    State(None, "", s.instructions, s.language, s.voice, -1, false, false, ControlStamp("", "", 0))
  }

  // ---------------------------------------------------------------------------
  // Style tokens
  // ---------------------------------------------------------------------------

  predicate TokenChar(c: char) {
    'A' <= c <= 'Z' || 'a' <= c <= 'z' || '0' <= c <= '9' || c == '_' || c == '-'
  }

  /** ASCII lower case, which is all a token can contain. */
  function Lower(text: string): string {
    seq(|text|, i requires 0 <= i < |text| => if 'A' <= text[i] <= 'Z' then text[i] - 'A' + 'a' else text[i])
  }

  /** The end of a bracketed token that starts at the head of `text`, brackets included; 0 if there is none. */
  function TokenEnd(text: string): (e: nat)
    ensures e <= |text|
    ensures e > 0 ==> e >= 3 && text[0] == '[' && text[e - 1] == ']'
    ensures forall k :: 1 <= k < e - 1 ==> TokenChar(text[k])
  {
    if text == [] || text[0] != '[' then 0
    else
      var e := RunEnd(text, 1, TokenChar);
      if e > 1 && e < |text| && text[e] == ']' then e + 1 else 0
  }

  /** The text without known style tokens, and the instruction of the last one. */
  function StripStyles(s: Settings, text: string, instructions: string): (string, string)
    decreases |text|
  {
    if text == [] then ([], instructions)
    else
      var e := TokenEnd(text);
      if e == 0 then
        var (rest, i) := StripStyles(s, text[1..], instructions);
        ([text[0]] + rest, i)
      else
        var name := Lower(text[1..e - 1]);
        if name in s.styleTokens then StripStyles(s, text[e..], s.styleTokens[name])
        else
          var (rest, i) := StripStyles(s, text[e..], instructions);
          (text[..e] + rest, i)
  }

  /** What remains of `text` does not depend on the instruction in force. */
  lemma {:induction false} StripStylesText(s: Settings, text: string, i: string, j: string)
    ensures StripStyles(s, text, i).0 == StripStyles(s, text, j).0
    decreases |text|
  {
    if text != [] {
      var e := TokenEnd(text);
      if e == 0 {
        StripStylesText(s, text[1..], i, j);
      } else if Lower(text[1..e - 1]) !in s.styleTokens {
        StripStylesText(s, text[e..], i, j);
      }
    }
  }

  function Spoken(s: Settings, text: string): string {
    StripStyles(s, text, "").0
  }

  /** Text in front of the first opening bracket passes through. */
  lemma {:induction false} PlainPasses(s: Settings, plain: string, rest: string, i: string)
    requires '[' !in plain
    ensures StripStyles(s, plain + rest, i) == (plain + StripStyles(s, rest, i).0, StripStyles(s, rest, i).1)
    decreases |plain|
  {
    if plain == [] {
      assert plain + rest == rest;
      assert [] + StripStyles(s, rest, i).0 == StripStyles(s, rest, i).0;
    } else {
      assert (plain + rest)[1..] == plain[1..] + rest;
      PlainPasses(s, plain[1..], rest, i);
      Regroup([plain[0]], plain[1..], StripStyles(s, rest, i).0);
      assert [plain[0]] + plain[1..] == plain;
    }
  }

  ghost predicate TokenName(name: string) {
    name != [] && forall k :: 0 <= k < |name| ==> TokenChar(name[k])
  }

  /** A known token, in any case, disappears and sets the instruction; an unknown one passes through. */
  lemma TokenTaken(s: Settings, name: string, rest: string, i: string)
    requires TokenName(name)
    ensures StripStyles(s, "[" + name + "]" + rest, i) ==
      if Lower(name) in s.styleTokens then StripStyles(s, rest, s.styleTokens[Lower(name)])
      else ("[" + name + "]" + StripStyles(s, rest, i).0, StripStyles(s, rest, i).1)
  {
    var text := "[" + name + "]" + rest;
    var e := |name| + 2;
    RunEndUnique(text, 1, TokenChar, e - 1);
    assert text[1..e - 1] == name && text[..e] == "[" + name + "]" && text[e..] == rest;
  }

  /** A bracket that opens no token, because no token character or no closing bracket follows, passes through. */
  lemma LooseBracketPasses(s: Settings, name: string, rest: string, i: string)
    requires forall k :: 0 <= k < |name| ==> TokenChar(name[k])
    requires rest == [] || (!TokenChar(rest[0]) && (name == [] || rest[0] != ']'))
    ensures StripStyles(s, "[" + name + rest, i)
      == ("[" + StripStyles(s, name + rest, i).0, StripStyles(s, name + rest, i).1)
  {
    var text := "[" + name + rest;
    assert text[1..] == name + rest;
    if rest == [] {
      RunEndAll(text, 1, TokenChar);
    } else {
      RunEndUnique(text, 1, TokenChar, 1 + |name|);
    }
  }

  lemma {:induction false} RunEndAll(text: string, i: nat, p: char -> bool)
    requires i <= |text| && forall k :: i <= k < |text| ==> p(text[k])
    ensures RunEnd(text, i, p) == |text|
    decreases |text| - i
  {
    if i < |text| {
      RunEndAll(text, i + 1, p);
    }
  }

  /** Lower case changes the 26 capitals, each into its small letter, and nothing else. */
  lemma LowerFolds(text: string, i: nat)
    requires i < |text|
    ensures |Lower(text)| == |text| && Lower(Lower(text)) == Lower(text)
    ensures !('A' <= text[i] <= 'Z') ==> Lower(text)[i] == text[i]
    ensures 'A' <= text[i] <= 'Z' ==> 'a' <= Lower(text)[i] <= 'z' && Lower(text)[i] - 'a' == text[i] - 'A'
  {
  }

  lemma {:induction false} RunEndUnique(text: string, i: nat, p: char -> bool, e: nat)
    requires i <= e < |text| && !p(text[e])
    requires forall k :: i <= k < e ==> p(text[k])
    ensures RunEnd(text, i, p) == e
    decreases e - i
  {
    if i < e {
      RunEndUnique(text, i + 1, p, e);
    }
  }

  // ---------------------------------------------------------------------------
  // Draining boundaries
  // ---------------------------------------------------------------------------

  /** Where to cut the buffer next, if anywhere. */
  function Split(cl: Classes, lim: Limits, buffer: string, adaptive: bool): (m: Option<nat>)
    requires lim.Valid() && buffer != []
    ensures m.Some? ==> 0 < m.value <= |buffer|
  {
    if StrongEnd(cl, buffer).Some? then StrongEnd(cl, buffer)
    else if adaptive && SoftEnd(cl, lim, buffer).Some? then SoftEnd(cl, lim, buffer)
    else if lim.buffer <= |buffer| || (adaptive && lim.max <= Units(cl, buffer)) then Some(WrapEnd(cl, lim, buffer))
    else None
  }

  /** The sentences cut off the buffer, stripped and without the blank ones, and what is left. */
  function Drain(cl: Classes, lim: Limits, buffer: string, adaptive: bool): (seq<string>, string)
    requires lim.Valid()
    decreases |buffer|
  {
    if buffer == [] then ([], buffer)
    else
      var split := Split(cl, lim, buffer, adaptive);
      if split.None? then ([], buffer)
      else
        var text := Strip(cl, buffer[..split.value]);
        var (texts, rest) := Drain(cl, lim, buffer[split.value..], adaptive);
        ((if text == [] then [] else [text]) + texts, rest)
  }

  function Concat(texts: seq<string>): string {
    if texts == [] then [] else texts[0] + Concat(texts[1..])
  }

  lemma {:induction false} ConcatMore(a: seq<string>, b: seq<string>)
    ensures Concat(a + b) == Concat(a) + Concat(b)
    decreases |a|
  {
    if a == [] {
      assert a + b == b;
    } else {
      assert (a + b)[1..] == a[1..] + b;
      ConcatMore(a[1..], b);
    }
  }

  /** Cutting loses no ink and emits no blank sentence. */
  lemma {:induction false} DrainKeepsInk(cl: Classes, lim: Limits, buffer: string, adaptive: bool)
    requires lim.Valid()
    ensures var (texts, rest) := Drain(cl, lim, buffer, adaptive);
      && Ink(cl, Concat(texts)) + Ink(cl, rest) == Ink(cl, buffer)
      && forall t :: t in texts ==> Ink(cl, t) != []
    decreases |buffer|
  {
    if buffer != [] {
      var split := Split(cl, lim, buffer, adaptive);
      if split.Some? {
        var head, tail := buffer[..split.value], buffer[split.value..];
        assert buffer == head + tail;
        DrainKeepsInk(cl, lim, tail, adaptive);
        InkConcat(cl, head, tail);
        var (texts, rest) := Drain(cl, lim, tail, adaptive);
        CutKeepsInk(cl, head, texts);
        Regroup(Ink(cl, head), Ink(cl, Concat(texts)), Ink(cl, rest));
      }
    }
  }

  /** Stripping the head and leaving it out when it is blank loses no ink. */
  lemma CutKeepsInk(cl: Classes, head: string, texts: seq<string>)
    ensures var text := Strip(cl, head);
      var all := (if text == [] then [] else [text]) + texts;
      && Ink(cl, Concat(all)) == Ink(cl, head) + Ink(cl, Concat(texts))
      && forall t :: t in all ==> t in texts || Ink(cl, t) != []
  {
    var text := Strip(cl, head);
    StripKeepsInk(cl, head);
    if text != [] {
      assert ([text] + texts)[1..] == texts;
      InkConcat(cl, text, Concat(texts));
      StripKeepsInk(cl, text);
    } else {
      assert [] + texts == texts;
    }
  }

  /**
   What is left after draining has no sentence end, is shorter than the buffer limit and,
   while the response is still streaming, shorter than the maximum spoken length.
   */
  lemma {:induction false} DrainIsBounded(cl: Classes, lim: Limits, buffer: string, adaptive: bool)
    requires lim.Valid() && cl.Sane()
    ensures var rest := Drain(cl, lim, buffer, adaptive).1;
      && !HasStrong(cl, rest)
      && |rest| < lim.buffer
      && (adaptive ==> Units(cl, rest) < lim.max)
      && |rest| <= |buffer| && rest == buffer[|buffer| - |rest|..]
    decreases |buffer|
  {
    if buffer != [] {
      var split := Split(cl, lim, buffer, adaptive);
      if split.Some? {
        var tail := buffer[split.value..];
        DrainIsBounded(cl, lim, tail, adaptive);
        assert Drain(cl, lim, buffer, adaptive).1 == Drain(cl, lim, tail, adaptive).1;
      } else {
        NoSplit(cl, lim, buffer, adaptive);
      }
    }
  }

  lemma NoSplit(cl: Classes, lim: Limits, buffer: string, adaptive: bool)
    requires lim.Valid() && cl.Sane() && buffer != [] && Split(cl, lim, buffer, adaptive).None?
    ensures !HasStrong(cl, buffer) && |buffer| < lim.buffer && (adaptive ==> Units(cl, buffer) < lim.max)
  {
    StrongEndFinds(cl, buffer);
  }

  // ---------------------------------------------------------------------------
  // One chunk
  // ---------------------------------------------------------------------------

  function Make(st: State, text: string, final: bool, finalizeOnly: bool): SpeechRequest
    requires st.requestId.Some?
  {
    SpeechRequest(st.requestId.value, text, st.language, st.voice, st.instructions, final, finalizeOnly, st.stamp)
  }

  function MakeAll(st: State, texts: seq<string>): seq<SpeechRequest>
    requires st.requestId.Some?
  {
    seq(|texts|, i requires 0 <= i < |texts| => Make(st, texts[i], false, false))
  }

  /** The state as a new request begins. */
  function Begin(s: Settings, c: TextChunk): State {
    Fresh(s).(requestId := Some(c.requestId), stamp := c.stamp)
  }

  /** The state with the chunk's overrides, style tokens and text taken in. */
  function TakeIn(s: Settings, st: State, c: TextChunk): State {
    var given := if c.instructions != "" then c.instructions else st.instructions;
    var (text, instructions) := StripStyles(s, c.text, given);
    st.(
      lastSequence := c.sequence,
      language := if c.language != "" then c.language else st.language,
      voice := if c.voice != "" then c.voice else st.voice,
      instructions := instructions,
      buffer := st.buffer + text)
  }

  /** Closes a response: the rest of the buffer, or the last sentence, or a bare marker becomes final. */
  function Close(cl: Classes, st: State, sentences: seq<SpeechRequest>): (seq<SpeechRequest>, string)
    requires st.requestId.Some?
  {
    var text := Strip(cl, st.buffer);
    if text != [] then (sentences + [Make(st, text, true, false)], "")
    else if sentences != [] then
      (sentences[..|sentences| - 1] + [sentences[|sentences| - 1].(finalSentence := true)], st.buffer)
    else if st.emitted then ([Make(st, "", true, true)], st.buffer)
    else ([], st.buffer)
  }

  function Feed(cl: Classes, s: Settings, st: State, c: TextChunk): (State, seq<SpeechRequest>)
    requires s.limits.Valid()
  {
    if c.interrupt then (Fresh(s), [])
    else
      var own := if st.requestId != Some(c.requestId) then Begin(s, c) else st;
      if own.finalized || c.sequence <= own.lastSequence then (own, [])
      else
        var taken := TakeIn(s, own, c);
        var (texts, rest) := Drain(cl, s.limits, taken.buffer, !c.isFinal);
        var drained := taken.(buffer := rest);
        var (requests, left) :=
          if c.isFinal then Close(cl, drained, MakeAll(taken, texts)) else (MakeAll(taken, texts), rest);
        (drained.(buffer := left, emitted := own.emitted || requests != [], finalized := c.isFinal), requests)
  }

  lemma MakeAllMore(st: State, texts: seq<string>, text: string)
    requires st.requestId.Some?
    ensures MakeAll(st, texts + [text]) == MakeAll(st, texts) + [Make(st, text, false, false)]
  {
  }

  /** The search of one round: sentence end, then clause end, then a forced wrap. */
  method FindSplit(cl: Classes, lim: Limits, buffer: string, adaptive: bool) returns (m: Option<nat>)
    requires lim.Valid() && buffer != []
    ensures m == Split(cl, lim, buffer, adaptive)
  {
    m := FindStrong(cl, buffer);
    if m.None? && adaptive {
      m := FindSoft(cl, lim, buffer);
    }
    if m.None? && (lim.buffer <= |buffer| || (adaptive && lim.max <= Units(cl, buffer))) {
      var e := FindWrap(cl, lim, buffer);
      m := Some(e);
    }
  }

  /** Draining `whole` comes down to `texts` and then draining `buffer`. */
  ghost predicate Continues(cl: Classes, lim: Limits, whole: string, texts: seq<string>, buffer: string, adaptive: bool)
    requires lim.Valid()
  {
    && Drain(cl, lim, whole, adaptive).0 == texts + Drain(cl, lim, buffer, adaptive).0
    && Drain(cl, lim, whole, adaptive).1 == Drain(cl, lim, buffer, adaptive).1
  }

  lemma DrainOnce(cl: Classes, lim: Limits, whole: string, texts: seq<string>, buffer: string, adaptive: bool)
    requires lim.Valid() && Continues(cl, lim, whole, texts, buffer, adaptive)
    requires buffer != [] && Split(cl, lim, buffer, adaptive).Some?
    ensures var split := Split(cl, lim, buffer, adaptive).value;
      var text := Strip(cl, buffer[..split]);
      Continues(cl, lim, whole, if text == [] then texts else texts + [text], buffer[split..], adaptive)
  {
    var split := Split(cl, lim, buffer, adaptive).value;
    var text := Strip(cl, buffer[..split]);
    var later := Drain(cl, lim, buffer[split..], adaptive).0;
    if text == [] {
      assert [] + later == later;
    } else {
      Regroup(texts, [text], later);
    }
  }

  lemma DrainEnds(cl: Classes, lim: Limits, whole: string, texts: seq<string>, buffer: string, adaptive: bool)
    requires lim.Valid() && Continues(cl, lim, whole, texts, buffer, adaptive)
    requires buffer == [] || Split(cl, lim, buffer, adaptive).None?
    ensures Drain(cl, lim, whole, adaptive) == (texts, buffer)
  {
    assert texts + [] == texts;
  }

  class SentenceAssembler {
    const cl: Classes
    const s: Settings
    var requestId: Option<string>
    var buffer: string
    var instructions: string
    var language: string
    var voice: string
    var lastSequence: int
    var emitted: bool
    var finalized: bool
    var stamp: ControlStamp

    function View(): State
      reads this
    {
      State(requestId, buffer, instructions, language, voice, lastSequence, emitted, finalized, stamp)
    }

    constructor (cl: Classes, s: Settings)
      ensures this.cl == cl && this.s == s && View() == Fresh(s)
    {
      this.cl, this.s := cl, s;
      requestId, buffer, lastSequence, emitted, finalized, stamp := None, "", -1, false, false, ControlStamp("", "", 0);
      instructions, language, voice := s.instructions, s.language, s.voice;
    }

    method Reset()
      modifies this
      ensures View() == Fresh(s)
    {
      requestId, buffer, lastSequence, emitted, finalized, stamp := None, "", -1, false, false, ControlStamp("", "", 0);
      instructions, language, voice := s.instructions, s.language, s.voice;
    }

    /** Cuts sentences off the buffer until no boundary is left; each cut shortens the buffer. */
    method DrainBoundaries(adaptive: bool) returns (result: seq<SpeechRequest>)
      requires s.limits.Valid() && requestId.Some?
      modifies this`buffer
      ensures result == MakeAll(old(View()), Drain(cl, s.limits, old(buffer), adaptive).0)
      ensures buffer == Drain(cl, s.limits, old(buffer), adaptive).1
    {
      ghost var st := View();
      ghost var texts: seq<string> := [];
      result := [];
      while buffer != []
        invariant result == MakeAll(st, texts)
        invariant View() == st.(buffer := buffer)
        invariant Continues(cl, s.limits, st.buffer, texts, buffer, adaptive)
        decreases |buffer|
      {
        var split := FindSplit(cl, s.limits, buffer, adaptive);
        if split.None? {
          DrainEnds(cl, s.limits, st.buffer, texts, buffer, adaptive);
          return;
        }
        result, texts := CutOff(split.value, adaptive, result, st, texts);
      }
      DrainEnds(cl, s.limits, st.buffer, texts, buffer, adaptive);
    }

    /** Cuts one sentence off the buffer, unless it is blank. */
    method CutOff(split: nat, adaptive: bool, before: seq<SpeechRequest>, ghost st: State, ghost texts: seq<string>)
      returns (result: seq<SpeechRequest>, ghost all: seq<string>)
      requires s.limits.Valid() && st.requestId.Some? && View() == st.(buffer := buffer)
      requires buffer != [] && Split(cl, s.limits, buffer, adaptive) == Some(split)
      requires before == MakeAll(st, texts) && Continues(cl, s.limits, st.buffer, texts, buffer, adaptive)
      modifies this`buffer
      ensures buffer == old(buffer)[split..] && View() == st.(buffer := buffer)
      ensures result == MakeAll(st, all) && Continues(cl, s.limits, st.buffer, all, buffer, adaptive)
    {
      DrainOnce(cl, s.limits, st.buffer, texts, buffer, adaptive);
      var text := Strip(cl, buffer[..split]);
      buffer := buffer[split..];
      result, all := before, texts;
      if text != [] {
        MakeAllMore(st, texts, text);
        result := before + [MakeRequest(text, false, false)];
        all := texts + [text];
      }
    }

    function MakeRequest(text: string, final: bool, finalizeOnly: bool): (r: SpeechRequest)
      requires requestId.Some?
      reads this
      ensures forall b :: r == Make(View().(buffer := b), text, final, finalizeOnly)
    {
      Make(View(), text, final, finalizeOnly)
    }

    method FeedChunk(c: TextChunk) returns (requests: seq<SpeechRequest>)
      requires s.limits.Valid()
      modifies this
      ensures (View(), requests) == Feed(cl, s, old(View()), c)
    {
      if c.interrupt {
        Reset();
        return [];
      }
      if requestId != Some(c.requestId) {
        Reset();
        requestId := Some(c.requestId);
        stamp := c.stamp;
      }
      if finalized || c.sequence <= lastSequence {
        return [];
      }
      requests := TakeAndCut(c);
    }

    method TakeAndCut(c: TextChunk) returns (requests: seq<SpeechRequest>)
      requires s.limits.Valid() && !c.interrupt && requestId == Some(c.requestId) && !finalized
          && lastSequence < c.sequence
      modifies this
      ensures (View(), requests) == Feed(cl, s, old(View()), c)
    {
      lastSequence := c.sequence;
      if c.language != "" {
        language := c.language;
      }
      if c.voice != "" {
        voice := c.voice;
      }
      if c.instructions != "" {
        instructions := c.instructions;
      }
      var (text, i) := StripStyles(s, c.text, instructions);
      instructions := i;
      buffer := buffer + text;
      assert View() == TakeIn(s, old(View()), c);
      requests := DrainBoundaries(!c.isFinal);
      if c.isFinal {
        requests := CloseResponse(requests);
      }
      if requests != [] {
        emitted := true;
      }
      if c.isFinal {
        finalized := true;
      }
    }

    method CloseResponse(sentences: seq<SpeechRequest>) returns (requests: seq<SpeechRequest>)
      requires requestId.Some?
      modifies this`buffer
      ensures (requests, buffer) == Close(cl, old(View()), sentences)
    {
      requests := sentences;
      var text := Strip(cl, buffer);
      if text != [] {
        requests := sentences + [MakeRequest(text, true, false)];
        buffer := "";
      } else if requests != [] {
        var last := requests[|requests| - 1];
        requests := requests[..|requests| - 1] + [last.(finalSentence := true)];
      } else if emitted {
        requests := [MakeRequest("", true, true)];
      }
    }
  }
}
