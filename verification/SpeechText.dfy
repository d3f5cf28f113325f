/**
 Text scanning for the sentence scheduler (src/star_runtime/speech/tts/scheduler.py:11-20 and
 139-201).  The Unicode classes that the regular expressions take from Python are parameters;
 the punctuation sets and the syllabic ranges are the source's.
 */
module SpeechText {
  import opened Wrappers

  /** `word` is a letter or digit other than the underscore. */
  datatype Classes = Classes(space: char -> bool, word: char -> bool, digit: char -> bool) {
    predicate Sane() {
      !digit('.')
    }
  }

  datatype Limits = Limits(min: real, preferred: real, max: real, buffer: nat) {
    /** What the configuration loader enforces. */
    predicate Valid() {
      0.0 < min <= preferred <= max && 8 <= buffer
    }
  }

  predicate Strong(c: char) {
    c in {'\U{3002}', '\U{FF01}', '\U{FF1F}', '!', '?', '\U{FF1B}', ';', '\n'}
  }

  predicate Soft(c: char) {
    c in {',', '\U{FF0C}', ':', '\U{FF1A}', '\U{3001}', '\U{2014}', '\U{2013}'}
  }

  predicate Closer(c: char) {
    c in {'"', '\'', '\U{201D}', '\U{2019}', '\U{FF09}', ')', ']', '\U{3011}', '\U{300B}', '\U{300D}', '\U{300F}'}
  }

  predicate Joiner(c: char) {
    c in {'\'', '\U{2019}', '-'}
  }

  predicate Syllabic(c: char) {
    || '\U{3400}' <= c <= '\U{4DBF}' || '\U{4E00}' <= c <= '\U{9FFF}' || '\U{F900}' <= c <= '\U{FAFF}'
    || '\U{3040}' <= c <= '\U{30FF}' || '\U{AC00}' <= c <= '\U{D7AF}'
  }

  // ---------------------------------------------------------------------------
  // White space
  // ---------------------------------------------------------------------------

  /** The non-white-space characters, in order. */
  function Ink(cl: Classes, text: string): string {
    if text == [] then []
    else (if cl.space(text[0]) then [] else [text[0]]) + Ink(cl, text[1..])
  }

  lemma {:induction false} InkConcat(cl: Classes, a: string, b: string)
    ensures Ink(cl, a + b) == Ink(cl, a) + Ink(cl, b)
    decreases |a|
  {
    if a == [] {
      assert a + b == b;
    } else {
      assert (a + b)[1..] == a[1..] + b;
      InkConcat(cl, a[1..], b);
    }
  }

  function StripLeft(cl: Classes, text: string): string {
    if text != [] && cl.space(text[0]) then StripLeft(cl, text[1..]) else text
  }

  function StripRight(cl: Classes, text: string): string {
    if text != [] && cl.space(text[|text| - 1]) then StripRight(cl, text[..|text| - 1]) else text
  }

  function Strip(cl: Classes, text: string): string {
    StripRight(cl, StripLeft(cl, text))
  }

  lemma {:induction false} StripLeftKeepsInk(cl: Classes, text: string)
    ensures Ink(cl, StripLeft(cl, text)) == Ink(cl, text)
    decreases |text|
  {
    if text != [] && cl.space(text[0]) {
      StripLeftKeepsInk(cl, text[1..]);
    }
  }

  lemma {:induction false} StripRightKeepsInk(cl: Classes, text: string)
    ensures Ink(cl, StripRight(cl, text)) == Ink(cl, text)
    decreases |text|
  {
    if text != [] && cl.space(text[|text| - 1]) {
      var front, last := text[..|text| - 1], [text[|text| - 1]];
      StripRightKeepsInk(cl, front);
      InkConcat(cl, front, last);
      assert text == front + last;
    }
  }

  /** Stripping takes white space off both ends, all of it, and nothing else. */
  lemma StripTrims(cl: Classes, text: string) returns (a: nat, b: nat)
    ensures a <= b <= |text| && Strip(cl, text) == text[a..b]
    ensures forall k :: 0 <= k < a || b <= k < |text| ==> cl.space(text[k])
    ensures a < b ==> !cl.space(text[a]) && !cl.space(text[b - 1])
  {
    a := LeftTrims(cl, text);
    var left := StripLeft(cl, text);
    var n := RightTrims(cl, left);
    b := a + n;
    assert left[..n] == text[a..b];
    forall k | b <= k < |text| ensures cl.space(text[k]) {
      assert left[k - a] == text[k];
    }
  }

  lemma {:induction false} LeftTrims(cl: Classes, text: string) returns (a: nat)
    ensures a <= |text| && StripLeft(cl, text) == text[a..]
    ensures forall k :: 0 <= k < a ==> cl.space(text[k])
    ensures a < |text| ==> !cl.space(text[a])
    decreases |text|
  {
    if text != [] && cl.space(text[0]) {
      var n := LeftTrims(cl, text[1..]);
      a := n + 1;
      forall k | 0 <= k < a ensures cl.space(text[k]) {
        assert k > 0 ==> text[k] == text[1..][k - 1];
      }
    } else {
      a := 0;
    }
  }

  lemma {:induction false} RightTrims(cl: Classes, text: string) returns (n: nat)
    ensures n <= |text| && StripRight(cl, text) == text[..n]
    ensures forall k :: n <= k < |text| ==> cl.space(text[k])
    ensures 0 < n ==> !cl.space(text[n - 1])
    decreases |text|
  {
    if text != [] && cl.space(text[|text| - 1]) {
      n := RightTrims(cl, text[..|text| - 1]);
    } else {
      n := |text|;
    }
  }

  /** Stripping loses no ink, and leaves nothing exactly when there is none. */
  lemma StripKeepsInk(cl: Classes, text: string)
    ensures Ink(cl, Strip(cl, text)) == Ink(cl, text)
    ensures Strip(cl, text) == [] <==> Ink(cl, text) == []
  {
    var left := StripLeft(cl, text);
    StripLeftKeepsInk(cl, text);
    StripRightKeepsInk(cl, left);
    StripEnds(cl, text);
  }

  lemma {:induction false} StripEnds(cl: Classes, text: string)
    ensures StripLeft(cl, text) != [] ==> Ink(cl, StripLeft(cl, text)) != []
    ensures StripRight(cl, StripLeft(cl, text)) == [] ==> Ink(cl, text) == []
    decreases |text|
  {
    if text != [] && cl.space(text[0]) {
      StripEnds(cl, text[1..]);
    } else if text != [] {
      InkyStaysInky(cl, text);
    }
  }

  lemma {:induction false} InkyStaysInky(cl: Classes, text: string)
    requires text != [] && !cl.space(text[0])
    ensures StripRight(cl, text) != []
    decreases |text|
  {
    if cl.space(text[|text| - 1]) {
      InkyStaysInky(cl, text[..|text| - 1]);
    }
  }

  // ---------------------------------------------------------------------------
  // Spoken length
  // ---------------------------------------------------------------------------

  /** Where the word pattern stands: outside a word, inside one, or behind a joiner that may continue it. */
  datatype Scan = Outside | Inside | Joined

  function Next(cl: Classes, s: Scan, c: char): Scan {
    if Syllabic(c) then Outside
    else if cl.word(c) then Inside
    else if s.Inside? && Joiner(c) then Joined
    else Outside
  }

  /** What one more character adds: 1 for a syllable, 1.5 for the start of a word. */
  function Added(cl: Classes, s: Scan, c: char): real {
    if Syllabic(c) then 1.0
    else if cl.word(c) && s.Outside? then 1.5
    else 0.0
  }

  function ScanOf(cl: Classes, text: string): Scan {
    if text == [] then Outside else Next(cl, ScanOf(cl, text[..|text| - 1]), text[|text| - 1])
  }

  /** Estimated spoken length: syllabic characters plus 1.5 per word. */
  function Units(cl: Classes, text: string): (u: real)
    ensures 0.0 <= u
  {
    if text == [] then 0.0
    else Units(cl, text[..|text| - 1]) + Added(cl, ScanOf(cl, text[..|text| - 1]), text[|text| - 1])
  }

  lemma UnitsStep(cl: Classes, text: string, i: nat)
    requires i < |text|
    ensures Units(cl, text[..i]) <= Units(cl, text[..i + 1]) <= Units(cl, text[..i]) + 1.5
  {
    assert text[..i + 1][..i] == text[..i];
  }

  /** Prefix lengths are monotone and grow by at most 1.5 per character. */
  lemma {:induction false} UnitsMonotone(cl: Classes, text: string, i: nat, j: nat)
    requires i <= j <= |text|
    ensures Units(cl, text[..i]) <= Units(cl, text[..j]) <= Units(cl, text[..i]) + 1.5 * (j - i) as real
    decreases j - i
  {
    if i < j {
      UnitsMonotone(cl, text, i, j - 1);
      UnitsStep(cl, text, j - 1);
    }
  }

  // ---------------------------------------------------------------------------
  // Strong boundaries
  // ---------------------------------------------------------------------------

  /** A sentence end at `i`: strong punctuation, or a full stop with no digit behind it. */
  predicate StrongAt(cl: Classes, text: string, i: nat)
    requires i < |text|
  {
    Strong(text[i]) || (text[i] == '.' && (i + 1 == |text| || !cl.digit(text[i + 1])))
  }

  predicate HasStrong(cl: Classes, text: string) {
    exists i :: 0 <= i < |text| && StrongAt(cl, text, i)
  }

  function RunEnd(text: string, i: nat, p: char -> bool): (e: nat)
    requires i <= |text|
    ensures i <= e <= |text|
    ensures forall k :: i <= k < e ==> p(text[k])
    ensures e < |text| ==> !p(text[e])
    decreases |text| - i
  {
    if i < |text| && p(text[i]) then RunEnd(text, i + 1, p) else i
  }

  /** Where the strong pattern ends when it matches at `i`; a full stop run gives up one stop in front of a digit. */
  function StrongMatch(cl: Classes, text: string, i: nat): (m: Option<nat>)
    requires i < |text|
    ensures m.Some? ==> i < m.value <= |text|
  {
    if Strong(text[i]) then Some(RunEnd(text, i, Strong))
    else if text[i] != '.' then None
    else
      var e := RunEnd(text, i, c => c == '.');
      if e == |text| || !cl.digit(text[e]) then Some(e)
      else if i + 1 < e then Some(e - 1)
      else None
  }

  /** The end of the leftmost match from `i` on. */
  function StrongSearch(cl: Classes, text: string, i: nat): (m: Option<nat>)
    requires i <= |text|
    ensures m.Some? ==> i < m.value <= |text|
    decreases |text| - i
  {
    if i == |text| then None
    else if StrongMatch(cl, text, i).Some? then StrongMatch(cl, text, i)
    else StrongSearch(cl, text, i + 1)
  }

  function StrongEnd(cl: Classes, text: string): (m: Option<nat>)
    ensures m.Some? ==> 0 < m.value <= |text|
  {
    var m := StrongSearch(cl, text, 0);
    if m.None? then None else Some(RunEnd(text, m.value, Closer))
  }

  lemma {:induction false} SearchFinds(cl: Classes, text: string, i: nat)
    requires cl.Sane() && i <= |text|
    ensures StrongSearch(cl, text, i).Some? <==> exists k :: i <= k < |text| && StrongAt(cl, text, k)
    decreases |text| - i
  {
    if i < |text| {
      SearchFinds(cl, text, i + 1);
      if StrongMatch(cl, text, i).Some? {
        MatchIsStrong(cl, text, i);
      } else {
        assert !StrongAt(cl, text, i);
      }
    }
  }

  /** A match covers a sentence end. */
  lemma MatchIsStrong(cl: Classes, text: string, i: nat)
    requires cl.Sane() && i < |text| && StrongMatch(cl, text, i).Some?
    ensures exists k :: i <= k < |text| && StrongAt(cl, text, k)
  {
    if Strong(text[i]) {
      assert StrongAt(cl, text, i);
    } else {
      var e := RunEnd(text, i, c => c == '.');
      if e == |text| || !cl.digit(text[e]) {
        assert StrongAt(cl, text, e - 1);
      } else {
        assert StrongAt(cl, text, e - 2);
      }
    }
  }

  /** The strong search fails exactly when the text holds no sentence end. */
  lemma StrongEndFinds(cl: Classes, text: string)
    requires cl.Sane()
    ensures StrongEnd(cl, text).Some? <==> HasStrong(cl, text)
  {
    SearchFinds(cl, text, 0);
  }

  // ---------------------------------------------------------------------------
  // Where a sentence ends
  // ---------------------------------------------------------------------------

  ghost predicate FirstStrong(cl: Classes, text: string, i: nat) {
    && i < |text| && StrongAt(cl, text, i)
    && forall k :: 0 <= k < i ==> !StrongAt(cl, text, k)
  }

  /** From `i` to `m` stand marks of one kind: strong punctuation, or full stops. */
  ghost predicate Marks(text: string, i: nat, m: nat) {
    && i < m <= |text|
    && forall k :: i <= k < m ==> if Strong(text[i]) then Strong(text[k]) else text[k] == '.'
  }

  /** The marks cannot be extended to the right, but a full stop in front of a digit is not one of them. */
  ghost predicate MarksEnd(cl: Classes, text: string, i: nat, m: nat)
    requires i < m <= |text|
  {
    m == |text| ||
    if Strong(text[i]) then !Strong(text[m])
    else if text[m] == '.' then m + 1 < |text| && cl.digit(text[m + 1])
    else !cl.digit(text[m])
  }

  ghost predicate Closers(text: string, m: nat, e: nat) {
    m <= e <= |text| && forall k :: m <= k < e ==> Closer(text[k])
  }

  /** The first sentence of the text ends at `e`: behind its first mark, the marks next to it, and their closers. */
  ghost predicate SentenceEndsAt(cl: Classes, text: string, e: nat) {
    exists i, m :: EndsWith(cl, text, i, m, e)
  }

  ghost predicate EndsWith(cl: Classes, text: string, i: nat, m: nat, e: nat) {
    && FirstStrong(cl, text, i) && Marks(text, i, m) && MarksEnd(cl, text, i, m)
    && Closers(text, m, e) && (e < |text| ==> !Closer(text[e]))
  }

  lemma MatchMarks(cl: Classes, text: string, i: nat)
    requires cl.Sane() && i < |text|
    ensures StrongMatch(cl, text, i).Some? <==> StrongAt(cl, text, i)
    ensures StrongMatch(cl, text, i).Some? ==>
      var m := StrongMatch(cl, text, i).value; Marks(text, i, m) && MarksEnd(cl, text, i, m)
  {
  }

  /** The search finds the first sentence end from `i` on. */
  lemma {:induction false} SearchIsFirst(cl: Classes, text: string, i: nat)
    requires cl.Sane() && i <= |text| && forall k :: 0 <= k < i ==> !StrongAt(cl, text, k)
    requires StrongSearch(cl, text, i).Some?
    ensures exists k :: FirstStrong(cl, text, k) && StrongMatch(cl, text, k) == StrongSearch(cl, text, i)
    decreases |text| - i
  {
    MatchMarks(cl, text, i);
    if StrongMatch(cl, text, i).None? {
      SearchIsFirst(cl, text, i + 1);
    } else {
      assert FirstStrong(cl, text, i);
    }
  }

  /** The strong boundary is where the first sentence ends. */
  lemma StrongEndIsEnd(cl: Classes, text: string)
    requires cl.Sane() && StrongEnd(cl, text).Some?
    ensures SentenceEndsAt(cl, text, StrongEnd(cl, text).value)
  {
    SearchIsFirst(cl, text, 0);
    var i :| FirstStrong(cl, text, i) && StrongMatch(cl, text, i) == StrongSearch(cl, text, 0);
    MatchMarks(cl, text, i);
    assert EndsWith(cl, text, i, StrongMatch(cl, text, i).value, StrongEnd(cl, text).value);
  }

  lemma EndsOnce(cl: Classes, text: string, i: nat, m: nat, e: nat, j: nat, n: nat, f: nat)
    requires cl.Sane() && EndsWith(cl, text, i, m, e) && EndsWith(cl, text, j, n, f)
    ensures i == j && m == n && e == f
  {
    assert i == j;
    assert m == n;
  }

  /** There is one such place if the text holds a sentence end, and the search returns it; otherwise it returns none. */
  lemma StrongEndExactly(cl: Classes, text: string, e: nat)
    requires cl.Sane()
    ensures StrongEnd(cl, text) == Some(e) <==> SentenceEndsAt(cl, text, e)
  {
    if SentenceEndsAt(cl, text, e) {
      var i, m :| EndsWith(cl, text, i, m, e);
      StrongEndFinds(cl, text);
      StrongEndIsEnd(cl, text);
      var j, n :| EndsWith(cl, text, j, n, StrongEnd(cl, text).value);
      EndsOnce(cl, text, i, m, e, j, n, StrongEnd(cl, text).value);
    } else if StrongEnd(cl, text).Some? {
      StrongEndIsEnd(cl, text);
    }
  }

  /** The leftmost match loop, and the closing quotes and brackets behind it. */
  method FindStrong(cl: Classes, text: string) returns (m: Option<nat>)
    ensures m == StrongEnd(cl, text)
    ensures cl.Sane() ==> (m.Some? <==> HasStrong(cl, text)) && (m.Some? ==> SentenceEndsAt(cl, text, m.value))
  {
    if cl.Sane() {
      StrongEndFinds(cl, text);
      if StrongEnd(cl, text).Some? {
        StrongEndIsEnd(cl, text);
      }
    }
    var i: nat := 0;
    while i < |text| && StrongMatch(cl, text, i).None?
      invariant i <= |text|
      invariant StrongSearch(cl, text, 0) == StrongSearch(cl, text, i)
    {
      i := i + 1;
    }
    if i == |text| {
      return None;
    }
    var end := StrongMatch(cl, text, i).value;
    ghost var from := end;
    while end < |text| && Closer(text[end])
      invariant from <= end <= |text|
      invariant RunEnd(text, from, Closer) == RunEnd(text, end, Closer)
    {
      end := end + 1;
    }
    m := Some(end);
  }

  // ---------------------------------------------------------------------------
  // Soft boundaries and wraps
  // ---------------------------------------------------------------------------

  /** A maximal run of `p` characters ends at `e`. */
  predicate RunEndsAt(text: string, e: nat, p: char -> bool) {
    0 < e <= |text| && p(text[e - 1]) && (e == |text| || !p(text[e]))
  }

  function Distance(x: real, y: real): real {
    if x <= y then y - x else x - y
  }

  /** Distance of the prefix up to `e` from the preferred spoken length. */
  function Score(cl: Classes, lim: Limits, text: string, e: nat): real
    requires e <= |text|
  {
    Distance(Units(cl, text[..e]), lim.preferred)
  }

  /** The score is the distance of the spoken length from the preferred one. */
  lemma ScoreIsDistance(cl: Classes, lim: Limits, text: string, e: nat, d: real)
    requires e <= |text|
    ensures 0.0 <= Score(cl, lim, text, e)
    ensures Score(cl, lim, text, e) <= d <==> lim.preferred - d <= Units(cl, text[..e]) <= lim.preferred + d
  {
  }

  /** An admissible place to split: a soft run or, when wrapping, also a white-space run ends there. */
  predicate Candidate(cl: Classes, lim: Limits, text: string, e: nat, wrap: bool) {
    && (RunEndsAt(text, e, Soft) || (wrap && RunEndsAt(text, e, cl.space)))
    && lim.min <= Units(cl, text[..e]) <= lim.max
  }

  /** The best candidate among the first `n` positions, the later one on a tie; 0 if there is none. */
  function Best(cl: Classes, lim: Limits, text: string, n: nat, wrap: bool): (e: nat)
    requires n <= |text|
    ensures e <= n
  {
    if n == 0 then 0
    else
      var b := Best(cl, lim, text, n - 1, wrap);
      var better := b == 0 || Score(cl, lim, text, n) <= Score(cl, lim, text, b);
      if Candidate(cl, lim, text, n, wrap) && better then n else b
  }

  lemma {:induction false} BestIsBest(cl: Classes, lim: Limits, text: string, n: nat, wrap: bool)
    requires n <= |text|
    ensures var e := Best(cl, lim, text, n, wrap);
      && (e == 0 <==> forall k :: 1 <= k <= n ==> !Candidate(cl, lim, text, k, wrap))
      && (e > 0 ==> Candidate(cl, lim, text, e, wrap))
      && (e > 0 ==> forall k :: 1 <= k <= n && Candidate(cl, lim, text, k, wrap) ==>
            || Score(cl, lim, text, e) < Score(cl, lim, text, k)
            || (Score(cl, lim, text, e) == Score(cl, lim, text, k) && k <= e))
    decreases n
  {
    if n > 0 {
      BestIsBest(cl, lim, text, n - 1, wrap);
    }
  }

  method FindBest(cl: Classes, lim: Limits, text: string, wrap: bool) returns (best: nat)
    ensures best == Best(cl, lim, text, |text|, wrap)
  {
    best := 0;
    for e := 1 to |text| + 1
      invariant best == Best(cl, lim, text, e - 1, wrap)
    {
      if Candidate(cl, lim, text, e, wrap) && (best == 0 || Score(cl, lim, text, e) <= Score(cl, lim, text, best)) {
        best := e;
      }
    }
  }

  function SoftEnd(cl: Classes, lim: Limits, text: string): (m: Option<nat>)
    ensures m.Some? ==> 0 < m.value <= |text|
  {
    if Units(cl, text) < lim.preferred then None
    else
      var e := Best(cl, lim, text, |text|, false);
      if e == 0 then None else Some(e)
  }

  method FindSoft(cl: Classes, lim: Limits, text: string) returns (m: Option<nat>)
    ensures m == SoftEnd(cl, lim, text)
  {
    if Units(cl, text) < lim.preferred {
      return None;
    }
    var e := FindBest(cl, lim, text, false);
    m := if e == 0 then None else Some(e);
  }

  /** The first prefix from `i` on that reaches the preferred length, or `limit`. */
  function FirstReaching(cl: Classes, lim: Limits, text: string, i: nat, limit: nat): (e: nat)
    requires 1 <= i <= limit <= |text|
    ensures i <= e <= limit
    decreases limit - i
  {
    if lim.preferred <= Units(cl, text[..i]) || i == limit then i
    else FirstReaching(cl, lim, text, i + 1, limit)
  }

  function WrapLimit(lim: Limits, text: string): (n: nat)
    ensures n <= |text|
  {
    if |text| <= lim.buffer then |text| else lim.buffer
  }

  function WrapEnd(cl: Classes, lim: Limits, text: string): (e: nat)
    requires lim.Valid() && text != []
    ensures 0 < e <= WrapLimit(lim, text)
  {
    var n := WrapLimit(lim, text);
    var e := Best(cl, lim, text[..n], n, true);
    if e > 0 then e else FirstReaching(cl, lim, text, 1, n)
  }

  method FindWrap(cl: Classes, lim: Limits, text: string) returns (e: nat)
    requires lim.Valid() && text != []
    ensures e == WrapEnd(cl, lim, text)
  {
    var limit := WrapLimit(lim, text);
    e := FindBest(cl, lim, text[..limit], true);
    if e > 0 {
      return;
    }
    e := 1;
    while e < limit && Units(cl, text[..e]) < lim.preferred
      invariant 1 <= e <= limit
      invariant FirstReaching(cl, lim, text, 1, limit) == FirstReaching(cl, lim, text, e, limit)
    {
      e := e + 1;
    }
  }

  lemma {:induction false} ReachingLands(cl: Classes, lim: Limits, text: string, i: nat, limit: nat)
    requires 1 <= i <= limit <= |text| && Units(cl, text[..i - 1]) < lim.preferred
    ensures var u := Units(cl, text[..FirstReaching(cl, lim, text, i, limit)]);
      if lim.preferred <= Units(cl, text[..limit]) then lim.preferred <= u < lim.preferred + 1.5
      else FirstReaching(cl, lim, text, i, limit) == limit
    decreases limit - i
  {
    UnitsStep(cl, text, i - 1);
    if Units(cl, text[..i]) < lim.preferred && i < limit {
      ReachingLands(cl, lim, text, i + 1, limit);
    } else {
      UnitsMonotone(cl, text, i, limit);
    }
  }

  /**
   Where a forced wrap lands within the limit: at the admissible candidate nearest to the
   preferred length, the later one on a tie, or else at a prefix that reaches the preferred
   length, less than 1.5 beyond it, or else, when none does, at the limit.
   */
  lemma WrapLands(cl: Classes, lim: Limits, text: string)
    requires lim.Valid() && text != []
    ensures var n, e := if |text| <= lim.buffer then |text| else lim.buffer, WrapEnd(cl, lim, text);
      var u := Units(cl, text[..e]);
      0 < e <= n &&
      if exists k :: 1 <= k <= n && Candidate(cl, lim, text[..n], k, true) then
        && lim.min <= u <= lim.max && Candidate(cl, lim, text[..n], e, true)
        && forall k :: 1 <= k <= n && Candidate(cl, lim, text[..n], k, true) ==>
             || Score(cl, lim, text[..n], e) < Score(cl, lim, text[..n], k)
             || (Score(cl, lim, text[..n], e) == Score(cl, lim, text[..n], k) && k <= e)
      else if lim.preferred <= Units(cl, text[..n]) then lim.preferred <= u < lim.preferred + 1.5
      else e == n && u < lim.preferred
  {
    var n := WrapLimit(lim, text);
    BestIsBest(cl, lim, text[..n], n, true);
    var e := Best(cl, lim, text[..n], n, true);
    if e > 0 {
      assert text[..n][..e] == text[..e];
    } else {
      assert text[..0] == [];
      ReachingLands(cl, lim, text, 1, n);
    }
  }
}
