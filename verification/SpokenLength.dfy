/**
 The estimated spoken length (src/star_runtime/speech/tts/scheduler.py:195-201) in terms of
 syllables and words: one for every syllabic character, one and a half for every word.
 */
module SpokenLength {
  import opened SpeechText

  predicate Letter(cl: Classes, c: char) {
    cl.word(c) && !Syllabic(c)
  }

  /** Letters, one word. */
  ghost predicate Word(cl: Classes, text: string) {
    text != [] && forall i :: 0 <= i < |text| ==> Letter(cl, text[i])
  }

  /** Not part of any word: no letter, no syllable, and no joiner of words. */
  predicate Blank(cl: Classes, c: char) {
    !Syllabic(c) && !cl.word(c) && !Joiner(c)
  }

  lemma Grown(cl: Classes, a: string, c: char)
    ensures Units(cl, a + [c]) == Units(cl, a) + Added(cl, ScanOf(cl, a), c)
    ensures ScanOf(cl, a + [c]) == Next(cl, ScanOf(cl, a), c)
  {
    assert (a + [c])[..|a|] == a;
  }

  /** Behind a place where no word is open the length starts afresh. */
  lemma {:induction false} StartsAfresh(cl: Classes, a: string, b: string)
    requires ScanOf(cl, a) == Outside
    ensures Units(cl, a + b) == Units(cl, a) + Units(cl, b) && ScanOf(cl, a + b) == ScanOf(cl, b)
    decreases |b|
  {
    if b == [] {
      assert a + b == a;
    } else {
      var front, last := b[..|b| - 1], b[|b| - 1];
      StartsAfresh(cl, a, front);
      Grown(cl, a + front, last);
      Grown(cl, front, last);
      assert a + b == (a + front) + [last] && b == front + [last];
    }
  }

  /** A syllable counts one and ends any word. */
  lemma SyllableCounts(cl: Classes, a: string, c: char, b: string)
    requires Syllabic(c)
    ensures Units(cl, a + [c] + b) == Units(cl, a) + 1.0 + Units(cl, b)
  {
    Grown(cl, a, c);
    StartsAfresh(cl, a + [c], b);
  }

  /** A blank counts nothing and ends any word. */
  lemma BlankSeparates(cl: Classes, a: string, c: char, b: string)
    requires Blank(cl, c)
    ensures Units(cl, a + [c] + b) == Units(cl, a) + Units(cl, b)
  {
    Grown(cl, a, c);
    StartsAfresh(cl, a + [c], b);
  }

  /** A word is open exactly behind a letter. */
  lemma OpenBehindLetter(cl: Classes, a: string)
    ensures ScanOf(cl, a) == Inside <==> a != [] && Letter(cl, a[|a| - 1])
  {
  }

  lemma {:induction false} WordGoesOn(cl: Classes, a: string, w: string)
    requires Word(cl, w)
    ensures Units(cl, a + w) == Units(cl, a) + (if ScanOf(cl, a) == Outside then 1.5 else 0.0)
    decreases |w|
  {
    var front, last := w[..|w| - 1], w[|w| - 1];
    Grown(cl, a + front, last);
    assert a + w == (a + front) + [last];
    if front == [] {
      assert a + front == a;
    } else {
      WordGoesOn(cl, a, front);
      OpenBehindLetter(cl, a + front);
      assert (a + front)[|a + front| - 1] == w[|front| - 1];
    }
  }

  /** A word counts one and a half, however long it is. */
  lemma WordCounts(cl: Classes, w: string)
    requires Word(cl, w)
    ensures Units(cl, w) == 1.5
  {
    WordGoesOn(cl, [], w);
    assert [] + w == w;
  }

  /** A joiner behind a letter and in front of a word makes one word of both. */
  lemma JoinedWordsAreOne(cl: Classes, a: string, j: char, w: string)
    requires a != [] && Letter(cl, a[|a| - 1]) && Word(cl, w) && Joiner(j) && !cl.word(j)
    ensures Units(cl, a + [j] + w) == Units(cl, a)
  {
    OpenBehindLetter(cl, a);
    Grown(cl, a, j);
    WordGoesOn(cl, a + [j], w);
  }

  /** A joiner that does not stand behind a letter separates. */
  lemma LooseJoinerSeparates(cl: Classes, a: string, j: char, b: string)
    requires (a == [] || !Letter(cl, a[|a| - 1])) && Joiner(j) && !cl.word(j)
    ensures Units(cl, a + [j] + b) == Units(cl, a) + Units(cl, b)
  {
    OpenBehindLetter(cl, a);
    Grown(cl, a, j);
    StartsAfresh(cl, a + [j], b);
  }
}
