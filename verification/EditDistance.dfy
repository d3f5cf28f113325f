/**
 The one-row Levenshtein dynamic program (src/star_runtime/speech/evaluation.py:32-46): it
 returns the length of a shortest script of single-item edits, and that length is a metric.
 */
module EditDistance {
  // ---------------------------------------------------------------------------
  // Scripts
  // ---------------------------------------------------------------------------

  datatype Edit<T> =
    | Insert(at: nat, item: T)
    | Delete(at: nat)
    | Substitute(at: nat, item: T)
  {
    predicate Fits(s: seq<T>) {
      if Insert? then at <= |s| else at < |s|
    }

    function Apply(s: seq<T>): seq<T>
      requires Fits(s)
    {
      match this
      case Insert(i, x) => s[..i] + [x] + s[i..]
      case Delete(i) => s[..i] + s[i + 1..]
      case Substitute(i, x) => s[..i] + [x] + s[i + 1..]
    }
  }

  /** The script `es`, one single-item edit after another, turns `a` into `b`. */
  predicate Edits<T(==)>(a: seq<T>, es: seq<Edit<T>>, b: seq<T>)
    decreases |es|
  {
    if es == [] then a == b
    else es[0].Fits(a) && Edits(es[0].Apply(a), es[1..], b)
  }

  lemma {:induction false} EditsThen<T>(a: seq<T>, es: seq<Edit<T>>, b: seq<T>, fs: seq<Edit<T>>, c: seq<T>)
    requires Edits(a, es, b) && Edits(b, fs, c)
    ensures Edits(a, es + fs, c)
    decreases |es|
  {
    if es == [] {
      assert es + fs == fs;
    } else {
      assert (es + fs)[1..] == es[1..] + fs;
      EditsThen(es[0].Apply(a), es[1..], b, fs, c);
    }
  }

  /** A script for two prefixes does the same with `tail` behind them. */
  lemma {:induction false} EditsInFront<T>(a: seq<T>, es: seq<Edit<T>>, b: seq<T>, tail: seq<T>)
    requires Edits(a, es, b)
    ensures Edits(a + tail, es, b + tail)
    decreases |es|
  {
    if es != [] {
      EditInFront(a, es[0], tail);
      EditsInFront(es[0].Apply(a), es[1..], b, tail);
    }
  }

  lemma EditInFront<T>(a: seq<T>, e: Edit<T>, tail: seq<T>)
    requires e.Fits(a)
    ensures e.Fits(a + tail) && e.Apply(a + tail) == e.Apply(a) + tail
  {
    var i := e.at;
    assert (a + tail)[..i] == a[..i];
    if e.Insert? {
      assert (a + tail)[i..] == a[i..] + tail;
    } else {
      assert (a + tail)[i + 1..] == a[i + 1..] + tail;
    }
  }

  // ---------------------------------------------------------------------------
  // The recurrence
  // ---------------------------------------------------------------------------

  function Cost<T(==)>(x: T, y: T): nat {
    if x == y then 0 else 1
  }

  function Min3(x: nat, y: nat, z: nat): nat {
    if x <= y && x <= z then x else if y <= z then y else z
  }

  function Init<T>(s: seq<T>): seq<T>
    requires s != []
  {
    s[..|s| - 1]
  }

  function Last<T>(s: seq<T>): T
    requires s != []
  {
    s[|s| - 1]
  }

  function Distance<T(==)>(a: seq<T>, b: seq<T>): nat
    decreases |a| + |b|
  {
    if a == [] then |b|
    else if b == [] then |a|
    else Min3(Distance(a, Init(b)) + 1, Distance(Init(a), b) + 1, Distance(Init(a), Init(b)) + Cost(Last(a), Last(b)))
  }

  /** The table entry for the first `i` items of `a` and the first `j` of `b`. */
  ghost function Entry<T>(a: seq<T>, i: nat, b: seq<T>, j: nat): nat
    requires i <= |a| && j <= |b|
  {
    Distance(a[..i], b[..j])
  }

  lemma Cell<T>(a: seq<T>, i: nat, b: seq<T>, j: nat)
    requires 1 <= i <= |a| && 1 <= j <= |b|
    ensures Entry(a, i, b, j) ==
            Min3(Entry(a, i, b, j - 1) + 1, Entry(a, i - 1, b, j) + 1,
                 Entry(a, i - 1, b, j - 1) + Cost(a[i - 1], b[j - 1]))
  {
    assert Init(a[..i]) == a[..i - 1] && Init(b[..j]) == b[..j - 1];
  }

  lemma Edge<T>(a: seq<T>, i: nat, b: seq<T>)
    requires i <= |a|
    ensures Entry(a, i, b, 0) == i
    ensures forall j :: 0 <= j <= |b| ==> Entry(a, 0, b, j) == j
  {
    assert a[..0] == [] && b[..0] == [];
  }

  /** The first entries of row `i` of the table. */
  ghost predicate Row<T>(row: seq<nat>, a: seq<T>, i: nat, b: seq<T>) {
    i <= |a| && |row| <= |b| + 1 && forall j :: 0 <= j < |row| ==> row[j] == Entry(a, i, b, j)
  }

  /** The rolling-row loop computes the recurrence. */
  method Compute<T(==)>(reference: seq<T>, hypothesis: seq<T>) returns (distance: nat)
    ensures distance == Distance(reference, hypothesis)
  {
    var previous: seq<nat> := seq(|hypothesis| + 1, j => j);
    Edge(reference, 0, hypothesis);
    for i := 1 to |reference| + 1
      invariant |previous| == |hypothesis| + 1 && Row(previous, reference, i - 1, hypothesis)
    {
      var current: seq<nat> := [i];
      Edge(reference, i, hypothesis);
      for j := 1 to |hypothesis| + 1
        invariant |current| == j && Row(current, reference, i, hypothesis)
      {
        Cell(reference, i, hypothesis, j);
        current := current + [Min3(
          current[|current| - 1] + 1,
          previous[j] + 1,
          previous[j - 1] + if reference[i - 1] != hypothesis[j - 1] then 1 else 0)];
      }
      previous := current;
    }
    assert reference[..|reference|] == reference && hypothesis[..|hypothesis|] == hypothesis;
    distance := previous[|previous| - 1];
  }

  // ---------------------------------------------------------------------------
  // The distance is attained by a script
  // ---------------------------------------------------------------------------

  lemma {:induction false} DeleteAll<T>(a: seq<T>) returns (es: seq<Edit<T>>)
    ensures Edits(a, es, []) && |es| == |a|
    decreases |a|
  {
    if a == [] {
      return [];
    }
    var rest := DeleteAll(a[1..]);
    es := [Delete(0)] + rest;
    assert es[1..] == rest && es[0].Apply(a) == a[1..];
  }

  lemma {:induction false} InsertAll<T>(b: seq<T>) returns (es: seq<Edit<T>>)
    ensures Edits([], es, b) && |es| == |b|
    decreases |b|
  {
    if b == [] {
      return [];
    }
    var front := InsertAll(Init(b));
    InsertLast(Init(b), Last(b));
    assert Init(b) + [Last(b)] == b;
    EditsThen([], front, Init(b), [Insert(|b| - 1, Last(b))], b);
    es := front + [Insert(|b| - 1, Last(b))];
  }

  lemma InsertLast<T>(s: seq<T>, x: T)
    ensures Edits(s, [Insert(|s|, x)], s + [x])
  {
    var es := [Insert(|s|, x)];
    assert es[1..] == [] && es[0].Apply(s) == s + [x];
  }

  lemma DeleteLast<T>(s: seq<T>)
    requires s != []
    ensures Edits(s, [Delete(|s| - 1)], Init(s))
  {
    var es: seq<Edit<T>> := [Delete(|s| - 1)];
    assert es[1..] == [] && es[0].Apply(s) == Init(s);
  }

  lemma SubstituteLast<T>(s: seq<T>, x: T, y: T)
    ensures Edits(s + [x], [Substitute(|s|, y)], s + [y])
  {
    var es := [Substitute(|s|, y)];
    assert es[1..] == [] && es[0].Apply(s + [x]) == s + [y];
  }

  lemma Unsnoc<T>(s: seq<T>)
    requires s != []
    ensures s == Init(s) + [Last(s)]
  {
  }

  lemma {:induction false} Attained<T>(a: seq<T>, b: seq<T>) returns (es: seq<Edit<T>>)
    ensures Edits(a, es, b) && |es| == Distance(a, b)
    decreases |a| + |b|
  {
    if a == [] {
      es := InsertAll(b);
    } else if b == [] {
      es := DeleteAll(a);
    } else if Distance(a, b) == Distance(a, Init(b)) + 1 {
      var fs := Attained(a, Init(b));
      InsertLast(Init(b), Last(b));
      assert Init(b) + [Last(b)] == b;
      EditsThen(a, fs, Init(b), [Insert(|b| - 1, Last(b))], b);
      es := fs + [Insert(|b| - 1, Last(b))];
    } else if Distance(a, b) == Distance(Init(a), b) + 1 {
      var fs := Attained(Init(a), b);
      DeleteLast(a);
      EditsThen(a, [Delete(|a| - 1)], Init(a), fs, b);
      es := [Delete(|a| - 1)] + fs;
    } else {
      es := AttainedDiagonal(a, b);
    }
  }

  lemma AttainedDiagonal<T>(a: seq<T>, b: seq<T>) returns (es: seq<Edit<T>>)
    requires a != [] && b != []
    ensures Edits(a, es, b) && |es| == Distance(Init(a), Init(b)) + Cost(Last(a), Last(b))
    decreases |a| + |b|, 0
  {
    var fs := Attained(Init(a), Init(b));
    var p, q, x, y := Init(a), Init(b), Last(a), Last(b);
    Unsnoc(a);
    Unsnoc(b);
    EditsInFront(p, fs, q, [x]);
    if x == y {
      es := fs;
    } else {
      SubstituteLast(q, x, y);
      EditsThen(p + [x], fs, q + [x], [Substitute(|q|, y)], q + [y]);
      es := fs + [Substitute(|q|, y)];
    }
  }

  // ---------------------------------------------------------------------------
  // The distance is a metric
  // ---------------------------------------------------------------------------

  lemma {:induction false} Steps<T>(a: seq<T>, b: seq<T>)
    ensures b != [] ==> Distance(a, b) <= Distance(a, Init(b)) + 1
    ensures a != [] ==> Distance(a, b) <= Distance(Init(a), b) + 1
    ensures a != [] && b != [] ==> Distance(a, b) <= Distance(Init(a), Init(b)) + Cost(Last(a), Last(b))
  {
  }

  lemma {:induction false} ZeroIffEqual<T>(a: seq<T>, b: seq<T>)
    ensures Distance(a, b) == 0 <==> a == b
    decreases |a| + |b|
  {
    if a != [] && b != [] {
      ZeroIffEqual(Init(a), Init(b));
      assert a == Init(a) + [Last(a)] && b == Init(b) + [Last(b)];
    }
  }

  lemma {:induction false} Symmetric<T>(a: seq<T>, b: seq<T>)
    ensures Distance(a, b) == Distance(b, a)
    decreases |a| + |b|
  {
    if a != [] && b != [] {
      Symmetric(a, Init(b));
      Symmetric(Init(a), b);
      Symmetric(Init(a), Init(b));
    }
  }

  /** How many items two sequences differ in length is a lower bound. */
  lemma {:induction false} LengthBound<T>(a: seq<T>, b: seq<T>)
    ensures |a| <= |b| + Distance(a, b) && |b| <= |a| + Distance(a, b)
    decreases |a| + |b|
  {
    if a != [] && b != [] {
      LengthBound(a, Init(b));
      LengthBound(Init(a), b);
      LengthBound(Init(a), Init(b));
    }
  }

  lemma {:induction false} Triangle<T>(a: seq<T>, b: seq<T>, c: seq<T>)
    ensures Distance(a, c) <= Distance(a, b) + Distance(b, c)
    decreases |a| + |b| + |c|, 2
  {
    if a == [] {
      LengthBound(b, c);
    } else if c == [] {
      LengthBound(a, b);
    } else if b == [] {
      LengthBound(a, c);
      ThroughNothing(a, c);
    } else if Distance(a, b) == Distance(Init(a), b) + 1 {
      Triangle(Init(a), b, c);
      Steps(a, c);
    } else if Distance(b, c) == Distance(b, Init(c)) + 1 {
      Triangle(a, b, Init(c));
      Steps(a, c);
    } else {
      TriangleOnLast(a, b, c);
    }
  }

  lemma {:induction false} ThroughNothing<T>(a: seq<T>, c: seq<T>)
    ensures Distance(a, c) <= |a| + |c|
    decreases |a|
  {
    if a != [] {
      ThroughNothing(Init(a), c);
      Steps(a, c);
    }
  }

  /** The middle item is inserted or kept by the first half and deleted or kept by the second. */
  lemma TriangleOnLast<T>(a: seq<T>, b: seq<T>, c: seq<T>)
    requires a != [] && b != [] && c != []
    requires Distance(a, b) != Distance(Init(a), b) + 1 && Distance(b, c) != Distance(b, Init(c)) + 1
    ensures Distance(a, c) <= Distance(a, b) + Distance(b, c)
    decreases |a| + |b| + |c|, 1
  {
    if Distance(a, b) == Distance(a, Init(b)) + 1 {
      TriangleOnInserted(a, b, c);
    } else {
      TriangleOnKept(a, b, c);
    }
  }

  lemma TriangleOnInserted<T>(a: seq<T>, b: seq<T>, c: seq<T>)
    requires a != [] && b != [] && c != [] && Distance(a, b) == Distance(a, Init(b)) + 1
    requires Distance(b, c) != Distance(b, Init(c)) + 1
    ensures Distance(a, c) <= Distance(a, b) + Distance(b, c)
    decreases |a| + |b| + |c|, 0
  {
    if Distance(b, c) == Distance(Init(b), c) + 1 {
      Triangle(a, Init(b), c);
    } else {
      Triangle(a, Init(b), Init(c));
      Steps(a, c);
    }
  }

  lemma TriangleOnKept<T>(a: seq<T>, b: seq<T>, c: seq<T>)
    requires a != [] && b != [] && c != []
    requires Distance(a, b) == Distance(Init(a), Init(b)) + Cost(Last(a), Last(b))
    requires Distance(b, c) != Distance(b, Init(c)) + 1
    ensures Distance(a, c) <= Distance(a, b) + Distance(b, c)
    decreases |a| + |b| + |c|, 0
  {
    var a', b', c' := Init(a), Init(b), Init(c);
    Steps(a, c);
    if Distance(b, c) == Distance(b', c) + 1 {
      Triangle(a', b', c);
    } else {
      Triangle(a', b', c');
      assert Distance(b, c) == Distance(b', c') + Cost(Last(b), Last(c));
      assert Cost(Last(a), Last(c)) <= Cost(Last(a), Last(b)) + Cost(Last(b), Last(c));
    }
  }

  // ---------------------------------------------------------------------------
  // No script is shorter
  // ---------------------------------------------------------------------------

  lemma SameLast<T>(a: seq<T>, b: seq<T>)
    requires a != [] && b != [] && Last(a) == Last(b)
    ensures Distance(a, b) <= Distance(Init(a), Init(b))
  {
    Steps(a, b);
  }

  lemma {:induction false} SameTail<T>(a: seq<T>, b: seq<T>, tail: seq<T>)
    ensures Distance(a + tail, b + tail) <= Distance(a, b)
    decreases |tail|
  {
    if tail == [] {
      assert a + tail == a && b + tail == b;
    } else {
      SameTail(a, b, Init(tail));
      assert Init(a + tail) == a + Init(tail) && Init(b + tail) == b + Init(tail);
      SameLast(a + tail, b + tail);
    }
  }

  /** Growing, shrinking or changing the end of `p`, in front of a common tail. */
  lemma EndEdit<T>(p: seq<T>, x: T, y: T, tail: seq<T>)
    ensures Distance(p + tail, (p + [x]) + tail) <= 1
    ensures Distance((p + [x]) + tail, p + tail) <= 1
    ensures Distance((p + [x]) + tail, (p + [y]) + tail) <= 1
  {
    ZeroIffEqual(p, p);
    Steps(p, p + [x]);
    Steps(p + [x], p);
    Steps(p + [x], p + [y]);
    assert Init(p + [x]) == p && Init(p + [y]) == p;
    SameTail(p, p + [x], tail);
    SameTail(p + [x], p, tail);
    SameTail(p + [x], p + [y], tail);
  }

  lemma OneEdit<T>(a: seq<T>, e: Edit<T>)
    requires e.Fits(a)
    ensures Distance(a, e.Apply(a)) <= 1
  {
    var i := e.at;
    if e.Insert? {
      EndEdit(a[..i], e.item, e.item, a[i..]);
      assert a[..i] + a[i..] == a;
    } else {
      EndEdit(a[..i], a[i], if e.Substitute? then e.item else a[i], a[i + 1..]);
      assert (a[..i] + [a[i]]) + a[i + 1..] == a;
    }
  }

  lemma {:induction false} LowerBound<T>(a: seq<T>, es: seq<Edit<T>>, b: seq<T>)
    requires Edits(a, es, b)
    ensures Distance(a, b) <= |es|
    decreases |es|
  {
    if es == [] {
      ZeroIffEqual(a, b);
    } else {
      var m := es[0].Apply(a);
      LowerBound(m, es[1..], b);
      OneEdit(a, es[0]);
      Triangle(a, m, b);
    }
  }

  /** What the loop returns is the length of a shortest script. */
  method ShortestScriptLength<T(==)>(reference: seq<T>, hypothesis: seq<T>) returns (distance: nat)
    ensures exists es :: Edits(reference, es, hypothesis) && |es| == distance
    ensures forall es :: Edits(reference, es, hypothesis) ==> distance <= |es|
  {
    distance := Compute(reference, hypothesis);
    ghost var es := Attained(reference, hypothesis);
    forall fs | Edits(reference, fs, hypothesis)
      ensures distance <= |fs|
    {
      LowerBound(reference, fs, hypothesis);
    }
  }
}
