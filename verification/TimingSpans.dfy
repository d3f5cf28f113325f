/**
 The run-length encoded stamps of the queued samples
 (src/star_runtime/speech/audio/output.py:898-923).
 */
module TimingSpans {
  import opened Collections
  import opened Wrappers
  import opened Control

  datatype Span = Span(count: nat, stamp: Option<ControlStamp>)

  /** `k` samples under one stamp. */
  ghost function Repeat(k: nat, stamp: Option<ControlStamp>): (r: seq<Option<ControlStamp>>)
    ensures |r| == k
  {
    if k == 0 then [] else Repeat(k - 1, stamp) + [stamp]
  }

  /** One stamp per queued sample. */
  ghost function Expand(spans: seq<Span>): seq<Option<ControlStamp>> {
    if spans == [] then [] else Repeat(spans[0].count, spans[0].stamp) + Expand(spans[1..])
  }

  /** A proper run-length encoding: no empty span, no two neighbours alike. */
  ghost predicate Canonical(spans: seq<Span>) {
    spans == [] ||
    (0 < spans[0].count && (1 < |spans| ==> spans[0].stamp != spans[1].stamp) && Canonical(spans[1..]))
  }

  lemma {:induction false} ExpandOne(k: nat, stamp: Option<ControlStamp>)
    ensures Expand([Span(k, stamp)]) == Repeat(k, stamp)
  {
    assert Expand([Span(k, stamp)][1..]) == [];
  }

  lemma {:induction false} ExpandCons(head: Span, tail: seq<Span>)
    ensures Expand([head] + tail) == Repeat(head.count, head.stamp) + Expand(tail)
    ensures Canonical([head] + tail) <==>
            0 < head.count && (tail != [] ==> head.stamp != tail[0].stamp) && Canonical(tail)
  {
    var spans := [head] + tail;
    assert spans[1..] == tail;
    assert 1 < |spans| ==> spans[1] == tail[0];
  }

  lemma {:induction false} RepeatSplit(n: nat, k: nat, stamp: Option<ControlStamp>)
    requires k <= n
    ensures Repeat(n, stamp) == Repeat(k, stamp) + Repeat(n - k, stamp)
    decreases n - k
  {
    if k < n {
      RepeatSplit(n - 1, k, stamp);
      Regroup(Repeat(k, stamp), Repeat(n - 1 - k, stamp), [stamp]);
    } else {
      assert Repeat(n, stamp) + [] == Repeat(n, stamp);
    }
  }

  function Append(spans: seq<Span>, k: nat, stamp: Option<ControlStamp>): seq<Span> {
    var last := |spans| - 1;
    if k == 0 then spans
    else if spans != [] && spans[last].stamp == stamp then spans[..last] + [Span(spans[last].count + k, stamp)]
    else spans + [Span(k, stamp)]
  }

  lemma {:induction false} AppendEncodes(spans: seq<Span>, k: nat, stamp: Option<ControlStamp>)
    requires Canonical(spans)
    ensures Canonical(Append(spans, k, stamp))
    ensures Expand(Append(spans, k, stamp)) == Expand(spans) + Repeat(k, stamp)
    ensures spans != [] ==> Append(spans, k, stamp)[0].stamp == spans[0].stamp
    decreases |spans|
  {
    if spans == [] {
      ExpandOne(k, stamp);
    } else if |spans| == 1 {
      AppendToOne(spans, k, stamp);
    } else {
      var head, tail := spans[0], spans[1..];
      AppendEncodes(tail, k, stamp);
      AppendBehind(spans, k, stamp);
      ExpandCons(head, tail);
      ExpandCons(head, Append(tail, k, stamp));
      assert spans == [head] + tail;
      Regroup(Repeat(head.count, head.stamp), Expand(tail), Repeat(k, stamp));
    }
  }

  lemma AppendBehind(spans: seq<Span>, k: nat, stamp: Option<ControlStamp>)
    requires |spans| > 1
    ensures Append(spans, k, stamp) == [spans[0]] + Append(spans[1..], k, stamp)
  {
  }

  lemma {:induction false} AppendToOne(spans: seq<Span>, k: nat, stamp: Option<ControlStamp>)
    requires Canonical(spans) && |spans| == 1
    ensures Canonical(Append(spans, k, stamp))
    ensures Expand(Append(spans, k, stamp)) == Expand(spans) + Repeat(k, stamp)
  {
    var n, own := spans[0].count, spans[0].stamp;
    assert spans == [Span(n, own)];
    ExpandOne(n, own);
    if k == 0 {
      assert Repeat(n, own) + Repeat(0, stamp) == Repeat(n, own);
    } else if stamp == own {
      ExpandOne(n + k, own);
      RepeatSplit(n + k, n, own);
    } else {
      ExpandCons(Span(n, own), [Span(k, stamp)]);
      ExpandOne(k, stamp);
    }
  }

  /** The distinct scoped stamps of `xs`, in order of first occurrence. */
  ghost function Distinct(xs: seq<Option<ControlStamp>>): seq<ControlStamp> {
    if xs == [] then []
    else Seen(Distinct(xs[..|xs| - 1]), xs[|xs| - 1])
  }

  function Seen(stamps: seq<ControlStamp>, next: Option<ControlStamp>): seq<ControlStamp> {
    if next.Some? && next.value !in stamps then stamps + [next.value] else stamps
  }

  /** `Distinct` lists each scoped stamp once, and by the position of its first sample. */
  lemma {:induction false} DistinctIsFirstOccurrence(xs: seq<Option<ControlStamp>>)
    ensures forall s :: s in Distinct(xs) <==> Some(s) in xs
    ensures forall i, j :: 0 <= i < j < |Distinct(xs)| ==>
              Distinct(xs)[i] != Distinct(xs)[j]
    ensures forall i, j, q :: 0 <= i < j < |Distinct(xs)| && 0 <= q < |xs| && xs[q] == Some(Distinct(xs)[j]) ==>
              Some(Distinct(xs)[i]) in xs[..q]
    decreases |xs|
  {
    if xs != [] {
      var n := |xs| - 1;
      var front := xs[..n];
      DistinctIsFirstOccurrence(front);
      assert xs == front + [xs[n]];
      forall i, j, q | 0 <= i < j < |Distinct(xs)| && 0 <= q < |xs| && xs[q] == Some(Distinct(xs)[j])
        ensures Some(Distinct(xs)[i]) in xs[..q]
      {
        assert Distinct(xs)[i] == Distinct(front)[i];
        if q < n {
          assert Distinct(xs)[j] in Distinct(front);
          assert front[q] == xs[q] && front[..q] == xs[..q];
        } else {
          assert xs[..q] == front;
        }
      }
    }
  }

  lemma {:induction false} DistinctRun(xs: seq<Option<ControlStamp>>, k: nat, stamp: Option<ControlStamp>)
    requires 0 < k
    ensures Distinct(xs + Repeat(k, stamp)) == Seen(Distinct(xs), stamp)
    decreases k
  {
    var ys := xs + Repeat(k, stamp);
    assert ys == xs + Repeat(k - 1, stamp) + [stamp];
    assert ys[..|ys| - 1] == xs + Repeat(k - 1, stamp);
    if k > 1 {
      DistinctRun(xs, k - 1, stamp);
    } else {
      assert xs + Repeat(0, stamp) == xs;
    }
  }

  /** What is left of the spans after taking `k` samples from the first one. */
  function TakeHead(spans: seq<Span>, k: nat): seq<Span>
    requires spans != [] && k <= spans[0].count
  {
    if k < spans[0].count then [Span(spans[0].count - k, spans[0].stamp)] + spans[1..] else spans[1..]
  }

  /** A shorter head encodes the rest of what a longer one did. */
  lemma ShorterHead(n: nat, stamp: Option<ControlStamp>, tail: seq<Span>, k: nat)
    requires Canonical([Span(n, stamp)] + tail) && k < n
    ensures Canonical([Span(n - k, stamp)] + tail)
    ensures Repeat(n, stamp) + Expand(tail) == Repeat(k, stamp) + Expand([Span(n - k, stamp)] + tail)
  {
    ExpandCons(Span(n, stamp), tail);
    ExpandCons(Span(n - k, stamp), tail);
    RepeatSplit(n, k, stamp);
    Regroup(Repeat(k, stamp), Repeat(n - k, stamp), Expand(tail));
  }

  lemma TakeHeadEncodes(spans: seq<Span>, k: nat)
    requires Canonical(spans) && spans != [] && k <= spans[0].count
    ensures Canonical(TakeHead(spans, k))
    ensures Expand(spans) == Repeat(k, spans[0].stamp) + Expand(TakeHead(spans, k))
  {
    assert spans == [Span(spans[0].count, spans[0].stamp)] + spans[1..];
    if k < spans[0].count {
      ShorterHead(spans[0].count, spans[0].stamp, spans[1..], k);
    }
  }

  /** How far the consumed samples `eaten` and the remaining spans account for `all`. */
  ghost predicate Accounts(all: seq<Option<ControlStamp>>, eaten: seq<Option<ControlStamp>>, rest: seq<Span>) {
    Canonical(rest) && all == eaten + Expand(rest)
  }

  lemma AccountsAfter(all: seq<Option<ControlStamp>>, eaten: seq<Option<ControlStamp>>, rest: seq<Span>, k: nat)
    requires Accounts(all, eaten, rest) && rest != [] && 0 < k <= rest[0].count
    ensures Accounts(all, eaten + Repeat(k, rest[0].stamp), TakeHead(rest, k))
    ensures Distinct(eaten + Repeat(k, rest[0].stamp)) == Seen(Distinct(eaten), rest[0].stamp)
  {
    TakeHeadEncodes(rest, k);
    DistinctRun(eaten, k, rest[0].stamp);
    Regroup(eaten, Repeat(k, rest[0].stamp), Expand(TakeHead(rest, k)));
  }

  lemma AccountsAll(all: seq<Option<ControlStamp>>, eaten: seq<Option<ControlStamp>>, rest: seq<Span>, count: nat)
    requires Accounts(all, eaten, rest) && |eaten| <= count <= |all| && (|eaten| == count || rest == [])
    ensures eaten == all[..count] && Expand(rest) == all[count..]
  {
  }

  /** Consumes the spans of `count` samples and reports their distinct scoped stamps. */
  method Consume(spans: seq<Span>, count: nat) returns (rest: seq<Span>, stamps: seq<ControlStamp>)
    requires Canonical(spans) && count <= |Expand(spans)|
    ensures Canonical(rest)
    ensures Expand(rest) == Expand(spans)[count..]
    ensures stamps == Distinct(Expand(spans)[..count])
  {
    var remaining: nat := count;
    rest, stamps := spans, [];
    ghost var all, eaten := Expand(spans), [];
    while remaining > 0 && rest != []
      invariant remaining <= count && |eaten| == count - remaining
      invariant Accounts(all, eaten, rest)
      invariant stamps == Distinct(eaten)
      decreases remaining
    {
      var head := rest[0];
      var consumed := if remaining <= head.count then remaining else head.count;
      AccountsAfter(all, eaten, rest, consumed);
      eaten := eaten + Repeat(consumed, head.stamp);
      remaining := remaining - consumed;
      rest := TakeHead(rest, consumed);
      if head.stamp.Some? && head.stamp.value !in stamps {
        stamps := stamps + [head.stamp.value];
      }
    }
    AccountsAll(all, eaten, rest, count);
  }
}
