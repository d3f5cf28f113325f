/**
 Streaming FIR decimation with carried filter state
 (src/star_runtime/speech/audio/input.py:386-422).  Samples and coefficients are reals; a
 block is the mono signal of one capture callback.
 */
module Decimator {
  import opened Collections
  import opened Wrappers

  // ---------------------------------------------------------------------------
  // The whole-signal form
  // ---------------------------------------------------------------------------

  /** The sum of window[|h| - 1 - k] * h[k] over the coefficients from `k` on. */
  function Dot(window: seq<real>, h: seq<real>, k: nat): real
    requires |window| == |h| && k <= |h|
    decreases |h| - k
  {
    if k == |h| then 0.0 else window[|h| - 1 - k] * h[k] + Dot(window, h, k + 1)
  }

  /** Convolution in "valid" mode: one output for every full window. */
  function Convolve(x: seq<real>, h: seq<real>): (y: seq<real>)
    requires 0 < |h| <= |x| + 1
    ensures |y| == |x| + 1 - |h|
  {
    seq(|x| + 1 - |h|, i requires 0 <= i < |x| + 1 - |h| => Dot(x[i..i + |h|], h, 0))
  }

  /** The library's "valid" mode takes the longer operand as the signal. */
  function ConvolveValid(x: seq<real>, h: seq<real>): (y: seq<real>)
    requires x != [] && h != []
    ensures |y| == if |h| <= |x| then |x| + 1 - |h| else |h| + 1 - |x|
  {
    if |h| <= |x| then Convolve(x, h) else Convolve(h, x)
  }

  /** Every `factor`-th element, starting with the first. */
  function Every(y: seq<real>, factor: nat): seq<real>
    requires 0 < factor
    decreases |y|
  {
    if y == [] then [] else [y[0]] + Every(if |y| <= factor then [] else y[factor..], factor)
  }

  lemma {:induction false} EveryAt(y: seq<real>, factor: nat, i: nat)
    requires 0 < factor && i * factor < |y|
    ensures i < |Every(y, factor)| && Every(y, factor)[i] == y[i * factor]
    decreases i
  {
    if i > 0 {
      assert i * factor == factor + (i - 1) * factor;
      assert 0 <= (i - 1) * factor;
      EveryAt(y[factor..], factor, i - 1);
    }
  }

  lemma {:induction false} EveryCount(y: seq<real>, factor: nat, n: nat)
    requires 0 < factor && |y| == n * factor
    ensures |Every(y, factor)| == n
    decreases n
  {
    if n > 0 {
      assert n * factor == factor + (n - 1) * factor;
      assert 0 <= (n - 1) * factor;
      EveryCount(if |y| <= factor then [] else y[factor..], factor, n - 1);
    }
  }

  lemma {:induction false} EveryConcat(a: seq<real>, b: seq<real>, factor: nat, n: nat)
    requires 0 < factor && |a| == n * factor
    ensures Every(a + b, factor) == Every(a, factor) + Every(b, factor)
    decreases n
  {
    if n == 0 {
      assert a + b == b;
    } else {
      assert n * factor == factor + (n - 1) * factor;
      assert 0 <= (n - 1) * factor;
      assert (a + b)[factor..] == a[factor..] + b;
      EveryConcat(a[factor..], b, factor, n - 1);
      assert |a + b| <= factor ==> a[factor..] + b == [];
    }
  }

  function Zeros(n: nat): seq<real> {
    seq(n, _ => 0.0)
  }

  /** Filter the zero-prefixed signal, then keep every `factor`-th sample. */
  function Whole(x: seq<real>, h: seq<real>, factor: nat): seq<real>
    requires 0 < |h| && 0 < factor
  {
    Every(Convolve(Zeros(|h| - 1) + x, h), factor)
  }

  /** The last |h| - 1 samples: what the next block's first windows reach back to. */
  function Tail(x: seq<real>, h: seq<real>): (t: seq<real>)
    requires 0 < |h| <= |x| + 1
    ensures |t| == |h| - 1
  {
    x[|x| - (|h| - 1)..]
  }

  lemma ConvolveConcat(x: seq<real>, y: seq<real>, h: seq<real>)
    requires 0 < |h| <= |x| + 1
    ensures Convolve(x + y, h) == Convolve(x, h) + Convolve(Tail(x, h) + y, h)
    ensures Tail(x + y, h) == Tail(Tail(x, h) + y, h)
  {
    var n, k := |x| + 1 - |h|, |h|;
    var left, right := Convolve(x + y, h), Convolve(x, h) + Convolve(Tail(x, h) + y, h);
    forall i | 0 <= i < |left|
      ensures left[i] == right[i]
    {
      if i < n {
        assert (x + y)[i..i + k] == x[i..i + k];
      } else {
        assert (x + y)[i..i + k] == (Tail(x, h) + y)[i - n..i - n + k];
      }
    }
  }

  // ---------------------------------------------------------------------------
  // The converter
  // ---------------------------------------------------------------------------

  datatype Block = Block(samples: seq<real>, rate: nat, sequence: int)

  datatype Converted = Samples(out: seq<real>) | Unavailable

  /** The carried state of the converter. */
  datatype Carry = Carry(filterState: seq<real>, last: Option<int>)

  /** A block that does not follow the last one starts from silence. */
  function AfterGap(carry: Carry, b: Block, h: seq<real>): seq<real>
    requires 1 < |h|
  {
    if carry.last.Some? && b.sequence != carry.last.value + 1 then Zeros(|h| - 1) else carry.filterState
  }

  function NextCarry(carry: Carry, b: Block, h: seq<real>, rate: nat): Carry
    requires 1 < |h| && 0 < rate && |carry.filterState| == |h| - 1
  {
    var state := AfterGap(carry, b, h);
    Carry(if b.rate == rate || b.rate % rate != 0 then state else Tail(state + b.samples, h), Some(b.sequence))
  }

  function Output(carry: Carry, b: Block, h: seq<real>, rate: nat): Converted
    requires 1 < |h| && 0 < rate && |carry.filterState| == |h| - 1 && 0 < b.rate
  {
    if b.rate == rate then Samples(b.samples)
    else if b.rate % rate != 0 then Unavailable
    else Samples(Every(ConvolveValid(AfterGap(carry, b, h) + b.samples, h), Factor(b.rate, rate)))
  }

  /** How many captured samples make one pipeline sample. */
  function Factor(captured: nat, rate: nat): (f: nat)
    requires 0 < rate && 0 < captured && captured % rate == 0
    ensures 0 < f && f * rate == captured
  {
    captured / rate
  }

  class StreamConverter {
    const rate: nat
    const h: seq<real>
    var filterState: seq<real>
    var last: Option<int>

    ghost predicate Valid()
      reads this
    {
      0 < rate && 1 < |h| && |filterState| == |h| - 1
    }

    function View(): Carry
      reads this
    {
      Carry(filterState, last)
    }

    constructor (rate: nat, h: seq<real>)
      requires 0 < rate && 1 < |h|
      ensures Valid() && this.rate == rate && this.h == h && View() == Carry(Zeros(|h| - 1), None)
    {
      this.rate, this.h := rate, h;
      filterState, last := Zeros(|h| - 1), None;
    }

    method Convert(b: Block) returns (r: Converted)
      requires Valid() && 0 < b.rate
      modifies this
      ensures Valid() && r == Output(old(View()), b, h, rate) && View() == NextCarry(old(View()), b, h, rate)
      ensures b.rate == rate ==> r == Samples(b.samples)
      ensures r.Unavailable? <==> b.rate % rate != 0
      ensures last == Some(b.sequence)
    {
      Divides(1, rate);
      if last.Some? && b.sequence != last.value + 1 {
        filterState := Zeros(|h| - 1);
      }
      last := Some(b.sequence);
      if b.rate == rate {
        return Samples(b.samples);
      }
      if b.rate % rate != 0 {
        return Unavailable;
      }
      var factor := b.rate / rate;
      var combined := filterState + b.samples;
      var filtered := ConvolveValid(combined, h);
      filterState := combined[|combined| - (|h| - 1)..];
      r := Samples(Every(filtered, Factor(b.rate, rate)));
    }

    /** An outage drops the queue and starts over. */
    method Drain()
      requires Valid()
      modifies this
      ensures Valid() && View() == Carry(Zeros(|h| - 1), None)
    {
      filterState := Zeros(|h| - 1);
      last := None;
    }
  }

  /** An empty block is not harmless: the convolution swaps its operands and puts out samples of its own. */
  lemma EmptyBlockEmits(carry: Carry, b: Block, h: seq<real>, rate: nat)
    requires 1 < |h| && 0 < rate && |carry.filterState| == |h| - 1
    requires 0 < b.rate && b.rate != rate && b.rate % rate == 0 && b.samples == []
    ensures var r := Output(carry, b, h, rate); r.Samples? && r.out != []
  {
    assert |ConvolveValid(AfterGap(carry, b, h) + b.samples, h)| == 2;
  }

  // ---------------------------------------------------------------------------
  // Streams of blocks
  // ---------------------------------------------------------------------------

  predicate Rated(bs: seq<Block>) {
    forall i :: 0 <= i < |bs| ==> 0 < bs[i].rate
  }

  /** Everything the converter puts out for a stream of blocks. */
  function Stream(carry: Carry, bs: seq<Block>, h: seq<real>, rate: nat): seq<real>
    requires 1 < |h| && 0 < rate && |carry.filterState| == |h| - 1
    requires Rated(bs)
    decreases |bs|
  {
    if bs == [] then []
    else Emitted(Output(carry, bs[0], h, rate)) + Stream(NextCarry(carry, bs[0], h, rate), bs[1..], h, rate)
  }

  function Emitted(r: Converted): seq<real> {
    if r.Samples? then r.out else []
  }

  function Signal(bs: seq<Block>): seq<real> {
    if bs == [] then [] else bs[0].samples + Signal(bs[1..])
  }

  /** Blocks as the capture callback delivers them: one rate, not empty, whole multiples of the rate factor. */
  ghost predicate Regular(bs: seq<Block>, rate: nat, factor: nat) {
    && 0 < rate && 1 < factor
    && forall b :: b in bs ==> b.rate == factor * rate && b.samples != [] && |b.samples| % factor == 0
  }

  ghost predicate Consecutive(bs: seq<Block>) {
    forall i, j :: 0 <= i < |bs| && j == i + 1 < |bs| ==> bs[j].sequence == bs[i].sequence + 1
  }

  lemma Divides(q: nat, d: nat)
    requires 0 < d
    ensures (q * d) % d == 0 && (q * d) / d == q
  {
    var k, r := (q * d) / d, (q * d) % d;
    assert q * d == k * d + r;
    assert (q - k) * d == r;
    FarApart(q - k, d);
  }

  lemma RateFactor(factor: nat, rate: nat)
    requires 0 < rate && 1 < factor
    ensures rate < factor * rate && (factor * rate) % rate == 0 && Factor(factor * rate, rate) == factor
  {
    Divides(factor, rate);
    assert factor * rate == rate + (factor - 1) * rate;
    assert (factor - 1) * rate >= rate;
  }

  lemma EveryBlocks(a: seq<real>, b: seq<real>, factor: nat)
    requires 0 < factor && |a| % factor == 0
    ensures Every(a + b, factor) == Every(a, factor) + Every(b, factor)
  {
    assert |a| == (|a| / factor) * factor;
    EveryConcat(a, b, factor, |a| / factor);
  }

  /** From any carried state: the blocks' outputs are those of their concatenation behind that state. */
  lemma {:induction false} StreamFrom(carry: Carry, bs: seq<Block>, h: seq<real>, rate: nat, factor: nat)
    requires 1 < |h| && |carry.filterState| == |h| - 1
    requires Regular(bs, rate, factor) && Consecutive(bs)
    requires bs != [] && carry.last.Some? ==> bs[0].sequence == carry.last.value + 1
    requires Rated(bs)
    ensures Stream(carry, bs, h, rate) == Every(Convolve(carry.filterState + Signal(bs), h), factor)
    decreases |bs|
  {
    if bs == [] {
      assert carry.filterState + [] == carry.filterState && Convolve(carry.filterState, h) == [];
    } else {
      RateFactor(factor, rate);
      assert bs[0] in bs;
      var next := NextCarry(carry, bs[0], h, rate);
      Shorter(bs, rate, factor);
      StreamFrom(next, bs[1..], h, rate, factor);
      FirstBlock(carry.filterState, bs[0].samples, Signal(bs[1..]), h, factor);
    }
  }

  lemma Shorter(bs: seq<Block>, rate: nat, factor: nat)
    requires bs != [] && Regular(bs, rate, factor) && Consecutive(bs)
    ensures Regular(bs[1..], rate, factor) && Consecutive(bs[1..])
    ensures |bs| > 1 ==> bs[1..][0].sequence == bs[0].sequence + 1
  {
    assert |bs| > 1 ==> bs[1].sequence == bs[0].sequence + 1;
    forall i, j | 0 <= i < |bs| - 1 && j == i + 1 < |bs| - 1
      ensures bs[1..][j].sequence == bs[1..][i].sequence + 1
    {
      assert bs[j + 1].sequence == bs[i + 1].sequence + 1;
    }
  }

  lemma FirstBlock(s: seq<real>, x: seq<real>, y: seq<real>, h: seq<real>, factor: nat)
    requires 1 < |h| && |s| == |h| - 1 && 0 < factor && |x| % factor == 0
    ensures Every(Convolve(s + (x + y), h), factor)
            == Every(Convolve(s + x, h), factor) + Every(Convolve(Tail(s + x, h) + y, h), factor)
  {
    assert s + (x + y) == (s + x) + y;
    ConvolveConcat(s + x, y, h);
    EveryBlocks(Convolve(s + x, h), Convolve(Tail(s + x, h) + y, h), factor);
  }

  /**
   Streaming equals whole-signal decimation, for every way of cutting the signal into blocks
   whose lengths are multiples of the rate factor, however short or long against the filter.
   */
  lemma StreamingIsWhole(bs: seq<Block>, h: seq<real>, rate: nat, factor: nat)
    requires 1 < |h| && Regular(bs, rate, factor) && Consecutive(bs)
    requires Rated(bs)
    ensures Stream(Carry(Zeros(|h| - 1), None), bs, h, rate) == Whole(Signal(bs), h, factor)
  {
    StreamFrom(Carry(Zeros(|h| - 1), None), bs, h, rate, factor);
  }

  lemma Uncons<T>(xs: seq<T>, ys: seq<T>)
    requires xs != []
    ensures xs == [xs[0]] + xs[1..] && xs + ys == [xs[0]] + (xs[1..] + ys)
  {
  }

  lemma StreamCons(carry: Carry, b: Block, bs: seq<Block>, h: seq<real>, rate: nat)
    requires 1 < |h| && 0 < rate && |carry.filterState| == |h| - 1
    requires 0 < b.rate && Rated(bs) && Rated([b] + bs)
    ensures Stream(carry, [b] + bs, h, rate)
        == Emitted(Output(carry, b, h, rate)) + Stream(NextCarry(carry, b, h, rate), bs, h, rate)
  {
    assert ([b] + bs)[1..] == bs;
  }

  lemma {:induction false} StreamConcat(carry: Carry, front: seq<Block>, back: seq<Block>, h: seq<real>, rate: nat)
    returns (mid: Carry)
    requires 1 < |h| && 0 < rate && |carry.filterState| == |h| - 1
    requires Rated(front) && Rated(back) && Rated(front + back)
    ensures |mid.filterState| == |h| - 1
    ensures mid.last == if front == [] then carry.last else Some(front[|front| - 1].sequence)
    ensures Stream(carry, front + back, h, rate) == Stream(carry, front, h, rate) + Stream(mid, back, h, rate)
    decreases |front|
  {
    if front == [] {
      assert front + back == back;
      assert [] + Stream(carry, back, h, rate) == Stream(carry, back, h, rate);
      mid := carry;
    } else {
      var first, tail := front[0], front[1..];
      var next := NextCarry(carry, first, h, rate);
      mid := StreamConcat(next, tail, back, h, rate);
      Uncons(front, back);
      StreamCons(carry, first, tail, h, rate);
      StreamCons(carry, first, tail + back, h, rate);
      Regroup(Emitted(Output(carry, first, h, rate)), Stream(next, tail, h, rate), Stream(mid, back, h, rate));
    }
  }

  /** Runs of consecutive blocks with a gap in the sequence numbers between one run and the next. */
  ghost predicate GapsBetween(runs: seq<seq<Block>>) {
    && (forall r :: r in runs ==> r != [] && Consecutive(r))
    && (forall i, j :: 0 <= i < |runs| && j == i + 1 < |runs| && runs[i] != [] && runs[j] != [] ==>
          runs[j][0].sequence != runs[i][|runs[i]| - 1].sequence + 1)
  }

  function Flatten<T>(xss: seq<seq<T>>): seq<T> {
    if xss == [] then [] else xss[0] + Flatten(xss[1..])
  }

  ghost function WholeRuns(runs: seq<seq<Block>>, h: seq<real>, factor: nat): seq<real>
    requires 1 < |h| && 0 < factor
  {
    if runs == [] then [] else Whole(Signal(runs[0]), h, factor) + WholeRuns(runs[1..], h, factor)
  }

  /** A first block that does not follow the carried sequence number starts from silence. */
  lemma GapForgets(carry: Carry, bs: seq<Block>, h: seq<real>, rate: nat)
    requires 1 < |h| && 0 < rate && |carry.filterState| == |h| - 1
    requires Rated(bs)
    requires bs != [] && carry.last.Some? && bs[0].sequence != carry.last.value + 1
    ensures Stream(carry, bs, h, rate) == Stream(Carry(Zeros(|h| - 1), None), bs, h, rate)
  {
  }

  lemma FewerRuns(runs: seq<seq<Block>>, rate: nat, factor: nat)
    requires runs != [] && GapsBetween(runs) && forall r :: r in runs ==> Regular(r, rate, factor)
    ensures GapsBetween(runs[1..]) && Regular(runs[0], rate, factor) && Consecutive(runs[0])
    ensures forall r :: r in runs[1..] ==> Regular(r, rate, factor)
    ensures |runs| > 1 ==> runs[1] != [] && Flatten(runs[1..]) != [] && Flatten(runs[1..])[0] == runs[1][0]
    ensures |runs| > 1 ==> runs[1][0].sequence != runs[0][|runs[0]| - 1].sequence + 1
  {
    assert runs[0] in runs;
    var rest: seq<seq<Block>> := runs[1..];
    forall i, j | 0 <= i < |rest| && j == i + 1 < |rest| && rest[i] != [] && rest[j] != []
      ensures rest[j][0].sequence != rest[i][|rest[i]| - 1].sequence + 1
    {
      assert rest[i] == runs[i + 1] && rest[j] == runs[j + 1];
    }
    forall r | r in rest
      ensures r != [] && Consecutive(r)
    {
      assert r in runs;
    }
    assert |runs| > 1 ==> runs[1] in runs && rest[0] == runs[1];
  }

  /** Each gap in the sequence numbers starts an independent whole-signal run. */
  lemma {:induction false} GapsStartOver(runs: seq<seq<Block>>, h: seq<real>, rate: nat, factor: nat)
    requires 1 < |h| && 0 < rate && 1 < factor && GapsBetween(runs)
    requires forall r :: r in runs ==> Regular(r, rate, factor)
    requires forall b :: b in Flatten(runs) ==> 0 < b.rate
    ensures Stream(Carry(Zeros(|h| - 1), None), Flatten(runs), h, rate) == WholeRuns(runs, h, factor)
    decreases |runs|
  {
    if runs != [] {
      var silent := Carry(Zeros(|h| - 1), None);
      FewerRuns(runs, rate, factor);
      GapsStartOver(runs[1..], h, rate, factor);
      StreamingIsWhole(runs[0], h, rate, factor);
      var mid := StreamConcat(silent, runs[0], Flatten(runs[1..]), h, rate);
      if |runs| > 1 {
        GapForgets(mid, Flatten(runs[1..]), h, rate);
      }
    }
  }
}
