/**
 What the streaming decimator computes (src/star_runtime/speech/audio/input.py:386-422), without
 reference to how: its response to a unit impulse is the filter, it is linear, and every sample
 it puts out is the textbook sum over the filter's coefficients.
 */
module FilterResponse {
  import opened Collections
  import opened Wrappers
  import opened Decimator

  // ---------------------------------------------------------------------------
  // The textbook sum
  // ---------------------------------------------------------------------------

  ghost function Sum(n: nat, f: nat -> real): real {
    if n == 0 then 0.0 else Sum(n - 1, f) + f(n - 1)
  }

  /** The signal at position `j`, silence outside. */
  function At(x: seq<real>, j: int): real {
    if 0 <= j < |x| then x[j] else 0.0
  }

  ghost function Product(x: seq<real>, h: seq<real>, j: int): nat -> real {
    (k: nat) => if k < |h| then h[k] * At(x, j - k) else 0.0
  }

  /** The sum of h[k] * x[j - k] over all coefficients. */
  ghost function Filtered(x: seq<real>, h: seq<real>, j: int): real {
    Sum(|h|, Product(x, h, j))
  }

  /** `w` is the stretch of `x` that ends at `j`, as long as the filter. */
  ghost predicate EndsAt(w: seq<real>, x: seq<real>, h: seq<real>, j: int) {
    |w| == |h| && forall q :: 0 <= q < |h| ==> w[q] == At(x, j + q - (|h| - 1))
  }

  lemma OneProduct(w: seq<real>, x: seq<real>, h: seq<real>, j: int, k: nat)
    requires EndsAt(w, x, h, j) && k < |h|
    ensures Product(x, h, j)(k) == w[|h| - 1 - k] * h[k]
  {
    assert w[|h| - 1 - k] == At(x, j - k);
  }

  lemma {:induction false} DotIsSum(w: seq<real>, x: seq<real>, h: seq<real>, j: int, k: nat)
    requires EndsAt(w, x, h, j) && k <= |h|
    ensures Sum(k, Product(x, h, j)) + Dot(w, h, k) == Dot(w, h, 0)
    decreases k
  {
    if k > 0 {
      DotIsSum(w, x, h, j, k - 1);
      OneProduct(w, x, h, j, k - 1);
    }
  }

  /** `z` is `a` times `x` plus `y`, sample by sample. */
  ghost predicate Combines(a: real, x: seq<real>, y: seq<real>, z: seq<real>) {
    |x| == |y| == |z| && forall i :: 0 <= i < |z| ==> z[i] == a * x[i] + y[i]
  }

  lemma ProductCombines(a: real, x: seq<real>, y: seq<real>, z: seq<real>, h: seq<real>, j: int, k: nat)
    requires Combines(a, x, y, z)
    ensures Product(z, h, j)(k) == a * Product(x, h, j)(k) + Product(y, h, j)(k)
  {
    if k < |h| {
      AtCombines(a, x, y, z, j - k);
      Spread(a, At(x, j - k), At(y, j - k), h[k]);
    }
  }

  lemma AtCombines(a: real, x: seq<real>, y: seq<real>, z: seq<real>, j: int)
    requires Combines(a, x, y, z)
    ensures At(z, j) == a * At(x, j) + At(y, j)
  {
  }

  lemma Spread(a: real, x: real, y: real, h: real)
    ensures h * (a * x + y) == a * (h * x) + h * y
  {
    assert h * (a * x) == a * (h * x);
  }

  lemma {:induction false} SumCombines(a: real, x: seq<real>, y: seq<real>, z: seq<real>, h: seq<real>, j: int, n: nat)
    requires Combines(a, x, y, z)
    ensures Sum(n, Product(z, h, j)) == a * Sum(n, Product(x, h, j)) + Sum(n, Product(y, h, j))
    decreases n
  {
    if n > 0 {
      SumCombines(a, x, y, z, h, j, n - 1);
      ProductCombines(a, x, y, z, h, j, n - 1);
      Distributes(a, Sum(n - 1, Product(x, h, j)), Product(x, h, j)(n - 1));
    }
  }

  lemma Distributes(a: real, x: real, y: real)
    ensures a * (x + y) == a * x + a * y
  {
  }

  /** One at position `p`, silence elsewhere. */
  ghost predicate Unit(x: seq<real>, p: nat) {
    p < |x| && forall i :: 0 <= i < |x| ==> x[i] == if i == p then 1.0 else 0.0
  }

  lemma {:induction false} SumOfUnit(x: seq<real>, p: nat, h: seq<real>, j: int, n: nat)
    requires Unit(x, p) && n <= |h|
    ensures Sum(n, Product(x, h, j)) == if 0 <= j - p < n then h[j - p] else 0.0
    decreases n
  {
    if n > 0 {
      SumOfUnit(x, p, h, j, n - 1);
      assert Product(x, h, j)(n - 1) == h[n - 1] * At(x, j - (n - 1));
    }
  }

  // ---------------------------------------------------------------------------
  // A whole signal
  // ---------------------------------------------------------------------------

  /** One output for every `factor` samples, each the sum over the samples up to its own. */
  ghost predicate Decimates(x: seq<real>, h: seq<real>, factor: nat, out: seq<real>) {
    && |out| * factor == |x|
    && forall i :: 0 <= i < |out| ==> out[i] == Filtered(x, h, i * factor)
  }

  lemma WholeAt(x: seq<real>, h: seq<real>, factor: nat, i: nat)
    requires 0 < |h| && 0 < factor && i * factor < |x|
    ensures i < |Whole(x, h, factor)| && Whole(x, h, factor)[i] == Filtered(x, h, i * factor)
  {
    var j := i * factor;
    EveryAt(Convolve(Zeros(|h| - 1) + x, h), factor, i);
    WindowEnds(x, h, j);
    DotIsSum((Zeros(|h| - 1) + x)[j..j + |h|], x, h, j, |h|);
  }

  lemma WindowEnds(x: seq<real>, h: seq<real>, j: nat)
    requires 0 < |h| && j < |x|
    ensures EndsAt((Zeros(|h| - 1) + x)[j..j + |h|], x, h, j)
  {
  }

  lemma WholeDecimates(x: seq<real>, h: seq<real>, factor: nat, n: nat)
    requires 0 < |h| && 0 < factor && |x| == n * factor
    ensures Decimates(x, h, factor, Whole(x, h, factor))
  {
    EveryCount(Convolve(Zeros(|h| - 1) + x, h), factor, n);
    forall i | 0 <= i < n ensures Whole(x, h, factor)[i] == Filtered(x, h, i * factor) {
      InRange(i, n, factor);
      WholeAt(x, h, factor, i);
    }
  }

  lemma Distribute(a: nat, b: nat, c: nat)
    ensures (a + b) * c == a * c + b * c
  {
  }

  lemma InRange(i: nat, n: nat, factor: nat)
    requires i < n && 0 < factor
    ensures i * factor < n * factor
  {
    Distribute(i, n - i, factor);
    assert (n - i) * factor >= 1 * factor;
  }

  lemma SameCount(m: nat, n: nat, factor: nat)
    requires 0 < factor && m * factor == n * factor
    ensures m == n
  {
    if m < n {
      InRange(m, n, factor);
    } else if n < m {
      InRange(n, m, factor);
    }
  }

  /** Linearity: the outputs of a weighted sum of two signals are the weighted sum of theirs. */
  lemma OutputsCombine(a: real, x: seq<real>, y: seq<real>, z: seq<real>, h: seq<real>, factor: nat,
                       u: seq<real>, v: seq<real>, w: seq<real>)
    requires 0 < factor && Combines(a, x, y, z)
    requires Decimates(x, h, factor, u) && Decimates(y, h, factor, v) && Decimates(z, h, factor, w)
    ensures Combines(a, u, v, w)
  {
    SameCount(|u|, |w|, factor);
    SameCount(|v|, |w|, factor);
    forall i | 0 <= i < |w| ensures w[i] == a * u[i] + v[i] {
      SumCombines(a, x, y, z, h, i * factor, |h|);
    }
  }

  // ---------------------------------------------------------------------------
  // The stream
  // ---------------------------------------------------------------------------

  /** A stream as the capture callback delivers it. */
  ghost predicate Captured(bs: seq<Block>, h: seq<real>, rate: nat, factor: nat) {
    1 < |h| && Regular(bs, rate, factor) && Consecutive(bs) && Rated(bs)
  }

  /** What a fresh converter makes of it. */
  ghost function Out(bs: seq<Block>, h: seq<real>, rate: nat): seq<real>
    requires 1 < |h| && 0 < rate && Rated(bs)
  {
    Stream(Carry(Zeros(|h| - 1), None), bs, h, rate)
  }

  lemma {:induction false} SignalCount(bs: seq<Block>, rate: nat, factor: nat) returns (n: nat)
    requires Regular(bs, rate, factor)
    ensures |Signal(bs)| == n * factor
    decreases |bs|
  {
    if bs == [] {
      n := 0;
    } else {
      forall b | b in bs[1..] ensures b in bs {
      }
      var m := SignalCount(bs[1..], rate, factor);
      assert bs[0] in bs;
      n := |bs[0].samples| / factor + m;
      assert |bs[0].samples| == (|bs[0].samples| / factor) * factor;
      Distribute(|bs[0].samples| / factor, m, factor);
    }
  }

  /**
   For every blocking of a signal: one output for every `factor` samples, and output `i` is the
   sum of h[k] * x[i * factor - k] over the coefficients, with silence in front of the signal.
   */
  lemma StreamDecimates(bs: seq<Block>, h: seq<real>, rate: nat, factor: nat)
    requires Captured(bs, h, rate, factor)
    ensures Decimates(Signal(bs), h, factor, Out(bs, h, rate))
  {
    StreamingIsWhole(bs, h, rate, factor);
    var n := SignalCount(bs, rate, factor);
    WholeDecimates(Signal(bs), h, factor, n);
  }

  /** A unit impulse comes out as the filter itself, one coefficient in `factor`. */
  lemma ImpulseResponse(bs: seq<Block>, h: seq<real>, rate: nat, factor: nat, p: nat)
    requires Captured(bs, h, rate, factor) && Unit(Signal(bs), p)
    ensures forall i :: 0 <= i < |Out(bs, h, rate)| ==>
              Out(bs, h, rate)[i] == if 0 <= i * factor - p < |h| then h[i * factor - p] else 0.0
  {
    StreamDecimates(bs, h, rate, factor);
    forall i | 0 <= i < |Out(bs, h, rate)|
      ensures Out(bs, h, rate)[i] == if 0 <= i * factor - p < |h| then h[i * factor - p] else 0.0
    {
      SumOfUnit(Signal(bs), p, h, i * factor, |h|);
    }
  }

  /** What comes out of a weighted sum of two signals is the weighted sum of what comes out of each. */
  lemma StreamIsLinear(a: real, bs: seq<Block>, cs: seq<Block>, es: seq<Block>, h: seq<real>, rate: nat, factor: nat)
    requires Captured(bs, h, rate, factor) && Captured(cs, h, rate, factor) && Captured(es, h, rate, factor)
    requires Combines(a, Signal(bs), Signal(cs), Signal(es))
    ensures Combines(a, Out(bs, h, rate), Out(cs, h, rate), Out(es, h, rate))
  {
    StreamDecimates(bs, h, rate, factor);
    StreamDecimates(cs, h, rate, factor);
    StreamDecimates(es, h, rate, factor);
    var u, v, w := Out(bs, h, rate), Out(cs, h, rate), Out(es, h, rate);
    OutputsCombine(a, Signal(bs), Signal(cs), Signal(es), h, factor, u, v, w);
  }
}
