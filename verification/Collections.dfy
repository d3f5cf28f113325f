/** Facts about sequences, sets and integers that several modules use. */
module Collections {
  lemma Regroup<T>(a: seq<T>, b: seq<T>, c: seq<T>)
    ensures (a + b) + c == a + (b + c)
  {
  }

  lemma SliceSplits<T>(xs: seq<T>, i: nat, j: nat, k: nat)
    requires i <= j <= k <= |xs|
    ensures xs[i..k] == xs[i..j] + xs[j..k]
  {
  }

  lemma SubsetSize<T>(a: set<T>, b: set<T>)
    requires a <= b
    ensures |a| <= |b|
  {
    assert b == a + (b - a);
  }

  /** Different multiples of `n` are at least `n` apart. */
  lemma FarApart(d: int, n: nat)
    ensures 1 <= d ==> n <= d * n
    ensures d <= -1 ==> d * n + n <= 0
  {
  }
}
