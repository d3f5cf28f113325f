/**
 Slot arithmetic and the two-run copies of a fixed-capacity ring, on arrays and on the
 sequences that specify them.
 */
module RingSlots {
  /** Slot of position `x`, which is at most one lap ahead of slot 0. */
  function Wrap(x: nat, capacity: nat): nat
    requires x < 2 * capacity
  {
    if x < capacity then x else x - capacity
  }

  method Advance(at: nat, count: nat, capacity: nat) returns (next: nat)
    requires at + count < 2 * capacity
    ensures next == Wrap(at + count, capacity)
  {
    next := (at + count) % capacity;
    assert at + count >= capacity ==> at + count == capacity * 1 + (at + count - capacity);
  }

  /** The `n` slots from `at` on, wrapping past the end. */
  ghost function Window<T>(slots: seq<T>, at: nat, n: nat): (w: seq<T>)
    requires at < |slots| && n <= |slots|
    ensures |w| == n
  {
    seq(n, i requires 0 <= i < n => slots[Wrap(at + i, |slots|)])
  }

  /** The slots after writing `xs` from `at` on, wrapping past the end. */
  ghost function Overwrite<T>(slots: seq<T>, at: nat, xs: seq<T>): (w: seq<T>)
    requires at < |slots| && |xs| <= |slots|
    ensures |w| == |slots|
  {
    seq(|slots|, j requires 0 <= j < |slots| =>
      if at <= j < at + |xs| then xs[j - at]
      else if j + |slots| < at + |xs| then xs[j + |slots| - at]
      else slots[j])
  }

  lemma WindowAfterWrite<T>(slots: seq<T>, at: nat, n: nat, xs: seq<T>)
    requires at < |slots| && n + |xs| <= |slots|
    ensures Window(Overwrite(slots, Wrap(at + n, |slots|), xs), at, n + |xs|) == Window(slots, at, n) + xs
  {
    var start := Wrap(at + n, |slots|);
    var after, want := Window(Overwrite(slots, start, xs), at, n + |xs|), Window(slots, at, n) + xs;
    forall i | 0 <= i < n + |xs|
      ensures after[i] == want[i]
    {
      assert after[i] == Overwrite(slots, start, xs)[Wrap(at + i, |slots|)];
    }
  }

  lemma WindowPrefix<T>(slots: seq<T>, at: nat, n: nat, k: nat)
    requires at < |slots| && k <= n <= |slots|
    ensures Window(slots, at, k) == Window(slots, at, n)[..k]
  {
  }

  lemma WindowAfterRead<T>(slots: seq<T>, at: nat, n: nat, k: nat)
    requires at < |slots| && k <= n <= |slots|
    ensures Window(slots, Wrap(at + k, |slots|), n - k) == Window(slots, at, n)[k..]
  {
    var after, want := Window(slots, Wrap(at + k, |slots|), n - k), Window(slots, at, n)[k..];
    forall i | 0 <= i < n - k
      ensures after[i] == want[i]
    {
      assert after[i] == slots[Wrap(Wrap(at + k, |slots|) + i, |slots|)];
      assert want[i] == Window(slots, at, n)[k + i] == slots[Wrap(at + (k + i), |slots|)];
    }
  }

  /** Copies `xs` into the slots from `at` on, in at most two runs. */
  method CopyIn<T>(slots: array<T>, at: nat, xs: seq<T>)
    requires at < slots.Length && |xs| <= slots.Length
    modifies slots
    ensures slots[..] == Overwrite(old(slots[..]), at, xs)
  {
    var first := if |xs| <= slots.Length - at then |xs| else slots.Length - at;
    forall i | 0 <= i < first {
      slots[at + i] := xs[i];
    }
    var remaining := |xs| - first;
    if remaining > 0 {
      forall i | 0 <= i < remaining {
        slots[i] := xs[first + i];
      }
    }
  }

  /** Copies out the `count` slots from `at` on, in at most two runs. */
  method CopyOut<T(0)>(slots: array<T>, at: nat, count: nat) returns (result: array<T>)
    requires at < slots.Length && count <= slots.Length
    ensures fresh(result) && result[..] == Window(slots[..], at, count)
  {
    result := new T[count];
    var first := if count <= slots.Length - at then count else slots.Length - at;
    forall i | 0 <= i < first {
      result[i] := slots[at + i];
    }
    var remaining := count - first;
    if remaining > 0 {
      forall i | 0 <= i < remaining {
        result[first + i] := slots[i];
      }
    }
    forall i | 0 <= i < count
      ensures result[..][i] == Window(slots[..], at, count)[i]
    {
      assert Window(slots[..], at, count)[i] == slots[Wrap(at + i, slots.Length)];
    }
  }
}
