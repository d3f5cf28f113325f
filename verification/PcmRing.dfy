/**
 The fixed-capacity PCM ring (src/star_runtime/speech/audio/output.py:26-75).
 */
module PcmRing {
  import opened RingSlots

  class PcmRingBuffer<T(0)> {
    const samples: array<T>
    var readAt: nat
    var writeAt: nat
    var size: nat

    ghost predicate Valid()
      reads this
    {
      && 0 < samples.Length
      && size <= samples.Length
      && readAt < samples.Length
      && writeAt == Wrap(readAt + size, samples.Length)
    }

    /** The queued samples, oldest first. */
    ghost function Contents(): (s: seq<T>)
      requires Valid()
      reads this, samples
      ensures |s| == size
    {
      Window(samples[..], readAt, size)
    }

    function Writable(): nat
      requires Valid()
      reads this
    {
      samples.Length - size
    }

    constructor (capacity: nat)
      requires 0 < capacity
      ensures Valid() && fresh(samples) && samples.Length == capacity && Contents() == []
    {
      samples := new T[capacity];
      readAt, writeAt, size := 0, 0, 0;
    }

    /** Appends as many samples as fit and returns how many that was. */
    method Write(xs: seq<T>) returns (count: nat)
      requires Valid()
      modifies this, samples
      ensures Valid()
      ensures count == if |xs| <= old(Writable()) then |xs| else old(Writable())
      ensures Contents() == old(Contents()) + xs[..count]
    {
      count := if |xs| <= Writable() then |xs| else Writable();
      WindowAfterWrite(samples[..], readAt, size, xs[..count]);
      if count == 0 {
        return;
      }
      CopyIn(samples, writeAt, xs[..count]);
      writeAt := Advance(writeAt, count, samples.Length);
      size := size + count;
    }

    /** Removes and returns up to `limit` of the oldest samples. */
    method Read(limit: nat) returns (result: array<T>)
      requires Valid()
      modifies this
      ensures Valid() && fresh(result)
      ensures result.Length == if limit <= old(size) then limit else old(size)
      ensures result[..] == old(Contents())[..result.Length]
      ensures Contents() == old(Contents())[result.Length..]
    {
      var count := if limit <= size then limit else size;
      result := CopyOut(samples, readAt, count);
      WindowPrefix(samples[..], readAt, size, count);
      WindowAfterRead(samples[..], readAt, size, count);
      readAt := Advance(readAt, count, samples.Length);
      size := size - count;
    }

    method Clear()
      requires Valid()
      modifies this
      ensures Valid() && Contents() == []
    {
      readAt, writeAt, size := 0, 0, 0;
    }
  }
}
