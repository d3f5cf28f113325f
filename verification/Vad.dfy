/**
 VAD windowing and the sample history (src/star_runtime/speech/vad.py).  The native detector
 is opaque: it receives every window, and the segments it reports are a parameter.
 */
module Vad {
  import opened Collections
  import opened Wrappers
  import opened RingSlots

  // ---------------------------------------------------------------------------
  // History addressed by absolute sample position
  // ---------------------------------------------------------------------------

  /** The last `n` elements. */
  ghost function LastOf<T>(s: seq<T>, n: nat): seq<T>
    requires n <= |s|
  {
    s[|s| - n..]
  }

  /** Slot of the oldest of `size` samples behind the write position. */
  function Oldest(writeAt: nat, size: nat, capacity: nat): (i: nat)
    requires writeAt < capacity && size <= capacity
    ensures i < capacity && Wrap(i + size, capacity) == writeAt
  {
    Wrap(writeAt + capacity - size, capacity)
  }

  /** Dropping what no longer fits and then writing leaves the newest samples. */
  lemma AppendKeepsNewest<T>(slots: seq<T>, writeAt: nat, size: nat, fed: seq<T>, xs: seq<T>)
    requires writeAt < |slots| && size <= |slots| && size <= |fed| && |xs| < |slots|
    requires Window(slots, Oldest(writeAt, size, |slots|), size) == LastOf(fed, size)
    ensures var n := if size + |xs| <= |slots| then size + |xs| else |slots|;
      var w := Wrap(writeAt + |xs|, |slots|);
      Window(Overwrite(slots, writeAt, xs), Oldest(w, n, |slots|), n) == LastOf(fed + xs, n)
  {
    var n := if size + |xs| <= |slots| then size + |xs| else |slots|;
    var drop := size + |xs| - n;
    var from := Oldest(writeAt, size, |slots|);
    WindowAfterRead(slots, from, size, drop);
    WindowAfterWrite(slots, Wrap(from + drop, |slots|), size - drop, xs);
    assert LastOf(fed, size)[drop..] + xs == LastOf(fed + xs, n);
  }

  class SampleRingBuffer<T(0)> {
    const data: array<T>
    var writeAt: nat
    var size: nat
    var total: nat
    /** Every sample appended since the last clear. */
    ghost var fed: seq<T>

    ghost predicate Valid()
      reads this, data
    {
      && 0 < data.Length
      && writeAt < data.Length
      && total == |fed|
      && size == (if total <= data.Length then total else data.Length)
      && Window(data[..], Oldest(writeAt, size, data.Length), size) == LastOf(fed, size)
    }

    function StartSample(): nat
      requires Valid()
      reads this, data
    {
      total - size
    }

    constructor (capacity: nat)
      requires 0 < capacity
      ensures Valid() && fresh(data) && data.Length == capacity && fed == []
    {
      data := new T[capacity];
      writeAt, size, total, fed := 0, 0, 0, [];
    }

    method Append(xs: seq<T>)
      requires Valid()
      modifies this, data
      ensures Valid() && fed == old(fed) + xs
    {
      if |xs| == 0 {
        assert fed + xs == fed;
        return;
      }
      total := total + |xs|;
      if |xs| >= data.Length {
        Replace(xs);
        return;
      }
      AppendKeepsNewest(data[..], writeAt, size, fed, xs);
      CopyIn(data, writeAt, xs);
      writeAt := Advance(writeAt, |xs|, data.Length);
      size := if size + |xs| <= data.Length then size + |xs| else data.Length;
      fed := fed + xs;
    }

    /** A block at least as long as the buffer replaces it. */
    method Replace(xs: seq<T>)
      requires 0 < data.Length <= |xs| && total == |fed| + |xs|
      modifies this, data
      ensures Valid() && fed == old(fed) + xs
    {
      forall i | 0 <= i < data.Length {
        data[i] := xs[|xs| - data.Length + i];
      }
      writeAt, size := 0, data.Length;
      fed := fed + xs;
      forall i | 0 <= i < size
        ensures Window(data[..], 0, size)[i] == LastOf(fed, size)[i]
      {
        assert Window(data[..], 0, size)[i] == data[Wrap(0 + i, data.Length)];
      }
    }

    /** The samples at absolute positions [first, end), if they are all still held. */
    method Read(first: int, end: int) returns (r: Option<array<T>>)
      requires Valid()
      ensures r.Some? <==> StartSample() <= first < end <= total
      ensures r.Some? ==> fresh(r.value) && r.value[..] == fed[first..end]
    {
      if first < total - size || end > total || end <= first {
        return None;
      }
      var offset: nat := first - (total - size);
      var from := Oldest(writeAt, size, data.Length);
      var at := Advance(from, offset, data.Length);
      ghost var held := Window(data[..], from, size);
      WindowAfterRead(data[..], from, size, offset);
      WindowPrefix(data[..], at, size - offset, end - first);
      var out := CopyOut(data, at, end - first);
      assert held[offset..][..end - first] == fed[first..end];
      r := Some(out);
    }

    method Clear()
      requires Valid()
      modifies this
      ensures Valid() && fed == []
    {
      writeAt, size, total, fed := 0, 0, 0, [];
      assert Window(data[..], Oldest(0, 0, data.Length), 0) == [];
    }
  }

  // ---------------------------------------------------------------------------
  // Windows and segments
  // ---------------------------------------------------------------------------

  /** 16 kHz is the only rate the constructor admits: 62500 ns per sample. */
  const NS_PER_SAMPLE := 62500

  /** A speech segment as the detector reports it, at an absolute sample position. */
  datatype Segment = Segment(start: int, samples: seq<real>) {
    function End(): int {
      start + |samples|
    }
  }

  datatype Utterance = Utterance(samples: seq<real>, startedNs: int, endedNs: int)

  function MaxOf(x: int, y: int): int {
    if x <= y then y else x
  }

  ghost function Flatten(windows: seq<seq<real>>): seq<real> {
    if windows == [] then [] else Flatten(windows[..|windows| - 1]) + windows[|windows| - 1]
  }

  lemma NothingTaken<T>(a: seq<T>, xs: seq<T>, i: nat)
    requires i <= |xs|
    ensures a + xs[i..i] == a && xs[..0] == []
  {
  }

  lemma SlicesGrow<T>(a: seq<T>, xs: seq<T>, i: nat, j: nat, k: nat)
    requires i <= j <= k <= |xs|
    ensures (a + xs[i..j]) + xs[j..k] == a + xs[i..k]
  {
    Regroup(a, xs[i..j], xs[j..k]);
    SliceSplits(xs, i, j, k);
  }

  lemma FlattenMore(windows: seq<seq<real>>, w: seq<real>)
    ensures Flatten(windows + [w]) == Flatten(windows) + w
  {
    assert (windows + [w])[..|windows|] == windows;
  }

  class SileroVadSegmenter {
    const windowSize: nat
    const preRoll: nat
    const pending: array<real>
    var pendingSize: nat
    const history: SampleRingBuffer<real>
    /** The windows the detector has received since the last reset. */
    ghost var windows: seq<seq<real>>

    ghost function Repr(): set<object> {
      {this, pending, history, history.data}
    }

    ghost predicate Valid()
      reads Repr()
    {
      && 0 < windowSize == pending.Length
      && pending != history.data
      && pendingSize < windowSize
      && history.Valid()
      && history.fed == Flatten(windows)
      && forall w :: w in windows ==> |w| == windowSize
    }

    /** Everything fed since the last reset: the accepted windows, then the pending tail. */
    ghost function Fed(): seq<real>
      requires pendingSize <= pending.Length
      reads this, pending
    {
      Flatten(windows) + pending[..pendingSize]
    }

    constructor (windowSize: nat, preRoll: nat, historyLimit: nat)
      requires 0 < windowSize && 0 < historyLimit
      ensures Valid() && fresh(Repr()) && Fed() == []
      ensures this.windowSize == windowSize && this.preRoll == preRoll && history.data.Length == historyLimit
    {
      this.windowSize, this.preRoll := windowSize, preRoll;
      pending := new real[windowSize];
      pendingSize := 0;
      history := new SampleRingBuffer(historyLimit);
      windows := [];
    }

    method AcceptWindow(w: seq<real>)
      requires Valid() && |w| == windowSize
      modifies this`windows, history, history.data
      ensures Valid() && windows == old(windows) + [w]
    {
      history.Append(w);
      windows := windows + [w];
      FlattenMore(old(windows), w);
    }

    /** Copies `xs` behind the pending samples. */
    method Stash(xs: seq<real>)
      requires Valid() && pendingSize + |xs| <= windowSize
      modifies pending
      ensures Valid() && pending[..pendingSize + |xs|] == old(pending[..pendingSize]) + xs
    {
      ghost var tail := pending[..pendingSize];
      forall i | 0 <= i < |xs| {
        pending[pendingSize + i] := xs[i];
      }
      assert pending[..pendingSize] == tail;
      assert pending[pendingSize..pendingSize + |xs|] == xs;
      assert pending[..pendingSize + |xs|] == pending[..pendingSize] + pending[pendingSize..pendingSize + |xs|];
    }

    /** The full pending buffer becomes a window. */
    method AcceptPending(filled: nat)
      requires Valid() && filled == windowSize
      modifies this, history, history.data
      ensures Valid() && pendingSize == 0 && windows == old(windows) + [pending[..filled]]
      ensures Fed() == old(Flatten(windows)) + pending[..filled]
    {
      var w := pending[..filled];
      FlattenMore(windows, w);
      AcceptWindow(w);
      pendingSize := 0;
      NothingTaken(Flatten(windows), pending[..], 0);
    }

    /** Tops up a partial window left by the previous chunk; returns how many samples that took. */
    method TopUp(samples: seq<real>) returns (offset: nat)
      requires Valid()
      modifies this, pending, history, history.data
      ensures Valid() && offset <= |samples|
      ensures Fed() == old(Fed()) + samples[..offset]
      ensures offset < |samples| ==> pendingSize == 0
      ensures old(windows) <= windows
    {
      if pendingSize == 0 {
        NothingTaken(Fed(), samples, 0);
        return 0;
      }
      offset := if windowSize - pendingSize <= |samples| then windowSize - pendingSize else |samples|;
      Regroup(Flatten(windows), pending[..pendingSize], samples[..offset]);
      Stash(samples[..offset]);
      if pendingSize + offset == windowSize {
        AcceptPending(pendingSize + offset);
      } else {
        pendingSize := pendingSize + offset;
      }
    }

    method AcceptSlice(samples: seq<real>, offset: nat)
      requires Valid() && offset + windowSize <= |samples|
      modifies this`windows, history, history.data
      ensures Valid() && old(windows) <= windows
      ensures Flatten(windows) == old(Flatten(windows)) + samples[offset..offset + windowSize]
    {
      var w := samples[offset..offset + windowSize];
      FlattenMore(windows, w);
      AcceptWindow(w);
    }

    /** Another window behind the part from `start` to `offset`. */
    method AcceptNext(samples: seq<real>, start: nat, offset: nat, ghost before: seq<real>)
      requires Valid() && start <= offset && offset + windowSize <= |samples|
      requires Flatten(windows) == before + samples[start..offset]
      modifies this`windows, history, history.data
      ensures Valid() && old(windows) <= windows
      ensures Flatten(windows) == before + samples[start..offset + windowSize]
    {
      SlicesGrow(before, samples, start, offset, offset + windowSize);
      AcceptSlice(samples, offset);
    }

    /** Accepts whole windows straight from the chunk. */
    method WholeWindows(samples: seq<real>, start: nat) returns (offset: nat)
      requires Valid() && pendingSize == 0 && start <= |samples|
      modifies this`windows, history, history.data
      ensures Valid() && start <= offset <= |samples| && |samples| - offset < windowSize
      ensures Flatten(windows) == old(Flatten(windows)) + samples[start..offset]
      ensures old(windows) <= windows
    {
      offset := start;
      ghost var before := Flatten(windows);
      NothingTaken(before, samples, start);
      while offset + windowSize <= |samples|
        invariant Valid() && start <= offset <= |samples|
        invariant Flatten(windows) == before + samples[start..offset]
        invariant old(windows) <= windows
      {
        AcceptNext(samples, start, offset, before);
        offset := offset + windowSize;
      }
    }

    /** The remainder of a chunk becomes pending. */
    method Keep(xs: seq<real>)
      requires Valid() && pendingSize == 0 && |xs| < windowSize
      modifies this`pendingSize, pending
      ensures Valid() && pending[..pendingSize] == xs
    {
      Stash(xs);
      pendingSize := |xs|;
    }

    /** With nothing pending: whole windows first, then the remainder becomes pending. */
    method Rest(samples: seq<real>, start: nat)
      requires Valid() && pendingSize == 0 && start <= |samples|
      modifies this, pending, history, history.data
      ensures Valid() && Fed() == old(Flatten(windows)) + samples[start..]
      ensures old(windows) <= windows
    {
      ghost var done := Flatten(windows);
      var offset := WholeWindows(samples, start);
      Keep(samples[offset..]);
      Regroup(done, samples[start..offset], samples[offset..]);
      SliceSplits(samples, start, offset, |samples|);
    }

    /** Cuts a chunk of any length into windows, keeping the remainder pending. */
    method Frame(samples: seq<real>)
      requires Valid()
      modifies this, pending, history, history.data
      ensures Valid() && Fed() == old(Fed()) + samples
      ensures old(windows) <= windows
    {
      var start := TopUp(samples);
      Regroup(old(Fed()), samples[..start], samples[start..]);
      assert samples == samples[..start] + samples[start..];
      if start < |samples| {
        assert Flatten(windows) + pending[..0] == Flatten(windows);
        Rest(samples, start);
      }
    }

    /** One reported segment, cut from the history when it is still held there. */
    method Cut(segment: Segment, capturedNs: int) returns (u: Utterance)
      requires Valid()
      ensures u == CutOf(segment, capturedNs)
    {
      var wanted := MaxOf(history.total - history.size, segment.start - preRoll);
      var held := history.Read(wanted, segment.End());
      var samples := if held.Some? then held.value[..] else segment.samples;
      var historyEndNs := capturedNs - pendingSize * NS_PER_SAMPLE;
      var after := MaxOf(0, history.total - segment.End());
      var endedNs := historyEndNs - after * NS_PER_SAMPLE;
      u := Utterance(samples, endedNs - |samples| * NS_PER_SAMPLE, endedNs);
      assert Fed()[..history.total] == history.fed;
    }

    ghost function WantedStart(segment: Segment): int
      requires Valid()
      reads Repr()
    {
      MaxOf(history.StartSample(), segment.start - preRoll)
    }

    /** The segment ends inside the history and its first wanted sample is still held. */
    ghost predicate InHistory(segment: Segment)
      requires Valid()
      reads Repr()
    {
      WantedStart(segment) < segment.End() <= history.total
    }

    ghost function CutOf(segment: Segment, capturedNs: int): Utterance
      requires Valid()
      reads Repr()
    {
      var endedNs := capturedNs - pendingSize * NS_PER_SAMPLE - MaxOf(0, history.total - segment.End()) * NS_PER_SAMPLE;
      var samples := if InHistory(segment) then history.fed[WantedStart(segment)..segment.End()] else segment.samples;
      Utterance(samples, endedNs - |samples| * NS_PER_SAMPLE, endedNs)
    }

    /** Feeds one chunk and turns the segments the detector then reports into utterances. */
    method Accept(samples: seq<real>, segments: seq<Segment>, capturedNs: int) returns (us: seq<Utterance>)
      requires Valid()
      modifies this, pending, history, history.data
      ensures Valid() && Fed() == old(Fed()) + samples && old(windows) <= windows
      ensures |us| == |segments| && forall i :: 0 <= i < |us| ==> us[i] == CutOf(segments[i], capturedNs)
    {
      Frame(samples);
      us := CutAll(segments, capturedNs);
    }

    method CutAll(segments: seq<Segment>, capturedNs: int) returns (us: seq<Utterance>)
      requires Valid()
      ensures |us| == |segments| && forall i :: 0 <= i < |us| ==> us[i] == CutOf(segments[i], capturedNs)
    {
      us := [];
      while |us| < |segments|
        invariant |us| <= |segments|
        invariant forall i :: 0 <= i < |us| ==> us[i] == CutOf(segments[i], capturedNs)
      {
        var u := Cut(segments[|us|], capturedNs);
        us := us + [u];
      }
    }

    method Reset()
      requires Valid()
      modifies this, history
      ensures Valid() && Fed() == []
    {
      pendingSize := 0;
      history.Clear();
      windows := [];
      assert pending[..0] == [];
    }

    /**
     An utterance still in the history is exactly the fed samples from the first wanted
     position to the segment's end, and its times are the capture time minus 62500 ns for
     every sample from there to the end of what was fed.
     */
    lemma UtteranceIsSlice(segment: Segment, capturedNs: int)
      requires Valid() && InHistory(segment)
      ensures var u := CutOf(segment, capturedNs);
        var accepted, end := |Flatten(windows)|, segment.start + |segment.samples|;
        var oldest := if accepted <= history.data.Length then 0 else accepted - history.data.Length;
        var first := if oldest <= segment.start - preRoll then segment.start - preRoll else oldest;
        && 0 <= first < end <= accepted <= |Fed()|
        && u.samples == Fed()[first..end]
        && u.endedNs == capturedNs - NS_PER_SAMPLE * (|Fed()| - end)
        && u.startedNs == capturedNs - NS_PER_SAMPLE * (|Fed()| - first)
    {
      assert Fed()[..history.total] == history.fed;
    }

    /**
     Any other segment is passed on as the detector reported it, with times that count back from
     the end of what the detector has received, and no further than that.
     */
    lemma UtteranceAsReported(segment: Segment, capturedNs: int)
      requires Valid() && !InHistory(segment)
      ensures var u := CutOf(segment, capturedNs);
        var accepted, end := |Flatten(windows)|, segment.start + |segment.samples|;
        && u.samples == segment.samples
        && u.endedNs == capturedNs - NS_PER_SAMPLE * (pendingSize + if end < accepted then accepted - end else 0)
        && u.startedNs == u.endedNs - NS_PER_SAMPLE * |segment.samples|
    {
    }

    /** A segment is in the history exactly if it ends there and its first wanted sample is still held. */
    lemma InHistoryExactly(segment: Segment)
      requires Valid()
      ensures var accepted, end := |Flatten(windows)|, segment.start + |segment.samples|;
        var oldest := if accepted <= history.data.Length then 0 else accepted - history.data.Length;
        InHistory(segment) <==> end <= accepted && oldest < end && segment.start - preRoll < end
    {
    }

    /** The history never holds more than its capacity, and holds the newest accepted samples. */
    lemma HistoryReach()
      requires Valid()
      ensures history.StartSample() == MaxOf(0, |Flatten(windows)| - history.data.Length)
      ensures |Fed()| - |Flatten(windows)| == pendingSize < windowSize
    {
    }
  }

  // ---------------------------------------------------------------------------
  // Chunking does not matter
  // ---------------------------------------------------------------------------

  lemma OneMore(k: nat, n: nat)
    ensures (k + 1) * n == k * n + n
  {
  }

  lemma {:induction false} FlattenLength(ws: seq<seq<real>>, n: nat)
    requires forall w :: w in ws ==> |w| == n
    ensures |Flatten(ws)| == |ws| * n
    decreases |ws|
  {
    if ws != [] {
      var front := ws[..|ws| - 1];
      FlattenLength(front, n);
      assert ws[|ws| - 1] in ws;
      OneMore(|front|, n);
    }
  }

  lemma SameCount(n: nat, p: nat, a: nat, q: nat, b: nat)
    requires 0 < n && a < n && b < n && p * n + a == q * n + b
    ensures p == q && a == b
  {
    assert (p - q) * n == b - a;
    FarApart(p - q, n);
  }

  lemma {:induction false} SameWindows(n: nat, vs: seq<seq<real>>, ws: seq<seq<real>>)
    requires |vs| == |ws| && Flatten(vs) == Flatten(ws)
    requires forall w :: w in vs || w in ws ==> |w| == n
    ensures vs == ws
    decreases |vs|
  {
    if vs != [] {
      var k := |vs| - 1;
      assert vs[k] in vs && ws[k] in ws;
      var v, w := Flatten(vs[..k]), Flatten(ws[..k]);
      assert v + vs[k] == w + ws[k];
      assert |v| == |w|;
      assert v == (v + vs[k])[..|v|] && w == (w + ws[k])[..|w|];
      assert vs[k] == (v + vs[k])[|v|..] && ws[k] == (w + ws[k])[|w|..];
      SameWindows(n, vs[..k], ws[..k]);
      assert vs == vs[..k] + [vs[k]] && ws == ws[..k] + [ws[k]];
    }
  }

  /**
   However the samples were cut into chunks, the windows the detector saw and the pending
   tail are determined by the samples alone.
   */
  lemma FramingUnique(n: nat, vs: seq<seq<real>>, a: seq<real>, ws: seq<seq<real>>, b: seq<real>)
    requires 0 < n && |a| < n && |b| < n
    requires forall w :: w in vs || w in ws ==> |w| == n
    requires Flatten(vs) + a == Flatten(ws) + b
    ensures vs == ws && a == b
  {
    FlattenLength(vs, n);
    FlattenLength(ws, n);
    SameCount(n, |vs|, |a|, |ws|, |b|);
    var v, w := Flatten(vs), Flatten(ws);
    assert v == (v + a)[..|v|] && w == (w + b)[..|w|];
    assert a == (v + a)[|v|..] && b == (w + b)[|w|..];
    SameWindows(n, vs, ws);
  }
}
