/** What the timing audit promises over whole runs (src/star_runtime/core/timing.py:125-204, 285-292). */
module TimingHistory {
  import opened Collections
  import opened Wrappers
  import opened Control
  import opened TimingAudit

  /** The audit after the steps, and the timelines they emitted. */
  function Run(a: Audit, retained: nat, steps: seq<Step>): (Audit, seq<Timeline>)
    decreases |steps|
  {
    if steps == [] then (a, [])
    else
      var f := Do(a, retained, steps[0]);
      var (end, later) := Run(f.audit, retained, steps[1..]);
      (end, (if f.timeline.Some? then [f.timeline.value] else []) + later)
  }

  lemma {:induction false} RunKeepsValid(a: Audit, retained: nat, steps: seq<Step>)
    requires a.Valid()
    ensures Run(a, retained, steps).0.Valid()
    decreases |steps|
  {
    if steps != [] {
      StepKeepsValid(a, retained, steps[0]);
      RunKeepsValid(Do(a, retained, steps[0]).audit, retained, steps[1..]);
    }
  }

  // ---------------------------------------------------------------------------
  // First observations
  // ---------------------------------------------------------------------------

  /** The stamp's record is there at the start and after every step. */
  ghost predicate Retained(a: Audit, retained: nat, steps: seq<Step>, stamp: ControlStamp)
    decreases |steps|
  {
    stamp in a.records && (steps != [] ==> Retained(Do(a, retained, steps[0]).audit, retained, steps[1..], stamp))
  }

  lemma StepExtends(a: Audit, retained: nat, s: Step, stamp: ControlStamp)
    requires a.Valid() && stamp in a.records && stamp in Do(a, retained, s).audit.records
    ensures Extends(a.records[stamp], Do(a, retained, s).audit.records[stamp])
  {
    var e := StepShape(a, retained, s);
  }

  /** While a record is retained, the first observation of each name stays, and nothing is added once it is emitted. */
  lemma {:induction false} FirstObservationWins(a: Audit, retained: nat, steps: seq<Step>, stamp: ControlStamp)
    requires a.Valid() && Retained(a, retained, steps, stamp)
    ensures var end := Run(a, retained, steps).0;
      stamp in end.records && Extends(a.records[stamp], end.records[stamp])
    decreases |steps|
  {
    if steps != [] {
      StepKeepsValid(a, retained, steps[0]);
      StepExtends(a, retained, steps[0], stamp);
      FirstObservationWins(Do(a, retained, steps[0]).audit, retained, steps[1..], stamp);
    }
  }

  // ---------------------------------------------------------------------------
  // Timelines
  // ---------------------------------------------------------------------------

  /** How many of the timelines are the stamp's. */
  function Emissions(ts: seq<Timeline>, stamp: ControlStamp): nat {
    if ts == [] then 0 else (if ts[0].stamp == stamp then 1 else 0) + Emissions(ts[1..], stamp)
  }

  /** A step emits a timeline of the stamp. */
  predicate EmitsFor(a: Audit, retained: nat, s: Step, stamp: ControlStamp) {
    var t := Do(a, retained, s).timeline;
    t.Some? && t.value.stamp == stamp
  }

  lemma EmissionsStep(a: Audit, retained: nat, steps: seq<Step>, stamp: ControlStamp)
    requires steps != []
    ensures var f := Do(a, retained, steps[0]);
      Emissions(Run(a, retained, steps).1, stamp)
        == (if EmitsFor(a, retained, steps[0], stamp) then 1 else 0)
          + Emissions(Run(f.audit, retained, steps[1..]).1, stamp)
  {
    var f := Do(a, retained, steps[0]);
    var later := Run(f.audit, retained, steps[1..]).1;
    if f.timeline.Some? {
      assert ([f.timeline.value] + later)[1..] == later;
    } else {
      assert [] + later == later;
    }
  }

  lemma OpenStays(a: Audit, retained: nat, s: Step, stamp: ControlStamp)
    requires a.Valid() && stamp in a.records && !a.records[stamp].emitted && !EmitsFor(a, retained, s, stamp)
    ensures var b := Do(a, retained, s).audit; stamp in b.records && !b.records[stamp].emitted
  {
    var e := StepShape(a, retained, s);
    var b := Do(a, retained, s).audit;
    assert stamp in e.order;
    OpenIsBehind(e.order, e.records, |e.order| - |b.order|, stamp);
    assert stamp in b.order;
  }

  /** An open record is not among the first `k` if those are all emitted. */
  lemma OpenIsBehind(order: seq<ControlStamp>, records: map<ControlStamp, Record>, k: nat, stamp: ControlStamp)
    requires stamp in order && k <= |order| && stamp in records && !records[stamp].emitted
    requires forall i :: 0 <= i < k ==> order[i] in records && records[order[i]].emitted
    ensures stamp in order[k..]
  {
    var i :| 0 <= i < |order| && order[i] == stamp;
    assert i >= k;
    assert order[k..][i - k] == stamp;
  }

  /** A record whose timeline has not been emitted is never pruned, and keeps its observations. */
  lemma {:induction false} OpenIsNeverPruned(a: Audit, retained: nat, steps: seq<Step>, stamp: ControlStamp)
    requires a.Valid() && stamp in a.records && !a.records[stamp].emitted
    requires Emissions(Run(a, retained, steps).1, stamp) == 0
    ensures var end := Run(a, retained, steps).0;
      stamp in end.records && !end.records[stamp].emitted && Extends(a.records[stamp], end.records[stamp])
    decreases |steps|
  {
    if steps != [] {
      StepKeepsValid(a, retained, steps[0]);
      EmissionsStep(a, retained, steps, stamp);
      OpenStays(a, retained, steps[0], stamp);
      StepExtends(a, retained, steps[0], stamp);
      OpenIsNeverPruned(Do(a, retained, steps[0]).audit, retained, steps[1..], stamp);
    }
  }

  // ---------------------------------------------------------------------------
  // A second timeline
  // ---------------------------------------------------------------------------

  /** The stamps that the steps record, that is, for which they make a record. */
  ghost function Recorded(a: Audit, retained: nat, steps: seq<Step>): set<ControlStamp>
    decreases |steps|
  {
    if steps == [] then {}
    else Elements(Made(a, steps[0])) + Recorded(Do(a, retained, steps[0]).audit, retained, steps[1..])
  }

  /** The other stamps recorded after the one at position `p` of the queue, before or by the steps. */
  ghost function RecordedAfter(a: Audit, retained: nat, p: nat, steps: seq<Step>): set<ControlStamp>
    requires p < |a.order|
  {
    Elements(a.order[p + 1..]) + Recorded(a, retained, steps) - {a.order[p]}
  }

  /** The queue `x`, extended by `made` to `e`, lost its first `k` elements and became `b`. */
  ghost predicate Shifts<T(!new)>(x: seq<T>, made: seq<T>, e: seq<T>, k: nat, b: seq<T>) {
    e == x + made && Distinct(e) && k <= |e| && b == e[k..]
  }

  /** What stands behind position `p` of `x` stood there before or was made. */
  lemma Behind<T>(x: seq<T>, made: seq<T>, e: seq<T>, k: nat, p: nat, j: nat)
    requires e == x + made && Distinct(e) && p < |x| && k <= |e| && j < |e| - k && p < k + j
    ensures e[k..][j] in Elements(x[p + 1..]) + Elements(made) - {x[p]}
  {
    var i := k + j;
    assert e[p] == x[p] && e[i] != e[p];
    if i < |x| {
      assert x[p + 1..][i - p - 1] == e[i];
    } else {
      assert made[i - |x|] == e[i];
    }
  }

  lemma RestBehind<T>(x: seq<T>, made: seq<T>, e: seq<T>, k: nat, p: nat, from: nat)
    requires e == x + made && Distinct(e) && p < |x| && k <= |e| && from <= |e| - k && p < k + from
    ensures Elements(e[k..][from..]) <= Elements(x[p + 1..]) + Elements(made) - {x[p]}
  {
    var b := e[k..];
    forall t | t in b[from..] ensures t in Elements(x[p + 1..]) + Elements(made) - {x[p]} {
      var j :| 0 <= j < |b[from..]| && b[from..][j] == t;
      assert b[from + j] == t;
      Behind(x, made, e, k, p, from + j);
    }
  }

  /** A step appends what it makes to the queue and drops a head; what it drops leaves enough. */
  lemma QueueStep(a: Audit, retained: nat, s: Step, stamp: ControlStamp) returns (e: seq<ControlStamp>, k: nat)
    requires a.Valid()
    ensures var b := Do(a, retained, s).audit;
      && Shifts(a.order, Made(a, s), e, k, b.order)
      && (k > 0 ==> retained <= |b.order|)
      && (stamp in b.order <==> stamp in b.records)
  {
    var f := StepShape(a, retained, s);
    e, k := f.order, |f.order| - |Do(a, retained, s).audit.order|;
  }

  /** What an element that was dropped leaves behind. */
  lemma DroppedLeaves<T(!new)>(x: seq<T>, made: seq<T>, e: seq<T>, k: nat, b: seq<T>, p: nat, later: set<T>)
    requires Shifts(x, made, e, k, b) && p < |x| && x[p] !in b && Elements(made) <= later
    ensures k > 0 && |b| <= |Elements(x[p + 1..]) + later - {x[p]}|
  {
    forall i | k <= i < |e| ensures e[i] != x[p] {
      assert b[i - k] in b;
    }
    assert e[p] == x[p];
    RestBehind(x, made, e, k, p, 0);
    assert b[0..] == b;
    forall i, j | 0 <= i < j < |b| ensures b[i] != b[j] {
      assert b[i] == e[k + i] && b[j] == e[k + j];
    }
    DistinctCount(b);
    SubsetSize(Elements(b), Elements(x[p + 1..]) + later - {x[p]});
  }

  /** An element that stays keeps everything behind it. */
  lemma KeptKeeps<T(!new)>(x: seq<T>, made: seq<T>, e: seq<T>, k: nat, b: seq<T>, p: nat, later: set<T>)
    returns (q: nat)
    requires Shifts(x, made, e, k, b) && p < |x| && x[p] in b
    ensures q < |b| && b[q] == x[p]
    ensures Elements(b[q + 1..]) + later - {b[q]} <= Elements(x[p + 1..]) + (Elements(made) + later) - {x[p]}
  {
    assert e[p] == x[p];
    StaysBehind(e, k, p);
    q := p - k;
    RestBehind(x, made, e, k, p, q + 1);
    Absorb(Elements(b[q + 1..]), later, Elements(x[p + 1..]), Elements(made), x[p]);
  }

  /** A step that prunes the record at `p` leaves at least `retained` records, all made after it. */
  lemma PrunedLeavesEnough(a: Audit, retained: nat, steps: seq<Step>, p: nat)
    requires a.Valid() && p < |a.order| && steps != []
    requires a.order[p] !in Do(a, retained, steps[0]).audit.records
    ensures retained <= |RecordedAfter(a, retained, p, steps)|
  {
    var e, k := QueueStep(a, retained, steps[0], a.order[p]);
    DroppedLeaves(a.order, Made(a, steps[0]), e, k, Do(a, retained, steps[0]).audit.order, p,
      Recorded(a, retained, steps));
  }

  /** A step that keeps the record only moves it towards the head and adds what it makes behind. */
  lemma KeptMoves(a: Audit, retained: nat, steps: seq<Step>, p: nat) returns (q: nat)
    requires a.Valid() && p < |a.order| && steps != []
    requires a.order[p] in Do(a, retained, steps[0]).audit.records
    ensures var b := Do(a, retained, steps[0]).audit;
      && q < |b.order| && b.order[q] == a.order[p]
      && RecordedAfter(b, retained, q, steps[1..]) <= RecordedAfter(a, retained, p, steps)
  {
    var e, k := QueueStep(a, retained, steps[0], a.order[p]);
    var b := Do(a, retained, steps[0]).audit;
    q := KeptKeeps(a.order, Made(a, steps[0]), e, k, b.order, p, Recorded(b, retained, steps[1..]));
  }

  lemma Absorb<T>(rest: set<T>, later: set<T>, before: set<T>, made: set<T>, x: T)
    requires rest <= before + made - {x}
    ensures rest + later - {x} <= before + (made + later) - {x}
  {
  }

  lemma StaysBehind<T>(e: seq<T>, k: nat, p: nat)
    requires Distinct(e) && p < |e| && k <= |e| && e[p] in e[k..]
    ensures k <= p && e[k..][p - k] == e[p]
  {
  }

  lemma EmittedOnce(a: Audit, retained: nat, s: Step, stamp: ControlStamp)
    requires a.Valid() && stamp in a.records && EmitsFor(a, retained, s, stamp)
    ensures !a.records[stamp].emitted
    ensures var b := Do(a, retained, s).audit; stamp in b.records ==> b.records[stamp].emitted
  {
    var e := StepShape(a, retained, s);
  }

  /**
   The stamp at position `p` emits a second timeline only after at least `retained` other stamps
   were recorded after it: a record was made for each of them.
   */
  lemma {:induction false} SecondTimeline(a: Audit, retained: nat, steps: seq<Step>, p: nat)
    requires a.Valid() && p < |a.order|
    requires Emissions(Run(a, retained, steps).1, a.order[p]) + (if a.records[a.order[p]].emitted then 1 else 0) >= 2
    ensures retained <= |RecordedAfter(a, retained, p, steps)|
    decreases |steps|
  {
    var stamp := a.order[p];
    if steps != [] {
      var f := Do(a, retained, steps[0]);
      if stamp !in f.audit.records {
        PrunedLeavesEnough(a, retained, steps, p);
      } else {
        EmissionsStep(a, retained, steps, stamp);
        StepKeepsValid(a, retained, steps[0]);
        StepExtends(a, retained, steps[0], stamp);
        if EmitsFor(a, retained, steps[0], stamp) {
          EmittedOnce(a, retained, steps[0], stamp);
        }
        var q := KeptMoves(a, retained, steps, p);
        SecondTimeline(f.audit, retained, steps[1..], q);
        SubsetSize(RecordedAfter(f.audit, retained, q, steps[1..]), RecordedAfter(a, retained, p, steps));
      }
    }
  }

  // ---------------------------------------------------------------------------
  // What a timeline reports
  // ---------------------------------------------------------------------------

  /** When the steps first mark `name` for the stamp. */
  function FirstMark(steps: seq<Step>, stamp: ControlStamp, name: string): Option<int>
    decreases |steps|
  {
    if steps == [] then None
    else if steps[0].Mark? && steps[0].stamp == stamp && steps[0].name == name then Some(steps[0].at)
    else FirstMark(steps[1..], stamp, name)
  }

  /** What the audit has observed of the stamp so far. */
  ghost function Observed(a: Audit, stamp: ControlStamp, name: string): Option<int> {
    if stamp in a.records && name in a.records[stamp].events then Some(a.records[stamp].events[name]) else None
  }

  /** The stamp's record is not closed yet. */
  ghost predicate Open(a: Audit, stamp: ControlStamp) {
    stamp in a.records ==> !a.records[stamp].emitted
  }

  function OrElse(first: Option<int>, second: Option<int>): Option<int> {
    if first.Some? then first else second
  }

  /** While the stamp's record is open a step adds its own mark, unless the name has been marked, and nothing else. */
  lemma StepObserves(a: Audit, retained: nat, s: Step, stamp: ControlStamp, name: string)
    requires a.Valid() && stamp.Scoped() && name != "" && Open(a, stamp) && !EmitsFor(a, retained, s, stamp)
    ensures var b := Do(a, retained, s).audit;
      Open(b, stamp) && Observed(b, stamp, name) == OrElse(Observed(a, stamp, name), FirstMark([s], stamp, name))
  {
    assert [s][1..] == [];
    if s.Mark? || Do(a, retained, s).timeline.None? {
      QuietObserves(a, retained, s, stamp, name);
    } else {
      OtherEmits(a, retained, s, stamp);
    }
  }

  lemma QuietObserves(a: Audit, retained: nat, s: Step, stamp: ControlStamp, name: string)
    requires stamp.Scoped() && name != "" && Open(a, stamp) && Do(a, retained, s).timeline.None?
    ensures var b := Do(a, retained, s).audit;
      Open(b, stamp) && Observed(b, stamp, name)
        == OrElse(Observed(a, stamp, name),
                  if s.Mark? && s.stamp == stamp && s.name == name then Some(s.at) else None)
  {
  }

  /** A timeline of another stamp leaves an open record as it is, and makes none. */
  lemma OtherEmits(a: Audit, retained: nat, s: Step, stamp: ControlStamp)
    requires a.Valid() && Open(a, stamp) && !s.Mark?
    requires Do(a, retained, s).timeline.Some? && s.stamp != stamp
    ensures var b := Do(a, retained, s).audit;
      && (stamp in b.records <==> stamp in a.records)
      && (stamp in a.records ==> b.records[stamp] == a.records[stamp])
  {
    var e := StepShape(a, retained, s);
    var b := Do(a, retained, s).audit;
    OtherPrepared(a, s, e, stamp);
    OpenKept(e, b, retained, |e.order| - |b.order|, stamp);
  }

  lemma OtherPrepared(a: Audit, s: Step, e: Audit, stamp: ControlStamp)
    requires a.Valid() && Prepared(a, s, e) && s.stamp != stamp
    ensures stamp in e.records <==> stamp in a.records
    ensures stamp in a.records ==> e.records[stamp] == a.records[stamp]
  {
    assert stamp in e.order <==> stamp in a.order;
  }

  lemma OpenKept(e: Audit, b: Audit, retained: nat, k: nat, stamp: ControlStamp)
    requires e.Valid() && b.Valid() && DropsHead(e, b, retained, k) && Open(e, stamp)
    ensures stamp in b.records <==> stamp in e.records
    ensures stamp in e.records ==> b.records[stamp] == e.records[stamp]
  {
    if stamp in e.records {
      OpenIsBehind(e.order, e.records, k, stamp);
      assert stamp in b.order;
    }
  }

  lemma {:induction false} RunObserves(a: Audit, retained: nat, steps: seq<Step>, stamp: ControlStamp, name: string)
    requires a.Valid() && stamp.Scoped() && name != "" && Open(a, stamp)
    requires Emissions(Run(a, retained, steps).1, stamp) == 0
    ensures var end := Run(a, retained, steps).0;
      Open(end, stamp) && Observed(end, stamp, name) == OrElse(Observed(a, stamp, name), FirstMark(steps, stamp, name))
    decreases |steps|
  {
    if steps != [] {
      EmissionsStep(a, retained, steps, stamp);
      StepKeepsValid(a, retained, steps[0]);
      StepObserves(a, retained, steps[0], stamp, name);
      assert [steps[0]][1..] == [];
      RunObserves(Do(a, retained, steps[0]).audit, retained, steps[1..], stamp, name);
    }
  }

  lemma EmitsOwnRecord(a: Audit, retained: nat, s: Step, stamp: ControlStamp, name: string)
    requires Open(a, stamp) && EmitsFor(a, retained, s, stamp)
    ensures var t := Do(a, retained, s).timeline.value;
      (if name in t.events then Some(t.events[name]) else None) == Observed(a, stamp, name)
  {
  }

  /**
   The first timeline of a stamp reports exactly its marks: every name that was marked for the
   stamp before, with the time of the first such mark, and no other name.
   */
  lemma TimelineIsFirstMarks(retained: nat, steps: seq<Step>, s: Step, stamp: ControlStamp, name: string)
    requires stamp.Scoped() && name != "" && Emissions(Run(Audit(map[], []), retained, steps).1, stamp) == 0
    requires EmitsFor(Run(Audit(map[], []), retained, steps).0, retained, s, stamp)
    ensures var t := Do(Run(Audit(map[], []), retained, steps).0, retained, s).timeline.value;
      FirstMark(steps, stamp, name) == if name in t.events then Some(t.events[name]) else None
  {
    RunObserves(Audit(map[], []), retained, steps, stamp, name);
    EmitsOwnRecord(Run(Audit(map[], []), retained, steps).0, retained, s, stamp, name);
  }

  /**
   A turn that has not been reported is reported by the conditional finish if and only if both
   its answer and its playback have been marked complete; the outcome says whether an error was
   marked.
   */
  lemma ReportedWhenComplete(retained: nat, steps: seq<Step>, stamp: ControlStamp)
    requires stamp.Scoped() && Emissions(Run(Audit(map[], []), retained, steps).1, stamp) == 0
    ensures var f := Do(Run(Audit(map[], []), retained, steps).0, retained, FinishIfComplete(stamp));
      && (f.timeline.Some? <==>
            FirstMark(steps, stamp, "agent_complete").Some? && FirstMark(steps, stamp, "playback_complete").Some?)
      && (f.timeline.Some? ==>
            && f.timeline.value.stamp == stamp
            && f.timeline.value.outcome
              == if FirstMark(steps, stamp, "tts_error").Some? then "completed_with_errors" else "completed")
  {
    RunObserves(Audit(map[], []), retained, steps, stamp, "agent_complete");
    RunObserves(Audit(map[], []), retained, steps, stamp, "playback_complete");
    RunObserves(Audit(map[], []), retained, steps, stamp, "tts_error");
  }

  /** Any other terminal outcome is reported at once, the first time. */
  lemma ReportedWhenFinished(retained: nat, steps: seq<Step>, stamp: ControlStamp, outcome: string)
    requires stamp.Scoped() && Emissions(Run(Audit(map[], []), retained, steps).1, stamp) == 0
    ensures var f := Do(Run(Audit(map[], []), retained, steps).0, retained, Finish(stamp, outcome));
      f.timeline.Some? && f.timeline.value.stamp == stamp && f.timeline.value.outcome == outcome
  {
    RunObserves(Audit(map[], []), retained, steps, stamp, "agent_complete");
  }
}
