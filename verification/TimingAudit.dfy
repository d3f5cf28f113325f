/**
 The bounded per-turn timing audit (src/star_runtime/core/timing.py:116-204, 218-224, 285-292).
 `Audit` is the value of the guarded fields, `Step` what one lock-protected section does to it.
 */
module TimingAudit {
  import opened Wrappers
  import opened Control

  datatype Record = Record(events: map<string, int>, emitted: bool)

  /** The data of one emitted timeline; sorting and formatting it are not part of this model. */
  datatype Timeline = Timeline(stamp: ControlStamp, outcome: string, events: map<string, int>)

  datatype Audit = Audit(records: map<ControlStamp, Record>, order: seq<ControlStamp>) {
    /** The queue and the map hold the same stamps, each once. */
    ghost predicate Valid() {
      && Distinct(order)
      && (forall t :: t in order <==> t in records)
    }

    /** Looks the record up, creating it at the end of the queue if there is none. */
    function Ensure(stamp: ControlStamp): (a: Audit)
      ensures stamp in a.records
    {
      if stamp in records then this else Audit(records[stamp := Record(map[], false)], order + [stamp])
    }

    function Put(stamp: ControlStamp, r: Record): Audit {
      this.(records := records[stamp := r])
    }
  }

  ghost predicate Distinct<T>(s: seq<T>) {
    forall i, j :: 0 <= i < j < |s| ==> s[i] != s[j]
  }

  ghost function Elements<T>(s: seq<T>): set<T> {
    set x | x in s
  }

  lemma {:induction false} DistinctCount<T>(s: seq<T>)
    requires Distinct(s)
    ensures |Elements(s)| == |s|
    decreases |s|
  {
    if s != [] {
      var front, last := s[..|s| - 1], s[|s| - 1];
      DistinctCount(front);
      assert Elements(s) == Elements(front) + {last};
    } else {
      assert Elements(s) == {};
    }
  }

  // ---------------------------------------------------------------------------
  // Pruning
  // ---------------------------------------------------------------------------

  /** How many records to drop from the head, once `k` are dropped: emitted ones, while too many are retained. */
  function Surplus(a: Audit, retained: nat, k: nat): (n: nat)
    requires k <= |a.order|
    ensures k <= n <= |a.order|
    ensures forall i :: k <= i < n ==> a.order[i] in a.records && a.records[a.order[i]].emitted
    ensures k < n ==> retained <= |a.records| - n
    ensures n < |a.order| && a.order[n] in a.records && a.records[a.order[n]].emitted ==> |a.records| - n <= retained
    decreases |a.order| - k
  {
    if k < |a.order| && retained < |a.records| - k && a.order[k] in a.records && a.records[a.order[k]].emitted
    then Surplus(a, retained, k + 1)
    else k
  }

  /** The audit with its first `k` records dropped, one after the other. */
  function WithoutHead(a: Audit, k: nat): (b: Audit)
    requires k <= |a.order|
    ensures b.order == a.order[k..]
  {
    if k == 0 then a
    else
      var b := WithoutHead(a, k - 1);
      Audit(b.records - {b.order[0]}, b.order[1..])
  }

  function Prune(a: Audit, retained: nat): Audit {
    WithoutHead(a, Surplus(a, retained, 0))
  }

  /** `b` is `a` without its first `k` records, all of them emitted and each dropped while too many were retained. */
  ghost predicate DropsHead(a: Audit, b: Audit, retained: nat, k: nat) {
    && k <= |a.order| && b.order == a.order[k..]
    && (forall t :: t in b.records ==> t in a.records && b.records[t] == a.records[t])
    && (forall i :: 0 <= i < k ==> a.order[i] in a.records && a.records[a.order[i]].emitted)
    && (k > 0 ==> retained <= |b.order|)
  }

  lemma RecordCount(a: Audit)
    requires a.Valid()
    ensures |a.records| == |a.order|
  {
    DistinctCount(a.order);
    assert a.records.Keys == Elements(a.order);
  }

  lemma HeadDropped(a: Audit)
    requires a.Valid() && a.order != []
    ensures Audit(a.records - {a.order[0]}, a.order[1..]).Valid()
  {
    var c := Audit(a.records - {a.order[0]}, a.order[1..]);
    forall t ensures t in c.order <==> t in c.records {
      assert t in a.order <==> t == a.order[0] || t in a.order[1..];
    }
  }

  lemma {:induction false} WithoutHeadValid(a: Audit, k: nat)
    requires a.Valid() && k <= |a.order|
    ensures WithoutHead(a, k).Valid()
    ensures forall t :: t in WithoutHead(a, k).records ==>
              t in a.records && WithoutHead(a, k).records[t] == a.records[t]
    decreases k
  {
    if k > 0 {
      WithoutHeadValid(a, k - 1);
      HeadDropped(WithoutHead(a, k - 1));
    }
  }

  /** Pruning drops just enough of the head, and stops early only at a record not yet emitted. */
  lemma PruneDropsHead(a: Audit, retained: nat) returns (b: Audit)
    requires a.Valid()
    ensures b == Prune(a, retained) && b.Valid() && |b.order| <= |a.order|
    ensures DropsHead(a, b, retained, |a.order| - |b.order|)
    ensures |b.order| <= retained || (b.order[0] in b.records && !b.records[b.order[0]].emitted)
  {
    b := Prune(a, retained);
    RecordCount(a);
    WithoutHeadValid(a, Surplus(a, retained, 0));
  }

  lemma PruneDrops(a: Audit, b: Audit, retained: nat)
    requires a.Valid() && b == Prune(a, retained)
    ensures b.Valid() && |b.order| <= |a.order| && DropsHead(a, b, retained, |a.order| - |b.order|)
  {
    var c := PruneDropsHead(a, retained);
  }

  lemma DropsNone(a: Audit, retained: nat)
    ensures DropsHead(a, a, retained, 0)
  {
  }

  // ---------------------------------------------------------------------------
  // Steps
  // ---------------------------------------------------------------------------

  /** One lock-protected section; `finish` with a time is a `Mark` followed by a `Finish`. */
  datatype Step =
    | Mark(stamp: ControlStamp, name: string, at: int)
    | Finish(stamp: ControlStamp, outcome: string)
    | FinishIfComplete(stamp: ControlStamp)

  datatype Effect = Effect(audit: Audit, recorded: bool, timeline: Option<Timeline>)

  function MarkEffect(a: Audit, stamp: ControlStamp, name: string, at: int): Effect {
    if !stamp.Scoped() || name == "" then Effect(a, false, None)
    else
      var e := a.Ensure(stamp);
      var r := e.records[stamp];
      if r.emitted || name in r.events then Effect(e, false, None)
      else Effect(e.Put(stamp, r.(events := r.events[name := at])), true, None)
  }

  /** The record is marked as emitted, then the head of the queue is pruned. */
  function Emit(a: Audit, retained: nat, stamp: ControlStamp, outcome: string): Effect
    requires stamp in a.records
  {
    var r := a.records[stamp];
    Effect(Prune(a.Put(stamp, r.(emitted := true)), retained), false, Some(Timeline(stamp, outcome, r.events)))
  }

  function FinishEffect(a: Audit, retained: nat, stamp: ControlStamp, outcome: string): Effect {
    if !stamp.Scoped() then Effect(a, false, None)
    else
      var e := a.Ensure(stamp);
      if e.records[stamp].emitted then Effect(e, false, None) else Emit(e, retained, stamp, outcome)
  }

  predicate Complete(r: Record) {
    !r.emitted && "agent_complete" in r.events && "playback_complete" in r.events
  }

  function FinishIfCompleteEffect(a: Audit, retained: nat, stamp: ControlStamp): Effect {
    if !stamp.Scoped() || stamp !in a.records || !Complete(a.records[stamp]) then Effect(a, false, None)
    else
      var errors := "tts_error" in a.records[stamp].events;
      Emit(a, retained, stamp, if errors then "completed_with_errors" else "completed")
  }

  function Do(a: Audit, retained: nat, s: Step): Effect {
    match s
    case Mark(stamp, name, at) => MarkEffect(a, stamp, name, at)
    case Finish(stamp, outcome) => FinishEffect(a, retained, stamp, outcome)
    case FinishIfComplete(stamp) => FinishIfCompleteEffect(a, retained, stamp)
  }

  /** The step records a stamp that is not recorded yet. */
  predicate Records(a: Audit, s: Step) {
    s.stamp !in a.records && s.stamp.Scoped() && !s.FinishIfComplete? && (s.Mark? ==> s.name != "")
  }

  /** What the step appends to the queue. */
  function Made(a: Audit, s: Step): seq<ControlStamp> {
    if Records(a, s) then [s.stamp] else []
  }

  /** The audit as the step finds or makes its record, before any pruning. */
  ghost predicate Prepared(a: Audit, s: Step, e: Audit) {
    && e.Valid()
    && e.order == a.order + Made(a, s)
    && (forall t :: t in a.records && t != s.stamp ==> t in e.records && e.records[t] == a.records[t])
    && (s.stamp in a.records ==> s.stamp in e.records && Extends(a.records[s.stamp], e.records[s.stamp]))
  }

  /** Later observations do not replace earlier ones, and an emitted record stays so. */
  ghost predicate Extends(r: Record, q: Record) {
    && (forall name :: name in r.events ==> name in q.events && q.events[name] == r.events[name])
    && (r.emitted ==> q.emitted && q.events == r.events)
  }

  lemma EnsureKeepsValid(a: Audit, stamp: ControlStamp)
    requires a.Valid()
    ensures a.Ensure(stamp).Valid()
  {
    var e := a.Ensure(stamp);
    if stamp !in a.records {
      forall t ensures t in e.order <==> t in e.records {
        assert t in e.order <==> t in a.order || t == stamp;
      }
    }
  }

  lemma EnsurePrepares(a: Audit, s: Step)
    requires a.Valid() && (s.stamp in a.records || Records(a, s))
    ensures Prepared(a, s, a.Ensure(s.stamp))
  {
    EnsureKeepsValid(a, s.stamp);
    assert a.order + [] == a.order;
  }

  lemma NothingPrepares(a: Audit, s: Step)
    requires a.Valid() && !Records(a, s)
    ensures Prepared(a, s, a)
  {
    assert a.order + [] == a.order;
  }

  lemma PutPrepares(a: Audit, s: Step, e: Audit, r: Record)
    requires Prepared(a, s, e) && s.stamp in e.records
    requires s.stamp in a.records ==> Extends(a.records[s.stamp], r)
    ensures Prepared(a, s, e.Put(s.stamp, r))
  {
  }

  /** A timeline reports the record's observations, and the record is emitted from then on. */
  ghost predicate Emitted(a: Audit, e: Audit, s: Step, t: Timeline) {
    && t.stamp == s.stamp
    && s.stamp in e.records && e.records[s.stamp].emitted && t.events == e.records[s.stamp].events
    && (s.stamp in a.records ==> !a.records[s.stamp].emitted && t.events == a.records[s.stamp].events)
  }

  /** A step with effect `f` prepares its record as in `e` and at most drops part of the head of the queue. */
  ghost predicate Shaped(a: Audit, retained: nat, s: Step, f: Effect, e: Audit) {
    && Prepared(a, s, e)
    && f.audit.Valid() && |f.audit.order| <= |e.order|
    && DropsHead(e, f.audit, retained, |e.order| - |f.audit.order|)
    && (f.timeline.Some? ==> Emitted(a, e, s, f.timeline.value))
    && (f.timeline.None? && s.stamp in a.records ==> e.records[s.stamp].emitted == a.records[s.stamp].emitted)
  }

  lemma QuietShape(a: Audit, retained: nat, s: Step, f: Effect)
    requires Prepared(a, s, f.audit) && f.timeline.None?
    requires s.stamp in a.records ==> f.audit.records[s.stamp].emitted == a.records[s.stamp].emitted
    ensures Shaped(a, retained, s, f, f.audit)
  {
    DropsNone(f.audit, retained);
  }

  lemma PrunedShape(a: Audit, retained: nat, s: Step, f: Effect, e: Audit)
    requires Prepared(a, s, e) && f.audit == Prune(e, retained)
    requires f.timeline.Some? && Emitted(a, e, s, f.timeline.value)
    ensures Shaped(a, retained, s, f, e)
  {
    PruneDrops(e, f.audit, retained);
  }

  /** Emitting the record of an audit that the step has prepared. */
  lemma EmitShape(a: Audit, retained: nat, s: Step, made: Audit, outcome: string) returns (e: Audit)
    requires Prepared(a, s, made) && s.stamp in made.records && !made.records[s.stamp].emitted
    requires s.stamp in a.records ==> made.records[s.stamp] == a.records[s.stamp]
    ensures Shaped(a, retained, s, Emit(made, retained, s.stamp, outcome), e)
  {
    var r := made.records[s.stamp].(emitted := true);
    PutPrepares(a, s, made, r);
    e := made.Put(s.stamp, r);
    var f := Emit(made, retained, s.stamp, outcome);
    PrunedShape(a, retained, s, f, e);
  }

  lemma MarkShape(a: Audit, retained: nat, s: Step) returns (e: Audit)
    requires a.Valid() && s.Mark?
    ensures Shaped(a, retained, s, Do(a, retained, s), e)
  {
    if s.stamp.Scoped() && s.name != "" {
      EnsurePrepares(a, s);
    } else {
      NothingPrepares(a, s);
    }
    var made := a.Ensure(s.stamp);
    var r := made.records[s.stamp];
    if Do(a, retained, s).recorded {
      PutPrepares(a, s, made, r.(events := r.events[s.name := s.at]));
    }
    e := Do(a, retained, s).audit;
    QuietShape(a, retained, s, Do(a, retained, s));
  }

  lemma StepShape(a: Audit, retained: nat, s: Step) returns (e: Audit)
    requires a.Valid()
    ensures Shaped(a, retained, s, Do(a, retained, s), e)
  {
    if s.Mark? {
      e := MarkShape(a, retained, s);
    } else if Do(a, retained, s).timeline.Some? {
      EnsurePrepares(a, s);
      e := EmitShape(a, retained, s, a.Ensure(s.stamp), Do(a, retained, s).timeline.value.outcome);
    } else {
      NothingPrepares(a, s);
      e := Do(a, retained, s).audit;
      QuietShape(a, retained, s, Do(a, retained, s));
    }
  }

  lemma StepKeepsValid(a: Audit, retained: nat, s: Step)
    requires a.Valid()
    ensures Do(a, retained, s).audit.Valid()
  {
    var e := StepShape(a, retained, s);
  }
}
