/**
 The timing audit as an object: one method per method of the source
 (src/star_runtime/core/timing.py:116-204, 285-292).
 */
module TimingRecorder {
  import opened Wrappers
  import opened Control
  import opened TimingAudit

  /** Dropping one more record from the head. */
  lemma HeadCount(a: Audit, k: nat)
    requires a.Valid() && k < |a.order|
    ensures a.order[k] in a.records
    ensures |WithoutHead(a, k).records| == |a.records| - k
  {
    WithoutHeadValid(a, k);
    RecordCount(a);
    RecordCount(WithoutHead(a, k));
    assert a.order[k] in a.order;
  }

  /** One round of the pruning loop, once `k` records are dropped: it stops, or drops the next. */
  lemma PruneRound(a: Audit, retained: nat, k: nat, now: Audit)
    requires a.Valid() && k <= |a.order| && now == WithoutHead(a, k)
    ensures |now.records| == |a.records| - k && (now.order == [] <==> k == |a.order|)
    ensures now.order != [] ==> now.order[0] in now.records
    ensures now.order == [] || |now.records| <= retained || !now.records[now.order[0]].emitted ==>
              Surplus(a, retained, k) == k
    ensures now.order != [] && |now.records| > retained && now.records[now.order[0]].emitted ==>
      && Surplus(a, retained, k) == Surplus(a, retained, k + 1)
      && WithoutHead(a, k + 1) == Audit(now.records - {now.order[0]}, now.order[1..])
  {
    WithoutHeadValid(a, k);
    RecordCount(a);
    RecordCount(now);
    if k < |a.order| {
      HeadCount(a, k);
    }
  }

  class RuntimeTimingAudit {
    const retained: nat
    var records: map<ControlStamp, Record>
    var order: seq<ControlStamp>
    var timelinesEmitted: nat

    function View(): Audit
      reads this
    {
      Audit(records, order)
    }

    constructor (retained: nat)
      requires retained > 0
      ensures View() == Audit(map[], []) && View().Valid() && timelinesEmitted == 0 && this.retained == retained
    {
      this.retained := retained;
      records, order, timelinesEmitted := map[], [], 0;
    }

    method Ensure(stamp: ControlStamp) returns (r: Record)
      modifies this`records, this`order
      ensures View() == old(View()).Ensure(stamp) && r == records[stamp]
    {
      if stamp !in records {
        records := records[stamp := Record(map[], false)];
        order := order + [stamp];
      }
      r := records[stamp];
    }

    /** Records a stage once; false for duplicates, finished turns and unscoped stamps. */
    method Mark(stamp: ControlStamp, name: string, at: int) returns (recorded: bool)
      requires View().Valid()
      modifies this`records, this`order
      ensures View() == Do(old(View()), retained, Step.Mark(stamp, name, at)).audit && View().Valid()
      ensures recorded == Do(old(View()), retained, Step.Mark(stamp, name, at)).recorded
    {
      StepKeepsValid(View(), retained, Step.Mark(stamp, name, at));
      if !stamp.Scoped() || name == "" {
        return false;
      }
      var r := Ensure(stamp);
      if r.emitted || name in r.events {
        return false;
      }
      records := records[stamp := r.(events := r.events[name := at])];
      recorded := true;
    }

    /** Drops emitted records from the head of the queue while more than `retained` are held. */
    method PruneLocked()
      requires View().Valid()
      modifies this`records, this`order
      ensures View() == Prune(old(View()), retained)
    {
      ghost var a, k := View(), 0;
      PruneRound(a, retained, 0, View());
      while |records| > retained && order != []
        invariant k <= |a.order| && View() == WithoutHead(a, k)
        invariant Surplus(a, retained, 0) == Surplus(a, retained, k)
        invariant order != [] ==> order[0] in records
        invariant order == [] || |records| <= retained ==> Surplus(a, retained, k) == k
        decreases |order|
      {
        PruneRound(a, retained, k, View());
        var stamp := order[0];
        if !records[stamp].emitted {
          return;
        }
        order := order[1..];
        records := records - {stamp};
        k := k + 1;
        PruneRound(a, retained, k, View());
      }
    }

    method EmitLocked(stamp: ControlStamp, outcome: string) returns (t: Timeline)
      requires View().Valid() && stamp in records
      modifies this
      ensures View() == Emit(old(View()), retained, stamp, outcome).audit
      ensures Some(t) == Emit(old(View()), retained, stamp, outcome).timeline
      ensures timelinesEmitted == old(timelinesEmitted) + 1
    {
      var r := records[stamp];
      records := records[stamp := r.(emitted := true)];
      t := Timeline(stamp, outcome, r.events);
      timelinesEmitted := timelinesEmitted + 1;
      PruneLocked();
    }

    /** Emits the turn's timeline unless it was emitted before; with a time, the end is marked first. */
    method Finish(stamp: ControlStamp, outcome: string, at: Option<int>) returns (t: Option<Timeline>)
      requires View().Valid()
      modifies this
      ensures var marked :=
          if stamp.Scoped() && at.Some?
          then Do(old(View()), retained, Step.Mark(stamp, "audit_finished", at.value)).audit
          else old(View());
        && View() == Do(marked, retained, Step.Finish(stamp, outcome)).audit
        && t == Do(marked, retained, Step.Finish(stamp, outcome)).timeline
      ensures View().Valid() && timelinesEmitted == old(timelinesEmitted) + if t.Some? then 1 else 0
    {
      if !stamp.Scoped() {
        return None;
      }
      if at.Some? {
        var _ := Mark(stamp, "audit_finished", at.value);
      }
      t := FinishLocked(stamp, outcome);
    }

    method FinishLocked(stamp: ControlStamp, outcome: string) returns (t: Option<Timeline>)
      requires View().Valid() && stamp.Scoped()
      modifies this
      ensures View() == Do(old(View()), retained, Step.Finish(stamp, outcome)).audit && View().Valid()
      ensures t == Do(old(View()), retained, Step.Finish(stamp, outcome)).timeline
      ensures timelinesEmitted == old(timelinesEmitted) + if t.Some? then 1 else 0
    {
      StepKeepsValid(View(), retained, Step.Finish(stamp, outcome));
      EnsureKeepsValid(View(), stamp);
      var r := Ensure(stamp);
      if r.emitted {
        return None;
      }
      var timeline := EmitLocked(stamp, outcome);
      t := Some(timeline);
    }

    /** Emits the timeline once both the answer and the playback are complete. */
    method FinishIfComplete(stamp: ControlStamp) returns (t: Option<Timeline>)
      requires View().Valid()
      modifies this
      ensures View() == Do(old(View()), retained, Step.FinishIfComplete(stamp)).audit && View().Valid()
      ensures t == Do(old(View()), retained, Step.FinishIfComplete(stamp)).timeline
      ensures timelinesEmitted == old(timelinesEmitted) + if t.Some? then 1 else 0
    {
      StepKeepsValid(View(), retained, Step.FinishIfComplete(stamp));
      if !stamp.Scoped() || stamp !in records {
        return None;
      }
      var r := records[stamp];
      if r.emitted || "agent_complete" !in r.events || "playback_complete" !in r.events {
        return None;
      }
      var timeline := EmitLocked(stamp, if "tts_error" in r.events then "completed_with_errors" else "completed");
      t := Some(timeline);
    }
  }
}
