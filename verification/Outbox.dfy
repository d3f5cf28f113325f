/**
 The bounded retry outbox (src/star_runtime/transports/dds/reliability.py:44-143) as a step
 system: publishers and the one worker interleave at their lock-protected sections.
 */
module Outbox {
  import opened Collections
  import opened Wrappers

  /** A queue item; the ticket stands for the object's identity. */
  datatype Pending = Pending(event: string, deadline: int, ticket: nat)

  datatype Policy = Policy(capacity: nat, ttl: nat)

  /** Where the worker stands between its lock-protected sections. */
  datatype Worker =
    | Idle
    | Held(item: Pending)
    | Doomed(item: Pending, at: int)
    | Trying(item: Pending, at: int)
    | Sent(item: Pending, at: int)

  datatype Sink = Sink(
    pending: seq<Pending>,
    worker: Worker,
    delivered: nat,
    expired: nat,
    dropped: nat,
    retries: nat,
    stopped: bool
  )

  /** How an event left the queue: delivered or expired, and when the worker looked at its deadline. */
  datatype Departure = Departure(item: Pending, arrived: bool, at: int)

  /** Everything that happened so far. */
  datatype History = History(published: nat, accepted: seq<Pending>, left: seq<Departure>, writes: seq<Pending>,
                             clock: int)

  datatype State = State(sink: Sink, past: History)

  datatype Label =
    | Publish(event: string, now: int)
    | Take
    | Judge(now: int)
    | Wrote(ok: bool)
    | Settle
    | Close

  ghost predicate Enabled(s: State, l: Label) {
    match l
    case Publish(_, now) => s.past.clock <= now
    case Take => s.sink.worker.Idle? && s.sink.pending != [] && !s.sink.stopped
    case Judge(now) => s.sink.worker.Held? && s.past.clock <= now
    case Wrote(_) => s.sink.worker.Trying?
    case Settle => s.sink.worker.Doomed? || s.sink.worker.Sent?
    case Close => true
  }

  /** The locked part of publish. */
  function Offer(p: Policy, k: Sink, event: string, now: int, ticket: nat): Sink {
    if p.capacity <= |k.pending| then k.(dropped := k.dropped + 1)
    else k.(pending := k.pending + [Pending(event, now + p.ttl, ticket)])
  }

  /** The locked removal: the head goes if it is still the item the worker holds. */
  function Remove(k: Sink, item: Pending, arrived: bool): Sink {
    if k.pending == [] || k.pending[0] != item then k
    else if arrived then k.(pending := k.pending[1..], delivered := k.delivered + 1)
    else k.(pending := k.pending[1..], expired := k.expired + 1)
  }

  function Step(p: Policy, s: State, l: Label): State
    requires Enabled(s, l)
  {
    var k, h := s.sink, s.past;
    match l
    case Publish(event, now) =>
      var next := Offer(p, k, event, now, |h.accepted|);
      State(next, h.(published := h.published + 1, accepted := h.accepted + next.pending[|k.pending|..], clock := now))
    case Take => State(k.(worker := Held(k.pending[0])), h)
    case Judge(now) =>
      var item := k.worker.item;
      State(k.(worker := if item.deadline <= now then Doomed(item, now) else Trying(item, now)), h.(clock := now))
    case Wrote(ok) =>
      if ok then State(k.(worker := Sent(k.worker.item, k.worker.at)), h.(writes := h.writes + [k.worker.item]))
      else State(k.(worker := Idle, retries := k.retries + 1), h)
    case Settle =>
      var item := k.worker.item;
      var next := Remove(k, item, k.worker.Sent?);
      State(next.(worker := Idle),
        if next == k then h else h.(left := h.left + [Departure(item, k.worker.Sent?, k.worker.at)]))
    case Close => State(k.(stopped := true), h)
  }

  // ---------------------------------------------------------------------------
  // The invariant
  // ---------------------------------------------------------------------------

  function Items(ds: seq<Departure>): (items: seq<Pending>)
    ensures |items| == |ds|
    ensures forall i :: 0 <= i < |ds| ==> items[i] == ds[i].item
  {
    if ds == [] then [] else Items(ds[..|ds| - 1]) + [ds[|ds| - 1].item]
  }

  /** The delivered items, in order. */
  function Arrived(ds: seq<Departure>): (items: seq<Pending>)
    ensures |items| <= |ds|
  {
    if ds == [] then []
    else Arrived(ds[..|ds| - 1]) + (if ds[|ds| - 1].arrived then [ds[|ds| - 1].item] else [])
  }

  /** Every accepted event has left or is queued, in order of acceptance, and every publish is accounted for. */
  ghost predicate Conserves(s: State) {
    && s.past.accepted == Items(s.past.left) + s.sink.pending
    && s.past.published == s.sink.dropped + |s.past.accepted|
    && s.sink.delivered == |Arrived(s.past.left)|
    && s.sink.delivered + s.sink.expired == |s.past.left|
  }

  /** Tickets number the accepted events; deadlines never decrease. */
  ghost predicate Ordered(p: Policy, s: State) {
    && (forall i :: 0 <= i < |s.past.accepted| ==> s.past.accepted[i].ticket == i)
    && (forall i, j :: 0 <= i < j < |s.past.accepted| ==> s.past.accepted[i].deadline <= s.past.accepted[j].deadline)
    && (forall i :: 0 <= i < |s.past.accepted| ==> s.past.accepted[i].deadline <= s.past.clock + p.ttl)
  }

  /** What the worker holds is the head of the queue, judged against its deadline. */
  ghost predicate WorkerOk(s: State) {
    var w := s.sink.worker;
    && (!w.Idle? ==> s.sink.pending != [] && s.sink.pending[0] == w.item)
    && (w.Doomed? ==> w.item.deadline <= w.at)
    && (w.Trying? || w.Sent? ==> w.at < w.item.deadline)
    && s.past.writes == Arrived(s.past.left) + if w.Sent? then [w.item] else []
  }

  ghost predicate Timely(d: Departure) {
    if d.arrived then d.at < d.item.deadline else d.item.deadline <= d.at
  }

  ghost predicate Inv(p: Policy, s: State) {
    && |s.sink.pending| <= p.capacity
    && Conserves(s) && Ordered(p, s) && WorkerOk(s)
    && forall i :: 0 <= i < |s.past.left| ==> Timely(s.past.left[i])
  }

  ghost function Fresh(clock: int): State {
    State(Sink([], Idle, 0, 0, 0, 0, false), History(0, [], [], [], clock))
  }

  lemma PublishKeeps(p: Policy, s: State, l: Label)
    requires Inv(p, s) && Enabled(s, l) && l.Publish?
    ensures Inv(p, Step(p, s, l))
  {
    var b := Step(p, s, l);
    if |s.sink.pending| < p.capacity {
      var item := Pending(l.event, l.now + p.ttl, |s.past.accepted|);
      assert b.past.accepted == s.past.accepted + [item];
      assert b.past.accepted == Items(b.past.left) + b.sink.pending;
      forall i, j | 0 <= i < j < |b.past.accepted|
        ensures b.past.accepted[i].deadline <= b.past.accepted[j].deadline
      {
        assert s.past.accepted[i].deadline <= s.past.clock + p.ttl;
      }
    } else {
      assert b.past.accepted == s.past.accepted;
    }
  }

  lemma SettleConserves(p: Policy, s: State, l: Label)
    requires Conserves(s) && WorkerOk(s) && Enabled(s, l) && l.Settle?
    ensures Conserves(Step(p, s, l)) && |Step(p, s, l).sink.pending| < |s.sink.pending|
  {
    var b := Step(p, s, l);
    var item := s.sink.worker.item;
    LeftMore(s.past.left, Departure(item, s.sink.worker.Sent?, s.sink.worker.at));
    assert s.sink.pending == [item] + b.sink.pending;
    Regroup(Items(s.past.left), [item], b.sink.pending);
  }

  lemma SettleTimely(p: Policy, s: State, l: Label)
    requires WorkerOk(s) && Enabled(s, l) && l.Settle?
    requires forall i :: 0 <= i < |s.past.left| ==> Timely(s.past.left[i])
    ensures var b := Step(p, s, l);
      WorkerOk(b) && forall i :: 0 <= i < |b.past.left| ==> Timely(b.past.left[i])
  {
    LeftMore(s.past.left, Departure(s.sink.worker.item, s.sink.worker.Sent?, s.sink.worker.at));
  }

  lemma LeftMore(left: seq<Departure>, gone: Departure)
    ensures Items(left + [gone]) == Items(left) + [gone.item]
    ensures Arrived(left + [gone]) == Arrived(left) + if gone.arrived then [gone.item] else []
  {
    assert (left + [gone])[..|left|] == left;
  }

  lemma SettleKeeps(p: Policy, s: State, l: Label)
    requires Inv(p, s) && Enabled(s, l) && l.Settle?
    ensures Inv(p, Step(p, s, l))
  {
    SettleConserves(p, s, l);
    SettleTimely(p, s, l);
    assert Ordered(p, Step(p, s, l));
  }

  lemma WorkerKeeps(p: Policy, s: State, l: Label)
    requires Inv(p, s) && Enabled(s, l) && (l.Take? || l.Judge? || l.Wrote? || l.Close?)
    ensures Inv(p, Step(p, s, l))
  {
  }

  lemma StepKeeps(p: Policy, s: State, l: Label)
    requires Inv(p, s) && Enabled(s, l)
    ensures Inv(p, Step(p, s, l))
  {
    if l.Publish? {
      PublishKeeps(p, s, l);
    } else if l.Settle? {
      SettleKeeps(p, s, l);
    } else {
      WorkerKeeps(p, s, l);
    }
  }

  ghost predicate Follows(p: Policy, s: State, ls: seq<Label>, t: State)
    decreases |ls|
  {
    if ls == [] then s == t
    else Enabled(s, ls[0]) && Follows(p, Step(p, s, ls[0]), ls[1..], t)
  }

  lemma {:induction false} RunKeeps(p: Policy, s: State, ls: seq<Label>, t: State)
    requires Inv(p, s) && Follows(p, s, ls, t)
    ensures Inv(p, t)
    decreases |ls|
  {
    if ls != [] {
      StepKeeps(p, s, ls[0]);
      RunKeeps(p, Step(p, s, ls[0]), ls[1..], t);
    }
  }

  // ---------------------------------------------------------------------------
  // What was published
  // ---------------------------------------------------------------------------

  /** The publish calls of a run that found room, each with its own event and its time to live, numbered from `n`. */
  ghost function Admitted(p: Policy, s: State, ls: seq<Label>, n: nat): seq<Pending>
    decreases |ls|
  {
    if ls == [] || !Enabled(s, ls[0]) then []
    else if ls[0].Publish? && |s.sink.pending| < p.capacity then
      [Pending(ls[0].event, ls[0].now + p.ttl, n)] + Admitted(p, Step(p, s, ls[0]), ls[1..], n + 1)
    else Admitted(p, Step(p, s, ls[0]), ls[1..], n)
  }

  lemma AdmitStep(p: Policy, s: State, l: Label)
    requires Enabled(s, l)
    ensures Step(p, s, l).past.accepted
      == s.past.accepted + (if l.Publish? && |s.sink.pending| < p.capacity
                            then [Pending(l.event, l.now + p.ttl, |s.past.accepted|)] else [])
  {
  }

  lemma {:induction false} RunAdmits(p: Policy, s: State, ls: seq<Label>, t: State)
    requires Follows(p, s, ls, t)
    ensures t.past.accepted == s.past.accepted + Admitted(p, s, ls, |s.past.accepted|)
    decreases |ls|
  {
    if ls == [] {
      assert s.past.accepted + [] == s.past.accepted;
    } else {
      var m := Step(p, s, ls[0]);
      AdmitStep(p, s, ls[0]);
      RunAdmits(p, m, ls[1..], t);
      Regroup(s.past.accepted, m.past.accepted[|s.past.accepted|..], Admitted(p, m, ls[1..], |m.past.accepted|));
    }
  }

  // ---------------------------------------------------------------------------
  // What the outbox promises
  // ---------------------------------------------------------------------------

  /** In every interleaving each publish call is dropped, delivered, expired or queued, and the queue is bounded. */
  lemma Accounting(p: Policy, clock: int, ls: seq<Label>, t: State)
    requires Follows(p, Fresh(clock), ls, t)
    ensures t.past.published == t.sink.dropped + t.sink.delivered + t.sink.expired + |t.sink.pending|
    ensures |t.sink.pending| <= p.capacity
  {
    RunKeeps(p, Fresh(clock), ls, t);
  }

  /**
   Events leave in the order of their acceptance, with non-decreasing deadlines; one that
   expires was looked at no earlier than its deadline, one that is delivered before it.
   */
  lemma LeaveInOrder(p: Policy, clock: int, ls: seq<Label>, t: State)
    requires Follows(p, Fresh(clock), ls, t)
    ensures Items(t.past.left) <= t.past.accepted
    ensures forall i, j :: 0 <= i < j < |t.past.left| ==> t.past.left[i].item.deadline <= t.past.left[j].item.deadline
    ensures forall i :: 0 <= i < |t.past.left| ==> Timely(t.past.left[i])
  {
    RunKeeps(p, Fresh(clock), ls, t);
    forall i, j | 0 <= i < j < |t.past.left|
      ensures t.past.left[i].item.deadline <= t.past.left[j].item.deadline
    {
      assert t.past.accepted[i] == t.past.left[i].item && t.past.accepted[j] == t.past.left[j].item;
    }
  }

  /**
   What leaves and what is still queued is, in order, what was published while there was room:
   every item carries the event of its own publish call, and a deadline one time to live behind
   that call.
   */
  lemma CarriesWhatWasPublished(p: Policy, clock: int, ls: seq<Label>, t: State)
    requires Follows(p, Fresh(clock), ls, t)
    ensures Items(t.past.left) + t.sink.pending == Admitted(p, Fresh(clock), ls, 0)
  {
    RunKeeps(p, Fresh(clock), ls, t);
    RunAdmits(p, Fresh(clock), ls, t);
    assert [] + Admitted(p, Fresh(clock), ls, 0) == Admitted(p, Fresh(clock), ls, 0);
  }

  /** The worker is told to stop by a close and by nothing else, for good, and takes up nothing behind it. */
  lemma {:induction false} StopsForGood(p: Policy, s: State, ls: seq<Label>, t: State)
    requires Follows(p, s, ls, t)
    ensures t.sink.stopped <==> s.sink.stopped || Close in ls
    ensures Close in ls ==> !Enabled(t, Take)
    decreases |ls|
  {
    if ls != [] {
      StopsForGood(p, Step(p, s, ls[0]), ls[1..], t);
      assert Step(p, s, ls[0]).sink.stopped <==> s.sink.stopped || ls[0] == Close;
    }
  }

  /** How many writes of a run failed. */
  function Failures(ls: seq<Label>): nat {
    if ls == [] then 0 else (if ls[0] == Wrote(false) then 1 else 0) + Failures(ls[1..])
  }

  /** A failed write is counted as a retry, and nothing else is. */
  lemma {:induction false} RetriesAreFailures(p: Policy, s: State, ls: seq<Label>, t: State)
    requires Follows(p, s, ls, t)
    ensures t.sink.retries == s.sink.retries + Failures(ls)
    decreases |ls|
  {
    if ls != [] {
      RetriesAreFailures(p, Step(p, s, ls[0]), ls[1..], t);
    }
  }

  lemma {:induction false} ArrivedRising(ds: seq<Departure>)
    requires forall i :: 0 <= i < |ds| ==> ds[i].item.ticket == i
    ensures forall i :: 0 <= i < |Arrived(ds)| ==> Arrived(ds)[i].ticket < |ds|
    ensures forall i, j :: 0 <= i < j < |Arrived(ds)| ==> Arrived(ds)[i].ticket < Arrived(ds)[j].ticket
    decreases |ds|
  {
    if ds != [] {
      ArrivedRising(ds[..|ds| - 1]);
    }
  }

  /** Retries never deliver an event twice: the successful writes are of different events, in order of acceptance. */
  lemma WrittenOnce(p: Policy, clock: int, ls: seq<Label>, t: State)
    requires Follows(p, Fresh(clock), ls, t)
    ensures forall i, j :: 0 <= i < j < |t.past.writes| ==> t.past.writes[i].ticket < t.past.writes[j].ticket
    ensures |t.past.writes| == t.sink.delivered + if t.sink.worker.Sent? then 1 else 0
  {
    RunKeeps(p, Fresh(clock), ls, t);
    forall i | 0 <= i < |t.past.left| ensures t.past.left[i].item.ticket == i {
      assert t.past.accepted[i] == t.past.left[i].item;
    }
    ArrivedRising(t.past.left);
    if t.sink.worker.Sent? {
      assert t.past.accepted[|t.past.left|] == t.sink.worker.item;
    }
  }

  // ---------------------------------------------------------------------------
  // The sink as an object
  // ---------------------------------------------------------------------------

  class RetryingEventSink {
    const policy: Policy
    var pending: seq<Pending>
    var worker: Worker
    var delivered: nat
    var expired: nat
    var dropped: nat
    var retries: nat
    var stopped: bool
    ghost var past: History

    ghost function View(): State
      reads this
    {
      State(Sink(pending, worker, delivered, expired, dropped, retries, stopped), past)
    }

    constructor (policy: Policy, clock: int)
      ensures this.policy == policy && View() == Fresh(clock)
    {
      this.policy := policy;
      pending, worker, delivered, expired, dropped, retries, stopped := [], Idle, 0, 0, 0, 0, false;
      past := History(0, [], [], [], clock);
    }

    method PublishEvent(event: string, now: int, ticket: nat) returns (accepted: bool)
      requires Enabled(View(), Publish(event, now)) && ticket == |past.accepted|
      modifies this
      ensures View() == Step(policy, old(View()), Publish(event, now))
      ensures accepted <==> |old(pending)| < policy.capacity
    {
      past := Step(policy, View(), Publish(event, now)).past;
      if policy.capacity <= |pending| {
        dropped := dropped + 1;
        return false;
      }
      pending := pending + [Pending(event, now + policy.ttl, ticket)];
      accepted := true;
    }

    /** The worker's wait: nothing to do while the queue is empty, the end once stopped. */
    method TakeHead() returns (item: Option<Pending>)
      requires worker.Idle?
      modifies this`worker
      ensures item.None? <==> old(pending) == [] || stopped
      ensures item.None? ==> View() == old(View())
      ensures item.Some? ==>
        Enabled(old(View()), Take) && View() == Step(policy, old(View()), Take) && worker.item == item.value
    {
      if stopped || pending == [] {
        return None;
      }
      worker := Held(pending[0]);
      item := Some(pending[0]);
    }

    /** The deadline check between the two locked sections. */
    method JudgeItem(now: int) returns (expires: bool)
      requires Enabled(View(), Judge(now))
      modifies this
      ensures View() == Step(policy, old(View()), Judge(now))
      ensures expires <==> worker.Doomed?
    {
      past := Step(policy, View(), Judge(now)).past;
      expires := worker.item.deadline <= now;
      worker := if expires then Doomed(worker.item, now) else Trying(worker.item, now);
    }

    /** One write attempt with outcome `ok`; a failed one is counted and retried from the head. */
    method AttemptWrite(ok: bool)
      requires Enabled(View(), Wrote(ok))
      modifies this
      ensures View() == Step(policy, old(View()), Wrote(ok))
    {
      past := Step(policy, View(), Wrote(ok)).past;
      if ok {
        worker := Sent(worker.item, worker.at);
      } else {
        retries := retries + 1;
        worker := Idle;
      }
    }

    /** The locked removal of the item the worker is done with. */
    method SettleItem()
      requires Enabled(View(), Settle)
      modifies this
      ensures View() == Step(policy, old(View()), Settle)
    {
      past := Step(policy, View(), Settle).past;
      if pending != [] && pending[0] == worker.item {
        pending := pending[1..];
        if worker.Sent? {
          delivered := delivered + 1;
        } else {
          expired := expired + 1;
        }
      }
      worker := Idle;
    }
  }
}
