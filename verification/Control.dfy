/**
 The Session -> Turn -> Epoch authority (src/star_runtime/core/control.py).

 `Owner` is the value of the authority's guarded fields, the functions on it are the
 bodies of the lock-protected methods, and `RuntimeControlPlane` / `ControlPlaneReplica`
 are the classes that update those fields in place.
 */
module Control {
  import opened Wrappers

  datatype ControlStamp = ControlStamp(sessionId: string, turnId: string, epoch: nat) {
    predicate Scoped() {
      sessionId != "" && turnId != "" && epoch > 0
    }
  }

  datatype EpochInvalidated = EpochInvalidated(stamp: ControlStamp, nextEpoch: nat) {
    /** The stamp that replaced the invalidated one. */
    function Next(): ControlStamp {
      stamp.(epoch := nextEpoch)
    }
  }

  datatype Owner = Owner(
    sessionId: string,
    current: Option<ControlStamp>,
    completed: Option<ControlStamp>,
    invalidations: nat
  ) {
    function BeginTurn(turnId: string): Owner {
      this.(current := Some(ControlStamp(sessionId, turnId, 1)), completed := None)
    }

    predicate CanInvalidate() {
      current.Some? && completed != current
    }

    function Invalidate(): Owner
      requires CanInvalidate()
    {
      this.(
        current := Some(current.value.(epoch := current.value.epoch + 1)),
        completed := None,
        invalidations := invalidations + 1)
    }

    function InvalidationEvent(): EpochInvalidated
      requires CanInvalidate()
    {
      EpochInvalidated(current.value, current.value.epoch + 1)
    }

    function Complete(stamp: ControlStamp): Owner {
      if current == Some(stamp) then this.(completed := Some(stamp)) else this
    }

    predicate IsCurrent(stamp: ControlStamp) {
      stamp.Scoped() && current == Some(stamp)
    }

    predicate IsActive(stamp: ControlStamp) {
      IsCurrent(stamp) && completed != Some(stamp)
    }
  }

  /** The authority as an object: one method per lock-protected method of the source. */
  class RuntimeControlPlane {
    const sessionId: string
    var current: Option<ControlStamp>
    var completed: Option<ControlStamp>
    var invalidations: nat

    function View(): Owner
      reads this
    {
      Owner(sessionId, current, completed, invalidations)
    }

    constructor (sessionId: string)
      requires sessionId != ""
      ensures View() == Owner(sessionId, None, None, 0)
    {
      this.sessionId := sessionId;
      current, completed, invalidations := None, None, 0;
    }

    method BeginTurn(turnId: string) returns (stamp: ControlStamp)
      modifies this
      ensures View() == old(View()).BeginTurn(turnId)
      ensures View().current == Some(stamp)
    {
      stamp := ControlStamp(sessionId, turnId, 1);
      current := Some(stamp);
      completed := None;
    }

    /** Advances the epoch, unless there is no turn or the turn has already completed. */
    method Invalidate() returns (event: Option<EpochInvalidated>)
      modifies this
      ensures event.Some? <==> old(View()).CanInvalidate()
      ensures event.None? ==> View() == old(View())
      ensures event.Some? ==> View() == old(View()).Invalidate() && event.value == old(View()).InvalidationEvent()
      ensures event.Some? ==> old(current) == Some(event.value.stamp) && current == Some(event.value.Next())
      ensures event.Some? ==> event.value.nextEpoch == event.value.stamp.epoch + 1 && completed == None
    {
      if current == None || completed == current {
        return None;
      }
      var was := current.value;
      var now := was.(epoch := was.epoch + 1);
      current := Some(now);
      completed := None;
      invalidations := invalidations + 1;
      event := Some(EpochInvalidated(was, now.epoch));
    }

    method Complete(stamp: ControlStamp) returns (done: bool)
      modifies this
      ensures done <==> old(current) == Some(stamp)
      ensures View() == old(View()).Complete(stamp)
      ensures current == old(current) && completed == if done then Some(stamp) else old(completed)
    {
      if current != Some(stamp) {
        return false;
      }
      completed := Some(stamp);
      done := true;
    }

    method IsCurrent(stamp: ControlStamp) returns (yes: bool)
      ensures yes <==> View().IsCurrent(stamp)
    {
      yes := stamp.Scoped() && current == Some(stamp);
    }
  }

  // ---------------------------------------------------------------------------
  // Histories of one authority
  // ---------------------------------------------------------------------------

  datatype OwnerEvent =
    | TurnBegun(turnId: string)
    | EpochAdvanced
    | TurnCompleted(stamp: ControlStamp)

  /** The authority together with every stamp it has issued, in order. */
  datatype Ledger = Ledger(owner: Owner, issued: seq<ControlStamp>) {
    /** Turn ids are fresh: the source draws them from uuid4. */
    ghost predicate FreshTurn(turnId: string) {
      turnId != "" && forall i :: 0 <= i < |issued| ==> issued[i].turnId != turnId
    }

    ghost predicate Enabled(e: OwnerEvent) {
      match e
      case TurnBegun(turnId) => FreshTurn(turnId)
      case EpochAdvanced => owner.CanInvalidate()
      case TurnCompleted(_) => true
    }

    function Apply(e: OwnerEvent): Ledger
      requires e.EpochAdvanced? ==> owner.CanInvalidate()
    {
      match e
      case TurnBegun(turnId) =>
        Ledger(owner.BeginTurn(turnId), issued + [ControlStamp(owner.sessionId, turnId, 1)])
      case EpochAdvanced =>
        Ledger(owner.Invalidate(), issued + [owner.InvalidationEvent().Next()])
      case TurnCompleted(stamp) =>
        Ledger(owner.Complete(stamp), issued)
    }

    /** A stamp the authority issued and has since replaced. */
    ghost predicate Past(stamp: ControlStamp) {
      stamp in issued && owner.current != Some(stamp)
    }

    ghost predicate Valid() {
      && owner.sessionId != ""
      && (owner.current.None? <==> issued == [])
      && (owner.current.Some? ==> owner.current.value == issued[|issued| - 1])
      && (owner.completed.None? || owner.completed == owner.current)
      && (forall i :: 0 <= i < |issued| ==> issued[i].Scoped())
      && (forall i, j :: 0 <= i < j < |issued| && issued[i].turnId == issued[j].turnId ==>
            issued[i].epoch < issued[j].epoch)
    }
  }

  ghost function FreshLedger(sessionId: string): Ledger {
    Ledger(Owner(sessionId, None, None, 0), [])
  }

  ghost predicate Follows(a: Ledger, es: seq<OwnerEvent>, b: Ledger)
    decreases |es|
  {
    if es == [] then a == b
    else a.Enabled(es[0]) && Follows(a.Apply(es[0]), es[1..], b)
  }

  lemma ApplyKeepsValid(a: Ledger, e: OwnerEvent)
    requires a.Valid() && a.Enabled(e)
    ensures a.Apply(e).Valid()
    ensures a.issued <= a.Apply(e).issued
    ensures |a.Apply(e).issued| <= |a.issued| + 1
    ensures a.Apply(e).issued == a.issued ==> a.Apply(e).owner.current == a.owner.current
  {
    var b := a.Apply(e);
    if e.EpochAdvanced? {
      var n := |a.issued|;
      forall i | 0 <= i < n && b.issued[i].turnId == b.issued[n].turnId
        ensures b.issued[i].epoch < b.issued[n].epoch
      {
        assert b.issued[n].epoch == a.issued[n - 1].epoch + 1;
        assert i < n - 1 ==> a.issued[i].epoch < a.issued[n - 1].epoch;
      }
    }
  }

  lemma {:induction false} RunKeepsValid(a: Ledger, es: seq<OwnerEvent>, b: Ledger)
    requires a.Valid() && Follows(a, es, b)
    ensures b.Valid() && a.issued <= b.issued
    decreases |es|
  {
    if es != [] {
      ApplyKeepsValid(a, es[0]);
      RunKeepsValid(a.Apply(es[0]), es[1..], b);
    }
  }

  lemma IssuedOnce(a: Ledger, i: nat, j: nat)
    requires a.Valid() && i < j < |a.issued|
    ensures a.issued[i] != a.issued[j]
  {
    if a.issued[i].turnId == a.issued[j].turnId {
      assert a.issued[i].epoch < a.issued[j].epoch;
    }
  }

  /** How many of the events advance an epoch. */
  function Advances(es: seq<OwnerEvent>): nat {
    if es == [] then 0 else (if es[0].EpochAdvanced? then 1 else 0) + Advances(es[1..])
  }

  /** The stamps of a session: a turn begins at epoch 1 and its epochs are counted up one by one. */
  ghost predicate Numbered(a: Ledger) {
    && (forall i :: 0 <= i < |a.issued| ==> a.issued[i].sessionId == a.owner.sessionId)
    && (a.issued != [] ==> a.issued[0].epoch == 1)
    && (forall i, j :: 0 <= i && j == i + 1 < |a.issued| ==> Succeeds(a.issued[i], a.issued[j]))
  }

  ghost predicate Succeeds(x: ControlStamp, y: ControlStamp) {
    y.epoch == if y.turnId == x.turnId then x.epoch + 1 else 1
  }

  lemma ApplyKeepsNumbered(a: Ledger, e: OwnerEvent)
    requires a.Valid() && a.Enabled(e) && Numbered(a)
    ensures Numbered(a.Apply(e))
  {
    var b := a.Apply(e);
    forall i, j | 0 <= i && j == i + 1 < |b.issued| ensures Succeeds(b.issued[i], b.issued[j]) {
      assert j < |a.issued| ==> Succeeds(a.issued[i], a.issued[j]);
    }
  }

  /** Over every run epochs are counted one by one from 1, and the authority's counter counts the invalidations. */
  lemma {:induction false} EpochsAreCounted(a: Ledger, es: seq<OwnerEvent>, b: Ledger)
    requires a.Valid() && Numbered(a) && Follows(a, es, b)
    ensures Numbered(b) && b.owner.invalidations == a.owner.invalidations + Advances(es)
    decreases |es|
  {
    if es != [] {
      ApplyKeepsValid(a, es[0]);
      ApplyKeepsNumbered(a, es[0]);
      EpochsAreCounted(a.Apply(es[0]), es[1..], b);
    }
  }

  /** A stamp that has been replaced stays replaced: nothing brings it back. */
  lemma NoResurrection(a: Ledger, es: seq<OwnerEvent>, b: Ledger, stamp: ControlStamp)
    requires a.Valid() && Follows(a, es, b) && a.Past(stamp)
    ensures b.Past(stamp) && !b.owner.IsCurrent(stamp) && !b.owner.IsActive(stamp)
  {
    RunKeepsValid(a, es, b);
    var i :| 0 <= i < |a.issued| && a.issued[i] == stamp;
    assert b.issued[i] == stamp;
    assert i < |a.issued| - 1;
    IssuedOnce(b, i, |b.issued| - 1);
  }

  /** Each stamp is current for one contiguous interval of every run. */
  lemma OneInterval(a: Ledger, es: seq<OwnerEvent>, b: Ledger, fs: seq<OwnerEvent>, c: Ledger, stamp: ControlStamp)
    requires a.Valid() && Follows(a, es, b) && Follows(b, fs, c)
    requires a.owner.current == Some(stamp) && c.owner.current == Some(stamp)
    ensures b.owner.current == Some(stamp) && a.issued == b.issued == c.issued
  {
    RunKeepsValid(a, es, b);
    RunKeepsValid(b, fs, c);
    var n := |a.issued| - 1;
    assert a.issued[n] == b.issued[n] == c.issued[n] == stamp;
    assert |c.issued| - 1 == n;
  }

  /** Once complete, a stamp can no longer be invalidated until the next turn begins. */
  lemma {:induction false} CompletedStaysQuiescent(a: Ledger, es: seq<OwnerEvent>, b: Ledger)
    requires a.Valid() && Follows(a, es, b)
    requires a.owner.completed.Some?
    requires forall i :: 0 <= i < |es| ==> !es[i].TurnBegun?
    ensures b.owner.current == a.owner.current && b.owner.completed == a.owner.completed && b.issued == a.issued
    decreases |es|
  {
    if es != [] {
      ApplyKeepsValid(a, es[0]);
      CompletedStaysQuiescent(a.Apply(es[0]), es[1..], b);
    }
  }

  /** A turn is complete only if its own stamp was completed, while it was current. */
  lemma {:induction false} CompletedByItsOwn(a: Ledger, es: seq<OwnerEvent>, b: Ledger)
    requires a.Valid() && a.owner.completed == None && Follows(a, es, b) && b.owner.completed.Some?
    ensures TurnCompleted(b.owner.completed.value) in es
    decreases |es|
  {
    if es != [] {
      var m := a.Apply(es[0]);
      ApplyKeepsValid(a, es[0]);
      if m.owner.completed == None {
        CompletedByItsOwn(m, es[1..], b);
      } else {
        CompletedOrBegun(m, es[1..], b);
      }
    }
  }

  /** From a completed turn on the mark stays, until a later turn is completed in its turn. */
  lemma {:induction false} CompletedOrBegun(a: Ledger, es: seq<OwnerEvent>, b: Ledger)
    requires a.Valid() && a.owner.completed.Some? && Follows(a, es, b) && b.owner.completed.Some?
    ensures b.owner.completed == a.owner.completed || TurnCompleted(b.owner.completed.value) in es
    decreases |es|
  {
    if es != [] {
      var m := a.Apply(es[0]);
      ApplyKeepsValid(a, es[0]);
      if m.owner.completed == None {
        CompletedByItsOwn(m, es[1..], b);
      } else {
        CompletedOrBegun(m, es[1..], b);
      }
    }
  }

  // ---------------------------------------------------------------------------
  // The agent-side replica
  // ---------------------------------------------------------------------------

  /** What the authority tells its replicas: a speech event at each turn, an event at each invalidation. */
  datatype Message = Turn(stamp: ControlStamp) | Invalidation(event: EpochInvalidated)

  class ControlPlaneReplica {
    var current: Option<ControlStamp>

    constructor ()
      ensures current == None
    {
      current := None;
    }

    method ObserveTurn(stamp: ControlStamp)
      modifies this
      ensures current == Observe(old(current), Turn(stamp))
    {
      current := Some(stamp);
    }

    method Apply(event: EpochInvalidated) returns (applied: bool)
      modifies this
      ensures applied <==> old(current) == Some(event.stamp)
      ensures current == Observe(old(current), Invalidation(event))
      ensures current == if applied then Some(event.Next()) else old(current)
    {
      if current != Some(event.stamp) {
        return false;
      }
      current := Some(event.Next());
      applied := true;
    }
  }

  function Observe(current: Option<ControlStamp>, m: Message): Option<ControlStamp> {
    match m
    case Turn(stamp) => Some(stamp)
    case Invalidation(event) => if current == Some(event.stamp) then Some(event.Next()) else current
  }

  function ObserveAll(current: Option<ControlStamp>, ms: seq<Message>): Option<ControlStamp>
    decreases |ms|
  {
    if ms == [] then current else ObserveAll(Observe(current, ms[0]), ms[1..])
  }

  /** The messages one authority event gives rise to. */
  ghost function Announce(a: Ledger, e: OwnerEvent): seq<Message>
    requires a.Enabled(e)
  {
    match e
    case TurnBegun(turnId) => [Turn(ControlStamp(a.owner.sessionId, turnId, 1))]
    case EpochAdvanced => [Invalidation(a.owner.InvalidationEvent())]
    case TurnCompleted(_) => []
  }

  ghost function AnnounceAll(a: Ledger, es: seq<OwnerEvent>, b: Ledger): seq<Message>
    requires Follows(a, es, b)
    decreases |es|
  {
    if es == [] then [] else Announce(a, es[0]) + AnnounceAll(a.Apply(es[0]), es[1..], b)
  }

  lemma {:induction false} ObserveAllConcat(current: Option<ControlStamp>, ms: seq<Message>, ns: seq<Message>)
    ensures ObserveAll(current, ms + ns) == ObserveAll(ObserveAll(current, ms), ns)
    decreases |ms|
  {
    if ms == [] {
      assert ms + ns == ns;
    } else {
      assert (ms + ns)[1..] == ms[1..] + ns;
      ObserveAllConcat(Observe(current, ms[0]), ms[1..], ns);
    }
  }

  lemma SplitTail<T>(es: seq<T>, m: nat)
    requires es != [] && m <= |es| - 1
    ensures es[..m + 1][1..] == es[1..][..m] && es[m + 1..] == es[1..][m..] && es[..m + 1][0] == es[0]
  {
  }

  /**
   In-order delivery: however far behind the replica is, what it holds is exactly the stamp
   the authority held when the last delivered message was sent.  `n` events of the history
   account for the `k` delivered messages, and `mid` is the authority after them.
   */
  lemma {:induction false} ReplicaLag(a: Ledger, es: seq<OwnerEvent>, b: Ledger, k: nat) returns (n: nat, mid: Ledger)
    requires a.Valid() && Follows(a, es, b) && k <= |AnnounceAll(a, es, b)|
    ensures n <= |es| && Follows(a, es[..n], mid) && Follows(mid, es[n..], b)
    ensures AnnounceAll(a, es[..n], mid) == AnnounceAll(a, es, b)[..k]
    ensures ObserveAll(a.owner.current, AnnounceAll(a, es, b)[..k]) == mid.owner.current
    decreases |es|
  {
    if k == 0 {
      assert es[0..] == es;
      return 0, a;
    }
    var a' := a.Apply(es[0]);
    var here := Announce(a, es[0]);
    HereFirst(a, es, b, k);
    var m;
    m, mid := ReplicaLag(a', es[1..], b, k - |here|);
    n := m + 1;
    var rest := AnnounceAll(a', es[1..], b);
    LagStep(a, es, b, m, mid);
    TakeConcat(here, rest, k);
    LagObserves(a, es[0], rest[..k - |here|], mid);
  }

  lemma {:induction false} LagObserves(a: Ledger, e: OwnerEvent, rest: seq<Message>, mid: Ledger)
    requires a.Valid() && a.Enabled(e) && ObserveAll(a.Apply(e).owner.current, rest) == mid.owner.current
    ensures ObserveAll(a.owner.current, Announce(a, e) + rest) == mid.owner.current
  {
    AnnounceOne(a, e);
    ObserveAllConcat(a.owner.current, Announce(a, e), rest);
  }

  lemma HereFirst(a: Ledger, es: seq<OwnerEvent>, b: Ledger, k: nat)
    requires a.Valid() && Follows(a, es, b) && es != [] && 0 < k <= |AnnounceAll(a, es, b)|
    ensures a.Apply(es[0]).Valid() && |Announce(a, es[0])| <= 1
    ensures AnnounceAll(a, es, b) == Announce(a, es[0]) + AnnounceAll(a.Apply(es[0]), es[1..], b)
  {
    ApplyKeepsValid(a, es[0]);
  }

  lemma TakeConcat<T>(a: seq<T>, b: seq<T>, k: nat)
    requires |a| <= k <= |a| + |b|
    ensures (a + b)[..k] == a + b[..k - |a|]
  {
  }

  /** One event in front of a part of the history. */
  lemma {:induction false} LagStep(a: Ledger, es: seq<OwnerEvent>, b: Ledger, m: nat, mid: Ledger)
    requires Follows(a, es, b) && es != [] && m <= |es| - 1
    requires Follows(a.Apply(es[0]), es[1..][..m], mid) && Follows(mid, es[1..][m..], b)
    ensures Follows(a, es[..m + 1], mid) && Follows(mid, es[m + 1..], b)
    ensures AnnounceAll(a, es[..m + 1], mid) == Announce(a, es[0]) + AnnounceAll(a.Apply(es[0]), es[1..][..m], mid)
  {
    SplitTail(es, m);
  }

  lemma AnnounceOne(a: Ledger, e: OwnerEvent)
    requires a.Valid() && a.Enabled(e)
    ensures ObserveAll(a.owner.current, Announce(a, e)) == a.Apply(e).owner.current
  {
    var ms := Announce(a, e);
    if ms != [] {
      assert ms[1..] == [];
      assert ObserveAll(a.owner.current, ms) == ObserveAll(Observe(a.owner.current, ms[0]), []);
    }
  }

  /** Invalidations as the authority sends them, in whatever order and however often they arrive. */
  ghost predicate Invalidations(ms: seq<Message>) {
    forall i :: 0 <= i < |ms| ==> ms[i].Invalidation? && ms[i].event.nextEpoch == ms[i].event.stamp.epoch + 1
  }

  /** They never take a replica to another turn or back to an earlier epoch. */
  lemma {:induction false} InvalidationsOnlyAdvance(current: Option<ControlStamp>, ms: seq<Message>)
    requires Invalidations(ms)
    ensures var r := ObserveAll(current, ms);
      && (current.None? ==> r.None?)
      && (current.Some? ==>
            && r.Some? && r.value.sessionId == current.value.sessionId && r.value.turnId == current.value.turnId
            && current.value.epoch <= r.value.epoch)
    decreases |ms|
  {
    if ms != [] {
      InvalidationsOnlyAdvance(Observe(current, ms[0]), ms[1..]);
    }
  }

  ghost predicate Announced(a: Ledger, m: Message) {
    match m
    case Turn(stamp) => stamp in a.issued
    case Invalidation(event) => event.Next() in a.issued
  }

  lemma {:induction false} AnnouncedAll(a: Ledger, es: seq<OwnerEvent>, b: Ledger)
    requires a.Valid() && Follows(a, es, b)
    ensures forall m :: m in AnnounceAll(a, es, b) ==> Announced(b, m)
    decreases |es|
  {
    if es != [] {
      var a' := a.Apply(es[0]);
      ApplyKeepsValid(a, es[0]);
      AnnouncedAll(a', es[1..], b);
      RunKeepsValid(a', es[1..], b);
      forall m | m in AnnounceAll(a, es, b)
        ensures Announced(b, m)
      {
        if m in Announce(a, es[0]) {
          assert a'.issued[|a'.issued| - 1] == b.issued[|a'.issued| - 1];
        }
      }
    }
  }

  lemma {:induction false} ObserveAnnounced(b: Ledger, current: Option<ControlStamp>, ms: seq<Message>)
    requires current.None? || current.value in b.issued
    requires forall m :: m in ms ==> Announced(b, m)
    ensures var r := ObserveAll(current, ms); r.None? || r.value in b.issued
    decreases |ms|
  {
    if ms != [] {
      assert Announced(b, ms[0]);
      ObserveAnnounced(b, Observe(current, ms[0]), ms[1..]);
    }
  }

  /**
   Any delivery: messages may be lost, repeated or reordered, and the replica still never
   holds a stamp the authority did not issue.
   */
  lemma ReplicaNeverInvents(a: Ledger, es: seq<OwnerEvent>, b: Ledger, delivered: seq<Message>)
    requires a.Valid() && a.issued == [] && Follows(a, es, b)
    requires forall m :: m in delivered ==> m in AnnounceAll(a, es, b)
    ensures var r := ObserveAll(None, delivered); r.None? || r.value in b.issued
  {
    AnnouncedAll(a, es, b);
    ObserveAnnounced(b, None, delivered);
  }
}
