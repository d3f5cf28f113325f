/**
 The bounded, expiring event deduplicator
 (src/star_runtime/transports/dds/reliability.py:146-167), against the whole history of its
 calls.
 */
module Deduplicator {
  import opened Collections

  /** An ordered-dictionary item: the id and when it was accepted. */
  datatype Entry = Entry(id: string, at: int)

  /** One past call of accept. */
  datatype Call = Call(id: string, now: int, accepted: bool)

  // ---------------------------------------------------------------------------
  // One call on the table
  // ---------------------------------------------------------------------------

  function Expire(seen: seq<Entry>, now: int, ttl: int): (r: seq<Entry>)
    ensures |r| <= |seen| && r == seen[|seen| - |r|..]
    ensures forall i :: 0 <= i < |seen| - |r| ==> ttl < now - seen[i].at
  {
    if seen == [] || now - seen[0].at <= ttl then seen else Expire(seen[1..], now, ttl)
  }

  function Find(seen: seq<Entry>, id: string): (k: nat)
    ensures k <= |seen|
    ensures k < |seen| ==> seen[k].id == id
    ensures forall i :: 0 <= i < k ==> seen[i].id != id
  {
    if seen == [] || seen[0].id == id then 0 else 1 + Find(seen[1..], id)
  }

  predicate Has(seen: seq<Entry>, id: string) {
    exists i :: 0 <= i < |seen| && seen[i].id == id
  }

  lemma FindHas(seen: seq<Entry>, id: string)
    ensures Has(seen, id) <==> Find(seen, id) < |seen|
  {
    if Find(seen, id) < |seen| {
      assert seen[Find(seen, id)].id == id;
    }
  }

  function Newest(seen: seq<Entry>, capacity: nat): seq<Entry> {
    if |seen| <= capacity then seen else seen[|seen| - capacity..]
  }

  /** The table after a call; a known id moves to the end and keeps its time. */
  function Table(seen: seq<Entry>, id: string, now: int, ttl: int, capacity: nat): seq<Entry> {
    var live := Expire(seen, now, ttl);
    var k := Find(live, id);
    if k < |live| then Moved(live, k)
    else Newest(live + [Entry(id, now)], capacity)
  }

  predicate Admits(seen: seq<Entry>, id: string, now: int, ttl: int) {
    !Has(Expire(seen, now, ttl), id)
  }

  // ---------------------------------------------------------------------------
  // The history
  // ---------------------------------------------------------------------------

  /** Position of the last call for `id`, or -1. */
  ghost function LastSighting(calls: seq<Call>, id: string): (i: int)
    ensures -1 <= i < |calls|
    ensures i >= 0 ==> calls[i].id == id
  {
    if calls == [] then -1
    else if calls[|calls| - 1].id == id then |calls| - 1
    else LastSighting(calls[..|calls| - 1], id)
  }

  /** Position of the last accepted call for `id`, or -1. */
  ghost function LastAccepted(calls: seq<Call>, id: string): (i: int)
    ensures -1 <= i <= LastSighting(calls, id)
    ensures i >= 0 ==> calls[i].id == id && calls[i].accepted
  {
    if calls == [] then -1
    else if calls[|calls| - 1].id == id && calls[|calls| - 1].accepted then |calls| - 1
    else LastAccepted(calls[..|calls| - 1], id)
  }

  ghost function Ids(calls: seq<Call>): set<string> {
    set i | 0 <= i < |calls| :: calls[i].id
  }

  /** The distinct ids presented after the last sighting of `id`. */
  ghost function OthersSince(calls: seq<Call>, id: string): set<string> {
    Ids(calls[LastSighting(calls, id) + 1..])
  }

  ghost predicate Monotone(calls: seq<Call>) {
    forall i, j :: 0 <= i <= j < |calls| ==> calls[i].now <= calls[j].now
  }

  /** The clock has not run backwards since the last call. */
  ghost predicate NotBefore(calls: seq<Call>, now: int) {
    calls != [] ==> calls[|calls| - 1].now <= now
  }

  lemma MonotoneMore(calls: seq<Call>, c: Call)
    requires Monotone(calls) && NotBefore(calls, c.now)
    ensures Monotone(calls + [c])
  {
    var all := calls + [c];
    forall i, j | 0 <= i <= j < |all|
      ensures all[i].now <= all[j].now
    {
      if i < |calls| {
        assert all[i] == calls[i] && calls[i].now <= calls[|calls| - 1].now;
      }
    }
  }

  /** Why an id accepted earlier may be missing: its time is up, or enough others came after it. */
  ghost predicate Forgettable(calls: seq<Call>, id: string, ttl: int, capacity: nat)
    requires calls != [] && LastAccepted(calls, id) >= 0
  {
    || ttl < calls[|calls| - 1].now - calls[LastAccepted(calls, id)].now
    || capacity <= |OthersSince(calls, id)|
  }

  /** The table is ordered by last sighting, dated by acceptance, and forgets only what it may. */
  ghost predicate Consistent(seen: seq<Entry>, calls: seq<Call>, ttl: int, capacity: nat) {
    && |seen| <= capacity
    && Monotone(calls)
    && Sound(seen, calls)
    && Complete(seen, calls, ttl, capacity)
  }

  /** Ordered by last sighting, and dated by acceptance. */
  ghost predicate Sound(seen: seq<Entry>, calls: seq<Call>) {
    && (forall i, j :: 0 <= i < j < |seen| ==> LastSighting(calls, seen[i].id) < LastSighting(calls, seen[j].id))
    && (forall i :: 0 <= i < |seen| ==> Dated(seen[i], calls))
  }

  ghost predicate Dated(e: Entry, calls: seq<Call>) {
    LastAccepted(calls, e.id) >= 0 && calls[LastAccepted(calls, e.id)].now == e.at
  }

  lemma OneMore(calls: seq<Call>, c: Call, id: string)
    ensures LastSighting(calls + [c], id) == if c.id == id then |calls| else LastSighting(calls, id)
    ensures LastAccepted(calls + [c], id) == if c.id == id && c.accepted then |calls| else LastAccepted(calls, id)
  {
    assert (calls + [c])[..|calls|] == calls;
  }

  lemma MoreOthers(calls: seq<Call>, c: Call, id: string)
    requires c.id != id
    ensures OthersSince(calls, id) <= OthersSince(calls + [c], id)
    ensures |OthersSince(calls, id)| <= |OthersSince(calls + [c], id)|
  {
    OneMore(calls, c, id);
    var n := LastSighting(calls, id) + 1;
    var before, after := calls[n..], (calls + [c])[n..];
    assert after == before + [c];
    forall x | x in Ids(before)
      ensures x in Ids(after)
    {
      var i :| 0 <= i < |before| && before[i].id == x;
      assert after[i].id == x;
    }
    SubsetSize(OthersSince(calls, id), OthersSince(calls + [c], id));
  }

  /** What could be forgotten stays forgettable until its id is presented again. */
  lemma StaysForgettable(calls: seq<Call>, c: Call, id: string, ttl: int, capacity: nat)
    requires calls != [] && LastAccepted(calls, id) >= 0 && Forgettable(calls, id, ttl, capacity)
    requires c.id != id && Monotone(calls + [c])
    ensures LastAccepted(calls + [c], id) >= 0 && Forgettable(calls + [c], id, ttl, capacity)
  {
    OneMore(calls, c, id);
    MoreOthers(calls, c, id);
    var all := calls + [c];
    assert all[|calls| - 1].now <= all[|calls|].now;
    assert all[LastAccepted(calls, id)] == calls[LastAccepted(calls, id)];
  }

  // ---------------------------------------------------------------------------
  // A call keeps the table consistent
  // ---------------------------------------------------------------------------

  /** `all` is the history `calls` extended by the call being made. */
  lemma EntriesCarryOver(seen: seq<Entry>, calls: seq<Call>, c: Call, i: nat)
    requires i < |seen| && Dated(seen[i], calls) && !(c.id == seen[i].id && c.accepted)
    ensures Dated(seen[i], calls + [c])
    ensures c.id != seen[i].id ==> LastSighting(calls + [c], seen[i].id) == LastSighting(calls, seen[i].id)
  {
    OneMore(calls, c, seen[i].id);
  }

  lemma ExpiredAt(seen: seq<Entry>, now: int, ttl: int, i: nat)
    requires i < |seen| && !Has(Expire(seen, now, ttl), seen[i].id)
    ensures ttl < now - seen[i].at
  {
    var live := Expire(seen, now, ttl);
    var d := |seen| - |live|;
    forall k | d <= k < |seen| ensures seen[k].id != seen[i].id {
      assert live[k - d] == seen[k];
    }
  }

  /** An id that drops out of the live entries has expired, if it was not forgettable before. */
  lemma {:induction false} ExpiredForgettable(seen: seq<Entry>, calls: seq<Call>, c: Call, id: string, ttl: int,
                                              capacity: nat)
    requires Consistent(seen, calls, ttl, capacity) && Monotone(calls + [c])
    requires LastAccepted(calls, id) >= 0 && !Has(Expire(seen, c.now, ttl), id) && c.id != id
    ensures LastAccepted(calls + [c], id) >= 0 && Forgettable(calls + [c], id, ttl, capacity)
  {
    if Has(seen, id) {
      DroppedIsOld(seen, calls, id, c.now, ttl);
      OneMore(calls, c, id);
    } else {
      StaysForgettable(calls, c, id, ttl, capacity);
    }
  }

  /** The newest entries of an ordered, dated table are ordered and dated. */
  lemma SuffixSound(seen: seq<Entry>, calls: seq<Call>, k: nat)
    requires Sound(seen, calls) && k <= |seen|
    ensures Sound(seen[k..], calls)
  {
    var rest := seen[k..];
    forall i, j | 0 <= i < j < |rest|
      ensures LastSighting(calls, rest[i].id) < LastSighting(calls, rest[j].id)
    {
      assert rest[i] == seen[k + i] && rest[j] == seen[k + j];
    }
    forall i | 0 <= i < |rest|
      ensures Dated(rest[i], calls)
    {
      assert rest[i] == seen[k + i];
    }
  }

  lemma {:induction false} OrderedMeansDistinct(seen: seq<Entry>, calls: seq<Call>, k: nat)
    requires Sound(seen, calls) && k < |seen|
    ensures forall i :: 0 <= i < |seen| && i != k ==> seen[i].id != seen[k].id
  {
    forall i | 0 <= i < |seen| && i != k
      ensures seen[i].id != seen[k].id
    {
      if i < k {
        assert LastSighting(calls, seen[i].id) < LastSighting(calls, seen[k].id);
      } else {
        assert LastSighting(calls, seen[k].id) < LastSighting(calls, seen[i].id);
      }
    }
  }

  /** Entries of other ids are untouched by one more call. */
  lemma OthersSound(seen: seq<Entry>, calls: seq<Call>, c: Call)
    requires Sound(seen, calls) && forall i :: 0 <= i < |seen| ==> seen[i].id != c.id
    ensures Sound(seen, calls + [c])
    ensures forall i :: 0 <= i < |seen| ==> LastSighting(calls + [c], seen[i].id) < |calls|
  {
    forall i | 0 <= i < |seen|
      ensures Dated(seen[i], calls + [c]) && LastSighting(calls + [c], seen[i].id) == LastSighting(calls, seen[i].id)
    {
      EntriesCarryOver(seen, calls, c, i);
    }
  }

  /** The entry of the id just presented goes last. */
  lemma LastSound(seen: seq<Entry>, calls: seq<Call>, c: Call, e: Entry)
    requires Sound(seen, calls) && forall i :: 0 <= i < |seen| ==> seen[i].id != c.id
    requires e.id == c.id && Dated(e, calls + [c])
    ensures Sound(seen + [e], calls + [c])
  {
    var all, table := calls + [c], seen + [e];
    OthersSound(seen, calls, c);
    OneMore(calls, c, c.id);
    forall i, j | 0 <= i < j < |table|
      ensures LastSighting(all, table[i].id) < LastSighting(all, table[j].id)
    {
      assert table[i] == seen[i];
      if j < |seen| {
        assert table[j] == seen[j];
      }
    }
  }

  /** Taking one entry out keeps the others in order. */
  lemma WithoutSound(seen: seq<Entry>, calls: seq<Call>, k: nat)
    requires Sound(seen, calls) && k < |seen|
    ensures Sound(seen[..k] + seen[k + 1..], calls)
    ensures forall i :: 0 <= i < |seen| - 1 ==> (seen[..k] + seen[k + 1..])[i] == seen[From(i, k)]
  {
    var rest := seen[..k] + seen[k + 1..];
    forall i, j | 0 <= i < j < |rest|
      ensures LastSighting(calls, rest[i].id) < LastSighting(calls, rest[j].id)
    {
      assert rest[i] == seen[From(i, k)] && rest[j] == seen[From(j, k)];
    }
    forall i | 0 <= i < |rest|
      ensures Dated(rest[i], calls)
    {
      assert rest[i] == seen[From(i, k)];
    }
  }

  /** Where entry `i` was before entry `k` was taken out. */
  function From(i: nat, k: nat): nat {
    if i < k then i else i + 1
  }

  /** Every id of the live entries is still in the table, or the table was full of later ones. */
  lemma LaterIds(table: seq<Entry>, calls: seq<Call>, id: string)
    requires Sound(table, calls)
    requires forall i :: 0 <= i < |table| ==> LastSighting(calls, id) < LastSighting(calls, table[i].id)
    ensures |table| <= |OthersSince(calls, id)|
  {
    var n := LastSighting(calls, id) + 1;
    var ids := TableIds(table);
    forall x | x in ids
      ensures x in OthersSince(calls, id)
    {
      var i :| 0 <= i < |table| && table[i].id == x;
      var p := LastSighting(calls, x);
      assert calls[n..][p - n].id == x;
    }
    DistinctIds(table, calls);
    SubsetSize(ids, OthersSince(calls, id));
  }

  ghost function TableIds(table: seq<Entry>): set<string> {
    set i | 0 <= i < |table| :: table[i].id
  }

  lemma TableIdsCons(table: seq<Entry>)
    requires table != []
    ensures TableIds(table) == TableIds(table[1..]) + {table[0].id}
    ensures table[0].id in TableIds(table[1..]) ==> exists i :: 0 < i < |table| && table[i].id == table[0].id
  {
    var rest := table[1..];
    forall x ensures x in TableIds(table) <==> x in TableIds(rest) + {table[0].id} {
      if x in TableIds(table) {
        var i :| 0 <= i < |table| && table[i].id == x;
        assert i > 0 ==> rest[i - 1].id == x;
      }
      if x in TableIds(rest) {
        var i :| 0 <= i < |rest| && rest[i].id == x;
        assert table[i + 1].id == x;
      }
    }
  }

  lemma {:induction false} DistinctIds(table: seq<Entry>, calls: seq<Call>)
    requires Sound(table, calls)
    ensures |TableIds(table)| == |table|
    decreases |table|
  {
    if table != [] {
      SuffixSound(table, calls, 1);
      DistinctIds(table[1..], calls);
      OrderedMeansDistinct(table, calls, 0);
      TableIdsCons(table);
    }
  }

  /** The table after a duplicate of live entry `k`. */
  function Moved(live: seq<Entry>, k: nat): seq<Entry>
    requires k < |live|
  {
    live[..k] + live[k + 1..] + [live[k]]
  }

  lemma MovedSound(live: seq<Entry>, calls: seq<Call>, c: Call, k: nat)
    requires Sound(live, calls) && k < |live| && live[k].id == c.id && !c.accepted
    ensures Sound(Moved(live, k), calls + [c])
  {
    OrderedMeansDistinct(live, calls, k);
    WithoutSound(live, calls, k);
    EntriesCarryOver(live, calls, c, k);
    LastSound(live[..k] + live[k + 1..], calls, c, live[k]);
  }

  lemma MovedHas(live: seq<Entry>, k: nat, id: string)
    requires k < |live|
    ensures Has(live, id) ==> Has(Moved(live, k), id)
  {
    if Has(live, id) {
      var i :| 0 <= i < |live| && live[i].id == id;
      assert Moved(live, k)[if i < k then i else if i == k then |live| - 1 else i - 1] == live[i];
    }
  }

  /** Every accepted id missing from `table` is forgettable. */
  ghost predicate Complete(table: seq<Entry>, calls: seq<Call>, ttl: int, capacity: nat) {
    forall id :: LastAccepted(calls, id) >= 0 && !Has(table, id) ==> Forgettable(calls, id, ttl, capacity)
  }

  lemma MovedComplete(seen: seq<Entry>, calls: seq<Call>, c: Call, k: nat, ttl: int, capacity: nat)
    requires Consistent(seen, calls, ttl, capacity) && Monotone(calls + [c]) && !c.accepted
    requires k < |Expire(seen, c.now, ttl)| && Expire(seen, c.now, ttl)[k].id == c.id
    ensures Complete(Moved(Expire(seen, c.now, ttl), k), calls + [c], ttl, capacity)
  {
    var live, all := Expire(seen, c.now, ttl), calls + [c];
    forall x | LastAccepted(all, x) >= 0 && !Has(Moved(live, k), x)
      ensures Forgettable(all, x, ttl, capacity)
    {
      MovedHas(live, k, x);
      OneMore(calls, c, x);
      ExpiredForgettable(seen, calls, c, x, ttl, capacity);
    }
  }

  /** A duplicate keeps the table consistent. */
  lemma DuplicateKeeps(seen: seq<Entry>, calls: seq<Call>, c: Call, k: nat, ttl: int, capacity: nat)
    requires Consistent(seen, calls, ttl, capacity) && Monotone(calls + [c]) && !c.accepted
    requires k < |Expire(seen, c.now, ttl)| && Expire(seen, c.now, ttl)[k].id == c.id
    ensures Consistent(Moved(Expire(seen, c.now, ttl), k), calls + [c], ttl, capacity)
  {
    var live := Expire(seen, c.now, ttl);
    SuffixSound(seen, calls, |seen| - |live|);
    MovedSound(live, calls, c, k);
    MovedComplete(seen, calls, c, k, ttl, capacity);
  }

  /** A new id goes to the end of the live entries. */
  lemma NewSound(live: seq<Entry>, calls: seq<Call>, c: Call, capacity: nat)
    requires Sound(live, calls) && !Has(live, c.id) && c.accepted
    ensures Sound(live + [Entry(c.id, c.now)], calls + [c])
    ensures Sound(Newest(live + [Entry(c.id, c.now)], capacity), calls + [c])
  {
    var longer := live + [Entry(c.id, c.now)];
    OneMore(calls, c, c.id);
    LastSound(live, calls, c, Entry(c.id, c.now));
    SuffixSound(longer, calls + [c], |longer| - |Newest(longer, capacity)|);
  }

  lemma NewComplete(seen: seq<Entry>, calls: seq<Call>, c: Call, ttl: int, capacity: nat)
    requires Consistent(seen, calls, ttl, capacity) && Monotone(calls + [c]) && c.accepted
    requires Admits(seen, c.id, c.now, ttl)
    ensures Complete(Newest(Expire(seen, c.now, ttl) + [Entry(c.id, c.now)], capacity), calls + [c], ttl, capacity)
  {
    var live, all := Expire(seen, c.now, ttl), calls + [c];
    var longer := live + [Entry(c.id, c.now)];
    var table := Newest(longer, capacity);
    SuffixSound(seen, calls, |seen| - |live|);
    NewSound(live, calls, c, capacity);
    assert longer[|live|].id == c.id;
    forall x | LastAccepted(all, x) >= 0 && !Has(table, x)
      ensures Forgettable(all, x, ttl, capacity)
    {
      if Has(longer, x) {
        var i :| 0 <= i < |longer| && longer[i].id == x;
        Evicted(longer, all, table, i, capacity);
      } else {
        forall k | 0 <= k < |live| ensures live[k].id != x {
          assert longer[k] == live[k];
        }
        OneMore(calls, c, x);
        ExpiredForgettable(seen, calls, c, x, ttl, capacity);
      }
    }
  }

  /** A new id keeps the table consistent; the oldest entries beyond the capacity go. */
  lemma NewKeeps(seen: seq<Entry>, calls: seq<Call>, c: Call, ttl: int, capacity: nat)
    requires Consistent(seen, calls, ttl, capacity) && Monotone(calls + [c]) && c.accepted
    requires Admits(seen, c.id, c.now, ttl)
    ensures Consistent(Newest(Expire(seen, c.now, ttl) + [Entry(c.id, c.now)], capacity), calls + [c], ttl, capacity)
  {
    var live := Expire(seen, c.now, ttl);
    SuffixSound(seen, calls, |seen| - |live|);
    NewSound(live, calls, c, capacity);
    NewComplete(seen, calls, c, ttl, capacity);
  }

  /** Every call, duplicate or new, keeps the table consistent with the history. */
  lemma CallKeeps(seen: seq<Entry>, calls: seq<Call>, c: Call, ttl: int, capacity: nat)
    requires Consistent(seen, calls, ttl, capacity) && Monotone(calls + [c])
    requires c.accepted == Admits(seen, c.id, c.now, ttl)
    ensures Consistent(Table(seen, c.id, c.now, ttl, capacity), calls + [c], ttl, capacity)
  {
    var live := Expire(seen, c.now, ttl);
    FindHas(live, c.id);
    if c.accepted {
      NewKeeps(seen, calls, c, ttl, capacity);
    } else {
      DuplicateKeeps(seen, calls, c, Find(live, c.id), ttl, capacity);
    }
  }

  /** An entry pushed out of a full table leaves `capacity` later ids behind it. */
  lemma Evicted(longer: seq<Entry>, calls: seq<Call>, table: seq<Entry>, i: nat, capacity: nat)
    requires Sound(longer, calls) && Sound(table, calls) && table == Newest(longer, capacity)
    requires i < |longer| && !Has(table, longer[i].id)
    ensures capacity <= |OthersSince(calls, longer[i].id)|
  {
    var d := |longer| - |table|;
    forall k | d <= k < |longer| ensures longer[k].id != longer[i].id {
      assert table[k - d] == longer[k];
    }
    forall j | 0 <= j < |table|
      ensures LastSighting(calls, longer[i].id) < LastSighting(calls, table[j].id)
    {
      assert table[j] == longer[d + j];
    }
    LaterIds(table, calls, longer[i].id);
  }

  // ---------------------------------------------------------------------------
  // The deduplicator as an object
  // ---------------------------------------------------------------------------

  class EventDeduplicator {
    const capacity: nat
    const ttl: int
    var seen: seq<Entry>
    /** Every call since construction. */
    ghost var calls: seq<Call>

    ghost predicate Valid()
      reads this
    {
      Consistent(seen, calls, ttl, capacity)
    }

    constructor (capacity: nat, ttl: int)
      ensures Valid() && this.capacity == capacity && this.ttl == ttl && calls == []
    {
      this.capacity, this.ttl := capacity, ttl;
      seen, calls := [], [];
    }

    /** True when the id is new as far as the bounded table can tell; the clock never runs backwards. */
    method Accept(id: string, now: int) returns (accepted: bool)
      requires Valid() && NotBefore(calls, now)
      modifies this
      ensures Valid() && calls == old(calls) + [Call(id, now, accepted)]
      ensures accepted == Admits(old(seen), id, now, ttl)
      ensures seen == Table(old(seen), id, now, ttl, capacity)
    {
      ghost var c := Call(id, now, Admits(seen, id, now, ttl));
      MonotoneMore(calls, c);
      CallKeeps(seen, calls, c, ttl, capacity);
      accepted := Present(id, now);
      calls := calls + [c];
    }

    /** What one call does to the table. */
    method Present(id: string, now: int) returns (accepted: bool)
      modifies this`seen
      ensures accepted == Admits(old(seen), id, now, ttl)
      ensures seen == Table(old(seen), id, now, ttl, capacity)
    {
      ghost var was := seen;
      DropExpired(now);
      ghost var live := seen;
      accepted := Settle(id, now);
      assert live == Expire(was, now, ttl);
    }

    /** Adds a new id at the end, or moves a known one there. */
    method Settle(id: string, now: int) returns (added: bool)
      modifies this`seen
      ensures added == !Has(old(seen), id)
      ensures var k := Find(old(seen), id);
        seen == if k < |old(seen)| then Moved(old(seen), k) else Newest(old(seen) + [Entry(id, now)], capacity)
    {
      FindHas(seen, id);
      added := Find(seen, id) == |seen|;
      if added {
        Insert(id, now);
      } else {
        seen := Moved(seen, Find(seen, id));
      }
    }

    method Insert(id: string, now: int)
      modifies this`seen
      ensures seen == Newest(old(seen) + [Entry(id, now)], capacity)
    {
      seen := seen + [Entry(id, now)];
      DropOldest();
    }

    method DropExpired(now: int)
      modifies this`seen
      ensures seen == Expire(old(seen), now, ttl)
    {
      while seen != [] && ttl < now - seen[0].at
        invariant Expire(seen, now, ttl) == Expire(old(seen), now, ttl)
        decreases |seen|
      {
        seen := seen[1..];
      }
    }

    method DropOldest()
      modifies this`seen
      ensures seen == Newest(old(seen), capacity)
    {
      while |seen| > capacity
        invariant Newest(seen, capacity) == Newest(old(seen), capacity)
        decreases |seen|
      {
        seen := seen[1..];
      }
    }
  }

  /**
   At most once.  When an id that was accepted before is accepted again, either its time to
   live had passed, or at least `capacity` distinct other ids had been presented since it was
   last seen; and the table never exceeds its capacity.
   */
  lemma AtMostOnce(seen: seq<Entry>, calls: seq<Call>, id: string, now: int, ttl: int, capacity: nat)
    requires Consistent(seen, calls, ttl, capacity) && NotBefore(calls, now)
    requires LastAccepted(calls, id) >= 0 && Admits(seen, id, now, ttl)
    ensures ttl < now - calls[LastAccepted(calls, id)].now || capacity <= |OthersSince(calls, id)|
    ensures id !in OthersSince(calls, id)
  {
    SightedLast(calls, id);
    if Has(seen, id) {
      DroppedIsOld(seen, calls, id, now, ttl);
    } else {
      assert Forgettable(calls, id, ttl, capacity);
    }
  }

  lemma DroppedIsOld(seen: seq<Entry>, calls: seq<Call>, id: string, now: int, ttl: int)
    requires Sound(seen, calls) && Has(seen, id) && !Has(Expire(seen, now, ttl), id)
    ensures LastAccepted(calls, id) >= 0 && ttl < now - calls[LastAccepted(calls, id)].now
  {
    var i :| 0 <= i < |seen| && seen[i].id == id;
    ExpiredAt(seen, now, ttl, i);
    assert Dated(seen[i], calls);
  }

  lemma {:induction false} SightedLast(calls: seq<Call>, id: string)
    ensures forall i :: LastSighting(calls, id) < i < |calls| ==> calls[i].id != id
    decreases |calls|
  {
    if calls != [] {
      SightedLast(calls[..|calls| - 1], id);
      assert forall i :: 0 <= i < |calls| - 1 ==> calls[i] == calls[..|calls| - 1][i];
    }
  }

  /** Within its time to live and before `capacity` other ids, a repeated id is refused. */
  lemma DuplicateRefused(seen: seq<Entry>, calls: seq<Call>, id: string, now: int, ttl: int, capacity: nat)
    requires Consistent(seen, calls, ttl, capacity) && NotBefore(calls, now)
    requires LastAccepted(calls, id) >= 0 && now - calls[LastAccepted(calls, id)].now <= ttl
    requires |OthersSince(calls, id)| < capacity
    ensures !Admits(seen, id, now, ttl)
  {
    if Admits(seen, id, now, ttl) {
      AtMostOnce(seen, calls, id, now, ttl, capacity);
    }
  }

  // ---------------------------------------------------------------------------
  // Exactly when an id is refused
  // ---------------------------------------------------------------------------

  /** Expiry takes entries from the head and stops at the first that is still in time. */
  lemma {:induction false} ExpireStops(seen: seq<Entry>, now: int, ttl: int)
    ensures var live := Expire(seen, now, ttl); live != [] ==> now - live[0].at <= ttl
    decreases |seen|
  {
    if seen != [] && ttl < now - seen[0].at {
      ExpireStops(seen[1..], now, ttl);
    }
  }

  /** The entry at `k` survives if and only if it or one in front of it is still in time. */
  lemma SurvivesExactly(seen: seq<Entry>, now: int, ttl: int, k: nat)
    requires k < |seen|
    ensures |seen| - |Expire(seen, now, ttl)| <= k <==> exists j :: 0 <= j <= k && now - seen[j].at <= ttl
  {
    var live := Expire(seen, now, ttl);
    var d := |seen| - |live|;
    ExpireStops(seen, now, ttl);
    if d <= k {
      assert seen[d] == live[0];
    }
  }

  /** Some id in the table that was last seen no later than `id` was accepted within the time to live. */
  ghost predicate Shielded(seen: seq<Entry>, calls: seq<Call>, id: string, now: int, ttl: int) {
    exists j :: 0 <= j < |seen| && Shields(seen[j], calls, id, now, ttl)
  }

  ghost predicate Shields(e: Entry, calls: seq<Call>, id: string, now: int, ttl: int) {
    && LastSighting(calls, e.id) <= LastSighting(calls, id)
    && LastAccepted(calls, e.id) >= 0 && now - calls[LastAccepted(calls, e.id)].now <= ttl
  }

  /**
   Exactly when accept refuses: the id is still in the table, and it, or one that was last seen
   before it and is still in the table, was accepted within the time to live.
   */
  lemma RefusesExactly(seen: seq<Entry>, calls: seq<Call>, id: string, now: int, ttl: int)
    requires Sound(seen, calls)
    ensures !Admits(seen, id, now, ttl) <==> Has(seen, id) && Shielded(seen, calls, id, now, ttl)
  {
    if Has(seen, id) {
      var k :| 0 <= k < |seen| && seen[k].id == id;
      RefusedAt(seen, calls, now, ttl, k);
    } else {
      UnknownIsAdmitted(seen, id, now, ttl);
    }
  }

  lemma RefusedAt(seen: seq<Entry>, calls: seq<Call>, now: int, ttl: int, k: nat)
    requires Sound(seen, calls) && k < |seen|
    ensures !Admits(seen, seen[k].id, now, ttl) <==> Shielded(seen, calls, seen[k].id, now, ttl)
  {
    SurvivesExactly(seen, now, ttl, k);
    ShieldedUpTo(seen, calls, now, ttl, k);
    KnownExactly(seen, calls, now, ttl, k);
  }

  lemma UnknownIsAdmitted(seen: seq<Entry>, id: string, now: int, ttl: int)
    requires !Has(seen, id)
    ensures Admits(seen, id, now, ttl)
  {
    var live := Expire(seen, now, ttl);
    forall i | 0 <= i < |live| ensures live[i].id != id {
      assert seen[|seen| - |live| + i] == live[i];
    }
  }

  /** The one entry of an id decides whether the id is among the live ones. */
  lemma KnownExactly(seen: seq<Entry>, calls: seq<Call>, now: int, ttl: int, k: nat)
    requires Sound(seen, calls) && k < |seen|
    ensures Has(Expire(seen, now, ttl), seen[k].id) <==> |seen| - |Expire(seen, now, ttl)| <= k
  {
    var live := Expire(seen, now, ttl);
    var d := |seen| - |live|;
    OrderedMeansDistinct(seen, calls, k);
    if d <= k {
      assert live[k - d].id == seen[k].id;
    }
    forall i | 0 <= i < |live| && live[i].id == seen[k].id ensures d <= k {
      assert seen[d + i] == live[i];
    }
  }

  lemma ShieldedUpTo(seen: seq<Entry>, calls: seq<Call>, now: int, ttl: int, k: nat)
    requires Sound(seen, calls) && k < |seen|
    ensures Shielded(seen, calls, seen[k].id, now, ttl) <==> exists j :: 0 <= j <= k && now - seen[j].at <= ttl
  {
    forall j | k < j < |seen| ensures !Shields(seen[j], calls, seen[k].id, now, ttl) {
      assert LastSighting(calls, seen[k].id) < LastSighting(calls, seen[j].id);
    }
    if Shielded(seen, calls, seen[k].id, now, ttl) {
      var j :| 0 <= j < |seen| && Shields(seen[j], calls, seen[k].id, now, ttl);
      assert Dated(seen[j], calls) && j <= k;
    }
    if j :| 0 <= j <= k && now - seen[j].at <= ttl {
      assert Dated(seen[j], calls);
      assert j < k ==> LastSighting(calls, seen[j].id) < LastSighting(calls, seen[k].id);
      assert Shields(seen[j], calls, seen[k].id, now, ttl);
    }
  }

  lemma AllInTime(seen: seq<Entry>, now: int, ttl: int)
    requires seen != [] && now - seen[0].at <= ttl
    ensures Expire(seen, now, ttl) == seen
  {
  }

  /** An id can be refused after its time to live: a duplicate sighting has put it behind a younger entry. */
  lemma LateRefusal() returns (first: seq<Entry>, second: seq<Entry>, third: seq<Entry>)
    ensures first == Table([], "a", 0, 10, 4) && second == Table(first, "b", 5, 10, 4)
        && third == Table(second, "a", 6, 10, 4)
    ensures third == [Entry("b", 5), Entry("a", 0)] && 10 < 12 - third[1].at
    ensures !Admits(third, "a", 12, 10)
  {
    first := FirstTable();
    second := SecondTable();
    third := ThirdTable();
    AllInTime(third, 12, 10);
    assert third[1].id == "a";
  }

  lemma FirstTable() returns (t: seq<Entry>)
    ensures t == [Entry("a", 0)] && t == Table([], "a", 0, 10, 4)
  {
    t := [Entry("a", 0)];
    assert Expire([], 0, 10) == [] && [] + t == t;
  }

  lemma SecondTable() returns (t: seq<Entry>)
    ensures t == [Entry("a", 0), Entry("b", 5)] && t == Table([Entry("a", 0)], "b", 5, 10, 4)
  {
    t := [Entry("a", 0), Entry("b", 5)];
    AllInTime([Entry("a", 0)], 5, 10);
    assert Find([Entry("a", 0)], "b") == 1;
  }

  lemma ThirdTable() returns (t: seq<Entry>)
    ensures t == [Entry("b", 5), Entry("a", 0)] && t == Table([Entry("a", 0), Entry("b", 5)], "a", 6, 10, 4)
  {
    t := [Entry("b", 5), Entry("a", 0)];
    AllInTime([Entry("a", 0), Entry("b", 5)], 6, 10);
    assert Find([Entry("a", 0), Entry("b", 5)], "a") == 0;
  }
}
