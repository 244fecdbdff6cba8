/**
 zing/net/TimerQueue.cpp: two ordered sets over the same timer objects, which are allocated and deleted by
 hand. `heap` holds the objects that exist, by address; reading an address that is not in it would be a use
 after `delete`. The methods are proved against the moves of Timers.dfy.
 */
module TimerQueue {
  import opened Types
  import opened Timers

  /** A `Timer` object, but for its callback. */
  datatype Cell = Cell(timer: Timer, sequence: nat)

  /** An element of `timers_`. */
  datatype Entry = Entry(when: int, ptr: nat)

  predicate Less(a: Entry, b: Entry) {
    a.when < b.when || (a.when == b.when && a.ptr < b.ptr)
  }

  /** `std::set` in iteration order. */
  predicate Ordered(s: seq<Entry>) {
    forall j, k :: 0 <= j < k < |s| ==> Less(s[j], s[k])
  }

  /** `lower_bound`: the number of leading elements below a key. */
  function LowerBound(s: seq<Entry>, below: Entry -> bool): (r: nat)
    ensures r <= |s|
    ensures forall i :: 0 <= i < r ==> below(s[i])
    ensures r < |s| ==> !below(s[r])
  {
    if s == [] || !below(s[0]) then 0 else 1 + LowerBound(s[1..], below)
  }

  /** `insert` of an element that is not there yet. */
  function Inserted(s: seq<Entry>, e: Entry): seq<Entry> {
    var i := LowerBound(s, x => Less(x, e));
    s[..i] + [e] + s[i..]
  }

  lemma OrderedParts(a: seq<Entry>, b: seq<Entry>)
    ensures Ordered(a + b) <==> Ordered(a) && Ordered(b) && forall x, y :: x in a && y in b ==> Less(x, y)
  {
    if Ordered(a + b) {
      forall j, k | 0 <= j < k < |b| ensures Less(b[j], b[k]) {
        assert (a + b)[|a| + j] == b[j] && (a + b)[|a| + k] == b[k];
      }
      forall j, k | 0 <= j < k < |a| ensures Less(a[j], a[k]) {
        assert (a + b)[j] == a[j] && (a + b)[k] == a[k];
      }
      forall x, y | x in a && y in b ensures Less(x, y) {
        var j :| 0 <= j < |a| && a[j] == x;
        var k :| 0 <= k < |b| && b[k] == y;
        assert (a + b)[j] == x && (a + b)[|a| + k] == y;
      }
    }
  }

  lemma BoundAt(s: seq<Entry>, e: Entry, k: nat)
    requires Ordered(s) && k < |s|
    ensures var i := LowerBound(s, x => Less(x, e));
            if k < i then Less(s[k], e) else Less(e, s[k]) || (s[k] == e && k == i)
  {
    var i := LowerBound(s, x => Less(x, e));
    if k > i { assert Less(s[i], s[k]); }
  }

  /** Where `e` belongs: below it to the left, above it to the right. */
  lemma BoundSplits(s: seq<Entry>, e: Entry)
    requires Ordered(s)
    ensures var i := LowerBound(s, x => Less(x, e));
            && Ordered(s[..i]) && Ordered(s[i..]) && s == s[..i] + s[i..]
            && (forall x :: x in s[..i] ==> Less(x, e))
            && (forall x :: x in s[i..] ==> Less(e, x) || x == e)
            && (e in s ==> i < |s| && s[i] == e)
  {
    assert !Less(e, e);
    hide Ordered, LowerBound, Less;
    var i := LowerBound(s, x => Less(x, e));
    assert s == s[..i] + s[i..];
    OrderedParts(s[..i], s[i..]);
    forall k | 0 <= k < |s| ensures if k < i then Less(s[k], e) else Less(e, s[k]) || (s[k] == e && k == i) {
      BoundAt(s, e, k);
    }
  }

  lemma InsertedOk(s: seq<Entry>, e: Entry)
    requires Ordered(s) && e !in s
    ensures Ordered(Inserted(s, e))
    ensures forall x :: x in Inserted(s, e) <==> x in s || x == e
  {
    BoundSplits(s, e);
    hide Ordered, Less, LowerBound;
    var i := LowerBound(s, x => Less(x, e));
    OrderedParts(s[..i], [e]);
    assert Ordered([e]) by { OneOrdered(e); }
    OrderedParts(s[..i] + [e], s[i..]);
    forall x, y | x in s[..i] + [e] && y in s[i..] ensures Less(x, y) {
      assert y in s;
      BoundBetween(s, x, e, y);
    }
  }

  lemma OneOrdered(e: Entry)
    ensures Ordered([e])
  {}

  lemma BoundBetween(s: seq<Entry>, x: Entry, e: Entry, y: Entry)
    requires (x == e || Less(x, e)) && Less(e, y)
    ensures Less(x, y)
  {}

  /** `erase` by value. */
  function Erased(s: seq<Entry>, e: Entry): seq<Entry> {
    var i := LowerBound(s, x => Less(x, e));
    if i < |s| && s[i] == e then s[..i] + s[i + 1..] else s
  }

  lemma ErasedOk(s: seq<Entry>, e: Entry)
    requires Ordered(s) && e in s
    ensures Ordered(Erased(s, e)) && |Erased(s, e)| == |s| - 1
    ensures forall x :: x in Erased(s, e) <==> x in s && x != e
  {
    BoundSplits(s, e);
    var i := LowerBound(s, x => Less(x, e));
    assert s[i..] == [e] + s[i + 1..];
    OrderedParts([e], s[i + 1..]);
    OrderedParts(s[..i], s[i + 1..]);
    forall x, y | x in s[..i] && y in s[i + 1..] ensures Less(x, y) {
      assert Less(x, e) && Less(e, y);
    }
    forall x ensures x in Erased(s, e) <==> x in s && x != e {
      assert x in s <==> x in s[..i] || x == e || x in s[i + 1..];
    }
  }

  /** The timers of the second index. */
  ghost function ActiveOf(heap: map<nat, Cell>, ids: set<TimerId>): map<TimerId, Timer> {
    map id | id in ids && id.ptr in heap :: heap[id.ptr].timer
  }

  /** An identity of a timer that exists: the object at its address is still that timer. */
  predicate Names(heap: map<nat, Cell>, id: TimerId) {
    id.ptr in heap && heap[id.ptr].sequence == id.sequence
  }

  function EntryOf(heap: map<nat, Cell>, id: TimerId): Entry
    requires id.ptr in heap
  {
    Entry(heap[id.ptr].timer.expiration, id.ptr)
  }

  function IdAt(heap: map<nat, Cell>, ptr: nat): TimerId
    requires ptr in heap
  {
    TimerId(ptr, heap[ptr].sequence)
  }

  /** `timers_` is `activeTimers_`, keyed by the objects' current expirations. */
  ghost predicate SameTimers(heap: map<nat, Cell>, timers: seq<Entry>, ids: set<TimerId>) {
    && (forall id :: id in ids ==> Names(heap, id))
    && (forall e :: e in timers <==> e.ptr in heap && IdAt(heap, e.ptr) in ids && e == EntryOf(heap, IdAt(heap, e.ptr)))
  }

  /** The objects that exist are those of the indices, those of the batch, and the loose ones. */
  ghost predicate NoLeak(heap: map<nat, Cell>, ids: set<TimerId>, expired: map<TimerId, Timer>, loose: set<nat>) {
    && (forall id :: id in expired ==> Names(heap, id) && heap[id.ptr].timer == expired[id] && id !in ids)
    && (forall p :: p in heap ==>
          if p in loose then IdAt(heap, p) !in ids && IdAt(heap, p) !in expired
          else IdAt(heap, p) in ids || IdAt(heap, p) in expired)
  }

  ghost predicate Consistent(heap: map<nat, Cell>, timers: seq<Entry>, ids: set<TimerId>,
                             expired: map<TimerId, Timer>, loose: set<nat>)
  {
    Ordered(timers) && SameTimers(heap, timers, ids) && NoLeak(heap, ids, expired, loose)
  }

  /** Writing to an object that no index refers to. */
  lemma WriteKeepsTimers(heap: map<nat, Cell>, timers: seq<Entry>, ids: set<TimerId>, ptr: nat, cell: Cell)
    requires SameTimers(heap, timers, ids) && (forall id :: id in ids ==> id.ptr != ptr)
    ensures SameTimers(heap[ptr := cell], timers, ids)
    ensures ActiveOf(heap[ptr := cell], ids) == ActiveOf(heap, ids)
  {
    var h := heap[ptr := cell];
    forall e ensures e in timers <==> e.ptr in h && IdAt(h, e.ptr) in ids && e == EntryOf(h, IdAt(h, e.ptr)) {
      if e.ptr in h && e.ptr != ptr { assert IdAt(h, e.ptr) == IdAt(heap, e.ptr); }
    }
  }

  lemma AllocateOk(heap: map<nat, Cell>, timers: seq<Entry>, ids: set<TimerId>, expired: map<TimerId, Timer>,
                   ptr: nat, cell: Cell)
    requires Consistent(heap, timers, ids, expired, {}) && ptr !in heap
    ensures Consistent(heap[ptr := cell], timers, ids, expired, {ptr})
    ensures ActiveOf(heap[ptr := cell], ids) == ActiveOf(heap, ids)
  {
    assert forall id :: id in ids ==> id.ptr != ptr;
    WriteKeepsTimers(heap, timers, ids, ptr, cell);
    assert IdAt(heap[ptr := cell], ptr) !in ids;
    AllocateNoLeak(heap, ids, expired, ptr, cell);
  }

  lemma AllocateNoLeak(heap: map<nat, Cell>, ids: set<TimerId>, expired: map<TimerId, Timer>, ptr: nat, cell: Cell)
    requires NoLeak(heap, ids, expired, {}) && ptr !in heap && IdAt(heap[ptr := cell], ptr) !in ids
    ensures NoLeak(heap[ptr := cell], ids, expired, {ptr})
  {
    var h := heap[ptr := cell];
    forall p | p in heap ensures IdAt(h, p) == IdAt(heap, p) {}
  }

  lemma InsertOk(heap: map<nat, Cell>, timers: seq<Entry>, ids: set<TimerId>, expired: map<TimerId, Timer>, ptr: nat)
    requires Consistent(heap, timers, ids, expired, {ptr}) && ptr in heap
    ensures var id := IdAt(heap, ptr);
            && Consistent(heap, Inserted(timers, EntryOf(heap, id)), ids + {id}, expired, {})
            && ActiveOf(heap, ids + {id}) == ActiveOf(heap, ids)[id := heap[ptr].timer]
  {
    var e := EntryOf(heap, IdAt(heap, ptr));
    assert e !in timers;
    InsertedOk(timers, e);
    hide Inserted, Ordered;
  }

  lemma DropKeepsTimers(heap: map<nat, Cell>, timers: seq<Entry>, ids: set<TimerId>, id: TimerId, rest: seq<Entry>)
    requires SameTimers(heap, timers, ids) && id in ids && Names(heap, id)
    requires forall x :: x in rest <==> x in timers && x != EntryOf(heap, id)
    ensures SameTimers(heap - {id.ptr}, rest, ids - {id})
    ensures ActiveOf(heap - {id.ptr}, ids - {id}) == ActiveOf(heap, ids) - {id}
  {
    var h := heap - {id.ptr};
    forall e ensures e in rest <==> e.ptr in h && IdAt(h, e.ptr) in ids - {id} && e == EntryOf(h, IdAt(h, e.ptr)) {
      if e.ptr in h { assert IdAt(h, e.ptr) == IdAt(heap, e.ptr); }
    }
  }

  lemma DropNoLeak(heap: map<nat, Cell>, ids: set<TimerId>, expired: map<TimerId, Timer>, id: TimerId)
    requires NoLeak(heap, ids, expired, {}) && id in ids && Names(heap, id)
    ensures NoLeak(heap - {id.ptr}, ids - {id}, expired, {})
  {
    var h := heap - {id.ptr};
    forall p | p in h ensures IdAt(h, p) == IdAt(heap, p) {}
  }

  lemma DiscardOk(heap: map<nat, Cell>, timers: seq<Entry>, ids: set<TimerId>, expired: map<TimerId, Timer>, id: TimerId)
    requires Consistent(heap, timers, ids, expired, {}) && id in ids
    ensures id.ptr in heap
    ensures Consistent(heap - {id.ptr}, Erased(timers, EntryOf(heap, id)), ids - {id}, expired, {})
    ensures ActiveOf(heap - {id.ptr}, ids - {id}) == ActiveOf(heap, ids) - {id}
  {
    var e := EntryOf(heap, id);
    assert Names(heap, id) && IdAt(heap, id.ptr) == id && e in timers;
    ErasedOk(timers, e);
    hide Erased, Ordered, SameTimers, NoLeak;
    DropKeepsTimers(heap, timers, ids, id, Erased(timers, e));
    DropNoLeak(heap, ids, expired, id);
  }

  /** The front of the first index is the earliest timer. */
  lemma FrontIsEarliest(heap: map<nat, Cell>, timers: seq<Entry>, ids: set<TimerId>, expired: map<TimerId, Timer>, loose: set<nat>)
    requires Consistent(heap, timers, ids, expired, loose)
    ensures timers == [] <==> ActiveOf(heap, ids) == map[]
    ensures timers != [] ==> IsEarliest(ActiveOf(heap, ids), timers[0].when)
    ensures timers != [] ==> timers[0].ptr in heap && heap[timers[0].ptr].timer.expiration == timers[0].when
  {
    var active := ActiveOf(heap, ids);
    forall i | i in active ensures EntryOf(heap, i) in timers {
      assert IdAt(heap, i.ptr) == i;
    }
    if timers != [] {
      var e := timers[0];
      assert e in timers;
      var id := IdAt(heap, e.ptr);
      assert id in active && active[id].expiration == e.when;
      forall i | i in active ensures e.when <= active[i].expiration {
        var f := EntryOf(heap, i);
        assert f in timers;
        var k :| 0 <= k < |timers| && timers[k] == f;
        if k > 0 { assert Less(e, f); }
      }
    } else {
      assert active == map[];
    }
  }

  /** The two indices have the same size, as the source asserts before and after every operation. */
  lemma {:induction false} SameSize(heap: map<nat, Cell>, timers: seq<Entry>, ids: set<TimerId>)
    requires Ordered(timers) && SameTimers(heap, timers, ids)
    ensures |timers| == |ids|
    decreases |timers|
  {
    forall id | id in ids ensures EntryOf(heap, id) in timers {
      assert IdAt(heap, id.ptr) == id;
    }
    if timers == [] {
      assert ids == {};
    } else {
      var e := timers[0];
      assert e in timers;
      var id := IdAt(heap, e.ptr);
      FirstApart(timers);
      assert Ordered(timers[1..]) && SameTimers(heap, timers[1..], ids - {id});
      SameSize(heap, timers[1..], ids - {id});
    }
  }

  lemma FirstApart(timers: seq<Entry>)
    requires Ordered(timers) && timers != []
    ensures forall e :: e in timers[1..] <==> e in timers && e != timers[0]
  {
    forall e | e in timers[1..] ensures e != timers[0] {
      var k :| 1 <= k < |timers| && timers[k] == e;
      assert Less(timers[0], timers[k]);
    }
  }

  /** The identities of the timers that entries point to. */
  function IdsAt(heap: map<nat, Cell>, entries: seq<Entry>): (ids: seq<TimerId>)
    requires forall e :: e in entries ==> e.ptr in heap
    ensures |ids| == |entries|
    ensures forall k :: 0 <= k < |ids| ==> ids[k] == IdAt(heap, entries[k].ptr)
  {
    seq(|entries|, k requires 0 <= k < |entries| => IdAt(heap, entries[k].ptr))
  }

  function Due(timers: seq<Entry>, now: int): nat { LowerBound(timers, (e: Entry) => e.when <= now) }

  /** `lower_bound` cuts the first index in two at `now`. */
  lemma DueSplits(timers: seq<Entry>, now: int)
    requires Ordered(timers)
    ensures var n := Due(timers, now);
            && n <= |timers| && timers == timers[..n] + timers[n..]
            && Ordered(timers[..n]) && Ordered(timers[n..])
            && (forall e :: e in timers[..n] <==> e in timers && e.when <= now)
            && (forall e :: e in timers[n..] <==> e in timers && e.when > now)
  {
    hide LowerBound;
    var n := Due(timers, now);
    assert timers == timers[..n] + timers[n..];
    OrderedParts(timers[..n], timers[n..]);
    forall k | n <= k < |timers| ensures timers[k].when > now {
      if k > n { assert Less(timers[n], timers[k]); }
    }
    InParts(timers, n);
  }

  lemma InParts(s: seq<Entry>, n: nat)
    requires n <= |s|
    ensures forall e :: e in s <==> e in s[..n] || e in s[n..]
  {
    assert s == s[..n] + s[n..];
  }

  /** What `getExpired` leaves, and what it returns. */
  lemma SplitOk(heap: map<nat, Cell>, timers: seq<Entry>, ids: set<TimerId>, now: int)
    requires Consistent(heap, timers, ids, map[], {})
    ensures var n := Due(timers, now);
            && n <= |timers|
            && (forall e :: e in timers[..n] ==> e.ptr in heap)
            && ids - (set id | id in IdsAt(heap, timers[..n])) == Later(heap, ids, now)
            && (forall id :: id in IdsAt(heap, timers[..n]) <==> id in ids && heap[id.ptr].timer.expiration <= now)
  {
    DueSplits(timers, now);
    hide Due, Ordered, NoLeak;
    var n := Due(timers, now);
    var es := timers[..n];
    forall id | id in ids && heap[id.ptr].timer.expiration <= now ensures id in IdsAt(heap, es) {
      assert IdAt(heap, id.ptr) == id;
      assert EntryOf(heap, id) in es;
      var k :| 0 <= k < |es| && es[k] == EntryOf(heap, id);
      assert IdsAt(heap, es)[k] == id;
    }
    forall id | id in IdsAt(heap, es) ensures id in ids && heap[id.ptr].timer.expiration <= now {
      var k :| 0 <= k < |es| && IdsAt(heap, es)[k] == id;
      assert es[k] in es;
    }
  }

  /** The timers that are not due yet, and those that are. */
  ghost function Later(heap: map<nat, Cell>, ids: set<TimerId>, now: int): set<TimerId> {
    set id | id in ids && id.ptr in heap && heap[id.ptr].timer.expiration > now
  }

  ghost function Overdue(heap: map<nat, Cell>, ids: set<TimerId>, now: int): map<TimerId, Timer> {
    map id | id in ids && id.ptr in heap && heap[id.ptr].timer.expiration <= now :: heap[id.ptr].timer
  }

  lemma SplitMaps(heap: map<nat, Cell>, ids: set<TimerId>, now: int)
    ensures var active := ActiveOf(heap, ids);
            && ActiveOf(heap, Later(heap, ids, now)) == NotDue(active, now)
            && Overdue(heap, ids, now) == DueOf(active, now)
  {}

  lemma SplitConsistent(heap: map<nat, Cell>, timers: seq<Entry>, ids: set<TimerId>, now: int)
    requires Consistent(heap, timers, ids, map[], {})
    ensures var n := Due(timers, now);
            n <= |timers| && Consistent(heap, timers[n..], Later(heap, ids, now), Overdue(heap, ids, now), {})
  {
    DueSplits(timers, now);
    hide Ordered, Due;
    assert SameTimers(heap, timers[Due(timers, now)..], Later(heap, ids, now));
    assert NoLeak(heap, Later(heap, ids, now), Overdue(heap, ids, now), {});
  }

  lemma SplitIsBatch(heap: map<nat, Cell>, timers: seq<Entry>, ids: set<TimerId>, now: int)
    requires Consistent(heap, timers, ids, map[], {})
    ensures var n := Due(timers, now);
            && n <= |timers| && (forall e :: e in timers[..n] ==> e.ptr in heap)
            && IsBatch(ActiveOf(heap, ids), now, IdsAt(heap, timers[..n]))
  {
    SplitOk(heap, timers, ids, now);
    var es := timers[..Due(timers, now)];
    var batch := IdsAt(heap, es);
    forall j, k | 0 <= j < k < |batch|
      ensures batch[j] in ActiveOf(heap, ids) && batch[k] in ActiveOf(heap, ids)
      ensures Before(batch[j], ActiveOf(heap, ids)[batch[j]], batch[k], ActiveOf(heap, ids)[batch[k]])
    {
      assert batch[j] in batch && batch[k] in batch;
      assert es[j] in timers && es[k] in timers && Less(es[j], es[k]);
    }
  }

  /** A timer of the batch is restarted: its object is written, and waits to be inserted. */
  lemma RestartOk(heap: map<nat, Cell>, timers: seq<Entry>, ids: set<TimerId>, expired: map<TimerId, Timer>,
                  id: TimerId, timer: Timer)
    requires Consistent(heap, timers, ids, expired, {}) && id in expired
    ensures var h := heap[id.ptr := Cell(timer, id.sequence)];
            && IdAt(h, id.ptr) == id && Consistent(h, timers, ids, expired - {id}, {id.ptr})
            && ActiveOf(h, ids) == ActiveOf(heap, ids)
  {
    hide Ordered;
    BatchApart(heap, timers, ids, expired, id);
    WriteKeepsTimers(heap, timers, ids, id.ptr, Cell(timer, id.sequence));
    var h := heap[id.ptr := Cell(timer, id.sequence)];
    assert NoLeak(h, ids, expired - {id}, {id.ptr}) by {
      hide SameTimers;
      forall p | p in heap && p != id.ptr ensures IdAt(h, p) == IdAt(heap, p) {}
    }
  }

  lemma BatchApart(heap: map<nat, Cell>, timers: seq<Entry>, ids: set<TimerId>, expired: map<TimerId, Timer>, id: TimerId)
    requires SameTimers(heap, timers, ids) && NoLeak(heap, ids, expired, {}) && id in expired
    ensures id.ptr in heap && IdAt(heap, id.ptr) == id
    ensures forall i :: i in ids ==> i.ptr != id.ptr
    ensures forall i :: i in expired && i != id ==> i.ptr != id.ptr
  {
    forall i | i in ids ensures i.ptr != id.ptr {
      assert Names(heap, i) && Names(heap, id);
    }
    forall i | i in expired && i != id ensures i.ptr != id.ptr {
      assert Names(heap, i) && Names(heap, id);
    }
  }

  /** A timer of the batch is deleted. */
  lemma DeleteOk(heap: map<nat, Cell>, timers: seq<Entry>, ids: set<TimerId>, expired: map<TimerId, Timer>, id: TimerId)
    requires Consistent(heap, timers, ids, expired, {}) && id in expired
    ensures Consistent(heap - {id.ptr}, timers, ids, expired - {id}, {})
    ensures ActiveOf(heap - {id.ptr}, ids) == ActiveOf(heap, ids)
  {
    hide Ordered;
    BatchApart(heap, timers, ids, expired, id);
    var h := heap - {id.ptr};
    forall p | p in h ensures IdAt(h, p) == IdAt(heap, p) {}
    assert SameTimers(h, timers, ids) by { hide NoLeak; }
    assert NoLeak(h, ids, expired - {id}, {}) by { hide SameTimers; }
  }

  lemma BatchFacts(q: Queue)
    requires QueueOk(q)
    ensures BatchOk(q.(calling := true)) && q.active.Keys !! q.expired.Keys
  {}

  lemma NoBatch(q: Queue)
    requires QueueOk(q) && !q.calling
    ensures q.batch == [] && q.expired == map[]
  {
    forall id ensures id !in q.expired {
      assert id in q.batch <==> id in q.expired;
    }
  }

  lemma Fired(q: Queue, r: Queue, now: int)
    requires !q.calling && now > 0 && IsBatch(q.active, now, r.batch)
    requires r.active == NotDue(q.active, now)
    requires r.expired == DueOf(q.active, now)
    requires r.calling && r.running == 0 && r.cancelling == {} && r.seen == q.seen && r.deleted == q.deleted
    requires r.alarm == if q.alarm.Expired? then Off else q.alarm
    ensures Can(q, Fire(now, r.batch)) && r == Apply(q, Fire(now, r.batch))
  {
    hide IsBatch, NotDue, DueOf;
  }

  lemma CanAlwaysCancel(q: Queue, id: TimerId)
    ensures Can(q, Cancel(id))
  {}

  lemma CanRunNext(q: Queue)
    requires q.calling && q.running < |q.batch|
    ensures Can(q, RunNext) && Apply(q, RunNext) == q.(running := q.running + 1)
  {}

  class TimerQueue {
    var heap: map<nat, Cell>
    var timers: seq<Entry>
    var activeTimers: set<TimerId>
    var callingExpiredTimers: bool
    var cancelingTimers: set<TimerId>
    var alarm: Alarm
    var seen: set<nat>

    ghost var batch: seq<TimerId>
    ghost var expired: map<TimerId, Timer>
    ghost var running: nat
    ghost var deleted: multiset<TimerId>

    ghost predicate Valid()
      reads this
    {
      Consistent(heap, timers, activeTimers, expired, {})
    }

    /** `Valid`, but for an object that is about to be inserted. */
    ghost predicate ValidBut(ptr: nat)
      reads this
    {
      ptr in heap && Consistent(heap, timers, activeTimers, expired, {ptr})
    }

    lemma SizesAgree()
      requires Valid()
      ensures |timers| == |activeTimers|
    {
      SameSize(heap, timers, activeTimers);
    }

    ghost function Active(): map<TimerId, Timer>
      reads this
    {
      ActiveOf(heap, activeTimers)
    }

    ghost function Abs(): Queue
      reads this
    {
      Queue(Active(), callingExpiredTimers, batch, expired, running, cancelingTimers, alarm, seen, deleted)
    }

    constructor ()
      ensures Valid() && Abs() == EMPTY
    {
      heap, timers, activeTimers := map[], [], {};
      callingExpiredTimers, cancelingTimers, alarm, seen := false, {}, Off, {};
      batch, expired, running, deleted := [], map[], 0, multiset{};
    }

    /** An object that is in neither index joins both. */
    method Insert(ptr: nat) returns (earliestChanged: bool)
      requires ValidBut(ptr)
      modifies this`timers, this`activeTimers
      ensures Valid()
      ensures Active() == old(Active())[IdAt(heap, ptr) := heap[ptr].timer]
      ensures earliestChanged <==> old(Earlier(Abs(), heap[ptr].timer.expiration))
    {
      FrontIsEarliest(heap, timers, activeTimers, expired, {ptr});
      InsertOk(heap, timers, activeTimers, expired, ptr);
      hide Consistent, ActiveOf, Inserted;
      var when := heap[ptr].timer.expiration;
      earliestChanged := timers == [] || when < timers[0].when;
      timers := Inserted(timers, Entry(when, ptr));
      activeTimers := activeTimers + {IdAt(heap, ptr)};
    }

    /** `new Timer`, with the next sequence number of the process. */
    method Allocate(ptr: nat, sequence: nat, timer: Timer)
      requires Valid() && ptr !in heap
      modifies this`heap, this`seen
      ensures ValidBut(ptr) && Active() == old(Active())
      ensures seen == old(seen) + {sequence} && heap[ptr] == Cell(timer, sequence)
    {
      seen := seen + {sequence};
      AllocateOk(heap, timers, activeTimers, expired, ptr, Cell(timer, sequence));
      hide Consistent, ActiveOf;
      heap := heap[ptr := Cell(timer, sequence)];
    }

    method AddTimerInLoop(ptr: nat, clock: int)
      requires ValidBut(ptr)
      modifies this`timers, this`activeTimers, this`alarm
      ensures Valid()
      ensures Active() == old(Active())[IdAt(heap, ptr) := heap[ptr].timer]
      ensures var when := heap[ptr].timer.expiration;
              alarm == if old(Earlier(Abs(), when)) then ArmedFor(when, clock) else old(alarm)
    {
      hide Consistent, ActiveOf;
      var earliestChanged := Insert(ptr);
      if earliestChanged {
        alarm := ArmedFor(heap[ptr].timer.expiration, clock);
      }
    }

    lemma FreeAddress(ptr: nat)
      requires Valid()
      ensures InUse(Abs(), ptr) <==> ptr in heap
    {
      if ptr in heap {
        var id := IdAt(heap, ptr);
        assert id in Active() || id in expired;
      }
    }

    /** `addTimer`, in the loop's thread. */
    method AddTimer(ptr: nat, sequence: nat, when: int, repeat: bool, interval: nat, clock: int) returns (id: TimerId)
      requires Valid() && ptr !in heap && sequence !in seen
      modifies this
      ensures Valid()
      ensures id == TimerId(ptr, sequence)
      ensures var m := Add(id, Timer(when, repeat, interval), clock);
              Can(old(Abs()), m) && Abs() == Apply(old(Abs()), m)
    {
      hide Consistent, ActiveOf;
      FreeAddress(ptr);
      Allocate(ptr, sequence, Timer(when, repeat, interval));
      AddTimerInLoop(ptr, clock);
      id := IdAt(heap, ptr);
    }

    /** `erase` from both indices, and `delete`. */
    method Discard(id: TimerId)
      requires Valid() && id in activeTimers
      modifies this`timers, this`heap, this`activeTimers
      ensures Valid() && Active() == old(Active()) - {id}
    {
      DiscardOk(heap, timers, activeTimers, expired, id);
      assert id.ptr in heap;
      hide Consistent, ActiveOf, Erased;
      timers := Erased(timers, EntryOf(heap, id));
      heap := heap - {id.ptr};
      activeTimers := activeTimers - {id};
    }

    lemma ActiveIds()
      requires Valid()
      ensures Active().Keys == activeTimers
    {}

    method CancelInLoop(id: TimerId)
      requires Valid()
      modifies this
      ensures Valid()
      ensures Abs() == Apply(old(Abs()), Cancel(id))
    {
      SizesAgree();
      assert |timers| == |activeTimers|;
      ActiveIds();
      hide Consistent, ActiveOf;
      if id in activeTimers {
        Discard(id);
        deleted := deleted + multiset{id};
      } else if callingExpiredTimers {
        cancelingTimers := cancelingTimers + {id};
      }
    }

    /** The loop of `getExpired`. */
    method Deactivate(entries: seq<Entry>)
      requires forall e :: e in entries ==> e.ptr in heap
      modifies this`activeTimers
      ensures activeTimers == old(activeTimers) - (set id | id in IdsAt(heap, entries))
    {
      ghost var ids := IdsAt(heap, entries);
      for k := 0 to |entries|
        invariant activeTimers == old(activeTimers) - (set id | id in ids[..k])
      {
        assert entries[k] in entries;
        assert ids[..k + 1] == ids[..k] + [ids[k]];
        activeTimers := activeTimers - {IdAt(heap, entries[k].ptr)};
      }
      assert ids[..|entries|] == ids;
    }

    /** The timers due at `now` leave both indices, in order. */
    method GetExpired(now: int) returns (entries: seq<Entry>)
      requires Valid() && batch == [] && expired == map[]
      modifies this`timers, this`activeTimers, this`batch, this`expired
      ensures Valid()
      ensures |entries| == |batch| && forall k :: 0 <= k < |entries| ==> entries[k].ptr == batch[k].ptr
      ensures IsBatch(old(Active()), now, batch)
      ensures Active() == NotDue(old(Active()), now)
      ensures expired == DueOf(old(Active()), now)
    {
      hide Consistent, ActiveOf, Due, NotDue, DueOf, IsBatch, Later, Overdue, IdsAt;
      SplitOk(heap, timers, activeTimers, now);
      SplitIsBatch(heap, timers, activeTimers, now);
      SplitConsistent(heap, timers, activeTimers, now);
      SplitMaps(heap, activeTimers, now);
      var end := Due(timers, now);
      entries := timers[..end];
      timers := timers[end..];
      batch, expired := IdsAt(heap, entries), Overdue(heap, activeTimers, now);
      Deactivate(entries);
    }

    /** `restart` and `insert`. */
    method PutBack(ptr: nat, now: int, ghost id: TimerId)
      requires Valid() && id in expired && id.ptr == ptr
      modifies this`heap, this`timers, this`activeTimers, this`expired
      ensures Valid() && expired == old(expired) - {id}
      ensures Active() == old(Active())[id := Restarted(old(expired)[id], now)]
      ensures Active()[id].expiration == now + old(expired)[id].interval
      ensures Active()[id].repeat == old(expired)[id].repeat && Active()[id].interval == old(expired)[id].interval
    {
      assert ptr in heap && heap[ptr] == Cell(expired[id], id.sequence);
      hide Consistent, ActiveOf, Inserted;
      var cell := heap[ptr];
      RestartOk(heap, timers, activeTimers, expired, id, Restarted(cell.timer, now));
      expired := expired - {id};
      heap := heap[ptr := cell.(timer := Restarted(cell.timer, now))];
      var _ := Insert(ptr);
    }

    /** One round of the loop of `reset`; `q` is the state in which `reset` was called. */
    method ResetOne(it: Entry, now: int, ghost q: Queue, ghost id: TimerId)
      requires Valid() && id in expired && id.ptr == it.ptr
      requires id in q.expired && q.expired[id] == expired[id] && q.cancelling == cancelingTimers
      modifies this`heap, this`timers, this`activeTimers, this`expired, this`deleted
      ensures Valid() && Abs() == Round(q, old(Abs()), now, id)
    {
      assert it.ptr in heap && heap[it.ptr] == Cell(expired[id], id.sequence);
      hide Consistent, ActiveOf;
      var cell := heap[it.ptr];
      if cell.timer.repeat && TimerId(it.ptr, cell.sequence) !in cancelingTimers {
        PutBack(it.ptr, now, id);
      } else {
        DeleteOk(heap, timers, activeTimers, expired, id);
        expired := expired - {id};
        heap := heap - {it.ptr};
        deleted := deleted + multiset{id};
      }
    }

    /** `next` is the earliest timer once the batch has been dealt with. */
    method Reset(entries: seq<Entry>, now: int, clock: int) returns (ghost next: Option<int>)
      requires Valid() && BatchOk(Abs().(calling := true)) && Active().Keys !! expired.Keys
      requires |entries| == |batch| && forall k :: 0 <= k < |entries| ==> entries[k].ptr == batch[k].ptr
      modifies this`heap, this`timers, this`activeTimers, this`expired, this`deleted,
               this`batch, this`running, this`alarm
      ensures Valid()
      ensures var p := ResetTo(old(Abs()), now, |old(batch)|);
              && (match next case None => p.active == map[] case Some(when) => IsEarliest(p.active, when))
              && Abs() == p.(batch := [], running := 0,
                             alarm := if next.Some? && next.value > 0 then ArmedFor(next.value, clock) else p.alarm)
    {
      hide Consistent, ActiveOf, Round;
      ghost var q := Abs();
      for k := 0 to |entries|
        invariant Valid() && Abs() == ResetTo(q, now, k)
        modifies this`heap, this`timers, this`activeTimers, this`expired, this`deleted
      {
        ResetKeepsExpired(q, now, k);
        ResetOne(entries[k], now, q, batch[k]);
      }
      FrontIsEarliest(heap, timers, activeTimers, expired, {});
      if timers != [] {
        var nextExpire := heap[timers[0].ptr].timer.expiration;
        next := Some(nextExpire);
        if nextExpire > 0 {
          alarm := ArmedFor(nextExpire, clock);
        }
      } else {
        next := None;
      }
      batch, running := [], 0;
    }


    /** A user callback. */
    method RunCallback(ops: seq<Op>, ghost q: Queue, ghost before: seq<Move>) returns (ghost moves: seq<Move>)
      requires Valid() && QueueOk(Abs()) && CanRun(q, before) && After(q, before) == Abs()
      modifies this
      ensures Valid() && QueueOk(Abs()) && CanRun(q, moves) && After(q, moves) == Abs()
      ensures moves == before + Performed(old(Abs()), ops) && Abs() == Left(old(Abs()), ops)
      ensures batch == old(batch) && expired == old(expired) && running == old(running)
      ensures callingExpiredTimers == old(callingExpiredTimers)
    {
      hide Consistent, ActiveOf, QueueOk, Can, CanRun, After, Apply, Performed, Left, Calls;
      ghost var start := Abs();
      moves := before;
      assert ops[0..] == ops;
      for k := 0 to |ops|
        invariant Valid() && QueueOk(Abs()) && CanRun(q, moves) && After(q, moves) == Abs()
        invariant moves + Performed(Abs(), ops[k..]) == before + Performed(start, ops)
        invariant Left(Abs(), ops[k..]) == Left(start, ops)
        invariant batch == old(batch) && expired == old(expired) && running == old(running)
        invariant callingExpiredTimers == old(callingExpiredTimers)
      {
        ghost var at := Abs();
        assert ops[k..][0] == ops[k] && ops[k..][1..] == ops[k + 1..];
        var called := Do(ops[k]);
        PerformedNext(at, ops[k..]);
        if called {
          ghost var m := MoveOf(ops[k]);
          Extend(q, moves, m);
          assert moves + ([m] + Performed(Abs(), ops[k + 1..])) == (moves + [m]) + Performed(Abs(), ops[k + 1..]);
          moves := moves + [m];
        }
      }
      NothingPerformed(Abs(), ops[|ops|..]);
    }

    /** One call of a callback, unless it stands for none. */
    method Do(op: Op) returns (called: bool)
      requires Valid() && QueueOk(Abs())
      modifies this
      ensures Valid() && QueueOk(Abs()) && (called <==> old(Calls(Abs(), op)))
      ensures if called then Can(old(Abs()), MoveOf(op)) && Abs() == Apply(old(Abs()), MoveOf(op)) else unchanged(this)
      ensures batch == old(batch) && expired == old(expired) && running == old(running)
      ensures callingExpiredTimers == old(callingExpiredTimers)
    {
      hide Consistent, ActiveOf, QueueOk, Earlier, InUse;
      ghost var at := Abs();
      called := true;
      match op {
        case AddOp(ptr, sequence, when, repeat, interval, clock) =>
          FreeAddress(ptr);
          called := ptr !in heap && sequence !in seen;
          if called {
            var _ := AddTimer(ptr, sequence, when, repeat, interval, clock);
            StepKeeps(at, MoveOf(op));
          }
        case CancelOp(id) =>
          CancelInLoop(id);
          CanAlwaysCancel(at, id);
          StepKeeps(at, Cancel(id));
      }
    }

    /** `readTimerfd`, `getExpired` and the two assignments before the callbacks. */
    method BeginBatch(now: int) returns (entries: seq<Entry>)
      requires Valid() && QueueOk(Abs()) && !callingExpiredTimers && now > 0
      modifies this
      ensures Valid() && QueueOk(Abs())
      ensures Can(old(Abs()), Fire(now, batch)) && Abs() == Apply(old(Abs()), Fire(now, batch))
      ensures callingExpiredTimers && running == 0
      ensures |entries| == |batch| && forall k :: 0 <= k < |entries| ==> entries[k].ptr == batch[k].ptr
    {
      ghost var q := Abs();
      hide Consistent, ActiveOf, IsBatch, NotDue, DueOf, QueueOk, Can, Apply;
      NoBatch(q);
      if alarm.Expired? {
        alarm := Off;
      }
      entries := GetExpired(now);
      callingExpiredTimers := true;
      cancelingTimers := {};
      running := 0;
      Fired(q, Abs(), now);
      StepKeeps(q, Fire(now, batch));
    }

    /** `callingExpiredTimers_ = false` and `reset`. */
    method EndBatch(entries: seq<Entry>, now: int, clock: int) returns (ghost last: Move)
      requires Valid() && QueueOk(Abs()) && callingExpiredTimers && now > 0 && running == |batch|
      requires |entries| == |batch| && forall k :: 0 <= k < |entries| ==> entries[k].ptr == batch[k].ptr
      modifies this
      ensures Valid() && QueueOk(Abs()) && !callingExpiredTimers
      ensures last.Finish? && last.now == now && last.clock == clock && Can(old(Abs()), last) && Abs() == Apply(old(Abs()), last)
    {
      hide Consistent, ActiveOf, QueueOk, BatchOk, IsEarliest;
      ghost var q := Abs();
      BatchFacts(q);
      callingExpiredTimers := false;
      ghost var next := Reset(entries, now, clock);
      ResetCalling(q, now, |q.batch|);
      last := Finish(now, clock, next);
      StepKeeps(q, last);
    }

    /** The next timer of the batch runs. */
    method RunTimer(ops: seq<Op>, ghost q: Queue, ghost before: seq<Move>) returns (ghost moves: seq<Move>)
      requires Valid() && QueueOk(Abs()) && CanRun(q, before) && After(q, before) == Abs()
      requires callingExpiredTimers && running < |batch|
      modifies this
      ensures Valid() && QueueOk(Abs()) && CanRun(q, moves) && After(q, moves) == Abs()
      ensures var q1 := Apply(old(Abs()), RunNext);
              moves == before + [RunNext] + Performed(q1, ops) && Abs() == Left(q1, ops)
      ensures batch == old(batch) && running == old(running) + 1 && callingExpiredTimers
    {
      hide Consistent, ActiveOf, QueueOk, Can, CanRun, After, Apply, Performed, Left;
      ghost var at := Abs();
      CanRunNext(at);
      StepKeeps(at, RunNext);
      Extend(q, before, RunNext);
      running := running + 1;
      moves := RunCallback(ops, q, before + [RunNext]);
    }

    /** The loop of `handleRead`. */
    method RunBatch(n: nat, callbacks: seq<seq<Op>>, ghost q: Queue, ghost before: seq<Move>) returns (ghost moves: seq<Move>)
      requires Valid() && QueueOk(Abs()) && CanRun(q, before) && After(q, before) == Abs()
      requires callingExpiredTimers && running == 0 && n == |batch|
      modifies this
      ensures Valid() && QueueOk(Abs()) && CanRun(q, moves) && After(q, moves) == Abs()
      ensures moves == before + Callbacks(old(Abs()), callbacks, 0, n)
      ensures batch == old(batch) && running == n && callingExpiredTimers
    {
      hide Consistent, ActiveOf, QueueOk, Can, CanRun, After, Apply, Performed, Left, Callbacks;
      ghost var start, live := Abs(), batch;
      moves := before;
      for k := 0 to n
        invariant Valid() && QueueOk(Abs()) && CanRun(q, moves) && After(q, moves) == Abs()
        invariant callingExpiredTimers && running == k && batch == live
        invariant moves + Callbacks(Abs(), callbacks, k, n) == before + Callbacks(start, callbacks, 0, n)
      {
        ghost var at, soFar := Abs(), moves;
        moves := RunTimer(Nth(callbacks, k), q, moves);
        CallbacksNext(at, callbacks, k, n);
        ghost var own, rest := Performed(Apply(at, RunNext), Nth(callbacks, k)), Callbacks(Abs(), callbacks, k + 1, n);
        assert soFar + ([RunNext] + own + rest) == (soFar + [RunNext] + own) + rest;
      }
      NoMoreCallbacks(Abs(), callbacks, n);
    }

    /** The whole of `handleRead`. The k-th expired timer's callback does `callbacks[k]`. The result says which
        moves that was: one batch, begun, run and finished, and in between just the callbacks' moves. */
    method HandleRead(now: int, callbacks: seq<seq<Op>>, clock: int) returns (ghost moves: seq<Move>)
      requires Valid() && QueueOk(Abs()) && !callingExpiredTimers && now > 0
      modifies this
      ensures Valid() && QueueOk(Abs()) && !callingExpiredTimers
      ensures CanRun(old(Abs()), moves) && After(old(Abs()), moves) == Abs()
      ensures |moves| >= 2
      ensures var first, last := moves[0], moves[|moves| - 1];
              && first.Fire? && first.now == now && last.Finish? && last.now == now && last.clock == clock
              && moves[1..|moves| - 1] == Callbacks(Apply(old(Abs()), first), callbacks, 0, |first.batch|)
      ensures forall id :: id in old(Active()) ==>
                var t := old(Active())[id];
                if Cancel(id) in moves || (t.expiration <= now && !t.repeat) then id !in Active()
                else id in Active() && Active()[id] == if t.expiration <= now then Timer(now + t.interval, true, t.interval) else t
    {
      hide Consistent, ActiveOf, QueueOk, Can, CanRun, After, Apply, Callbacks;
      ghost var q := Abs();
      var entries := BeginBatch(now);
      ghost var fire := Fire(now, batch);
      NoMoves(q);
      Extend(q, [], fire);
      assert [] + [fire] == [fire];
      moves := RunBatch(|entries|, callbacks, q, [fire]);
      ghost var last := EndBatch(entries, now, clock);
      Extend(q, moves, last);
      moves := moves + [last];
      forall id | id in q.active
        ensures var t, r := q.active[id], After(q, moves);
                if Cancel(id) in moves || (t.expiration <= now && !t.repeat) then id !in r.active
                else id in r.active && r.active[id] == if t.expiration <= now then Timer(now + t.interval, true, t.interval) else t
      {
        WholeBatch(q, moves, id);
      }
    }
  }

  lemma PerformedNext(q: Queue, ops: seq<Op>)
    requires ops != []
    ensures var m := MoveOf(ops[0]);
            && Performed(q, ops) == (if Calls(q, ops[0]) then [m] + Performed(Apply(q, m), ops[1..]) else Performed(q, ops[1..]))
            && Left(q, ops) == Left(if Calls(q, ops[0]) then Apply(q, m) else q, ops[1..])
  {}

  lemma NothingPerformed(q: Queue, ops: seq<Op>)
    requires ops == []
    ensures Performed(q, ops) == [] && Left(q, ops) == q
  {}

  lemma CallbacksNext(q: Queue, callbacks: seq<seq<Op>>, k: nat, n: nat)
    requires k < n
    ensures var q1 := Apply(q, RunNext);
            Callbacks(q, callbacks, k, n) ==
              [RunNext] + Performed(q1, Nth(callbacks, k)) + Callbacks(Left(q1, Nth(callbacks, k)), callbacks, k + 1, n)
  {}

  lemma NoMoreCallbacks(q: Queue, callbacks: seq<seq<Op>>, n: nat)
    ensures Callbacks(q, callbacks, n, n) == []
  {}
}
