/**
 What a TimerQueue does (zing/net/TimerQueue.cpp, zing/net/Timer.cpp), with its two indices merged into one
 map from identities to timers. Times and intervals are whole microseconds. User callbacks may do anything
 between the steps; all steps are taken on the loop's thread.
 */
module Timers {
  import opened Types

  /** A `TimerId`: an address, which may be used again, and a sequence number, which is not. */
  datatype TimerId = TimerId(ptr: nat, sequence: nat)

  datatype Timer = Timer(expiration: int, repeat: bool, interval: nat)

  /** The timerfd: armed by `timerfd_settime` for a deadline, readable once it has expired. */
  datatype Alarm = Off | Armed(deadline: int, setAt: int) | Expired

  const SHORTEST: int := 100

  /** `resetTimerfd(timerfd, when)` at time `clock`; the delay is that of `howMuchTimeFromNow`. */
  function ArmedFor(when: int, clock: int): Alarm {
    Armed(clock + (if when - clock < SHORTEST then SHORTEST else when - clock), clock)
  }

  /** The timerfd goes off when the timer expires, or after the shortest delay if that is later. */
  lemma ArmedForDelay(when: int, clock: int)
    ensures var a := ArmedFor(when, clock);
            && a.setAt == clock && a.deadline >= when && a.deadline >= clock + SHORTEST
            && (a.deadline == when || a.deadline == clock + SHORTEST)
  {}

  /**
   `active` are the timers in `timers_` and `activeTimers_`; `batch` and `expired` the ones being run, in
   order, with `running` the number of callbacks begun; `cancelling` is `cancelingTimers_`; `seen` are the
   sequence numbers of the timers that were added, in any order: `Timer::s_numCreated_` counts for all queues of
   the process. `deleted` records every `delete`.
   */
  datatype Queue = Queue(
    active: map<TimerId, Timer>,
    calling: bool,
    batch: seq<TimerId>,
    expired: map<TimerId, Timer>,
    running: nat,
    cancelling: set<TimerId>,
    alarm: Alarm,
    seen: set<nat>,
    deleted: multiset<TimerId>)

  const EMPTY: Queue := Queue(map[], false, [], map[], 0, {}, Off, {}, multiset{})

  datatype Move =
    | Add(id: TimerId, timer: Timer, clock: int)     // addTimer, in the loop
    | Cancel(id: TimerId)                             // cancelInLoop
    | Expire                                          // the kernel: the deadline has passed
    | Fire(now: int, batch: seq<TimerId>)             // handleRead up to the callbacks
    | RunNext                                         // the next callback begins
    | Finish(now: int, clock: int, next: Option<int>) // handleRead after the callbacks; `next` is the earliest timer

  ghost predicate InUse(q: Queue, ptr: nat) {
    exists id :: (id in q.active || id in q.expired) && id.ptr == ptr
  }

  predicate Earlier(q: Queue, when: int) {
    forall id :: id in q.active ==> when < q.active[id].expiration
  }

  predicate Before(a: TimerId, s: Timer, b: TimerId, t: Timer) {
    s.expiration < t.expiration || (s.expiration == t.expiration && a.ptr < b.ptr)
  }

  /** Exactly the timers due at `now`, by expiration and then by address. */
  ghost predicate IsBatch(active: map<TimerId, Timer>, now: int, batch: seq<TimerId>) {
    && (forall id :: id in batch <==> id in active && active[id].expiration <= now)
    && (forall j, k :: 0 <= j < k < |batch| ==>
          batch[j] in active && batch[k] in active
          && Before(batch[j], active[batch[j]], batch[k], active[batch[k]]))
  }

  function NotDue(active: map<TimerId, Timer>, now: int): map<TimerId, Timer> {
    map id | id in active && active[id].expiration > now :: active[id]
  }

  function DueOf(active: map<TimerId, Timer>, now: int): map<TimerId, Timer> {
    map id | id in active && active[id].expiration <= now :: active[id]
  }

  function Restarted(t: Timer, now: int): Timer { t.(expiration := now + t.interval) }

  predicate Again(q: Queue, id: TimerId) {
    id in q.expired && q.expired[id].repeat && id !in q.cancelling
  }

  /** One round of the loop of `reset`: the timer goes back or is deleted. */
  function Round(q: Queue, p: Queue, now: int, id: TimerId): Queue {
    if Again(q, id)
    then p.(active := p.active[id := Restarted(q.expired[id], now)], expired := p.expired - {id})
    else p.(deleted := p.deleted + multiset{id}, expired := p.expired - {id})
  }

  function ResetTo(q: Queue, now: int, k: nat): Queue
    requires k <= |q.batch|
    decreases k
  {
    if k == 0 then q else Round(q, ResetTo(q, now, k - 1), now, q.batch[k - 1])
  }

  ghost predicate IsEarliest(active: map<TimerId, Timer>, when: int) {
    && (exists id :: id in active && active[id].expiration == when)
    && (forall id :: id in active ==> when <= active[id].expiration)
  }

  ghost predicate Can(q: Queue, m: Move) {
    match m
    case Add(id, _, _) => id.sequence !in q.seen && !InUse(q, id.ptr)
    case Cancel(_) => true
    case Expire => q.alarm.Armed?
    case Fire(now, batch) => !q.calling && now > 0 && IsBatch(q.active, now, batch)
    case RunNext => q.calling && q.running < |q.batch|
    case Finish(now, _, next) =>
      && q.calling && now > 0 && q.running == |q.batch|
      && (var active := ResetTo(q, now, |q.batch|).active;
          match next
          case None => active == map[]
          case Some(when) => IsEarliest(active, when))
  }

  function Apply(q: Queue, m: Move): Queue
    requires m.Finish? ==> q.running == |q.batch|
  {
    match m
    case Add(id, t, clock) =>
      var alarm := if Earlier(q, t.expiration) then ArmedFor(t.expiration, clock) else q.alarm;
      q.(active := q.active[id := t], seen := q.seen + {id.sequence}, alarm := alarm)
    case Cancel(id) =>
      if id in q.active then q.(active := q.active - {id}, deleted := q.deleted + multiset{id})
      else if q.calling then q.(cancelling := q.cancelling + {id})
      else q
    case Expire => q.(alarm := Expired)
    case Fire(now, batch) =>
      q.(active := NotDue(q.active, now), expired := DueOf(q.active, now),
         batch := batch, calling := true, running := 0, cancelling := {},
         alarm := if q.alarm.Expired? then Off else q.alarm)
    case RunNext => q.(running := q.running + 1)
    case Finish(now, clock, next) =>
      var p := ResetTo(q, now, |q.batch|);
      p.(calling := false, batch := [], running := 0,
         alarm := if next.Some? && next.value > 0 then ArmedFor(next.value, clock) else p.alarm)
  }

  // ---------------------------------------------------------------- invariants

  ghost predicate Alive(q: Queue, id: TimerId) { id in q.active || id in q.expired }

  ghost predicate Known(q: Queue, id: TimerId) { Alive(q, id) || id in q.deleted }

  ghost predicate Numbered(q: Queue, n: nat) { exists id :: Known(q, id) && id.sequence == n }

  /** Every timer ever added is in the queue, in the batch or deleted, and in one of them only, once. */
  ghost predicate Accounted(q: Queue) {
    && q.active.Keys !! q.expired.Keys
    && (forall id :: id in q.deleted ==> q.deleted[id] == 1 && !Alive(q, id))
    && (forall id :: Known(q, id) ==> id.sequence in q.seen)
    && (forall a, b :: Known(q, a) && Known(q, b) && a.sequence == b.sequence ==> a == b)
    && (forall a, b :: Alive(q, a) && Alive(q, b) && a.ptr == b.ptr ==> a == b)
    && (forall n :: n in q.seen ==> Numbered(q, n))
  }

  ghost predicate BatchOk(q: Queue) {
    && q.running <= |q.batch|
    && (!q.calling ==> q.batch == [])
    && (forall id :: id in q.batch <==> id in q.expired)
    && (forall j, k :: 0 <= j < k < |q.batch| ==> q.batch[j] != q.batch[k])
  }

  /** The alarm goes off in time for every timer of the queue: it has gone off, or it is set for a deadline
      no later than the timer's expiration or the shortest delay the timerfd is given. */
  ghost predicate Covers(alarm: Alarm, active: map<TimerId, Timer>) {
    alarm.Expired? ||
    (alarm.Armed? && forall id :: id in active ==>
       alarm.deadline <= active[id].expiration || alarm.deadline <= alarm.setAt + SHORTEST)
  }

  ghost predicate AlarmOk(q: Queue) {
    if q.calling then
      // reset() arms for a valid earliest time; an invalid one was added by a callback, which armed for it
      (exists id :: id in q.active && q.active[id].expiration <= 0) ==> Covers(q.alarm, q.active)
    else
      q.active != map[] ==> Covers(q.alarm, q.active)
  }

  ghost predicate QueueOk(q: Queue) { Accounted(q) && BatchOk(q) && AlarmOk(q) }

  /** Timers only move between the queue, the batch and the deleted ones. */
  lemma Recount(q: Queue, r: Queue)
    requires Accounted(q) && r.seen == q.seen && r.active.Keys !! r.expired.Keys
    requires forall id :: Known(r, id) <==> Known(q, id)
    requires forall id :: Alive(r, id) ==> Alive(q, id)
    requires forall id :: id in r.deleted ==> r.deleted[id] == 1 && !Alive(r, id)
    ensures Accounted(r)
  {
    forall n | n in r.seen ensures Numbered(r, n) {
      assert Numbered(q, n);
      var id :| Known(q, id) && id.sequence == n;
      assert Known(r, id);
    }
  }

  lemma AddAccounted(q: Queue, m: Move)
    requires Accounted(q) && Can(q, m) && m.Add?
    ensures Accounted(Apply(q, m))
  {
    var r := Apply(q, m);
    assert forall id :: Alive(r, id) <==> Alive(q, id) || id == m.id;
    assert forall id :: Known(r, id) <==> Known(q, id) || id == m.id;
    assert !Known(q, m.id);
    forall n | n in r.seen ensures Numbered(r, n) {
      if n == m.id.sequence {
        assert Known(r, m.id);
      } else {
        assert Numbered(q, n);
        var id :| Known(q, id) && id.sequence == n;
        assert Known(r, id);
      }
    }
  }

  lemma AddAlarm(q: Queue, m: Move)
    requires AlarmOk(q) && Can(q, m) && m.Add?
    ensures AlarmOk(Apply(q, m))
  {
    var r := Apply(q, m);
    if !Earlier(q, m.timer.expiration) {
      var e :| e in q.active && q.active[e].expiration <= m.timer.expiration;
      if q.calling && m.timer.expiration <= 0 { assert q.active[e].expiration <= 0; }
      if Covers(q.alarm, q.active) { assert Covers(r.alarm, r.active); }
      if q.calling && !Covers(q.alarm, q.active) {
        assert forall id :: id in r.active ==> r.active[id].expiration > 0;
      }
    }
  }

  lemma CancelKeeps(q: Queue, m: Move)
    requires QueueOk(q) && Can(q, m) && m.Cancel?
    ensures QueueOk(Apply(q, m))
  {
    var r := Apply(q, m);
    assert forall id :: id in r.active ==> id in q.active && r.active[id] == q.active[id];
    Recount(q, r);
  }

  lemma FireKeeps(q: Queue, m: Move)
    requires QueueOk(q) && Can(q, m) && m.Fire?
    ensures QueueOk(Apply(q, m))
  {
    var r := Apply(q, m);
    assert forall id :: Alive(r, id) <==> Alive(q, id);
    Recount(q, r);
    forall j, k | 0 <= j < k < |m.batch| ensures m.batch[j] != m.batch[k] {
      assert Before(m.batch[j], q.active[m.batch[j]], m.batch[k], q.active[m.batch[k]]);
    }
  }

  /** `p` is `q` after some rounds of `reset`: what it leaves alone. */
  ghost predicate SameBatch(q: Queue, p: Queue) {
    p.(active := q.active, expired := q.expired, deleted := q.deleted) == q
  }

  lemma {:induction false} ResetSame(q: Queue, now: int, k: nat)
    requires k <= |q.batch|
    ensures SameBatch(q, ResetTo(q, now, k))
    decreases k
  {
    if k > 0 { ResetSame(q, now, k - 1); }
  }

  /** `reset` is called after the flag has been cleared, and does not look at it. */
  lemma {:induction false} ResetCalling(q: Queue, now: int, k: nat)
    requires k <= |q.batch|
    ensures ResetTo(q.(calling := false), now, k) == ResetTo(q, now, k).(calling := false)
    decreases k
  {
    if k > 0 { ResetCalling(q, now, k - 1); }
  }

  lemma RoundEffect(q: Queue, p: Queue, now: int, b: TimerId, id: TimerId)
    ensures var r := Round(q, p, now, b);
            && (id in r.expired <==> id in p.expired && id != b)
            && (id in r.active <==> id in p.active || (id == b && Again(q, b)))
            && (id in p.active && (id != b || !Again(q, b)) ==> r.active[id] == p.active[id])
            && (id == b && Again(q, b) ==> r.active[id] == Restarted(q.expired[b], now))
            && (id in r.deleted <==> id in p.deleted || (id == b && !Again(q, b)))
  {}

  /** What `k` rounds of `reset` have done to one timer. */
  lemma {:induction false} ResetRound(q: Queue, now: int, k: nat, id: TimerId)
    requires (forall b :: b in q.batch ==> b in q.expired) && q.active.Keys !! q.expired.Keys && k <= |q.batch|
    ensures var p := ResetTo(q, now, k);
            && (id in p.expired <==> id in q.expired && id !in q.batch[..k])
            && (id in q.active ==> id in p.active && p.active[id] == q.active[id])
            && (id !in q.active ==> (id in p.active <==> id in q.batch[..k] && Again(q, id)))
            && (id in p.active && id !in q.active ==> p.active[id] == Restarted(q.expired[id], now))
            && (id in q.batch[..k] && !Again(q, id) ==> id in p.deleted)
    decreases k
  {
    hide Round;
    if k > 0 {
      ResetRound(q, now, k - 1, id);
      var b := q.batch[k - 1];
      assert b in q.batch && b in q.expired && b !in q.active;
      RoundEffect(q, ResetTo(q, now, k - 1), now, b, id);
      assert id in q.batch[..k] <==> id in q.batch[..k - 1] || id == b by {
        assert q.batch[..k] == q.batch[..k - 1] + [b];
      }
    }
  }

  /** When `reset` is done, the batch is empty and its timers are back or deleted. */
  lemma ResetAll(q: Queue, now: int)
    requires BatchOk(q) && q.active.Keys !! q.expired.Keys
    ensures var p := ResetTo(q, now, |q.batch|);
            && SameBatch(q, p) && p.expired == map[]
            && (forall id :: id in q.active ==> id in p.active && p.active[id] == q.active[id])
            && (forall id :: id in q.expired && Again(q, id) ==>
                  id in p.active && p.active[id] == Restarted(q.expired[id], now))
            && (forall id :: id in q.expired && !Again(q, id) ==> id in p.deleted)
            && (forall id :: id in p.active ==> id in q.active || Again(q, id))
  {
    var p := ResetTo(q, now, |q.batch|);
    ResetSame(q, now, |q.batch|);
    assert q.batch[..|q.batch|] == q.batch;
    forall id
      ensures id !in p.expired
      ensures id in q.active ==> id in p.active && p.active[id] == q.active[id]
      ensures id in q.expired && Again(q, id) ==> id in p.active && p.active[id] == Restarted(q.expired[id], now)
      ensures id in q.expired && !Again(q, id) ==> id in p.deleted
      ensures id in p.active ==> id in q.active || Again(q, id)
    {
      ResetRound(q, now, |q.batch|, id);
    }
  }

  lemma StillToReset(q: Queue, now: int, k: nat)
    requires BatchOk(q) && q.active.Keys !! q.expired.Keys && k < |q.batch|
    ensures q.batch[k] in ResetTo(q, now, k).expired && q.batch[k] in q.expired
  {
    ResetRound(q, now, k, q.batch[k]);
    assert q.batch[k] in q.batch;
  }

  /** The batch that is still to be dealt with is as it was. */
  lemma ResetKeepsExpired(q: Queue, now: int, k: nat)
    requires BatchOk(q.(calling := true)) && q.active.Keys !! q.expired.Keys && k < |q.batch|
    ensures var p, id := ResetTo(q, now, k), q.batch[k];
            id in p.expired && id in q.expired && p.expired[id] == q.expired[id]
  {
    var id := q.batch[k];
    assert id in q.batch;
    assert forall b :: b in q.batch ==> b in q.expired;
    ResetRound(q, now, k, id);
    ExpiredUnchanged(q, now, k, id);
  }

  lemma {:induction false} ExpiredUnchanged(q: Queue, now: int, k: nat, id: TimerId)
    requires k <= |q.batch|
    ensures id in ResetTo(q, now, k).expired ==> id in q.expired && ResetTo(q, now, k).expired[id] == q.expired[id]
    decreases k
  {
    if k > 0 { ExpiredUnchanged(q, now, k - 1, id); }
  }

  lemma RoundAccounted(q: Queue, p: Queue, now: int, b: TimerId)
    requires Accounted(p) && b in p.expired
    ensures Accounted(Round(q, p, now, b))
  {
    assert Alive(p, b) && b !in p.deleted;
    Recount(p, Round(q, p, now, b));
  }

  lemma {:induction false} ResetAccounted(q: Queue, now: int, k: nat)
    requires Accounted(q) && BatchOk(q) && q.active.Keys !! q.expired.Keys && k <= |q.batch|
    ensures Accounted(ResetTo(q, now, k))
    decreases k
  {
    hide Accounted, BatchOk, Round;
    if k > 0 {
      StillToReset(q, now, k - 1);
      ResetAccounted(q, now, k - 1);
      RoundAccounted(q, ResetTo(q, now, k - 1), now, q.batch[k - 1]);
    }
  }

  lemma FinishKeeps(q: Queue, m: Move)
    requires QueueOk(q) && Can(q, m) && m.Finish?
    ensures QueueOk(Apply(q, m))
  {
    var p := ResetTo(q, m.now, |q.batch|);
    ResetAll(q, m.now);
    ResetAccounted(q, m.now, |q.batch|);
    Recount(p, Apply(q, m));
    FinishAlarm(q, m);
  }

  lemma FinishAlarm(q: Queue, m: Move)
    requires QueueOk(q) && Can(q, m) && m.Finish?
    ensures AlarmOk(Apply(q, m))
  {
    ResetAll(q, m.now);
    hide Accounted, BatchOk;
    var p := ResetTo(q, m.now, |q.batch|);
    if m.next.Some? && m.next.value <= 0 {
      // only a timer that a callback added can have such a time
      var id :| id in p.active && p.active[id].expiration == m.next.value;
      assert id in q.active;
    }
  }

  lemma StepKeeps(q: Queue, m: Move)
    requires QueueOk(q) && Can(q, m)
    ensures QueueOk(Apply(q, m))
  {
    match m {
      case Add(_, _, _) => AddAccounted(q, m); AddAlarm(q, m);
      case Cancel(_) => CancelKeeps(q, m);
      case Fire(_, _) => FireKeeps(q, m);
      case Finish(_, _, _) => FinishKeeps(q, m);
      case _ => Recount(q, Apply(q, m));
    }
  }

  // ---------------------------------------------------------------- whole runs

  ghost predicate CanRun(q: Queue, moves: seq<Move>)
    decreases |moves|
  {
    moves == [] || (Can(q, moves[0]) && CanRun(Apply(q, moves[0]), moves[1..]))
  }

  ghost function After(q: Queue, moves: seq<Move>): Queue
    requires CanRun(q, moves)
    decreases |moves|
  {
    if moves == [] then q else After(Apply(q, moves[0]), moves[1..])
  }

  lemma {:induction false} RunKeeps(q: Queue, moves: seq<Move>)
    requires QueueOk(q) && CanRun(q, moves)
    ensures QueueOk(After(q, moves))
    decreases |moves|
  {
    if moves != [] {
      StepKeeps(q, moves[0]);
      RunKeeps(Apply(q, moves[0]), moves[1..]);
    }
  }

  lemma {:induction false} Concat(q: Queue, ms: seq<Move>, ns: seq<Move>)
    requires CanRun(q, ms) && CanRun(After(q, ms), ns)
    ensures CanRun(q, ms + ns) && After(q, ms + ns) == After(After(q, ms), ns)
    decreases |ms|
  {
    hide Apply;
    if ms == [] {
      assert ms + ns == ns;
    } else {
      Concat(Apply(q, ms[0]), ms[1..], ns);
      assert (ms + ns)[1..] == ms[1..] + ns;
    }
  }

  lemma NoMoves(q: Queue)
    ensures CanRun(q, []) && After(q, []) == q
  {}

  lemma Extend(q: Queue, moves: seq<Move>, m: Move)
    requires CanRun(q, moves) && Can(After(q, moves), m)
    ensures CanRun(q, moves + [m]) && After(q, moves + [m]) == Apply(After(q, moves), m)
  {
    hide Apply;
    var p := After(q, moves);
    assert [m][0] == m && [m][1..] == [];
    assert CanRun(Apply(p, m), []) && After(Apply(p, m), []) == Apply(p, m);
    assert CanRun(p, [m]) && After(p, [m]) == Apply(p, m);
    Concat(q, moves, [m]);
  }

  lemma EmptyOk()
    ensures QueueOk(EMPTY)
  {}

  /** In every state of every run, each timer that was ever added is in the queue, or in the batch being run,
      or has been deleted: one of them, and deleted once. No two live timers share an address. */
  lemma EveryTimerOnce(moves: seq<Move>, n: nat)
    requires CanRun(EMPTY, moves) && n in After(EMPTY, moves).seen
    ensures var q := After(EMPTY, moves);
            exists id: TimerId :: Known(q, id) && id.sequence == n
              && (if id in q.deleted then q.deleted[id] == 1 && !Alive(q, id) else id in q.active <==> id !in q.expired)
              && (forall other :: Known(q, other) && other.sequence == n ==> other == id)
              && (forall other :: Alive(q, id) && Alive(q, other) && other.ptr == id.ptr ==> other == id)
  {
    EmptyOk();
    RunKeeps(EMPTY, moves);
    var q := After(EMPTY, moves);
    assert Numbered(q, n);
    var id :| Known(q, id) && id.sequence == n;
  }

  /** No timer is stranded: whenever control is back in the loop, the alarm goes off in time for every timer
      in the queue, whatever was cancelled, and whatever the callbacks added or cancelled. */
  lemma NeverStranded(moves: seq<Move>)
    requires CanRun(EMPTY, moves) && !After(EMPTY, moves).calling
    ensures var q := After(EMPTY, moves); q.active != map[] ==> Covers(q.alarm, q.active)
  {
    EmptyOk();
    RunKeeps(EMPTY, moves);
  }

  /** The timer cannot come back: it is not queued, and if it is in the batch it will not be restarted. */
  ghost predicate Finished(q: Queue, id: TimerId) {
    id.sequence in q.seen && id !in q.active && !Again(q, id)
  }

  lemma FinishedStays(q: Queue, m: Move, id: TimerId)
    requires QueueOk(q) && Can(q, m) && Finished(q, id)
    ensures Finished(Apply(q, m), id)
    ensures m.Fire? ==> id !in m.batch
  {
    if m.Finish? { ResetAll(q, m.now); }
  }

  ghost predicate NeverFires(moves: seq<Move>, id: TimerId) {
    forall k :: 0 <= k < |moves| && moves[k].Fire? ==> id !in moves[k].batch
  }

  lemma {:induction false} FinishedNeverFires(q: Queue, moves: seq<Move>, id: TimerId)
    requires QueueOk(q) && CanRun(q, moves) && Finished(q, id)
    ensures NeverFires(moves, id)
    decreases |moves|
  {
    if moves != [] {
      FinishedStays(q, moves[0], id);
      StepKeeps(q, moves[0]);
      FinishedNeverFires(Apply(q, moves[0]), moves[1..], id);
      assert NeverFires(moves[1..], id);
      forall k | 0 <= k < |moves| && moves[k].Fire? ensures id !in moves[k].batch {
        if k > 0 { assert moves[k] == moves[1..][k - 1]; }
      }
    }
  }

  /** A timer that was cancelled is in no later batch, whether it was waiting, in the batch being run,
      cancelling itself, or gone already. */
  lemma CancelledNeverRunsAgain(before: seq<Move>, id: TimerId, later: seq<Move>)
    requires CanRun(EMPTY, before) && id.sequence in After(EMPTY, before).seen
    requires CanRun(Apply(After(EMPTY, before), Cancel(id)), later)
    ensures NeverFires(later, id)
  {
    EmptyOk();
    RunKeeps(EMPTY, before);
    var q := After(EMPTY, before);
    StepKeeps(q, Cancel(id));
    assert id in q.expired ==> id in q.batch && q.calling;
    FinishedNeverFires(Apply(q, Cancel(id)), later, id);
  }

  /** And only that timer is affected, also when its address is in use again. */
  lemma CancelSparesOthers(q: Queue, id: TimerId, other: TimerId)
    requires other != id
    ensures var r := Apply(q, Cancel(id));
            && (other in r.active <==> other in q.active)
            && (other in q.active ==> r.active[other] == q.active[other])
            && (Again(r, other) <==> Again(q, other))
  {}

  /** What a batch leaves behind: exactly the repeating timers nobody cancelled are back, one interval after
      the batch, and the rest are deleted; timers added meanwhile are untouched. */
  lemma BatchOutcome(q: Queue, m: Move)
    requires QueueOk(q) && Can(q, m) && m.Finish?
    ensures var r := Apply(q, m);
            && (forall id :: id in q.active ==> id in r.active && r.active[id] == q.active[id])
            && (forall id :: id in q.expired ==>
                  if q.expired[id].repeat && id !in q.cancelling
                  then id in r.active && r.active[id] == Timer(m.now + q.expired[id].interval, true, q.expired[id].interval)
                  else id !in r.active && r.deleted[id] == 1)
  {
    ResetAll(q, m.now);
    FinishKeeps(q, m);
  }

  /** The timerfd is set anew for the earliest timer: not before it expires, or after the shortest delay. */
  lemma SetForEarliest(q: Queue, m: Move, when: int)
    requires QueueOk(q) && Can(q, m)
    requires (m.Add? && Earlier(q, when) && when == m.timer.expiration) || (m.Finish? && m.next == Some(when) && when > 0)
    ensures IsEarliest(Apply(q, m).active, when)
    ensures Apply(q, m).alarm == Armed(if when < m.clock + SHORTEST then m.clock + SHORTEST else when, m.clock)
  {
    if m.Add? { assert m.id in Apply(q, m).active; }
  }

  /** What each move does to the timerfd: it is readable from the expiry of its deadline until a batch begins or
      it is set anew, which only a new earliest timer and the end of a batch do. */
  lemma AlarmMoves(q: Queue, m: Move)
    requires QueueOk(q) && Can(q, m)
    ensures var r := Apply(q, m);
            match m
            case Expire => r.alarm.Expired?
            case Fire(_, _) => if q.alarm.Expired? then r.alarm == Off else r.alarm == q.alarm
            case Add(_, t, _) => (exists id :: id in q.active && q.active[id].expiration <= t.expiration) ==> r.alarm == q.alarm
            case Finish(_, _, next) => next.None? || next.value <= 0 ==> r.alarm == q.alarm
            case _ => r.alarm == q.alarm
  {
    if m.Finish? { ResetSame(q, m.now, |q.batch|); }
  }

  lemma {:induction false} EarliestExists(active: map<TimerId, Timer>) returns (next: Option<int>)
    ensures match next case None => active == map[] case Some(when) => IsEarliest(active, when)
    decreases |active|
  {
    if active == map[] {
      next := None;
    } else {
      var id :| id in active;
      var rest := active - {id};
      assert |rest| < |active| by { assert rest.Keys == active.Keys - {id}; }
      var other := EarliestExists(rest);
      var here := active[id].expiration;
      next := Some(if other.Some? && other.value < here then other.value else here);
      forall i | i in active ensures next.value <= active[i].expiration {
        if i != id { assert i in rest; }
      }
    }
  }

  /** A batch comes to its end: when every callback has begun, once each, it can be finished, and then no batch is
      being run, whatever the time. */
  lemma {:induction false} BatchEnds(q: Queue, now: int, clock: int) returns (moves: seq<Move>)
    requires QueueOk(q) && q.calling && now > 0
    ensures CanRun(q, moves) && |moves| == |q.batch| - q.running + 1
    ensures forall k :: 0 <= k < |moves| - 1 ==> moves[k] == RunNext
    ensures var r := After(q, moves); !r.calling && r.batch == [] && r.expired == map[] && QueueOk(r)
    decreases |q.batch| - q.running
  {
    if q.running < |q.batch| {
      StepKeeps(q, RunNext);
      CanBegin(q);
      hide QueueOk, Can, Apply;
      var rest := BatchEnds(Apply(q, RunNext), now, clock);
      moves := [RunNext] + rest;
      assert moves[1..] == rest;
    } else {
      var next := EarliestExists(ResetTo(q, now, |q.batch|).active);
      var m := Finish(now, clock, next);
      StepKeeps(q, m);
      EmptyBatch(Apply(q, m), q, m);
      hide QueueOk;
      moves := [m];
      assert CanRun(Apply(q, m), []) && moves[1..] == [];
    }
  }

  lemma CanBegin(q: Queue)
    requires q.calling && q.running < |q.batch|
    ensures Can(q, RunNext) && Apply(q, RunNext).calling && Apply(q, RunNext).batch == q.batch
    ensures Apply(q, RunNext).running == q.running + 1
  {}

  lemma EmptyBatch(r: Queue, q: Queue, m: Move)
    requires QueueOk(q) && Can(q, m) && m.Finish? && r == Apply(q, m)
    ensures !r.calling && r.batch == [] && r.expired == map[]
  {
    ResetAll(q, m.now);
  }

  /** Moves that are made between the first callback of a batch and the last. */
  predicate DuringBatch(moves: seq<Move>) { forall m :: m in moves ==> m.RunNext? || m.Add? || m.Cancel? }

  /** What they do to a timer that is there already. */
  lemma {:induction false} DuringBatchOne(q: Queue, moves: seq<Move>, id: TimerId)
    requires QueueOk(q) && q.calling && CanRun(q, moves) && DuringBatch(moves) && id.sequence in q.seen
    ensures var r := After(q, moves);
            && QueueOk(r) && r.calling && r.expired == q.expired && r.batch == q.batch
            && (id in r.active <==> id in q.active && Cancel(id) !in moves)
            && (id in r.active ==> r.active[id] == q.active[id])
            && (id in q.expired ==> (id in r.cancelling <==> id in q.cancelling || Cancel(id) in moves))
    decreases |moves|
  {
    if moves != [] {
      var m, rest := moves[0], moves[1..];
      assert m in moves && moves == [m] + rest;
      StepKeeps(q, m);
      DuringBatchStep(q, m, id);
      hide QueueOk, Apply, Can;
      DuringBatchOne(Apply(q, m), rest, id);
    }
  }

  lemma DuringBatchStep(q: Queue, m: Move, id: TimerId)
    requires QueueOk(q) && q.calling && Can(q, m) && (m.RunNext? || m.Add? || m.Cancel?) && id.sequence in q.seen
    ensures var r := Apply(q, m);
            && r.calling && r.expired == q.expired && r.batch == q.batch && id.sequence in r.seen
            && (id in r.active <==> id in q.active && m != Cancel(id))
            && (id in r.active ==> r.active[id] == q.active[id])
            && (id in q.expired ==> (id in r.cancelling <==> id in q.cancelling || m == Cancel(id)))
  {}

  lemma {:induction false} SplitLast(q: Queue, moves: seq<Move>)
    requires CanRun(q, moves) && moves != []
    ensures var init, m := moves[..|moves| - 1], moves[|moves| - 1];
            CanRun(q, init) && Can(After(q, init), m) && After(q, moves) == Apply(After(q, init), m)
    decreases |moves|
  {
    hide Apply;
    var init := moves[..|moves| - 1];
    if |moves| > 1 {
      SplitLast(Apply(q, moves[0]), moves[1..]);
      assert init[0] == moves[0] && init[1..] == moves[1..][..|moves| - 2];
    } else {
      assert moves[1..] == [] && init == [];
    }
  }

  /** A whole batch, for a timer that was in the queue before it: not due, it stays as it is; due, it is back one
      interval after the batch's time if it repeats; and it is gone if it is cancelled meanwhile, or was due
      and does not repeat. */
  lemma WholeBatch(q: Queue, moves: seq<Move>, id: TimerId)
    requires QueueOk(q) && CanRun(q, moves) && id in q.active
    requires |moves| >= 2 && moves[0].Fire? && moves[|moves| - 1].Finish? && moves[|moves| - 1].now == moves[0].now
    requires DuringBatch(moves[1..|moves| - 1])
    ensures var r, now, t := After(q, moves), moves[0].now, q.active[id];
            if Cancel(id) in moves || (t.expiration <= now && !t.repeat) then id !in r.active
            else id in r.active && r.active[id] == if t.expiration <= now then Timer(now + t.interval, true, t.interval) else t
  {
    hide QueueOk, Can, Apply, CanRun, After;
    var fire, mid, last := moves[0], moves[1..|moves| - 1], moves[|moves| - 1];
    Parts(q, moves);
    var q1 := Apply(q, fire);
    FireOne(q, fire, id);
    DuringBatchOne(q1, mid, id);
    FinishOne(After(q1, mid), last, id);
    assert Cancel(id) in moves <==> Cancel(id) in mid by { assert moves == [fire] + mid + [last]; }
  }

  lemma Parts(q: Queue, moves: seq<Move>)
    requires CanRun(q, moves) && |moves| >= 2
    requires moves[0].Fire?
    ensures var fire, mid, last := moves[0], moves[1..|moves| - 1], moves[|moves| - 1];
            && Can(q, fire) && CanRun(Apply(q, fire), mid) && Can(After(Apply(q, fire), mid), last)
            && After(q, moves) == Apply(After(Apply(q, fire), mid), last)
  {
    hide Can, Apply;
    assert moves[1..][..|moves| - 2] == moves[1..|moves| - 1] && moves[1..][|moves| - 2] == moves[|moves| - 1];
    SplitLast(Apply(q, moves[0]), moves[1..]);
  }

  lemma FireOne(q: Queue, m: Move, id: TimerId)
    requires QueueOk(q) && Can(q, m) && m.Fire? && id in q.active
    ensures var r := Apply(q, m);
            && QueueOk(r) && r.calling && r.cancelling == {} && id.sequence in r.seen
            && (if q.active[id].expiration <= m.now then id !in r.active && id in r.expired && r.expired[id] == q.active[id]
                else id !in r.expired && id in r.active && r.active[id] == q.active[id])
  {
    assert Known(q, id);
    StepKeeps(q, m);
  }

  lemma FinishOne(q: Queue, m: Move, id: TimerId)
    requires QueueOk(q) && Can(q, m) && m.Finish?
    ensures var r := Apply(q, m);
            && (id in q.active ==> id in r.active && r.active[id] == q.active[id])
            && (id in q.expired ==>
                  if q.expired[id].repeat && id !in q.cancelling
                  then id in r.active && r.active[id] == Timer(m.now + q.expired[id].interval, true, q.expired[id].interval)
                  else id !in r.active)
            && (id !in q.active && id !in q.expired ==> id !in r.active)
  {
    BatchOutcome(q, m);
    ResetAll(q, m.now);
  }

  // ---------------------------------------------------------------- what callbacks do

  /** What a user callback does, with the clock it reads. An address at which there is an object, and a number
      that was given out before, stand for no call at all: `new` and the counter cannot return them. */
  datatype Op =
    | AddOp(ptr: nat, sequence: nat, when: int, repeat: bool, interval: nat, clock: int)
    | CancelOp(id: TimerId)

  ghost predicate Calls(q: Queue, op: Op) { op.CancelOp? || (!InUse(q, op.ptr) && op.sequence !in q.seen) }

  function MoveOf(op: Op): Move {
    match op
    case AddOp(ptr, sequence, when, repeat, interval, clock) =>
      Add(TimerId(ptr, sequence), Timer(when, repeat, interval), clock)
    case CancelOp(id) => Cancel(id)
  }

  /** The moves of one callback, and the state it leaves. */
  ghost function Performed(q: Queue, ops: seq<Op>): (moves: seq<Move>)
    ensures forall m :: m in moves ==> m.Add? || m.Cancel?
    decreases |ops|
  {
    if ops == [] then []
    else if Calls(q, ops[0]) then [MoveOf(ops[0])] + Performed(Apply(q, MoveOf(ops[0])), ops[1..])
    else Performed(q, ops[1..])
  }

  ghost function Left(q: Queue, ops: seq<Op>): Queue
    decreases |ops|
  {
    if ops == [] then q
    else Left(if Calls(q, ops[0]) then Apply(q, MoveOf(ops[0])) else q, ops[1..])
  }

  function Nth(callbacks: seq<seq<Op>>, k: nat): seq<Op> { if k < |callbacks| then callbacks[k] else [] }

  /** The moves of the callbacks of a batch from the k-th to the n-th, each when its timer's turn comes. */
  ghost function Callbacks(q: Queue, callbacks: seq<seq<Op>>, k: nat, n: nat): (moves: seq<Move>)
    requires k <= n
    ensures forall m :: m in moves ==> m.RunNext? || m.Add? || m.Cancel?
    decreases n - k
  {
    if k == n then []
    else
      var q1 := Apply(q, RunNext);
      [RunNext] + Performed(q1, Nth(callbacks, k)) + Callbacks(Left(q1, Nth(callbacks, k)), callbacks, k + 1, n)
  }
}
