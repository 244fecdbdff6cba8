/**
 The bounded queue with two condition variables, as ThreadPool and BoundedBlockingQueue have it
 (zing/base/ThreadPool.cpp, zing/base/BoundedBlockingQueue.h). A step is what one thread does between taking
 the mutex and giving it up or waiting. A signal wakes one waiter, any one; a waiter may also wake up for no
 reason; a woken thread has the mutex still to take, and others may be faster.
 */
module Monitor {
  import opened Types

  type Thread = nat
  type Task = nat

  datatype Kind = Pool | Blocking

  /** Where a worker of the pool, or a consumer of the queue, is: about to read `running_`, about to take the
      mutex in `take`, waiting there, running a task, or gone. */
  datatype Place = Testing | Taking | Waiting | Busy | Gone

  /** `blocked` are the producers that wait, with their tasks. Of those that wait on a condition, some are
      asleep and some have been woken. `accepted` and `taken` record what `push` and `pop` were given. */
  datatype State = State(
    kind: Kind,
    max: nat,
    running: bool,
    queue: seq<Task>,
    workers: map<Thread, Place>,
    blocked: map<Thread, Task>,
    asleepTakers: set<Thread>,
    wokenTakers: set<Thread>,
    asleepPutters: set<Thread>,
    wokenPutters: set<Thread>,
    accepted: seq<Task>,
    taken: seq<Task>)

  /** After `start`, or after the queue was made. */
  predicate Initial(s: State) {
    && s.running && s.queue == s.accepted == s.taken == [] && s.blocked == map[]
    && (forall w :: w in s.workers ==> s.workers[w] == Testing)
    && s.asleepTakers == s.wokenTakers == s.asleepPutters == s.wokenPutters == {}
    && (s.kind.Blocking? ==> s.max > 0)
  }

  /** A full pool has at least `max` tasks, a full queue exactly so many; without a maximum, no pool is full. */
  predicate IsFull(s: State) {
    match s.kind
    case Pool => s.max > 0 && |s.queue| >= s.max
    case Blocking => |s.queue| == s.max
  }

  datatype Move =
    | Test(w: Thread)                                      // while (running_), in runInThread
    | Take(w: Thread, wake: Option<Thread>)                // take, from the start or from its wait
    | Finish(w: Thread)                                    // the task returns
    | Put(p: Thread, task: Task, wake: Option<Thread>)     // run or put
    | PutAgain(p: Thread, wake: Option<Thread>)            // run or put, from its wait
    | Spurious(t: Thread)                                  // wait returns without a signal
    | Stop                                                 // stop, up to the joins

  /** A signal wakes one sleeper if there is one. */
  predicate Wakes(asleep: set<Thread>, wake: Option<Thread>) {
    match wake
    case Some(t) => t in asleep
    case None => asleep == {}
  }

  predicate Can(s: State, m: Move) {
    match m
    case Test(w) => w in s.workers && s.workers[w] == Testing
    case Take(w, wake) => ((w in s.workers && s.workers[w] == Taking) || w in s.wokenTakers) && Wakes(s.asleepPutters, wake)
    case Finish(w) => w in s.workers && s.workers[w] == Busy
    case Put(p, _, wake) =>
      // with no threads in the pool, `run` calls the task itself
      (s.kind.Pool? ==> s.workers != map[]) && p !in s.blocked && Wakes(s.asleepTakers, wake)
    case PutAgain(p, wake) => p in s.wokenPutters && p in s.blocked && Wakes(s.asleepTakers, wake)
    case Spurious(t) => t in s.asleepTakers || t in s.asleepPutters
    case Stop => s.kind.Pool?
  }

  function Woken(wake: Option<Thread>): set<Thread> { if wake.Some? then {wake.value} else {} }

  function NotifyPutter(s: State, wake: Option<Thread>): State {
    s.(asleepPutters := s.asleepPutters - Woken(wake), wokenPutters := s.wokenPutters + Woken(wake))
  }

  function NotifyTaker(s: State, wake: Option<Thread>): State {
    s.(asleepTakers := s.asleepTakers - Woken(wake), wokenTakers := s.wokenTakers + Woken(wake))
  }

  function TakeStep(s: State, w: Thread, wake: Option<Thread>): State {
    var r := s.(wokenTakers := s.wokenTakers - {w});
    if s.queue == [] && s.running then
      r.(workers := s.workers[w := Waiting], asleepTakers := s.asleepTakers + {w})
    else if s.queue == [] then
      r.(workers := s.workers[w := Testing])
    else
      var p := r.(workers := s.workers[w := Busy], queue := s.queue[1..], taken := s.taken + [s.queue[0]]);
      if s.kind.Blocking? || s.max > 0 then NotifyPutter(p, wake) else p
  }

  function PutStep(s: State, p: Thread, task: Task, wake: Option<Thread>): State {
    var r := s.(wokenPutters := s.wokenPutters - {p});
    if IsFull(s) && s.running then
      r.(blocked := s.blocked[p := task], asleepPutters := s.asleepPutters + {p})
    else if !s.running then
      r.(blocked := s.blocked - {p})
    else
      NotifyTaker(r.(blocked := s.blocked - {p}, queue := s.queue + [task], accepted := s.accepted + [task]), wake)
  }

  function Apply(s: State, m: Move): State
    requires Can(s, m)
  {
    match m
    case Test(w) => s.(workers := s.workers[w := if s.running then Taking else Gone])
    case Take(w, wake) => TakeStep(s, w, wake)
    case Finish(w) => s.(workers := s.workers[w := Testing])
    case Put(p, task, wake) => PutStep(s, p, task, wake)
    case PutAgain(p, wake) => PutStep(s, p, s.blocked[p], wake)
    case Spurious(t) =>
      if t in s.asleepTakers
      then s.(asleepTakers := s.asleepTakers - {t}, wokenTakers := s.wokenTakers + {t})
      else s.(asleepPutters := s.asleepPutters - {t}, wokenPutters := s.wokenPutters + {t})
    case Stop =>
      s.(running := false,
         asleepTakers := {}, wokenTakers := s.wokenTakers + s.asleepTakers,
         asleepPutters := {}, wokenPutters := s.wokenPutters + s.asleepPutters)
  }

  // ---------------------------------------------------------------- invariants

  ghost predicate Places(s: State) {
    && s.asleepTakers !! s.wokenTakers && s.asleepPutters !! s.wokenPutters
    && (forall w :: w in s.asleepTakers || w in s.wokenTakers <==> w in s.workers && s.workers[w] == Waiting)
    && (forall p :: p in s.asleepPutters || p in s.wokenPutters <==> p in s.blocked)
  }

  /** If somebody sleeps until there is a task, every task in the queue has a taker on its way to it. */
  predicate TakersCome(s: State) { s.asleepTakers != {} ==> |s.queue| <= |s.wokenTakers| }

  /** If somebody sleeps until there is room, every free place has a producer on its way to it. */
  predicate PuttersCome(s: State) { s.asleepPutters != {} ==> s.max > 0 && s.max - |s.queue| <= |s.wokenPutters| }

  predicate Bounds(s: State) {
    && (s.kind.Blocking? ==> s.running && s.max > 0)
    && (s.max > 0 ==> |s.queue| <= s.max)
    && (!s.running ==> s.asleepTakers == {} && s.asleepPutters == {})
  }

  predicate Fifo(s: State) { s.accepted == s.taken + s.queue }

  ghost predicate Ok(s: State) { Places(s) && TakersCome(s) && PuttersCome(s) && Bounds(s) && Fifo(s) }

  lemma InitialOk(s: State)
    requires Initial(s)
    ensures Ok(s)
  {}

  lemma TakeKeepsPlaces(s: State, w: Thread, wake: Option<Thread>)
    requires Places(s) && Can(s, Take(w, wake))
    ensures Places(TakeStep(s, w, wake))
  {}

  lemma TakeKeepsCounts(s: State, w: Thread, wake: Option<Thread>)
    requires Ok(s) && Can(s, Take(w, wake))
    ensures var r := TakeStep(s, w, wake); TakersCome(r) && PuttersCome(r) && Bounds(r) && Fifo(r)
  {
    if s.queue != [] { assert s.taken + s.queue == s.taken + [s.queue[0]] + s.queue[1..]; }
  }

  lemma PutKeepsPlaces(s: State, p: Thread, task: Task, wake: Option<Thread>)
    requires Places(s) && Wakes(s.asleepTakers, wake) && (p in s.wokenPutters || p !in s.blocked)
    ensures Places(PutStep(s, p, task, wake))
  {}

  lemma PutKeepsCounts(s: State, p: Thread, task: Task, wake: Option<Thread>)
    requires Ok(s) && Wakes(s.asleepTakers, wake) && (p in s.wokenPutters || p !in s.blocked)
    ensures var r := PutStep(s, p, task, wake); TakersCome(r) && PuttersCome(r) && Bounds(r) && Fifo(r)
  {
    assert s.taken + s.queue + [task] == s.taken + (s.queue + [task]);
  }

  lemma TakeKeeps(s: State, w: Thread, wake: Option<Thread>)
    requires Ok(s) && Can(s, Take(w, wake))
    ensures Ok(TakeStep(s, w, wake))
  {
    hide TakeStep, Can, Places, TakersCome, PuttersCome, Bounds, Fifo;
    TakeKeepsPlaces(s, w, wake);
    TakeKeepsCounts(s, w, wake);
  }

  lemma PutKeeps(s: State, p: Thread, task: Task, wake: Option<Thread>)
    requires Ok(s) && Wakes(s.asleepTakers, wake) && (p in s.wokenPutters || p !in s.blocked)
    ensures Ok(PutStep(s, p, task, wake))
  {
    hide PutStep, Places, TakersCome, PuttersCome, Bounds, Fifo;
    PutKeepsPlaces(s, p, task, wake);
    PutKeepsCounts(s, p, task, wake);
  }

  lemma WorkerKeeps(s: State, m: Move)
    requires Ok(s) && Can(s, m) && (m.Test? || m.Finish?)
    ensures Ok(Apply(s, m))
  {
    hide TakeStep, PutStep;
  }

  lemma SpuriousKeepsPlaces(s: State, t: Thread)
    requires Places(s) && Can(s, Spurious(t))
    ensures Places(Apply(s, Spurious(t)))
  {
    hide TakeStep, PutStep;
  }

  lemma SpuriousKeeps(s: State, t: Thread)
    requires Ok(s) && Can(s, Spurious(t))
    ensures Ok(Apply(s, Spurious(t)))
  {
    hide TakeStep, PutStep, Places;
    SpuriousKeepsPlaces(s, t);
    if t in s.asleepTakers {
      assert |s.wokenTakers + {t}| >= |s.wokenTakers| by { Grows(s.wokenTakers, t); }
    } else {
      assert |s.wokenPutters + {t}| >= |s.wokenPutters| by { Grows(s.wokenPutters, t); }
    }
  }

  lemma Grows(a: set<Thread>, t: Thread)
    ensures |a + {t}| >= |a|
  {
    if t in a { assert a + {t} == a; }
  }

  lemma StopKeeps(s: State)
    requires Ok(s) && s.kind.Pool?
    ensures Ok(Apply(s, Stop))
  {
    hide TakeStep, PutStep;
  }

  lemma StepKeeps(s: State, m: Move)
    requires Ok(s) && Can(s, m)
    ensures Ok(Apply(s, m))
  {
    hide TakeStep, PutStep, TakersCome, PuttersCome, Bounds, Fifo;
    match m {
      case Take(w, wake) => TakeKeeps(s, w, wake);
      case Put(p, task, wake) => PutKeeps(s, p, task, wake);
      case PutAgain(p, wake) => PutKeeps(s, p, s.blocked[p], wake);
      case Spurious(t) => SpuriousKeeps(s, t);
      case Stop => StopKeeps(s);
      case _ => WorkerKeeps(s, m);
    }
  }

  // ---------------------------------------------------------------- whole runs

  ghost predicate CanRun(s: State, moves: seq<Move>)
    decreases |moves|
  {
    moves == [] || (Can(s, moves[0]) && CanRun(Apply(s, moves[0]), moves[1..]))
  }

  ghost function After(s: State, moves: seq<Move>): State
    requires CanRun(s, moves)
    decreases |moves|
  {
    if moves == [] then s else After(Apply(s, moves[0]), moves[1..])
  }

  lemma {:induction false} RunKeeps(s: State, moves: seq<Move>)
    requires Ok(s) && CanRun(s, moves)
    ensures Ok(After(s, moves))
    decreases |moves|
  {
    if moves != [] {
      StepKeeps(s, moves[0]);
      RunKeeps(Apply(s, moves[0]), moves[1..]);
    }
  }

  /** No wakeup is lost: in every state of every run there are at least as many woken takers as tasks, unless
      no taker sleeps, and as many woken producers as free places, unless no producer sleeps. */
  lemma NoLostWakeup(s: State, moves: seq<Move>)
    requires Initial(s) && CanRun(s, moves)
    ensures var r := After(s, moves);
            && (r.asleepTakers != {} ==> |r.queue| <= |r.wokenTakers|)
            && (r.asleepPutters != {} ==> r.max > 0 && r.max - |r.queue| <= |r.wokenPutters|)
  {
    InitialOk(s);
    RunKeeps(s, moves);
  }

  /** So producers and workers are never all asleep together; nor do all waiting workers sleep while there is
      a task, nor all waiting producers while there is room. */
  lemma NeverAllAsleep(s: State, moves: seq<Move>)
    requires Initial(s) && CanRun(s, moves)
    ensures var r := After(s, moves);
            && (r.asleepTakers != {} && r.asleepPutters != {} ==> r.wokenTakers + r.wokenPutters != {})
            && (r.asleepTakers != {} && r.queue != [] ==> r.wokenTakers != {})
            && (r.asleepPutters != {} && !IsFull(r) ==> r.wokenPutters != {})
  {
    InitialOk(s);
    RunKeeps(s, moves);
    var r := After(s, moves);
    if r.wokenTakers + r.wokenPutters == {} {
      assert r.wokenTakers == {} && r.wokenPutters == {};
    }
  }

  /** Tasks are taken in the order in which they were accepted, none lost and none twice, and the queue never
      holds more than `max`. */
  lemma FirstInFirstOut(s: State, moves: seq<Move>)
    requires Initial(s) && CanRun(s, moves)
    ensures var r := After(s, moves); r.accepted == r.taken + r.queue && (r.max > 0 ==> |r.queue| <= r.max)
  {
    InitialOk(s);
    RunKeeps(s, moves);
  }

  // ---------------------------------------------------------------- what becomes of a task

  /** There is room for one more task. */
  predicate HasRoom(s: State) { (s.kind.Pool? && s.max == 0) || |s.queue| < s.max }

  /** The task that a move puts, and who puts it. */
  function PutOf(s: State, m: Move): Option<(Thread, Task)> {
    match m
    case Put(p, task, _) => Some((p, task))
    case PutAgain(p, _) => if p in s.blocked then Some((p, s.blocked[p])) else None
    case _ => None
  }

  /** A put appends its task if there is room, waits with it if there is none, and drops it if the pool has been
      stopped; it does nothing else. */
  lemma PutOutcome(s: State, m: Move)
    requires Ok(s) && Can(s, m) && PutOf(s, m).Some?
    ensures var r, (p, task) := Apply(s, m), PutOf(s, m).value;
            if s.running && HasRoom(s) then
              r.queue == s.queue + [task] && r.accepted == s.accepted + [task] && r.blocked == s.blocked - {p}
            else if s.running then
              r.queue == s.queue && r.accepted == s.accepted && r.blocked == s.blocked[p := task] && p in r.asleepPutters
            else
              r.queue == s.queue && r.accepted == s.accepted && r.blocked == s.blocked - {p}
    ensures Apply(s, m).taken == s.taken && Apply(s, m).workers == s.workers
  {
    var (p, task) := PutOf(s, m).value;
    assert m.Put? ==> s.blocked - {p} == s.blocked;
  }

  /** A take gives its worker the first task; with none it waits, or, stopped, leaves without. */
  lemma TakeOutcome(s: State, w: Thread, wake: Option<Thread>)
    requires Ok(s) && Can(s, Take(w, wake))
    ensures var r := Apply(s, Take(w, wake));
            && w in r.workers && r.accepted == s.accepted && r.blocked == s.blocked
            && (if s.queue != [] then
                  r.workers[w] == Busy && r.taken == s.taken + [s.queue[0]] && s.queue == [s.queue[0]] + r.queue
                else
                  r.queue == [] && r.taken == s.taken
                  && if s.running then r.workers[w] == Waiting && w in r.asleepTakers else r.workers[w] == Testing)
  {}

  /** Room that a take makes is told to a sleeping producer, and a task that is put to a sleeping taker. */
  lemma Signalled(s: State, m: Move, t: Thread)
    requires Ok(s) && Can(s, m)
    requires (m.Take? && s.queue != [] && s.max > 0 && m.wake == Some(t))
          || (PutOf(s, m).Some? && s.running && HasRoom(s) && (m.Put? || m.PutAgain?) && m.wake == Some(t))
    ensures m.Take? ==> t in Apply(s, m).wokenPutters && t !in Apply(s, m).asleepPutters
    ensures !m.Take? ==> t in Apply(s, m).wokenTakers && t !in Apply(s, m).asleepTakers
  {}

  /** How often a task was given to `run` or `put`. */
  function Given(moves: seq<Move>, task: Task): nat
    decreases |moves|
  {
    if moves == [] then 0
    else (if moves[0].Put? && moves[0].task == task then 1 else 0) + Given(moves[1..], task)
  }

  /** The producers that wait with a task. */
  function Holders(blocked: map<Thread, Task>, task: Task): set<Thread> {
    set p | p in blocked && blocked[p] == task
  }

  lemma HolderComes(blocked: map<Thread, Task>, p: Thread, held: Task, task: Task)
    requires p !in blocked
    ensures |Holders(blocked[p := held], task)| == |Holders(blocked, task)| + if held == task then 1 else 0
  {
    var b := blocked[p := held];
    assert Holders(b, task) == if held == task then Holders(blocked, task) + {p} else Holders(blocked, task);
  }

  lemma HolderGoes(blocked: map<Thread, Task>, p: Thread, task: Task)
    requires p in blocked
    ensures |Holders(blocked - {p}, task)| == |Holders(blocked, task)| - if blocked[p] == task then 1 else 0
  {
    assert (blocked - {p})[p := blocked[p]] == blocked;
    HolderComes(blocked - {p}, p, blocked[p], task);
  }

  lemma StepLosesNothing(s: State, m: Move, task: Task)
    requires Ok(s) && Can(s, m) && s.running && !m.Stop?
    ensures var r := Apply(s, m);
            && r.running
            && multiset(r.accepted)[task] + |Holders(r.blocked, task)|
            == multiset(s.accepted)[task] + |Holders(s.blocked, task)| + if m.Put? && m.task == task then 1 else 0
  {
    hide Ok, Apply, Can, Holders;
    StillRunning(s, m);
    if PutOf(s, m).Some? {
      PutLosesNothing(s, m, task);
    } else {
      OthersKeepTasks(s, m);
    }
  }

  lemma PutLosesNothing(s: State, m: Move, task: Task)
    requires Ok(s) && Can(s, m) && s.running && PutOf(s, m).Some?
    ensures var r := Apply(s, m);
            multiset(r.accepted)[task] + |Holders(r.blocked, task)| ==
              multiset(s.accepted)[task] + |Holders(s.blocked, task)| + if m.Put? && m.task == task then 1 else 0
  {
    hide Ok, Apply, Can, Holders, HasRoom;
    PutOutcome(s, m);
    var (p, t) := PutOf(s, m).value;
    NewPut(s, m, p);
    if p in s.blocked {
      HolderGoes(s.blocked, p, task);
      assert s.blocked[p := t] == s.blocked;
    } else {
      HolderComes(s.blocked, p, t, task);
      assert s.blocked - {p} == s.blocked;
    }
  }

  lemma StillRunning(s: State, m: Move)
    requires Can(s, m) && !m.Stop?
    ensures Apply(s, m).running == s.running
  {}

  lemma NewPut(s: State, m: Move, p: Thread)
    requires Can(s, m) && PutOf(s, m).Some? && p == PutOf(s, m).value.0
    ensures m.Put? <==> p !in s.blocked
  {}

  lemma OthersKeepTasks(s: State, m: Move)
    requires Can(s, m) && PutOf(s, m).None?
    ensures !m.Put? && Apply(s, m).accepted == s.accepted && Apply(s, m).blocked == s.blocked
  {}

  lemma {:induction false} RunLosesNothing(s: State, moves: seq<Move>, task: Task)
    requires Ok(s) && s.running && CanRun(s, moves) && Stop !in moves
    ensures var r := After(s, moves);
            && r.running
            && multiset(r.accepted)[task] + |Holders(r.blocked, task)|
            == multiset(s.accepted)[task] + |Holders(s.blocked, task)| + Given(moves, task)
    decreases |moves|
  {
    hide Apply, Can, Ok, Holders;
    if moves != [] {
      assert moves[0] in moves;
      StepKeeps(s, moves[0]);
      StepLosesNothing(s, moves[0], task);
      RunLosesNothing(Apply(s, moves[0]), moves[1..], task);
    }
  }

  /** Until the pool is stopped no task is lost or doubled: as often as it was given, a task has been accepted or
      is held by a producer that waits. */
  lemma NoTaskLost(s: State, moves: seq<Move>, task: Task)
    requires Initial(s) && CanRun(s, moves) && Stop !in moves
    ensures var r := After(s, moves); multiset(r.accepted)[task] + |Holders(r.blocked, task)| == Given(moves, task)
  {
    InitialOk(s);
    RunLosesNothing(s, moves, task);
    assert Holders(s.blocked, task) == {};
  }

  // ---------------------------------------------------------------- after stop

  function Mover(m: Move): Option<Thread> {
    match m
    case Test(w) => Some(w)
    case Take(w, _) => Some(w)
    case Finish(w) => Some(w)
    case _ => None
  }

  /** The tasks that a worker takes in a run. */
  ghost function Started(s: State, moves: seq<Move>, w: Thread): nat
    requires CanRun(s, moves)
    decreases |moves|
  {
    if moves == [] then 0
    else (if moves[0].Take? && moves[0].w == w && s.queue != [] then 1 else 0)
         + Started(Apply(s, moves[0]), moves[1..], w)
  }

  function StepsOf(moves: seq<Move>, w: Thread): nat
    decreases |moves|
  {
    if moves == [] then 0 else (if Mover(moves[0]) == Some(w) then 1 else 0) + StepsOf(moves[1..], w)
  }

  /** The steps that a worker has left, and the tasks that it may still take, once the pool is stopped. */
  function StepsLeft(p: Place): nat {
    match p
    case Gone => 0
    case Testing => 1
    case Busy => 2
    case _ => 3
  }

  function TasksLeft(p: Place): nat { if p.Taking? || p.Waiting? then 1 else 0 }

  lemma StepWindsDown(s: State, m: Move, w: Thread)
    requires Ok(s) && !s.running && Can(s, m) && w in s.workers
    ensures var r := Apply(s, m);
            && !r.running && w in r.workers
            && (if m.Take? && m.w == w && s.queue != [] then 1 else 0) + TasksLeft(r.workers[w]) <= TasksLeft(s.workers[w])
            && (if Mover(m) == Some(w) then 1 else 0) + StepsLeft(r.workers[w]) <= StepsLeft(s.workers[w])
  {}

  lemma {:induction false} WindsDown(s: State, moves: seq<Move>, w: Thread)
    requires Ok(s) && !s.running && CanRun(s, moves) && w in s.workers
    ensures var r := After(s, moves);
            && !r.running && r.asleepTakers == {} && r.asleepPutters == {} && w in r.workers
            && Started(s, moves, w) + TasksLeft(r.workers[w]) <= TasksLeft(s.workers[w])
            && StepsOf(moves, w) + StepsLeft(r.workers[w]) <= StepsLeft(s.workers[w])
    decreases |moves|
  {
    hide Apply, Can, TasksLeft, StepsLeft;
    if moves != [] {
      StepKeeps(s, moves[0]);
      StepWindsDown(s, moves[0], w);
      WindsDown(Apply(s, moves[0]), moves[1..], w);
    }
  }

  /** Once `stop` has cleared `running_`, no thread is or falls asleep, each worker starts at most one more
      task, and it is gone after three steps. */
  lemma StopsCleanly(s: State, before: seq<Move>, after: seq<Move>, w: Thread)
    requires Initial(s) && CanRun(s, before) && w in After(s, before).workers
    requires Can(After(s, before), Stop) && CanRun(Apply(After(s, before), Stop), after)
    ensures var stopped := Apply(After(s, before), Stop);
            var r := After(stopped, after);
            && r.asleepTakers == {} && r.asleepPutters == {}
            && Started(stopped, after, w) <= 1
            && StepsOf(after, w) <= 3
            && (StepsOf(after, w) == 3 ==> w in r.workers && r.workers[w] == Gone)
  {
    InitialOk(s);
    RunKeeps(s, before);
    StepKeeps(After(s, before), Stop);
    WindsDown(Apply(After(s, before), Stop), after, w);
  }

  /** Nor does any worker get stuck: a worker that is not gone can take its next step, or, while it sleeps,
      the pool is running and there are takers enough for the tasks. */
  lemma WorkerCanMove(s: State, w: Thread)
    requires Ok(s) && w in s.workers && s.workers[w] != Gone
    ensures (exists m :: Can(s, m) && Mover(m) == Some(w)) || (w in s.asleepTakers && s.running && |s.queue| <= |s.wokenTakers|)
  {
    var wake := if s.asleepPutters == {} then None else var p :| p in s.asleepPutters; Some(p);
    if s.workers[w] == Testing {
      assert Can(s, Test(w)) && Mover(Test(w)) == Some(w);
    } else if s.workers[w] == Busy {
      assert Can(s, Finish(w)) && Mover(Finish(w)) == Some(w);
    } else if w !in s.asleepTakers {
      assert Can(s, Take(w, wake)) && Mover(Take(w, wake)) == Some(w);
    }
  }

  function StepsToTask(p: Place): nat { if p.Busy? then 3 else if p.Testing? then 2 else 1 }

  /** A producer that does not wait can put, and one that waits and has been woken can try again. */
  lemma ProducerCanMove(s: State, p: Thread, task: Task)
    requires Ok(s) && (s.kind.Pool? ==> s.workers != map[])
    ensures if p !in s.blocked then exists wake :: Can(s, Put(p, task, wake))
            else if p in s.wokenPutters then exists wake :: Can(s, PutAgain(p, wake))
            else Can(s, Spurious(p))
  {
    var wake := if s.asleepTakers == {} then None else var t :| t in s.asleepTakers; Some(t);
    if p !in s.blocked {
      assert Can(s, Put(p, task, wake));
    } else if p in s.wokenPutters {
      assert Can(s, PutAgain(p, wake));
    } else {
      assert Can(s, Spurious(p));
    }
  }

  /** A worker of a running pool that is not waiting gets the first task of a nonempty queue in at most three
      steps of its own. */
  lemma GetsATask(s: State, w: Thread) returns (moves: seq<Move>)
    requires Ok(s) && s.running && s.queue != [] && w in s.workers && s.workers[w] in {Busy, Testing, Taking}
    ensures CanRun(s, moves) && |moves| <= StepsToTask(s.workers[w]) <= 3 && forall m :: m in moves ==> Mover(m) == Some(w)
    ensures After(s, moves).taken == s.taken + [s.queue[0]] && w in After(s, moves).workers && After(s, moves).workers[w] == Busy
    decreases StepsToTask(s.workers[w])
  {
    if s.workers[w] == Taking {
      var wake := if s.asleepPutters == {} then None else var p :| p in s.asleepPutters; Some(p);
      TakeOutcome(s, w, wake);
      moves := [Take(w, wake)];
      assert CanRun(Apply(s, Take(w, wake)), []) && moves[1..] == [];
    } else {
      var m := if s.workers[w] == Busy then Finish(w) else Test(w);
      StepKeeps(s, m);
      var rest := GetsATask(Apply(s, m), w);
      moves := [m] + rest;
      assert moves[1..] == rest;
    }
  }
}
