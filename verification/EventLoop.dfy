/**
 How threads hand functors to a loop and wake it up (zing/net/EventLoop.cpp). Every critical section, every
 access to a shared variable and every system call is one step; the loop's thread and any number of other
 threads interleave freely.
 */
module EventLoop {
  type Functor = nat
  type Thread = nat

  /** Where the loop's thread is. */
  datatype Place =
    | Outside                   // before loop(), or after it has returned
    | Top                       // about to read quit_
    | AtPoll                    // in poll
    | Handling(wakeup: bool)    // running event handlers; the wakeup channel's is still to come
    | Entering                  // in doPendingFunctors, before the swap
    | Running                   // running the swapped functors

  /** `calling` is `callingPendingFunctors_`; `counter` the eventfd's; `batch` what is left of the swapped
      vector. `owing` are the other threads that have pushed a functor or set `quit_` and have not called
      `wakeup` yet; `loopOwes` says so of the loop's own thread. `history` lists all functors ever queued, in
      the order of the lock; `executed` the ones that were run. */
  datatype State = State(
    place: Place,
    quit: bool,
    calling: bool,
    counter: nat,
    pending: seq<Functor>,
    batch: seq<Functor>,
    owing: set<Thread>,
    loopOwes: bool,
    executed: seq<Functor>,
    history: seq<Functor>)

  const CREATED: State := State(Outside, false, false, 0, [], [], {}, false, [], [])

  datatype Move =
    | Start                           // loop(), up to the while
    | TestQuit                        // while (!quit_)
    | PollReturns
    | HandleRead                      // the wakeup channel's handler
    | EndHandling                     // callingPendingFunctors_ = true
    | Swap
    | RunOne                          // the next functor is called
    | EndFunctors                     // callingPendingFunctors_ = false
    | LoopQueues(f: Functor)          // queueInLoop in the loop's thread: the push
    | LoopWakes                       //                                   the wakeup
    | LoopQuits                       // quit in the loop's thread
    | Queues(t: Thread, f: Functor)   // queueInLoop in another thread: the push
    | Quits(t: Thread)                // quit in another thread: quit_ = true
    | Wakes(t: Thread)                //                         the wakeup

  /** Places where the loop's thread runs code that may call the loop. */
  predicate UserCode(p: Place) { p.Outside? || p.Handling? || p.Running? }

  predicate Can(s: State, m: Move) {
    match m
    case Start => s.place.Outside? && !s.loopOwes
    case TestQuit => s.place.Top?
    case PollReturns => s.place.AtPoll?
    case HandleRead => s.place.Handling? && s.place.wakeup
    case EndHandling => s.place.Handling? && !s.place.wakeup
    case Swap => s.place.Entering?
    case RunOne => s.place.Running? && !s.loopOwes && s.batch != []
    case EndFunctors => s.place.Running? && !s.loopOwes && s.batch == []
    case LoopQueues(_) => UserCode(s.place) && !s.loopOwes
    case LoopWakes => s.loopOwes
    case LoopQuits => UserCode(s.place) && !s.loopOwes
    case Queues(t, _) => t !in s.owing
    case Quits(t) => t !in s.owing
    case Wakes(t) => t in s.owing
  }

  const EVENTFD_MAX: nat := 0xFFFF_FFFF_FFFF_FFFE

  /** `write` adds one, and fails, leaving it as it is, if the counter is at its maximum. */
  function Incremented(counter: nat): (r: nat)
    ensures r > 0 && r >= counter
  {
    if counter < EVENTFD_MAX then counter + 1 else counter
  }

  function Apply(s: State, m: Move): State
    requires Can(s, m)
  {
    match m
    case Start => s.(place := Top, quit := false)
    case TestQuit => s.(place := if s.quit then Outside else AtPoll)
    case PollReturns => s.(place := Handling(s.counter > 0))
    case HandleRead => s.(place := Handling(false), counter := 0)
    case EndHandling => s.(place := Entering, calling := true)
    case Swap => s.(place := Running, batch := s.pending, pending := [])
    case RunOne => s.(executed := s.executed + [s.batch[0]], batch := s.batch[1..])
    case EndFunctors => s.(place := Top, calling := false)
    case LoopQueues(f) => s.(pending := s.pending + [f], history := s.history + [f], loopOwes := s.calling)
    case LoopWakes => s.(loopOwes := false, counter := Incremented(s.counter))
    case LoopQuits => s.(quit := true)
    case Queues(t, f) => s.(pending := s.pending + [f], history := s.history + [f], owing := s.owing + {t})
    case Quits(t) => s.(quit := true, owing := s.owing + {t})
    case Wakes(t) => s.(owing := s.owing - {t}, counter := Incremented(s.counter))
  }

  ghost predicate CanRun(s: State, moves: seq<Move>)
    decreases |moves|
  {
    moves == [] || (Can(s, moves[0]) && CanRun(Apply(s, moves[0]), moves[1..]))
  }

  ghost function After(s: State, moves: seq<Move>): State
    requires CanRun(s, moves)
    decreases |moves|
  {
    if moves == [] then s else After(Apply(s, moves[0]), moves[1..])
  }

  // ---------------------------------------------------------------- what every step keeps

  /** The loop has been or will be woken up. */
  predicate Woken(s: State) { s.counter > 0 || s.owing != {} || s.loopOwes }

  predicate Flags(s: State) {
    && (s.calling <==> s.place.Entering? || s.place.Running?)
    && (s.loopOwes ==> s.place.Running?)
    && (s.batch != [] ==> s.place.Running?)
  }

  /** While the loop runs, whatever it has to attend to is on its way to it: it is woken up, or it swaps
      `pending` and reads `quit_` before the next `poll`. */
  predicate Attended(s: State) {
    match s.place
    case Top => s.pending != [] ==> Woken(s)
    case AtPoll => s.pending != [] || s.quit ==> Woken(s)
    case Running => s.pending != [] ==> Woken(s)
    case _ => true
  }

  /** Every functor ever queued has been run, is being run or is waiting, in the order of queueing. */
  predicate InOrder(s: State) { s.executed + s.batch + s.pending == s.history }

  predicate Ok(s: State) { Flags(s) && InOrder(s) }

  lemma StepOk(s: State, m: Move)
    requires Ok(s) && Can(s, m)
    ensures Ok(Apply(s, m))
  {
    var r := Apply(s, m);
    match m {
      case RunOne => assert s.batch == [s.batch[0]] + s.batch[1..];
      case LoopQueues(f) => assert r.executed + r.batch + r.pending == s.executed + s.batch + s.pending + [f];
      case Queues(_, f) => assert r.executed + r.batch + r.pending == s.executed + s.batch + s.pending + [f];
      case _ =>
    }
  }

  lemma StepAttended(s: State, m: Move)
    requires Flags(s) && Attended(s) && Can(s, m)
    requires m.Start? && s.pending != [] ==> Woken(s)
    ensures Attended(Apply(s, m))
  {}

  /** Functors run exactly once and in the order in which they were queued: in every state of every run, what
      was run, the rest of the batch and what is waiting make up the whole history. */
  lemma {:induction false} RunInOrder(s: State, moves: seq<Move>)
    requires Ok(s) && CanRun(s, moves)
    ensures Ok(After(s, moves))
    decreases |moves|
  {
    if moves != [] {
      StepOk(s, moves[0]);
      RunInOrder(Apply(s, moves[0]), moves[1..]);
    }
  }

  /** The loop is blocked in `poll` with something to do, and nobody is going to wake it up. */
  predicate Stuck(s: State) { s.place.AtPoll? && (s.pending != [] || s.quit) && !Woken(s) }

  predicate NoStart(moves: seq<Move>) { forall m :: m in moves ==> !m.Start? }

  lemma {:induction false} NeverStuck(s: State, moves: seq<Move>)
    requires Ok(s) && Attended(s) && CanRun(s, moves) && NoStart(moves)
    ensures !Stuck(After(s, moves))
    decreases |moves|
  {
    if moves != [] {
      assert moves[0] in moves;
      StepOk(s, moves[0]);
      StepAttended(s, moves[0]);
      NeverStuck(Apply(s, moves[0]), moves[1..]);
    }
  }

  ghost predicate MayGetStuck(s: State) {
    exists moves: seq<Move> :: CanRun(s, [Start] + moves) && NoStart(moves) && Stuck(After(s, [Start] + moves))
  }

  lemma Unfold(s: State, m: Move, moves: seq<Move>)
    ensures CanRun(s, [m] + moves) <==> Can(s, m) && CanRun(Apply(s, m), moves)
    ensures CanRun(s, [m] + moves) ==> After(s, [m] + moves) == After(Apply(s, m), moves)
  {
    assert ([m] + moves)[1..] == moves;
  }

  /** A call of `loop` cannot miss a wakeup exactly if no functor is waiting when it is made that nobody is
      going to wake the loop up for; the loop's own thread queues such functors before the call. */
  lemma MissedWakeupIff(s: State)
    requires Ok(s) && s.place.Outside?
    ensures MayGetStuck(s) <==> s.pending != [] && !Woken(s)
  {
    var begun := Apply(s, Start);
    StepOk(s, Start);
    if s.pending != [] && !Woken(s) {
      var moves := [TestQuit];
      Unfold(begun, TestQuit, []);
      Unfold(s, Start, moves);
      assert [TestQuit] + [] == moves;
      assert CanRun(s, [Start] + moves) && Stuck(After(s, [Start] + moves));
    } else if MayGetStuck(s) {
      var moves: seq<Move> :| CanRun(s, [Start] + moves) && NoStart(moves) && Stuck(After(s, [Start] + moves));
      Unfold(s, Start, moves);
      StepAttended(s, Start);
      NeverStuck(begun, moves);
      assert false;
    }
  }

  /** Such a functor: queued by the loop's own thread, before `loop`. */
  lemma QueuedBeforeLoop(f: Functor)
    ensures Can(CREATED, LoopQueues(f)) && MayGetStuck(Apply(CREATED, LoopQueues(f)))
  {
    StepOk(CREATED, LoopQueues(f));
    MissedWakeupIff(Apply(CREATED, LoopQueues(f)));
  }

  const DRAIN: seq<Move> := [PollReturns, HandleRead, EndHandling, Swap]

  lemma Drains(s: State)
    requires Flags(s) && s.place.AtPoll? && s.counter > 0
    ensures CanRun(s, DRAIN)
    ensures var r := After(s, DRAIN); r.place.Running? && r.batch == s.pending && r.quit == s.quit
  {
    var a := Apply(s, PollReturns);
    var b := Apply(a, HandleRead);
    var c := Apply(b, EndHandling);
    assert DRAIN[1..] == [HandleRead, EndHandling, Swap];
    assert DRAIN[1..][1..] == [EndHandling, Swap];
    assert DRAIN[1..][1..][1..] == [Swap];
    assert DRAIN[1..][1..][1..][1..] == [];
    assert CanRun(Apply(c, Swap), []);
    assert CanRun(c, [Swap]) && After(c, [Swap]) == Apply(c, Swap);
    assert CanRun(b, [EndHandling, Swap]) && CanRun(a, [HandleRead, EndHandling, Swap]);
  }

  /** No functor is left waiting: from a `poll` that somebody is going to interrupt, that thread's wakeup, if
      it is still to come, and the loop's own next steps bring the loop to run all of them, in order. */
  lemma WakesUp(s: State) returns (moves: seq<Move>)
    requires Ok(s) && s.place.AtPoll? && Woken(s)
    ensures |moves| <= 5 && CanRun(s, moves)
    ensures var r := After(s, moves); r.place.Running? && r.batch == s.pending && r.quit == s.quit
  {
    if s.counter > 0 {
      moves := DRAIN;
      Drains(s);
    } else {
      var t :| t in s.owing;
      moves := [Wakes(t)] + DRAIN;
      Unfold(s, Wakes(t), DRAIN);
      Drains(Apply(s, Wakes(t)));
    }
  }

  // ---------------------------------------------------------------- the eventfd, and who owes a wakeup

  /** What the eventfd stands at after the wakeups and reads of a run: reading clears it, and it counts the
      wakeups since, as far as it can. */
  function Level(level: nat, moves: seq<Move>): nat
    decreases |moves|
  {
    if moves == [] then level
    else
      var m := moves[0];
      Level(if m.HandleRead? then 0
            else if m.Wakes? || m.LoopWakes? then (if level == 0xFFFF_FFFF_FFFF_FFFE then level else level + 1)
            else level,
            moves[1..])
  }

  lemma {:induction false} EventfdCounts(s: State, moves: seq<Move>)
    requires CanRun(s, moves) && s.counter <= 0xFFFF_FFFF_FFFF_FFFE
    ensures After(s, moves).counter == Level(s.counter, moves) <= 0xFFFF_FFFF_FFFF_FFFE
    decreases |moves|
  {
    if moves != [] {
      EventfdCounts(Apply(s, moves[0]), moves[1..]);
    }
  }

  /** The handler of the wakeup channel runs exactly if the eventfd is readable when `poll` returns. */
  lemma ReportedIffReadable(s: State)
    requires Can(s, PollReturns)
    ensures Apply(s, PollReturns).place == Handling(Apply(s, PollReturns).counter > 0)
    ensures Can(Apply(s, PollReturns), HandleRead) <==> s.counter > 0
  {}

  /** The last thing that a thread did, of what concerns the loop, left it owing a wakeup. */
  function Owes(owed: bool, t: Thread, moves: seq<Move>): bool
    decreases |moves|
  {
    if moves == [] then owed
    else
      var m := moves[0];
      Owes(if (m.Queues? || m.Quits?) && m.t == t then true else if m.Wakes? && m.t == t then false else owed, t, moves[1..])
  }

  /** A thread owes a wakeup exactly from its push, or its setting of `quit_`, until it has written to the eventfd. */
  lemma {:induction false} OwesUntilItWakes(s: State, moves: seq<Move>, t: Thread)
    requires CanRun(s, moves)
    ensures t in After(s, moves).owing <==> Owes(t in s.owing, t, moves)
    decreases |moves|
  {
    if moves != [] {
      OwesUntilItWakes(Apply(s, moves[0]), moves[1..], t);
    }
  }

  // ---------------------------------------------------------------- quit

  /** `quit` is not forgotten until the loop is started again. */
  lemma {:induction false} QuitStays(s: State, moves: seq<Move>)
    requires s.quit && CanRun(s, moves) && NoStart(moves)
    ensures After(s, moves).quit
    decreases |moves|
  {
    if moves != [] {
      assert moves[0] in moves;
      QuitStays(Apply(s, moves[0]), moves[1..]);
    }
  }

  /** And once it has been called, the loop polls no more after the pass in progress: from any place but `poll`
      itself, no run leads to `poll`. */
  lemma {:induction false} QuitPollsNoMore(s: State, moves: seq<Move>)
    requires s.quit && !s.place.AtPoll? && CanRun(s, moves) && NoStart(moves)
    ensures !After(s, moves).place.AtPoll?
    decreases |moves|
  {
    if moves != [] {
      assert moves[0] in moves;
      QuitPollsNoMore(Apply(s, moves[0]), moves[1..]);
    }
  }

  lemma QuitIsHeard(s: State, m: Move, moves: seq<Move>)
    requires Can(s, m) && (m.LoopQuits? || m.Quits?)
    requires CanRun(Apply(s, m), moves) && NoStart(moves)
    ensures After(Apply(s, m), moves).quit
    ensures !s.place.AtPoll? ==> !After(Apply(s, m), moves).place.AtPoll?
  {
    QuitStays(Apply(s, m), moves);
    if !s.place.AtPoll? { QuitPollsNoMore(Apply(s, m), moves); }
  }

  /** A step of the loop's own thread. */
  predicate OwnStep(m: Move) { !m.Queues? && !m.Quits? && !m.Wakes? }

  /** The next step of the loop's thread on its way out, and how many are left at most. */
  function NextOwn(s: State): Move {
    if s.loopOwes then LoopWakes
    else match s.place
      case Outside => Start
      case Top => TestQuit
      case AtPoll => PollReturns
      case Handling(wakeup) => if wakeup then HandleRead else EndHandling
      case Entering => Swap
      case Running => if s.batch != [] then RunOne else EndFunctors
  }

  function StepsLeft(s: State): nat {
    (if s.loopOwes then 1 else 0) +
    match s.place
    case Outside => 0
    case Top => 1
    case Running => |s.batch| + 2
    case Entering => |s.pending| + 3
    case Handling(wakeup) => |s.pending| + (if wakeup then 5 else 4)
    case AtPoll => |s.pending| + 6
  }

  /** The functors that run before the loop ends: in `poll` and before the swap, all; afterwards, the batch. */
  function StillToRun(s: State): seq<Functor> {
    match s.place
    case Running => s.batch
    case Top => []
    case Outside => []
    case _ => s.pending
  }

  lemma OwnStepHelps(s: State)
    requires Ok(s) && s.quit && !s.place.Outside?
    ensures var m := NextOwn(s);
            && Can(s, m) && OwnStep(m) && !m.Start? && Ok(Apply(s, m)) && Apply(s, m).quit
            && StepsLeft(Apply(s, m)) < StepsLeft(s)
            && Apply(s, m).executed + StillToRun(Apply(s, m)) == s.executed + StillToRun(s)
  {
    StepOk(s, NextOwn(s));
    if NextOwn(s).RunOne? { assert s.batch == [s.batch[0]] + s.batch[1..]; }
  }

  /** With `quit` called, the loop's own steps lead out of `loop`, and run the functors that were waiting, in
      order, on the way. */
  lemma {:induction false} QuitLeads(s: State) returns (moves: seq<Move>)
    requires Ok(s) && s.quit
    ensures CanRun(s, moves) && NoStart(moves) && |moves| <= StepsLeft(s) && forall m :: m in moves ==> OwnStep(m)
    ensures var r := After(s, moves); r.place.Outside? && r.executed == s.executed + StillToRun(s)
    decreases StepsLeft(s)
  {
    if s.place.Outside? {
      moves := [];
    } else {
      OwnStepHelps(s);
      hide Ok, Apply, Can, StillToRun, StepsLeft, NextOwn;
      var m := NextOwn(s);
      var rest := QuitLeads(Apply(s, m));
      Unfold(s, m, rest);
      moves := [m] + rest;
      EndsOutside(After(s, moves));
    }
  }

  lemma EndsOutside(s: State)
    requires s.place.Outside?
    ensures StillToRun(s) == []
  {}

  /** From a `poll` that somebody is going to interrupt, the owed wakeup comes first, if need be; then the kernel
      reports the eventfd, and the loop ends. */
  lemma QuitReturns(s: State) returns (moves: seq<Move>)
    requires Ok(s) && s.quit && (s.place.AtPoll? ==> Woken(s))
    ensures CanRun(s, moves) && NoStart(moves) && |moves| <= 1 + StepsLeft(s)
    ensures forall m :: m in moves ==> OwnStep(m) || (m.Wakes? && s.place.AtPoll? && s.counter == 0)
    ensures s.place.AtPoll? ==> |moves| > 0 && (s.counter > 0 || moves[0].Wakes?)
    ensures var r := After(s, moves); r.place.Outside? && r.executed == s.executed + StillToRun(s)
  {
    if s.place.AtPoll? && s.counter == 0 {
      var t :| t in s.owing;
      var m := Wakes(t);
      StepOk(s, m);
      var rest := QuitLeads(Apply(s, m));
      Unfold(s, m, rest);
      moves := [m] + rest;
    } else {
      moves := QuitLeads(s);
    }
  }

  // ---------------------------------------------------------------- one doPendingFunctors

  function Count(moves: seq<Move>, m: Move): nat
    decreases |moves|
  {
    if moves == [] then 0 else (if moves[0] == m then 1 else 0) + Count(moves[1..], m)
  }

  /** One `doPendingFunctors` runs its snapshot and nothing else, however much is queued meanwhile, by the
      functors themselves too: after as many calls as it swapped functors, it can only return. */
  lemma {:induction false} RunsItsSnapshot(s: State, moves: seq<Move>)
    requires Ok(s) && s.place.Running? && CanRun(s, moves) && EndFunctors !in moves
    ensures var r := After(s, moves);
            && r.place.Running?
            && r.executed + r.batch == s.executed + s.batch
            && Count(moves, RunOne) == |s.batch| - |r.batch|
            && (Count(moves, RunOne) == |s.batch| ==> !Can(r, RunOne) && r.executed == s.executed + s.batch)
    decreases |moves|
  {
    if moves != [] {
      var m, next := moves[0], Apply(s, moves[0]);
      assert m != EndFunctors;
      StepOk(s, m);
      RunsItsSnapshot(next, moves[1..]);
      if m.RunOne? { assert s.batch == [s.batch[0]] + s.batch[1..]; }
    }
  }

  // ---------------------------------------------------------------- the loop's own thread

  lemma {:induction false} Extend(s: State, moves: seq<Move>, m: Move)
    requires CanRun(s, moves) && Can(After(s, moves), m)
    ensures CanRun(s, moves + [m]) && After(s, moves + [m]) == Apply(After(s, moves), m)
    decreases |moves|
  {
    hide Apply, Can;
    if moves == [] {
      assert [m][1..] == [] && CanRun(Apply(s, m), []) && After(Apply(s, m), []) == Apply(s, m);
      assert moves + [m] == [m];
    } else {
      assert (moves + [m])[1..] == moves[1..] + [m];
      Extend(Apply(s, moves[0]), moves[1..], m);
    }
  }

  /** What a functor may ask of its own loop. */
  datatype Request = RunLater(f: Functor) | StopLoop

  function Queued(requests: seq<Request>): seq<Functor> {
    if requests == [] then []
    else
      var last := requests[|requests| - 1];
      Queued(requests[..|requests| - 1]) + if last.RunLater? then [last.f] else []
  }

  lemma QueuedNext(requests: seq<Request>, k: nat)
    requires k < |requests|
    ensures Queued(requests[..k + 1]) == Queued(requests[..k]) + if requests[k].RunLater? then [requests[k].f] else []
    ensures StopLoop in requests[..k + 1] <==> StopLoop in requests[..k] || requests[k] == StopLoop
  {
    assert requests[..k + 1][..k] == requests[..k];
    assert requests[..k + 1] == requests[..k] + [requests[k]];
  }

  /** The fields of an EventLoop that the functor queue uses, driven by the loop's thread alone. */
  class Queue {
    var quit: bool
    var callingPendingFunctors: bool
    var eventfd: nat
    var pendingFunctors: seq<Functor>

    ghost var place: Place
    ghost var batch: seq<Functor>
    ghost var executed: seq<Functor>
    ghost var history: seq<Functor>

    ghost function Abs(): State
      reads this
    {
      State(place, quit, callingPendingFunctors, eventfd, pendingFunctors, batch, {}, false, executed, history)
    }

    constructor ()
      ensures Abs() == CREATED
    {
      quit, callingPendingFunctors, eventfd, pendingFunctors := false, false, 0, [];
      place, batch, executed, history := Outside, [], [], [];
    }

    method Wakeup()
      modifies this`eventfd
      ensures eventfd == Incremented(old(eventfd))
    {
      eventfd := Incremented(eventfd);
    }

    /** `queueInLoop`, continuing the run `before` that started in `s`. */
    method QueueInLoop(f: Functor, ghost s: State, ghost before: seq<Move>) returns (ghost moves: seq<Move>)
      requires UserCode(place) && CanRun(s, before) && After(s, before) == Abs()
      modifies this`pendingFunctors, this`history, this`eventfd
      ensures CanRun(s, moves) && After(s, moves) == Abs()
      ensures pendingFunctors == old(pendingFunctors) + [f]
      ensures eventfd == if callingPendingFunctors then Incremented(old(eventfd)) else old(eventfd)
    {
      pendingFunctors := pendingFunctors + [f];
      history := history + [f];
      Extend(s, before, LoopQueues(f));
      moves := before + [LoopQueues(f)];
      if callingPendingFunctors {
        Wakeup();
        Extend(s, moves, LoopWakes);
        moves := moves + [LoopWakes];
      }
    }

    /** `quit`, in the loop's thread. */
    method QuitLoop(ghost s: State, ghost before: seq<Move>) returns (ghost moves: seq<Move>)
      requires UserCode(place) && CanRun(s, before) && After(s, before) == Abs()
      modifies this`quit
      ensures CanRun(s, moves) && After(s, moves) == Abs() && quit
    {
      quit := true;
      Extend(s, before, LoopQuits);
      moves := before + [LoopQuits];
    }

    /** A functor with its requests. */
    method Call(requests: seq<Request>, ghost s: State, ghost before: seq<Move>) returns (ghost moves: seq<Move>)
      requires UserCode(place) && CanRun(s, before) && After(s, before) == Abs()
      modifies this`pendingFunctors, this`history, this`eventfd, this`quit
      ensures CanRun(s, moves) && After(s, moves) == Abs()
      ensures pendingFunctors == old(pendingFunctors) + Queued(requests) && quit == (old(quit) || StopLoop in requests)
      ensures eventfd >= old(eventfd) && (callingPendingFunctors && Queued(requests) != [] ==> eventfd > 0)
    {
      hide CanRun, After, Queued;
      moves := before;
      assert Queued(requests[..0]) == [] by { NothingQueued(requests[..0]); }
      for k := 0 to |requests|
        invariant CanRun(s, moves) && After(s, moves) == Abs()
        invariant pendingFunctors == old(pendingFunctors) + Queued(requests[..k])
        invariant quit == (old(quit) || StopLoop in requests[..k])
        invariant eventfd >= old(eventfd) && (callingPendingFunctors && Queued(requests[..k]) != [] ==> eventfd > 0)
      {
        QueuedNext(requests, k);
        match requests[k] {
          case RunLater(f) => moves := QueueInLoop(f, s, moves);
          case StopLoop => moves := QuitLoop(s, moves);
        }
      }
      assert requests[..|requests|] == requests;
    }

    /** The next functor of the batch is called. */
    method RunNext(requests: seq<Request>, ghost s: State, ghost before: seq<Move>) returns (ghost moves: seq<Move>)
      requires place == Running && batch != [] && CanRun(s, before) && After(s, before) == Abs()
      modifies this`pendingFunctors, this`history, this`eventfd, this`quit, this`executed, this`batch
      ensures CanRun(s, moves) && After(s, moves) == Abs()
      ensures batch == old(batch[1..]) && executed + batch == old(executed + batch)
      ensures pendingFunctors == old(pendingFunctors) + Queued(requests) && quit == (old(quit) || StopLoop in requests)
      ensures eventfd >= old(eventfd) && (callingPendingFunctors && Queued(requests) != [] ==> eventfd > 0)
    {
      hide CanRun, After;
      assert batch == [batch[0]] + batch[1..];
      executed, batch := executed + [batch[0]], batch[1..];
      Extend(s, before, RunOne);
      moves := Call(requests, s, before + [RunOne]);
    }

    /** `doPendingFunctors` up to the loop. */
    method Begin() returns (functors: seq<Functor>, ghost moves: seq<Move>)
      requires place == Handling(false) && Flags(Abs())
      modifies this`callingPendingFunctors, this`pendingFunctors, this`place, this`batch
      ensures CanRun(old(Abs()), moves) && After(old(Abs()), moves) == Abs()
      ensures place == Running && callingPendingFunctors
      ensures functors == batch == old(pendingFunctors) && pendingFunctors == []
    {
      ghost var s := Abs();
      StartsHere(s);
      hide CanRun, After;
      callingPendingFunctors, place := true, Entering;
      Extend(s, [], EndHandling);
      functors := pendingFunctors;
      pendingFunctors := [];
      place, batch := Running, functors;
      moves := [] + [EndHandling] + [Swap];
      Extend(s, [] + [EndHandling], Swap);
    }

    /** `callingPendingFunctors_ = false`. */
    method End(ghost s: State, ghost before: seq<Move>) returns (ghost moves: seq<Move>)
      requires place == Running && batch == [] && Ok(s) && CanRun(s, before) && After(s, before) == Abs()
      modifies this`callingPendingFunctors, this`place
      ensures place == Top && Ok(Abs()) && CanRun(s, moves) && After(s, moves) == Abs()
    {
      hide CanRun, After;
      callingPendingFunctors, place := false, Top;
      Extend(s, before, EndFunctors);
      moves := before + [EndFunctors];
      RunInOrder(s, moves);
    }

    /** `doPendingFunctors`; the k-th functor makes the requests `requests[k]`. It is a run of the machine above,
        which runs the functors that were waiting, all of them even if one quits the loop, and leaves the ones
        they queued, with the loop woken up for those. */
    method DoPendingFunctors(requests: seq<seq<Request>>) returns (ghost moves: seq<Move>)
      requires place == Handling(false) && Ok(Abs())
      modifies this
      ensures place == Top && Ok(Abs()) && CanRun(old(Abs()), moves) && After(old(Abs()), moves) == Abs()
      ensures executed == old(executed + pendingFunctors)
      ensures pendingFunctors == QueuedBy(requests, |old(pendingFunctors)|) && (pendingFunctors != [] ==> eventfd > 0)
      ensures quit == (old(quit) || QuitBy(requests, |old(pendingFunctors)|))
    {
      hide CanRun, After, Apply, Can, QueuedBy, QuitBy, Queued;
      ghost var s := Abs();
      ghost var target := executed + pendingFunctors;
      NoRequests(requests);
      var functors;
      functors, moves := Begin();
      for k := 0 to |functors|
        invariant CanRun(s, moves) && After(s, moves) == Abs()
        invariant batch == functors[k..] && executed + batch == target
        invariant pendingFunctors == QueuedBy(requests, k) && (pendingFunctors != [] ==> eventfd > 0)
        invariant quit == (old(quit) || QuitBy(requests, k))
        modifies this`pendingFunctors, this`history, this`eventfd, this`quit, this`executed, this`batch
      {
        NextRequests(requests, k);
        var next := Nth(requests, k);
        moves := RunNext(next, s, moves);
      }
      assert executed == target;
      moves := End(s, moves);
    }
  }

  function Nth(requests: seq<seq<Request>>, k: nat): seq<Request> { if k < |requests| then requests[k] else [] }

  /** What the first `k` functors queue, and whether one of them quits the loop. */
  function QueuedBy(requests: seq<seq<Request>>, k: nat): seq<Functor> {
    if k == 0 then [] else QueuedBy(requests, k - 1) + Queued(Nth(requests, k - 1))
  }

  predicate QuitBy(requests: seq<seq<Request>>, k: nat) {
    k > 0 && (QuitBy(requests, k - 1) || StopLoop in Nth(requests, k - 1))
  }

  lemma NothingQueued(requests: seq<Request>)
    requires requests == []
    ensures Queued(requests) == []
  {}

  lemma NoRequests(requests: seq<seq<Request>>)
    ensures QueuedBy(requests, 0) == [] && !QuitBy(requests, 0)
  {}

  lemma NextRequests(requests: seq<seq<Request>>, k: nat)
    ensures QueuedBy(requests, k + 1) == QueuedBy(requests, k) + Queued(Nth(requests, k))
    ensures QuitBy(requests, k + 1) <==> QuitBy(requests, k) || StopLoop in Nth(requests, k)
  {}

  lemma StartsHere(s: State)
    ensures CanRun(s, []) && After(s, []) == s
  {}
}
