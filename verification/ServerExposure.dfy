/**
 What a risky close costs: exactly after such a close can the closed connection be polled, and then
 `handleClose` can run on it a second time.
 */
module ServerExposure {
  import opened Types
  import opened Interest
  import opened Channel
  import opened ConnState
  import opened Server
  import opened ServerInvariant
  import opened ServerContainment
  import opened ServerSafety

  /** Closing a connection leaves its descriptor watched exactly if the close was idle. */
  lemma WatchedIffIdleClose(s: State, m: Move)
    requires Inv(s) && Enabled(s, m) && Closing(s, m).Some?
    ensures Closing(s, m).value in s.peers
    ensures Live(s.peers[Closing(s, m).value].conn)
    ensures var c := Closing(s, m).value;
            c in Step(s, m).peers && Step(s, m).peers[c].conn.state == Disconnected
            && (Step(s, m).peers[c].conn.channel.Watched() <==> IdleClose(s, m))
  {
    hide Step, EventOk, PeerOk, LoopOk;
    ClosingEffect(s, m);
    CloseFacts(s.peers[Closing(s, m).value].conn);
  }

  lemma TwoMoves(s: State, m0: Move, m1: Move)
    requires Shape(s) && Enabled(s, m0) && Shape(Step(s, m0)) && Enabled(Step(s, m0), m1)
    ensures ValidRun(s, [m0, m1]) && After(s, [m0, m1]) == Step(Step(s, m0), m1)
  {
    hide Step, Shape, Enabled;
    var s1 := Step(s, m0);
    assert [m0, m1][1..] == [m1] && [m1][1..] == [];
    assert ValidRun(Step(s1, m1), []) && After(Step(s1, m1), []) == Step(s1, m1);
    assert ValidRun(s1, [m1]) && After(s1, [m1]) == Step(s1, m1);
  }

  /** An exposed connection is two moves from a failed assertion: the kernel reports the hang-up, and
      `handleClose` runs a second time. */
  lemma ExposedThenFault(s: State, c: nat)
    requires Shape(s) && !s.fault && Exposed(s, c)
    ensures exists moves :: ValidRun(s, moves) && After(s, moves).fault
  {
    var i := s.peers[c].home;
    var e := Event(c, {HUP}, AtClose);
    var o := Oracle(false, false, None, 0, WouldBlock);
    var m0, m1 := PollReturns(i, [e]), Work(i, o);
    assert HUP in {HUP};
    assert Enabled(s, m0);
    var s1 := Step(s, m0);
    assert s1.loops[i].agenda == [e];
    forall j, b | 0 <= j < |s1.loops| && (b in s1.loops[j].agenda || b in s1.loops[j].pending)
      ensures Placed(s1, j, b)
    {
      assert Placed(s1, i, e);
      if b != e { assert Placed(s, j, b); }
    }
    assert Shape(s1) && Enabled(s1, m1);
    assert Step(s1, m1).fault;
    TwoMoves(s, m0, m1);
  }

  // ---------------------------------------------------------------- running a loop's agenda out

  /** Nothing more arrives, nothing is accepted, and nothing can be written. */
  const QUIET: Oracle := Oracle(false, false, None, 1, WouldBlock)

  function Weight(a: Act): nat {
    match a
    case Event(_, _, AtClose) => 5
    case Event(_, _, AtRead) => 3
    case ForceCloseFunctor(_) => 2
    case _ => 1
  }

  function TotalWeight(acts: seq<Act>): nat {
    if acts == [] then 0 else Weight(acts[0]) + TotalWeight(acts[1..])
  }

  lemma WeightOfMore(x: Act, acts: seq<Act>)
    ensures TotalWeight([x] + acts) == Weight(x) + TotalWeight(acts)
  {
    assert ([x] + acts)[1..] == acts;
  }

  /** Each act leaves less to do. */
  lemma WorkLightens(s: State, i: nat)
    requires Shape(s) && Enabled(s, Work(i, QUIET))
    ensures var r := RunAct(s, i, QUIET);
            |r.loops| == |s.loops| && TotalWeight(r.loops[i].agenda) < TotalWeight(s.loops[i].agenda)
  {
    hide ConnOk, HandleWrite, HandleClose, ConnectDestroyed, ConnectEstablished, BeforeRemove, EventStage;
    var a, rest, s1 := s.loops[i].agenda[0], s.loops[i].agenda[1..], Pop(s, i);
    assert Placed(s, i, a);
    match a {
      case Event(_, _, _) => EventLightens(s1, i, a);
      case ForceCloseFunctor(c) => WeightOfMore(CloseCallback(c), rest);
      case _ =>
    }
  }

  lemma EventLightens(s: State, i: nat, a: Act)
    requires i < |s.loops| && a.Event? && a.conn in s.peers && s.peers[a.conn].home < |s.loops|
    ensures var r := EventStage(s, i, a, QUIET);
            |r.loops| == |s.loops| && TotalWeight(r.loops[i].agenda) < Weight(a) + TotalWeight(s.loops[i].agenda)
  {
    hide HandleWrite, HandleClose;
    var rest := s.loops[i].agenda;
    if a.stage == AtClose {
      var x := a.(stage := AtRead);
      WeightOfMore(x, rest);
      WeightOfMore(CloseCallback(a.conn), [x] + rest);
    } else if a.stage == AtRead {
      WeightOfMore(a.(stage := AtWrite), rest);
    }
  }

  /** No destruction of the connection comes up before its loop polls: none is due, and if functors are still to
      be swapped in, this is not the loop that queues it. */
  ghost predicate Unhurried(s: State, c: nat)
    requires Down(s, c)
  {
    var i := s.peers[c].home;
    Destroy(c) !in s.loops[i].agenda && (s.loops[i].phase == Handling ==> i != 0 && Destroy(c) !in s.loops[i].pending)
  }

  /** Where the runs below are: the connection is down and watched, and its loop is on its way to poll. */
  ghost predicate OnTheWay(s: State, c: nat) {
    Core(s) && Down(s, c) && s.peers[c].conn.channel.Watched() && Unhurried(s, c)
  }

  /** Acts that a step of one loop can add: functors on the base loop, and whatever it queues for itself. */
  lemma WorkAddsNoDestroy(s: State, i: nat, c: nat)
    requires Shape(s) && Enabled(s, Work(i, QUIET)) && i < |s.loops|
    ensures var r := RunAct(s, i, QUIET);
            && |r.loops| == |s.loops| && r.loops[i].phase == s.loops[i].phase
            && (Destroy(c) !in s.loops[i].agenda ==> Destroy(c) !in r.loops[i].agenda)
            && (i != 0 && Destroy(c) !in s.loops[i].pending && s.loops[i].phase == Handling ==> Destroy(c) !in r.loops[i].pending)
  {
    hide ConnOk, HandleWrite, HandleClose, ConnectDestroyed, ConnectEstablished, BeforeRemove;
    var a := s.loops[i].agenda[0];
    assert Placed(s, i, a);
  }

  lemma WorkStaysOnTheWay(s: State, c: nat)
    requires OnTheWay(s, c) && s.loops[s.peers[c].home].phase != Polling && s.loops[s.peers[c].home].agenda != []
    ensures var m := Work(s.peers[c].home, QUIET);
            && Enabled(s, m) && OnTheWay(Step(s, m), c) && Step(s, m).peers[c].home == s.peers[c].home
            && Step(s, m).loops[s.peers[c].home].phase == s.loops[s.peers[c].home].phase
  {
    hide PeerOk, LoopOk, ConnOk, RunAct, Placed;
    var i := s.peers[c].home;
    var m := Work(i, QUIET);
    assert Placed(s, i, s.loops[i].agenda[0]);
    StepKeepsCore(s, m);
    StepKeepsDown(s, m, c);
    WorkAddsNoDestroy(s, i, c);
  }

  /** The loop of the connection runs its agenda out. */
  lemma {:induction false} Drain(s: State, c: nat) returns (moves: seq<Move>)
    requires OnTheWay(s, c) && s.loops[s.peers[c].home].phase != Polling
    ensures ValidRun(s, moves) && OnTheWay(After(s, moves), c)
    ensures var r, i := After(s, moves), s.peers[c].home;
            r.peers[c].home == i && r.loops[i].phase == s.loops[i].phase && r.loops[i].agenda == []
    decreases TotalWeight(s.loops[s.peers[c].home].agenda)
  {
    var i := s.peers[c].home;
    if s.loops[i].agenda == [] {
      moves := [];
    } else {
      WorkStaysOnTheWay(s, c);
      hide OnTheWay, Step, Shape, Enabled;
      assert Shape(s) by { OnTheWayHasShape(s, c); }
      WorkLightens(s, i);
      var m := Work(i, QUIET);
      assert Step(s, m) == RunAct(s, i, QUIET) by { WorkIsRunAct(s, i); }
      var rest := Drain(Step(s, m), c);
      Prepend(s, m, rest);
      moves := [m] + rest;
    }
  }

  lemma OnTheWayHasShape(s: State, c: nat)
    requires OnTheWay(s, c)
    ensures Shape(s) && !s.fault && Down(s, c)
  {}

  lemma WorkIsRunAct(s: State, i: nat)
    requires Shape(s) && Enabled(s, Work(i, QUIET))
    ensures Step(s, Work(i, QUIET)) == RunAct(s, i, QUIET)
  {}

  lemma Prepend(s: State, m: Move, rest: seq<Move>)
    requires Shape(s) && Enabled(s, m) && ValidRun(Step(s, m), rest)
    ensures ValidRun(s, [m] + rest) && After(s, [m] + rest) == After(Step(s, m), rest)
  {
    hide Shape, Enabled, Step;
    assert ([m] + rest)[1..] == rest;
  }

  /** From a drained agenda the loop goes on to its next phase. */
  lemma NextStaysOnTheWay(s: State, c: nat)
    requires OnTheWay(s, c) && s.loops[s.peers[c].home].phase != Polling && s.loops[s.peers[c].home].agenda == []
    ensures var i := s.peers[c].home;
            var m := NextPhase(i);
            && Enabled(s, m) && Core(Step(s, m)) && Step(s, m).peers == s.peers
            && (s.loops[i].phase == Handling ==> OnTheWay(Step(s, m), c) && Step(s, m).loops[i].phase == Functors)
            && (s.loops[i].phase == Functors ==> Exposed(Step(s, m), c))
  {
    hide PeerOk, LoopOk, ConnOk;
    StepKeepsCore(s, NextPhase(s.peers[c].home));
  }

  /** In at most two phases the loop of the connection polls. */
  lemma ReachesPoll(s: State, c: nat) returns (moves: seq<Move>)
    requires OnTheWay(s, c) && s.loops[s.peers[c].home].phase != Polling
    ensures ValidRun(s, moves) && Core(After(s, moves)) && Exposed(After(s, moves), c)
    decreases s.loops[s.peers[c].home].phase == Handling
  {
    var i := s.peers[c].home;
    var first := Drain(s, c);
    var s1 := After(s, first);
    NextStaysOnTheWay(s1, c);
    hide OnTheWay, Step, Shape, Enabled, Exposed, Core;
    var m := NextPhase(i);
    var rest := [];
    if s.loops[i].phase == Handling {
      rest := ReachesPoll(Step(s1, m), c);
    }
    assert Shape(s1) by { OnTheWayHasShape(s1, c); }
    Prepend(s1, m, rest);
    Concat(s, first, [m] + rest);
    moves := first + ([m] + rest);
  }

  lemma {:induction false} Concat(s: State, ms: seq<Move>, ns: seq<Move>)
    requires ValidRun(s, ms) && ValidRun(After(s, ms), ns)
    ensures ValidRun(s, ms + ns) && After(s, ms + ns) == After(After(s, ms), ns)
    decreases |ms|
  {
    hide Step, Shape, Enabled;
    if ms == [] {
      assert ms + ns == ns;
    } else {
      Concat(Step(s, ms[0]), ms[1..], ns);
      assert (ms + ns)[1..] == ms[1..] + ns;
    }
  }

  lemma RiskyIsOnTheWay(s: State, m: Move)
    requires Inv(s) && Enabled(s, m) && RiskyClose(s, m)
    ensures var r, c := Step(s, m), Closing(s, m).value;
            OnTheWay(r, c) && r.loops[r.peers[c].home].phase != Polling
  {
    hide Step, LoopOk, PeerOk;
    AnyStepKeepsCore(s, m);
    WatchedIffIdleClose(s, m);
    ClosingEffect(s, m);
    NoDestroyYet(Step(s, m), Closing(s, m).value);
  }

  /** While the close callback is due, no destruction is. */
  lemma NoDestroyYet(s: State, c: nat)
    requires Core(s) && c in s.peers && CloseCallback(c) in s.loops[s.peers[c].home].agenda
    ensures Destroy(c) !in s.loops[s.peers[c].home].agenda && Destroy(c) !in s.loops[s.peers[c].home].pending
  {
    hide LoopOk, ConnOk, Due;
    assert PeerOk(s, c);
    var home := s.loops[s.peers[c].home];
    DueIsMember(home, CloseCallback(c));
    DueIsMember(home, Destroy(c));
  }

  // ---------------------------------------------------------------- exactly the risky closes

  ghost predicate CanBeExposed(s: State, c: nat) {
    exists moves :: ValidRun(s, moves) && Exposed(After(s, moves), c)
  }

  lemma {:induction false} RunKeepsContained(s: State, moves: seq<Move>, c: nat)
    requires ValidRun(s, moves) && Down(s, c) && Contained(s, c)
    ensures Down(After(s, moves), c) && Contained(After(s, moves), c)
    decreases |moves|
  {
    hide Step, Shape, Enabled, Contained, Down;
    if moves != [] {
      StepKeepsContained(s, moves[0], c);
      RunKeepsContained(Step(s, moves[0]), moves[1..], c);
    }
  }

  /** After a close, the closed connection can come to be polled, while the kernel still watches it, exactly if
      the close was risky; whatever else happens, to other connections too. */
  lemma ExposedIffRisky(s: State, m: Move)
    requires Inv(s) && Enabled(s, m) && Closing(s, m).Some?
    ensures CanBeExposed(Step(s, m), Closing(s, m).value) <==> RiskyClose(s, m)
  {
    hide Step, Shape, Enabled, Closing, Contained;
    var r, c := Step(s, m), Closing(s, m).value;
    if RiskyClose(s, m) {
      RiskyIsOnTheWay(s, m);
      var moves := ReachesPoll(r, c);
    } else {
      AnyStepKeepsCore(s, m);
      ClosedIsContained(s, m);
      forall moves | ValidRun(r, moves) ensures !Exposed(After(r, moves), c) {
        RunKeepsContained(r, moves, c);
        ContainedIsNotExposed(After(r, moves), c);
      }
    }
  }

  lemma CoreHasShape(s: State)
    requires Core(s)
    ensures Shape(s) && !s.fault
  {}

  /** And then an assertion can fail; after any other close, the invariant holds on. */
  lemma RiskyThenFault(s: State, m: Move)
    requires Inv(s) && Enabled(s, m) && RiskyClose(s, m)
    ensures exists moves :: ValidRun(Step(s, m), moves) && After(Step(s, m), moves).fault
  {
    hide Step, Shape, Enabled, OnTheWay, Exposed, Core, LoopOk, PeerOk;
    CoreHasShape(s);
    RiskyIsOnTheWay(s, m);
    var r, c := Step(s, m), Closing(s, m).value;
    var first := ReachesPoll(r, c);
    assert Shape(After(r, first)) && !After(r, first).fault by { CoreHasShape(After(r, first)); }
    ExposedThenFault(After(r, first), c);
    var last :| ValidRun(After(r, first), last) && After(After(r, first), last).fault;
    Concat(r, first, last);
  }
}
