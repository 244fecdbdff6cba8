/**
 A run of the machine in Server.dfy that fails an assertion: a server without I/O threads, on epoll, whose
 user stops reading a connection and then force-closes it.
 */
module ServerExample {
  import opened Types
  import opened Interest
  import opened Channel
  import opened ConnState
  import opened Server
  import opened ServerInvariant
  import opened ServerContainment
  import opened ServerSafety
  import opened ServerExposure

  /** One move leads from `s` to `t`. */
  ghost predicate Leads(s: State, m: Move, t: State) {
    Shape(s) && Enabled(s, m) && Step(s, m) == t
  }

  lemma Extend(s0: State, ms: seq<Move>, m: Move, t: State)
    requires ValidRun(s0, ms) && Leads(After(s0, ms), m, t)
    ensures ValidRun(s0, ms + [m]) && After(s0, ms + [m]) == t
  {
    hide Step, Shape, Enabled;
    var s := After(s0, ms);
    assert [m][1..] == [] && ValidRun(t, []);
    assert ValidRun(s, [m]) && After(s, [m]) == t;
    Concat(s0, ms, [m]);
  }

  /** The server's states, given its one loop and one connection. */
  function OneConn(l: Loop, p: Peer): State {
    State(Epoll, [l], 0, 2, if p.erased == 0 then {1} else {}, map[1 := p], false)
  }

  function Conn1(state: StateE, reading: bool, events: Mask, watched: bool): Conn {
    Conn(state, reading, Channel(Epoll, events, Some(Registration(events, watched))), [], false, None, [], [], [], false)
  }

  const ORACLE: Oracle := Oracle(true, false, None, 0, WouldBlock)

  const UP: Peer := Peer(0, Conn1(Connected, true, READ_EVENT, true), 1, 0, 0, 0)
  const DEAF: Peer := Peer(0, Conn1(Connected, false, {}, false), 1, 0, 0, 0)
  const CLOSING: Peer := Peer(0, Conn1(Disconnecting, false, {}, false), 1, 0, 0, 0)
  const DOWN: Peer := Peer(0, Conn1(Disconnected, false, {}, true), 1, 1, 0, 0)
  const UNMAPPED: Peer := Peer(0, Conn1(Disconnected, false, {}, true), 1, 1, 1, 0)

  const S0: State := State(Epoll, [IDLE], 0, 1, {}, map[], false)
  const S1: State := State(Epoll, [Loop(Handling, [Accept], {}, [])], 0, 1, {}, map[], false)
  const S2: State := OneConn(Loop(Handling, [], {}, []), UP)
  const S3: State := OneConn(Loop(Handling, [], {}, []), DEAF)
  const S4: State := OneConn(Loop(Handling, [], {}, [ForceCloseFunctor(1)]), CLOSING)
  const S5: State := OneConn(Loop(Functors, [ForceCloseFunctor(1)], {}, []), CLOSING)
  const S6: State := OneConn(Loop(Functors, [CloseCallback(1)], {}, []), DOWN)
  const S7: State := OneConn(Loop(Functors, [], {}, [Destroy(1)]), UNMAPPED)
  const S8: State := OneConn(Loop(Polling, [], {}, [Destroy(1)]), UNMAPPED)

  lemma Ready()
    ensures Leads(S0, PollReturns(0, [Accept]), S1)
  {
    assert Conns([Accept]) == {};
  }

  lemma Accepted()
    ensures Leads(S1, Work(0, ORACLE), S2)
  {
    var s := Pop(S1, 0);
    assert [Accept][1..] == [];
    assert s.loops == [Loop(Handling, [], {}, [])];
    assert {} + READ_EVENT == READ_EVENT;
    var c := NewConn(Epoll, false, None);
    assert ConnectEstablished(c) == UP.conn;
    assert NewConnection(s, ORACLE).peers == map[1 := UP];
    assert NewConnection(s, ORACLE).connections == {1};
  }

  lemma ReadStopped()
    ensures Leads(S2, Api(1, StopRead), S3)
  {
    assert IN in READ_EVENT * READ_EVENT && READ_EVENT - READ_EVENT == {};
    assert StopReadInLoop(UP.conn) == DEAF.conn;
    assert AsActs(1, []) == [];
    var t := Answer(S2, 1, ApiReply(UP.conn, StopRead));
    assert t.peers == map[1 := DEAF];
    assert t.loops[0].pending == [];
    assert t.loops == S3.loops;
  }

  lemma ForceClosed()
    ensures Leads(S3, Api(1, ForceClose), S4)
  {
    assert ConnState.ForceClose(DEAF.conn) == Reply(CLOSING.conn, [ForceCloseInLoop]);
    assert AsActs(1, [ForceCloseInLoop]) == [ForceCloseFunctor(1)];
    var t := Answer(S3, 1, ApiReply(DEAF.conn, ForceClose));
    assert t.peers == map[1 := CLOSING];
    assert t.loops[0].pending == [ForceCloseFunctor(1)];
    assert t.loops == S4.loops;
  }

  lemma Closed()
    ensures Leads(S5, Work(0, ORACLE), S6)
  {
    assert Placed(S5, 0, ForceCloseFunctor(1));
    var s := Pop(S5, 0);
    assert [ForceCloseFunctor(1)][1..] == [];
    assert s.loops == [Loop(Functors, [], {}, [])];
    assert HandleClose(CLOSING.conn) == DOWN.conn;
    var t := Close(s, 0, 1);
    assert t.peers == map[1 := DOWN];
    assert t.loops[0].agenda == [CloseCallback(1)];
    assert t.loops == S6.loops;
  }

  lemma Unmapped()
    ensures Leads(S6, Work(0, ORACLE), S7)
  {
    assert Placed(S6, 0, CloseCallback(1));
    var s := Pop(S6, 0);
    assert [CloseCallback(1)][1..] == [];
    assert s.loops == [Loop(Functors, [], {}, [])];
    var t := RemoveNow(s, 1);
    assert t.peers == map[1 := UNMAPPED] && t.connections == {};
    assert t.loops[0].pending == [Destroy(1)];
    assert t.loops == S7.loops;
  }

  lemma NextPhases()
    ensures Leads(S4, NextPhase(0), S5) && Leads(S7, NextPhase(0), S8)
  {
    assert Step(S4, NextPhase(0)).loops == S5.loops;
    assert Step(S7, NextPhase(0)).loops == S8.loops;
  }

  lemma UpToPoll() returns (ms: seq<Move>)
    ensures ValidRun(S0, ms) && After(S0, ms) == S8
  {
    hide Leads, Step, Shape, Enabled;
    assert ValidRun(S0, []);
    Ready(); Accepted(); ReadStopped(); ForceClosed(); NextPhases(); Closed(); Unmapped();
    ms := [];
    Extend(S0, ms, PollReturns(0, [Accept]), S1);
    ms := ms + [PollReturns(0, [Accept])];
    Extend(S0, ms, Work(0, ORACLE), S2);
    ms := ms + [Work(0, ORACLE)];
    Extend(S0, ms, Api(1, StopRead), S3);
    ms := ms + [Api(1, StopRead)];
    Extend(S0, ms, Api(1, ForceClose), S4);
    ms := ms + [Api(1, ForceClose)];
    Extend(S0, ms, NextPhase(0), S5);
    ms := ms + [NextPhase(0)];
    Extend(S0, ms, Work(0, ORACLE), S6);
    ms := ms + [Work(0, ORACLE)];
    Extend(S0, ms, Work(0, ORACLE), S7);
    ms := ms + [Work(0, ORACLE)];
    Extend(S0, ms, NextPhase(0), S8);
    ms := ms + [NextPhase(0)];
  }

  /** `stopRead()` and then `forceClose()`, on epoll: the peer hanging up before the connection is destroyed
      makes `handleClose` run twice. */
  lemma StopReadThenForceCloseFaults()
    ensures exists s0, moves :: Initial(s0) && s0.backend == Epoll && ValidRun(s0, moves) && After(s0, moves).fault
  {
    var ms := UpToPoll();
    ExposedThenFault(S8, 1);
    var last :| ValidRun(S8, last) && After(S8, last).fault;
    Concat(S0, ms, last);
    assert Initial(S0) && ValidRun(S0, ms + last) && After(S0, ms + last).fault;
  }
}
