/**
 Every run of the machine in Server.dfy: the counts of each connection's life, who holds it, and which closes
 lead to a failed assertion.
 */
module ServerSafety {
  import opened Types
  import opened Interest
  import opened Channel
  import opened ConnState
  import opened Server
  import opened ServerInvariant
  import opened ServerContainment

  // ---------------------------------------------------------------- idle closes

  /** The connection a move would run `handleClose` on. */
  function Closing(s: State, m: Move): Option<nat>
    requires Shape(s) && Enabled(s, m)
  {
    if !m.Work? then None
    else
      var a := s.loops[m.loop].agenda[0];
      if || (a.Event? && a.stage == AtClose && CallsClose(a.revents))
         || (a.Event? && a.stage == AtRead && CallsRead(a.revents) && m.oracle.readResult == 0)
         || (a.ForceCloseFunctor? && (assert Placed(s, m.loop, a); Live(s.peers[a.conn].conn)))
      then Some(a.conn) else None
  }

  /** `handleClose` runs under epoll while the channel asks for nothing, so that its `disableAll` is a
      second disabling. */
  ghost predicate IdleClose(s: State, m: Move)
    requires Shape(s) && Enabled(s, m)
  {
    s.backend == Epoll && Closing(s, m).Some? &&
    Closing(s, m).value in s.peers && s.peers[Closing(s, m).value].conn.channel.IsNoneEvent()
  }

  /** An idle close after which the connection's loop can poll before it has destroyed the connection. It cannot
      if there is one loop and it is handling events: the functors that it runs next include the destruction. */
  ghost predicate RiskyClose(s: State, m: Move)
    requires Shape(s) && Enabled(s, m)
  {
    IdleClose(s, m) && (m.loop != 0 || s.loops[m.loop].phase == Functors)
  }

  // ---------------------------------------------------------------- invariant

  ghost predicate AllContained(s: State) {
    forall c :: c in s.peers && s.peers[c].conn.state == Disconnected ==> Down(s, c) && Contained(s, c)
  }

  ghost predicate Inv(s: State) { Core(s) && AllContained(s) }

  /** A loop at poll is not asked about connections that are down. */
  lemma PollsLive(s: State, i: nat, ready: seq<Act>)
    requires Inv(s) && Enabled(s, PollReturns(i, ready))
    ensures ReportsLive(s, ready)
  {
    hide ConnOk, PeerOk, LoopOk, Placed;
    forall a | a in ready && a.Event? ensures a.conn in s.peers && s.peers[a.conn].conn.state != Disconnected {
      var k :| 0 <= k < |ready| && ready[k] == a;
      assert a.conn in s.peers && KernelMayReport(s.peers[a.conn].conn.channel, a.revents);
    }
  }

  /** What a closing move does to the connection, and to its loop. */
  lemma ClosingEffect(s: State, m: Move)
    requires Core(s) && Enabled(s, m) && Closing(s, m).Some?
    ensures var c := Closing(s, m).value;
            && c in s.peers && s.peers[c].home == m.loop && Live(s.peers[c].conn) && s.loops[m.loop].phase != Polling
            && c in Step(s, m).peers && Step(s, m).peers[c].home == m.loop
            && Step(s, m).peers[c].conn == HandleClose(s.peers[c].conn)
            && |Step(s, m).loops| == |s.loops|
            && Step(s, m).loops[m.loop].phase == s.loops[m.loop].phase
            && CloseCallback(c) in Step(s, m).loops[m.loop].agenda
  {
    hide EventOk, PeerOk, ConnOk, HandleClose;
    ClosingIsLive(s, m);
    var a := s.loops[m.loop].agenda[0];
    assert Placed(s, m.loop, a);
  }

  lemma ClosingIsLive(s: State, m: Move)
    requires Core(s) && Enabled(s, m) && Closing(s, m).Some?
    ensures Closing(s, m).value in s.peers && Live(s.peers[Closing(s, m).value].conn)
  {
    var a := s.loops[m.loop].agenda[0];
    assert Placed(s, m.loop, a) && LoopOk(s, m.loop);
    if a.Event? {
      assert EventOk(s, a);
      if a.stage == AtRead { ReadMeansLive(s, a); }
    }
  }

  lemma OnlyClosingCloses(s: State, m: Move, c: nat)
    requires Core(s) && Enabled(s, m) && c in s.peers && s.peers[c].conn.state != Disconnected
    requires c in Step(s, m).peers && Step(s, m).peers[c].conn.state == Disconnected
    requires Step(s, m).peers[c].conn.channel.Watched()
    ensures Closing(s, m) == Some(c)
  {
    hide LoopOk, PeerOk, ConnOk, HandleWrite, ApiReply, RunAct;
    match m {
      case Api(d, call) => ApiFacts(s.peers[d].conn, call);
      case Work(i, o) => OnlyClosingActs(s, i, o, c);
      case _ =>
    }
  }

  lemma OnlyClosingActs(s: State, i: nat, o: Oracle, c: nat)
    requires Core(s) && Enabled(s, Work(i, o)) && c in s.peers && s.peers[c].conn.state != Disconnected
    requires var r := RunAct(s, i, o);
             c in r.peers && r.peers[c].conn.state == Disconnected && r.peers[c].conn.channel.Watched()
    ensures Closing(s, Work(i, o)) == Some(c)
  {
    hide LoopOk, PeerOk, ConnOk, HandleClose, ConnectDestroyed, EventStage, NewConnection;
    var a, s1 := s.loops[i].agenda[0], Pop(s, i);
    assert Placed(s, i, a);
    PopKeepsShape(s, i);
    match a {
      case Event(_, _, _) => EventCloses(s1, i, a, o, c);
      case Accept => if o.accepted { CreationKeepsUp(s1, o, c); }
      case Destroy(d) => RemovedIsUnwatched(s.peers[d].conn);
      case _ =>
    }
  }

  lemma RemovedIsUnwatched(conn: Conn)
    ensures BeforeRemove(conn).channel.IsNoneEvent() && conn.channel.Added() ==> !ConnectDestroyed(conn).channel.Watched()
  {}

  lemma CreationKeepsUp(s: State, o: Oracle, c: nat)
    requires Shape(s) && c in s.peers && c < s.nextConnId
    ensures c in NewConnection(s, o).peers && NewConnection(s, o).peers[c] == s.peers[c]
  {
    hide ConnOk;
  }

  lemma EventCloses(s: State, i: nat, a: Act, o: Oracle, c: nat)
    requires i < |s.loops| && a.Event? && a.conn in s.peers && s.peers[a.conn].home < |s.loops|
    requires c in s.peers && s.peers[c].conn.state != Disconnected && ConnOk(s.peers[a.conn].conn)
    requires Possible(o.write, |s.peers[a.conn].conn.output|)
    requires var r := EventStage(s, i, a, o); c in r.peers && r.peers[c].conn.state == Disconnected
    ensures a.conn == c
    ensures (a.stage == AtClose && CallsClose(a.revents)) || (a.stage == AtRead && CallsRead(a.revents) && o.readResult == 0)
  {
    hide ConnOk, HandleWrite, HandleClose;
    WriteFacts(s.peers[a.conn].conn, o.write);
  }

  lemma StepKeepsAllContained(s: State, m: Move)
    requires Inv(s) && Enabled(s, m) && Core(Step(s, m)) && !RiskyClose(s, m)
    ensures AllContained(Step(s, m))
  {
    var r := Step(s, m);
    forall c | c in r.peers && r.peers[c].conn.state == Disconnected ensures Down(r, c) && Contained(r, c) {
      if c in s.peers && s.peers[c].conn.state == Disconnected {
        StepKeepsContained(s, m, c);
      } else if r.peers[c].conn.channel.Watched() {
        NewIsUp(s, m, c);
        OnlyClosingCloses(s, m, c);
        ClosedIsContained(s, m);
      }
    }
  }

  /** New connections are up. */
  lemma NewIsUp(s: State, m: Move, c: nat)
    requires Core(s) && Enabled(s, m) && c in Step(s, m).peers && Step(s, m).peers[c].conn.state == Disconnected
    ensures c in s.peers
  {
    hide LoopOk, PeerOk, ConnOk, HandleWrite, HandleClose, ApiReply;
    if m.Work? { assert Placed(s, m.loop, s.loops[m.loop].agenda[0]); }
  }

  /** After a close that is not risky, the connection is contained. */
  lemma ClosedIsContained(s: State, m: Move)
    requires Core(s) && Enabled(s, m) && Core(Step(s, m)) && Closing(s, m).Some? && !RiskyClose(s, m)
    ensures var c := Closing(s, m).value; Down(Step(s, m), c) && Contained(Step(s, m), c)
  {
    hide Step, LoopOk, PeerOk, EventOk;
    ClosingEffect(s, m);
    CloseFacts(s.peers[Closing(s, m).value].conn);
  }

  /** Every move of the machine, from any state that is in order. */
  lemma StepKeepsInv(s: State, m: Move)
    requires Inv(s) && Enabled(s, m) && !RiskyClose(s, m)
    ensures Inv(Step(s, m))
  {
    hide Core, AllContained;
    AnyStepKeepsCore(s, m);
    StepKeepsAllContained(s, m);
  }

  lemma AnyStepKeepsCore(s: State, m: Move)
    requires Inv(s) && Enabled(s, m)
    ensures Core(Step(s, m))
  {
    hide Step, AllContained;
    if m.PollReturns? { PollsLive(s, m.loop, m.ready); }
    StepKeepsCore(s, m);
  }

  // ---------------------------------------------------------------- whole runs

  lemma InitialInv(s: State)
    requires Initial(s)
    ensures Inv(s)
  {
    forall i | 0 <= i < |s.loops| ensures s.loops[i] == IDLE {
      assert s.loops[i] in s.loops;
    }
  }

  ghost predicate ValidRun(s: State, moves: seq<Move>)
    decreases |moves|
  {
    moves == [] || (Shape(s) && Enabled(s, moves[0]) && ValidRun(Step(s, moves[0]), moves[1..]))
  }

  ghost function After(s: State, moves: seq<Move>): State
    requires ValidRun(s, moves)
    decreases |moves|
  {
    if moves == [] then s else After(Step(s, moves[0]), moves[1..])
  }

  /** No close of the run is risky. */
  ghost predicate Disciplined(s: State, moves: seq<Move>)
    requires ValidRun(s, moves)
    decreases |moves|
  {
    moves == [] || (!RiskyClose(s, moves[0]) && Disciplined(Step(s, moves[0]), moves[1..]))
  }

  lemma {:induction false} RunKeepsInv(s: State, moves: seq<Move>)
    requires Inv(s) && ValidRun(s, moves) && Disciplined(s, moves)
    ensures Inv(After(s, moves))
    decreases |moves|
  {
    if moves != [] {
      StepKeepsInv(s, moves[0]);
      RunKeepsInv(Step(s, moves[0]), moves[1..]);
    }
  }

  /** Over every run, with any number of connections and loops: no assertion fails, and each connection is
      established at most once, closed at most once and only after that, erased from the map at most once
      per close, and destroyed at most once per erasure. */
  lemma LifeCycle(s0: State, moves: seq<Move>)
    requires Initial(s0) && ValidRun(s0, moves) && Disciplined(s0, moves)
    ensures var s := After(s0, moves);
            && !s.fault
            && (forall c :: c in s.peers ==>
                  var p := s.peers[c];
                  && 1 >= p.established >= p.closed >= p.erased >= p.destroyed
                  && (c in s.connections <==> p.erased == 0)
                  && (p.conn.state == Connecting <==> p.established == 0)
                  && (p.conn.state == Disconnected <==> p.closed == 1)
                  && StreamConserved(p.conn) && FinIsLast(p.conn))
  {
    InitialInv(s0);
    RunKeepsInv(s0, moves);
    var s := After(s0, moves);
    forall c | c in s.peers ensures PeerOk(s, c) {}
  }

  /** An act that owns a `TcpConnectionPtr` to the connection until it has run. */
  ghost predicate Holds(a: Act, c: nat) {
    match a
    case Accept => false
    case Event(_, _, _) => false
    case _ => a.conn == c
  }

  /** Somebody in the library keeps the connection alive. */
  ghost predicate Referenced(s: State, c: nat) {
    c in s.connections ||
    exists i, a :: 0 <= i < |s.loops| && (a in s.loops[i].agenda || a in s.loops[i].pending) && Holds(a, c)
  }

  lemma ReferencedWhileAlive(s: State, c: nat)
    requires Inv(s) && c in s.peers && s.peers[c].destroyed == 0
    ensures Referenced(s, c)
  {
    hide LoopOk, Numbered, ConnOk;
    assert PeerOk(s, c);
    var home := s.peers[c].home;
    DueIsMember(s.loops[home], Destroy(c));
    assert Holds(Destroy(c), c);
  }

  lemma EventsAreRegistered(s: State, i: nat, a: Act)
    requires Inv(s) && i < |s.loops| && a in s.loops[i].agenda && a.Event?
    ensures EventOk(s, a) && Referenced(s, a.conn)
  {
    assert LoopOk(s, i) && EventOk(s, a);
    ReferencedWhileAlive(s, a.conn);
  }

  /** A connection stays referenced until it has been destroyed, and what is left of `activeChannels_`
      refers only to channels that are still registered. */
  lemma AliveUntilDestroyed(s0: State, moves: seq<Move>)
    requires Initial(s0) && ValidRun(s0, moves) && Disciplined(s0, moves)
    ensures var s := After(s0, moves);
            && (forall c :: c in s.peers && s.peers[c].destroyed == 0 ==> Referenced(s, c))
            && (forall i, a :: 0 <= i < |s.loops| && a in s.loops[i].agenda && a.Event? ==>
                  a.conn in s.peers && s.peers[a.conn].destroyed == 0
                  && s.peers[a.conn].conn.channel.Added() && Referenced(s, a.conn))
  {
    InitialInv(s0);
    RunKeepsInv(s0, moves);
    var s := After(s0, moves);
    hide LoopOk, PeerOk, Referenced, ValidRun, Disciplined, ConnOk, Placed;
    forall c | c in s.peers && s.peers[c].destroyed == 0 ensures Referenced(s, c) {
      ReferencedWhileAlive(s, c);
    }
    forall i, a | 0 <= i < |s.loops| && a in s.loops[i].agenda && a.Event?
      ensures EventOk(s, a) && Referenced(s, a.conn)
    {
      EventsAreRegistered(s, i, a);
    }
  }

  ghost predicate RunDry(s: State) {
    forall i :: 0 <= i < |s.loops| ==> s.loops[i].agenda == [] && s.loops[i].pending == []
  }

  lemma DryBooks(s: State, c: nat)
    requires Shape(s) && RunDry(s) && c in s.peers
    ensures BooksOf(s, c) == Books(0, 0, 0, 0)
  {
    assert s.loops[s.peers[c].home].agenda == [] && s.loops[0].agenda == [];
  }

  /** Once every loop has run dry, every connection that was closed has been unmapped and destroyed, and
      every connection that was accepted has been established. */
  lemma NothingLeftBehind(s0: State, moves: seq<Move>)
    requires Initial(s0) && ValidRun(s0, moves) && Disciplined(s0, moves) && RunDry(After(s0, moves))
    ensures var s := After(s0, moves);
            forall c :: c in s.peers ==>
              var p := s.peers[c]; p.established == 1 && p.closed == p.erased == p.destroyed
  {
    InitialInv(s0);
    RunKeepsInv(s0, moves);
    hide ValidRun, Disciplined, LoopOk, BooksOf, ConnOk, Placed;
    var s := After(s0, moves);
    forall c | c in s.peers
      ensures var p := s.peers[c]; p.established == 1 && p.closed == p.erased == p.destroyed
    {
      assert PeerOk(s, c);
      DryBooks(s, c);
    }
  }

  /** A connection is destroyed only by a functor of its own loop, never while that loop handles events. */
  lemma DestroyedInFunctorPhase(s: State, m: Move, c: nat)
    requires Inv(s) && Enabled(s, m) && c in s.peers
    requires c in Step(s, m).peers && Step(s, m).peers[c].destroyed != s.peers[c].destroyed
    ensures m.Work? && m.loop == s.peers[c].home && s.loops[m.loop].phase == Functors
    ensures s.loops[m.loop].agenda[0] == Destroy(c)
  {
    hide BooksOf, ConnOk, PeerOk, EventOk, RunAct, ApiReply, AllContained;
    if m.Work? {
      var a := s.loops[m.loop].agenda[0];
      assert Placed(s, m.loop, a) && LoopOk(s, m.loop);
      assert a in s.loops[m.loop].agenda;
      OnlyDestroyDestroys(s, m.loop, m.oracle, c);
    }
  }

  lemma OnlyDestroyDestroys(s: State, i: nat, o: Oracle, c: nat)
    requires Shape(s) && Enabled(s, Work(i, o)) && c in s.peers && c < s.nextConnId
    ensures c in RunAct(s, i, o).peers
    ensures RunAct(s, i, o).peers[c].destroyed != s.peers[c].destroyed ==> s.loops[i].agenda[0] == Destroy(c)
  {
    hide ConnOk, HandleWrite, HandleClose, ConnectDestroyed, BeforeRemove, EventStage, NewConnection;
    var a, s1 := s.loops[i].agenda[0], Pop(s, i);
    assert Placed(s, i, a);
    PopKeepsShape(s, i);
    match a {
      case Event(_, _, _) => EventDestroysNothing(s1, i, a, o, c);
      case Accept => if o.accepted { CreationKeepsUp(s1, o, c); }
      case _ =>
    }
  }

  lemma EventDestroysNothing(s: State, i: nat, a: Act, o: Oracle, c: nat)
    requires i < |s.loops| && a.Event? && a.conn in s.peers && s.peers[a.conn].home < |s.loops| && c in s.peers
    requires Possible(o.write, |s.peers[a.conn].conn.output|)
    ensures c in EventStage(s, i, a, o).peers && EventStage(s, i, a, o).peers[c].destroyed == s.peers[c].destroyed
  {
    hide HandleWrite, HandleClose;
  }

  // ---------------------------------------------------------------- reading is never stopped

  ghost predicate AllReading(s: State) {
    forall c :: c in s.peers && s.peers[c].conn.state != Disconnected ==> s.peers[c].conn.reading
  }

  lemma LiveReaderAsks(c: Conn)
    requires ConnOk(c) && Live(c) && c.reading
    ensures !c.channel.IsNoneEvent()
  {
    assert IN in READ_EVENT;
    assert IN in c.channel.events;
  }

  lemma ReadingNeverIdle(s: State, m: Move)
    requires Inv(s) && Enabled(s, m) && AllReading(s)
    ensures !IdleClose(s, m)
  {
    if Closing(s, m).Some? {
      ClosingIsLive(s, m);
      LiveReaderAsks(s.peers[Closing(s, m).value].conn);
    }
  }

  lemma ReadingNeverRisky(s: State, m: Move)
    requires Inv(s) && Enabled(s, m) && AllReading(s)
    ensures !RiskyClose(s, m)
  {
    hide Inv, AllReading, IdleClose;
    ReadingNeverIdle(s, m);
  }

  lemma AnswerReading(s: State, c: nat, r: Reply)
    requires AllReading(s) && c in s.peers && s.peers[c].home < |s.loops|
    requires r.conn.reading == s.peers[c].conn.reading
    requires r.conn.state == Disconnected <==> s.peers[c].conn.state == Disconnected
    ensures AllReading(Answer(s, c, r))
  {}

  lemma NewConnectionReading(s: State, o: Oracle)
    requires Shape(s) && AllReading(s)
    ensures AllReading(NewConnection(s, o))
  {}

  lemma ApiReading(conn: Conn, call: ApiCall)
    requires call.Send? ==> Possible(call.r, |call.data|)
    requires !call.StopRead? && (conn.state != Disconnected ==> conn.reading)
    ensures var r := ApiReply(conn, call).conn;
            r.state != Disconnected ==> r.reading && conn.state != Disconnected
  {}

  lemma FunctorReading(s: State, i: nat, c: nat)
    requires AllReading(s) && i < |s.loops| && c in s.peers && s.peers[c].home < |s.loops|
    ensures AllReading(RemoveNow(s, c)) && AllReading(DestroyNow(s, i, c))
    ensures AllReading(Close(s, i, c)) && AllReading(EstablishNow(s, c))
  {}

  lemma EventReading(s: State, i: nat, a: Act, o: Oracle)
    requires AllReading(s) && i < |s.loops| && a.Event? && a.conn in s.peers && s.peers[a.conn].home < |s.loops|
    requires Possible(o.write, |s.peers[a.conn].conn.output|)
    ensures AllReading(EventStage(s, i, a, o))
  {
    hide Close, Answer;
    match a.stage {
      case AtClose => FunctorReading(PushAct(s, i, a.(stage := AtRead)), i, a.conn);
      case AtRead => FunctorReading(PushAct(s, i, a.(stage := AtWrite)), i, a.conn);
      case AtWrite =>
        if CallsWrite(a.revents) { AnswerReading(s, a.conn, HandleWrite(s.peers[a.conn].conn, o.write)); }
    }
  }

  lemma ActReading(s: State, i: nat, o: Oracle)
    requires Shape(s) && Enabled(s, Work(i, o)) && AllReading(s)
    ensures AllReading(RunAct(s, i, o))
  {
    var a, s1 := s.loops[i].agenda[0], Pop(s, i);
    assert Placed(s, i, a);
    PopKeepsShape(s, i);
    hide NewConnection, EventStage, RemoveNow, DestroyNow, Close, EstablishNow, Placed, ConnOk;
    match a {
      case Accept => NewConnectionReading(s1, o);
      case Event(_, _, _) => EventReading(s1, i, a, o);
      case _ => FunctorReading(s1, i, a.conn);
    }
  }

  lemma ReadingKept(s: State, m: Move)
    requires Inv(s) && Enabled(s, m) && AllReading(s) && !(m.Api? && m.call.StopRead?)
    ensures AllReading(Step(s, m))
  {
    hide BooksOf, LoopOk, ConnOk;
    if m.Work? {
      ActReading(s, m.loop, m.oracle);
    } else if m.Api? {
      ApiReading(s.peers[m.conn].conn, m.call);
    }
  }

  ghost predicate NeverStopsReading(moves: seq<Move>) {
    forall k :: 0 <= k < |moves| ==> !(moves[k].Api? && moves[k].call.StopRead?)
  }

  /** Servers that never call `stopRead` are disciplined, whatever else they do and whichever poller they use. */
  lemma {:induction false} ReadingServersAreDisciplined(s: State, moves: seq<Move>)
    requires Inv(s) && AllReading(s) && ValidRun(s, moves) && NeverStopsReading(moves)
    ensures Disciplined(s, moves)
    decreases |moves|
  {
    hide Inv, AllReading, Step, Shape, Enabled, RiskyClose;
    if moves != [] {
      ReadingNeverRisky(s, moves[0]);
      ReadingKept(s, moves[0]);
      StepKeepsInv(s, moves[0]);
      ReadingServersAreDisciplined(Step(s, moves[0]), moves[1..]);
    }
  }
}
