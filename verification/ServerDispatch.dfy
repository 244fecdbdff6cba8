/**
 What events and functors do to the connections they are about (zing/net/Channel.cpp, `handleEventWithGuard`,
 and the handlers it calls), and where new connections go. All of it is said of steps of the machine.
 */
module ServerDispatch {
  import opened Types
  import opened Interest
  import opened Channel
  import opened ConnState
  import opened Server
  import opened ServerInvariant
  import opened ServerContainment
  import opened ServerSafety
  import opened ServerExposure

  /** The loop runs `a` next. */
  predicate AtFront(s: State, i: nat, a: Act) {
    i < |s.loops| && s.loops[i].agenda != [] && s.loops[i].agenda[0] == a
  }

  /** The step leaves all connections as they are. */
  predicate SamePeers(s: State, r: State) { r.peers == s.peers && r.connections == s.connections }

  /** The step closes the connection, and no other. */
  ghost predicate Closes(s: State, r: State, c: nat)
    requires c in s.peers
  {
    && c in r.peers && r.connections == s.connections
    && r.peers[c].conn.state == Disconnected && r.peers[c].closed == s.peers[c].closed + 1
    && r.peers[c].conn.sent == s.peers[c].conn.sent && r.peers[c].conn.output == s.peers[c].conn.output
    && r.peers == s.peers[c := r.peers[c]]
  }

  /** `poll` hands the loop the reported events in order, and `activeChannels_` has just their channels, against
      which `removeChannel` asserts. */
  lemma PollActs(s: State, i: nat, ready: seq<Act>)
    requires Shape(s) && Enabled(s, PollReturns(i, ready))
    ensures var r := Step(s, PollReturns(i, ready));
            && SamePeers(s, r) && |r.loops| == |s.loops|
            && r.loops[i].phase == Handling && r.loops[i].agenda == ready && r.loops[i].pending == s.loops[i].pending
            && (forall c :: c in r.loops[i].active <==> exists a :: a in ready && a.Event? && a.conn == c)
  {
    hide ConnOk, Placed;
    forall c | exists a :: a in ready && a.Event? && a.conn == c ensures c in Conns(ready) {
      var a :| a in ready && a.Event? && a.conn == c;
      var k :| 0 <= k < |ready| && ready[k] == a;
      assert ready[k].conn in Conns(ready);
    }
    forall c | c in Conns(ready) ensures exists a :: a in ready && a.Event? && a.conn == c {
      var k :| 0 <= k < |ready| && ready[k].Event? && ready[k].conn == c;
      assert ready[k] in ready;
    }
  }

  // ---------------------------------------------------------------- one stage of an event

  /** A hang-up with nothing to read closes the connection; any other report leaves it to the next stages. */
  lemma CloseStage(s: State, i: nat, c: nat, revents: Mask, o: Oracle)
    requires Core(s) && Enabled(s, Work(i, o)) && AtFront(s, i, Event(c, revents, AtClose))
    ensures var r := Step(s, Work(i, o));
            && c in s.peers && (if HUP in revents && IN !in revents then Closes(s, r, c) else SamePeers(s, r))
            && |r.loops| == |s.loops| && r.loops[i].agenda ==
                 (if HUP in revents && IN !in revents then [CloseCallback(c)] else [])
                 + ([Event(c, revents, AtRead)] + s.loops[i].agenda[1..])
  {
    hide ConnOk, PeerOk;
    var a := s.loops[i].agenda[0];
    assert Placed(s, i, a) && LoopOk(s, i) && EventOk(s, a);
  }

  /** Something to read, if there is nothing, means that the peer is gone. */
  lemma ReadStage(s: State, i: nat, c: nat, revents: Mask, o: Oracle)
    requires Core(s) && Enabled(s, Work(i, o)) && AtFront(s, i, Event(c, revents, AtRead))
    ensures var r := Step(s, Work(i, o));
            && c in s.peers
            && (if (IN in revents || PRI in revents || RDHUP in revents) && o.readResult == 0 then Closes(s, r, c)
                else SamePeers(s, r))
            && |r.loops| == |s.loops| && r.loops[i].agenda ==
                 (if (IN in revents || PRI in revents || RDHUP in revents) && o.readResult == 0 then [CloseCallback(c)] else [])
                 + ([Event(c, revents, AtWrite)] + s.loops[i].agenda[1..])
  {
    hide ConnOk, PeerOk;
    var a := s.loops[i].agenda[0];
    assert Placed(s, i, a) && LoopOk(s, i) && EventOk(s, a);
    assert CallsRead(revents) <==> IN in revents || PRI in revents || RDHUP in revents by { ReadFlags(revents); }
    if CallsRead(revents) { ReadMeansLive(s, a); }
  }

  lemma ReadFlags(revents: Mask)
    ensures CallsRead(revents) <==> IN in revents || PRI in revents || RDHUP in revents
  {
    assert IN in revents ==> IN in revents * {IN, PRI, RDHUP};
    assert PRI in revents ==> PRI in revents * {IN, PRI, RDHUP};
    assert RDHUP in revents ==> RDHUP in revents * {IN, PRI, RDHUP};
    if CallsRead(revents) { var f :| f in revents * {IN, PRI, RDHUP}; }
  }

  /** A writable event writes what waits: exactly what the kernel takes moves from the buffer to it, and the write
      that takes the last byte sends the FIN of a shutdown. Without it, nothing is written. */
  lemma WriteStage(s: State, i: nat, c: nat, revents: Mask, o: Oracle)
    requires Core(s) && Enabled(s, Work(i, o)) && AtFront(s, i, Event(c, revents, AtWrite))
    ensures var r := Step(s, Work(i, o));
            && c in s.peers && c in r.peers && r.connections == s.connections && r.peers == s.peers[c := r.peers[c]]
            && (var p, q := s.peers[c].conn, r.peers[c].conn;
                if OUT in revents && Live(p) && p.output != [] && o.write.Wrote? && o.write.n > 0 then
                  && q.sent == p.sent + p.output[..o.write.n] && q.output == p.output[o.write.n..]
                  && q.state == p.state && q.accepted == p.accepted
                  && q.fins == (if q.output == [] && p.state == Disconnecting then [|p.accepted|] else p.fins)
                else q == p)
  {
    hide LoopOk, PeerOk, ConnOk, HandleWrite;
    var a := s.loops[i].agenda[0];
    assert Placed(s, i, a);
    WriteOutcome(s.peers[c].conn, o.write);
  }

  lemma WriteOutcome(p: Conn, w: WriteResult)
    requires ConnOk(p) && Possible(w, |p.output|)
    ensures var q := HandleWrite(p, w).conn;
            if Live(p) && p.output != [] && w.Wrote? && w.n > 0 then
              && q.sent == p.sent + p.output[..w.n] && q.output == p.output[w.n..]
              && q.state == p.state && q.accepted == p.accepted
              && q.fins == (if q.output == [] && p.state == Disconnecting then [|p.accepted|] else p.fins)
            else q == p
  {
    MaskAlgebra(p.channel.events);
  }

  // ---------------------------------------------------------------- functors, calls and new connections

  /** The functor that `forceClose` queues closes the connection, unless something else has. */
  lemma ForceCloseActs(s: State, i: nat, c: nat, o: Oracle)
    requires Core(s) && Enabled(s, Work(i, o)) && AtFront(s, i, ForceCloseFunctor(c))
    ensures c in s.peers
    ensures if Live(s.peers[c].conn) then Closes(s, Step(s, Work(i, o)), c) else SamePeers(s, Step(s, Work(i, o)))
  {
    hide ConnOk, PeerOk, LoopOk;
    assert Placed(s, i, s.loops[i].agenda[0]);
  }

  /** `forceClose` on a connection that is up queues that functor on the connection's loop. */
  lemma ForceCloseQueues(s: State, c: nat)
    requires Core(s) && Enabled(s, Api(c, ForceClose)) && Live(s.peers[c].conn)
    ensures var r, h := Step(s, Api(c, ForceClose)), s.peers[c].home;
            && c in r.peers && r.peers[c].home == h && h < |r.loops| && Live(r.peers[c].conn)
            && r.loops[h].pending == s.loops[h].pending + [ForceCloseFunctor(c)]
  {
    hide ConnOk, PeerOk, LoopOk, Placed;
    assert AsActs(c, [ForceCloseInLoop]) == [ForceCloseFunctor(c)];
  }

  /** The loops that `getNextLoop` gives out: the base loop if there is no other, and otherwise the I/O loops
      in turn. */
  predicate IsNextHome(s: State, home: nat, next: nat) {
    if |s.loops| == 1 then home == 0 && next == s.next
    else home == s.next + 1 && next == (s.next + 1) % (|s.loops| - 1)
  }

  /** An accepted connection gets the next number and the next loop in turn, joins the map, and is established on
      its loop, at once if that is the base loop. Nothing else changes, and without a connection nothing does. */
  lemma AcceptActs(s: State, i: nat, o: Oracle)
    requires Core(s) && Enabled(s, Work(i, o)) && AtFront(s, i, Accept)
    ensures var r, id := Step(s, Work(i, o)), s.nextConnId;
            && i == 0 && |r.loops| == |s.loops|
            && (if o.accepted then
                  && id !in s.peers && id in r.peers && r.peers == s.peers[id := r.peers[id]]
                  && r.nextConnId == id + 1 && r.connections == s.connections + {id}
                  && IsNextHome(s, r.peers[id].home, r.next)
                  && (if r.peers[id].home == 0 then r.peers[id].established == 1
                      else Establish(id) in r.loops[r.peers[id].home].pending)
                else SamePeers(s, r) && r.next == s.next && r.nextConnId == s.nextConnId)
  {
    hide ConnOk, PeerOk, LoopOk;
    assert Placed(s, i, Accept);
    PopKeepsShape(s, i);
    RoundRobin(s);
  }

  lemma RoundRobin(s: State)
    requires Shape(s)
    ensures IsNextHome(s, NextLoop(s).0, NextLoop(s).1)
  {}

  /** The functor that establishes a connection has it up and watched for reading. */
  lemma EstablishActs(s: State, i: nat, c: nat, o: Oracle)
    requires Core(s) && Enabled(s, Work(i, o)) && AtFront(s, i, Establish(c))
    ensures var r := Step(s, Work(i, o));
            && c in s.peers && c in r.peers && r.connections == s.connections && r.peers == s.peers[c := r.peers[c]]
            && r.peers[c].conn.state == Connected && r.peers[c].established == s.peers[c].established + 1
            && r.peers[c].conn.channel.Watched() && r.peers[c].conn.channel.IsReading()
  {
    hide LoopOk, Due, ConnOk;
    assert Placed(s, i, s.loops[i].agenda[0]);
    assert PeerOk(s, c);
    DueIsMember(s.loops[i], Establish(c));
    UpAndReading(s.peers[c].conn);
  }

  lemma UpAndReading(conn: Conn)
    requires ConnOk(conn) && conn.state == Connecting
    ensures var d := ConnectEstablished(conn); d.state == Connected && d.channel.Watched() && d.channel.IsReading()
  {
    MaskAlgebra(conn.channel.events);
  }

  // ---------------------------------------------------------------- a buffer is drained

  /** What the loop does next writes `n` bytes. */
  function Writing(n: nat): Oracle { Oracle(false, false, None, 1, Wrote(n)) }

  lemma LiveWriterIsWatched(conn: Conn)
    requires ConnOk(conn) && Live(conn) && conn.output != []
    ensures KernelMayReport(conn.channel, {OUT})
  {
    assert OUT in conn.channel.events * WRITE_EVENT by {
      var f :| f in conn.channel.events * WRITE_EVENT;
    }
  }

  lemma WritablePoll(s: State, c: nat)
    requires Core(s) && c in s.peers && Live(s.peers[c].conn) && s.peers[c].conn.output != []
    requires s.loops[s.peers[c].home].phase == Polling
    ensures var i := s.peers[c].home;
            var m := PollReturns(i, [Event(c, {OUT}, AtClose)]);
            && Enabled(s, m) && Core(Step(s, m)) && Step(s, m).peers == s.peers
            && AtFront(Step(s, m), i, Event(c, {OUT}, AtClose)) && Step(s, m).loops[i].phase == Handling
  {
    hide PeerOk, LoopOk;
    LiveWriterIsWatched(s.peers[c].conn);
    hide ConnOk;
    var m := PollReturns(s.peers[c].home, [Event(c, {OUT}, AtClose)]);
    assert m.ready[0] == Event(c, {OUT}, AtClose);
    StepKeepsCore(s, m);
  }

  /** Being writable alone, the event passes the stages for closing and reading. */
  lemma PassingStage(s: State, i: nat, c: nat, stage: Stage, n: nat)
    requires Core(s) && Enabled(s, Work(i, Writing(n))) && stage != AtWrite && AtFront(s, i, Event(c, {OUT}, stage))
    ensures var r := Step(s, Work(i, Writing(n)));
            && Core(r) && r.peers == s.peers && |r.loops| == |s.loops| && r.loops[i].phase == s.loops[i].phase
            && AtFront(r, i, Event(c, {OUT}, if stage == AtClose then AtRead else AtWrite))
  {
    hide ConnOk, PeerOk, LoopOk, Step, Enabled, Closes;
    var m := Work(i, Writing(n));
    StepKeepsCore(s, m);
    PhaseKept(s, i, m.oracle);
    if stage == AtClose { CloseStage(s, i, c, {OUT}, m.oracle); } else { ReadStage(s, i, c, {OUT}, m.oracle); }
  }

  lemma CanWrite(s: State, i: nat, c: nat, stage: Stage)
    requires Core(s) && c in s.peers && AtFront(s, i, Event(c, {OUT}, stage)) && s.loops[i].phase == Handling
    ensures Enabled(s, Work(i, Writing(|s.peers[c].conn.output|)))
  {
    hide ConnOk, PeerOk, LoopOk;
    assert Placed(s, i, s.loops[i].agenda[0]);
  }

  lemma PhaseKept(s: State, i: nat, o: Oracle)
    requires Shape(s) && Enabled(s, Work(i, o))
    ensures var r := Step(s, Work(i, o)); |r.loops| == |s.loops| && r.loops[i].phase == s.loops[i].phase
  {
    WorkOnlyRan(s, i, o);
    hide RunAct;
  }

  /** A connection with bytes waiting, whose loop polls, is drained by one writable event, and the FIN of a
      shutdown that was asked for follows the last byte. */
  lemma WritableEventDrains(s: State, c: nat) returns (moves: seq<Move>)
    requires Core(s) && c in s.peers && Live(s.peers[c].conn) && s.peers[c].conn.output != []
    requires s.loops[s.peers[c].home].phase == Polling
    ensures |moves| == 4 && moves[0] == PollReturns(s.peers[c].home, [Event(c, {OUT}, AtClose)])
    ensures ValidRun(s, moves) && c in After(s, moves).peers
    ensures var p, q := s.peers[c].conn, After(s, moves).peers[c].conn;
            && q.output == [] && q.sent == p.accepted && q.state == p.state
            && (p.shutdownAsked ==> q.fins == [|p.accepted|])
  {
    hide ConnOk, PeerOk, LoopOk, Step, Enabled, Core, Shape;
    var p, i := s.peers[c].conn, s.peers[c].home;
    WaitingIsAccepted(s, c);
    var m0, m := PollReturns(i, [Event(c, {OUT}, AtClose)]), Work(i, Writing(|p.output|));
    CoreHasShape(s);
    WritablePoll(s, c);
    var s1 := Step(s, m0);
    CoreHasShape(s1);
    CanWrite(s1, i, c, AtClose);
    PassingStage(s1, i, c, AtClose, |p.output|);
    var s2 := Step(s1, m);
    CoreHasShape(s2);
    CanWrite(s2, i, c, AtRead);
    PassingStage(s2, i, c, AtRead, |p.output|);
    var s3 := Step(s2, m);
    CoreHasShape(s3);
    CanWrite(s3, i, c, AtWrite);
    WriteStage(s3, i, c, {OUT}, m.oracle);
    var s4 := Step(s3, m);
    assert ValidRun(s4, []) && After(s4, []) == s4;
    Prepend(s3, m, []);
    Prepend(s2, m, [m] + []);
    Prepend(s1, m, [m] + ([m] + []));
    Prepend(s, m0, [m] + ([m] + ([m] + [])));
    moves := [m0] + ([m] + ([m] + ([m] + [])));
    assert p.output[|p.output|..] == [] && p.output[..|p.output|] == p.output;
  }

  lemma WaitingIsAccepted(s: State, c: nat)
    requires Core(s) && c in s.peers && Live(s.peers[c].conn)
    ensures var p := s.peers[c].conn; p.accepted == p.sent + p.output && (p.shutdownAsked ==> p.state == Disconnecting)
  {
    hide PeerOk, LoopOk;
    assert ConnOk(s.peers[c].conn);
  }

  // ---------------------------------------------------------------- a forced close is carried out

  /** The connection is down, or the functor that closes it is due. */
  ghost predicate Slated(s: State, c: nat) {
    && c in s.peers && s.peers[c].home < |s.loops|
    && (s.peers[c].conn.state == Disconnected ||
        (Live(s.peers[c].conn) &&
         (ForceCloseFunctor(c) in s.loops[s.peers[c].home].agenda || ForceCloseFunctor(c) in s.loops[s.peers[c].home].pending)))
  }

  /** No connection goes back to where it was not yet up. */
  lemma NotUnestablished(s: State, m: Move, c: nat)
    requires Core(s) && Enabled(s, m) && c in s.peers && s.peers[c].conn.state != Connecting
    ensures c in Step(s, m).peers && Step(s, m).peers[c].home == s.peers[c].home
    ensures Step(s, m).peers[c].conn.state != Connecting
  {
    hide ConnOk, PeerOk, LoopOk, RunAct, ApiReply;
    match m {
      case Work(i, o) => WorkNotUnestablished(s, i, o, c);
      case Api(d, call) => ApiFacts(s.peers[d].conn, call);
      case _ =>
    }
  }

  lemma WorkNotUnestablished(s: State, i: nat, o: Oracle, c: nat)
    requires Core(s) && Enabled(s, Work(i, o)) && c in s.peers && s.peers[c].conn.state != Connecting
    ensures var r := RunAct(s, i, o); c in r.peers && r.peers[c].home == s.peers[c].home && r.peers[c].conn.state != Connecting
  {
    hide ConnOk, PeerOk, LoopOk, EventStage, NewConnection;
    var a, s1 := s.loops[i].agenda[0], Pop(s, i);
    assert Placed(s, i, a);
    PopKeepsShape(s, i);
    match a {
      case Event(_, _, _) => EventNotUnestablished(s1, i, a, o, c);
      case Accept => if o.accepted { CreationKeepsUp(s1, o, c); }
      case _ =>
    }
  }

  lemma EventNotUnestablished(s: State, i: nat, a: Act, o: Oracle, c: nat)
    requires i < |s.loops| && a.Event? && a.conn in s.peers && s.peers[a.conn].home < |s.loops| && c in s.peers
    requires Possible(o.write, |s.peers[a.conn].conn.output|) && s.peers[c].conn.state != Connecting
    requires ConnOk(s.peers[a.conn].conn)
    ensures var r := EventStage(s, i, a, o); c in r.peers && r.peers[c].home == s.peers[c].home && r.peers[c].conn.state != Connecting
  {
    hide ConnOk, HandleWrite, Answer;
    WriteFacts(s.peers[a.conn].conn, o.write);
    if a.stage == AtWrite && CallsWrite(a.revents) {
      AnswerKeepsUp(s, a.conn, HandleWrite(s.peers[a.conn].conn, o.write), c);
    }
  }

  lemma AnswerKeepsUp(s: State, d: nat, r: Reply, c: nat)
    requires c in s.peers && d in s.peers && s.peers[d].home < |s.loops| && s.peers[c].conn.state != Connecting
    requires r.conn.state == Connecting <==> s.peers[d].conn.state == Connecting
    ensures var t := Answer(s, d, r);
            c in t.peers && t.peers[c].home == s.peers[c].home && t.peers[c].conn.state != Connecting
  {}

  lemma StepKeepsSlated(s: State, m: Move, c: nat)
    requires Core(s) && Enabled(s, m) && Slated(s, c)
    ensures Slated(Step(s, m), c)
  {
    hide ConnOk, PeerOk, RunAct, ApiReply;
    NotUnestablished(s, m, c);
    if s.peers[c].conn.state == Disconnected {
      StepKeepsDown(s, m, c);
    } else {
      match m {
        case Work(i, o) => WorkKeepsSlated(s, i, o, c);
        case _ => assert LoopOk(s, s.peers[c].home);
      }
    }
  }

  lemma WorkKeepsSlated(s: State, i: nat, o: Oracle, c: nat)
    requires Core(s) && Enabled(s, Work(i, o)) && Slated(s, c) && Live(s.peers[c].conn)
    ensures var r, h := Step(s, Work(i, o)), s.peers[c].home;
            |r.loops| == |s.loops| &&
            ((c in r.peers && r.peers[c].conn.state == Disconnected)
             || ForceCloseFunctor(c) in r.loops[h].agenda || ForceCloseFunctor(c) in r.loops[h].pending)
  {
    hide ConnOk, PeerOk, LoopOk, RunAct;
    WorkOnlyRan(s, i, o);
    var l := s.loops[i];
    assert l.agenda == [l.agenda[0]] + l.agenda[1..];
    if l.agenda[0] == ForceCloseFunctor(c) { ForceCloseActs(s, i, c, o); }
  }

  lemma {:induction false} RunKeepsSlated(s: State, moves: seq<Move>, c: nat)
    requires Inv(s) && ValidRun(s, moves) && Disciplined(s, moves) && Slated(s, c)
    ensures Slated(After(s, moves), c)
    decreases |moves|
  {
    hide AllContained, Core, Step, Shape, Enabled, Slated, RiskyClose;
    if moves != [] {
      StepKeepsInv(s, moves[0]);
      StepKeepsSlated(s, moves[0], c);
      RunKeepsSlated(Step(s, moves[0]), moves[1..], c);
    }
  }

  /** `forceClose` on a connection that is up is carried out: whatever else happens, once all loops have run dry
      the connection has been closed, erased from the map and destroyed, once each. */
  lemma ForceCloseCloses(s: State, c: nat, moves: seq<Move>)
    requires Inv(s) && Enabled(s, Api(c, ForceClose)) && Live(s.peers[c].conn)
    requires ValidRun(Step(s, Api(c, ForceClose)), moves) && Disciplined(Step(s, Api(c, ForceClose)), moves)
    requires RunDry(After(Step(s, Api(c, ForceClose)), moves))
    ensures var r := After(Step(s, Api(c, ForceClose)), moves);
            c in r.peers && r.peers[c].closed == r.peers[c].erased == r.peers[c].destroyed == 1 && c !in r.connections
  {
    hide Step, Enabled, ValidRun, Disciplined, ConnOk;
    var s1 := Step(s, Api(c, ForceClose));
    StepKeepsInv(s, Api(c, ForceClose)) by { assert Closing(s, Api(c, ForceClose)).None?; }
    ForceCloseQueues(s, c);
    RunKeepsSlated(s1, moves, c);
    RunKeepsInv(s1, moves);
    var r := After(s1, moves);
    assert r.loops[r.peers[c].home].agenda == [] && r.loops[r.peers[c].home].pending == [];
    assert PeerOk(r, c);
    DryBooks(r, c);
  }
}
