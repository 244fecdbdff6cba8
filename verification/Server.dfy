/**
 The life of every connection of a TcpServer, across its base loop and any number of I/O loops
 (zing/net/TcpServer.cpp, zing/net/TcpConnection.cpp, zing/net/EventLoop.cpp, zing/net/Channel.cpp).

 A state machine. Each loop is one thread; its remaining work is an agenda, in order: while it handles
 events, the rest of `activeChannels_`; while it runs functors, the rest of the swapped vector; and, on
 top, what a handler that called into user code still has to do. A step runs the front of one agenda, so
 the loops interleave freely; user code on a loop's thread may call the connections of that loop between
 any two steps. `fault` records a failed `assert`.
 */
module Server {
  import opened Types
  import opened Interest
  import opened Channel
  import opened ConnState

  datatype Stage = AtClose | AtRead | AtWrite

  datatype Act =
    | Accept                                              // Acceptor::handleRead
    | Event(conn: nat, revents: Mask, stage: Stage)       // Channel::handleEventWithGuard, from a stage on
    | CloseCallback(conn: nat)                            // the last line of handleClose
    | Establish(conn: nat)                                // functor: connectEstablished
    | RemoveInLoop(conn: nat)                             // functor: removeConnectionInLoop
    | Destroy(conn: nat)                                  // functor: connectDestroyed
    | ForceCloseFunctor(conn: nat)                        // functor: forceCloseInLoop
    | Notify(conn: nat)                                   // functor: a user's write callback

  datatype Phase = Polling | Handling | Functors

  /** `active` is `activeChannels_`, as connections; the loop's own channels are left out. */
  datatype Loop = Loop(phase: Phase, agenda: seq<Act>, active: set<nat>, pending: seq<Act>)

  /** A connection object, its loop, and how often each event of its life has happened. */
  datatype Peer = Peer(home: nat, conn: Conn, established: nat, closed: nat, erased: nat, destroyed: nat)

  /** Loop 0 is the base loop, the others are the I/O loops; `connections` is `connections_`, by number. */
  datatype State = State(
    backend: Backend,
    loops: seq<Loop>,
    next: nat,
    nextConnId: nat,
    connections: set<nat>,
    peers: map<nat, Peer>,
    fault: bool)

  const IDLE: Loop := Loop(Polling, [], {}, [])

  predicate Initial(s: State) {
    && |s.loops| >= 1
    && (forall l :: l in s.loops ==> l == IDLE)
    && s.next == 0 && s.nextConnId == 1 && s.connections == {} && s.peers == map[] && !s.fault
  }

  // ---------------------------------------------------------------- steps

  /** What the outside world answers during one step. */
  datatype Oracle = Oracle(
    accepted: bool,
    hasWriteComplete: bool,
    highWater: Option<nat>,
    readResult: int,
    write: WriteResult)

  datatype ApiCall =
    | Send(data: bytes, r: WriteResult)
    | Shutdown
    | ForceClose
    | ForceCloseWithDelay
    | StartRead
    | StopRead

  datatype Move =
    | PollReturns(loop: nat, ready: seq<Act>)     // poll returns these
    | Work(loop: nat, oracle: Oracle)      // run the front of the agenda
    | NextPhase(loop: nat)                 // the agenda is done
    | Api(conn: nat, call: ApiCall)        // user code on the connection's thread

  predicate IsFunctor(a: Act) {
    a.Establish? || a.RemoveInLoop? || a.Destroy? || a.ForceCloseFunctor? || a.Notify?
  }

  /** The act is about a known connection and is on the loop that has to run it. */
  predicate Placed(s: State, i: nat, a: Act) {
    match a
    case Accept => i == 0
    case RemoveInLoop(c) => i == 0 && c in s.peers
    case _ => a.conn in s.peers && s.peers[a.conn].home == i
  }

  predicate Shape(s: State) {
    && |s.loops| >= 1
    && (|s.loops| > 1 ==> s.next < |s.loops| - 1)
    && (forall c :: c in s.peers ==> s.peers[c].home < |s.loops| && ConnOk(s.peers[c].conn))
    && (forall i :: 0 <= i < |s.loops| ==>
          && (forall a :: a in s.loops[i].agenda ==> Placed(s, i, a))
          && (forall a :: a in s.loops[i].pending ==> Placed(s, i, a)))
  }

  predicate ReadyOk(s: State, i: nat, ready: seq<Act>) {
    && (forall k :: 0 <= k < |ready| ==>
          match ready[k]
          case Accept => i == 0
          case Event(c, revents, stage) =>
            && stage == AtClose && c in s.peers && s.peers[c].home == i
            && KernelMayReport(s.peers[c].conn.channel, revents)
            && !UrgentAfterHangup(revents)
          case _ => false)
    && (forall j, k :: 0 <= j < k < |ready| && ready[j].Event? && ready[k].Event? ==>
          ready[j].conn != ready[k].conn)
  }

  predicate Enabled(s: State, m: Move)
    requires Shape(s)
  {
    !s.fault &&
    match m
    case PollReturns(i, ready) => i < |s.loops| && s.loops[i].phase == Polling && ReadyOk(s, i, ready)
    case Work(i, oracle) =>
      && i < |s.loops| && s.loops[i].phase != Polling && s.loops[i].agenda != []
      && (var a := s.loops[i].agenda[0];
          assert Placed(s, i, a);
          a.Event? ==> Possible(oracle.write, |s.peers[a.conn].conn.output|))
    case NextPhase(i) => i < |s.loops| && s.loops[i].phase != Polling && s.loops[i].agenda == []
    case Api(c, call) =>
      && c in s.peers && s.loops[s.peers[c].home].phase != Polling
      && (call.Send? ==> Possible(call.r, |call.data|))
      && (call.StartRead? || call.StopRead? ==> Live(s.peers[c].conn))
  }

  function SetLoop(s: State, i: nat, l: Loop): State
    requires i < |s.loops|
  {
    s.(loops := s.loops[i := l])
  }

  function SetPeer(s: State, c: nat, p: Peer): State {
    s.(peers := s.peers[c := p])
  }

  function Fail(s: State): State { s.(fault := true) }

  /** `queueInLoop`, from any thread. */
  function QueueInLoop(s: State, i: nat, functors: seq<Act>): State
    requires i < |s.loops|
  {
    SetLoop(s, i, s.loops[i].(pending := s.loops[i].pending + functors))
  }

  function AsActs(c: nat, queued: seq<Notice>): seq<Act> {
    seq(|queued|, k requires 0 <= k < |queued| => if queued[k].ForceCloseInLoop? then ForceCloseFunctor(c) else Notify(c))
  }

  /** Apply a connection operation that may queue functors on its own loop. */
  function Answer(s: State, c: nat, reply: Reply): State
    requires c in s.peers && s.peers[c].home < |s.loops|
  {
    QueueInLoop(SetPeer(s, c, s.peers[c].(conn := reply.conn)), s.peers[c].home, AsActs(c, reply.queued))
  }

  function NextLoop(s: State): (nat, nat) {
    if |s.loops| == 1 then (0, s.next)
    else (1 + s.next, if s.next + 1 >= |s.loops| - 1 then 0 else s.next + 1)
  }

  /** `TcpServer::newConnection`, on the base loop. Running `connectEstablished` inline is the case of a
      server without I/O threads. */
  function NewConnection(s: State, o: Oracle): State
    requires Shape(s)
  {
    var (home, next) := NextLoop(s);
    var id := s.nextConnId;
    var created := Peer(home, NewConn(s.backend, o.hasWriteComplete, o.highWater), 0, 0, 0, 0);
    var s1 := s.(next := next, nextConnId := id + 1, connections := s.connections + {id},
                 peers := s.peers[id := created]);
    if home == 0 then EstablishNow(s1, id) else QueueInLoop(s1, home, [Establish(id)])
  }

  function EstablishNow(s: State, c: nat): State
    requires c in s.peers
  {
    var p := s.peers[c];
    if p.conn.state != Connecting then Fail(s)
    else SetPeer(s, c, p.(conn := ConnectEstablished(p.conn), established := p.established + 1))
  }

  /** `handleClose`: its callbacks come next on the agenda of the loop running it. */
  function Close(s: State, i: nat, c: nat): State
    requires c in s.peers && i < |s.loops|
  {
    var p := s.peers[c];
    if !Live(p.conn) then Fail(s)
    else
      var s1 := SetPeer(s, c, p.(conn := HandleClose(p.conn), closed := p.closed + 1));
      SetLoop(s1, i, s.loops[i].(agenda := [CloseCallback(c)] + s.loops[i].agenda))
  }

  function RemoveNow(s: State, c: nat): State
    requires c in s.peers && s.peers[c].home < |s.loops|
  {
    if c !in s.connections then Fail(s)
    else
      var p := s.peers[c];
      var s1 := SetPeer(s.(connections := s.connections - {c}), c, p.(erased := p.erased + 1));
      QueueInLoop(s1, p.home, [Destroy(c)])
  }

  /** `connectDestroyed`, with the assertions of `Channel::remove` and `EventLoop::removeChannel`. */
  function DestroyNow(s: State, i: nat, c: nat): State
    requires c in s.peers && i < |s.loops|
  {
    var p := s.peers[c];
    if || !BeforeRemove(p.conn).channel.IsNoneEvent()
       || !p.conn.channel.Added()
       || (s.loops[i].phase == Handling && c in s.loops[i].active)
    then Fail(s)
    else SetPeer(s, c, p.(conn := ConnectDestroyed(p.conn), destroyed := p.destroyed + 1))
  }

  /** One stage of `handleEventWithGuard`. */
  function EventStage(s: State, i: nat, a: Act, o: Oracle): State
    requires a.Event? && a.conn in s.peers && s.peers[a.conn].home < |s.loops| && i < |s.loops|
    requires Possible(o.write, |s.peers[a.conn].conn.output|)
  {
    var c := a.conn;
    match a.stage
    case AtClose =>
      var s1 := SetLoop(s, i, s.loops[i].(agenda := [a.(stage := AtRead)] + s.loops[i].agenda));
      if CallsClose(a.revents) then Close(s1, i, c) else s1
    case AtRead =>
      var s1 := SetLoop(s, i, s.loops[i].(agenda := [a.(stage := AtWrite)] + s.loops[i].agenda));
      if CallsRead(a.revents) && o.readResult == 0 then Close(s1, i, c) else s1
    case AtWrite =>
      if CallsWrite(a.revents) then Answer(s, c, HandleWrite(s.peers[c].conn, o.write)) else s
  }

  function Pop(s: State, i: nat): State
    requires i < |s.loops| && s.loops[i].agenda != []
  {
    SetLoop(s, i, s.loops[i].(agenda := s.loops[i].agenda[1..]))
  }

  function RunAct(s: State, i: nat, o: Oracle): State
    requires Shape(s) && Enabled(s, Work(i, o))
  {
    var a := s.loops[i].agenda[0];
    assert Placed(s, i, a);
    var s1 := Pop(s, i);
    match a
    case Accept => (PopKeepsShape(s, i); if o.accepted then NewConnection(s1, o) else s1)
    case Event(_, _, _) => EventStage(s1, i, a, o)
    case CloseCallback(c) => if i == 0 then RemoveNow(s1, c) else QueueInLoop(s1, 0, [RemoveInLoop(c)])
    case Establish(c) => EstablishNow(s1, c)
    case RemoveInLoop(c) => RemoveNow(s1, c)
    case Destroy(c) => DestroyNow(s1, i, c)
    case ForceCloseFunctor(c) => if Live(s.peers[c].conn) then Close(s1, i, c) else s1
    case Notify(_) => s1
  }

  function ApiReply(conn: Conn, call: ApiCall): Reply
    requires call.Send? ==> Possible(call.r, |call.data|)
  {
    match call
    case Send(data, r) => ConnState.Send(conn, data, r)
    case Shutdown => Reply(ConnState.Shutdown(conn), [])
    case ForceClose => ConnState.ForceClose(conn)
    case ForceCloseWithDelay => Reply(ConnState.ForceCloseWithDelay(conn), [])
    case StartRead => Reply(StartReadInLoop(conn), [])
    case StopRead => Reply(StopReadInLoop(conn), [])
  }

  function Conns(acts: seq<Act>): set<nat> {
    set k | 0 <= k < |acts| && acts[k].Event? :: acts[k].conn
  }

  function Step(s: State, m: Move): State
    requires Shape(s) && Enabled(s, m)
  {
    match m
    case PollReturns(i, ready) => SetLoop(s, i, Loop(Handling, ready, Conns(ready), s.loops[i].pending))
    case Work(i, o) => RunAct(s, i, o)
    case NextPhase(i) =>
      var l := s.loops[i];
      SetLoop(s, i, if l.phase == Handling then Loop(Functors, l.pending, l.active, [])
                    else Loop(Polling, [], l.active, l.pending))
    case Api(c, call) => Answer(s, c, ApiReply(s.peers[c].conn, call))
  }

  lemma PopKeepsShape(s: State, i: nat)
    requires Shape(s) && i < |s.loops| && s.loops[i].agenda != []
    ensures Shape(Pop(s, i))
  {
    var s1 := Pop(s, i);
    forall j, a | 0 <= j < |s1.loops| && (a in s1.loops[j].agenda || a in s1.loops[j].pending)
      ensures Placed(s1, j, a)
    {
      assert a in s.loops[j].agenda || a in s.loops[j].pending;
      assert Placed(s, j, a);
    }
  }
}
