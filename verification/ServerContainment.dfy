/**
 A connection that is down must not be polled again: when it cannot be, from one state on, whatever happens.
 */
module ServerContainment {
  import opened Types
  import opened Interest
  import opened Channel
  import opened ConnState
  import opened Server
  import opened ServerInvariant

  /** The connection is down. */
  ghost predicate Down(s: State, c: nat) {
    c in s.peers && c < s.nextConnId && s.peers[c].home < |s.loops| && s.peers[c].conn.state == Disconnected
  }

  /** The base loop will destroy the connection, and so unregister its channel, before it polls again. */
  ghost predicate Doomed(s: State, c: nat)
    requires |s.loops| >= 1
  {
    var l := s.loops[0];
    || (l.phase == Handling && (CloseCallback(c) in l.agenda || Destroy(c) in l.pending))
    || (l.phase == Functors && Destroy(c) in l.agenda)
  }

  /** If the kernel still watches the channel of the connection, which is down, that will not matter. */
  ghost predicate Contained(s: State, c: nat)
    requires Down(s, c)
  {
    s.peers[c].conn.channel.Watched() ==>
      s.peers[c].home == 0 && (Doomed(s, c) || (s.fault && s.loops[0].phase != Polling))
  }

  /** The kernel watches the channel, and its loop is polling. */
  ghost predicate Exposed(s: State, c: nat) {
    Down(s, c) && s.peers[c].conn.channel.Watched() && s.loops[s.peers[c].home].phase == Polling
  }

  lemma ContainedIsNotExposed(s: State, c: nat)
    requires Down(s, c) && Contained(s, c)
    ensures !Exposed(s, c)
  {}

  // ---------------------------------------------------------------- a connection that is down stays as it is

  lemma DownIsDeaf(conn: Conn)
    requires ConnOk(conn) && conn.state == Disconnected
    ensures forall r :: Possible(r, |conn.output|) ==> HandleWrite(conn, r) == Reply(conn, [])
    ensures forall call: ApiCall :: (call.Send? ==> Possible(call.r, |call.data|)) && !call.StartRead? && !call.StopRead? ==>
              ApiReply(conn, call) == Reply(conn, [])
  {
    assert !conn.channel.IsWriting();
  }

  /** The connection is as it was, or its channel has been removed. */
  ghost predicate Kept(s: State, s1: State, c: nat)
    requires Down(s, c)
  {
    && Down(s1, c) && s1.peers[c].home == s.peers[c].home
    && (s1.peers[c].conn == s.peers[c].conn || !s1.peers[c].conn.channel.Watched())
  }

  lemma FunctorsKeepDown(s: State, i: nat, d: nat, c: nat)
    requires Down(s, c) && i < |s.loops| && d in s.peers && s.peers[d].home < |s.loops|
    ensures Kept(s, EstablishNow(s, d), c) && Kept(s, Close(s, i, d), c) && Kept(s, RemoveNow(s, d), c)
    ensures Kept(s, DestroyNow(s, i, d), c)
    ensures c != d ==> DestroyNow(s, i, d).peers[c].conn == s.peers[c].conn
    ensures EstablishNow(s, d).peers[c].conn == Close(s, i, d).peers[c].conn == RemoveNow(s, d).peers[c].conn == s.peers[c].conn
  {
    hide HandleClose, ConnectEstablished, ConnOk;
  }

  lemma AnswerKeepsDown(s: State, d: nat, r: Reply, c: nat)
    requires Down(s, c) && d in s.peers && s.peers[d].home < |s.loops|
    requires c == d ==> r.conn == s.peers[c].conn
    ensures Kept(s, Answer(s, d, r), c) && Answer(s, d, r).peers[c].conn == s.peers[c].conn
  {}

  lemma CreationKeepsDown(s: State, o: Oracle, c: nat)
    requires Shape(s) && Down(s, c)
    ensures Kept(s, NewConnection(s, o), c) && NewConnection(s, o).peers[c].conn == s.peers[c].conn
  {
    hide ConnOk, ConnectEstablished;
  }

  lemma EventKeepsDown(s: State, i: nat, a: Act, o: Oracle, c: nat)
    requires Shape(s) && Down(s, c) && i < |s.loops| && a.Event? && a.conn in s.peers
    requires Possible(o.write, |s.peers[a.conn].conn.output|)
    ensures Kept(s, EventStage(s, i, a, o), c) && EventStage(s, i, a, o).peers[c].conn == s.peers[c].conn
  {
    hide Close, Answer, HandleWrite, ConnOk;
    match a.stage {
      case AtClose => FunctorsKeepDown(PushAct(s, i, a.(stage := AtRead)), i, a.conn, c);
      case AtRead => FunctorsKeepDown(PushAct(s, i, a.(stage := AtWrite)), i, a.conn, c);
      case AtWrite =>
        if a.conn == c { DownIsDeaf(s.peers[c].conn); }
        AnswerKeepsDown(s, a.conn, HandleWrite(s.peers[a.conn].conn, o.write), c);
    }
  }

  lemma WorkKeepsDown(s: State, i: nat, o: Oracle, c: nat)
    requires Shape(s) && Enabled(s, Work(i, o)) && Down(s, c)
    ensures var s1 := RunAct(s, i, o);
            Kept(s, s1, c) && (s.loops[i].agenda[0] != Destroy(c) ==> s1.peers[c].conn == s.peers[c].conn)
  {
    hide EventStage, NewConnection, EstablishNow, RemoveNow, DestroyNow, Close, ConnOk;
    var a, s1 := s.loops[i].agenda[0], Pop(s, i);
    assert Placed(s, i, a);
    PopKeepsShape(s, i);
    match a {
      case Accept => if o.accepted { CreationKeepsDown(s1, o, c); }
      case Event(_, _, _) => EventKeepsDown(s1, i, a, o, c);
      case Notify(_) =>
      case _ => FunctorsKeepDown(s1, i, a.conn, c);
    }
  }

  lemma StepKeepsDown(s: State, m: Move, c: nat)
    requires Shape(s) && Enabled(s, m) && Down(s, c)
    ensures Kept(s, Step(s, m), c)
    ensures !(m.Work? && s.loops[m.loop].agenda[0] == Destroy(c)) ==> Step(s, m).peers[c].conn == s.peers[c].conn
  {
    hide RunAct, ConnOk;
    match m {
      case Work(i, o) => WorkKeepsDown(s, i, o, c);
      case Api(d, call) =>
        DownIsDeaf(s.peers[c].conn);
        AnswerKeepsDown(s, d, ApiReply(s.peers[d].conn, call), c);
      case _ =>
    }
  }

  // ---------------------------------------------------------------- what is due stays due

  /** Loop `i` has run the front of its agenda; nothing else that was due has gone. */
  ghost predicate OnlyRan(s: State, s1: State, i: nat)
    requires i < |s.loops| && s.loops[i].agenda != []
  {
    && |s1.loops| == |s.loops|
    && (forall j :: 0 <= j < |s.loops| ==>
          && s1.loops[j].phase == s.loops[j].phase
          && (forall a :: a in s.loops[j].pending ==> a in s1.loops[j].pending)
          && (j != i ==> s1.loops[j].agenda == s.loops[j].agenda))
    && (forall a :: a in s.loops[i].agenda[1..] ==> a in s1.loops[i].agenda)
  }

  /** The same for what a handler does after the front has been taken off. */
  ghost predicate OnlyAdded(s: State, s1: State, i: nat)
    requires i < |s.loops|
  {
    && |s1.loops| == |s.loops|
    && (forall j :: 0 <= j < |s.loops| ==>
          && s1.loops[j].phase == s.loops[j].phase
          && (forall a :: a in s.loops[j].pending ==> a in s1.loops[j].pending)
          && (j != i ==> s1.loops[j].agenda == s.loops[j].agenda))
    && (forall a :: a in s.loops[i].agenda ==> a in s1.loops[i].agenda)
  }

  lemma QueueAdds(s: State, s1: State, k: nat, functors: seq<Act>, i: nat)
    requires i < |s.loops| && k < |s.loops| && s1.loops == s.loops[k := s.loops[k].(pending := s.loops[k].pending + functors)]
    ensures OnlyAdded(s, s1, i)
  {}

  lemma PushAdds(s: State, s1: State, x: Act, i: nat)
    requires i < |s.loops| && s1.loops == s.loops[i := s.loops[i].(agenda := [x] + s.loops[i].agenda)]
    ensures OnlyAdded(s, s1, i)
  {}

  lemma NothingAdds(s: State, s1: State, i: nat)
    requires i < |s.loops| && s1.loops == s.loops
    ensures OnlyAdded(s, s1, i)
  {}

  lemma RemoveAdds(s: State, i: nat, d: nat)
    requires i < |s.loops| && d in s.peers && s.peers[d].home < |s.loops|
    ensures OnlyAdded(s, RemoveNow(s, d), i)
    ensures RemoveNow(s, d).fault || Destroy(d) in RemoveNow(s, d).loops[s.peers[d].home].pending
  {
    if d in s.connections {
      QueueAdds(s, RemoveNow(s, d), s.peers[d].home, [Destroy(d)], i);
    } else {
      NothingAdds(s, RemoveNow(s, d), i);
    }
  }

  lemma CloseAdds(s: State, i: nat, d: nat)
    requires i < |s.loops| && d in s.peers
    ensures OnlyAdded(s, Close(s, i, d), i)
  {
    hide HandleClose;
    if Live(s.peers[d].conn) {
      PushAdds(s, Close(s, i, d), CloseCallback(d), i);
    } else {
      NothingAdds(s, Close(s, i, d), i);
    }
  }

  lemma CreationAdds(s: State, o: Oracle, i: nat)
    requires Shape(s) && i < |s.loops|
    ensures OnlyAdded(s, NewConnection(s, o), i)
  {
    hide ConnOk, Placed, ConnectEstablished, OnlyAdded;
    var (home, next) := NextLoop(s);
    if home == 0 {
      NothingAdds(s, NewConnection(s, o), i);
    } else {
      QueueAdds(s, NewConnection(s, o), home, [Establish(s.nextConnId)], i);
    }
  }

  lemma Both(s: State, s1: State, s2: State, i: nat)
    requires i < |s.loops| && OnlyAdded(s, s1, i) && OnlyAdded(s1, s2, i)
    ensures OnlyAdded(s, s2, i)
  {}

  lemma EventAdds(s: State, i: nat, a: Act, o: Oracle)
    requires i < |s.loops| && a.Event? && a.conn in s.peers && s.peers[a.conn].home < |s.loops|
    requires Possible(o.write, |s.peers[a.conn].conn.output|)
    ensures OnlyAdded(s, EventStage(s, i, a, o), i)
  {
    hide OnlyAdded, Close, HandleWrite, ConnOk;
    match a.stage {
      case AtClose =>
        var s1 := PushAct(s, i, a.(stage := AtRead));
        PushAdds(s, s1, a.(stage := AtRead), i);
        CloseAdds(s1, i, a.conn);
        Both(s, s1, Close(s1, i, a.conn), i);
      case AtRead =>
        var s1 := PushAct(s, i, a.(stage := AtWrite));
        PushAdds(s, s1, a.(stage := AtWrite), i);
        CloseAdds(s1, i, a.conn);
        Both(s, s1, Close(s1, i, a.conn), i);
      case AtWrite =>
        var r := HandleWrite(s.peers[a.conn].conn, o.write);
        if CallsWrite(a.revents) {
          QueueAdds(s, Answer(s, a.conn, r), s.peers[a.conn].home, AsActs(a.conn, r.queued), i);
        } else {
          NothingAdds(s, s, i);
        }
    }
  }

  lemma PopThenAdd(s: State, s1: State, i: nat)
    requires i < |s.loops| && s.loops[i].agenda != [] && OnlyAdded(Pop(s, i), s1, i)
    ensures OnlyRan(s, s1, i)
  {}

  lemma WorkOnlyRan(s: State, i: nat, o: Oracle)
    requires Shape(s) && Enabled(s, Work(i, o))
    ensures var a, r := s.loops[i].agenda[0], RunAct(s, i, o);
            && OnlyRan(s, r, i)
            && (a.CloseCallback? && i == 0 ==>
                  r.fault || (a.conn in s.peers && s.peers[a.conn].home < |r.loops| && Destroy(a.conn) in r.loops[s.peers[a.conn].home].pending))
  {
    hide OnlyRan, OnlyAdded, EventStage, NewConnection, RemoveNow, Close, ConnOk;
    var a, s1 := s.loops[i].agenda[0], Pop(s, i);
    assert Placed(s, i, a);
    PopKeepsShape(s, i);
    var r := RunAct(s, i, o);
    match a {
      case Accept => if o.accepted { CreationAdds(s1, o, i); } else { NothingAdds(s1, r, i); }
      case Event(_, _, _) => EventAdds(s1, i, a, o);
      case CloseCallback(d) =>
        if i == 0 { RemoveAdds(s1, i, d); } else { QueueAdds(s1, r, 0, [RemoveInLoop(d)], i); }
      case RemoveInLoop(d) => RemoveAdds(s1, i, d);
      case ForceCloseFunctor(d) => if Live(s.peers[d].conn) { CloseAdds(s1, i, d); } else { NothingAdds(s1, r, i); }
      case _ => NothingAdds(s1, r, i);
    }
    PopThenAdd(s, r, i);
  }

  // ---------------------------------------------------------------- contained for good

  lemma WorkKeepsDoomed(s: State, i: nat, o: Oracle, c: nat)
    requires Shape(s) && Enabled(s, Work(i, o)) && Down(s, c) && s.peers[c].home == 0 && Doomed(s, c)
    requires s.loops[i].agenda[0] != Destroy(c)
    ensures var r := RunAct(s, i, o); |r.loops| == |s.loops| && (Doomed(r, c) || (r.fault && r.loops[0].phase != Polling))
  {
    hide RunAct, ConnOk, Placed;
    WorkOnlyRan(s, i, o);
    var l := s.loops[0];
    if i == 0 {
      assert forall a :: a in l.agenda ==> a == l.agenda[0] || a in l.agenda[1..] by {
        assert l.agenda == [l.agenda[0]] + l.agenda[1..];
      }
    }
  }

  lemma StepKeepsDoomed(s: State, m: Move, c: nat)
    requires Shape(s) && Enabled(s, m) && Down(s, c) && s.peers[c].home == 0 && Doomed(s, c)
    requires !(m.Work? && s.loops[m.loop].agenda[0] == Destroy(c))
    ensures var r := Step(s, m); |r.loops| == |s.loops| && (Doomed(r, c) || (r.fault && r.loops[0].phase != Polling))
  {
    hide RunAct, ConnOk, Placed, ApiReply;
    match m {
      case Work(i, o) => WorkKeepsDoomed(s, i, o, c);
      case _ =>
    }
  }

  lemma StepKeepsContained(s: State, m: Move, c: nat)
    requires Shape(s) && Enabled(s, m) && Down(s, c) && Contained(s, c)
    ensures Down(Step(s, m), c) && Contained(Step(s, m), c)
  {
    hide Step, Doomed, ConnOk, Placed;
    StepKeepsDown(s, m, c);
    if Step(s, m).peers[c].conn.channel.Watched() && s.peers[c].conn.channel.Watched() {
      if m.Work? && s.loops[m.loop].agenda[0] == Destroy(c) {
        DestroyedIsUnwatched(s, m.loop, m.oracle, c);
      } else {
        StepKeepsDoomed(s, m, c);
      }
    }
  }

  /** Running the destroy functor removes the channel, or fails. */
  lemma DestroyedIsUnwatched(s: State, i: nat, o: Oracle, c: nat)
    requires Shape(s) && Enabled(s, Work(i, o)) && Down(s, c) && s.loops[i].agenda[0] == Destroy(c)
    ensures var r := Step(s, Work(i, o));
            Down(r, c) && (!r.peers[c].conn.channel.Watched() || (r.fault && r.loops[s.peers[c].home].phase != Polling))
  {
    hide ConnOk;
    assert Placed(s, i, Destroy(c));
  }
}
