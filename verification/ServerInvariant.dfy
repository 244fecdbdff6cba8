/**
 What the steps of the machine in Server.dfy keep: the shape of every agenda, and the books of each
 connection's life.
 */
module ServerInvariant {
  import opened Types
  import opened Interest
  import opened Channel
  import opened ConnState
  import opened Server

  // ---------------------------------------------------------------- invariant

  /** How often `a` is still to be run by this loop. */
  function Due(l: Loop, a: Act): nat {
    multiset(l.agenda)[a] + multiset(l.pending)[a]
  }

  /** An event being dispatched: its channel is registered, and the connection can still be closed by it
      unless the close callback has already run for it. */
  ghost predicate EventOk(s: State, a: Act)
    requires a.Event?
  {
    && a.conn in s.peers
    && s.peers[a.conn].conn.channel.Added()
    && s.peers[a.conn].destroyed == 0
    && !UrgentAfterHangup(a.revents)
    && a.revents <= READ_EVENT + WRITE_EVENT + ALWAYS_REPORTED
    && (a.stage == AtClose ==> Live(s.peers[a.conn].conn))
    && (a.stage == AtRead ==> Live(s.peers[a.conn].conn) || CallsClose(a.revents))
  }

  ghost predicate DistinctEvents(acts: seq<Act>) {
    forall j, k :: 0 <= j < k < |acts| && acts[j].Event? && acts[k].Event? ==> acts[j].conn != acts[k].conn
  }

  ghost predicate LoopOk(s: State, i: nat)
    requires i < |s.loops|
  {
    var l := s.loops[i];
    && (l.phase == Polling ==> l.agenda == [])
    && (forall a :: a in l.pending ==> IsFunctor(a))
    && (forall a :: a in l.agenda ==>
          a.CloseCallback? || (if l.phase == Handling then a.Accept? || a.Event? else IsFunctor(a)))
    && (forall a :: a in l.agenda && a.Event? ==> EventOk(s, a))
    && DistinctEvents(l.agenda)
  }

  /** Steps of one connection's life that are still to be run. */
  datatype Books = Books(establish: nat, callback: nat, remove: nat, destroy: nat)

  function BooksOf(s: State, c: nat): Books
    requires Shape(s) && c in s.peers
  {
    var home, base := s.loops[s.peers[c].home], s.loops[0];
    Books(Due(home, Establish(c)), Due(home, CloseCallback(c)), Due(base, RemoveInLoop(c)), Due(home, Destroy(c)))
  }

  /** Each event of a connection's life is either behind it or due exactly once. */
  ghost predicate Balanced(p: Peer, b: Books, mapped: bool) {
    && p.established + b.establish == 1
    && p.closed <= p.established
    && p.closed == p.erased + b.callback + b.remove
    && p.erased == p.destroyed + b.destroy
    && (mapped <==> p.erased == 0)
    && (p.conn.state == Connecting <==> p.established == 0)
    && (p.conn.state == Disconnected <==> p.closed == 1)
    && (p.conn.channel.Added() <==> p.established == 1 && p.destroyed == 0)
  }

  ghost predicate PeerOk(s: State, c: nat)
    requires Shape(s) && c in s.peers
  {
    Balanced(s.peers[c], BooksOf(s, c), c in s.connections)
  }

  ghost predicate Numbered(s: State) {
    && (forall c :: c in s.peers ==> c < s.nextConnId && s.peers[c].conn.channel.backend == s.backend)
    && s.connections <= s.peers.Keys
  }

  /** Everything but the books. */
  ghost predicate Frame(s: State) {
    && Shape(s)
    && !s.fault
    && Numbered(s)
    && (forall i :: 0 <= i < |s.loops| ==> LoopOk(s, i))
  }

  ghost predicate Core(s: State) {
    && Frame(s)
    && (forall c :: c in s.peers ==> PeerOk(s, c))
  }

  // ---------------------------------------------------------------- how the pieces of a step move the books

  ghost predicate Concerns(a: Act, c: nat) { !a.Accept? && a.conn == c }

  function Plus(b: Books, a: Act): Books {
    match a
    case Establish(_) => b.(establish := b.establish + 1)
    case CloseCallback(_) => b.(callback := b.callback + 1)
    case RemoveInLoop(_) => b.(remove := b.remove + 1)
    case Destroy(_) => b.(destroy := b.destroy + 1)
    case _ => b
  }

  lemma DueAdds(l: Loop, x: Act)
    ensures forall a :: Due(l.(agenda := [x] + l.agenda), a) == Due(l, a) + (if a == x then 1 else 0)
    ensures forall a :: Due(l.(pending := l.pending + [x]), a) == Due(l, a) + (if a == x then 1 else 0)
  {}

  lemma DueIsMember(l: Loop, a: Act)
    ensures Due(l, a) > 0 <==> a in l.agenda || a in l.pending
  {}

  /** The books after one more act is due on the loop it belongs to. */
  lemma BooksPlus(s: State, s1: State, i: nat, x: Act, c: nat)
    requires Shape(s) && Shape(s1) && |s1.loops| == |s.loops| && s1.peers == s.peers && i < |s.loops|
    requires Placed(s, i, x) && c in s.peers
    requires forall j :: 0 <= j < |s.loops| && j != i ==> s1.loops[j] == s.loops[j]
    requires forall a :: Due(s1.loops[i], a) == Due(s.loops[i], a) + (if a == x then 1 else 0)
    ensures BooksOf(s1, c) == if Concerns(x, c) then Plus(BooksOf(s, c), x) else BooksOf(s, c)
  {
    hide ConnOk;
  }

  lemma PopStep(s: State, i: nat)
    requires Frame(s) && i < |s.loops| && s.loops[i].agenda != []
    ensures var a, s1 := s.loops[i].agenda[0], Pop(s, i);
            && Placed(s, i, a)
            && Frame(s1)
            && (forall c :: c in s.peers ==>
                  BooksOf(s, c) == if Concerns(a, c) then Plus(BooksOf(s1, c), a) else BooksOf(s1, c))
            && (a.Event? ==> forall b :: b in s1.loops[i].agenda && b.Event? ==> b.conn != a.conn)
  {
    var l := s.loops[i];
    var a, s1 := l.agenda[0], Pop(s, i);
    assert LoopOk(s, i);
    assert l.agenda == [a] + l.agenda[1..];
    PopKeepsShape(s, i);
    forall j | 0 <= j < |s1.loops| ensures LoopOk(s1, j) {
      assert LoopOk(s, j);
    }
    DueAdds(s1.loops[i], a);
    assert l == s1.loops[i].(agenda := [a] + s1.loops[i].agenda);
    assert a in l.agenda && Placed(s, i, a) && Placed(s1, i, a);
    forall c | c in s.peers
      ensures BooksOf(s, c) == if Concerns(a, c) then Plus(BooksOf(s1, c), a) else BooksOf(s1, c)
    {
      BooksPlus(s1, s, i, a, c);
    }
  }

  function PushAct(s: State, i: nat, x: Act): State
    requires i < |s.loops|
  {
    SetLoop(s, i, s.loops[i].(agenda := [x] + s.loops[i].agenda))
  }

  /** One more act, well placed, on one loop that stays in order. */
  lemma GrowStep(s: State, s1: State, i: nat, x: Act)
    requires Frame(s) && i < |s.loops| && Placed(s, i, x)
    requires |s1.loops| == |s.loops| && s1 == SetLoop(s, i, s1.loops[i])
    requires forall a :: a in s1.loops[i].agenda || a in s1.loops[i].pending ==>
               a == x || a in s.loops[i].agenda || a in s.loops[i].pending
    requires forall a :: Due(s1.loops[i], a) == Due(s.loops[i], a) + (if a == x then 1 else 0)
    requires LoopOk(s1, i)
    ensures Frame(s1)
    ensures forall c :: c in s.peers ==>
              BooksOf(s1, c) == if Concerns(x, c) then Plus(BooksOf(s, c), x) else BooksOf(s, c)
  {
    forall j, a | 0 <= j < |s1.loops| && (a in s1.loops[j].agenda || a in s1.loops[j].pending)
      ensures Placed(s1, j, a)
    {
      assert Placed(s, j, a) || (j == i && a == x);
    }
    assert Shape(s1);
    forall j | 0 <= j < |s1.loops| ensures LoopOk(s1, j) {
      assert LoopOk(s, j);
    }
    forall c | c in s.peers
      ensures BooksOf(s1, c) == if Concerns(x, c) then Plus(BooksOf(s, c), x) else BooksOf(s, c)
    {
      BooksPlus(s, s1, i, x, c);
    }
  }

  lemma QueueStep(s: State, i: nat, x: Act)
    requires Frame(s) && i < |s.loops| && IsFunctor(x) && Placed(s, i, x)
    ensures var s1 := QueueInLoop(s, i, [x]);
            && Frame(s1)
            && (forall c :: c in s.peers ==>
                  BooksOf(s1, c) == if Concerns(x, c) then Plus(BooksOf(s, c), x) else BooksOf(s, c))
  {
    hide ConnOk;
    assert LoopOk(s, i);
    DueAdds(s.loops[i], x);
    GrowStep(s, QueueInLoop(s, i, [x]), i, x);
  }

  lemma PushStep(s: State, i: nat, x: Act)
    requires Frame(s) && i < |s.loops| && Placed(s, i, x) && s.loops[i].phase != Polling
    requires x.CloseCallback? || (x.Event? && s.loops[i].phase == Handling && EventOk(s, x))
    requires x.Event? ==> forall b :: b in s.loops[i].agenda && b.Event? ==> b.conn != x.conn
    ensures var s1 := PushAct(s, i, x);
            && Frame(s1)
            && (forall c :: c in s.peers ==>
                  BooksOf(s1, c) == if Concerns(x, c) then Plus(BooksOf(s, c), x) else BooksOf(s, c))
  {
    hide ConnOk;
    assert LoopOk(s, i);
    DueAdds(s.loops[i], x);
    GrowStep(s, PushAct(s, i, x), i, x);
  }

  lemma SetPeerStep(s: State, c: nat, p: Peer)
    requires Frame(s) && c in s.peers && p.home == s.peers[c].home && ConnOk(p.conn)
    requires p.conn.channel.backend == s.backend
    requires forall a :: a in s.loops[p.home].agenda && a.Event? && a.conn == c ==> EventOk(SetPeer(s, c, p), a)
    ensures var s1 := SetPeer(s, c, p);
            && Frame(s1)
            && (forall d :: d in s.peers ==> BooksOf(s1, d) == BooksOf(s, d))
  {
    hide ConnOk, Due;
    var s1 := SetPeer(s, c, p);
    forall j, a | 0 <= j < |s1.loops| && (a in s1.loops[j].agenda || a in s1.loops[j].pending)
      ensures Placed(s1, j, a)
    {
      assert Placed(s, j, a);
    }
    forall j | 0 <= j < |s1.loops| ensures LoopOk(s1, j) {
      assert LoopOk(s, j);
      forall a | a in s1.loops[j].agenda && a.Event? ensures EventOk(s1, a) {
        assert Placed(s, j, a) && EventOk(s, a);
      }
    }
  }

  // ---------------------------------------------------------------- what the handlers keep

  /** Only connection `c` is affected: every other one keeps its books. */
  ghost predicate OthersKept(s: State, s1: State, c: nat)
    requires Shape(s) && Shape(s1)
  {
    forall d :: d in s.peers && d != c ==>
      && d in s1.peers && s1.peers[d] == s.peers[d]
      && BooksOf(s1, d) == BooksOf(s, d)
      && (d in s1.connections <==> d in s.connections)
  }

  ghost predicate Keeps(s: State, s1: State, c: nat) {
    Shape(s) && Frame(s1) && s1.peers.Keys == s.peers.Keys && c in s1.peers && PeerOk(s1, c) && OthersKept(s, s1, c)
  }

  /** Replace one connection's record. */
  lemma ReplaceKeeps(s: State, c: nat, p: Peer)
    requires Frame(s) && c in s.peers && p.home == s.peers[c].home && ConnOk(p.conn)
    requires p.conn.channel.backend == s.backend
    requires forall a :: a in s.loops[p.home].agenda && a.Event? && a.conn == c ==> EventOk(SetPeer(s, c, p), a)
    ensures var s1 := SetPeer(s, c, p);
            && Frame(s1) && OthersKept(s, s1, c) && BooksOf(s1, c) == BooksOf(s, c)
  {
    hide LoopOk, Due, BooksOf;
    SetPeerStep(s, c, p);
  }

  /** The connection stays up, or stays down untouched. */
  ghost predicate SameLife(before: Conn, after: Conn) {
    && (after.state == Connecting <==> before.state == Connecting)
    && (after.state == Disconnected <==> before.state == Disconnected)
    && (before.state == Disconnected ==> after.channel == before.channel)
    && (after.channel.Added() <==> before.channel.Added())
    && after.channel.backend == before.channel.backend
  }

  lemma ReplaceAlike(s: State, c: nat, p: Peer)
    requires Frame(s) && c in s.peers && p.home == s.peers[c].home && ConnOk(p.conn)
    requires SameLife(s.peers[c].conn, p.conn) && p.destroyed == s.peers[c].destroyed
    ensures var s1 := SetPeer(s, c, p);
            && Frame(s1) && OthersKept(s, s1, c) && BooksOf(s1, c) == BooksOf(s, c)
  {
    assert LoopOk(s, p.home);
    forall b | b in s.loops[p.home].agenda && b.Event? && b.conn == c ensures EventOk(SetPeer(s, c, p), b) {
      assert EventOk(s, b);
    }
    ReplaceKeeps(s, c, p);
  }

  /** One more functor is due. */
  lemma QueueKeeps(s: State, i: nat, x: Act, c: nat)
    requires Frame(s) && c in s.peers && i < |s.loops| && IsFunctor(x) && Placed(s, i, x) && Concerns(x, c)
    ensures var s1 := QueueInLoop(s, i, [x]);
            && Frame(s1) && s1.peers == s.peers && s1.connections == s.connections
            && OthersKept(s, s1, c) && BooksOf(s1, c) == Plus(BooksOf(s, c), x)
  {
    QueueStep(s, i, x);
  }

  /** The close callback is due. */
  lemma PushKeeps(s: State, i: nat, c: nat)
    requires Frame(s) && c in s.peers && s.peers[c].home == i && s.loops[i].phase != Polling
    ensures var s1 := PushAct(s, i, CloseCallback(c));
            && Frame(s1) && s1.peers == s.peers && s1.connections == s.connections
            && OthersKept(s, s1, c) && BooksOf(s1, c) == Plus(BooksOf(s, c), CloseCallback(c))
  {
    PushStep(s, i, CloseCallback(c));
  }

  lemma Chain(s: State, s1: State, s2: State, c: nat)
    requires Shape(s) && Shape(s1) && Shape(s2) && OthersKept(s, s1, c) && OthersKept(s1, s2, c)
    ensures OthersKept(s, s2, c)
  {}

  /** Replace the record, and have one more functor or close callback due. */
  lemma ReplaceThenAdd(s: State, s1: State, s2: State, c: nat, p: Peer, x: Act)
    requires Frame(s) && c in s.peers && s1 == SetPeer(s, c, p)
    requires Frame(s1) && OthersKept(s, s1, c) && BooksOf(s1, c) == BooksOf(s, c)
    requires Frame(s2) && s2.peers == s1.peers && s2.connections == s1.connections
    requires OthersKept(s1, s2, c) && BooksOf(s2, c) == Plus(BooksOf(s1, c), x)
    requires Balanced(p, Plus(BooksOf(s, c), x), c in s.connections)
    ensures Keeps(s, s2, c)
  {
    Chain(s, s1, s2, c);
  }

  /** The record changes, its life does not, and one functor about it is queued. */
  lemma ReplaceAndQueue(s: State, c: nat, p: Peer, x: Act)
    requires Frame(s) && c in s.peers && p.home == s.peers[c].home && ConnOk(p.conn)
    requires SameLife(s.peers[c].conn, p.conn) && p.destroyed == s.peers[c].destroyed
    requires IsFunctor(x) && Concerns(x, c) && !x.RemoveInLoop?
    requires Balanced(p, Plus(BooksOf(s, c), x), c in s.connections)
    ensures Keeps(s, QueueInLoop(SetPeer(s, c, p), p.home, [x]), c)
  {
    hide LoopOk, Due, BooksOf, Numbered, OthersKept, ConnOk, Placed, EventOk;
    ReplaceAlike(s, c, p);
    var s1 := SetPeer(s, c, p);
    QueueKeeps(s1, p.home, x, c);
    ReplaceThenAdd(s, s1, QueueInLoop(s1, p.home, [x]), c, p, x);
  }

  lemma ReplaceOnly(s: State, c: nat, p: Peer)
    requires Frame(s) && c in s.peers && p.home == s.peers[c].home && ConnOk(p.conn)
    requires SameLife(s.peers[c].conn, p.conn) && p.destroyed == s.peers[c].destroyed
    requires Balanced(p, BooksOf(s, c), c in s.connections)
    ensures Keeps(s, SetPeer(s, c, p), c)
  {
    ReplaceAlike(s, c, p);
  }

  lemma EstablishFacts(c: Conn)
    requires ConnOk(c) && c.state == Connecting
    ensures var d := ConnectEstablished(c);
            ConnOk(d) && d.state == Connected && d.channel.Added() && d.channel.backend == c.channel.backend
  {
    PerformKeepsConnOk(c, OpEstablish);
  }

  /** Only registered channels have events. */
  lemma NoEventsFor(s: State, c: nat)
    requires Frame(s) && c in s.peers
    requires !s.peers[c].conn.channel.Added() || s.loops[s.peers[c].home].phase == Functors
    ensures forall a :: a in s.loops[s.peers[c].home].agenda && a.Event? ==> a.conn != c
  {
    hide ConnOk;
    assert LoopOk(s, s.peers[c].home);
    forall a | a in s.loops[s.peers[c].home].agenda && a.Event? ensures a.conn != c {
      assert EventOk(s, a);
    }
  }

  lemma EstablishKeeps(s: State, c: nat)
    requires Frame(s) && c in s.peers
    requires Balanced(s.peers[c], Plus(BooksOf(s, c), Establish(c)), c in s.connections)
    ensures Keeps(s, EstablishNow(s, c), c)
  {
    hide LoopOk, EventOk, Due, BooksOf, ConnOk, OthersKept, ConnectEstablished;
    var p := s.peers[c];
    EstablishFacts(p.conn);
    NoEventsFor(s, c);
    ReplaceKeeps(s, c, p.(conn := ConnectEstablished(p.conn), established := p.established + 1));
  }

  /** Events of a connection that the handlers of this dispatch have already closed. */
  ghost predicate PastClosing(s: State, i: nat, c: nat)
    requires i < |s.loops|
  {
    forall a :: a in s.loops[i].agenda && a.Event? && a.conn == c ==>
      a.stage == AtWrite || (a.stage == AtRead && CallsClose(a.revents))
  }

  lemma CloseFacts(c: Conn)
    requires ConnOk(c) && Live(c)
    ensures var d := HandleClose(c);
            && ConnOk(d) && d.state == Disconnected && d.channel.Added() && d.channel.backend == c.channel.backend
            && (d.channel.Watched() <==> c.channel.backend == Epoll && c.channel.IsNoneEvent())
  {
    PerformKeepsConnOk(c, OpClose);
  }

  lemma ClosedEvents(s: State, i: nat, c: nat, p: Peer)
    requires Frame(s) && c in s.peers && i < |s.loops| && PastClosing(s, i, c)
    requires p.conn.channel.Added() && p.destroyed == s.peers[c].destroyed
    ensures forall a :: a in s.loops[i].agenda && a.Event? && a.conn == c ==> EventOk(SetPeer(s, c, p), a)
  {
    assert LoopOk(s, i);
    forall a | a in s.loops[i].agenda && a.Event? && a.conn == c ensures EventOk(SetPeer(s, c, p), a) {
      assert EventOk(s, a);
    }
  }

  lemma CloseKeeps(s: State, i: nat, c: nat)
    requires Frame(s) && c in s.peers && s.peers[c].home == i && PeerOk(s, c)
    requires s.loops[i].phase != Polling && Live(s.peers[c].conn) && PastClosing(s, i, c)
    ensures Keeps(s, Close(s, i, c), c)
  {
    hide LoopOk, EventOk, Due, BooksOf, OthersKept, PastClosing, ConnOk, HandleClose;
    var p := s.peers[c];
    CloseFacts(p.conn);
    var p1 := p.(conn := HandleClose(p.conn), closed := p.closed + 1);
    var s1 := SetPeer(s, c, p1);
    ClosedEvents(s, i, c, p1);
    ReplaceKeeps(s, c, p1);
    PushKeeps(s1, i, c);
    assert Close(s, i, c) == PushAct(s1, i, CloseCallback(c));
    ReplaceThenAdd(s, s1, Close(s, i, c), c, p1, CloseCallback(c));
  }

  lemma UnmapKeepsFrame(s: State, c: nat)
    requires Frame(s)
    ensures var s1 := s.(connections := s.connections - {c});
            && Frame(s1) && OthersKept(s, s1, c) && (forall d :: d in s.peers ==> BooksOf(s1, d) == BooksOf(s, d))
  {
    hide ConnOk, Due;
    var s1 := s.(connections := s.connections - {c});
    forall j, b | 0 <= j < |s1.loops| && (b in s1.loops[j].agenda || b in s1.loops[j].pending)
      ensures Placed(s1, j, b)
    {
      assert Placed(s, j, b);
    }
    forall j | 0 <= j < |s1.loops| ensures LoopOk(s1, j) {
      assert LoopOk(s, j);
      forall b | b in s1.loops[j].agenda && b.Event? ensures EventOk(s1, b) {
        assert EventOk(s, b);
      }
    }
  }

  lemma RemoveKeeps(s: State, c: nat, a: Act)
    requires Frame(s) && c in s.peers && (a == CloseCallback(c) || a == RemoveInLoop(c))
    requires Balanced(s.peers[c], Plus(BooksOf(s, c), a), c in s.connections)
    ensures Keeps(s, RemoveNow(s, c), c)
  {
    hide LoopOk, Due, BooksOf, Numbered, OthersKept, ConnOk, Placed, EventOk;
    var p := s.peers[c];
    var s0 := s.(connections := s.connections - {c});
    UnmapKeepsFrame(s, c);
    ReplaceAndQueue(s0, c, p.(erased := p.erased + 1), Destroy(c));
    Chain(s, s0, RemoveNow(s, c), c);
  }

  lemma DestroyFacts(c: Conn)
    requires ConnOk(c) && c.state == Disconnected && c.channel.Added()
    ensures BeforeRemove(c).channel.IsNoneEvent()
    ensures var d := ConnectDestroyed(c);
            ConnOk(d) && d.state == Disconnected && !d.channel.Added() && d.channel.backend == c.channel.backend
  {
    PerformKeepsConnOk(c, OpDestroy);
  }

  lemma DestroyKeeps(s: State, i: nat, c: nat)
    requires Frame(s) && c in s.peers && s.peers[c].home == i && s.loops[i].phase == Functors
    requires Balanced(s.peers[c], Plus(BooksOf(s, c), Destroy(c)), c in s.connections)
    ensures Keeps(s, DestroyNow(s, i, c), c)
  {
    hide LoopOk, EventOk, Due, BooksOf, ConnOk, OthersKept, ConnectDestroyed, BeforeRemove;
    var p := s.peers[c];
    DestroyFacts(p.conn);
    NoEventsFor(s, c);
    ReplaceKeeps(s, c, p.(conn := ConnectDestroyed(p.conn), destroyed := p.destroyed + 1));
  }

  lemma AnswerKeeps(s: State, c: nat, r: Reply)
    requires Frame(s) && c in s.peers && PeerOk(s, c)
    requires ConnOk(r.conn) && |r.queued| <= 1 && SameLife(s.peers[c].conn, r.conn)
    ensures Keeps(s, Answer(s, c, r), c)
  {
    hide LoopOk, Due, BooksOf, Numbered, OthersKept, ConnOk, Placed, EventOk;
    var p1 := s.peers[c].(conn := r.conn);
    if r.queued == [] {
      var l := s.loops[p1.home];
      assert AsActs(c, r.queued) == [] && l.pending + [] == l.pending;
      ReplaceOnly(s, c, p1);
      assert Answer(s, c, r) == SetPeer(s, c, p1);
    } else {
      var x := if r.queued[0].ForceCloseInLoop? then ForceCloseFunctor(c) else Notify(c);
      assert AsActs(c, r.queued) == [x];
      ReplaceAndQueue(s, c, p1, x);
    }
  }

  lemma CreateKeepsFrame(s: State, s1: State, p: Peer)
    requires Frame(s)
    requires s1 == s.(next := s1.next, nextConnId := s.nextConnId + 1,
                      connections := s.connections + {s.nextConnId}, peers := s.peers[s.nextConnId := p])
    requires |s.loops| > 1 ==> s1.next < |s.loops| - 1
    requires p.home < |s.loops| && ConnOk(p.conn) && p.conn.state == Connecting && p.conn.channel.backend == s.backend
    ensures Frame(s1) && BooksOf(s1, s.nextConnId) == Books(0, 0, 0, 0)
  {
    hide ConnOk;
    var c := s.nextConnId;
    assert c !in s.peers;
    forall j, b | 0 <= j < |s1.loops| && (b in s1.loops[j].agenda || b in s1.loops[j].pending)
      ensures Placed(s1, j, b) && !Concerns(b, c)
    {
      assert Placed(s, j, b);
    }
    forall j | 0 <= j < |s1.loops| ensures LoopOk(s1, j) {
      assert LoopOk(s, j);
      forall b | b in s1.loops[j].agenda && b.Event? ensures EventOk(s1, b) {
        assert EventOk(s, b);
      }
    }
    forall j, b | 0 <= j < |s1.loops| && Concerns(b, c) ensures Due(s1.loops[j], b) == 0 {
      DueIsMember(s1.loops[j], b);
    }
    assert Concerns(Establish(c), c) && Concerns(CloseCallback(c), c) && Concerns(RemoveInLoop(c), c) && Concerns(Destroy(c), c);
  }

  lemma KeepsGivesCore(s: State, s1: State, c: nat)
    requires Shape(s) && (forall d :: d in s.peers && d != c ==> PeerOk(s, d)) && Keeps(s, s1, c)
    ensures Core(s1)
  {
    forall d | d in s1.peers ensures PeerOk(s1, d) {
      if d != c { assert PeerOk(s, d) && BooksOf(s1, d) == BooksOf(s, d); }
    }
  }

  lemma CreateKeepsOthers(s: State, s1: State, p: Peer)
    requires Core(s) && Shape(s1)
    requires s1 == s.(next := s1.next, nextConnId := s.nextConnId + 1,
                      connections := s.connections + {s.nextConnId}, peers := s.peers[s.nextConnId := p])
    ensures forall d :: d in s1.peers && d != s.nextConnId ==> PeerOk(s1, d)
  {
    hide LoopOk, EventOk, Due, ConnOk;
    forall d | d in s1.peers && d != s.nextConnId ensures PeerOk(s1, d) {
      assert PeerOk(s, d) && BooksOf(s1, d) == BooksOf(s, d);
    }
  }

  lemma NewConnectionKeeps(s: State, o: Oracle)
    requires Core(s)
    ensures Core(NewConnection(s, o))
  {
    hide LoopOk, EventOk, Due, BooksOf, OthersKept, ConnOk, Numbered, Placed;
    var (home, next) := NextLoop(s);
    var c := s.nextConnId;
    var p := Peer(home, NewConn(s.backend, o.hasWriteComplete, o.highWater), 0, 0, 0, 0);
    var s1 := s.(next := next, nextConnId := c + 1, connections := s.connections + {c},
                 peers := s.peers[c := p]);
    CreateKeepsFrame(s, s1, p);
    CreateKeepsOthers(s, s1, p);
    if home == 0 {
      EstablishKeeps(s1, c);
      KeepsGivesCore(s1, EstablishNow(s1, c), c);
    } else {
      QueueKeeps(s1, home, Establish(c), c);
      KeepsGivesCore(s1, QueueInLoop(s1, home, [Establish(c)]), c);
    }
  }

  // ---------------------------------------------------------------- moves

  ghost predicate SameDue(s: State, s1: State) {
    && |s1.loops| == |s.loops|
    && (forall j, a :: 0 <= j < |s.loops| && (IsFunctor(a) || a.CloseCallback?) ==>
          Due(s1.loops[j], a) == Due(s.loops[j], a))
  }

  lemma SameDueSameBooks(s: State, s1: State, c: nat)
    requires Shape(s) && Shape(s1) && s1.peers == s.peers && c in s.peers && SameDue(s, s1)
    ensures BooksOf(s1, c) == BooksOf(s, c)
  {
    hide Due;
    assert IsFunctor(Establish(c)) && IsFunctor(RemoveInLoop(c)) && IsFunctor(Destroy(c));
    assert CloseCallback(c).CloseCallback?;
  }

  /** The same connections, with the same work due for each. */
  lemma SameBooks(s: State, s1: State)
    requires Core(s) && Frame(s1)
    requires s1.peers == s.peers && s1.connections == s.connections && SameDue(s, s1)
    ensures Core(s1)
  {
    forall c | c in s1.peers ensures PeerOk(s1, c) {
      assert PeerOk(s, c);
      SameDueSameBooks(s, s1, c);
    }
  }

  lemma ReportFacts(conn: Conn, revents: Mask)
    requires ConnOk(conn) && conn.state != Disconnected && KernelMayReport(conn.channel, revents)
    ensures Live(conn) && conn.channel.Added() && revents <= READ_EVENT + WRITE_EVENT + ALWAYS_REPORTED
  {}

  /** The kernel reports no connection that is down. */
  ghost predicate ReportsLive(s: State, ready: seq<Act>) {
    forall a :: a in ready && a.Event? ==> a.conn in s.peers && s.peers[a.conn].conn.state != Disconnected
  }

  lemma PollKeepsFrame(s: State, i: nat, ready: seq<Act>)
    requires Core(s) && Enabled(s, PollReturns(i, ready)) && ReportsLive(s, ready)
    ensures Frame(Step(s, PollReturns(i, ready)))
  {
    hide Due, BooksOf, ConnOk;
    var s1 := Step(s, PollReturns(i, ready));
    forall a | a in ready
      ensures Placed(s1, i, a) && (a.Accept? || a.Event?) && (a.Event? ==> EventOk(s1, a))
    {
      var k :| 0 <= k < |ready| && ready[k] == a;
      if a.Event? {
        assert PeerOk(s, a.conn);
        ReportFacts(s.peers[a.conn].conn, a.revents);
      }
    }
    forall j | 0 <= j < |s1.loops| ensures LoopOk(s1, j) {
      assert LoopOk(s, j);
    }
  }

  lemma DueOfEvents(l: Loop, l1: Loop)
    requires l.agenda == [] && l1.pending == l.pending
    requires forall k :: 0 <= k < |l1.agenda| ==> l1.agenda[k].Accept? || l1.agenda[k].Event?
    ensures forall a :: IsFunctor(a) || a.CloseCallback? ==> Due(l1, a) == Due(l, a)
  {
    forall a | IsFunctor(a) || a.CloseCallback? ensures Due(l1, a) == Due(l, a) {
      assert a !in l1.agenda;
    }
  }

  lemma PollKeepsCore(s: State, i: nat, ready: seq<Act>)
    requires Core(s) && Enabled(s, PollReturns(i, ready)) && ReportsLive(s, ready)
    ensures Core(Step(s, PollReturns(i, ready)))
  {
    hide EventOk, Due, BooksOf, ConnOk;
    var s1 := Step(s, PollReturns(i, ready));
    PollKeepsFrame(s, i, ready);
    assert LoopOk(s, i);
    DueOfEvents(s.loops[i], s1.loops[i]);
    SameBooks(s, s1);
  }

  lemma NextPhaseKeepsFrame(s: State, i: nat)
    requires Core(s) && Enabled(s, NextPhase(i))
    ensures Frame(Step(s, NextPhase(i)))
  {
    hide Due, BooksOf, PeerOk;
    var s1 := Step(s, NextPhase(i));
    assert LoopOk(s, i);
    forall j, a | 0 <= j < |s1.loops| && (a in s1.loops[j].agenda || a in s1.loops[j].pending)
      ensures Placed(s1, j, a)
    {
      assert Placed(s, j, a);
    }
    var l := s.loops[i];
    assert forall k :: 0 <= k < |l.pending| ==> l.pending[k] in l.pending && IsFunctor(l.pending[k]);
    forall j | 0 <= j < |s1.loops| ensures LoopOk(s1, j) {
      assert LoopOk(s, j);
    }
  }

  lemma NextPhaseKeepsCore(s: State, i: nat)
    requires Core(s) && Enabled(s, NextPhase(i))
    ensures Core(Step(s, NextPhase(i)))
  {
    hide EventOk, BooksOf, ConnOk, DistinctEvents;
    assert LoopOk(s, i);
    NextPhaseKeepsFrame(s, i);
    SameBooks(s, Step(s, NextPhase(i)));
  }

  lemma ApiFacts(conn: Conn, call: ApiCall)
    requires ConnOk(conn)
    requires call.Send? ==> Possible(call.r, |call.data|)
    requires call.StartRead? || call.StopRead? ==> Live(conn)
    ensures var r := ApiReply(conn, call);
            ConnOk(r.conn) && |r.queued| <= 1 && SameLife(conn, r.conn)
  {
    match call {
      case Send(data, r) => SendKeepsConnOk(conn, data, r);
      case StartRead => ReadInterestKeepsConnOk(conn);
      case StopRead => ReadInterestKeepsConnOk(conn);
      case _ => ClosingKeepsConnOk(conn);
    }
  }

  lemma ApiKeepsCore(s: State, c: nat, call: ApiCall)
    requires Core(s) && Enabled(s, Api(c, call))
    ensures Core(Step(s, Api(c, call)))
  {
    hide LoopOk, EventOk, Due, BooksOf, OthersKept;
    var conn := s.peers[c].conn;
    var r := ApiReply(conn, call);
    ApiFacts(conn, call);
    AnswerKeeps(s, c, r);
    KeepsGivesCore(s, Answer(s, c, r), c);
  }

  /** After the front act is taken off the agenda, only its own connection's books are open. */
  lemma PopKeeps(s: State, i: nat)
    requires Core(s) && i < |s.loops| && s.loops[i].agenda != []
    ensures var a, s1 := s.loops[i].agenda[0], Pop(s, i);
            && Placed(s, i, a) && Frame(s1)
            && (forall d :: d in s.peers && !Concerns(a, d) ==> PeerOk(s1, d))
            && (!a.Accept? ==> Balanced(s.peers[a.conn], Plus(BooksOf(s1, a.conn), a), a.conn in s.connections))
            && (a.Event? ==> EventOk(s1, a) && forall b :: b in s1.loops[i].agenda && b.Event? ==> b.conn != a.conn)
  {
    hide Due;
    PopStep(s, i);
    var a, s1 := s.loops[i].agenda[0], Pop(s, i);
    forall d | d in s.peers && !Concerns(a, d) ensures PeerOk(s1, d) {
      assert PeerOk(s, d) && BooksOf(s1, d) == BooksOf(s, d);
    }
    if !a.Accept? { assert PeerOk(s, a.conn) && Concerns(a, a.conn); }
    assert LoopOk(s, i);
    if a.Event? { assert EventOk(s, a); }
  }

  lemma CloseCallbackKeeps(s: State, i: nat, c: nat)
    requires Frame(s) && c in s.peers && i < |s.loops|
    requires forall d :: d in s.peers && d != c ==> PeerOk(s, d)
    requires Balanced(s.peers[c], Plus(BooksOf(s, c), CloseCallback(c)), c in s.connections)
    ensures Core(if i == 0 then RemoveNow(s, c) else QueueInLoop(s, 0, [RemoveInLoop(c)]))
  {
    hide EventOk, Due, ConnOk;
    if i == 0 {
      RemoveKeeps(s, c, CloseCallback(c));
      KeepsGivesCore(s, RemoveNow(s, c), c);
    } else {
      QueueKeeps(s, 0, RemoveInLoop(c), c);
      KeepsGivesCore(s, QueueInLoop(s, 0, [RemoveInLoop(c)]), c);
    }
  }

  lemma EventStageKeeps(s: State, i: nat, a: Act, o: Oracle)
    requires Core(s) && i < |s.loops| && a.Event? && Placed(s, i, a) && EventOk(s, a)
    requires s.loops[i].phase == Handling && Possible(o.write, |s.peers[a.conn].conn.output|)
    requires forall b :: b in s.loops[i].agenda && b.Event? ==> b.conn != a.conn
    ensures Core(EventStage(s, i, a, o))
  {
    match a.stage {
      case AtClose => CloseStageKeeps(s, i, a);
      case AtRead => ReadStageKeeps(s, i, a, o);
      case AtWrite => WriteStageKeeps(s, i, a, o);
    }
  }

  lemma ReadyToRead(s: State, i: nat, a: Act)
    requires Core(s) && i < |s.loops| && a.Event? && Placed(s, i, a) && EventOk(s, a)
    requires a.stage == AtClose && s.loops[i].phase == Handling
    requires forall b :: b in s.loops[i].agenda && b.Event? ==> b.conn != a.conn
    ensures var s1 := PushAct(s, i, a.(stage := AtRead)); Core(s1) && (CallsClose(a.revents) ==> PastClosing(s1, i, a.conn))
  {
    hide ConnOk, Due, BooksOf;
    var x := a.(stage := AtRead);
    PushStep(s, i, x);
    BooksUnmoved(s, PushAct(s, i, x));
  }

  /** Events are not part of anybody's books. */
  lemma BooksUnmoved(s: State, s1: State)
    requires Core(s) && Frame(s1) && s1.peers == s.peers && s1.connections == s.connections
    requires forall c :: c in s.peers ==> BooksOf(s1, c) == BooksOf(s, c)
    ensures Core(s1)
  {
    forall c | c in s1.peers ensures PeerOk(s1, c) {
      assert PeerOk(s, c);
    }
  }

  lemma CloseStageKeeps(s: State, i: nat, a: Act)
    requires Core(s) && i < |s.loops| && a.Event? && Placed(s, i, a) && EventOk(s, a)
    requires a.stage == AtClose && s.loops[i].phase == Handling
    requires forall b :: b in s.loops[i].agenda && b.Event? ==> b.conn != a.conn
    ensures var s1 := PushAct(s, i, a.(stage := AtRead));
            Core(if CallsClose(a.revents) then Close(s1, i, a.conn) else s1)
  {
    var s1 := PushAct(s, i, a.(stage := AtRead));
    ReadyToRead(s, i, a);
    if CallsClose(a.revents) {
      CloseKeeps(s1, i, a.conn);
      KeepsGivesCore(s1, Close(s1, i, a.conn), a.conn);
    }
  }

  lemma ReadyToWrite(s: State, i: nat, a: Act)
    requires Core(s) && i < |s.loops| && a.Event? && Placed(s, i, a) && EventOk(s, a)
    requires a.stage == AtRead && s.loops[i].phase == Handling
    requires forall b :: b in s.loops[i].agenda && b.Event? ==> b.conn != a.conn
    ensures var s1 := PushAct(s, i, a.(stage := AtWrite)); Core(s1) && PastClosing(s1, i, a.conn)
  {
    hide ConnOk, Due, BooksOf;
    var x := a.(stage := AtWrite);
    PushStep(s, i, x);
    BooksUnmoved(s, PushAct(s, i, x));
  }

  lemma ReadMeansLive(s: State, a: Act)
    requires a.Event? && EventOk(s, a) && a.stage == AtRead && CallsRead(a.revents)
    ensures Live(s.peers[a.conn].conn)
  {
    var f :| f in a.revents * {IN, PRI, RDHUP};
  }

  lemma ReadStageKeeps(s: State, i: nat, a: Act, o: Oracle)
    requires Core(s) && i < |s.loops| && a.Event? && Placed(s, i, a) && EventOk(s, a)
    requires a.stage == AtRead && s.loops[i].phase == Handling
    requires forall b :: b in s.loops[i].agenda && b.Event? ==> b.conn != a.conn
    ensures var s1 := PushAct(s, i, a.(stage := AtWrite));
            Core(if CallsRead(a.revents) && o.readResult == 0 then Close(s1, i, a.conn) else s1)
  {
    var s1 := PushAct(s, i, a.(stage := AtWrite));
    ReadyToWrite(s, i, a);
    if CallsRead(a.revents) && o.readResult == 0 {
      ReadMeansLive(s, a);
      CloseKeeps(s1, i, a.conn);
      KeepsGivesCore(s1, Close(s1, i, a.conn), a.conn);
    }
  }

  lemma WriteFacts(conn: Conn, r: WriteResult)
    requires ConnOk(conn) && Possible(r, |conn.output|)
    ensures var rep := HandleWrite(conn, r); ConnOk(rep.conn) && |rep.queued| <= 1 && SameLife(conn, rep.conn)
  {
    WriteKeepsConnOk(conn, r);
    if conn.state == Disconnected {
      assert !conn.channel.IsWriting();
    }
  }

  lemma WriteStageKeeps(s: State, i: nat, a: Act, o: Oracle)
    requires Core(s) && i < |s.loops| && a.Event? && Placed(s, i, a)
    requires Possible(o.write, |s.peers[a.conn].conn.output|)
    ensures Core(if CallsWrite(a.revents) then Answer(s, a.conn, HandleWrite(s.peers[a.conn].conn, o.write)) else s)
  {
    hide LoopOk, EventOk, Due, BooksOf, OthersKept;
    if CallsWrite(a.revents) {
      var c := a.conn;
      var r := HandleWrite(s.peers[c].conn, o.write);
      WriteFacts(s.peers[c].conn, o.write);
      AnswerKeeps(s, c, r);
      KeepsGivesCore(s, Answer(s, c, r), c);
    }
  }

  lemma FunctorKeeps(s: State, i: nat, a: Act)
    requires Frame(s) && i < |s.loops| && Placed(s, i, a) && s.loops[i].phase == Functors
    requires a.Establish? || a.RemoveInLoop? || a.Destroy?
    requires forall d :: d in s.peers && d != a.conn ==> PeerOk(s, d)
    requires Balanced(s.peers[a.conn], Plus(BooksOf(s, a.conn), a), a.conn in s.connections)
    ensures Core(if a.Establish? then EstablishNow(s, a.conn)
                else if a.RemoveInLoop? then RemoveNow(s, a.conn)
                else DestroyNow(s, i, a.conn))
  {
    hide LoopOk, EventOk, Due, ConnOk;
    match a {
      case Establish(c) =>
        EstablishKeeps(s, c);
        KeepsGivesCore(s, EstablishNow(s, c), c);
      case RemoveInLoop(c) =>
        RemoveKeeps(s, c, a);
        KeepsGivesCore(s, RemoveNow(s, c), c);
      case Destroy(c) =>
        DestroyKeeps(s, i, c);
        KeepsGivesCore(s, DestroyNow(s, i, c), c);
    }
  }

  lemma ForceCloseKeeps(s: State, i: nat, c: nat)
    requires Core(s) && i < |s.loops| && c in s.peers && s.peers[c].home == i && s.loops[i].phase == Functors
    ensures Core(if Live(s.peers[c].conn) then Close(s, i, c) else s)
  {
    hide Due, BooksOf, ConnOk, EventOk;
    if Live(s.peers[c].conn) {
      assert LoopOk(s, i);
      CloseKeeps(s, i, c);
      KeepsGivesCore(s, Close(s, i, c), c);
    }
  }

  lemma WorkKeepsCore(s: State, i: nat, o: Oracle)
    requires Core(s) && Enabled(s, Work(i, o))
    ensures Core(Step(s, Work(i, o)))
  {
    hide Due, BooksOf, ConnOk, EventOk, Balanced;
    var a, s1 := s.loops[i].agenda[0], Pop(s, i);
    PopKeeps(s, i);
    assert LoopOk(s, i);
    assert a in s.loops[i].agenda;
    match a {
      case Accept =>
        if o.accepted { NewConnectionKeeps(s1, o); }
      case Event(_, _, _) => EventStageKeeps(s1, i, a, o);
      case CloseCallback(c) => CloseCallbackKeeps(s1, i, c);
      case ForceCloseFunctor(c) => ForceCloseKeeps(s1, i, c);
      case Notify(_) =>
      case _ => FunctorKeeps(s1, i, a);
    }
  }

  /** Every move, from a state that is in order. */
  lemma StepKeepsCore(s: State, m: Move)
    requires Core(s) && Enabled(s, m) && (m.PollReturns? ==> ReportsLive(s, m.ready))
    ensures Core(Step(s, m))
  {
    match m {
      case PollReturns(i, ready) => PollKeepsCore(s, i, ready);
      case Work(i, o) => WorkKeepsCore(s, i, o);
      case NextPhase(i) => NextPhaseKeepsCore(s, i);
      case Api(c, call) => ApiKeepsCore(s, c, call);
    }
  }
}
