/**
 zing/net/TcpConnection.cpp: the object, updated in place. Each method keeps the invariant of ConnState.dfy,
 says what becomes of the stream, the FIN and the interest in events, and is the operation on values whose runs
 are studied there; `RunAll` carries those results over to the object.
 */
module TcpConnection {
  import opened Types
  import opened Interest
  import opened Channel
  import opened ConnState

  /** `queued` is what a method passes to `loop_->queueInLoop`. */
  class TcpConnection {
    var state: StateE
    var reading: bool
    var channel: Channel
    var outputBuffer: bytes
    const hasWriteComplete: bool
    var highWater: Option<nat>

    ghost var sent: bytes
    ghost var accepted: bytes
    ghost var fins: seq<nat>
    ghost var shutdownAsked: bool

    ghost function Value(): Conn
      reads this
    {
      Conn(state, reading, channel, outputBuffer, hasWriteComplete, highWater,
           sent, accepted, fins, shutdownAsked)
    }

    ghost predicate Valid()
      reads this
    {
      ConnOk(Value())
    }

    /** The bytes that the kernel has and those that wait, in order. */
    ghost function Stream(): bytes
      reads this
    {
      sent + outputBuffer
    }

    constructor (backend: Backend, hasWriteComplete: bool, highWater: Option<nat>)
      ensures Valid() && Value() == NewConn(backend, hasWriteComplete, highWater)
      ensures Stream() == [] && fins == []
    {
      this.state := Connecting;
      this.reading := true;
      this.channel := NewChannel(backend);
      this.outputBuffer := [];
      this.hasWriteComplete := hasWriteComplete;
      this.highWater := highWater;
      this.sent, this.accepted, this.fins, this.shutdownAsked := [], [], [], false;
    }

    /** The tail of `sendInLoop`: keep what the kernel did not take and ask to be told when it can be written. */
    method Retain(rest: bytes) returns (queued: seq<Notice>)
      modifies this
      ensures Reply(Value(), queued) == ConnState.Retain(old(Value()), rest)
      ensures Stream() == old(Stream()) + rest
    {
      queued := [];
      var remaining := |rest|;
      if remaining > 0 {
        var oldLen := |outputBuffer|;
        if highWater.Some? && oldLen + remaining >= highWater.value && oldLen < highWater.value {
          queued := [HighWaterMark(oldLen + remaining)];
        }
        outputBuffer := outputBuffer + rest;
        if !channel.IsWriting() {
          channel := channel.EnableWriting();
        }
      }
    }

    /** `sendInLoop`; `r` is what `write(2)` returns if it is called. */
    method SendInLoop(data: bytes, r: WriteResult) returns (queued: seq<Notice>)
      requires Possible(r, |data|)
      modifies this
      ensures Reply(Value(), queued) == ConnState.SendInLoop(old(Value()), data, r)
      ensures Stream() == old(Stream() + Taken(Value(), data, r)) && accepted == old(accepted + Taken(Value(), data, r))
      ensures old(sent) <= sent && fins == old(fins) && state == old(state) && reading == old(reading)
      ensures queued == (if hasWriteComplete && r == Wrote(|data|)
                            && old(state != Disconnected && !channel.IsWriting() && outputBuffer == [])
                         then [WriteComplete] else [])
                        + Risen(highWater, |old(outputBuffer)|, |outputBuffer|)
    {
      SendNotices(Value(), data, r);
      SendInLoopStream(Value(), data, r);
      queued := [];
      if state == Disconnected { return; }
      var nwrote, faultError := 0, false;
      if !channel.IsWriting() && |outputBuffer| == 0 {
        if r.Wrote? {
          nwrote := r.n;
          sent := sent + data[..nwrote];
          if nwrote == |data| && hasWriteComplete {
            queued := [WriteComplete];
          }
        } else if r.PipeOrReset? {
          faultError := true;
        }
      }
      if !faultError {
        accepted := accepted + data;
        if nwrote < |data| {
          assert nwrote == 0 ==> data[nwrote..] == data;
          queued := Retain(data[nwrote..]);
        }
      }
    }

    /** The message goes behind everything before it, or it is dropped whole: when the connection is not up, or
        the peer is found to be gone. Writing is enabled iff some of it has to wait. */
    method Send(data: bytes, r: WriteResult) returns (queued: seq<Notice>)
      requires Valid() && Possible(r, |data|)
      modifies this
      ensures Valid() && Reply(Value(), queued) == ConnState.Send(old(Value()), data, r)
      ensures Stream() == old(Stream()) + (if old(Accepts(Value(), r)) then data else [])
      ensures old(sent) <= sent && fins == old(fins) && state == old(state) && reading == old(reading)
      ensures state == Connected ==> (channel.IsWriting() <==> outputBuffer != [])
      ensures queued == (if hasWriteComplete && state == Connected && old(outputBuffer) == [] && r == Wrote(|data|)
                         then [WriteComplete] else [])
                        + Risen(highWater, |old(outputBuffer)|, |outputBuffer|)
    {
      ghost var before := Value();
      SendKeepsConnOk(before, data, r);
      SendStream(before, data, r);
      IsWritingIff(before);
      hide ConnOk;
      queued := [];
      if state == Connected {
        queued := SendInLoop(data, r);
      }
      IsWritingIff(Value());
    }

    method ShutdownInLoop()
      modifies this`fins
      ensures fins == if channel.IsWriting() then old(fins) else old(fins) + [|sent|]
    {
      if !channel.IsWriting() {
        fins := fins + [|sent|];
      }
    }

    /** No byte moves. From an open connection, the FIN is sent at once iff nothing waits; any other call
        changes nothing. */
    method Shutdown()
      requires Valid()
      modifies this`state, this`fins, this`shutdownAsked
      ensures Valid() && Value() == ConnState.Shutdown(old(Value()))
      ensures if old(state) == Connected
              then state == Disconnecting && shutdownAsked && fins == (if outputBuffer == [] then [|accepted|] else [])
              else state == old(state) && fins == old(fins)
    {
      ghost var before := Value();
      ClosingKeepsConnOk(before);
      if state == Connected {
        state, shutdownAsked := Disconnecting, true;
        ShutdownInLoop();
      }
    }

    /** The kernel takes a prefix of what waits. If that was all of it, writing is disabled, and a shutdown that
        was asked for sends its FIN, behind every accepted byte. */
    method HandleWrite(r: WriteResult) returns (queued: seq<Notice>)
      requires Valid() && Possible(r, |outputBuffer|)
      modifies this
      ensures Valid() && Reply(Value(), queued) == ConnState.HandleWrite(old(Value()), r)
      ensures Stream() == old(Stream()) && old(sent) <= sent
      ensures state == old(state) && reading == old(reading) && accepted == old(accepted)
      ensures state != Disconnected && r.Wrote? ==> |sent| == |old(sent)| + r.n
      ensures fins == if outputBuffer == [] && old(outputBuffer) != [] && state == Disconnecting then [|accepted|] else old(fins)
      ensures queued == if hasWriteComplete && old(outputBuffer) != [] && outputBuffer == [] && state != Disconnected
                        then [WriteComplete] else []
    {
      ghost var before := Value();
      WriteKeepsConnOk(before, r);
      WriteStream(before, r);
      hide ConnOk;
      queued := [];
      if channel.IsWriting() {
        if r.Wrote? && r.n > 0 {
          sent := sent + outputBuffer[..r.n];
          outputBuffer := outputBuffer[r.n..];
          if |outputBuffer| == 0 {
            channel := channel.DisableWriting();
            if hasWriteComplete {
              queued := [WriteComplete];
            }
            if state == Disconnecting {
              ShutdownInLoop();
            }
          }
        }
      }
    }

    /** Nothing moves and no FIN is sent: the close is left to the functor. */
    method ForceClose() returns (queued: seq<Notice>)
      requires Valid()
      modifies this`state
      ensures Valid() && Reply(Value(), queued) == ConnState.ForceClose(old(Value()))
      ensures queued == if old(Live(Value())) then [ForceCloseInLoop] else []
      ensures state == if old(Live(Value())) then Disconnecting else old(state)
    {
      ClosingKeepsConnOk(Value());
      queued := [];
      if state == Connected || state == Disconnecting {
        state := Disconnecting;
        queued := [ForceCloseInLoop];
      }
    }

    /** Up to the timer that will call `forceClose`. */
    method ForceCloseWithDelay()
      requires Valid()
      modifies this`state
      ensures Valid() && Value() == ConnState.ForceCloseWithDelay(old(Value()))
      ensures state == if old(Live(Value())) then Disconnecting else old(state)
    {
      ClosingKeepsConnOk(Value());
      if state == Connected || state == Disconnecting {
        state := Disconnecting;
      }
    }

    /** Reading is asked for, and interest in writing is untouched; nothing says so to a connection that is
        down, so the invariant is kept by one that is up. */
    method StartReadInLoop()
      requires Valid()
      modifies this`channel, this`reading
      ensures Value() == ConnState.StartReadInLoop(old(Value()))
      ensures old(Live(Value())) ==> Valid() && channel.Watched()
      ensures reading && channel.IsReading() && (channel.IsWriting() <==> old(channel.IsWriting()))
    {
      MaskAlgebra(channel.events);
      ReadInterestKeepsConnOk(Value());
      if !reading || !channel.IsReading() {
        channel := channel.EnableReading();
        reading := true;
      }
    }

    /** Reading is asked for no longer, and interest in writing is untouched; without any, the kernel does not
        watch the connection. */
    method StopReadInLoop()
      requires Valid()
      modifies this`channel, this`reading
      ensures Value() == ConnState.StopReadInLoop(old(Value()))
      ensures old(Live(Value())) ==> Valid() && (channel.Watched() <==> outputBuffer != [])
      ensures !reading && !channel.IsReading() && (channel.IsWriting() <==> old(channel.IsWriting()))
    {
      MaskAlgebra(channel.events);
      ReadInterestKeepsConnOk(Value());
      if reading || channel.IsReading() {
        channel := channel.DisableReading();
        reading := false;
      }
      if old(Live(Value())) { WatchedIff(Value()); }
    }

    /** The connection is up, watched for reading only, and nothing has been sent or accepted. */
    method ConnectEstablished()
      requires Valid() && state == Connecting
      modifies this`state, this`channel
      ensures Valid() && Value() == ConnState.ConnectEstablished(old(Value()))
      ensures state == Connected && channel.Watched() && channel.IsReading() && !channel.IsWriting()
      ensures Stream() == [] && fins == []
    {
      MaskAlgebra(channel.events);
      ReadInterestKeepsConnOk(Value());
      state := Connected;
      channel := channel.EnableReading();
    }

    /** Up to the two callbacks. Nothing is asked for any more; bytes that waited are not sent, but neither lost
        from view. The kernel still watches the channel exactly if it is epoll's and asked for nothing before. */
    method HandleClose()
      requires Valid() && Live(Value())
      modifies this`state, this`channel
      ensures Valid() && Value() == ConnState.HandleClose(old(Value()))
      ensures !Live(Value()) && channel.IsNoneEvent() && channel.Added()
      ensures channel.Watched() <==> channel.backend == Epoll && old(channel.IsNoneEvent())
    {
      ClosingKeepsConnOk(Value());
      state := Disconnected;
      channel := channel.DisableAll();
    }

    /** The poller forgets the channel, which asks for nothing. */
    method ConnectDestroyed()
      requires Valid() && state in {Connected, Disconnected} && channel.Added()
      modifies this`state, this`channel
      ensures Valid() && Value() == ConnState.ConnectDestroyed(old(Value()))
      ensures !Live(Value()) && channel.IsNoneEvent() && !channel.Added()
    {
      ClosingKeepsConnOk(Value());
      if state == Connected {
        state := Disconnected;
        channel := channel.DisableAll();
      }
      assert channel.IsNoneEvent();
      channel := channel.Removed();
    }

    // ---------------------------------------------------------------- any calls

    method Run(op: Op)
      requires Valid() && Allowed(Value(), op)
      modifies this
      ensures Valid() && Value() == Perform(old(Value()), op)
    {
      hide ConnOk;
      match op {
        case OpEstablish => ConnectEstablished();
        case OpSend(data, r) => var _ := Send(data, r);
        case OpShutdown => Shutdown();
        case OpForceClose => var _ := ForceClose();
        case OpForceCloseWithDelay => ForceCloseWithDelay();
        case OpStartRead => StartReadInLoop();
        case OpStopRead => StopReadInLoop();
        case OpWritable(r) => var _ := HandleWrite(r);
        case OpClose => HandleClose();
        case OpDestroy => ConnectDestroyed();
      }
    }

    /** Through any calls, from a new connection on, what the kernel has and what waits are the accepted
        messages, in order, and until disconnect writing is enabled iff something waits. */
    method RunAll(ops: seq<Op>)
      requires Valid() && AllowedRun(Value(), ops)
      modifies this
      ensures Valid() && Value() == ConnState.Run(old(Value()), ops)
      ensures Stream() == old(Stream()) + AcceptedIn(old(Value()), ops)
      ensures state != Disconnected ==> (channel.IsWriting() <==> outputBuffer != [])
      ensures old(fins) != [] ==> sent == old(sent) && fins == old(fins)
    {
      ghost var before := Value();
      AcceptedAccumulates(before, ops);
      if fins != [] { NothingAfterFin(before, ops); }
      hide ConnOk, AllowedRun, ConnState.Run, AcceptedIn;
      for k := 0 to |ops|
        invariant Valid() && AllowedRun(Value(), ops[k..])
        invariant ConnState.Run(Value(), ops[k..]) == ConnState.Run(before, ops)
      {
        NextOp(Value(), ops[k..]);
        assert ops[k..][1..] == ops[k + 1..];
        Run(ops[k]);
      }
      NoMoreOps(Value(), ops[|ops|..]);
      Conserved(Value());
      Conserved(before);
      IsWritingIff(Value());
    }
  }

  // ---------------------------------------------------------------- what the methods use

  lemma Conserved(c: Conn)
    requires ConnOk(c)
    ensures c.accepted == c.sent + c.output
  {}

  lemma IsWritingIff(c: Conn)
    requires ConnOk(c)
    ensures c.state != Disconnected ==> (c.channel.IsWriting() <==> c.output != [])
  {}

  lemma WatchedIff(c: Conn)
    requires ConnOk(c) && Live(c) && !c.channel.IsReading()
    ensures c.channel.Watched() <==> c.output != []
  {
    MaskAlgebra(c.channel.events);
    assert forall f :: f in c.channel.events ==> f in c.channel.events * READ_EVENT || f in c.channel.events * WRITE_EVENT;
  }

  /** The buffer has risen from below the high water mark to it or above it. */
  function Risen(highWater: Option<nat>, before: nat, after: nat): seq<Notice> {
    if highWater.Some? && before < highWater.value <= after then [HighWaterMark(after)] else []
  }

  /** `sendInLoop` queues the write-complete callback exactly if `write` was called and took the whole message. */
  lemma SendNotices(c: Conn, data: bytes, r: WriteResult)
    requires Possible(r, |data|)
    ensures var rep := ConnState.SendInLoop(c, data, r);
            var whole := c.state != Disconnected && !c.channel.IsWriting() && c.output == [] && r == Wrote(|data|);
            rep.queued == (if whole && c.hasWriteComplete then [WriteComplete] else [])
                          + Risen(c.highWater, |c.output|, |rep.conn.output|)
  {}

  /** The bytes that `sendInLoop` takes responsibility for. */
  function Taken(c: Conn, data: bytes, r: WriteResult): bytes {
    if c.state == Disconnected || (!c.channel.IsWriting() && c.output == [] && r.PipeOrReset?) then [] else data
  }

  lemma SendInLoopStream(c: Conn, data: bytes, r: WriteResult)
    requires Possible(r, |data|)
    ensures var d := ConnState.SendInLoop(c, data, r).conn;
            && d.sent + d.output == c.sent + c.output + Taken(c, data, r)
            && d.accepted == c.accepted + Taken(c, data, r)
            && c.sent <= d.sent && d.fins == c.fins && d.state == c.state && d.reading == c.reading
  {
    hide ConnState.Retain;
    if c.state != Disconnected {
      if !c.channel.IsWriting() && c.output == [] {
        if r.Wrote? {
          var c1 := c.(sent := c.sent + data[..r.n], accepted := c.accepted + data);
          RetainStream(c1, data[r.n..]);
          Rejoined(c.sent, data, r.n);
        } else {
          RetainStream(c.(accepted := c.accepted + data), data);
          Regrouped(c.sent, [], data);
        }
      } else {
        RetainStream(c.(accepted := c.accepted + data), data);
        Regrouped(c.sent, c.output, data);
      }
    }
  }

  lemma Rejoined(a: bytes, data: bytes, n: nat)
    requires n <= |data|
    ensures (a + data[..n]) + ([] + data[n..]) == (a + []) + data
  {
    assert data == data[..n] + data[n..];
  }

  lemma Regrouped(a: bytes, b: bytes, c: bytes)
    ensures a + (b + c) == (a + b) + c
  {}

  lemma RetainStream(c: Conn, rest: bytes)
    ensures var d := ConnState.Retain(c, rest).conn;
            d.output == c.output + rest && d == c.(output := d.output, channel := d.channel)
  {}

  lemma SendStream(c: Conn, data: bytes, r: WriteResult)
    requires ConnOk(c) && Possible(r, |data|)
    ensures var d := Send(c, data, r).conn;
            && d.sent + d.output == c.sent + c.output + (if Accepts(c, r) then data else [])
            && c.sent <= d.sent && d.fins == c.fins && d.state == c.state && d.reading == c.reading
  {
    SendKeepsConnOk(c, data, r);
    PerformAccepts(c, OpSend(data, r));
  }

  lemma WriteStream(c: Conn, r: WriteResult)
    requires ConnOk(c) && Possible(r, |c.output|)
    ensures var d := HandleWrite(c, r).conn;
            && d.sent + d.output == c.sent + c.output && c.sent <= d.sent
            && d.state == c.state && d.reading == c.reading && d.accepted == c.accepted
            && (d.state != Disconnected && r.Wrote? ==> |d.sent| == |c.sent| + r.n)
            && d.fins == (if d.output == [] && c.output != [] && d.state == Disconnecting then [|d.accepted|] else c.fins)
            && HandleWrite(c, r).queued
            == (if c.hasWriteComplete && c.output != [] && d.output == [] && d.state != Disconnected then [WriteComplete] else [])
  {
    WriteKeepsConnOk(c, r);
    MaskAlgebra(c.channel.events);
  }

  lemma NextOp(c: Conn, ops: seq<Op>)
    requires ConnOk(c) && ops != [] && AllowedRun(c, ops)
    ensures Allowed(c, ops[0]) && ConnOk(Perform(c, ops[0])) && AllowedRun(Perform(c, ops[0]), ops[1..])
    ensures Run(c, ops) == Run(Perform(c, ops[0]), ops[1..])
  {
    PerformKeepsConnOk(c, ops[0]);
  }

  lemma NoMoreOps(c: Conn, ops: seq<Op>)
    requires ConnOk(c) && ops == []
    ensures AllowedRun(c, ops) && Run(c, ops) == c
  {}
}
