/**
 zing/net/TcpConnection.cpp as a value, `Conn`, and functions on it: the specification of the class in
 TcpConnection.dfy, and the per-connection part of the protocol in Server.dfy. All calls are made on the
 owning loop's thread.

 System calls appear as their results. What they leave behind in the kernel is kept as history: the bytes
 handed over (`sent`), the bytes `sendInLoop` took responsibility for (`accepted`), and the positions in
 the byte stream at which the write side was shut down (`fins`).
 */
module ConnState {
  import opened Types
  import opened Interest
  import opened Channel

  datatype StateE = Disconnected | Connecting | Connected | Disconnecting

  /** `write(2)`: a count, or an errno in the classes the code tells apart. */
  datatype WriteResult = Wrote(n: nat) | WouldBlock | PipeOrReset | OtherError

  predicate Possible(r: WriteResult, len: nat) { r.Wrote? ==> r.n <= len }

  /** Functors a connection hands to `queueInLoop` of its own loop. */
  datatype Notice = WriteComplete | HighWaterMark(size: nat) | ForceCloseInLoop

  datatype Conn = Conn(
    state: StateE,
    reading: bool,
    channel: Channel,
    output: bytes,
    hasWriteComplete: bool,
    highWater: Option<nat>,
    sent: bytes,
    accepted: bytes,
    fins: seq<nat>,
    shutdownAsked: bool)

  datatype Reply = Reply(conn: Conn, queued: seq<Notice>)

  function NewConn(backend: Backend, hasWriteComplete: bool, highWater: Option<nat>): (c: Conn)
    ensures ConnOk(c)
  {
    Conn(Connecting, true, NewChannel(backend), [], hasWriteComplete, highWater, [], [], [], false)
  }

  predicate Live(c: Conn) { c.state == Connected || c.state == Disconnecting }

  function WriteCompleteNotice(c: Conn): seq<Notice> {
    if c.hasWriteComplete then [WriteComplete] else []
  }

  /** Keep `rest` for later: the tail of `sendInLoop`. */
  function Retain(c: Conn, rest: bytes): Reply {
    if rest == [] then Reply(c, [])
    else
      var total := |c.output| + |rest|;
      var queued := if c.highWater.Some? && total >= c.highWater.value && |c.output| < c.highWater.value
                    then [HighWaterMark(total)] else [];
      var ch := if c.channel.IsWriting() then c.channel else c.channel.EnableWriting();
      Reply(c.(output := c.output + rest, channel := ch), queued)
  }

  function SendInLoop(c: Conn, data: bytes, r: WriteResult): Reply
    requires Possible(r, |data|)
  {
    if c.state == Disconnected then Reply(c, [])
    else if !c.channel.IsWriting() && c.output == [] then
      match r
      case PipeOrReset => Reply(c, [])
      case Wrote(n) =>
        var c1 := c.(sent := c.sent + data[..n], accepted := c.accepted + data);
        if n == |data| then Reply(c1, WriteCompleteNotice(c)) else Retain(c1, data[n..])
      case _ => Retain(c.(accepted := c.accepted + data), data)
    else Retain(c.(accepted := c.accepted + data), data)
  }

  function Send(c: Conn, data: bytes, r: WriteResult): Reply
    requires Possible(r, |data|)
  {
    if c.state == Connected then SendInLoop(c, data, r) else Reply(c, [])
  }

  function ShutdownInLoop(c: Conn): Conn {
    if c.channel.IsWriting() then c else c.(fins := c.fins + [|c.sent|])
  }

  function Shutdown(c: Conn): Conn {
    if c.state == Connected then ShutdownInLoop(c.(state := Disconnecting, shutdownAsked := true)) else c
  }

  function ForceClose(c: Conn): Reply {
    if Live(c) then Reply(c.(state := Disconnecting), [ForceCloseInLoop]) else Reply(c, [])
  }

  /** The timer armed here calls `forceClose` later, if the connection still exists. */
  function ForceCloseWithDelay(c: Conn): Conn {
    if Live(c) then c.(state := Disconnecting) else c
  }

  function StartReadInLoop(c: Conn): Conn {
    if !c.reading || !c.channel.IsReading()
    then c.(channel := c.channel.EnableReading(), reading := true) else c
  }

  function StopReadInLoop(c: Conn): Conn {
    if c.reading || c.channel.IsReading()
    then c.(channel := c.channel.DisableReading(), reading := false) else c
  }

  function ConnectEstablished(c: Conn): Conn
    requires c.state == Connecting
  {
    c.(state := Connected, channel := c.channel.EnableReading())
  }

  function HandleWrite(c: Conn, r: WriteResult): Reply
    requires Possible(r, |c.output|)
  {
    if c.channel.IsWriting() && r.Wrote? && r.n > 0 then
      var c1 := c.(output := c.output[r.n..], sent := c.sent + c.output[..r.n]);
      if c1.output != [] then Reply(c1, [])
      else
        var c2 := c1.(channel := c1.channel.DisableWriting());
        Reply(if c2.state == Disconnecting then ShutdownInLoop(c2) else c2, WriteCompleteNotice(c))
    else Reply(c, [])
  }

  /** `handleClose` up to the callbacks, which are the caller's business. */
  function HandleClose(c: Conn): Conn
    requires Live(c)
  {
    c.(state := Disconnected, channel := c.channel.DisableAll())
  }

  /** `connectDestroyed` up to `channel_->remove()`. */
  function BeforeRemove(c: Conn): Conn {
    if c.state == Connected then c.(state := Disconnected, channel := c.channel.DisableAll()) else c
  }

  function ConnectDestroyed(c: Conn): Conn
    requires BeforeRemove(c).channel.IsNoneEvent() && c.channel.Added()
  {
    var c1 := BeforeRemove(c);
    c1.(channel := c1.channel.Removed())
  }

  // ---------------------------------------------------------------- invariant

  /** No byte is lost, repeated or reordered on its way through `outputBuffer_`. */
  predicate StreamConserved(c: Conn) {
    c.accepted == c.sent + c.output
  }

  /** The write side is shut down at most once, after the last accepted byte. */
  predicate FinIsLast(c: Conn) {
    c.fins == [] ||
    (c.fins == [|c.accepted|] && c.output == [] && c.state in {Disconnecting, Disconnected})
  }

  /** A shutdown that was asked for has happened, or the draining `handleWrite` will do it. */
  predicate ShutdownRemembered(c: Conn) {
    && (c.shutdownAsked ==> c.state in {Disconnecting, Disconnected})
    && (c.shutdownAsked && c.state == Disconnecting ==> c.fins != [] || c.channel.IsWriting())
  }

  predicate ConnOk(c: Conn) {
    && StreamConserved(c)
    && FinIsLast(c)
    && ShutdownRemembered(c)
    && c.channel.events <= READ_EVENT + WRITE_EVENT
    && (c.state != Disconnected ==> (c.channel.IsWriting() <==> c.output != []))
    && (c.state == Connecting ==> c.reading && c.channel == NewChannel(c.channel.backend) && c.accepted == [])
    && (Live(c) ==>
          && c.channel.InStep()
          && (c.reading <==> c.channel.IsReading())
          && (c.reading ==> READ_EVENT <= c.channel.events))
    && (c.state == Disconnected ==>
          c.channel.IsNoneEvent() && (c.channel.Added() ==> c.channel.registration.value.events == NONE_EVENT))
  }

  /** Everything that can happen to a connection on its loop, with the results of the system calls. */
  datatype Op =
    | OpEstablish
    | OpSend(data: bytes, r: WriteResult)
    | OpShutdown
    | OpForceClose
    | OpForceCloseWithDelay
    | OpStartRead
    | OpStopRead
    | OpWritable(r: WriteResult)
    | OpClose
    | OpDestroy

  /** When the library makes the call, or lets the user make it. */
  predicate Allowed(c: Conn, op: Op) {
    match op
    case OpEstablish => c.state == Connecting
    case OpSend(data, r) => Possible(r, |data|)
    case OpStartRead => Live(c)
    case OpStopRead => Live(c)
    case OpWritable(r) => Possible(r, |c.output|)
    case OpClose => Live(c)
    case OpDestroy => c.state in {Connected, Disconnected} && c.channel.Added()
    case _ => true
  }

  function Perform(c: Conn, op: Op): Conn
    requires ConnOk(c) && Allowed(c, op)
  {
    match op
    case OpEstablish => ConnectEstablished(c)
    case OpSend(data, r) => Send(c, data, r).conn
    case OpShutdown => Shutdown(c)
    case OpForceClose => ForceClose(c).conn
    case OpForceCloseWithDelay => ForceCloseWithDelay(c)
    case OpStartRead => StartReadInLoop(c)
    case OpStopRead => StopReadInLoop(c)
    case OpWritable(r) => HandleWrite(c, r).conn
    case OpClose => HandleClose(c)
    case OpDestroy => ConnectDestroyed(c)
  }

  /** Reading and writing interest do not disturb each other. */
  lemma MaskAlgebra(e: Mask)
    requires e <= READ_EVENT + WRITE_EVENT
    ensures (e + READ_EVENT) * WRITE_EVENT == e * WRITE_EVENT
    ensures (e - READ_EVENT) * WRITE_EVENT == e * WRITE_EVENT
    ensures (e + WRITE_EVENT) * READ_EVENT == e * READ_EVENT
    ensures (e - WRITE_EVENT) * READ_EVENT == e * READ_EVENT
    ensures (e + READ_EVENT) * READ_EVENT != {} && (e - READ_EVENT) * READ_EVENT == {}
    ensures (e + WRITE_EVENT) * WRITE_EVENT != {} && (e - WRITE_EVENT) * WRITE_EVENT == {}
    ensures e * WRITE_EVENT != {} ==> e != NONE_EVENT
    ensures e * READ_EVENT != {} ==> e != NONE_EVENT
  {
    assert IN in (e + READ_EVENT) * READ_EVENT;
    assert OUT in (e + WRITE_EVENT) * WRITE_EVENT;
  }

  lemma RetainKeepsConnOk(c: Conn, rest: bytes)
    requires rest != [] && c.state == Connected
    requires c.accepted == c.sent + c.output + rest
    requires ConnOk(c.(accepted := c.sent + c.output))
    ensures ConnOk(Retain(c, rest).conn)
  {
    MaskAlgebra(c.channel.events);
    assert c.sent + c.output + rest == c.sent + (c.output + rest);
  }

  lemma SendKeepsConnOk(c: Conn, data: bytes, r: WriteResult)
    requires ConnOk(c) && Possible(r, |data|)
    ensures ConnOk(Send(c, data, r).conn)
  {
    if c.state == Connected {
      if !c.channel.IsWriting() && c.output == [] {
        if r.Wrote? {
          var c1 := c.(sent := c.sent + data[..r.n], accepted := c.accepted + data);
          assert data == data[..r.n] + data[r.n..];
          assert c1.accepted == c1.sent + c1.output + data[r.n..];
          if r.n < |data| { RetainKeepsConnOk(c1, data[r.n..]); }
        } else if !r.PipeOrReset? && data != [] {
          RetainKeepsConnOk(c.(accepted := c.accepted + data), data);
        }
      } else if data != [] {
        RetainKeepsConnOk(c.(accepted := c.accepted + data), data);
      }
    }
  }

  lemma WriteKeepsConnOk(c: Conn, r: WriteResult)
    requires ConnOk(c) && Possible(r, |c.output|)
    ensures ConnOk(HandleWrite(c, r).conn)
  {
    MaskAlgebra(c.channel.events);
    if c.channel.IsWriting() && r.Wrote? && r.n > 0 {
      assert c.output == c.output[..r.n] + c.output[r.n..];
      assert c.sent + c.output[..r.n] + c.output[r.n..] == c.accepted;
    }
  }

  lemma ReadInterestKeepsConnOk(c: Conn)
    requires ConnOk(c)
    ensures c.state == Connecting ==> ConnOk(ConnectEstablished(c))
    ensures Live(c) ==> ConnOk(StartReadInLoop(c)) && ConnOk(StopReadInLoop(c))
  {
    MaskAlgebra(c.channel.events);
  }

  lemma ClosingKeepsConnOk(c: Conn)
    requires ConnOk(c)
    ensures ConnOk(Shutdown(c)) && ConnOk(ForceClose(c).conn) && ConnOk(ForceCloseWithDelay(c))
    ensures Live(c) ==> ConnOk(HandleClose(c))
    ensures c.state in {Connected, Disconnected} && c.channel.Added() ==> ConnOk(ConnectDestroyed(c))
  {
    MaskAlgebra(c.channel.events);
  }

  lemma PerformKeepsConnOk(c: Conn, op: Op)
    requires ConnOk(c) && Allowed(c, op)
    ensures ConnOk(Perform(c, op))
  {
    match op {
      case OpSend(data, r) => SendKeepsConnOk(c, data, r);
      case OpWritable(r) => WriteKeepsConnOk(c, r);
      case OpEstablish => ReadInterestKeepsConnOk(c);
      case OpStartRead => ReadInterestKeepsConnOk(c);
      case OpStopRead => ReadInterestKeepsConnOk(c);
      case _ => ClosingKeepsConnOk(c);
    }
  }

  // ---------------------------------------------------------------- whole runs

  predicate AllowedRun(c: Conn, ops: seq<Op>)
    requires ConnOk(c)
    decreases |ops|
  {
    ops == [] ||
    (Allowed(c, ops[0]) &&
     (PerformKeepsConnOk(c, ops[0]); AllowedRun(Perform(c, ops[0]), ops[1..])))
  }

  function Run(c: Conn, ops: seq<Op>): (r: Conn)
    requires ConnOk(c) && AllowedRun(c, ops)
    ensures ConnOk(r)
    decreases |ops|
  {
    if ops == [] then c else PerformKeepsConnOk(c, ops[0]); Run(Perform(c, ops[0]), ops[1..])
  }

  /** The connection takes the message: it is up, and it is not finding out right now that the peer is gone. */
  predicate Accepts(c: Conn, r: WriteResult) {
    c.state == Connected && (r.PipeOrReset? ==> c.output != [])
  }

  /** What one call adds to the accepted bytes. */
  function AcceptedBy(c: Conn, op: Op): bytes {
    if op.OpSend? && Accepts(c, op.r) then op.data else []
  }

  /** The messages of a run that were accepted, end to end. */
  function AcceptedIn(c: Conn, ops: seq<Op>): bytes
    requires ConnOk(c) && AllowedRun(c, ops)
    decreases |ops|
  {
    if ops == [] then []
    else
      PerformKeepsConnOk(c, ops[0]);
      AcceptedBy(c, ops[0]) + AcceptedIn(Perform(c, ops[0]), ops[1..])
  }

  lemma PerformAccepts(c: Conn, op: Op)
    requires ConnOk(c) && Allowed(c, op)
    ensures Perform(c, op).accepted == c.accepted + AcceptedBy(c, op)
  {
    assert c.accepted + [] == c.accepted;
  }

  lemma {:induction false} AcceptedAccumulates(c: Conn, ops: seq<Op>)
    requires ConnOk(c) && AllowedRun(c, ops)
    ensures Run(c, ops).accepted == c.accepted + AcceptedIn(c, ops)
    decreases |ops|
  {
    if ops != [] {
      PerformKeepsConnOk(c, ops[0]);
      PerformAccepts(c, ops[0]);
      AcceptedAccumulates(Perform(c, ops[0]), ops[1..]);
    }
  }

  /** Conservation over every run: what the kernel got, followed by what is still buffered, is the accepted
      messages in order; and until the connection is down, writing is enabled exactly while bytes wait. */
  lemma StreamConservation(backend: Backend, hasWriteComplete: bool, highWater: Option<nat>, ops: seq<Op>)
    requires AllowedRun(NewConn(backend, hasWriteComplete, highWater), ops)
    ensures var c0 := NewConn(backend, hasWriteComplete, highWater);
            var c := Run(c0, ops);
            && c.sent + c.output == AcceptedIn(c0, ops)
            && (c.state != Disconnected ==> (c.channel.IsWriting() <==> c.output != []))
  {
    var c0 := NewConn(backend, hasWriteComplete, highWater);
    AcceptedAccumulates(c0, ops);
  }

  lemma PerformAfterFin(c: Conn, op: Op)
    requires ConnOk(c) && Allowed(c, op) && c.fins != []
    ensures Perform(c, op).sent == c.sent && Perform(c, op).fins == c.fins
  {}

  /** After the FIN nothing more is written, and no second FIN is sent. */
  lemma {:induction false} NothingAfterFin(c: Conn, ops: seq<Op>)
    requires ConnOk(c) && AllowedRun(c, ops) && c.fins != []
    ensures Run(c, ops).sent == c.sent == c.accepted && Run(c, ops).fins == c.fins == [|c.sent|]
    decreases |ops|
  {
    if ops != [] {
      PerformKeepsConnOk(c, ops[0]);
      PerformAfterFin(c, ops[0]);
      NothingAfterFin(Perform(c, ops[0]), ops[1..]);
    }
  }

  function Sum(ns: seq<nat>): nat {
    if ns == [] then 0 else ns[0] + Sum(ns[1..])
  }

  /** Writable events in which the kernel takes these many bytes. */
  function Writes(ns: seq<nat>): (ops: seq<Op>)
    ensures |ops| == |ns|
  {
    if ns == [] then [] else [OpWritable(Wrote(ns[0]))] + Writes(ns[1..])
  }

  /** A shutdown is never forgotten: however the kernel divides up the buffered bytes, draining them sends
      the FIN, right behind the last accepted byte. */
  lemma {:induction false} DrainingSendsFin(c: Conn, ns: seq<nat>)
    requires ConnOk(c) && c.state == Disconnecting && c.shutdownAsked
    requires (forall n :: n in ns ==> n > 0) && Sum(ns) == |c.output|
    ensures AllowedRun(c, Writes(ns))
    ensures var d := Run(c, Writes(ns)); d.sent == c.accepted && d.fins == [|c.accepted|]
    decreases |ns|
  {
    if ns != [] {
      var op := OpWritable(Wrote(ns[0]));
      PerformKeepsConnOk(c, op);
      assert Writes(ns) == [op] + Writes(ns[1..]);
      assert Writes(ns)[1..] == Writes(ns[1..]);
      assert forall n :: n in ns[1..] ==> n in ns;
      assert ns[0] in ns && ns[0] <= |c.output|;
      assert |Perform(c, op).output| == |c.output| - ns[0];
      MaskAlgebra(c.channel.events);
      DrainingSendsFin(Perform(c, op), ns[1..]);
    }
  }

  /** So `shutdown()` on an open connection is carried out, whatever waits when it is called. */
  lemma ShutdownSendsFin(c: Conn, ns: seq<nat>)
    requires ConnOk(c) && c.state == Connected && (forall n :: n in ns ==> n > 0) && Sum(ns) == |c.output|
    ensures ConnOk(Shutdown(c)) && AllowedRun(Shutdown(c), Writes(ns))
    ensures var d := Run(Shutdown(c), Writes(ns)); d.sent == c.accepted && d.fins == [|c.accepted|] && d.state == Disconnecting
  {
    ClosingKeepsConnOk(c);
    DrainingSendsFin(Shutdown(c), ns);
    WritesKeepState(Shutdown(c), ns);
  }

  lemma {:induction false} WritesKeepState(c: Conn, ns: seq<nat>)
    requires ConnOk(c) && AllowedRun(c, Writes(ns))
    ensures Run(c, Writes(ns)).state == c.state
    decreases |ns|
  {
    if ns != [] {
      var op := OpWritable(Wrote(ns[0]));
      assert Writes(ns) == [op] + Writes(ns[1..]);
      assert Writes(ns)[1..] == Writes(ns[1..]);
      PerformKeepsConnOk(c, op);
      WritesKeepState(Perform(c, op), ns[1..]);
    }
  }
}
