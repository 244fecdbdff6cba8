/**
 zing/net/Channel.h, zing/net/Channel.cpp: the event mask of one descriptor. Every change of the mask is
 pushed to the poller, whose reaction for this descriptor is `Interest.Updated`.
 */
module Channel {
  import opened Types
  import opened Interest

  datatype Channel = Channel(backend: Backend, events: Mask, registration: Option<Registration>) {

    predicate IsNoneEvent() { events == NONE_EVENT }

    predicate IsReading() { events * READ_EVENT != {} }

    predicate IsWriting() { events * WRITE_EVENT != {} }

    /** The poller knows the descriptor (`hasChannel`). */
    predicate Added() { registration.Some? }

    /** The kernel may report this descriptor. */
    predicate Watched() { registration.Some? && registration.value.watched }

    function SetEvents(newEvents: Mask): Channel {
      Channel(backend, newEvents, Some(Updated(backend, registration, newEvents)))
    }

    function EnableReading(): Channel { SetEvents(events + READ_EVENT) }

    function DisableReading(): Channel { SetEvents(events - READ_EVENT) }

    function EnableWriting(): Channel { SetEvents(events + WRITE_EVENT) }

    function DisableWriting(): Channel { SetEvents(events - WRITE_EVENT) }

    function DisableAll(): Channel { SetEvents(NONE_EVENT) }

    function Removed(): Channel { this.(registration := None) }

    /** The mask is the one the poller was last told, and the kernel watches iff something was asked for. */
    predicate InStep() {
      registration.Some? && registration.value == Registration(events, events != NONE_EVENT)
    }
  }

  const FRESH_MASK: Mask := NONE_EVENT

  function NewChannel(backend: Backend): Channel { Channel(backend, FRESH_MASK, None) }

  /** The tests of `handleEventWithGuard`, in its order. */
  predicate CallsClose(revents: Mask) { HUP in revents && IN !in revents }

  predicate CallsRead(revents: Mask) { revents * {IN, PRI, RDHUP} != {} }

  predicate CallsWrite(revents: Mask) { OUT in revents }

  /** What poll(2) and epoll_wait(2) can report: a watched descriptor, flags that were requested or that
      are always reported. */
  predicate KernelMayReport(ch: Channel, revents: Mask) {
    && ch.Watched()
    && revents != {}
    && revents <= ch.registration.value.events + ALWAYS_REPORTED
  }

  /** Priority data on a descriptor that hung up and has nothing to read. */
  predicate UrgentAfterHangup(revents: Mask) {
    HUP in revents && IN !in revents && PRI in revents
  }

  /** The close and the read callback both run in one dispatch exactly on priority data after a hang-up. */
  lemma CloseAndReadIff(ch: Channel, revents: Mask)
    requires KernelMayReport(ch, revents)
    requires ch.registration.value.events <= READ_EVENT + WRITE_EVENT
    ensures CallsClose(revents) && CallsRead(revents) <==> UrgentAfterHangup(revents)
  {
    if CallsClose(revents) && CallsRead(revents) {
      var f :| f in revents * {IN, PRI, RDHUP};
      assert f == PRI;
    }
    if UrgentAfterHangup(revents) {
      assert PRI in revents * {IN, PRI, RDHUP};
    }
  }
}
