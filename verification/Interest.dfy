/**
 What a poller keeps for one file descriptor, seen from outside the two implementations
 (zing/net/PollPoller.cpp and zing/net/EPollPoller.cpp): the events last asked for, and whether the
 kernel is watching the descriptor at all. An event mask is the set of its flags.
 */
module Interest {
  import opened Types

  datatype Flag = IN | PRI | OUT | ERR | HUP | NVAL | RDHUP

  type Mask = set<Flag>

  const NONE_EVENT: Mask := {}
  const READ_EVENT: Mask := {IN, PRI}
  const WRITE_EVENT: Mask := {OUT}

  /** Flags the kernel may report without being asked. */
  const ALWAYS_REPORTED: Mask := {ERR, HUP, NVAL}

  datatype Backend = Poll | Epoll

  datatype Registration = Registration(events: Mask, watched: bool)

  /** The effect of `updateChannel` on one descriptor; `None` is a descriptor the poller does not know.

      The backends differ on one input only: asking for nothing on a descriptor that is known but not
      watched leaves it alone under poll, and has epoll watch it again (with an empty mask). */
  function Updated(backend: Backend, known: Option<Registration>, events: Mask): Registration {
    match backend
    case Poll => Registration(events, known.None? || events != NONE_EVENT)
    case Epoll => Registration(events, known.None? || !known.value.watched || events != NONE_EVENT)
  }

  /** All descriptors of one poller. */
  type Table = map<int, Registration>

  lemma SameTable(t: Table, u: Table)
    requires t.Keys == u.Keys
    requires forall fd :: fd in t ==> t[fd] == u[fd]
    ensures t == u
  {
    assert forall fd | fd in t :: t[fd] == u[fd];
  }

  function Lookup(t: Table, fd: int): Option<Registration> {
    if fd in t then Some(t[fd]) else None
  }

  datatype Call = Update(fd: int, events: Mask) | Remove(fd: int)

  function Apply(backend: Backend, t: Table, call: Call): Table {
    match call
    case Update(fd, events) => t[fd := Updated(backend, Lookup(t, fd), events)]
    case Remove(fd) => t - {fd}
  }

  function ApplyAll(backend: Backend, t: Table, calls: seq<Call>): Table
    decreases |calls|
  {
    if calls == [] then t
    else Apply(backend, ApplyAll(backend, t, calls[..|calls| - 1]), calls[|calls| - 1])
  }

  /** The one map both pollers implement: descriptor to requested events. */
  function Requests(calls: seq<Call>): map<int, Mask>
    decreases |calls|
  {
    if calls == [] then map[]
    else
      var before := Requests(calls[..|calls| - 1]);
      match calls[|calls| - 1]
      case Update(fd, events) => before[fd := events]
      case Remove(fd) => before - {fd}
  }

  /** Both pollers carry the requested events of every descriptor, through any calls, and watch every
      descriptor with a request. */
  lemma {:induction false} BothImplementRequests(backend: Backend, calls: seq<Call>)
    ensures var t := ApplyAll(backend, map[], calls);
            && t.Keys == Requests(calls).Keys
            && (forall fd :: fd in t ==> t[fd].events == Requests(calls)[fd])
            && (forall fd :: fd in t && t[fd].events != NONE_EVENT ==> t[fd].watched)
    decreases |calls|
  {
    if calls != [] {
      BothImplementRequests(backend, calls[..|calls| - 1]);
    }
  }

  /** Asking for nothing on a known descriptor that is not being watched: the `kDeleted` branch of
      `EPollPoller::updateChannel` reached with an empty mask. */
  predicate DisablesAgain(t: Table, call: Call) {
    call.Update? && call.events == NONE_EVENT && call.fd in t && !t[call.fd].watched
  }

  predicate NeverDisablesAgain(calls: seq<Call>)
    decreases |calls|
  {
    calls == [] ||
    (NeverDisablesAgain(calls[..|calls| - 1]) &&
     !DisablesAgain(ApplyAll(Poll, map[], calls[..|calls| - 1]), calls[|calls| - 1]))
  }

  /** The two pollers stand for the same table after every prefix of the calls. */
  predicate AgreeThroughout(calls: seq<Call>)
    decreases |calls|
  {
    && ApplyAll(Poll, map[], calls) == ApplyAll(Epoll, map[], calls)
    && (calls == [] || AgreeThroughout(calls[..|calls| - 1]))
  }

  /** The choice of poller is invisible exactly to callers that never disable a disabled descriptor. */
  lemma {:induction false} PollersAgreeIff(calls: seq<Call>)
    ensures AgreeThroughout(calls) <==> NeverDisablesAgain(calls)
    decreases |calls|
  {
    if calls != [] {
      var before, call := calls[..|calls| - 1], calls[|calls| - 1];
      PollersAgreeIff(before);
      if AgreeThroughout(before) {
        var t := ApplyAll(Poll, map[], before);
        match call {
          case Remove(fd) =>
          case Update(fd, events) =>
            assert Apply(Poll, t, call)[fd] == Apply(Epoll, t, call)[fd] <==> !DisablesAgain(t, call);
        }
      }
    }
  }

  /** The last of the calls that name `fd` added it, without asking for anything. */
  predicate AddedIdle(calls: seq<Call>, fd: int)
    decreases |calls|
  {
    calls != [] &&
    (var before, last := calls[..|calls| - 1], calls[|calls| - 1];
     if last.fd == fd then last == Update(fd, NONE_EVENT) && fd !in Requests(before)
     else AddedIdle(before, fd))
  }

  /** Under poll a descriptor that asks for nothing is watched all the same exactly if it was added that way and
      not named since. `PollPoller::removeChannel` asserts that it is not watched. */
  lemma {:induction false} IdleButWatchedIff(calls: seq<Call>, fd: int)
    ensures var t := ApplyAll(Poll, map[], calls);
            fd in t ==> (t[fd] == Registration(NONE_EVENT, true) <==> AddedIdle(calls, fd))
    decreases |calls|
  {
    if calls != [] {
      var before := calls[..|calls| - 1];
      IdleButWatchedIff(before, fd);
      BothImplementRequests(Poll, before);
    }
  }

  /** Such a descriptor. */
  lemma AddedWithoutEvents(fd: int)
    ensures ApplyAll(Poll, map[], [Update(fd, NONE_EVENT)]) == map[fd := Registration(NONE_EVENT, true)]
  {
    var call := Update(fd, NONE_EVENT);
    assert [call][..0] == [];
    assert ApplyAll(Poll, map[], []) == map[];
  }
}
