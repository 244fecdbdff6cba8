/**
 zing/net/PollPoller.cpp: a dense array of `pollfd`, with the index of its slot in every channel. A slot whose
 channel asks for nothing holds `-fd - 1`, which poll(2) ignores.
 */
module PollPoller {
  import opened Interest
  import opened Poller

  datatype PollFd = PollFd(fd: int, events: Mask, revents: Mask)

  function Encoded(fd: int): int { -fd - 1 }

  /** The descriptor of a slot. */
  function Decoded(fd: int): int { if fd < 0 then -fd - 1 else fd }

  /** The slots that have something to report, in order. */
  function Ready(pollfds: seq<PollFd>): seq<PollFd>
    decreases |pollfds|
  {
    if pollfds == [] then []
    else
      var last := pollfds[|pollfds| - 1];
      Ready(pollfds[..|pollfds| - 1]) + if last.revents != NONE_EVENT then [last] else []
  }

  lemma {:induction false} ReadyGrows(pollfds: seq<PollFd>, k: nat)
    requires k <= |pollfds|
    ensures |Ready(pollfds[..k])| <= |Ready(pollfds)|
    ensures |Ready(pollfds[..k])| == |Ready(pollfds)| ==> Ready(pollfds[..k]) == Ready(pollfds)
    decreases |pollfds| - k
  {
    if k < |pollfds| {
      ReadyGrows(pollfds, k + 1);
      assert pollfds[..k + 1][..k] == pollfds[..k];
    } else {
      assert pollfds[..k] == pollfds;
    }
  }

  lemma ReadyStep(pollfds: seq<PollFd>, k: nat)
    requires k < |pollfds|
    ensures Ready(pollfds[..k + 1]) == Ready(pollfds[..k]) + if pollfds[k].revents != NONE_EVENT then [pollfds[k]] else []
  {
    assert pollfds[..k + 1][..k] == pollfds[..k];
  }

  lemma NothingReady()
    ensures Ready([]) == []
  {}

  /** What poll(2) writes: nothing for a negative descriptor, otherwise at most what it may report. */
  predicate KernelMayWrite(pollfds: seq<PollFd>, reported: seq<PollFd>) {
    && |reported| == |pollfds|
    && forall i :: 0 <= i < |pollfds| ==>
         && reported[i].(revents := pollfds[i].revents) == pollfds[i]
         && (if pollfds[i].fd < 0 then reported[i].revents == NONE_EVENT
             else reported[i].revents <= pollfds[i].events + ALWAYS_REPORTED)
  }

  /** Slot and index are inverse to each other; `slots` has the channels' indices. */
  ghost predicate Inverse(pollfds: seq<PollFd>, slots: map<int, int>) {
    && (forall fd :: fd in slots ==> 0 <= slots[fd] < |pollfds| && Decoded(pollfds[slots[fd]].fd) == fd)
    && (forall i :: 0 <= i < |pollfds| ==> Decoded(pollfds[i].fd) in slots && slots[Decoded(pollfds[i].fd)] == i)
  }

  /** Only channels that ask for nothing are disabled. */
  predicate DisabledAskNothing(pollfds: seq<PollFd>) {
    forall i :: 0 <= i < |pollfds| && pollfds[i].fd < 0 ==> pollfds[i].events == NONE_EVENT
  }

  function RegistrationAt(pfd: PollFd): Registration { Registration(pfd.events, pfd.fd >= 0) }

  ghost function TableOf(pollfds: seq<PollFd>, slots: map<int, int>): Table
    requires Inverse(pollfds, slots)
  {
    map fd | fd in slots :: RegistrationAt(pollfds[slots[fd]])
  }

  lemma PushOk(pollfds: seq<PollFd>, slots: map<int, int>, fd: nat, events: Mask)
    requires Inverse(pollfds, slots) && fd !in slots
    ensures var p, s := pollfds + [PollFd(fd, events, NONE_EVENT)], slots[fd := |pollfds|];
            Inverse(p, s) && TableOf(p, s) == Apply(Poll, TableOf(pollfds, slots), Update(fd, events))
  {
    var p, s := pollfds + [PollFd(fd, events, NONE_EVENT)], slots[fd := |pollfds|];
    SameTable(TableOf(p, s), Apply(Poll, TableOf(pollfds, slots), Update(fd, events)));
  }

  lemma SetOk(pollfds: seq<PollFd>, slots: map<int, int>, fd: nat, events: Mask)
    requires Inverse(pollfds, slots) && fd in slots
    ensures var code := if events == NONE_EVENT then Encoded(fd) else fd;
            var p := pollfds[slots[fd] := PollFd(code, events, NONE_EVENT)];
            Inverse(p, slots) && TableOf(p, slots) == Apply(Poll, TableOf(pollfds, slots), Update(fd, events))
  {
    var code := if events == NONE_EVENT then Encoded(fd) else fd;
    var p := pollfds[slots[fd] := PollFd(code, events, NONE_EVENT)];
    SameTable(TableOf(p, slots), Apply(Poll, TableOf(pollfds, slots), Update(fd, events)));
  }

  lemma PopOk(pollfds: seq<PollFd>, slots: map<int, int>, fd: nat)
    requires Inverse(pollfds, slots) && fd in slots && slots[fd] == |pollfds| - 1
    ensures var p := pollfds[..|pollfds| - 1];
            Inverse(p, slots - {fd}) && TableOf(p, slots - {fd}) == Apply(Poll, TableOf(pollfds, slots), Remove(fd))
  {
    var p := pollfds[..|pollfds| - 1];
    SameTable(TableOf(p, slots - {fd}), Apply(Poll, TableOf(pollfds, slots), Remove(fd)));
  }

  /** The last slot moves to the free place. */
  lemma SwapPopOk(pollfds: seq<PollFd>, slots: map<int, int>, fd: nat)
    requires Inverse(pollfds, slots) && fd in slots && slots[fd] < |pollfds| - 1
    ensures var end := |pollfds| - 1;
            var atEnd := Decoded(pollfds[end].fd);
            var p, s := pollfds[slots[fd] := pollfds[end]][..end], (slots - {fd})[atEnd := slots[fd]];
            && atEnd in slots && atEnd != fd
            && Inverse(p, s) && TableOf(p, s) == Apply(Poll, TableOf(pollfds, slots), Remove(fd))
  {
    var end := |pollfds| - 1;
    var atEnd := Decoded(pollfds[end].fd);
    var p, s := pollfds[slots[fd] := pollfds[end]][..end], (slots - {fd})[atEnd := slots[fd]];
    SameTable(TableOf(p, s), Apply(Poll, TableOf(pollfds, slots), Remove(fd)));
  }

  class PollPoller {
    var pollfds: seq<PollFd>
    var channels: map<int, Channel>

    ghost function Slots(): map<int, int>
      reads this`channels, channels.Values`index
    {
      map fd | fd in channels :: channels[fd].index
    }

    ghost predicate Valid()
      reads this, channels.Values`index
    {
      && (forall fd :: fd in channels ==> channels[fd].fd == fd)
      && Inverse(pollfds, Slots()) && DisabledAskNothing(pollfds)
    }

    ghost function Abs(): Table
      requires Valid()
      reads this, channels.Values`index
    {
      TableOf(pollfds, Slots())
    }

    constructor ()
      ensures Valid() && Abs() == map[] && channels == map[]
    {
      pollfds, channels := [], map[];
    }

    /** A channel that was removed keeps its index, so only a channel that was never added, or that is here,
        may be passed. */
    method UpdateChannel(channel: Channel)
      requires Valid()
      requires if channel.index < 0 then channel.fd !in channels
               else channel.fd in channels && channels[channel.fd] == channel
      modifies this, channel`index
      ensures channel.index >= 0 && channels == old(channels)[channel.fd := channel]
      ensures Valid() && Abs() == Apply(Poll, old(Abs()), Update(channel.fd, channel.events))
    {
      if channel.index < 0 {
        Push(channel);
      } else {
        ghost var slots := Slots();
        SetOk(pollfds, slots, channel.fd, channel.events);
        assert slots[channel.fd] == channel.index;
        hide Inverse, TableOf;
        var fd := if channel.events == NONE_EVENT then Encoded(channel.fd) else channel.fd;
        pollfds := pollfds[channel.index := PollFd(fd, channel.events, NONE_EVENT)];
        assert Slots() == slots;
      }
    }

    method Push(channel: Channel)
      requires Valid() && channel.index < 0 && channel.fd !in channels
      modifies this, channel`index
      ensures channel.index >= 0 && channels == old(channels)[channel.fd := channel]
      ensures Valid() && Abs() == Apply(Poll, old(Abs()), Update(channel.fd, channel.events))
    {
      ghost var slots := Slots();
      PushOk(pollfds, slots, channel.fd, channel.events);
      hide Inverse, TableOf;
      pollfds := pollfds + [PollFd(channel.fd, channel.events, NONE_EVENT)];
      channel.index := |pollfds| - 1;
      channels := channels[channel.fd := channel];
      forall fd | fd in channels ensures channels[fd].index == slots[channel.fd := channel.index][fd] {
        if fd != channel.fd { assert channels[fd].fd == fd; }
      }
      assert Slots() == slots[channel.fd := channel.index];
    }

    /** The slot must have been disabled: a channel that was added without asking for anything, and never
        disabled, fails the source's assertion on its slot. */
    method RemoveChannel(channel: Channel)
      requires Valid()
      requires channel.fd in channels && channels[channel.fd] == channel
      requires channel.events == NONE_EVENT && Abs()[channel.fd] == Registration(NONE_EVENT, false)
      modifies this, channels.Values`index
      ensures channels == old(channels) - {channel.fd}
      ensures Valid() && Abs() == Apply(Poll, old(Abs()), Remove(channel.fd))
    {
      SlotOf(channel);
      var idx := channel.index;
      assert pollfds[idx].fd == Encoded(channel.fd) && pollfds[idx].events == channel.events;
      if idx == |pollfds| - 1 {
        ghost var slots := Slots();
        PopOk(pollfds, slots, channel.fd);
        hide Inverse, TableOf;
        channels := channels - {channel.fd};
        pollfds := pollfds[..|pollfds| - 1];
        assert Slots() == slots - {channel.fd};
      } else {
        SwapWithLast(channel);
      }
    }

    lemma SlotOf(channel: Channel)
      requires Valid() && channel.fd in channels && channels[channel.fd] == channel
      ensures Slots()[channel.fd] == channel.index && 0 <= channel.index < |pollfds|
      ensures Abs()[channel.fd] == RegistrationAt(pollfds[channel.index])
      ensures Decoded(pollfds[channel.index].fd) == channel.fd
    {}

    method SwapWithLast(channel: Channel)
      requires Valid() && channel.fd in channels && channels[channel.fd] == channel && channel.index < |pollfds| - 1
      modifies this, channels.Values`index
      ensures channels == old(channels) - {channel.fd}
      ensures Valid() && Abs() == Apply(Poll, old(Abs()), Remove(channel.fd))
    {
      SlotOf(channel);
      ghost var slots := Slots();
      var idx, end := channel.index, |pollfds| - 1;
      SwapPopOk(pollfds, slots, channel.fd);
      hide Inverse, TableOf;
      var fdAtEnd := Decoded(pollfds[end].fd);
      assert pollfds[idx := pollfds[end]][end := pollfds[idx]][..end] == pollfds[idx := pollfds[end]][..end];
      channels := channels - {channel.fd};
      pollfds := pollfds[idx := pollfds[end]][end := pollfds[idx]];
      channels[fdAtEnd].index := idx;
      pollfds := pollfds[..end];
      forall fd | fd in channels ensures channels[fd].index == (slots - {channel.fd})[fdAtEnd := idx][fd] {
        if fd != fdAtEnd { assert channels[fd].fd == fd; }
      }
      assert Slots() == (slots - {channel.fd})[fdAtEnd := idx];
    }

    /** `poll` and `fillActiveChannels`: exactly the channels with something to report become active, once
        each, in the order of the slots; the count that `poll` returns cuts the search short. */
    method PollOnce(reported: seq<PollFd>, numEvents: nat) returns (active: seq<Channel>)
      requires Valid()
      requires KernelMayWrite(pollfds, reported) && numEvents == |Ready(reported)|
      modifies this`pollfds, channels.Values`revents
      ensures Valid() && Abs() == old(Abs())
      ensures |active| == |Ready(reported)|
      ensures forall k :: 0 <= k < |active| ==> Delivered(active[k], Ready(reported)[k])
      ensures forall j, k :: 0 <= j < k < |active| ==> active[j].index < active[k].index
      ensures forall fd :: fd in channels && channels[fd] !in active ==> channels[fd].revents == old(channels[fd].revents)
    {
      hide Inverse, TableOf, Ready;
      WriteOk(pollfds, reported, Slots());
      pollfds := reported;
      assert Slots() == old(Slots());
      active := FillActiveChannels(numEvents);
    }

    lemma SlotOwner(i: nat)
      requires Valid() && i < |pollfds| && pollfds[i].fd >= 0
      ensures pollfds[i].fd in channels && channels[pollfds[i].fd].index == i
    {
      assert Slots()[pollfds[i].fd] == i;
    }

    method FillActiveChannels(numEvents: nat) returns (active: seq<Channel>)
      requires Valid() && numEvents == |Ready(pollfds)|
      requires forall i :: 0 <= i < |pollfds| && pollfds[i].fd < 0 ==> pollfds[i].revents == NONE_EVENT
      modifies channels.Values`revents
      ensures |active| == |Ready(pollfds)|
      ensures forall k :: 0 <= k < |active| ==> Delivered(active[k], Ready(pollfds)[k])
      ensures forall j, k :: 0 <= j < k < |active| ==> active[j].index < active[k].index
      ensures forall fd :: fd in channels && channels[fd] !in active ==> channels[fd].revents == old(channels[fd].revents)
    {
      hide Inverse, Ready;
      active := [];
      assert Ready(pollfds[..0]) == [] by { NothingReady(); }
      var left := numEvents;
      var i := 0;
      while i < |pollfds| && left > 0
        invariant 0 <= i <= |pollfds| && |active| + left == numEvents
        invariant |active| == |Ready(pollfds[..i])|
        invariant forall k :: 0 <= k < |active| ==> Delivered(active[k], Ready(pollfds[..i])[k])
        invariant forall k :: 0 <= k < |active| ==> active[k].index < i
        invariant forall j, k :: 0 <= j < k < |active| ==> active[j].index < active[k].index
        invariant forall fd :: fd in channels && channels[fd] !in active ==> channels[fd].revents == old(channels[fd].revents)
        modifies channels.Values`revents
      {
        ReadyStep(pollfds, i);
        if pollfds[i].revents != NONE_EVENT {
          left := left - 1;
          SlotOwner(i);
          var channel := channels[pollfds[i].fd];
          channel.revents := pollfds[i].revents;
          active := active + [channel];
        }
        i := i + 1;
      }
      ReadyGrows(pollfds, i);
      if i == |pollfds| { assert pollfds[..i] == pollfds; }
    }

    /** The channel of the slot has been told what was reported for it. */
    ghost predicate Delivered(c: Channel, pfd: PollFd)
      reads this`channels, c
    {
      pfd.fd in channels && c == channels[pfd.fd] && c.revents == pfd.revents
    }
  }

  lemma WriteOk(pollfds: seq<PollFd>, reported: seq<PollFd>, slots: map<int, int>)
    requires Inverse(pollfds, slots) && DisabledAskNothing(pollfds) && KernelMayWrite(pollfds, reported)
    ensures Inverse(reported, slots) && DisabledAskNothing(reported)
    ensures TableOf(reported, slots) == TableOf(pollfds, slots)
  {
    SameTable(TableOf(reported, slots), TableOf(pollfds, slots));
  }
}
