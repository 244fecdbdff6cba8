/**
 zing/net/EPollPoller.cpp: three states of a channel, kept in its index, against the kernel's interest list.
 `EpollCtl` has the preconditions under which epoll_ctl(2) succeeds, so that every call is shown to be legal.
 */
module EPollPoller {
  import opened Interest
  import opened Poller

  const NEW: int := -1
  const ADDED: int := 1
  const DELETED: int := 2

  datatype Operation = ADD | MOD | DEL

  /** An `epoll_event`: the mask and the channel that `data.ptr` points to. */
  datatype EpollEvent = EpollEvent(events: Mask, ptr: Channel)

  class EPollPoller {
    var channels: map<int, Channel>

    /** The kernel's interest list. */
    var interests: map<int, EpollEvent>

    /** A descriptor is in the interest list iff its channel's index is `ADDED`; it was removed from the list
        only when its channel asked for nothing. */
    ghost predicate Valid()
      reads this, channels.Values`index
    {
      && (forall fd :: fd in channels ==>
            && channels[fd].fd == fd && (channels[fd].index == ADDED || channels[fd].index == DELETED)
            && (fd in interests <==> channels[fd].index == ADDED)
            && (fd in interests ==> interests[fd].ptr == channels[fd]))
      && (forall fd :: fd in interests ==> fd in channels)
    }

    ghost function Abs(): Table
      reads this
    {
      map fd | fd in channels ::
        if fd in interests then Registration(interests[fd].events, true) else Registration(NONE_EVENT, false)
    }

    constructor ()
      ensures Valid() && Abs() == map[] && channels == map[]
    {
      channels, interests := map[], map[];
    }

    /** `update`: epoll_ctl with the channel's mask. */
    method EpollCtl(operation: Operation, channel: Channel)
      requires operation == ADD <==> channel.fd !in interests
      modifies this`interests
      ensures interests == if operation == DEL then old(interests) - {channel.fd}
                           else old(interests)[channel.fd := EpollEvent(channel.events, channel)]
    {
      interests := if operation == DEL then interests - {channel.fd}
                   else interests[channel.fd := EpollEvent(channel.events, channel)];
    }

    method UpdateChannel(channel: Channel)
      requires Valid()
      requires if channel.index == NEW then channel.fd !in channels
               else channel.fd in channels && channels[channel.fd] == channel
      modifies this, channel`index
      ensures channel.index != NEW && channels == old(channels)[channel.fd := channel]
      ensures Valid() && Abs() == Apply(Epoll, old(Abs()), Update(channel.fd, channel.events))
    {
      ghost var t := Abs();
      var fd := channel.fd;
      if channel.index == NEW || channel.index == DELETED {
        if channel.index == NEW {
          channels := channels[fd := channel];
        }
        channel.index := ADDED;
        EpollCtl(ADD, channel);
      } else {
        assert channel.index == ADDED;
        if channel.events == NONE_EVENT {
          EpollCtl(DEL, channel);
          channel.index := DELETED;
        } else {
          EpollCtl(MOD, channel);
        }
      }
      SameTable(Abs(), Apply(Epoll, t, Update(fd, channel.events)));
    }

    method RemoveChannel(channel: Channel)
      requires Valid()
      requires channel.fd in channels && channels[channel.fd] == channel && channel.events == NONE_EVENT
      modifies this, channel`index
      ensures channel.index == NEW && channels == old(channels) - {channel.fd}
      ensures Valid() && Abs() == Apply(Epoll, old(Abs()), Remove(channel.fd))
    {
      ghost var t := Abs();
      var index := channel.index;
      channels := channels - {channel.fd};
      if index == ADDED {
        EpollCtl(DEL, channel);
      }
      channel.index := NEW;
      SameTable(Abs(), Apply(Epoll, t, Remove(channel.fd)));
    }

    /** What epoll_wait(2) may return: each descriptor once, with flags that it may report. */
    predicate KernelMayReturn(events: seq<EpollEvent>)
      reads this`interests, set e | e in events :: e.ptr
    {
      && (forall i :: 0 <= i < |events| ==>
            && events[i].ptr.fd in interests && interests[events[i].ptr.fd].ptr == events[i].ptr
            && events[i].events != NONE_EVENT
            && events[i].events <= interests[events[i].ptr.fd].events + ALWAYS_REPORTED)
      && (forall i, j :: 0 <= i < j < |events| ==> events[i].ptr != events[j].ptr)
    }

    /** `fillActiveChannels`: the returned channels become active, in the kernel's order; each of them is here. */
    method FillActiveChannels(events: seq<EpollEvent>) returns (active: seq<Channel>)
      requires Valid() && KernelMayReturn(events)
      modifies channels.Values`revents
      ensures Valid() && Abs() == old(Abs()) && |active| == |events|
      ensures forall i :: 0 <= i < |active| ==>
                && active[i] == events[i].ptr && active[i].revents == events[i].events
                && active[i].fd in channels && channels[active[i].fd] == active[i]
      ensures forall fd :: fd in channels && channels[fd] !in active ==> channels[fd].revents == old(channels[fd].revents)
    {
      active := [];
      for i := 0 to |events|
        invariant |active| == i
        invariant forall k :: 0 <= k < i ==> active[k] == events[k].ptr && active[k].revents == events[k].events
        invariant forall fd :: fd in channels && channels[fd] !in active ==> channels[fd].revents == old(channels[fd].revents)
        modifies channels.Values`revents
      {
        var channel := events[i].ptr;
        assert channel.fd in channels && channels[channel.fd] == channel;
        channel.revents := events[i].events;
        active := active + [channel];
      }
    }
  }
}
