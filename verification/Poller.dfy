/** What the pollers see of a Channel (zing/net/Channel.h). */
module Poller {
  import opened Interest

  class Channel {
    const fd: nat
    var events: Mask
    var revents: Mask
    var index: int

    constructor (fd: nat)
      ensures this.fd == fd && events == NONE_EVENT && revents == NONE_EVENT && index == -1
    {
      this.fd := fd;
      events, revents, index := NONE_EVENT, NONE_EVENT, -1;
    }
  }
}
