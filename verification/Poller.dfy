/** muduo/Channel.h, muduo/Poller.cpp and muduo/EpollPoller.cpp as objects that update in place. */
module Poller {
  import opened Common
  import opened EventMask
  import opened Registration
  import opened EventSlots

  /** A slot of the event list: the channel it points to, and what happened to it. */
  datatype Event = Event(ptr: Channel?, events: Mask)

  const EMPTY_SLOT := Event(null, {})

  /** The channels of the events, in order. */
  predicate Lists(active: seq<Channel>, events: seq<Event>) {
    |active| == |events| && forall i :: 0 <= i < |events| ==> active[i] == events[i].ptr
  }

  class Channel {
    const fd: int
    const masks: Masks
    const poller: EpollPoller
    var events: Mask
    var revents: Mask
    var index: Index

    constructor (poller: EpollPoller, fd: int, masks: Masks)
      ensures this.poller == poller && this.fd == fd && this.masks == masks
      ensures events == {} && revents == {} && index == New
    {
      this.poller, this.fd, this.masks := poller, fd, masks;
      events, revents, index := {}, {}, New;
    }

    predicate IsNoneEvent()
      reads this
    {
      events == {}
    }

    predicate IsWriting()
      reads this
    {
      events * masks.write != {}
    }

    ghost predicate Ready()
      reads this, poller, poller.known
    {
      this in poller.known && poller.Valid()
    }

    method EnableReading()
      requires Ready()
      modifies this`events, this`index, poller`channels, poller`kernel
      ensures Ready() && poller.ChangedOnly(this, WithEvents(old(poller.RegOf(this)), old(events) + masks.read))
    {
      events := events + masks.read;
      poller.UpdateChannel(this);
    }

    method DisableReading()
      requires Ready()
      modifies this`events, this`index, poller`channels, poller`kernel
      ensures Ready() && poller.ChangedOnly(this, WithEvents(old(poller.RegOf(this)), old(events) - masks.read))
    {
      events := events - masks.read;
      poller.UpdateChannel(this);
    }

    method EnableWriting()
      requires Ready()
      modifies this`events, this`index, poller`channels, poller`kernel
      ensures Ready() && poller.ChangedOnly(this, WithEvents(old(poller.RegOf(this)), old(events) + masks.write))
    {
      events := events + masks.write;
      poller.UpdateChannel(this);
    }

    method DisableWriting()
      requires Ready()
      modifies this`events, this`index, poller`channels, poller`kernel
      ensures Ready() && poller.ChangedOnly(this, WithEvents(old(poller.RegOf(this)), old(events) - masks.write))
    {
      events := events - masks.write;
      poller.UpdateChannel(this);
    }

    method DisableAll()
      requires Ready()
      modifies this`events, this`index, poller`channels, poller`kernel
      ensures Ready() && poller.ChangedOnly(this, WithEvents(old(poller.RegOf(this)), {}))
    {
      events := {};
      poller.UpdateChannel(this);
    }

    method Remove()
      requires Ready()
      modifies this`index, poller`channels, poller`kernel
      ensures Ready() && poller.ChangedOnly(this, Removed(old(poller.RegOf(this))))
    {
      poller.RemoveChannel(this);
    }
  }

  class EpollPoller {
    var channels: map<int, Channel>
    var events: seq<Event>
    /** The interest set the kernel holds for this epoll descriptor. */
    ghost var kernel: map<int, Mask>
    /** The live channels of this loop; open descriptors are pairwise distinct. */
    ghost var known: set<Channel>

    constructor ()
      ensures Valid() && known == {} && kernel == map[] && channels == map[]
      ensures events == seq(INITIAL_SLOTS, _ => EMPTY_SLOT)
    {
      channels, kernel, known := map[], map[], {};
      events := seq(INITIAL_SLOTS, _ => EMPTY_SLOT);
    }

    ghost predicate Structure()
      reads this, known
    {
      && (forall c, d :: c in known && d in known && c.fd == d.fd ==> c == d)
      && (forall c :: c in known ==> c.poller == this)
      && (forall fd :: fd in channels ==> channels[fd] in known && channels[fd].fd == fd)
      && (forall fd :: fd in kernel ==> fd in channels)
    }

    /** Every live channel agrees with the map and with the kernel. */
    ghost predicate Valid()
      reads this, known
    {
      Structure() && forall c :: c in known ==> Agrees(RegOf(c))
    }

    ghost function RegOf(c: Channel): (r: Reg)
      reads this, c
      ensures r.events == c.events && r.index == c.index
    {
      Reg(c.index, c.events, c.fd in channels && channels[c.fd] == c,
          if c.fd in kernel then Some(kernel[c.fd]) else None, true)
    }

    /** The registration of `c` is now `r`, and no other live channel's changed. */
    twostate predicate ChangedOnly(c: Channel, r: Reg)
      reads this, known, c
    {
      && known == old(known)
      && RegOf(c) == r
      && forall d :: d in known && d != c ==> RegOf(d) == old(RegOf(d))
    }

    /** A new socket's channel joins: its descriptor is not that of any live channel. */
    ghost method Adopt(c: Channel)
      requires Valid() && c.poller == this && c.index == New && c.events == {}
      requires forall d :: d in known ==> d.fd != c.fd
      modifies this`known
      ensures Valid() && known == old(known) + {c} && RegOf(c) == FRESH_REG
      ensures forall d :: d in old(known) ==> RegOf(d) == old(RegOf(d))
    {
      known := known + {c};
    }

    /** The map lookup answers exactly whether the channel's index has left kNew. */
    predicate HasChannel(c: Channel)
      reads this
    {
      c.fd in channels && channels[c.fd] == c
    }

    lemma HasChannelIffRegistered(c: Channel)
      requires Valid() && c in known
      ensures HasChannel(c) <==> c.index != New
      ensures c.fd in kernel <==> c.index == Added
      ensures c.fd in kernel ==> kernel[c.fd] == c.events
    {
      assert Agrees(RegOf(c));
    }

    method UpdateChannel(c: Channel)
      requires Structure() && c in known && AgreesButForMask(RegOf(c))
      requires forall d :: d in known && d != c ==> Agrees(RegOf(d))
      modifies c`index, this`channels, this`kernel
      ensures Valid() && ChangedOnly(c, Updated(old(RegOf(c))))
    {
      if c.index == New || c.index == Deleted {
        if c.index == New {
          channels := channels[c.fd := c];
        }
        c.index := Added;
        Update(Add, c);
      } else {
        if c.IsNoneEvent() {
          Update(Del, c);
          c.index := Deleted;
        } else {
          Update(Mod, c);
        }
      }
    }

    method RemoveChannel(c: Channel)
      requires Valid() && c in known
      modifies c`index, this`channels, this`kernel
      ensures Valid() && ChangedOnly(c, Removed(old(RegOf(c))))
    {
      assert Agrees(RegOf(c));
      channels := channels - {c.fd};
      if c.index == Added {
        Update(Del, c);
      }
      c.index := New;
    }

    /** epoll_ctl.  The precondition is the kernel's: ADD an absent descriptor, MOD or DEL a present one. */
    method Update(op: CtlOp, c: Channel)
      requires op.Add? <==> c.fd !in kernel
      modifies this`kernel
      ensures kernel == if op.Del? then old(kernel) - {c.fd} else old(kernel)[c.fd := c.events]
    {
      match op
      case Add => kernel := kernel[c.fd := c.events];
      case Mod => kernel := kernel[c.fd := c.events];
      case Del => kernel := kernel - {c.fd};
    }

    /** fillActivateChannels as it is meant, over its `numEvents`: marks the channels of the `|ready|`
        reported events active, in the order reported. */
    method FillActivateChannels(ready: seq<(Channel, Mask)>) returns (active: seq<Channel>)
      requires Valid()
      requires forall i :: 0 <= i < |ready| ==> ready[i].0 in known && ready[i].0.fd in kernel
      requires forall i, j :: 0 <= i < j < |ready| ==> ready[i].0 != ready[j].0
      modifies (set i | 0 <= i < |ready| :: ready[i].0)`revents
      ensures Valid() && |active| == |ready|
      ensures forall i :: 0 <= i < |ready| ==> active[i] == ready[i].0 && active[i].revents == ready[i].1
      ensures forall i :: 0 <= i < |ready| ==> HasChannel(active[i])
    {
      active := [];
      for i := 0 to |ready|
        invariant |active| == i
        invariant forall k :: 0 <= k < i ==> active[k] == ready[k].0 && active[k].revents == ready[k].1
      {
        ready[i].0.revents := ready[i].1;
        active := active + [ready[i].0];
      }
      forall i | 0 <= i < |ready|
        ensures HasChannel(active[i])
      {
        assert Agrees(RegOf(active[i]));
      }
    }

    /** fillActivateChannels as it is written, over every slot.  It faults at the first null pointer; a
        channel in several slots keeps the events of the last. */
    method FillActivateChannelsAsWritten() returns (active: seq<Channel>, faulted: bool)
      modifies (set e | e in events && e.ptr != null :: e.ptr)`revents
      ensures |active| <= |events| && Lists(active, events[..|active|])
      ensures if faulted then |active| < |events| && events[|active|].ptr == null else |active| == |events|
      ensures forall i :: 0 <= i < |active| && (forall j :: i < j < |active| ==> active[j] != active[i]) ==>
                active[i].revents == events[i].events
    {
      active := [];
      for i := 0 to |events|
        invariant Lists(active, events[..i])
        invariant forall k :: 0 <= k < i && (forall j :: k < j < i ==> active[j] != active[k]) ==>
                    active[k].revents == events[k].events
      {
        var channel := events[i].ptr;
        if channel == null {
          faulted := true;
          return;
        }
        channel.revents := events[i].events;
        active := active + [channel];
      }
      faulted := false;
    }

    /** One poll as it is written, when epoll_wait answers with these events.  Its active list is what was
        reported if and only if nothing was or the event list was full; with the last slot empty, as
        every poll leaves it, it faults in all other cases. */
    method Poll(reported: seq<Event>) returns (active: seq<Channel>, faulted: bool)
      requires |reported| <= |events| && forall i :: 0 <= i < |reported| ==> reported[i].ptr != null
      modifies this`events, (set e | e in reported && e.ptr != null :: e.ptr)`revents
      modifies (set e | e in events && e.ptr != null :: e.ptr)`revents
      ensures events == if faulted then Filled(reported, old(events)) else Kept(reported, old(events), EMPTY_SLOT)
      ensures !faulted ==> Lists(active, Visited(reported, old(events)))
      ensures !faulted && Lists(active, reported) <==> reported == [] || |reported| == |old(events)|
      ensures old(events) != [] && old(events)[|old(events)| - 1] == EMPTY_SLOT ==>
                events[|events| - 1] == EMPTY_SLOT && (faulted <==> 0 < |reported| < |old(events)|)
    {
      ghost var before := events;
      active, faulted := [], false;
      events := Filled(reported, events);
      if |reported| > 0 {
        active, faulted := FillActivateChannelsAsWritten();
        if !faulted && |reported| == |events| {
          events := events + seq(|events|, _ => EMPTY_SLOT);
        }
      }
      if |before| > 0 && before[|before| - 1] == EMPTY_SLOT {
        LastSlotIsEmpty(reported, before, EMPTY_SLOT);
      }
      VisitedIffFull(reported, before);
    }
  }
}
