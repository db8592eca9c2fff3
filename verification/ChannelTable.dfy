/**
 All channels of one loop over its poller's map and the kernel's interest set (muduo/EpollPoller.cpp), where
 descriptors are closed and used again.  Each step is the single-channel step of module Registration for the
 channel it is about, and none for the others.
 */
module ChannelTable {
  import opened Common
  import opened EventMask
  import opened Registration

  type ChannelId = nat

  datatype Entry = Entry(fd: int, index: Index, events: Mask)

  /** The live channels, `channels_`, and the kernel's interest set. */
  datatype Table = Table(
    live: map<ChannelId, Entry>,
    channels: map<int, ChannelId>,
    kernel: map<int, Mask>,
    legal: bool                     // every epoll_ctl so far was
  )

  const EMPTY_TABLE := Table(map[], map[], map[], true)

  datatype TableOp =
    | Open(id: ChannelId, fd: int)            // a channel for a descriptor just opened
    | Change(id: ChannelId, events: Mask)     // set its wanted events and update the poller
    | Leave(id: ChannelId)                    // removeChannel
    | Close(id: ChannelId)                    // channel and descriptor go, once it has left

  /** An open descriptor is no other's. */
  predicate Possible(t: Table, op: TableOp) {
    match op
    case Open(id, fd) => id !in t.live && forall other :: other in t.live ==> t.live[other].fd != fd
    case Change(id, _) => id in t.live
    case Leave(id) => id in t.live
    case Close(id) => id in t.live && t.live[id].index.New?
  }

  /** epoll_ctl on a descriptor; an illegal request changes nothing. */
  function Control(t: Table, op: CtlOp, fd: int, events: Mask): Table {
    match op
    case Add => if fd !in t.kernel then t.(kernel := t.kernel[fd := events]) else t.(legal := false)
    case Mod => if fd in t.kernel then t.(kernel := t.kernel[fd := events]) else t.(legal := false)
    case Del => if fd in t.kernel then t.(kernel := t.kernel - {fd}) else t.(legal := false)
  }

  function Perform(t: Table, op: TableOp): Table
    requires Possible(t, op)
  {
    match op
    case Open(id, fd) => t.(live := t.live[id := Entry(fd, New, {})])
    case Change(id, events) =>
      var c := t.live[id].(events := events);
      if c.index.New? || c.index.Deleted? then
        var entered := if c.index.New? then t.(channels := t.channels[c.fd := id]) else t;
        Control(entered, Add, c.fd, events).(live := t.live[id := c.(index := Added)])
      else if events == {} then
        Control(t, Del, c.fd, events).(live := t.live[id := c.(index := Deleted)])
      else
        Control(t, Mod, c.fd, events).(live := t.live[id := c])
    case Leave(id) =>
      var c := t.live[id];
      var erased := t.(channels := t.channels - {c.fd});
      (if c.index.Added? then Control(erased, Del, c.fd, c.events) else erased).(live := t.live[id := c.(index := New)])
    case Close(id) => t.(live := t.live - {id})
  }

  /** One channel's registration, as module Registration sees it. */
  function View(t: Table, id: ChannelId): Reg
    requires id in t.live
  {
    var c := t.live[id];
    Reg(c.index, c.events, c.fd in t.channels && t.channels[c.fd] == id,
        if c.fd in t.kernel then Some(t.kernel[c.fd]) else None, t.legal)
  }

  predicate Sound(t: Table) {
    && (forall a, b :: a in t.live && b in t.live && t.live[a].fd == t.live[b].fd ==> a == b)
    && (forall fd :: fd in t.channels ==> t.channels[fd] in t.live && t.live[t.channels[fd]].fd == fd)
    && (forall fd :: fd in t.kernel ==> fd in t.channels)
    && t.legal
    && forall id :: id in t.live ==> Agrees(View(t, id))
  }

  /** What the step is for the channel it is about. */
  function Seen(r: Reg, op: TableOp): Reg {
    match op
    case Change(_, events) => WithEvents(r, events)
    case Leave(_) => Removed(r)
    case _ => r
  }

  lemma StepIsLegal(t: Table, op: TableOp)
    requires Sound(t) && Possible(t, op)
    ensures Perform(t, op).legal
  {
    if !op.Open? {
      assert Agrees(View(t, op.id));
    }
  }

  lemma OwnStep(t: Table, op: TableOp)
    requires Sound(t) && Possible(t, op) && op.id in Perform(t, op).live
    ensures View(Perform(t, op), op.id) == if op.Open? then FRESH_REG else Seen(View(t, op.id), op)
  {
    if op.Open? {
      assert op.fd !in t.channels;
    } else {
      assert Agrees(View(t, op.id));
    }
  }

  lemma OthersStep(t: Table, op: TableOp, id: ChannelId)
    requires Sound(t) && Possible(t, op) && id in Perform(t, op).live && id != op.id
    ensures id in t.live && View(Perform(t, op), id) == View(t, id)
  {
    StepIsLegal(t, op);
    if op.id in t.live {
      assert t.live[id].fd != t.live[op.id].fd;
    }
    hide Agrees;
  }

  /** A change or a removal is the single-channel step for its own channel and nothing to any other; an
      opening finds nothing left of the descriptor's last user. */
  lemma StepIsSingle(t: Table, op: TableOp, id: ChannelId)
    requires Sound(t) && Possible(t, op) && id in Perform(t, op).live
    ensures op.Open? || id in t.live
    ensures View(Perform(t, op), id) ==
            if op.Open? && op.id == id then FRESH_REG
            else if op.id == id then Seen(View(t, id), op)
            else View(t, id)
  {
    if id == op.id {
      OwnStep(t, op);
    } else {
      OthersStep(t, op, id);
    }
    hide Sound, View, Seen;
  }

  lemma StepIsSound(t: Table, op: TableOp)
    requires Sound(t) && Possible(t, op)
    ensures Sound(Perform(t, op))
  {
    var n := Perform(t, op);
    forall id | id in n.live
      ensures Agrees(View(n, id))
    {
      StepIsSingle(t, op, id);
      if id in t.live {
        assert Agrees(View(t, id));
      }
      hide Sound, Perform, View;
    }
    StepIsLegal(t, op);
    StepKeepsStructure(t, op);
    hide Perform, View, Agrees;
  }

  lemma StepKeepsStructure(t: Table, op: TableOp)
    requires Sound(t) && Possible(t, op)
    ensures var n := Perform(t, op);
            && (forall a, b :: a in n.live && b in n.live && n.live[a].fd == n.live[b].fd ==> a == b)
            && (forall fd :: fd in n.channels ==> n.channels[fd] in n.live && n.live[n.channels[fd]].fd == fd)
            && (forall fd :: fd in n.kernel ==> fd in n.channels)
  {
    if !op.Open? {
      assert Agrees(View(t, op.id));
    }
  }

  datatype Run = Run(states: seq<Table>, ops: seq<TableOp>)

  ghost predicate IsRun(r: Run) {
    && |r.states| == |r.ops| + 1
    && r.states[0] == EMPTY_TABLE
    && forall i {:trigger r.ops[i]} :: 0 <= i < |r.ops| ==>
         Possible(r.states[i], r.ops[i]) && r.states[i + 1] == Perform(r.states[i], r.ops[i])
  }

  /** Over every run of any number of channels, through closing and reuse of descriptors: every live channel's
      index, the map and the kernel agree, the kernel holds no descriptor but those of live channels, and no
      epoll_ctl is ever illegal. */
  lemma {:induction false} TableAgreesOverRuns(r: Run, i: nat)
    requires IsRun(r) && i < |r.states|
    ensures Sound(r.states[i])
  {
    hide Possible, Perform, Sound;
    if i == 0 {
      assert Sound(EMPTY_TABLE) by { EmptyIsSound(); }
    } else {
      TableAgreesOverRuns(r, i - 1);
      StepIsSound(r.states[i - 1], r.ops[i - 1]);
    }
  }

  lemma EmptyIsSound()
    ensures Sound(EMPTY_TABLE)
  {
  }
}
