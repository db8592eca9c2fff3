/** Event masks, and the life of one channel's registration with the poller. */
module EventMask {
  /** The epoll bits the library looks at; a mask is the set of its bits. */
  datatype Flag = EPOLLIN | EPOLLPRI | EPOLLOUT | EPOLLERR | EPOLLHUP

  type Mask = set<Flag>

  /** The two interest masks of a channel, kReadEvent and kWriteEvent. */
  datatype Masks = Masks(read: Mask, write: Mask) {
    /** Each mask has the bit it is named for, and not the other's. */
    predicate Sane() {
      && EPOLLIN in read && EPOLLOUT !in read
      && EPOLLOUT in write && EPOLLIN !in write
    }

    predicate Disjoint() {
      read !! write
    }
  }

  const SOURCE_MASKS := Masks({EPOLLIN, EPOLLPRI}, {EPOLLOUT, EPOLLPRI})

  /** Bits the kernel reports whether or not they were asked for. */
  const ALWAYS_REPORTED: Mask := {EPOLLERR, EPOLLHUP}
}

module Registration {
  import opened Common
  import opened EventMask

  /** kNew, kAdd and kDelete. */
  datatype Index = New | Added | Deleted

  datatype CtlOp = Add | Mod | Del

  /** One channel as the poller sees it: its index, its wanted events, whether `channels_` lists it,
      the mask the kernel holds for its descriptor, and whether every epoll_ctl so far was legal. */
  datatype Reg = Reg(index: Index, events: Mask, listed: bool, kernel: Option<Mask>, legal: bool)

  const FRESH_REG := Reg(New, {}, false, None, true)

  /** The kernel's side of epoll_ctl; an illegal request changes nothing. */
  function Ctl(r: Reg, op: CtlOp): Reg {
    match op
    case Add => if r.kernel.None? then r.(kernel := Some(r.events)) else r.(legal := false)
    case Mod => if r.kernel.Some? then r.(kernel := Some(r.events)) else r.(legal := false)
    case Del => if r.kernel.Some? then r.(kernel := None) else r.(legal := false)
  }

  function Updated(r: Reg): (u: Reg)
    ensures u.events == r.events
  {
    if r.index.New? || r.index.Deleted? then
      Ctl(r.(listed := r.listed || r.index.New?, index := Added), Add)
    else if r.events == {} then
      Ctl(r, Del).(index := Deleted)
    else
      Ctl(r, Mod)
  }

  function Removed(r: Reg): Reg {
    var erased := r.(listed := false);
    (if r.index.Added? then Ctl(erased, Del) else erased).(index := New)
  }

  function WithEvents(r: Reg, events: Mask): (w: Reg)
    ensures w.events == events
  {
    Updated(r.(events := events))
  }

  /** The channel, the poller's map and the kernel tell the same story. */
  predicate Agrees(r: Reg) {
    && AgreesButForMask(r)
    && (r.kernel.Some? ==> r.kernel.value == r.events)
    && (r.index.Deleted? ==> r.events == {})
  }

  /** What is left of `Agrees` between a change of the wanted events and the update that follows. */
  predicate AgreesButForMask(r: Reg) {
    && (r.kernel.Some? <==> r.index.Added?)
    && (r.listed <==> !r.index.New?)
    && r.legal
  }

  datatype InterestOp = Set(events: Mask) | Remove

  function Apply(r: Reg, op: InterestOp): Reg {
    match op
    case Set(events) => WithEvents(r, events)
    case Remove => Removed(r)
  }

  function ApplyAll(r: Reg, ops: seq<InterestOp>): Reg
    decreases |ops|
  {
    if ops == [] then r else ApplyAll(Apply(r, ops[0]), ops[1..])
  }

  /** Over every run of interest changes and removals of a channel, the three agree and the kernel
      never receives an illegal request. */
  lemma {:induction false} AgreementOverRuns(r: Reg, ops: seq<InterestOp>)
    requires Agrees(r)
    ensures Agrees(ApplyAll(r, ops))
    decreases |ops|
  {
    if ops != [] {
      AgreementOverRuns(Apply(r, ops[0]), ops[1..]);
    }
  }

  /** Asking for nothing takes an agreeing channel out of the kernel set if and only if it was in it;
      asked of one that is out, the update puts it back, with an empty mask. */
  lemma DisableAllLeavesOnlyFromAdded(r: Reg)
    requires Agrees(r)
    ensures WithEvents(r, {}).kernel.None? <==> r.index.Added?
    ensures !r.index.Added? ==> WithEvents(r, {}).kernel == Some({})
  {
  }
}
