/**
 A server whose every loop is the hand-off of module LoopProtocol.  Each functor that Server queues at once
 is here pushed by a thread and followed by that thread's wake-up of the loop, with all other threads in
 between; a loop starts, polls, swaps and runs its functors when the hand-off lets it.  The runs of this
 machine are runs of Server and, loop by loop, of LoopProtocol.
 */
module ServerLoops {
  import opened Common
  import opened RoundRobin
  import Server
  import ServerInvariant
  import LoopProtocol

  type ThreadId = LoopProtocol.ThreadId

  /** The threads are the loops' own, called as their loops, and the users'. */
  datatype Config = Config(server: Server.Config, users: set<ThreadId>) {
    predicate Valid() {
      server.Valid() && users !! server.AllLoops()
    }

    function Threads(): set<ThreadId> {
      server.AllLoops() + users
    }

    function Others(l: LoopId): set<ThreadId> {
      Threads() - {l}
    }
  }

  // ---------------------------------------------------------------- functors as numbered tasks

  function Kind(u: Server.Task): nat
    ensures Kind(u) < 8
  {
    match u
    case EstablishTask(_) => 0
    case RemoveTask(_) => 1
    case DestroyTask(_) => 2
    case FunctorTask(_, owns, early) => 3 + (if owns then 2 else 0) + if early then 1 else 0
  }

  function Code(u: Server.Task): nat {
    8 * u.c + Kind(u)
  }

  /** The number of a functor says what it does. */
  lemma CodeIsInjective(u: Server.Task, v: Server.Task)
    ensures Code(u) == Code(v) <==> u == v
  {
    assert Code(u) / 8 == u.c && Code(v) / 8 == v.c;
  }

  /** The functors handed over through runInLoop; the others go through queueInLoop. */
  predicate ViaRun(u: Server.Task) {
    match u
    case EstablishTask(_) => true
    case RemoveTask(_) => true
    case DestroyTask(_) => false
    case FunctorTask(_, owns, _) => !owns
  }

  function AsTask(u: Server.Task, sender: LoopProtocol.Sender): LoopProtocol.Task {
    LoopProtocol.Task(sender, ViaRun(u), Code(u))
  }

  /** The hand-off has the loop's functors, in order. */
  predicate Carries(tasks: seq<LoopProtocol.Task>, functors: seq<Server.Task>) {
    |tasks| == |functors| && forall i :: 0 <= i < |tasks| ==> tasks[i].number == Code(functors[i])
  }

  // ---------------------------------------------------------------- the machine

  datatype State = State(server: Server.State, loops: map<LoopId, LoopProtocol.State>)

  function Initial(cfg: Config): State {
    State(Server.Initial(cfg.server), map l | l in cfg.server.AllLoops() :: LoopProtocol.Initial(cfg.Others(l)))
  }

  datatype Action =
    | Handle(a: Server.Action)                    // a loop's thread handling events or a removal
    | Shutdown(c: Server.ConnId)
    | Push(c: Server.ConnId, owns: bool, t: ThreadId)
    | Poll(l: LoopId, active: seq<Server.ConnId>, sources: seq<LoopProtocol.Source>)
    | StartBatch(l: LoopId)
    | RunTask(l: LoopId)
    | EndBatch(l: LoopId)
    | Wake(l: LoopId, t: ThreadId)                // the write to the eventfd that follows a push
    | Local(l: LoopId, b: LoopProtocol.Action)    // what a loop's thread does besides

  function Actor(a: Server.Action): LoopId {
    match a
    case Dispatch(l) => l
    case Close(l) => l
    case NotifyClose(l) => l
    case QueueDestroy(l) => l
    case Return(l) => l
    case _ => Server.BASE
  }

  /** The thread is not between a push and the wake-up that follows it. */
  predicate Free(s: State, t: ThreadId) {
    && (forall l :: l in s.loops && t in s.loops[l].threads ==> s.loops[l].threads[t].Resting?)
    && (t in s.loops ==> !s.loops[t].ownPushed)
  }

  /** The loop's thread runs handlers or functors. */
  predicate AtWork(s: State, l: LoopId) {
    l in s.loops && (s.loops[l].pc.Handling? || s.loops[l].pc.Running?)
  }

  predicate InRemoval(s: State, l: LoopId) {
    l in s.server.loops && s.server.loops[l].pc.Removing?
  }

  /** A thread acts when it is where it must be; loops advance as the hand-off lets them. */
  predicate Enabled(cfg: Config, s: State, a: Action) {
    match a
    case Handle(b) =>
      && (b.Accept? || b.Dispatch? || b.Close? || b.NotifyClose? || b.QueueDestroy? || b.Return?)
      && Server.Enabled(s.server, b) && Free(s, Actor(b)) && AtWork(s, Actor(b))
    case Shutdown(c) => Server.Enabled(s.server, Server.Shutdown(c))
    case Push(c, owns, t) =>
      && Server.Enabled(s.server, Server.PushFunctor(c, owns)) && Free(s, t) && t in cfg.Threads()
      && (t in cfg.server.AllLoops() ==> AtWork(s, t)) && (owns <==> t == s.server.conns[c].loop)
    case Poll(l, active, sources) =>
      l in s.loops && LoopProtocol.Enabled(s.loops[l], LoopProtocol.PollReturns(sources))
      && Server.Reportable(s.server, l, active)
    case StartBatch(l) => l in s.loops && LoopProtocol.Enabled(s.loops[l], LoopProtocol.Swap)
    case RunTask(l) =>
      l in s.loops && LoopProtocol.Enabled(s.loops[l], LoopProtocol.RunNext) && Free(s, l) && !InRemoval(s, l)
    case EndBatch(l) =>
      l in s.loops && LoopProtocol.Enabled(s.loops[l], LoopProtocol.EndPending) && Free(s, l) && !InRemoval(s, l)
    case Wake(l, t) => l in s.loops && LoopProtocol.Enabled(s.loops[l], LoopProtocol.Wake(t))
    case Local(l, b) =>
      && l in s.loops && l in s.server.loops && LoopProtocol.Enabled(s.loops[l], b)
      && (b.OwnWakeTest? || b.Begin? || b.Test? || b.HandleNext? || b.StartPending?)
      && (b.OwnWakeTest? || Free(s, l))
      && (b.HandleNext? || b.StartPending? ==> s.server.loops[l].pc.Handling?)
      && (b.StartPending? ==> s.server.loops[l].active == [])
  }

  function ServerAction(a: Action): Option<Server.Action> {
    match a
    case Handle(b) => Some(b)
    case Shutdown(c) => Some(Server.Shutdown(c))
    case Push(c, owns, _) => Some(Server.PushFunctor(c, owns))
    case Poll(l, active, _) => Some(Server.Poll(l, active))
    case StartBatch(l) => Some(Server.StartBatch(l))
    case RunTask(l) => Some(Server.RunTask(l))
    case EndBatch(l) => Some(Server.EndBatch(l))
    case Wake(_, _) => None
    case Local(_, _) => None
  }

  /** A functor on its way: to the queue of loop `l`, from thread `t`. */
  datatype Delivery = Delivery(l: LoopId, u: Server.Task, t: ThreadId)

  /** What a step hands to a loop's queue. */
  function Delivered(cfg: Config, s: Server.State, a: Action): Option<Delivery> {
    match a
    case Handle(Accept) =>
      var l := if s.next < |cfg.server.ioLoops| then cfg.server.ioLoops[s.next] else Server.BASE;
      if l == Server.BASE then None else Some(Delivery(l, Server.EstablishTask(s.nextId), Server.BASE))
    case Handle(NotifyClose(l)) =>
      if l == Server.BASE || l !in s.loops || !s.loops[l].pc.Closing? then None
      else Some(Delivery(Server.BASE, Server.RemoveTask(s.loops[l].pc.c), l))
    case Handle(QueueDestroy(l)) =>
      if l !in s.loops || !s.loops[l].pc.Removing? || s.loops[l].pc.c !in s.conns then None
      else Some(Delivery(s.conns[s.loops[l].pc.c].loop, Server.DestroyTask(s.loops[l].pc.c), l))
    case Push(c, owns, t) =>
      if c !in s.conns || s.conns[c].loop !in s.loops then None
      else Some(Delivery(s.conns[c].loop, Server.FunctorTask(c, owns, Server.BeforeDestruction(s, c)), t))
    case _ => None
  }

  function PushOf(d: Delivery): LoopProtocol.Action {
    if d.t == d.l then LoopProtocol.OwnPush(AsTask(d.u, LoopProtocol.LoopThread))
    else LoopProtocol.Push(d.t, AsTask(d.u, LoopProtocol.Other(d.t)))
  }

  /** The steps by which a loop goes through poll, swap, functors and back. */
  predicate IsControl(a: Action) {
    a.Poll? || a.StartBatch? || a.RunTask? || a.EndBatch?
  }

  function ControlOf(a: Action): LoopProtocol.Action
    requires IsControl(a)
  {
    match a
    case Poll(_, _, sources) => LoopProtocol.PollReturns(sources)
    case StartBatch(_) => LoopProtocol.Swap
    case RunTask(_) => LoopProtocol.RunNext
    case EndBatch(_) => LoopProtocol.EndPending
  }

  /** The step as the hand-off of loop `l` sees it. */
  function LoopAction(cfg: Config, s: Server.State, a: Action, l: LoopId): Option<LoopProtocol.Action> {
    if IsControl(a) then if a.l == l then Some(ControlOf(a)) else None
    else
      match a
      case Wake(k, t) => if k == l then Some(LoopProtocol.Wake(t)) else None
      case Local(k, b) => if k == l then Some(b) else None
      case _ => Arriving(Delivered(cfg, s, a), l)
  }

  /** A delivery as the hand-off of loop `l` sees it. */
  function Arriving(d: Option<Delivery>, l: LoopId): Option<LoopProtocol.Action> {
    if d.Some? && d.value.l == l then Some(PushOf(d.value)) else None
  }

  /** Each part takes its step; that both may is proved below. */
  function ServerAfter(cfg: Config, s: Server.State, b: Option<Server.Action>): Server.State {
    if b.Some? && Server.Enabled(s, b.value) then Server.Next(cfg.server, s, b.value) else s
  }

  function LoopAfter(p: LoopProtocol.State, b: Option<LoopProtocol.Action>): LoopProtocol.State {
    if b.Some? && LoopProtocol.Enabled(p, b.value) then LoopProtocol.Next(p, b.value) else p
  }

  function Next(cfg: Config, s: State, a: Action): State {
    State(ServerAfter(cfg, s.server, ServerAction(a)),
          map l | l in s.loops :: LoopAfter(s.loops[l], LoopAction(cfg, s.server, a, l)))
  }

  datatype Run = Run(states: seq<State>, acts: seq<Action>)

  ghost predicate IsRun(cfg: Config, r: Run) {
    && |r.states| == |r.acts| + 1
    && r.states[0] == Initial(cfg)
    && forall i {:trigger r.acts[i]} :: 0 <= i < |r.acts| ==>
         Enabled(cfg, r.states[i], r.acts[i]) && r.states[i + 1] == Next(cfg, r.states[i], r.acts[i])
  }

  // ---------------------------------------------------------------- how the parts agree

  datatype Stage = Waiting | Handling | Batch

  function StageOf(pc: Server.LoopPc): Stage {
    match pc
    case Polling => Waiting
    case Running => Batch
    case Removing(_, nested) => if nested then Handling else Batch
    case Handling => Handling
    case Dispatching(_) => Handling
    case Closing(_) => Handling
    case Closed(_) => Handling
  }

  predicate AtStage(pc: LoopProtocol.LoopPc, stage: Stage) {
    match pc
    case Handling => stage.Handling?
    case Starting => stage.Handling?
    case Running => stage.Batch?
    case NotStarted => stage.Waiting?
    case AtTest => stage.Waiting?
    case AtPoll => stage.Waiting?
    case Stopped => stage.Waiting?
  }

  /** A loop of the server and its hand-off are at the same place with the same functors. */
  predicate Coupled(lr: Server.LoopRec, p: LoopProtocol.State) {
    && Carries(p.batch, lr.batch) && Carries(p.pending, lr.queue)
    && AtStage(p.pc, StageOf(lr.pc))
    && (p.pc.Starting? ==> lr.pc.Handling? && lr.active == [])
  }

  /** Nothing pending is without a wake-up, before the loop begins and after. */
  predicate WakeReady(p: LoopProtocol.State) {
    if p.pc.NotStarted? then LoopProtocol.QueueInv(p) && LoopProtocol.LaunchSafe(p) else LoopProtocol.WakeInv(p)
  }

  ghost predicate LoopAgrees(cfg: Config, s: State, l: LoopId)
    requires l in s.loops
  {
    && l in s.server.loops && Coupled(s.server.loops[l], s.loops[l])
    && WakeReady(s.loops[l]) && s.loops[l].threads.Keys == cfg.Others(l)
  }

  ghost predicate Inv(cfg: Config, s: State) {
    && ServerInvariant.Inv(cfg.server, s.server)
    && s.loops.Keys == s.server.loops.Keys
    && forall l :: l in s.loops ==> LoopAgrees(cfg, s, l)
  }

  // ---------------------------------------------------------------- each part's step is enabled

  lemma AgreesAt(cfg: Config, s: State, l: LoopId)
    requires Inv(cfg, s) && (l in s.loops || l in s.server.loops)
    ensures l in s.loops && LoopAgrees(cfg, s, l) && ServerInvariant.LoopInv(s.server, l)
    ensures l in cfg.server.AllLoops() && s.loops.Keys == cfg.server.AllLoops()
  {
    hide ServerInvariant.LoopInv, ServerInvariant.ConnInv, Coupled, WakeReady;
    assert ServerInvariant.ServerInv(cfg.server, s.server);
  }

  /** The server may do whatever the hand-off lets its loop do. */
  lemma LoopControlRefines(cfg: Config, s: State, a: Action, l: LoopId)
    requires l in s.loops && LoopAgrees(cfg, s, l) && Enabled(cfg, s, a) && IsControl(a) && a.l == l
    ensures Server.Enabled(s.server, ServerAction(a).value)
  {
    hide Server.Reportable, LoopProtocol.LaunchSafe, LoopProtocol.WakeInv;
  }

  lemma ServerRefines(cfg: Config, s: State, a: Action)
    requires Inv(cfg, s) && Enabled(cfg, s, a)
    ensures ServerAction(a).Some? ==> Server.Enabled(s.server, ServerAction(a).value)
  {
    hide Inv;
    if IsControl(a) {
      AgreesAt(cfg, s, a.l);
      LoopControlRefines(cfg, s, a, a.l);
    }
    hide LoopProtocol.Enabled;
  }

  /** Whose thread a delivery comes from, and how it is handed over. */
  lemma DeliveryIsInOrder(cfg: Config, s: State, a: Action)
    requires cfg.Valid() && Enabled(cfg, s, a) && Delivered(cfg, s.server, a).Some?
    requires s.server.loops.Keys == s.loops.Keys == cfg.server.AllLoops()
    ensures var d := Delivered(cfg, s.server, a).value;
            && d.t in cfg.Threads() && Free(s, d.t) && (d.t in s.loops ==> AtWork(s, d.t))
            && (d.t == d.l ==> d.t in s.loops && !ViaRun(d.u))
  {
    hide Free, AtWork;
  }

  lemma PushIsAllowed(cfg: Config, s: State, d: Delivery)
    requires d.l in s.loops && s.loops[d.l].threads.Keys == cfg.Others(d.l)
    requires d.t in cfg.Threads() && Free(s, d.t) && (d.t in s.loops ==> AtWork(s, d.t))
    requires d.t == d.l ==> !ViaRun(d.u)
    ensures LoopProtocol.Enabled(s.loops[d.l], PushOf(d))
    ensures !(s.loops[d.l].pc.NotStarted? && PushOf(d).OwnPush?)
  {
  }

  lemma ArrivalIsAllowed(cfg: Config, s: State, a: Action, l: LoopId)
    requires cfg.Valid() && Enabled(cfg, s, a) && l in s.loops && s.loops[l].threads.Keys == cfg.Others(l)
    requires s.server.loops.Keys == s.loops.Keys == cfg.server.AllLoops()
    ensures var b := Arriving(Delivered(cfg, s.server, a), l);
            b.Some? ==> LoopProtocol.Enabled(s.loops[l], b.value) && !(s.loops[l].pc.NotStarted? && b.value.OwnPush?)
  {
    hide Delivered, Enabled, Config.Valid, LoopProtocol.Enabled, PushOf, Free, AtWork;
    var d := Delivered(cfg, s.server, a);
    if d.Some? {
      DeliveryIsInOrder(cfg, s, a);
      if d.value.l == l {
        PushIsAllowed(cfg, s, d.value);
      }
    }
  }

  lemma OwnStepIsAllowed(cfg: Config, s: State, a: Action, l: LoopId)
    requires Enabled(cfg, s, a) && (IsControl(a) || a.Wake? || a.Local?) && l in s.loops
    ensures var b := LoopAction(cfg, s.server, a, l);
            b.Some? ==> LoopProtocol.Enabled(s.loops[l], b.value) && !b.value.OwnPush?
  {
    hide LoopProtocol.Enabled, Server.Reportable, Free;
  }

  /** A hand-off may take its part of any step; before it begins its own thread queues nothing. */
  lemma LoopRefines(cfg: Config, s: State, a: Action, l: LoopId)
    requires cfg.Valid() && Inv(cfg, s) && Enabled(cfg, s, a) && l in s.loops
    ensures var b := LoopAction(cfg, s.server, a, l);
            b.Some? ==> LoopProtocol.Enabled(s.loops[l], b.value) && !(s.loops[l].pc.NotStarted? && b.value.OwnPush?)
  {
    assert s.server.loops.Keys == s.loops.Keys;
    hide Inv, Coupled, WakeReady, Enabled, Config.Valid, LoopProtocol.Enabled, ServerInvariant.LoopInv, Arriving;
    AgreesAt(cfg, s, l);
    if IsControl(a) || a.Wake? || a.Local? {
      OwnStepIsAllowed(cfg, s, a, l);
    } else {
      ArrivalIsAllowed(cfg, s, a, l);
    }
  }

  // ---------------------------------------------------------------- they stay at the same place

  /** What a step that may deliver does to a loop: its batch stays, its queue grows by what is delivered to
      it, and only the thread that acts moves, within its stage. */
  predicate Grown(lr: Server.LoopRec, t: Server.LoopRec, d: Option<Delivery>, l: LoopId, acts: bool) {
    && t.batch == lr.batch && t.queue == lr.queue + (if d.Some? && d.value.l == l then [d.value.u] else [])
    && StageOf(t.pc) == StageOf(lr.pc)
    && (!acts ==> t.pc == lr.pc && t.active == lr.active)
  }

  lemma AcceptEffect(cfg: Config, s: Server.State, l: LoopId)
    requires Server.Enabled(s, Server.Accept) && l in s.loops
    ensures var t := Server.Next(cfg.server, s, Server.Accept);
            l in t.loops && Grown(s.loops[l], t.loops[l], Delivered(cfg, s, Handle(Server.Accept)), l, l == Server.BASE)
  {
  }

  lemma NotifyEffect(cfg: Config, s: Server.State, m: LoopId, l: LoopId)
    requires Server.Enabled(s, Server.NotifyClose(m)) && l in s.loops
    ensures var t, b := Server.Next(cfg.server, s, Server.NotifyClose(m)), Server.NotifyClose(m);
            l in t.loops && Grown(s.loops[l], t.loops[l], Delivered(cfg, s, Handle(b)), l, l == m)
  {
  }

  lemma HandleEffect(cfg: Config, s: Server.State, b: Server.Action, l: LoopId)
    requires Server.Enabled(s, b) && l in s.loops
    requires b.Dispatch? || b.Close? || b.Return?
    ensures var t := Server.Next(cfg.server, s, b);
            l in t.loops && Grown(s.loops[l], t.loops[l], Delivered(cfg, s, Handle(b)), l, l == Actor(b))
  {
  }

  lemma QueueDestroyEffect(cfg: Config, s: Server.State, m: LoopId, l: LoopId)
    requires Server.Enabled(s, Server.QueueDestroy(m)) && l in s.loops
    ensures var t, b := Server.Next(cfg.server, s, Server.QueueDestroy(m)), Server.QueueDestroy(m);
            l in t.loops && Grown(s.loops[l], t.loops[l], Delivered(cfg, s, Handle(b)), l, l == m)
  {
  }

  lemma PushEffect(cfg: Config, s: Server.State, c: Server.ConnId, owns: bool, t: ThreadId, l: LoopId)
    requires Server.Enabled(s, Server.PushFunctor(c, owns)) && l in s.loops
    ensures var n := Server.Next(cfg.server, s, Server.PushFunctor(c, owns));
            l in n.loops && Grown(s.loops[l], n.loops[l], Delivered(cfg, s, Push(c, owns, t)), l, false)
  {
    hide Server.BeforeDestruction;
  }

  lemma GrownStaysCoupled(lr: Server.LoopRec, t: Server.LoopRec, p: LoopProtocol.State, d: Option<Delivery>,
                          l: LoopId, acts: bool)
    requires Coupled(lr, p) && Grown(lr, t, d, l, acts) && (acts ==> !p.pc.Starting?)
    requires d.Some? && d.value.l == l ==> LoopProtocol.Enabled(p, PushOf(d.value))
    ensures Coupled(t, LoopAfter(p, Arriving(d, l)))
  {
  }

  /** What a loop's way through poll, swap, functors and back does to its record. */
  function Controlled(lr: Server.LoopRec, a: Action): Server.LoopRec {
    match a
    case Poll(_, active, _) => lr.(pc := Server.Handling, active := active)
    case StartBatch(_) => lr.(pc := Server.Running, begun := [], batch := lr.queue, queue := [])
    case RunTask(_) =>
      if lr.batch == [] then lr
      else
        var pc := if lr.batch[0].RemoveTask? then Server.Removing(lr.batch[0].c, false) else lr.pc;
        lr.(pc := pc, batch := lr.batch[1..], begun := lr.begun + [lr.batch[0]])
    case EndBatch(_) => lr.(pc := Server.Polling, begun := [])
    case _ => lr
  }

  lemma ControlEffect(cfg: Config, s: Server.State, a: Action, l: LoopId)
    requires IsControl(a) && Server.Enabled(s, ServerAction(a).value) && l in s.loops
    ensures var t := Server.Next(cfg.server, s, ServerAction(a).value);
            l in t.loops && t.loops[l] == if l == a.l then Controlled(s.loops[l], a) else s.loops[l]
  {
  }

  lemma ControlStaysCoupled(lr: Server.LoopRec, p: LoopProtocol.State, a: Action)
    requires IsControl(a) && Coupled(lr, p) && LoopProtocol.QueueInv(p) && (a.RunTask? ==> lr.pc.Running?)
    requires LoopProtocol.Enabled(p, ControlOf(a))
    ensures Coupled(Controlled(lr, a), LoopProtocol.Next(p, ControlOf(a)))
  {
  }

  /** The hand-off's own steps leave the functors and the stage as they are. */
  lemma LocalStaysCoupled(lr: Server.LoopRec, p: LoopProtocol.State, b: LoopProtocol.Action)
    requires Coupled(lr, p) && LoopProtocol.Enabled(p, b)
    requires b.Wake? || b.OwnWakeTest? || b.Begin? || b.Test? || b.HandleNext? || b.StartPending?
    requires b.StartPending? ==> lr.pc.Handling? && lr.active == []
    ensures Coupled(lr, LoopProtocol.Next(p, b))
  {
  }

  /** The step leaves the loop and its hand-off at the same place. */
  predicate StaysCoupled(cfg: Config, s: State, a: Action, l: LoopId)
    requires l in s.loops
  {
    var t := ServerAfter(cfg, s.server, ServerAction(a));
    l in t.loops && Coupled(t.loops[l], LoopAfter(s.loops[l], LoopAction(cfg, s.server, a, l)))
  }

  lemma HandleCoupled(cfg: Config, s: State, b: Server.Action, l: LoopId)
    requires cfg.Valid() && Inv(cfg, s) && Enabled(cfg, s, Handle(b)) && l in s.loops
    ensures StaysCoupled(cfg, s, Handle(b), l)
  {
    hide Inv, LoopProtocol.Enabled, Coupled, Grown, Delivered, LoopAfter, WakeReady, PushOf;
    hide Server.Next, Server.Enabled, ServerInvariant.LoopInv, Config.Valid, Free;
    LoopRefines(cfg, s, Handle(b), l);
    AgreesAt(cfg, s, l);
    var d, t := Delivered(cfg, s.server, Handle(b)), Server.Next(cfg.server, s.server, b);
    if b.QueueDestroy? {
      QueueDestroyEffect(cfg, s.server, b.l, l);
    } else if b.NotifyClose? {
      NotifyEffect(cfg, s.server, b.l, l);
    } else if b.Accept? {
      AcceptEffect(cfg, s.server, l);
    } else {
      HandleEffect(cfg, s.server, b, l);
    }
    GrownStaysCoupled(s.server.loops[l], t.loops[l], s.loops[l], d, l, l == Actor(b));
  }

  lemma PushCoupled(cfg: Config, s: State, a: Action, l: LoopId)
    requires cfg.Valid() && Inv(cfg, s) && Enabled(cfg, s, a) && a.Push? && l in s.loops
    ensures StaysCoupled(cfg, s, a, l)
  {
    hide Inv, LoopProtocol.Enabled, Coupled, Grown, Delivered, LoopAfter, WakeReady, PushOf;
    hide Server.Next, Server.Enabled, ServerInvariant.LoopInv, Config.Valid, Free;
    LoopRefines(cfg, s, a, l);
    AgreesAt(cfg, s, l);
    PushEffect(cfg, s.server, a.c, a.owns, a.t, l);
    var t := Server.Next(cfg.server, s.server, Server.PushFunctor(a.c, a.owns));
    GrownStaysCoupled(s.server.loops[l], t.loops[l], s.loops[l], Delivered(cfg, s.server, a), l, false);
  }

  lemma ControlCoupled(cfg: Config, s: State, a: Action, l: LoopId)
    requires cfg.Valid() && Inv(cfg, s) && Enabled(cfg, s, a) && IsControl(a) && l in s.loops
    ensures StaysCoupled(cfg, s, a, l)
  {
    hide Inv, LoopProtocol.Enabled, Coupled, Delivered, PushOf;
    hide Server.Next, Server.Reportable, ServerInvariant.LoopInv, Config.Valid, Free;
    LoopRefines(cfg, s, a, l);
    ServerRefines(cfg, s, a);
    AgreesAt(cfg, s, l);
    ControlEffect(cfg, s.server, a, l);
    if l == a.l {
      ControlStaysCoupled(s.server.loops[l], s.loops[l], a);
    }
    hide Controlled;
  }

  lemma WakeReadyStep(p: LoopProtocol.State, b: LoopProtocol.Action)
    requires WakeReady(p) && LoopProtocol.Enabled(p, b) && !(p.pc.NotStarted? && b.OwnPush?)
    ensures WakeReady(LoopProtocol.Next(p, b)) && LoopProtocol.Next(p, b).threads.Keys == p.threads.Keys
  {
    hide LoopProtocol.WakeInv, LoopProtocol.LaunchSafe;
    if p.pc.NotStarted? {
      LoopProtocol.QueueStep(p, b);
      LoopProtocol.LaunchSafeStep(p, b);
      if b.Begin? {
        BeginKeepsWakes(p);
      }
    } else {
      LoopProtocol.WakeStep(p, b);
    }
    hide LoopProtocol.QueueInv;
  }

  lemma BeginKeepsWakes(p: LoopProtocol.State)
    requires LoopProtocol.QueueInv(p) && LoopProtocol.LaunchSafe(p) && LoopProtocol.Enabled(p, LoopProtocol.Begin)
    ensures LoopProtocol.WakeInv(LoopProtocol.Next(p, LoopProtocol.Begin))
  {
    LoopProtocol.QueueStep(p, LoopProtocol.Begin);
    assert LoopProtocol.WakeComing(LoopProtocol.Next(p, LoopProtocol.Begin)) <==> LoopProtocol.WakeComing(p);
  }

  lemma LocalCoupled(cfg: Config, s: State, a: Action, l: LoopId)
    requires Inv(cfg, s) && Enabled(cfg, s, a) && (a.Wake? || a.Local?) && l in s.loops
    ensures StaysCoupled(cfg, s, a, l)
  {
    hide Inv, Coupled, WakeReady, ServerInvariant.LoopInv, LoopProtocol.Enabled, LoopProtocol.Next, Free;
    AgreesAt(cfg, s, l);
    if l == a.l {
      LocalStaysCoupled(s.server.loops[l], s.loops[l], if a.Wake? then LoopProtocol.Wake(a.t) else a.b);
    }
  }

  lemma ShutdownCoupled(cfg: Config, s: State, c: Server.ConnId, l: LoopId)
    requires Inv(cfg, s) && Enabled(cfg, s, Shutdown(c)) && l in s.loops
    ensures StaysCoupled(cfg, s, Shutdown(c), l)
  {
    hide Inv, Coupled, WakeReady, ServerInvariant.LoopInv;
    AgreesAt(cfg, s, l);
  }

  lemma AllStayCoupled(cfg: Config, s: State, a: Action, l: LoopId)
    requires cfg.Valid() && Inv(cfg, s) && Enabled(cfg, s, a) && l in s.loops
    ensures StaysCoupled(cfg, s, a, l)
  {
    hide Inv, Enabled, StaysCoupled, Config.Valid;
    match a {
      case Handle(b) => HandleCoupled(cfg, s, b, l);
      case Shutdown(c) => ShutdownCoupled(cfg, s, c, l);
      case Push(_, _, _) => PushCoupled(cfg, s, a, l);
      case Wake(_, _) => LocalCoupled(cfg, s, a, l);
      case Local(_, _) => LocalCoupled(cfg, s, a, l);
      case _ => ControlCoupled(cfg, s, a, l);
    }
  }

  lemma LoopAgreesAfter(cfg: Config, s: State, a: Action, l: LoopId)
    requires cfg.Valid() && Inv(cfg, s) && Enabled(cfg, s, a) && l in s.loops
    ensures l in Next(cfg, s, a).loops && LoopAgrees(cfg, Next(cfg, s, a), l)
  {
    hide Inv, Enabled, Config.Valid, Coupled, WakeReady, LoopAction, ServerAfter;
    AllStayCoupled(cfg, s, a, l);
    LoopRefines(cfg, s, a, l);
    AgreesAt(cfg, s, l);
    var b := LoopAction(cfg, s.server, a, l);
    if b.Some? {
      WakeReadyStep(s.loops[l], b.value);
    }
    hide LoopProtocol.Enabled, LoopProtocol.Next;
  }

  lemma ServerKeepsInv(cfg: Config, s: State, a: Action)
    requires cfg.Valid() && Inv(cfg, s) && Enabled(cfg, s, a)
    ensures ServerInvariant.Inv(cfg.server, ServerAfter(cfg, s.server, ServerAction(a)))
    ensures ServerAfter(cfg, s.server, ServerAction(a)).loops.Keys == s.server.loops.Keys
  {
    ServerRefines(cfg, s, a);
    assert ServerInvariant.Inv(cfg.server, s.server) && cfg.server.Valid();
    hide Inv, Enabled, ServerAction, Server.Next, Server.Enabled;
    var b := ServerAction(a);
    if b.Some? {
      ServerInvariant.InvStep(cfg.server, s.server, b.value);
      LoopsAreFixed(cfg.server, s.server);
      LoopsAreFixed(cfg.server, Server.Next(cfg.server, s.server, b.value));
    }
    hide ServerInvariant.Inv;
  }

  lemma LoopsAreFixed(cfg: Server.Config, s: Server.State)
    requires ServerInvariant.Inv(cfg, s)
    ensures s.loops.Keys == cfg.AllLoops()
  {
    assert ServerInvariant.ServerInv(cfg, s);
  }

  lemma NextShape(cfg: Config, s: State, a: Action)
    ensures Next(cfg, s, a).server == ServerAfter(cfg, s.server, ServerAction(a))
    ensures Next(cfg, s, a).loops.Keys == s.loops.Keys
  {
    hide ServerAfter, LoopAfter, LoopAction, ServerAction;
  }

  lemma StepKeepsInv(cfg: Config, s: State, a: Action)
    requires cfg.Valid() && Inv(cfg, s) && Enabled(cfg, s, a)
    ensures Inv(cfg, Next(cfg, s, a))
  {
    assert s.loops.Keys == s.server.loops.Keys;
    hide *;
    var t := Next(cfg, s, a);
    NextShape(cfg, s, a);
    ServerKeepsInv(cfg, s, a);
    forall l | l in t.loops
      ensures LoopAgrees(cfg, t, l)
    {
      LoopAgreesAfter(cfg, s, a, l);
    }
    Assembled(cfg, t);
  }

  lemma Assembled(cfg: Config, s: State)
    requires ServerInvariant.Inv(cfg.server, s.server) && s.loops.Keys == s.server.loops.Keys
    requires forall l :: l in s.loops ==> LoopAgrees(cfg, s, l)
    ensures Inv(cfg, s)
  {
    hide ServerInvariant.Inv, LoopAgrees;
  }

  lemma {:induction false} InvHolds(cfg: Config, r: Run, i: nat)
    requires cfg.Valid() && IsRun(cfg, r) && i < |r.states|
    ensures Inv(cfg, r.states[i])
  {
    hide Inv, Next, Enabled;
    if i == 0 {
      StartsInAgreement(cfg);
    } else {
      InvHolds(cfg, r, i - 1);
      StepKeepsInv(cfg, r.states[i - 1], r.acts[i - 1]);
    }
  }

  lemma StartsInAgreement(cfg: Config)
    ensures Inv(cfg, Initial(cfg))
  {
    ServerInvariant.InitialInv(cfg.server);
  }

  // ---------------------------------------------------------------- every run is a run of each part

  lemma StepOf(cfg: Config, r: Run, i: nat)
    requires IsRun(cfg, r) && i < |r.acts|
    ensures i + 1 < |r.states| && Enabled(cfg, r.states[i], r.acts[i])
    ensures r.states[i + 1] == Next(cfg, r.states[i], r.acts[i])
  {
    hide Next, Enabled;
  }

  /** The server's steps in the first `n` of the run. */
  function ServerRun(cfg: Config, r: Run, n: nat): Server.Run
    requires IsRun(cfg, r) && n <= |r.acts|
  {
    if n == 0 then Server.Run([Server.Initial(cfg.server)], [])
    else Server.WithStep(ServerRun(cfg, r, n - 1), ServerAction(r.acts[n - 1]), r.states[n].server)
  }

  lemma {:induction false} LoopsAreAlwaysThere(cfg: Config, r: Run, i: nat)
    requires IsRun(cfg, r) && i < |r.states|
    ensures r.states[i].loops.Keys == cfg.server.AllLoops()
  {
    hide Enabled, ServerAfter, LoopAction, LoopAfter;
    if i > 0 {
      LoopsAreAlwaysThere(cfg, r, i - 1);
      StepOf(cfg, r, i - 1);
    }
  }

  /** The steps of the hand-off of loop `l` among them. */
  function LoopRun(cfg: Config, r: Run, n: nat, l: LoopId): LoopProtocol.Run
    requires IsRun(cfg, r) && n <= |r.acts| && l in cfg.server.AllLoops()
  {
    if n == 0 then LoopProtocol.Run([LoopProtocol.Initial(cfg.Others(l))], [])
    else
      LoopsAreAlwaysThere(cfg, r, n);
      LoopProtocol.WithStep(LoopRun(cfg, r, n - 1, l), LoopAction(cfg, r.states[n - 1].server, r.acts[n - 1], l),
                            r.states[n].loops[l])
  }

  lemma ServerRunStep(cfg: Config, r: Run, i: nat)
    requires cfg.Valid() && IsRun(cfg, r) && i < |r.acts|
    requires Server.EndsIn(cfg.server, ServerRun(cfg, r, i), r.states[i].server)
    ensures Server.EndsIn(cfg.server, ServerRun(cfg, r, i + 1), r.states[i + 1].server)
  {
    var s, b, before := r.states[i], ServerAction(r.acts[i]), ServerRun(cfg, r, i);
    assert ServerRun(cfg, r, i + 1) == Server.WithStep(before, b, r.states[i + 1].server);
    hide Inv, Enabled, IsRun, Server.EndsIn, Server.WithStep, Server.Enabled, Server.Next, Config.Valid, LoopAfter;
    InvHolds(cfg, r, i);
    StepOf(cfg, r, i);
    ServerRefines(cfg, s, r.acts[i]);
    Server.StepExtends(cfg.server, before, s.server, b, r.states[i + 1].server);
  }

  /** The server's steps are a run of module Server. */
  lemma {:induction false} ServerRunIsRun(cfg: Config, r: Run, n: nat)
    requires cfg.Valid() && IsRun(cfg, r) && n <= |r.acts|
    ensures Server.EndsIn(cfg.server, ServerRun(cfg, r, n), r.states[n].server)
  {
    hide Next, Enabled, Server.Next, Server.Enabled, Server.Initial;
    if n > 0 {
      ServerRunIsRun(cfg, r, n - 1);
      hide ServerRun;
      ServerRunStep(cfg, r, n - 1);
    }
  }

  lemma LoopRunStep(cfg: Config, r: Run, i: nat, l: LoopId)
    requires cfg.Valid() && IsRun(cfg, r) && i < |r.acts| && l in cfg.server.AllLoops()
    requires l in r.states[i].loops && l in r.states[i + 1].loops
    requires LoopProtocol.EndsIn(cfg.Others(l), LoopRun(cfg, r, i, l), r.states[i].loops[l])
    ensures LoopProtocol.EndsIn(cfg.Others(l), LoopRun(cfg, r, i + 1, l), r.states[i + 1].loops[l])
  {
    var s, before := r.states[i], LoopRun(cfg, r, i, l);
    var b := LoopAction(cfg, s.server, r.acts[i], l);
    assert LoopRun(cfg, r, i + 1, l) == LoopProtocol.WithStep(before, b, r.states[i + 1].loops[l]);
    hide Inv, Enabled, IsRun, LoopProtocol.EndsIn, LoopProtocol.WithStep, LoopProtocol.Enabled, LoopProtocol.Next;
    hide Config.Valid, ServerAfter, LoopAction;
    InvHolds(cfg, r, i);
    StepOf(cfg, r, i);
    LoopRefines(cfg, s, r.acts[i], l);
    LoopProtocol.StepExtends(cfg.Others(l), before, s.loops[l], b, r.states[i + 1].loops[l]);
  }

  /** And those of each loop are a run of module LoopProtocol. */
  lemma {:induction false} LoopRunIsRun(cfg: Config, r: Run, n: nat, l: LoopId)
    requires cfg.Valid() && IsRun(cfg, r) && n <= |r.acts| && l in cfg.server.AllLoops()
    ensures l in r.states[n].loops
    ensures LoopProtocol.EndsIn(cfg.Others(l), LoopRun(cfg, r, n, l), r.states[n].loops[l])
  {
    hide Next, Enabled, LoopProtocol.Initial, LoopProtocol.Next, LoopProtocol.Enabled;
    LoopsAreAlwaysThere(cfg, r, n);
    if n > 0 {
      LoopRunIsRun(cfg, r, n - 1, l);
      hide LoopRun;
      LoopRunStep(cfg, r, n - 1, l);
    }
  }

  // ---------------------------------------------------------------- no connection waits for ever

  /** In every run, a loop that waits in poll, or has yet to begin, with an establishment, a removal, a
      destruction or any other functor queued has a wake-up written or coming. */
  lemma QueuedFunctorsAreAttended(cfg: Config, r: Run, i: nat, l: LoopId)
    requires cfg.Valid() && IsRun(cfg, r) && i < |r.states| && l in cfg.server.AllLoops()
    ensures l in r.states[i].loops && l in r.states[i].server.loops
    ensures var p, lr := r.states[i].loops[l], r.states[i].server.loops[l];
            (p.pc.AtPoll? || p.pc.NotStarted?) && lr.queue != [] ==> p.counter > 0 || LoopProtocol.WakeComing(p)
  {
    InvHolds(cfg, r, i);
    LoopsAreAlwaysThere(cfg, r, i);
    hide IsRun;
    AgreesAt(cfg, r.states[i], l);
    hide Inv, LoopProtocol.WakeComing, ServerInvariant.LoopInv, LoopProtocol.QueueInv;
  }
}
