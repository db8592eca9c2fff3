/**
 The life of a server's connections (muduo/TcpServer.cpp) across its loops: the base loop accepts and
 removes, an I/O loop establishes, dispatches and destroys, and the two meet only through the functor
 queues of module LoopProtocol.  With no I/O loops the base loop does all of it.
 */
module Server {
  import opened Common
  import opened Naming
  import opened RoundRobin

  type ConnId = nat

  const BASE: LoopId := 0

  datatype Config = Config(name: string, ipPort: string, ioLoops: seq<LoopId>) {
    predicate Valid() {
      && |ipPort| <= MAX_IP_PORT
      && BASE !in ioLoops
      && forall i, j :: 0 <= i < j < |ioLoops| ==> ioLoops[i] != ioLoops[j]
    }

    function AllLoops(): set<LoopId> {
      {BASE} + set l | l in ioLoops
    }

    function NameOf(c: ConnId): string {
      ConnName(name, ipPort, c)
    }

    /** The loop the k-th accepted connection is given, counting from 0. */
    function Turn(k: nat): LoopId {
      if ioLoops == [] then BASE else ioLoops[k % |ioLoops|]
    }
  }

  /** What happens to a connection, in order: up and down are its connection callbacks. */
  datatype Life = CameUp | Event | WentDown | Destroyed

  /** A connection: `listed` while its channel is in its loop's poller, `watched` while the kernel has
      its interest. */
  datatype ConnRec = ConnRec(loop: LoopId, state: ConnState, listed: bool, watched: bool, life: seq<Life>)

  /** The functors in the loops' queues.  Those of the life cycle and the notices bind a shared pointer
      and so own their connection; those of an off-loop send or shutdown bind the bare `this`.  `early`
      records that the functor was queued before its connection's destruction was. */
  datatype Task =
    | EstablishTask(c: ConnId)
    | RemoveTask(c: ConnId)
    | DestroyTask(c: ConnId)
    | FunctorTask(c: ConnId, owns: bool, early: bool)
  {
    predicate Owning() {
      FunctorTask? ==> owns
    }
  }

  /** Where a loop's thread is; dispatching a connection's events may take it through a close. */
  datatype LoopPc =
    | Polling
    | Handling
    | Dispatching(c: ConnId)
    | Closing(c: ConnId)       // handleClose has run up to its close callback
    | Closed(c: ConnId)        // handleClose has returned, handleEvent has not
    | Removing(c: ConnId, nested: bool)   // in removeConnectionInLoop, called by handleClose or as a functor
    | Running

  /** A loop: the functors queued, those swapped out and not yet begun, and those begun, which the local
      vector of doPendingFunctors keeps alive until the whole batch is done. */
  datatype LoopRec = LoopRec(pc: LoopPc, active: seq<ConnId>, begun: seq<Task>, batch: seq<Task>, queue: seq<Task>)

  datatype State = State(
    loops: map<LoopId, LoopRec>,
    conns: map<ConnId, ConnRec>,          // every connection ever accepted
    connections: map<string, ConnId>,     // connections_
    nextId: nat,                          // nextConnId_
    next: nat                             // the pool's next_
  )

  const IDLE_LOOP := LoopRec(Polling, [], [], [], [])

  function Initial(cfg: Config): State {
    State(map l | l in cfg.AllLoops() :: IDLE_LOOP, map[], map[], 1, 0)
  }

  datatype Action =
    | Accept                                      // newConnection, from the acceptor's handler
    | Shutdown(c: ConnId)                         // TcpConnection::shutdown, from any thread
    | Poll(l: LoopId, active: seq<ConnId>)
    | Dispatch(l: LoopId)                         // handleEvent of the next active channel begins
    | Close(l: LoopId)                            // it runs handleClose up to the close callback
    | NotifyClose(l: LoopId)                      // the close callback, removeConnection
    | QueueDestroy(l: LoopId)                     // removeConnectionInLoop, once it has erased the name
    | Return(l: LoopId)                           // handleEvent returns
    | PushFunctor(c: ConnId, owns: bool)          // a notice, or an off-loop send or shutdown
    | StartBatch(l: LoopId)
    | RunTask(l: LoopId)
    | EndBatch(l: LoopId)

  /** The kernel may report these: it watches them for the loop's poller, and reports each once. */
  predicate Reportable(s: State, l: LoopId, active: seq<ConnId>) {
    && (forall i :: 0 <= i < |active| ==> active[i] in s.conns)
    && (forall i :: 0 <= i < |active| ==> s.conns[active[i]].loop == l && s.conns[active[i]].watched)
    && (forall i, j :: 0 <= i < j < |active| ==> active[i] != active[j])
  }

  predicate Enabled(s: State, a: Action) {
    match a
    case Accept => BASE in s.loops && s.loops[BASE].pc.Handling? && s.nextId <= INT_MAX
    case Shutdown(c) => c in s.conns && s.conns[c].state.Connected?
    case Poll(l, active) =>
      l in s.loops && s.loops[l].pc.Polling? && Reportable(s, l, active)
    case Dispatch(l) => l in s.loops && s.loops[l].pc.Handling? && s.loops[l].active != []
    case Close(l) => l in s.loops && s.loops[l].pc.Dispatching?
    case NotifyClose(l) => l in s.loops && s.loops[l].pc.Closing?
    case QueueDestroy(l) => l in s.loops && s.loops[l].pc.Removing?
    case Return(l) => l in s.loops && (s.loops[l].pc.Dispatching? || s.loops[l].pc.Closed?)
    case PushFunctor(c, owns) =>
      // notices are queued by the connection's own loop while it is up; the bare ones by any thread
      // that has the connection, at any time
      && c in s.conns && s.conns[c].loop in s.loops
      && (owns ==> s.conns[c].state.Connected? || s.conns[c].state.Disconnecting?)
    case StartBatch(l) => l in s.loops && s.loops[l].pc.Handling? && s.loops[l].active == []
    case RunTask(l) => l in s.loops && s.loops[l].pc.Running? && s.loops[l].batch != []
    case EndBatch(l) => l in s.loops && s.loops[l].pc.Running? && s.loops[l].batch == []
  }

  function SetPc(s: State, l: LoopId, pc: LoopPc): State
    requires l in s.loops
  {
    s.(loops := s.loops[l := s.loops[l].(pc := pc)])
  }

  /** queueInLoop. */
  function Queue(s: State, l: LoopId, t: Task): State {
    if l in s.loops then s.(loops := s.loops[l := s.loops[l].(queue := s.loops[l].queue + [t])]) else s
  }

  function Update(s: State, c: ConnId, rec: ConnRec): State {
    s.(conns := s.conns[c := rec])
  }

  function Established(rec: ConnRec): ConnRec {
    rec.(state := Connected, listed := true, watched := true, life := rec.life + [CameUp])
  }

  function ClosedRec(rec: ConnRec): ConnRec {
    rec.(state := Disconnected, watched := false, life := rec.life + [WentDown])
  }

  /** connectDestroyed: had the connection still been up, it would first go down. */
  function DestroyedRec(rec: ConnRec): ConnRec {
    var down := if rec.state.Connected? then ClosedRec(rec) else rec;
    down.(listed := false, watched := false, life := down.life + [Destroyed])
  }

  /** newConnection: runInLoop runs the establishment at once when the base loop is the connection's. */
  function NewConnection(cfg: Config, s: State): State {
    var c := s.nextId;
    var l := if s.next < |cfg.ioLoops| then cfg.ioLoops[s.next] else BASE;
    var rec := ConnRec(l, Connecting, false, false, []);
    var added := s.(connections := s.connections[cfg.NameOf(c) := c],
                    nextId := c + 1,
                    next := if cfg.ioLoops == [] then 0 else (s.next + 1) % |cfg.ioLoops|);
    if l == BASE then Update(added, c, Established(rec))
    else Queue(Update(added, c, rec), l, EstablishTask(c))
  }

  /** The first half of removeConnectionInLoop.  The second is another access to what threads share. */
  function Erase(cfg: Config, s: State, c: ConnId): State {
    s.(connections := s.connections - {cfg.NameOf(c)})
  }

  /** And the second: the destruction is queued even from the connection's own loop. */
  function QueueDestruction(s: State, c: ConnId): State {
    if c in s.conns then Queue(s, s.conns[c].loop, DestroyTask(c)) else s
  }

  /** Neither has the connection's destruction run nor is it in its loop's queue or batch. */
  predicate BeforeDestruction(s: State, c: ConnId)
    requires c in s.conns && s.conns[c].loop in s.loops
  {
    var lr := s.loops[s.conns[c].loop];
    Destroyed !in s.conns[c].life && DestroyTask(c) !in lr.batch && DestroyTask(c) !in lr.queue
  }

  function Execute(cfg: Config, s: State, t: Task): State {
    if t.c !in s.conns then s
    else
      match t
      case EstablishTask(c) => Update(s, c, Established(s.conns[c]))
      case RemoveTask(c) => Erase(cfg, s, c)
      case DestroyTask(c) => Update(s, c, DestroyedRec(s.conns[c]))
      case FunctorTask(_, _, _) => s   // nothing of a connection's life
  }

  /** The next functor leaves the batch and begins. */
  function Popped(s: State, l: LoopId): State
    requires l in s.loops && s.loops[l].batch != []
  {
    var lr := s.loops[l];
    var pc := if lr.batch[0].RemoveTask? then Removing(lr.batch[0].c, false) else lr.pc;
    s.(loops := s.loops[l := lr.(pc := pc, batch := lr.batch[1..], begun := lr.begun + [lr.batch[0]])])
  }

  function Next(cfg: Config, s: State, a: Action): State
    requires Enabled(s, a)
  {
    match a
    case Accept => NewConnection(cfg, s)
    case Shutdown(c) => Update(s, c, s.conns[c].(state := Disconnecting))
    case Poll(l, active) => s.(loops := s.loops[l := s.loops[l].(pc := Handling, active := active)])
    case Dispatch(l) =>
      var lr := s.loops[l];
      var c := lr.active[0];
      var popped := s.(loops := s.loops[l := lr.(pc := Dispatching(c), active := lr.active[1..])]);
      if c in s.conns then Update(popped, c, s.conns[c].(life := s.conns[c].life + [Event])) else popped
    case Close(l) =>
      var c := s.loops[l].pc.c;
      var closing := SetPc(s, l, Closing(c));
      if c in s.conns then Update(closing, c, ClosedRec(s.conns[c])) else closing
    case NotifyClose(l) =>
      var c := s.loops[l].pc.c;
      if l == BASE then Erase(cfg, SetPc(s, l, Removing(c, true)), c)
      else Queue(SetPc(s, l, Closed(c)), BASE, RemoveTask(c))
    case QueueDestroy(l) =>
      var pc := s.loops[l].pc;
      QueueDestruction(SetPc(s, l, if pc.nested then Closed(pc.c) else Running), pc.c)
    case Return(l) => SetPc(s, l, Handling)
    case PushFunctor(c, owns) =>
      Queue(s, s.conns[c].loop, FunctorTask(c, owns, BeforeDestruction(s, c)))
    case StartBatch(l) =>
      var lr := s.loops[l];
      s.(loops := s.loops[l := lr.(pc := Running, begun := [], batch := lr.queue, queue := [])])
    case RunTask(l) => Execute(cfg, Popped(s, l), s.loops[l].batch[0])
    case EndBatch(l) => s.(loops := s.loops[l := s.loops[l].(pc := Polling, begun := [])])
  }

  datatype Run = Run(states: seq<State>, acts: seq<Action>)

  ghost predicate IsRun(cfg: Config, r: Run) {
    && |r.states| == |r.acts| + 1
    && r.states[0] == Initial(cfg)
    && forall i {:trigger r.acts[i]} :: 0 <= i < |r.acts| ==>
         Enabled(r.states[i], r.acts[i]) && r.states[i + 1] == Next(cfg, r.states[i], r.acts[i])
  }

  /** A run with one step more, or with none. */
  function WithStep(r: Run, b: Option<Action>, t: State): Run {
    if b.Some? then Run(r.states + [t], r.acts + [b.value]) else r
  }

  ghost predicate EndsIn(cfg: Config, r: Run, s: State) {
    IsRun(cfg, r) && r.states[|r.states| - 1] == s
  }

  lemma StepExtends(cfg: Config, r: Run, s: State, b: Option<Action>, t: State)
    requires EndsIn(cfg, r, s)
    requires if b.Some? then Enabled(s, b.value) && t == Next(cfg, s, b.value) else t == s
    ensures EndsIn(cfg, WithStep(r, b, t), t)
  {
    hide Enabled, Next;
  }
}
