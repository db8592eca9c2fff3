/**
 A server whose connections are the full state machines of module Connection.  A step is enabled here
 when its thread is where it must be and the kernel allows it; what Server assumes of a connection and
 Connection of its server is not assumed but proved, so the runs of both modules are those of the whole.
 */
module Composition {
  import opened Common
  import opened EventMask
  import opened RoundRobin
  import Registration
  import Server
  import ServerInvariant
  import ServerTheorems
  import Connection
  import ConnectionTheorems

  type ConnId = Server.ConnId

  datatype Config = Config(server: Server.Config, conn: Connection.Config) {
    predicate Valid() {
      server.Valid() && conn.masks.Sane()
    }
  }

  datatype State = State(server: Server.State, details: map<ConnId, Connection.Conn>)

  /** A connection with the events reported for it. */
  datatype Event = Event(c: ConnId, revents: Mask)

  datatype Action =
    | Accept
    | Shutdown(c: ConnId, inLoopThread: bool)
    | Work(c: ConnId, a: Connection.Action)    // a send, a queued half-close, or an event's handler
    | Close(c: ConnId, a: Connection.Action)    // an event's handler that runs handleClose
    | Poll(l: LoopId, events: seq<Event>)
    | RunTask(l: LoopId)
    | Other(b: Server.Action)

  function Initial(cfg: Config): State {
    State(Server.Initial(cfg.server), map[])
  }

  predicate IsHandler(a: Connection.Action) {
    a.DispatchHup? || a.DispatchErr? || a.DispatchIn? || a.DispatchOut?
  }

  /** The handler runs handleClose. */
  predicate Closes(d: Connection.Conn, a: Connection.Action) {
    || (a.DispatchHup? && d.dispatch.AtHup? && EPOLLHUP in d.dispatch.revents && EPOLLIN !in d.dispatch.revents)
    || (a.DispatchIn? && d.dispatch.AtIn? && EPOLLIN in d.dispatch.revents && a.read == Received([]))
  }

  /** The thread of the connection's loop is in its handleEvent, before or after a close. */
  predicate InHandleEvent(s: Server.State, c: ConnId) {
    && c in s.conns && s.conns[c].loop in s.loops
    && (s.loops[s.conns[c].loop].pc == Server.Dispatching(c) || s.loops[s.conns[c].loop].pc == Server.Closed(c))
  }

  predicate IsOther(s: State, a: Server.Action) {
    && (a.Dispatch? || a.NotifyClose? || a.QueueDestroy? || a.Return? || a.PushFunctor? || a.StartBatch? || a.EndBatch?)
    && Server.Enabled(s.server, a)
    // handleEvent returns when it has gone through all its tests
    && (a.Return? ==>
          var c := s.server.loops[a.l].pc.c;
          c in s.details ==> s.details[c].dispatch.Idle?)
  }

  predicate Enabled(s: State, a: Action) {
    match a
    case Accept => Server.Enabled(s.server, Server.Accept)
    case Shutdown(c, _) => c in s.details
    case Work(c, b) =>
      && c in s.details && Connection.Enabled(s.details[c], b)
      && (b.Send? || b.RunShutdown? || (IsHandler(b) && InHandleEvent(s.server, c) && !Closes(s.details[c], b)))
    case Close(c, b) =>
      && c in s.details && Connection.Enabled(s.details[c], b)
      && IsHandler(b) && InHandleEvent(s.server, c) && Closes(s.details[c], b)
    case Poll(l, events) =>
      && l in s.server.loops && s.server.loops[l].pc.Polling?
      && (forall i :: 0 <= i < |events| ==> Reportable(s, l, events[i]))
      && (forall i, j :: 0 <= i < j < |events| ==> events[i].c != events[j].c)
    case RunTask(l) => Server.Enabled(s.server, Server.RunTask(l))
    case Other(b) => IsOther(s, b)
  }

  /** The kernel has the connection's descriptor in this loop's set, with an interest that allows the
      events. */
  predicate Reportable(s: State, l: LoopId, e: Event) {
    && e.c in s.details && e.c in s.server.conns && s.server.conns[e.c].loop == l
    && s.details[e.c].reg.kernel.Some? && e.revents <= s.details[e.c].reg.kernel.value + ALWAYS_REPORTED
  }

  function Channels(events: seq<Event>): seq<ConnId> {
    seq(|events|, i requires 0 <= i < |events| => events[i].c)
  }

  /** What was reported for `c`. */
  function ReportedFor(events: seq<Event>, c: ConnId): Option<Mask> {
    if events == [] then None
    else if events[0].c == c then Some(events[0].revents)
    else ReportedFor(events[1..], c)
  }

  /** The server's part of a step. */
  function ServerNext(cfg: Config, s: State, a: Action): Server.State
    requires Enabled(s, a)
  {
    match a
    case Accept => Server.NewConnection(cfg.server, s.server)
    case Shutdown(c, _) =>
      if s.details[c].state.Connected? && c in s.server.conns then
        Server.Update(s.server, c, s.server.conns[c].(state := Disconnecting))
      else s.server
    case Work(_, _) => s.server
    case Close(c, _) =>
      var closing := Server.SetPc(s.server, s.server.conns[c].loop, Server.Closing(c));
      Server.Update(closing, c, Server.ClosedRec(s.server.conns[c]))
    case Poll(l, events) =>
      var lr := s.server.loops[l].(pc := Server.Handling, active := Channels(events));
      s.server.(loops := s.server.loops[l := lr])
    case RunTask(l) => Server.Next(cfg.server, s.server, Server.RunTask(l))
    case Other(b) => Server.Next(cfg.server, s.server, b)
  }

  /** What a connection does in a step. */
  function ConnAction(s: State, a: Action, c: ConnId): Option<Connection.Action>
    requires Enabled(s, a)
  {
    match a
    case Shutdown(d, inLoopThread) => if c == d then Some(Connection.CallShutdown(inLoopThread)) else None
    case Work(d, b) => if c == d then Some(b) else None
    case Close(d, b) => if c == d then Some(b) else None
    case Poll(_, events) =>
      if ReportedFor(events, c).Some? then Some(Connection.PollReports(ReportedFor(events, c).value)) else None
    case RunTask(l) =>
      var u := s.server.loops[l].batch[0];
      if u == Server.EstablishTask(c) then Some(Connection.DoEstablish)
      else if u == Server.DestroyTask(c) then Some(Connection.RunDestroy)
      else None
    case Accept => None
    case Other(_) => None
  }

  /** What the library does to the connection then, whether or not Connection would have it so. */
  function Effect(cfg: Config, d: Connection.Conn, b: Connection.Action): Connection.Conn {
    match b
    case DoEstablish => Connection.Establish(cfg.conn, d)
    case RunDestroy => Connection.Destroy(d)
    case PollReports(revents) => d.(dispatch := Connection.AtHup(revents))
    case _ => if Connection.Enabled(d, b) then Connection.Next(cfg.conn, d, b) else d
  }

  function After(cfg: Config, s: State, a: Action, c: ConnId): Connection.Conn
    requires Enabled(s, a) && c in s.details
  {
    match ConnAction(s, a, c)
    case None => s.details[c]
    case Some(b) => Effect(cfg, s.details[c], b)
  }

  /** A new connection; newConnection establishes it at once when it lives on the base loop. */
  function Fresh(cfg: Config, s: Server.State): Connection.Conn {
    if s.next < |cfg.server.ioLoops| && cfg.server.ioLoops[s.next] != Server.BASE then Connection.INITIAL
    else Connection.Establish(cfg.conn, Connection.INITIAL)
  }

  function Next(cfg: Config, s: State, a: Action): State
    requires Enabled(s, a)
  {
    var moved := map c | c in s.details :: After(cfg, s, a, c);
    State(ServerNext(cfg, s, a), if a.Accept? then moved[s.server.nextId := Fresh(cfg, s.server)] else moved)
  }

  datatype Run = Run(states: seq<State>, acts: seq<Action>)

  ghost predicate IsRun(cfg: Config, r: Run) {
    && |r.states| == |r.acts| + 1
    && r.states[0] == Initial(cfg)
    && forall i {:trigger r.acts[i]} :: 0 <= i < |r.acts| ==>
         Enabled(r.states[i], r.acts[i]) && r.states[i + 1] == Next(cfg, r.states[i], r.acts[i])
  }

  // ---------------------------------------------------------------- how the two views agree

  /** The server's record of a connection and its own state tell of the same moment. */
  predicate Shows(d: Connection.Conn, rec: Server.ConnRec) {
    rec.state == d.state && (Server.Destroyed in rec.life <==> d.destroyed)
  }

  /** Events are left for a connection only while it waits in its loop's active list or is dispatched. */
  predicate Placed(s: Server.State, c: ConnId, d: Connection.Conn)
    requires c in s.conns && s.conns[c].loop in s.loops
  {
    var lr := s.loops[s.conns[c].loop];
    && (c in lr.active ==> d.dispatch.AtHup?)
    && (!d.dispatch.Idle? ==>
          || c in lr.active
          || lr.pc == Server.Dispatching(c) || lr.pc == Server.Closing(c)
          || lr.pc == Server.Removing(c, true) || lr.pc == Server.Closed(c))
  }

  /** The server's record, its loop and the connection's own state agree. */
  predicate Matches(s: Server.State, c: ConnId, d: Connection.Conn) {
    c in s.conns && s.conns[c].loop in s.loops && Shows(d, s.conns[c]) && Placed(s, c, d)
  }

  ghost predicate Agree(cfg: Config, s: State, c: ConnId)
    requires c in s.details
  {
    ConnectionTheorems.Inv(cfg.conn, s.details[c]) && Matches(s.server, c, s.details[c])
  }

  ghost predicate Inv(cfg: Config, s: State) {
    && ServerInvariant.Inv(cfg.server, s.server)
    && s.details.Keys == s.server.conns.Keys
    && forall c :: c in s.details ==> Agree(cfg, s, c)
  }

  // ---------------------------------------------------------------- the server's assumptions hold

  function ServerAction(s: State, a: Action): Option<Server.Action>
    requires Enabled(s, a)
  {
    match a
    case Accept => Some(Server.Accept)
    case Shutdown(c, _) => if s.details[c].state.Connected? then Some(Server.Shutdown(c)) else None
    case Work(_, _) => None
    case Close(c, _) => Some(Server.Close(s.server.conns[c].loop))
    case Poll(l, events) => Some(Server.Poll(l, Channels(events)))
    case RunTask(l) => Some(Server.RunTask(l))
    case Other(b) => Some(b)
  }

  /** Everything the invariant says of one connection and its loop. */
  lemma PartsOf(cfg: Config, s: State, c: ConnId)
    requires Inv(cfg, s) && c in s.details
    ensures Agree(cfg, s, c) && c in s.server.conns && s.server.conns[c].loop in s.server.loops
    ensures ServerInvariant.ConnInv(cfg.server, s.server, c)
    ensures ServerInvariant.LoopInv(s.server, s.server.conns[c].loop)
  {
    hide ServerInvariant.ConnInv, ServerInvariant.LoopInv, ServerInvariant.ServerInv;
    assert Agree(cfg, s, c);
  }

  /** A handler that closes finds its connection up, so the loop has not closed it before. */
  lemma CloseIsFirst(cfg: Config, s: State, c: ConnId, b: Connection.Action)
    requires c in s.details && Agree(cfg, s, c) && ServerInvariant.LoopInv(s.server, s.server.conns[c].loop)
    requires Enabled(s, Close(c, b))
    ensures Connection.Live(s.details[c])
    ensures s.server.loops[s.server.conns[c].loop].pc == Server.Dispatching(c)
  {
  }

  /** What the kernel reports is a connection that the server knows to be watched. */
  lemma ReportedIsWatched(cfg: Config, s: State, l: LoopId, e: Event)
    requires Reportable(s, l, e) && Agree(cfg, s, e.c) && ServerInvariant.ConnInv(cfg.server, s.server, e.c)
    ensures Connection.Live(s.details[e.c]) && !s.details[e.c].destroyed && s.server.conns[e.c].watched
  {
    hide ServerInvariant.LifeFits, ServerInvariant.Tokens;
  }

  lemma PollRefines(cfg: Config, s: State, l: LoopId, events: seq<Event>)
    requires Inv(cfg, s) && Enabled(s, Poll(l, events))
    ensures Server.Enabled(s.server, Server.Poll(l, Channels(events)))
  {
    hide Inv;
    forall i | 0 <= i < |events|
      ensures s.server.conns[events[i].c].watched
    {
      PartsOf(cfg, s, events[i].c);
      ReportedIsWatched(cfg, s, l, events[i]);
    }
  }

  /** Whatever the parts do, the server's part is a step of the server, or none. */
  lemma ServerRefines(cfg: Config, s: State, a: Action)
    requires Inv(cfg, s) && Enabled(s, a)
    ensures match ServerAction(s, a)
            case None => ServerNext(cfg, s, a) == s.server
            case Some(b) =>
              Server.Enabled(s.server, b) && ServerNext(cfg, s, a) == Server.Next(cfg.server, s.server, b)
  {
    hide Inv, Connection.Next, Server.NewConnection, Server.QueueDestruction, Server.Execute;
    match a {
      case Close(c, b) =>
        PartsOf(cfg, s, c);
        CloseIsFirst(cfg, s, c, b);
      case Poll(l, events) => PollRefines(cfg, s, l, events);
      case Shutdown(c, _) => PartsOf(cfg, s, c);
      case _ =>
    }
    hide Agree, ServerInvariant.LoopInv, ServerInvariant.ConnInv;
  }

  // ---------------------------------------------------------------- the connections' assumptions hold

  lemma {:induction false} ReportedIsAnEvent(events: seq<Event>, c: ConnId)
    ensures ReportedFor(events, c).Some? ==> Event(c, ReportedFor(events, c).value) in events
    ensures ReportedFor(events, c).Some? <==> c in Channels(events)
  {
    if events != [] {
      ReportedIsAnEvent(events[1..], c);
      assert Channels(events) == [events[0].c] + Channels(events[1..]);
    }
  }

  /** No event of a connection is in progress while its loop polls or runs functors. */
  lemma PolledIsIdle(cfg: Config, s: State, c: ConnId)
    requires c in s.details && Agree(cfg, s, c) && ServerInvariant.LoopInv(s.server, s.server.conns[c].loop)
    requires var pc := s.server.loops[s.server.conns[c].loop].pc; pc.Polling? || pc.Running?
    ensures s.details[c].dispatch.Idle?
  {
    hide ConnectionTheorems.Inv;
  }

  lemma PollReportsAllowed(cfg: Config, s: State, l: LoopId, events: seq<Event>, c: ConnId)
    requires Inv(cfg, s) && Enabled(s, Poll(l, events)) && c in s.details && ReportedFor(events, c).Some?
    ensures Connection.Enabled(s.details[c], Connection.PollReports(ReportedFor(events, c).value))
  {
    hide Inv;
    ReportedIsAnEvent(events, c);
    var e := Event(c, ReportedFor(events, c).value);
    PartsOf(cfg, s, c);
    ReportedIsWatched(cfg, s, l, e);
    PolledIsIdle(cfg, s, c);
  }

  predicate IsLifeTask(u: Server.Task, c: ConnId) {
    u == Server.EstablishTask(c) || u == Server.DestroyTask(c)
  }

  lemma TaskIsInPhase(cfg: Server.Config, s: Server.State, l: LoopId, c: ConnId, u: Server.Task)
    requires c in s.conns && ServerInvariant.ConnInv(cfg, s, c) && IsLifeTask(u, c)
    requires l in s.loops && s.loops[l].batch != [] && s.loops[l].batch[0] == u
    ensures u.EstablishTask? ==> s.conns[c].state.Connecting?
    ensures u.DestroyTask? ==>
              s.conns[c].state.Disconnected? && s.conns[c].loop == l && Server.Destroyed !in s.conns[c].life
  {
    assert ServerInvariant.OfLife(u, c) && ServerInvariant.Count(s, l, u) > 0;
    ServerInvariant.DestroyedOnlyWhenGone(s.conns[c].life, ServerInvariant.PhaseOf(cfg, s, c));
    hide ServerInvariant.LifeFits, ServerInvariant.Count;
  }

  /** A life-cycle functor finds its connection in the state that its step assumes. */
  lemma TaskIsAllowed(cfg: Config, s: State, l: LoopId, c: ConnId, u: Server.Task)
    requires Inv(cfg, s) && c in s.details && IsLifeTask(u, c)
    requires l in s.server.loops && s.server.loops[l].pc.Running?
    requires s.server.loops[l].batch != [] && s.server.loops[l].batch[0] == u
    ensures Connection.Enabled(s.details[c], if u.EstablishTask? then Connection.DoEstablish else Connection.RunDestroy)
    ensures u.DestroyTask? ==> s.details[c].state.Disconnected?
  {
    hide Inv;
    PartsOf(cfg, s, c);
    TaskIsInPhase(cfg.server, s.server, l, c, u);
    hide ServerInvariant.ConnInv;
    if u.DestroyTask? {
      PolledIsIdle(cfg, s, c);
    }
    hide ServerInvariant.LoopInv, Placed;
  }

  /** Whatever the server does, what it does to a connection is a step of the connection, or nothing. */
  lemma ConnRefines(cfg: Config, s: State, a: Action, c: ConnId)
    requires Inv(cfg, s) && Enabled(s, a) && c in s.details
    ensures match ConnAction(s, a, c)
            case None => true
            case Some(b) =>
              Connection.Enabled(s.details[c], b)
              && Effect(cfg, s.details[c], b) == Connection.Next(cfg.conn, s.details[c], b)
  {
    hide Inv;
    match a {
      case Poll(l, events) =>
        if ReportedFor(events, c).Some? {
          PollReportsAllowed(cfg, s, l, events, c);
        }
      case RunTask(l) =>
        if IsLifeTask(s.server.loops[l].batch[0], c) {
          TaskIsAllowed(cfg, s, l, c, s.server.loops[l].batch[0]);
        }
      case _ =>
    }
  }

  // ---------------------------------------------------------------- the views stay in agreement

  predicate SameStage(d: Connection.Conn, n: Connection.Conn) {
    n.state == d.state && n.destroyed == d.destroyed && n.dispatch == d.dispatch
  }

  lemma SendKeepsStage(cfg: Config, d: Connection.Conn, data: Bytes, res: WriteResult)
    requires res.Fits(|data|)
    ensures SameStage(d, Connection.SendInLoop(cfg.conn, d, data, res))
  {
    var sent := Connection.Accepting(cfg.conn, d, data, res);
    assert SameStage(d, sent);
    BufferedKeepsStage(cfg, sent, data[Connection.Taken(cfg.conn, d, data, res)..]);
    hide Connection.Accepting, Connection.Buffered, Connection.Refuses;
  }

  lemma BufferedKeepsStage(cfg: Config, d: Connection.Conn, rest: Bytes)
    ensures SameStage(d, Connection.Buffered(cfg.conn, d, rest))
  {
    hide Registration.WithEvents;
  }

  lemma HandleWriteKeepsStage(cfg: Config, d: Connection.Conn, res: WriteResult)
    requires res.Fits(|d.output|)
    ensures SameStage(d, Connection.HandleWrite(cfg.conn, d, res))
  {
    hide Registration.WithEvents, Connection.Flatten;
  }

  lemma WorkKeeps(cfg: Config, d: Connection.Conn, b: Connection.Action)
    requires Connection.Enabled(d, b) && !Closes(d, b) && (b.Send? || b.RunShutdown? || IsHandler(b))
    ensures var n := Connection.Next(cfg.conn, d, b);
            n.state == d.state && n.destroyed == d.destroyed && (!IsHandler(b) ==> n.dispatch == d.dispatch)
  {
    match b {
      case Send(data, res) => SendKeepsStage(cfg, d, data, res);
      case DispatchOut(res) => HandleWriteKeepsStage(cfg, d.(dispatch := Connection.Idle), res);
      case _ =>
    }
    hide Connection.SendInLoop, Connection.HandleWrite, Connection.HandleClose, Connection.Flatten;
  }

  lemma WorkMatches(cfg: Config, s: State, c: ConnId, b: Connection.Action, e: ConnId)
    requires e in s.details && Matches(s.server, e, s.details[e]) && Enabled(s, Work(c, b))
    requires ServerInvariant.LoopInv(s.server, s.server.conns[e].loop)
    ensures Matches(ServerNext(cfg, s, Work(c, b)), e, After(cfg, s, Work(c, b), e))
  {
    WorkKeeps(cfg, s.details[c], b);
    hide Connection.Next, Connection.Enabled;
  }

  lemma CloseEnds(cfg: Config, d: Connection.Conn, b: Connection.Action)
    requires Connection.Enabled(d, b) && Closes(d, b)
    ensures var n := Connection.Next(cfg.conn, d, b); n.state.Disconnected? && n.destroyed == d.destroyed
  {
    hide Registration.WithEvents, Connection.Flatten;
  }

  lemma CloseMatches(cfg: Config, s: State, c: ConnId, b: Connection.Action, e: ConnId)
    requires e in s.details && Matches(s.server, e, s.details[e]) && Enabled(s, Close(c, b))
    requires ServerInvariant.LoopInv(s.server, s.server.conns[e].loop)
    requires ServerInvariant.LoopInv(s.server, s.server.conns[c].loop)
    requires s.server.loops[s.server.conns[c].loop].pc == Server.Dispatching(c)
    ensures Matches(ServerNext(cfg, s, Close(c, b)), e, After(cfg, s, Close(c, b), e))
  {
    CloseEnds(cfg, s.details[c], b);
    hide Connection.Next, Connection.Enabled;
  }

  lemma ShutdownMatches(cfg: Config, s: State, c: ConnId, inLoopThread: bool, e: ConnId)
    requires e in s.details && Matches(s.server, e, s.details[e]) && c in s.server.conns
    requires Enabled(s, Shutdown(c, inLoopThread))
    ensures Matches(ServerNext(cfg, s, Shutdown(c, inLoopThread)), e, After(cfg, s, Shutdown(c, inLoopThread), e))
  {
    hide Connection.IsWriting, Connection.Flatten;
  }

  lemma PollMatches(cfg: Config, s: State, l: LoopId, events: seq<Event>, e: ConnId)
    requires e in s.details && Matches(s.server, e, s.details[e]) && Enabled(s, Poll(l, events))
    requires s.server.conns[e].loop == l ==> s.details[e].dispatch.Idle?
    ensures Matches(ServerNext(cfg, s, Poll(l, events)), e, After(cfg, s, Poll(l, events), e))
  {
    ReportedIsAnEvent(events, e);
    if ReportedFor(events, e).Some? {
      assert Reportable(s, l, Event(e, ReportedFor(events, e).value));
    }
  }

  lemma RunTaskMatches(cfg: Config, s: State, l: LoopId, e: ConnId)
    requires e in s.details && Matches(s.server, e, s.details[e]) && Enabled(s, RunTask(l))
    requires s.server.loops[l].batch[0] == Server.DestroyTask(e) ==> s.details[e].state.Disconnected?
    ensures Matches(ServerNext(cfg, s, RunTask(l)), e, After(cfg, s, RunTask(l), e))
  {
    hide Registration.WithEvents, Registration.Removed;
  }

  lemma NotifyMatches(cfg: Config, s: State, l: LoopId, e: ConnId)
    requires e in s.details && Matches(s.server, e, s.details[e]) && Enabled(s, Other(Server.NotifyClose(l)))
    ensures Matches(Server.Next(cfg.server, s.server, Server.NotifyClose(l)), e, s.details[e])
  {
    hide Shows, Connection.Enabled, Connection.Next;
  }

  lemma QueueDestroyMatches(cfg: Config, s: State, l: LoopId, e: ConnId)
    requires e in s.details && Matches(s.server, e, s.details[e]) && Enabled(s, Other(Server.QueueDestroy(l)))
    ensures Matches(Server.Next(cfg.server, s.server, Server.QueueDestroy(l)), e, s.details[e])
  {
    hide Shows, Connection.Enabled, Connection.Next;
  }

  lemma OtherMatches(cfg: Config, s: State, b: Server.Action, e: ConnId)
    requires e in s.details && Matches(s.server, e, s.details[e]) && Enabled(s, Other(b))
    ensures Matches(ServerNext(cfg, s, Other(b)), e, After(cfg, s, Other(b), e))
  {
    assert After(cfg, s, Other(b), e) == s.details[e];
    hide After, Connection.Enabled, Connection.Next;
    if b.NotifyClose? {
      NotifyMatches(cfg, s, b.l, e);
    } else if b.QueueDestroy? {
      QueueDestroyMatches(cfg, s, b.l, e);
    }
    hide Server.QueueDestruction;
  }

  lemma AcceptMatches(cfg: Config, s: State, e: ConnId)
    requires e in s.details && Matches(s.server, e, s.details[e]) && Enabled(s, Accept) && e != s.server.nextId
    ensures Matches(ServerNext(cfg, s, Accept), e, After(cfg, s, Accept, e))
  {
  }

  lemma MatchesAfter(cfg: Config, s: State, a: Action, e: ConnId)
    requires Inv(cfg, s) && Enabled(s, a) && e in s.details && (a.Accept? ==> e != s.server.nextId)
    ensures Matches(ServerNext(cfg, s, a), e, After(cfg, s, a, e))
  {
    hide Inv, ServerNext, After, ServerInvariant.LoopInv, ServerInvariant.ConnInv, ConnectionTheorems.Inv, Matches;
    PartsOf(cfg, s, e);
    match a {
      case Accept => AcceptMatches(cfg, s, e);
      case Shutdown(c, inLoopThread) =>
        PartsOf(cfg, s, c);
        ShutdownMatches(cfg, s, c, inLoopThread, e);
      case Work(c, b) => WorkMatches(cfg, s, c, b, e);
      case Close(c, b) =>
        PartsOf(cfg, s, c);
        CloseIsFirst(cfg, s, c, b);
        CloseMatches(cfg, s, c, b, e);
      case Poll(l, events) =>
        if s.server.conns[e].loop == l {
          PolledIsIdle(cfg, s, e);
        }
        PollMatches(cfg, s, l, events, e);
      case RunTask(l) =>
        if s.server.loops[l].batch[0] == Server.DestroyTask(e) {
          TaskIsAllowed(cfg, s, l, e, Server.DestroyTask(e));
        }
        RunTaskMatches(cfg, s, l, e);
      case Other(b) => OtherMatches(cfg, s, b, e);
    }
  }

  lemma FreshKeepsInv(cfg: Config, s: Server.State)
    requires cfg.Valid()
    ensures ConnectionTheorems.Inv(cfg.conn, Fresh(cfg, s))
    ensures var d := Fresh(cfg, s); d.dispatch.Idle? && !d.destroyed
  {
    assert ConnectionTheorems.Inv(cfg.conn, Connection.INITIAL);
    ConnectionTheorems.EstablishKeepsInv(cfg.conn, Connection.INITIAL);
    hide ConnectionTheorems.Inv, Registration.WithEvents;
  }

  /** The server's record of a connection just accepted. */
  lemma FreshRecord(cfg: Config, s: State)
    requires Enabled(s, Accept)
    ensures var c, t := s.server.nextId, ServerNext(cfg, s, Accept);
            && c in t.conns && Shows(Fresh(cfg, s.server), t.conns[c])
            && forall l :: l in s.server.loops && l in t.loops ==> t.loops[l].active == s.server.loops[l].active
  {
    hide Registration.WithEvents;
  }

  lemma AcceptedMatches(cfg: Config, s: State)
    requires cfg.Valid() && Inv(cfg, s) && Enabled(s, Accept)
    ensures Matches(ServerNext(cfg, s, Accept), s.server.nextId, Fresh(cfg, s.server))
    ensures ConnectionTheorems.Inv(cfg.conn, Fresh(cfg, s.server))
  {
    hide Fresh, Shows, Agree, ConnectionTheorems.Inv;
    hide ServerInvariant.ServerInv, ServerInvariant.LoopInv, ServerInvariant.ConnInv;
    ServerInvariant.AcceptServer(cfg.server, s.server);
    hide Inv;
    var c, t := s.server.nextId, ServerNext(cfg, s, Accept);
    NotYetActive(cfg, s.server, t.conns[c].loop);
    FreshRecord(cfg, s);
    FreshKeepsInv(cfg, s.server);
    hide Server.NewConnection;
  }

  lemma NotYetActive(cfg: Config, s: Server.State, l: LoopId)
    requires ServerInvariant.Inv(cfg.server, s) && l in s.loops && s.nextId !in s.conns
    ensures s.nextId !in s.loops[l].active
  {
    assert ServerInvariant.LoopInv(s, l);
  }

  predicate Grows(s: Server.State, t: Server.State, accepts: bool) {
    && t.conns.Keys == s.conns.Keys + (if accepts then {s.nextId} else {})
    && (accepts ==> s.nextId !in s.conns)
  }

  lemma ServerGrows(cfg: Server.Config, s: Server.State, b: Server.Action)
    requires cfg.Valid() && ServerInvariant.Inv(cfg, s) && Server.Enabled(s, b)
    ensures Grows(s, Server.Next(cfg, s, b), b.Accept?)
  {
    hide Server.Next, ServerInvariant.LoopInv, ServerInvariant.ConnInv, ServerInvariant.ServerInv;
    if b.Accept? {
      ServerInvariant.AcceptServer(cfg, s);
    } else {
      ServerInvariant.StepAcceptsNothing(cfg, s, b);
    }
  }

  lemma ServerKeepsInv(cfg: Config, s: State, a: Action)
    requires cfg.Valid() && Inv(cfg, s) && Enabled(s, a)
    ensures ServerInvariant.Inv(cfg.server, ServerNext(cfg, s, a))
    ensures Grows(s.server, ServerNext(cfg, s, a), a.Accept?)
  {
    assert Grows(s.server, s.server, false);
    hide *;
    ServerPart(cfg, s);
    ServerRefines(cfg, s, a);
    NotAnAccept(s, a);
    match ServerAction(s, a)
    case None =>
    case Some(b) =>
      assert cfg.server.Valid() by { ServerConfigIsValid(cfg); }
      ServerInvariant.InvStep(cfg.server, s.server, b);
      ServerGrows(cfg.server, s.server, b);
  }

  lemma ServerPart(cfg: Config, s: State)
    requires Inv(cfg, s)
    ensures ServerInvariant.Inv(cfg.server, s.server)
  {
    hide ServerInvariant.Inv;
  }

  lemma ServerConfigIsValid(cfg: Config)
    requires cfg.Valid()
    ensures cfg.server.Valid() && cfg.conn.masks.Sane()
  {
  }

  lemma NotAnAccept(s: State, a: Action)
    requires Enabled(s, a)
    ensures match ServerAction(s, a)
            case None => !a.Accept?
            case Some(b) => b.Accept? <==> a.Accept?
  {
  }

  lemma ConnKeepsInv(cfg: Config, s: State, a: Action, c: ConnId)
    requires cfg.Valid() && Inv(cfg, s) && Enabled(s, a) && c in s.details
    ensures ConnectionTheorems.Inv(cfg.conn, After(cfg, s, a, c))
  {
    ConnRefines(cfg, s, a, c);
    PartsOf(cfg, s, c);
    hide Inv, Enabled, ConnectionTheorems.Inv, Effect, Connection.Next;
    match ConnAction(s, a, c)
    case None =>
    case Some(b) => ConnectionTheorems.InvStep(cfg.conn, s.details[c], b);
  }

  lemma AgreeAfter(cfg: Config, s: State, a: Action, c: ConnId)
    requires cfg.Valid() && Inv(cfg, s) && Enabled(s, a) && c in Next(cfg, s, a).details
    ensures Agree(cfg, Next(cfg, s, a), c)
  {
    hide Inv, Next, ServerNext, After, Fresh, Enabled, Matches, ConnectionTheorems.Inv, Config.Valid;
    NextIdIsNew(cfg, s);
    NextShape(cfg, s, a);
    DetailsAfter(cfg, s, a, c);
    if c in s.details {
      MatchesAfter(cfg, s, a, c);
      ConnKeepsInv(cfg, s, a, c);
    } else {
      AcceptedMatches(cfg, s);
    }
  }

  lemma NextShape(cfg: Config, s: State, a: Action)
    requires Enabled(s, a)
    ensures Next(cfg, s, a).server == ServerNext(cfg, s, a)
    ensures Next(cfg, s, a).details.Keys == s.details.Keys + if a.Accept? then {s.server.nextId} else {}
  {
    hide Enabled, ServerNext, After, Fresh;
  }

  lemma KeysAfter(cfg: Config, s: State, a: Action)
    requires cfg.Valid() && Inv(cfg, s) && Enabled(s, a)
    ensures Next(cfg, s, a).details.Keys == Next(cfg, s, a).server.conns.Keys
  {
    assert s.details.Keys == s.server.conns.Keys;
    hide Inv, Next, ServerNext, Enabled, ServerInvariant.Inv, Config.Valid;
    ServerKeepsInv(cfg, s, a);
    NextShape(cfg, s, a);
  }

  lemma StepKeepsInv(cfg: Config, s: State, a: Action)
    requires cfg.Valid() && Inv(cfg, s) && Enabled(s, a)
    ensures Inv(cfg, Next(cfg, s, a))
  {
    hide *;
    var t := Next(cfg, s, a);
    NextShape(cfg, s, a);
    ServerKeepsInv(cfg, s, a);
    KeysAfter(cfg, s, a);
    forall c | c in t.details
      ensures Agree(cfg, t, c)
    {
      AgreeAfter(cfg, s, a, c);
    }
    Assembled(cfg, t);
  }

  lemma Assembled(cfg: Config, s: State)
    requires ServerInvariant.Inv(cfg.server, s.server) && s.details.Keys == s.server.conns.Keys
    requires forall c :: c in s.details ==> Agree(cfg, s, c)
    ensures Inv(cfg, s)
  {
    hide ServerInvariant.Inv, Agree;
  }

  lemma {:induction false} InvHolds(cfg: Config, r: Run, i: nat)
    requires cfg.Valid() && IsRun(cfg, r) && i < |r.states|
    ensures Inv(cfg, r.states[i])
  {
    hide Inv, Next, Enabled;
    if i == 0 {
      StartsInAgreement(cfg);
    } else {
      InvHolds(cfg, r, i - 1);
      StepKeepsInv(cfg, r.states[i - 1], r.acts[i - 1]);
    }
  }

  lemma StartsInAgreement(cfg: Config)
    ensures Inv(cfg, Initial(cfg))
  {
    ServerInvariant.InitialInv(cfg.server);
  }

  // ---------------------------------------------------------------- every run is a run of each part

  /** The server's steps in the first `n` of the run. */
  function ServerRun(cfg: Config, r: Run, n: nat): Server.Run
    requires IsRun(cfg, r) && n <= |r.acts|
  {
    if n == 0 then Server.Run([Server.Initial(cfg.server)], [])
    else
      var s, a := r.states[n - 1], r.acts[n - 1];
      Server.WithStep(ServerRun(cfg, r, n - 1), ServerAction(s, a), r.states[n].server)
  }

  function WithConnStep(r: Connection.Run, b: Option<Connection.Action>, d: Connection.Conn): Connection.Run {
    if b.Some? then Connection.Run(r.states + [d], r.acts + [b.value]) else r
  }

  /** The run of a connection just accepted. */
  function FreshRun(d: Connection.Conn): Connection.Run {
    WithConnStep(Connection.Run([Connection.INITIAL], []),
                 if d == Connection.INITIAL then None else Some(Connection.DoEstablish), d)
  }

  /** The steps of connection `c` in the first `n` of the run. */
  function ConnRun(cfg: Config, r: Run, n: nat, c: ConnId): Connection.Run
    requires IsRun(cfg, r) && n <= |r.acts| && c in r.states[n].details
  {
    var s, a := r.states[n - 1], r.acts[n - 1];
    var d := r.states[n].details[c];
    if c in s.details then WithConnStep(ConnRun(cfg, r, n - 1, c), ConnAction(s, a, c), d) else FreshRun(d)
  }

  ghost predicate ConnEndsIn(cfg: Connection.Config, r: Connection.Run, d: Connection.Conn) {
    Connection.IsRun(cfg, r) && r.states[|r.states| - 1] == d
  }

  lemma ConnExtends(cfg: Connection.Config, r: Connection.Run, d: Connection.Conn, b: Option<Connection.Action>,
                    e: Connection.Conn)
    requires ConnEndsIn(cfg, r, d)
    requires if b.Some? then Connection.Enabled(d, b.value) && e == Connection.Next(cfg, d, b.value) else e == d
    ensures ConnEndsIn(cfg, WithConnStep(r, b, e), e)
  {
    hide Connection.Enabled, Connection.Next;
  }

  /** What a step leaves of a connection: what it had, what it did, or a new one. */
  lemma DetailsAfter(cfg: Config, s: State, a: Action, c: ConnId)
    requires Enabled(s, a) && c in Next(cfg, s, a).details && s.server.nextId !in s.details
    ensures Next(cfg, s, a).details[c] == if c in s.details then After(cfg, s, a, c) else Fresh(cfg, s.server)
  {
    hide Enabled, ServerNext, After, Fresh;
  }

  lemma NextIdIsNew(cfg: Config, s: State)
    requires Inv(cfg, s)
    ensures s.server.nextId !in s.details
  {
    assert ServerInvariant.ServerInv(cfg.server, s.server);
    hide Agree, ServerInvariant.LoopInv, ServerInvariant.ConnInv;
  }

  lemma FreshRunIsRun(cfg: Config, d: Connection.Conn)
    requires d == Connection.INITIAL || d == Connection.Establish(cfg.conn, Connection.INITIAL)
    ensures ConnEndsIn(cfg.conn, FreshRun(d), d)
  {
    hide Connection.Establish;
  }

  lemma StepOf(cfg: Config, r: Run, i: nat)
    requires IsRun(cfg, r) && i < |r.acts|
    ensures i + 1 < |r.states| && Enabled(r.states[i], r.acts[i])
    ensures r.states[i + 1] == Next(cfg, r.states[i], r.acts[i])
  {
    hide Next, Enabled;
  }

  lemma ServerRunStep(cfg: Config, r: Run, i: nat)
    requires cfg.Valid() && IsRun(cfg, r) && i < |r.acts|
    requires Server.EndsIn(cfg.server, ServerRun(cfg, r, i), r.states[i].server)
    ensures Server.EndsIn(cfg.server, ServerRun(cfg, r, i + 1), r.states[i + 1].server)
  {
    var s, a, before := r.states[i], r.acts[i], ServerRun(cfg, r, i);
    assert ServerRun(cfg, r, i + 1) == Server.WithStep(before, ServerAction(s, a), r.states[i + 1].server);
    hide *;
    InvHolds(cfg, r, i);
    StepOf(cfg, r, i);
    NextShape(cfg, s, a);
    ServerRefines(cfg, s, a);
    Server.StepExtends(cfg.server, before, s.server, ServerAction(s, a), r.states[i + 1].server);
  }

  /** The server's steps are a run of module Server: it may rely on its connections. */
  lemma {:induction false} ServerRunIsRun(cfg: Config, r: Run, n: nat)
    requires cfg.Valid() && IsRun(cfg, r) && n <= |r.acts|
    ensures Server.IsRun(cfg.server, ServerRun(cfg, r, n))
    ensures var t := ServerRun(cfg, r, n); t.states[|t.states| - 1] == r.states[n].server
  {
    hide Next, Enabled, Server.Next, Server.Enabled, Server.Initial;
    if n > 0 {
      ServerRunIsRun(cfg, r, n - 1);
      hide ServerRun;
      ServerRunStep(cfg, r, n - 1);
    }
  }

  lemma ConnRunStep(cfg: Config, r: Run, i: nat, c: ConnId)
    requires cfg.Valid() && IsRun(cfg, r) && i < |r.acts| && c in r.states[i + 1].details
    requires c in r.states[i].details ==> ConnEndsIn(cfg.conn, ConnRun(cfg, r, i, c), r.states[i].details[c])
    ensures ConnEndsIn(cfg.conn, ConnRun(cfg, r, i + 1, c), r.states[i + 1].details[c])
  {
    var s, a, d := r.states[i], r.acts[i], r.states[i + 1].details[c];
    assert ConnRun(cfg, r, i + 1, c) ==
           if c in s.details then WithConnStep(ConnRun(cfg, r, i, c), ConnAction(s, a, c), d) else FreshRun(d);
    hide *;
    InvHolds(cfg, r, i);
    StepOf(cfg, r, i);
    NextIdIsNew(cfg, s);
    DetailsAfter(cfg, s, a, c);
    if c in s.details {
      AfterIsAStep(cfg, s, a, c);
      ConnExtends(cfg.conn, ConnRun(cfg, r, i, c), s.details[c], ConnAction(s, a, c), d);
    } else {
      FreshIsOneOf(cfg, s.server);
      FreshRunIsRun(cfg, d);
    }
  }

  lemma AfterIsAStep(cfg: Config, s: State, a: Action, c: ConnId)
    requires Inv(cfg, s) && Enabled(s, a) && c in s.details
    ensures var b, d := ConnAction(s, a, c), s.details[c];
            if b.Some? then
              Connection.Enabled(d, b.value) && After(cfg, s, a, c) == Connection.Next(cfg.conn, d, b.value)
            else
              After(cfg, s, a, c) == d
  {
    ConnRefines(cfg, s, a, c);
    hide Inv, Enabled, ConnAction, Effect, Connection.Enabled, Connection.Next;
  }

  lemma FreshIsOneOf(cfg: Config, s: Server.State)
    ensures Fresh(cfg, s) == Connection.INITIAL || Fresh(cfg, s) == Connection.Establish(cfg.conn, Connection.INITIAL)
  {
  }

  /** And each connection's are a run of module Connection: it may rely on its server. */
  lemma {:induction false} ConnRunIsRun(cfg: Config, r: Run, n: nat, c: ConnId)
    requires cfg.Valid() && IsRun(cfg, r) && n <= |r.acts| && c in r.states[n].details
    ensures Connection.IsRun(cfg.conn, ConnRun(cfg, r, n, c))
    ensures var t := ConnRun(cfg, r, n, c); t.states[|t.states| - 1] == r.states[n].details[c]
  {
    assert n > 0;
    if c in r.states[n - 1].details {
      ConnRunIsRun(cfg, r, n - 1, c);
    }
    hide ConnRun, Next, Enabled;
    ConnRunStep(cfg, r, n - 1, c);
  }

  // ---------------------------------------------------------------- what only the whole shows

  /** The poller as the server records it and the registration that the connection keeps are the same. */
  lemma RegistrationsAgree(cfg: Config, r: Run, i: nat, c: ConnId)
    requires cfg.Valid() && IsRun(cfg, r) && i < |r.states| && c in r.states[i].details
    ensures var d, s := r.states[i].details[c], r.states[i].server;
            && c in s.conns && s.conns[c].listed == d.reg.listed && (s.conns[c].watched <==> d.reg.kernel.Some?)
            && s.conns[c].state == d.state && (Server.Destroyed in s.conns[c].life <==> d.destroyed)
            && (d.destroyed ==> !d.reg.listed)
  {
    InvHolds(cfg, r, i);
    hide IsRun;
    RegistrationAgrees(cfg, r.states[i], c);
  }

  lemma RegistrationAgrees(cfg: Config, s: State, c: ConnId)
    requires Inv(cfg, s) && c in s.details
    ensures var d := s.details[c];
            && c in s.server.conns && s.server.conns[c].listed == d.reg.listed
            && (s.server.conns[c].watched <==> d.reg.kernel.Some?)
            && s.server.conns[c].state == d.state && (Server.Destroyed in s.server.conns[c].life <==> d.destroyed)
            && (d.destroyed ==> !d.reg.listed)
  {
    hide Inv;
    PartsOf(cfg, s, c);
    ServerInvariant.DestroyedOnlyWhenGone(s.server.conns[c].life, ServerInvariant.PhaseOf(cfg.server, s.server, c));
    hide ServerInvariant.LifeFits, ServerInvariant.Tokens, ServerInvariant.LoopInv, Placed;
  }

  /** No handler of a connection's events ever runs on one that nobody owns or that was destroyed. */
  lemma HandlersFindItOwned(cfg: Config, r: Run, i: nat)
    requires cfg.Valid() && IsRun(cfg, r) && i < |r.acts|
    requires (r.acts[i].Work? || r.acts[i].Close?) && IsHandler(r.acts[i].a)
    ensures var c, s := r.acts[i].c, r.states[i];
            c in s.details && !s.details[c].destroyed && ServerTheorems.Owned(cfg.server, s.server, c)
  {
    assert Enabled(r.states[i], r.acts[i]);
    var c, s := r.acts[i].c, r.states[i].server;
    assert InHandleEvent(s, c);
    ServerRunIsRun(cfg, r, i);
    var t := ServerRun(cfg, r, i);
    RegistrationsAgree(cfg, r, i, c);
    hide IsRun, Enabled;
    ServerTheorems.DispatchedChannelIsSafe(cfg.server, t, |t.states| - 1, s.conns[c].loop, c);
    ServerTheorems.OwnedUntilDestroyed(cfg.server, t, |t.states| - 1, c);
  }
}
