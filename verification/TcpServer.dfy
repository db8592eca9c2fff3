/** muduo/TcpServer.cpp as an object over its loops, their functor queues and its connections.  Its
    methods take the state that these objects make up where module Server says. */
module TcpServer {
  import opened Common
  import opened Naming
  import opened RoundRobin
  import Server

  /** A functor in a loop's queue, bound to a connection object; the last kind is not of its life cycle. */
  datatype Functor =
    | Establish(conn: Connection)
    | Remove(conn: Connection)
    | Destroy(conn: Connection)
    | Callback(conn: Connection, owns: bool, early: bool)
  {
    function Label(): Server.Task {
      match this
      case Establish(conn) => Server.EstablishTask(conn.id)
      case Remove(conn) => Server.RemoveTask(conn.id)
      case Destroy(conn) => Server.DestroyTask(conn.id)
      case Callback(conn, owns, early) => Server.FunctorTask(conn.id, owns, early)
    }
  }

  function Labels(functors: seq<Functor>): seq<Server.Task> {
    seq(|functors|, i requires 0 <= i < |functors| => functors[i].Label())
  }

  /** A loop as the server sees it: its queue.  `thread` is where its thread is, with what it has swapped
      out. */
  class Loop {
    const id: LoopId
    var pendingFunctors: seq<Functor>
    ghost var thread: Server.LoopRec

    ghost function Abs(): Server.LoopRec
      reads this
    {
      thread.(queue := Labels(pendingFunctors))
    }

    constructor (id: LoopId)
      ensures this.id == id && Abs() == Server.IDLE_LOOP
    {
      this.id, pendingFunctors, thread := id, [], Server.IDLE_LOOP;
    }

    method QueueInLoop(f: Functor)
      modifies this`pendingFunctors
      ensures Abs() == old(Abs()).(queue := old(Abs()).queue + [f.Label()])
    {
      pendingFunctors := pendingFunctors + [f];
      assert Labels(pendingFunctors) == Labels(old(pendingFunctors)) + [f.Label()];
    }
  }

  /** A connection as the server sees it. */
  class Connection {
    const id: Server.ConnId
    const name: string
    const loop: Loop
    var state: ConnState
    var listed: bool
    var watched: bool
    ghost var life: seq<Server.Life>

    ghost function Rec(): Server.ConnRec
      reads this
    {
      Server.ConnRec(loop.id, state, listed, watched, life)
    }

    constructor (loop: Loop, id: Server.ConnId, name: string)
      ensures this.loop == loop && this.id == id && this.name == name
      ensures Rec() == Server.ConnRec(loop.id, Connecting, false, false, [])
    {
      this.loop, this.id, this.name := loop, id, name;
      state, listed, watched, life := Connecting, false, false, [];
    }

    method ConnectEstablished()
      modifies this
      ensures Rec() == Server.Established(old(Rec()))
    {
      state := Connected;
      listed, watched := true, true;
      life := life + [Server.CameUp];
    }

    method ConnectDestroyed()
      modifies this
      ensures Rec() == Server.DestroyedRec(old(Rec()))
    {
      if state == Connected {
        state := Disconnected;
        watched := false;
        life := life + [Server.WentDown];
      }
      listed, watched := false, false;
      life := life + [Server.Destroyed];
    }
  }

  function Ids(loops: seq<Loop>): seq<LoopId> {
    seq(|loops|, i requires 0 <= i < |loops| => loops[i].id)
  }

  class TcpServer {
    const loop: Loop
    const ipPort: string
    const name: string
    const threadPool: EventLoopThreadPool<Loop>
    var started: nat
    var nextConnId: nat
    var connections: map<string, Connection>
    /** All loops by their identity, and every connection ever accepted. */
    ghost var loops: map<LoopId, Loop>
    ghost var conns: map<Server.ConnId, Connection>

    ghost function Cfg(): Server.Config
      reads threadPool
    {
      Server.Config(name, ipPort, Ids(threadPool.loops))
    }

    ghost predicate LoopsValid()
      reads this`loops, threadPool
    {
      && threadPool.Valid() && threadPool.baseLoop == loop && loop.id == Server.BASE
      && loops.Keys == Cfg().AllLoops() && (forall l :: l in loops ==> loops[l].id == l) && loops[Server.BASE] == loop
      && forall i :: 0 <= i < |threadPool.loops| ==>
           threadPool.loops[i].id in loops && loops[threadPool.loops[i].id] == threadPool.loops[i]
    }

    ghost predicate Known(conn: Connection)
      reads this`conns
    {
      conn.id in conns && conns[conn.id] == conn
    }

    ghost predicate ConnsValid()
      reads this, threadPool
    {
      && (forall c :: c in conns ==>
            && conns[c].id == c && c < nextConnId && conns[c].name == Cfg().NameOf(c)
            && conns[c].loop.id in loops && loops[conns[c].loop.id] == conns[c].loop)
      && (forall n :: n in connections ==> Known(connections[n]))
      && (started == 0 ==> threadPool.loops == [] && threadPool.handed == [] && conns == map[] && nextConnId == 1)
    }

    ghost predicate Valid()
      reads this, threadPool
    {
      LoopsValid() && ConnsValid()
    }

    ghost function LoopRecs(): map<LoopId, Server.LoopRec>
      reads this`loops, loops.Values
    {
      map l | l in loops :: loops[l].Abs()
    }

    ghost function ConnRecs(): map<Server.ConnId, Server.ConnRec>
      reads this`conns, conns.Values
    {
      map c | c in conns :: conns[c].Rec()
    }

    ghost function Names(): map<string, Server.ConnId>
      reads this`connections
    {
      map n | n in connections :: connections[n].id
    }

    /** The state that the loops, the connections and the server's own fields make up. */
    ghost function Abs(): Server.State
      reads this`loops, this`conns, this`connections, this`nextConnId, threadPool, loops.Values, conns.Values
    {
      Server.State(LoopRecs(), ConnRecs(), Names(), nextConnId, threadPool.next)
    }

    constructor (loop: Loop, ipPort: string, name: string)
      requires loop.id == Server.BASE
      ensures Valid() && this.loop == loop && this.ipPort == ipPort && this.name == name && started == 0
      ensures fresh(threadPool) && Cfg() == Server.Config(name, ipPort, [])
      ensures loop.Abs() == Server.IDLE_LOOP ==> Abs() == Server.Initial(Cfg())
    {
      this.loop, this.ipPort, this.name := loop, ipPort, name;
      threadPool := new EventLoopThreadPool(loop);
      started, nextConnId, connections := 0, 1, map[];
      loops, conns := map[Server.BASE := loop], map[];
    }

    /** The loops that as many threads make, numbered from 1. */
    static method Spawn(numThreads: nat) returns (spawned: seq<Loop>)
      ensures |spawned| == numThreads && fresh(spawned) && Numbered(spawned)
      ensures forall k :: 0 <= k < numThreads ==> spawned[k].Abs() == Server.IDLE_LOOP
    {
      spawned := [];
      for i := 0 to numThreads
        invariant |spawned| == i && fresh(spawned) && Numbered(spawned)
        invariant forall k :: 0 <= k < i ==> spawned[k].Abs() == Server.IDLE_LOOP
      {
        var l := new Loop(i + 1);
        spawned := spawned + [l];
      }
    }

    /** A server whose loops are idle and that has accepted nothing is in the initial state. */
    lemma FreshIsInitial()
      requires LoopsValid() && connections == map[] && conns == map[] && nextConnId == 1 && threadPool.next == 0
      requires forall l :: l in loops ==> loops[l].Abs() == Server.IDLE_LOOP
      ensures Abs() == Server.Initial(Cfg())
    {
      hide Server.Config.AllLoops, Loop.Abs;
      assert Abs().loops == Server.Initial(Cfg()).loops;
    }

    /** The first call starts the pool's threads, and its loops join idle; any other changes nothing. */
    method Start(numThreads: nat, callback: bool)
      requires Valid()
      modifies this`started, this`loops, threadPool
      ensures Valid() && started == old(started) + 1
      ensures old(started) > 0 ==> Cfg() == old(Cfg()) && Abs() == old(Abs())
      ensures old(started) == 0 ==> |Cfg().ioLoops| == numThreads && loop.Abs() == old(loop.Abs())
      ensures old(started) == 0 && old(loop.Abs()) == Server.IDLE_LOOP ==> Abs() == Server.Initial(Cfg())
    {
      hide LoopsValid, Abs, Loop.Abs, Server.Initial;
      started := started + 1;
      if started == 1 {
        StartPool(numThreads, callback);
      }
    }

    method StartPool(numThreads: nat, callback: bool)
      requires LoopsValid() && threadPool.loops == [] && threadPool.handed == []
      requires connections == map[] && conns == map[] && nextConnId == 1 && started == 1
      modifies this`loops, threadPool
      ensures Valid() && |Cfg().ioLoops| == numThreads && loop.Abs() == old(loop.Abs())
      ensures old(loop.Abs()) == Server.IDLE_LOOP ==> Abs() == Server.Initial(Cfg())
    {
      hide Server.Initial, Loop.Abs;
      var spawned := Spawn(numThreads);
      var _ := threadPool.Start(spawned, callback);
      loops := Joined(loop, spawned);
      JoinedLoops(loop, spawned);
      if loop.Abs() == Server.IDLE_LOOP {
        FreshIsInitial();
      }
    }

    /** EventLoop::queueInLoop on one of the server's loops. */
    method QueueInLoop(l: Loop, f: Functor)
      requires Valid() && l.id in loops && loops[l.id] == l
      modifies l`pendingFunctors
      ensures Valid() && Abs() == Server.Queue(old(Abs()), l.id, f.Label())
    {
      l.QueueInLoop(f);
      OneLoopChanged(l);
      hide Loop.Abs, LoopRecs, Valid;
    }

    twostate lemma OneLoopChanged(l: Loop)
      requires old(Valid()) && l.id in loops && loops[l.id] == l && loops == old(loops)
      requires forall k :: k in loops && loops[k] != l ==> loops[k].Abs() == old(loops[k].Abs())
      ensures LoopRecs() == old(LoopRecs())[l.id := l.Abs()]
    {
      hide Loop.Abs;
    }

    twostate lemma OneConnectionChanged(conn: Connection)
      requires old(Valid()) && Known(conn) && conns == old(conns)
      requires forall c :: c in conns && conns[c] != conn ==> conns[c].Rec() == old(conns[c].Rec())
      ensures ConnRecs() == old(ConnRecs())[conn.id := conn.Rec()]
    {
      hide Connection.Rec;
    }

    /** EventLoop::runInLoop, called on the thread of the loop `caller`. */
    method RunInLoop(l: Loop, f: Functor, caller: Loop)
      requires Valid() && l.id in loops && loops[l.id] == l && Known(f.conn)
      modifies this`connections, l`pendingFunctors, f.conn.loop`pendingFunctors, f.conn
      ensures Valid() && Known(f.conn)
      ensures caller == l ==> Abs() == RunWhole(Cfg(), old(Abs()), f.Label())
      ensures caller != l ==> Abs() == Server.Queue(old(Abs()), l.id, f.Label())
    {
      hide Valid, Abs, RunWhole, Server.Queue;
      if caller == l {
        Run(f);
      } else {
        QueueInLoop(l, f);
      }
    }

    /** A functor is run. */
    method Run(f: Functor)
      requires Valid() && Known(f.conn)
      modifies this`connections, f.conn.loop`pendingFunctors, f.conn
      ensures Valid() && Abs() == RunWhole(Cfg(), old(Abs()), f.Label())
    {
      hide LoopRecs, Names, Loop.Abs, Connection.Rec, Server.Erase, Server.QueueDestruction, LoopsValid;
      match f {
        case Establish(conn) =>
          conn.ConnectEstablished();
          OneConnectionChanged(conn);
        case Remove(conn) =>
          RemoveConnectionInLoop(conn);
        case Destroy(conn) =>
          conn.ConnectDestroyed();
          OneConnectionChanged(conn);
        case Callback(_, _, _) =>
      }
    }

    /** An accepted socket becomes a connection on the next loop; it is established at once when that
        loop is the base loop itself, and by a queued functor otherwise. */
    method NewConnection() returns (conn: Connection)
      requires Valid() && started > 0
      modifies this`nextConnId, this`connections, this`conns, threadPool`next, threadPool`handed, loops.Values
      ensures Valid() && fresh(conn) && Known(conn) && conn.id == old(nextConnId)
      ensures Cfg() == old(Cfg()) && Abs() == Server.NewConnection(Cfg(), old(Abs()))
    {
      ghost var cfg, before := Cfg(), Abs();
      AcceptInParts(cfg, before);
      assert before.nextId == nextConnId;
      hide *;
      var ioLoop := NextLoop();
      ghost var turned := Abs();
      assert ioLoop in loops.Values;
      conn := Register(ioLoop);
      ghost var registered := Abs();
      assert registered == Registered(cfg, turned, ioLoop.id);
      RunInLoop(ioLoop, Establish(conn), loop);
    }

    method NextLoop() returns (ioLoop: Loop)
      requires Valid() && started > 0
      modifies threadPool`next, threadPool`handed
      ensures Valid() && ioLoop.id in loops && loops[ioLoop.id] == ioLoop
      ensures ioLoop == loop <==> ioLoop.id == Server.BASE
      ensures ioLoop.id == NextId(Cfg(), old(Abs())) && Abs() == Turned(Cfg(), old(Abs()))
      ensures Cfg() == old(Cfg())
    {
      hide LoopRecs, ConnRecs, Names;
      ioLoop := threadPool.GetNextLoop();
    }

    /** The connection is made, named and entered into the map. */
    method Register(ioLoop: Loop) returns (conn: Connection)
      requires Valid() && started > 0 && ioLoop.id in loops && loops[ioLoop.id] == ioLoop
      modifies this`nextConnId, this`connections, this`conns
      ensures Valid() && fresh(conn) && Known(conn) && conn.id == old(nextConnId) && conn.loop == ioLoop
      ensures Abs() == Registered(Cfg(), old(Abs()), ioLoop.id)
    {
      hide Valid, Server.Config.NameOf, LoopRecs, ConnRecs, Names, Connection.Rec;
      conn := Named(ioLoop);
      Number(conn);
      Enter(conn);
    }

    method Named(ioLoop: Loop) returns (conn: Connection)
      ensures fresh(conn) && conn.id == nextConnId && conn.loop == ioLoop && conn.name == Cfg().NameOf(nextConnId)
      ensures conn.Rec() == Server.ConnRec(ioLoop.id, Connecting, false, false, [])
    {
      var buf := Snprintf(NAME_BUFFER, "-" + ipPort + "#" + Decimal(nextConnId));
      conn := new Connection(ioLoop, nextConnId, name + buf);
    }

    method Number(conn: Connection)
      requires Valid() && started > 0 && conn.id == nextConnId && conn.name == Cfg().NameOf(conn.id)
      requires conn.loop.id in loops && loops[conn.loop.id] == conn.loop
      modifies this`nextConnId, this`conns
      ensures Valid() && Known(conn) && nextConnId == old(nextConnId) + 1
      ensures ConnRecs() == old(ConnRecs())[conn.id := conn.Rec()]
    {
      hide LoopsValid, Server.Config.NameOf, Connection.Rec;
      nextConnId := nextConnId + 1;
      conns := conns[conn.id := conn];
    }

    method Enter(conn: Connection)
      requires Valid() && Known(conn)
      modifies this`connections
      ensures Valid() && Names() == old(Names())[conn.name := conn.id]
    {
      hide LoopsValid, Server.Config.NameOf;
      connections := connections[conn.name := conn];
    }

    method Erase(conn: Connection)
      requires Valid() && Known(conn)
      modifies this`connections
      ensures Valid() && Abs() == Server.Erase(Cfg(), old(Abs()), conn.id)
    {
      hide LoopRecs, ConnRecs, LoopsValid, Server.Config.NameOf;
      connections := connections - {conn.name};
    }

    /** Erases the name; the destruction is queued even on the connection's own loop. */
    method RemoveConnectionInLoop(conn: Connection)
      requires Valid() && Known(conn)
      modifies this`connections, conn.loop`pendingFunctors
      ensures Valid() && Abs() == Server.QueueDestruction(Server.Erase(Cfg(), old(Abs()), conn.id), conn.id)
    {
      hide LoopRecs, Names, LoopsValid, Server.Config.NameOf, Server.Queue;
      Erase(conn);
      QueueInLoop(conn.loop, Destroy(conn));
    }

    /** The close callback, called on the thread of the loop `caller`. */
    method RemoveConnection(conn: Connection, caller: Loop)
      requires Valid() && Known(conn)
      modifies this`connections, conn.loop`pendingFunctors, loop`pendingFunctors, conn
      ensures Valid()
      ensures caller == loop ==>
                Abs() == Server.QueueDestruction(Server.Erase(Cfg(), old(Abs()), conn.id), conn.id)
      ensures caller != loop ==> Abs() == Server.Queue(old(Abs()), Server.BASE, Server.RemoveTask(conn.id))
    {
      RunInLoop(loop, Remove(conn), caller);
    }
  }

  function Registered(cfg: Server.Config, s: Server.State, l: LoopId): Server.State {
    var named := s.(connections := s.connections[cfg.NameOf(s.nextId) := s.nextId], nextId := s.nextId + 1);
    Server.Update(named, s.nextId, Server.ConnRec(l, Connecting, false, false, []))
  }

  function NextId(cfg: Server.Config, s: Server.State): LoopId {
    if s.next < |cfg.ioLoops| then cfg.ioLoops[s.next] else Server.BASE
  }

  function Turned(cfg: Server.Config, s: Server.State): Server.State {
    s.(next := if cfg.ioLoops == [] then 0 else (s.next + 1) % |cfg.ioLoops|)
  }

  /** A functor's whole effect, when no other thread comes between the halves of a removal. */
  function RunWhole(cfg: Server.Config, s: Server.State, u: Server.Task): Server.State {
    var executed := Server.Execute(cfg, s, u);
    if u.RemoveTask? && u.c in s.conns then Server.QueueDestruction(executed, u.c) else executed
  }

  /** newConnection is its turn, its registration and a runInLoop. */
  lemma AcceptInParts(cfg: Server.Config, s: Server.State)
    ensures var l, u := NextId(cfg, s), Server.EstablishTask(s.nextId);
            var registered := Registered(cfg, Turned(cfg, s), l);
            Server.NewConnection(cfg, s) ==
              if l == Server.BASE then RunWhole(cfg, registered, u) else Server.Queue(registered, l, u)
  {
    var c := s.nextId;
    var registered := Registered(cfg, Turned(cfg, s), NextId(cfg, s));
    assert s.conns[c := Server.Established(registered.conns[c])]
        == registered.conns[c := Server.Established(registered.conns[c])];
  }

  predicate Numbered(spawned: seq<Loop>) {
    forall k :: 0 <= k < |spawned| ==> spawned[k].id == k + 1
  }

  /** All loops of a server, by their identity. */
  ghost function Joined(base: Loop, spawned: seq<Loop>): map<LoopId, Loop> {
    if spawned == [] then map[base.id := base]
    else
      var last := spawned[|spawned| - 1];
      Joined(base, spawned[..|spawned| - 1])[last.id := last]
  }

  lemma {:induction false} JoinedLoops(base: Loop, spawned: seq<Loop>)
    requires base.id == Server.BASE && Numbered(spawned)
    ensures var loops := Joined(base, spawned);
            && loops.Keys == {Server.BASE} + (set l | l in Ids(spawned))
            && loops[Server.BASE] == base
            && (forall l :: l in loops ==> loops[l].id == l && (loops[l] == base || loops[l] in spawned))
            && forall i :: 0 <= i < |spawned| ==> spawned[i].id in loops && loops[spawned[i].id] == spawned[i]
  {
    if spawned != [] {
      var init := spawned[..|spawned| - 1];
      JoinedLoops(base, init);
      assert Ids(spawned) == Ids(init) + [spawned[|spawned| - 1].id];
    }
  }
}
