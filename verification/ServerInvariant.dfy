/** The inductive invariant of a server with all its loops, queues and connections. */
module ServerInvariant {
  import opened Common
  import opened Naming
  import opened RoundRobin
  import opened Server

  // ---------------------------------------------------------------- tasks in the queues

  /** How many copies of `t` loop `l` holds, in its queue or in the rest of its batch. */
  function Count(s: State, l: LoopId, t: Task): nat {
    if l in s.loops then multiset(s.loops[l].batch)[t] + multiset(s.loops[l].queue)[t] else 0
  }

  lemma CountQueue(s: State, l: LoopId, t: Task)
    requires l in s.loops
    ensures forall k, u :: Count(Server.Queue(s, l, t), k, u) == Count(s, k, u) + if k == l && u == t then 1 else 0
  {
  }

  lemma CountPop(s: State, l: LoopId)
    requires l in s.loops && s.loops[l].batch != []
    ensures forall k, u ::
              Count(Popped(s, l), k, u) == Count(s, k, u) - if k == l && u == s.loops[l].batch[0] then 1 else 0
  {
    var b := s.loops[l].batch;
    assert b == [b[0]] + b[1..];
  }

  // ---------------------------------------------------------------- phases

  /** Where a connection stands between being accepted and being forgotten. */
  datatype Phase = EstablishQueued | Open | ClosePending | RemovePending | Erased | DestroyQueued | Gone

  /** The phase, read off the connection, its loop and the server's map. */
  function PhaseOf(cfg: Config, s: State, c: ConnId): Phase
    requires c in s.conns
  {
    var rec := s.conns[c];
    match rec.state
    case Connecting => EstablishQueued
    case Connected => Open
    case Disconnecting => Open
    case Disconnected =>
      if InClose(s, c) then ClosePending
      else if cfg.NameOf(c) in s.connections then RemovePending
      else if InRemoval(s, c) then Erased
      else if rec.listed then DestroyQueued
      else Gone
  }

  predicate InClose(s: State, c: ConnId)
    requires c in s.conns
  {
    s.conns[c].loop in s.loops && s.loops[s.conns[c].loop].pc == Closing(c)
  }

  /** The base loop is between the two halves of its removal. */
  predicate InRemoval(s: State, c: ConnId) {
    BASE in s.loops && s.loops[BASE].pc.Removing? && s.loops[BASE].pc.c == c
  }

  predicate OpenLife(life: seq<Life>) {
    life != [] && life[0].CameUp? && forall i :: 1 <= i < |life| ==> life[i].Event?
  }

  predicate ClosedLife(life: seq<Life>) {
    life != [] && OpenLife(life[..|life| - 1]) && life[|life| - 1].WentDown?
  }

  predicate GoneLife(life: seq<Life>) {
    life != [] && ClosedLife(life[..|life| - 1]) && life[|life| - 1].Destroyed?
  }

  predicate LifeFits(life: seq<Life>, p: Phase) {
    match p
    case EstablishQueued => life == []
    case Open => OpenLife(life)
    case ClosePending => ClosedLife(life)
    case RemovePending => ClosedLife(life)
    case Erased => ClosedLife(life)
    case DestroyQueued => ClosedLife(life)
    case Gone => GoneLife(life)
  }

  lemma DestroyedOnlyWhenGone(life: seq<Life>, p: Phase)
    requires LifeFits(life, p)
    ensures Destroyed in life <==> p.Gone?
  {
    if p.Gone? {
      assert life[|life| - 1] == Destroyed;
    } else if ClosedLife(life) {
      assert life == life[..|life| - 1] + [WentDown];
    }
  }

  predicate Mapped(p: Phase) {
    p.EstablishQueued? || p.Open? || p.ClosePending? || p.RemovePending?
  }

  /** The queued task that takes a connection out of its phase, and the loop whose queue it is in. */
  function Token(c: ConnId, l: LoopId, p: Phase): Option<(LoopId, Task)> {
    match p
    case EstablishQueued => Some((l, EstablishTask(c)))
    case RemovePending => Some((BASE, RemoveTask(c)))
    case DestroyQueued => Some((l, DestroyTask(c)))
    case Open => None
    case ClosePending => None
    case Erased => None
    case Gone => None
  }

  /** A task of the connection's life cycle. */
  predicate OfLife(u: Task, c: ConnId) {
    u.c == c && !u.FunctorTask?
  }

  /** Of the connection's life cycle exactly that task is in the queues, and once. */
  ghost predicate Tokens(s: State, c: ConnId, l: LoopId, p: Phase) {
    forall k: LoopId, u: Task :: OfLife(u, c) ==> Count(s, k, u) == if Token(c, l, p) == Some((k, u)) then 1 else 0
  }

  ghost predicate ConnInv(cfg: Config, s: State, c: ConnId)
    requires c in s.conns
  {
    var rec, p := s.conns[c], PhaseOf(cfg, s, c);
    && rec.loop in s.loops
    && Tokens(s, c, rec.loop, p)
    && (InRemoval(s, c) ==> p.Erased?)
    && (cfg.NameOf(c) in s.connections <==> Mapped(p))
    && (Mapped(p) ==> s.connections[cfg.NameOf(c)] == c)
    && (rec.listed <==> !p.EstablishQueued? && !p.Gone?)
    && (rec.watched <==> p.Open?)
    && LifeFits(rec.life, p)
  }

  /** A connection some event of loop `l` is about to reach or is being dispatched. */
  predicate OpenOn(s: State, l: LoopId, c: ConnId) {
    c in s.conns && s.conns[c].loop == l && (s.conns[c].state.Connected? || s.conns[c].state.Disconnecting?)
  }

  predicate LoopInv(s: State, l: LoopId)
    requires l in s.loops
  {
    var lr := s.loops[l];
    && (match lr.pc
        case Dispatching(c) => OpenOn(s, l, c) && c !in lr.active
        case Closing(c) => c in s.conns && s.conns[c].loop == l && s.conns[c].state.Disconnected? && c !in lr.active
        case Closed(c) =>
          c in s.conns && s.conns[c].loop == l && s.conns[c].state.Disconnected? && s.conns[c].listed && c !in lr.active
        case Removing(c, nested) =>
          && l == BASE && c in s.conns && s.conns[c].state.Disconnected? && s.conns[c].listed && c !in lr.active
          && if nested then s.conns[c].loop == l else lr.active == []
        case Polling => lr.active == []
        case Running => lr.active == []
        case Handling => true)
    && (forall i :: 0 <= i < |lr.active| ==> OpenOn(s, l, lr.active[i]))
    && (forall i, j :: 0 <= i < j < |lr.active| ==> lr.active[i] != lr.active[j])
    && (lr.batch != [] ==> lr.pc.Running? || (lr.pc.Removing? && !lr.pc.nested))
    && (forall i :: 0 <= i < |lr.batch| ==> lr.batch[i].c in s.conns)
    && (forall i :: 0 <= i < |lr.queue| ==> lr.queue[i].c in s.conns)
  }

  ghost predicate ServerInv(cfg: Config, s: State) {
    && s.loops.Keys == cfg.AllLoops()
    && 1 <= s.nextId <= INT_MAX + 1
    && (forall c :: c in s.conns <==> 1 <= c < s.nextId)
    && (forall c :: c in s.conns ==> s.conns[c].loop == cfg.Turn(c - 1))
    && s.next == (if cfg.ioLoops == [] then 0 else (s.nextId - 1) % |cfg.ioLoops|)
    && (forall name :: name in s.connections ==>
          s.connections[name] in s.conns && cfg.NameOf(s.connections[name]) == name)
  }

  ghost predicate Inv(cfg: Config, s: State) {
    && ServerInv(cfg, s)
    && (forall l :: l in s.loops ==> LoopInv(s, l))
    && (forall c :: c in s.conns ==> ConnInv(cfg, s, c))
  }

  // ---------------------------------------------------------------- frames

  /** Nothing a connection's invariant speaks of differs between `s` and `t`. */
  ghost predicate SameFor(cfg: Config, s: State, t: State, c: ConnId)
    requires c in s.conns && c in t.conns
  {
    && t.conns[c] == s.conns[c] && t.loops.Keys == s.loops.Keys
    && InClose(t, c) == InClose(s, c) && InRemoval(t, c) == InRemoval(s, c)
    && (cfg.NameOf(c) in t.connections <==> cfg.NameOf(c) in s.connections)
    && (cfg.NameOf(c) in s.connections ==> t.connections[cfg.NameOf(c)] == s.connections[cfg.NameOf(c)])
    && forall k, u: Task :: OfLife(u, c) ==> Count(t, k, u) == Count(s, k, u)
  }

  lemma ConnFrame(cfg: Config, s: State, t: State, c: ConnId)
    requires c in s.conns && c in t.conns && ConnInv(cfg, s, c) && SameFor(cfg, s, t, c)
    ensures ConnInv(cfg, t, c)
  {
    assert PhaseOf(cfg, t, c) == PhaseOf(cfg, s, c);
  }

  lemma SameForTrans(cfg: Config, s: State, m: State, t: State, c: ConnId)
    requires c in s.conns && c in m.conns && c in t.conns && SameFor(cfg, s, m, c) && SameFor(cfg, m, t, c)
    ensures SameFor(cfg, s, t, c)
  {
    hide Count, InClose, InRemoval;
  }

  lemma QueueSame(cfg: Config, s: State, l: LoopId, u: Task, c: ConnId)
    requires l in s.loops && c in s.conns && u.c != c
    ensures SameFor(cfg, s, Server.Queue(s, l, u), c)
  {
    CountQueue(s, l, u);
    hide Count;
  }

  lemma TokensFrame(s: State, t: State, c: ConnId, l: LoopId, p: Phase, q: Phase)
    requires Tokens(s, c, l, p) && t.loops.Keys == s.loops.Keys && Token(c, l, p) == Token(c, l, q)
    requires forall k :: k in s.loops ==> t.loops[k].batch == s.loops[k].batch && t.loops[k].queue == s.loops[k].queue
    ensures Tokens(t, c, l, q)
  {
    forall k, u
      ensures Count(t, k, u) == Count(s, k, u)
    {
    }
  }

  lemma TokenQueued(s: State, k: LoopId, u: Task, l: LoopId, p: Phase, q: Phase)
    requires k in s.loops && !u.FunctorTask? && Tokens(s, u.c, l, p)
    requires Token(u.c, l, p).None? && Token(u.c, l, q) == Some((k, u))
    ensures Tokens(Server.Queue(s, k, u), u.c, l, q)
  {
    CountQueue(s, k, u);
    hide Count;
  }

  lemma TokenPopped(s: State, k: LoopId, l: LoopId, p: Phase, q: Phase)
    requires k in s.loops && s.loops[k].batch != [] && !s.loops[k].batch[0].FunctorTask?
    requires Tokens(s, s.loops[k].batch[0].c, l, p) && Token(s.loops[k].batch[0].c, l, q).None?
    ensures Token(s.loops[k].batch[0].c, l, p) == Some((k, s.loops[k].batch[0]))
    ensures Tokens(Popped(s, k), s.loops[k].batch[0].c, l, q)
  {
    assert Count(s, k, s.loops[k].batch[0]) > 0;
    CountPop(s, k);
    hide Count;
  }

  /** No other connection has this one's name. */
  lemma NameIsOwn(cfg: Config, s: State, c: ConnId)
    requires cfg.Valid() && ServerInv(cfg, s) && c in s.conns
    ensures forall d :: d in s.conns && d != c ==> cfg.NameOf(d) != cfg.NameOf(c)
  {
    forall d | d in s.conns && d != c
      ensures cfg.NameOf(d) != cfg.NameOf(c)
    {
      NamesDistinct(cfg.name, cfg.ipPort, c, d);
    }
  }

  // ---------------------------------------------------------------- the steps

  /** A loop whose thread stays where it is keeps its invariant while connections only open. */
  lemma LoopFrame(s: State, t: State, l: LoopId)
    requires l in s.loops && l in t.loops && LoopInv(s, l)
    requires t.loops[l].pc == s.loops[l].pc && t.loops[l].active == s.loops[l].active
    requires |t.loops[l].batch| <= |s.loops[l].batch|
    requires forall i :: 0 <= i < |t.loops[l].batch| ==> t.loops[l].batch[i].c in t.conns
    requires forall i :: 0 <= i < |t.loops[l].queue| ==> t.loops[l].queue[i].c in t.conns
    requires forall c :: OpenOn(s, l, c) ==> OpenOn(t, l, c)
    requires s.loops[l].pc.Closing? || s.loops[l].pc.Closed? || s.loops[l].pc.Removing? ==>
               var c := s.loops[l].pc.c; c in t.conns && t.conns[c] == s.conns[c]
    ensures LoopInv(t, l)
  {
  }

  /** A connection nothing happened to keeps its invariant. */
  lemma ConnsFrame(cfg: Config, s: State, t: State, changed: set<ConnId>)
    requires s.conns.Keys <= t.conns.Keys
    requires forall c :: c in s.conns && c !in changed ==> ConnInv(cfg, s, c) && SameFor(cfg, s, t, c)
    ensures forall c :: c in s.conns && c !in changed ==> ConnInv(cfg, t, c)
  {
    hide ConnInv, SameFor;
    forall c | c in s.conns && c !in changed
      ensures ConnInv(cfg, t, c)
    {
      ConnFrame(cfg, s, t, c);
    }
  }

  /** What only an accept changes: the loops, the connections and where they live, and the counters;
      names are at most dropped. */
  ghost predicate AcceptsNothing(s: State, t: State) {
    && t.loops.Keys == s.loops.Keys && t.nextId == s.nextId && t.next == s.next
    && t.conns.Keys == s.conns.Keys && (forall c :: c in s.conns ==> t.conns[c].loop == s.conns[c].loop)
    && (forall name :: name in t.connections ==> name in s.connections && t.connections[name] == s.connections[name])
  }

  lemma ExecuteAcceptsNothing(cfg: Config, s: State, u: Task)
    ensures AcceptsNothing(s, Execute(cfg, s, u))
  {
  }

  lemma NotifyAcceptsNothing(cfg: Config, s: State, l: LoopId)
    requires Enabled(s, NotifyClose(l))
    ensures AcceptsNothing(s, Next(cfg, s, NotifyClose(l)))
  {
  }

  lemma StepAcceptsNothing(cfg: Config, s: State, a: Action)
    requires Enabled(s, a) && !a.Accept?
    ensures AcceptsNothing(s, Next(cfg, s, a))
  {
    match a
    case RunTask(l) =>
      var popped := Popped(s, l);
      ExecuteAcceptsNothing(cfg, popped, s.loops[l].batch[0]);
      hide Execute;
      assert AcceptsNothing(s, popped);
    case NotifyClose(l) =>
      NotifyAcceptsNothing(cfg, s, l);
      hide Next;
    case _ =>
  }

  lemma ServerStep(cfg: Config, s: State, a: Action)
    requires ServerInv(cfg, s) && Enabled(s, a) && !a.Accept?
    ensures ServerInv(cfg, Next(cfg, s, a))
    ensures Next(cfg, s, a).loops.Keys == s.loops.Keys && Next(cfg, s, a).conns.Keys == s.conns.Keys
  {
    StepAcceptsNothing(cfg, s, a);
    hide Next, Enabled;
  }

  /** The invariant after a step that accepts nothing, put together from its parts. */
  lemma Assemble(cfg: Config, s: State, a: Action, changed: set<ConnId>)
    requires Inv(cfg, s) && Enabled(s, a) && !a.Accept? && changed <= s.conns.Keys
    requires forall c :: c in s.conns && c !in changed ==>
               c in Next(cfg, s, a).conns && SameFor(cfg, s, Next(cfg, s, a), c)
    requires forall c :: c in changed ==> c in Next(cfg, s, a).conns && ConnInv(cfg, Next(cfg, s, a), c)
    requires forall l :: l in s.loops ==> l in Next(cfg, s, a).loops && LoopInv(Next(cfg, s, a), l)
    ensures Inv(cfg, Next(cfg, s, a))
  {
    hide ConnInv, SameFor, LoopInv, ServerInv, Next, Enabled;
    ServerStep(cfg, s, a);
    ConnsFrame(cfg, s, Next(cfg, s, a), changed);
  }

  // Shutdown

  lemma ShutdownConn(cfg: Config, s: State, c: ConnId)
    requires Enabled(s, Shutdown(c)) && ConnInv(cfg, s, c)
    ensures ConnInv(cfg, Next(cfg, s, Shutdown(c)), c)
  {
    hide LifeFits;
    var t := Next(cfg, s, Shutdown(c));
    assert PhaseOf(cfg, s, c) == PhaseOf(cfg, t, c) == Open;
    TokensFrame(s, t, c, s.conns[c].loop, Open, Open);
  }

  lemma ShutdownLoops(cfg: Config, s: State, c: ConnId)
    requires Enabled(s, Shutdown(c)) && forall l :: l in s.loops ==> LoopInv(s, l)
    ensures forall l :: l in s.loops ==> LoopInv(Next(cfg, s, Shutdown(c)), l)
  {
    forall l | l in s.loops
      ensures LoopInv(Next(cfg, s, Shutdown(c)), l)
    {
      assert LoopInv(s, l);
    }
  }

  lemma ShutdownStep(cfg: Config, s: State, c: ConnId)
    requires Inv(cfg, s) && Enabled(s, Shutdown(c))
    ensures Inv(cfg, Next(cfg, s, Shutdown(c)))
  {
    hide ConnInv, LoopInv;
    ShutdownConn(cfg, s, c);
    ShutdownLoops(cfg, s, c);
    Assemble(cfg, s, Shutdown(c), {c});
  }

  // Poll, Return, StartBatch and EndBatch

  predicate OfOneLoop(a: Action) {
    a.Poll? || a.Return? || a.StartBatch? || a.EndBatch?
  }

  lemma LoopOnlySame(cfg: Config, s: State, a: Action, c: ConnId)
    requires Enabled(s, a) && OfOneLoop(a) && LoopInv(s, a.l) && c in s.conns
    ensures SameFor(cfg, s, Next(cfg, s, a), c)
  {
  }

  lemma LoopOnlyLoop(cfg: Config, s: State, a: Action, l: LoopId)
    requires Enabled(s, a) && OfOneLoop(a) && l in s.loops && LoopInv(s, l)
    requires forall c :: c in s.conns && s.conns[c].watched ==> OpenOn(s, s.conns[c].loop, c)
    ensures LoopInv(Next(cfg, s, a), l)
  {
    var t := Next(cfg, s, a);
    assert t.conns == s.conns;
    if a.l != l {
      LoopFrame(s, t, l);
    } else if a.Poll? {
      assert forall i :: 0 <= i < |a.active| ==> s.conns[a.active[i]].watched;
      assert t.loops[l] == s.loops[l].(pc := Handling, active := a.active);
    }
  }

  lemma WatchedIsOpen(cfg: Config, s: State, c: ConnId)
    requires c in s.conns && ConnInv(cfg, s, c) && s.conns[c].watched
    ensures OpenOn(s, s.conns[c].loop, c)
  {
  }

  lemma LoopOnlyStep(cfg: Config, s: State, a: Action)
    requires Inv(cfg, s) && Enabled(s, a) && OfOneLoop(a)
    ensures Inv(cfg, Next(cfg, s, a))
  {
    hide ConnInv, LoopInv, SameFor, OpenOn;
    forall c | c in s.conns
      ensures SameFor(cfg, s, Next(cfg, s, a), c)
      ensures s.conns[c].watched ==> OpenOn(s, s.conns[c].loop, c)
    {
      LoopOnlySame(cfg, s, a, c);
      if s.conns[c].watched {
        WatchedIsOpen(cfg, s, c);
      }
    }
    forall l | l in s.loops
      ensures LoopInv(Next(cfg, s, a), l)
    {
      LoopOnlyLoop(cfg, s, a, l);
    }
    Assemble(cfg, s, a, {});
  }

  // Dispatch

  lemma DispatchConn(cfg: Config, s: State, l: LoopId, c: ConnId)
    requires Enabled(s, Dispatch(l)) && c == s.loops[l].active[0] && OpenOn(s, l, c) && ConnInv(cfg, s, c)
    ensures ConnInv(cfg, Next(cfg, s, Dispatch(l)), c)
  {
    var t := Next(cfg, s, Dispatch(l));
    assert PhaseOf(cfg, s, c) == PhaseOf(cfg, t, c) == Open;
    TokensFrame(s, t, c, s.conns[c].loop, Open, Open);
  }

  lemma DispatchSame(cfg: Config, s: State, l: LoopId, c: ConnId)
    requires Enabled(s, Dispatch(l)) && c in s.conns && c != s.loops[l].active[0]
    ensures SameFor(cfg, s, Next(cfg, s, Dispatch(l)), c)
  {
  }

  lemma DispatchLoops(cfg: Config, s: State, l: LoopId)
    requires Enabled(s, Dispatch(l)) && forall k :: k in s.loops ==> LoopInv(s, k)
    ensures forall k :: k in s.loops ==> LoopInv(Next(cfg, s, Dispatch(l)), k)
  {
    forall k | k in s.loops
      ensures LoopInv(Next(cfg, s, Dispatch(l)), k)
    {
      assert LoopInv(s, k) && LoopInv(s, l);
    }
  }

  lemma DispatchFindsItOpen(s: State, l: LoopId)
    requires Enabled(s, Dispatch(l)) && LoopInv(s, l)
    ensures OpenOn(s, l, s.loops[l].active[0]) && s.loops[l].active[0] in s.conns
  {
  }

  lemma DispatchStep(cfg: Config, s: State, l: LoopId)
    requires Inv(cfg, s) && Enabled(s, Dispatch(l))
    ensures Inv(cfg, Next(cfg, s, Dispatch(l)))
  {
    hide SameFor, ConnInv, LoopInv, ServerInv, Next, OpenOn;
    DispatchFindsItOpen(s, l);
    var c := s.loops[l].active[0];
    ServerStep(cfg, s, Dispatch(l));
    DispatchConn(cfg, s, l, c);
    DispatchLoops(cfg, s, l);
    forall d | d in s.conns && d != c
      ensures SameFor(cfg, s, Next(cfg, s, Dispatch(l)), d)
    {
      DispatchSame(cfg, s, l, d);
    }
    Assemble(cfg, s, Dispatch(l), {c});
  }

  // Close

  lemma CloseConn(cfg: Config, s: State, l: LoopId, c: ConnId)
    requires Enabled(s, Close(l)) && c == s.loops[l].pc.c && OpenOn(s, l, c) && ConnInv(cfg, s, c)
    ensures ConnInv(cfg, Next(cfg, s, Close(l)), c)
  {
    var t := Next(cfg, s, Close(l));
    assert PhaseOf(cfg, s, c) == Open && PhaseOf(cfg, t, c) == ClosePending;
    TokensFrame(s, t, c, s.conns[c].loop, Open, ClosePending);
    assert t.conns[c].life[..|t.conns[c].life| - 1] == s.conns[c].life;
  }

  lemma CloseSame(cfg: Config, s: State, l: LoopId, c: ConnId)
    requires Enabled(s, Close(l)) && c in s.conns && c != s.loops[l].pc.c
    ensures SameFor(cfg, s, Next(cfg, s, Close(l)), c)
  {
  }

  lemma CloseLoop(cfg: Config, s: State, l: LoopId, k: LoopId)
    requires Enabled(s, Close(l)) && k in s.loops && LoopInv(s, k) && LoopInv(s, l)
    ensures LoopInv(Next(cfg, s, Close(l)), k)
  {
    var t := Next(cfg, s, Close(l));
    assert forall i :: 0 <= i < |t.loops[k].active| ==> t.loops[k].active[i] != s.loops[l].pc.c;
    assert t.conns.Keys == s.conns.Keys;
  }

  lemma CloseFindsItOpen(s: State, l: LoopId)
    requires Enabled(s, Close(l)) && LoopInv(s, l)
    ensures OpenOn(s, l, s.loops[l].pc.c) && s.loops[l].pc.c in s.conns
  {
  }

  lemma CloseStep(cfg: Config, s: State, l: LoopId)
    requires Inv(cfg, s) && Enabled(s, Close(l))
    ensures Inv(cfg, Next(cfg, s, Close(l)))
  {
    hide SameFor, ConnInv, LoopInv, ServerInv, Next, OpenOn;
    CloseFindsItOpen(s, l);
    var c := s.loops[l].pc.c;
    ServerStep(cfg, s, Close(l));
    CloseConn(cfg, s, l, c);
    forall k | k in s.loops
      ensures LoopInv(Next(cfg, s, Close(l)), k)
    {
      CloseLoop(cfg, s, l, k);
    }
    forall d | d in s.conns && d != c
      ensures SameFor(cfg, s, Next(cfg, s, Close(l)), d)
    {
      CloseSame(cfg, s, l, d);
    }
    Assemble(cfg, s, Close(l), {c});
  }

  // NotifyClose, and the first half of removeConnectionInLoop

  /** The name is erased, the base loop is in the removal, and nothing else happened. */
  lemma ErasedConn(cfg: Config, s: State, t: State, c: ConnId, p: Phase)
    requires c in s.conns && s.conns[c].loop in s.loops && s.conns[c].state.Disconnected?
    requires s.conns[c].listed && !s.conns[c].watched && ClosedLife(s.conns[c].life)
    requires Token(c, s.conns[c].loop, p).None? && Tokens(s, c, s.conns[c].loop, p)
    requires t.conns == s.conns && t.connections == s.connections - {cfg.NameOf(c)} && t.loops.Keys == s.loops.Keys
    requires forall k :: k in s.loops ==> t.loops[k].batch == s.loops[k].batch && t.loops[k].queue == s.loops[k].queue
    requires InRemoval(t, c) && !InClose(t, c)
    ensures ConnInv(cfg, t, c)
  {
    hide ClosedLife, InRemoval;
    TokensFrame(s, t, c, s.conns[c].loop, p, Erased);
    assert PhaseOf(cfg, t, c) == Erased;
  }

  lemma EraseSame(cfg: Config, s: State, c: ConnId, d: ConnId)
    requires d in s.conns && cfg.NameOf(d) != cfg.NameOf(c)
    ensures SameFor(cfg, s, Erase(cfg, s, c), d)
  {
  }

  lemma NotifyConn(cfg: Config, s: State, l: LoopId, c: ConnId)
    requires Enabled(s, NotifyClose(l)) && c == s.loops[l].pc.c && BASE in s.loops
    requires LoopInv(s, l) && c in s.conns && ConnInv(cfg, s, c)
    ensures ConnInv(cfg, Next(cfg, s, NotifyClose(l)), c)
  {
    hide ClosedLife;
    assert PhaseOf(cfg, s, c) == ClosePending;
    if l == BASE {
      ErasedConn(cfg, s, Next(cfg, s, NotifyClose(l)), c, ClosePending);
    } else {
      var t, closed := Next(cfg, s, NotifyClose(l)), SetPc(s, l, Server.Closed(c));
      TokensFrame(s, closed, c, l, ClosePending, ClosePending);
      TokenQueued(closed, BASE, RemoveTask(c), l, ClosePending, RemovePending);
      assert PhaseOf(cfg, t, c) == RemovePending;
    }
  }

  lemma NotifySame(cfg: Config, s: State, l: LoopId, c: ConnId, d: ConnId)
    requires Enabled(s, NotifyClose(l)) && c == s.loops[l].pc.c && c in s.conns && s.conns[c].loop in s.loops
    requires d in s.conns && d != c && BASE in s.loops && cfg.NameOf(d) != cfg.NameOf(c)
    ensures SameFor(cfg, s, Next(cfg, s, NotifyClose(l)), d)
  {
    var closed := SetPc(s, l, if l == BASE then Removing(c, true) else Server.Closed(c));
    assert SameFor(cfg, s, closed, d);
    hide SameFor;
    if l == BASE {
      EraseSame(cfg, closed, c, d);
    } else {
      QueueSame(cfg, closed, BASE, RemoveTask(c), d);
    }
    SameForTrans(cfg, s, closed, Next(cfg, s, NotifyClose(l)), d);
  }

  lemma NotifyLoop(cfg: Config, s: State, l: LoopId, k: LoopId)
    requires Enabled(s, NotifyClose(l)) && BASE in s.loops && k in s.loops && LoopInv(s, k) && LoopInv(s, l)
    requires s.loops[l].pc.c in s.conns && s.conns[s.loops[l].pc.c].listed
    ensures LoopInv(Next(cfg, s, NotifyClose(l)), k)
  {
    var t := Next(cfg, s, NotifyClose(l));
    assert t.conns == s.conns && forall i :: 0 <= i < |t.loops[k].queue| ==> t.loops[k].queue[i].c in t.conns;
    if k != l {
      LoopFrame(s, t, k);
    }
  }

  lemma ClosingIsListed(cfg: Config, s: State, l: LoopId)
    requires Enabled(s, NotifyClose(l)) && LoopInv(s, l) && ServerInv(cfg, s)
    requires forall c :: c in s.conns ==> ConnInv(cfg, s, c)
    ensures var c := s.loops[l].pc.c; c in s.conns && s.conns[c].listed && s.conns[c].loop in s.loops
    ensures BASE in s.loops
  {
    var c := s.loops[l].pc.c;
    assert ConnInv(cfg, s, c) && PhaseOf(cfg, s, c) == ClosePending;
  }

  lemma NotifyStep(cfg: Config, s: State, l: LoopId)
    requires cfg.Valid() && Inv(cfg, s) && Enabled(s, NotifyClose(l))
    ensures Inv(cfg, Next(cfg, s, NotifyClose(l)))
  {
    hide SameFor, ConnInv, LoopInv, ServerInv, Next;
    ClosingIsListed(cfg, s, l);
    var c := s.loops[l].pc.c;
    NameIsOwn(cfg, s, c);
    ServerStep(cfg, s, NotifyClose(l));
    NotifyConn(cfg, s, l, c);
    forall k | k in s.loops
      ensures LoopInv(Next(cfg, s, NotifyClose(l)), k)
    {
      NotifyLoop(cfg, s, l, k);
    }
    forall d | d in s.conns && d != c
      ensures SameFor(cfg, s, Next(cfg, s, NotifyClose(l)), d)
    {
      NotifySame(cfg, s, l, c, d);
    }
    Assemble(cfg, s, NotifyClose(l), {c});
  }

  // QueueDestroy

  lemma RemovalIsErased(cfg: Config, s: State, l: LoopId)
    requires Enabled(s, QueueDestroy(l)) && LoopInv(s, l) && forall c :: c in s.conns ==> ConnInv(cfg, s, c)
    ensures var c := s.loops[l].pc.c;
            l == BASE && c in s.conns && PhaseOf(cfg, s, c).Erased? && s.conns[c].listed && s.conns[c].loop in s.loops
  {
    assert ConnInv(cfg, s, s.loops[l].pc.c);
  }

  lemma DestroyQueuedConn(cfg: Config, s: State, l: LoopId, c: ConnId)
    requires Enabled(s, QueueDestroy(l)) && c == s.loops[l].pc.c && l == BASE && c in s.conns && ConnInv(cfg, s, c)
    requires PhaseOf(cfg, s, c).Erased?
    ensures ConnInv(cfg, Next(cfg, s, QueueDestroy(l)), c)
  {
    hide ClosedLife;
    var t, k := Next(cfg, s, QueueDestroy(l)), s.conns[c].loop;
    var left := SetPc(s, l, if s.loops[l].pc.nested then Server.Closed(c) else Running);
    TokensFrame(s, left, c, k, Erased, Erased);
    TokenQueued(left, k, DestroyTask(c), k, Erased, DestroyQueued);
    assert PhaseOf(cfg, t, c) == DestroyQueued;
  }

  lemma DestroyQueuedSame(cfg: Config, s: State, l: LoopId, c: ConnId, d: ConnId)
    requires Enabled(s, QueueDestroy(l)) && c == s.loops[l].pc.c && c in s.conns && s.conns[c].loop in s.loops
    requires d in s.conns && d != c
    ensures SameFor(cfg, s, Next(cfg, s, QueueDestroy(l)), d)
  {
    var left := SetPc(s, l, if s.loops[l].pc.nested then Server.Closed(c) else Running);
    assert SameFor(cfg, s, left, d);
    hide SameFor;
    QueueSame(cfg, left, s.conns[c].loop, DestroyTask(c), d);
    SameForTrans(cfg, s, left, Next(cfg, s, QueueDestroy(l)), d);
  }

  lemma DestroyQueuedLoop(cfg: Config, s: State, l: LoopId, k: LoopId)
    requires Enabled(s, QueueDestroy(l)) && k in s.loops && LoopInv(s, k) && LoopInv(s, l)
    ensures LoopInv(Next(cfg, s, QueueDestroy(l)), k)
  {
    var t := Next(cfg, s, QueueDestroy(l));
    assert t.conns == s.conns && forall i :: 0 <= i < |t.loops[k].queue| ==> t.loops[k].queue[i].c in t.conns;
    if k != l {
      LoopFrame(s, t, k);
    }
  }

  lemma QueueDestroyStep(cfg: Config, s: State, l: LoopId)
    requires Inv(cfg, s) && Enabled(s, QueueDestroy(l))
    ensures Inv(cfg, Next(cfg, s, QueueDestroy(l)))
  {
    hide SameFor, ConnInv, LoopInv, ServerInv, Next, PhaseOf;
    RemovalIsErased(cfg, s, l);
    var c := s.loops[l].pc.c;
    ServerStep(cfg, s, QueueDestroy(l));
    DestroyQueuedConn(cfg, s, l, c);
    forall k | k in s.loops
      ensures LoopInv(Next(cfg, s, QueueDestroy(l)), k)
    {
      DestroyQueuedLoop(cfg, s, l, k);
    }
    forall d | d in s.conns && d != c
      ensures SameFor(cfg, s, Next(cfg, s, QueueDestroy(l)), d)
    {
      DestroyQueuedSame(cfg, s, l, c, d);
    }
    Assemble(cfg, s, QueueDestroy(l), {c});
  }

  // RunTask

  /** A functor outside the life cycle changes nothing a connection's invariant speaks of. */
  lemma FunctorSame(cfg: Config, s: State, l: LoopId, d: ConnId)
    requires Enabled(s, RunTask(l)) && s.loops[l].batch[0].FunctorTask? && d in s.conns
    ensures SameFor(cfg, s, Next(cfg, s, RunTask(l)), d)
  {
    CountPop(s, l);
    hide Count;
  }

  lemma RunFunctorStep(cfg: Config, s: State, l: LoopId)
    requires Inv(cfg, s) && Enabled(s, RunTask(l)) && s.loops[l].batch[0].FunctorTask?
    ensures Inv(cfg, Next(cfg, s, RunTask(l)))
  {
    hide SameFor, ConnInv, LoopInv, ServerInv, Next;
    HeadIsKnown(cfg, s, l);
    ServerStep(cfg, s, RunTask(l));
    forall k | k in s.loops
      ensures LoopInv(Next(cfg, s, RunTask(l)), k)
    {
      RunTaskLoop(cfg, s, l, k);
    }
    forall d | d in s.conns
      ensures SameFor(cfg, s, Next(cfg, s, RunTask(l)), d)
    {
      FunctorSame(cfg, s, l, d);
    }
    Assemble(cfg, s, RunTask(l), {});
  }

  lemma PushSame(cfg: Config, s: State, c: ConnId, owns: bool, d: ConnId)
    requires Enabled(s, PushFunctor(c, owns)) && d in s.conns
    ensures SameFor(cfg, s, Next(cfg, s, PushFunctor(c, owns)), d)
  {
    CountQueue(s, s.conns[c].loop, FunctorTask(c, owns, BeforeDestruction(s, c)));
    hide Count;
  }

  lemma PushLoop(cfg: Config, s: State, c: ConnId, owns: bool, k: LoopId)
    requires Enabled(s, PushFunctor(c, owns)) && k in s.loops && LoopInv(s, k)
    ensures LoopInv(Next(cfg, s, PushFunctor(c, owns)), k)
  {
    var t := Next(cfg, s, PushFunctor(c, owns));
    assert t.conns == s.conns && forall i :: 0 <= i < |t.loops[k].queue| ==> t.loops[k].queue[i].c in t.conns;
    LoopFrame(s, t, k);
  }

  lemma PushStep(cfg: Config, s: State, c: ConnId, owns: bool)
    requires Inv(cfg, s) && Enabled(s, PushFunctor(c, owns))
    ensures Inv(cfg, Next(cfg, s, PushFunctor(c, owns)))
  {
    hide SameFor, ConnInv, LoopInv, ServerInv, Next;
    ServerStep(cfg, s, PushFunctor(c, owns));
    forall k | k in s.loops
      ensures LoopInv(Next(cfg, s, PushFunctor(c, owns)), k)
    {
      PushLoop(cfg, s, c, owns, k);
    }
    forall d | d in s.conns
      ensures SameFor(cfg, s, Next(cfg, s, PushFunctor(c, owns)), d)
    {
      PushSame(cfg, s, c, owns, d);
    }
    Assemble(cfg, s, PushFunctor(c, owns), {});
  }

  lemma RunTaskConn(cfg: Config, s: State, l: LoopId, c: ConnId)
    requires Enabled(s, RunTask(l)) && LoopInv(s, l) && c == s.loops[l].batch[0].c && !s.loops[l].batch[0].FunctorTask?
    requires c in s.conns && ConnInv(cfg, s, c)
    ensures ConnInv(cfg, Next(cfg, s, RunTask(l)), c)
    ensures s.loops[l].batch[0].EstablishTask? ==> s.conns[c].state.Connecting?
    ensures s.loops[l].batch[0].DestroyTask? ==> s.conns[c].loop == l && s.conns[c].state.Disconnected?
    ensures s.loops[l].batch[0].RemoveTask? ==> l == BASE && s.conns[c].state.Disconnected? && s.conns[c].listed
    ensures !InRemoval(s, c)
  {
    var t, u, rec := Next(cfg, s, RunTask(l)), s.loops[l].batch[0], s.conns[c];
    var popped := Popped(s, l);
    var p := PhaseOf(cfg, s, c);
    TokenPopped(s, l, rec.loop, p, Gone);
    hide Tokens;
    match u
    case EstablishTask(_) =>
      assert PhaseOf(cfg, t, c) == Open;
      TokensFrame(popped, t, c, rec.loop, Gone, Open);
    case RemoveTask(_) =>
      ErasedConn(cfg, popped, t, c, Gone);
    case DestroyTask(_) =>
      assert PhaseOf(cfg, t, c) == Gone;
      assert t.conns[c].life[..|t.conns[c].life| - 1] == rec.life;
      TokensFrame(popped, t, c, rec.loop, Gone, Gone);
  }

  lemma PopSame(cfg: Config, s: State, l: LoopId, d: ConnId)
    requires l in s.loops && s.loops[l].batch != [] && d in s.conns && s.loops[l].batch[0].c != d
    requires s.loops[l].pc.Running?
    ensures SameFor(cfg, s, Popped(s, l), d)
  {
    CountPop(s, l);
    hide Count;
  }

  lemma UpdateSame(cfg: Config, s: State, c: ConnId, rec: ConnRec, d: ConnId)
    requires d in s.conns && c != d
    ensures SameFor(cfg, s, Update(s, c, rec), d)
  {
  }

  lemma RunTaskSame(cfg: Config, s: State, l: LoopId, c: ConnId, d: ConnId)
    requires Enabled(s, RunTask(l)) && c == s.loops[l].batch[0].c && c in s.conns && s.conns[c].loop in s.loops
    requires !s.loops[l].batch[0].FunctorTask?
    requires d in s.conns && d != c && cfg.NameOf(d) != cfg.NameOf(c)
    ensures SameFor(cfg, s, Next(cfg, s, RunTask(l)), d)
  {
    hide SameFor;
    var popped := Popped(s, l);
    PopSame(cfg, s, l, d);
    match s.loops[l].batch[0] {
      case EstablishTask(_) => UpdateSame(cfg, popped, c, Established(s.conns[c]), d);
      case RemoveTask(_) => EraseSame(cfg, popped, c, d);
      case DestroyTask(_) => UpdateSame(cfg, popped, c, DestroyedRec(s.conns[c]), d);
      case FunctorTask(_, _, _) =>
    }
    SameForTrans(cfg, s, popped, Next(cfg, s, RunTask(l)), d);
  }

  lemma RunTaskLoop(cfg: Config, s: State, l: LoopId, k: LoopId)
    requires Enabled(s, RunTask(l)) && k in s.loops && LoopInv(s, k) && LoopInv(s, l)
    requires var u := s.loops[l].batch[0];
             && u.c in s.conns
             && (u.EstablishTask? ==> s.conns[u.c].state.Connecting?)
             && (u.DestroyTask? ==> s.conns[u.c].loop == l && s.conns[u.c].state.Disconnected?)
             && (u.RemoveTask? ==> l == BASE && s.conns[u.c].state.Disconnected? && s.conns[u.c].listed)
             && (!u.FunctorTask? ==> !InRemoval(s, u.c))
    ensures LoopInv(Next(cfg, s, RunTask(l)), k)
  {
    var t := Next(cfg, s, RunTask(l));
    assert forall c :: OpenOn(s, k, c) ==> OpenOn(t, k, c);
    assert forall i :: 0 <= i < |t.loops[k].batch| ==> t.loops[k].batch[i].c in t.conns;
    assert forall i :: 0 <= i < |t.loops[k].queue| ==> t.loops[k].queue[i].c in t.conns;
    if k != l || !s.loops[l].batch[0].RemoveTask? {
      LoopFrame(s, t, k);
    }
  }

  lemma HeadIsKnown(cfg: Config, s: State, l: LoopId)
    requires Enabled(s, RunTask(l)) && LoopInv(s, l) && forall c :: c in s.conns ==> ConnInv(cfg, s, c)
    ensures s.loops[l].batch[0].c in s.conns && s.conns[s.loops[l].batch[0].c].loop in s.loops
  {
    assert s.loops[l].batch[0].c in s.conns;
    assert ConnInv(cfg, s, s.loops[l].batch[0].c);
  }

  lemma RunTaskStep(cfg: Config, s: State, l: LoopId)
    requires cfg.Valid() && Inv(cfg, s) && Enabled(s, RunTask(l))
    ensures Inv(cfg, Next(cfg, s, RunTask(l)))
  {
    hide SameFor, ConnInv, LoopInv, ServerInv, Next;
    if s.loops[l].batch[0].FunctorTask? {
      RunFunctorStep(cfg, s, l);
      return;
    }
    HeadIsKnown(cfg, s, l);
    var c := s.loops[l].batch[0].c;
    NameIsOwn(cfg, s, c);
    ServerStep(cfg, s, RunTask(l));
    RunTaskConn(cfg, s, l, c);
    forall k | k in s.loops
      ensures LoopInv(Next(cfg, s, RunTask(l)), k)
    {
      RunTaskLoop(cfg, s, l, k);
    }
    forall d | d in s.conns && d != c
      ensures SameFor(cfg, s, Next(cfg, s, RunTask(l)), d)
    {
      RunTaskSame(cfg, s, l, c, d);
    }
    Assemble(cfg, s, RunTask(l), {c});
  }

  // Accept

  /** The loop chosen is the one whose turn it is, and the turn moves on. */
  lemma AcceptTurn(cfg: Config, s: State)
    requires cfg.Valid() && ServerInv(cfg, s) && Enabled(s, Accept)
    ensures var t := Next(cfg, s, Accept);
            && s.nextId in t.conns && t.conns[s.nextId].loop == cfg.Turn(s.nextId - 1)
            && cfg.Turn(s.nextId - 1) in s.loops
            && t.next == (if cfg.ioLoops == [] then 0 else s.nextId % |cfg.ioLoops|)
  {
    if cfg.ioLoops != [] {
      TurnMoves(|cfg.ioLoops|, s.nextId);
      assert cfg.ioLoops[s.next] in cfg.AllLoops();
    }
  }

  /** What an accept changes besides. */
  lemma AcceptFrame(cfg: Config, s: State)
    requires Enabled(s, Accept)
    ensures var t := Next(cfg, s, Accept);
            && t.loops.Keys == s.loops.Keys && t.nextId == s.nextId + 1
            && t.conns.Keys == s.conns.Keys + {s.nextId}
            && (forall c :: c in s.conns && c != s.nextId ==> t.conns[c] == s.conns[c])
            && t.connections == s.connections[cfg.NameOf(s.nextId) := s.nextId]
  {
  }

  /** One more connection, on the loop whose turn it is, under its own name. */
  lemma ServerGrows(cfg: Config, s: State, t: State)
    requires ServerInv(cfg, s) && s.nextId <= INT_MAX && t.nextId == s.nextId + 1
    requires t.loops.Keys == s.loops.Keys && t.conns.Keys == s.conns.Keys + {s.nextId}
    requires forall c :: c in s.conns && c != s.nextId ==> t.conns[c] == s.conns[c]
    requires t.conns[s.nextId].loop == cfg.Turn(s.nextId - 1)
    requires t.next == if cfg.ioLoops == [] then 0 else s.nextId % |cfg.ioLoops|
    requires t.connections == s.connections[cfg.NameOf(s.nextId) := s.nextId]
    ensures ServerInv(cfg, t)
  {
    hide Config.NameOf, Config.Turn;
  }

  lemma AcceptServer(cfg: Config, s: State)
    requires cfg.Valid() && ServerInv(cfg, s) && Enabled(s, Accept)
    ensures ServerInv(cfg, Next(cfg, s, Accept))
    ensures Next(cfg, s, Accept).conns.Keys == s.conns.Keys + {s.nextId} && s.nextId !in s.conns
    ensures Next(cfg, s, Accept).conns[s.nextId].loop in s.loops && Next(cfg, s, Accept).loops.Keys == s.loops.Keys
  {
    AcceptTurn(cfg, s);
    AcceptFrame(cfg, s);
    assert s.nextId <= INT_MAX && s.nextId !in s.conns;
    hide Next, Enabled, ServerInv;
    ServerGrows(cfg, s, Next(cfg, s, Accept));
  }

  lemma AcceptSame(cfg: Config, s: State, d: ConnId)
    requires Enabled(s, Accept) && d in s.conns && d != s.nextId && cfg.NameOf(d) != cfg.NameOf(s.nextId)
    requires Next(cfg, s, Accept).conns[s.nextId].loop in s.loops
    ensures SameFor(cfg, s, Next(cfg, s, Accept), d)
  {
    var t, c := Next(cfg, s, Accept), s.nextId;
    var named := s.(connections := t.connections, nextId := t.nextId, next := t.next);
    NamedSame(cfg, s, named, d);
    var rec := t.conns[c];
    var updated := Update(named, c, rec);
    UpdateSame(cfg, named, c, rec, d);
    hide SameFor;
    SameForTrans(cfg, s, named, updated, d);
    if rec.loop != BASE {
      QueueSame(cfg, updated, rec.loop, EstablishTask(c), d);
      SameForTrans(cfg, s, updated, t, d);
    }
  }

  lemma NamedSame(cfg: Config, s: State, t: State, d: ConnId)
    requires d in s.conns && t == s.(connections := t.connections, nextId := t.nextId, next := t.next)
    requires t.connections == s.connections[cfg.NameOf(s.nextId) := s.nextId]
    requires cfg.NameOf(d) != cfg.NameOf(s.nextId)
    ensures SameFor(cfg, s, t, d)
  {
  }

  lemma AcceptLoops(cfg: Config, s: State, l: LoopId)
    requires Enabled(s, Accept) && l in s.loops && LoopInv(s, l) && s.nextId !in s.conns
    ensures l in Next(cfg, s, Accept).loops && LoopInv(Next(cfg, s, Accept), l)
  {
    var t := Next(cfg, s, Accept);
    AcceptFrame(cfg, s);
    assert t.loops[l] == s.loops[l] || t.loops[l] == s.loops[l].(queue := s.loops[l].queue + [EstablishTask(s.nextId)]);
    hide Next;
  }

  lemma NoTasksYet(s: State, c: ConnId, l: LoopId)
    requires c !in s.conns && forall k :: k in s.loops ==> LoopInv(s, k)
    ensures Tokens(s, c, l, Open)
  {
    forall k: LoopId, u: Task | OfLife(u, c)
      ensures Count(s, k, u) == 0
    {
      if k in s.loops {
        assert LoopInv(s, k);
        assert u !in s.loops[k].batch && u !in s.loops[k].queue;
      }
    }
  }

  lemma AcceptConn(cfg: Config, s: State)
    requires Enabled(s, Accept) && s.nextId !in s.conns
    requires Next(cfg, s, Accept).conns[s.nextId].loop in s.loops
    requires Tokens(s, s.nextId, Next(cfg, s, Accept).conns[s.nextId].loop, Open)
    requires !InRemoval(s, s.nextId) && forall k :: k in s.loops ==> s.loops[k].pc != Closing(s.nextId)
    ensures ConnInv(cfg, Next(cfg, s, Accept), s.nextId)
  {
    var t, c := Next(cfg, s, Accept), s.nextId;
    var l := t.conns[c].loop;
    if l == BASE {
      assert PhaseOf(cfg, t, c) == Open;
      TokensFrame(s, t, c, l, Open, Open);
    } else {
      var m := t.(loops := s.loops);
      TokensFrame(s, m, c, l, Open, Open);
      TokenQueued(m, l, EstablishTask(c), l, Open, EstablishQueued);
      assert PhaseOf(cfg, t, c) == EstablishQueued;
    }
  }

  lemma NotClosingYet(s: State, c: ConnId)
    requires c !in s.conns && forall k :: k in s.loops ==> LoopInv(s, k)
    ensures !InRemoval(s, c) && forall k :: k in s.loops ==> s.loops[k].pc != Closing(c)
  {
    forall k | k in s.loops
      ensures s.loops[k].pc != Closing(c) && s.loops[k].pc != Removing(c, true) && s.loops[k].pc != Removing(c, false)
    {
      assert LoopInv(s, k);
    }
  }

  lemma AcceptedIsNew(cfg: Config, s: State)
    requires cfg.Valid() && ServerInv(cfg, s) && Enabled(s, Accept)
    ensures forall d :: d in s.conns ==> d != s.nextId && cfg.NameOf(d) != cfg.NameOf(s.nextId)
  {
    forall d | d in s.conns
      ensures d != s.nextId && cfg.NameOf(d) != cfg.NameOf(s.nextId)
    {
      NamesDistinct(cfg.name, cfg.ipPort, s.nextId, d);
    }
  }

  lemma AcceptStep(cfg: Config, s: State)
    requires cfg.Valid() && Inv(cfg, s) && Enabled(s, Accept)
    ensures Inv(cfg, Next(cfg, s, Accept))
  {
    hide ConnInv, SameFor, LoopInv, ServerInv, Next, Tokens;
    var t, c := Next(cfg, s, Accept), s.nextId;
    AcceptServer(cfg, s);
    AcceptedIsNew(cfg, s);
    NoTasksYet(s, c, t.conns[c].loop);
    NotClosingYet(s, c);
    AcceptConn(cfg, s);
    forall l | l in s.loops
      ensures l in t.loops && LoopInv(t, l)
    {
      AcceptLoops(cfg, s, l);
    }
    forall d | d in s.conns
      ensures SameFor(cfg, s, t, d)
    {
      AcceptSame(cfg, s, d);
    }
    ConnsFrame(cfg, s, t, {});
  }

  // ---------------------------------------------------------------- every reachable state

  lemma InvStep(cfg: Config, s: State, a: Action)
    requires cfg.Valid() && Inv(cfg, s) && Enabled(s, a)
    ensures Inv(cfg, Next(cfg, s, a))
  {
    hide Inv, Next;
    match a
    case Accept => AcceptStep(cfg, s);
    case Shutdown(c) => ShutdownStep(cfg, s, c);
    case Dispatch(l) => DispatchStep(cfg, s, l);
    case Close(l) => CloseStep(cfg, s, l);
    case NotifyClose(l) => NotifyStep(cfg, s, l);
    case QueueDestroy(l) => QueueDestroyStep(cfg, s, l);
    case RunTask(l) => RunTaskStep(cfg, s, l);
    case PushFunctor(c, owns) => PushStep(cfg, s, c, owns);
    case _ => LoopOnlyStep(cfg, s, a);
  }

  lemma InitialInv(cfg: Config)
    ensures Inv(cfg, Initial(cfg))
  {
    assert Initial(cfg).loops.Keys == cfg.AllLoops();
  }

  lemma {:induction false} InvHolds(cfg: Config, r: Run, i: nat)
    requires cfg.Valid() && IsRun(cfg, r) && i < |r.states|
    ensures Inv(cfg, r.states[i])
  {
    hide Inv, Next, Enabled, Initial;
    if i == 0 {
      InitialInv(cfg);
    } else {
      InvHolds(cfg, r, i - 1);
      InvStep(cfg, r.states[i - 1], r.acts[i - 1]);
    }
  }
}
