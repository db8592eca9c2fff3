/** What every run of it keeps, late sets, late sends and second closes included. */
module LateInvariant {
  import opened Common
  import opened RoundRobin
  import opened Server
  import opened ServerInvariant
  import opened LateShutdown

  predicate UpFirst(life: seq<Life>) {
    life != [] ==> life[0].CameUp? && forall i :: 1 <= i < |life| ==> !life[i].CameUp?
  }

  predicate DownIn(s: State, c: ConnId) {
    c in s.conns && WentDown in s.conns[c].life
  }

  /** A connection's state fits its life. */
  predicate StateFits(rec: ConnRec) {
    && (rec.state.Connecting? <==> rec.life == [])
    && (rec.state.Connected? ==> WentDown !in rec.life)
    && (rec.state.Disconnected? ==> WentDown in rec.life)
    && (rec.watched ==> rec.state.Connected? || rec.state.Disconnecting?)
    && UpFirst(rec.life)
    && (Destroyed in rec.life ==> WentDown in rec.life)
  }

  /** What is queued for a connection: its establishment once and only at first, removals and destructions
      only of one gone down. */
  ghost predicate QueuesFit(s: State, c: ConnId)
    requires c in s.conns
  {
    var rec := s.conns[c];
    && (forall l :: Count(s, l, EstablishTask(c)) == if rec.state.Connecting? && l == rec.loop then 1 else 0)
    && (forall l :: Count(s, l, RemoveTask(c)) > 0 ==> l == BASE && WentDown in rec.life)
    && (forall l :: Count(s, l, DestroyTask(c)) > 0 ==> l == rec.loop && WentDown in rec.life)
  }

  /** Until its destruction runs a connection is in the map, in its removal, or waits for its destruction. */
  predicate Reached(cfg: Config, s: State, c: ConnId)
    requires c in s.conns
  {
    var rec := s.conns[c];
    cfg.NameOf(c) !in s.connections ==>
      && WentDown in rec.life
      && (Destroyed in rec.life || InRemoval(s, c) || Count(s, rec.loop, DestroyTask(c)) > 0)
  }

  ghost predicate RoughConn(cfg: Config, s: State, c: ConnId)
    requires c in s.conns
  {
    s.conns[c].loop in s.loops && StateFits(s.conns[c]) && QueuesFit(s, c) && Reached(cfg, s, c)
  }

  predicate RoughLoop(s: State, l: LoopId)
    requires l in s.loops
  {
    var lr := s.loops[l];
    && (match lr.pc
        case Dispatching(c) => OpenOn(s, l, c) && c !in lr.active
        case Closing(c) => DownIn(s, c) && s.conns[c].loop == l
        case Closed(c) => DownIn(s, c) && s.conns[c].loop == l
        case Removing(c, nested) =>
          l == BASE && DownIn(s, c) && if nested then s.conns[c].loop == l else lr.active == []
        case Polling => lr.active == []
        case Running => lr.active == []
        case Handling => true)
    && (forall i :: 0 <= i < |lr.active| ==> OpenOn(s, l, lr.active[i]))
    && (forall i, j :: 0 <= i < j < |lr.active| ==> lr.active[i] != lr.active[j])
    && (lr.batch != [] ==> lr.pc.Running? || (lr.pc.Removing? && !lr.pc.nested))
    && (forall i :: 0 <= i < |lr.batch| ==> lr.batch[i].c in s.conns)
    && (forall i :: 0 <= i < |lr.queue| ==> lr.queue[i].c in s.conns)
  }

  ghost predicate RoughInv(cfg: Config, s: State) {
    && ServerInv(cfg, s)
    && (forall l :: l in s.loops ==> RoughLoop(s, l))
    && (forall c :: c in s.conns ==> RoughConn(cfg, s, c))
  }

  // ---------------------------------------------------------------- frames

  lemma RoughConnFrame(cfg: Config, s: State, t: State, c: ConnId)
    requires c in s.conns && c in t.conns && RoughConn(cfg, s, c) && SameFor(cfg, s, t, c)
    ensures RoughConn(cfg, t, c)
  {
    assert forall l, u: Task :: OfLife(u, c) ==> Count(t, l, u) == Count(s, l, u);
    assert OfLife(EstablishTask(c), c) && OfLife(RemoveTask(c), c) && OfLife(DestroyTask(c), c);
    hide Count, StateFits, InRemoval, InClose;
  }

  /** A loop whose thread stays where it is, while connections stay open or down. */
  lemma RoughLoopFrame(s: State, t: State, l: LoopId)
    requires l in s.loops && l in t.loops && RoughLoop(s, l)
    requires t.loops[l].pc == s.loops[l].pc && t.loops[l].active == s.loops[l].active
    requires |t.loops[l].batch| <= |s.loops[l].batch|
    requires forall i :: 0 <= i < |t.loops[l].batch| ==> t.loops[l].batch[i].c in t.conns
    requires forall i :: 0 <= i < |t.loops[l].queue| ==> t.loops[l].queue[i].c in t.conns
    requires forall c :: OpenOn(s, l, c) ==> OpenOn(t, l, c)
    requires forall c :: DownIn(s, c) ==> DownIn(t, c) && t.conns[c].loop == s.conns[c].loop
    ensures RoughLoop(t, l)
  {
  }

  lemma RoughAssemble(cfg: Config, s: State, t: State, changed: set<ConnId>)
    requires ServerInv(cfg, t) && t.loops.Keys == s.loops.Keys && s.conns.Keys <= t.conns.Keys <= s.conns.Keys + changed
    requires forall c :: c in s.conns && c !in changed ==> RoughConn(cfg, s, c) && SameFor(cfg, s, t, c)
    requires forall c :: c in changed ==> c in t.conns && RoughConn(cfg, t, c)
    requires forall l :: l in s.loops ==> RoughLoop(t, l)
    ensures RoughInv(cfg, t)
  {
    hide ServerInv, RoughConn, RoughLoop, SameFor;
    forall c | c in t.conns
      ensures RoughConn(cfg, t, c)
    {
      if c !in changed {
        RoughConnFrame(cfg, s, t, c);
      }
    }
  }

  lemma RoughParts(cfg: Config, s: State, l: LoopId, c: ConnId)
    requires RoughInv(cfg, s)
    ensures l in s.loops ==> RoughLoop(s, l)
    ensures c in s.conns ==> RoughConn(cfg, s, c)
  {
  }

  // ---------------------------------------------------------------- steps of one record

  /** One record changes and nothing else; no task is gained or lost. */
  lemma RecordStep(cfg: Config, s: State, c: ConnId, rec: ConnRec)
    requires RoughInv(cfg, s) && c in s.conns && StateFits(rec) && rec.loop == s.conns[c].loop
    requires rec.state.Connecting? == s.conns[c].state.Connecting?
    requires WentDown in s.conns[c].life ==> WentDown in rec.life
    requires Destroyed in s.conns[c].life ==> Destroyed in rec.life
    requires OpenOn(s, rec.loop, c) ==> rec.state.Connected? || rec.state.Disconnecting?
    ensures RoughInv(cfg, Update(s, c, rec))
  {
    var t := Update(s, c, rec);
    hide RoughLoop, RoughConn, StateFits, ServerInv;
    RecordConn(cfg, s, c, rec);
    forall l | l in s.loops
      ensures RoughLoop(t, l)
    {
      RecordLoop(s, c, rec, l);
    }
    forall d | d in s.conns && d != c
      ensures RoughConn(cfg, s, d) && SameFor(cfg, s, t, d)
    {
      UpdateSame(cfg, s, c, rec, d);
    }
    RecordServer(cfg, s, c, rec);
    hide SameFor;
    RoughAssemble(cfg, s, t, {c});
  }

  lemma RecordLoop(s: State, c: ConnId, rec: ConnRec, l: LoopId)
    requires l in s.loops && RoughLoop(s, l) && c in s.conns && rec.loop == s.conns[c].loop
    requires WentDown in s.conns[c].life ==> WentDown in rec.life
    requires OpenOn(s, rec.loop, c) ==> rec.state.Connected? || rec.state.Disconnecting?
    ensures RoughLoop(Update(s, c, rec), l)
  {
    RoughLoopFrame(s, Update(s, c, rec), l);
  }

  lemma RecordConn(cfg: Config, s: State, c: ConnId, rec: ConnRec)
    requires c in s.conns && RoughConn(cfg, s, c) && StateFits(rec) && rec.loop == s.conns[c].loop
    requires rec.state.Connecting? == s.conns[c].state.Connecting?
    requires WentDown in s.conns[c].life ==> WentDown in rec.life
    requires Destroyed in s.conns[c].life ==> Destroyed in rec.life
    ensures RoughConn(cfg, Update(s, c, rec), c)
  {
    var t := Update(s, c, rec);
    assert forall l, u :: Count(t, l, u) == Count(s, l, u);
    hide Count, StateFits;
  }

  lemma RecordServer(cfg: Config, s: State, c: ConnId, rec: ConnRec)
    requires ServerInv(cfg, s) && c in s.conns && rec.loop == s.conns[c].loop
    ensures ServerInv(cfg, Update(s, c, rec))
  {
    hide Config.NameOf, Config.Turn;
  }

  // ---------------------------------------------------------------- the server's steps

  lemma RoughLoopOnlySame(cfg: Config, s: State, a: Action, c: ConnId)
    requires Enabled(s, a) && OfOneLoop(a) && RoughLoop(s, a.l) && c in s.conns
    ensures SameFor(cfg, s, Next(cfg, s, a), c)
  {
  }

  lemma RoughLoopOnlyLoop(cfg: Config, s: State, a: Action, l: LoopId)
    requires Enabled(s, a) && OfOneLoop(a) && l in s.loops && RoughLoop(s, l)
    requires forall c :: c in s.conns && s.conns[c].watched ==> OpenOn(s, s.conns[c].loop, c)
    ensures RoughLoop(Next(cfg, s, a), l)
  {
    var t := Next(cfg, s, a);
    assert t.conns == s.conns;
    if a.l != l {
      RoughLoopFrame(s, t, l);
    } else if a.Poll? {
      assert forall i :: 0 <= i < |a.active| ==> s.conns[a.active[i]].watched;
      assert t.loops[l] == s.loops[l].(pc := Handling, active := a.active);
    }
  }

  lemma RoughWatched(cfg: Config, s: State, c: ConnId)
    requires c in s.conns && RoughConn(cfg, s, c)
    ensures s.conns[c].watched ==> OpenOn(s, s.conns[c].loop, c)
  {
    hide QueuesFit, Reached;
  }

  lemma RoughLoopOnlyStep(cfg: Config, s: State, a: Action)
    requires RoughInv(cfg, s) && Enabled(s, a) && OfOneLoop(a)
    ensures RoughInv(cfg, Next(cfg, s, a))
  {
    hide RoughConn, RoughLoop, SameFor, OpenOn;
    ServerStep(cfg, s, a);
    forall c | c in s.conns
      ensures SameFor(cfg, s, Next(cfg, s, a), c)
      ensures s.conns[c].watched ==> OpenOn(s, s.conns[c].loop, c)
    {
      RoughLoopOnlySame(cfg, s, a, c);
      RoughWatched(cfg, s, c);
    }
    forall l | l in s.loops
      ensures RoughLoop(Next(cfg, s, a), l)
    {
      RoughLoopOnlyLoop(cfg, s, a, l);
    }
    hide Next, Enabled, ServerInv;
    RoughAssemble(cfg, s, Next(cfg, s, a), {});
  }

  // Dispatch

  lemma RoughDispatchConn(cfg: Config, s: State, l: LoopId, c: ConnId)
    requires Enabled(s, Dispatch(l)) && c == s.loops[l].active[0] && OpenOn(s, l, c) && RoughConn(cfg, s, c)
    ensures RoughConn(cfg, Next(cfg, s, Dispatch(l)), c)
  {
    var t := Next(cfg, s, Dispatch(l));
    assert forall k, u :: Count(t, k, u) == Count(s, k, u);
    assert t.conns[c].life == s.conns[c].life + [Event];
    hide Count;
  }

  lemma RoughDispatchLoop(cfg: Config, s: State, l: LoopId, k: LoopId)
    requires Enabled(s, Dispatch(l)) && k in s.loops && RoughLoop(s, k) && RoughLoop(s, l)
    ensures RoughLoop(Next(cfg, s, Dispatch(l)), k)
  {
    if k != l {
      RoughLoopFrame(s, Next(cfg, s, Dispatch(l)), k);
    }
  }

  lemma RoughDispatchStep(cfg: Config, s: State, l: LoopId)
    requires RoughInv(cfg, s) && Enabled(s, Dispatch(l))
    ensures RoughInv(cfg, Next(cfg, s, Dispatch(l)))
  {
    hide RoughConn, SameFor, ServerInv, Next;
    RoughParts(cfg, s, l, s.loops[l].active[0]);
    var c := s.loops[l].active[0];
    assert OpenOn(s, l, c);
    hide RoughLoop, OpenOn;
    ServerStep(cfg, s, Dispatch(l));
    assert c in s.conns by { OpenIsKnown(s, l, c); }
    RoughDispatchConn(cfg, s, l, c);
    forall k | k in s.loops
      ensures RoughLoop(Next(cfg, s, Dispatch(l)), k)
    {
      RoughDispatchLoop(cfg, s, l, k);
    }
    forall d | d in s.conns && d != c
      ensures SameFor(cfg, s, Next(cfg, s, Dispatch(l)), d)
    {
      DispatchSame(cfg, s, l, d);
    }
    RoughAssemble(cfg, s, Next(cfg, s, Dispatch(l)), {c});
  }

  lemma OpenIsKnown(s: State, l: LoopId, c: ConnId)
    requires OpenOn(s, l, c)
    ensures c in s.conns
  {
  }

  // Close

  /** handleClose is entered by a connection that is connected or disconnecting, as its assert demands. */
  lemma CloseFindsItLive(s: State, l: LoopId)
    requires Enabled(s, Close(l)) && RoughLoop(s, l)
    ensures OpenOn(s, l, s.loops[l].pc.c) && s.loops[l].pc.c in s.conns
  {
  }

  lemma RoughCloseConn(cfg: Config, s: State, l: LoopId, c: ConnId)
    requires Enabled(s, Close(l)) && c == s.loops[l].pc.c && OpenOn(s, l, c) && RoughConn(cfg, s, c)
    ensures RoughConn(cfg, Next(cfg, s, Close(l)), c)
  {
    var t := Next(cfg, s, Close(l));
    assert forall k, u :: Count(t, k, u) == Count(s, k, u);
    assert t.conns[c].life == s.conns[c].life + [WentDown];
    hide Count;
  }

  lemma RoughCloseLoop(cfg: Config, s: State, l: LoopId, k: LoopId)
    requires Enabled(s, Close(l)) && k in s.loops && RoughLoop(s, k) && RoughLoop(s, l)
    ensures RoughLoop(Next(cfg, s, Close(l)), k)
  {
    var t := Next(cfg, s, Close(l));
    assert forall i :: 0 <= i < |t.loops[k].active| ==> t.loops[k].active[i] != s.loops[l].pc.c;
    assert t.conns.Keys == s.conns.Keys;
    assert forall c :: DownIn(s, c) ==> DownIn(t, c) && t.conns[c].loop == s.conns[c].loop;
  }

  lemma RoughCloseStep(cfg: Config, s: State, l: LoopId)
    requires RoughInv(cfg, s) && Enabled(s, Close(l))
    ensures RoughInv(cfg, Next(cfg, s, Close(l)))
  {
    hide RoughConn, RoughLoop, SameFor, ServerInv, Next, OpenOn;
    CloseFindsItLive(s, l);
    var c := s.loops[l].pc.c;
    ServerStep(cfg, s, Close(l));
    RoughCloseConn(cfg, s, l, c);
    forall k | k in s.loops
      ensures RoughLoop(Next(cfg, s, Close(l)), k)
    {
      RoughCloseLoop(cfg, s, l, k);
    }
    forall d | d in s.conns && d != c
      ensures SameFor(cfg, s, Next(cfg, s, Close(l)), d)
    {
      CloseSame(cfg, s, l, d);
    }
    RoughAssemble(cfg, s, Next(cfg, s, Close(l)), {c});
  }

  // NotifyClose

  lemma RoughNotifyConn(cfg: Config, s: State, l: LoopId, c: ConnId)
    requires Enabled(s, NotifyClose(l)) && c == s.loops[l].pc.c && BASE in s.loops
    requires c in s.conns && WentDown in s.conns[c].life && RoughConn(cfg, s, c)
    ensures RoughConn(cfg, Next(cfg, s, NotifyClose(l)), c)
  {
    hide StateFits, Count;
    NotifyCounts(cfg, s, l);
  }

  lemma NotifyCounts(cfg: Config, s: State, l: LoopId)
    requires Enabled(s, NotifyClose(l)) && BASE in s.loops
    ensures var t, c := Next(cfg, s, NotifyClose(l)), s.loops[l].pc.c;
            && t.conns == s.conns && t.loops.Keys == s.loops.Keys
            && forall k, u ::
                 Count(t, k, u) == Count(s, k, u) + if l != BASE && k == BASE && u == RemoveTask(c) then 1 else 0
  {
    var t, c := Next(cfg, s, NotifyClose(l)), s.loops[l].pc.c;
    if l == BASE {
      assert forall k, u :: Count(t, k, u) == Count(s, k, u);
    } else {
      CountQueue(SetPc(s, l, Server.Closed(c)), BASE, RemoveTask(c));
      assert forall k, u :: Count(SetPc(s, l, Server.Closed(c)), k, u) == Count(s, k, u);
    }
    hide Count;
  }

  lemma RoughNotifyLoop(cfg: Config, s: State, l: LoopId, k: LoopId)
    requires Enabled(s, NotifyClose(l)) && BASE in s.loops && k in s.loops && RoughLoop(s, k) && RoughLoop(s, l)
    ensures RoughLoop(Next(cfg, s, NotifyClose(l)), k)
  {
    var t := Next(cfg, s, NotifyClose(l));
    assert t.conns == s.conns && forall i :: 0 <= i < |t.loops[k].queue| ==> t.loops[k].queue[i].c in t.conns;
    if k != l {
      RoughLoopFrame(s, t, k);
    }
  }

  /** Past its close a connection is known and has gone down. */
  lemma ClosedIsDown(cfg: Config, s: State, l: LoopId)
    requires RoughInv(cfg, s) && l in s.loops && (s.loops[l].pc.Closing? || s.loops[l].pc.Removing?)
    ensures var c := s.loops[l].pc.c;
            c in s.conns && WentDown in s.conns[c].life && s.conns[c].loop in s.loops && BASE in s.loops
  {
    hide RoughConn;
    RoughParts(cfg, s, l, s.loops[l].pc.c);
    hide RoughLoop, Config.NameOf, Config.Turn;
    assert RoughLoop(s, l);
    LoopsOfKnown(cfg, s, s.loops[l].pc.c);
  }

  lemma LoopsOfKnown(cfg: Config, s: State, c: ConnId)
    requires RoughInv(cfg, s)
    ensures BASE in s.loops && (c in s.conns ==> s.conns[c].loop in s.loops)
  {
    hide RoughLoop, StateFits, QueuesFit, Reached;
    assert c in s.conns ==> RoughConn(cfg, s, c);
  }

  lemma RoughNotifyStep(cfg: Config, s: State, l: LoopId)
    requires cfg.Valid() && RoughInv(cfg, s) && Enabled(s, NotifyClose(l))
    ensures RoughInv(cfg, Next(cfg, s, NotifyClose(l)))
  {
    hide RoughConn, RoughLoop, SameFor, Next, ServerInv;
    var c := s.loops[l].pc.c;
    ClosedIsDown(cfg, s, l);
    NameIsOwn(cfg, s, c);
    ServerStep(cfg, s, NotifyClose(l));
    RoughNotifyConn(cfg, s, l, c);
    forall k | k in s.loops
      ensures RoughLoop(Next(cfg, s, NotifyClose(l)), k)
    {
      RoughNotifyLoop(cfg, s, l, k);
    }
    forall d | d in s.conns && d != c
      ensures SameFor(cfg, s, Next(cfg, s, NotifyClose(l)), d)
    {
      NotifySame(cfg, s, l, c, d);
    }
    RoughAssemble(cfg, s, Next(cfg, s, NotifyClose(l)), {c});
  }

  // QueueDestroy

  lemma RoughDestroyQueuedConn(cfg: Config, s: State, l: LoopId, c: ConnId)
    requires Enabled(s, QueueDestroy(l)) && c == s.loops[l].pc.c && c in s.conns && WentDown in s.conns[c].life
    requires RoughConn(cfg, s, c)
    ensures RoughConn(cfg, Next(cfg, s, QueueDestroy(l)), c)
  {
    hide StateFits, Next, Enabled, Count;
    DestroyQueuedCounts(cfg, s, l);
  }

  lemma DestroyQueuedCounts(cfg: Config, s: State, l: LoopId)
    requires Enabled(s, QueueDestroy(l)) && s.loops[l].pc.c in s.conns && s.conns[s.loops[l].pc.c].loop in s.loops
    ensures var t, c := Next(cfg, s, QueueDestroy(l)), s.loops[l].pc.c;
            && t.conns == s.conns && t.connections == s.connections && t.loops.Keys == s.loops.Keys
            && forall k, u ::
                 Count(t, k, u) == Count(s, k, u) + if k == s.conns[c].loop && u == DestroyTask(c) then 1 else 0
  {
    var c := s.loops[l].pc.c;
    var left := SetPc(s, l, if s.loops[l].pc.nested then Server.Closed(c) else Running);
    CountQueue(left, s.conns[c].loop, DestroyTask(c));
    assert forall k, u :: Count(left, k, u) == Count(s, k, u);
    hide Count;
  }

  lemma RoughDestroyQueuedLoop(cfg: Config, s: State, l: LoopId, k: LoopId)
    requires Enabled(s, QueueDestroy(l)) && k in s.loops && RoughLoop(s, k) && RoughLoop(s, l)
    ensures RoughLoop(Next(cfg, s, QueueDestroy(l)), k)
  {
    var t := Next(cfg, s, QueueDestroy(l));
    assert t.conns == s.conns && forall i :: 0 <= i < |t.loops[k].queue| ==> t.loops[k].queue[i].c in t.conns;
    if k != l {
      RoughLoopFrame(s, t, k);
    }
  }

  lemma RoughQueueDestroyStep(cfg: Config, s: State, l: LoopId)
    requires RoughInv(cfg, s) && Enabled(s, QueueDestroy(l))
    ensures RoughInv(cfg, Next(cfg, s, QueueDestroy(l)))
  {
    hide RoughConn, RoughLoop, SameFor, Next, ServerInv;
    var c := s.loops[l].pc.c;
    ClosedIsDown(cfg, s, l);
    ServerStep(cfg, s, QueueDestroy(l));
    assert l == BASE by { RemovalIsOnBase(s, l); }
    RoughDestroyQueuedConn(cfg, s, l, c);
    forall k | k in s.loops
      ensures RoughLoop(Next(cfg, s, QueueDestroy(l)), k)
    {
      RoughDestroyQueuedLoop(cfg, s, l, k);
    }
    forall d | d in s.conns && d != c
      ensures SameFor(cfg, s, Next(cfg, s, QueueDestroy(l)), d)
    {
      DestroyQueuedSame(cfg, s, l, c, d);
    }
    RoughAssemble(cfg, s, Next(cfg, s, QueueDestroy(l)), {c});
  }

  lemma RemovalIsOnBase(s: State, l: LoopId)
    requires l in s.loops && RoughLoop(s, l) && s.loops[l].pc.Removing?
    ensures l == BASE
  {
  }

  // RunTask

  /** What a functor of the life cycle finds when it begins. */
  lemma HeadFinds(cfg: Config, s: State, l: LoopId)
    requires RoughInv(cfg, s) && Enabled(s, RunTask(l))
    ensures var u := s.loops[l].batch[0];
            && u.c in s.conns && s.conns[u.c].loop in s.loops
            && (u.EstablishTask? ==> s.conns[u.c].state.Connecting?)
            && (u.RemoveTask? ==> l == BASE && WentDown in s.conns[u.c].life)
            && (u.DestroyTask? ==> s.conns[u.c].loop == l && WentDown in s.conns[u.c].life)
  {
    hide RoughConn, ServerInv, Next;
    var u := s.loops[l].batch[0];
    RoughParts(cfg, s, l, u.c);
    assert u.c in s.conns;
    hide RoughLoop;
    LoopsOfKnown(cfg, s, u.c);
    HeadIsOf(cfg, s, l, u.c);
  }

  lemma HeadIsOf(cfg: Config, s: State, l: LoopId, c: ConnId)
    requires l in s.loops && s.loops[l].batch != [] && c in s.conns && RoughConn(cfg, s, c)
    ensures var u := s.loops[l].batch[0];
            && (u == EstablishTask(c) ==> s.conns[c].state.Connecting? && s.conns[c].loop == l)
            && (u == RemoveTask(c) ==> l == BASE && WentDown in s.conns[c].life)
            && (u == DestroyTask(c) ==> s.conns[c].loop == l && WentDown in s.conns[c].life)
  {
    assert Count(s, l, s.loops[l].batch[0]) > 0;
    hide Count, StateFits, Reached;
  }

  lemma RoughRunTaskConn(cfg: Config, s: State, l: LoopId, c: ConnId)
    requires Enabled(s, RunTask(l)) && c == s.loops[l].batch[0].c && !s.loops[l].batch[0].FunctorTask?
    requires c in s.conns && RoughConn(cfg, s, c)
    ensures RoughConn(cfg, Next(cfg, s, RunTask(l)), c)
  {
    hide Count;
    HeadIsOf(cfg, s, l, c);
    RunTaskCounts(cfg, s, l);
    var t, u := Next(cfg, s, RunTask(l)), s.loops[l].batch[0];
    match u {
      case EstablishTask(_) => assert t.conns[c].life == s.conns[c].life + [CameUp];
      case RemoveTask(_) => assert InRemoval(t, c);
      case DestroyTask(_) => assert t.conns[c].life == s.conns[c].life + [Destroyed];
    }
  }

  lemma RunTaskCounts(cfg: Config, s: State, l: LoopId)
    requires Enabled(s, RunTask(l))
    ensures var t, v := Next(cfg, s, RunTask(l)), s.loops[l].batch[0];
            && t.loops.Keys == s.loops.Keys
            && forall k, u :: Count(t, k, u) == Count(s, k, u) - if k == l && u == v then 1 else 0
  {
    var t := Next(cfg, s, RunTask(l));
    CountPop(s, l);
    assert t.loops == Popped(s, l).loops;
    assert forall k, u :: Count(t, k, u) == Count(Popped(s, l), k, u);
    hide Count;
  }

  lemma RoughRunTaskLoop(cfg: Config, s: State, l: LoopId, k: LoopId)
    requires Enabled(s, RunTask(l)) && k in s.loops && RoughLoop(s, k) && RoughLoop(s, l)
    requires var u := s.loops[l].batch[0];
             && u.c in s.conns && StateFits(s.conns[u.c])
             && (u.RemoveTask? ==> l == BASE && WentDown in s.conns[u.c].life)
             && (u.EstablishTask? ==> s.conns[u.c].state.Connecting?)
             && (u.DestroyTask? ==> WentDown in s.conns[u.c].life)
    ensures RoughLoop(Next(cfg, s, RunTask(l)), k)
  {
    var t := Next(cfg, s, RunTask(l));
    assert forall c :: OpenOn(s, k, c) ==> OpenOn(t, k, c);
    assert forall c :: DownIn(s, c) ==> DownIn(t, c) && t.conns[c].loop == s.conns[c].loop;
    assert forall i :: 0 <= i < |t.loops[k].batch| ==> t.loops[k].batch[i].c in t.conns;
    assert forall i :: 0 <= i < |t.loops[k].queue| ==> t.loops[k].queue[i].c in t.conns;
    if k != l || !s.loops[l].batch[0].RemoveTask? {
      RoughLoopFrame(s, t, k);
    }
  }

  lemma StateOf(cfg: Config, s: State, c: ConnId)
    requires c in s.conns && RoughConn(cfg, s, c)
    ensures StateFits(s.conns[c])
  {
  }

  lemma RoughRunTaskStep(cfg: Config, s: State, l: LoopId)
    requires cfg.Valid() && RoughInv(cfg, s) && Enabled(s, RunTask(l))
    ensures RoughInv(cfg, Next(cfg, s, RunTask(l)))
  {
    hide RoughConn, RoughLoop, SameFor, ServerInv, Next, StateFits;
    var u := s.loops[l].batch[0];
    HeadFinds(cfg, s, l);
    StateOf(cfg, s, u.c);
    NameIsOwn(cfg, s, u.c);
    ServerStep(cfg, s, RunTask(l));
    forall k | k in s.loops
      ensures RoughLoop(Next(cfg, s, RunTask(l)), k)
    {
      RoughRunTaskLoop(cfg, s, l, k);
    }
    if u.FunctorTask? {
      forall d | d in s.conns
        ensures SameFor(cfg, s, Next(cfg, s, RunTask(l)), d)
      {
        FunctorSame(cfg, s, l, d);
      }
      RoughAssemble(cfg, s, Next(cfg, s, RunTask(l)), {});
    } else {
      RoughRunTaskConn(cfg, s, l, u.c);
      forall d | d in s.conns && d != u.c
        ensures SameFor(cfg, s, Next(cfg, s, RunTask(l)), d)
      {
        RunTaskSame(cfg, s, l, u.c, d);
      }
      RoughAssemble(cfg, s, Next(cfg, s, RunTask(l)), {u.c});
    }
  }

  // PushFunctor

  lemma RoughPushLoop(cfg: Config, s: State, c: ConnId, owns: bool, k: LoopId)
    requires Enabled(s, PushFunctor(c, owns)) && k in s.loops && RoughLoop(s, k)
    ensures RoughLoop(Next(cfg, s, PushFunctor(c, owns)), k)
  {
    hide BeforeDestruction;
    var t := Next(cfg, s, PushFunctor(c, owns));
    assert t.conns == s.conns && forall i :: 0 <= i < |t.loops[k].queue| ==> t.loops[k].queue[i].c in t.conns;
    RoughLoopFrame(s, t, k);
  }

  lemma RoughPushStep(cfg: Config, s: State, c: ConnId, owns: bool)
    requires RoughInv(cfg, s) && Enabled(s, PushFunctor(c, owns))
    ensures RoughInv(cfg, Next(cfg, s, PushFunctor(c, owns)))
  {
    hide RoughConn, RoughLoop, SameFor, ServerInv, Next;
    ServerStep(cfg, s, PushFunctor(c, owns));
    forall k | k in s.loops
      ensures RoughLoop(Next(cfg, s, PushFunctor(c, owns)), k)
    {
      RoughPushLoop(cfg, s, c, owns, k);
    }
    forall d | d in s.conns
      ensures SameFor(cfg, s, Next(cfg, s, PushFunctor(c, owns)), d)
    {
      PushSame(cfg, s, c, owns, d);
    }
    RoughAssemble(cfg, s, Next(cfg, s, PushFunctor(c, owns)), {});
  }

  // Accept

  lemma RoughAcceptLoop(cfg: Config, s: State, l: LoopId)
    requires Enabled(s, Accept) && l in s.loops && RoughLoop(s, l) && s.nextId !in s.conns
    ensures l in Next(cfg, s, Accept).loops && RoughLoop(Next(cfg, s, Accept), l)
  {
    var t := Next(cfg, s, Accept);
    AcceptFrame(cfg, s);
    assert t.loops[l] == s.loops[l] || t.loops[l] == s.loops[l].(queue := s.loops[l].queue + [EstablishTask(s.nextId)]);
    hide Next;
    RoughLoopFrame(s, t, l);
  }

  /** Nothing is queued, and nothing goes on, for a connection not yet accepted. */
  lemma NothingYet(s: State, c: ConnId)
    requires c !in s.conns && forall k :: k in s.loops ==> RoughLoop(s, k)
    ensures !InRemoval(s, c) && forall k, u: Task :: u.c == c ==> Count(s, k, u) == 0
  {
    forall k, u: Task | u.c == c
      ensures Count(s, k, u) == 0
    {
      if k in s.loops {
        assert RoughLoop(s, k);
        assert u !in s.loops[k].batch && u !in s.loops[k].queue;
      }
    }
    if BASE in s.loops {
      assert RoughLoop(s, BASE);
    }
  }

  lemma RoughAcceptConn(cfg: Config, s: State)
    requires Enabled(s, Accept) && s.nextId !in s.conns && Next(cfg, s, Accept).conns[s.nextId].loop in s.loops
    requires forall k, u: Task :: u.c == s.nextId ==> Count(s, k, u) == 0
    ensures RoughConn(cfg, Next(cfg, s, Accept), s.nextId)
  {
    hide Count, Next, Enabled;
    AcceptCounts(cfg, s);
    AcceptedRec(cfg, s);
  }

  lemma AcceptedRec(cfg: Config, s: State)
    requires Enabled(s, Accept)
    ensures var t, c := Next(cfg, s, Accept), s.nextId;
            && c in t.conns && cfg.NameOf(c) in t.connections
            && var rec := ConnRec(t.conns[c].loop, Connecting, false, false, []);
               t.conns[c] == if t.conns[c].loop == BASE then Established(rec) else rec
  {
  }

  lemma AcceptCounts(cfg: Config, s: State)
    requires Enabled(s, Accept) && s.nextId !in s.conns && Next(cfg, s, Accept).conns[s.nextId].loop in s.loops
    ensures var t, c := Next(cfg, s, Accept), s.nextId;
            var l := t.conns[c].loop;
            && t.loops.Keys == s.loops.Keys
            && forall k, u ::
                 Count(t, k, u) == Count(s, k, u) + if l != BASE && k == l && u == EstablishTask(c) then 1 else 0
  {
    var t, c := Next(cfg, s, Accept), s.nextId;
    var l, m := t.conns[c].loop, t.(loops := s.loops);
    assert forall k, u :: Count(m, k, u) == Count(s, k, u);
    if l != BASE {
      CountQueue(m, l, EstablishTask(c));
      assert t == Server.Queue(m, l, EstablishTask(c));
    } else {
      assert t.loops == s.loops;
    }
  }

  lemma RoughAcceptStep(cfg: Config, s: State)
    requires cfg.Valid() && RoughInv(cfg, s) && Enabled(s, Accept)
    ensures RoughInv(cfg, Next(cfg, s, Accept))
  {
    hide RoughConn, SameFor, RoughLoop, ServerInv, Next;
    var t, c := Next(cfg, s, Accept), s.nextId;
    AcceptServer(cfg, s);
    AcceptedIsNew(cfg, s);
    NothingYet(s, c);
    RoughAcceptConn(cfg, s);
    forall l | l in s.loops
      ensures l in t.loops && RoughLoop(t, l)
    {
      RoughAcceptLoop(cfg, s, l);
    }
    forall d | d in s.conns
      ensures SameFor(cfg, s, t, d)
    {
      AcceptSame(cfg, s, d);
    }
    RoughAssemble(cfg, s, t, {c});
  }

  // ---------------------------------------------------------------- every run

  lemma RoughPlainStep(cfg: Config, s: State, a: Action)
    requires cfg.Valid() && RoughInv(cfg, s) && Enabled(s, a) && !a.Shutdown?
    ensures RoughInv(cfg, Next(cfg, s, a))
  {
    hide RoughInv, Next;
    match a
    case Accept => RoughAcceptStep(cfg, s);
    case Dispatch(l) => RoughDispatchStep(cfg, s, l);
    case Close(l) => RoughCloseStep(cfg, s, l);
    case NotifyClose(l) => RoughNotifyStep(cfg, s, l);
    case QueueDestroy(l) => RoughQueueDestroyStep(cfg, s, l);
    case RunTask(l) => RoughRunTaskStep(cfg, s, l);
    case PushFunctor(c, owns) => RoughPushStep(cfg, s, c, owns);
    case _ => RoughLoopOnlyStep(cfg, s, a);
  }

  /** Whoever may set a connection's state found it connected once. */
  ghost predicate TestedFit(s: Racing) {
    forall c :: s.tested[c] > 0 ==> c in s.server.conns && !s.server.conns[c].state.Connecting?
  }

  lemma StateIsAFit(cfg: Config, s: State, c: ConnId)
    requires RoughInv(cfg, s) && c in s.conns
    ensures StateFits(s.conns[c])
  {
    hide RoughConn, ServerInv, RoughLoop;
    assert RoughConn(cfg, s, c);
    StateOf(cfg, s, c);
  }

  lemma RoughStep(cfg: Config, s: Racing, a: RaceAction)
    requires cfg.Valid() && RoughInv(cfg, s.server) && TestedFit(s) && CanDo(s, a)
    ensures RoughInv(cfg, Do(cfg, s, a).server)
  {
    hide RoughInv, Next, Config.Valid;
    match a
    case Plain(b) => RoughPlainStep(cfg, s.server, b);
    case Test(_) =>
    case SetState(c) =>
      StateIsAFit(cfg, s.server, c);
      RecordStep(cfg, s.server, c, s.server.conns[c].(state := Disconnecting));
    case Resend(l) =>
      var c, t := s.server.loops[l].batch[0].c, Next(cfg, s.server, RunTask(l));
      assert t.conns == s.server.conns by { FunctorKeepsConns(cfg, s.server, l); }
      RoughRunTaskStep(cfg, s.server, l);
      StateIsAFit(cfg, t, c);
      RecordStep(cfg, t, c, t.conns[c].(listed := true, watched := true));
    case Drain(l) =>
      var c := s.server.loops[l].pc.c;
      StateIsAFit(cfg, s.server, c);
      RecordStep(cfg, s.server, c, s.server.conns[c].(watched := false));
  }

  lemma FunctorKeepsConns(cfg: Config, s: State, l: LoopId)
    requires Enabled(s, RunTask(l)) && s.loops[l].batch[0].FunctorTask?
    ensures Next(cfg, s, RunTask(l)).conns == s.conns
  {
  }

  lemma TestedStep(cfg: Config, s: Racing, a: RaceAction)
    requires cfg.Valid() && RoughInv(cfg, s.server) && TestedFit(s) && CanDo(s, a)
    ensures TestedFit(Do(cfg, s, a))
  {
    hide RoughInv, Next, Config.Valid;
    match a {
      case Plain(b) => PlainKeepsTested(cfg, s, b);
      case Resend(l) => FunctorKeepsConns(cfg, s.server, l);
      case _ =>
    }
    hide Enabled;
  }

  lemma PlainKeepsTested(cfg: Config, s: Racing, b: Action)
    requires RoughInv(cfg, s.server) && TestedFit(s) && Enabled(s.server, b)
    ensures TestedFit(s.(server := Next(cfg, s.server, b)))
  {
    NextIdIsNew(cfg, s.server);
    hide RoughInv, Next, Enabled;
    forall c | s.tested[c] > 0
      ensures c in Next(cfg, s.server, b).conns && !Next(cfg, s.server, b).conns[c].state.Connecting?
    {
      NeverConnectsAgain(cfg, s.server, b, c);
    }
  }

  lemma NextIdIsNew(cfg: Config, s: State)
    requires RoughInv(cfg, s)
    ensures s.nextId !in s.conns
  {
    hide RoughLoop, RoughConn;
  }

  /** Once a thread may set, the connection is past connecting for good. */
  lemma NeverConnectsAgain(cfg: Config, s: State, b: Action, c: ConnId)
    requires Enabled(s, b) && c in s.conns && !s.conns[c].state.Connecting? && (b.Accept? ==> c != s.nextId)
    ensures c in Next(cfg, s, b).conns && !Next(cfg, s, b).conns[c].state.Connecting?
  {
  }

  lemma StartIsRough(cfg: Config)
    ensures RoughInv(cfg, Initial(cfg))
  {
    InitialInv(cfg);
    assert Initial(cfg).loops.Keys == cfg.AllLoops();
  }

  lemma {:induction false} RoughHolds(cfg: Config, r: RaceRun, i: nat)
    requires cfg.Valid() && IsRaceRun(cfg, r) && i < |r.states|
    ensures RoughInv(cfg, r.states[i].server) && TestedFit(r.states[i])
  {
    hide RoughInv, TestedFit, Do, CanDo, Initial;
    if i == 0 {
      StartIsRough(cfg);
      assert TestedFit(r.states[0]) by { NoneTested(r.states[0]); }
    } else {
      RoughHolds(cfg, r, i - 1);
      RoughStep(cfg, r.states[i - 1], r.acts[i - 1]);
      TestedStep(cfg, r.states[i - 1], r.acts[i - 1]);
    }
  }

  lemma NoneTested(s: Racing)
    requires s.tested == multiset{}
    ensures TestedFit(s)
  {
  }
}
