/** What every run of a server keeps. */
module ServerTheorems {
  import opened Common
  import opened RoundRobin
  import opened Server
  import opened ServerInvariant
  import opened FunctorOrder

  /** Kept alive by a functor that a loop has begun in the batch it is still at. */
  ghost predicate Held(s: State, c: ConnId) {
    exists l, u: Task :: l in s.loops && u in s.loops[l].begun && u.c == c && u.Owning()
  }

  /** Held by a functor that waits on some loop. */
  ghost predicate Waited(s: State, c: ConnId) {
    exists l, u: Task :: l in s.loops && u in Line(s, l) && u.c == c && u.Owning()
  }

  predicate InMap(cfg: Config, s: State, c: ConnId) {
    cfg.NameOf(c) in s.connections && s.connections[cfg.NameOf(c)] == c
  }

  /** Some shared pointer to the connection is left: in the server's map, as the argument of a removal in
      progress, or in a functor. */
  ghost predicate Owned(cfg: Config, s: State, c: ConnId) {
    InMap(cfg, s, c) || InRemoval(s, c) || Waited(s, c) || Held(s, c)
  }

  /** Until its destruction has run a connection is in the map, in its removal or waited for, and
      afterwards none of these. */
  lemma OwnersBeforeDestruction(cfg: Config, s: State, c: ConnId)
    requires c in s.conns && Inv(cfg, s) && OrderInv(s)
    ensures InMap(cfg, s, c) || InRemoval(s, c) || Waited(s, c) <==> !Dead(s, c)
  {
    hide LoopInv, ServerInv, OrderInv;
    assert ConnInv(cfg, s, c);
    DestroyedOnlyWhenGone(s.conns[c].life, PhaseOf(cfg, s, c));
    hide LifeFits, Count, Line;
    var l := s.conns[c].loop;
    CountIsMembership(s, l, DestroyTask(c));
    assert OfLife(DestroyTask(c), c);
    if Dead(s, c) {
      NoneWaitForTheDead(cfg, s, c);
    }
  }

  lemma NoneWaitForTheDead(cfg: Config, s: State, c: ConnId)
    requires c in s.conns && OrderInv(s) && Dead(s, c)
    requires forall k: LoopId, u: Task :: OfLife(u, c) ==> Count(s, k, u) == 0
    ensures !Waited(s, c)
  {
    hide Count, OrderInv, Line;
    forall l, u: Task | l in s.loops && u in Line(s, l) && u.c == c
      ensures !u.Owning()
    {
      CountIsMembership(s, l, u);
      assert Count(s, l, u) > 0 && !OfLife(u, c);
      OwnersAreEarly(s, l, u);
    }
  }

  lemma OwnersAreEarly(s: State, l: LoopId, u: Task)
    requires OrderInv(s) && l in s.loops && u in Line(s, l) && u.FunctorTask?
    ensures u.owns ==> !Dead(s, u.c)
  {
    hide Line;
    assert Ordered(s, l, Line(s, l));
    var i :| 0 <= i < |Line(s, l)| && Line(s, l)[i] == u;
    assert StandsWell(s, Line(s, l), i);
  }

  /** While a loop handles events, every connection still waiting for its turn is open, registered with
      that loop's poller and owned, in single- and multi-loop servers and in every interleaving. */
  lemma WaitingChannelIsSafe(cfg: Config, r: Run, i: nat, l: LoopId, k: nat)
    requires cfg.Valid() && IsRun(cfg, r) && i < |r.states| && l in r.states[i].loops
    requires k < |r.states[i].loops[l].active|
    ensures var s := r.states[i];
            var c := s.loops[l].active[k];
            OpenOn(s, l, c) && s.conns[c].listed && s.conns[c].watched && Owned(cfg, s, c) && OpenLife(s.conns[c].life)
  {
    OrderHolds(cfg, r, i);
    WaitingIsSafe(cfg, r.states[i], l, k);
  }

  lemma WaitingIsSafe(cfg: Config, s: State, l: LoopId, k: nat)
    requires Inv(cfg, s) && OrderInv(s) && l in s.loops && k < |s.loops[l].active|
    ensures var c := s.loops[l].active[k];
            OpenOn(s, l, c) && s.conns[c].listed && s.conns[c].watched && Owned(cfg, s, c) && OpenLife(s.conns[c].life)
  {
    hide ServerInv, OrderInv, Waited, Held;
    var c := s.loops[l].active[k];
    assert LoopInv(s, l) && ConnInv(cfg, s, c);
    OwnersBeforeDestruction(cfg, s, c);
    DestroyedOnlyWhenGone(s.conns[c].life, PhaseOf(cfg, s, c));
  }

  predicate InHandleEvent(pc: LoopPc, c: ConnId) {
    pc == Dispatching(c) || pc == Closing(c) || pc == Removing(c, true) || pc == Server.Closed(c)
  }

  /** And the connection whose events are being dispatched stays registered and owned until its
      handleEvent returns, through its own close, its removal from the map and beyond. */
  lemma DispatchedChannelIsSafe(cfg: Config, r: Run, i: nat, l: LoopId, c: ConnId)
    requires cfg.Valid() && IsRun(cfg, r) && i < |r.states| && l in r.states[i].loops
    requires InHandleEvent(r.states[i].loops[l].pc, c)
    ensures var s := r.states[i]; c in s.conns && s.conns[c].loop == l && s.conns[c].listed && Owned(cfg, s, c)
  {
    OrderHolds(cfg, r, i);
    DispatchedIsSafe(cfg, r.states[i], l, c);
  }

  lemma DispatchedIsSafe(cfg: Config, s: State, l: LoopId, c: ConnId)
    requires Inv(cfg, s) && OrderInv(s) && l in s.loops && InHandleEvent(s.loops[l].pc, c)
    ensures c in s.conns && s.conns[c].loop == l && s.conns[c].listed && Owned(cfg, s, c)
  {
    hide ServerInv, OrderInv, Waited;
    assert LoopInv(s, l) && ConnInv(cfg, s, c);
    OwnersBeforeDestruction(cfg, s, c);
    DestroyedOnlyWhenGone(s.conns[c].life, PhaseOf(cfg, s, c));
  }

  /** A connection is owned until its destruction has run, and after that only while a batch that ran one
      of its functors is not yet done; while registered it is owned, and when nobody owns it any more it
      is down, as its destructor asserts, and unregistered. */
  lemma OwnedUntilDestroyed(cfg: Config, r: Run, i: nat, c: ConnId)
    requires cfg.Valid() && IsRun(cfg, r) && i < |r.states| && c in r.states[i].conns
    ensures var s := r.states[i];
            && (Owned(cfg, s, c) <==> Destroyed !in s.conns[c].life || Held(s, c))
            && (s.conns[c].listed ==> Owned(cfg, s, c))
            && (!Owned(cfg, s, c) ==> s.conns[c].state.Disconnected? && !s.conns[c].listed)
  {
    OrderHolds(cfg, r, i);
    hide IsRun, OrderInv, LoopInv, ServerInv, Waited, Held;
    var s := r.states[i];
    assert ConnInv(cfg, s, c);
    OwnersBeforeDestruction(cfg, s, c);
    DestroyedOnlyWhenGone(s.conns[c].life, PhaseOf(cfg, s, c));
  }

  /** What a functor outside the life cycle finds when it begins: one queued before its connection's
      destruction begins before it, and one queued later after it.  So a notice, which owns its
      connection, always finds it alive, and a functor with the bare `this` finds it owned if and only if
      it was queued before the destruction, or a batch not yet done keeps the connection. */
  lemma FunctorFindsItOwnedIff(cfg: Config, r: Run, i: nat, l: LoopId)
    requires cfg.Valid() && IsRun(cfg, r) && i < |r.acts| && r.acts[i] == RunTask(l)
    requires l in r.states[i].loops && r.states[i].loops[l].batch != [] && r.states[i].loops[l].batch[0].FunctorTask?
    ensures var s := r.states[i];
            var f := s.loops[l].batch[0];
            && f.c in s.conns && s.conns[f.c].loop == l
            && (f.early <==> Destroyed !in s.conns[f.c].life)
            && (Owned(cfg, s, f.c) <==> f.early || Held(s, f.c))
            && (f.owns ==> f.early)
  {
    OrderHolds(cfg, r, i);
    var s := r.states[i];
    var f := s.loops[l].batch[0];
    hide IsRun, Inv, Next, Held, Waited, InMap;
    assert Line(s, l)[0] == f;
    assert Ordered(s, l, Line(s, l));
    assert StandsWell(s, Line(s, l), 0);
    OwnersBeforeDestruction(cfg, s, f.c);
  }

  /** A caller can make sure of that: a functor queued while its connection is up is queued before the
      destruction. */
  lemma QueuedWhileUpIsEarly(cfg: Config, r: Run, i: nat, c: ConnId, owns: bool)
    requires cfg.Valid() && IsRun(cfg, r) && i < |r.acts| && r.acts[i] == PushFunctor(c, owns)
    requires c in r.states[i].conns
    requires r.states[i].conns[c].state.Connected? || r.states[i].conns[c].state.Disconnecting?
    ensures var s, t := r.states[i], r.states[i + 1];
            var l := s.conns[c].loop;
            && l in s.loops && l in t.loops
            && t.loops[l].queue == s.loops[l].queue + [FunctorTask(c, owns, true)]
  {
    InvHolds(cfg, r, i);
    assert Enabled(r.states[i], r.acts[i]) && r.states[i + 1] == Next(cfg, r.states[i], r.acts[i]);
    hide IsRun, Inv;
    UpIsBeforeDestruction(cfg, r.states[i], c);
  }

  predicate InBatch(pc: LoopPc) {
    pc.Running? || (pc.Removing? && !pc.nested)
  }

  /** How far a loop has brought the functors `q` that were queued: they are still queued, or in the batch. */
  predicate Covers(q: seq<Task>, lr: LoopRec) {
    if InBatch(lr.pc) then q <= lr.begun + lr.batch else q <= lr.queue
  }

  lemma CoversStep(cfg: Config, s: State, a: Action, l: LoopId, q: seq<Task>)
    requires Enabled(s, a) && a != EndBatch(l) && l in s.loops && Covers(q, s.loops[l])
    ensures l in Next(cfg, s, a).loops && Covers(q, Next(cfg, s, a).loops[l])
  {
    if a.Accept? || a.NotifyClose? || a.QueueDestroy? || a.PushFunctor? {
      QueueOnlyGrows(cfg, s, a, l);
      hide Next, Enabled;
    } else if a.RunTask? {
      BeginningCovers(cfg, s, a.l, l, q);
      hide Next, Enabled;
    }
  }

  lemma QueueOnlyGrows(cfg: Config, s: State, a: Action, l: LoopId)
    requires Enabled(s, a) && l in s.loops && (a.Accept? || a.NotifyClose? || a.QueueDestroy? || a.PushFunctor?)
    ensures var t := Next(cfg, s, a);
            && l in t.loops && s.loops[l].queue <= t.loops[l].queue && InBatch(t.loops[l].pc) == InBatch(s.loops[l].pc)
            && t.loops[l].begun == s.loops[l].begun && t.loops[l].batch == s.loops[l].batch
  {
    hide BeforeDestruction, NewConnection;
    if a.Accept? {
      AcceptOnlyGrows(cfg, s, l);
    }
  }

  lemma AcceptOnlyGrows(cfg: Config, s: State, l: LoopId)
    requires l in s.loops
    ensures var t := NewConnection(cfg, s);
            && l in t.loops && s.loops[l].queue <= t.loops[l].queue && t.loops[l].pc == s.loops[l].pc
            && t.loops[l].begun == s.loops[l].begun && t.loops[l].batch == s.loops[l].batch
  {
  }

  lemma BeginningCovers(cfg: Config, s: State, m: LoopId, l: LoopId, q: seq<Task>)
    requires Enabled(s, RunTask(m)) && l in s.loops && Covers(q, s.loops[l])
    ensures l in Next(cfg, s, RunTask(m)).loops && Covers(q, Next(cfg, s, RunTask(m)).loops[l])
  {
    assert Next(cfg, s, RunTask(m)).loops == Popped(s, m).loops;
    var lr := s.loops[m];
    assert lr.begun + lr.batch == (lr.begun + [lr.batch[0]]) + lr.batch[1..];
    hide Next, Execute;
  }

  lemma {:induction false} CoversHolds(cfg: Config, r: Run, i: nat, j: nat, l: LoopId)
    requires IsRun(cfg, r) && i <= j < |r.states| && l in r.states[i].loops
    requires !InBatch(r.states[i].loops[l].pc) && forall k :: i <= k < j ==> r.acts[k] != EndBatch(l)
    ensures l in r.states[j].loops && Covers(r.states[i].loops[l].queue, r.states[j].loops[l])
    decreases j
  {
    hide Next, Enabled;
    if i < j {
      CoversHolds(cfg, r, i, j - 1, l);
      CoversStep(cfg, r.states[j - 1], r.acts[j - 1], l, r.states[i].loops[l].queue);
    }
  }

  /** The next batch that a loop outside a batch completes has begun everything queued on it now. */
  lemma NextBatchBeginsTheQueue(cfg: Config, r: Run, i: nat, j: nat, l: LoopId)
    requires IsRun(cfg, r) && i <= j < |r.acts| && l in r.states[i].loops
    requires !InBatch(r.states[i].loops[l].pc)
    requires r.acts[j] == EndBatch(l) && forall k :: i <= k < j ==> r.acts[k] != EndBatch(l)
    ensures l in r.states[j].loops && r.states[i].loops[l].queue <= r.states[j].loops[l].begun
  {
    CoversHolds(cfg, r, i, j, l);
    assert Enabled(r.states[j], r.acts[j]);
    hide IsRun;
    var lr := r.states[j].loops[l];
    assert lr.begun + lr.batch == lr.begun;
  }

  lemma QueueGrowsStep(cfg: Config, s: State, a: Action, l: LoopId, q: seq<Task>)
    requires Enabled(s, a) && l in s.loops && InBatch(s.loops[l].pc) && q <= s.loops[l].queue
    ensures var t := Next(cfg, s, a);
            && l in t.loops && q <= t.loops[l].queue
            && (if a == EndBatch(l) then !InBatch(t.loops[l].pc) else InBatch(t.loops[l].pc))
  {
    hide BeforeDestruction, Execute;
    if a.RunTask? {
      ExecuteKeepsLoops(cfg, Popped(s, a.l), s.loops[a.l].batch[0]);
    }
  }

  lemma ExecuteKeepsLoops(cfg: Config, s: State, u: Task)
    ensures Execute(cfg, s, u).loops == s.loops
  {
  }

  lemma {:induction false} QueueGrowsInBatch(cfg: Config, r: Run, i: nat, j: nat, l: LoopId)
    requires IsRun(cfg, r) && i <= j < |r.states| && l in r.states[i].loops && InBatch(r.states[i].loops[l].pc)
    requires forall k :: i <= k < j ==> r.acts[k] != EndBatch(l)
    ensures l in r.states[j].loops && InBatch(r.states[j].loops[l].pc)
    ensures r.states[i].loops[l].queue <= r.states[j].loops[l].queue
    decreases j
  {
    hide Next, Enabled;
    if i < j {
      QueueGrowsInBatch(cfg, r, i, j - 1, l);
      QueueGrowsStep(cfg, r.states[j - 1], r.acts[j - 1], l, r.states[i].loops[l].queue);
    }
  }

  /** And what is queued while a batch runs waits for its end and for the one batch after it: of the next
      two batches that a loop completes the second at the latest has begun everything queued on it now. */
  lemma TwoBatchesBeginTheQueue(cfg: Config, r: Run, i: nat, j: nat, k: nat, l: LoopId)
    requires IsRun(cfg, r) && i <= j < k < |r.acts| && l in r.states[i].loops && InBatch(r.states[i].loops[l].pc)
    requires r.acts[j] == EndBatch(l) && forall n :: i <= n < j ==> r.acts[n] != EndBatch(l)
    requires r.acts[k] == EndBatch(l) && forall n :: j < n < k ==> r.acts[n] != EndBatch(l)
    ensures l in r.states[k].loops && r.states[i].loops[l].queue <= r.states[k].loops[l].begun
  {
    hide Next, Enabled;
    QueueGrowsInBatch(cfg, r, i, j, l);
    QueueGrowsStep(cfg, r.states[j], r.acts[j], l, r.states[i].loops[l].queue);
    NextBatchBeginsTheQueue(cfg, r, j + 1, k, l);
  }

  /** Single token: a connection's phase decides which one task of its life cycle is queued, on which
      loop, and whether the server's map holds it; no other such task for it exists anywhere. */
  lemma SingleToken(cfg: Config, r: Run, i: nat, c: ConnId, k: LoopId, u: Task)
    requires cfg.Valid() && IsRun(cfg, r) && i < |r.states| && c in r.states[i].conns && OfLife(u, c)
    ensures var s := r.states[i];
            var p := PhaseOf(cfg, s, c);
            && Count(s, k, u) == (if Token(c, s.conns[c].loop, p) == Some((k, u)) then 1 else 0)
            && (cfg.NameOf(c) in s.connections <==> !p.Erased? && !p.DestroyQueued? && !p.Gone?)
            && (InRemoval(s, c) <==> p.Erased?)
            && (cfg.NameOf(c) in s.connections ==> s.connections[cfg.NameOf(c)] == c)
  {
    InvHolds(cfg, r, i);
    hide IsRun;
    assert ConnInv(cfg, r.states[i], c);
  }

  function Callbacks(life: seq<Life>): seq<Life> {
    if life == [] then []
    else
      var last := life[|life| - 1];
      Callbacks(life[..|life| - 1]) + if last.CameUp? || last.WentDown? then [last] else []
  }

  lemma {:induction false} OpenCallbacks(life: seq<Life>)
    requires OpenLife(life)
    ensures Callbacks(life) == [CameUp]
  {
    if |life| > 1 {
      OpenCallbacks(life[..|life| - 1]);
    } else {
      assert life[..0] == [] && life == [CameUp];
    }
  }

  lemma CallbacksFit(life: seq<Life>, p: Phase)
    requires LifeFits(life, p)
    ensures Callbacks(life) == if p.EstablishQueued? then [] else if p.Open? then [CameUp] else [CameUp, WentDown]
  {
    if OpenLife(life) {
      OpenCallbacks(life);
    } else if ClosedLife(life) {
      OpenCallbacks(life[..|life| - 1]);
    } else if GoneLife(life) {
      OpenCallbacks(life[..|life| - 1][..|life| - 2]);
      assert Callbacks(life[..|life| - 1]) == [CameUp, WentDown];
    }
  }

  /** Across loops and in every interleaving a connection's callbacks are up and then down, never more;
      events are dispatched only after it came up and before it went down; its destruction comes once,
      after it went down, and last. */
  lemma LifeInOrder(cfg: Config, r: Run, i: nat, c: ConnId)
    requires cfg.Valid() && IsRun(cfg, r) && i < |r.states| && c in r.states[i].conns
    ensures var life := r.states[i].conns[c].life;
            && Callbacks(life) <= [CameUp, WentDown]
            && (life != [] ==> life[0] == CameUp)
            && (forall j, k :: 0 <= j < k < |life| && life[j].WentDown? ==> life[k].Destroyed?)
            && (forall j :: 0 <= j < |life| && life[j].Destroyed? ==> j == |life| - 1 && j > 0 && life[j - 1].WentDown?)
  {
    InvHolds(cfg, r, i);
    hide IsRun, LoopInv, ServerInv, Callbacks;
    var s := r.states[i];
    assert LifeFits(s.conns[c].life, PhaseOf(cfg, s, c)) by { assert ConnInv(cfg, s, c); }
    hide ConnInv, PhaseOf, LifeFits;
    CallbacksFit(s.conns[c].life, PhaseOf(cfg, s, c));
    FitsInOrder(s.conns[c].life, PhaseOf(cfg, s, c));
  }

  lemma ClosedShape(life: seq<Life>)
    requires ClosedLife(life)
    ensures |life| >= 2 && life[0] == CameUp && life[|life| - 1] == WentDown
    ensures forall i :: 1 <= i < |life| - 1 ==> life[i] == Event
  {
    var open := life[..|life| - 1];
    assert forall i :: 1 <= i < |open| ==> open[i].Event?;
    assert forall i :: 0 <= i < |open| ==> life[i] == open[i];
  }

  lemma FitsInOrder(life: seq<Life>, p: Phase)
    requires LifeFits(life, p)
    ensures life != [] ==> life[0] == CameUp
    ensures forall j, k :: 0 <= j < k < |life| && life[j].WentDown? ==> life[k].Destroyed?
    ensures forall j :: 0 <= j < |life| && life[j].Destroyed? ==> j == |life| - 1 && j > 0 && life[j - 1].WentDown?
  {
    if p.Gone? {
      var closed := life[..|life| - 1];
      ClosedShape(closed);
      assert forall i :: 0 <= i < |closed| ==> life[i] == closed[i];
      hide ClosedLife;
    } else if !p.EstablishQueued? && !p.Open? {
      ClosedShape(life);
      hide ClosedLife;
    }
  }

  /** handleClose is entered only by a connection that is up, and the destruction finds it down: the
      branch of connectDestroyed for a connection still up is never taken while the server lives. */
  lemma EntryStates(cfg: Config, r: Run, i: nat, l: LoopId)
    requires cfg.Valid() && IsRun(cfg, r) && i < |r.acts|
    requires r.acts[i] == Close(l) || r.acts[i] == RunTask(l)
    ensures var s := r.states[i];
            && l in s.loops
            && (r.acts[i].Close? ==> OpenOn(s, l, s.loops[l].pc.c))
            && (r.acts[i].RunTask? && s.loops[l].batch[0].DestroyTask? ==>
                  s.loops[l].batch[0].c in s.conns && s.conns[s.loops[l].batch[0].c].state.Disconnected?)
  {
    InvHolds(cfg, r, i);
    var s := r.states[i];
    assert Enabled(s, r.acts[i]);
    hide IsRun, ConnInv;
    assert LoopInv(s, l);
    if r.acts[i].RunTask? {
      HeadIsKnown(cfg, s, l);
      if !s.loops[l].batch[0].FunctorTask? {
        RunTaskConn(cfg, s, l, s.loops[l].batch[0].c);
      }
    }
  }

  /** No accept overwrites an entry of the server's map. */
  lemma AcceptNeverOverwrites(cfg: Config, r: Run, i: nat)
    requires cfg.Valid() && IsRun(cfg, r) && i < |r.acts| && r.acts[i].Accept?
    ensures cfg.NameOf(r.states[i].nextId) !in r.states[i].connections
  {
    InvHolds(cfg, r, i);
    assert Enabled(r.states[i], Accept) by { assert r.acts[i] == Accept; }
    hide IsRun, ConnInv, LoopInv, Next;
    AcceptedIsNew(cfg, r.states[i]);
  }

  /** How many of the connections 1..k live on loop `l`. */
  function Load(s: State, l: LoopId, k: nat): nat {
    if k == 0 then 0 else Load(s, l, k - 1) + if k in s.conns && s.conns[k].loop == l then 1 else 0
  }

  lemma {:induction false} LoadIsTurns(cfg: Config, s: State, j: nat, k: nat)
    requires cfg.Valid() && j < |cfg.ioLoops| && k < s.nextId
    requires forall c :: 1 <= c < s.nextId ==> c in s.conns && s.conns[c].loop == cfg.Turn(c - 1)
    ensures Load(s, cfg.ioLoops[j], k) == Turns(|cfg.ioLoops|, j, k)
  {
    if k > 0 {
      LoadIsTurns(cfg, s, j, k - 1);
      var m := (k - 1) % |cfg.ioLoops|;
      assert s.conns[k].loop == cfg.ioLoops[m];
      assert cfg.ioLoops[m] == cfg.ioLoops[j] <==> m == j;
    }
  }

  /** In every reachable state each I/O loop has been given the floor or the ceiling of its even share of
      the connections accepted so far, the first loops the ceiling. */
  lemma LoadIsFair(cfg: Config, r: Run, i: nat, j: nat)
    requires cfg.Valid() && IsRun(cfg, r) && i < |r.states| && j < |cfg.ioLoops|
    ensures FairlyLoaded(cfg, r.states[i], j)
  {
    InvHolds(cfg, r, i);
    hide IsRun, ConnInv, LoopInv, FairlyLoaded;
    assert ServerInv(cfg, r.states[i]);
    ServerIsFair(cfg, r.states[i], j);
  }

  predicate FairlyLoaded(cfg: Config, s: State, j: nat)
    requires j < |cfg.ioLoops|
  {
    && s.nextId >= 1
    && var k, n := s.nextId - 1, |cfg.ioLoops|;
       Load(s, cfg.ioLoops[j], k) == k / n + if j < k % n then 1 else 0
  }

  lemma ServerIsFair(cfg: Config, s: State, j: nat)
    requires cfg.Valid() && ServerInv(cfg, s) && j < |cfg.ioLoops|
    ensures FairlyLoaded(cfg, s, j)
  {
    hide Load, Turns;
    LoadIsTurns(cfg, s, j, s.nextId - 1);
    FairShare(|cfg.ioLoops|, j, s.nextId - 1);
  }
}
