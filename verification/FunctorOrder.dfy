/**
 Where in a loop's queue the functors stand that are not of the life cycle: the notices, which own their
 connection, and the off-loop sends and shutdowns, which bind the bare `this` and own nothing.
 */
module FunctorOrder {
  import opened RoundRobin
  import opened Server
  import opened ServerInvariant

  /** A loop's functors in the order in which they will begin. */
  function Line(s: State, l: LoopId): seq<Task>
    requires l in s.loops
  {
    s.loops[l].batch + s.loops[l].queue
  }

  predicate Dead(s: State, c: ConnId) {
    c in s.conns && Destroyed in s.conns[c].life
  }

  /** A functor queued before its connection's destruction stands before it; one queued later stands
      behind it, or the destruction has run.  One that owns its connection is of the first kind. */
  predicate StandsWell(s: State, q: seq<Task>, i: nat)
    requires i < |q| && q[i].FunctorTask?
  {
    var f := q[i];
    && (f.owns ==> f.early)
    && (f.early ==> !Dead(s, f.c) && forall j :: 0 <= j < |q| && q[j] == DestroyTask(f.c) ==> i < j)
    && (!f.early ==> Dead(s, f.c) || exists j :: 0 <= j < i && q[j] == DestroyTask(f.c))
  }

  predicate Ordered(s: State, l: LoopId, q: seq<Task>) {
    forall i :: 0 <= i < |q| && q[i].FunctorTask? ==>
      q[i].c in s.conns && s.conns[q[i].c].loop == l && StandsWell(s, q, i)
  }

  predicate OrderInv(s: State) {
    forall l :: l in s.loops ==> Ordered(s, l, Line(s, l))
  }

  // ---------------------------------------------------------------- frames

  /** The connections of loop `l` are as dead, and live where they did. */
  predicate SameDead(s: State, t: State, l: LoopId) {
    forall c :: c in s.conns ==>
      c in t.conns && t.conns[c].loop == s.conns[c].loop && (s.conns[c].loop == l ==> Dead(t, c) == Dead(s, c))
  }

  lemma OrderFrame(s: State, t: State, l: LoopId, q: seq<Task>)
    requires Ordered(s, l, q) && SameDead(s, t, l)
    ensures Ordered(t, l, q)
  {
    forall i | 0 <= i < |q| && q[i].FunctorTask?
      ensures q[i].c in t.conns && t.conns[q[i].c].loop == l && StandsWell(t, q, i)
    {
      assert StandsWell(s, q, i);
    }
  }

  lemma OrderPushLife(s: State, l: LoopId, q: seq<Task>, u: Task)
    requires Ordered(s, l, q) && !u.FunctorTask?
    ensures Ordered(s, l, q + [u])
  {
    forall i | 0 <= i < |q + [u]| && (q + [u])[i].FunctorTask?
      ensures (q + [u])[i].c in s.conns && s.conns[(q + [u])[i].c].loop == l && StandsWell(s, q + [u], i)
    {
      assert StandsWell(s, q, i);
      if !q[i].early && !Dead(s, q[i].c) {
        var j :| 0 <= j < i && q[j] == DestroyTask(q[i].c);
        assert (q + [u])[j] == DestroyTask(q[i].c);
      }
    }
  }

  /** A functor joins: early while no destruction is queued or run, late once one is. */
  lemma OrderPushFunctor(s: State, l: LoopId, q: seq<Task>, f: Task)
    requires Ordered(s, l, q) && f.FunctorTask? && f.c in s.conns && s.conns[f.c].loop == l
    requires f.owns ==> f.early
    requires f.early ==> !Dead(s, f.c) && DestroyTask(f.c) !in q
    requires !f.early ==> Dead(s, f.c) || DestroyTask(f.c) in q
    ensures Ordered(s, l, q + [f])
  {
    var p := q + [f];
    forall i | 0 <= i < |p| && p[i].FunctorTask?
      ensures p[i].c in s.conns && s.conns[p[i].c].loop == l && StandsWell(s, p, i)
    {
      if i < |q| {
        assert StandsWell(s, q, i);
        if !q[i].early && !Dead(s, q[i].c) {
          var j :| 0 <= j < i && q[j] == DestroyTask(q[i].c);
          assert p[j] == DestroyTask(q[i].c);
        }
      } else if !f.early && !Dead(s, f.c) {
        var j :| 0 <= j < |q| && q[j] == DestroyTask(f.c);
        assert p[j] == DestroyTask(f.c);
      }
    }
  }

  /** The head begins; when it is a destruction its connection is dead from then on. */
  lemma OrderPop(s: State, t: State, l: LoopId, q: seq<Task>)
    requires q != [] && Ordered(s, l, q)
    requires forall c :: c in s.conns ==> c in t.conns && t.conns[c].loop == s.conns[c].loop
    requires forall c :: c in s.conns && s.conns[c].loop == l ==> Dead(t, c) == (Dead(s, c) || q[0] == DestroyTask(c))
    ensures Ordered(t, l, q[1..])
  {
    var p := q[1..];
    forall i | 0 <= i < |p| && p[i].FunctorTask?
      ensures p[i].c in t.conns && t.conns[p[i].c].loop == l && StandsWell(t, p, i)
    {
      assert p[i] == q[i + 1] && StandsWell(s, q, i + 1);
      if !q[i + 1].early && !Dead(t, p[i].c) {
        var j :| 0 <= j < i + 1 && q[j] == DestroyTask(p[i].c);
        assert j > 0 && p[j - 1] == DestroyTask(p[i].c);
      }
    }
  }

  // ---------------------------------------------------------------- steps

  /** Between `s` and `t` one task of the life cycle was queued on loop `l`, or none. */
  predicate QueuedLife(s: State, t: State, l: LoopId, u: Task) {
    && !u.FunctorTask? && t.loops.Keys == s.loops.Keys
    && forall k :: k in s.loops ==> Line(t, k) == if k == l then Line(s, k) + [u] else Line(s, k)
  }

  predicate SameLines(s: State, t: State) {
    t.loops.Keys == s.loops.Keys && forall k :: k in s.loops ==> Line(t, k) == Line(s, k)
  }

  predicate AllSameDead(s: State, t: State) {
    forall c :: c in s.conns ==> c in t.conns && t.conns[c].loop == s.conns[c].loop && Dead(t, c) == Dead(s, c)
  }

  lemma SameLinesKeep(s: State, t: State)
    requires OrderInv(s) && SameLines(s, t) && AllSameDead(s, t)
    ensures OrderInv(t)
  {
    hide Ordered, Line;
    forall l | l in t.loops
      ensures Ordered(t, l, Line(t, l))
    {
      OrderFrame(s, t, l, Line(s, l));
    }
  }

  lemma QueuedLifeKeeps(s: State, t: State, l: LoopId, u: Task)
    requires OrderInv(s) && QueuedLife(s, t, l, u) && AllSameDead(s, t)
    ensures OrderInv(t)
  {
    hide Ordered, Line;
    forall k | k in t.loops
      ensures Ordered(t, k, Line(t, k))
    {
      OrderFrame(s, t, k, Line(s, k));
      OrderPushLife(t, k, Line(s, k), u);
    }
  }

  lemma QueueLines(s: State, l: LoopId, u: Task)
    requires l in s.loops
    ensures var t := Server.Queue(s, l, u);
            && t.loops.Keys == s.loops.Keys
            && forall k :: k in s.loops ==> Line(t, k) == if k == l then Line(s, k) + [u] else Line(s, k)
  {
  }

  lemma PoppedLines(s: State, l: LoopId)
    requires l in s.loops && s.loops[l].batch != []
    ensures var t := Popped(s, l);
            && t.loops.Keys == s.loops.Keys && Line(s, l) != [] && Line(s, l)[0] == s.loops[l].batch[0]
            && forall k :: k in s.loops ==> Line(t, k) == if k == l then Line(s, k)[1..] else Line(s, k)
  {
  }

  /** What the life cycle's own steps do to the dead: only a destruction adds to them. */
  lemma ExecuteDead(cfg: Config, s: State, u: Task)
    requires u.c in s.conns
    ensures var t := Execute(cfg, s, u);
            forall c :: c in s.conns ==>
              c in t.conns && t.conns[c].loop == s.conns[c].loop && Dead(t, c) == (Dead(s, c) || u == DestroyTask(c))
  {
    var t := Execute(cfg, s, u);
    match u
    case EstablishTask(c) => assert t.conns[c].life == s.conns[c].life + [CameUp];
    case DestroyTask(c) =>
      assert t.conns[c].life[|t.conns[c].life| - 1] == Destroyed;
    case _ =>
  }

  lemma PoppedKeeps(cfg: Config, s: State, l: LoopId, t: State)
    requires OrderInv(s) && l in s.loops && s.loops[l].batch != [] && s.loops[l].batch[0].c in s.conns
    requires s.loops[l].batch[0].DestroyTask? ==> s.conns[s.loops[l].batch[0].c].loop == l
    requires t == Popped(s, l).(conns := Execute(cfg, Popped(s, l), s.loops[l].batch[0]).conns)
    ensures OrderInv(t)
  {
    var u := s.loops[l].batch[0];
    PoppedLines(s, l);
    ExecuteDead(cfg, Popped(s, l), u);
    assert forall k :: k in t.loops ==> Line(t, k) == Line(Popped(s, l), k);
    assert forall c :: Dead(t, c) == Dead(Execute(cfg, Popped(s, l), u), c);
    assert forall c :: Dead(Popped(s, l), c) == Dead(s, c);
    hide Ordered, Line, Execute, Dead;
    forall k | k in t.loops
      ensures Ordered(t, k, Line(t, k))
    {
      if k == l {
        OrderPop(s, t, l, Line(s, l));
      } else {
        OrderFrame(s, t, k, Line(s, k));
      }
    }
  }

  lemma RunTaskKeepsOrder(cfg: Config, s: State, l: LoopId)
    requires Inv(cfg, s) && OrderInv(s) && Enabled(s, RunTask(l))
    ensures OrderInv(Next(cfg, s, RunTask(l)))
  {
    hide OrderInv, Next, Inv;
    assert l in s.loops && LoopInv(s, l) by { InvLoop(cfg, s, l); }
    HeadInPlace(cfg, s, l);
    var u, popped := s.loops[l].batch[0], Popped(s, l);
    var t := Next(cfg, s, RunTask(l));
    var run := popped.(conns := Execute(cfg, popped, u).conns);
    PoppedKeeps(cfg, s, l, run);
    RunTaskShape(cfg, s, l);
    SameLinesKeep(run, t);
  }

  lemma InvLoop(cfg: Config, s: State, l: LoopId)
    requires Inv(cfg, s) && l in s.loops
    ensures LoopInv(s, l)
  {
  }

  lemma HeadInPlace(cfg: Config, s: State, l: LoopId)
    requires Inv(cfg, s) && Enabled(s, RunTask(l))
    ensures var u := s.loops[l].batch[0];
            u.c in s.conns && s.conns[u.c].loop in s.loops && (u.DestroyTask? ==> s.conns[u.c].loop == l)
  {
    hide ServerInv, ConnInv, LoopInv, Next;
    assert LoopInv(s, l);
    var c := s.loops[l].batch[0].c;
    HeadIsKnown(cfg, s, l);
    assert ConnInv(cfg, s, c);
    if !s.loops[l].batch[0].FunctorTask? {
      hide Inv;
      RunTaskConn(cfg, s, l, c);
    }
  }

  lemma RunTaskShape(cfg: Config, s: State, l: LoopId)
    requires Enabled(s, RunTask(l)) && s.loops[l].batch[0].c in s.conns
    ensures var run := Popped(s, l).(conns := Execute(cfg, Popped(s, l), s.loops[l].batch[0]).conns);
            SameLines(run, Next(cfg, s, RunTask(l))) && AllSameDead(run, Next(cfg, s, RunTask(l)))
  {
  }

  lemma PushKeepsOrder(cfg: Config, s: State, c: ConnId, owns: bool)
    requires Inv(cfg, s) && OrderInv(s) && Enabled(s, PushFunctor(c, owns))
    ensures OrderInv(Next(cfg, s, PushFunctor(c, owns)))
  {
    hide Inv;
    UpIsBeforeDestruction(cfg, s, c);
    var l, f := s.conns[c].loop, FunctorTask(c, owns, BeforeDestruction(s, c));
    var t := Server.Queue(s, l, f);
    assert t == Next(cfg, s, PushFunctor(c, owns)) && t.conns == s.conns;
    QueueLines(s, l, f);
    PushIsInOrder(s, c, f);
    hide Next, Enabled, Line, Ordered, BeforeDestruction, Queue;
    forall k | k in t.loops
      ensures Ordered(t, k, Line(t, k))
    {
      OrderFrame(s, t, k, Line(s, k));
      if k == l {
        OrderPushFunctor(t, k, Line(s, k), f);
      }
    }
  }

  /** A functor is early exactly while no destruction of its connection has run or waits. */
  lemma PushIsInOrder(s: State, c: ConnId, f: Task)
    requires c in s.conns && s.conns[c].loop in s.loops && f.FunctorTask? && f.c == c
    requires f.early == BeforeDestruction(s, c)
    ensures var q := Line(s, s.conns[c].loop); f.early <==> !Dead(s, c) && DestroyTask(c) !in q
  {
  }

  /** While a connection is up, and as long as the map holds it, its destruction is yet to be queued. */
  lemma UpIsBeforeDestruction(cfg: Config, s: State, c: ConnId)
    requires Inv(cfg, s) && c in s.conns
    ensures s.conns[c].loop in s.loops
    ensures cfg.NameOf(c) in s.connections ==> BeforeDestruction(s, c)
    ensures s.conns[c].state.Connected? || s.conns[c].state.Disconnecting? ==> BeforeDestruction(s, c)
  {
    hide LoopInv, ServerInv;
    assert ConnInv(cfg, s, c);
    var l, p := s.conns[c].loop, PhaseOf(cfg, s, c);
    DestroyedOnlyWhenGone(s.conns[c].life, p);
    CountIsMembership(s, l, DestroyTask(c));
    hide LifeFits, Count;
    assert OfLife(DestroyTask(c), c);
  }

  lemma CountIsMembership(s: State, l: LoopId, u: Task)
    requires l in s.loops
    ensures Count(s, l, u) > 0 <==> u in Line(s, l)
  {
    assert multiset(Line(s, l)) == multiset(s.loops[l].batch) + multiset(s.loops[l].queue);
  }

  lemma NotifyShape(cfg: Config, s: State, l: LoopId)
    requires Enabled(s, NotifyClose(l)) && BASE in s.loops
    ensures var t := Next(cfg, s, NotifyClose(l));
            && AllSameDead(s, t)
            && if l == BASE then SameLines(s, t) else QueuedLife(s, t, BASE, RemoveTask(s.loops[l].pc.c))
  {
  }

  lemma NotifyKeepsOrder(cfg: Config, s: State, l: LoopId)
    requires Inv(cfg, s) && OrderInv(s) && Enabled(s, NotifyClose(l))
    ensures OrderInv(Next(cfg, s, NotifyClose(l)))
  {
    ClosingIsListed(cfg, s, l);
    hide Inv, OrderInv, Next;
    NotifyShape(cfg, s, l);
    if l == BASE {
      SameLinesKeep(s, Next(cfg, s, NotifyClose(l)));
    } else {
      QueuedLifeKeeps(s, Next(cfg, s, NotifyClose(l)), BASE, RemoveTask(s.loops[l].pc.c));
    }
  }

  lemma QueueDestroyShape(cfg: Config, s: State, l: LoopId)
    requires Enabled(s, QueueDestroy(l)) && s.loops[l].pc.c in s.conns && s.conns[s.loops[l].pc.c].loop in s.loops
    ensures var t, c := Next(cfg, s, QueueDestroy(l)), s.loops[l].pc.c;
            AllSameDead(s, t) && QueuedLife(s, t, s.conns[c].loop, DestroyTask(c))
  {
  }

  lemma QueueDestroyKeepsOrder(cfg: Config, s: State, l: LoopId)
    requires Inv(cfg, s) && OrderInv(s) && Enabled(s, QueueDestroy(l))
    ensures OrderInv(Next(cfg, s, QueueDestroy(l)))
  {
    InvLoop(cfg, s, l);
    RemovalIsErased(cfg, s, l);
    hide Inv, OrderInv, Next;
    var c := s.loops[l].pc.c;
    QueueDestroyShape(cfg, s, l);
    QueuedLifeKeeps(s, Next(cfg, s, QueueDestroy(l)), s.conns[c].loop, DestroyTask(c));
  }

  lemma AcceptShape(cfg: Config, s: State)
    requires Enabled(s, Accept) && s.nextId !in s.conns
    requires Next(cfg, s, Accept).conns[s.nextId].loop in s.loops
    ensures var t := Next(cfg, s, Accept);
            var l := t.conns[s.nextId].loop;
            && AllSameDead(s, t)
            && if l == BASE then SameLines(s, t) else QueuedLife(s, t, l, EstablishTask(s.nextId))
  {
  }

  lemma AcceptKeepsOrder(cfg: Config, s: State)
    requires cfg.Valid() && Inv(cfg, s) && OrderInv(s) && Enabled(s, Accept)
    ensures OrderInv(Next(cfg, s, Accept))
  {
    AcceptServer(cfg, s);
    hide Inv, ServerInv, Next, OrderInv;
    AcceptShape(cfg, s);
    var c, t := s.nextId, Next(cfg, s, Accept);
    if t.conns[c].loop == BASE {
      SameLinesKeep(s, t);
    } else {
      QueuedLifeKeeps(s, t, t.conns[c].loop, EstablishTask(c));
    }
  }

  lemma OtherStepsKeepLines(cfg: Config, s: State, a: Action)
    requires Enabled(s, a) && (a.StartBatch? ==> s.loops[a.l].batch == [])
    requires !a.Accept? && !a.NotifyClose? && !a.QueueDestroy? && !a.RunTask? && !a.PushFunctor?
    ensures SameLines(s, Next(cfg, s, a))
  {
  }

  lemma OtherStepsKillNone(cfg: Config, s: State, a: Action)
    requires Enabled(s, a) && !a.Accept? && !a.NotifyClose? && !a.QueueDestroy? && !a.RunTask? && !a.PushFunctor?
    ensures AllSameDead(s, Next(cfg, s, a))
  {
  }

  lemma OrderStep(cfg: Config, s: State, a: Action)
    requires cfg.Valid() && Inv(cfg, s) && OrderInv(s) && Enabled(s, a)
    ensures OrderInv(Next(cfg, s, a))
  {
    hide OrderInv, Next;
    match a
    case Accept => AcceptKeepsOrder(cfg, s);
    case NotifyClose(l) => NotifyKeepsOrder(cfg, s, l);
    case QueueDestroy(l) => QueueDestroyKeepsOrder(cfg, s, l);
    case RunTask(l) => RunTaskKeepsOrder(cfg, s, l);
    case PushFunctor(c, owns) => PushKeepsOrder(cfg, s, c, owns);
    case _ => OtherStepsKeepOrder(cfg, s, a);
  }

  lemma OtherStepsKeepOrder(cfg: Config, s: State, a: Action)
    requires Inv(cfg, s) && OrderInv(s) && Enabled(s, a)
    requires !a.Accept? && !a.NotifyClose? && !a.QueueDestroy? && !a.RunTask? && !a.PushFunctor?
    ensures OrderInv(Next(cfg, s, a))
  {
    hide OrderInv, Next;
    if a.StartBatch? {
      InvLoop(cfg, s, a.l);
    }
    hide Inv;
    OtherStepsKeepLines(cfg, s, a);
    OtherStepsKillNone(cfg, s, a);
    SameLinesKeep(s, Next(cfg, s, a));
  }

  lemma {:induction false} OrderHolds(cfg: Config, r: Run, i: nat)
    requires cfg.Valid() && IsRun(cfg, r) && i < |r.states|
    ensures OrderInv(r.states[i]) && Inv(cfg, r.states[i])
  {
    hide Inv, Next, Enabled;
    InvHolds(cfg, r, i);
    if i > 0 {
      OrderHolds(cfg, r, i - 1);
      hide OrderInv;
      OrderStep(cfg, r.states[i - 1], r.acts[i - 1]);
    }
  }
}
