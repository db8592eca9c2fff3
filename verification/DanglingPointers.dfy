/** Two runs of a server without I/O loops in which a pointer outlives the connection it points to. */
module DanglingPointers {
  import opened Common
  import opened Server
  import opened FunctorOrder
  import opened ServerTheorems
  import opened EventSlots
  import opened StaleEvents

  // ---------------------------------------------------------------- one connection's life

  const UP := ConnRec(BASE, Connected, true, true, [CameUp])
  const READY := UP.(life := [CameUp, Event])
  const DOWN := ConnRec(BASE, Disconnected, true, false, [CameUp, Event, WentDown])
  const GONE := ConnRec(BASE, Disconnected, false, false, [CameUp, Event, WentDown, Destroyed])

  /** The server that has accepted one connection. */
  function One(cfg: Config, lr: LoopRec, rec: ConnRec, mapped: bool): State {
    State(map[BASE := lr], map[1 := rec], if mapped then map[cfg.NameOf(1) := 1] else map[], 2, 0)
  }

  function Empty(lr: LoopRec): State {
    State(map[BASE := lr], map[], map[], 1, 0)
  }

  const HANDLING := LoopRec(Handling, [], [], [], [])
  const DESTROYING := LoopRec(Running, [], [], [DestroyTask(1)], [])

  /** One step from `s` to `t`, field by field. */
  predicate Goes(cfg: Config, s: State, a: Action, t: State) {
    && Enabled(s, a)
    && var n := Next(cfg, s, a);
       && n.loops == t.loops && n.conns == t.conns && n.connections == t.connections
       && n.nextId == t.nextId && n.next == t.next
  }

  const RUNNING := HANDLING.(pc := Running)
  const READABLE := HANDLING.(active := [1])
  const DISPATCHING := HANDLING.(pc := Dispatching(1))
  const CLOSING := HANDLING.(pc := Closing(1))
  const REMOVING := HANDLING.(pc := Removing(1, true))
  const CLOSED := HANDLING.(pc := Closed(1), queue := [DestroyTask(1)])
  const RETURNED := HANDLING.(queue := [DestroyTask(1)])

  lemma AcceptRuns(cfg: Config)
    requires cfg.ioLoops == []
    ensures Goes(cfg, Empty(HANDLING), Accept, One(cfg, HANDLING, UP, true))
  {
    assert [] + [CameUp] == UP.life;
  }

  lemma EmptyBatchRuns(cfg: Config)
    ensures Goes(cfg, One(cfg, HANDLING, UP, true), StartBatch(BASE), One(cfg, RUNNING, UP, true))
    ensures Goes(cfg, One(cfg, RUNNING, UP, true), EndBatch(BASE), One(cfg, IDLE_LOOP, UP, true))
  {
  }

  lemma DispatchCloses(cfg: Config)
    ensures Goes(cfg, One(cfg, READABLE, UP, true), Dispatch(BASE), One(cfg, DISPATCHING, READY, true))
    ensures Goes(cfg, One(cfg, DISPATCHING, READY, true), Close(BASE), One(cfg, CLOSING, DOWN, true))
  {
    assert READABLE.active[1..] == [] && UP.life + [Event] == READY.life;
    assert READY.life + [WentDown] == DOWN.life;
  }

  lemma CloseIsNotified(cfg: Config)
    ensures Goes(cfg, One(cfg, CLOSING, DOWN, true), NotifyClose(BASE), One(cfg, REMOVING, DOWN, false))
    ensures Goes(cfg, One(cfg, REMOVING, DOWN, false), QueueDestroy(BASE), One(cfg, CLOSED, DOWN, false))
  {
    assert [] + [DestroyTask(1)] == CLOSED.queue;
  }

  lemma BatchStarts(cfg: Config)
    ensures Goes(cfg, One(cfg, CLOSED, DOWN, false), Return(BASE), One(cfg, RETURNED, DOWN, false))
    ensures Goes(cfg, One(cfg, RETURNED, DOWN, false), StartBatch(BASE), One(cfg, DESTROYING, DOWN, false))
  {
  }

  lemma DestructionRuns(cfg: Config, queue: seq<Task>)
    ensures Goes(cfg, One(cfg, DESTROYING.(queue := queue), DOWN, false), RunTask(BASE),
                 One(cfg, LoopRec(Running, [], [DestroyTask(1)], [], queue), GONE, false))
    ensures Goes(cfg, One(cfg, LoopRec(Running, [], [DestroyTask(1)], [], queue), GONE, false), EndBatch(BASE),
                 One(cfg, IDLE_LOOP.(queue := queue), GONE, false))
  {
    assert DOWN.life + [Destroyed] == GONE.life;
    assert DESTROYING.batch[1..] == [] && [] + [DestroyTask(1)] == [DestroyTask(1)];
  }

  // ---------------------------------------------------------------- a functor with the bare `this`

  const BARE := FunctorTask(1, false, false)
  const BARE_WAITS := DESTROYING.(queue := [BARE])
  const BARE_NEXT := LoopRec(Running, [], [], [BARE], [])

  lemma PollsNothing(cfg: Config)
    requires cfg.ioLoops == []
    ensures Initial(cfg) == Empty(IDLE_LOOP)
    ensures Goes(cfg, Empty(IDLE_LOOP), Poll(BASE, []), Empty(HANDLING))
    ensures Goes(cfg, One(cfg, IDLE_LOOP, UP, true), Poll(BASE, [1]), One(cfg, READABLE, UP, true))
  {
    assert cfg.AllLoops() == {BASE};
  }

  lemma BareIsQueued(cfg: Config)
    ensures Goes(cfg, One(cfg, DESTROYING, DOWN, false), PushFunctor(1, false), One(cfg, BARE_WAITS, DOWN, false))
    ensures Owned(cfg, One(cfg, DESTROYING, DOWN, false), 1)
  {
    var s := One(cfg, DESTROYING, DOWN, false);
    assert [] + [BARE] == BARE_WAITS.queue;
    assert DestroyTask(1) in Line(s, BASE);
  }

  lemma BareBegins(cfg: Config)
    ensures Goes(cfg, One(cfg, IDLE_LOOP.(queue := [BARE]), GONE, false), Poll(BASE, []),
                 One(cfg, HANDLING.(queue := [BARE]), GONE, false))
    ensures Goes(cfg, One(cfg, HANDLING.(queue := [BARE]), GONE, false), StartBatch(BASE),
                 One(cfg, BARE_NEXT, GONE, false))
    ensures var s := One(cfg, BARE_NEXT, GONE, false);
            Enabled(s, RunTask(BASE)) && s.loops[BASE].batch[0] == BARE && !Owned(cfg, s, 1)
  {
    var s := One(cfg, BARE_NEXT, GONE, false);
    assert Line(s, BASE) == [BARE];
  }

  lemma Extended(cfg: Config, r: Run, a: Action, t: State) returns (e: Run)
    requires IsRun(cfg, r) && Goes(cfg, r.states[|r.states| - 1], a, t)
    ensures IsRun(cfg, e) && e == Run(r.states + [t], r.acts + [a])
  {
    hide Enabled;
    assert Next(cfg, r.states[|r.states| - 1], a) == t;
    hide Next, Goes;
    e := Run(r.states + [t], r.acts + [a]);
  }

  lemma RunToDispatch(cfg: Config) returns (r: Run)
    requires cfg.ioLoops == []
    ensures IsRun(cfg, r) && |r.acts| == 6 && |r.states| == 7 && r.states[6] == One(cfg, DISPATCHING, READY, true)
  {
    PollsNothing(cfg);
    AcceptRuns(cfg);
    EmptyBatchRuns(cfg);
    DispatchCloses(cfg);
    r := Run([Empty(IDLE_LOOP)], []);
    hide Goes, One, IsRun;
    r := Extended(cfg, r, Poll(BASE, []), Empty(HANDLING));
    r := Extended(cfg, r, Accept, One(cfg, HANDLING, UP, true));
    r := Extended(cfg, r, StartBatch(BASE), One(cfg, RUNNING, UP, true));
    r := Extended(cfg, r, EndBatch(BASE), One(cfg, IDLE_LOOP, UP, true));
    r := Extended(cfg, r, Poll(BASE, [1]), One(cfg, READABLE, UP, true));
    r := Extended(cfg, r, Dispatch(BASE), One(cfg, DISPATCHING, READY, true));
  }

  lemma RunToDestruction(cfg: Config) returns (r: Run)
    requires cfg.ioLoops == []
    ensures IsRun(cfg, r) && |r.acts| == 11 && |r.states| == 12 && r.states[11] == One(cfg, DESTROYING, DOWN, false)
  {
    DispatchCloses(cfg);
    CloseIsNotified(cfg);
    BatchStarts(cfg);
    hide Goes, One, IsRun;
    r := RunToDispatch(cfg);
    r := Extended(cfg, r, Close(BASE), One(cfg, CLOSING, DOWN, true));
    r := Extended(cfg, r, NotifyClose(BASE), One(cfg, REMOVING, DOWN, false));
    r := Extended(cfg, r, QueueDestroy(BASE), One(cfg, CLOSED, DOWN, false));
    r := Extended(cfg, r, Return(BASE), One(cfg, RETURNED, DOWN, false));
    r := Extended(cfg, r, StartBatch(BASE), One(cfg, DESTROYING, DOWN, false));
  }

  /** An off-loop send, preempted after it found the connection up, queues its functor while the
      connection's destruction waits in the batch: the connection is owned when the functor is queued, and
      no longer when it begins. */
  lemma BareFunctorFindsItGone(cfg: Config)
    requires cfg.ioLoops == []
    ensures exists r, i: nat, n: nat ::
              && IsRun(cfg, r) && i < n < |r.states|
              && r.acts[i] == PushFunctor(1, false) && Owned(cfg, r.states[i], 1)
              && Enabled(r.states[n], RunTask(BASE)) && r.states[n].loops[BASE].batch[0] == BARE
              && !Owned(cfg, r.states[n], 1)
  {
    BareIsQueued(cfg);
    DestructionRuns(cfg, [BARE]);
    BareBegins(cfg);
    hide Goes, One, IsRun, Owned, Enabled;
    var r := RunToDestruction(cfg);
    r := Extended(cfg, r, PushFunctor(1, false), One(cfg, BARE_WAITS, DOWN, false));
    r := Extended(cfg, r, RunTask(BASE), One(cfg, LoopRec(Running, [], [DestroyTask(1)], [], [BARE]), GONE, false));
    r := Extended(cfg, r, EndBatch(BASE), One(cfg, IDLE_LOOP.(queue := [BARE]), GONE, false));
    r := Extended(cfg, r, Poll(BASE, []), One(cfg, HANDLING.(queue := [BARE]), GONE, false));
    r := Extended(cfg, r, StartBatch(BASE), One(cfg, BARE_NEXT, GONE, false));
    var i: nat, n: nat := 11, 16;
    assert r.acts[i] == PushFunctor(1, false) && r.states[i] == One(cfg, DESTROYING, DOWN, false);
    assert r.states[n] == One(cfg, BARE_NEXT, GONE, false);
    assert IsRun(cfg, r) && i < n < |r.states|;
  }

  // ---------------------------------------------------------------- a stale slot

  const NO_EVENTS: seq<Entry> := seq(INITIAL_SLOTS, _ => Null)
  const FIRST_EVENT := [Other] + NO_EVENTS[1..]
  const TWO_EVENTS := [Other, Of(1)] + NO_EVENTS[2..]

  function With(s: State, slots: seq<Entry>): Slotted {
    Slotted(s, map[BASE := slots])
  }

  predicate Reports(cfg: Config, s: Slotted, reported: seq<Entry>, t: Slotted) {
    CanDo(s, Report(BASE, reported)) && Do(cfg, s, Report(BASE, reported)) == t
  }

  lemma {:induction false} NoConns(entries: seq<Entry>)
    requires forall i :: 0 <= i < |entries| ==> !entries[i].Of?
    ensures Conns(entries) == []
  {
    if entries != [] {
      NoConns(entries[1..]);
    }
  }

  lemma SlotValues()
    ensures Conns([Other]) == [] && Conns(FIRST_EVENT) == []
    ensures Conns([Other, Of(1)]) == [1] && Conns(TWO_EVENTS) == [1]
    ensures Filled([Other], NO_EVENTS) == FIRST_EVENT
    ensures Filled([Other, Of(1)], FIRST_EVENT) == TWO_EVENTS
    ensures Filled([Other], TWO_EVENTS) == TWO_EVENTS
  {
    NoConns([Other]);
    NoConns(FIRST_EVENT);
    NoConns(NO_EVENTS[2..]);
    assert [Other, Of(1)][1..] == [Of(1)] && [Of(1)][1..] == [];
    assert TWO_EVENTS[1..] == [Of(1)] + NO_EVENTS[2..] && TWO_EVENTS[1..][1..] == NO_EVENTS[2..];
  }

  lemma StartsIdle(cfg: Config)
    requires cfg.ioLoops == []
    ensures Start(cfg) == With(Empty(IDLE_LOOP), NO_EVENTS)
  {
    assert cfg.AllLoops() == {BASE};
  }

  lemma AcceptEventReported(cfg: Config)
    ensures Reports(cfg, With(Empty(IDLE_LOOP), NO_EVENTS), [Other], With(Empty(HANDLING), FIRST_EVENT))
  {
    SlotValues();
    hide Conns, Filled;
    assert Activate(Empty(IDLE_LOOP), BASE, []).loops == Empty(HANDLING).loops;
  }

  lemma ConnectionEventReported(cfg: Config)
    ensures Reports(cfg, With(One(cfg, IDLE_LOOP, UP, true), FIRST_EVENT), [Other, Of(1)],
                    With(One(cfg, READABLE, UP, true), TWO_EVENTS))
  {
    SlotValues();
    hide Conns, Filled;
    assert Activate(One(cfg, IDLE_LOOP, UP, true), BASE, [1]).loops == One(cfg, READABLE, UP, true).loops;
  }

  lemma StaleEventFollows(cfg: Config)
    ensures Reports(cfg, With(One(cfg, IDLE_LOOP, GONE, false), TWO_EVENTS), [Other],
                    With(One(cfg, READABLE, GONE, false), TWO_EVENTS))
    ensures var s := With(One(cfg, READABLE, GONE, false), TWO_EVENTS);
            CanDo(s, Plain(Dispatch(BASE))) && s.server.loops[BASE].active == [1] && !Owned(cfg, s.server, 1)
  {
    SlotValues();
    hide Conns, Filled;
    assert Activate(One(cfg, IDLE_LOOP, GONE, false), BASE, [1]).loops == One(cfg, READABLE, GONE, false).loops;
  }

  lemma Reported(cfg: Config, r: SlotRun, reported: seq<Entry>, t: Slotted) returns (e: SlotRun)
    requires IsSlotRun(cfg, r) && Reports(cfg, r.states[|r.states| - 1], reported, t)
    ensures IsSlotRun(cfg, e) && e == SlotRun(r.states + [t], r.acts + [Report(BASE, reported)])
  {
    hide CanDo, Do;
    e := SlotRun(r.states + [t], r.acts + [Report(BASE, reported)]);
  }

  lemma Played(cfg: Config, r: SlotRun, slots: seq<Entry>, s: State, a: Action, t: State) returns (e: SlotRun)
    requires IsSlotRun(cfg, r) && r.states[|r.states| - 1] == With(s, slots) && Goes(cfg, s, a, t) && !a.Poll?
    ensures IsSlotRun(cfg, e) && e == SlotRun(r.states + [With(t, slots)], r.acts + [Plain(a)])
  {
    hide Enabled;
    assert Next(cfg, s, a) == t;
    hide Next, Goes;
    assert CanDo(With(s, slots), Plain(a)) && Do(cfg, With(s, slots), Plain(a)) == With(t, slots);
    hide CanDo, Do;
    e := SlotRun(r.states + [With(t, slots)], r.acts + [Plain(a)]);
  }

  lemma SlotRunToDispatch(cfg: Config) returns (r: SlotRun)
    requires cfg.ioLoops == []
    ensures IsSlotRun(cfg, r) && |r.states| == 7 && r.states[6] == With(One(cfg, DISPATCHING, READY, true), TWO_EVENTS)
  {
    StartsIdle(cfg);
    AcceptEventReported(cfg);
    AcceptRuns(cfg);
    EmptyBatchRuns(cfg);
    ConnectionEventReported(cfg);
    DispatchCloses(cfg);
    r := SlotRun([With(Empty(IDLE_LOOP), NO_EVENTS)], []);
    hide Goes, Reports, One, With, IsSlotRun;
    r := Reported(cfg, r, [Other], With(Empty(HANDLING), FIRST_EVENT));
    r := Played(cfg, r, FIRST_EVENT, Empty(HANDLING), Accept, One(cfg, HANDLING, UP, true));
    r := Played(cfg, r, FIRST_EVENT, One(cfg, HANDLING, UP, true), StartBatch(BASE), One(cfg, RUNNING, UP, true));
    r := Played(cfg, r, FIRST_EVENT, One(cfg, RUNNING, UP, true), EndBatch(BASE), One(cfg, IDLE_LOOP, UP, true));
    r := Reported(cfg, r, [Other, Of(1)], With(One(cfg, READABLE, UP, true), TWO_EVENTS));
    r := Played(cfg, r, TWO_EVENTS, One(cfg, READABLE, UP, true), Dispatch(BASE), One(cfg, DISPATCHING, READY, true));
  }

  lemma SlotRunToDestruction(cfg: Config) returns (r: SlotRun)
    requires cfg.ioLoops == []
    ensures IsSlotRun(cfg, r) && |r.states| == 12 && r.states[11] == With(One(cfg, DESTROYING, DOWN, false), TWO_EVENTS)
  {
    DispatchCloses(cfg);
    CloseIsNotified(cfg);
    BatchStarts(cfg);
    hide Goes, Reports, One, With, IsSlotRun;
    r := SlotRunToDispatch(cfg);
    r := Played(cfg, r, TWO_EVENTS, One(cfg, DISPATCHING, READY, true), Close(BASE), One(cfg, CLOSING, DOWN, true));
    r := Played(cfg, r, TWO_EVENTS, One(cfg, CLOSING, DOWN, true), NotifyClose(BASE), One(cfg, REMOVING, DOWN, false));
    r := Played(cfg, r, TWO_EVENTS, One(cfg, REMOVING, DOWN, false), QueueDestroy(BASE), One(cfg, CLOSED, DOWN, false));
    r := Played(cfg, r, TWO_EVENTS, One(cfg, CLOSED, DOWN, false), Return(BASE), One(cfg, RETURNED, DOWN, false));
    r := Played(cfg, r, TWO_EVENTS, One(cfg, RETURNED, DOWN, false), StartBatch(BASE),
                One(cfg, DESTROYING, DOWN, false));
  }

  /** Passing over the null pointers would not be enough: with one connection accepted, closed and
      destroyed, the next event on the listening socket activates the slot behind its own, and the loop
      dispatches a channel whose connection nobody owns any more. */
  lemma StaleChannelIsDispatched(cfg: Config)
    requires cfg.ioLoops == []
    ensures exists r, n: nat ::
              && IsSlotRun(cfg, r) && n < |r.states| && CanDo(r.states[n], Plain(Dispatch(BASE)))
              && r.states[n].server.loops[BASE].active == [1] && !Owned(cfg, r.states[n].server, 1)
  {
    DestructionRuns(cfg, []);
    StaleEventFollows(cfg);
    var last := LoopRec(Running, [], [DestroyTask(1)], [], []);
    hide Goes, Reports, One, With, IsSlotRun, Owned, CanDo;
    var r := SlotRunToDestruction(cfg);
    r := Played(cfg, r, TWO_EVENTS, One(cfg, DESTROYING, DOWN, false), RunTask(BASE), One(cfg, last, GONE, false));
    r := Played(cfg, r, TWO_EVENTS, One(cfg, last, GONE, false), EndBatch(BASE), One(cfg, IDLE_LOOP, GONE, false));
    r := Reported(cfg, r, [Other], With(One(cfg, READABLE, GONE, false), TWO_EVENTS));
    var n: nat := 14;
    assert r.states[n] == With(One(cfg, READABLE, GONE, false), TWO_EVENTS);
    assert IsSlotRun(cfg, r) && n < |r.states|;
  }
}
