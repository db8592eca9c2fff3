/** Runs of a server in which a set of `state_` comes too late. */
module LateRuns {
  import opened Common
  import opened RoundRobin
  import opened Server
  import opened FunctorOrder
  import opened ServerTheorems
  import opened DanglingPointers
  import opened LateShutdown
  import opened LateTheorems

  // ---------------------------------------------------------------- the destructor's assert

  const LATE_DOWN := DOWN.(state := Disconnecting)
  const LATE_GONE := GONE.(state := Disconnecting)
  const DESTROYED := LoopRec(Running, [], [DestroyTask(1)], [], [])

  lemma LateDestructionRuns(cfg: Config)
    ensures Goes(cfg, One(cfg, DESTROYING, LATE_DOWN, false), RunTask(BASE), One(cfg, DESTROYED, LATE_GONE, false))
  {
    assert LATE_DOWN.life + [Destroyed] == LATE_GONE.life;
    assert DESTROYING.batch[1..] == [] && [] + [DestroyTask(1)] == [DestroyTask(1)];
  }

  lemma LateBatchEnds(cfg: Config)
    ensures Goes(cfg, One(cfg, DESTROYED, LATE_GONE, false), EndBatch(BASE), One(cfg, IDLE_LOOP, LATE_GONE, false))
    ensures !Owned(cfg, One(cfg, IDLE_LOOP, LATE_GONE, false), 1)
  {
  }

  lemma RacePlayed(cfg: Config, r: RaceRun, tested: multiset<ConnId>, s: State, a: Action, t: State)
    returns (e: RaceRun)
    requires IsRaceRun(cfg, r) && r.states[|r.states| - 1] == Racing(s, tested) && Goes(cfg, s, a, t)
    requires !a.Shutdown?
    ensures IsRaceRun(cfg, e) && e == RaceRun(r.states + [Racing(t, tested)], r.acts + [Plain(a)])
  {
    hide Enabled;
    assert Next(cfg, s, a) == t;
    hide Next, Goes;
    assert CanDo(Racing(s, tested), Plain(a)) && Do(cfg, Racing(s, tested), Plain(a)) == Racing(t, tested);
    hide CanDo, Do;
    e := RaceRun(r.states + [Racing(t, tested)], r.acts + [Plain(a)]);
  }

  lemma RaceToDispatch(cfg: Config) returns (r: RaceRun)
    requires cfg.ioLoops == []
    ensures IsRaceRun(cfg, r) && r.states != []
    ensures r.states[|r.states| - 1] == Racing(One(cfg, DISPATCHING, READY, true), multiset{1})
  {
    PollsNothing(cfg);
    AcceptRuns(cfg);
    EmptyBatchRuns(cfg);
    DispatchCloses(cfg);
    ghost var none: multiset<ConnId> := multiset{};
    r := RaceRun([Racing(Empty(IDLE_LOOP), none)], []);
    assert IsRaceRun(cfg, r);
    r := RacePlayed(cfg, r, none, Empty(IDLE_LOOP), Poll(BASE, []), Empty(HANDLING));
    r := RacePlayed(cfg, r, none, Empty(HANDLING), Accept, One(cfg, HANDLING, UP, true));
    r := Tested(cfg, r);
    hide Goes, One, IsRaceRun;
    r := RacePlayed(cfg, r, multiset{1}, One(cfg, HANDLING, UP, true), StartBatch(BASE), One(cfg, RUNNING, UP, true));
    r := RacePlayed(cfg, r, multiset{1}, One(cfg, RUNNING, UP, true), EndBatch(BASE), One(cfg, IDLE_LOOP, UP, true));
    r := RacePlayed(cfg, r, multiset{1}, One(cfg, IDLE_LOOP, UP, true), Poll(BASE, [1]), One(cfg, READABLE, UP, true));
    r := RacePlayed(cfg, r, multiset{1}, One(cfg, READABLE, UP, true), Dispatch(BASE),
                    One(cfg, DISPATCHING, READY, true));
  }

  lemma Tested(cfg: Config, r: RaceRun) returns (e: RaceRun)
    requires IsRaceRun(cfg, r) && r.states[|r.states| - 1] == Racing(One(cfg, HANDLING, UP, true), multiset{})
    ensures IsRaceRun(cfg, e) && e.states == r.states + [Racing(One(cfg, HANDLING, UP, true), multiset{1})]
  {
    hide Enabled, Next;
    e := RaceRun(r.states + [Racing(One(cfg, HANDLING, UP, true), multiset{1})], r.acts + [Test(1)]);
  }

  lemma SetTooLate(cfg: Config, r: RaceRun) returns (e: RaceRun)
    requires IsRaceRun(cfg, r) && r.states[|r.states| - 1] == Racing(One(cfg, DESTROYING, DOWN, false), multiset{1})
    ensures IsRaceRun(cfg, e) && e.states == r.states + [Racing(One(cfg, DESTROYING, LATE_DOWN, false), multiset{})]
  {
    hide Enabled, Next;
    assert Update(One(cfg, DESTROYING, DOWN, false), 1, LATE_DOWN) == One(cfg, DESTROYING, LATE_DOWN, false);
    e := RaceRun(r.states + [Racing(One(cfg, DESTROYING, LATE_DOWN, false), multiset{})], r.acts + [SetState(1)]);
  }

  /** A thread tests while the connection is up; an event closes it; while its destruction waits in the batch
      the thread sets.  When nobody owns the connection any more it is Disconnecting, and the destructor's
      assert fails. */
  lemma DestructorAssertFails(cfg: Config)
    requires cfg.ioLoops == []
    ensures exists r, n: nat ::
              && IsRaceRun(cfg, r) && n < |r.states| && 1 in r.states[n].server.conns
              && !Owned(cfg, r.states[n].server, 1) && r.states[n].server.conns[1].state.Disconnecting?
  {
    DispatchCloses(cfg);
    CloseIsNotified(cfg);
    BatchStarts(cfg);
    LateDestructionRuns(cfg);
    LateBatchEnds(cfg);
    var last := Racing(One(cfg, IDLE_LOOP, LATE_GONE, false), multiset{});
    assert 1 in last.server.conns && last.server.conns[1].state.Disconnecting?;
    hide Goes, One, IsRaceRun, Owned;
    var up := multiset{1};
    var r := RaceToDispatch(cfg);
    r := RacePlayed(cfg, r, up, One(cfg, DISPATCHING, READY, true), Close(BASE), One(cfg, CLOSING, DOWN, true));
    r := RacePlayed(cfg, r, up, One(cfg, CLOSING, DOWN, true), NotifyClose(BASE), One(cfg, REMOVING, DOWN, false));
    r := RacePlayed(cfg, r, up, One(cfg, REMOVING, DOWN, false), QueueDestroy(BASE), One(cfg, CLOSED, DOWN, false));
    r := RacePlayed(cfg, r, up, One(cfg, CLOSED, DOWN, false), Return(BASE), One(cfg, RETURNED, DOWN, false));
    r := RacePlayed(cfg, r, up, One(cfg, RETURNED, DOWN, false), StartBatch(BASE), One(cfg, DESTROYING, DOWN, false));
    r := SetTooLate(cfg, r);
    var none: multiset<ConnId> := multiset{};
    r := RacePlayed(cfg, r, none, One(cfg, DESTROYING, LATE_DOWN, false), RunTask(BASE),
                    One(cfg, DESTROYED, LATE_GONE, false));
    r := RacePlayed(cfg, r, none, One(cfg, DESTROYED, LATE_GONE, false), EndBatch(BASE),
                    One(cfg, IDLE_LOOP, LATE_GONE, false));
    var n: nat := |r.states| - 1;
    assert r.states[n] == last;
    assert IsRaceRun(cfg, r) && n < |r.states|;
  }

  // ---------------------------------------------------------------- a second close

  /** The one I/O loop. */
  const IO: LoopId := 1

  /** The server with one I/O loop that has accepted one connection. */
  function Two(cfg: Config, base: LoopRec, io: LoopRec, rec: ConnRec, mapped: bool): State {
    State(map[BASE := base, IO := io], map[1 := rec], if mapped then map[cfg.NameOf(1) := 1] else map[], 2, 0)
  }

  function TwoEmpty(base: LoopRec, io: LoopRec): State {
    State(map[BASE := base, IO := io], map[], map[], 1, 0)
  }

  const SEND := FunctorTask(1, false, true)

  const NEW := ConnRec(IO, Connecting, false, false, [])
  const IO_UP := ConnRec(IO, Connected, true, true, [CameUp])
  const IO_READY := IO_UP.(life := [CameUp, Event])
  const IO_DOWN := ConnRec(IO, Disconnected, true, false, [CameUp, Event, WentDown])
  const IO_LATE := IO_DOWN.(state := Disconnecting)
  const IO_AGAIN := IO_LATE.(watched := true)
  const IO_HUNG := IO_AGAIN.(life := [CameUp, Event, WentDown, Event])
  const IO_TWICE := ConnRec(IO, Disconnected, true, false, [CameUp, Event, WentDown, Event, WentDown])
  const IO_GONE := ConnRec(IO, Disconnected, false, false, [CameUp, Event, WentDown, Event, WentDown, Destroyed])

  const SENDING := HANDLING.(queue := [SEND])
  const REMOVE_WAITS := HANDLING.(queue := [RemoveTask(1)])

  lemma AcceptsOnIo(cfg: Config)
    requires cfg.ioLoops == [IO]
    ensures Initial(cfg) == TwoEmpty(IDLE_LOOP, IDLE_LOOP)
    ensures Goes(cfg, TwoEmpty(IDLE_LOOP, IDLE_LOOP), Poll(BASE, []), TwoEmpty(HANDLING, IDLE_LOOP))
    ensures Goes(cfg, TwoEmpty(HANDLING, IDLE_LOOP), Accept,
                 Two(cfg, HANDLING, IDLE_LOOP.(queue := [EstablishTask(1)]), NEW, true))
  {
    assert cfg.AllLoops() == {BASE, IO};
    assert [] + [EstablishTask(1)] == [EstablishTask(1)];
  }

  lemma EstablishesOnIo(cfg: Config)
    ensures Goes(cfg, Two(cfg, HANDLING, IDLE_LOOP.(queue := [EstablishTask(1)]), NEW, true), Poll(IO, []),
                 Two(cfg, HANDLING, HANDLING.(queue := [EstablishTask(1)]), NEW, true))
    ensures Goes(cfg, Two(cfg, HANDLING, HANDLING.(queue := [EstablishTask(1)]), NEW, true), StartBatch(IO),
                 Two(cfg, HANDLING, LoopRec(Running, [], [], [EstablishTask(1)], []), NEW, true))
  {
  }

  lemma ComesUpOnIo(cfg: Config)
    ensures Goes(cfg, Two(cfg, HANDLING, LoopRec(Running, [], [], [EstablishTask(1)], []), NEW, true), RunTask(IO),
                 Two(cfg, HANDLING, LoopRec(Running, [], [EstablishTask(1)], [], []), IO_UP, true))
  {
    assert [EstablishTask(1)][1..] == [] && [] + [EstablishTask(1)] == [EstablishTask(1)];
    assert NEW.life + [CameUp] == IO_UP.life;
  }

  lemma EndsFirstBatch(cfg: Config)
    ensures Goes(cfg, Two(cfg, HANDLING, LoopRec(Running, [], [EstablishTask(1)], [], []), IO_UP, true), EndBatch(IO),
                 Two(cfg, HANDLING, IDLE_LOOP, IO_UP, true))
  {
  }

  /** An off-loop send is queued while the connection is up, and then an event comes. */
  lemma SendIsQueued(cfg: Config)
    ensures Goes(cfg, Two(cfg, HANDLING, IDLE_LOOP, IO_UP, true), PushFunctor(1, false),
                 Two(cfg, HANDLING, IDLE_LOOP.(queue := [SEND]), IO_UP, true))
    ensures Goes(cfg, Two(cfg, HANDLING, IDLE_LOOP.(queue := [SEND]), IO_UP, true), Poll(IO, [1]),
                 Two(cfg, HANDLING, SENDING.(active := [1]), IO_UP, true))
    ensures Goes(cfg, Two(cfg, HANDLING, SENDING.(active := [1]), IO_UP, true), Dispatch(IO),
                 Two(cfg, HANDLING, SENDING.(pc := Dispatching(1)), IO_READY, true))
  {
    assert [] + [SEND] == [SEND] && [1][1..] == [];
    assert IO_UP.life + [Event] == IO_READY.life;
  }

  lemma ClosesOnIo(cfg: Config)
    ensures Goes(cfg, Two(cfg, HANDLING, SENDING.(pc := Dispatching(1)), IO_READY, true), Close(IO),
                 Two(cfg, HANDLING, SENDING.(pc := Closing(1)), IO_DOWN, true))
    ensures Goes(cfg, Two(cfg, HANDLING, SENDING.(pc := Closing(1)), IO_DOWN, true), NotifyClose(IO),
                 Two(cfg, REMOVE_WAITS, SENDING.(pc := Closed(1)), IO_DOWN, true))
    ensures Goes(cfg, Two(cfg, REMOVE_WAITS, SENDING.(pc := Closed(1)), IO_DOWN, true), Return(IO),
                 Two(cfg, REMOVE_WAITS, SENDING, IO_DOWN, true))
  {
    assert IO_READY.life + [WentDown] == IO_DOWN.life;
    assert [] + [RemoveTask(1)] == [RemoveTask(1)];
  }

  lemma SendIsNext(cfg: Config)
    ensures Goes(cfg, Two(cfg, REMOVE_WAITS, SENDING, IO_LATE, true), StartBatch(IO),
                 Two(cfg, REMOVE_WAITS, LoopRec(Running, [], [], [SEND], []), IO_LATE, true))
  {
  }

  /** The socket does not take the message: the channel is watched again, and hung up. */
  lemma SendReopens(cfg: Config, tested: multiset<ConnId>)
    ensures var s := Racing(Two(cfg, REMOVE_WAITS, LoopRec(Running, [], [], [SEND], []), IO_LATE, true), tested);
            && CanDo(s, Resend(IO))
            && Do(cfg, s, Resend(IO)) ==
               Racing(Two(cfg, REMOVE_WAITS, LoopRec(Running, [], [SEND], [], []), IO_AGAIN, true), tested)
  {
    var s := Two(cfg, REMOVE_WAITS, LoopRec(Running, [], [], [SEND], []), IO_LATE, true);
    var t := Two(cfg, REMOVE_WAITS, LoopRec(Running, [], [SEND], [], []), IO_LATE, true);
    assert [SEND][1..] == [] && [] + [SEND] == [SEND];
    assert Goes(cfg, s, RunTask(IO), t);
    assert Next(cfg, s, RunTask(IO)) == t;
    assert t.conns[1 := IO_AGAIN] == map[1 := IO_AGAIN];
  }

  lemma HangsUpAgain(cfg: Config)
    ensures Goes(cfg, Two(cfg, REMOVE_WAITS, LoopRec(Running, [], [SEND], [], []), IO_AGAIN, true), EndBatch(IO),
                 Two(cfg, REMOVE_WAITS, IDLE_LOOP, IO_AGAIN, true))
    ensures Goes(cfg, Two(cfg, REMOVE_WAITS, IDLE_LOOP, IO_AGAIN, true), Poll(IO, [1]),
                 Two(cfg, REMOVE_WAITS, HANDLING.(active := [1]), IO_AGAIN, true))
    ensures Goes(cfg, Two(cfg, REMOVE_WAITS, HANDLING.(active := [1]), IO_AGAIN, true), Dispatch(IO),
                 Two(cfg, REMOVE_WAITS, HANDLING.(pc := Dispatching(1)), IO_HUNG, true))
  {
    assert [1][1..] == [] && IO_AGAIN.life + [Event] == IO_HUNG.life;
  }

  lemma ClosesAgain(cfg: Config)
    ensures Goes(cfg, Two(cfg, REMOVE_WAITS, HANDLING.(pc := Dispatching(1)), IO_HUNG, true), Close(IO),
                 Two(cfg, REMOVE_WAITS, HANDLING.(pc := Closing(1)), IO_TWICE, true))
  {
    assert IO_HUNG.life + [WentDown] == IO_TWICE.life;
  }

  lemma UpDownDown()
    ensures Callbacks(IO_TWICE.life) == [CameUp, WentDown, WentDown]
  {
    CallbacksOf(IO_TWICE.life);
    assert seq(2, _ => WentDown) == [WentDown, WentDown];
  }

  lemma RaceStarts(cfg: Config) returns (r: RaceRun)
    requires cfg.ioLoops == [IO]
    ensures IsRaceRun(cfg, r) && r.states == [Racing(TwoEmpty(IDLE_LOOP, IDLE_LOOP), multiset{})]
  {
    AcceptsOnIo(cfg);
    r := RaceRun([Racing(TwoEmpty(IDLE_LOOP, IDLE_LOOP), multiset{})], []);
  }

  lemma TestedOnIo(cfg: Config, r: RaceRun) returns (e: RaceRun)
    requires IsRaceRun(cfg, r) && r.states != []
    requires r.states[|r.states| - 1] == Racing(Two(cfg, HANDLING, IDLE_LOOP, IO_UP, true), multiset{})
    ensures IsRaceRun(cfg, e)
    ensures e.states == r.states + [Racing(Two(cfg, HANDLING, IDLE_LOOP, IO_UP, true), multiset{1})]
  {
    hide Enabled, Next;
    e := RaceRun(r.states + [Racing(Two(cfg, HANDLING, IDLE_LOOP, IO_UP, true), multiset{1})], r.acts + [Test(1)]);
  }

  lemma SetLateOnIo(cfg: Config, r: RaceRun) returns (e: RaceRun)
    requires IsRaceRun(cfg, r) && r.states != []
    requires r.states[|r.states| - 1] == Racing(Two(cfg, REMOVE_WAITS, SENDING, IO_DOWN, true), multiset{1})
    ensures IsRaceRun(cfg, e)
    ensures e.states == r.states + [Racing(Two(cfg, REMOVE_WAITS, SENDING, IO_LATE, true), multiset{})]
  {
    hide Enabled, Next;
    var s := Two(cfg, REMOVE_WAITS, SENDING, IO_DOWN, true);
    assert Update(s, 1, IO_LATE) == Two(cfg, REMOVE_WAITS, SENDING, IO_LATE, true);
    var late := Racing(Two(cfg, REMOVE_WAITS, SENDING, IO_LATE, true), multiset{});
    e := RaceRun(r.states + [late], r.acts + [SetState(1)]);
  }

  lemma ResentOnIo(cfg: Config, r: RaceRun) returns (e: RaceRun)
    requires IsRaceRun(cfg, r) && r.states != []
    requires r.states[|r.states| - 1] ==
             Racing(Two(cfg, REMOVE_WAITS, LoopRec(Running, [], [], [SEND], []), IO_LATE, true), multiset{})
    ensures IsRaceRun(cfg, e)
    ensures e.states == r.states +
              [Racing(Two(cfg, REMOVE_WAITS, LoopRec(Running, [], [SEND], [], []), IO_AGAIN, true), multiset{})]
  {
    SendReopens(cfg, multiset{});
    hide CanDo, Do;
    var t := Racing(Two(cfg, REMOVE_WAITS, LoopRec(Running, [], [SEND], [], []), IO_AGAIN, true), multiset{});
    e := RaceRun(r.states + [t], r.acts + [Resend(IO)]);
  }

  /** Accepted, established, tested by a thread, and a send queued. */
  lemma RunToSend(cfg: Config) returns (r: RaceRun)
    requires cfg.ioLoops == [IO]
    ensures IsRaceRun(cfg, r) && r.states != []
    ensures r.states[|r.states| - 1] ==
            Racing(Two(cfg, HANDLING, IDLE_LOOP.(queue := [SEND]), IO_UP, true), multiset{1})
  {
    AcceptsOnIo(cfg);
    EstablishesOnIo(cfg);
    ComesUpOnIo(cfg);
    EndsFirstBatch(cfg);
    SendIsQueued(cfg);
    hide Goes, IsRaceRun, Two, TwoEmpty;
    var none: multiset<ConnId> := multiset{};
    var accepted := IDLE_LOOP.(queue := [EstablishTask(1)]);
    var handling := HANDLING.(queue := [EstablishTask(1)]);
    var begins := LoopRec(Running, [], [], [EstablishTask(1)], []);
    var begun := LoopRec(Running, [], [EstablishTask(1)], [], []);
    r := RaceStarts(cfg);
    r := RacePlayed(cfg, r, none, TwoEmpty(IDLE_LOOP, IDLE_LOOP), Poll(BASE, []), TwoEmpty(HANDLING, IDLE_LOOP));
    r := RacePlayed(cfg, r, none, TwoEmpty(HANDLING, IDLE_LOOP), Accept, Two(cfg, HANDLING, accepted, NEW, true));
    r := RacePlayed(cfg, r, none, Two(cfg, HANDLING, accepted, NEW, true), Poll(IO, []),
                    Two(cfg, HANDLING, handling, NEW, true));
    r := RacePlayed(cfg, r, none, Two(cfg, HANDLING, handling, NEW, true), StartBatch(IO),
                    Two(cfg, HANDLING, begins, NEW, true));
    r := RacePlayed(cfg, r, none, Two(cfg, HANDLING, begins, NEW, true), RunTask(IO),
                    Two(cfg, HANDLING, begun, IO_UP, true));
    r := RacePlayed(cfg, r, none, Two(cfg, HANDLING, begun, IO_UP, true), EndBatch(IO),
                    Two(cfg, HANDLING, IDLE_LOOP, IO_UP, true));
    r := TestedOnIo(cfg, r);
    r := RacePlayed(cfg, r, multiset{1}, Two(cfg, HANDLING, IDLE_LOOP, IO_UP, true), PushFunctor(1, false),
                    Two(cfg, HANDLING, IDLE_LOOP.(queue := [SEND]), IO_UP, true));
  }

  /** Closed by an event, set late, and the queued send about to begin. */
  lemma RunToResend(cfg: Config) returns (r: RaceRun)
    requires cfg.ioLoops == [IO]
    ensures IsRaceRun(cfg, r) && r.states != []
    ensures r.states[|r.states| - 1] ==
            Racing(Two(cfg, REMOVE_WAITS, LoopRec(Running, [], [SEND], [], []), IO_AGAIN, true), multiset{})
  {
    SendIsQueued(cfg);
    ClosesOnIo(cfg);
    SendIsNext(cfg);
    hide Goes, IsRaceRun, Two;
    var up := multiset{1};
    r := RunToSend(cfg);
    r := RacePlayed(cfg, r, up, Two(cfg, HANDLING, IDLE_LOOP.(queue := [SEND]), IO_UP, true), Poll(IO, [1]),
                    Two(cfg, HANDLING, SENDING.(active := [1]), IO_UP, true));
    r := RacePlayed(cfg, r, up, Two(cfg, HANDLING, SENDING.(active := [1]), IO_UP, true), Dispatch(IO),
                    Two(cfg, HANDLING, SENDING.(pc := Dispatching(1)), IO_READY, true));
    r := RacePlayed(cfg, r, up, Two(cfg, HANDLING, SENDING.(pc := Dispatching(1)), IO_READY, true), Close(IO),
                    Two(cfg, HANDLING, SENDING.(pc := Closing(1)), IO_DOWN, true));
    r := RacePlayed(cfg, r, up, Two(cfg, HANDLING, SENDING.(pc := Closing(1)), IO_DOWN, true), NotifyClose(IO),
                    Two(cfg, REMOVE_WAITS, SENDING.(pc := Closed(1)), IO_DOWN, true));
    r := RacePlayed(cfg, r, up, Two(cfg, REMOVE_WAITS, SENDING.(pc := Closed(1)), IO_DOWN, true), Return(IO),
                    Two(cfg, REMOVE_WAITS, SENDING, IO_DOWN, true));
    r := SetLateOnIo(cfg, r);
    r := RacePlayed(cfg, r, multiset{}, Two(cfg, REMOVE_WAITS, SENDING, IO_LATE, true), StartBatch(IO),
                    Two(cfg, REMOVE_WAITS, LoopRec(Running, [], [], [SEND], []), IO_LATE, true));
    r := ResentOnIo(cfg, r);
  }

  lemma RunToSecondClose(cfg: Config) returns (r: RaceRun)
    requires cfg.ioLoops == [IO]
    ensures IsRaceRun(cfg, r) && r.states != []
    ensures r.states[|r.states| - 1] ==
            Racing(Two(cfg, REMOVE_WAITS, HANDLING.(pc := Closing(1)), IO_TWICE, true), multiset{})
  {
    HangsUpAgain(cfg);
    ClosesAgain(cfg);
    hide Goes, IsRaceRun, Two;
    var none: multiset<ConnId> := multiset{};
    r := RunToResend(cfg);
    r := RacePlayed(cfg, r, none, Two(cfg, REMOVE_WAITS, LoopRec(Running, [], [SEND], [], []), IO_AGAIN, true),
                    EndBatch(IO), Two(cfg, REMOVE_WAITS, IDLE_LOOP, IO_AGAIN, true));
    r := RacePlayed(cfg, r, none, Two(cfg, REMOVE_WAITS, IDLE_LOOP, IO_AGAIN, true), Poll(IO, [1]),
                    Two(cfg, REMOVE_WAITS, HANDLING.(active := [1]), IO_AGAIN, true));
    r := RacePlayed(cfg, r, none, Two(cfg, REMOVE_WAITS, HANDLING.(active := [1]), IO_AGAIN, true), Dispatch(IO),
                    Two(cfg, REMOVE_WAITS, HANDLING.(pc := Dispatching(1)), IO_HUNG, true));
    r := RacePlayed(cfg, r, none, Two(cfg, REMOVE_WAITS, HANDLING.(pc := Dispatching(1)), IO_HUNG, true), Close(IO),
                    Two(cfg, REMOVE_WAITS, HANDLING.(pc := Closing(1)), IO_TWICE, true));
  }

  /** On an I/O loop a thread tests, an event closes, the thread sets; a send queued while the connection was
      up meets a full socket; the channel, watched again, is hung up.  The user sees up, down, down, while the
      first removal still waits on the base loop; the connection is down although a set came late. */
  lemma UserSeesUpDownDown(cfg: Config)
    requires cfg.ioLoops == [IO]
    ensures exists r, n: nat ::
              && IsRaceRun(cfg, r) && n < |r.states| && 1 in r.states[n].server.conns
              && Callbacks(r.states[n].server.conns[1].life) == [CameUp, WentDown, WentDown]
              && r.states[n].server.conns[1].state.Disconnected? && InMap(cfg, r.states[n].server, 1)
  {
    UpDownDown();
    var last := Two(cfg, REMOVE_WAITS, HANDLING.(pc := Closing(1)), IO_TWICE, true);
    assert 1 in last.conns && last.conns[1] == IO_TWICE && InMap(cfg, last, 1);
    hide Goes, IsRaceRun, Two, InMap, Callbacks;
    var r := RunToSecondClose(cfg);
    var n: nat := |r.states| - 1;
    assert r.states[n].server == last;
    assert IsRaceRun(cfg, r) && n < |r.states|;
  }

  // ---------------------------------------------------------------- its second removal

  const TWICE_CLOSING := HANDLING.(pc := Closing(1))

  lemma RemovesFirst(cfg: Config)
    ensures Goes(cfg, Two(cfg, REMOVE_WAITS, TWICE_CLOSING, IO_TWICE, true), StartBatch(BASE),
                 Two(cfg, LoopRec(Running, [], [], [RemoveTask(1)], []), TWICE_CLOSING, IO_TWICE, true))
  {
  }

  lemma ErasesName(cfg: Config)
    ensures Goes(cfg, Two(cfg, LoopRec(Running, [], [], [RemoveTask(1)], []), TWICE_CLOSING, IO_TWICE, true),
                 RunTask(BASE),
                 Two(cfg, LoopRec(Removing(1, false), [], [RemoveTask(1)], [], []), TWICE_CLOSING, IO_TWICE, false))
  {
    assert [RemoveTask(1)][1..] == [] && [] + [RemoveTask(1)] == [RemoveTask(1)];
  }

  lemma QueuesDestruction(cfg: Config)
    ensures var waits := TWICE_CLOSING.(queue := [DestroyTask(1)]);
            && Goes(cfg,
                    Two(cfg, LoopRec(Removing(1, false), [], [RemoveTask(1)], [], []), TWICE_CLOSING, IO_TWICE, false),
                    QueueDestroy(BASE), Two(cfg, LoopRec(Running, [], [RemoveTask(1)], [], []), waits, IO_TWICE, false))
            && Goes(cfg, Two(cfg, LoopRec(Running, [], [RemoveTask(1)], [], []), waits, IO_TWICE, false),
                    EndBatch(BASE), Two(cfg, IDLE_LOOP, waits, IO_TWICE, false))
  {
    assert [] + [DestroyTask(1)] == [DestroyTask(1)];
  }

  const AGAIN_WAITS := IDLE_LOOP.(queue := [RemoveTask(1)])

  lemma NotifiesAgain(cfg: Config)
    ensures Goes(cfg, Two(cfg, IDLE_LOOP, TWICE_CLOSING.(queue := [DestroyTask(1)]), IO_TWICE, false), NotifyClose(IO),
                 Two(cfg, AGAIN_WAITS, CLOSED, IO_TWICE, false))
    ensures Goes(cfg, Two(cfg, AGAIN_WAITS, CLOSED, IO_TWICE, false), Return(IO),
                 Two(cfg, AGAIN_WAITS, RETURNED, IO_TWICE, false))
    ensures Goes(cfg, Two(cfg, AGAIN_WAITS, RETURNED, IO_TWICE, false), StartBatch(IO),
                 Two(cfg, AGAIN_WAITS, DESTROYING, IO_TWICE, false))
  {
    assert [] + [RemoveTask(1)] == [RemoveTask(1)];
  }

  lemma DestroysFirst(cfg: Config)
    ensures Goes(cfg, Two(cfg, AGAIN_WAITS, DESTROYING, IO_TWICE, false), RunTask(IO),
                 Two(cfg, AGAIN_WAITS, DESTROYED, IO_GONE, false))
    ensures Goes(cfg, Two(cfg, AGAIN_WAITS, DESTROYED, IO_GONE, false), EndBatch(IO),
                 Two(cfg, AGAIN_WAITS, IDLE_LOOP, IO_GONE, false))
  {
    assert IO_TWICE.life + [Destroyed] == IO_GONE.life;
    assert [DestroyTask(1)][1..] == [] && [] + [DestroyTask(1)] == [DestroyTask(1)];
  }

  lemma SecondRemovalOwns(cfg: Config)
    ensures var s := Two(cfg, AGAIN_WAITS, IDLE_LOOP, IO_GONE, false);
            Owned(cfg, s, 1) && !Held(s, 1) && Destroyed in s.conns[1].life
  {
    var s := Two(cfg, AGAIN_WAITS, IDLE_LOOP, IO_GONE, false);
    assert RemoveTask(1) in Line(s, BASE) && IO_GONE.life[5] == Destroyed;
  }

  /** And the second removal outlives the first one's destruction: the connection is destroyed, no batch in
      progress holds it, and the removal still waiting on the base loop owns it. */
  lemma SecondRemovalOutlivesDestruction(cfg: Config)
    requires cfg.ioLoops == [IO]
    ensures exists r, n: nat ::
              && IsRaceRun(cfg, r) && n < |r.states| && 1 in r.states[n].server.conns
              && Destroyed in r.states[n].server.conns[1].life
              && Owned(cfg, r.states[n].server, 1) && !Held(r.states[n].server, 1)
  {
    RemovesFirst(cfg);
    ErasesName(cfg);
    QueuesDestruction(cfg);
    NotifiesAgain(cfg);
    DestroysFirst(cfg);
    SecondRemovalOwns(cfg);
    var last := Two(cfg, AGAIN_WAITS, IDLE_LOOP, IO_GONE, false);
    assert 1 in last.conns;
    hide Goes, IsRaceRun, Two, Owned, Held;
    var none: multiset<ConnId> := multiset{};
    var removes := LoopRec(Running, [], [], [RemoveTask(1)], []);
    var removing := LoopRec(Removing(1, false), [], [RemoveTask(1)], [], []);
    var removed, waits := LoopRec(Running, [], [RemoveTask(1)], [], []), TWICE_CLOSING.(queue := [DestroyTask(1)]);
    var r := RunToSecondClose(cfg);
    r := RacePlayed(cfg, r, none, Two(cfg, REMOVE_WAITS, TWICE_CLOSING, IO_TWICE, true), StartBatch(BASE),
                    Two(cfg, removes, TWICE_CLOSING, IO_TWICE, true));
    r := RacePlayed(cfg, r, none, Two(cfg, removes, TWICE_CLOSING, IO_TWICE, true), RunTask(BASE),
                    Two(cfg, removing, TWICE_CLOSING, IO_TWICE, false));
    r := RacePlayed(cfg, r, none, Two(cfg, removing, TWICE_CLOSING, IO_TWICE, false), QueueDestroy(BASE),
                    Two(cfg, removed, waits, IO_TWICE, false));
    r := RacePlayed(cfg, r, none, Two(cfg, removed, waits, IO_TWICE, false), EndBatch(BASE),
                    Two(cfg, IDLE_LOOP, waits, IO_TWICE, false));
    r := RacePlayed(cfg, r, none, Two(cfg, IDLE_LOOP, waits, IO_TWICE, false), NotifyClose(IO),
                    Two(cfg, AGAIN_WAITS, CLOSED, IO_TWICE, false));
    r := RacePlayed(cfg, r, none, Two(cfg, AGAIN_WAITS, CLOSED, IO_TWICE, false), Return(IO),
                    Two(cfg, AGAIN_WAITS, RETURNED, IO_TWICE, false));
    r := RacePlayed(cfg, r, none, Two(cfg, AGAIN_WAITS, RETURNED, IO_TWICE, false), StartBatch(IO),
                    Two(cfg, AGAIN_WAITS, DESTROYING, IO_TWICE, false));
    r := RacePlayed(cfg, r, none, Two(cfg, AGAIN_WAITS, DESTROYING, IO_TWICE, false), RunTask(IO),
                    Two(cfg, AGAIN_WAITS, DESTROYED, IO_GONE, false));
    r := RacePlayed(cfg, r, none, Two(cfg, AGAIN_WAITS, DESTROYED, IO_GONE, false), EndBatch(IO), last);
    var n: nat := |r.states| - 1;
    assert r.states[n].server == last;
    assert IsRaceRun(cfg, r) && n < |r.states|;
  }
}
