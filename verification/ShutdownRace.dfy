/**
 TcpConnection::shutdown as the text has it: `state_` is tested in one access and set in another.  Off
 the loop's thread anything may happen in between; on it nothing of the loop's own can.
 */
module ShutdownRace {
  import opened Common
  import opened EventMask
  import opened Registration
  import opened Connection
  import opened ConnectionTheorems

  /** A connection, and how many threads have found it connected and not yet set its state. */
  datatype Race = Race(c: Conn, tested: nat)

  const START := Race(INITIAL, 0)

  datatype RaceAction =
    | Step(a: Action)   // anything but an off-loop shutdown
    | Test              // off the loop's thread, the first access
    | SetState          // and the second

  predicate RaceEnabled(s: Race, a: RaceAction) {
    match a
    case Step(b) => Enabled(s.c, b) && b != CallShutdown(false)
    case Test => true
    case SetState => s.tested > 0
  }

  function RaceNext(cfg: Config, s: Race, a: RaceAction): Race
    requires RaceEnabled(s, a)
  {
    match a
    case Step(b) => s.(c := Next(cfg, s.c, b))
    case Test => if s.c.state.Connected? then s.(tested := s.tested + 1) else s
    case SetState => Race(SetDisconnecting(cfg, s.c, false), s.tested - 1)
  }

  datatype RaceRun = RaceRun(states: seq<Race>, acts: seq<RaceAction>)

  ghost predicate IsRaceRun(cfg: Config, r: RaceRun) {
    && |r.states| == |r.acts| + 1
    && r.states[0] == START
    && forall i {:trigger r.acts[i]} :: 0 <= i < |r.acts| ==>
         RaceEnabled(r.states[i], r.acts[i]) && r.states[i + 1] == RaceNext(cfg, r.states[i], r.acts[i])
  }

  /** No thread's second access finds the connection gone down since its first. */
  predicate SetsFindItUp(r: RaceRun)
    requires |r.states| == |r.acts| + 1
  {
    forall k :: 0 <= k < |r.acts| && r.acts[k].SetState? ==> !r.states[k].c.state.Disconnected?
  }

  /** Close is final in this run: whatever is down at some time stays down, as `CloseIsFinal` has it. */
  predicate CloseStaysFinal(r: RaceRun) {
    forall i, j :: 0 <= i <= j < |r.states| && r.states[i].c.state.Disconnected? ==>
      StaysDown(r.states[i].c, r.states[j].c)
  }

  predicate RaceInv(cfg: Config, s: Race) {
    Inv(cfg, s.c) && (s.tested > 0 ==> !s.c.state.Connecting?)
  }

  /** The second access is harmless exactly while the connection is up. */
  lemma SetKeepsInv(cfg: Config, c: Conn)
    requires Inv(cfg, c) && Live(c)
    ensures Inv(cfg, SetDisconnecting(cfg, c, false))
  {
  }

  lemma RaceStep(cfg: Config, s: Race, a: RaceAction)
    requires cfg.masks.Sane() && RaceInv(cfg, s) && RaceEnabled(s, a)
    requires a.SetState? ==> !s.c.state.Disconnected?
    ensures RaceInv(cfg, RaceNext(cfg, s, a))
    ensures s.c.state.Disconnected? ==> StaysDown(s.c, RaceNext(cfg, s, a).c)
  {
    hide Inv, SetDisconnecting;
    match a
    case Step(b) =>
      InvStep(cfg, s.c, b);
      if s.c.state.Disconnected? {
        DownStep(cfg, s.c, b);
      }
      if !s.c.state.Connecting? {
        NeverConnectingAgain(cfg, s.c, b);
      }
      hide Next, Enabled;
    case Test =>
      if s.c.state.Disconnected? {
        DownHolds(cfg, s.c);
      }
    case SetState =>
      SetKeepsInv(cfg, s.c);
      assert SetDisconnecting(cfg, s.c, false).state.Disconnecting? by { SetIsDisconnecting(cfg, s.c); }
  }

  lemma SetIsDisconnecting(cfg: Config, c: Conn)
    ensures SetDisconnecting(cfg, c, false).state.Disconnecting?
  {
  }

  lemma DownHolds(cfg: Config, c: Conn)
    requires Inv(cfg, c) && c.state.Disconnected?
    ensures StaysDown(c, c)
  {
  }

  lemma {:induction false} RaceInvHolds(cfg: Config, r: RaceRun, i: nat)
    requires cfg.masks.Sane() && IsRaceRun(cfg, r) && SetsFindItUp(r) && i < |r.states|
    ensures RaceInv(cfg, r.states[i])
  {
    hide RaceNext, RaceEnabled, RaceInv;
    if i == 0 {
      StartHolds(cfg);
    } else {
      RaceInvHolds(cfg, r, i - 1);
      RaceStep(cfg, r.states[i - 1], r.acts[i - 1]);
    }
  }

  lemma StartHolds(cfg: Config)
    ensures RaceInv(cfg, START)
  {
  }

  lemma StaysDownTrans(c: Conn, d: Conn, e: Conn)
    requires StaysDown(c, d) && StaysDown(d, e)
    ensures StaysDown(c, e)
  {
  }

  lemma RaceDownHolds(cfg: Config, s: Race)
    requires RaceInv(cfg, s) && s.c.state.Disconnected?
    ensures StaysDown(s.c, s.c)
  {
    DownHolds(cfg, s.c);
  }

  lemma FinalStep(cfg: Config, c: Conn, s: Race, a: RaceAction)
    requires cfg.masks.Sane() && RaceInv(cfg, s) && RaceEnabled(s, a) && StaysDown(c, s.c)
    requires a.SetState? ==> !s.c.state.Disconnected?
    ensures StaysDown(c, RaceNext(cfg, s, a).c)
  {
    RaceStep(cfg, s, a);
    hide RaceNext, RaceEnabled, RaceInv, Callbacks, Closings;
    StaysDownTrans(c, s.c, RaceNext(cfg, s, a).c);
  }

  lemma {:induction false} FinalWhenSetsFindItUp(cfg: Config, r: RaceRun, i: nat, j: nat)
    requires cfg.masks.Sane() && IsRaceRun(cfg, r) && SetsFindItUp(r) && i <= j < |r.states|
    requires r.states[i].c.state.Disconnected?
    ensures StaysDown(r.states[i].c, r.states[j].c)
    decreases j
  {
    hide RaceNext, RaceEnabled, RaceInv, StaysDown, SetsFindItUp;
    assert |r.states| == |r.acts| + 1;
    hide IsRaceRun;
    if i == j {
      FinalAtOnce(cfg, r, i);
    } else {
      FinalWhenSetsFindItUp(cfg, r, i, j - 1);
      FinalOneMore(cfg, r, i, j - 1);
    }
  }

  lemma FinalAtOnce(cfg: Config, r: RaceRun, i: nat)
    requires cfg.masks.Sane() && IsRaceRun(cfg, r) && SetsFindItUp(r) && i < |r.states|
    requires r.states[i].c.state.Disconnected?
    ensures StaysDown(r.states[i].c, r.states[i].c)
  {
    RaceInvHolds(cfg, r, i);
    hide IsRaceRun, SetsFindItUp, RaceInv, StaysDown;
    RaceDownHolds(cfg, r.states[i]);
  }

  lemma FinalOneMore(cfg: Config, r: RaceRun, i: nat, j: nat)
    requires cfg.masks.Sane() && IsRaceRun(cfg, r) && SetsFindItUp(r) && i <= j < |r.acts|
    requires StaysDown(r.states[i].c, r.states[j].c)
    ensures StaysDown(r.states[i].c, r.states[j + 1].c)
  {
    hide RaceNext, RaceEnabled, RaceInv, StaysDown;
    RaceInvHolds(cfg, r, j);
    var a := r.acts[j];
    assert RaceEnabled(r.states[j], a) && r.states[j + 1] == RaceNext(cfg, r.states[j], a);
    assert a.SetState? ==> !r.states[j].c.state.Disconnected?;
    hide IsRaceRun, SetsFindItUp;
    FinalStep(cfg, r.states[i].c, r.states[j], a);
  }

  /** In every run with the two accesses apart, close is final if and only if every second access found
      the connection still up. */
  lemma CloseIsFinalIffSetsFindItUp(cfg: Config, r: RaceRun)
    requires cfg.masks.Sane() && IsRaceRun(cfg, r)
    ensures CloseStaysFinal(r) <==> SetsFindItUp(r)
  {
    if SetsFindItUp(r) {
      forall i, j | 0 <= i <= j < |r.states| && r.states[i].c.state.Disconnected?
        ensures StaysDown(r.states[i].c, r.states[j].c)
      {
        FinalWhenSetsFindItUp(cfg, r, i, j);
      }
    } else {
      var k :| 0 <= k < |r.acts| && r.acts[k].SetState? && r.states[k].c.state.Disconnected?;
      assert r.states[k + 1] == RaceNext(cfg, r.states[k], r.acts[k]);
      assert !StaysDown(r.states[k].c, r.states[k + 1].c);
    }
  }

  /** And then everything else holds that is proved of a connection whose shutdown is one step. */
  lemma InvariantSurvives(cfg: Config, r: RaceRun, i: nat)
    requires cfg.masks.Sane() && IsRaceRun(cfg, r) && SetsFindItUp(r) && i < |r.states|
    ensures Inv(cfg, r.states[i].c)
  {
    RaceInvHolds(cfg, r, i);
  }

  /** After the second access: every close there is or will be stays final, in every continuation. */
  ghost predicate FinalEverAfter(cfg: Config, c: Conn) {
    forall r: Run, i, j {:trigger IsRunFrom(cfg, c, r), r.states[i], r.states[j]} ::
      IsRunFrom(cfg, c, r) && 0 <= i <= j < |r.states| && Closings(r.states[i].log) > 0 ==>
        StaysDown(r.states[i], r.states[j])
  }

  /** It is so in every continuation if and only if the connection was up at the second access. */
  lemma FinalEverAfterIffUp(cfg: Config, c: Conn)
    requires cfg.masks.Sane() && Inv(cfg, c) && !c.state.Connecting?
    ensures FinalEverAfter(cfg, SetDisconnecting(cfg, c, false)) <==> !c.state.Disconnected?
  {
    var late := SetDisconnecting(cfg, c, false);
    if c.state.Disconnected? {
      var r := Run([late], []);
      assert IsRunFrom(cfg, late, r) && Closings(r.states[0].log) > 0 && !StaysDown(r.states[0], r.states[0]);
    } else {
      SetKeepsInv(cfg, c);
      forall r: Run, i, j | IsRunFrom(cfg, late, r) && 0 <= i <= j < |r.states| && Closings(r.states[i].log) > 0
        ensures StaysDown(r.states[i], r.states[j])
      {
        InvHoldsFrom(cfg, late, r, i);
        ClosedMeansDown(cfg, late, r, i);
        CloseIsFinalFrom(cfg, late, r, i, j);
      }
    }
  }

  lemma {:induction false} ClosedMeansDown(cfg: Config, start: Conn, r: Run, i: nat)
    requires cfg.masks.Sane() && Inv(cfg, start) && IsRunFrom(cfg, start, r) && i < |r.states|
    requires Closings(r.states[i].log) > 0
    ensures r.states[i].state.Disconnected?
  {
    InvHoldsFrom(cfg, start, r, i);
    hide IsRunFrom;
  }

  /** On a connection that was down, the next message not refused and not taken whole by the socket puts
      the dead channel back into the kernel's interest set, whatever is buffered. */
  lemma LateSetReopens(cfg: Config, c: Conn, data: Bytes, res: WriteResult)
    requires cfg.masks.Sane() && Inv(cfg, c) && c.state.Disconnected? && res.Fits(|data|)
    requires var late := SetDisconnecting(cfg, c, false);
             !Refuses(cfg, late, res) && Taken(cfg, late, data, res) < |data|
    ensures SendInLoop(cfg, SetDisconnecting(cfg, c, false), data, res).reg.kernel == Some(cfg.masks.write)
  {
    var late := SetDisconnecting(cfg, c, false);
    var sent := Accepting(cfg, late, data, res);
    assert !IsWriting(cfg, sent);
    assert sent.reg.events + cfg.masks.write == cfg.masks.write;
  }

  ghost function Last(r: RaceRun): Race
    requires |r.states| == |r.acts| + 1
  {
    r.states[|r.acts|]
  }

  lemma Extend(cfg: Config, r: RaceRun, a: RaceAction) returns (longer: RaceRun)
    requires IsRaceRun(cfg, r) && RaceEnabled(Last(r), a)
    ensures IsRaceRun(cfg, longer) && Last(longer) == RaceNext(cfg, Last(r), a)
    ensures longer.acts == r.acts + [a] && longer.states[..|r.states|] == r.states
  {
    hide RaceNext, RaceEnabled;
    longer := RaceRun(r.states + [RaceNext(cfg, Last(r), a)], r.acts + [a]);
  }

  lemma ExtendStep(cfg: Config, r: RaceRun, c: Conn, tested: nat, b: Action) returns (longer: RaceRun)
    requires IsRaceRun(cfg, r) && Last(r) == Race(c, tested) && Enabled(c, b) && b != CallShutdown(false)
    ensures IsRaceRun(cfg, longer) && Last(longer) == Race(Next(cfg, c, b), tested)
  {
    hide IsRaceRun, Next;
    longer := Extend(cfg, r, Step(b));
  }

  const EOF: Mask := {EPOLLIN}

  /** The connection once its peer's end of stream has been read and closed it. */
  function ClosedByEof(up: Conn): Conn {
    HandleClose(up.(dispatch := AtOut(EOF))).(dispatch := Idle)
  }

  /** The steps of one dispatch that reads the end of the stream. */
  lemma EofSteps(cfg: Config, up: Conn)
    requires cfg.masks.Sane() && Inv(cfg, up) && Live(up) && up.dispatch.Idle?
    ensures Enabled(up, PollReports(EOF)) && Next(cfg, up, PollReports(EOF)) == up.(dispatch := AtHup(EOF))
    ensures Next(cfg, up.(dispatch := AtHup(EOF)), DispatchHup) == up.(dispatch := AtErr(EOF))
    ensures Next(cfg, up.(dispatch := AtErr(EOF)), DispatchErr) == up.(dispatch := AtIn(EOF))
    ensures Next(cfg, up.(dispatch := AtIn(EOF)), DispatchIn(Received([]))) == HandleClose(up.(dispatch := AtOut(EOF)))
    ensures HandleClose(up.(dispatch := AtOut(EOF))).dispatch.AtOut?
    ensures Next(cfg, HandleClose(up.(dispatch := AtOut(EOF))), DispatchOut(Wrote(0))) == ClosedByEof(up)
  {
    hide WithEvents, Flatten, Callbacks;
    assert EOF <= up.reg.kernel.value + ALWAYS_REPORTED;
  }

  lemma EofCloses(cfg: Config, up: Conn)
    requires cfg.masks.Sane() && Inv(cfg, up) && Live(up)
    ensures var d := ClosedByEof(up);
            && Inv(cfg, d) && d.state.Disconnected? && d.dispatch.Idle?
            && d.output == up.output && d.writeShut == up.writeShut && d.shutdownsQueued == up.shutdownsQueued
  {
    assert Inv(cfg, up.(dispatch := AtOut(EOF)));
    HandleCloseKeepsInv(cfg, up.(dispatch := AtOut(EOF)));
    hide WithEvents, Flatten, Callbacks;
  }

  /** A run that has the connection up is continued until the peer's end of stream has closed it. */
  lemma ReadsEof(cfg: Config, r: RaceRun, up: Conn, tested: nat) returns (longer: RaceRun)
    requires cfg.masks.Sane() && IsRaceRun(cfg, r) && Last(r) == Race(up, tested)
    requires Inv(cfg, up) && Live(up) && up.dispatch.Idle?
    ensures IsRaceRun(cfg, longer) && Last(longer) == Race(ClosedByEof(up), tested)
  {
    EofSteps(cfg, up);
    hide IsRaceRun, Inv, Next, HandleClose, ClosedByEof;
    longer := ExtendStep(cfg, r, up, tested, PollReports(EOF));
    longer := ExtendStep(cfg, longer, up.(dispatch := AtHup(EOF)), tested, DispatchHup);
    longer := ExtendStep(cfg, longer, up.(dispatch := AtErr(EOF)), tested, DispatchErr);
    longer := ExtendStep(cfg, longer, up.(dispatch := AtIn(EOF)), tested, DispatchIn(Received([])));
    longer := ExtendStep(cfg, longer, HandleClose(up.(dispatch := AtOut(EOF))), tested, DispatchOut(Wrote(0)));
  }

  lemma TestedWhileUp(cfg: Config) returns (r: RaceRun, up: Conn)
    requires cfg.masks.Sane()
    ensures IsRaceRun(cfg, r) && Last(r) == Race(up, 1)
    ensures Inv(cfg, up) && Live(up) && up.dispatch.Idle? && up.output == [] && !up.writeShut
  {
    up := EstablishedUp(cfg);
    StartIsRun(cfg);
    assert Next(cfg, INITIAL, DoEstablish) == up;
    hide IsRaceRun, Inv, Establish, Next;
    r := Extend(cfg, RaceRun([START], []), Step(DoEstablish));
    r := Extend(cfg, r, Test);
  }

  lemma EstablishedUp(cfg: Config) returns (up: Conn)
    requires cfg.masks.Sane()
    ensures up == Establish(cfg, INITIAL) && up.state.Connected?
    ensures Inv(cfg, up) && up.dispatch.Idle? && up.output == [] && !up.writeShut
  {
    up := Establish(cfg, INITIAL);
    EstablishKeepsInv(cfg, INITIAL);
    hide WithEvents, Inv;
  }

  /** A message that an earlier off-loop send left in the queue meets a full socket. */
  lemma Reopened(cfg: Config, closed: Conn) returns (d: Conn)
    requires cfg.masks.Sane() && Inv(cfg, closed)
    requires closed.state.Disconnected? && closed.output == [] && !closed.writeShut && closed.dispatch.Idle?
    ensures Enabled(SetDisconnecting(cfg, closed, false), Send([0], WriteFailed(EWOULDBLOCK)))
    ensures d == SendInLoop(cfg, SetDisconnecting(cfg, closed, false), [0], WriteFailed(EWOULDBLOCK))
    ensures Closings(d.log) == 1 && d.reg.kernel == Some(cfg.masks.write) && d.dispatch.Idle?
  {
    var full := WriteFailed(EWOULDBLOCK);
    d := SendInLoop(cfg, SetDisconnecting(cfg, closed, false), [0], full);
    LateSetReopens(cfg, closed, [0], full);
    SendKeepsLog(cfg, SetDisconnecting(cfg, closed, false), [0], full);
    hide SendInLoop;
  }

  /** The failing run: established; a thread tests; the peer's end of stream closes; the thread sets; after
      the events are done a message queued before meets a full socket.  The connection has closed and is
      watched again. */
  lemma ClosedConnectionReopens(cfg: Config) returns (r: RaceRun)
    requires cfg.masks.Sane()
    ensures IsRaceRun(cfg, r) && !CloseStaysFinal(r)
    ensures Closings(Last(r).c.log) == 1 && Last(r).c.reg.kernel == Some(cfg.masks.write) && Last(r).c.dispatch.Idle?
  {
    var up;
    r, up := TestedWhileUp(cfg);
    r := ReadsEof(cfg, r, up, 1);
    var closed := ClosedByEof(up);
    EofCloses(cfg, up);
    var d := Reopened(cfg, closed);
    ghost var k := |r.acts|;
    hide IsRaceRun, Inv, SendInLoop, SetDisconnecting, Enabled, CloseStaysFinal, ClosedByEof;
    r := Extend(cfg, r, SetState);
    r := Extend(cfg, r, Step(Send([0], WriteFailed(EWOULDBLOCK))));
    assert r.acts[k].SetState? && r.states[k].c == closed;
    CloseIsFinalIffSetsFindItUp(cfg, r);
  }

  lemma StartIsRun(cfg: Config)
    ensures IsRaceRun(cfg, RaceRun([START], []))
  {
  }

  lemma SendKeepsLog(cfg: Config, c: Conn, data: Bytes, res: WriteResult)
    requires res.Fits(|data|)
    ensures var d := SendInLoop(cfg, c, data, res);
            d.log == c.log && d.dispatch == c.dispatch && d.destroyed == c.destroyed && d.state == c.state
  {
    hide WithEvents, IsWriting, Buffered;
    var nwrote := Taken(cfg, c, data, res);
    if nwrote < |data| {
      BufferedKeepsShut(cfg, Accepting(cfg, c, data, res), data[nwrote..]);
    }
  }

  // ---------------------------------------------------------------- half-closes after a late set

  /** What keeps half-closes flushed, late sets or not: a connection not down that owes bytes asks for
      EPOLLOUT, and one that is down asks for nothing. */
  predicate Flushes(cfg: Config, c: Conn) {
    && Conserved(c) && HalfClosesFlushed(c)
    && (Live(c) && c.output != [] ==> IsWriting(cfg, c))
    && (c.state.Disconnected? ==> c.reg.events == {})
    && (c.state.Connecting? ==> c == INITIAL)
  }

  lemma HalfCloseFlushes(cfg: Config, c: Conn)
    requires Flushes(cfg, c) && !c.state.Connecting?
    ensures Flushes(cfg, ShutdownInLoop(cfg, c))
  {
    if Live(c) && !IsWriting(cfg, c) {
      assert c.wire + c.output == c.wire;
    }
  }

  lemma BufferedFlushes(cfg: Config, c: Conn, rest: Bytes)
    requires cfg.masks.Sane() && HalfClosesFlushed(c) && Live(c) && Conserved(Buffered(cfg, c, rest))
    ensures Flushes(cfg, Buffered(cfg, c, rest))
  {
    assert EPOLLOUT in (c.reg.events + cfg.masks.write) * cfg.masks.write;
    hide WithEvents, Flatten;
  }

  lemma SendFlushes(cfg: Config, c: Conn, data: Bytes, res: WriteResult)
    requires cfg.masks.Sane() && Flushes(cfg, c) && Enabled(c, Send(data, res))
    ensures Flushes(cfg, SendInLoop(cfg, c, data, res))
  {
    SendConserves(cfg, c, data, res);
    hide Conserved, WithEvents, Flatten;
    if !Refuses(cfg, c, res) {
      var nwrote := Taken(cfg, c, data, res);
      if nwrote < |data| {
        BufferedFlushes(cfg, Accepting(cfg, c, data, res), data[nwrote..]);
        hide Buffered;
      }
    }
  }

  lemma WriteFlushes(cfg: Config, c: Conn, res: WriteResult)
    requires Flushes(cfg, c) && !c.state.Connecting? && res.Fits(|c.output|)
    ensures Flushes(cfg, HandleWrite(cfg, c, res))
  {
    HandleWriteConserves(cfg, c, res);
    if IsWriting(cfg, c) && res.Wrote? && res.n > 0 {
      assert !c.state.Disconnected?;
      var sent := c.(wire := c.wire + c.output[..res.n], output := c.output[res.n..]);
      if sent.output == [] {
        var quiet := WithInterest(sent, sent.reg.events - cfg.masks.write);
        assert Conserved(quiet) by { assert Conserved(sent); }
        var noticed := if cfg.onWriteComplete then Notify(quiet, WriteComplete) else quiet;
        if noticed.state.Disconnecting? {
          HalfCloseFlushes(cfg, noticed);
        }
      }
    }
    hide Conserved, WithEvents, Flatten;
  }

  lemma CloseFlushes(cfg: Config, c: Conn)
    requires Flushes(cfg, c)
    ensures Flushes(cfg, HandleClose(c))
  {
    hide Flatten;
  }

  lemma EstablishFlushes(cfg: Config, c: Conn)
    requires Flushes(cfg, c) && c.state.Connecting?
    ensures Flushes(cfg, Establish(cfg, c))
  {
    hide WithEvents, Flatten;
  }

  lemma DestroyFlushes(cfg: Config, c: Conn)
    requires Flushes(cfg, c) && Enabled(c, RunDestroy)
    ensures Flushes(cfg, Destroy(c))
  {
    hide Flatten;
  }

  lemma DispatchFlushes(cfg: Config, c: Conn, a: Action)
    requires Flushes(cfg, c) && Enabled(c, a) && (a.PollReports? || a.DispatchHup? || a.DispatchErr? || a.DispatchIn?)
    ensures Flushes(cfg, Next(cfg, c, a))
  {
    match a {
      case DispatchHup => CloseFlushes(cfg, c.(dispatch := AtErr(c.dispatch.revents)));
      case DispatchIn(_) =>
        if !c.state.Connecting? {
          CloseFlushes(cfg, c.(dispatch := AtOut(c.dispatch.revents)));
        }
      case _ =>
    }
    hide HandleClose, Flatten;
  }

  lemma FlushStep(cfg: Config, c: Conn, a: Action)
    requires cfg.masks.Sane() && Flushes(cfg, c) && Enabled(c, a)
    ensures Flushes(cfg, Next(cfg, c, a))
  {
    match a {
      case Send(data, res) => SendFlushes(cfg, c, data, res);
      case CallShutdown(inLoopThread) =>
        if c.state.Connected? && inLoopThread {
          HalfCloseFlushes(cfg, c.(state := Disconnecting));
        }
      case RunShutdown => HalfCloseFlushes(cfg, c.(shutdownsQueued := c.shutdownsQueued - 1));
      case DispatchOut(res) => WriteFlushes(cfg, c.(dispatch := Idle), res);
      case DoEstablish => EstablishFlushes(cfg, c);
      case RunDestroy => DestroyFlushes(cfg, c);
      case _ => DispatchFlushes(cfg, c, a);
    }
    hide SendInLoop, HandleWrite, ShutdownInLoop, DoIn, DoHup, Destroy, Establish, Flatten;
  }

  /** No second access finds the connection down with bytes still buffered. */
  predicate NoLateBytes(r: RaceRun)
    requires |r.states| == |r.acts| + 1
  {
    forall k :: 0 <= k < |r.acts| && r.acts[k].SetState? ==>
      !(r.states[k].c.state.Disconnected? && r.states[k].c.output != [])
  }

  predicate RaceFlushes(cfg: Config, s: Race) {
    Flushes(cfg, s.c) && (s.tested > 0 ==> !s.c.state.Connecting?)
  }

  lemma SetFlushes(cfg: Config, c: Conn)
    requires Flushes(cfg, c) && !c.state.Connecting? && !(c.state.Disconnected? && c.output != [])
    ensures Flushes(cfg, SetDisconnecting(cfg, c, false))
  {
    hide Flatten;
  }

  lemma RaceFlushStep(cfg: Config, s: Race, a: RaceAction)
    requires cfg.masks.Sane() && RaceFlushes(cfg, s) && RaceEnabled(s, a)
    requires a.SetState? ==> !(s.c.state.Disconnected? && s.c.output != [])
    ensures RaceFlushes(cfg, RaceNext(cfg, s, a))
  {
    hide Flushes, SetDisconnecting;
    match a
    case Step(b) =>
      FlushStep(cfg, s.c, b);
      if !s.c.state.Connecting? {
        NeverConnectingAgain(cfg, s.c, b);
      }
      hide Next, Enabled;
    case Test =>
    case SetState =>
      SetFlushes(cfg, s.c);
      SetIsDisconnecting(cfg, s.c);
  }

  /** Over every run with test and set apart: the half-close stays graceful, closes come late or not, as
      long as no set finds bytes buffered on a connection that is down. */
  lemma {:induction false} HalfClosesStayFlushed(cfg: Config, r: RaceRun, i: nat)
    requires cfg.masks.Sane() && IsRaceRun(cfg, r) && NoLateBytes(r) && i < |r.states|
    ensures RaceFlushes(cfg, r.states[i])
  {
    hide RaceNext, RaceEnabled, RaceFlushes;
    if i == 0 {
      assert RaceFlushes(cfg, START) by { StartFlushes(cfg); }
    } else {
      HalfClosesStayFlushed(cfg, r, i - 1);
      RaceFlushStep(cfg, r.states[i - 1], r.acts[i - 1]);
    }
  }

  lemma StartFlushes(cfg: Config)
    ensures RaceFlushes(cfg, START)
  {
  }

  /** A set that does find them leads to a half-close that owes them: the functor it queues finds the
      connection neither down nor writing. */
  lemma LateBytesAreOwed(cfg: Config, c: Conn)
    requires Flushes(cfg, c) && c.state.Disconnected? && c.output != []
    ensures var late := SetDisconnecting(cfg, c, false);
            Enabled(late, RunShutdown) && !HalfClosesFlushed(Next(cfg, late, RunShutdown))
  {
    var late := SetDisconnecting(cfg, c, false);
    var d := Next(cfg, late, RunShutdown);
    assert |c.wire| < |c.wire + c.output|;
    assert d.log[|d.log| - 1] == ShutdownWrite(Disconnecting, Flatten(c.accepted), c.wire);
  }

  ghost predicate FlushedEverAfter(cfg: Config, c: Conn) {
    forall r: Run, i {:trigger IsRunFrom(cfg, c, r), r.states[i]} ::
      IsRunFrom(cfg, c, r) && 0 <= i < |r.states| ==> HalfClosesFlushed(r.states[i])
  }

  lemma {:induction false} FlushesFrom(cfg: Config, start: Conn, r: Run, i: nat)
    requires cfg.masks.Sane() && Flushes(cfg, start) && IsRunFrom(cfg, start, r) && i < |r.states|
    ensures Flushes(cfg, r.states[i])
  {
    hide Next, Enabled, Flushes;
    if i > 0 {
      FlushesFrom(cfg, start, r, i - 1);
      FlushStep(cfg, r.states[i - 1], r.acts[i - 1]);
    }
  }

  /** In every continuation of a set the half-close is graceful if and only if the set did not find the
      connection down with bytes buffered. */
  lemma FlushedEverAfterIffNothingOwed(cfg: Config, c: Conn)
    requires cfg.masks.Sane() && Flushes(cfg, c) && !c.state.Connecting?
    ensures FlushedEverAfter(cfg, SetDisconnecting(cfg, c, false)) <==> !(c.state.Disconnected? && c.output != [])
  {
    var late := SetDisconnecting(cfg, c, false);
    if c.state.Disconnected? && c.output != [] {
      LateBytesAreOwed(cfg, c);
      var r := Run([late, Next(cfg, late, RunShutdown)], [RunShutdown]);
      assert IsRunFrom(cfg, late, r) && !HalfClosesFlushed(r.states[1]);
    } else {
      SetFlushes(cfg, c);
      hide Flushes, SetDisconnecting;
      forall r: Run, i | IsRunFrom(cfg, late, r) && 0 <= i < |r.states|
        ensures HalfClosesFlushed(r.states[i])
      {
        FlushesFrom(cfg, late, r, i);
        assert HalfClosesFlushed(r.states[i]) by { FlushedOf(cfg, r.states[i]); }
      }
    }
  }

  lemma FlushedOf(cfg: Config, c: Conn)
    requires Flushes(cfg, c)
    ensures HalfClosesFlushed(c)
  {
  }

  lemma InvFlushes(cfg: Config, c: Conn)
    requires Inv(cfg, c)
    ensures Flushes(cfg, c)
  {
  }

  lemma OneByteWaits(cfg: Config, up: Conn) returns (waiting: Conn)
    requires cfg.masks.Sane() && Inv(cfg, up) && Live(up) && up.dispatch.Idle? && up.output == [] && !up.writeShut
    ensures Enabled(up, Send([0], WriteFailed(EWOULDBLOCK)))
    ensures waiting == Next(cfg, up, Send([0], WriteFailed(EWOULDBLOCK)))
    ensures Inv(cfg, waiting) && Live(waiting) && waiting.dispatch.Idle? && waiting.output != []
  {
    var full := WriteFailed(EWOULDBLOCK);
    waiting := SendInLoop(cfg, up, [0], full);
    SendKeepsInv(cfg, up, [0], full);
    SendKeepsState(cfg, up, [0], full);
    SendKeepsLog(cfg, up, [0], full);
    assert Taken(cfg, up, [0], full) == 0;
    hide Inv, WithEvents, Flatten;
    if !Refuses(cfg, up, full) {
      BufferedKeepsShut(cfg, Accepting(cfg, up, [0], full), [0][0..]);
      assert waiting.output == up.output + [0][0..];
    }
  }

  /** The failing run: a byte waits for a full socket, a thread tests, the peer's end of stream closes, the
      thread sets, and its functor half-closes a connection that owes the byte. */
  lemma HalfCloseOwesAByte(cfg: Config) returns (r: RaceRun)
    requires cfg.masks.Sane()
    ensures IsRaceRun(cfg, r) && !HalfClosesFlushed(Last(r).c) && Last(r).c.dispatch.Idle?
  {
    var up;
    r, up := TestedWhileUp(cfg);
    var waiting := OneByteWaits(cfg, up);
    r := ExtendStep(cfg, r, up, 1, Send([0], WriteFailed(EWOULDBLOCK)));
    r := ReadsEof(cfg, r, waiting, 1);
    var closed := ClosedByEof(waiting);
    EofCloses(cfg, waiting);
    InvFlushes(cfg, closed);
    LateBytesAreOwed(cfg, closed);
    RunShutdownKeepsDispatch(cfg, closed);
    hide IsRaceRun, Inv, Flushes, HalfClosesFlushed, SetDisconnecting, Next, ClosedByEof;
    r := Extend(cfg, r, SetState);
    r := Extend(cfg, r, Step(RunShutdown));
  }

  lemma RunShutdownKeepsDispatch(cfg: Config, c: Conn)
    ensures var late := SetDisconnecting(cfg, c, false);
            Enabled(late, RunShutdown) && Next(cfg, late, RunShutdown).dispatch == c.dispatch
  {
  }
}
