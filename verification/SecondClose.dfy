/**
 When a set of `state_` that comes late (module ShutdownRace) brings a closed connection back: exactly when
 its channel can enter the kernel's interest set again, and exactly when it can close a second time.
 */
module SecondClose {
  import opened Common
  import opened EventMask
  import opened Registration
  import opened Connection
  import opened ConnectionTheorems
  import opened ShutdownRace

  // ---------------------------------------------------------------- where no close is to come

  /** What is left of the events being dispatched closes nothing. */
  predicate HarmlessDispatch(c: Conn) {
    match c.dispatch
    case Idle => true
    case AtHup(_) => false
    case AtErr(revents) => EPOLLIN !in revents
    case AtIn(revents) => EPOLLIN !in revents
    case AtOut(_) => true
  }

  /** State, events, closes and destruction are as they were. */
  predicate SameStage(c: Conn, d: Conn) {
    d.state == c.state && d.dispatch == c.dispatch && d.destroyed == c.destroyed && Closings(d.log) == Closings(c.log)
  }

  lemma HalfCloseKeepsStage(cfg: Config, c: Conn)
    ensures SameStage(c, ShutdownInLoop(cfg, c))
  {
    hide Flatten;
  }

  lemma WriteKeepsStage(cfg: Config, c: Conn, res: WriteResult)
    requires res.Fits(|c.output|)
    ensures SameStage(c, HandleWrite(cfg, c, res))
  {
    hide WithEvents, Flatten, ShutdownInLoop;
    if IsWriting(cfg, c) && res.Wrote? && res.n > 0 && res.n == |c.output| {
      var sent := c.(wire := c.wire + c.output[..res.n], output := c.output[res.n..]);
      var quiet := WithInterest(sent, sent.reg.events - cfg.masks.write);
      HalfCloseKeepsStage(cfg, if cfg.onWriteComplete then Notify(quiet, WriteComplete) else quiet);
    }
  }

  /** A connection set late stays Disconnecting, and while none of its events can close it none is. */
  lemma HarmlessStep(cfg: Config, c: Conn, a: Action)
    requires c.state.Disconnecting? && HarmlessDispatch(c) && Enabled(c, a) && !a.PollReports?
    ensures var d := Next(cfg, c, a);
            && d.state.Disconnecting? && HarmlessDispatch(d) && Closings(d.log) == Closings(c.log)
            && (c.destroyed ==> d.destroyed)
  {
    match a {
      case Send(data, res) => SendKeepsLog(cfg, c, data, res);
      case RunShutdown => HalfCloseKeepsStage(cfg, c.(shutdownsQueued := c.shutdownsQueued - 1));
      case DispatchOut(res) => WriteKeepsStage(cfg, c.(dispatch := Idle), res);
      case _ =>
    }
    hide SendInLoop, HandleWrite, ShutdownInLoop, Closings, HandleClose, Removed;
  }

  // ---------------------------------------------------------------- watched again

  /** Nothing can be written any more, and nothing is left to be. */
  predicate Spent(c: Conn) {
    c.writeShut && c.output == []
  }

  /** No send can bring the connection back to the kernel. */
  predicate Inert(c: Conn) {
    c.state.Disconnecting? && HarmlessDispatch(c) && Spent(c) && c.reg.events == {} && c.reg.kernel == None
  }

  lemma InertStep(cfg: Config, c: Conn, a: Action)
    requires Inert(c) && Enabled(c, a)
    ensures Inert(Next(cfg, c, a)) && !a.PollReports?
  {
    HarmlessStep(cfg, c, a);
    match a {
      case Send(data, res) => assert Refuses(cfg, c, res);
      case DispatchOut(res) => assert HandleWrite(cfg, c.(dispatch := Idle), res) == c.(dispatch := Idle);
      case _ =>
    }
    hide HandleWrite, Flatten, HandleClose, HarmlessDispatch;
  }

  ghost predicate UnwatchedEverAfter(cfg: Config, c: Conn) {
    forall r: Run, i {:trigger IsRunFrom(cfg, c, r), r.states[i]} ::
      IsRunFrom(cfg, c, r) && 0 <= i < |r.states| ==> r.states[i].reg.kernel == None
  }

  lemma {:induction false} InertHolds(cfg: Config, start: Conn, r: Run, i: nat)
    requires Inert(start) && IsRunFrom(cfg, start, r) && i < |r.states|
    ensures Inert(r.states[i])
  {
    hide Next, Enabled, Inert;
    if i > 0 {
      InertHolds(cfg, start, r, i - 1);
      InertStep(cfg, r.states[i - 1], r.acts[i - 1]);
    }
  }

  lemma LateIsHarmless(cfg: Config, c: Conn)
    requires Inv(cfg, c) && c.state.Disconnected?
    ensures var late := SetDisconnecting(cfg, c, false);
            && late == c.(state := Disconnecting, shutdownsQueued := c.shutdownsQueued + 1)
            && HarmlessDispatch(late) && Closings(late.log) == 1 && late.reg.events == {} && late.reg.kernel == None
  {
  }

  /** A send that the socket does not take: a full socket, or one already shut for writing. */
  function Untaken(c: Conn): WriteResult {
    if c.writeShut then WriteFailed(EPIPE) else WriteFailed(EWOULDBLOCK)
  }

  lemma UntakenReopens(cfg: Config, c: Conn)
    requires cfg.masks.Sane() && Inv(cfg, c) && c.state.Disconnected? && !Spent(c)
    ensures var late := SetDisconnecting(cfg, c, false);
            && Enabled(late, Send([0], Untaken(c)))
            && SendInLoop(cfg, late, [0], Untaken(c)).reg.kernel == Some(cfg.masks.write)
  {
    LateIsHarmless(cfg, c);
    assert Taken(cfg, SetDisconnecting(cfg, c, false), [0], Untaken(c)) == 0;
    LateSetReopens(cfg, c, [0], Untaken(c));
    hide SendInLoop, Inv;
  }

  /** A set on a connection that is down leaves it out of the kernel's interest set in every continuation if
      and only if its write end is shut and nothing is buffered. */
  lemma UnwatchedEverAfterIffSpent(cfg: Config, c: Conn)
    requires cfg.masks.Sane() && Inv(cfg, c) && c.state.Disconnected?
    ensures UnwatchedEverAfter(cfg, SetDisconnecting(cfg, c, false)) <==> Spent(c)
  {
    var late := SetDisconnecting(cfg, c, false);
    LateIsHarmless(cfg, c);
    if Spent(c) {
      hide SetDisconnecting, Inv;
      forall r: Run, i | IsRunFrom(cfg, late, r) && 0 <= i < |r.states|
        ensures r.states[i].reg.kernel == None
      {
        InertHolds(cfg, late, r, i);
      }
    } else {
      UntakenReopens(cfg, c);
      hide SetDisconnecting, Inv, SendInLoop;
      var a := Send([0], Untaken(c));
      var r := Run([late, Next(cfg, late, a)], [a]);
      assert IsRunFrom(cfg, late, r) && r.states[1].reg.kernel != None;
    }
  }

  // ---------------------------------------------------------------- closed again

  /** A late set can lead to a second close. */
  predicate Reopenable(c: Conn) {
    c.state.Disconnected? && !c.destroyed && !Spent(c)
  }

  /** Set late, closed once, and never to close again. */
  predicate Done(c: Conn) {
    && c.state.Disconnecting? && HarmlessDispatch(c) && Closings(c.log) == 1
    && (c.destroyed || Inert(c))
  }

  lemma DoneStep(cfg: Config, c: Conn, a: Action)
    requires Done(c) && Enabled(c, a)
    ensures Done(Next(cfg, c, a))
  {
    assert !a.PollReports?;
    HarmlessStep(cfg, c, a);
    if Inert(c) {
      InertStep(cfg, c, a);
    }
    hide Next, HarmlessDispatch;
  }

  ghost predicate ClosesOnceEverAfter(cfg: Config, c: Conn) {
    forall r: Run, i {:trigger IsRunFrom(cfg, c, r), r.states[i]} ::
      IsRunFrom(cfg, c, r) && 0 <= i < |r.states| ==> Closings(r.states[i].log) <= 1
  }

  lemma {:induction false} DoneHolds(cfg: Config, start: Conn, r: Run, i: nat)
    requires Done(start) && IsRunFrom(cfg, start, r) && i < |r.states|
    ensures Done(r.states[i])
  {
    hide Next, Enabled, Done;
    if i > 0 {
      DoneHolds(cfg, start, r, i - 1);
      DoneStep(cfg, r.states[i - 1], r.acts[i - 1]);
    }
  }

  lemma SetIsDone(cfg: Config, c: Conn)
    requires Inv(cfg, c) && c.state.Disconnected? && !Reopenable(c)
    ensures Done(SetDisconnecting(cfg, c, false))
  {
    LateIsHarmless(cfg, c);
    hide Inv, SetDisconnecting, Closings, HarmlessDispatch;
  }

  ghost function End(r: Run): Conn
    requires r.states != []
  {
    r.states[|r.states| - 1]
  }

  lemma Continued(cfg: Config, start: Conn, r: Run, a: Action) returns (e: Run)
    requires r.states != [] && IsRunFrom(cfg, start, r) && Enabled(End(r), a)
    ensures e.states != [] && IsRunFrom(cfg, start, e) && End(e) == Next(cfg, End(r), a)
  {
    hide Next, Enabled;
    e := Run(r.states + [Next(cfg, End(r), a)], r.acts + [a]);
  }

  /** What is left of the events is dispatched, and nothing happens. */
  lemma EventsEnd(cfg: Config, start: Conn, r: Run) returns (e: Run)
    requires r.states != [] && IsRunFrom(cfg, start, r) && HarmlessDispatch(End(r)) && End(r).reg.events == {}
    ensures e.states != [] && IsRunFrom(cfg, start, e) && End(e) == End(r).(dispatch := Idle)
  {
    hide IsRunFrom, HandleClose, Flatten;
    e := r;
    if End(e).dispatch.AtErr? {
      e := Continued(cfg, start, e, DispatchErr);
    }
    if End(e).dispatch.AtIn? {
      e := Continued(cfg, start, e, DispatchIn(Received([])));
    }
    if End(e).dispatch.AtOut? {
      e := Continued(cfg, start, e, DispatchOut(Wrote(0)));
    }
  }

  const HANGUP: Mask := {EPOLLHUP}

  /** A watched connection is hung up and closes. */
  lemma HangupCloses(cfg: Config, c: Conn)
    requires c.dispatch.Idle? && !c.destroyed && c.reg.kernel.Some?
    ensures Enabled(c, PollReports(HANGUP)) && Enabled(Next(cfg, c, PollReports(HANGUP)), DispatchHup)
    ensures var d := Next(cfg, Next(cfg, c, PollReports(HANGUP)), DispatchHup);
            && Closings(d.log) == Closings(c.log) + 1 && Callbacks(d.log) == Callbacks(c.log) + [Down]
            && d.state.Disconnected? && !d.destroyed
  {
    CloseIsLogged(c.(dispatch := AtErr(HANGUP)));
    hide HandleClose, Callbacks, Closings;
  }

  lemma CloseIsLogged(c: Conn)
    ensures var d := HandleClose(c);
            && Closings(d.log) == Closings(c.log) + 1 && Callbacks(d.log) == Callbacks(c.log) + [Down]
            && d.state.Disconnected? && d.destroyed == c.destroyed
  {
    CallbacksSnoc(c.log, Down);
    CallbacksSnoc(c.log + [Down], CloseCallback);
    hide WithEvents, Callbacks;
  }

  /** After a late set that leaves something to write, a send that the socket does not take and a hang-up
      close the connection a second time. */
  lemma ClosesTwice(cfg: Config, c: Conn) returns (r: Run)
    requires cfg.masks.Sane() && Inv(cfg, c) && Reopenable(c)
    ensures r.states != [] && IsRunFrom(cfg, SetDisconnecting(cfg, c, false), r)
    ensures Closings(End(r).log) == 2 && Callbacks(End(r).log) == [Up, Down, Down]
  {
    var late := SetDisconnecting(cfg, c, false);
    LateIsHarmless(cfg, c);
    assert Callbacks(late.log) == [Up, Down];
    IdleIsStillClosed(cfg, c);
    var quiet := c.(dispatch := Idle);
    UntakenReopens(cfg, quiet);
    assert SetDisconnecting(cfg, quiet, false) == late.(dispatch := Idle) && Untaken(quiet) == Untaken(c);
    hide Inv, SetDisconnecting, IsRunFrom;
    r := StartOf(cfg, late);
    r := EventsEnd(cfg, late, r);
    SendKeepsLog(cfg, End(r), [0], Untaken(c));
    r := Continued(cfg, late, r, Send([0], Untaken(c)));
    HangupCloses(cfg, End(r));
    hide Enabled, Next, SendInLoop, Callbacks, Closings;
    r := Continued(cfg, late, r, PollReports(HANGUP));
    r := Continued(cfg, late, r, DispatchHup);
  }

  lemma IdleIsStillClosed(cfg: Config, c: Conn)
    requires Inv(cfg, c) && c.state.Disconnected?
    ensures Inv(cfg, c.(dispatch := Idle))
  {
  }

  lemma StartOf(cfg: Config, c: Conn) returns (r: Run)
    ensures r.states != [] && IsRunFrom(cfg, c, r) && End(r) == c
  {
    r := Run([c], []);
  }

  /** In every continuation of a set the connection closes at most once if and only if the set did not find
      it down, not destroyed, and with its write end open or bytes buffered. */
  lemma ClosesOnceIffNotReopenable(cfg: Config, c: Conn)
    requires cfg.masks.Sane() && Inv(cfg, c) && !c.state.Connecting?
    ensures ClosesOnceEverAfter(cfg, SetDisconnecting(cfg, c, false)) <==> !Reopenable(c)
  {
    var late := SetDisconnecting(cfg, c, false);
    if Reopenable(c) {
      var r := ClosesTwice(cfg, c);
      hide IsRunFrom, SetDisconnecting, Inv;
      assert Closings(r.states[|r.states| - 1].log) == 2;
    } else if c.state.Disconnected? {
      SetIsDone(cfg, c);
      hide SetDisconnecting, Inv;
      forall r: Run, i | IsRunFrom(cfg, late, r) && 0 <= i < |r.states|
        ensures Closings(r.states[i].log) <= 1
      {
        DoneHolds(cfg, late, r, i);
      }
    } else {
      SetKeepsInv(cfg, c);
      hide SetDisconnecting, Inv;
      forall r: Run, i | IsRunFrom(cfg, late, r) && 0 <= i < |r.states|
        ensures Closings(r.states[i].log) <= 1
      {
        InvHoldsFrom(cfg, late, r, i);
        InvClosesOnce(cfg, r.states[i]);
      }
    }
  }

  lemma InvClosesOnce(cfg: Config, c: Conn)
    requires Inv(cfg, c)
    ensures Closings(c.log) <= 1
  {
  }

  // ---------------------------------------------------------------- over runs

  /** No second access finds the connection in the state from which it can close again. */
  predicate NoSetFindsItReopenable(r: RaceRun)
    requires |r.states| == |r.acts| + 1
  {
    forall k :: 0 <= k < |r.acts| && r.acts[k].SetState? ==> !Reopenable(r.states[k].c)
  }

  predicate RaceClosesOnce(cfg: Config, s: Race) {
    (Inv(cfg, s.c) || Done(s.c)) && (s.tested > 0 ==> !s.c.state.Connecting?)
  }

  lemma SetStaysDone(cfg: Config, c: Conn)
    requires Done(c)
    ensures Done(SetDisconnecting(cfg, c, false))
  {
  }

  lemma RaceClosesOnceStep(cfg: Config, s: Race, a: RaceAction)
    requires cfg.masks.Sane() && RaceClosesOnce(cfg, s) && RaceEnabled(s, a)
    requires a.SetState? ==> !Reopenable(s.c)
    ensures RaceClosesOnce(cfg, RaceNext(cfg, s, a))
  {
    hide Inv, Done, SetDisconnecting, Reopenable;
    match a
    case Step(b) =>
      if Inv(cfg, s.c) {
        InvStep(cfg, s.c, b);
      } else {
        DoneStep(cfg, s.c, b);
      }
      if !s.c.state.Connecting? {
        NeverConnectingAgain(cfg, s.c, b);
      }
      hide Next, Enabled;
    case Test =>
    case SetState =>
      SetIsDisconnecting(cfg, s.c);
      if Done(s.c) {
        SetStaysDone(cfg, s.c);
      } else if s.c.state.Disconnected? {
        SetIsDone(cfg, s.c);
      } else {
        SetKeepsInv(cfg, s.c);
      }
  }

  lemma {:induction false} RaceClosesOnceHolds(cfg: Config, r: RaceRun, i: nat)
    requires cfg.masks.Sane() && IsRaceRun(cfg, r) && NoSetFindsItReopenable(r) && i < |r.states|
    ensures RaceClosesOnce(cfg, r.states[i])
  {
    hide RaceNext, RaceEnabled, RaceClosesOnce, Reopenable;
    if i == 0 {
      StartHolds(cfg);
      assert RaceClosesOnce(cfg, START) by { StartClosesOnce(cfg); }
    } else {
      RaceClosesOnceHolds(cfg, r, i - 1);
      RaceClosesOnceStep(cfg, r.states[i - 1], r.acts[i - 1]);
    }
  }

  lemma StartClosesOnce(cfg: Config)
    ensures RaceClosesOnce(cfg, START)
  {
    StartHolds(cfg);
  }

  /** Over every run with test and set apart: one close at most, unless some set finds the connection down,
      not destroyed, and with its write end open or bytes buffered. */
  lemma ClosesOnceUnlessReopenable(cfg: Config, r: RaceRun, i: nat)
    requires cfg.masks.Sane() && IsRaceRun(cfg, r) && NoSetFindsItReopenable(r) && i < |r.states|
    ensures Closings(r.states[i].c.log) <= 1
  {
    RaceClosesOnceHolds(cfg, r, i);
    hide IsRaceRun, NoSetFindsItReopenable;
    if Inv(cfg, r.states[i].c) {
      InvClosesOnce(cfg, r.states[i].c);
    }
    hide Inv;
  }

  /** The failing run from the start: a thread tests; the peer's end of stream closes; the thread sets; a
      message queued before meets a full socket; the hang-up closes again.  The user sees up, down, down. */
  lemma UpDownDown(cfg: Config) returns (r: RaceRun)
    requires cfg.masks.Sane()
    ensures IsRaceRun(cfg, r) && Closings(Last(r).c.log) == 2 && Callbacks(Last(r).c.log) == [Up, Down, Down]
    ensures Last(r).c.state.Disconnected? && !Last(r).c.destroyed
  {
    var up;
    r, up := TestedWhileUp(cfg);
    r := ReadsEof(cfg, r, up, 1);
    var closed := ClosedByEof(up);
    EofCloses(cfg, up);
    var d := Reopened(cfg, closed);
    EofLog(cfg, up);
    hide IsRaceRun, Inv, SetDisconnecting, ClosedByEof;
    SendKeepsLog(cfg, SetDisconnecting(cfg, closed, false), [0], WriteFailed(EWOULDBLOCK));
    HangupCloses(cfg, d);
    hide SendInLoop, Enabled, Callbacks, Closings;
    r := Extend(cfg, r, SetState);
    r := Extend(cfg, r, Step(Send([0], WriteFailed(EWOULDBLOCK))));
    hide Next;
    r := Extend(cfg, r, Step(PollReports(HANGUP)));
    r := Extend(cfg, r, Step(DispatchHup));
  }

  lemma EofLog(cfg: Config, up: Conn)
    requires Inv(cfg, ClosedByEof(up)) && Live(up) && Inv(cfg, up)
    ensures var late := SetDisconnecting(cfg, ClosedByEof(up), false);
            Callbacks(late.log) == [Up, Down] && Closings(late.log) == 1 && !late.destroyed
  {
    var d := ClosedByEof(up);
    assert d.state.Disconnected? && !up.destroyed && d.destroyed == up.destroyed;
    hide WithEvents, Flatten;
  }
}
