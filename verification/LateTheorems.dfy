/** What a late set breaks and what it does not, over every run. */
module LateTheorems {
  import opened RoundRobin
  import opened Server
  import opened ServerInvariant
  import opened FunctorOrder
  import opened ServerTheorems
  import opened LateShutdown
  import opened LateInvariant

  // ---------------------------------------------------------------- the state

  predicate DownAt(s: State, c: ConnId) {
    c in s.conns && s.conns[c].state.Disconnected?
  }

  /** handleClose runs for the connection. */
  predicate ClosesAt(s: State, a: RaceAction, c: ConnId) {
    a.Plain? && a.a.Close? && a.a.l in s.loops && s.loops[a.a.l].pc == Dispatching(c)
  }

  /** Among the first `i` steps some thread's set found the connection down, and no close came after. */
  predicate SetLate(r: RaceRun, i: nat, c: ConnId)
    requires i <= |r.acts| <= |r.states|
  {
    exists k :: 0 <= k < i && r.acts[k] == SetState(c) && DownAt(r.states[k].server, c) && NoCloseSince(r, k, i, c)
  }

  predicate NoCloseSince(r: RaceRun, k: nat, i: nat, c: ConnId)
    requires i <= |r.acts| <= |r.states|
  {
    forall m :: k < m < i ==> !ClosesAt(r.states[m].server, r.acts[m], c)
  }

  lemma SetLateGrows(r: RaceRun, i: nat, c: ConnId)
    requires i < |r.acts| <= |r.states|
    ensures SetLate(r, i + 1, c) <==>
            || (SetLate(r, i, c) && !ClosesAt(r.states[i].server, r.acts[i], c))
            || (r.acts[i] == SetState(c) && DownAt(r.states[i].server, c))
  {
    hide ClosesAt, DownAt;
    if SetLate(r, i, c) && !ClosesAt(r.states[i].server, r.acts[i], c) {
      var k :| 0 <= k < i && r.acts[k] == SetState(c) && DownAt(r.states[k].server, c) && NoCloseSince(r, k, i, c);
      assert NoCloseSince(r, k, i + 1, c);
    }
    if r.acts[i] == SetState(c) && DownAt(r.states[i].server, c) {
      assert NoCloseSince(r, i, i + 1, c);
    }
    if SetLate(r, i + 1, c) {
      var k :| && 0 <= k < i + 1 && r.acts[k] == SetState(c)
               && DownAt(r.states[k].server, c) && NoCloseSince(r, k, i + 1, c);
      if k < i {
        assert NoCloseSince(r, k, i, c) && !ClosesAt(r.states[i].server, r.acts[i], c);
      }
    }
  }

  lemma NotLateByItself(cfg: Config, s: State, b: Action, c: ConnId)
    requires Enabled(s, b) && !b.Shutdown? && c in s.conns && !Late(s.conns[c]) && (b.Accept? ==> c != s.nextId)
    ensures c in Next(cfg, s, b).conns && !Late(Next(cfg, s, b).conns[c])
  {
  }

  lemma LateStays(cfg: Config, s: State, b: Action, c: ConnId)
    requires Enabled(s, b) && !b.Shutdown? && c in s.conns && Late(s.conns[c]) && (b.Accept? ==> c != s.nextId)
    requires b.RunTask? ==> s.loops[b.l].batch[0] != EstablishTask(c)
    ensures c in Next(cfg, s, b).conns
    ensures Late(Next(cfg, s, b).conns[c]) <==> !(b.Close? && s.loops[b.l].pc.c == c)
  {
  }

  lemma PlainLate(cfg: Config, s: State, b: Action, c: ConnId)
    requires RoughInv(cfg, s) && Enabled(s, b) && !b.Shutdown? && c in s.conns
    ensures c in Next(cfg, s, b).conns
    ensures Late(Next(cfg, s, b).conns[c]) <==> Late(s.conns[c]) && !(b.Close? && s.loops[b.l].pc.c == c)
  {
    hide RoughInv, Late, Next;
    NextIdIsNew(cfg, s);
    if Late(s.conns[c]) {
      if b.RunTask? {
        HeadFinds(cfg, s, b.l);
      }
      assert s.conns[c].state.Disconnecting? by { LateIsDisconnecting(s.conns[c]); }
      LateStays(cfg, s, b, c);
    } else {
      NotLateByItself(cfg, s, b, c);
    }
  }

  lemma LateIsDisconnecting(rec: ConnRec)
    requires Late(rec)
    ensures rec.state.Disconnecting? && WentDown in rec.life
  {
  }

  lemma RecordLate(cfg: Config, s: State, c: ConnId)
    requires RoughInv(cfg, s) && c in s.conns
    ensures s.conns[c].state.Disconnected? ==> WentDown in s.conns[c].life
    ensures WentDown in s.conns[c].life ==> s.conns[c].state.Disconnected? || Late(s.conns[c])
  {
    hide RoughInv;
    StateIsAFit(cfg, s, c);
  }

  /** A set makes a connection late exactly when it finds it down, and a close ends it. */
  lemma LateStep(cfg: Config, s: Racing, a: RaceAction, c: ConnId)
    requires RoughInv(cfg, s.server) && TestedFit(s) && CanDo(s, a) && c in s.server.conns
    ensures c in Do(cfg, s, a).server.conns
    ensures Late(Do(cfg, s, a).server.conns[c]) <==>
            || (Late(s.server.conns[c]) && !ClosesAt(s.server, a, c))
            || (a == SetState(c) && DownAt(s.server, c))
  {
    hide RoughInv, Next, TestedFit;
    RecordLate(cfg, s.server, c);
    match a {
      case Plain(b) => PlainLate(cfg, s.server, b, c);
      case Resend(l) => PlainLate(cfg, s.server, RunTask(l), c);
      case _ =>
    }
    hide RoughInv;
  }

  /** A connection is found Disconnecting after it went down if and only if some set came late and no close
      has come since. */
  lemma {:induction false} LateIffSetLate(cfg: Config, r: RaceRun, i: nat, c: ConnId)
    requires cfg.Valid() && IsRaceRun(cfg, r) && i < |r.states| && c in r.states[i].server.conns
    ensures Late(r.states[i].server.conns[c]) <==> SetLate(r, i, c)
  {
    hide Do, CanDo, Late, RoughInv, TestedFit, DownAt, ClosesAt;
    if i > 0 {
      var s := r.states[i - 1];
      StepOf(cfg, r, i - 1);
      RoughHolds(cfg, r, i - 1);
      SetLateGrows(r, i - 1, c);
      hide SetLate;
      if c in s.server.conns {
        LateIffSetLate(cfg, r, i - 1, c);
        LateStep(cfg, s, r.acts[i - 1], c);
      } else {
        NewIsOnTime(cfg, s, r.acts[i - 1], c);
        NeverSetBefore(cfg, r, i - 1, c);
      }
    }
  }

  lemma NewIsOnTime(cfg: Config, s: Racing, a: RaceAction, c: ConnId)
    requires CanDo(s, a) && c !in s.server.conns && c in Do(cfg, s, a).server.conns
    ensures !Late(Do(cfg, s, a).server.conns[c]) && a != SetState(c)
  {
  }

  lemma {:induction false} ConnsStay(cfg: Config, r: RaceRun, k: nat, i: nat, c: ConnId)
    requires cfg.Valid() && IsRaceRun(cfg, r) && k <= i < |r.states| && c in r.states[k].server.conns
    ensures c in r.states[i].server.conns
    decreases i
  {
    hide Do, CanDo, RoughInv, TestedFit, Late, ClosesAt, DownAt;
    if k < i {
      ConnsStay(cfg, r, k, i - 1, c);
      StepOf(cfg, r, i - 1);
      RoughHolds(cfg, r, i - 1);
      LateStep(cfg, r.states[i - 1], r.acts[i - 1], c);
    }
  }

  lemma NeverSetBefore(cfg: Config, r: RaceRun, i: nat, c: ConnId)
    requires cfg.Valid() && IsRaceRun(cfg, r) && i < |r.states| && c !in r.states[i].server.conns
    ensures !SetLate(r, i, c)
  {
    hide Do, CanDo;
    if SetLate(r, i, c) {
      var k :| 0 <= k < i && r.acts[k] == SetState(c) && DownAt(r.states[k].server, c) && NoCloseSince(r, k, i, c);
      ConnsStay(cfg, r, k, i, c);
    }
  }

  /** In every run handleClose is entered by a connection that is connected or disconnecting, as its assert
      demands: it may be its second close. */
  lemma CloseAssertHolds(cfg: Config, r: RaceRun, i: nat, l: LoopId)
    requires cfg.Valid() && IsRaceRun(cfg, r) && i < |r.acts| && r.acts[i] == Plain(Close(l))
    ensures var s := r.states[i].server; l in s.loops && s.loops[l].pc.Dispatching? && OpenOn(s, l, s.loops[l].pc.c)
  {
    StepOf(cfg, r, i);
    RoughHolds(cfg, r, i);
    hide IsRaceRun, Do;
    RoughParts(cfg, r.states[i].server, l, 0);
    hide RoughInv, RoughConn;
    CloseFindsItLive(r.states[i].server, l);
  }

  // ---------------------------------------------------------------- ownership and destruction

  /** In every run a connection whose destruction has not run is owned: whatever comes late, none is freed
      before it is destroyed. */
  lemma OwnedBeforeDestruction(cfg: Config, r: RaceRun, i: nat, c: ConnId)
    requires cfg.Valid() && IsRaceRun(cfg, r) && i < |r.states| && c in r.states[i].server.conns
    requires Destroyed !in r.states[i].server.conns[c].life
    ensures Owned(cfg, r.states[i].server, c)
  {
    RoughHolds(cfg, r, i);
    hide IsRaceRun;
    UndestroyedIsOwned(cfg, r.states[i].server, c);
  }

  lemma MappedIsItself(cfg: Config, s: State, c: ConnId)
    requires cfg.Valid() && RoughInv(cfg, s) && c in s.conns && cfg.NameOf(c) in s.connections
    ensures InMap(cfg, s, c)
  {
    hide RoughConn, RoughLoop;
    NameIsOwn(cfg, s, c);
  }

  lemma UndestroyedIsOwned(cfg: Config, s: State, c: ConnId)
    requires cfg.Valid() && RoughInv(cfg, s) && c in s.conns && Destroyed !in s.conns[c].life
    ensures Owned(cfg, s, c)
  {
    hide RoughInv, InMap, Config.Valid;
    if cfg.NameOf(c) in s.connections {
      MappedIsItself(cfg, s, c);
    } else {
      ErasedIsWaited(cfg, s, c);
    }
  }

  lemma ErasedIsWaited(cfg: Config, s: State, c: ConnId)
    requires RoughInv(cfg, s) && c in s.conns && cfg.NameOf(c) !in s.connections && Destroyed !in s.conns[c].life
    ensures InRemoval(s, c) || Waited(s, c)
  {
    hide ServerInv, RoughLoop, StateFits, QueuesFit;
    assert RoughConn(cfg, s, c);
    hide RoughInv;
    var l := s.conns[c].loop;
    if !InRemoval(s, c) {
      CountIsMembership(s, l, DestroyTask(c));
      hide Count, Line;
      assert DestroyTask(c).Owning();
    }
  }

  lemma UnownedHasGoneDown(cfg: Config, s: State, c: ConnId)
    requires cfg.Valid() && RoughInv(cfg, s) && c in s.conns && !Owned(cfg, s, c)
    ensures WentDown in s.conns[c].life
  {
    hide Waited, Held, InMap, Config.Valid;
    if cfg.NameOf(c) in s.connections {
      MappedIsItself(cfg, s, c);
    }
    hide ServerInv, RoughLoop, StateFits, QueuesFit;
    assert RoughConn(cfg, s, c);
  }

  /** The destructor's assert, in every run: a connection that nobody owns any more is down if and only if no
      set came late for it since its last close. */
  lemma DestructorAssertHoldsIff(cfg: Config, r: RaceRun, i: nat, c: ConnId)
    requires cfg.Valid() && IsRaceRun(cfg, r) && i < |r.states| && c in r.states[i].server.conns
    requires !Owned(cfg, r.states[i].server, c)
    ensures r.states[i].server.conns[c].state.Disconnected? <==> !SetLate(r, i, c)
  {
    LateIffSetLate(cfg, r, i, c);
    RoughHolds(cfg, r, i);
    hide IsRaceRun, SetLate, RoughInv, Owned;
    UnownedHasGoneDown(cfg, r.states[i].server, c);
    RecordLate(cfg, r.states[i].server, c);
  }

  /** And connectDestroyed finds its connection down if and only if no set came late for it since its last
      close. */
  lemma DestructionFindsItDownIff(cfg: Config, r: RaceRun, i: nat, l: LoopId)
    requires cfg.Valid() && IsRaceRun(cfg, r) && i < |r.acts| && r.acts[i] == Plain(RunTask(l))
    requires l in r.states[i].server.loops && r.states[i].server.loops[l].batch != []
    requires r.states[i].server.loops[l].batch[0].DestroyTask?
    ensures var s := r.states[i].server;
            var c := s.loops[l].batch[0].c;
            c in s.conns && (s.conns[c].state.Disconnected? <==> !SetLate(r, i, c))
  {
    var s := r.states[i];
    var c := s.server.loops[l].batch[0].c;
    StepOf(cfg, r, i);
    RoughHolds(cfg, r, i);
    hide IsRaceRun, Do, SetLate, RoughInv;
    HeadFinds(cfg, s.server, l);
    LateIffSetLate(cfg, r, i, c);
    RecordLate(cfg, s.server, c);
  }

  // ---------------------------------------------------------------- callbacks

  function Downs(life: seq<Life>): nat {
    multiset(life)[WentDown]
  }

  lemma {:induction false} CallbacksOf(life: seq<Life>)
    requires life != [] && UpFirst(life)
    ensures Callbacks(life) == [CameUp] + seq(Downs(life), _ => WentDown)
  {
    var n := |life| - 1;
    assert life == life[..n] + [life[n]];
    if n > 0 {
      CallbacksOf(life[..n]);
      assert Downs(life) == Downs(life[..n]) + if life[n].WentDown? then 1 else 0;
    } else {
      assert life[..0] == [] && life == [CameUp];
    }
  }

  /** In every run the user sees a connection come up and then go down once for each close. */
  lemma UpThenDowns(cfg: Config, r: RaceRun, i: nat, c: ConnId)
    requires cfg.Valid() && IsRaceRun(cfg, r) && i < |r.states| && c in r.states[i].server.conns
    ensures var life := r.states[i].server.conns[c].life;
            Callbacks(life) == if life == [] then [] else [CameUp] + seq(Downs(life), _ => WentDown)
  {
    RoughHolds(cfg, r, i);
    hide IsRaceRun, RoughInv;
    StateIsAFit(cfg, r.states[i].server, c);
    var life := r.states[i].server.conns[c].life;
    if life != [] {
      CallbacksOf(life);
    }
  }

  /** Among the first `i` steps some close found the connection gone down before. */
  predicate ClosedAgain(r: RaceRun, i: nat, c: ConnId)
    requires i <= |r.acts| <= |r.states|
  {
    exists k :: 0 <= k < i && ClosesAt(r.states[k].server, r.acts[k], c) && DownIn(r.states[k].server, c)
  }

  lemma PlainDowns(cfg: Config, s: State, b: Action, c: ConnId)
    requires Enabled(s, b) && !b.Shutdown? && c in s.conns && (b.Accept? ==> c != s.nextId)
    requires b.RunTask? && s.loops[b.l].batch[0] == DestroyTask(c) ==> !s.conns[c].state.Connected?
    ensures c in Next(cfg, s, b).conns
    ensures Downs(Next(cfg, s, b).conns[c].life) ==
            Downs(s.conns[c].life) + if b.Close? && s.loops[b.l].pc.c == c then 1 else 0
  {
    assert multiset(s.conns[c].life + [WentDown]) == multiset(s.conns[c].life) + multiset{WentDown};
  }

  lemma DownsStep(cfg: Config, s: Racing, a: RaceAction, c: ConnId)
    requires RoughInv(cfg, s.server) && CanDo(s, a) && c in s.server.conns
    ensures c in Do(cfg, s, a).server.conns
    ensures Downs(Do(cfg, s, a).server.conns[c].life) ==
            Downs(s.server.conns[c].life) + if ClosesAt(s.server, a, c) then 1 else 0
  {
    hide RoughInv, Next, Downs;
    NextIdIsNew(cfg, s.server);
    match a {
      case Plain(b) =>
        if b.RunTask? {
          HeadFinds(cfg, s.server, b.l);
          StateIsAFit(cfg, s.server, s.server.loops[b.l].batch[0].c);
        }
        PlainDowns(cfg, s.server, b, c);
      case Resend(l) => FunctorKeepsConns(cfg, s.server, l);
      case _ =>
    }
  }

  lemma {:induction false} DownsIffClosedAgain(cfg: Config, r: RaceRun, i: nat, c: ConnId)
    requires cfg.Valid() && IsRaceRun(cfg, r) && i < |r.states| && c in r.states[i].server.conns
    ensures Downs(r.states[i].server.conns[c].life) <= 1 <==> !ClosedAgain(r, i, c)
  {
    hide Do, CanDo, RoughInv, TestedFit, ClosesAt;
    if i > 0 {
      var s := r.states[i - 1];
      StepOf(cfg, r, i - 1);
      RoughHolds(cfg, r, i - 1);
      if c in s.server.conns {
        DownsIffClosedAgain(cfg, r, i - 1, c);
        DownsStep(cfg, s, r.acts[i - 1], c);
        ClosedAgainGrows(r, i - 1, c);
        hide ClosedAgain, IsRaceRun;
      } else {
        NewHasNotGoneDown(cfg, s, r.acts[i - 1], c);
        NeverClosedBefore(cfg, r, i, c);
      }
    }
  }

  lemma ClosedAgainGrows(r: RaceRun, i: nat, c: ConnId)
    requires i < |r.acts| <= |r.states|
    ensures ClosedAgain(r, i + 1, c) <==>
            ClosedAgain(r, i, c) || (ClosesAt(r.states[i].server, r.acts[i], c) && DownIn(r.states[i].server, c))
  {
    hide ClosesAt, DownIn;
  }

  lemma NewHasNotGoneDown(cfg: Config, s: Racing, a: RaceAction, c: ConnId)
    requires CanDo(s, a) && c !in s.server.conns && c in Do(cfg, s, a).server.conns
    ensures Downs(Do(cfg, s, a).server.conns[c].life) == 0
  {
  }

  lemma NeverClosedBefore(cfg: Config, r: RaceRun, i: nat, c: ConnId)
    requires cfg.Valid() && IsRaceRun(cfg, r) && 0 < i < |r.states| && c !in r.states[i - 1].server.conns
    ensures !ClosedAgain(r, i, c)
  {
    hide Do, CanDo;
    if ClosedAgain(r, i, c) {
      var k :| 0 <= k < i && ClosesAt(r.states[k].server, r.acts[k], c) && DownIn(r.states[k].server, c);
      ConnsStay(cfg, r, k, i - 1, c);
    }
  }

  /** In every run the callbacks are up and down, never more, if and only if no close found the connection
      gone down before. */
  lemma CallbacksInOrderIff(cfg: Config, r: RaceRun, i: nat, c: ConnId)
    requires cfg.Valid() && IsRaceRun(cfg, r) && i < |r.states| && c in r.states[i].server.conns
    ensures Callbacks(r.states[i].server.conns[c].life) <= [CameUp, WentDown] <==> !ClosedAgain(r, i, c)
  {
    UpThenDowns(cfg, r, i, c);
    DownsIffClosedAgain(cfg, r, i, c);
    hide IsRaceRun, Callbacks, ClosedAgain;
    var n := Downs(r.states[i].server.conns[c].life);
    hide Downs;
    if n > 1 {
      assert ([CameUp] + seq(n, _ => WentDown))[2] == WentDown;
    } else {
      assert seq(n, _ => WentDown) == if n == 0 then [] else [WentDown];
    }
  }
}
