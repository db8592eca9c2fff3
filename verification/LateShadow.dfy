/** The runs in which no connection set late does anything more: all but its state is as it should be. */
module LateShadow {
  import opened Common
  import opened RoundRobin
  import opened Server
  import opened ServerInvariant
  import opened FunctorOrder
  import opened ServerTheorems
  import opened LateShutdown
  import opened LateInvariant

  /** No send of a connection set late is left over by the socket, and none leads to a notice. */
  predicate QuietStep(s: Racing, a: RaceAction) {
    !a.Resend? && !a.Drain? && (a.Plain? && a.a.PushFunctor? && a.a.owns ==> !LateAt(s.server, a.a.c))
  }

  ghost predicate Quiet(r: RaceRun, n: nat)
    requires n <= |r.acts| <= |r.states|
  {
    forall i :: 0 <= i < n ==> QuietStep(r.states[i], r.acts[i])
  }

  function OnTime(rec: ConnRec): ConnRec {
    if Late(rec) then rec.(state := Disconnected) else rec
  }

  /** The same server, had no set come late. */
  function Shadow(s: State): State {
    s.(conns := AllOnTime(s.conns))
  }

  function AllOnTime(conns: map<ConnId, ConnRec>): map<ConnId, ConnRec> {
    map c | c in conns :: OnTime(conns[c])
  }

  function ShadowAction(s: Racing, a: RaceAction): Option<Action>
    requires CanDo(s, a) && QuietStep(s, a)
  {
    match a
    case Plain(b) => Some(b)
    case Test(_) => None
    case SetState(c) => if s.server.conns[c].state.Connected? then Some(Shutdown(c)) else None
  }

  ghost predicate RaceInv(cfg: Config, s: Racing) {
    && Inv(cfg, Shadow(s.server))
    && (forall c :: s.tested[c] > 0 ==> c in s.server.conns && !s.server.conns[c].state.Connecting?)
  }

  lemma DownByLife(life: seq<Life>, p: Phase)
    requires LifeFits(life, p)
    ensures WentDown in life <==> !p.EstablishQueued? && !p.Open?
  {
    if ClosedLife(life) {
      assert life[|life| - 1] == WentDown;
    } else if GoneLife(life) {
      assert life[..|life| - 1][|life| - 2] == WentDown;
    }
  }

  /** In the server a connection is down exactly when it has gone down in its life. */
  lemma DownMeansGoneDown(cfg: Config, s: State, c: ConnId)
    requires Inv(cfg, s) && c in s.conns
    ensures s.conns[c].state.Disconnected? <==> WentDown in s.conns[c].life
  {
    hide LoopInv, ServerInv, LifeFits, Tokens;
    assert ConnInv(cfg, s, c);
    DownByLife(s.conns[c].life, PhaseOf(cfg, s, c));
  }

  lemma OnTimeUpdate(conns: map<ConnId, ConnRec>, c: ConnId, rec: ConnRec)
    ensures AllOnTime(conns[c := rec]) == AllOnTime(conns)[c := OnTime(rec)]
  {
    hide OnTime;
  }

  lemma OnTimeStays(conns: map<ConnId, ConnRec>, c: ConnId, rec: ConnRec)
    requires c in conns && OnTime(rec) == OnTime(conns[c])
    ensures AllOnTime(conns[c := rec]) == AllOnTime(conns)
  {
    hide OnTime;
  }

  lemma SetIsShadowed(cfg: Config, s: Racing, c: ConnId)
    requires RaceInv(cfg, s) && CanDo(s, SetState(c))
    ensures var b, t := ShadowAction(s, SetState(c)), Shadow(Do(cfg, s, SetState(c)).server);
            if b.Some? then Enabled(Shadow(s.server), b.value) && t == Next(cfg, Shadow(s.server), b.value)
            else t == Shadow(s.server)
  {
    hide Inv, AllOnTime;
    var conns, rec := s.server.conns, s.server.conns[c];
    assert c in AllOnTime(conns) && AllOnTime(conns)[c] == OnTime(rec) by { OnTimeAt(conns, c); }
    DownMeansGoneDown(cfg, Shadow(s.server), c);
    if rec.state.Connected? {
      OnTimeUpdate(conns, c, rec.(state := Disconnecting));
    } else {
      OnTimeStays(conns, c, rec.(state := Disconnecting));
    }
  }

  lemma OnTimeAt(conns: map<ConnId, ConnRec>, c: ConnId)
    requires c in conns
    ensures c in AllOnTime(conns) && AllOnTime(conns)[c] == OnTime(conns[c])
  {
  }

  lemma OnTimeKeys(conns: map<ConnId, ConnRec>)
    ensures AllOnTime(conns).Keys == conns.Keys
    ensures forall c :: c in conns ==> AllOnTime(conns)[c] == OnTime(conns[c])
  {
  }

  /** What no step but a shutdown and a notice asks of a connection is the same on time. */
  lemma PlainIsEnabled(s: Racing, b: Action)
    requires CanDo(s, Plain(b)) && QuietStep(s, Plain(b))
    ensures Enabled(Shadow(s.server), b)
  {
    OnTimeKeys(s.server.conns);
    hide AllOnTime;
  }

  /** The steps that change a connection's record, or look at more of it than its loop. */
  predicate LooksAtOne(b: Action) {
    b.Dispatch? || b.Close? || b.RunTask? || b.Accept? || b.PushFunctor?
  }

  lemma OthersAreShadowed(cfg: Config, s: State, b: Action)
    requires Enabled(s, b) && Enabled(Shadow(s), b) && !b.Shutdown? && !LooksAtOne(b)
    ensures Shadow(Next(cfg, s, b)) == Next(cfg, Shadow(s), b)
  {
    OnTimeKeys(s.conns);
    hide AllOnTime;
  }

  lemma PushIsShadowed(cfg: Config, s: State, c: ConnId, owns: bool)
    requires Enabled(s, PushFunctor(c, owns)) && Enabled(Shadow(s), PushFunctor(c, owns))
    ensures Shadow(Next(cfg, s, PushFunctor(c, owns))) == Next(cfg, Shadow(s), PushFunctor(c, owns))
  {
    OnTimeAt(s.conns, c);
    hide AllOnTime;
  }

  lemma RecordsCommute(rec: ConnRec)
    ensures OnTime(rec.(life := rec.life + [Event])) == OnTime(rec).(life := rec.life + [Event])
    ensures OnTime(ClosedRec(rec)) == ClosedRec(OnTime(rec))
    ensures OnTime(Established(rec)) == Established(OnTime(rec))
    ensures OnTime(DestroyedRec(rec)) == DestroyedRec(OnTime(rec))
  {
  }

  lemma DispatchIsShadowed(cfg: Config, s: State, l: LoopId)
    requires Enabled(s, Dispatch(l)) && Enabled(Shadow(s), Dispatch(l))
    ensures Shadow(Next(cfg, s, Dispatch(l))) == Next(cfg, Shadow(s), Dispatch(l))
  {
    var c := s.loops[l].active[0];
    OnTimeKeys(s.conns);
    hide AllOnTime;
    if c in s.conns {
      RecordsCommute(s.conns[c]);
      hide OnTime;
      OnTimeUpdate(s.conns, c, s.conns[c].(life := s.conns[c].life + [Event]));
    }
  }

  lemma CloseIsShadowed(cfg: Config, s: State, l: LoopId)
    requires Enabled(s, Close(l)) && Enabled(Shadow(s), Close(l))
    ensures Shadow(Next(cfg, s, Close(l))) == Next(cfg, Shadow(s), Close(l))
  {
    var c := s.loops[l].pc.c;
    OnTimeKeys(s.conns);
    hide AllOnTime;
    if c in s.conns {
      RecordsCommute(s.conns[c]);
      hide OnTime, ClosedRec;
      OnTimeUpdate(s.conns, c, ClosedRec(s.conns[c]));
    }
  }

  lemma RunTaskIsShadowed(cfg: Config, s: State, l: LoopId)
    requires Enabled(s, RunTask(l)) && Enabled(Shadow(s), RunTask(l))
    ensures Shadow(Next(cfg, s, RunTask(l))) == Next(cfg, Shadow(s), RunTask(l))
  {
    var c := s.loops[l].batch[0].c;
    OnTimeKeys(s.conns);
    hide AllOnTime;
    if c in s.conns {
      RecordsCommute(s.conns[c]);
      hide OnTime, Established, DestroyedRec;
      OnTimeUpdate(s.conns, c, Established(s.conns[c]));
      OnTimeUpdate(s.conns, c, DestroyedRec(s.conns[c]));
    }
  }

  lemma AcceptIsShadowed(cfg: Config, s: State)
    requires Enabled(s, Accept) && Enabled(Shadow(s), Accept)
    ensures Shadow(Next(cfg, s, Accept)) == Next(cfg, Shadow(s), Accept)
  {
    var c, rec := s.nextId, Next(cfg, s, Accept).conns[s.nextId];
    assert Next(cfg, s, Accept).conns == s.conns[c := rec] && OnTime(rec) == rec;
    OnTimeUpdate(s.conns, c, rec);
    hide AllOnTime, OnTime;
  }

  /** A late set changes nothing that any other step looks at. */
  lemma PlainIsShadowed(cfg: Config, s: Racing, b: Action)
    requires CanDo(s, Plain(b)) && QuietStep(s, Plain(b))
    ensures Enabled(Shadow(s.server), b)
    ensures Shadow(Next(cfg, s.server, b)) == Next(cfg, Shadow(s.server), b)
  {
    PlainIsEnabled(s, b);
    assert Enabled(s.server, b) && !b.Shutdown?;
    hide Enabled, Next, Shadow, CanDo;
    match b
    case Accept => AcceptIsShadowed(cfg, s.server);
    case Dispatch(l) => DispatchIsShadowed(cfg, s.server, l);
    case Close(l) => CloseIsShadowed(cfg, s.server, l);
    case RunTask(l) => RunTaskIsShadowed(cfg, s.server, l);
    case PushFunctor(c, owns) => PushIsShadowed(cfg, s.server, c, owns);
    case _ => OthersAreShadowed(cfg, s.server, b);
  }

  /** Whatever the racing server does, its shadow does a step of the server or none. */
  lemma StepIsShadowed(cfg: Config, s: Racing, a: RaceAction)
    requires RaceInv(cfg, s) && CanDo(s, a) && QuietStep(s, a)
    ensures var b, t := ShadowAction(s, a), Shadow(Do(cfg, s, a).server);
            if b.Some? then Enabled(Shadow(s.server), b.value) && t == Next(cfg, Shadow(s.server), b.value)
            else t == Shadow(s.server)
  {
    match a {
      case Plain(b) => PlainIsShadowed(cfg, s, b);
      case Test(_) =>
      case SetState(c) => SetIsShadowed(cfg, s, c);
    }
    hide Shadow, Next, Enabled, RaceInv;
  }

  // ---------------------------------------------------------------- runs

  lemma NextIdIsFresh(cfg: Config, s: State)
    requires Inv(cfg, Shadow(s))
    ensures s.nextId !in s.conns
  {
    assert ServerInv(cfg, Shadow(s));
    OnTimeKeys(s.conns);
    hide LoopInv, ConnInv, AllOnTime;
  }

  lemma RaceStep(cfg: Config, s: Racing, a: RaceAction)
    requires cfg.Valid() && RaceInv(cfg, s) && CanDo(s, a) && QuietStep(s, a)
    ensures RaceInv(cfg, Do(cfg, s, a))
  {
    StepIsShadowed(cfg, s, a);
    NextIdIsFresh(cfg, s.server);
    hide Inv, Shadow, Next, Enabled, Config.Valid;
    if ShadowAction(s, a).Some? {
      InvStep(cfg, Shadow(s.server), ShadowAction(s, a).value);
    }
    var t := Do(cfg, s, a);
    forall c | t.tested[c] > 0
      ensures c in t.server.conns && !t.server.conns[c].state.Connecting?
    {
      if a.Plain? {
        assert Enabled(s.server, a.a);
        NeverConnectsAgain(cfg, s.server, a.a, c);
      }
    }
  }

  lemma {:induction false} RaceInvHolds(cfg: Config, r: RaceRun, i: nat)
    requires cfg.Valid() && IsRaceRun(cfg, r) && i < |r.states| && Quiet(r, i)
    ensures RaceInv(cfg, r.states[i])
  {
    hide RaceInv, Do, CanDo, QuietStep;
    if i == 0 {
      StartHolds(cfg);
    } else {
      RaceInvHolds(cfg, r, i - 1);
      RaceStep(cfg, r.states[i - 1], r.acts[i - 1]);
    }
  }

  lemma StartHolds(cfg: Config)
    ensures RaceInv(cfg, Racing(Initial(cfg), multiset{})) && Shadow(Initial(cfg)) == Initial(cfg)
  {
    InitialInv(cfg);
    hide Inv;
    assert AllOnTime(map[]) == map[];
  }

  /** The run of the shadow. */
  function ShadowRun(cfg: Config, r: RaceRun, n: nat): Run
    requires IsRaceRun(cfg, r) && n <= |r.acts| && Quiet(r, n)
  {
    if n == 0 then Run([Initial(cfg)], [])
    else WithStep(ShadowRun(cfg, r, n - 1), ShadowAction(r.states[n - 1], r.acts[n - 1]), Shadow(r.states[n].server))
  }

  lemma ShadowRunStep(cfg: Config, r: RaceRun, i: nat)
    requires cfg.Valid() && IsRaceRun(cfg, r) && i < |r.acts| && Quiet(r, i + 1)
    requires EndsIn(cfg, ShadowRun(cfg, r, i), Shadow(r.states[i].server))
    ensures EndsIn(cfg, ShadowRun(cfg, r, i + 1), Shadow(r.states[i + 1].server))
  {
    StepOf(cfg, r, i);
    var s, b, before := r.states[i], ShadowAction(r.states[i], r.acts[i]), ShadowRun(cfg, r, i);
    assert ShadowRun(cfg, r, i + 1) == WithStep(before, b, Shadow(r.states[i + 1].server));
    RaceInvHolds(cfg, r, i);
    hide IsRaceRun, EndsIn, WithStep, Shadow, Do, CanDo, Next, Enabled, RaceInv, ShadowAction, QuietStep;
    StepIsShadowed(cfg, s, r.acts[i]);
    StepExtends(cfg, before, Shadow(s.server), b, Shadow(r.states[i + 1].server));
  }

  /** With test and set apart, as long as no connection set late sends again, the server is, but for the
      states set late, in a run of the server whose shutdown is one step: whatever does not speak of those
      states holds of it. */
  lemma {:induction false} ShadowRunIsRun(cfg: Config, r: RaceRun, n: nat)
    requires cfg.Valid() && IsRaceRun(cfg, r) && n <= |r.acts| && Quiet(r, n)
    ensures EndsIn(cfg, ShadowRun(cfg, r, n), Shadow(r.states[n].server))
  {
    hide Do, CanDo, Next, Enabled, Shadow, QuietStep;
    StartHolds(cfg);
    if n > 0 {
      ShadowRunIsRun(cfg, r, n - 1);
      hide ShadowRun;
      ShadowRunStep(cfg, r, n - 1);
    }
  }

  /** As long as no connection set late sends again, a connection is owned until its destruction has run, and
      its callbacks are up and down. */
  lemma OwnershipSurvives(cfg: Config, r: RaceRun, i: nat, c: ConnId)
    requires cfg.Valid() && IsRaceRun(cfg, r) && i < |r.states| && c in r.states[i].server.conns && Quiet(r, i)
    ensures var s := r.states[i].server;
            && (Owned(cfg, s, c) <==> Destroyed !in s.conns[c].life || Held(s, c))
            && (s.conns[c].listed ==> Owned(cfg, s, c))
            && Callbacks(s.conns[c].life) <= [CameUp, WentDown]
  {
    ShadowRunIsRun(cfg, r, i);
    var s, t := r.states[i].server, ShadowRun(cfg, r, i);
    OnTimeKeys(s.conns);
    SameOwners(cfg, s, c);
    hide IsRaceRun, AllOnTime, ShadowRun, Owned, Held, IsRun, Callbacks;
    OwnedUntilDestroyed(cfg, t, |t.states| - 1, c);
    LifeInOrder(cfg, t, |t.states| - 1, c);
  }

  lemma SameOwners(cfg: Config, s: State, c: ConnId)
    ensures Owned(cfg, Shadow(s), c) == Owned(cfg, s, c) && Held(Shadow(s), c) == Held(s, c)
  {
    hide AllOnTime;
    assert Waited(Shadow(s), c) == Waited(s, c) by { SameWaits(s, c); }
  }

  lemma SameWaits(s: State, c: ConnId)
    ensures Waited(Shadow(s), c) == Waited(s, c)
  {
    assert forall l :: l in s.loops ==> Line(Shadow(s), l) == Line(s, l);
    hide AllOnTime;
  }
}
