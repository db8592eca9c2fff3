/**
 A server whose shutdown tests `state_` in one access and sets it in another (muduo/TcpConnection.cpp).  A
 set may find its connection gone down, and then leaves it Disconnecting; a send that was queued before may
 then put its channel back into the poller, and its loop may close it again.
 */
module LateShutdown {
  import opened Common
  import opened RoundRobin
  import opened Server

  /** The server, and which connections a thread has found connected and not yet set; one entry a thread. */
  datatype Racing = Racing(server: State, tested: multiset<ConnId>)

  datatype RaceAction =
    | Plain(a: Action)
    | Test(c: ConnId)
    | SetState(c: ConnId)
    | Resend(l: LoopId)     // a queued send of a connection set late that the socket does not take whole
    | Drain(l: LoopId)      // a write event that empties its buffer

  /** The connection went down and its state was set after that. */
  predicate Late(rec: ConnRec) {
    rec.state.Disconnecting? && WentDown in rec.life
  }

  predicate LateAt(s: State, c: ConnId) {
    c in s.conns && Late(s.conns[c])
  }

  predicate CanDo(s: Racing, a: RaceAction) {
    match a
    case Plain(b) => Enabled(s.server, b) && !b.Shutdown?
    case Test(c) => c in s.server.conns
    case SetState(c) => c in s.server.conns && s.tested[c] > 0
    case Resend(l) =>
      && Enabled(s.server, RunTask(l)) && LateAt(s.server, s.server.loops[l].batch[0].c)
      && s.server.loops[l].batch[0].FunctorTask? && !s.server.loops[l].batch[0].owns
    case Drain(l) =>
      l in s.server.loops && s.server.loops[l].pc.Dispatching? && LateAt(s.server, s.server.loops[l].pc.c)
  }

  function Watch(s: State, c: ConnId): State {
    if c in s.conns then Update(s, c, s.conns[c].(listed := true, watched := true)) else s
  }

  function Unwatch(s: State, c: ConnId): State {
    if c in s.conns then Update(s, c, s.conns[c].(watched := false)) else s
  }

  function Do(cfg: Config, s: Racing, a: RaceAction): Racing
    requires CanDo(s, a)
  {
    match a
    case Plain(b) => s.(server := Next(cfg, s.server, b))
    case Test(c) => if s.server.conns[c].state.Connected? then s.(tested := s.tested + multiset{c}) else s
    case SetState(c) =>
      Racing(Update(s.server, c, s.server.conns[c].(state := Disconnecting)), s.tested - multiset{c})
    case Resend(l) => s.(server := Watch(Next(cfg, s.server, RunTask(l)), s.server.loops[l].batch[0].c))
    case Drain(l) => s.(server := Unwatch(s.server, s.server.loops[l].pc.c))
  }

  datatype RaceRun = RaceRun(states: seq<Racing>, acts: seq<RaceAction>)

  ghost predicate IsRaceRun(cfg: Config, r: RaceRun) {
    && |r.states| == |r.acts| + 1
    && r.states[0] == Racing(Initial(cfg), multiset{})
    && forall i {:trigger r.acts[i]} :: 0 <= i < |r.acts| ==>
         CanDo(r.states[i], r.acts[i]) && r.states[i + 1] == Do(cfg, r.states[i], r.acts[i])
  }

  lemma StepOf(cfg: Config, r: RaceRun, i: nat)
    requires IsRaceRun(cfg, r) && i < |r.acts|
    ensures i + 1 < |r.states| && CanDo(r.states[i], r.acts[i])
    ensures r.states[i + 1] == Do(cfg, r.states[i], r.acts[i])
  {
    hide Do, CanDo;
  }
}
