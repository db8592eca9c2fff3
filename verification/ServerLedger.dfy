/** What a server's loops do with what is reported to them and with what they are handed, step by step. */
module ServerLedger {
  import opened Common
  import opened RoundRobin
  import opened Server
  import opened ServerInvariant
  import opened ServerTheorems

  lemma StepOf(cfg: Config, r: Run, i: nat)
    requires IsRun(cfg, r) && i < |r.acts|
    ensures i + 1 < |r.states| && Enabled(r.states[i], r.acts[i])
    ensures r.states[i + 1] == Next(cfg, r.states[i], r.acts[i])
  {
    hide Next, Enabled;
  }

  // ---------------------------------------------------------------- events

  /** The connection whose handleEvent is in progress on the loop. */
  function InProgress(s: State, l: LoopId): seq<ConnId> {
    if l in s.loops && s.loops[l].pc.Dispatching? then [s.loops[l].pc.c] else []
  }

  /** The connections whose events loop `l` begins to dispatch in steps `i` to `j`, in order. */
  function Dispatched(r: Run, i: nat, j: nat, l: LoopId): seq<ConnId>
    requires i <= j <= |r.acts| < |r.states|
  {
    if i == j then []
    else Dispatched(r, i, j - 1, l) + if r.acts[j - 1] == Dispatch(l) then InProgress(r.states[j], l) else []
  }

  lemma ActiveStep(cfg: Config, s: State, a: Action, l: LoopId)
    requires Enabled(s, a) && l in s.loops && a != StartBatch(l) && !(a.Poll? && a.l == l)
    ensures l in Next(cfg, s, a).loops
    ensures var t := Next(cfg, s, a);
            (if a == Dispatch(l) then InProgress(t, l) else []) + t.loops[l].active == s.loops[l].active
  {
    hide BeforeDestruction, Execute;
    assert [] + s.loops[l].active == s.loops[l].active;
    if a.RunTask? {
      RunTaskStep(cfg, s, a.l, l);
      hide Next;
    }
  }

  /** A functor leaves what waits to be dispatched, and only the loop that runs it begins it. */
  lemma RunTaskStep(cfg: Config, s: State, k: LoopId, l: LoopId)
    requires Enabled(s, RunTask(k)) && l in s.loops
    ensures var t := Next(cfg, s, RunTask(k));
            && l in t.loops && t.loops[l].active == s.loops[l].active
            && if l == k then InBatch(t.loops[l].pc) else t.loops[l] == s.loops[l]
  {
    hide BeforeDestruction, Execute;
    ExecuteKeepsLoops(cfg, Popped(s, k), s.loops[k].batch[0]);
  }

  lemma PollGives(cfg: Config, s: State, l: LoopId, active: seq<ConnId>)
    requires Enabled(s, Poll(l, active))
    ensures var t := Next(cfg, s, Poll(l, active)); l in t.loops && t.loops[l].active == active
  {
  }

  /** No poll returns on the loop and no batch starts in steps `i` to `j`. */
  predicate SamePass(r: Run, i: nat, j: nat, l: LoopId)
    requires i <= j <= |r.acts|
  {
    forall k :: i <= k < j ==> r.acts[k] != StartBatch(l) && !(r.acts[k].Poll? && r.acts[k].l == l)
  }

  /** After a poll the loop dispatches exactly what was reported to it, each once and in the order reported:
      what has begun and what still waits are together the report. */
  lemma {:induction false} ReportIsDispatchedInOrder(cfg: Config, r: Run, i: nat, j: nat, l: LoopId,
                                                     active: seq<ConnId>)
    requires IsRun(cfg, r) && i < j <= |r.acts| < |r.states| && r.acts[i] == Poll(l, active)
    requires SamePass(r, i + 1, j, l)
    ensures l in r.states[j].loops && Dispatched(r, i + 1, j, l) + r.states[j].loops[l].active == active
    decreases j
  {
    hide Next, Enabled, IsRun, InProgress;
    if j == i + 1 {
      StepOf(cfg, r, i);
      PollGives(cfg, r.states[i], l, active);
      assert [] + active == active;
    } else {
      ReportIsDispatchedInOrder(cfg, r, i, j - 1, l, active);
      StepOf(cfg, r, j - 1);
      ActiveStep(cfg, r.states[j - 1], r.acts[j - 1], l);
    }
  }

  /** And the batch begins only when the report is used up. */
  lemma WholeReportIsDispatched(cfg: Config, r: Run, i: nat, j: nat, l: LoopId, active: seq<ConnId>)
    requires IsRun(cfg, r) && i < j < |r.acts| < |r.states| && SamePass(r, i + 1, j, l)
    requires r.acts[i] == Poll(l, active) && r.acts[j] == StartBatch(l)
    ensures Dispatched(r, i + 1, j, l) == active
  {
    hide Next;
    ReportIsDispatchedInOrder(cfg, r, i, j, l, active);
    StepOf(cfg, r, j);
    hide IsRun;
    assert Dispatched(r, i + 1, j, l) + [] == Dispatched(r, i + 1, j, l);
  }

  /** How often the events of `c` have begun to be dispatched. */
  function Dispatches(r: Run, n: nat, c: ConnId): nat
    requires n <= |r.acts| < |r.states|
  {
    if n == 0 then 0
    else
      var begins := r.acts[n - 1].Dispatch? && InProgress(r.states[n], r.acts[n - 1].l) == [c];
      Dispatches(r, n - 1, c) + if begins then 1 else 0
  }

  function Events(life: seq<Life>): nat {
    multiset(life)[Event]
  }

  lemma EventsStep(cfg: Config, s: State, a: Action, c: ConnId)
    requires Enabled(s, a) && c in s.conns && (a.Accept? ==> c != s.nextId)
    ensures var t := Next(cfg, s, a);
            && c in t.conns
            && Events(t.conns[c].life) ==
               Events(s.conns[c].life) + if a.Dispatch? && InProgress(t, a.l) == [c] then 1 else 0
  {
    hide BeforeDestruction;
    if a.RunTask? {
      ExecuteAddsNoEvent(cfg, Popped(s, a.l), s.loops[a.l].batch[0], c);
      hide Execute;
    }
  }

  lemma ExecuteAddsNoEvent(cfg: Config, s: State, u: Task, c: ConnId)
    requires c in s.conns
    ensures c in Execute(cfg, s, u).conns && Events(Execute(cfg, s, u).conns[c].life) == Events(s.conns[c].life)
  {
  }

  lemma NewHasNoEvents(cfg: Config, s: State, a: Action, c: ConnId)
    requires Enabled(s, a) && c !in s.conns && c in Next(cfg, s, a).conns
    ensures Events(Next(cfg, s, a).conns[c].life) == 0 && a.Accept?
  {
  }

  /** A connection's life records each of its dispatches. */
  lemma {:induction false} EventsAreDispatches(cfg: Config, r: Run, i: nat, c: ConnId)
    requires cfg.Valid() && IsRun(cfg, r) && i <= |r.acts| < |r.states|
    ensures c in r.states[i].conns ==> Events(r.states[i].conns[c].life) == Dispatches(r, i, c)
    ensures c !in r.states[i].conns ==> Dispatches(r, i, c) == 0
  {
    hide Next, Enabled, Inv, Events;
    if i > 0 {
      EventsAreDispatches(cfg, r, i - 1, c);
      StepOf(cfg, r, i - 1);
      InvHolds(cfg, r, i - 1);
      var s, a := r.states[i - 1], r.acts[i - 1];
      if c in s.conns {
        assert s.nextId !in s.conns by { NextIsNew(cfg, s); }
        EventsStep(cfg, s, a, c);
      } else {
        if a.Dispatch? {
          DispatchOfTheKnown(cfg, s, a, c);
        }
        if c in r.states[i].conns {
          NewHasNoEvents(cfg, s, a, c);
        }
      }
    }
  }

  lemma NextIsNew(cfg: Config, s: State)
    requires Inv(cfg, s)
    ensures s.nextId !in s.conns
  {
    hide ConnInv, LoopInv;
  }

  lemma DispatchOfTheKnown(cfg: Config, s: State, a: Action, c: ConnId)
    requires Inv(cfg, s) && Enabled(s, a) && c !in s.conns && a.Dispatch?
    ensures InProgress(Next(cfg, s, a), a.l) != [c]
  {
    hide ConnInv, ServerInv;
    assert LoopInv(s, a.l);
  }

  // ---------------------------------------------------------------- functors

  /** What a batch has begun is held for that batch only. */
  lemma {:induction false} NothingBegunOutsideABatch(cfg: Config, r: Run, i: nat, l: LoopId)
    requires IsRun(cfg, r) && i < |r.states| && l in r.states[i].loops && !InBatch(r.states[i].loops[l].pc)
    ensures r.states[i].loops[l].begun == []
  {
    hide Next, Enabled;
    if i > 0 {
      StepOf(cfg, r, i - 1);
      LoopsStay(cfg, r.states[i - 1], r.acts[i - 1]);
      if !InBatch(r.states[i - 1].loops[l].pc) {
        NothingBegunOutsideABatch(cfg, r, i - 1, l);
      }
      BegunStep(cfg, r.states[i - 1], r.acts[i - 1], l);
    }
  }

  lemma LoopsStay(cfg: Config, s: State, a: Action)
    requires Enabled(s, a)
    ensures Next(cfg, s, a).loops.Keys == s.loops.Keys
  {
    hide BeforeDestruction, Execute;
    if a.RunTask? {
      ExecuteKeepsLoops(cfg, Popped(s, a.l), s.loops[a.l].batch[0]);
    }
  }

  lemma BegunStep(cfg: Config, s: State, a: Action, l: LoopId)
    requires Enabled(s, a) && l in s.loops && l in Next(cfg, s, a).loops
    requires !InBatch(s.loops[l].pc) ==> s.loops[l].begun == []
    ensures !InBatch(Next(cfg, s, a).loops[l].pc) ==> Next(cfg, s, a).loops[l].begun == []
  {
    hide BeforeDestruction, Execute;
    if a.RunTask? {
      RunTaskStep(cfg, s, a.l, l);
      hide Next;
    }
  }

  // ---------------------------------------------------------------- accepts and removals

  /** An accepted connection is entered under its own name on the loop whose turn it is; it is established at
      once when that is the base loop, and otherwise by the one functor queued for it. */
  lemma AcceptGives(cfg: Config, s: State)
    requires cfg.Valid() && ServerInv(cfg, s) && Enabled(s, Accept)
    ensures var t, c, l := Next(cfg, s, Accept), s.nextId, cfg.Turn(s.nextId - 1);
            && t.nextId == c + 1 && t.connections == s.connections[cfg.NameOf(c) := c] && l in s.loops
            && if l == BASE then
                 t.conns == s.conns[c := ConnRec(BASE, Connected, true, true, [CameUp])] && t.loops == s.loops
               else
                 && t.conns == s.conns[c := ConnRec(l, Connecting, false, false, [])]
                 && t.loops == s.loops[l := s.loops[l].(queue := s.loops[l].queue + [EstablishTask(c)])]
  {
    AcceptTurn(cfg, s);
    assert [] + [CameUp] == [CameUp];
  }

  /** The close callback: on the base loop the name is erased in the call, and from any other loop the removal
      is queued on the base loop and nothing else happens. */
  lemma NotifyGives(cfg: Config, s: State, l: LoopId)
    requires Enabled(s, NotifyClose(l)) && BASE in s.loops
    ensures var t, c := Next(cfg, s, NotifyClose(l)), s.loops[l].pc.c;
            && t.conns == s.conns
            && if l == BASE then
                 && t.connections == s.connections - {cfg.NameOf(c)}
                 && t.loops == s.loops[l := s.loops[l].(pc := Removing(c, true))]
               else
                 && t.connections == s.connections && t.loops[l] == s.loops[l].(pc := Server.Closed(c))
                 && t.loops[BASE] == s.loops[BASE].(queue := s.loops[BASE].queue + [RemoveTask(c)])
                 && forall k :: k in s.loops && k != l && k != BASE ==> k in t.loops && t.loops[k] == s.loops[k]
  {
  }

  /** connectDestroyed: a connection still up goes down first, and either way it leaves the poller last. */
  lemma DestructionGives(cfg: Config, s: State, c: ConnId)
    requires c in s.conns
    ensures var t, rec := Execute(cfg, s, DestroyTask(c)), s.conns[c];
            && t.loops == s.loops && t.connections == s.connections
            && t.conns == s.conns[c := rec.(
                 state := if rec.state.Connected? then Disconnected else rec.state, listed := false, watched := false,
                 life := rec.life + if rec.state.Connected? then [WentDown, Destroyed] else [Destroyed])]
  {
    assert s.conns[c].life + [WentDown] + [Destroyed] == s.conns[c].life + [WentDown, Destroyed];
  }
}
