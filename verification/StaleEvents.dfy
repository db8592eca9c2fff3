/**
 A server whose pollers walk their event lists as written.  A visited null pointer is where the program
 faults; the machine passes it over, so that its runs also show what the stale pointers behind it do.
 */
module StaleEvents {
  import opened RoundRobin
  import opened Server
  import opened ServerInvariant
  import opened ServerTheorems
  import opened EventSlots

  /** A slot of an event list: the null of a slot never filled, the wake-up or listening channel, which
      live as long as their loop, or the channel of a connection. */
  datatype Entry = Null | Other | Of(c: ConnId)

  function Conns(entries: seq<Entry>): seq<ConnId> {
    if entries == [] then []
    else (if entries[0].Of? then [entries[0].c] else []) + Conns(entries[1..])
  }

  datatype Slotted = Slotted(server: State, slots: map<LoopId, seq<Entry>>)

  function Start(cfg: Config): Slotted {
    Slotted(Initial(cfg), map l | l in cfg.AllLoops() :: seq(INITIAL_SLOTS, _ => Null))
  }

  datatype Step = Plain(a: Action) | Report(l: LoopId, reported: seq<Entry>)

  /** A poll reports what it may report in the server; every other step is the server's own. */
  function Intended(a: Step): Action {
    match a
    case Plain(b) => b
    case Report(l, reported) => Poll(l, Conns(reported))
  }

  predicate CanDo(s: Slotted, a: Step) {
    && Enabled(s.server, Intended(a))
    && match a
       case Plain(b) => !b.Poll?
       case Report(l, reported) => l in s.slots && |reported| <= |s.slots[l]| && Null !in reported
  }

  function Activate(s: State, l: LoopId, active: seq<ConnId>): State
    requires l in s.loops
  {
    s.(loops := s.loops[l := s.loops[l].(pc := Handling, active := active)])
  }

  function Do(cfg: Config, s: Slotted, a: Step): Slotted
    requires CanDo(s, a)
  {
    match a
    case Plain(b) => s.(server := Next(cfg, s.server, b))
    case Report(l, reported) =>
      Slotted(Activate(s.server, l, Conns(Visited(reported, s.slots[l]))),
              s.slots[l := Kept(reported, s.slots[l], Null)])
  }

  /** The loop over the event list calls set_revents on a null pointer. */
  predicate Faults(s: Slotted, a: Step)
    requires CanDo(s, a)
  {
    a.Report? && Null in Visited(a.reported, s.slots[a.l])
  }

  /** The poll reports something and leaves slots over. */
  predicate Partial(s: Slotted, a: Step)
    requires CanDo(s, a)
  {
    a.Report? && 0 < |a.reported| < |s.slots[a.l]|
  }

  datatype SlotRun = SlotRun(states: seq<Slotted>, acts: seq<Step>)

  ghost predicate IsSlotRun(cfg: Config, r: SlotRun) {
    && |r.states| == |r.acts| + 1
    && r.states[0] == Start(cfg)
    && forall i {:trigger r.acts[i]} :: 0 <= i < |r.acts| ==>
         CanDo(r.states[i], r.acts[i]) && r.states[i + 1] == Do(cfg, r.states[i], r.acts[i])
  }

  // ---------------------------------------------------------------- when the list is walked safely

  ghost predicate LastSlotsNull(s: Slotted) {
    forall l :: l in s.slots ==> s.slots[l] != [] && s.slots[l][|s.slots[l]| - 1] == Null
  }

  lemma LastSlotsStep(cfg: Config, s: Slotted, a: Step)
    requires LastSlotsNull(s) && CanDo(s, a)
    ensures LastSlotsNull(Do(cfg, s, a))
    ensures Faults(s, a) <==> Partial(s, a)
  {
    hide Next, Enabled, Visited, Kept;
    if a.Report? {
      LastSlotIsEmpty(a.reported, s.slots[a.l], Null);
    }
  }

  lemma {:induction false} LastSlotsHold(cfg: Config, r: SlotRun, i: nat)
    requires IsSlotRun(cfg, r) && i < |r.states|
    ensures LastSlotsNull(r.states[i])
  {
    hide Do, CanDo;
    if i > 0 {
      LastSlotsHold(cfg, r, i - 1);
      LastSlotsStep(cfg, r.states[i - 1], r.acts[i - 1]);
    }
  }

  /** In every run, a poll meets a null pointer if and only if it reports something without filling the
      whole list. */
  lemma FaultsIffPartial(cfg: Config, r: SlotRun, i: nat)
    requires IsSlotRun(cfg, r) && i < |r.acts|
    ensures CanDo(r.states[i], r.acts[i])
    ensures Faults(r.states[i], r.acts[i]) <==> Partial(r.states[i], r.acts[i])
  {
    LastSlotsHold(cfg, r, i);
    LastSlotsStep(cfg, r.states[i], r.acts[i]);
  }

  /** The failing input: one event for the sixteen slots of a new poller. */
  lemma OneEventFaults(cfg: Config)
    ensures exists r :: IsSlotRun(cfg, r) && r.acts == [Report(BASE, [Other])] && Faults(r.states[0], r.acts[0])
  {
    var s, a := Start(cfg), Report(BASE, [Other]);
    assert Conns([Other]) == [] && CanDo(s, a);
    assert Visited([Other], s.slots[BASE])[1] == Null;
    var r := SlotRun([s, Do(cfg, s, a)], [a]);
    assert IsSlotRun(cfg, r);
  }

  /** No poll of the run's first `n` steps faults. */
  ghost predicate Survives(cfg: Config, r: SlotRun, n: nat)
    requires IsSlotRun(cfg, r) && n <= |r.acts|
  {
    forall i :: 0 <= i < n ==> !Faults(r.states[i], r.acts[i])
  }

  /** The same run as the server is meant to make it. */
  function AsIntended(r: SlotRun, n: nat): Run
    requires n <= |r.acts| && |r.states| == |r.acts| + 1
  {
    Run(seq(n + 1, i requires 0 <= i < n + 1 => r.states[i].server),
        seq(n, i requires 0 <= i < n => Intended(r.acts[i])))
  }

  lemma FullPollIsIntended(cfg: Config, s: Slotted, a: Step)
    requires CanDo(s, a) && !Partial(s, a)
    ensures Do(cfg, s, a).server == Next(cfg, s.server, Intended(a))
  {
    if a.Report? {
      VisitedIffFull(a.reported, s.slots[a.l]);
    }
  }

  /** Until it faults the program makes a run of the server, with its polls as they are meant to be. */
  lemma SurvivingRunIsIntended(cfg: Config, r: SlotRun, n: nat)
    requires IsSlotRun(cfg, r) && n <= |r.acts| && Survives(cfg, r, n)
    ensures IsRun(cfg, AsIntended(r, n))
  {
    hide Do, CanDo, Next, Enabled, Faults, Partial;
    var t := AsIntended(r, n);
    forall i | 0 <= i < n
      ensures Enabled(t.states[i], t.acts[i]) && t.states[i + 1] == Next(cfg, t.states[i], t.acts[i])
    {
      assert t.acts[i] == Intended(r.acts[i]);
      FaultsIffPartial(cfg, r, i);
      StepEnabled(r.states[i], r.acts[i]);
      FullPollIsIntended(cfg, r.states[i], r.acts[i]);
    }
  }

  lemma StepEnabled(s: Slotted, a: Step)
    requires CanDo(s, a)
    ensures Enabled(s.server, Intended(a))
  {
  }

  /** So the channels waiting in a loop's active list are safe for as long as every poll that reports
      anything fills its list. */
  lemma WaitingIsSafeWhileFull(cfg: Config, r: SlotRun, i: nat, l: LoopId, k: nat)
    requires cfg.Valid() && IsSlotRun(cfg, r) && i < |r.states| && l in r.states[i].server.loops
    requires k < |r.states[i].server.loops[l].active|
    requires forall j :: 0 <= j < i ==> !Partial(r.states[j], r.acts[j])
    ensures var s := r.states[i].server;
            var c := s.loops[l].active[k];
            OpenOn(s, l, c) && s.conns[c].listed && s.conns[c].watched && Owned(cfg, s, c)
  {
    forall j | 0 <= j < i
      ensures !Faults(r.states[j], r.acts[j])
    {
      FaultsIffPartial(cfg, r, j);
    }
    SurvivingRunIsIntended(cfg, r, i);
    WaitingChannelIsSafe(cfg, AsIntended(r, i), i, l, k);
  }
}
