/**
 One connection's account, kept from the outside: from what the kernel answered and what the user asked at
 each step it says field by field what the connection must have afterwards, without the operations of module
 Connection.  Every step and every run agrees with it.
 */
module Ledger {
  import opened Common
  import opened EventMask
  import opened Registration
  import opened Connection
  import opened ConnectionTheorems

  // ---------------------------------------------------------------- what a step is due

  /** Nothing is buffered and EPOLLOUT not asked for, so a message goes to the socket first. */
  predicate SocketFirst(cfg: Config, c: Conn) {
    c.reg.events * cfg.masks.write == {} && c.output == []
  }

  predicate PeerGone(res: WriteResult) {
    res == WriteFailed(EPIPE) || res == WriteFailed(ECONNRESET)
  }

  /** The message is taken on. */
  predicate TakenOn(cfg: Config, c: Conn, a: Action) {
    a.Send? && !c.state.Disconnected? && !(SocketFirst(cfg, c) && PeerGone(a.res))
  }

  /** A write event reaches a connection that asks for it. */
  predicate Writable(cfg: Config, c: Conn, a: Action) {
    a.DispatchOut? && c.dispatch.AtOut? && EPOLLOUT in c.dispatch.revents && c.reg.events * cfg.masks.write != {}
  }

  /** How many bytes the kernel takes in the step. */
  function Count(cfg: Config, c: Conn, a: Action): nat {
    if TakenOn(cfg, c, a) && SocketFirst(cfg, c) && a.res.Wrote? then a.res.n
    else if Writable(cfg, c, a) && a.res.Wrote? then a.res.n
    else 0
  }

  /** The bytes there are to write: a message with nothing before it, or the buffer. */
  function Offered(c: Conn, a: Action): Bytes {
    if a.Send? then a.data else c.output
  }

  function BytesTaken(cfg: Config, c: Conn, a: Action): Bytes
    requires Enabled(c, a)
  {
    Offered(c, a)[..Count(cfg, c, a)]
  }

  function OutputDue(cfg: Config, c: Conn, a: Action): Bytes
    requires Enabled(c, a)
  {
    if TakenOn(cfg, c, a) then c.output + a.data[Count(cfg, c, a)..]
    else if a.DispatchOut? then c.output[Count(cfg, c, a)..]
    else c.output
  }

  /** The write event takes the last of the buffer. */
  predicate Empties(cfg: Config, c: Conn, a: Action) {
    a.DispatchOut? && Count(cfg, c, a) > 0 && Count(cfg, c, a) == |c.output|
  }

  /** Something of a message stays for the buffer. */
  predicate Keeps(cfg: Config, c: Conn, a: Action) {
    TakenOn(cfg, c, a) && Count(cfg, c, a) < |a.data|
  }

  function AcceptedDue(cfg: Config, c: Conn, a: Action): seq<Bytes> {
    if TakenOn(cfg, c, a) then [a.data] else []
  }

  /** What a read event brings. */
  function BytesReceived(c: Conn, a: Action): Bytes {
    if a.DispatchIn? && c.dispatch.AtIn? && EPOLLIN in c.dispatch.revents && a.read.Received? then a.read.data else []
  }

  /** The step closes: a hang-up without EPOLLIN, or the end of the stream. */
  predicate Closing(c: Conn, a: Action) {
    || (a.DispatchHup? && c.dispatch.AtHup? && EPOLLHUP in c.dispatch.revents && EPOLLIN !in c.dispatch.revents)
    || (a.DispatchIn? && c.dispatch.AtIn? && EPOLLIN in c.dispatch.revents && a.read == Received([]))
  }

  /** Write-complete when the whole of a message, or the last of the buffer, has gone to the socket; high-water
      when the buffer comes to the mark from below. */
  function NoticesDue(cfg: Config, c: Conn, a: Action): seq<Notice> {
    var newLen := |c.output| + if a.Send? then |a.data| - Count(cfg, c, a) else 0;
    if cfg.onWriteComplete && Empties(cfg, c, a) then [WriteComplete]
    else if cfg.onWriteComplete && TakenOn(cfg, c, a) && SocketFirst(cfg, c) && a.res == Wrote(|a.data|) then
      [WriteComplete]
    else if cfg.onHighWater && Keeps(cfg, c, a) && |c.output| < cfg.mark <= newLen then [HighWater(newLen)]
    else []
  }

  /** The half-close is made in this step. */
  predicate HalfCloses(cfg: Config, c: Conn, a: Action) {
    || (a == CallShutdown(true) && c.state.Connected? && c.reg.events * cfg.masks.write == {})
    || (a.RunShutdown? && c.reg.events * cfg.masks.write == {})
    || (Empties(cfg, c, a) && c.state.Disconnecting?)
  }

  function StateDue(c: Conn, a: Action): ConnState {
    if a.DoEstablish? then Connected
    else if a.CallShutdown? && c.state.Connected? then Disconnecting
    else if Closing(c, a) || (a.RunDestroy? && c.state.Connected?) then Disconnected
    else c.state
  }

  /** What the step observes, in order: the callbacks run and the half-close made. */
  function LogDue(cfg: Config, c: Conn, a: Action): seq<Observation>
    requires Enabled(c, a)
  {
    if a.DoEstablish? then [Up]
    else if Closing(c, a) then [Down, CloseCallback]
    else if BytesReceived(c, a) != [] then [Message]
    else if HalfCloses(cfg, c, a) then
      [ShutdownWrite(StateDue(c, a), Flatten(c.accepted), c.wire + BytesTaken(cfg, c, a))]
    else if a.RunDestroy? && c.state.Connected? then [Down]
    else []
  }

  /** The events asked for afterwards. */
  function EventsDue(cfg: Config, c: Conn, a: Action): Mask {
    if a.DoEstablish? then c.reg.events + cfg.masks.read
    else if Keeps(cfg, c, a) then c.reg.events + (if c.reg.events !! cfg.masks.write then cfg.masks.write else {})
    else if Empties(cfg, c, a) then c.reg.events - cfg.masks.write
    else if Closing(c, a) || (a.RunDestroy? && c.state.Connected?) then {}
    else c.reg.events
  }

  /** Half-closes handed to the loop and not yet run. */
  function QueuedDue(c: Conn, a: Action): int {
    if a == CallShutdown(false) && c.state.Connected? then c.shutdownsQueued + 1
    else if a.RunShutdown? then c.shutdownsQueued - 1
    else c.shutdownsQueued
  }

  /** The tests of handleEventWithGuard come one after the other. */
  function DispatchDue(c: Conn, a: Action): Dispatch {
    match a
    case PollReports(revents) => AtHup(revents)
    case DispatchHup => if c.dispatch.AtHup? then AtErr(c.dispatch.revents) else c.dispatch
    case DispatchErr => if c.dispatch.AtErr? then AtIn(c.dispatch.revents) else c.dispatch
    case DispatchIn(_) => if c.dispatch.AtIn? then AtOut(c.dispatch.revents) else c.dispatch
    case DispatchOut(_) => Idle
    case _ => c.dispatch
  }

  /** The step leaves the connection with everything it is due. */
  ghost predicate Settles(cfg: Config, c: Conn, a: Action, d: Conn)
    requires Enabled(c, a)
  {
    && d.wire == c.wire + BytesTaken(cfg, c, a) && d.output == OutputDue(cfg, c, a)
    && d.accepted == c.accepted + AcceptedDue(cfg, c, a) && d.input == c.input + BytesReceived(c, a)
    && d.notices == c.notices + NoticesDue(cfg, c, a) && d.log == c.log + LogDue(cfg, c, a)
    && d.reg.events == EventsDue(cfg, c, a) && d.state == StateDue(c, a) && d.dispatch == DispatchDue(c, a)
    && d.writeShut == (c.writeShut || HalfCloses(cfg, c, a)) && d.shutdownsQueued == QueuedDue(c, a)
    && d.destroyed == (c.destroyed || a.RunDestroy?)
    && d.assertsHeld == (c.assertsHeld && (Closing(c, a) ==> c.state.Connected? || c.state.Disconnecting?))
  }

  // ---------------------------------------------------------------- every step settles

  /** What a step that takes nothing adds. */
  lemma NothingTaken(cfg: Config, c: Conn, a: Action)
    requires Enabled(c, a)
    ensures c.accepted + [] == c.accepted && c.input + [] == c.input
    ensures c.notices + [] == c.notices && c.log + [] == c.log
    ensures Count(cfg, c, a) == 0 ==> BytesTaken(cfg, c, a) == [] && c.wire + BytesTaken(cfg, c, a) == c.wire
    ensures Count(cfg, c, a) == 0 && !a.Send? ==> OutputDue(cfg, c, a) == c.output
  {
  }

  lemma CountIsWhatIsTaken(cfg: Config, c: Conn, data: Bytes, res: WriteResult)
    requires Enabled(c, Send(data, res))
    ensures TakenOn(cfg, c, Send(data, res)) <==> !Refuses(cfg, c, res)
    ensures TakenOn(cfg, c, Send(data, res)) ==> Count(cfg, c, Send(data, res)) == Taken(cfg, c, data, res)
    ensures !TakenOn(cfg, c, Send(data, res)) ==> Count(cfg, c, Send(data, res)) == 0
    ensures Count(cfg, c, Send(data, res)) <= |data|
    ensures SocketFirst(cfg, c) <==> WritesDirectly(cfg, c)
  {
  }

  /** Nothing but what a send may change differs. */
  predicate SentOnly(c: Conn, d: Conn) {
    && d.state == c.state && d.input == c.input && d.log == c.log && d.dispatch == c.dispatch
    && d.writeShut == c.writeShut && d.shutdownsQueued == c.shutdownsQueued && d.destroyed == c.destroyed
    && d.assertsHeld == c.assertsHeld
  }

  lemma AcceptingGives(cfg: Config, c: Conn, data: Bytes, res: WriteResult)
    requires res.Fits(|data|)
    ensures var n, d := Taken(cfg, c, data, res), Accepting(cfg, c, data, res);
            && SentOnly(c, d) && d.wire == c.wire + data[..n] && d.output == c.output && d.reg == c.reg
            && d.accepted == c.accepted + [data]
            && var whole := WritesDirectly(cfg, c) && res == Wrote(|data|);
               d.notices == c.notices + if whole && cfg.onWriteComplete then [WriteComplete] else []
  {
  }

  lemma BufferedGives(cfg: Config, c: Conn, rest: Bytes)
    ensures var newLen, d := |c.output| + |rest|, Buffered(cfg, c, rest);
            && SentOnly(c, d) && d.wire == c.wire && d.output == c.output + rest && d.accepted == c.accepted
            && (var crosses := |c.output| < cfg.mark <= newLen;
                d.notices == c.notices + if cfg.onHighWater && crosses then [HighWater(newLen)] else [])
            && d.reg.events == c.reg.events + (if c.reg.events !! cfg.masks.write then cfg.masks.write else {})
  {
    assert c.reg.events !! cfg.masks.write <==> c.reg.events * cfg.masks.write == {};
    hide WithEvents;
  }

  lemma SendSettles(cfg: Config, c: Conn, data: Bytes, res: WriteResult)
    requires Enabled(c, Send(data, res))
    ensures Settles(cfg, c, Send(data, res), SendInLoop(cfg, c, data, res))
  {
    var a, n := Send(data, res), Taken(cfg, c, data, res);
    CountIsWhatIsTaken(cfg, c, data, res);
    NothingTaken(cfg, c, a);
    if TakenOn(cfg, c, a) {
      TakenOnSettles(cfg, c, data, res);
    } else {
      assert c.reg.events == EventsDue(cfg, c, a);
      hide Refuses, TakenOn, Taken, Count;
    }
    hide Settles, Accepting, Buffered;
  }

  lemma TakenOnSettles(cfg: Config, c: Conn, data: Bytes, res: WriteResult)
    requires Enabled(c, Send(data, res)) && TakenOn(cfg, c, Send(data, res))
    ensures Settles(cfg, c, Send(data, res), SendInLoop(cfg, c, data, res))
  {
    hide Accepting, Buffered, TakenOn, Refuses, WithEvents, Flatten;
    var a, n := Send(data, res), Taken(cfg, c, data, res);
    CountIsWhatIsTaken(cfg, c, data, res);
    NothingTaken(cfg, c, a);
    hide Count;
    var sent := Accepting(cfg, c, data, res);
    AcceptingGives(cfg, c, data, res);
    if n < |data| {
      assert !(WritesDirectly(cfg, c) && res == Wrote(|data|));
      BufferedGives(cfg, sent, data[n..]);
    } else {
      assert data[n..] == [] && c.output + [] == c.output;
      assert n > 0 ==> WritesDirectly(cfg, c) && res == Wrote(|data|);
    }
  }

  lemma DrainedGives(cfg: Config, c: Conn)
    ensures var d := Drained(cfg, c);
            && d.wire == c.wire && d.output == c.output && d.accepted == c.accepted && d.input == c.input
            && d.notices == c.notices + (if cfg.onWriteComplete then [WriteComplete] else [])
            && (var made := [ShutdownWrite(c.state, Flatten(c.accepted), c.wire)];
                d.log == c.log + if c.state.Disconnecting? then made else [])
            && d.reg.events == c.reg.events - cfg.masks.write && d.state == c.state && d.dispatch == c.dispatch
            && d.writeShut == (c.writeShut || c.state.Disconnecting?) && d.shutdownsQueued == c.shutdownsQueued
            && d.destroyed == c.destroyed && d.assertsHeld == c.assertsHeld
  {
    hide WithEvents, Flatten;
  }

  lemma WriteSettles(cfg: Config, c: Conn, res: WriteResult)
    requires Enabled(c, DispatchOut(res))
    ensures Settles(cfg, c, DispatchOut(res), DoOut(cfg, c, res))
  {
    var a, idle := DispatchOut(res), c.(dispatch := Idle);
    if Writable(cfg, c, a) && res.Wrote? && res.n > 0 {
      var sent := idle.(wire := c.wire + c.output[..res.n], output := c.output[res.n..]);
      if sent.output == [] {
        DrainedGives(cfg, sent);
      }
    }
    hide Drained, Flatten;
  }

  lemma CloseSettles(cfg: Config, c: Conn, a: Action)
    requires Enabled(c, a) && Closing(c, a)
    ensures Settles(cfg, c, a, Next(cfg, c, a))
  {
    NothingTaken(cfg, c, a);
    CloseGives(c.(dispatch := if a.DispatchHup? then AtErr(c.dispatch.revents) else AtOut(c.dispatch.revents)));
    hide WithEvents, HandleClose, Flatten;
  }

  lemma EventSettles(cfg: Config, c: Conn, a: Action)
    requires Enabled(c, a) && (a.DispatchHup? || a.DispatchErr? || a.DispatchIn? || a.PollReports?) && !Closing(c, a)
    ensures Settles(cfg, c, a, Next(cfg, c, a))
  {
    NothingTaken(cfg, c, a);
    hide WithEvents, HandleClose, Flatten;
  }

  lemma CloseGives(c: Conn)
    ensures var d := HandleClose(c);
            && d == c.(assertsHeld := d.assertsHeld, state := Disconnected, reg := d.reg,
                       log := c.log + [Down, CloseCallback])
            && d.reg.events == {} && d.assertsHeld == (c.assertsHeld && (c.state.Connected? || c.state.Disconnecting?))
  {
    assert c.log + [Down] + [CloseCallback] == c.log + [Down, CloseCallback];
    hide WithEvents;
  }

  lemma DestroySettles(cfg: Config, c: Conn)
    requires Enabled(c, RunDestroy)
    ensures Settles(cfg, c, RunDestroy, Destroy(c))
  {
    NothingTaken(cfg, c, RunDestroy);
    assert Removed(WithEvents(c.reg, {})).events == {} && Removed(c.reg).events == c.reg.events;
    hide WithEvents, Removed, Flatten;
  }

  lemma CallShutdownSettles(cfg: Config, c: Conn, inLoopThread: bool)
    requires Enabled(c, CallShutdown(inLoopThread))
    ensures Settles(cfg, c, CallShutdown(inLoopThread), Shutdown(cfg, c, inLoopThread))
  {
    NothingTaken(cfg, c, CallShutdown(inLoopThread));
    HalfCloseGives(cfg, c.(state := Disconnecting));
    hide WithEvents, Flatten, ShutdownInLoop;
  }

  lemma RunShutdownSettles(cfg: Config, c: Conn)
    requires Enabled(c, RunShutdown)
    ensures Settles(cfg, c, RunShutdown, Next(cfg, c, RunShutdown))
  {
    NothingTaken(cfg, c, RunShutdown);
    HalfCloseGives(cfg, c.(shutdownsQueued := c.shutdownsQueued - 1));
    hide WithEvents, Flatten, ShutdownInLoop;
  }

  lemma HalfCloseGives(cfg: Config, c: Conn)
    ensures ShutdownInLoop(cfg, c) ==
            if c.reg.events * cfg.masks.write != {} then c
            else c.(log := c.log + [ShutdownWrite(c.state, Flatten(c.accepted), c.wire)], writeShut := true)
  {
    hide Flatten;
  }

  lemma EstablishSettles(cfg: Config, c: Conn)
    requires Enabled(c, DoEstablish)
    ensures Settles(cfg, c, DoEstablish, Establish(cfg, c))
  {
    NothingTaken(cfg, c, DoEstablish);
    hide WithEvents, Flatten;
  }

  /** Every step, whatever state it is taken from, leaves what the account says. */
  lemma StepSettles(cfg: Config, c: Conn, a: Action)
    requires Enabled(c, a)
    ensures Settles(cfg, c, a, Next(cfg, c, a))
  {
    match a {
      case Send(data, res) => SendSettles(cfg, c, data, res);
      case DispatchOut(res) => WriteSettles(cfg, c, res);
      case RunDestroy => DestroySettles(cfg, c);
      case DoEstablish => EstablishSettles(cfg, c);
      case CallShutdown(inLoopThread) => CallShutdownSettles(cfg, c, inLoopThread);
      case RunShutdown => RunShutdownSettles(cfg, c);
      case _ =>
        if Closing(c, a) {
          CloseSettles(cfg, c, a);
        } else {
          EventSettles(cfg, c, a);
        }
    }
    hide Settles, Next, Closing;
  }

  // ---------------------------------------------------------------- sends and events, case by case

  /** With nothing buffered and EPOLLOUT not asked for, what the socket takes of a message is on the wire and
      the rest is in the buffer, whatever the socket takes. */
  lemma DirectSendSplits(cfg: Config, c: Conn, data: Bytes, n: nat)
    requires !c.state.Disconnected? && c.reg.events * cfg.masks.write == {} && c.output == [] && n <= |data|
    ensures var d := SendInLoop(cfg, c, data, Wrote(n));
            d.wire == c.wire + data[..n] && d.output == data[n..] && d.accepted == c.accepted + [data]
  {
    hide WithEvents;
    if n < |data| {
      BufferedGives(cfg, Accepting(cfg, c, data, Wrote(n)), data[n..]);
    }
    hide Buffered;
  }

  /** An error that leaves the peer there costs nothing: the message waits whole; one that does not is the end
      of the message and changes nothing. */
  lemma DirectSendFails(cfg: Config, c: Conn, data: Bytes, e: Errno)
    requires !c.state.Disconnected? && c.reg.events * cfg.masks.write == {} && c.output == []
    ensures var d := SendInLoop(cfg, c, data, WriteFailed(e));
            if e.EPIPE? || e.ECONNRESET? then d == c
            else d.wire == c.wire && d.output == data && d.accepted == c.accepted + [data]
  {
    hide WithEvents;
    var res := WriteFailed(e);
    if !e.EPIPE? && !e.ECONNRESET? && data != [] {
      assert data[..0] == [] && data[0..] == data;
      BufferedGives(cfg, Accepting(cfg, c, data, res), data[0..]);
    }
    hide Buffered;
  }

  /** Behind bytes already buffered, or a write event already asked for, a message waits whole. */
  lemma LaterSendWaits(cfg: Config, c: Conn, data: Bytes, res: WriteResult)
    requires !c.state.Disconnected? && (c.reg.events * cfg.masks.write != {} || c.output != []) && res.Fits(|data|)
    ensures var d := SendInLoop(cfg, c, data, res);
            d.wire == c.wire && d.output == c.output + data && d.accepted == c.accepted + [data]
  {
    hide WithEvents;
    assert data[..0] == [] && data[0..] == data && c.wire + [] == c.wire;
    if data != [] {
      BufferedGives(cfg, Accepting(cfg, c, data, res), data[0..]);
    }
    hide Buffered;
  }

  /** A write event of which the socket takes nothing changes nothing, and a failed read nothing either. */
  lemma NothingMovedNothingChanges(cfg: Config, r: Run, i: nat)
    requires IsRun(cfg, r) && i < |r.acts|
    ensures (r.acts[i].DispatchOut? && (r.acts[i].res.WriteFailed? || r.acts[i].res == Wrote(0))) ==>
              r.states[i + 1] == r.states[i].(dispatch := Idle)
    ensures (r.acts[i].DispatchIn? && r.acts[i].read.ReadFailed?) ==>
              r.states[i + 1] == r.states[i].(dispatch := DispatchDue(r.states[i], r.acts[i]))
  {
    assert Enabled(r.states[i], r.acts[i]) && r.states[i + 1] == Next(cfg, r.states[i], r.acts[i]);
    hide IsRun;
  }

  // ---------------------------------------------------------------- the account of a run

  lemma StepOf(cfg: Config, r: Run, i: nat)
    requires IsRun(cfg, r) && i < |r.acts|
    ensures i + 1 < |r.states| && Enabled(r.states[i], r.acts[i])
    ensures r.states[i + 1] == Next(cfg, r.states[i], r.acts[i])
  {
    hide Next, Enabled;
  }

  /** What the kernel took over the first `n` steps. */
  function AllTaken(cfg: Config, r: Run, n: nat): Bytes
    requires IsRun(cfg, r) && n <= |r.acts|
  {
    if n == 0 then [] else AllTaken(cfg, r, n - 1) + BytesTaken(cfg, r.states[n - 1], r.acts[n - 1])
  }

  function AllAccepted(cfg: Config, r: Run, n: nat): seq<Bytes>
    requires IsRun(cfg, r) && n <= |r.acts|
  {
    if n == 0 then [] else AllAccepted(cfg, r, n - 1) + AcceptedDue(cfg, r.states[n - 1], r.acts[n - 1])
  }

  function AllReceived(cfg: Config, r: Run, n: nat): Bytes
    requires IsRun(cfg, r) && n <= |r.acts|
  {
    if n == 0 then [] else AllReceived(cfg, r, n - 1) + BytesReceived(r.states[n - 1], r.acts[n - 1])
  }

  function AllNotices(cfg: Config, r: Run, n: nat): seq<Notice>
    requires IsRun(cfg, r) && n <= |r.acts|
  {
    if n == 0 then [] else AllNotices(cfg, r, n - 1) + NoticesDue(cfg, r.states[n - 1], r.acts[n - 1])
  }

  function AllLogged(cfg: Config, r: Run, n: nat): seq<Observation>
    requires IsRun(cfg, r) && n <= |r.acts|
  {
    if n == 0 then [] else AllLogged(cfg, r, n - 1) + LogDue(cfg, r.states[n - 1], r.acts[n - 1])
  }

  /** In every run the wire is exactly what the kernel took, the input buffer what the reads brought, the
      accepted messages those not refused; every notice due is queued, every callback due is run, and no
      other; all in order. */
  lemma {:induction false} AccountHolds(cfg: Config, r: Run, i: nat)
    requires IsRun(cfg, r) && i <= |r.acts|
    ensures r.states[i].wire == AllTaken(cfg, r, i)
    ensures r.states[i].accepted == AllAccepted(cfg, r, i)
    ensures r.states[i].input == AllReceived(cfg, r, i)
    ensures r.states[i].notices == AllNotices(cfg, r, i)
    ensures r.states[i].log == AllLogged(cfg, r, i)
  {
    hide Next, Enabled, BytesTaken, AcceptedDue, BytesReceived, NoticesDue, LogDue;
    if i > 0 {
      AccountHolds(cfg, r, i - 1);
      StepOf(cfg, r, i - 1);
      StepSettles(cfg, r.states[i - 1], r.acts[i - 1]);
    }
  }

  /** How many of the first `n` steps brought bytes. */
  function Receptions(r: Run, n: nat): nat
    requires n <= |r.acts| <= |r.states|
  {
    if n == 0 then 0 else Receptions(r, n - 1) + if BytesReceived(r.states[n - 1], r.acts[n - 1]) != [] then 1 else 0
  }

  /** The message callback runs once for every read that brings bytes, and for no other. */
  lemma {:induction false} OneMessageForEachReception(cfg: Config, r: Run, i: nat)
    requires IsRun(cfg, r) && i <= |r.acts| < |r.states|
    ensures multiset(r.states[i].log)[Message] == Receptions(r, i)
  {
    hide Next, Enabled, LogDue, BytesReceived, IsRun;
    if i > 0 {
      StepOf(cfg, r, i - 1);
      OneMessageForEachReception(cfg, r, i - 1);
      LogGrows(cfg, r.states[i - 1], r.acts[i - 1]);
      MessageIsDue(cfg, r.states[i - 1], r.acts[i - 1]);
    } else {
      StartsUnlogged(cfg, r);
    }
  }

  lemma StartsUnlogged(cfg: Config, r: Run)
    requires IsRun(cfg, r)
    ensures r.states[0].log == []
  {
    hide Next, Enabled;
  }

  lemma LogGrows(cfg: Config, c: Conn, a: Action)
    requires Enabled(c, a)
    ensures Next(cfg, c, a).log == c.log + LogDue(cfg, c, a)
    ensures multiset(Next(cfg, c, a).log) == multiset(c.log) + multiset(LogDue(cfg, c, a))
  {
    StepSettles(cfg, c, a);
    hide Next, Enabled, LogDue;
  }

  lemma MessageIsDue(cfg: Config, c: Conn, a: Action)
    requires Enabled(c, a)
    ensures multiset(LogDue(cfg, c, a))[Message] == if BytesReceived(c, a) != [] then 1 else 0
  {
    hide Flatten;
  }

  /** A close callback comes right after a connection callback, and a connection callback for going down right
      before one. */
  predicate PairedAt(log: seq<Observation>, k: nat)
    requires k < |log|
  {
    && (log[k] == CloseCallback ==> k > 0 && log[k - 1] == Down)
    && (log[k] == Down ==> k + 1 < |log| && log[k + 1] == CloseCallback)
  }

  predicate DownThenClose(log: seq<Observation>) {
    forall k :: 0 <= k < |log| ==> PairedAt(log, k)
  }

  lemma DownThenCloseGrows(log: seq<Observation>, more: seq<Observation>)
    requires DownThenClose(log)
    requires more == [Down, CloseCallback] || (Down !in more && CloseCallback !in more)
    ensures DownThenClose(log + more)
  {
    var all := log + more;
    forall k | 0 <= k < |all|
      ensures PairedAt(all, k)
    {
      if k < |log| {
        assert PairedAt(log, k);
      } else if more == [Down, CloseCallback] {
        assert all[|log|] == Down && all[|log| + 1] == CloseCallback;
      } else {
        assert all[k] in more;
      }
    }
  }

  /** In every run the connection callback of a close comes first and the close callback last, with nothing in
      between. */
  lemma {:induction false} CloseCallbackIsLast(cfg: Config, r: Run, i: nat)
    requires cfg.masks.Sane() && IsRun(cfg, r) && i < |r.states|
    ensures DownThenClose(r.states[i].log)
  {
    hide Next, Enabled, Inv;
    if i > 0 {
      CloseCallbackIsLast(cfg, r, i - 1);
      StepOf(cfg, r, i - 1);
      StepSettles(cfg, r.states[i - 1], r.acts[i - 1]);
      InvHolds(cfg, r, i - 1);
      DueInPairs(cfg, r.states[i - 1], r.acts[i - 1]);
      DownThenCloseGrows(r.states[i - 1].log, LogDue(cfg, r.states[i - 1], r.acts[i - 1]));
      hide LogDue, DownThenClose;
    }
  }

  lemma DueInPairs(cfg: Config, c: Conn, a: Action)
    requires Inv(cfg, c) && Enabled(c, a)
    ensures var due := LogDue(cfg, c, a); due == [Down, CloseCallback] || (Down !in due && CloseCallback !in due)
  {
    hide Flatten;
  }
}
