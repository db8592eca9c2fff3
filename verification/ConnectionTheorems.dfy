/** What every run of a connection keeps. */
module ConnectionTheorems {
  import opened Common
  import opened EventMask
  import opened Registration
  import opened Connection

  // ---------------------------------------------------------------- the byte stream

  lemma FlattenSnoc(messages: seq<Bytes>, m: Bytes)
    ensures Flatten(messages + [m]) == Flatten(messages) + m
  {
    assert (messages + [m])[..|messages|] == messages;
  }

  /** What was accepted is what was sent followed by what is buffered. */
  predicate Conserved(c: Conn) {
    c.wire + c.output == Flatten(c.accepted)
  }

  lemma BufferedConserves(cfg: Config, c: Conn, rest: Bytes)
    requires c.wire + c.output + rest == Flatten(c.accepted)
    ensures Conserved(Buffered(cfg, c, rest)) && Buffered(cfg, c, rest).wire == c.wire
  {
    assert c.wire + (c.output + rest) == c.wire + c.output + rest;
  }

  lemma SendConserves(cfg: Config, c: Conn, data: Bytes, res: WriteResult)
    requires Conserved(c) && res.Fits(|data|)
    ensures Conserved(SendInLoop(cfg, c, data, res))
    ensures c.wire <= SendInLoop(cfg, c, data, res).wire
  {
    if !Refuses(cfg, c, res) {
      FlattenSnoc(c.accepted, data);
      var nwrote := Taken(cfg, c, data, res);
      var sent := Accepting(cfg, c, data, res);
      SplitMessage(c.wire, c.output, data, nwrote);
      if nwrote == |data| {
        assert sent.wire + sent.output + [] == sent.wire + sent.output;
      } else {
        BufferedConserves(cfg, sent, data[nwrote..]);
      }
    }
  }

  lemma SplitMessage(wire: Bytes, output: Bytes, data: Bytes, n: nat)
    requires n <= |data| && (output == [] || n == 0)
    ensures wire + output + data == (wire + data[..n]) + output + data[n..]
  {
    assert data == data[..n] + data[n..];
    if n == 0 {
      assert wire + data[..n] == wire && data[n..] == data;
    } else {
      assert wire + output == wire && wire + data == wire + data[..n] + data[n..];
    }
  }

  lemma HandleWriteConserves(cfg: Config, c: Conn, res: WriteResult)
    requires Conserved(c) && res.Fits(|c.output|)
    ensures Conserved(HandleWrite(cfg, c, res))
    ensures c.wire <= HandleWrite(cfg, c, res).wire
  {
    if res.Wrote? {
      assert c.output == c.output[..res.n] + c.output[res.n..];
      assert c.wire + c.output == (c.wire + c.output[..res.n]) + c.output[res.n..];
    }
  }

  lemma ConservedStep(cfg: Config, c: Conn, a: Action)
    requires Conserved(c) && Enabled(c, a)
    ensures Conserved(Next(cfg, c, a))
    ensures c.wire <= Next(cfg, c, a).wire
  {
    hide Flatten, WithEvents, Removed, SendInLoop, HandleWrite;
    match a
    case Send(data, res) => SendConserves(cfg, c, data, res);
    case DispatchOut(res) => HandleWriteConserves(cfg, c.(dispatch := Idle), res);
    case _ =>
  }

  /** In every run, with any masks, any partial writes and any errors: the bytes on the wire followed
      by the bytes in the output buffer are the accepted messages, in order, complete and once each. */
  lemma {:induction false} StreamConserved(cfg: Config, r: Run, i: nat)
    requires IsRun(cfg, r) && i < |r.states|
    ensures Conserved(r.states[i])
  {
    hide Next, Enabled;
    if i > 0 {
      StreamConserved(cfg, r, i - 1);
      ConservedStep(cfg, r.states[i - 1], r.acts[i - 1]);
    }
  }

  /** Bytes once sent are never taken back: the wire at any time is a prefix of the wire later. */
  lemma {:induction false} WireOnlyGrows(cfg: Config, r: Run, i: nat, j: nat)
    requires IsRun(cfg, r) && i <= j < |r.states|
    ensures r.states[i].wire <= r.states[j].wire
    decreases j
  {
    hide Next, Enabled;
    if i < j {
      WireOnlyGrows(cfg, r, i, j - 1);
      StreamConserved(cfg, r, j - 1);
      ConservedStep(cfg, r.states[j - 1], r.acts[j - 1]);
    }
  }

  /** A message is taken on whole or refused whole: a refusal leaves the connection as it was, and no
      other step touches the accepted messages. */
  lemma AcceptedWholeOrNotAtAll(cfg: Config, c: Conn, a: Action)
    requires Enabled(c, a)
    ensures a.Send? && Refuses(cfg, c, a.res) ==> Next(cfg, c, a) == c
    ensures a.Send? && !Refuses(cfg, c, a.res) ==> Next(cfg, c, a).accepted == c.accepted + [a.data]
    ensures !a.Send? ==> Next(cfg, c, a).accepted == c.accepted
  {
    hide Flatten, WithEvents, Removed, IsWriting;
    match a {
      case Send(_, _) =>
      case DispatchOut(res) => HandleWriteKeepsState(cfg, c.(dispatch := Idle), res); hide HandleWrite;
      case _ =>
    }
  }

  // ---------------------------------------------------------------- state and registration

  /** The connection callbacks among the observations. */
  function Callbacks(log: seq<Observation>): seq<Observation> {
    if log == [] then []
    else
      var last := log[|log| - 1];
      Callbacks(log[..|log| - 1]) + if last.Up? || last.Down? then [last] else []
  }

  lemma CallbacksSnoc(log: seq<Observation>, o: Observation)
    ensures Callbacks(log + [o]) == Callbacks(log) + if o.Up? || o.Down? then [o] else []
  {
    assert (log + [o])[..|log|] == log;
  }

  function Closings(log: seq<Observation>): nat {
    multiset(log)[CloseCallback]
  }

  predicate Established(cfg: Config, c: Conn) {
    && c.reg.index.Added? && EPOLLIN in c.reg.events && c.reg.events <= cfg.masks.read + cfg.masks.write
    && (c.output != [] ==> IsWriting(cfg, c))
    && (c.writeShut ==> c.output == [] && !IsWriting(cfg, c))
    && Callbacks(c.log) == [Up] && Closings(c.log) == 0 && !c.destroyed
  }

  predicate Closed(c: Conn) {
    && c.reg.events == {} && c.reg.kernel == None
    && (c.destroyed <==> c.reg.index.New?)
    && Callbacks(c.log) == [Up, Down] && Closings(c.log) == 1
  }

  /** Every half-close issued before the close found everything owed already sent. */
  predicate HalfClosesFlushed(c: Conn) {
    forall i :: 0 <= i < |c.log| && c.log[i].ShutdownWrite? && !c.log[i].when.Disconnected? ==>
      c.log[i].sent == c.log[i].owed
  }

  /** While one poll's events are dispatched the connection is up until they close it, and a hang-up
      that closes it comes without EPOLLIN, so that no second close follows. */
  predicate DispatchingLive(c: Conn) {
    match c.dispatch
    case Idle => true
    case AtHup(_) => Live(c)
    case AtErr(revents) => EPOLLIN in revents ==> Live(c)
    case AtIn(revents) => EPOLLIN in revents ==> Live(c)
    case AtOut(_) => true
  }

  predicate Inv(cfg: Config, c: Conn) {
    Conserved(c) && Settled(cfg, c)
  }

  predicate Settled(cfg: Config, c: Conn) {
    && DispatchingLive(c)
    && Agrees(c.reg)
    && c.assertsHeld
    && HalfClosesFlushed(c)
    && (c.state.Connecting? ==> c == INITIAL)
    && (Live(c) ==> Established(cfg, c))
    && (c.state.Disconnected? ==> Closed(c))
  }

  lemma HandleCloseKeepsInv(cfg: Config, c: Conn)
    requires Inv(cfg, c) && Live(c)
    requires c.dispatch.AtOut? || (c.dispatch.AtErr? && EPOLLIN !in c.dispatch.revents)
    ensures Inv(cfg, HandleClose(c))
  {
    var asserted := WithInterest(c.(state := Disconnected), {});
    CallbacksSnoc(c.log, Down);
    CallbacksSnoc(c.log + [Down], CloseCallback);
  }

  lemma ShutdownInLoopKeepsInv(cfg: Config, c: Conn)
    requires Inv(cfg, c) && !c.state.Connecting?
    ensures Inv(cfg, ShutdownInLoop(cfg, c))
  {
    var o := ShutdownWrite(c.state, Flatten(c.accepted), c.wire);
    CallbacksSnoc(c.log, o);
    if Live(c) && !IsWriting(cfg, c) {
      assert c.wire + c.output == c.wire;
    }
  }

  lemma HandleWriteKeepsInv(cfg: Config, c: Conn, res: WriteResult)
    requires cfg.masks.Sane() && Inv(cfg, c) && !c.state.Connecting? && res.Fits(|c.output|)
    ensures Inv(cfg, HandleWrite(cfg, c, res))
  {
    HandleWriteConserves(cfg, c, res);
    if IsWriting(cfg, c) && res.Wrote? && res.n > 0 {
      var sent := c.(wire := c.wire + c.output[..res.n], output := c.output[res.n..]);
      if sent.output == [] {
        assert EPOLLIN in sent.reg.events - cfg.masks.write;
        var quiet := WithInterest(sent, sent.reg.events - cfg.masks.write);
        assert Conserved(quiet) && quiet.reg.index.Added?;
        var noticed := if cfg.onWriteComplete then Notify(quiet, WriteComplete) else quiet;
        if noticed.state.Disconnecting? {
          ShutdownInLoopKeepsInv(cfg, noticed);
        }
      }
    }
  }

  lemma BufferedStaysSettled(cfg: Config, c: Conn, rest: Bytes)
    requires cfg.masks.Sane() && rest != [] && !c.writeShut
    requires Settled(cfg, c) && Live(c)
    ensures Settled(cfg, Buffered(cfg, c, rest))
  {
    assert EPOLLOUT in (c.reg.events + cfg.masks.write) * cfg.masks.write;
    assert EPOLLIN in c.reg.events + cfg.masks.write;
  }

  lemma SendKeepsInv(cfg: Config, c: Conn, data: Bytes, res: WriteResult)
    requires cfg.masks.Sane() && Inv(cfg, c) && Enabled(c, Send(data, res))
    ensures Inv(cfg, SendInLoop(cfg, c, data, res))
  {
    SendConserves(cfg, c, data, res);
    if !Refuses(cfg, c, res) {
      var nwrote := Taken(cfg, c, data, res);
      var sent := Accepting(cfg, c, data, res);
      if nwrote < |data| {
        BufferedStaysSettled(cfg, sent, data[nwrote..]);
      }
    }
  }

  lemma EstablishKeepsInv(cfg: Config, c: Conn)
    requires cfg.masks.Sane() && Inv(cfg, c) && c.state.Connecting?
    ensures Inv(cfg, Establish(cfg, c))
  {
    CallbacksSnoc(c.log, Up);
  }

  lemma DestroyKeepsInv(cfg: Config, c: Conn)
    requires Inv(cfg, c) && Enabled(c, RunDestroy)
    ensures Inv(cfg, Destroy(c))
  {
    assert c.state.Disconnected?;
  }

  lemma DoHupKeepsInv(cfg: Config, c: Conn)
    requires Inv(cfg, c) && c.dispatch.AtHup?
    ensures Inv(cfg, DoHup(c))
  {
    var r := c.dispatch.revents;
    if EPOLLHUP in r && EPOLLIN !in r {
      HandleCloseKeepsInv(cfg, c.(dispatch := AtErr(r)));
    }
  }

  lemma ShutdownKeepsInv(cfg: Config, c: Conn, inLoopThread: bool)
    requires Inv(cfg, c)
    ensures Inv(cfg, Shutdown(cfg, c, inLoopThread))
  {
    hide ShutdownInLoop;
    if c.state.Connected? && inLoopThread {
      ShutdownInLoopKeepsInv(cfg, c.(state := Disconnecting));
    }
  }

  /** Steps that change nothing but how far the connection is with its events or its queued tasks. */
  lemma QuietStepKeepsInv(cfg: Config, c: Conn, a: Action)
    requires Inv(cfg, c) && Enabled(c, a)
    ensures a.PollReports? || a.DispatchErr? ==> Inv(cfg, Next(cfg, c, a))
    ensures a.RunShutdown? ==> !c.state.Connecting? && Inv(cfg, c.(shutdownsQueued := c.shutdownsQueued - 1))
    ensures a.DispatchOut? ==> !c.state.Connecting? && Inv(cfg, c.(dispatch := Idle))
  {
    hide SendInLoop, HandleWrite, DoIn, DoHup, Shutdown, ShutdownInLoop, Destroy, Establish;
  }

  lemma InvStep(cfg: Config, c: Conn, a: Action)
    requires cfg.masks.Sane() && Inv(cfg, c) && Enabled(c, a)
    ensures Inv(cfg, Next(cfg, c, a))
  {
    QuietStepKeepsInv(cfg, c, a);
    hide SendInLoop, HandleWrite, DoIn, DoHup, DoErr, Shutdown, ShutdownInLoop, Destroy, Establish, Settled, Conserved;
    match a
    case DoEstablish => EstablishKeepsInv(cfg, c);
    case Send(data, res) => SendKeepsInv(cfg, c, data, res);
    case CallShutdown(inLoopThread) => ShutdownKeepsInv(cfg, c, inLoopThread);
    case RunShutdown => ShutdownInLoopKeepsInv(cfg, c.(shutdownsQueued := c.shutdownsQueued - 1));
    case PollReports(_) =>
    case DispatchHup => DoHupKeepsInv(cfg, c);
    case DispatchErr =>
    case DispatchIn(read) => DoInKeepsInv(cfg, c, read);
    case DispatchOut(res) => HandleWriteKeepsInv(cfg, c.(dispatch := Idle), res);
    case RunDestroy => DestroyKeepsInv(cfg, c);
  }

  lemma ReceivedKeepsInv(cfg: Config, c: Conn, data: Bytes)
    requires Inv(cfg, c) && Live(c)
    ensures Inv(cfg, Observe(c.(input := c.input + data), Message))
  {
    CallbacksSnoc(c.log, Message);
  }

  lemma AtOutKeepsInv(cfg: Config, c: Conn)
    requires Inv(cfg, c) && c.dispatch.AtIn?
    ensures Inv(cfg, c.(dispatch := AtOut(c.dispatch.revents)))
    ensures EPOLLIN in c.dispatch.revents ==> Live(c)
  {
  }

  lemma DoInKeepsInv(cfg: Config, c: Conn, read: ReadResult)
    requires Inv(cfg, c) && c.dispatch.AtIn?
    ensures Inv(cfg, DoIn(c, read))
  {
    AtOutKeepsInv(cfg, c);
    hide Inv, HandleClose, Observe;
    var next := c.(dispatch := AtOut(c.dispatch.revents));
    if EPOLLIN in c.dispatch.revents && read.Received? {
      if read.data == [] {
        HandleCloseKeepsInv(cfg, next);
      } else {
        ReceivedKeepsInv(cfg, next, read.data);
      }
    }
  }

  lemma {:induction false} InvHoldsFrom(cfg: Config, start: Conn, r: Run, i: nat)
    requires cfg.masks.Sane() && Inv(cfg, start) && IsRunFrom(cfg, start, r) && i < |r.states|
    ensures Inv(cfg, r.states[i])
  {
    hide Next, Enabled, Inv;
    if i > 0 {
      InvHoldsFrom(cfg, start, r, i - 1);
      InvStep(cfg, r.states[i - 1], r.acts[i - 1]);
    }
  }

  /** The invariant of a connection, in every reachable state. */
  lemma InvHolds(cfg: Config, r: Run, i: nat)
    requires cfg.masks.Sane() && IsRun(cfg, r) && i < |r.states|
    ensures Inv(cfg, r.states[i])
  {
    InvHoldsFrom(cfg, INITIAL, r, i);
  }

  // ---------------------------------------------------------------- half-close

  /** Graceful half-close, over every run: whenever shutdownWrite is called on a connection that is
      not yet down, every byte accepted so far has been sent.  Overlapping masks do not break it. */
  lemma GracefulHalfClose(cfg: Config, r: Run, i: nat, k: nat)
    requires cfg.masks.Sane() && IsRun(cfg, r) && i < |r.states| && k < |r.states[i].log|
    requires r.states[i].log[k].ShutdownWrite? && !r.states[i].log[k].when.Disconnected?
    ensures r.states[i].log[k].sent == r.states[i].log[k].owed
  {
    InvHolds(cfg, r, i);
  }

  lemma ShutStep(cfg: Config, c: Conn, a: Action)
    requires Settled(cfg, c) && Enabled(c, a) && c.writeShut && Live(c)
    ensures Next(cfg, c, a).writeShut && Next(cfg, c, a).accepted == c.accepted
  {
    hide Flatten, Callbacks, WithEvents;
    if a.Send? {
      assert Refuses(cfg, c, a.res);
    }
  }

  /** From the half-close until the connection goes down nothing more is accepted: what the peer has
      received by then is everything that was ever accepted. */
  lemma {:induction false} HalfCloseIsTheLastWord(cfg: Config, r: Run, i: nat, j: nat)
    requires cfg.masks.Sane() && IsRun(cfg, r) && i <= j < |r.states|
    requires r.states[i].writeShut && Live(r.states[i]) && Live(r.states[j])
    ensures r.states[j].writeShut && r.states[j].accepted == r.states[i].accepted
    ensures r.states[j].wire == Flatten(r.states[j].accepted)
    decreases j
  {
    hide Next, Enabled;
    InvHolds(cfg, r, j);
    if i < j {
      InvHolds(cfg, r, j - 1);
      InvHolds(cfg, r, i);
      if !Live(r.states[j - 1]) {
        EstablishedOnce(cfg, r, i, j - 1);
        CloseIsFinal(cfg, r, j - 1, j);
      }
      HalfCloseIsTheLastWord(cfg, r, i, j - 1);
      ShutStep(cfg, r.states[j - 1], r.acts[j - 1]);
    }
    assert r.states[j].wire + [] == r.states[j].wire;
  }

  // ---------------------------------------------------------------- close

  lemma {:induction false} EstablishedOnce(cfg: Config, r: Run, i: nat, j: nat)
    requires IsRun(cfg, r) && i <= j < |r.states| && !r.states[i].state.Connecting?
    ensures !r.states[j].state.Connecting?
    decreases j
  {
    hide Next, Enabled;
    if i < j {
      EstablishedOnce(cfg, r, i, j - 1);
      NeverConnectingAgain(cfg, r.states[j - 1], r.acts[j - 1]);
    }
  }

  lemma NeverConnectingAgain(cfg: Config, c: Conn, a: Action)
    requires Enabled(c, a) && !c.state.Connecting?
    ensures !Next(cfg, c, a).state.Connecting?
  {
    match a {
      case Send(data, res) => SendKeepsState(cfg, c, data, res);
      case DispatchOut(res) => HandleWriteKeepsState(cfg, c.(dispatch := Idle), res);
      case _ =>
    }
    hide Flatten, WithEvents, Removed, SendInLoop, HandleWrite;
  }

  lemma SendKeepsState(cfg: Config, c: Conn, data: Bytes, res: WriteResult)
    requires res.Fits(|data|)
    ensures SendInLoop(cfg, c, data, res).state == c.state
  {
    hide WithEvents;
  }

  lemma HandleWriteKeepsState(cfg: Config, c: Conn, res: WriteResult)
    requires res.Fits(|c.output|)
    ensures HandleWrite(cfg, c, res).state == c.state && HandleWrite(cfg, c, res).accepted == c.accepted
  {
    hide WithEvents, Flatten;
  }

  /** What a connection that is down keeps for ever: no part of its stream, its callbacks or its
      registration's absence from the kernel set changes again. */
  predicate StaysDown(c: Conn, d: Conn) {
    && d.state.Disconnected? && d.reg.kernel == None && d.reg.events == {}
    && d.accepted == c.accepted && d.wire == c.wire && d.output == c.output
    && Callbacks(d.log) == Callbacks(c.log) && Closings(d.log) == Closings(c.log)
  }

  lemma DownStep(cfg: Config, c: Conn, a: Action)
    requires cfg.masks.Sane() && Inv(cfg, c) && Enabled(c, a) && c.state.Disconnected?
    ensures StaysDown(c, Next(cfg, c, a))
  {
    match a
    case Send(data, res) => assert Next(cfg, c, a) == c;
    case RunShutdown => CallbacksSnoc(c.log, ShutdownWrite(c.state, Flatten(c.accepted), c.wire));
    case DispatchIn(_) => CallbacksSnoc(c.log, Message);
    case DispatchOut(_) => assert Next(cfg, c, a) == c.(dispatch := Idle);
    case RunDestroy => assert Next(cfg, c, a).log == c.log;
    case PollReports(_) =>
    case DispatchHup =>
    case DispatchErr =>
    case CallShutdown(_) => assert Next(cfg, c, a) == c;
    case DoEstablish =>
  }

  lemma {:induction false} CloseIsFinalFrom(cfg: Config, start: Conn, r: Run, i: nat, j: nat)
    requires cfg.masks.Sane() && Inv(cfg, start) && IsRunFrom(cfg, start, r) && i <= j < |r.states|
    requires r.states[i].state.Disconnected?
    ensures StaysDown(r.states[i], r.states[j])
    decreases j
  {
    hide Next, Enabled;
    InvHoldsFrom(cfg, start, r, i);
    if i < j {
      CloseIsFinalFrom(cfg, start, r, i, j - 1);
      InvHoldsFrom(cfg, start, r, j - 1);
      DownStep(cfg, r.states[j - 1], r.acts[j - 1]);
    }
  }

  /** Close is final: once a connection is down, whatever happens next, it stays down, its channel
      never re-enters the kernel's interest set and handleClose never runs again. */
  lemma CloseIsFinal(cfg: Config, r: Run, i: nat, j: nat)
    requires cfg.masks.Sane() && IsRun(cfg, r) && i <= j < |r.states|
    requires r.states[i].state.Disconnected?
    ensures StaysDown(r.states[i], r.states[j])
  {
    CloseIsFinalFrom(cfg, INITIAL, r, i, j);
  }

  /** The callbacks a user sees: none before the connection is established, up while it lives, then
      down, once; one close callback exactly when it is down; and the assert on handleClose's entry
      state never fails, even when one poll reports a hang-up, an error and EPOLLOUT together. */
  lemma CallbackTrace(cfg: Config, r: Run, i: nat)
    requires cfg.masks.Sane() && IsRun(cfg, r) && i < |r.states|
    ensures r.states[i].assertsHeld
    ensures Callbacks(r.states[i].log) ==
            match r.states[i].state
            case Connecting => []
            case Connected => [Up]
            case Disconnecting => [Up]
            case Disconnected => [Up, Down]
    ensures Closings(r.states[i].log) == if r.states[i].state.Disconnected? then 1 else 0
  {
    InvHolds(cfg, r, i);
  }

  /** Over every run, with any masks that pass for sane, the poller's map, the index and the kernel
      agree and no epoll_ctl was illegal. */
  lemma RegistrationAgrees(cfg: Config, r: Run, i: nat)
    requires cfg.masks.Sane() && IsRun(cfg, r) && i < |r.states|
    ensures Agrees(r.states[i].reg)
    ensures r.states[i].reg.kernel.Some? <==> Live(r.states[i])
  {
    InvHolds(cfg, r, i);
  }

  // ---------------------------------------------------------------- drain

  predicate AsksToWrite(c: Conn) {
    c.reg.kernel.Some? && EPOLLOUT in c.reg.kernel.value
  }

  /** While the connection is up: bytes are buffered, write interest is set and the kernel watches for
      EPOLLOUT, all three or none. */
  predicate Drains(cfg: Config, c: Conn) {
    Live(c) ==> (c.output != [] <==> IsWriting(cfg, c)) && (c.output != [] <==> AsksToWrite(c))
  }

  /** While the connection is up, buffered bytes have something that will come to fetch them. */
  predicate Triggered(c: Conn) {
    Live(c) && c.output != [] ==> AsksToWrite(c)
  }

  ghost predicate AlwaysDrains(cfg: Config) {
    forall r: Run, i {:trigger IsRun(cfg, r), r.states[i]} ::
      IsRun(cfg, r) && 0 <= i < |r.states| ==> Drains(cfg, r.states[i])
  }

  ghost predicate AlwaysTriggered(cfg: Config) {
    forall r: Run, i {:trigger IsRun(cfg, r), r.states[i]} ::
      IsRun(cfg, r) && 0 <= i < |r.states| ==> Triggered(r.states[i])
  }

  predicate WantsExactly(cfg: Config, c: Conn) {
    Live(c) ==> c.reg.events == if c.output == [] then cfg.masks.read else cfg.masks.read + cfg.masks.write
  }

  lemma WantsExactlyStep(cfg: Config, c: Conn, a: Action)
    requires cfg.masks.Sane() && cfg.masks.Disjoint() && Enabled(c, a)
    requires Inv(cfg, c) && WantsExactly(cfg, c)
    ensures WantsExactly(cfg, Next(cfg, c, a))
  {
    assert (cfg.masks.read + cfg.masks.write) - cfg.masks.write == cfg.masks.read;
    assert (cfg.masks.read + cfg.masks.write) + cfg.masks.write == cfg.masks.read + cfg.masks.write;
    assert EPOLLOUT in (cfg.masks.read + cfg.masks.write) * cfg.masks.write;
    match a
    case DoEstablish => assert {} + cfg.masks.read == cfg.masks.read;
    case Send(data, res) => SendWantsExactly(cfg, c, data, res);
    case DispatchOut(res) => WriteWantsExactly(cfg, c.(dispatch := Idle), res);
    case _ =>
  }

  lemma BufferedWantsExactly(cfg: Config, c: Conn, rest: Bytes)
    requires WantsExactly(cfg, c) && rest != [] && cfg.masks.Disjoint() && EPOLLOUT in cfg.masks.write
    ensures WantsExactly(cfg, Buffered(cfg, c, rest))
  {
    hide WithEvents;
    assert EPOLLOUT in (cfg.masks.read + cfg.masks.write) * cfg.masks.write;
  }

  lemma SendWantsExactly(cfg: Config, c: Conn, data: Bytes, res: WriteResult)
    requires res.Fits(|data|) && WantsExactly(cfg, c)
    requires cfg.masks.Disjoint() && EPOLLOUT in cfg.masks.write
    ensures WantsExactly(cfg, SendInLoop(cfg, c, data, res))
  {
    hide Buffered, IsWriting;
    var nwrote := Taken(cfg, c, data, res);
    var sent := Accepting(cfg, c, data, res);
    if nwrote < |data| {
      BufferedWantsExactly(cfg, sent, data[nwrote..]);
    }
  }

  lemma WriteWantsExactly(cfg: Config, c: Conn, res: WriteResult)
    requires res.Fits(|c.output|) && WantsExactly(cfg, c)
    requires (cfg.masks.read + cfg.masks.write) - cfg.masks.write == cfg.masks.read
    requires cfg.masks.Disjoint()
    ensures WantsExactly(cfg, HandleWrite(cfg, c, res))
  {
    hide Flatten, WithEvents;
    if Live(c) && c.output == [] {
      assert !IsWriting(cfg, c);
    }
  }

  lemma {:induction false} WantsExactlyHolds(cfg: Config, r: Run, i: nat)
    requires cfg.masks.Sane() && cfg.masks.Disjoint() && IsRun(cfg, r) && i < |r.states|
    ensures WantsExactly(cfg, r.states[i]) && Inv(cfg, r.states[i])
  {
    hide Next, Enabled;
    InvHolds(cfg, r, i);
    if i > 0 {
      WantsExactlyHolds(cfg, r, i - 1);
      WantsExactlyStep(cfg, r.states[i - 1], r.acts[i - 1]);
    }
  }

  /** The trigger is real: with disjoint masks a live connection with bytes buffered can always be
      reported writable. */
  lemma BufferedCanBeReported(cfg: Config, r: Run, i: nat)
    requires cfg.masks.Sane() && cfg.masks.Disjoint() && IsRun(cfg, r) && i < |r.states|
    requires Live(r.states[i]) && r.states[i].output != [] && r.states[i].dispatch.Idle?
    ensures Enabled(r.states[i], PollReports({EPOLLOUT}))
  {
    WantsExactlyHolds(cfg, r, i);
    assert EPOLLOUT in r.states[i].reg.events;
  }

  /** And in every run every dispatch of a writable event on a live connection with bytes buffered sends
      what the socket takes and keeps the rest; the one that empties the buffer carries out a half-close
      asked for earlier, with everything accepted on the wire. */
  lemma EveryWriteEventSends(cfg: Config, r: Run, i: nat, n: nat)
    requires cfg.masks.Sane() && cfg.masks.Disjoint() && IsRun(cfg, r) && i < |r.acts|
    requires r.acts[i] == DispatchOut(Wrote(n)) && EPOLLOUT in r.states[i].dispatch.revents
    requires Live(r.states[i]) && 0 < n <= |r.states[i].output|
    ensures var c, d := r.states[i], r.states[i + 1];
            && Live(d) && d.wire == c.wire + c.output[..n] && d.output == c.output[n..]
            && (c.state.Disconnecting? && n == |c.output| ==> d.writeShut && d.wire == Flatten(d.accepted))
  {
    WantsExactlyHolds(cfg, r, i);
    StreamConserved(cfg, r, i + 1);
    var c, d := r.states[i], r.states[i + 1];
    assert d == Next(cfg, c, r.acts[i]) && c.dispatch.AtOut?;
    WritableSends(cfg, c.(dispatch := Idle), n);
    hide HandleWrite;
    assert d.wire + [] == d.wire;
  }

  lemma WritableSends(cfg: Config, c: Conn, n: nat)
    requires cfg.masks.Sane() && cfg.masks.Disjoint() && WantsExactly(cfg, c) && Live(c) && 0 < n <= |c.output|
    ensures var d := HandleWrite(cfg, c, Wrote(n));
            && Live(d) && d.wire == c.wire + c.output[..n] && d.output == c.output[n..]
            && (c.state.Disconnecting? && n == |c.output| ==> d.writeShut)
  {
    hide Flatten;
    assert EPOLLOUT in (cfg.masks.read + cfg.masks.write) * cfg.masks.write;
    assert (cfg.masks.read + cfg.masks.write - cfg.masks.write) * cfg.masks.write == {};
  }

  /** A half-close asked for and not yet made is waited for: by bytes still buffered, or in a queue. */
  predicate Remembers(c: Conn) {
    c.state.Disconnecting? && !c.writeShut ==> c.output != [] || c.shutdownsQueued > 0
  }

  ghost predicate AlwaysRemembers(cfg: Config) {
    forall r: Run, i {:trigger IsRun(cfg, r), r.states[i]} ::
      IsRun(cfg, r) && 0 <= i < |r.states| ==> Remembers(r.states[i])
  }

  lemma RemembersStep(cfg: Config, c: Conn, a: Action)
    requires cfg.masks.Sane() && cfg.masks.Disjoint() && Enabled(c, a)
    requires Inv(cfg, c) && WantsExactly(cfg, c) && Remembers(c)
    ensures Remembers(Next(cfg, c, a))
  {
    hide WithEvents, Flatten, Callbacks;
    assert Live(c) && c.output == [] ==> !IsWriting(cfg, c);
    match a {
      case Send(data, res) => SendKeepsShut(cfg, c, data, res); hide SendInLoop;
      case DispatchOut(res) =>
        assert (cfg.masks.read + cfg.masks.write - cfg.masks.write) * cfg.masks.write == {};
      case _ =>
    }
  }

  lemma SendKeepsShut(cfg: Config, c: Conn, data: Bytes, res: WriteResult)
    requires res.Fits(|data|)
    ensures var d := SendInLoop(cfg, c, data, res);
            d.writeShut == c.writeShut && d.state == c.state && d.shutdownsQueued == c.shutdownsQueued
            && |d.output| >= |c.output|
  {
    hide WithEvents, IsWriting, Flatten, Buffered;
    var nwrote := Taken(cfg, c, data, res);
    if nwrote < |data| {
      BufferedKeepsShut(cfg, Accepting(cfg, c, data, res), data[nwrote..]);
    }
  }

  lemma BufferedKeepsShut(cfg: Config, c: Conn, rest: Bytes)
    ensures var d := Buffered(cfg, c, rest);
            d.writeShut == c.writeShut && d.state == c.state && d.shutdownsQueued == c.shutdownsQueued
            && |d.output| >= |c.output| && d.log == c.log && d.dispatch == c.dispatch && d.destroyed == c.destroyed
  {
    hide WithEvents, IsWriting;
  }

  lemma {:induction false} RemembersHolds(cfg: Config, r: Run, i: nat)
    requires cfg.masks.Sane() && cfg.masks.Disjoint() && IsRun(cfg, r) && i < |r.states|
    ensures Remembers(r.states[i])
  {
    hide Next, Enabled;
    if i > 0 {
      RemembersHolds(cfg, r, i - 1);
      WantsExactlyHolds(cfg, r, i - 1);
      RemembersStep(cfg, r.states[i - 1], r.acts[i - 1]);
    }
  }

  /** Asked to half-close as soon as it is established, with nothing to send. */
  function ShutAtOnce(cfg: Config): Run {
    var up := Next(cfg, INITIAL, DoEstablish);
    Run([INITIAL, up, Shutdown(cfg, up, true)], [DoEstablish, CallShutdown(true)])
  }

  lemma HalfCloseIsForgotten(cfg: Config)
    requires cfg.masks.Sane() && !cfg.masks.Disjoint()
    ensures IsRun(cfg, ShutAtOnce(cfg)) && !Remembers(ShutAtOnce(cfg).states[2])
  {
    var up := ShutAtOnce(cfg).states[1];
    assert up.reg.events == cfg.masks.read;
    assert IsWriting(cfg, up);
  }

  /** A half-close asked for is never forgotten, over all runs, if and only if the masks share no bit. */
  lemma HalfCloseRememberedIffDisjoint(cfg: Config)
    requires cfg.masks.Sane()
    ensures AlwaysRemembers(cfg) <==> cfg.masks.Disjoint()
  {
    if cfg.masks.Disjoint() {
      forall r: Run, i | IsRun(cfg, r) && 0 <= i < |r.states|
        ensures Remembers(r.states[i])
      {
        RemembersHolds(cfg, r, i);
      }
    } else {
      HalfCloseIsForgotten(cfg);
      var r := ShutAtOnce(cfg);
      assert IsRun(cfg, r) && !Remembers(r.states[2]);
    }
  }

  /** Established, then asked to send one byte to a socket that would take it. */
  function OneByteRun(cfg: Config): Run {
    var up := Next(cfg, INITIAL, DoEstablish);
    var send := Send([0], Wrote(1));
    Run([INITIAL, up, SendInLoop(cfg, up, [0], Wrote(1))], [DoEstablish, send])
  }

  lemma OneByteIsStranded(cfg: Config)
    requires cfg.masks.Sane() && !cfg.masks.Disjoint()
    ensures IsRun(cfg, OneByteRun(cfg)) && !Triggered(OneByteRun(cfg).states[2])
  {
    var up := OneByteRun(cfg).states[1];
    assert up.reg.events == cfg.masks.read;
    assert IsWriting(cfg, up);
  }

  /** The drain invariant holds over all runs if and only if the two masks share no bit. */
  lemma DrainIffDisjoint(cfg: Config)
    requires cfg.masks.Sane()
    ensures AlwaysDrains(cfg) <==> cfg.masks.Disjoint()
    ensures AlwaysTriggered(cfg) <==> cfg.masks.Disjoint()
  {
    if cfg.masks.Disjoint() {
      forall r: Run, i | IsRun(cfg, r) && 0 <= i < |r.states|
        ensures Drains(cfg, r.states[i]) && Triggered(r.states[i])
      {
        WantsExactlyHolds(cfg, r, i);
        assert EPOLLOUT in (cfg.masks.read + cfg.masks.write) * cfg.masks.write;
      }
    } else {
      OneByteIsStranded(cfg);
      var r := OneByteRun(cfg);
      assert IsRun(cfg, r) && !Triggered(r.states[2]) && !Drains(cfg, r.states[2]);
    }
  }

  // ---------------------------------------------------------------- overlapping masks

  predicate Starved(cfg: Config, c: Conn) {
    && c.wire == []
    && (Live(c) ==> c.reg.events == cfg.masks.read && !c.writeShut)
    && (!c.dispatch.Idle? ==> EPOLLOUT !in c.dispatch.revents)
  }

  lemma StarvedStep(cfg: Config, c: Conn, a: Action)
    requires cfg.masks.Sane() && !cfg.masks.Disjoint() && Enabled(c, a)
    requires Inv(cfg, c) && Starved(cfg, c)
    ensures Starved(cfg, Next(cfg, c, a))
  {
    if Live(c) {
      assert IsWriting(cfg, c) by {
        var shared :| shared in cfg.masks.read && shared in cfg.masks.write;
        assert shared in c.reg.events * cfg.masks.write;
      }
    }
  }

  /** With masks that share a bit no connection ever sends a byte or half-closes while it is up: what is
      sent is buffered, and EPOLLOUT is never asked for, so never reported. */
  lemma {:induction false} OverlapStarves(cfg: Config, r: Run, i: nat)
    requires cfg.masks.Sane() && !cfg.masks.Disjoint() && IsRun(cfg, r) && i < |r.states|
    ensures Starved(cfg, r.states[i])
  {
    hide Next, Enabled;
    if i > 0 {
      OverlapStarves(cfg, r, i - 1);
      InvHolds(cfg, r, i - 1);
      StarvedStep(cfg, r.states[i - 1], r.acts[i - 1]);
    }
  }

  /** The masks in the text share EPOLLPRI, so under them no run puts a byte on the wire. */
  lemma SourceMasksStarve(cfg: Config, r: Run, i: nat)
    requires cfg.masks == SOURCE_MASKS && IsRun(cfg, r) && i < |r.states|
    ensures cfg.masks.Sane() && !cfg.masks.Disjoint()
    ensures r.states[i].wire == [] && !AlwaysDrains(cfg)
  {
    assert EPOLLPRI in cfg.masks.read && EPOLLPRI in cfg.masks.write;
    OverlapStarves(cfg, r, i);
    DrainIffDisjoint(cfg);
  }

  // ---------------------------------------------------------------- notices

  function HighWaters(notices: seq<Notice>): nat {
    if notices == [] then 0
    else HighWaters(notices[..|notices| - 1]) + if notices[|notices| - 1].HighWater? then 1 else 0
  }

  lemma HighWatersSnoc(notices: seq<Notice>, n: Notice)
    ensures HighWaters(notices + [n]) == HighWaters(notices) + if n.HighWater? then 1 else 0
  {
    assert (notices + [n])[..|notices|] == notices;
  }

  /** The output buffer's length rises from below the mark to at least the mark. */
  predicate Crosses(mark: nat, c: Conn, d: Conn) {
    |c.output| < mark <= |d.output|
  }

  ghost function Crossings(mark: nat, states: seq<Conn>): nat {
    if |states| < 2 then 0
    else
      var n := |states| - 1;
      Crossings(mark, states[..n]) + if Crosses(mark, states[n - 1], states[n]) then 1 else 0
  }

  /** The notices of `d` are those of `c`, and one more exactly when the mark was crossed. */
  predicate CountsCrossing(cfg: Config, c: Conn, d: Conn) {
    HighWaters(d.notices) == HighWaters(c.notices) + if cfg.onHighWater && Crosses(cfg.mark, c, d) then 1 else 0
  }

  lemma BufferedNotices(cfg: Config, c: Conn, rest: Bytes)
    ensures var d := Buffered(cfg, c, rest);
            && |d.output| == |c.output| + |rest|
            && d.notices == if cfg.onHighWater && Crosses(cfg.mark, c, d) then c.notices + [HighWater(|d.output|)]
                            else c.notices
  {
    hide WithEvents, IsWriting;
  }

  /** What a send queues: nothing, a write-complete, or the high-water notice of a crossing. */
  lemma SendNotices(cfg: Config, c: Conn, data: Bytes, res: WriteResult)
    requires res.Fits(|data|)
    ensures var d := SendInLoop(cfg, c, data, res);
            if cfg.onHighWater && Crosses(cfg.mark, c, d) then d.notices == c.notices + [HighWater(|d.output|)]
            else d.notices == c.notices || (d.notices == c.notices + [WriteComplete] && d.output == [])
    ensures |SendInLoop(cfg, c, data, res).output| >= |c.output|
  {
    hide Buffered, IsWriting;
    var nwrote := Taken(cfg, c, data, res);
    if nwrote < |data| {
      BufferedNotices(cfg, Accepting(cfg, c, data, res), data[nwrote..]);
    }
  }

  lemma WriteNotices(cfg: Config, c: Conn, res: WriteResult)
    requires res.Fits(|c.output|)
    ensures var d := HandleWrite(cfg, c, res);
            d.notices == c.notices || (d.notices == c.notices + [WriteComplete] && d.output == [])
    ensures |HandleWrite(cfg, c, res).output| <= |c.output|
  {
    hide Flatten, WithEvents;
  }

  lemma OtherStepsQueueNothing(cfg: Config, c: Conn, a: Action)
    requires Enabled(c, a) && !a.Send? && !a.DispatchOut?
    ensures Next(cfg, c, a).notices == c.notices && Next(cfg, c, a).output == c.output
  {
    hide Flatten, WithEvents, Removed, SendInLoop, HandleWrite, IsWriting;
    match a {
      case CallShutdown(_) =>
      case DispatchIn(_) =>
      case RunDestroy =>
      case _ =>
    }
  }

  lemma NoticeStep(cfg: Config, c: Conn, a: Action)
    requires Enabled(c, a)
    ensures CountsCrossing(cfg, c, Next(cfg, c, a))
    ensures !a.DispatchOut? ==> |Next(cfg, c, a).output| >= |c.output|
  {
    hide SendInLoop, HandleWrite, HighWaters;
    var d := Next(cfg, c, a);
    HighWatersSnoc(c.notices, WriteComplete);
    HighWatersSnoc(c.notices, HighWater(|d.output|));
    match a
    case Send(data, res) => SendNotices(cfg, c, data, res);
    case DispatchOut(res) => WriteNotices(cfg, c.(dispatch := Idle), res);
    case _ => OtherStepsQueueNothing(cfg, c, a);
  }

  /** The high-water notices queued over any run are as many as the upward crossings of the mark. */
  lemma {:induction false} NoticesAreCrossings(cfg: Config, r: Run, i: nat)
    requires cfg.onHighWater && IsRun(cfg, r) && i < |r.states|
    ensures HighWaters(r.states[i].notices) == Crossings(cfg.mark, r.states[..i + 1])
  {
    hide Next, Enabled;
    if i > 0 {
      NoticesAreCrossings(cfg, r, i - 1);
      NoticeStep(cfg, r.states[i - 1], r.acts[i - 1]);
      assert r.states[..i + 1][..i] == r.states[..i];
    }
  }

  /** Between two crossings a write event has taken the buffer below the mark. */
  lemma {:induction false} WriteBetweenCrossings(cfg: Config, r: Run, i: nat, j: nat) returns (k: nat)
    requires IsRun(cfg, r) && i < j < |r.acts|
    requires Crosses(cfg.mark, r.states[i], r.states[i + 1])
    requires Crosses(cfg.mark, r.states[j], r.states[j + 1])
    ensures i < k < j && r.acts[k].DispatchOut?
    ensures |r.states[k].output| >= cfg.mark > |r.states[k + 1].output|
    decreases j
  {
    hide Next, Enabled;
    k := i + 1;
    while |r.states[k + 1].output| >= cfg.mark
      invariant i < k < j && |r.states[k].output| >= cfg.mark
      decreases j - k
    {
      k := k + 1;
    }
    NoticeStep(cfg, r.states[k], r.acts[k]);
  }

  lemma WriteCompleteStep(cfg: Config, c: Conn, a: Action)
    requires Enabled(c, a) && |Next(cfg, c, a).notices| > |c.notices|
    ensures Next(cfg, c, a).notices[|c.notices|].WriteComplete? ==> Next(cfg, c, a).output == []
  {
    hide SendInLoop, HandleWrite;
    match a
    case Send(data, res) => SendNotices(cfg, c, data, res);
    case DispatchOut(res) => WriteNotices(cfg, c.(dispatch := Idle), res);
    case _ => OtherStepsQueueNothing(cfg, c, a);
  }

  /** A write-complete notice is queued only by a step that leaves everything accepted on the wire. */
  lemma WriteCompleteMeansSent(cfg: Config, r: Run, i: nat)
    requires IsRun(cfg, r) && i < |r.acts|
    requires |r.states[i + 1].notices| > |r.states[i].notices|
    requires r.states[i + 1].notices[|r.states[i].notices|].WriteComplete?
    ensures r.states[i + 1].wire == Flatten(r.states[i + 1].accepted) && r.states[i + 1].output == []
  {
    hide Next, Enabled;
    StreamConserved(cfg, r, i + 1);
    var c, d := r.states[i], r.states[i + 1];
    WriteCompleteStep(cfg, c, r.acts[i]);
    assert d.wire + [] == d.wire;
  }
}
