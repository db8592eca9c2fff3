/**
 muduo/TcpConnection.cpp as a state machine over values: one connection, its channel's registration,
 its socket, and the record of what its user handed over and what its peer was sent.  Kernel answers
 and the order of calls are arbitrary.  The class in TcpConnection.dfy refines these functions.
 */
module Connection {
  import opened Common
  import opened EventMask
  import opened Registration

  /** Callbacks handed to the loop's queue. */
  datatype Notice = WriteComplete | HighWater(len: nat)

  /** Callbacks run and half-closes issued, with what was owed and sent at that time. */
  datatype Observation =
    | Up
    | Down
    | CloseCallback
    | Message
    | ShutdownWrite(when: ConnState, owed: Bytes, sent: Bytes)

  /** What stays fixed over a run: the masks, the high-water mark and which callbacks are installed. */
  datatype Config = Config(masks: Masks, mark: nat, onWriteComplete: bool, onHighWater: bool)

  /** How far Channel::handleEventWithGuard has come with the events of the current poll. */
  datatype Dispatch = Idle | AtHup(revents: Mask) | AtErr(revents: Mask) | AtIn(revents: Mask) | AtOut(revents: Mask)

  datatype Conn = Conn(
    state: ConnState,
    reg: Reg,
    input: Bytes,
    output: Bytes,
    accepted: seq<Bytes>,   // messages sendInLoop took on, in order
    wire: Bytes,            // bytes the kernel took
    notices: seq<Notice>,
    log: seq<Observation>,
    shutdownsQueued: nat,   // shutdownInLoop tasks not yet run
    writeShut: bool,        // SHUT_WR issued on the socket
    dispatch: Dispatch,
    destroyed: bool,
    assertsHeld: bool       // the assert of handleClose has never failed
  )

  const INITIAL := Conn(Connecting, FRESH_REG, [], [], [], [], [], [], 0, false, Idle, false, true)

  function Flatten(messages: seq<Bytes>): Bytes {
    if messages == [] then []
    else Flatten(messages[..|messages| - 1]) + messages[|messages| - 1]
  }

  predicate Live(c: Conn) {
    c.state.Connected? || c.state.Disconnecting?
  }

  predicate IsWriting(cfg: Config, c: Conn) {
    c.reg.events * cfg.masks.write != {}
  }

  function WithInterest(c: Conn, events: Mask): Conn {
    c.(reg := WithEvents(c.reg, events))
  }

  function Notify(c: Conn, notice: Notice): Conn {
    c.(notices := c.notices + [notice])
  }

  function Observe(c: Conn, o: Observation): Conn {
    c.(log := c.log + [o])
  }

  function Establish(cfg: Config, c: Conn): Conn {
    var connected := c.(state := Connected);
    Observe(WithInterest(connected, c.reg.events + cfg.masks.read), Up)
  }

  function ShutdownInLoop(cfg: Config, c: Conn): Conn {
    if IsWriting(cfg, c) then c
    else Observe(c, ShutdownWrite(c.state, Flatten(c.accepted), c.wire)).(writeShut := true)
  }

  /** The second half of shutdown: the state is set, and the half-close made or queued. */
  function SetDisconnecting(cfg: Config, c: Conn, inLoopThread: bool): Conn {
    var closing := c.(state := Disconnecting);
    if inLoopThread then ShutdownInLoop(cfg, closing)
    else closing.(shutdownsQueued := c.shutdownsQueued + 1)
  }

  /** Here the state's test and its change are one step; module ShutdownRace takes them apart. */
  function Shutdown(cfg: Config, c: Conn, inLoopThread: bool): Conn {
    if c.state.Connected? then SetDisconnecting(cfg, c, inLoopThread) else c
  }

  /** Whether sendInLoop tries the socket before the buffer. */
  predicate WritesDirectly(cfg: Config, c: Conn) {
    !IsWriting(cfg, c) && c.output == []
  }

  /** The connection refuses this message: it is down, or the direct write found the peer gone. */
  predicate Refuses(cfg: Config, c: Conn, res: WriteResult) {
    || c.state.Disconnected?
    || (WritesDirectly(cfg, c) && res.WriteFailed? && (res.errno.EPIPE? || res.errno.ECONNRESET?))
  }

  /** How much of a message the socket takes at once. */
  function Taken(cfg: Config, c: Conn, data: Bytes, res: WriteResult): (n: nat)
    requires res.Fits(|data|)
    ensures n <= |data|
  {
    if WritesDirectly(cfg, c) && res.Wrote? then res.n else 0
  }

  /** The message is taken on, and what the socket took of it is sent. */
  function Accepting(cfg: Config, c: Conn, data: Bytes, res: WriteResult): Conn
    requires res.Fits(|data|)
  {
    var nwrote := Taken(cfg, c, data, res);
    var sent := c.(accepted := c.accepted + [data], wire := c.wire + data[..nwrote]);
    if WritesDirectly(cfg, c) && res.Wrote? && nwrote == |data| && cfg.onWriteComplete then Notify(sent, WriteComplete)
    else sent
  }

  function SendInLoop(cfg: Config, c: Conn, data: Bytes, res: WriteResult): Conn
    requires res.Fits(|data|)
  {
    if Refuses(cfg, c, res) then c
    else
      var nwrote := Taken(cfg, c, data, res);
      if nwrote == |data| then Accepting(cfg, c, data, res)
      else Buffered(cfg, Accepting(cfg, c, data, res), data[nwrote..])
  }

  /** The rest of a message goes to the output buffer, crossing the mark and asking for EPOLLOUT. */
  function Buffered(cfg: Config, c: Conn, rest: Bytes): Conn {
    var newLen := |c.output| + |rest|;
    var noticed := if |c.output| < cfg.mark <= newLen && cfg.onHighWater then Notify(c, HighWater(newLen)) else c;
    var buffered := noticed.(output := c.output + rest);
    if IsWriting(cfg, buffered) then buffered
    else WithInterest(buffered, buffered.reg.events + cfg.masks.write)
  }

  function HandleWrite(cfg: Config, c: Conn, res: WriteResult): Conn
    requires res.Fits(|c.output|)
  {
    if !IsWriting(cfg, c) || !res.Wrote? || res.n == 0 then c
    else
      var sent := c.(wire := c.wire + c.output[..res.n], output := c.output[res.n..]);
      if sent.output != [] then sent else Drained(cfg, sent)
  }

  /** Nothing is left to write: interest is dropped and a postponed half-close is carried out. */
  function Drained(cfg: Config, c: Conn): Conn {
    var quiet := WithInterest(c, c.reg.events - cfg.masks.write);
    var noticed := if cfg.onWriteComplete then Notify(quiet, WriteComplete) else quiet;
    if noticed.state.Disconnecting? then ShutdownInLoop(cfg, noticed) else noticed
  }

  function HandleClose(c: Conn): Conn {
    var asserted := c.(assertsHeld := c.assertsHeld && Live(c), state := Disconnected);
    Observe(Observe(WithInterest(asserted, {}), Down), CloseCallback)
  }

  function HandleRead(c: Conn, res: ReadResult): Conn {
    match res
    case Received(data) =>
      if data == [] then HandleClose(c) else Observe(c.(input := c.input + data), Message)
    case ReadFailed(_) => c
  }

  function Destroy(c: Conn): Conn {
    var down := if c.state.Connected? then Observe(WithInterest(c.(state := Disconnected), {}), Down) else c;
    down.(reg := Removed(down.reg), destroyed := true)
  }

  /** Channel::handleEventWithGuard, one test at a time: user code may run between them. */
  function DoHup(c: Conn): Conn
    requires c.dispatch.AtHup?
  {
    var r := c.dispatch.revents;
    var next := c.(dispatch := AtErr(r));
    if EPOLLHUP in r && EPOLLIN !in r then HandleClose(next) else next
  }

  /** handleError only reads and logs the socket's error. */
  function DoErr(c: Conn): Conn
    requires c.dispatch.AtErr?
  {
    c.(dispatch := AtIn(c.dispatch.revents))
  }

  function DoIn(c: Conn, res: ReadResult): Conn
    requires c.dispatch.AtIn?
  {
    var r := c.dispatch.revents;
    var next := c.(dispatch := AtOut(r));
    if EPOLLIN in r then HandleRead(next, res) else next
  }

  function DoOut(cfg: Config, c: Conn, res: WriteResult): Conn
    requires c.dispatch.AtOut? && res.Fits(|c.output|)
  {
    var r := c.dispatch.revents;
    var next := c.(dispatch := Idle);
    if EPOLLOUT in r then HandleWrite(cfg, next, res) else next
  }

  datatype Action =
    | DoEstablish
    | Send(data: Bytes, res: WriteResult)        // sendInLoop, called or queued earlier
    | CallShutdown(inLoopThread: bool)
    | RunShutdown                                // a queued shutdownInLoop
    | PollReports(revents: Mask)
    | DispatchHup
    | DispatchErr
    | DispatchIn(read: ReadResult)
    | DispatchOut(res: WriteResult)
    | RunDestroy

  /** What the rest of the library and the kernel guarantee about when each step happens. */
  predicate Enabled(c: Conn, a: Action) {
    match a
    case DoEstablish => c.state.Connecting?
    case Send(data, res) =>
      // send() asserts the connection is up, so nothing is sent before that; a socket shut for
      // writing answers every write with EPIPE
      !c.state.Connecting? && res.Fits(|data|) && (c.writeShut ==> res == WriteFailed(EPIPE))
    case CallShutdown(_) => true
    case RunShutdown => c.shutdownsQueued > 0
    case PollReports(revents) =>
      // the kernel reports what was asked for at the time of the poll, and errors and hang-ups
      c.dispatch.Idle? && !c.destroyed && c.reg.kernel.Some? && revents <= c.reg.kernel.value + ALWAYS_REPORTED
    case DispatchHup => c.dispatch.AtHup?
    case DispatchErr => c.dispatch.AtErr?
    case DispatchIn(_) => c.dispatch.AtIn?
    case DispatchOut(res) => c.dispatch.AtOut? && res.Fits(|c.output|)
    case RunDestroy =>
      // queued by the close callback, run among the loop's tasks and not during its events
      CloseCallback in c.log && c.dispatch.Idle? && !c.destroyed
  }

  function Next(cfg: Config, c: Conn, a: Action): Conn
    requires Enabled(c, a)
  {
    match a
    case DoEstablish => Establish(cfg, c)
    case Send(data, res) => SendInLoop(cfg, c, data, res)
    case CallShutdown(inLoopThread) => Shutdown(cfg, c, inLoopThread)
    case RunShutdown => ShutdownInLoop(cfg, c.(shutdownsQueued := c.shutdownsQueued - 1))
    case PollReports(revents) => c.(dispatch := AtHup(revents))
    case DispatchHup => DoHup(c)
    case DispatchErr => DoErr(c)
    case DispatchIn(read) => DoIn(c, read)
    case DispatchOut(res) => DoOut(cfg, c, res)
    case RunDestroy => Destroy(c)
  }

  /** A run: every state with the action taken from it to the next. */
  datatype Run = Run(states: seq<Conn>, acts: seq<Action>)

  ghost predicate IsRunFrom(cfg: Config, start: Conn, r: Run) {
    && |r.states| == |r.acts| + 1
    && r.states[0] == start
    && forall i {:trigger r.acts[i]} :: 0 <= i < |r.acts| ==>
         Enabled(r.states[i], r.acts[i]) && r.states[i + 1] == Next(cfg, r.states[i], r.acts[i])
  }

  ghost predicate IsRun(cfg: Config, r: Run) {
    IsRunFrom(cfg, INITIAL, r)
  }
}
