/** muduo/TcpConnection.cpp as an object over its buffers and its channel.  Every method is proved to
    take the connection's abstract state where the state machine of module Connection says. */
module TcpConnection {
  import opened Common
  import opened EventMask
  import opened Registration
  import opened Connection
  import opened ByteBuffer
  import opened Poller

  class TcpConnection {
    const cfg: Config
    const channel: Channel
    const inputBuffer: Buffer
    const outputBuffer: Buffer
    var state: ConnState
    /** What this connection has put into its loop's queue. */
    var notices: seq<Notice>
    var shutdownsQueued: nat
    ghost var accepted: seq<Bytes>
    ghost var wire: Bytes
    ghost var log: seq<Observation>
    ghost var writeShut: bool
    ghost var dispatch: Dispatch
    ghost var destroyed: bool
    ghost var assertsHeld: bool

    ghost predicate Valid()
      reads this, channel, channel.poller, channel.poller.known, inputBuffer, outputBuffer
    {
      && channel.Ready() && channel.masks == cfg.masks
      && inputBuffer.Valid() && outputBuffer.Valid()
      && inputBuffer != outputBuffer && inputBuffer.buffer != outputBuffer.buffer
    }

    ghost function Abs(): Conn
      reads this, channel, channel.poller, inputBuffer, outputBuffer, inputBuffer.buffer, outputBuffer.buffer
      requires inputBuffer.Valid() && outputBuffer.Valid()
    {
      Conn(state, channel.poller.RegOf(channel), inputBuffer.Contents(), outputBuffer.Contents(),
           accepted, wire, notices, log, shutdownsQueued, writeShut, dispatch, destroyed, assertsHeld)
    }

    /** The object is still sound and no other channel of its loop was touched. */
    twostate predicate Kept()
      reads this, channel, channel.poller, channel.poller.known, inputBuffer, outputBuffer
    {
      && Valid()
      && (inputBuffer.buffer == old(inputBuffer.buffer) || fresh(inputBuffer.buffer))
      && (outputBuffer.buffer == old(outputBuffer.buffer) || fresh(outputBuffer.buffer))
      && channel.poller.ChangedOnly(channel, channel.poller.RegOf(channel))
    }

    constructor (poller: EpollPoller, sockfd: int, cfg: Config)
      requires poller.Valid() && forall d :: d in poller.known ==> d.fd != sockfd
      modifies poller`known
      ensures Valid() && fresh(channel) && channel.poller == poller && this.cfg == cfg
      ensures fresh(inputBuffer) && fresh(outputBuffer) && fresh(inputBuffer.buffer) && fresh(outputBuffer.buffer)
      ensures Abs() == INITIAL
      ensures forall d :: d in old(poller.known) ==> poller.RegOf(d) == old(poller.RegOf(d))
    {
      this.cfg := cfg;
      channel := new Channel(poller, sockfd, cfg.masks);
      inputBuffer := new Buffer();
      outputBuffer := new Buffer();
      state, notices, shutdownsQueued := Connecting, [], 0;
      accepted, wire, log := [], [], [];
      writeShut, dispatch, destroyed, assertsHeld := false, Idle, false, true;
      new;
      poller.Adopt(channel);
    }

    // The channel's interest, seen as a change of the connection's state.

    method EnableReading()
      requires Valid()
      modifies channel`events, channel`index, channel.poller`channels, channel.poller`kernel
      ensures Kept() && Abs() == WithInterest(old(Abs()), old(channel.events) + cfg.masks.read)
    {
      hide WithEvents, Agrees, EpollPoller.Structure;
      channel.EnableReading();
    }

    method EnableWriting()
      requires Valid()
      modifies channel`events, channel`index, channel.poller`channels, channel.poller`kernel
      ensures Kept() && Abs() == WithInterest(old(Abs()), old(channel.events) + cfg.masks.write)
    {
      hide WithEvents, Agrees, EpollPoller.Structure;
      channel.EnableWriting();
    }

    method DisableWriting()
      requires Valid()
      modifies channel`events, channel`index, channel.poller`channels, channel.poller`kernel
      ensures Kept() && Abs() == WithInterest(old(Abs()), old(channel.events) - cfg.masks.write)
    {
      hide WithEvents, Agrees, EpollPoller.Structure;
      channel.DisableWriting();
    }

    method DisableAll()
      requires Valid()
      modifies channel`events, channel`index, channel.poller`channels, channel.poller`kernel
      ensures Kept() && Abs() == WithInterest(old(Abs()), {})
    {
      hide WithEvents, Agrees, EpollPoller.Structure;
      channel.DisableAll();
    }

    method ConnectEstablished()
      requires Valid()
      modifies this`state, this`log, channel`events, channel`index, channel.poller`channels, channel.poller`kernel
      ensures Kept() && Abs() == Establish(cfg, old(Abs()))
    {
      hide WithEvents, Removed, Flatten, EpollPoller.Valid, EpollPoller.RegOf;
      state := Connected;
      EnableReading();
      log := log + [Up];
    }

    method ConnectDestroyed()
      requires Valid()
      modifies this`state, this`log, this`destroyed
      modifies channel`events, channel`index, channel.poller`channels, channel.poller`kernel
      ensures Kept() && Abs() == Destroy(old(Abs()))
    {
      hide WithEvents, Removed, Flatten, EpollPoller.Valid, EpollPoller.RegOf;
      if state == Connected {
        state := Disconnected;
        DisableAll();
        log := log + [Down];
      }
      channel.Remove();
      destroyed := true;
    }

    /** The socket's own write end is closed; the record keeps what was owed and sent by then. */
    method ShutdownInLoop()
      requires Valid()
      modifies this`log, this`writeShut
      ensures Kept() && Abs() == Connection.ShutdownInLoop(cfg, old(Abs()))
    {
      if !channel.IsWriting() {
        log := log + [ShutdownWrite(state, Flatten(accepted), wire)];
        writeShut := true;
      }
    }

    /** The second access of shutdown, and what follows it. */
    method SetDisconnecting(inLoopThread: bool)
      requires Valid()
      modifies this`state, this`shutdownsQueued, this`log, this`writeShut
      ensures Kept() && Abs() == Connection.SetDisconnecting(cfg, old(Abs()), inLoopThread)
    {
      hide Flatten, EpollPoller.Valid, EpollPoller.RegOf, Connection.ShutdownInLoop;
      state := Disconnecting;
      if inLoopThread {
        ShutdownInLoop();
      } else {
        shutdownsQueued := shutdownsQueued + 1;
      }
    }

    method Shutdown(inLoopThread: bool)
      requires Valid()
      modifies this`state, this`shutdownsQueued, this`log, this`writeShut
      ensures Kept() && Abs() == Connection.Shutdown(cfg, old(Abs()), inLoopThread)
    {
      if state == Connected {
        SetDisconnecting(inLoopThread);
      }
    }

    /** The tail of sendInLoop: what the socket did not take is buffered until it can be written. */
    method BufferRest(rest: Bytes)
      requires Valid()
      modifies this`notices, outputBuffer, outputBuffer.buffer
      modifies channel`events, channel`index, channel.poller`channels, channel.poller`kernel
      ensures Kept() && Abs() == Buffered(cfg, old(Abs()), rest)
    {
      hide WithEvents, Flatten, EpollPoller.Valid, EpollPoller.RegOf;
      NoticeHighWater(|rest|);
      outputBuffer.Append(rest);
      if !channel.IsWriting() {
        EnableWriting();
      }
    }

    method NoticeHighWater(remaining: nat)
      requires Valid()
      modifies this`notices
      ensures Valid()
      ensures var newLen := |old(Abs()).output| + remaining;
              Abs() == if |old(Abs()).output| < cfg.mark <= newLen && cfg.onHighWater then
                         Notify(old(Abs()), HighWater(newLen))
                       else old(Abs())
    {
      var oldLen := outputBuffer.ReadableBytes();
      if oldLen + remaining >= cfg.mark && oldLen < cfg.mark && cfg.onHighWater {
        notices := notices + [HighWater(oldLen + remaining)];
      }
    }

    /** The head of sendInLoop on a connection that is not down: the direct write, when nothing is
        waiting, and whether the peer turned out to be gone. */
    method WriteDirectly(data: Bytes, res: WriteResult) returns (nwrote: nat, faultError: bool)
      requires Valid() && res.Fits(|data|) && state != Disconnected
      modifies this`accepted, this`wire, this`notices
      ensures Kept() && nwrote == Taken(cfg, old(Abs()), data, res)
      ensures faultError == Refuses(cfg, old(Abs()), res)
      ensures Abs() == if faultError then old(Abs()) else Accepting(cfg, old(Abs()), data, res)
    {
      hide EpollPoller.Valid, EpollPoller.RegOf;
      nwrote, faultError := 0, false;
      if !channel.IsWriting() && outputBuffer.ReadableBytes() == 0 {
        match res
        case Wrote(n) =>
          nwrote := n;
          if |data| - nwrote == 0 && cfg.onWriteComplete {
            notices := notices + [WriteComplete];
          }
        case WriteFailed(errno) =>
          if errno != EWOULDBLOCK && (errno == EPIPE || errno == ECONNRESET) {
            faultError := true;
          }
      }
      if !faultError {
        wire := wire + data[..nwrote];
        accepted := accepted + [data];
      }
    }

    method SendInLoop(data: Bytes, res: WriteResult)
      requires Valid() && res.Fits(|data|)
      modifies this`accepted, this`wire, this`notices, outputBuffer, outputBuffer.buffer
      modifies channel`events, channel`index, channel.poller`channels, channel.poller`kernel
      ensures Kept() && Abs() == Connection.SendInLoop(cfg, old(Abs()), data, res)
    {
      hide EpollPoller.Valid, EpollPoller.RegOf, Buffered, Accepting, Taken;
      if state == Disconnected {
        return;
      }
      var nwrote, faultError := WriteDirectly(data, res);
      var remaining := |data| - nwrote;
      if !faultError && remaining > 0 {
        BufferRest(data[nwrote..]);
      }
    }

    /** The tail of handleWrite, once the output buffer is empty. */
    method OutputDrained()
      requires Valid()
      modifies this`notices, this`log, this`writeShut
      modifies channel`events, channel`index, channel.poller`channels, channel.poller`kernel
      ensures Kept() && Abs() == Drained(cfg, old(Abs()))
    {
      hide WithEvents, Flatten, EpollPoller.Valid, EpollPoller.RegOf, Connection.ShutdownInLoop;
      DisableWriting();
      if cfg.onWriteComplete {
        notices := notices + [WriteComplete];
      }
      if state == Disconnecting {
        ShutdownInLoop();
      }
    }

    method HandleWrite(res: WriteResult)
      requires Valid() && res.Fits(outputBuffer.ReadableBytes())
      modifies this`wire, this`notices, this`log, this`writeShut, outputBuffer`readerIndex, outputBuffer`writerIndex
      modifies channel`events, channel`index, channel.poller`channels, channel.poller`kernel
      ensures Kept() && Abs() == Connection.HandleWrite(cfg, old(Abs()), res)
    {
      hide Drained, Flatten, EpollPoller.Valid, EpollPoller.RegOf;
      if channel.IsWriting() {
        var n, saveErrno, sent := outputBuffer.WriteFd(res);
        if n > 0 {
          wire := wire + sent;
          outputBuffer.Retrieve(n);
          if outputBuffer.ReadableBytes() == 0 {
            OutputDrained();
          }
        }
      }
    }

    method HandleClose()
      requires Valid()
      modifies this`state, this`log, this`assertsHeld
      modifies channel`events, channel`index, channel.poller`channels, channel.poller`kernel
      ensures Kept() && Abs() == Connection.HandleClose(old(Abs()))
    {
      hide WithEvents, Removed, Flatten, EpollPoller.Valid, EpollPoller.RegOf;
      assertsHeld := assertsHeld && (state == Connected || state == Disconnecting);
      state := Disconnected;
      DisableAll();
      RunCloseCallbacks();
    }

    /** The connection callback for a connection gone down, and then the close callback. */
    method RunCloseCallbacks()
      requires Valid()
      modifies this`log
      ensures Valid() && Abs() == Observe(Observe(old(Abs()), Down), CloseCallback)
    {
      log := log + [Down] + [CloseCallback];
    }

    method HandleRead(res: ReadResult)
      requires Valid() && (res.Received? ==> |res.data| <= ReadCapacity(inputBuffer.WritableBytes()))
      modifies this`state, this`log, this`assertsHeld, inputBuffer, inputBuffer.buffer
      modifies channel`events, channel`index, channel.poller`channels, channel.poller`kernel
      ensures Kept() && Abs() == Connection.HandleRead(old(Abs()), res)
    {
      hide WithEvents, Removed, Flatten, EpollPoller.Valid, EpollPoller.RegOf;
      var n, saveErrno := inputBuffer.ReadFd(res);
      if n > 0 {
        log := log + [Message];
      } else if n == 0 {
        HandleClose();
      }
    }

    // Channel::handleEventWithGuard in three parts: the user code of the read callback may call the
    // connection before the write event is dispatched.

    /** Hang-up without EPOLLIN closes; an error is only read and logged. */
    method HandleEventsHup(revents: Mask)
      requires Valid() && dispatch == AtHup(revents)
      modifies this`state, this`log, this`assertsHeld, this`dispatch
      modifies channel`events, channel`index, channel.poller`channels, channel.poller`kernel
      ensures Kept() && Abs() == DoErr(DoHup(old(Abs())))
    {
      hide Connection.HandleClose, EpollPoller.Valid, EpollPoller.RegOf;
      dispatch := AtErr(revents);
      if EPOLLHUP in revents && EPOLLIN !in revents {
        HandleClose();
      }
      dispatch := AtIn(revents);
    }

    method HandleEventsRead(revents: Mask, read: ReadResult)
      requires Valid() && dispatch == AtIn(revents)
      requires read.Received? ==> |read.data| <= ReadCapacity(inputBuffer.WritableBytes())
      modifies this`state, this`log, this`assertsHeld, this`dispatch, inputBuffer, inputBuffer.buffer
      modifies channel`events, channel`index, channel.poller`channels, channel.poller`kernel
      ensures Kept() && Abs() == DoIn(old(Abs()), read)
    {
      hide Connection.HandleRead, EpollPoller.Valid, EpollPoller.RegOf;
      dispatch := AtOut(revents);
      if EPOLLIN in revents {
        HandleRead(read);
      }
    }

    method HandleEventsWrite(revents: Mask, res: WriteResult)
      requires Valid() && dispatch == AtOut(revents) && res.Fits(outputBuffer.ReadableBytes())
      modifies this`wire, this`notices, this`log, this`writeShut, this`dispatch
      modifies outputBuffer`readerIndex, outputBuffer`writerIndex
      modifies channel`events, channel`index, channel.poller`channels, channel.poller`kernel
      ensures Kept() && Abs() == DoOut(cfg, old(Abs()), res)
    {
      hide WithEvents, Removed, Flatten, EpollPoller.Valid, EpollPoller.RegOf;
      dispatch := Idle;
      if EPOLLOUT in revents {
        HandleWrite(res);
      }
    }
  }
}
