/**
 * Closing a socket in the uIP network layer.
 *
 * `NetcloseInterrupt` is the callback the engine runs for a connection
 * while a close is pending; `NetStack.NetcloseDisconnect` installs it,
 * waits until it reports that the peer has gone, and removes it again;
 * `NetStack.NetClose` is the `close()` entry point for socket descriptors.
 *
 * Calls into code outside this unit (unlisten, driver notification, the
 * connection allocators, the descriptor table's release) are recorded as
 * actions in `NetStack.trace`, together with each event the engine delivers
 * to the callback and the flags the callback hands back.
 */
module NetClose {
  import opened CloseEvents

  /** The return values and the error numbers of `net_close` and `sem_wait`. */
  const OK: int := 0
  const ERROR: int := -1
  const EINTR: int := 4
  const EBADF: int := 9

  /** The socket's protocol type; `Other` is any type this unit does not handle. */
  datatype SockType = Stream | Dgram | Other(code: int)

  /** The connection's `data_event` slot: empty, the close callback, or another path's callback. */
  datatype Handler = NoHandler | CloseHandler | OtherHandler

  /**
   * One event of the engine for the connection: its flag byte and the
   * length of the packet the engine has put into the device's buffer.
   */
  datatype Packet = Packet(flags: bv8, len: nat)

  /**
   * An external call made by the close path, or one packet delivered to
   * the callback with the flags it handed back and the `d_len` it left.
   */
  datatype Action =
    | Unlisten(conn: Connection)
    | TxNotify(conn: Connection)
    | Delivered(flags: bv8, reply: bv8, dLen: nat)
    | TcpFree(conn: Connection)
    | UdpFree(conn: Connection)
    | Release(sockfd: int)

  /** The network device the engine is driving; `dLen` is the length of the packet in its buffer. */
  class Device {
    var dLen: nat

    constructor (len: nat)
      ensures dLen == len
    {
      dLen := len;
    }
  }

  /** The uIP connection structure, reduced to the three slots the close path uses. */
  class Connection {
    var dataFlags: bv8
    var dataPrivate: CloseState?
    var dataEvent: Handler

    constructor ()
      ensures dataFlags == 0 && dataPrivate == null && dataEvent == NoHandler
    {
      dataFlags, dataPrivate, dataEvent := 0, null, NoHandler;
    }

    /** No close waiter and no callback is registered. */
    predicate Cleared()
      reads this
    {
      dataFlags == 0 && dataPrivate == null && dataEvent == NoHandler
    }
  }

  /** The closing task's state: its socket and the semaphore it waits on (`sem` is its count). */
  class CloseState {
    const psock: Socket
    var sem: nat

    constructor (psock: Socket)
      ensures this.psock == psock && sem == 0
    {
      this.psock := psock;
      sem := 0;
    }
  }

  /** A socket structure as the descriptor table hands it out. */
  class Socket {
    var sType: SockType
    var sCrefs: int
    var connected: bool
    var sConn: Connection

    constructor (sType: SockType, sCrefs: int, connected: bool, sConn: Connection)
      ensures this.sType == sType && this.sCrefs == sCrefs
      ensures this.connected == connected && this.sConn == sConn
    {
      this.sType, this.sCrefs, this.connected, this.sConn := sType, sCrefs, connected, sConn;
    }
  }

  /** The flag bytes of a sequence of packets. */
  function FlagsOf(packets: seq<Packet>): seq<bv8> {
    seq(|packets|, i requires 0 <= i < |packets| => packets[i].flags)
  }

  /** The flags of a prefix of the packets are that prefix of their flags. */
  lemma FlagsOfPrefix(packets: seq<Packet>, n: nat)
    requires n <= |packets|
    ensures FlagsOf(packets[..n]) == FlagsOf(packets)[..n]
  {
  }

  /** Taking the flags commutes with concatenating packet sequences. */
  lemma FlagsOfConcat(a: seq<Packet>, b: seq<Packet>)
    ensures FlagsOf(a + b) == FlagsOf(a) + FlagsOf(b)
  {
  }

  /**
   * What `d_len` holds after the close callback, with a waiter installed,
   * handled `p`: the packet is dropped unless the event is terminal.
   */
  function LenLeft(p: Packet): nat {
    if IsTerminal(p.flags) then p.len else 0
  }

  /** The engine's deliveries to a waiting close as trace actions, with the reply to each. */
  function Deliveries(packets: seq<Packet>, replies: seq<bv8>): seq<Action>
    requires |packets| == |replies|
  {
    seq(|packets|, i requires 0 <= i < |packets| =>
          Delivered(packets[i].flags, replies[i], LenLeft(packets[i])))
  }

  /** Tracing one more delivery appends its action. */
  lemma DeliveriesSnoc(packets: seq<Packet>, replies: seq<bv8>, p: Packet, reply: bv8)
    requires |packets| == |replies|
    ensures Deliveries(packets + [p], replies + [reply])
         == Deliveries(packets, replies) + [Delivered(p.flags, reply, LenLeft(p))]
  {
  }

  /** The packets a waiting close sees before its wait returns. */
  function Waited(packets: seq<Packet>): seq<Packet> {
    packets[..WaitEnd(FlagsOf(packets))]
  }

  /**
   * The trace of a disconnect: nothing for an unconnected socket; otherwise
   * the driver notification and every packet delivered during the wait.
   */
  function DisconnectActions(conn: Connection, connected: bool, packets: seq<Packet>): seq<Action>
  {
    if connected then
      var seen := Waited(packets);
      [TxNotify(conn)] + Deliveries(seen, Deliver(true, FlagsOf(seen)).replies)
    else []
  }

  /** The install of a close waiter: interest in new data, close and abort, and the close callback. */
  predicate Installed(conn: Connection, state: CloseState)
    reads conn
  {
    conn.dataFlags == FlagNewData | FlagClose | FlagAbort
    && conn.dataPrivate == state && conn.dataEvent == CloseHandler
  }

  /** Clears the three slots through which a close waiter is registered. */
  method ClearWaiter(conn: Connection)
    modifies conn
    ensures conn.Cleared()
  {
    conn.dataFlags := 0;
    conn.dataPrivate := null;
    conn.dataEvent := NoHandler;
  }

  /**
   * The callback the engine runs for the connection. Without a waiter it
   * passes `flags` through. On a terminal event it unregisters itself and
   * posts the waiter's semaphore; on any other event it drops the packet
   * and answers with a close request instead of new data.
   */
  method NetcloseInterrupt(dev: Device, conn: Connection, flags: bv8) returns (r: bv8)
    modifies dev, conn, conn.dataPrivate
    ensures r == CallbackReply(old(conn.dataPrivate) != null, flags)
    ensures old(conn.dataPrivate) == null ==> r == flags && unchanged(dev, conn)
    ensures old(conn.dataPrivate) != null && IsTerminal(flags) ==>
              r == flags && conn.Cleared() && unchanged(dev)
              && old(conn.dataPrivate).sem == old(conn.dataPrivate.sem) + 1
    ensures old(conn.dataPrivate) != null && !IsTerminal(flags) ==>
              r == SteerToClose(flags) && dev.dLen == 0
              && unchanged(conn) && unchanged(old(conn.dataPrivate))
  {
    var pstate := conn.dataPrivate;
    r := flags;
    if pstate != null {
      if IsTerminal(flags) {
        ClearWaiter(conn);
        pstate.sem := pstate.sem + 1;
      } else {
        dev.dLen := 0;
        r := SteerToClose(flags);
      }
    }
  }

  /** The socket layer: the descriptor table, the task's errno and the trace of external calls. */
  class NetStack {
    var sockets: map<int, Socket>
    var errno: int
    var trace: seq<Action>

    constructor (sockets: map<int, Socket>)
      ensures this.sockets == sockets && errno == 0 && trace == []
    {
      this.sockets := sockets;
      errno := 0;
      trace := [];
    }

    /** The descriptor table's lookup: the socket behind `sockfd`, or null. */
    function Lookup(sockfd: int): Socket?
      reads this
    {
      if sockfd in sockets then sockets[sockfd] else null
    }

    /**
     * One step of the engine while a close waits: it loads packet `p` into
     * the device, runs the close callback on it and traces the delivery.
     */
    method DeliverPacket(state: CloseState, conn: Connection, dev: Device, p: Packet)
      requires Installed(conn, state) && state.sem == 0
      modifies this`trace, conn, dev, state
      ensures trace == old(trace) + [Delivered(p.flags, CallbackReply(true, p.flags), LenLeft(p))]
      ensures dev.dLen == LenLeft(p)
      ensures IsTerminal(p.flags) ==> state.sem == 1 && conn.Cleared()
      ensures !IsTerminal(p.flags) ==> state.sem == 0 && Installed(conn, state)
    {
      dev.dLen := p.len;
      var reply := NetcloseInterrupt(dev, conn, p.flags);
      trace := trace + [Delivered(p.flags, reply, dev.dLen)];
    }

    /**
     * The engine at work while the closing task sleeps: it loads each
     * packet into the device and runs the close callback on it, until the
     * callback posts the semaphore or `packets` is used up. Returns how
     * many packets were delivered.
     *
     * The model never reads `dataFlags` (the engine here delivers every
     * packet); requiring the interest set only checks the caller's install.
     */
    method EngineDeliver(state: CloseState, conn: Connection, dev: Device, packets: seq<Packet>)
      returns (i: nat)
      requires Installed(conn, state) && state.sem == 0
      modifies this`trace, conn, dev, state
      ensures i == WaitEnd(FlagsOf(packets))
      ensures trace == old(trace) + Deliveries(packets[..i], Deliver(true, FlagsOf(packets)[..i]).replies)
      ensures dev.dLen == if i == 0 then old(dev.dLen) else LenLeft(packets[i - 1])
      ensures state.sem == Deliver(true, FlagsOf(packets)[..i]).posts
      ensures state.sem == 0 ==> Installed(conn, state)
      ensures state.sem != 0 ==> conn.Cleared()
    {
      ghost var flags := FlagsOf(packets);
      ghost var n := WaitEnd(flags);
      i := 0;
      while state.sem == 0 && i < |packets|
        invariant 0 <= i <= n
        invariant Deliver(true, flags[..i]).waiting == (state.sem == 0)
        invariant Deliver(true, flags[..i]).posts == state.sem
        invariant state.sem == 0 ==> (i < n || !HasTerminal(flags)) && Installed(conn, state)
        invariant state.sem != 0 ==> i == n && conn.Cleared()
        invariant trace == old(trace) + Deliveries(packets[..i], Deliver(true, flags[..i]).replies)
        invariant dev.dLen == if i == 0 then old(dev.dLen) else LenLeft(packets[i - 1])
        decreases |packets| - i
      {
        ghost var before := Deliver(true, flags[..i]);
        assert flags[i] == packets[i].flags;
        WaitStep(flags, i);
        DeliveriesSnoc(packets[..i], before.replies, packets[i], CallbackReply(true, flags[i]));
        assert packets[..i + 1] == packets[..i] + [packets[i]];
        assert IsTerminal(flags[i]) ==> i == n - 1;
        DeliverPacket(state, conn, dev, packets[i]);
        i := i + 1;
      }
    }

    /**
     * The closing task's `sem_wait` on its semaphore while the engine
     * delivers `packets`. A post ends the wait and is taken. Packets used
     * up without a post stand for a wait ended by a signal: `sem_wait`
     * fails with EINTR. `posts` counts the posts the semaphore received.
     */
    method SemWait(state: CloseState, conn: Connection, dev: Device, packets: seq<Packet>)
      returns (r: int, ghost posts: nat)
      requires Installed(conn, state) && state.sem == 0
      modifies this`trace, this`errno, conn, dev, state
      ensures (var seen := Waited(packets);
               trace == old(trace) + Deliveries(seen, Deliver(true, FlagsOf(seen)).replies))
      ensures var seen := Waited(packets);
              dev.dLen == if seen == [] then old(dev.dLen) else LenLeft(seen[|seen| - 1])
      ensures state.sem == 0
      ensures HasTerminal(FlagsOf(packets)) ==>
                r == OK && errno == old(errno) && posts == 1 && conn.Cleared()
      ensures !HasTerminal(FlagsOf(packets)) ==>
                r == ERROR && errno == EINTR && posts == 0 && Installed(conn, state)
    {
      var n := EngineDeliver(state, conn, dev, packets);
      WaitOutcome(FlagsOf(packets));
      FlagsOfPrefix(packets, n);
      posts := state.sem;
      if state.sem > 0 {
        state.sem := state.sem - 1;
        r := OK;
      } else {
        errno := EINTR;
        r := ERROR;
      }
    }

    /**
     * Breaks the socket's TCP connection. A connected socket gets a close
     * waiter and the close callback, the driver is told there is work,
     * the task waits on its semaphore (ignoring how the wait ended), and
     * the slots are cleared once more. An unconnected socket is left alone.
     */
    method NetcloseDisconnect(psock: Socket, dev: Device, packets: seq<Packet>) returns (ghost posts: nat)
      modifies this`trace, this`errno, psock.sConn, dev
      ensures trace == old(trace) + DisconnectActions(psock.sConn, psock.connected, packets)
      ensures !psock.connected ==> posts == 0 && errno == old(errno) && unchanged(psock.sConn, dev)
      ensures psock.connected ==>
                psock.sConn.Cleared()
                && posts == (if HasTerminal(FlagsOf(packets)) then 1 else 0)
                && errno == (if HasTerminal(FlagsOf(packets)) then old(errno) else EINTR)
                && var seen := Waited(packets);
                   dev.dLen == if seen == [] then old(dev.dLen) else LenLeft(seen[|seen| - 1])
    {
      posts := 0;
      if psock.connected {
        var state := new CloseState(psock);
        var conn := psock.sConn;
        conn.dataFlags := FlagNewData | FlagClose | FlagAbort;
        conn.dataPrivate := state;
        conn.dataEvent := CloseHandler;
        trace := trace + [TxNotify(conn)];
        var _, p := SemWait(state, conn, dev, packets);
        posts := p;
        assert trace == old(trace) + DisconnectActions(conn, true, packets);
        ClearWaiter(conn);
      }
    }

    /**
     * The `close()` of a socket descriptor. A bad descriptor or an
     * unsupported socket type sets errno to EBADF and fails with nothing
     * else done; a stream socket is unlistened, disconnected and freed; a
     * datagram socket is freed; on success the descriptor is released.
     * `packets` is what the engine delivers while a disconnect waits.
     */
    method NetClose(sockfd: int, dev: Device, packets: seq<Packet>) returns (r: int)
      modifies this`trace, this`errno, dev, if sockfd in sockets then {sockets[sockfd].sConn} else {}
      ensures sockets == old(sockets)
      ensures var psock := Lookup(sockfd);
              psock == null || psock.sCrefs <= 0 || psock.sType.Other? ==>
                r == ERROR && errno == EBADF && trace == old(trace) && unchanged(dev)
                && (psock != null ==> unchanged(psock.sConn))
      ensures var psock := Lookup(sockfd);
              psock != null && psock.sCrefs > 0 && psock.sType == Stream ==>
                r == OK
                && trace == old(trace) + [Unlisten(psock.sConn)]
                            + DisconnectActions(psock.sConn, psock.connected, packets)
                            + [TcpFree(psock.sConn), Release(sockfd)]
                && (psock.connected ==>
                      psock.sConn.Cleared()
                      && errno == (if HasTerminal(FlagsOf(packets)) then old(errno) else EINTR)
                      && var seen := Waited(packets);
                         dev.dLen == if seen == [] then old(dev.dLen) else LenLeft(seen[|seen| - 1]))
                && (!psock.connected ==> errno == old(errno) && unchanged(psock.sConn, dev))
      ensures var psock := Lookup(sockfd);
              psock != null && psock.sCrefs > 0 && psock.sType == Dgram ==>
                r == OK && errno == old(errno)
                && trace == old(trace) + [UdpFree(psock.sConn), Release(sockfd)]
                && unchanged(psock.sConn, dev)
    {
      var psock := Lookup(sockfd);
      if psock == null || psock.sCrefs <= 0 {
        errno := EBADF;
        return ERROR;
      }
      match psock.sType {
        case Stream =>
          var conn := psock.sConn;
          trace := trace + [Unlisten(conn)];
          ghost var posts := NetcloseDisconnect(psock, dev, packets);
          trace := trace + [TcpFree(conn)];
        case Dgram =>
          trace := trace + [UdpFree(psock.sConn)];
        case Other(_) =>
          errno := EBADF;
          return ERROR;
      }
      trace := trace + [Release(sockfd)];
      return OK;
    }
  }
}
