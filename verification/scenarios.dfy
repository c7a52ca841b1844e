/**
 * Clients of the close path: what a caller can conclude from the
 * contracts alone for a connected stream socket, a datagram socket and a
 * descriptor that is not open.
 */
module CloseScenarios {
  import opened CloseEvents
  import opened NetClose

  /**
   * A connected stream socket whose connection still carries another
   * path's callback, and whose peer sends data twice and then closes: the
   * close callback replaces the other one, both packets are dropped and
   * answered with a close request, the third event releases the waiter,
   * and the connection is freed and the descriptor released.
   */
  method ConnectedStream() {
    var conn := new Connection();
    conn.dataEvent := OtherHandler;
    var sock := new Socket(Stream, 1, true, conn);
    var stack := new NetStack(map[3 := sock]);
    var dev := new Device(0);
    var packets := [Packet(FlagNewData, 40), Packet(FlagNewData, 12), Packet(FlagClose, 0)];
    var flags := FlagsOf(packets);
    assert flags == [FlagNewData, FlagNewData, FlagClose];
    assert HasTerminal(flags) by { assert IsTerminal(flags[2]); }
    assert WaitEnd(flags) == 3;
    assert Waited(packets) == packets;
    assert !HasTerminal(flags[..1]) && !HasTerminal(flags[..2]) && HasTerminal(flags[..3]);
    ReplyAt(flags, 0);
    ReplyAt(flags, 1);
    ReplyAt(flags, 2);
    assert Deliver(true, flags).replies == [FlagClose, FlagClose, FlagClose];
    var r := stack.NetClose(3, dev, packets);
    assert r == OK && stack.errno == 0 && conn.Cleared() && dev.dLen == 0;
    assert stack.trace == [Unlisten(conn), TxNotify(conn),
                           Delivered(FlagNewData, FlagClose, 0), Delivered(FlagNewData, FlagClose, 0),
                           Delivered(FlagClose, FlagClose, 0), TcpFree(conn), Release(3)];
  }

  /**
   * A connected stream socket whose wait is ended by a signal after one
   * data packet: the close still succeeds, errno is left at EINTR, the
   * slots are cleared and the connection is freed although the peer never
   * closed.
   */
  method InterruptedWait() {
    var conn := new Connection();
    var sock := new Socket(Stream, 1, true, conn);
    var stack := new NetStack(map[3 := sock]);
    var dev := new Device(0);
    var packets := [Packet(FlagNewData, 40)];
    var flags := FlagsOf(packets);
    assert flags == [FlagNewData];
    assert !HasTerminal(flags);
    assert Waited(packets) == packets;
    ReplyAt(flags, 0);
    assert !HasTerminal(flags[..1]);
    var r := stack.NetClose(3, dev, packets);
    assert r == OK && stack.errno == EINTR && conn.Cleared() && dev.dLen == 0;
    assert stack.trace == [Unlisten(conn), TxNotify(conn),
                           Delivered(FlagNewData, FlagClose, 0), TcpFree(conn), Release(3)];
  }

  /** A datagram socket is freed at once, whatever its connected flag says. */
  method ConnectedDatagram() {
    var conn := new Connection();
    var sock := new Socket(Dgram, 1, true, conn);
    var stack := new NetStack(map[5 := sock]);
    var dev := new Device(40);
    var r := stack.NetClose(5, dev, []);
    assert r == OK && conn.Cleared() && dev.dLen == 40;
    assert stack.trace == [UdpFree(conn), Release(5)];
  }

  /** Closing a descriptor that is not open fails with EBADF and does nothing else. */
  method UnknownDescriptor() {
    var stack := new NetStack(map[]);
    var dev := new Device(40);
    var r := stack.NetClose(7, dev, []);
    assert r == ERROR && stack.errno == EBADF && stack.trace == [];
  }

  /**
   * Once a terminal event has completed the close, the callback has
   * unregistered its waiter: a later event passes through untouched and
   * the semaphore is not posted a second time.
   */
  method LateEventAfterCompletion(terminal: bv8, late: bv8)
    requires IsTerminal(terminal)
  {
    var conn := new Connection();
    var sock := new Socket(Stream, 1, true, conn);
    var state := new CloseState(sock);
    var dev := new Device(40);
    conn.dataPrivate := state;
    conn.dataEvent := CloseHandler;
    var first := NetcloseInterrupt(dev, conn, terminal);
    assert first == terminal && state.sem == 1 && conn.Cleared();
    var second := NetcloseInterrupt(dev, conn, late);
    assert second == late && state.sem == 1 && dev.dLen == 40;
  }
}
