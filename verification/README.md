# Socket close in the NuttX uIP network layer

This project models `net_close()` in `nuttx/net/net-close.c` together with its two helpers:

- `netclose_interrupt()` is the callback the uIP engine runs for a TCP connection while a close is pending.
- `netclose_disconnect()` registers that callback and sleeps until it reports that the connection is gone.

The callback is a two-state machine. Either no waiter is registered (`data_private == NULL`) or a close is pending. While a close is pending:

- A terminal event (`UIP_CLOSE` or `UIP_ABORT`) clears the connection's `data_flags`, `data_private` and `data_event` slots and posts the waiter's semaphore.
- Any other event drops the packet (`d_len = 0`). It also answers `(flags & ~UIP_NEWDATA) | UIP_CLOSE`, which steers the engine towards closing.

`net_close()` checks the descriptor and then dispatches on the socket type:

- A stream socket is unlistened, disconnected and freed.
- A datagram socket is freed.
- Any other type fails with `EBADF`.

Only the two success paths release the descriptor.

Two modules make up the model:

- `CloseEvents` (`close_events.dfy`) works on values. It holds the flag bits, the callback's answer to one event, and `Deliver`, the callback applied to a whole sequence of events. Lemmas about that sequence state when the waiter is released, that it is released only once, and what the engine gets back for each event.
- `NetClose` (`net_close.dfy`) is imperative.
  - `Connection`, `Device`, `Socket` and `CloseState` (the C `struct tcp_close_s`) are classes with the fields the C code updates. The semaphore is the count `CloseState.sem`.
  - `NetStack` holds the descriptor table, `errno` and a trace of the calls made into code outside this unit.
  - The methods are proved against the functions of `CloseEvents`.

`scenarios.dfy` holds clients that use only the contracts. They cover:

- a connected stream socket that receives data twice and then a close, where the close callback replaces another path's callback;
- a connected stream socket whose wait is ended by a signal;
- a datagram socket;
- an unknown descriptor;
- a late event after completion.

The sleep is modelled sequentially. While the task waits, the engine delivers a finite sequence of packets. Each packet is an event flag byte plus the length the engine loads into `d_len`. The engine runs the callback on each packet in turn. The wait ends when the callback posts. If the sequence is used up without a post, the wait is taken to have been ended by a signal: `sem_wait()` fails with EINTR. Line 174 discards that result, so the code still clears the slots (lines 178-181), and `net_close()` still frees the connection and releases the descriptor.

Two behaviours of the code are worth stating:

- The code keeps the `irqsave()` region open across `sem_wait()` and restores it only at line 184. The sequential model has no interrupt state.
- Closing an unconnected stream socket leaves the connection's three slots as they were (lines 156, 184).

## Model

| member | source | states |
|---|---|---|
| CloseEvents.SteerToClose | nuttx/net/net-close.c:111-119 | the flag byte returned for a non-terminal event has `UIP_NEWDATA` cleared and `UIP_CLOSE` set, keeps every other bit of the input, and is itself terminal |
| CloseEvents.Deliver | nuttx/net/net-close.c:88-123 | running the callback over a sequence of events yields exactly one reply per event |
| CloseEvents.WaitLength | nuttx/net/net-close.c:172-174 | the wait sees a non-empty prefix of the events: it ends with a terminal event and every earlier event is non-terminal |
| CloseEvents.IdlePassThrough | nuttx/net/net-close.c:91-95 | with no waiter registered, every event is returned unchanged, nothing is posted, and no waiter appears |
| CloseEvents.SingleCompletion | nuttx/net/net-close.c:101-110 | from a registered waiter, any sequence of events posts the semaphore exactly once if it holds a terminal event and never otherwise, and the waiter is gone exactly when a terminal event was seen |
| CloseEvents.ReplyAt | nuttx/net/net-close.c:95-122 | the engine gets back the steered flags for every event before the first terminal one, and the flags unchanged from the first terminal event on |
| CloseEvents.DeliverSnoc | nuttx/net/net-close.c:88-123 | delivering one more event extends a run by the callback's reply, post and new waiter state for that event alone |
| CloseEvents.WaitStep | nuttx/net/net-close.c:95-119 | for a waiter not yet posted, one more event posts once and removes the waiter if it is terminal, and otherwise is answered with the steered flags and keeps the waiter |
| CloseEvents.WaitEnd | nuttx/net/net-close.c:172-174 | the wait sees a prefix of the events with no terminal event before its last one. The prefix ends in a terminal event exactly when the events hold one; otherwise it is all of them |
| CloseEvents.WaitOutcome | nuttx/net/net-close.c:172-174 | the events a waiting task sees post the semaphore once if one of them is terminal and never otherwise, and leave the waiter registered exactly when none is terminal |
| NetClose.ClearWaiter | nuttx/net/net-close.c:179-181 | afterwards `data_flags` is 0, `data_private` is null and `data_event` is null |
| NetClose.CloseState.constructor | nuttx/net/net-close.c:160-161 | the waiter records its socket and its semaphore starts at 0 |
| NetClose.NetcloseInterrupt | nuttx/net/net-close.c:88-123 | with no waiter: returns `flags` and changes neither connection nor device. With a waiter and a terminal event: returns `flags`, clears the three slots, posts the semaphore once and leaves `d_len` alone. With a waiter and any other event: sets `d_len` to 0, returns the steered flags, and leaves the slots and the semaphore alone |
| NetClose.NetStack.DeliverPacket | nuttx/net/net-close.c:88-123 | with the close callback installed and nothing posted, one packet is traced with the callback's reply and the `d_len` it leaves: the packet's length for a terminal event, 0 otherwise. A terminal event posts once and clears the slots; any other event keeps them installed and posts nothing |
| NetClose.NetStack.EngineDeliver | nuttx/net/net-close.c:174 | starting with `data_flags` equal to `UIP_NEWDATA`, `UIP_CLOSE` and `UIP_ABORT`, `data_private` set to the waiter and `data_event` set to the close callback, the engine delivers exactly the packets the wait sees. Each is traced with the reply and the `d_len` left after it (0 for every non-terminal packet). The semaphore count is the posts of that run. The slots are clear after a post and still installed otherwise |
| NetClose.NetStack.SemWait | nuttx/net/net-close.c:174 | from the same installed state: if a terminal event came, returns OK, one post was made and taken, errno is unchanged and the slots are clear. Otherwise returns ERROR with errno EINTR, no post was made and the waiter is still installed. `d_len` is what the callback left for the last packet seen |
| NetClose.NetStack.NetcloseDisconnect | nuttx/net/net-close.c:144-185 | unconnected socket: no trace, and errno, connection and device unchanged. Connected socket: trace is the driver notification followed by the delivered packets. One post happens if a terminal event came, and errno becomes EINTR if none came. The three slots are clear afterwards in both cases |
| NetClose.NetStack.NetClose | nuttx/net/net-close.c:208-255 | unknown descriptor, `s_crefs <= 0` or another type: returns ERROR with errno EBADF, and trace, connection and device are unchanged. Stream: returns OK with trace unlisten, then the disconnect's actions, then tcpfree, then release. The slots are clear if the socket was connected and untouched otherwise. errno is EINTR if the wait was ended by a signal and unchanged otherwise. Datagram: returns OK with trace udpfree then release, connection, device and errno untouched |

## Left out

- The blocking `sem_wait()` together with `sem_init()` and `sem_destroy()`. The semaphore is a count. The engine's progress during the wait is the `packets` parameter, consumed in order until the callback posts or the packets run out. Which packets the engine produces, and their lengths, are inputs.
- `irqsave()` and `irqrestore()`. The model is sequential and has no interrupt state.
- `netdev_txnotify()` becomes the trace action `TxNotify`. The driver work it triggers is not modelled.
- `nvdbg()` debug output.
- `sockfd_socket()` is a lookup in the map `NetStack.sockets`. `sockfd_release()`, `uip_unlisten()`, `uip_tcpfree()` and `uip_udpfree()` are trace actions only. Their code is not part of this model, so the release does not change the reference count or the table.
- The numeric values of `UIP_NEWDATA` (0x02), `UIP_CLOSE` (0x10) and `UIP_ABORT` (0x20) come from uIP's `uip.h`, which is not part of this model. The proofs rely only on them being distinct single bits. The numeric values of `SOCK_STREAM` and `SOCK_DGRAM` are not modelled: the socket type is a datatype with a case for every other type.
- `_SS_ISCONNECTED(s_flags)` is the boolean field `Socket.connected`. The rest of `s_flags` is not modelled.
- The connection's other fields, and the separate UDP connection structure (`struct uip_udp_conn`) that `s_conn` points to for a datagram socket instead of a `struct uip_conn`. One `Connection` class stands for both, and only `data_flags`, `data_private` and `data_event` are modelled.
- The `CONFIG_NET_TCP` and `CONFIG_NET_UDP` build variants. Both are assumed enabled.
- `sem_wait()`'s own code is not part of this model. It is modelled by its POSIX contract, with one assumption stated below: it returns 0 after taking a post, or -1 with errno EINTR when a signal interrupts it. EINTR is 4.
- NetClose.NetStack.SemWait: a successful `sem_wait()` is assumed to leave errno alone. POSIX leaves errno unspecified after a successful call, and `net_close()` never resets it, so the unchanged errno on the posted path of `SemWait`, `NetcloseDisconnect` and `NetClose` rests on that assumption about code outside this unit.
- NetClose.NetStack.SemWait: a wait that is never posted and never interrupted blocks forever in the source, and that case is not represented. A packet sequence without a terminal event always stands for a wait that a signal ended after those packets.
- NetClose.NetStack.EngineDeliver: the engine delivers every packet whatever the connection's `data_flags` say. The interest set is installed and checked but never read.
