/**
 * The event side of the uIP close rendezvous, on values.
 *
 * The network engine hands the close callback one flag byte per event.
 * While a closing task waits, the callback either completes the wait
 * (terminal event: the peer closed or aborted) or swallows inbound data
 * and pushes the engine towards closing (any other event). This module
 * states what the callback answers for one event and what it answers,
 * and how often it signals the waiter, for a whole sequence of events.
 */
module CloseEvents {

  /** Event bits of the uIP engine, as carried in its `uint8` flag byte. */
  const FlagNewData: bv8 := 0x02
  const FlagClose: bv8 := 0x10
  const FlagAbort: bv8 := 0x20

  /** The peer closed or aborted the connection. */
  predicate IsTerminal(flags: bv8) {
    flags & (FlagClose | FlagAbort) != 0
  }

  /**
   * The flag byte the callback returns for a non-terminal event:
   * inbound data is no longer announced and a close is requested.
   */
  function SteerToClose(flags: bv8): (r: bv8)
    ensures r & FlagNewData == 0
    ensures r & FlagClose == FlagClose
    ensures r & !(FlagNewData | FlagClose) == flags & !(FlagNewData | FlagClose)
    ensures IsTerminal(r)
  {
    (flags & !FlagNewData) | FlagClose
  }

  /** The flag byte the callback returns; `waiting` says a waiter is installed. */
  function CallbackReply(waiting: bool, flags: bv8): bv8 {
    if waiting && !IsTerminal(flags) then SteerToClose(flags) else flags
  }

  /** Whether a waiter is still installed after the callback handled `flags`. */
  predicate StillWaiting(waiting: bool, flags: bv8) {
    waiting && !IsTerminal(flags)
  }

  /** Whether the callback posts the waiter's semaphore for `flags`. */
  predicate Posts(waiting: bool, flags: bv8) {
    waiting && IsTerminal(flags)
  }

  /** What the callback did over a run of events. */
  datatype Run = Run(waiting: bool, replies: seq<bv8>, posts: nat)

  /**
   * The callback invoked once per element of `events`, starting with a
   * waiter installed (`waiting`) or not.
   */
  function Deliver(waiting: bool, events: seq<bv8>): (r: Run)
    ensures |r.replies| == |events|
    decreases |events|
  {
    if events == [] then Run(waiting, [], 0)
    else
      var rest := Deliver(StillWaiting(waiting, events[0]), events[1..]);
      Run(rest.waiting,
          [CallbackReply(waiting, events[0])] + rest.replies,
          rest.posts + if Posts(waiting, events[0]) then 1 else 0)
  }

  predicate HasTerminal(events: seq<bv8>) {
    exists i :: 0 <= i < |events| && IsTerminal(events[i])
  }

  /**
   * The number of events a waiting task sees before it resumes: all up to
   * and including the first terminal one.
   */
  function WaitLength(events: seq<bv8>): (n: nat)
    requires HasTerminal(events)
    ensures 1 <= n <= |events|
    ensures IsTerminal(events[n - 1])
    ensures forall i :: 0 <= i < n - 1 ==> !IsTerminal(events[i])
    decreases |events|
  {
    if IsTerminal(events[0]) then 1
    else
      assert HasTerminal(events[1..]) by {
        var i :| 0 <= i < |events| && IsTerminal(events[i]);
        assert events[1..][i - 1] == events[i];
      }
      1 + WaitLength(events[1..])
  }

  /** With no waiter installed, every event passes through untouched and nothing is posted. */
  lemma {:induction false} IdlePassThrough(events: seq<bv8>)
    ensures Deliver(false, events) == Run(false, events, 0)
    decreases |events|
  {
    if events != [] {
      IdlePassThrough(events[1..]);
    }
  }

  /**
   * Single completion: from an installed waiter, the semaphore is posted
   * once if some event is terminal and never otherwise, and the waiter is
   * gone exactly when a terminal event has been seen.
   */
  lemma {:induction false} SingleCompletion(events: seq<bv8>)
    ensures Deliver(true, events).posts == if HasTerminal(events) then 1 else 0
    ensures Deliver(true, events).waiting == !HasTerminal(events)
    decreases |events|
  {
    if events != [] {
      var e := events[0];
      if IsTerminal(e) {
        IdlePassThrough(events[1..]);
      } else {
        SingleCompletion(events[1..]);
        assert HasTerminal(events) == HasTerminal(events[1..]) by {
          if HasTerminal(events) {
            var i :| 0 <= i < |events| && IsTerminal(events[i]);
            assert events[1..][i - 1] == events[i];
          }
          if HasTerminal(events[1..]) {
            var i :| 0 <= i < |events[1..]| && IsTerminal(events[1..][i]);
            assert events[i + 1] == events[1..][i];
          }
        }
      }
    }
  }

  /**
   * What the engine gets back for the event at `i`: the steered flags for
   * every event up to the first terminal one, the flags unchanged from the
   * first terminal event on.
   */
  lemma {:induction false} ReplyAt(events: seq<bv8>, i: nat)
    requires i < |events|
    ensures Deliver(true, events).replies[i]
         == if HasTerminal(events[..i + 1]) then events[i] else SteerToClose(events[i])
    decreases |events|
  {
    var e := events[0];
    if i == 0 {
      assert events[..1] == [e];
      if IsTerminal(e) {
        assert HasTerminal(events[..1]) by { assert events[..1][0] == e; }
      }
    } else if IsTerminal(e) {
      IdlePassThrough(events[1..]);
      assert events[..i + 1][0] == e;
    } else {
      ReplyAt(events[1..], i - 1);
      assert events[1..][..i] == events[..i + 1][1..];
      assert HasTerminal(events[..i + 1]) == HasTerminal(events[1..][..i]) by {
        var p := events[..i + 1];
        if HasTerminal(p) {
          var j :| 0 <= j < |p| && IsTerminal(p[j]);
          assert p[1..][j - 1] == p[j];
        }
        if HasTerminal(p[1..]) {
          var j :| 0 <= j < |p[1..]| && IsTerminal(p[1..][j]);
          assert p[j + 1] == p[1..][j];
        }
      }
    }
  }

  /** Delivering one more event extends a run by that event's reply and post. */
  lemma {:induction false} DeliverSnoc(waiting: bool, events: seq<bv8>, e: bv8)
    ensures (var run := Deliver(waiting, events);
             Deliver(waiting, events + [e])
             == Run(StillWaiting(run.waiting, e),
                    run.replies + [CallbackReply(run.waiting, e)],
                    run.posts + if Posts(run.waiting, e) then 1 else 0))
    decreases |events|
  {
    if events == [] {
      assert [] + [e] == [e];
    } else {
      assert (events + [e])[1..] == events[1..] + [e];
      DeliverSnoc(StillWaiting(waiting, events[0]), events[1..], e);
    }
  }

  /**
   * One more event for a waiter that has not been posted yet: a terminal
   * event posts once and removes the waiter, any other event is answered
   * with the steered flags and keeps it.
   */
  lemma WaitStep(events: seq<bv8>, i: nat)
    requires i < |events|
    requires Deliver(true, events[..i]).waiting && Deliver(true, events[..i]).posts == 0
    ensures (var run := Deliver(true, events[..i]);
             Deliver(true, events[..i + 1])
             == Run(!IsTerminal(events[i]),
                    run.replies + [CallbackReply(true, events[i])],
                    if IsTerminal(events[i]) then 1 else 0))
  {
    assert events[..i + 1] == events[..i] + [events[i]];
    DeliverSnoc(true, events[..i], events[i]);
  }

  /**
   * How many events a waiting task sees before its wait returns: up to and
   * including the first terminal one, or all of them when none is terminal
   * (the wait is then ended by a signal once they have been delivered).
   */
  function WaitEnd(events: seq<bv8>): (n: nat)
    ensures n <= |events|
    ensures forall i :: 0 <= i < n && IsTerminal(events[i]) ==> i == n - 1
    ensures HasTerminal(events) <==> 0 < n && IsTerminal(events[n - 1])
    ensures !HasTerminal(events) ==> n == |events|
  {
    if HasTerminal(events) then WaitLength(events) else |events|
  }

  /**
   * The events a waiting task sees post its semaphore once if the peer
   * closed or aborted and never otherwise; the waiter is left installed
   * exactly when no terminal event came.
   */
  lemma WaitOutcome(events: seq<bv8>)
    ensures (var n := WaitEnd(events);
             Deliver(true, events[..n]).posts == (if HasTerminal(events) then 1 else 0)
             && Deliver(true, events[..n]).waiting == !HasTerminal(events))
  {
    var n := WaitEnd(events);
    if HasTerminal(events) {
      assert events[..n][n - 1] == events[n - 1];
    } else {
      assert events[..n] == events;
    }
    SingleCompletion(events[..n]);
  }
}
