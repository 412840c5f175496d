/**
 * The React hook of client/src/hooks/useWebSocket.ts: one socket held in
 * `wsRef`, an outbound FIFO queue that fills while that socket is not
 * OPEN and is drained front to back when a socket opens, a fixed 3 s
 * reconnect timer, and the inbound dispatch.
 *
 * The React state `isConnected`/`isReconnecting`, the refs and the toasts
 * are fields; socket callbacks and timer callbacks are methods.  The
 * callbacks close over the `connect` created at the first render, so the
 * `isReconnecting` they read is the value captured then
 * (`capturedReconnecting`, always false), not the current state.
 */
module ChatSocketHook {
  import opened Wrappers
  import opened Protocol

  /** A toast: its title and its description (None when the frame had no `error` field). */
  datatype Toast = Toast(title: string, description: Option<string>)

  const ReconnectDelay: nat := 3000
  const ConnectionErrorToast: Toast := Toast("Connection Error", Some("Failed to connect to chat server. Retrying..."))

  /** `this.ws.close()` on the held socket: an open or connecting socket starts closing. */
  function CloseSocket(ws: Option<ReadyState>): Option<ReadyState> {
    if ws.Some? then Some(AfterClose(ws.value)) else None
  }

  /**
   * One turn of the drain loop when the socket in `wsRef` is not OPEN:
   * the front message is shifted off and `sendMessage` pushes it back.
   */
  function StaleDrainTurn(queue: seq<ClientFrame>): (r: seq<ClientFrame>)
    requires queue != []
    ensures |r| == |queue| && r != []
    ensures multiset(r) == multiset(queue)
  {
    assert queue == [queue[0]] + queue[1..];
    queue[1..] + [queue[0]]
  }

  /** `n` turns of that loop. */
  function StaleDrainTurns(queue: seq<ClientFrame>, n: nat): seq<ClientFrame>
    requires queue != []
  {
    if n == 0 then queue else StaleDrainTurn(StaleDrainTurns(queue, n - 1))
  }

  /**
   * When a socket opens while `wsRef` does not hold an OPEN socket, a
   * non-empty queue never empties: after any number of turns it holds
   * the same messages, so the `while` loop of `onopen` does not end.
   */
  lemma {:induction false} StaleDrainNeverEnds(queue: seq<ClientFrame>, n: nat)
    requires queue != []
    ensures StaleDrainTurns(queue, n) != []
    ensures multiset(StaleDrainTurns(queue, n)) == multiset(queue)
  {
    if n > 0 {
      StaleDrainNeverEnds(queue, n - 1);
    }
  }

  /** After as many turns as it has messages, the queue is back where it started. */
  lemma {:induction false} StaleDrainCycles(queue: seq<ClientFrame>, n: nat)
    requires queue != [] && n <= |queue|
    ensures StaleDrainTurns(queue, n) == queue[n..] + queue[..n]
  {
    if n > 0 {
      StaleDrainCycles(queue, n - 1);
      var q := queue[n - 1..] + queue[..n - 1];
      assert q[0] == queue[n - 1];
      assert q[1..] == queue[n..] + queue[..n - 1];
      assert queue[..n] == queue[..n - 1] + [queue[n - 1]];
    }
  }

  class ChatSocket {
    var isConnected: bool
    var isReconnecting: bool
    /** The `isReconnecting` the first render's `connect` captured. */
    const capturedReconnecting: bool
    /** `wsRef.current`, by its ready state; None is `null`. */
    var ws: Option<ReadyState>
    /** Reconnect timers set and not yet fired or cleared, by id. */
    var timers: set<nat>
    /** `reconnectTimeoutRef.current`: the id of the last timer set. */
    var timerRef: Option<nat>
    /** The next timer id. */
    var nextTimer: nat
    /** `messageQueueRef.current`. */
    var queue: seq<ClientFrame>
    /** Every frame written to a socket, in order. */
    var sent: seq<ClientFrame>
    var toasts: seq<Toast>
    /** Frames handed to `handleMessage`. */
    var dispatched: seq<ServerFrame>

    ghost predicate Valid()
      reads this
    {
      && (forall t :: t in timers ==> t < nextTimer)
      && (timerRef.Some? ==> timerRef.value < nextTimer)
    }

    /** The first render: nothing connected, nothing queued. */
    constructor ()
      ensures Valid()
      ensures !isConnected && !isReconnecting && !capturedReconnecting
      ensures ws.None? && timers == {} && timerRef.None?
      ensures queue == [] && sent == [] && toasts == [] && dispatched == []
    {
      isConnected, isReconnecting := false, false;
      capturedReconnecting := false;
      ws := None;
      timers, timerRef, nextTimer := {}, None, 0;
      queue, sent, toasts, dispatched := [], [], [], [];
    }

    /** `connect`: a no-op while the held socket is OPEN; otherwise a new socket replaces it. */
    method Connect()
      modifies this`ws
      ensures old(ws) == Some(SocketOpen) ==> ws == old(ws)
      ensures old(ws) != Some(SocketOpen) ==> ws == Some(SocketConnecting)
    {
      if ws == Some(SocketOpen) {
        return;
      }
      ws := Some(SocketConnecting);
    }

    /** `sendMessage`: queued at the back unless the held socket is OPEN, in which case it is written at once. */
    method SendMessage(m: ClientFrame)
      modifies this`queue, this`sent
      ensures ws != Some(SocketOpen) ==> queue == old(queue) + [m] && sent == old(sent)
      ensures ws == Some(SocketOpen) ==> queue == old(queue) && sent == old(sent) + [m]
    {
      if ws != Some(SocketOpen) {
        queue := queue + [m];
        return;
      }
      sent := sent + [m];
    }

    /**
     * A socket's `onopen`: connected, not reconnecting, and the queue
     * drained front to back, each message written once, in the order it
     * was queued.  The drain ends only if the held socket is OPEN once
     * this socket has opened (see `StaleDrainNeverEnds`), hence the
     * precondition.
     */
    method OnOpen(ofCurrent: bool)
      requires ofCurrent ==> ws == Some(SocketConnecting)
      requires !ofCurrent ==> ws == Some(SocketOpen) || queue == []
      modifies this`ws, this`isConnected, this`isReconnecting, this`queue, this`sent
      ensures isConnected && !isReconnecting
      ensures ws == if ofCurrent then Some(SocketOpen) else old(ws)
      ensures queue == [] && sent == old(sent) + old(queue)
    {
      if ofCurrent {
        ws := Some(SocketOpen);
      }
      isConnected := true;
      isReconnecting := false;
      ghost var q0 := queue;
      ghost var k := 0;
      while |queue| > 0
        invariant 0 <= k <= |q0|
        invariant queue == q0[k..] && sent == old(sent) + q0[..k]
        invariant isConnected && !isReconnecting
        invariant ws == if ofCurrent then Some(SocketOpen) else old(ws)
        invariant queue != [] ==> ws == Some(SocketOpen)
        decreases |queue|
      {
        var m := queue[0];
        queue := queue[1..];
        assert q0[..k + 1] == q0[..k] + [m];
        SendMessage(m);
        k := k + 1;
      }
      assert q0[..k] == q0;
    }

    /**
     * A socket's `onclose`, whichever socket it is: `wsRef` is cleared
     * and, since the captured `isReconnecting` is false, a new 3 s
     * reconnect timer is set every time, whatever timers are pending.
     */
    method OnClose()
      requires Valid()
      modifies this`isConnected, this`ws, this`isReconnecting, this`timers, this`timerRef, this`nextTimer
      ensures Valid()
      ensures !isConnected && ws.None?
      ensures !capturedReconnecting ==>
        isReconnecting && timerRef == Some(old(nextTimer)) && old(nextTimer) !in old(timers) &&
        timers == old(timers) + {old(nextTimer)}
      ensures capturedReconnecting ==>
        isReconnecting == old(isReconnecting) && timers == old(timers) && timerRef == old(timerRef)
    {
      isConnected := false;
      ws := None;
      if !capturedReconnecting {
        isReconnecting := true;
        var t := nextTimer;
        nextTimer := nextTimer + 1;
        timers := timers + {t};
        timerRef := Some(t);
      }
    }

    /** A socket's `onerror`: one "Connection Error" toast. */
    method OnError()
      modifies this`toasts
      ensures toasts == old(toasts) + [ConnectionErrorToast]
    {
      toasts := toasts + [ConnectionErrorToast];
    }

    /**
     * A socket's `onmessage`, given the parsed frame (None when the text
     * is not JSON, which is swallowed): `$connect` is only logged, `error`
     * raises a toast with the frame's `error` text, anything else goes to
     * `handleMessage`.
     */
    method OnMessage(frame: Option<ServerFrame>)
      modifies this`toasts, this`dispatched
      ensures frame.None? || frame.value.action == "$connect" ==>
        toasts == old(toasts) && dispatched == old(dispatched)
      ensures frame.Some? && frame.value.action == "error" ==>
        toasts == old(toasts) + [Toast("Error", frame.value.error)] && dispatched == old(dispatched)
      ensures frame.Some? && frame.value.action != "$connect" && frame.value.action != "error" ==>
        toasts == old(toasts) && dispatched == old(dispatched) + [frame.value]
    {
      if frame.None? {
        return;
      }
      var f := frame.value;
      if f.action == "$connect" {
      } else if f.action == "error" {
        toasts := toasts + [Toast("Error", f.error)];
      } else {
        dispatched := dispatched + [f];
      }
    }

    /** Reconnect timer `t` fires and calls `connect`. */
    method ReconnectTimerFires(t: nat)
      requires t in timers
      modifies this`timers, this`ws
      ensures timers == old(timers) - {t}
      ensures old(ws) == Some(SocketOpen) ==> ws == old(ws)
      ensures old(ws) != Some(SocketOpen) ==> ws == Some(SocketConnecting)
    {
      timers := timers - {t};
      Connect();
    }

    /**
     * The effect's cleanup on unmount: the held socket is closed (it
     * stays in `wsRef`) and the timer `reconnectTimeoutRef` names is
     * cleared.  Earlier timers are not.
     */
    method Unmount()
      modifies this`ws, this`timers
      ensures ws == CloseSocket(old(ws))
      ensures timers == if timerRef.Some? then old(timers) - {timerRef.value} else old(timers)
    {
      if ws.Some? {
        ws := CloseSocket(ws);
      }
      if timerRef.Some? {
        timers := timers - {timerRef.value};
      }
    }

    method SubscribeToChannel(ch: ChannelId)
      modifies this`queue, this`sent
      ensures ws != Some(SocketOpen) ==> queue == old(queue) + [SubscribeFrame(ch)] && sent == old(sent)
      ensures ws == Some(SocketOpen) ==> queue == old(queue) && sent == old(sent) + [SubscribeFrame(ch)]
    {
      SendMessage(SubscribeFrame(ch));
    }

    method UnsubscribeFromChannel(ch: ChannelId)
      modifies this`queue, this`sent
      ensures ws != Some(SocketOpen) ==> queue == old(queue) + [UnsubscribeFrame(ch)] && sent == old(sent)
      ensures ws == Some(SocketOpen) ==> queue == old(queue) && sent == old(sent) + [UnsubscribeFrame(ch)]
    {
      SendMessage(UnsubscribeFrame(ch));
    }

    method SendChatMessage(ch: ChannelId, content: string)
      modifies this`queue, this`sent
      ensures ws != Some(SocketOpen) ==> queue == old(queue) + [ChatFrame(ch, content)] && sent == old(sent)
      ensures ws == Some(SocketOpen) ==> queue == old(queue) && sent == old(sent) + [ChatFrame(ch, content)]
    {
      SendMessage(ChatFrame(ch, content));
    }

    method SendTypingIndicator(ch: ChannelId)
      modifies this`queue, this`sent
      ensures ws != Some(SocketOpen) ==> queue == old(queue) + [TypingFrame(ch)] && sent == old(sent)
      ensures ws == Some(SocketOpen) ==> queue == old(queue) && sent == old(sent) + [TypingFrame(ch)]
    {
      SendMessage(TypingFrame(ch));
    }
  }

  /**
   * Scenario: frames sent before the socket opens are written, in the
   * order they were sent, as soon as it opens; a frame sent after that
   * goes straight out.
   */
  method QueuedFramesFlushInOrder() returns (sent: seq<ClientFrame>, queued: nat)
    ensures sent == [SubscribeFrame(1), ChatFrame(1, "hi"), TypingFrame(1)] && queued == 0
  {
    var h := new ChatSocket();
    h.Connect();
    h.SubscribeToChannel(1);
    h.SendChatMessage(1, "hi");
    h.OnOpen(true);
    h.SendTypingIndicator(1);
    sent, queued := h.sent, |h.queue|;
  }

  /**
   * Scenario: unmounting closes the socket, and that socket's close event
   * sets a fresh reconnect timer after the cleanup already ran.
   */
  method UnmountStillReconnects() returns (pendingAfterCleanup: nat, pendingAfterClose: nat)
    ensures pendingAfterCleanup == 0 && pendingAfterClose == 1
  {
    var h := new ChatSocket();
    h.Connect();
    h.OnOpen(true);
    h.Unmount();
    pendingAfterCleanup := |h.timers|;
    h.OnClose();
    pendingAfterClose := |h.timers|;
  }
}
