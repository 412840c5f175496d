/**
 * The browser-side connection manager of client/src/lib/websocketService.ts
 * (`WebSocketService`): a status machine (disconnected, connecting,
 * connected) around one socket, a reconnect timer with capped exponential
 * backoff, a ping/pong keepalive flag, and a set of message handlers.
 *
 * Timers and socket callbacks are events: `ReconnectTimerFires` and
 * `PingTick` stand for the timer callbacks, `OnOpen`, `OnClose`, `OnError`
 * and `OnMessage` for the socket's handlers.  Because every callback
 * closes over the service rather than over its socket, a callback of a
 * socket the service has already replaced or dropped still runs; the
 * parameter `ofCurrent` says whether the socket that fired is the one
 * `ws` holds.  Whether `new WebSocket` or `send` throws is a parameter too.
 */
module ClientService {
  import opened Wrappers
  import opened Sequences
  import opened Protocol

  datatype Status = Disconnected | Connecting | Connected

  /** A handler registered with `subscribe`, by identity. */
  type HandlerId = nat

  /** What `notifyHandlers` passes to every handler. */
  datatype Notice =
    | StatusNotice(status: Status, code: Option<int>, reason: Option<string>)
    | ErrorNotice(error: string)
    | Forwarded(frame: ServerFrame)

  /** One call of one handler. */
  datatype Notification = Notification(handler: HandlerId, notice: Notice)

  const InitialBackoff: int := 1000
  const MaxBackoff: int := 30000
  const ConnectionError: string := "WebSocket connection error"

  /** The delay a fired reconnect timer leaves for the next one: doubled, capped at 30 s. */
  function NextBackoff(t: int): (r: int)
    ensures r <= MaxBackoff
    ensures r == MaxBackoff || r == 2 * t
    ensures InitialBackoff <= t <= MaxBackoff ==> t <= r
  {
    if t * 2 < MaxBackoff then t * 2 else MaxBackoff
  }

  /** The reconnect delay after `n` reconnect timers have fired since the last open. */
  function BackoffAfter(n: nat): (r: int)
    ensures InitialBackoff <= r <= MaxBackoff
  {
    if n == 0 then InitialBackoff else NextBackoff(BackoffAfter(n - 1))
  }

  function Pow2(n: nat): nat {
    if n == 0 then 1 else 2 * Pow2(n - 1)
  }

  /** The backoff is 1000 ms doubled once per firing, until it reaches the 30000 ms cap. */
  lemma {:induction false} BackoffClosedForm(n: nat)
    ensures BackoffAfter(n) == if InitialBackoff * Pow2(n) < MaxBackoff then InitialBackoff * Pow2(n) else MaxBackoff
  {
    if n > 0 {
      BackoffClosedForm(n - 1);
      assert InitialBackoff * Pow2(n) == 2 * (InitialBackoff * Pow2(n - 1));
    }
  }

  /** Consecutive failures never shorten the delay. */
  lemma {:induction false} BackoffMonotone(m: nat, n: nat)
    requires m <= n
    ensures BackoffAfter(m) <= BackoffAfter(n)
  {
    if m < n {
      BackoffMonotone(m, n - 1);
    }
  }

  /** From the fifth firing on, the delay is the cap. */
  lemma {:induction false} BackoffReachesCap(n: nat)
    requires n >= 5
    ensures BackoffAfter(n) == MaxBackoff
  {
    if n == 5 {
      assert BackoffAfter(4) == 16000 by {
        assert BackoffAfter(1) == 2000;
        assert BackoffAfter(2) == 4000;
        assert BackoffAfter(3) == 8000;
      }
    } else {
      BackoffReachesCap(n - 1);
    }
  }

  /** Every handler, in registration order, called once with `n`. */
  function NotifyLog(handlers: seq<HandlerId>, n: Notice): (r: seq<Notification>)
    ensures |r| == |handlers|
    ensures forall i :: 0 <= i < |r| ==> r[i].handler == handlers[i] && r[i].notice == n
  {
    if handlers == [] then []
    else NotifyLog(handlers[..|handlers| - 1], n) + [Notification(handlers[|handlers| - 1], n)]
  }

  /** How many calls in `log` went to handler `h`. */
  function CallsTo(log: seq<Notification>, h: HandlerId): nat {
    if log == [] then 0
    else CallsTo(log[..|log| - 1], h) + (if log[|log| - 1].handler == h then 1 else 0)
  }

  /** A registered handler is called exactly once per notification; any other handler is not called. */
  lemma {:induction false} NotifyExactlyOnce(handlers: seq<HandlerId>, n: Notice, h: HandlerId)
    requires Distinct(handlers)
    ensures CallsTo(NotifyLog(handlers, n), h) == if h in handlers then 1 else 0
  {
    if handlers != [] {
      var init := handlers[..|handlers| - 1];
      assert Distinct(init);
      NotifyExactlyOnce(init, n, h);
      var log := NotifyLog(handlers, n);
      assert log[..|log| - 1] == NotifyLog(init, n);
      assert handlers == init + [handlers[|handlers| - 1]];
      if handlers[|handlers| - 1] == h {
        assert h !in init by {
          assert forall k :: 0 <= k < |init| ==> init[k] == handlers[k];
        }
      }
    }
  }

  /** `this.ws?.close()`: a socket that is open or connecting starts closing; no socket, nothing. */
  function CloseSocket(ws: Option<ReadyState>): Option<ReadyState> {
    if ws.Some? then Some(AfterClose(ws.value)) else None
  }

  /**
   * `send`: a frame goes out only on an OPEN socket; otherwise it is
   * dropped, not queued.  A write that throws closes the socket.  The
   * result is the new socket state and the new log of transmitted frames.
   */
  function SendEffect(ws: Option<ReadyState>, sent: seq<ClientFrame>, frame: ClientFrame, throws: bool): (r: (Option<ReadyState>, seq<ClientFrame>))
    ensures ws != Some(SocketOpen) ==> r == (ws, sent)
    ensures r.1 == sent || r.1 == sent + [frame]
    ensures r.1 == sent + [frame] <==> ws == Some(SocketOpen) && !throws
    ensures r.0 != ws ==> ws == Some(SocketOpen) && throws && r.0 == Some(SocketClosing)
    ensures ws == Some(SocketOpen) && throws ==> r == (Some(SocketClosing), sent)
  {
    if ws != Some(SocketOpen) then (ws, sent)
    else if throws then (CloseSocket(ws), sent)
    else (ws, sent + [frame])
  }

  class WebSocketService {
    var status: Status
    /** The socket the service holds (`this.ws`), by its ready state; None is `null`. */
    var ws: Option<ReadyState>
    var reconnectTimeout: int
    /** The pending reconnect timer, by the delay it was set with; None is `null`. */
    var reconnectTimer: Option<int>
    /** Whether the 30 s ping interval is set. */
    var pingTimer: bool
    var isAlive: bool
    /** `messageHandlers`, in insertion order. */
    var handlers: seq<HandlerId>
    /** Every handler call, in order. */
    var notified: seq<Notification>
    /** Every frame written to a socket, in order. */
    var sent: seq<ClientFrame>
    /** Reconnect timers fired since the last open. */
    ghost var firings: nat

    ghost predicate Valid()
      reads this
    {
      && Distinct(handlers)
      && reconnectTimeout == BackoffAfter(firings)
      && (reconnectTimer.Some? ==> InitialBackoff <= reconnectTimer.value <= MaxBackoff)
    }

    constructor ()
      ensures Valid()
      ensures status == Disconnected && ws.None? && reconnectTimeout == InitialBackoff
      ensures reconnectTimer.None? && !pingTimer && isAlive
      ensures handlers == [] && notified == [] && sent == []
    {
      status, ws := Disconnected, None;
      reconnectTimeout, reconnectTimer := InitialBackoff, None;
      pingTimer, isAlive := false, true;
      handlers, notified, sent := [], [], [];
      firings := 0;
    }

    /**
     * `connect`: a no-op while the held socket is OPEN; otherwise a new
     * socket is created in CONNECTING.  If creating it throws, the old
     * socket stays held, the status falls back to disconnected and a
     * reconnect is scheduled.
     */
    method Connect(createThrows: bool)
      requires Valid()
      modifies this`status, this`ws, this`reconnectTimer
      ensures Valid()
      ensures old(ws) == Some(SocketOpen) ==>
        status == old(status) && ws == old(ws) && reconnectTimer == old(reconnectTimer)
      ensures old(ws) != Some(SocketOpen) && !createThrows ==>
        status == Connecting && ws == Some(SocketConnecting) && reconnectTimer == old(reconnectTimer)
      ensures old(ws) != Some(SocketOpen) && createThrows ==>
        status == Disconnected && ws == old(ws) &&
        reconnectTimer == (if old(reconnectTimer).Some? then old(reconnectTimer) else Some(reconnectTimeout))
    {
      if ws == Some(SocketOpen) {
        return;
      }
      status := Connecting;
      if createThrows {
        status := Disconnected;
        ScheduleReconnect();
      } else {
        ws := Some(SocketConnecting);
      }
    }

    /** The socket's `onopen`: connected, backoff reset, handlers told, ping interval (re)started.  `isAlive` is left as it was. */
    method OnOpen(ofCurrent: bool)
      requires Valid() && (ofCurrent ==> ws == Some(SocketConnecting))
      modifies this`status, this`ws, this`reconnectTimeout, this`firings, this`notified, this`pingTimer
      ensures Valid()
      ensures status == Connected && reconnectTimeout == InitialBackoff && pingTimer
      ensures notified == old(notified) + NotifyLog(handlers, StatusNotice(Connected, None, None))
      ensures ws == if ofCurrent then Some(SocketOpen) else old(ws)
    {
      if ofCurrent {
        ws := Some(SocketOpen);
      }
      status := Connected;
      reconnectTimeout := InitialBackoff;
      firings := 0;
      NotifyHandlers(StatusNotice(Connected, None, None));
      SetupPingInterval();
    }

    /**
     * The socket's `onclose`: disconnected, handlers told the close code
     * and reason, ping interval cleared, and a reconnect scheduled unless
     * the code is 1008.
     */
    method OnClose(code: int, reason: string, ofCurrent: bool)
      requires Valid() && (ofCurrent ==> ws.Some?)
      modifies this`status, this`ws, this`notified, this`pingTimer, this`reconnectTimer
      ensures Valid()
      ensures status == Disconnected && !pingTimer
      ensures notified == old(notified) + NotifyLog(handlers, StatusNotice(Disconnected, Some(code), Some(reason)))
      ensures code == PolicyViolation ==> reconnectTimer == old(reconnectTimer)
      ensures code != PolicyViolation ==>
        reconnectTimer == (if old(reconnectTimer).Some? then old(reconnectTimer) else Some(reconnectTimeout))
      ensures ws == if ofCurrent then Some(SocketClosed) else old(ws)
    {
      if ofCurrent {
        ws := Some(SocketClosed);
      }
      status := Disconnected;
      NotifyHandlers(StatusNotice(Disconnected, Some(code), Some(reason)));
      pingTimer := false;
      if code != PolicyViolation {
        ScheduleReconnect();
      }
    }

    /** The socket's `onerror`: handlers are told; nothing else changes. */
    method OnError()
      modifies this`notified
      ensures notified == old(notified) + NotifyLog(handlers, ErrorNotice(ConnectionError))
    {
      NotifyHandlers(ErrorNotice(ConnectionError));
    }

    /**
     * The socket's `onmessage`, given the parsed frame (None when the
     * text is not JSON, which is swallowed): a `pong` marks the
     * connection alive and is not forwarded; every other frame goes to
     * the handlers.
     */
    method OnMessage(frame: Option<ServerFrame>)
      modifies this`isAlive, this`notified
      ensures frame.None? ==> isAlive == old(isAlive) && notified == old(notified)
      ensures frame.Some? && frame.value.action == "pong" ==> isAlive && notified == old(notified)
      ensures frame.Some? && frame.value.action != "pong" ==>
        isAlive == old(isAlive) && notified == old(notified) + NotifyLog(handlers, Forwarded(frame.value))
    {
      if frame.None? {
        return;
      }
      if frame.value.action == "pong" {
        isAlive := true;
        return;
      }
      NotifyHandlers(Forwarded(frame.value));
    }

    /** `setupPingInterval`: any existing interval is replaced by a new one. */
    method SetupPingInterval()
      modifies this`pingTimer
      ensures pingTimer
    {
      pingTimer := true;
    }

    /**
     * One tick of the ping interval: with no pong since the last ping the
     * socket is closed; otherwise the flag is cleared and a ping is sent.
     */
    method PingTick(sendThrows: bool)
      requires pingTimer
      modifies this`isAlive, this`ws, this`sent
      ensures !old(isAlive) ==> ws == CloseSocket(old(ws)) && sent == old(sent) && !isAlive
      ensures old(isAlive) ==> !isAlive && (ws, sent) == SendEffect(old(ws), old(sent), PingFrame, sendThrows)
    {
      if !isAlive {
        ws := CloseSocket(ws);
        return;
      }
      isAlive := false;
      Send(PingFrame, sendThrows);
    }

    /** `scheduleReconnect`: at most one reconnect timer is ever pending; it takes the current delay. */
    method ScheduleReconnect()
      requires Valid()
      modifies this`reconnectTimer
      ensures Valid()
      ensures old(reconnectTimer).Some? ==> reconnectTimer == old(reconnectTimer)
      ensures old(reconnectTimer).None? ==> reconnectTimer == Some(reconnectTimeout)
    {
      if reconnectTimer.Some? {
        return;
      }
      reconnectTimer := Some(reconnectTimeout);
    }

    /** The reconnect timer fires: it is cleared, `connect` runs, and the delay doubles up to the cap. */
    method ReconnectTimerFires(createThrows: bool)
      requires Valid() && reconnectTimer.Some?
      modifies this`status, this`ws, this`reconnectTimer, this`reconnectTimeout, this`firings
      ensures Valid()
      ensures reconnectTimeout == NextBackoff(old(reconnectTimeout)) && firings == old(firings) + 1
      ensures old(ws) == Some(SocketOpen) ==> status == old(status) && ws == old(ws) && reconnectTimer.None?
      ensures old(ws) != Some(SocketOpen) && !createThrows ==>
        status == Connecting && ws == Some(SocketConnecting) && reconnectTimer.None?
      ensures old(ws) != Some(SocketOpen) && createThrows ==>
        status == Disconnected && ws == old(ws) && reconnectTimer == Some(old(reconnectTimeout))
    {
      reconnectTimer := None;
      Connect(createThrows);
      reconnectTimeout := NextBackoff(reconnectTimeout);
      firings := firings + 1;
    }

    /**
     * `disconnect`: both timers cleared, the socket closed and dropped.
     * The status is left as it was, and the dropped socket's `onclose`
     * still runs later (as `OnClose(_, _, false)`), which schedules a
     * reconnect for any code but 1008.
     */
    method Disconnect()
      requires Valid()
      modifies this`reconnectTimer, this`pingTimer, this`ws
      ensures Valid()
      ensures reconnectTimer.None? && !pingTimer && ws.None?
    {
      reconnectTimer := None;
      pingTimer := false;
      if ws.Some? {
        ws := None;
      }
    }

    /** `subscribe`: add a handler once; its position is where it was first added. */
    method Subscribe(h: HandlerId)
      requires Valid()
      modifies this`handlers
      ensures Valid()
      ensures h in handlers
      ensures handlers == if h in old(handlers) then old(handlers) else old(handlers) + [h]
    {
      if h !in handlers {
        handlers := handlers + [h];
      }
    }

    /** The function `subscribe` returns: remove the handler; later notifications do not reach it. */
    method Unsubscribe(h: HandlerId)
      requires Valid()
      modifies this`handlers
      ensures Valid()
      ensures h !in handlers
      ensures handlers == Without(old(handlers), h)
    {
      WithoutDistinct(handlers, h);
      handlers := Without(handlers, h);
    }

    /** `notifyHandlers`: call every registered handler with `n`, in insertion order. */
    method NotifyHandlers(n: Notice)
      modifies this`notified
      ensures notified == old(notified) + NotifyLog(handlers, n)
    {
      var i := 0;
      while i < |handlers|
        invariant 0 <= i <= |handlers|
        invariant notified == old(notified) + NotifyLog(handlers[..i], n)
      {
        assert handlers[..i + 1][..i] == handlers[..i];
        notified := notified + [Notification(handlers[i], n)];
        i := i + 1;
      }
      assert handlers[..i] == handlers;
    }

    /** `send`. */
    method Send(frame: ClientFrame, throws: bool)
      modifies this`ws, this`sent
      ensures (ws, sent) == SendEffect(old(ws), old(sent), frame, throws)
    {
      if ws != Some(SocketOpen) {
        return;
      }
      if throws {
        ws := CloseSocket(ws);
      } else {
        sent := sent + [frame];
      }
    }

    method SubscribeToChannel(ch: ChannelId, throws: bool)
      modifies this`ws, this`sent
      ensures (ws, sent) == SendEffect(old(ws), old(sent), SubscribeFrame(ch), throws)
    {
      Send(SubscribeFrame(ch), throws);
    }

    method UnsubscribeFromChannel(ch: ChannelId, throws: bool)
      modifies this`ws, this`sent
      ensures (ws, sent) == SendEffect(old(ws), old(sent), UnsubscribeFrame(ch), throws)
    {
      Send(UnsubscribeFrame(ch), throws);
    }

    method SendMessage(ch: ChannelId, content: string, throws: bool)
      modifies this`ws, this`sent
      ensures (ws, sent) == SendEffect(old(ws), old(sent), ChatFrame(ch, content), throws)
    {
      Send(ChatFrame(ch, content), throws);
    }

    method SendTypingIndicator(ch: ChannelId, throws: bool)
      modifies this`ws, this`sent
      ensures (ws, sent) == SendEffect(old(ws), old(sent), TypingFrame(ch), throws)
    {
      Send(TypingFrame(ch), throws);
    }
  }

  /** Scenario: a connection the server closes with 1008 is not retried. */
  method PolicyCloseStopsReconnect() returns (pending: bool, status: Status)
    ensures !pending && status == Disconnected
  {
    var s := new WebSocketService();
    s.Connect(false);
    s.OnOpen(true);
    s.OnClose(PolicyViolation, "Unauthorized", true);
    pending, status := s.reconnectTimer.Some?, s.status;
  }

  /**
   * Scenario: after an explicit `disconnect`, the dropped socket's close
   * event still arrives and schedules a reconnect after 1 s.
   */
  method DisconnectDoesNotStopReconnect() returns (pending: Option<int>, status: Status)
    ensures pending == Some(1000) && status == Disconnected
  {
    var s := new WebSocketService();
    s.Connect(false);
    s.OnOpen(true);
    s.Disconnect();
    s.OnClose(1000, "", false);
    pending, status := s.reconnectTimer, s.status;
  }

  /**
   * Scenario: a server that never answers with a `pong` frame gets one
   * ping, and on the next tick the client closes the socket.
   */
  method UnansweredPingClosesSocket() returns (pings: nat, socket: Option<ReadyState>)
    ensures pings == 1 && socket == Some(SocketClosing)
  {
    var s := new WebSocketService();
    s.Connect(false);
    s.OnOpen(true);
    s.PingTick(false);
    s.PingTick(false);
    pings, socket := |s.sent|, s.ws;
  }

  /**
   * Scenario: a server that refuses every connection.  Each refusal's
   * close schedules the next attempt; the delays run 1, 2, 4, 8, 16 s and
   * then stay at 30 s.  A successful open resets the next delay to 1 s.
   */
  method RefusedConnectionsBackOff() returns (delays: seq<int>, afterOpen: Option<int>)
    ensures delays == [1000, 2000, 4000, 8000, 16000, 30000, 30000]
    ensures afterOpen == Some(1000)
  {
    var s := new WebSocketService();
    s.Connect(false);
    delays := [];
    var k := 0;
    while k < 7
      invariant 0 <= k <= 7
      invariant s.Valid() && s.firings == k && s.ws == Some(SocketConnecting) && s.reconnectTimer.None?
      invariant delays == [1000, 2000, 4000, 8000, 16000, 30000, 30000][..k]
    {
      s.OnClose(1006, "", true);
      delays := delays + [s.reconnectTimer.value];
      s.ReconnectTimerFires(false);
      k := k + 1;
    }
    s.OnOpen(true);
    s.OnClose(1006, "", true);
    afterOpen := s.reconnectTimer;
  }
}
