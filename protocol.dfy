/**
 * The wire vocabulary shared by the two browser-side connection managers
 * (client/src/lib/websocketService.ts and client/src/hooks/useWebSocket.ts):
 * the frames they send, the frames they receive, and the browser
 * WebSocket's ready states.
 */
module Protocol {
  import opened Wrappers

  /** Close code for "policy violation": the hub's answer to an upgrade without a session user. */
  const PolicyViolation: int := 1008

  type ChannelId = int

  /** A frame a client sends; each becomes `{action, channelId?, content?}` on the wire. */
  datatype ClientFrame =
    | SubscribeFrame(channelId: ChannelId)
    | UnsubscribeFrame(channelId: ChannelId)
    | ChatFrame(channelId: ChannelId, content: string)
    | TypingFrame(channelId: ChannelId)
    | PingFrame

  /** A parsed inbound frame as the clients inspect it: its `action` and its optional `error` field. */
  datatype ServerFrame = ServerFrame(action: string, error: Option<string>)

  /** `WebSocket.readyState`. */
  datatype ReadyState = SocketConnecting | SocketOpen | SocketClosing | SocketClosed

  /** The state `close()` leaves a socket in: an open or connecting socket starts closing. */
  function AfterClose(s: ReadyState): (r: ReadyState)
    ensures r != SocketOpen && r != SocketConnecting
    ensures s == SocketClosed ==> r == SocketClosed
  {
    if s == SocketOpen || s == SocketConnecting then SocketClosing else s
  }
}
