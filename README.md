# Team-chat real-time core, modelled in Dafny

This project models the core of a team-chat application (workspaces, channels, messages, reactions, direct messages). It covers three parts:

- **The server-side WebSocket hub** (`MessageServer`, server/websocket.ts). It keeps a registry of connections, each with a user, a set of channel subscriptions, a socket state and an `isAlive` flag. Inbound frames are checked against the channel table and dispatched. Chat messages are stored, then fanned out to subscribers, and a 30-second sweep reaps dead sockets.
- **The two browser-side connection managers:**
  - the `WebSocketService` singleton (client/src/lib/websocketService.ts). It has a status machine, a reconnect timer with capped exponential backoff, a ping/pong keepalive and a set of message handlers.
  - the `useWebSocket` React hook (client/src/hooks/useWebSocket.ts). It has an outbound FIFO queue that drains when a socket opens, and a fixed 3-second reconnect.
- **The decision logic of the REST handlers** (server/routes/messages.ts, server/routes/channels.ts, server/routes.ts) and **the presence helpers** (client/src/lib/utils.ts).

## How the source maps onto the model

- **Objects updated in place become classes.** `Hub.MessageServer`, `ClientService.WebSocketService`, `ChatSocketHook.ChatSocket` and `WorkspaceRoutes.Session` keep the source's fields. Their methods carry `modifies` clauses naming exactly the fields they change.
- **Callbacks become methods.** Socket callbacks (`onopen`, `onclose`, `onerror`, `onmessage`, the server's `pong`) and timer callbacks (the reconnect timeout, the ping interval, the 30-second sweep) are methods the environment calls.
- **Side effects are appended to log fields:**
  - `outbox` holds every frame the hub writes to a socket, with its recipient.
  - `sent` holds every frame a client writes.
  - `notified` holds every handler call.
  - `toasts` and `dispatched` hold the hook's UI effects.

  Delivery properties ("exactly once", "to nobody else", "in this order") are stated over these logs.
- **The iteration order of a JavaScript `Map` or `Set` (insertion order) is explicit.** The hub keeps `order` beside its `clients` map, and the service keeps its handlers as a duplicate-free sequence. `delete` is `Sequences.Without`.
- **Database reads and writes, and unpredictable outcomes, are parameters.** A lookup becomes the rows or the found record passed in. Whether a store, a `send` or a `new WebSocket` throws is a flag or `Option`.
- **Route handlers become pure functions.** Each takes the parsed request and the lookup results and returns the HTTP status plus the list of writes it performs, in order. A schema rejection is `None`. The acting user is a parameter; the source hard-codes user 1 in every handler.
- **Loops become methods with invariants.** Where the source loops (`broadcastToChannel`'s `forEach`, the sweep, `notifyHandlers`, `cleanup`, the hook's `while` drain), the model has a method with a loop. The broadcast, the sweep and `notifyHandlers` are proved against specification functions (`BroadcastLog`, `SweepKeep`/`SweepGone`/`Pings`, `NotifyLog`), and those functions carry the lemmas. `cleanup` and the drain state their new state directly against the old one: every registered connection is terminated and the registry is emptied; the queue is appended to the sent log in order and left empty.

### Behaviour of the code as written that the model makes explicit

- **The hub's liveness sweep never reads `isAlive`.** It only tests whether the socket is OPEN, so a peer that keeps its socket open but never answers pings is never reaped (`SweepIgnoresAlive`).
- **The client's ping is never answered with a `pong` frame.** The hub treats `{action:'ping'}` like any other frame: it names no channel, fails the channel check and gets an error back (`ClientPingIsRefused`). This takes the lookup on an absent channel id to match no row; if the database driver rejected the absent value, the lookup would throw and the reply would be "Failed to process message" instead. Neither is a `pong`. The client's `isAlive` is therefore never set back to true, and its ping interval closes the socket on its second tick (`UnansweredPingClosesSocket`). `onopen` does not reset `isAlive` either.
- **`WebSocketService.disconnect()` does not stop reconnection.** It leaves the status as it was and leaves the dropped socket's `onclose` attached. When that close arrives, a reconnect is scheduled (`DisconnectDoesNotStopReconnect`).
- **The service's backoff runs per firing, not per failure.** When creating the socket throws, the next timer is scheduled inside `connect`, before the delay is doubled, so that timer reuses the old delay (see `ReconnectTimerFires`).
- **The hook's reconnect guard never fires.** Its callbacks capture the `isReconnecting` of the first render, which is false. Every close therefore sets a new timer, whatever timers are pending. A close that arrives after unmount also sets one (`UnmountStillReconnects`).
- **The hook's drain only ends under one condition.** It terminates only if the queue is already empty or the socket held in `wsRef` is OPEN. If an older socket opens while `wsRef` holds another, non-open socket, every message shifted off is pushed back and the loop never ends (`StaleDrainNeverEnds`, `StaleDrainCycles`).
- **The DM membership check counts rows, not users.** With one row per member it is exactly "both are members and they differ" (`DmMembershipCheck`). But nothing makes the (workspace, user) pair unique, so a duplicated row lets a non-member through (`DuplicateRowPassesDmCheck`).
- **The page-limit clamp has no lower bound.** A negative `limit` passes through unchanged.

## Model

| member | source | states |
|---|---|---|
| Hub.Reply | server/websocket.ts:220-224 | a frame is written to a connection exactly when its socket is OPEN, once, and only to that connection |
| Hub.BroadcastLog | server/websocket.ts:226-232 | every delivery of a broadcast carries the broadcast event and goes to a registered, subscribed, OPEN client |
| Hub.BroadcastExactlyOnce | server/websocket.ts:226-232 | a broadcast reaches each registered, subscribed, OPEN client exactly once (the sender included) and every other connection zero times |
| Hub.DisconnectedReceivesNothing | server/websocket.ts:112-115 | once `handleDisconnect` has removed a connection from the registry, no broadcast reaches it |
| Hub.ChatLog | server/websocket.ts:193-217 | empty content produces nothing; a failed store produces at most the one save error to the sender; a broadcast message carries the stored id, channel, author and content |
| Hub.ChatReachesSubscribers | server/websocket.ts:193-217 | a stored message reaches each registered, subscribed, OPEN client exactly once (the sender included) and every other connection zero times; every delivery is the `new_message` event carrying the stored row |
| Hub.SweepKeep | server/websocket.ts:72-79 | the sweep keeps exactly the clients whose socket is OPEN and whose ping did not throw |
| Hub.SweepGone | server/websocket.ts:72-79 | the sweep disconnects exactly the clients whose socket is not OPEN or whose ping threw |
| Hub.Pings | server/websocket.ts:86-93 | one ping control frame per surviving client, in registry order |
| Hub.SweepIgnoresAlive | server/websocket.ts:82-84 | registries that differ only in `isAlive` lose the same clients in a sweep: the flag is never consulted |
| Hub.MessageServer.constructor | server/websocket.ts:45-80 | an empty registry with the sweep interval set |
| Hub.MessageServer.Upgrade | server/websocket.ts:52-67 | a session without a (truthy) user id is closed with 1008 and never registered; otherwise exactly one fresh entry is added and acked |
| Hub.MessageServer.HandleConnect | server/websocket.ts:95-110 | exactly one new entry with the session's user, no subscriptions and `isAlive` true; the `$connect` ack goes to that connection only |
| Hub.MessageServer.HandleDisconnect | server/websocket.ts:112-115 | the connection leaves the registry and its order and is terminated; a repeat call changes nothing more |
| Hub.MessageServer.SendToClient | server/websocket.ts:220-224 | appends exactly `Reply`: the frame when the socket is OPEN, nothing otherwise |
| Hub.MessageServer.BroadcastToChannel | server/websocket.ts:226-232 | the scan of every client in registry order appends exactly `BroadcastLog` |
| Hub.MessageServer.HandleSubscribe | server/websocket.ts:234-255 | a non-private existing channel is added (a repeat leaves the set unchanged) and acked `subscribed`; otherwise only the access error, no state change |
| Hub.MessageServer.HandleUnsubscribe | server/websocket.ts:257-263 | the channel is removed (a no-op when absent) and `unsubscribed` is always acked |
| Hub.MessageServer.HandleChatMessage | server/websocket.ts:193-218 | appends exactly `ChatLog`: store before broadcast, error to the sender alone on a failed store |
| Hub.MessageServer.HandleFrame | server/websocket.ts:120-191 | unparsable frame, or a channel lookup that throws: "Failed to process message" and no subscription change; any action on a missing or private channel (unsubscribe and typing included): one access error and no subscription change; then dispatch by action, with "Unknown message type" for the rest |
| Hub.MessageServer.OnPong | server/websocket.ts:141-144 | the pong handler sets `isAlive` and changes nothing else |
| Hub.MessageServer.SocketLeavesOpen | server/websocket.ts:82-84 | the transport moves a socket out of OPEN; only its `open` flag changes |
| Hub.MessageServer.Sweep | server/websocket.ts:72-79 | after a tick the registry holds exactly the survivors, unchanged; the others are terminated; each survivor got one ping, in order |
| Hub.MessageServer.SweepVisit | server/websocket.ts:73-93 | one client: disconnected if not OPEN or if its ping throws, otherwise pinged |
| Hub.MessageServer.Cleanup | server/websocket.ts:269-275 | the interval is cleared, every registered socket is terminated, and the registry is empty |
| Hub.PostReachesOnlySubscribers | server/websocket.ts:226-232 | a post to a channel reaches its subscriber once, and neither the unsubscribed poster nor a client subscribed elsewhere |
| Hub.ClientPingIsRefused | server/websocket.ts:150-162 | the client's `{action:'ping'}` gets exactly one access-denied error back |
| Sequences.Without | server/websocket.ts:113 | `delete` takes the key out of the iteration order and keeps every other element |
| ClientService.NextBackoff | client/src/lib/websocketService.ts:135 | the next delay is double the current one or the 30000 ms cap, never above the cap and never shorter |
| ClientService.BackoffAfter | client/src/lib/websocketService.ts:128-137 | the reconnect delay always lies in [1000, 30000] ms |
| ClientService.BackoffClosedForm | client/src/lib/websocketService.ts:128-137 | after n firings the delay is min(1000·2ⁿ, 30000) |
| ClientService.BackoffMonotone | client/src/lib/websocketService.ts:135 | consecutive firings never shorten the delay |
| ClientService.BackoffReachesCap | client/src/lib/websocketService.ts:19-20 | from the fifth firing on, the delay is the 30000 ms cap |
| ClientService.NotifyLog | client/src/lib/websocketService.ts:161-163 | one call per registered handler, in registration order, each with the same notice |
| ClientService.NotifyExactlyOnce | client/src/lib/websocketService.ts:156-163 | a registered handler receives each notification exactly once; an unregistered one receives nothing |
| ClientService.SendEffect | client/src/lib/websocketService.ts:165-178 | a frame goes out exactly when the socket is OPEN and the write does not throw; it is never queued; a throwing write, and only that, moves an OPEN socket to closing and sends nothing |
| ClientService.WebSocketService.constructor | client/src/lib/websocketService.ts:15-30 | disconnected, no socket, no timers, delay 1000 ms, no handlers |
| ClientService.WebSocketService.Connect | client/src/lib/websocketService.ts:34-102 | a no-op while the socket is OPEN; otherwise a new connecting socket, or, when creation throws, disconnected with one reconnect pending |
| ClientService.WebSocketService.OnOpen | client/src/lib/websocketService.ts:41-51 | connected, delay reset to 1000 ms, every handler told "connected", ping interval set |
| ClientService.WebSocketService.OnClose | client/src/lib/websocketService.ts:53-72 | disconnected, handlers told code and reason, ping interval cleared, a reconnect scheduled for every code but 1008 |
| ClientService.WebSocketService.OnError | client/src/lib/websocketService.ts:74-80 | every handler gets the connection error; nothing else changes |
| ClientService.WebSocketService.OnMessage | client/src/lib/websocketService.ts:82-96 | `pong` sets `isAlive` and is not forwarded; any other frame goes to every handler; unparsable text changes nothing |
| ClientService.WebSocketService.SetupPingInterval | client/src/lib/websocketService.ts:104-126 | the ping interval is (re)set |
| ClientService.WebSocketService.PingTick | client/src/lib/websocketService.ts:111-125 | with `isAlive` false the socket is closed and nothing is sent; otherwise `isAlive` is cleared and a ping is sent as `send` would |
| ClientService.WebSocketService.ScheduleReconnect | client/src/lib/websocketService.ts:128-137 | at most one reconnect timer is pending; a new one takes the current delay |
| ClientService.WebSocketService.ReconnectTimerFires | client/src/lib/websocketService.ts:131-136 | the timer clears, `connect` runs, and the delay becomes `NextBackoff` of the old one |
| ClientService.WebSocketService.Disconnect | client/src/lib/websocketService.ts:139-154 | both timers cleared and the socket dropped, keeping the service's invariant |
| ClientService.WebSocketService.Subscribe | client/src/lib/websocketService.ts:156-159 | the handler is registered once, at the position of its first registration |
| ClientService.WebSocketService.Unsubscribe | client/src/lib/websocketService.ts:158 | the handler is removed and the others keep their order |
| ClientService.WebSocketService.NotifyHandlers | client/src/lib/websocketService.ts:161-163 | the loop appends exactly `NotifyLog` |
| ClientService.WebSocketService.Send | client/src/lib/websocketService.ts:165-178 | socket and transmit log change exactly as `SendEffect` says |
| ClientService.WebSocketService.SubscribeToChannel | client/src/lib/websocketService.ts:185-190 | sends a subscribe frame for the channel, as `send` |
| ClientService.WebSocketService.UnsubscribeFromChannel | client/src/lib/websocketService.ts:192-197 | sends an unsubscribe frame for the channel, as `send` |
| ClientService.WebSocketService.SendMessage | client/src/lib/websocketService.ts:199-205 | sends a message frame with the content, as `send` |
| ClientService.WebSocketService.SendTypingIndicator | client/src/lib/websocketService.ts:207-212 | sends a typing frame for the channel, as `send` |
| ClientService.PolicyCloseStopsReconnect | client/src/lib/websocketService.ts:68-71 | a close with code 1008 leaves the service disconnected with no reconnect pending |
| ClientService.DisconnectDoesNotStopReconnect | client/src/lib/websocketService.ts:139-154 | after `disconnect`, the dropped socket's close still schedules a reconnect in 1000 ms |
| ClientService.UnansweredPingClosesSocket | client/src/lib/websocketService.ts:111-125 | with no `pong` frame, one ping is sent and the next tick closes the socket |
| ClientService.RefusedConnectionsBackOff | client/src/lib/websocketService.ts:128-137 | refused connections are retried after 1, 2, 4, 8, 16, 30, 30 s; a successful open resets the next delay to 1 s |
| ChatSocketHook.StaleDrainTurn | client/src/hooks/useWebSocket.ts:32-35 | a drain turn on a non-OPEN socket keeps the same messages and never shortens the queue |
| ChatSocketHook.StaleDrainNeverEnds | client/src/hooks/useWebSocket.ts:32-35 | after any number of such turns the queue is non-empty with the same messages: the `while` never ends |
| ChatSocketHook.StaleDrainCycles | client/src/hooks/useWebSocket.ts:32-35 | after k turns the queue is the original rotated by k |
| ChatSocketHook.ChatSocket.constructor | client/src/hooks/useWebSocket.ts:11-17 | not connected, not reconnecting, no socket, no timers, empty queue |
| ChatSocketHook.ChatSocket.Connect | client/src/hooks/useWebSocket.ts:20-87 | a no-op while the held socket is OPEN; otherwise a new connecting socket is held |
| ChatSocketHook.ChatSocket.SendMessage | client/src/hooks/useWebSocket.ts:90-97 | queued at the back unless the socket is OPEN, else written at once and not queued |
| ChatSocketHook.ChatSocket.OnOpen | client/src/hooks/useWebSocket.ts:27-36 | connected, not reconnecting, queue empty, and every queued message written once, in enqueue order |
| ChatSocketHook.ChatSocket.OnClose | client/src/hooks/useWebSocket.ts:38-49 | not connected, `wsRef` cleared, and (the captured flag being false) one more fresh 3 s timer set |
| ChatSocketHook.ChatSocket.OnError | client/src/hooks/useWebSocket.ts:51-58 | one "Connection Error" toast |
| ChatSocketHook.ChatSocket.OnMessage | client/src/hooks/useWebSocket.ts:60-84 | `$connect` and unparsable text change nothing; `error` raises one toast with the frame's error; anything else is dispatched |
| ChatSocketHook.ChatSocket.ReconnectTimerFires | client/src/hooks/useWebSocket.ts:45-47 | the timer is spent and `connect` runs |
| ChatSocketHook.ChatSocket.Unmount | client/src/hooks/useWebSocket.ts:149-156 | the held socket is closed and only the timer in `reconnectTimeoutRef` is cleared |
| ChatSocketHook.ChatSocket.SubscribeToChannel | client/src/hooks/useWebSocket.ts:100-105 | a subscribe frame, queued or written as `sendMessage` decides |
| ChatSocketHook.ChatSocket.UnsubscribeFromChannel | client/src/hooks/useWebSocket.ts:108-113 | an unsubscribe frame, queued or written as `sendMessage` decides |
| ChatSocketHook.ChatSocket.SendChatMessage | client/src/hooks/useWebSocket.ts:116-122 | a message frame, queued or written as `sendMessage` decides |
| ChatSocketHook.ChatSocket.SendTypingIndicator | client/src/hooks/useWebSocket.ts:125-130 | a typing frame, queued or written as `sendMessage` decides |
| ChatSocketHook.QueuedFramesFlushInOrder | client/src/hooks/useWebSocket.ts:27-36 | frames sent before the open go out in send order on open, and a later frame goes straight out |
| ChatSocketHook.UnmountStillReconnects | client/src/hooks/useWebSocket.ts:146-156 | the cleanup leaves no timer, but the closed socket's `onclose` then sets a new one |
| Membership.FindMember | server/routes/messages.ts:58-63 | a row of the given rows for the workspace and user, or None exactly when there is no such row |
| Membership.PairRowsSplit | server/routes/channels.ts:274-279 | the rows for `userId IN [u, t]` are u's rows plus t's rows, counted once when u = t |
| Membership.CountRowsUnique | server/routes/channels.ts:274-279 | with one row per (workspace, user), a member has exactly one row and a non-member none |
| Membership.PairRowsTwo | server/routes/channels.ts:281-283 | with unique rows, two rows are found exactly when the users differ and both are members |
| MessageRoutes.PageLimit | server/routes/messages.ts:46 | never above 100; 50 for a missing, unparsable or zero parameter; any other value up to 100 is kept |
| MessageRoutes.PageLimitIdempotent | server/routes/messages.ts:46 | clamping a clamped limit changes nothing |
| MessageRoutes.ChannelAccess | server/routes/messages.ts:49-67 | 404 for a missing channel, checked before membership; 403 exactly for a non-member of its workspace |
| MessageRoutes.ListMessages | server/routes/messages.ts:41-83 | the channel check's status, and a page size (the clamped limit) exactly on success |
| MessageRoutes.MentionRows | server/routes/messages.ts:154-162 | one mention row per mention, in order, for the new message |
| MessageRoutes.CreateMessage | server/routes/messages.ts:115-164 | 400 before 404 before 403, none of which writes; on 201 the message row has `rootMessageId = parentId`, and mention rows follow exactly when mentions are non-empty |
| MessageRoutes.EditMessage | server/routes/messages.ts:175-204 | 400, 404 for a missing message, 403 unless the user wrote it; otherwise one update with `isEdited` true |
| MessageRoutes.AddReaction | server/routes/messages.ts:215-256 | 400 for no emoji before any lookup; an existing reaction gains the user only if absent; a new emoji creates `[userId]` with 201 |
| MessageRoutes.RemoveReaction | server/routes/messages.ts:264-298 | 404 for a missing reaction; the user is filtered out, the row is deleted when nobody is left, and nothing is written for an absent user |
| MessageRoutes.AddReactionIdempotent | server/routes/messages.ts:233-245 | repeating an add writes nothing the second time |
| MessageRoutes.AddThenRemove | server/routes/messages.ts:233-296 | add then remove by a user not in the reaction restores it, or removes the reaction the add created |
| MessageRoutes.ReactionsNeverEmpty | server/routes/messages.ts:281-295 | neither handler leaves a reaction with an empty user list |
| ChannelRoutes.ParseCreate | server/routes/channels.ts:10-16 | accepted exactly with a non-empty name and a type; `isPrivate` defaults to false |
| ChannelRoutes.Newest | server/routes/channels.ts:46-49 | null exactly for a channel without messages, else a message no older than any other |
| ChannelRoutes.Listing | server/routes/channels.ts:43-63 | each channel of the workspace is listed with its newest message, nothing else is listed, and the list is no longer than the channel table |
| ChannelRoutes.ListChannels | server/routes/channels.ts:25-68 | 403 for a non-member, else the listing |
| ChannelRoutes.CreateChannel | server/routes/channels.ts:71-110 | 400 before 403; 201 exactly for a valid body from a member, inserting the parsed fields with the creator |
| ChannelRoutes.GetChannel | server/routes/channels.ts:113-145 | 404 for a missing channel before 403 for a non-member of its workspace |
| ChannelRoutes.UpdateChannelRoute | server/routes/channels.ts:169-214 | 400, then 404, then 403 unless owner or admin; only success writes, setting name and topic |
| ChannelRoutes.ArchiveChannelRoute | server/routes/channels.ts:217-260 | 404, then 403 unless owner or admin; success stamps `archivedAt` and `archivedBy` |
| ChannelRoutes.CreateDm | server/routes/channels.ts:263-334 | 400 without a target, 403 unless exactly two rows, the existing DM returned without a write, 404 for an unknown target, else a private `dm` channel named after the target with members [user, target] |
| ChannelRoutes.DmMembershipCheck | server/routes/channels.ts:274-283 | with unique membership, the DM check passes exactly when both users are members and differ |
| ChannelRoutes.DuplicateRowPassesDmCheck | server/routes/channels.ts:274-283 | a duplicated membership row lets a DM with a non-member be created |
| WorkspaceRoutes.ListWorkspaces | server/routes.ts:35-72 | one entry per membership row of the user that survives the joins; `isAdmin` exactly for owner or admin; `memberCount` 0 |
| WorkspaceRoutes.CreateWorkspace | server/routes.ts:80-124 | 400 without a name; otherwise the workspace, then the creator as owner with every permission; the response says owner, one member, admin |
| WorkspaceRoutes.GetWorkspace | server/routes.ts:173-205 | 404 for a missing workspace, 403 for a non-member, else its member count, at least one |
| WorkspaceRoutes.MemberCountPositive | server/routes.ts:196-205 | a workspace with the user among its members counts at least one member |
| WorkspaceRoutes.UpdateWorkspaceRoute | server/routes.ts:229-259 | 400, then 403 unless owner or admin, then 404 when no workspace matched; only success writes |
| WorkspaceRoutes.DeleteWorkspaceRoute | server/routes.ts:277-301 | only an owner may delete (an admin gets 403); 404 when nothing was deleted; only success writes |
| WorkspaceRoutes.NoNotFoundWithIntegrity | server/routes.ts:294-301 | while every membership row names an existing workspace, update and delete never answer 404 |
| WorkspaceRoutes.CreatorAdministers | server/routes.ts:93-103 | once a create's writes are applied, the creator may update and delete the new workspace |
| WorkspaceRoutes.SwitchWorkspace | server/routes.ts:127-170 | 400 for a non-numeric id, 403 for a non-member, 500 without a session; only success sets the session's active workspace |
| StatusHelpers.Lower | client/src/lib/utils.ts:22 | lower-casing keeps the length and maps each character |
| StatusHelpers.Contains | client/src/lib/utils.ts:23-28 | `includes` holds exactly when the word occurs at some index |
| StatusHelpers.StatusColor | client/src/lib/utils.ts:16-47 | always one of four colours; gray without a status or offline; red exactly for busy text; yellow exactly for away text, or for an unexpired status inactive for five minutes, when not busy; gray exactly without a status, offline, or for an expired status that is neither busy nor away; green exactly when no rule fires |
| StatusHelpers.BusyOverridesTimes | client/src/lib/utils.ts:23-26 | busy text gives red whatever the expiry and last-active times |
| StatusHelpers.AwayBeforeExpiry | client/src/lib/utils.ts:27-34 | away text is checked before expiry, so an expired away status is yellow |
| StatusHelpers.MeetingIsCaseInsensitive | client/src/lib/utils.ts:22-26 | "MEETING" matches after lower-casing and gives red |
| StatusHelpers.FormatStatus | client/src/lib/utils.ts:50-53 | "" without text; the text then a space and the emoji when the emoji is non-empty; the text alone otherwise |

## Left out

- **Transport and timers.** The `ws` server, the browser `WebSocket`, the HTTP upgrade and URL parsing, and real timers are not modelled. Socket and timer callbacks are methods the environment calls, and nothing models their timing or interleaving.
- **Concurrency.** Async handlers and their interleavings are out; each handler is one atomic step.
- **The database.** Drizzle queries and the table schema are not part of this model. Lookups are parameters and writes are returned as values.
- **Catch-all handlers.** The 500 responses that answer an unexpected exception are not modelled.
- **Parsing and serialisation.** JSON, zod schemas and `parseInt` appear only as their outcomes (`Option` values).
- **Routes not taken.** `getStatus` of the service, `cn` of client/src/lib/utils.ts and the route file server/routes/workspaces.ts are not part of this model.
- **Content and settings blobs.** Message content (`blocks`, `formattedText`, `rawText`), `settings` and `metadata` are opaque, and the `settings` defaults are not modelled.
- **Time and text.**
  - Dates are integer milliseconds, and parsing a date string is not modelled: an `expiresAt` that is empty or unparsable is None.
  - Lower-casing is ASCII-only; Unicode case mapping is out.
- **What each route returns.** Only the status and the writes are modelled; the JSON payloads are not.
- Hub.MessageServer.HandleConnect: connection ids come from a counter, so they are always fresh. The source draws them from `Math.random` and does not rule out a collision.
- ChatSocketHook.ChatSocket.OnOpen: it requires that an open which does not belong to the held socket finds that socket OPEN or the queue empty. In the remaining case the source's drain loop never ends, as `StaleDrainNeverEnds` shows, so that case has no final state to state.
- ChatSocketHook.ChatSocket.Connect: a `new WebSocket` that throws is not modelled. The hook has no handler for it, so the exception leaves `connect`.
- ClientService.WebSocketService.NotifyHandlers: handlers are taken not to throw. In the source a throwing handler ends the `forEach`, so later handlers are skipped, and inside `onclose` the ping-timer clear and the reconnect are skipped too.
- ChannelRoutes.CreateDm: the existing-DM lookup (`inArray` over `metadata.dmMembers`) is an opaque parameter. What it matches is not modelled.
- MessageRoutes.ListMessages: the `before` cursor is parsed but never used in the query, and the page itself (newest first, with authors, mentions and reactions) is not modelled; only the status and the page size are.
