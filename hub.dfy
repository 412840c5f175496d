/**
 * The server-side connection hub of server/websocket.ts (`MessageServer`):
 * a registry of live sockets keyed by connection id, each with its user,
 * its channel subscriptions, its socket state and an `isAlive` flag; the
 * handlers for inbound frames; fan-out to subscribers; the periodic
 * liveness sweep; and shutdown.
 *
 * The database is a pair of oracles passed to each handler: the set of
 * channels that exist and are not private, and the id the message insert
 * returned (None when the insert threw).  Every frame written to a socket
 * is appended to `outbox`, so "what was delivered to whom, in which order"
 * is part of the state.
 */
module Hub {
  import opened Wrappers
  import opened Sequences
  import Protocol

  type ConnId = nat
  type UserId = int
  type ChannelId = int

  /** One registered socket (`AuthenticatedWebSocket`). */
  datatype Conn = Conn(userId: UserId, subs: set<ChannelId>, open: bool, alive: bool)

  /** The row the message insert returns. */
  datatype StoredMessage = StoredMessage(id: int, channelId: ChannelId, userId: UserId, content: string)

  /** A frame the hub writes to a socket. */
  datatype Event =
    | ConnectAck(connectionId: ConnId)
    | Error(message: string)
    | Subscribed(channelId: ChannelId)
    | Unsubscribed(channelId: ChannelId)
    | Typing(channelId: ChannelId, userId: UserId)
    | NewMessage(channelId: ChannelId, stored: StoredMessage)
    | Ping   // the WebSocket ping control frame of the sweep

  datatype Delivery = Delivery(to: ConnId, event: Event)

  /** A parsed inbound frame `{action, channelId, content}`; a field the client left out is None. */
  datatype Frame = Frame(action: string, channelId: Option<ChannelId>, content: Option<string>)

  datatype UpgradeOutcome = Rejected(code: int) | Accepted(id: ConnId)

  const FailedToProcess: string := "Failed to process message"
  const AccessDenied: string := "Channel not found or access denied"
  const FailedToSave: string := "Failed to save message"
  const UnknownType: string := "Unknown message type"

  /** The upgrade gate tests `session?.userId` for truthiness, so a user id of 0 counts as missing. */
  predicate HasSessionUser(session: Option<UserId>) {
    session.Some? && session.value != 0
  }

  /** The channel check run before every action: the frame names a channel that exists and is not private. */
  predicate Accessible(f: Frame, publicChannels: set<ChannelId>) {
    f.channelId.Some? && f.channelId.value in publicChannels
  }

  /** Whether `broadcastToChannel(ch, _)` writes to `c`: registered, subscribed to `ch`, socket OPEN. */
  predicate Receives(clients: map<ConnId, Conn>, c: ConnId, ch: ChannelId) {
    c in clients && ch in clients[c].subs && clients[c].open
  }

  /** What `sendToClient(c, e)` writes: the frame if `c`'s socket is OPEN, nothing otherwise. */
  function Reply(clients: map<ConnId, Conn>, c: ConnId, e: Event): (r: seq<Delivery>)
    requires c in clients
    ensures forall d :: d in r ==> d == Delivery(c, e)
    ensures clients[c].open ==> r == [Delivery(c, e)]
    ensures !clients[c].open ==> r == []
  {
    if clients[c].open then [Delivery(c, e)] else []
  }

  /**
   * The deliveries of `broadcastToChannel(ch, e)`: the registry scanned in
   * its iteration order, each subscribed client with an OPEN socket getting `e`.
   */
  function BroadcastLog(order: seq<ConnId>, clients: map<ConnId, Conn>, ch: ChannelId, e: Event): (r: seq<Delivery>)
    ensures forall d :: d in r ==> d.event == e && d.to in order && Receives(clients, d.to, ch)
  {
    if order == [] then []
    else
      var c := order[|order| - 1];
      BroadcastLog(order[..|order| - 1], clients, ch, e) + (if Receives(clients, c, ch) then [Delivery(c, e)] else [])
  }

  /** How many deliveries in `log` go to `c`. */
  function CountTo(log: seq<Delivery>, c: ConnId): nat {
    if log == [] then 0
    else CountTo(log[..|log| - 1], c) + (if log[|log| - 1].to == c then 1 else 0)
  }

  lemma CountSnoc(log: seq<Delivery>, d: Delivery, c: ConnId)
    ensures CountTo(log + [d], c) == CountTo(log, c) + (if d.to == c then 1 else 0)
  {
    assert (log + [d])[..|log|] == log;
  }

  /**
   * Fan-out is exact: a broadcast reaches each registered, subscribed,
   * OPEN client exactly once (the sender included) and no other connection.
   */
  lemma {:induction false} BroadcastExactlyOnce(order: seq<ConnId>, clients: map<ConnId, Conn>, ch: ChannelId, e: Event, c: ConnId)
    requires Distinct(order)
    ensures CountTo(BroadcastLog(order, clients, ch, e), c) == if c in order && Receives(clients, c, ch) then 1 else 0
  {
    if order != [] {
      var init, last := order[..|order| - 1], order[|order| - 1];
      assert order == init + [last];
      assert Distinct(init);
      BroadcastExactlyOnce(init, clients, ch, e, c);
      var log := BroadcastLog(init, clients, ch, e);
      if Receives(clients, last, ch) {
        CountSnoc(log, Delivery(last, e), c);
      } else {
        assert log + [] == log;
      }
      if c == last {
        assert c !in init;
      }
    }
  }

  /** After `handleDisconnect(c)` has taken `c` out of the registry, no broadcast reaches it. */
  lemma DisconnectedReceivesNothing(order: seq<ConnId>, clients: map<ConnId, Conn>, ch: ChannelId, e: Event, c: ConnId)
    requires Distinct(order) && c !in clients
    ensures CountTo(BroadcastLog(order, clients, ch, e), c) == 0
  {
    BroadcastExactlyOnce(order, clients, ch, e, c);
  }

  /**
   * What a chat frame with `content` on channel `ch` from `c` produces:
   * nothing for empty content; the save error to the sender alone when the
   * insert threw; otherwise the stored row broadcast to the channel.
   */
  function ChatLog(order: seq<ConnId>, clients: map<ConnId, Conn>, c: ConnId, ch: ChannelId,
                   content: Option<string>, persisted: Option<int>): (r: seq<Delivery>)
    requires c in clients
    ensures content.None? || content.value == "" ==> r == []
    ensures persisted.None? ==> |r| <= 1 && forall d :: d in r ==> d == Delivery(c, Error(FailedToSave))
    ensures forall d :: d in r && d.event.NewMessage? ==>
      persisted.Some? && content.Some? &&
      d.event == NewMessage(ch, StoredMessage(persisted.value, ch, clients[c].userId, content.value))
  {
    if content.None? || content.value == "" then []
    else if persisted.None? then Reply(clients, c, Error(FailedToSave))
    else BroadcastLog(order, clients, ch, NewMessage(ch, StoredMessage(persisted.value, ch, clients[c].userId, content.value)))
  }

  /**
   * A stored chat message reaches each registered client subscribed to the
   * channel with an OPEN socket exactly once (the sender included), and no
   * other connection; every delivery is the `new_message` event carrying
   * the stored row.
   */
  lemma ChatReachesSubscribers(order: seq<ConnId>, clients: map<ConnId, Conn>, c: ConnId, ch: ChannelId,
                               content: string, persisted: int, d: ConnId)
    requires Distinct(order) && c in clients && content != ""
    ensures CountTo(ChatLog(order, clients, c, ch, Some(content), Some(persisted)), d)
      == if d in order && Receives(clients, d, ch) then 1 else 0
    ensures forall x :: x in ChatLog(order, clients, c, ch, Some(content), Some(persisted)) ==>
      x.event == NewMessage(ch, StoredMessage(persisted, ch, clients[c].userId, content))
  {
    BroadcastExactlyOnce(order, clients, ch, NewMessage(ch, StoredMessage(persisted, ch, clients[c].userId, content)), d);
  }

  /** A client the sweep keeps: still OPEN, and its ping did not throw.  `alive` is not consulted. */
  predicate Survives(clients: map<ConnId, Conn>, c: ConnId, pingFails: set<ConnId>) {
    c in clients && clients[c].open && c !in pingFails
  }

  /** The iteration order left after one sweep. */
  function SweepKeep(s: seq<ConnId>, clients: map<ConnId, Conn>, pingFails: set<ConnId>): (r: seq<ConnId>)
    ensures forall c :: c in r <==> c in s && Survives(clients, c, pingFails)
  {
    if s == [] then []
    else
      var c := s[|s| - 1];
      SweepKeep(s[..|s| - 1], clients, pingFails) + (if Survives(clients, c, pingFails) then [c] else [])
  }

  /** One ping per connection, in order. */
  function Pings(s: seq<ConnId>): (r: seq<Delivery>)
    ensures |r| == |s|
    ensures forall i :: 0 <= i < |s| ==> r[i] == Delivery(s[i], Ping)
  {
    if s == [] then [] else Pings(s[..|s| - 1]) + [Delivery(s[|s| - 1], Ping)]
  }

  /**
   * The sweep never reads `isAlive`: two registries that differ only in the
   * `alive` flags lose the same clients and ping the same ones.  A peer that
   * keeps its socket OPEN but never answers a ping is never reaped.
   */
  lemma {:induction false} SweepIgnoresAlive(s: seq<ConnId>, m1: map<ConnId, Conn>, m2: map<ConnId, Conn>, pingFails: set<ConnId>)
    requires m1.Keys == m2.Keys
    requires forall c :: c in m1 ==> m1[c].open == m2[c].open
    ensures SweepKeep(s, m1, pingFails) == SweepKeep(s, m2, pingFails)
  {
    if s != [] {
      SweepIgnoresAlive(s[..|s| - 1], m1, m2, pingFails);
    }
  }

  lemma PingsSnoc(s: seq<ConnId>, c: ConnId)
    ensures Pings(s + [c]) == Pings(s) + [Delivery(c, Ping)]
  {
    assert (s + [c])[..|s|] == s;
  }

  /** One iteration of the sweep: the visited prefix's survivors grow by the visited client when it survives. */
  lemma SweepKeepStep(snap: seq<ConnId>, i: nat, clients: map<ConnId, Conn>, pingFails: set<ConnId>)
    requires i < |snap|
    ensures SweepKeep(snap[..i + 1], clients, pingFails)
      == SweepKeep(snap[..i], clients, pingFails) + (if Survives(clients, snap[i], pingFails) then [snap[i]] else [])
  {
    assert snap[..i + 1][..i] == snap[..i];
  }

  /** Taking the visited client out of the order left by the sweep so far. */
  lemma WithoutStep(kept: seq<ConnId>, snap: seq<ConnId>, i: nat)
    requires Distinct(snap) && i < |snap|
    requires forall x :: x in kept ==> x in snap[..i]
    ensures Without(kept + snap[i..], snap[i]) == kept + snap[i + 1..]
    ensures kept + snap[i..] == kept + [snap[i]] + snap[i + 1..]
  {
    var c := snap[i];
    assert c !in snap[..i] by {
      assert forall k :: 0 <= k < i ==> snap[k] != c;
    }
    assert c !in snap[i + 1..] by {
      assert forall k :: i < k < |snap| ==> snap[k] != c;
    }
    assert snap[i..] == [c] + snap[i + 1..];
    WithoutConcat(kept, snap[i..], c);
    WithoutAbsent(kept, c);
    WithoutConcat([c], snap[i + 1..], c);
    WithoutAbsent(snap[i + 1..], c);
  }

  /** The clients among `s` that one sweep disconnects. */
  function SweepGone(s: seq<ConnId>, clients: map<ConnId, Conn>, pingFails: set<ConnId>): (r: set<ConnId>)
    ensures forall c :: c in r <==> c in s && !Survives(clients, c, pingFails)
  {
    if s == [] then {}
    else
      var c := s[|s| - 1];
      SweepGone(s[..|s| - 1], clients, pingFails) + (if Survives(clients, c, pingFails) then {} else {c})
  }

  lemma SweepGoneStep(snap: seq<ConnId>, i: nat, clients: map<ConnId, Conn>, pingFails: set<ConnId>)
    requires i < |snap|
    ensures SweepGone(snap[..i + 1], clients, pingFails)
      == SweepGone(snap[..i], clients, pingFails) + (if Survives(clients, snap[i], pingFails) then {} else {snap[i]})
  {
    assert snap[..i + 1][..i] == snap[..i];
  }

  /** The registry's invariant: the order lists each registered id once, and every id is below the counter. */
  ghost predicate Registry(clients: map<ConnId, Conn>, order: seq<ConnId>, nextId: ConnId) {
    && Distinct(order)
    && (forall c :: c in order <==> c in clients)
    && (forall c :: c in clients ==> c < nextId)
  }

  /** The sweep's loop invariant after visiting `snap[..i]` of the snapshot `snap` of registry `m0`. */
  ghost predicate SweepInv(clients: map<ConnId, Conn>, order: seq<ConnId>, nextId: ConnId, outbox: seq<Delivery>, terminated: set<ConnId>,
                           snap: seq<ConnId>, i: nat, m0: map<ConnId, Conn>, o0: seq<Delivery>, t0: set<ConnId>, pingFails: set<ConnId>)
  {
    && i <= |snap|
    && Registry(clients, order, nextId)
    && Distinct(snap)
    && clients == m0 - SweepGone(snap[..i], m0, pingFails)
    && terminated == t0 + SweepGone(snap[..i], m0, pingFails)
    && order == SweepKeep(snap[..i], m0, pingFails) + snap[i..]
    && outbox == o0 + Pings(SweepKeep(snap[..i], m0, pingFails))
  }

  /** Visiting `snap[i]` as the sweep's callback does keeps the loop invariant. */
  lemma SweepInvStep(clients: map<ConnId, Conn>, order: seq<ConnId>, nextId: ConnId, outbox: seq<Delivery>, terminated: set<ConnId>,
                     clients': map<ConnId, Conn>, order': seq<ConnId>, outbox': seq<Delivery>, terminated': set<ConnId>,
                     snap: seq<ConnId>, i: nat, m0: map<ConnId, Conn>, o0: seq<Delivery>, t0: set<ConnId>, pingFails: set<ConnId>)
    requires i < |snap| && SweepInv(clients, order, nextId, outbox, terminated, snap, i, m0, o0, t0, pingFails)
    requires Registry(clients', order', nextId)
    requires Survives(clients, snap[i], pingFails) ==>
      clients' == clients && order' == order && terminated' == terminated && outbox' == outbox + [Delivery(snap[i], Ping)]
    requires !Survives(clients, snap[i], pingFails) ==>
      clients' == clients - {snap[i]} && order' == Without(order, snap[i]) && terminated' == terminated + {snap[i]} && outbox' == outbox
    ensures SweepInv(clients', order', nextId, outbox', terminated', snap, i + 1, m0, o0, t0, pingFails)
  {
    var c := snap[i];
    var kept := SweepKeep(snap[..i], m0, pingFails);
    var gone := SweepGone(snap[..i], m0, pingFails);
    SweepKeepStep(snap, i, m0, pingFails);
    SweepGoneStep(snap, i, m0, pingFails);
    WithoutStep(kept, snap, i);
    assert c !in gone;
    assert Survives(clients, c, pingFails) == Survives(m0, c, pingFails);
    if Survives(m0, c, pingFails) {
      assert gone + {} == gone;
      assert outbox' == o0 + Pings(kept + [c]) by {
        PingsSnoc(kept, c);
        LogAssoc(o0, Pings(kept), [Delivery(c, Ping)]);
      }
    } else {
      assert kept + [] == kept;
      assert clients' == m0 - (gone + {c}) by {
        MapMinusSnoc(m0, gone, c);
      }
    }
  }

  /** Before the loop visits anything, the invariant holds of the snapshot itself. */
  lemma SweepInvInit(clients: map<ConnId, Conn>, order: seq<ConnId>, nextId: ConnId, outbox: seq<Delivery>, terminated: set<ConnId>, pingFails: set<ConnId>)
    requires Registry(clients, order, nextId)
    ensures SweepInv(clients, order, nextId, outbox, terminated, order, 0, clients, outbox, terminated, pingFails)
  {
    assert order[0..] == order && order[..0] == [];
    assert clients - {} == clients;
  }

  /** When the loop has visited the whole snapshot, the invariant gives the sweep's postcondition. */
  lemma SweepInvDone(clients: map<ConnId, Conn>, order: seq<ConnId>, nextId: ConnId, outbox: seq<Delivery>, terminated: set<ConnId>,
                     snap: seq<ConnId>, m0: map<ConnId, Conn>, o0: seq<Delivery>, t0: set<ConnId>, pingFails: set<ConnId>)
    requires SweepInv(clients, order, nextId, outbox, terminated, snap, |snap|, m0, o0, t0, pingFails)
    requires forall c :: c in m0 <==> c in snap
    ensures forall c :: c in clients <==> Survives(m0, c, pingFails)
    ensures forall c :: c in clients ==> c in m0 && clients[c] == m0[c]
    ensures order == SweepKeep(snap, m0, pingFails)
    ensures outbox == o0 + Pings(order)
    ensures terminated == t0 + SweepGone(snap, m0, pingFails)
  {
    assert snap[..|snap|] == snap;
    assert snap[|snap|..] == [];
    assert order == SweepKeep(snap, m0, pingFails) + [];
  }

  lemma LogAssoc(a: seq<Delivery>, b: seq<Delivery>, d: seq<Delivery>)
    ensures a + b + d == a + (b + d)
  {
  }

  lemma MapMinusSnoc(m: map<ConnId, Conn>, g: set<ConnId>, c: ConnId)
    ensures (m - g) - {c} == m - (g + {c})
  {
  }

  class MessageServer {
    /** `clients`: the registry. */
    var clients: map<ConnId, Conn>
    /** The registry's iteration order (a JS Map iterates in insertion order). */
    var order: seq<ConnId>
    /** Ids are minted fresh: every id handed out so far is below `nextId`. */
    var nextId: ConnId
    /** Whether the 30 s sweep interval is set. */
    var pingInterval: bool
    /** Every frame written to a socket, in order. */
    var outbox: seq<Delivery>
    /** Connections whose socket `terminate()` was called on. */
    var terminated: set<ConnId>

    ghost predicate Valid()
      reads this
    {
      Registry(clients, order, nextId)
    }

    constructor ()
      ensures Valid()
      ensures clients == map[] && order == [] && outbox == [] && terminated == {} && pingInterval
    {
      clients, order, nextId := map[], [], 0;
      pingInterval := true;
      outbox, terminated := [], {};
    }

    /**
     * The upgrade gate: a session without a user is closed with 1008 and
     * never reaches `handleConnect`; otherwise the socket is registered.
     */
    method Upgrade(session: Option<UserId>) returns (r: UpgradeOutcome)
      requires Valid()
      modifies this`clients, this`order, this`nextId, this`outbox
      ensures Valid()
      ensures !HasSessionUser(session) ==>
        && r == Rejected(Protocol.PolicyViolation)
        && clients == old(clients) && order == old(order) && outbox == old(outbox)
      ensures HasSessionUser(session) ==>
        && r.Accepted? && r.id !in old(clients)
        && clients == old(clients)[r.id := Conn(session.value, {}, true, true)]
        && order == old(order) + [r.id]
        && outbox == old(outbox) + [Delivery(r.id, ConnectAck(r.id))]
    {
      if !HasSessionUser(session) {
        r := Rejected(Protocol.PolicyViolation);
        return;
      }
      var id := HandleConnect(session.value);
      r := Accepted(id);
    }

    /** `handleConnect`: one new entry with an empty subscription set, then the ack to that socket only. */
    method HandleConnect(userId: UserId) returns (id: ConnId)
      requires Valid()
      modifies this`clients, this`order, this`nextId, this`outbox
      ensures Valid()
      ensures id !in old(clients)
      ensures clients == old(clients)[id := Conn(userId, {}, true, true)]
      ensures order == old(order) + [id]
      ensures outbox == old(outbox) + [Delivery(id, ConnectAck(id))]
    {
      id := nextId;
      assert id !in order;
      nextId := nextId + 1;
      clients := clients[id := Conn(userId, {}, true, true)];
      order := order + [id];
      SendToClient(id, ConnectAck(id));
    }

    /** `handleDisconnect` (also the socket's `close` and `error` handlers): deregister and terminate; repeatable. */
    method HandleDisconnect(c: ConnId)
      requires Valid()
      modifies this`clients, this`order, this`terminated
      ensures Valid()
      ensures clients == old(clients) - {c}
      ensures order == Without(old(order), c)
      ensures terminated == old(terminated) + {c}
    {
      WithoutDistinct(order, c);
      clients := clients - {c};
      order := Without(order, c);
      terminated := terminated + {c};
    }

    /** `sendToClient`: write only to an OPEN socket. */
    method SendToClient(c: ConnId, e: Event)
      requires c in clients
      modifies this`outbox
      ensures outbox == old(outbox) + Reply(clients, c, e)
    {
      if clients[c].open {
        outbox := outbox + [Delivery(c, e)];
      }
    }

    /** `broadcastToChannel`: scan every client in registry order; no per-channel index. */
    method BroadcastToChannel(ch: ChannelId, e: Event)
      requires Valid()
      modifies this`outbox
      ensures outbox == old(outbox) + BroadcastLog(order, clients, ch, e)
    {
      var i := 0;
      while i < |order|
        invariant 0 <= i <= |order|
        invariant outbox == old(outbox) + BroadcastLog(order[..i], clients, ch, e)
      {
        var c := order[i];
        assert order[..i + 1][..i] == order[..i];
        if ch in clients[c].subs {
          SendToClient(c, e);
        }
        i := i + 1;
      }
      assert order[..i] == order;
    }

    /** `handleSubscribe`: re-check the channel, then add it and ack `subscribed`; a repeat leaves the set as is. */
    method HandleSubscribe(c: ConnId, ch: ChannelId, publicChannels: set<ChannelId>)
      requires Valid() && c in clients
      modifies this`clients, this`outbox
      ensures Valid()
      ensures ch in publicChannels ==>
        && clients == old(clients)[c := old(clients)[c].(subs := old(clients)[c].subs + {ch})]
        && outbox == old(outbox) + Reply(old(clients), c, Subscribed(ch))
      ensures ch !in publicChannels ==>
        && clients == old(clients)
        && outbox == old(outbox) + Reply(old(clients), c, Error(AccessDenied))
    {
      if ch !in publicChannels {
        SendToClient(c, Error(AccessDenied));
        return;
      }
      clients := clients[c := clients[c].(subs := clients[c].subs + {ch})];
      SendToClient(c, Subscribed(ch));
    }

    /** `handleUnsubscribe`: remove (a no-op when absent) and always ack `unsubscribed`. */
    method HandleUnsubscribe(c: ConnId, ch: ChannelId)
      requires Valid() && c in clients
      modifies this`clients, this`outbox
      ensures Valid()
      ensures clients == old(clients)[c := old(clients)[c].(subs := old(clients)[c].subs - {ch})]
      ensures outbox == old(outbox) + Reply(old(clients), c, Unsubscribed(ch))
    {
      clients := clients[c := clients[c].(subs := clients[c].subs - {ch})];
      SendToClient(c, Unsubscribed(ch));
    }

    /** `handleChatMessage`: skip empty content; store, then broadcast; on a failed store tell the sender only. */
    method HandleChatMessage(c: ConnId, ch: ChannelId, content: Option<string>, persisted: Option<int>)
      requires Valid() && c in clients
      modifies this`outbox
      ensures outbox == old(outbox) + ChatLog(order, clients, c, ch, content, persisted)
    {
      if content.None? || content.value == "" {
        return;
      }
      if persisted.None? {
        SendToClient(c, Error(FailedToSave));
        return;
      }
      var stored := StoredMessage(persisted.value, ch, clients[c].userId, content.value);
      BroadcastToChannel(ch, NewMessage(ch, stored));
    }

    /**
     * The socket's `message` handler and `handleMessage`: an unparsable
     * frame gets "Failed to process message"; every action, unsubscribe and
     * typing included, first passes the channel check; then dispatch.
     * `lookupFails` says that a channel lookup of this frame (the check,
     * or the re-check of a subscribe) throws: the handler's catch then
     * answers "Failed to process message" and nothing changes.
     */
    method HandleFrame(c: ConnId, frame: Option<Frame>, lookupFails: bool, publicChannels: set<ChannelId>, persisted: Option<int>)
      requires Valid() && c in clients
      modifies this`clients, this`outbox
      ensures Valid()
      ensures frame.None? || lookupFails ==>
        clients == old(clients) && outbox == old(outbox) + Reply(old(clients), c, Error(FailedToProcess))
      ensures frame.Some? && !lookupFails && !Accessible(frame.value, publicChannels) ==>
        clients == old(clients) && outbox == old(outbox) + Reply(old(clients), c, Error(AccessDenied))
      ensures frame.Some? && !lookupFails && Accessible(frame.value, publicChannels) ==>
        var f, ch, conn := frame.value, frame.value.channelId.value, old(clients)[c];
        && (f.action == "message" ==>
              clients == old(clients) && outbox == old(outbox) + ChatLog(old(order), old(clients), c, ch, f.content, persisted))
        && (f.action == "subscribe" ==>
              clients == old(clients)[c := conn.(subs := conn.subs + {ch})] &&
              outbox == old(outbox) + Reply(old(clients), c, Subscribed(ch)))
        && (f.action == "unsubscribe" ==>
              clients == old(clients)[c := conn.(subs := conn.subs - {ch})] &&
              outbox == old(outbox) + Reply(old(clients), c, Unsubscribed(ch)))
        && (f.action == "typing" ==>
              clients == old(clients) && outbox == old(outbox) + BroadcastLog(old(order), old(clients), ch, Typing(ch, conn.userId)))
        && (f.action !in {"message", "subscribe", "unsubscribe", "typing"} ==>
              clients == old(clients) && outbox == old(outbox) + Reply(old(clients), c, Error(UnknownType)))
    {
      if frame.None? || lookupFails {
        SendToClient(c, Error(FailedToProcess));
        return;
      }
      var f := frame.value;
      if !Accessible(f, publicChannels) {
        SendToClient(c, Error(AccessDenied));
        return;
      }
      var ch := f.channelId.value;
      if f.action == "message" {
        HandleChatMessage(c, ch, f.content, persisted);
      } else if f.action == "subscribe" {
        HandleSubscribe(c, ch, publicChannels);
      } else if f.action == "unsubscribe" {
        HandleUnsubscribe(c, ch);
      } else if f.action == "typing" {
        BroadcastToChannel(ch, Typing(ch, clients[c].userId));
      } else {
        SendToClient(c, Error(UnknownType));
      }
    }

    /** The socket's `pong` handler sets `isAlive`; nothing else in the hub reads it. */
    method OnPong(c: ConnId)
      requires Valid()
      modifies this`clients
      ensures Valid()
      ensures c in old(clients) ==> clients == old(clients)[c := old(clients)[c].(alive := true)]
      ensures c !in old(clients) ==> clients == old(clients)
    {
      if c in clients {
        clients := clients[c := clients[c].(alive := true)];
      }
    }

    /** The transport moves a socket out of OPEN (closing or closed) before its `close` event is handled. */
    method SocketLeavesOpen(c: ConnId)
      requires Valid()
      modifies this`clients
      ensures Valid()
      ensures c in old(clients) ==> clients == old(clients)[c := old(clients)[c].(open := false)]
      ensures c !in old(clients) ==> clients == old(clients)
    {
      if c in clients {
        clients := clients[c := clients[c].(open := false)];
      }
    }

    /**
     * One tick of the 30 s interval: every client whose socket is not OPEN is
     * disconnected; the others are pinged, and a ping that throws (the
     * clients in `pingFails`) disconnects that client.
     */
    method Sweep(pingFails: set<ConnId>)
      requires Valid() && pingInterval
      modifies this`clients, this`order, this`outbox, this`terminated
      ensures Valid()
      ensures forall c :: c in clients <==> Survives(old(clients), c, pingFails)
      ensures forall c :: c in clients ==> c in old(clients) && clients[c] == old(clients)[c]
      ensures order == SweepKeep(old(order), old(clients), pingFails)
      ensures outbox == old(outbox) + Pings(order)
      ensures terminated == old(terminated) + SweepGone(old(order), old(clients), pingFails)
    {
      var snap := order;
      ghost var m0 := clients;
      var i := 0;
      SweepInvInit(clients, order, nextId, outbox, terminated, pingFails);
      while i < |snap|
        invariant 0 <= i <= |snap|
        invariant SweepInv(clients, order, nextId, outbox, terminated, snap, i, m0, old(outbox), old(terminated), pingFails)
      {
        ghost var (c0, r0, u0, t1) := (clients, order, outbox, terminated);
        assert snap[i] in order by { assert snap[i] == snap[i..][0]; }
        SweepVisit(snap[i], pingFails);
        SweepInvStep(c0, r0, nextId, u0, t1, clients, order, outbox, terminated, snap, i, m0, old(outbox), old(terminated), pingFails);
        i := i + 1;
      }
      SweepInvDone(clients, order, nextId, outbox, terminated, snap, m0, old(outbox), old(terminated), pingFails);
    }

    /**
     * The sweep's callback for one client: a socket that is not OPEN is
     * disconnected; otherwise it is pinged, and a ping that throws
     * disconnects it.
     */
    method SweepVisit(c: ConnId, pingFails: set<ConnId>)
      requires Valid() && c in clients
      modifies this`clients, this`order, this`outbox, this`terminated
      ensures Valid()
      ensures Survives(old(clients), c, pingFails) ==>
        && clients == old(clients) && order == old(order) && terminated == old(terminated)
        && outbox == old(outbox) + [Delivery(c, Ping)]
      ensures !Survives(old(clients), c, pingFails) ==>
        && clients == old(clients) - {c} && order == Without(old(order), c)
        && terminated == old(terminated) + {c} && outbox == old(outbox)
    {
      if !clients[c].open {
        HandleDisconnect(c);
      } else if c in pingFails {
        HandleDisconnect(c);
      } else {
        outbox := outbox + [Delivery(c, Ping)];
      }
    }

    /** `cleanup`: stop the interval, terminate every socket, clear the registry. */
    method Cleanup()
      requires Valid()
      modifies this`clients, this`order, this`terminated, this`pingInterval
      ensures Valid()
      ensures clients == map[] && order == [] && !pingInterval
      ensures terminated == old(terminated) + old(clients).Keys
    {
      var dead: set<ConnId> := {};
      var i := 0;
      while i < |order|
        invariant 0 <= i <= |order|
        invariant dead == set c | c in order[..i]
      {
        assert order[..i + 1] == order[..i] + [order[i]];
        dead := dead + {order[i]};
        i := i + 1;
      }
      assert order[..i] == order;
      terminated := terminated + dead;
      pingInterval := false;
      clients, order := map[], [];
    }
  }

  /**
   * Scenario: a subscriber of channel 42 gets exactly one `message` event
   * when another client posts "hi" there; a client subscribed only to
   * channel 1 gets nothing.
   */
  method PostReachesOnlySubscribers() returns (toSubscriber: nat, toPoster: nat, toBystander: nat)
    ensures toSubscriber == 1 && toPoster == 0 && toBystander == 0
  {
    var hub := new MessageServer();
    var a := hub.Upgrade(Some(7));
    var b := hub.Upgrade(Some(8));
    var z := hub.Upgrade(Some(9));
    var channels := {1, 42};
    hub.HandleFrame(a.id, Some(Frame("subscribe", Some(42), None)), false, channels, None);
    hub.HandleFrame(z.id, Some(Frame("subscribe", Some(1), None)), false, channels, None);
    var before := hub.outbox;
    hub.HandleFrame(b.id, Some(Frame("message", Some(42), Some("hi"))), false, channels, Some(500));
    var posted := hub.outbox[|before|..];
    assert hub.outbox == before + posted;
    BroadcastExactlyOnce(hub.order, hub.clients, 42, NewMessage(42, StoredMessage(500, 42, 8, "hi")), a.id);
    BroadcastExactlyOnce(hub.order, hub.clients, 42, NewMessage(42, StoredMessage(500, 42, 8, "hi")), b.id);
    BroadcastExactlyOnce(hub.order, hub.clients, 42, NewMessage(42, StoredMessage(500, 42, 8, "hi")), z.id);
    toSubscriber, toPoster, toBystander := CountTo(posted, a.id), CountTo(posted, b.id), CountTo(posted, z.id);
  }

  /**
   * Scenario: the keepalive frame `{action: 'ping'}` that the browser
   * client sends names no channel, so it fails the channel check and
   * its sender gets an error back, never a `pong`.  This takes the
   * lookup on an absent `channelId` to find no row; a driver that
   * rejected the absent value instead would throw, and the answer would
   * be "Failed to process message" (`lookupFails`), still not a `pong`.
   */
  method ClientPingIsRefused() returns (replies: seq<Delivery>)
    ensures |replies| == 1 && replies[0].event == Error(AccessDenied)
  {
    var hub := new MessageServer();
    var a := hub.Upgrade(Some(7));
    var before := hub.outbox;
    hub.HandleFrame(a.id, Some(Frame("ping", None, None)), false, {1}, None);
    replies := hub.outbox[|before|..];
  }
}
