/**
 * The decisions of server/routes/channels.ts: who may list, create,
 * read, update and archive channels, the DM-creation decision tree, and
 * the shape of the rows the handlers insert.  As with the message
 * routes, each handler maps its parsed request and lookup results to a
 * status and the writes it performs; the acting user is a parameter.
 */
module ChannelRoutes {
  import opened Wrappers
  import opened Http
  import opened Membership

  type ChannelId = int

  datatype Channel = Channel(id: ChannelId, workspaceId: WorkspaceId, name: string, isPrivate: bool, isDm: bool)

  /** A message as the channel list sees it: id and creation time in milliseconds. */
  datatype ChannelMessage = ChannelMessage(id: int, createdAt: int)

  /** A create-channel body as sent: each field present or not. */
  datatype ChannelBody = ChannelBody(name: Option<string>, kind: Option<string>, topic: Option<string>, isPrivate: Option<bool>)

  /** A create-channel body the schema accepted. */
  datatype ChannelData = ChannelData(name: string, kind: string, topic: Option<string>, isPrivate: bool)

  /** An update-channel body as sent. */
  datatype ChannelPatch = ChannelPatch(name: Option<string>, topic: Option<string>)

  /** A channel row to insert. */
  datatype NewChannel = NewChannel(workspaceId: WorkspaceId, name: string, kind: string, topic: Option<string>,
                                   isPrivate: bool, isDm: bool, createdBy: UserId, dmMembers: seq<UserId>)

  datatype Write =
    | InsertChannel(row: NewChannel)
    | UpdateChannel(id: ChannelId, newName: Option<string>, newTopic: Option<string>)
    | ArchiveChannel(archivedId: ChannelId, archivedAt: int, archivedBy: UserId)

  datatype Outcome = Outcome(status: int, writes: seq<Write>)

  /** One entry of the channel list. */
  datatype Listed = Listed(id: ChannelId, lastMessage: Option<ChannelMessage>)

  /** The create-channel schema: a non-empty name and a type are required; `isPrivate` defaults to false. */
  function ParseCreate(body: ChannelBody): (r: Option<ChannelData>)
    ensures r.Some? <==> body.name.Some? && body.name.value != "" && body.kind.Some?
    ensures r.Some? ==>
      r.value.name == body.name.value && r.value.kind == body.kind.value &&
      r.value.topic == body.topic && r.value.isPrivate == (body.isPrivate == Some(true))
  {
    if body.name.None? || body.name.value == "" || body.kind.None? then None
    else Some(ChannelData(body.name.value, body.kind.value, body.topic, body.isPrivate.GetOr(false)))
  }

  /** The update-channel schema: every field optional, but a name that is sent must not be empty. */
  predicate ValidPatch(p: ChannelPatch) {
    p.name.None? || p.name.value != ""
  }

  /** The newest message of a channel (`orderBy desc(createdAt)`, `limit 1`), or null for none. */
  function Newest(msgs: seq<ChannelMessage>): (r: Option<ChannelMessage>)
    ensures r.None? <==> msgs == []
    ensures r.Some? ==> r.value in msgs && forall m :: m in msgs ==> m.createdAt <= r.value.createdAt
  {
    if msgs == [] then None
    else
      var rest := Newest(msgs[1..]);
      if rest.Some? && rest.value.createdAt > msgs[0].createdAt then rest else Some(msgs[0])
  }

  /** The list entries for the channels of workspace `ws`, at most one per channel row. */
  function Listing(ws: WorkspaceId, chans: seq<(Channel, seq<ChannelMessage>)>): (r: seq<Listed>)
    ensures |r| <= |chans|
    ensures forall k :: 0 <= k < |chans| && chans[k].0.workspaceId == ws ==> Listed(chans[k].0.id, Newest(chans[k].1)) in r
    ensures forall e :: e in r ==>
      exists k :: 0 <= k < |chans| && chans[k].0.workspaceId == ws && e == Listed(chans[k].0.id, Newest(chans[k].1))
  {
    if chans == [] then []
    else
      var rest := Listing(ws, chans[1..]);
      assert forall k :: 1 <= k < |chans| ==> chans[k] == chans[1..][k - 1];
      if chans[0].0.workspaceId == ws then [Listed(chans[0].0.id, Newest(chans[0].1))] + rest else rest
  }

  /** `GET /api/workspaces/:workspaceId/channels`: 403 for a non-member, else the channels with their newest message. */
  function ListChannels(userId: UserId, ws: WorkspaceId, members: seq<MemberRow>, chans: seq<(Channel, seq<ChannelMessage>)>): (r: (int, seq<Listed>))
    ensures FindMember(members, ws, userId).None? ==> r == (Forbidden, [])
    ensures FindMember(members, ws, userId).Some? ==> r == (Ok, Listing(ws, chans))
  {
    if FindMember(members, ws, userId).None? then (Forbidden, []) else (Ok, Listing(ws, chans))
  }

  /**
   * `POST /api/workspaces/:workspaceId/channels`: the body is checked
   * before membership (400, then 403); any member may create, and the
   * creator is recorded.  The route sets neither `isDm` nor the DM
   * members; the row records them as false and empty, the column
   * defaults this model assumes.
   */
  function CreateChannel(userId: UserId, ws: WorkspaceId, body: ChannelBody, members: seq<MemberRow>): (o: Outcome)
    ensures ParseCreate(body).None? ==> o == Outcome(BadRequest, [])
    ensures ParseCreate(body).Some? && FindMember(members, ws, userId).None? ==> o == Outcome(Forbidden, [])
    ensures o.status == Created <==> ParseCreate(body).Some? && FindMember(members, ws, userId).Some?
    ensures o.status == Created ==>
      var d := ParseCreate(body).value;
      o.writes == [InsertChannel(NewChannel(ws, d.name, d.kind, d.topic, d.isPrivate, false, userId, []))]
  {
    var data := ParseCreate(body);
    if data.None? then Outcome(BadRequest, [])
    else if FindMember(members, ws, userId).None? then Outcome(Forbidden, [])
    else
      var d := data.value;
      Outcome(Created, [InsertChannel(NewChannel(ws, d.name, d.kind, d.topic, d.isPrivate, false, userId, []))])
  }

  /** `GET /api/channels/:channelId`: 404 for a missing channel before 403 for a non-member of its workspace. */
  function GetChannel(userId: UserId, channelId: ChannelId, channels: map<ChannelId, Channel>, members: seq<MemberRow>): (status: int)
    ensures channelId !in channels ==> status == NotFound
    ensures status == Ok <==> channelId in channels && FindMember(members, channels[channelId].workspaceId, userId).Some?
    ensures status in {Ok, NotFound, Forbidden}
  {
    if channelId !in channels then NotFound
    else if FindMember(members, channels[channelId].workspaceId, userId).None? then Forbidden
    else Ok
  }

  /**
   * `PATCH /api/channels/:channelId`: 400 for a bad body, 404 for a
   * missing channel, 403 unless the user's row in the channel's workspace
   * has role owner or admin; otherwise name and topic are set.
   */
  function UpdateChannelRoute(userId: UserId, channelId: ChannelId, body: Option<ChannelPatch>,
                              channels: map<ChannelId, Channel>, members: seq<MemberRow>): (o: Outcome)
    ensures body.None? || !ValidPatch(body.value) ==> o == Outcome(BadRequest, [])
    ensures body.Some? && ValidPatch(body.value) && channelId !in channels ==> o == Outcome(NotFound, [])
    ensures o.status == Ok <==>
      body.Some? && ValidPatch(body.value) && channelId in channels &&
      CanAdminister(members, channels[channelId].workspaceId, userId)
    ensures o.status != Ok ==> o.writes == []
    ensures o.status == Ok ==> o.writes == [UpdateChannel(channelId, body.value.name, body.value.topic)]
  {
    if body.None? || !ValidPatch(body.value) then Outcome(BadRequest, [])
    else if channelId !in channels then Outcome(NotFound, [])
    else if !CanAdminister(members, channels[channelId].workspaceId, userId) then Outcome(Forbidden, [])
    else Outcome(Ok, [UpdateChannel(channelId, body.value.name, body.value.topic)])
  }

  /** `POST /api/channels/:channelId/archive`: 404, then 403 unless owner or admin; then stamped with time and user. */
  function ArchiveChannelRoute(userId: UserId, channelId: ChannelId, channels: map<ChannelId, Channel>,
                               members: seq<MemberRow>, now: int): (o: Outcome)
    ensures channelId !in channels ==> o == Outcome(NotFound, [])
    ensures o.status == Ok <==> channelId in channels && CanAdminister(members, channels[channelId].workspaceId, userId)
    ensures o.status != Ok ==> o.writes == []
    ensures o.status == Ok ==> o.writes == [ArchiveChannel(channelId, now, userId)]
  {
    if channelId !in channels then Outcome(NotFound, [])
    else if !CanAdminister(members, channels[channelId].workspaceId, userId) then Outcome(Forbidden, [])
    else Outcome(Ok, [ArchiveChannel(channelId, now, userId)])
  }

  /**
   * `POST /api/workspaces/:workspaceId/dms`.  `target` is `targetUserId`
   * (None when absent); `existingDm` is what the existing-DM lookup
   * returned; `targetName` is the target user's username, None when no
   * such user exists.
   */
  function CreateDm(userId: UserId, ws: WorkspaceId, target: Option<UserId>, members: seq<MemberRow>,
                    existingDm: Option<Channel>, targetName: Option<string>): (o: Outcome)
    ensures target.None? || target.value == 0 ==> o == Outcome(BadRequest, [])
    ensures target.Some? && target.value != 0 && PairRows(members, ws, userId, target.value) != 2 ==> o == Outcome(Forbidden, [])
    ensures o.status == Ok ==> existingDm.Some? && o.writes == []
    ensures o.status == NotFound ==> targetName.None? && o.writes == []
    ensures o.status == Created <==>
      target.Some? && target.value != 0 && PairRows(members, ws, userId, target.value) == 2 &&
      existingDm.None? && targetName.Some?
    ensures o.status == Created ==>
      o.writes == [InsertChannel(NewChannel(ws, targetName.value, "dm", None, true, true, userId, [userId, target.value]))]
  {
    if target.None? || target.value == 0 then Outcome(BadRequest, [])
    else if PairRows(members, ws, userId, target.value) != 2 then Outcome(Forbidden, [])
    else if existingDm.Some? then Outcome(Ok, [])
    else if targetName.None? then Outcome(NotFound, [])
    else Outcome(Created, [InsertChannel(NewChannel(ws, targetName.value, "dm", None, true, true, userId, [userId, target.value]))])
  }

  /**
   * With one membership row per user, a DM passes the membership check
   * exactly when both users are members and they are different users: a
   * DM with oneself is refused with 403.
   */
  lemma DmMembershipCheck(userId: UserId, ws: WorkspaceId, t: UserId, members: seq<MemberRow>,
                          existingDm: Option<Channel>, targetName: Option<string>)
    requires UniqueMembership(members) && t != 0
    ensures CreateDm(userId, ws, Some(t), members, existingDm, targetName).status != Forbidden <==>
      userId != t && FindMember(members, ws, userId).Some? && FindMember(members, ws, t).Some?
  {
    PairRowsTwo(members, ws, userId, t);
  }

  /**
   * The check counts rows, not users: without a unique index, a user
   * whose membership row occurs twice passes it for a target who is not
   * a member at all.
   */
  lemma DuplicateRowPassesDmCheck()
    ensures
      var members := [MemberRow(7, 1, "member"), MemberRow(7, 1, "member")];
      FindMember(members, 7, 2).None? && CreateDm(1, 7, Some(2), members, None, Some("bob")).status == Created
  {
    var members := [MemberRow(7, 1, "member"), MemberRow(7, 1, "member")];
    assert PairRows(members, 7, 1, 2) == 2 by {
      assert members[1..][1..] == [];
    }
  }
}
