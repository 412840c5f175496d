/**
 * The decisions of server/routes/messages.ts.  Each handler is a function
 * from the request (already parsed: None stands for a body the schema
 * rejects) and the rows its lookups return, to the response status and
 * the writes it performs, in order.  The acting user is a parameter.
 */
module MessageRoutes {
  import opened Wrappers
  import opened Sequences
  import opened Http
  import opened Membership

  type ChannelId = int
  type MessageId = int

  /** The rich message body (`blocks`, `formattedText`, `rawText`), stored as given. */
  type Content = string

  datatype Channel = Channel(id: ChannelId, workspaceId: WorkspaceId)
  datatype StoredMessage = StoredMessage(id: MessageId, channelId: ChannelId, userId: UserId)
  datatype Mention = Mention(userId: UserId, offset: int, length: int)
  datatype CreateBody = CreateBody(content: Content, parentId: Option<MessageId>, mentions: Option<seq<Mention>>)
  datatype Reaction = Reaction(id: int, messageId: MessageId, emoji: string, userIds: seq<UserId>)

  datatype Write =
    | InsertMessage(channelId: ChannelId, userId: UserId, content: Content, parentId: Option<MessageId>, rootMessageId: Option<MessageId>)
    | InsertMention(messageId: MessageId, mentionedUser: UserId, mentionOffset: int, mentionLength: int)
    | UpdateMessage(id: MessageId, newContent: Content, isEdited: bool, editedAt: int)
    | InsertReaction(reactionMessageId: MessageId, emoji: string, userIds: seq<UserId>)
    | UpdateReaction(reactionId: int, newUserIds: seq<UserId>)
    | DeleteReaction(deletedId: int)

  datatype Outcome = Outcome(status: int, writes: seq<Write>)

  const DefaultLimit: int := 50
  const MaxLimit: int := 100

  /**
   * `Math.min(parseInt(limit) || 50, 100)`; `param` is the parsed number
   * (None for a missing or unparsable parameter).  A negative number
   * passes through.
   */
  function PageLimit(param: Option<int>): (r: int)
    ensures r <= MaxLimit
    ensures param.None? || param == Some(0) ==> r == DefaultLimit
    ensures param.Some? && param.value != 0 && param.value <= MaxLimit ==> r == param.value
    ensures param.Some? && param.value > MaxLimit ==> r == MaxLimit
  {
    var n := if param.None? || param.value == 0 then DefaultLimit else param.value;
    if n < MaxLimit then n else MaxLimit
  }

  /** A limit the clamp produced is left as it is by a second clamp. */
  lemma PageLimitIdempotent(param: Option<int>)
    ensures PageLimit(Some(PageLimit(param))) == PageLimit(param)
  {
  }

  /** The channel check of list and create: 404 for a missing channel before 403 for a non-member. */
  function ChannelAccess(channels: map<ChannelId, Channel>, members: seq<MemberRow>, channelId: ChannelId, userId: UserId): (status: int)
    ensures channelId !in channels ==> status == NotFound
    ensures channelId in channels ==>
      (status == Forbidden <==> FindMember(members, channels[channelId].workspaceId, userId).None?)
    ensures status == Ok <==> channelId in channels && FindMember(members, channels[channelId].workspaceId, userId).Some?
  {
    if channelId !in channels then NotFound
    else if FindMember(members, channels[channelId].workspaceId, userId).None? then Forbidden
    else Ok
  }

  /** `GET /api/channels/:channelId/messages`: the status and, on success, the page size. */
  function ListMessages(userId: UserId, channelId: ChannelId, limitParam: Option<int>,
                        channels: map<ChannelId, Channel>, members: seq<MemberRow>): (r: (int, Option<int>))
    ensures r.0 == ChannelAccess(channels, members, channelId, userId)
    ensures r.1.Some? <==> r.0 == Ok
    ensures r.1.Some? ==> r.1.value == PageLimit(limitParam) && r.1.value <= MaxLimit
  {
    var status := ChannelAccess(channels, members, channelId, userId);
    if status == Ok then (Ok, Some(PageLimit(limitParam))) else (status, None)
  }

  /** The mention rows for a new message, one per mention, in order. */
  function MentionRows(messageId: MessageId, mentions: seq<Mention>): (r: seq<Write>)
    ensures |r| == |mentions|
    ensures forall i :: 0 <= i < |r| ==>
      r[i] == InsertMention(messageId, mentions[i].userId, mentions[i].offset, mentions[i].length)
  {
    if mentions == [] then []
    else [InsertMention(messageId, mentions[0].userId, mentions[0].offset, mentions[0].length)] + MentionRows(messageId, mentions[1..])
  }

  /**
   * `POST /api/channels/:channelId/messages`: the body is checked first
   * (400), then the channel (404), then membership (403); a created
   * message's thread root is its parent (`rootMessageId = parentId`), and
   * mention rows are written only for a non-empty mention list.
   * `newId` is the id the insert returns.
   */
  function CreateMessage(userId: UserId, channelId: ChannelId, body: Option<CreateBody>,
                         channels: map<ChannelId, Channel>, members: seq<MemberRow>, newId: MessageId): (o: Outcome)
    ensures body.None? ==> o == Outcome(BadRequest, [])
    ensures body.Some? && o.status != Created ==>
      o.status == ChannelAccess(channels, members, channelId, userId) && o.writes == []
    ensures o.status == Created <==> body.Some? && ChannelAccess(channels, members, channelId, userId) == Ok
    ensures o.status == Created ==>
      var b := body.value;
      && |o.writes| >= 1
      && o.writes[0] == InsertMessage(channelId, userId, b.content, b.parentId, b.parentId)
      && (|o.writes| > 1 <==> b.mentions.Some? && |b.mentions.value| > 0)
      && o.writes[1..] == (if b.mentions.Some? then MentionRows(newId, b.mentions.value) else [])
  {
    if body.None? then Outcome(BadRequest, [])
    else
      var access := ChannelAccess(channels, members, channelId, userId);
      if access != Ok then Outcome(access, [])
      else
        var b := body.value;
        var insert := InsertMessage(channelId, userId, b.content, b.parentId, b.parentId);
        if b.mentions.Some? && |b.mentions.value| > 0 then Outcome(Created, [insert] + MentionRows(newId, b.mentions.value))
        else Outcome(Created, [insert])
  }

  /**
   * `PATCH /api/messages/:messageId`: 400 for a bad body, 404 for a
   * missing message, 403 unless the user wrote it; otherwise the content
   * is replaced and the message marked edited at `now`.
   */
  function EditMessage(userId: UserId, messageId: MessageId, body: Option<Content>, found: Option<StoredMessage>, now: int): (o: Outcome)
    ensures body.None? ==> o == Outcome(BadRequest, [])
    ensures body.Some? && found.None? ==> o == Outcome(NotFound, [])
    ensures body.Some? && found.Some? && found.value.userId != userId ==> o == Outcome(Forbidden, [])
    ensures o.writes != [] <==> o.status == Ok
    ensures o.status == Ok ==>
      body.Some? && found.Some? && found.value.userId == userId &&
      o.writes == [UpdateMessage(messageId, body.value, true, now)]
  {
    if body.None? then Outcome(BadRequest, [])
    else if found.None? then Outcome(NotFound, [])
    else if found.value.userId != userId then Outcome(Forbidden, [])
    else Outcome(Ok, [UpdateMessage(messageId, body.value, true, now)])
  }

  /** `!emoji`: a missing or empty emoji. */
  predicate MissingEmoji(emoji: Option<string>) {
    emoji.None? || emoji.value == ""
  }

  /**
   * `POST /api/messages/:messageId/reactions`: 400 for a missing emoji
   * before any lookup; an existing reaction gains the user only if the
   * user is not already in it; a new emoji creates a reaction holding
   * just the user (201).  `found` is the reaction on this message with
   * this emoji.
   */
  function AddReaction(userId: UserId, messageId: MessageId, emoji: Option<string>, found: Option<Reaction>): (o: Outcome)
    ensures MissingEmoji(emoji) ==> o == Outcome(BadRequest, [])
    ensures !MissingEmoji(emoji) && found.None? ==>
      o == Outcome(Created, [InsertReaction(messageId, emoji.value, [userId])])
    ensures !MissingEmoji(emoji) && found.Some? && userId in found.value.userIds ==> o == Outcome(Ok, [])
    ensures !MissingEmoji(emoji) && found.Some? && userId !in found.value.userIds ==>
      o == Outcome(Ok, [UpdateReaction(found.value.id, found.value.userIds + [userId])])
  {
    if MissingEmoji(emoji) then Outcome(BadRequest, [])
    else if found.Some? then
      if userId !in found.value.userIds then Outcome(Ok, [UpdateReaction(found.value.id, found.value.userIds + [userId])])
      else Outcome(Ok, [])
    else Outcome(Created, [InsertReaction(messageId, emoji.value, [userId])])
  }

  /**
   * `DELETE /api/messages/:messageId/reactions/:emoji`: 404 for a missing
   * reaction; otherwise every occurrence of the user is filtered out,
   * and the reaction is deleted if nobody is left.  A user not in the
   * reaction changes nothing.
   */
  function RemoveReaction(userId: UserId, found: Option<Reaction>): (o: Outcome)
    ensures found.None? ==> o == Outcome(NotFound, [])
    ensures found.Some? ==> o.status == Ok
    ensures found.Some? && userId !in found.value.userIds ==> o.writes == []
    ensures found.Some? && userId in found.value.userIds ==>
      var rest := Without(found.value.userIds, userId);
      userId !in rest &&
      o.writes == (if rest == [] then [DeleteReaction(found.value.id)] else [UpdateReaction(found.value.id, rest)])
  {
    if found.None? then Outcome(NotFound, [])
    else
      var r := found.value;
      if userId in r.userIds then
        var rest := Without(r.userIds, userId);
        if |rest| == 0 then Outcome(Ok, [DeleteReaction(r.id)]) else Outcome(Ok, [UpdateReaction(r.id, rest)])
      else Outcome(Ok, [])
  }

  /** The reaction row after `writes` run against `found`; `newId` is the id an insert returns. */
  function ReactionAfter(found: Option<Reaction>, writes: seq<Write>, newId: int): Option<Reaction>
    decreases |writes|
  {
    if writes == [] then found
    else
      var next :=
        match writes[0]
        case InsertReaction(m, e, ids) => Some(Reaction(newId, m, e, ids))
        case UpdateReaction(id, ids) => if found.Some? && found.value.id == id then Some(found.value.(userIds := ids)) else found
        case DeleteReaction(id) => if found.Some? && found.value.id == id then None else found
        case _ => found;
      ReactionAfter(next, writes[1..], newId)
  }

  /** Adding the same reaction twice writes nothing the second time. */
  lemma AddReactionIdempotent(userId: UserId, messageId: MessageId, emoji: Option<string>, found: Option<Reaction>, newId: int)
    requires found.Some? ==> found.value.messageId == messageId && Some(found.value.emoji) == emoji
    ensures
      var first := AddReaction(userId, messageId, emoji, found);
      var second := AddReaction(userId, messageId, emoji, ReactionAfter(found, first.writes, newId));
      second.writes == [] && (!MissingEmoji(emoji) ==> second.status == Ok)
  {
  }

  /**
   * A reaction added and then removed by a user who was not in it leaves
   * the reaction as it was, or leaves no reaction when the add created it.
   */
  lemma AddThenRemove(userId: UserId, messageId: MessageId, emoji: string, found: Option<Reaction>, newId: int)
    requires emoji != ""
    requires found.Some? ==> found.value.messageId == messageId && found.value.emoji == emoji
    requires found.Some? ==> userId !in found.value.userIds && found.value.userIds != []
    ensures
      var added := ReactionAfter(found, AddReaction(userId, messageId, Some(emoji), found).writes, newId);
      ReactionAfter(added, RemoveReaction(userId, added).writes, newId) == found
  {
    if found.Some? {
      var ids := found.value.userIds;
      assert Without(ids + [userId], userId) == ids by {
        WithoutConcat(ids, [userId], userId);
        WithoutAbsent(ids, userId);
        assert Without([userId], userId) == [];
      }
    } else {
      assert Without([userId], userId) == [];
    }
  }

  /** Neither handler leaves a reaction row with nobody in it. */
  lemma ReactionsNeverEmpty(userId: UserId, messageId: MessageId, emoji: Option<string>, found: Option<Reaction>, newId: int)
    requires found.Some? ==> found.value.userIds != []
    ensures
      var added := ReactionAfter(found, AddReaction(userId, messageId, emoji, found).writes, newId);
      added.Some? ==> added.value.userIds != []
    ensures
      var removed := ReactionAfter(found, RemoveReaction(userId, found).writes, newId);
      removed.Some? ==> removed.value.userIds != []
  {
  }
}
