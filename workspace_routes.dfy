/**
 * The workspace handlers of server/routes.ts: the workspace list with its
 * `isAdmin` flag, create-as-owner, switching the session's active
 * workspace, and the permission decisions of get, update and delete.
 * The acting user is a parameter; the tables are values passed in.
 */
module WorkspaceRoutes {
  import opened Wrappers
  import opened Http
  import opened Membership

  datatype Workspace = Workspace(id: WorkspaceId, name: string, ownerId: UserId)

  /** A create or update body the schema accepted. */
  datatype WorkspaceData = WorkspaceData(name: Option<string>)

  /** The three permission flags of a membership row. */
  datatype Permissions = Permissions(canManageUsers: bool, canManageBilling: bool, canConfigureWorkspace: bool)

  datatype Write =
    | InsertWorkspace(newId: WorkspaceId, name: string, ownerId: UserId)
    | InsertMember(row: MemberRow, permissions: Permissions)
    | UpdateWorkspace(updatedId: WorkspaceId, newName: Option<string>)
    | DeleteWorkspace(deletedId: WorkspaceId)

  /** A workspace as the list and the create response describe it. */
  datatype Summary = Summary(id: WorkspaceId, role: string, memberCount: nat, isAdmin: bool)

  datatype Outcome = Outcome(status: int, writes: seq<Write>)

  const Owner: string := "owner"
  const AllPermissions: Permissions := Permissions(true, true, true)

  /**
   * `GET /api/workspaces`: one entry per membership row of the user whose
   * workspace and owner exist (the inner joins), with `isAdmin` set for
   * owners and admins and `memberCount` 0.
   */
  function ListWorkspaces(userId: UserId, members: seq<MemberRow>, workspaces: map<WorkspaceId, Workspace>, users: set<UserId>): (r: seq<Summary>)
    ensures |r| <= |members|
    ensures forall e :: e in r ==> e.isAdmin == IsAdminRole(e.role) && e.memberCount == 0
    ensures forall e :: e in r ==> MemberRow(e.id, userId, e.role) in members && e.id in workspaces
    ensures forall row :: (row in members && row.userId == userId && row.workspaceId in workspaces &&
                           workspaces[row.workspaceId].ownerId in users) ==> Summary(row.workspaceId, row.role, 0, IsAdminRole(row.role)) in r
  {
    if members == [] then []
    else
      var row := members[0];
      var rest := ListWorkspaces(userId, members[1..], workspaces, users);
      if row.userId == userId && row.workspaceId in workspaces && workspaces[row.workspaceId].ownerId in users
      then [Summary(row.workspaceId, row.role, 0, IsAdminRole(row.role))] + rest
      else rest
  }

  /** The create schema: a non-empty name is required. */
  predicate ValidCreate(body: WorkspaceData) {
    body.name.Some? && body.name.value != ""
  }

  /**
   * `POST /api/workspaces`: 400 for a bad body; otherwise the workspace
   * is inserted, then its creator as a member with role owner and every
   * permission, and the response says owner, one member, admin.
   * `newId` is the id the workspace insert returns.
   */
  function CreateWorkspace(userId: UserId, body: WorkspaceData, newId: WorkspaceId): (r: (Outcome, Option<Summary>))
    ensures !ValidCreate(body) ==> r == (Outcome(BadRequest, []), None)
    ensures ValidCreate(body) ==>
      r.0.status == Created &&
      r.0.writes == [InsertWorkspace(newId, body.name.value, userId), InsertMember(MemberRow(newId, userId, Owner), AllPermissions)] &&
      r.1 == Some(Summary(newId, Owner, 1, true))
  {
    if !ValidCreate(body) then (Outcome(BadRequest, []), None)
    else
      (Outcome(Created, [InsertWorkspace(newId, body.name.value, userId), InsertMember(MemberRow(newId, userId, Owner), AllPermissions)]),
       Some(Summary(newId, Owner, 1, true)))
  }

  /** The membership rows after `writes`: each inserted member is appended. */
  function MembersAfter(members: seq<MemberRow>, writes: seq<Write>): seq<MemberRow>
    decreases |writes|
  {
    if writes == [] then members
    else MembersAfter(if writes[0].InsertMember? then members + [writes[0].row] else members, writes[1..])
  }

  /** `GET /api/workspaces/:id`: 404 for a missing workspace, 403 unless the user is among its members, else its member count. */
  function GetWorkspace(userId: UserId, ws: WorkspaceId, workspaces: map<WorkspaceId, Workspace>, members: seq<MemberRow>): (r: (int, Option<nat>))
    ensures ws !in workspaces ==> r == (NotFound, None)
    ensures ws in workspaces && FindMember(members, ws, userId).None? ==> r == (Forbidden, None)
    ensures r.0 == Ok <==> ws in workspaces && FindMember(members, ws, userId).Some?
    ensures r.0 == Ok ==> r.1 == Some(MemberCount(members, ws)) && r.1.value >= 1
  {
    if ws !in workspaces then (NotFound, None)
    else if FindMember(members, ws, userId).None? then (Forbidden, None)
    else
      MemberCountPositive(members, ws, userId);
      (Ok, Some(MemberCount(members, ws)))
  }

  /** `stats.members`: the number of membership rows of the workspace. */
  function MemberCount(members: seq<MemberRow>, ws: WorkspaceId): nat {
    if members == [] then 0
    else (if members[0].workspaceId == ws then 1 else 0) + MemberCount(members[1..], ws)
  }

  lemma {:induction false} MemberCountPositive(members: seq<MemberRow>, ws: WorkspaceId, userId: UserId)
    requires FindMember(members, ws, userId).Some?
    ensures MemberCount(members, ws) >= 1
  {
    if !Matches(members[0], ws, userId) {
      MemberCountPositive(members[1..], ws, userId);
    }
  }

  /** The update schema: every field optional, but a name that is sent must not be empty. */
  predicate ValidUpdate(body: WorkspaceData) {
    body.name.None? || body.name.value != ""
  }

  /**
   * `PATCH /api/workspaces/:id`: 400 for a bad body, 403 unless the
   * user's row has role owner or admin, and 404 when the update matched
   * no workspace.
   */
  function UpdateWorkspaceRoute(userId: UserId, ws: WorkspaceId, body: Option<WorkspaceData>,
                                members: seq<MemberRow>, workspaces: map<WorkspaceId, Workspace>): (o: Outcome)
    ensures body.None? || !ValidUpdate(body.value) ==> o == Outcome(BadRequest, [])
    ensures body.Some? && ValidUpdate(body.value) && !CanAdminister(members, ws, userId) ==> o == Outcome(Forbidden, [])
    ensures o.status == Ok <==> body.Some? && ValidUpdate(body.value) && CanAdminister(members, ws, userId) && ws in workspaces
    ensures o.status == Ok ==> o.writes == [UpdateWorkspace(ws, body.value.name)]
    ensures o.status != Ok ==> o.writes == []
  {
    if body.None? || !ValidUpdate(body.value) then Outcome(BadRequest, [])
    else if !CanAdminister(members, ws, userId) then Outcome(Forbidden, [])
    else if ws !in workspaces then Outcome(NotFound, [])
    else Outcome(Ok, [UpdateWorkspace(ws, body.value.name)])
  }

  /** `DELETE /api/workspaces/:id`: only a row with role owner may delete (an admin gets 403); 404 when nothing was deleted. */
  function DeleteWorkspaceRoute(userId: UserId, ws: WorkspaceId, members: seq<MemberRow>, workspaces: map<WorkspaceId, Workspace>): (o: Outcome)
    ensures FindMember(members, ws, userId).None? || FindMember(members, ws, userId).value.role != Owner ==> o == Outcome(Forbidden, [])
    ensures o.status == Ok <==> FindMember(members, ws, userId).Some? && FindMember(members, ws, userId).value.role == Owner && ws in workspaces
    ensures o.status == Ok ==> o.writes == [DeleteWorkspace(ws)]
    ensures o.status != Ok ==> o.writes == []
  {
    var m := FindMember(members, ws, userId);
    if m.None? || m.value.role != Owner then Outcome(Forbidden, [])
    else if ws !in workspaces then Outcome(NotFound, [])
    else Outcome(Ok, [DeleteWorkspace(ws)])
  }

  /** Every membership row names an existing workspace (the foreign key with cascading delete). */
  ghost predicate ReferentialIntegrity(members: seq<MemberRow>, workspaces: map<WorkspaceId, Workspace>) {
    forall row :: row in members ==> row.workspaceId in workspaces
  }

  /** While membership rows only name existing workspaces, update and delete never answer 404. */
  lemma NoNotFoundWithIntegrity(userId: UserId, ws: WorkspaceId, body: Option<WorkspaceData>,
                                members: seq<MemberRow>, workspaces: map<WorkspaceId, Workspace>)
    requires ReferentialIntegrity(members, workspaces)
    ensures UpdateWorkspaceRoute(userId, ws, body, members, workspaces).status != NotFound
    ensures DeleteWorkspaceRoute(userId, ws, members, workspaces).status != NotFound
  {
  }

  /**
   * The creator of a new workspace may update and delete it: once the
   * create's writes are applied, the creator's row is found with role
   * owner.  `newId` names no earlier row, as a fresh serial id does.
   */
  lemma {:induction false} CreatorAdministers(userId: UserId, name: string, newId: WorkspaceId,
                                              members: seq<MemberRow>, workspaces: map<WorkspaceId, Workspace>)
    requires name != ""
    requires forall row :: row in members ==> row.workspaceId != newId
    ensures
      var created := CreateWorkspace(userId, WorkspaceData(Some(name)), newId).0;
      var members' := MembersAfter(members, created.writes);
      var workspaces' := workspaces[newId := Workspace(newId, name, userId)];
      && UpdateWorkspaceRoute(userId, newId, Some(WorkspaceData(None)), members', workspaces').status == Ok
      && DeleteWorkspaceRoute(userId, newId, members', workspaces').status == Ok
  {
    var row := MemberRow(newId, userId, Owner);
    var members' := MembersAfter(members, CreateWorkspace(userId, WorkspaceData(Some(name)), newId).0.writes);
    assert members' == members + [row] by {
      var writes := [InsertWorkspace(newId, name, userId), InsertMember(row, AllPermissions)];
      assert MembersAfter(members, writes) == MembersAfter(members, writes[1..]);
      assert MembersAfter(members + [row], []) == members + [row];
    }
    FindAppended(members, row);
  }

  /** A row appended after rows that do not match it is the one `findFirst` finds. */
  lemma {:induction false} FindAppended(members: seq<MemberRow>, row: MemberRow)
    requires forall r :: r in members ==> r.workspaceId != row.workspaceId
    ensures FindMember(members + [row], row.workspaceId, row.userId) == Some(row)
  {
    if members != [] {
      assert (members + [row])[1..] == members[1..] + [row];
      FindAppended(members[1..], row);
    } else {
      assert (members + [row])[1..] == [];
    }
  }

  /** The session of the request, whose `activeWorkspaceId` switch sets. */
  class Session {
    var activeWorkspaceId: Option<WorkspaceId>

    constructor ()
      ensures activeWorkspaceId.None?
    {
      activeWorkspaceId := None;
    }
  }

  /**
   * `POST /api/workspaces/switch`: 400 unless `workspaceId` is a number,
   * 403 for a non-member, 500 without a session; otherwise the session's
   * active workspace becomes the requested one.  Only the success path
   * touches the session.
   */
  method SwitchWorkspace(userId: UserId, requested: Option<WorkspaceId>, members: seq<MemberRow>, session: Session?)
    returns (status: int)
    modifies session
    ensures requested.None? ==> status == BadRequest
    ensures requested.Some? && FindMember(members, requested.value, userId).None? ==> status == Forbidden
    ensures requested.Some? && FindMember(members, requested.value, userId).Some? && session == null ==> status == ServerError
    ensures status == Ok <==> requested.Some? && FindMember(members, requested.value, userId).Some? && session != null
    ensures status == Ok ==> session.activeWorkspaceId == requested
    ensures status != Ok && session != null ==> session.activeWorkspaceId == old(session.activeWorkspaceId)
  {
    if requested.None? {
      return BadRequest;
    }
    if FindMember(members, requested.value, userId).None? {
      return Forbidden;
    }
    if session == null {
      return ServerError;
    }
    session.activeWorkspaceId := requested;
    return Ok;
  }
}
