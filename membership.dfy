/** HTTP status codes the route handlers answer with. */
module Http {
  const Ok: int := 200
  const Created: int := 201
  const BadRequest: int := 400
  const Forbidden: int := 403
  const NotFound: int := 404
  const ServerError: int := 500
}

/**
 * The `workspace_members` table as the route handlers query it: a list of
 * rows (the schema puts no unique constraint on workspace and user, so a
 * pair may occur twice), the first-match lookup `findFirst`, and the role
 * tests the handlers apply to the row they find.
 */
module Membership {
  import opened Wrappers

  type UserId = int
  type WorkspaceId = int

  datatype MemberRow = MemberRow(workspaceId: WorkspaceId, userId: UserId, role: string)

  predicate Matches(row: MemberRow, ws: WorkspaceId, u: UserId) {
    row.workspaceId == ws && row.userId == u
  }

  /** `findFirst` on workspace and user: a matching row, if any (the query has no ordering). */
  function FindMember(rows: seq<MemberRow>, ws: WorkspaceId, u: UserId): (r: Option<MemberRow>)
    ensures r.Some? ==> r.value in rows && Matches(r.value, ws, u)
    ensures r.None? <==> forall row :: row in rows ==> !Matches(row, ws, u)
  {
    if rows == [] then None
    else if Matches(rows[0], ws, u) then Some(rows[0])
    else FindMember(rows[1..], ws, u)
  }

  /** `role === 'owner' || role === 'admin'`. */
  predicate IsAdminRole(role: string) {
    role == "owner" || role == "admin"
  }

  /** The check shared by channel update, channel archive and workspace update: a row exists and its role is owner or admin. */
  predicate CanAdminister(rows: seq<MemberRow>, ws: WorkspaceId, u: UserId) {
    var m := FindMember(rows, ws, u);
    m.Some? && IsAdminRole(m.value.role)
  }

  /** At most one row per workspace and user: what a unique index would enforce. */
  ghost predicate UniqueMembership(rows: seq<MemberRow>) {
    forall i, j :: 0 <= i < j < |rows| ==> !Matches(rows[j], rows[i].workspaceId, rows[i].userId)
  }

  /** How many rows `findMany` on workspace `ws` and user `u` returns. */
  function CountRows(rows: seq<MemberRow>, ws: WorkspaceId, u: UserId): nat {
    if rows == [] then 0
    else (if Matches(rows[0], ws, u) then 1 else 0) + CountRows(rows[1..], ws, u)
  }

  /** How many rows `findMany` on workspace `ws` and `userId IN [u, t]` returns. */
  function PairRows(rows: seq<MemberRow>, ws: WorkspaceId, u: UserId, t: UserId): nat {
    if rows == [] then 0
    else (if Matches(rows[0], ws, u) || Matches(rows[0], ws, t) then 1 else 0) + PairRows(rows[1..], ws, u, t)
  }

  /** The rows of the pair are the rows of each user, once each when the users are the same. */
  lemma {:induction false} PairRowsSplit(rows: seq<MemberRow>, ws: WorkspaceId, u: UserId, t: UserId)
    ensures PairRows(rows, ws, u, t) == if u == t then CountRows(rows, ws, u) else CountRows(rows, ws, u) + CountRows(rows, ws, t)
  {
    if rows != [] {
      PairRowsSplit(rows[1..], ws, u, t);
    }
  }

  /** With unique membership, a user has one row in a workspace if a member and none otherwise. */
  lemma {:induction false} CountRowsUnique(rows: seq<MemberRow>, ws: WorkspaceId, u: UserId)
    requires UniqueMembership(rows)
    ensures CountRows(rows, ws, u) == if FindMember(rows, ws, u).Some? then 1 else 0
  {
    if rows != [] {
      assert UniqueMembership(rows[1..]) by {
        forall i, j | 0 <= i < j < |rows[1..]|
          ensures !Matches(rows[1..][j], rows[1..][i].workspaceId, rows[1..][i].userId)
        {
          assert rows[1..][i] == rows[i + 1] && rows[1..][j] == rows[j + 1];
        }
      }
      CountRowsUnique(rows[1..], ws, u);
      if Matches(rows[0], ws, u) {
        forall row | row in rows[1..] ensures !Matches(row, ws, u) {
          var j :| 0 <= j < |rows[1..]| && rows[1..][j] == row;
          assert rows[j + 1] == row;
        }
      }
    }
  }

  /**
   * With unique membership, the DM check `memberships.length === 2`
   * holds exactly when the two users differ and both are members.
   */
  lemma PairRowsTwo(rows: seq<MemberRow>, ws: WorkspaceId, u: UserId, t: UserId)
    requires UniqueMembership(rows)
    ensures PairRows(rows, ws, u, t) == 2 <==> u != t && FindMember(rows, ws, u).Some? && FindMember(rows, ws, t).Some?
  {
    PairRowsSplit(rows, ws, u, t);
    CountRowsUnique(rows, ws, u);
    CountRowsUnique(rows, ws, t);
  }
}
