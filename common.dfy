/** Shared vocabulary: optional values, JavaScript truthiness of optional
    strings, the per-request session and the application's page paths. */
module Common {

  datatype Option<+T> = None | Some(value: T)

  /** `!!x` for an optional string: absent (null/undefined) and "" are falsy. */
  predicate Truthy(s: Option<string>)
  {
    s.Some? && s.value != ""
  }

  /** What the authentication provider reports for the current request. */
  datatype Session = Session(userId: Option<string>, orgId: Option<string>)

  /** The common guard of every handler: `!userId || !orgId` is refused. */
  predicate Authorized(s: Session)
  {
    Truthy(s.userId) && Truthy(s.orgId)
  }

  /** The organization's home page, `/organization/{orgId}`. */
  function OrgPath(orgId: string): (p: string)
    ensures |p| == |"/organization/"| + |orgId|
    ensures p[..|"/organization/"|] == "/organization/" && p[|"/organization/"|..] == orgId
  {
    "/organization/" + orgId
  }

  /** The board page, `/board/{boardId}`. */
  function BoardPath(boardId: string): (p: string)
    ensures |p| == |"/board/"| + |boardId|
    ensures p[..|"/board/"|] == "/board/" && p[|"/board/"|..] == boardId
  {
    "/board/" + boardId
  }
}
