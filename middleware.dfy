/** `requireAuth` and `requireRole` (server/src/middleware/auth.js): the bearer token is
    taken from the Authorization header, verified by the JSON Web Token library (a foreign
    call, passed in as `verify`) and projected to the caller every handler sees. */
module Middleware {
  import opened Common
  import opened Models

  /** The claims the login handler signs into a token. */
  datatype Payload = Payload(id: Id, name: string, email: string, role: Role, orgId: Option<Id>)

  /** `req.user`: the authenticated caller. */
  datatype Caller = Caller(id: Id, name: string, email: string, role: Role, orgId: Option<Id>)

  const BearerPrefix := "Bearer "
  const MissingToken := HttpError(401, "Missing Authorization token")
  const InvalidToken := HttpError(401, "Invalid or expired token")
  const Unauthorized := HttpError(401, "Unauthorized")
  const InsufficientRole := HttpError(403, "Forbidden: insufficient role")

  /** `req.user` built from a verified payload; a missing `orgId` becomes null. */
  function Project(p: Payload): Caller {
    Caller(p.id, p.name, p.email, p.role, p.orgId)
  }

  /** The token: the header text after the exact prefix "Bearer ", if any. */
  function BearerToken(header: Option<string>): (token: Option<string>)
    ensures token.Some? <==> header.Some? && StartsWith(header.value, BearerPrefix)
    ensures token.Some? ==> header.value == BearerPrefix + token.value
  {
    if header.Some? && StartsWith(header.value, BearerPrefix)
    then Some(header.value[|BearerPrefix|..])
    else None
  }

  /** `requireAuth`: 401 without a non-empty bearer token or when verification fails;
      otherwise the caller projected from the payload. */
  function RequireAuth(header: Option<string>, verify: string -> Option<Payload>): (r: Result<Caller>)
    ensures !Truthy(BearerToken(header)) ==> r == Err(MissingToken)
    ensures Truthy(BearerToken(header)) && verify(BearerToken(header).value).None? ==> r == Err(InvalidToken)
    ensures r.Ok? <==> Truthy(BearerToken(header)) && verify(BearerToken(header).value).Some?
    ensures r.Ok? ==> r.value == Project(verify(BearerToken(header).value).value)
  {
    var token := BearerToken(header);
    if !Truthy(token) then Err(MissingToken)
    else match verify(token.value)
      case None => Err(InvalidToken)
      case Some(p) => Ok(Project(p))
  }

  /** `requireRole(role)`: 401 without a caller, 403 unless the caller's role is exactly
      `role`; there is no role hierarchy. */
  function RequireRole(user: Option<Caller>, role: Role): (r: Result<Caller>)
    ensures user.None? ==> r == Err(Unauthorized)
    ensures r.Ok? <==> user.Some? && user.value.role == role
    ensures user.Some? && user.value.role != role ==> r == Err(InsufficientRole)
    ensures r.Ok? ==> r.value == user.value
  {
    match user
    case None => Err(Unauthorized)
    case Some(u) => if u.role != role then Err(InsufficientRole) else Ok(u)
  }

  /** A token sent as "Bearer <token>" authenticates as the payload it was signed from;
      the header is parsed back into exactly the token that was sent. */
  lemma {:induction false} BearerRoundTrip(token: string, verify: string -> Option<Payload>, p: Payload)
    requires token != "" && verify(token) == Some(p)
    ensures BearerToken(Some(BearerPrefix + token)) == Some(token)
    ensures RequireAuth(Some(BearerPrefix + token), verify) == Ok(Project(p))
  {
    var h := BearerPrefix + token;
    assert h[..|BearerPrefix|] == BearerPrefix;
    assert h[|BearerPrefix|..] == token;
  }

  /** Only the exact, case-sensitive prefix "Bearer " is accepted: "bearer <token>" is
      refused with 401 whatever the token. */
  lemma LowerCaseSchemeRefused(token: string, verify: string -> Option<Payload>)
    ensures RequireAuth(Some("bearer " + token), verify) == Err(MissingToken)
  {
    var h := "bearer " + token;
    assert h[0] != BearerPrefix[0];
  }

  /** An administrator does not pass `requireRole('faculty')`, nor a faculty member
      `requireRole('admin')`. */
  lemma AdminIsNotFaculty(c: Caller)
    requires c.role == Admin
    ensures RequireRole(Some(c), Faculty) == Err(InsufficientRole)
    ensures RequireRole(Some(c.(role := Faculty)), Admin) == Err(InsufficientRole)
  {
  }
}
