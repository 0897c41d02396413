/** The approval state machine that notifications and activities share: the guards the
    approve and reject handlers check on the loaded record, in their fixed order. */
module Workflow {
  import opened Common
  import opened Models
  import opened Middleware

  const CrossOrg := HttpError(403, "Cross-org access denied")
  const AlreadyProcessed := HttpError(400, "Already processed")

  /** What the guards read of a loaded record. */
  datatype Head = Head(org: Option<Id>, status: Status)

  /** The guards of a read or a delete: 404 for a missing record, then 403 when it belongs
      to another organisation than the caller's (a caller without one included). */
  function OrgGuard(caller: Caller, found: Option<Head>, notFound: HttpError): (r: Option<HttpError>)
    ensures r.None? <==> found.Some? && SameOrg(found.value.org, caller.orgId)
    ensures found.None? ==> r == Some(notFound)
    ensures found.Some? && !SameOrg(found.value.org, caller.orgId) ==> r == Some(CrossOrg)
  {
    if found.None? then Some(notFound)
    else if !SameOrg(found.value.org, caller.orgId) then Some(CrossOrg)
    else None
  }

  /** The guards of approve and reject: the faculty role (`requireRole('faculty')`), then
      404, then 403 across organisations, then 400 unless the record is still pending. */
  function ReviewGuard(caller: Caller, found: Option<Head>, notFound: HttpError): (r: Option<HttpError>)
    ensures r.None? <==>
      caller.role == Faculty && found.Some? && SameOrg(found.value.org, caller.orgId) && found.value.status == Pending
    ensures caller.role != Faculty ==> r == Some(InsufficientRole)
    ensures caller.role == Faculty && found.None? ==> r == Some(notFound)
    ensures caller.role == Faculty && found.Some? && !SameOrg(found.value.org, caller.orgId) ==> r == Some(CrossOrg)
    ensures caller.role == Faculty && found.Some? && SameOrg(found.value.org, caller.orgId) && found.value.status != Pending
            ==> r == Some(AlreadyProcessed)
  {
    match RequireRole(Some(caller), Faculty)
    case Err(e) => Some(e)
    case Ok(_) =>
      match OrgGuard(caller, found, notFound)
      case Some(e) => Some(e)
      case None => if found.value.status != Pending then Some(AlreadyProcessed) else None
  }
}
