/** The notification routes (server/src/routes/notifications.js): create, the pending and
    approved lists, approve, reject, delete, insights and the manual crawl. Each handler
    is a decision function of the loaded state, and a method on the store that loads the
    record, changes its fields in place and saves or deletes it. */
module Notifications {
  import opened Common
  import opened Models
  import opened Middleware
  import opened Workflow
  import opened Allowlist
  import opened NotificationStore
  import Query
  import Crawler

  const NotFound := HttpError(404, "Notification not found")
  const TitleRequired := HttpError(400, "title required")
  const SourceNotAllowed := HttpError(400, "sourceUrl domain not allowed for this organization")
  const NotApproverOrAdmin := HttpError(403, "Only approver or admin can delete")
  const NoOrganization := HttpError(400, "No organization")
  const DefaultRejection := "Not approved"
  const ApprovedLimit := 50

  /** The fields of the create request's body. */
  datatype CreateRequest = CreateRequest(title: Option<string>, body: Option<string>,
                                         sourceUrl: Option<string>, category: Option<string>)

  /** What the guards read of a loaded notification. */
  function HeadOf(found: Option<Notification>): Option<Head> {
    if found.None? then None else Some(Head(Some(found.value.org), found.value.status))
  }

  /** A stored link that is present and not empty. */
  predicate HasLink(n: Notification) {
    Truthy(n.sourceUrl)
  }

  // ---------------------------------------------------------------- create

  /** `POST /`: the faculty role, then 400 without a title, then 400 for a given source
      URL the allowlist refuses, then the insert, which the schema refuses (500) for a
      caller without an organisation or a category outside the enum. The new record is
      pending, of the caller's organisation and by the caller, 'general' by default. */
  function CreateDecision(env: Env, orgs: seq<Organization>, caller: Caller, req: CreateRequest, id: Id, now: Time)
    : (r: Result<Notification>)
    ensures caller.role != Faculty ==> r == Err(InsufficientRole)
    ensures caller.role == Faculty && !Truthy(req.title) ==> r == Err(TitleRequired)
    ensures (caller.role == Faculty && Truthy(req.title) && Truthy(req.sourceUrl) &&
             !IsAllowed(env, orgs, caller.orgId, req.sourceUrl.value)) ==> r == Err(SourceNotAllowed)
    ensures r.Ok? <==>
      caller.role == Faculty && Truthy(req.title) &&
      (!Truthy(req.sourceUrl) || IsAllowed(env, orgs, caller.orgId, req.sourceUrl.value)) &&
      caller.orgId.Some? && (req.category.None? || ParseCategory(req.category.value).Some?)
    ensures (r.Err? && caller.role == Faculty && Truthy(req.title) &&
             (!Truthy(req.sourceUrl) || IsAllowed(env, orgs, caller.orgId, req.sourceUrl.value))) ==> r == Err(ServerError)
    ensures r.Ok? ==>
      var n := r.value;
      n.id == id && n.status == Pending && Some(n.org) == caller.orgId && n.createdBy == caller.id &&
      Some(n.title) == req.title && n.body == req.body && n.sourceUrl == req.sourceUrl &&
      (req.category.None? ==> n.category == General) &&
      (req.category.Some? ==> CategoryName(n.category) == req.category.value) &&
      n.externalId.None? && n.createdAt == now &&
      n.SchemaValid() && ApprovalConsistent(n) && n.deletedBy.None?
  {
    if caller.role != Faculty then Err(InsufficientRole)
    else if !Truthy(req.title) then Err(TitleRequired)
    else if Truthy(req.sourceUrl) && !IsAllowed(env, orgs, caller.orgId, req.sourceUrl.value) then Err(SourceNotAllowed)
    else
      var category := if req.category.None? then Some(General) else ParseCategory(req.category.value);
      if caller.orgId.None? || category.None? then Err(ServerError)
      else Ok(Notification(id, caller.orgId.value, req.title.value, req.body, category.value, req.sourceUrl,
                           None, None, None, Pending, caller.id, None, None, None, None, now))
  }

  /** A created notification gets the next fresh id and keeps the collection's invariant. */
  lemma CreatedIsInsertable(env: Env, orgs: seq<Organization>, caller: Caller, req: CreateRequest,
                            items: seq<Notification>, nextId: Id, now: Time)
    requires CreateDecision(env, orgs, caller, req, nextId, now).Ok?
    ensures Insertable(items, nextId, CreateDecision(env, orgs, caller, req, nextId, now).value)
  {
  }

  method Create(store: Store, env: Env, orgs: seq<Organization>, caller: Caller, req: CreateRequest, now: Time)
    returns (r: Result<Notification>)
    requires store.Valid()
    modifies store
    ensures store.Valid()
    ensures r == CreateDecision(env, orgs, caller, req, old(store.nextId), now)
    ensures r.Ok? ==> store.items == old(store.items) + [r.value] && store.nextId == old(store.nextId) + 1
    ensures r.Err? ==> store.items == old(store.items) && store.nextId == old(store.nextId)
  {
    if caller.role != Faculty {
      return Err(InsufficientRole);
    }
    if !Truthy(req.title) {
      return Err(TitleRequired);
    }
    if Truthy(req.sourceUrl) {
      var ok := IsAllowedHostForOrg(env, orgs, caller.orgId, req.sourceUrl.value);
      if !ok {
        return Err(SourceNotAllowed);
      }
    }
    r := CreateDecision(env, orgs, caller, req, store.nextId, now);
    if r.Ok? {
      CreatedIsInsertable(env, orgs, caller, req, store.items, store.nextId, now);
      InsertPreserves(store.items, store.nextId, r.value);
      store.items := store.items + [r.value];
      store.nextId := store.nextId + 1;
    }
  }

  // ---------------------------------------------------------------- approve

  /** The link an approval keeps: a present link the allowlist refuses is dropped. */
  function KeptLink(env: Env, orgs: seq<Organization>, caller: Caller, n: Notification): Option<string> {
    if HasLink(n) && !IsAllowed(env, orgs, caller.orgId, n.sourceUrl.value) then None else n.sourceUrl
  }

  /** The completion date after an approval: replaced by the request's date only when it
      is given and parses. */
  function NewEndsAt(env: Env, n: Notification, endsAt: Option<string>): Option<Time> {
    if Truthy(endsAt) && env.parseDate(endsAt.value).Some? then env.parseDate(endsAt.value) else n.endsAt
  }

  /** `PATCH /:id/approve`: the review guards, then 400 for a link the allowlist refuses
      unless SKIP_SOURCE_VALIDATION lets the link be dropped; on success the record is
      approved by the caller at `now`. */
  function ApproveDecision(env: Env, orgs: seq<Organization>, caller: Caller, found: Option<Notification>,
                           endsAt: Option<string>, now: Time): (r: Result<Notification>)
    ensures ReviewGuard(caller, HeadOf(found), NotFound).Some? ==> r == Err(ReviewGuard(caller, HeadOf(found), NotFound).value)
    ensures r.Ok? <==>
      ReviewGuard(caller, HeadOf(found), NotFound).None? &&
      (!HasLink(found.value) || IsAllowed(env, orgs, caller.orgId, found.value.sourceUrl.value) ||
       EnvFlag(env.skipSourceValidation))
    ensures r.Err? && ReviewGuard(caller, HeadOf(found), NotFound).None? ==> r == Err(SourceNotAllowed)
    ensures r.Ok? ==>
      r.value == found.value.(status := Approved, approvedBy := Some(caller.id), approvedAt := Some(now),
                              sourceUrl := KeptLink(env, orgs, caller, found.value),
                              endsAt := NewEndsAt(env, found.value, endsAt))
  {
    match ReviewGuard(caller, HeadOf(found), NotFound)
    case Some(e) => Err(e)
    case None =>
      var n := found.value;
      if HasLink(n) && !IsAllowed(env, orgs, caller.orgId, n.sourceUrl.value) && !EnvFlag(env.skipSourceValidation)
      then Err(SourceNotAllowed)
      else Ok(n.(status := Approved, approvedBy := Some(caller.id), approvedAt := Some(now),
                 sourceUrl := KeptLink(env, orgs, caller, n), endsAt := NewEndsAt(env, n, endsAt)))
  }

  /** An approved notification never carries a link the allowlist refuses: the approval
      either drops it or fails. */
  lemma ApprovedLinkIsAllowed(env: Env, orgs: seq<Organization>, caller: Caller, found: Option<Notification>,
                              endsAt: Option<string>, now: Time)
    requires ApproveDecision(env, orgs, caller, found, endsAt, now).Ok?
    ensures var n := ApproveDecision(env, orgs, caller, found, endsAt, now).value;
            n.status == Approved && ApprovalConsistent(n) &&
            (HasLink(n) ==> IsAllowed(env, orgs, caller.orgId, n.sourceUrl.value) && n.sourceUrl == found.value.sourceUrl)
  {
  }

  method Approve(store: Store, env: Env, orgs: seq<Organization>, caller: Caller, id: Id,
                 endsAt: Option<string>, now: Time)
    returns (r: Result<Notification>)
    requires store.Valid()
    modifies store
    ensures store.Valid() && store.nextId == old(store.nextId)
    ensures r == ApproveDecision(env, orgs, caller, FindById(old(store.items), id), endsAt, now)
    ensures r.Ok? ==> store.items == Save(old(store.items), r.value)
    ensures r.Err? ==> store.items == old(store.items)
  {
    var found := FindById(store.items, id);
    var guard := ReviewGuard(caller, HeadOf(found), NotFound);
    if guard.Some? {
      return Err(guard.value);
    }
    var n := found.value;
    if HasLink(n) {
      var ok := IsAllowedHostForOrg(env, orgs, caller.orgId, n.sourceUrl.value);
      if !ok {
        if EnvFlag(env.skipSourceValidation) {
          n := n.(sourceUrl := None);
        } else {
          return Err(SourceNotAllowed);
        }
      }
    }
    if Truthy(endsAt) {
      var d := env.parseDate(endsAt.value);
      if d.Some? {
        n := n.(endsAt := d);
      }
    }
    n := n.(status := Approved);
    n := n.(approvedBy := Some(caller.id));
    n := n.(approvedAt := Some(now));
    SavePreserves(store.items, store.nextId, found.value, n);
    store.items := Save(store.items, n);
    r := Ok(n);
  }

  // ---------------------------------------------------------------- reject

  /** `PATCH /:id/reject`: the review guards, then the record is rejected with the given
      reason, or 'Not approved' when none is given. */
  function RejectDecision(caller: Caller, found: Option<Notification>, reason: Option<string>): (r: Result<Notification>)
    ensures ReviewGuard(caller, HeadOf(found), NotFound).Some? ==> r == Err(ReviewGuard(caller, HeadOf(found), NotFound).value)
    ensures r.Ok? <==> ReviewGuard(caller, HeadOf(found), NotFound).None?
    ensures r.Ok? ==> r.value == found.value.(status := Rejected, rejectionReason := Some(Or(reason, Some(DefaultRejection)).value))
    ensures r.Ok? ==> r.value.rejectionReason.Some? && r.value.rejectionReason.value != ""
  {
    match ReviewGuard(caller, HeadOf(found), NotFound)
    case Some(e) => Err(e)
    case None => Ok(found.value.(status := Rejected, rejectionReason := Or(reason, Some(DefaultRejection))))
  }

  method Reject(store: Store, caller: Caller, id: Id, reason: Option<string>)
    returns (r: Result<Notification>)
    requires store.Valid()
    modifies store
    ensures store.Valid() && store.nextId == old(store.nextId)
    ensures r == RejectDecision(caller, FindById(old(store.items), id), reason)
    ensures r.Ok? ==> store.items == Save(old(store.items), r.value)
    ensures r.Err? ==> store.items == old(store.items)
  {
    var found := FindById(store.items, id);
    var guard := ReviewGuard(caller, HeadOf(found), NotFound);
    if guard.Some? {
      return Err(guard.value);
    }
    var n := found.value;
    n := n.(status := Rejected);
    n := n.(rejectionReason := if Truthy(reason) then reason else Some(DefaultRejection));
    SavePreserves(store.items, store.nextId, found.value, n);
    store.items := Save(store.items, n);
    r := Ok(n);
  }

  /** Approval and rejection are final: once a notification is processed, every further
      approve or reject fails (with 400 for a faculty member of its organisation). */
  lemma ProcessedIsFinal(env: Env, orgs: seq<Organization>, caller: Caller, n: Notification,
                         endsAt: Option<string>, reason: Option<string>, now: Time)
    requires n.status != Pending
    ensures ApproveDecision(env, orgs, caller, Some(n), endsAt, now).Err?
    ensures RejectDecision(caller, Some(n), reason).Err?
    ensures caller.role == Faculty && caller.orgId == Some(n.org) ==>
      ApproveDecision(env, orgs, caller, Some(n), endsAt, now) == Err(AlreadyProcessed) &&
      RejectDecision(caller, Some(n), reason) == Err(AlreadyProcessed)
  {
  }

  /** Approving twice: the second approval fails with 400, whoever sends it from the
      organisation. */
  lemma SecondApprovalFails(env: Env, orgs: seq<Organization>, caller: Caller, caller': Caller,
                            found: Option<Notification>, endsAt: Option<string>, endsAt': Option<string>,
                            now: Time, now': Time)
    requires ApproveDecision(env, orgs, caller, found, endsAt, now).Ok?
    requires caller'.role == Faculty && caller'.orgId == caller.orgId
    ensures ApproveDecision(env, orgs, caller', Some(ApproveDecision(env, orgs, caller, found, endsAt, now).value),
                            endsAt', now') == Err(AlreadyProcessed)
  {
  }

  // ---------------------------------------------------------------- delete

  /** `DELETE /:id`: the faculty role, 404, 403 across organisations, then 403 unless the
      caller is the approver. The handler also lets an administrator through, but an
      administrator never passes `requireRole('faculty')`. */
  function DeleteDecision(caller: Caller, found: Option<Notification>): (r: Option<HttpError>)
    ensures r.None? <==>
      caller.role == Faculty && found.Some? && SameOrg(Some(found.value.org), caller.orgId) &&
      found.value.approvedBy == Some(caller.id)
    ensures caller.role != Faculty ==> r == Some(InsufficientRole)
    ensures caller.role == Faculty ==> r.Some? && r != Some(NotApproverOrAdmin) ==> r == OrgGuard(caller, HeadOf(found), NotFound)
  {
    match RequireRole(Some(caller), Faculty)
    case Err(e) => Some(e)
    case Ok(_) =>
      match OrgGuard(caller, HeadOf(found), NotFound)
      case Some(e) => Some(e)
      case None =>
        var n := found.value;
        var isApprover := n.approvedBy.Some? && n.approvedBy.value == caller.id;
        var isAdmin := caller.role == Admin;
        if !isApprover && !isAdmin then Some(NotApproverOrAdmin) else None
  }

  method Delete(store: Store, caller: Caller, id: Id) returns (r: Option<HttpError>)
    requires store.Valid()
    modifies store
    ensures store.Valid() && store.nextId == old(store.nextId)
    ensures r == DeleteDecision(caller, FindById(old(store.items), id))
    ensures r.None? ==> store.items == Remove(old(store.items), id)
    ensures r.Some? ==> store.items == old(store.items)
  {
    var found := FindById(store.items, id);
    r := DeleteDecision(caller, found);
    if r.None? {
      RemovePreserves(store.items, store.nextId, id);
      store.items := Remove(store.items, id);
    }
  }

  /** An administrator can never delete a notification. */
  lemma AdminCannotDelete(caller: Caller, found: Option<Notification>)
    requires caller.role == Admin
    ensures DeleteDecision(caller, found) == Some(InsufficientRole)
  {
  }

  /** Only approved notifications can be deleted: a deletable record names its approver,
      and in a consistent collection only an approved record does. */
  lemma OnlyApprovedDeletable(items: seq<Notification>, nextId: Id, caller: Caller, id: Id)
    requires Consistent(items, nextId)
    requires DeleteDecision(caller, FindById(items, id)).None?
    ensures FindById(items, id).Some? && FindById(items, id).value.status == Approved
  {
  }

  // ---------------------------------------------------------------- lists

  /** `GET /pending`: faculty only; the caller organisation's pending records, newest
      `createdAt` first. */
  function PendingList(items: seq<Notification>, caller: Caller): (r: Result<seq<Notification>>)
    ensures r.Ok? <==> caller.role == Faculty
    ensures caller.role != Faculty ==> r == Err(InsufficientRole)
    ensures r.Ok? ==> Query.Sorted(r.value, (n: Notification) => Some(n.createdAt), true)
    ensures r.Ok? ==> forall n :: n in r.value ==> n in items && Some(n.org) == caller.orgId && n.status == Pending
    ensures r.Ok? ==> forall n :: n in items && Some(n.org) == caller.orgId && n.status == Pending ==> n in r.value
    ensures r.Ok? ==> multiset(r.value) <= multiset(items)
    ensures r.Ok? ==> forall i :: 0 <= i < |items| ==>
              multiset(r.value)[items[i]]
              == if Some(items[i].org) == caller.orgId && items[i].status == Pending then multiset(items)[items[i]] else 0
  {
    if caller.role != Faculty then Err(InsufficientRole)
    else
      var p := (n: Notification) => Some(n.org) == caller.orgId && n.status == Pending;
      var matching := Query.Filter(items, p);
      var sorted := Query.Sort(matching, (n: Notification) => Some(n.createdAt), true);
      assert forall n :: n in sorted <==> n in multiset(matching);
      assert forall i :: 0 <= i < |items| ==> multiset(sorted)[items[i]] == if p(items[i]) then multiset(items)[items[i]] else 0 by {
        forall i | 0 <= i < |items| ensures multiset(sorted)[items[i]] == if p(items[i]) then multiset(items)[items[i]] else 0 {
          Query.FilterCount(items, p, items[i]);
        }
      }
      Ok(sorted)
  }

  /** The caller organisation's approved records, in store order. */
  function ApprovedOf(items: seq<Notification>, orgId: Option<Id>): seq<Notification> {
    Query.Filter(items, (n: Notification) => Some(n.org) == orgId && n.status == Approved)
  }

  /** `GET /approved`: any authenticated caller; the organisation's approved records,
      newest `approvedAt` first, at most 50. */
  function ApprovedList(items: seq<Notification>, caller: Caller): (r: seq<Notification>)
    ensures |r| == if |ApprovedOf(items, caller.orgId)| < ApprovedLimit then |ApprovedOf(items, caller.orgId)| else ApprovedLimit
    ensures forall n :: n in r ==> n in items && Some(n.org) == caller.orgId && n.status == Approved
    ensures Query.Sorted(r, (n: Notification) => n.approvedAt, true)
    ensures multiset(r) <= multiset(ApprovedOf(items, caller.orgId))
  {
    var sorted := Query.Sort(ApprovedOf(items, caller.orgId), (n: Notification) => n.approvedAt, true);
    var r := Query.Take(sorted, ApprovedLimit);
    assert sorted == r + sorted[|r|..];
    forall n | n in r ensures n in items && Some(n.org) == caller.orgId && n.status == Approved {
      assert n in sorted;
      assert n in multiset(ApprovedOf(items, caller.orgId));
    }
    r
  }

  /** The approved list keeps the newest: an approved record of the organisation left out
      of it was approved no later than every record in it, and is left out only when the
      list is full. */
  lemma {:induction false} ApprovedListKeepsNewest(items: seq<Notification>, caller: Caller, x: Notification)
    requires x in items && Some(x.org) == caller.orgId && x.status == Approved
    requires x !in ApprovedList(items, caller)
    ensures |ApprovedList(items, caller)| == ApprovedLimit
    ensures forall y :: y in ApprovedList(items, caller) ==> Query.LeKey(x.approvedAt, y.approvedAt)
  {
    var key := (n: Notification) => n.approvedAt;
    var matching := ApprovedOf(items, caller.orgId);
    var sorted := Query.Sort(matching, key, true);
    var r := Query.Take(sorted, ApprovedLimit);
    assert r == ApprovedList(items, caller);
    assert x in matching;
    assert x in multiset(sorted);
    var j :| 0 <= j < |sorted| && sorted[j] == x;
    assert j >= |r|;
    forall y | y in r ensures Query.LeKey(x.approvedAt, y.approvedAt) {
      var i :| 0 <= i < |r| && r[i] == y;
      assert sorted[i] == y;
      assert Query.InOrder(key(sorted[i]), key(sorted[j]), true);
    }
  }

  // ---------------------------------------------------------------- insights

  /** The entries of the handler's table of benefit texts. */
  datatype Benefit =
    | CompetitiveProfile | AppliedSkills | VerifiableCredential | TeamworkInitiative | IndustryExposure
    | OwnershipSkills | SocialImpact | Commitment | HolisticProfile

  /** The text the handler answers for each entry. */
  function BenefitText(b: Benefit): string {
    match b
    case CompetitiveProfile => "Builds your competitive profile and problem-solving under time constraints. Useful for placements in software and analytics roles."
    case AppliedSkills => "Hands-on learning that you can showcase as applied skills. Helpful for internships and projects."
    case VerifiableCredential => "Adds a verifiable credential to your portfolio, improving shortlisting odds."
    case TeamworkInitiative => "Demonstrates initiative and teamwork, valued in leadership tracks."
    case IndustryExposure => "Direct industry exposure; strengthens resume for placements."
    case OwnershipSkills => "Highlights ownership and people skills; strong signal for managerial tracks."
    case SocialImpact => "Shows social impact; valued for scholarships and fellowships."
    case Commitment => "Demonstrates commitment and initiative beyond academics."
    case HolisticProfile => "Relevant extracurricular engagement that enhances your holistic profile."
  }

  /** The table, keyed by category: 'conference' and 'other' have no entry; every entry
      is used by exactly one category. */
  function BenefitEntry(c: Category): (e: Option<Benefit>)
    ensures e.None? <==> c == Conference || c == Other
    ensures e == Some(HolisticProfile) <==> c == General
  {
    match c
    case Competition => Some(CompetitiveProfile)
    case Workshop => Some(AppliedSkills)
    case Certification => Some(VerifiableCredential)
    case Club => Some(TeamworkInitiative)
    case Internship => Some(IndustryExposure)
    case Leadership => Some(OwnershipSkills)
    case CommunityService => Some(SocialImpact)
    case Volunteering => Some(Commitment)
    case General => Some(HolisticProfile)
    case Conference => None
    case Other => None
  }

  /** `categoryBenefits[n.category] || categoryBenefits.general`: a category's own entry,
      or the general one when it has none. A category gets the general entry exactly when
      it is 'general' or has no entry of its own. */
  function Advice(c: Category): (b: Benefit)
    ensures b == HolisticProfile <==> c == Conference || c == Other || c == General
    ensures BenefitEntry(c).Some? ==> b == BenefitEntry(c).value
  {
    match BenefitEntry(c)
    case Some(b) => b
    case None => HolisticProfile
  }

  /** Distinct categories with entries of their own get distinct advice. */
  lemma AdviceDistinguishes(c: Category, c': Category)
    requires BenefitEntry(c).Some? && BenefitEntry(c').Some? && c != c'
    ensures Advice(c) != Advice(c')
  {
  }

  /** `GET /:id/insights`: any authenticated caller; 404, then 403 across organisations,
      then the benefit text of the record's category. */
  function Insights(caller: Caller, found: Option<Notification>): (r: Result<string>)
    ensures r.Ok? <==> found.Some? && SameOrg(Some(found.value.org), caller.orgId)
    ensures found.None? ==> r == Err(NotFound)
    ensures found.Some? && !SameOrg(Some(found.value.org), caller.orgId) ==> r == Err(CrossOrg)
    ensures r.Ok? ==> r.value == BenefitText(Advice(found.value.category))
  {
    match OrgGuard(caller, HeadOf(found), NotFound)
    case Some(e) => Err(e)
    case None => Ok(BenefitText(Advice(found.value.category)))
  }

  /** Tenant isolation: a caller outside a notification's organisation can neither read
      its insights nor approve, reject or delete it, whatever the caller's role. */
  lemma TenantIsolation(env: Env, orgs: seq<Organization>, caller: Caller, n: Notification,
                        endsAt: Option<string>, reason: Option<string>, now: Time)
    requires caller.orgId != Some(n.org)
    ensures Insights(caller, Some(n)) == Err(CrossOrg)
    ensures ApproveDecision(env, orgs, caller, Some(n), endsAt, now).Err?
    ensures RejectDecision(caller, Some(n), reason).Err?
    ensures DeleteDecision(caller, Some(n)).Some?
  {
  }

  // ---------------------------------------------------------------- manual crawl

  /** `POST /scrape-now`: any authenticated caller; 400 when the caller's organisation is
      not found, otherwise the crawl of that organisation, whether or not its crawling is
      enabled. */
  function ScrapeNow(items: seq<Notification>, nextId: Id, orgs: seq<Organization>, users: seq<User>,
                     fetch: string -> Option<seq<Crawler.Element>>, env: Env, caller: Caller, now: Time)
    : (r: Result<Crawler.Ingest>)
    ensures r.Err? <==> FindOrg(orgs, caller.orgId).None?
    ensures r.Err? ==> r.error == NoOrganization
    ensures r.Ok? ==> r.value == Crawler.Scrape(items, nextId, FindOrg(orgs, caller.orgId), users, fetch, env, now)
  {
    match FindOrg(orgs, caller.orgId)
    case None => Err(NoOrganization)
    case Some(o) => Ok(Crawler.Scrape(items, nextId, Some(o), users, fetch, env, now))
  }

  method ScrapeNowHandler(store: Store, orgs: seq<Organization>, users: seq<User>,
                          fetch: string -> Option<seq<Crawler.Element>>, env: Env, caller: Caller, now: Time)
    returns (r: Result<(nat, nat)>)
    requires store.Valid()
    modifies store
    ensures store.Valid()
    ensures var d := ScrapeNow(old(store.items), old(store.nextId), orgs, users, fetch, env, caller, now);
            (r.Err? <==> d.Err?) && (r.Err? ==> r.error == d.error && store.items == old(store.items) && store.nextId == old(store.nextId)) &&
            (r.Ok? ==> store.items == d.value.items && store.nextId == d.value.nextId &&
                       r.value == (d.value.created, d.value.skipped))
  {
    var org := FindOrg(orgs, caller.orgId);
    if org.None? {
      return Err(NoOrganization);
    }
    var created, skipped := Crawler.ScrapeAnnouncementsForOrg(store, org, users, fetch, env, now);
    r := Ok((created, skipped));
  }

  /** The manual crawl looks at neither the caller's role nor the `scrapeEnabled` flag:
      a student of an organisation with crawling switched off triggers the same crawl as
      a faculty member with it on. */
  lemma ScrapeNowIgnoresRoleAndFlag(items: seq<Notification>, nextId: Id, o: Organization, users: seq<User>,
                                    fetch: string -> Option<seq<Crawler.Element>>, env: Env, caller: Caller, now: Time)
    requires caller.orgId == Some(o.id)
    ensures ScrapeNow(items, nextId, [o.(scrapeEnabled := false)], users, fetch, env, caller.(role := Student), now)
         == ScrapeNow(items, nextId, [o.(scrapeEnabled := true)], users, fetch, env, caller.(role := Faculty), now)
  {
  }
}
