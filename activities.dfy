/** The achievement-claim routes (server/src/routes/activities.js): a student submits a
    claim with an optional proof file, lists their own claims, and faculty of the same
    organisation list the pending ones and approve or reject them. */
module Activities {
  import opened Common
  import opened Models
  import opened Middleware
  import opened Workflow
  import Query

  const NotFound := HttpError(404, "Activity not found")
  const StudentsOnly := HttpError(403, "Only students can upload activities")
  const NoOrganization := HttpError(400, "User is not assigned to an organization")
  const FieldsRequired := HttpError(400, "category, title, date are required")
  const DefaultRejection := "Not approved"
  const UploadsPrefix := "/uploads/"

  /** The fields of the multipart body. */
  datatype ActivityRequest = ActivityRequest(category: Option<string>, title: Option<string>,
                                             description: Option<string>, date: Option<string>)

  /** The stored proof file: the name multer gave it and the name it was uploaded under. */
  datatype Upload = Upload(filename: string, originalName: string)

  /** What the guards read of a loaded claim. */
  function HeadOf(found: Option<Activity>): Option<Head> {
    if found.None? then None else Some(Head(found.value.org, found.value.status))
  }

  /** A claim is approved exactly when it names its approver and its approval time. */
  predicate ApprovalConsistent(a: Activity) {
    (a.status == Approved <==> a.approvedBy.Some?) && (a.status == Approved <==> a.approvedAt.Some?)
  }

  // ---------------------------------------------------------------- the collection

  /** `Activity.findById(id)`. */
  function FindById(items: seq<Activity>, id: Id): (r: Option<Activity>)
    ensures r.Some? ==> r.value in items && r.value.id == id
    ensures r.None? ==> forall a :: a in items ==> a.id != id
  {
    Query.FindOne(items, (a: Activity) => a.id == id)
  }

  /** `save()` of a loaded claim. */
  function Save(items: seq<Activity>, a: Activity): (r: seq<Activity>)
    ensures |r| == |items|
    ensures forall i :: 0 <= i < |items| ==> r[i] == if items[i].id == a.id then a else items[i]
  {
    Query.ReplaceWhere(items, (b: Activity) => b.id == a.id, a)
  }

  /** The collection's invariant: ids below the next fresh id and distinct, required
      fields present, approval fields consistent with the status. */
  ghost predicate Consistent(items: seq<Activity>, nextId: Id) {
    (forall a :: a in items ==> a.id < nextId && a.SchemaValid() && ApprovalConsistent(a)) &&
    (forall a, b :: a in items && b in items && a.id == b.id ==> a == b)
  }

  lemma InsertPreserves(items: seq<Activity>, nextId: Id, a: Activity)
    requires Consistent(items, nextId)
    requires a.id == nextId && a.SchemaValid() && ApprovalConsistent(a)
    ensures Consistent(items + [a], nextId + 1)
  {
  }

  lemma SavePreserves(items: seq<Activity>, nextId: Id, old_: Activity, a: Activity)
    requires Consistent(items, nextId) && old_ in items && a.id == old_.id
    requires a.SchemaValid() && ApprovalConsistent(a)
    ensures Consistent(Save(items, a), nextId)
  {
  }

  /** The claims collection, updated in place by the handlers. */
  class ActivityStore {
    var items: seq<Activity>
    var nextId: Id

    ghost predicate Valid()
      reads this
    {
      Consistent(items, nextId)
    }

    constructor ()
      ensures Valid() && items == [] && nextId == 0
    {
      items := [];
      nextId := 0;
    }
  }

  // ---------------------------------------------------------------- create

  /** `POST /`: 403 unless the caller is a student, 400 without an organisation, 400
      without a category, a title or a date; the insert then fails (500) for a category
      outside the enum or a date `new Date` cannot read. The new claim is pending, of the
      caller's organisation, with the caller as its student, and points to the proof file
      when one was uploaded. */
  function CreateDecision(env: Env, caller: Caller, req: ActivityRequest, file: Option<Upload>, id: Id, now: Time)
    : (r: Result<Activity>)
    ensures caller.role != Student ==> r == Err(StudentsOnly)
    ensures caller.role == Student && caller.orgId.None? ==> r == Err(NoOrganization)
    ensures (caller.role == Student && caller.orgId.Some? &&
             (!Truthy(req.category) || !Truthy(req.title) || !Truthy(req.date))) ==> r == Err(FieldsRequired)
    ensures r.Ok? <==>
      caller.role == Student && caller.orgId.Some? && Truthy(req.category) && Truthy(req.title) && Truthy(req.date) &&
      ParseActivityCategory(req.category.value).Some? && env.parseDate(req.date.value).Some?
    ensures r.Ok? ==>
      var a := r.value;
      a.id == id && a.status == Pending && a.org == caller.orgId && a.student == caller.id &&
      CategoryName(a.category) == req.category.value && Some(a.title) == req.title &&
      a.description == req.description && Some(a.date) == env.parseDate(req.date.value) &&
      (a.proofPath.Some? <==> file.Some?) &&
      (file.Some? ==> a.proofPath == Some(UploadsPrefix + file.value.filename) &&
                      a.proofOriginalName == Some(file.value.originalName)) &&
      a.createdAt == now && a.SchemaValid() && ApprovalConsistent(a)
  {
    if caller.role != Student then Err(StudentsOnly)
    else if caller.orgId.None? then Err(NoOrganization)
    else if !Truthy(req.category) || !Truthy(req.title) || !Truthy(req.date) then Err(FieldsRequired)
    else
      var category := ParseActivityCategory(req.category.value);
      var date := env.parseDate(req.date.value);
      if category.None? || date.None? then Err(ServerError)
      else Ok(Activity(id, caller.orgId, caller.id, category.value, req.title.value, req.description, date.value,
                       if file.Some? then Some(UploadsPrefix + file.value.filename) else None,
                       if file.Some? then Some(file.value.originalName) else None,
                       Pending, None, None, None, now))
  }

  method Create(store: ActivityStore, env: Env, caller: Caller, req: ActivityRequest, file: Option<Upload>, now: Time)
    returns (r: Result<Activity>)
    requires store.Valid()
    modifies store
    ensures store.Valid()
    ensures r == CreateDecision(env, caller, req, file, old(store.nextId), now)
    ensures r.Ok? ==> store.items == old(store.items) + [r.value] && store.nextId == old(store.nextId) + 1
    ensures r.Err? ==> store.items == old(store.items) && store.nextId == old(store.nextId)
  {
    r := CreateDecision(env, caller, req, file, store.nextId, now);
    if r.Ok? {
      InsertPreserves(store.items, store.nextId, r.value);
      store.items := store.items + [r.value];
      store.nextId := store.nextId + 1;
    }
  }

  // ---------------------------------------------------------------- lists

  /** `GET /mine`: any authenticated caller; the caller's own claims in the caller's
      organisation, newest `createdAt` first. */
  function Mine(items: seq<Activity>, caller: Caller): (r: seq<Activity>)
    ensures forall a :: a in r <==> a in items && a.org == caller.orgId && a.student == caller.id
    ensures multiset(r) <= multiset(items)
    ensures forall i :: 0 <= i < |items| ==>
              multiset(r)[items[i]]
              == if items[i].org == caller.orgId && items[i].student == caller.id then multiset(items)[items[i]] else 0
    ensures Query.Sorted(r, (a: Activity) => Some(a.createdAt), true)
  {
    var p := (a: Activity) => a.org == caller.orgId && a.student == caller.id;
    var matching := Query.Filter(items, p);
    var r := Query.Sort(matching, (a: Activity) => Some(a.createdAt), true);
    assert forall a :: a in r <==> a in multiset(matching);
    assert forall i :: 0 <= i < |items| ==> multiset(r)[items[i]] == if p(items[i]) then multiset(items)[items[i]] else 0 by {
      forall i | 0 <= i < |items| ensures multiset(r)[items[i]] == if p(items[i]) then multiset(items)[items[i]] else 0 {
        Query.FilterCount(items, p, items[i]);
      }
    }
    r
  }

  /** `GET /pending`: faculty only; the pending claims of the caller's organisation, in
      store order. */
  function PendingList(items: seq<Activity>, caller: Caller): (r: Result<seq<Activity>>)
    ensures r.Ok? <==> caller.role == Faculty
    ensures caller.role != Faculty ==> r == Err(InsufficientRole)
    ensures r.Ok? ==> forall a :: a in r.value <==> a in items && a.org == caller.orgId && a.status == Pending
    ensures r.Ok? ==> multiset(r.value) <= multiset(items)
    ensures r.Ok? ==> forall i :: 0 <= i < |items| ==>
              multiset(r.value)[items[i]]
              == if items[i].org == caller.orgId && items[i].status == Pending then multiset(items)[items[i]] else 0
  {
    if caller.role != Faculty then Err(InsufficientRole)
    else
      var p := (a: Activity) => a.org == caller.orgId && a.status == Pending;
      assert forall i :: 0 <= i < |items| ==> multiset(Query.Filter(items, p))[items[i]] == if p(items[i]) then multiset(items)[items[i]] else 0 by {
        forall i | 0 <= i < |items| ensures multiset(Query.Filter(items, p))[items[i]] == if p(items[i]) then multiset(items)[items[i]] else 0 {
          Query.FilterCount(items, p, items[i]);
        }
      }
      Ok(Query.Filter(items, p))
  }

  // ---------------------------------------------------------------- approve, reject

  /** `PATCH /:id/approve`: the review guards; on success the claim is approved by the
      caller at `now`, and nothing else of it changes. */
  function ApproveDecision(caller: Caller, found: Option<Activity>, now: Time): (r: Result<Activity>)
    ensures ReviewGuard(caller, HeadOf(found), NotFound).Some? ==> r == Err(ReviewGuard(caller, HeadOf(found), NotFound).value)
    ensures r.Ok? <==> ReviewGuard(caller, HeadOf(found), NotFound).None?
    ensures r.Ok? ==> r.value == found.value.(status := Approved, approvedBy := Some(caller.id), approvedAt := Some(now))
    ensures r.Ok? ==> ApprovalConsistent(r.value) && r.value.org == caller.orgId
  {
    match ReviewGuard(caller, HeadOf(found), NotFound)
    case Some(e) => Err(e)
    case None => Ok(found.value.(status := Approved, approvedBy := Some(caller.id), approvedAt := Some(now)))
  }

  /** `PATCH /:id/reject`: the review guards; on success the claim is rejected with the
      given reason or 'Not approved', and its approver and approval time are cleared. */
  function RejectDecision(caller: Caller, found: Option<Activity>, reason: Option<string>): (r: Result<Activity>)
    ensures ReviewGuard(caller, HeadOf(found), NotFound).Some? ==> r == Err(ReviewGuard(caller, HeadOf(found), NotFound).value)
    ensures r.Ok? <==> ReviewGuard(caller, HeadOf(found), NotFound).None?
    ensures r.Ok? ==> r.value == found.value.(status := Rejected, rejectionReason := Some(Or(reason, Some(DefaultRejection)).value),
                                              approvedBy := None, approvedAt := None)
    ensures r.Ok? ==> ApprovalConsistent(r.value) && r.value.rejectionReason.Some? && r.value.rejectionReason.value != ""
  {
    match ReviewGuard(caller, HeadOf(found), NotFound)
    case Some(e) => Err(e)
    case None => Ok(found.value.(status := Rejected, rejectionReason := Or(reason, Some(DefaultRejection)),
                                 approvedBy := None, approvedAt := None))
  }

  method Approve(store: ActivityStore, caller: Caller, id: Id, now: Time) returns (r: Result<Activity>)
    requires store.Valid()
    modifies store
    ensures store.Valid() && store.nextId == old(store.nextId)
    ensures r == ApproveDecision(caller, FindById(old(store.items), id), now)
    ensures r.Ok? ==> store.items == Save(old(store.items), r.value)
    ensures r.Err? ==> store.items == old(store.items)
  {
    var found := FindById(store.items, id);
    var guard := ReviewGuard(caller, HeadOf(found), NotFound);
    if guard.Some? {
      return Err(guard.value);
    }
    var a := found.value;
    a := a.(status := Approved);
    a := a.(approvedBy := Some(caller.id));
    a := a.(approvedAt := Some(now));
    SavePreserves(store.items, store.nextId, found.value, a);
    store.items := Save(store.items, a);
    r := Ok(a);
  }

  method Reject(store: ActivityStore, caller: Caller, id: Id, reason: Option<string>) returns (r: Result<Activity>)
    requires store.Valid()
    modifies store
    ensures store.Valid() && store.nextId == old(store.nextId)
    ensures r == RejectDecision(caller, FindById(old(store.items), id), reason)
    ensures r.Ok? ==> store.items == Save(old(store.items), r.value)
    ensures r.Err? ==> store.items == old(store.items)
  {
    var found := FindById(store.items, id);
    var guard := ReviewGuard(caller, HeadOf(found), NotFound);
    if guard.Some? {
      return Err(guard.value);
    }
    var a := found.value;
    a := a.(status := Rejected);
    a := a.(rejectionReason := if Truthy(reason) then reason else Some(DefaultRejection));
    a := a.(approvedBy := None);
    a := a.(approvedAt := None);
    SavePreserves(store.items, store.nextId, found.value, a);
    store.items := Save(store.items, a);
    r := Ok(a);
  }

  /** A processed claim is final: a second approve or reject fails, with 400 for a
      faculty member of its organisation. */
  lemma ProcessedIsFinal(caller: Caller, a: Activity, reason: Option<string>, now: Time)
    requires a.status != Pending
    ensures ApproveDecision(caller, Some(a), now).Err? && RejectDecision(caller, Some(a), reason).Err?
    ensures caller.role == Faculty && SameOrg(a.org, caller.orgId) ==>
      ApproveDecision(caller, Some(a), now) == Err(AlreadyProcessed) &&
      RejectDecision(caller, Some(a), reason) == Err(AlreadyProcessed)
  {
  }

  /** A claim stored without an organisation can be neither approved nor rejected by
      anyone: the organisation comparison fails for every caller. */
  lemma OrphanClaimIsStuck(caller: Caller, a: Activity, reason: Option<string>, now: Time)
    requires a.org.None?
    ensures ApproveDecision(caller, Some(a), now).Err? && RejectDecision(caller, Some(a), reason).Err?
  {
  }

  /** A claim created through the route never is such a claim: it always carries the
      creator's organisation, so a faculty member of that organisation can review it. */
  lemma CreatedIsReviewable(env: Env, student: Caller, req: ActivityRequest, file: Option<Upload>, id: Id, now: Time,
                            reviewer: Caller, now': Time)
    requires CreateDecision(env, student, req, file, id, now).Ok?
    requires reviewer.role == Faculty && reviewer.orgId == student.orgId
    ensures ApproveDecision(reviewer, Some(CreateDecision(env, student, req, file, id, now).value), now').Ok?
  {
  }
}
