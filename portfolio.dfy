/** The portfolio routes (server/src/routes/portfolio.js): the JSON view and the PDF view
    share one access guard and one query, the approved claims of a student in date order.
    The PDF rendering itself is not modelled. */
module Portfolio {
  import opened Common
  import opened Models
  import opened Middleware
  import Query
  import Activities

  const OwnOnly := HttpError(403, "Students can only view their own portfolio")
  const StudentNotFound := HttpError(404, "Student not found")
  const CrossOrg := HttpError(403, "Cross-org access denied")

  /** `User.findById(id)`. */
  function FindUser(users: seq<User>, id: Id): (r: Option<User>)
    ensures r.Some? ==> r.value in users && r.value.id == id
    ensures r.None? ==> forall u :: u in users ==> u.id != id
  {
    Query.FindOne(users, (u: User) => u.id == id)
  }

  /** The query both routes run: the approved claims of `studentId` in the caller's
      organisation, oldest date first. */
  function ApprovedClaims(items: seq<Activity>, orgId: Option<Id>, studentId: Id): (r: seq<Activity>)
    ensures forall a :: a in r <==> a in items && a.org == orgId && a.student == studentId && a.status == Approved
    ensures multiset(r) <= multiset(items)
    ensures forall i :: 0 <= i < |items| ==>
              multiset(r)[items[i]]
              == if items[i].org == orgId && items[i].student == studentId && items[i].status == Approved
                 then multiset(items)[items[i]] else 0
    ensures Query.Sorted(r, (a: Activity) => Some(a.date), false)
  {
    var p := (a: Activity) => a.org == orgId && a.student == studentId && a.status == Approved;
    var matching := Query.Filter(items, p);
    var r := Query.Sort(matching, (a: Activity) => Some(a.date), false);
    assert forall a :: a in r <==> a in multiset(matching);
    assert forall i :: 0 <= i < |items| ==> multiset(r)[items[i]] == if p(items[i]) then multiset(items)[items[i]] else 0 by {
      forall i | 0 <= i < |items| ensures multiset(r)[items[i]] == if p(items[i]) then multiset(items)[items[i]] else 0 {
        Query.FilterCount(items, p, items[i]);
      }
    }
    r
  }

  /** The portfolio: the student's record and their approved claims. */
  datatype View = View(student: User, activities: seq<Activity>)

  /** `GET /:studentId` and `GET /:studentId/pdf`: a student may only ask for their own
      id (403); an unknown user is 404; a user of another organisation is 403; otherwise
      the user and their approved claims in date order. The target's role is not looked
      at, and neither is the caller's beyond 'student'. */
  function PortfolioFor(users: seq<User>, items: seq<Activity>, caller: Caller, studentId: Id): (r: Result<View>)
    ensures caller.role == Student && caller.id != studentId ==> r == Err(OwnOnly)
    ensures (caller.role != Student || caller.id == studentId) && FindUser(users, studentId).None?
            ==> r == Err(StudentNotFound)
    ensures ((caller.role != Student || caller.id == studentId) && FindUser(users, studentId).Some? &&
             !SameOrg(FindUser(users, studentId).value.org, caller.orgId)) ==> r == Err(CrossOrg)
    ensures r.Ok? <==>
      (caller.role != Student || caller.id == studentId) && FindUser(users, studentId).Some? &&
      SameOrg(FindUser(users, studentId).value.org, caller.orgId)
    ensures r.Ok? ==> r.value.student in users && r.value.student.id == studentId &&
                      r.value.activities == ApprovedClaims(items, caller.orgId, studentId)
  {
    if caller.role == Student && caller.id != studentId then Err(OwnOnly)
    else match FindUser(users, studentId)
      case None => Err(StudentNotFound)
      case Some(student) =>
        if !SameOrg(student.org, caller.orgId) then Err(CrossOrg)
        else Ok(View(student, ApprovedClaims(items, caller.orgId, studentId)))
  }

  /** What a student sees is only their own: every claim in a portfolio a student may
      read is theirs, approved and of their organisation. */
  lemma StudentSeesOnlyOwn(users: seq<User>, items: seq<Activity>, caller: Caller, studentId: Id)
    requires caller.role == Student
    requires PortfolioFor(users, items, caller, studentId).Ok?
    ensures forall a :: a in PortfolioFor(users, items, caller, studentId).value.activities ==>
              a.student == caller.id && a.status == Approved && a.org == caller.orgId
  {
  }

  /** Faculty and administrators of an organisation may read the portfolio of any user
      of that organisation, whatever that user's role. */
  lemma StaffReadsAnyPortfolio(users: seq<User>, items: seq<Activity>, caller: Caller, u: User)
    requires caller.role != Student
    requires u in users && u.org.Some? && u.org == caller.orgId
    requires forall v :: v in users && v.id == u.id ==> v == u
    ensures PortfolioFor(users, items, caller, u.id).Ok?
  {
  }

  /** Approval makes a claim visible: once a faculty member of the organisation approves
      a pending claim, it appears in its student's portfolio, for every caller allowed to
      read that portfolio. */
  lemma ApprovedClaimAppears(users: seq<User>, store: seq<Activity>, reviewer: Caller, id: Id, now: Time,
                             reader: Caller)
    requires Activities.ApproveDecision(reviewer, Activities.FindById(store, id), now).Ok?
    requires reader.orgId == reviewer.orgId
    requires PortfolioFor(users, Activities.Save(store, Activities.ApproveDecision(reviewer, Activities.FindById(store, id), now).value),
                          reader, Activities.FindById(store, id).value.student).Ok?
    ensures var a := Activities.ApproveDecision(reviewer, Activities.FindById(store, id), now).value;
            a in PortfolioFor(users, Activities.Save(store, a), reader, a.student).value.activities
  {
    var a := Activities.ApproveDecision(reviewer, Activities.FindById(store, id), now).value;
    var old_ := Activities.FindById(store, id).value;
    var i :| 0 <= i < |store| && store[i] == old_;
    assert Activities.Save(store, a)[i] == a;
  }
}
