/** The Mongoose schemas of the server: the record types, their enumerations and the
    required fields. A required String field rejects "" as well as a missing value, so each
    record type carries a `SchemaValid` predicate for its required strings. */
module Models {
  import opened Common

  /** `User.role`: student (the default), faculty or admin. */
  datatype Role = Student | Faculty | Admin

  /** `status` of a notification or an activity; every record starts `Pending`. */
  datatype Status = Pending | Approved | Rejected

  /** `Organization.status`: `OrgPending` (the default) or active. */
  datatype OrgStatus = OrgPending | Active

  /** The eleven lower-case values of `Notification.category`; the activity schema has
      the same values without `General`. */
  datatype Category =
    | Conference | Workshop | Certification | Club | Volunteering | Competition
    | Leadership | Internship | CommunityService | Other | General

  /** `Activity.category`: the notification categories other than 'general'. */
  type ActivityCategory = c: Category | c != General witness Conference

  /** The stored spelling of a category. */
  function CategoryName(c: Category): string {
    match c
    case Conference => "conference"
    case Workshop => "workshop"
    case Certification => "certification"
    case Club => "club"
    case Volunteering => "volunteering"
    case Competition => "competition"
    case Leadership => "leadership"
    case Internship => "internship"
    case CommunityService => "community-service"
    case Other => "other"
    case General => "general"
  }

  /** The enum validator of `Notification.category`: exactly the eleven spellings pass. */
  function ParseCategory(s: string): (r: Option<Category>)
    ensures r.Some? ==> CategoryName(r.value) == s
  {
    if s == "conference" then Some(Conference)
    else if s == "workshop" then Some(Workshop)
    else if s == "certification" then Some(Certification)
    else if s == "club" then Some(Club)
    else if s == "volunteering" then Some(Volunteering)
    else if s == "competition" then Some(Competition)
    else if s == "leadership" then Some(Leadership)
    else if s == "internship" then Some(Internship)
    else if s == "community-service" then Some(CommunityService)
    else if s == "other" then Some(Other)
    else if s == "general" then Some(General)
    else None
  }

  /** The enum validator of `Activity.category`: the same spellings without 'general'. */
  function ParseActivityCategory(s: string): (r: Option<ActivityCategory>)
    ensures r.Some? ==> CategoryName(r.value) == s
    ensures s == "general" ==> r.None?
  {
    match ParseCategory(s)
    case Some(c) => if c != General then Some(c) else None
    case None => None
  }

  /** Every category's spelling passes the validator and reads back as that category, and
      only those spellings pass: the validator and the spelling are inverse. */
  lemma CategoryRoundTrip(c: Category, s: string)
    ensures ParseCategory(CategoryName(c)) == Some(c)
    ensures ParseCategory(s) == Some(c) <==> CategoryName(c) == s
  {
  }

  /** The activity validator accepts a spelling exactly when the notification validator
      does and the category is not 'general'. */
  lemma ActivityCategoryIsNotificationCategoryButGeneral(s: string)
    ensures ParseActivityCategory(s).Some? <==> ParseCategory(s).Some? && s != "general"
  {
    if ParseCategory(s).Some? {
      CategoryRoundTrip(ParseCategory(s).value, s);
    }
  }

  /** An organisation; `allowedDomains` and `announcementUrls` default to [],
      `scrapeEnabled` to true and `status` to `OrgPending`. */
  datatype Organization = Organization(
    id: Id,
    name: string,
    website: string,
    allowedDomains: seq<string>,
    announcementUrls: seq<string>,
    scrapeEnabled: bool,
    status: OrgStatus,
    slug: Option<string>)
  {
    predicate SchemaValid() {
      name != "" && website != ""
    }
  }

  /** The organisation Mongoose builds from its two required fields and the defaults. */
  function NewOrganization(id: Id, name: string, website: string): Organization {
    Organization(id, name, website, [], [], true, OrgPending, None)
  }

  /** A user; `org` is optional and `email` is stored lower-cased. */
  datatype User = User(
    id: Id,
    org: Option<Id>,
    name: string,
    email: string,
    passwordHash: string,
    role: Role,
    department: Option<string>)
  {
    predicate SchemaValid() {
      name != "" && email != "" && passwordHash != "" && IsLower(email)
    }
  }

  /** An announcement. `externalId` is indexed but not unique in the schema, and
      `deletedBy` is declared but never written. */
  datatype Notification = Notification(
    id: Id,
    org: Id,
    title: string,
    body: Option<string>,
    category: Category,
    sourceUrl: Option<string>,
    startsAt: Option<Time>,
    endsAt: Option<Time>,
    externalId: Option<string>,
    status: Status,
    createdBy: Id,
    approvedBy: Option<Id>,
    approvedAt: Option<Time>,
    rejectionReason: Option<string>,
    deletedBy: Option<Id>,
    createdAt: Time)
  {
    predicate SchemaValid() {
      title != ""
    }
  }

  /** An achievement claim; `org` is optional in the schema. */
  datatype Activity = Activity(
    id: Id,
    org: Option<Id>,
    student: Id,
    category: ActivityCategory,
    title: string,
    description: Option<string>,
    date: Time,
    proofPath: Option<string>,
    proofOriginalName: Option<string>,
    status: Status,
    approvedBy: Option<Id>,
    approvedAt: Option<Time>,
    rejectionReason: Option<string>,
    createdAt: Time)
  {
    predicate SchemaValid() {
      title != ""
    }
  }
}
