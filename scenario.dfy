/** The demonstration tenant: the organisation, the users and the announcements page the
    repository ships for a demo (server/src/seed.js and server/src/routes/mock.js), run
    through the crawler and the approval workflow. Dates and host names stay abstract. */
module Scenario {
  import opened Common
  import opened Models
  import opened Middleware
  import opened NotificationStore
  import opened Crawler
  import Notifications
  import Allowlist
  import Query
  import AuthRoutes

  const OrgId: Id := 1
  const EventsUrl := "http://localhost:5000/mock/demo.edu/events"
  const HackathonUrl := "localhost:5000/demo.edu/events/hackathon-2025"
  const WorkshopUrl := "localhost:5000/demo.edu/events/ai-workshop"

  const DemoUniversity := Organization(OrgId, "Demo University", "https://demo.edu",
                                       ["demo.edu", "localhost", "127.0.0.1"], [EventsUrl], true, Active, None)

  const StudentOne := User(10, Some(OrgId), "Student One", "student1@example.com", "hash", Student, None)
  const FacultyOne := User(11, Some(OrgId), "Faculty One", "faculty1@example.com", "hash", Faculty, None)
  const OrgAdmin := User(13, Some(OrgId), "Org Admin", "admin1@example.com", "hash", Admin, None)
  const Users := [StudentOne, FacultyOne, OrgAdmin]

  /** The faculty member's session. */
  const Reviewer := Caller(FacultyOne.id, FacultyOne.name, FacultyOne.email, Faculty, Some(OrgId))

  /** The two `.event` articles of the demo page. */
  function HackathonArticle(title: string, body: string): Element {
    Element(Some("hackathon-2025"), Some(title), Some(HackathonUrl), Some("competition"),
            Some("2025-09-20"), Some("2025-09-22"), None, title, body)
  }

  function WorkshopArticle(title: string, body: string): Element {
    Element(Some("ai-workshop"), Some(title), Some(WorkshopUrl), Some("workshop"),
            Some("2025-10-05"), Some("2025-10-05"), None, title, body)
  }

  /** The page fetcher of the demo: the events page answers, nothing else does. */
  function DemoFetch(page: seq<Element>): string -> Option<seq<Element>> {
    (u: string) => if u == EventsUrl then Some(page) else None
  }

  /** The crawl attributes the demo's announcements to the organisation's administrator,
      who comes before the faculty in the admin-first choice. */
  lemma DemoCreator()
    ensures PickCreator(Users, OrgId) == Some(OrgAdmin.id)
  {
    assert IsOrgAdmin(Users[2], OrgId);
  }

  /** The demo page as the crawler reads it: the events page is the organisation's only
      announcements page, and its two articles give two candidates in page order. */
  lemma DemoPages(env: Env, ht: string, hb: string, wt: string, wb: string)
    ensures var page := [HackathonArticle(ht, hb), WorkshopArticle(wt, wb)];
            Pages(DemoUniversity.announcementUrls, DemoFetch(page), env) ==
              [Extract(env, HackathonArticle(ht, hb)), Extract(env, WorkshopArticle(wt, wb))]
  {
    var page := [HackathonArticle(ht, hb), WorkshopArticle(wt, wb)];
    assert [EventsUrl][..0] == [];
    assert Pages([EventsUrl], DemoFetch(page), env) == Candidates(env, page);
  }

  /** Two kept candidates with distinct keys the organisation does not have yet and with
      schema categories are both inserted, in order, with consecutive ids. */
  lemma {:induction false} TwoNew(st: Ingest, org: Id, creator: Id, c0: Candidate, c1: Candidate, now: Time)
    requires Kept(c0) && Kept(c1) && c0.externalId != c1.externalId
    requires !HasKey(st.items, org, c0.externalId.value) && !HasKey(st.items, org, c1.externalId.value)
    requires ParseCategory(c0.category).Some? && ParseCategory(c1.category).Some?
    ensures IngestAll(st, org, creator, [c0, c1], now) ==
              Ingest(st.items + [NewRecord(org, creator, c0, ParseCategory(c0.category).value, st.nextId, now),
                                 NewRecord(org, creator, c1, ParseCategory(c1.category).value, st.nextId + 1, now)],
                     st.nextId + 2, st.created + 2, st.skipped)
  {
    var cs := [c0, c1];
    assert cs[..1] == [c0] && [c0][..0] == [];
    var r0 := IngestOne(st, org, creator, c0, now);
    assert IngestAll(st, org, creator, [c0], now) == r0;
    assert r0.items == st.items + [NewRecord(org, creator, c0, ParseCategory(c0.category).value, st.nextId, now)];
    assert IngestAll(st, org, creator, cs, now) == IngestOne(r0, org, creator, c1, now);
  }

  /** The candidate the hackathon article gives. */
  lemma HackathonCandidate(env: Env, ht: string, hb: string)
    requires ht != ""
    ensures var c := Extract(env, HackathonArticle(ht, hb));
            Kept(c) && c.externalId == Some("hackathon-2025") && c.title == ht &&
            c.sourceUrl == Some(HackathonUrl) && ParseCategory(c.category) == Some(Competition)
  {
    CategoryRoundTrip(Competition, "competition");
  }

  /** The candidate the workshop article gives. */
  lemma WorkshopCandidate(env: Env, wt: string, wb: string, ht': string, hb': string)
    requires wt != ""
    ensures var c := Extract(env, WorkshopArticle(wt, wb));
            Kept(c) && c.externalId == Some("ai-workshop") && c.title == wt &&
            c.sourceUrl == Some(WorkshopUrl) && ParseCategory(c.category) == Some(Workshop)
    ensures Extract(env, WorkshopArticle(wt, wb)).externalId != Extract(env, HackathonArticle(ht', hb')).externalId
  {
    assert "hackathon-2025"[0] != "ai-workshop"[0];
    CategoryRoundTrip(Workshop, "workshop");
  }

  /** A crawl of the demo organisation ingests, as its administrator, the candidates of
      its announcements page. */
  lemma DemoScrape(items: seq<Notification>, nextId: Id, fetch: string -> Option<seq<Element>>, env: Env, now: Time)
    ensures Scrape(items, nextId, Some(DemoUniversity), Users, fetch, env, now) ==
              IngestAll(Ingest(items, nextId, 0, 0), OrgId, OrgAdmin.id, Pages(DemoUniversity.announcementUrls, fetch, env), now)
  {
    DemoCreator();
    CrawlIsIngestAll(Ingest(items, nextId, 0, 0), OrgId, OrgAdmin.id, DemoUniversity.announcementUrls, fetch, env, now);
  }

  /** The first crawl of the demo page, on an empty collection, inserts the two
      announcements in page order, pending and attributed to the administrator, and counts
      two created and none skipped. */
  lemma FirstCrawl(env: Env, ht: string, hb: string, wt: string, wb: string, now: Time)
    requires ht != "" && wt != ""
    ensures var r := Scrape([], 0, Some(DemoUniversity), Users, DemoFetch([HackathonArticle(ht, hb), WorkshopArticle(wt, wb)]), env, now);
            r.created == 2 && r.skipped == 0 && r.nextId == 2 &&
            r.items == [NewRecord(OrgId, OrgAdmin.id, Extract(env, HackathonArticle(ht, hb)), Competition, 0, now),
                        NewRecord(OrgId, OrgAdmin.id, Extract(env, WorkshopArticle(wt, wb)), Workshop, 1, now)]
  {
    var page := [HackathonArticle(ht, hb), WorkshopArticle(wt, wb)];
    var c0 := Extract(env, HackathonArticle(ht, hb));
    var c1 := Extract(env, WorkshopArticle(wt, wb));
    var st := Ingest([], 0, 0, 0);
    DemoPages(env, ht, hb, wt, wb);
    DemoScrape([], 0, DemoFetch(page), env, now);
    assert Scrape([], 0, Some(DemoUniversity), Users, DemoFetch(page), env, now) == IngestAll(st, OrgId, OrgAdmin.id, [c0, c1], now);
    HackathonCandidate(env, ht, hb);
    WorkshopCandidate(env, wt, wb, ht, hb);
    TwoNew(st, OrgId, OrgAdmin.id, c0, c1, now);
  }

  /** With one approved record of the caller's organisation beside a pending one, the
      approved list is that record alone. */
  lemma OnlyApprovedListed(a: Notification, p: Notification, caller: Caller)
    requires Some(a.org) == caller.orgId && a.status == Approved && p.status == Pending
    ensures Notifications.ApprovedList([a, p], caller) == [a]
  {
    var f := Notifications.ApprovedOf([a, p], caller.orgId);
    assert [a, p][1..] == [p] && [p][1..] == [];
    assert f == [a];
    assert Query.Sort([a], (n: Notification) => n.approvedAt, true) == [a] by {
      assert [a][1..] == [];
    }
  }

  /** The faculty member's approval of a pending record of the demo organisation whose
      link has no host: it goes through, dropping the link, exactly while
      SKIP_SOURCE_VALIDATION is on. */
  lemma ApproveUnhosted(env: Env, n: Notification, now': Time)
    requires n.org == OrgId && n.status == Pending
    requires n.sourceUrl == Some(HackathonUrl) && env.urlHostname(HackathonUrl) == Some("")
    ensures var r := Notifications.ApproveDecision(env, [DemoUniversity], Reviewer, Some(n), None, now');
            (r.Ok? <==> EnvFlag(env.skipSourceValidation)) &&
            (r.Err? ==> r.error == Notifications.SourceNotAllowed) &&
            (r.Ok? ==> r.value == n.(status := Approved, approvedBy := Some(FacultyOne.id), approvedAt := Some(now'),
                                     sourceUrl := None))
  {
    Allowlist.FailsClosed(env, [DemoUniversity], Reviewer.orgId, HackathonUrl);
  }

  /** The review of the first of two pending records of the demo organisation, whose
      link has no host the allowlist can admit. */
  lemma ApproveFirstOfTwo(env: Env, n0: Notification, n1: Notification, now': Time)
    requires n0.id == 0 && n1.id == 1 && n0.org == OrgId && n0.status == Pending && n1.status == Pending
    requires n0.sourceUrl == Some(HackathonUrl) && env.urlHostname(HackathonUrl) == Some("")
    ensures var r := Notifications.ApproveDecision(env, [DemoUniversity], Reviewer, FindById([n0, n1], 0), None, now');
            (r.Ok? <==> EnvFlag(env.skipSourceValidation)) &&
            (r.Err? ==> r.error == Notifications.SourceNotAllowed) &&
            (r.Ok? ==> r.value == n0.(status := Approved, approvedBy := Some(FacultyOne.id), approvedAt := Some(now'),
                                      sourceUrl := None) &&
                       Notifications.ApprovedList(Save([n0, n1], r.value), Reviewer) == [r.value])
  {
    assert FindById([n0, n1], 0) == Some(n0);
    ApproveUnhosted(env, n0, now');
    var r := Notifications.ApproveDecision(env, [DemoUniversity], Reviewer, Some(n0), None, now');
    if r.Ok? {
      assert Save([n0, n1], r.value) == [r.value, n1];
      OnlyApprovedListed(r.value, n1, Reviewer);
    }
  }

  /** A faculty member of the demo organisation approves the crawled hackathon. Its link
      is scheme-less, so the platform's URL parser reads no host from it and the allowlist
      refuses it: with SKIP_SOURCE_VALIDATION on (its default) the approval goes through
      with the link dropped, and the approved list then shows that record alone; with the
      flag off the approval fails with 400. */
  lemma ApproveCrawledHackathon(env: Env, ht: string, hb: string, wt: string, wb: string, now: Time, now': Time)
    requires ht != "" && wt != ""
    requires env.urlHostname(HackathonUrl) == Some("")
    ensures var items := Scrape([], 0, Some(DemoUniversity), Users, DemoFetch([HackathonArticle(ht, hb), WorkshopArticle(wt, wb)]), env, now).items;
            var r := Notifications.ApproveDecision(env, [DemoUniversity], Reviewer, FindById(items, 0), None, now');
            (r.Ok? <==> EnvFlag(env.skipSourceValidation)) &&
            (r.Err? ==> r.error == Notifications.SourceNotAllowed) &&
            (r.Ok? ==> r.value.externalId == Some("hackathon-2025") && r.value.title == ht &&
                       r.value.status == Approved && r.value.approvedBy == Some(FacultyOne.id) &&
                       r.value.approvedAt == Some(now') && r.value.sourceUrl.None? &&
                       Notifications.ApprovedList(Save(items, r.value), Reviewer) == [r.value])
  {
    FirstCrawl(env, ht, hb, wt, wb, now);
    HackathonCandidate(env, ht, hb);
    var n0 := NewRecord(OrgId, OrgAdmin.id, Extract(env, HackathonArticle(ht, hb)), Competition, 0, now);
    var n1 := NewRecord(OrgId, OrgAdmin.id, Extract(env, WorkshopArticle(wt, wb)), Workshop, 1, now);
    ApproveFirstOfTwo(env, n0, n1, now');
  }

  /** Two candidates the collection already holds for the organisation are both counted
      as skipped. */
  lemma {:induction false} TwoHits(items: seq<Notification>, org: Id, c0: Candidate, c1: Candidate)
    requires Hit(items, org, c0) && Hit(items, org, c1)
    ensures Hits(items, org, [c0, c1]) == 2
  {
    assert [c0, c1][..1] == [c0] && [c0][..0] == [];
    assert Hits(items, org, [c0]) == 1;
  }

  /** Two candidates the collection already holds for the organisation leave it as it
      is and are both counted as skipped. */
  lemma TwoKnown(st: Ingest, org: Id, creator: Id, c0: Candidate, c1: Candidate, now: Time)
    requires Hit(st.items, org, c0) && Hit(st.items, org, c1)
    ensures IngestAll(st, org, creator, [c0, c1], now) == st.(skipped := st.skipped + 2)
  {
    assert forall c :: c in [c0, c1] ==> Inert(st.items, org, c);
    IngestAllInert(st, org, creator, [c0, c1], now);
    TwoHits(st.items, org, c0, c1);
  }

  /** A crawl of the demo page over a collection that already holds both of its
      announcements for the organisation inserts nothing and counts both as skipped. */
  lemma RecrawlIsInert(items: seq<Notification>, nextId: Id, env: Env, ht: string, hb: string, wt: string, wb: string, now: Time)
    requires ht != "" && wt != ""
    requires HasKey(items, OrgId, "hackathon-2025") && HasKey(items, OrgId, "ai-workshop")
    ensures Scrape(items, nextId, Some(DemoUniversity), Users, DemoFetch([HackathonArticle(ht, hb), WorkshopArticle(wt, wb)]), env, now) ==
              Ingest(items, nextId, 0, 2)
  {
    var page := [HackathonArticle(ht, hb), WorkshopArticle(wt, wb)];
    HackathonCandidate(env, ht, hb);
    WorkshopCandidate(env, wt, wb, ht, hb);
    var c0 := Extract(env, HackathonArticle(ht, hb));
    var c1 := Extract(env, WorkshopArticle(wt, wb));
    var cs := [c0, c1];
    DemoPages(env, ht, hb, wt, wb);
    DemoScrape(items, nextId, DemoFetch(page), env, now);
    assert Hit(items, OrgId, c0) && Hit(items, OrgId, c1);
    TwoKnown(Ingest(items, nextId, 0, 0), OrgId, OrgAdmin.id, c0, c1, now);
  }

  /** The next crawl, after the approval, finds both announcements stored and inserts
      nothing: the collection stays as it is, with two counted as skipped. */
  lemma RecrawlAfterApproval(env: Env, ht: string, hb: string, wt: string, wb: string, now: Time, now': Time, now'': Time)
    requires ht != "" && wt != ""
    requires env.urlHostname(HackathonUrl) == Some("") && EnvFlag(env.skipSourceValidation)
    ensures var fetch := DemoFetch([HackathonArticle(ht, hb), WorkshopArticle(wt, wb)]);
            var r1 := Scrape([], 0, Some(DemoUniversity), Users, fetch, env, now);
            var a := Notifications.ApproveDecision(env, [DemoUniversity], Reviewer, FindById(r1.items, 0), None, now');
            a.Ok? &&
            Scrape(Save(r1.items, a.value), r1.nextId, Some(DemoUniversity), Users, fetch, env, now'') ==
              Ingest(Save(r1.items, a.value), r1.nextId, 0, 2)
  {
    var page := [HackathonArticle(ht, hb), WorkshopArticle(wt, wb)];
    FirstCrawl(env, ht, hb, wt, wb, now);
    ApproveCrawledHackathon(env, ht, hb, wt, wb, now, now');
    HackathonCandidate(env, ht, hb);
    WorkshopCandidate(env, wt, wb, ht, hb);
    var r1 := Scrape([], 0, Some(DemoUniversity), Users, DemoFetch(page), env, now);
    var a := Notifications.ApproveDecision(env, [DemoUniversity], Reviewer, FindById(r1.items, 0), None, now').value;
    var items := Save(r1.items, a);
    assert items[0] == a && items[1] == r1.items[1];
    assert HasKey(items, OrgId, "hackathon-2025");
    assert HasKey(items, OrgId, "ai-workshop");
    RecrawlIsInert(items, r1.nextId, env, ht, hb, wt, wb, now'');
  }

  /** An organisation created from its name and website alone takes the schema's
      defaults: it is pending, so registration does not pick it as the default; it has no
      announcements pages, so a crawl of it does nothing; and its allowlist is its
      website's host alone. */
  lemma FreshOrganizationIsInert(id: Id, name: string, website: string, orgs: seq<Organization>,
                                 items: seq<Notification>, nextId: Id, users: seq<User>,
                                 fetch: string -> Option<seq<Element>>, env: Env, now: Time)
    ensures var o := NewOrganization(id, name, website);
            o.scrapeEnabled && o.status == OrgPending &&
            Scrape(items, nextId, Some(o), users, fetch, env, now) == Ingest(items, nextId, 0, 0) &&
            AuthRoutes.CountActive(orgs + [o]) == AuthRoutes.CountActive(orgs) &&
            Allowlist.AllowedSet(env, o) == Allowlist.WebsiteHostSet(env, o)
  {
    var o := NewOrganization(id, name, website);
    AuthRoutes.InactiveLeavesDefault(orgs, o);
  }
}
