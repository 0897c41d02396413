/** The announcement crawler (server/src/jobs/scraper.js): for each organisation, fetch its
    announcement pages, read the `.event` elements, and insert the ones whose
    (organisation, external id) is not stored yet. Fetching and HTML parsing are the
    platform's: `fetch` gives the elements of a page, or None when the request or the
    parse throws. */
module Crawler {
  import opened Common
  import opened Models
  import opened NotificationStore
  import Query

  /** One `.event` element of a fetched page, as cheerio exposes it. */
  datatype Element = Element(
    dataId: Option<string>,         // attr('data-id')
    dataTitle: Option<string>,      // attr('data-title')
    dataUrl: Option<string>,        // attr('data-url')
    dataCategory: Option<string>,   // attr('data-category')
    dataDateStart: Option<string>,  // attr('data-date-start')
    dataDateEnd: Option<string>,    // attr('data-date-end')
    linkHref: Option<string>,       // find('a').attr('href'): the first link's href
    titleText: string,              // find('.title').text(): "" without such a child
    bodyText: string)               // find('.body').text()

  /** What the crawler reads out of one element. */
  datatype Candidate = Candidate(
    externalId: Option<string>,
    title: string,
    sourceUrl: Option<string>,
    category: string,
    startsAt: Option<Time>,
    endsAt: Option<Time>,
    body: Option<string>)

  /** `parseDateSafe`: no date for a missing or empty attribute or an unparsable one. */
  function ParseDateSafe(env: Env, s: Option<string>): (r: Option<Time>)
    ensures !Truthy(s) ==> r.None?
    ensures Truthy(s) ==> r == env.parseDate(s.value)
  {
    if !Truthy(s) then None else env.parseDate(s.value)
  }

  /** The field extraction: each data attribute wins when it is non-empty, and otherwise
      the link's href, the trimmed `.title` text or 'general' stands in; an empty body is
      no body. */
  function Extract(env: Env, el: Element): (c: Candidate)
    ensures Truthy(el.dataId) ==> c.externalId == el.dataId
    ensures !Truthy(el.dataId) ==> c.externalId == el.linkHref
    ensures Truthy(el.dataTitle) ==> c.title == el.dataTitle.value
    ensures !Truthy(el.dataTitle) ==> c.title == Trim(el.titleText)
    ensures Truthy(el.dataUrl) ==> c.sourceUrl == el.dataUrl
    ensures !Truthy(el.dataUrl) ==> c.sourceUrl == el.linkHref
    ensures c.category == if Truthy(el.dataCategory) then el.dataCategory.value else "general"
    ensures c.body.Some? <==> Trim(el.bodyText) != ""
    ensures c.body.Some? ==> c.body.value == Trim(el.bodyText)
  {
    Candidate(
      Or(el.dataId, el.linkHref),
      if Truthy(el.dataTitle) then el.dataTitle.value else Trim(el.titleText),
      Or(el.dataUrl, el.linkHref),
      if Truthy(el.dataCategory) then el.dataCategory.value else "general",
      ParseDateSafe(env, el.dataDateStart),
      ParseDateSafe(env, el.dataDateEnd),
      if Trim(el.bodyText) != "" then Some(Trim(el.bodyText)) else None)
  }

  function Candidates(env: Env, els: seq<Element>): (cs: seq<Candidate>)
    ensures |cs| == |els|
    ensures forall i :: 0 <= i < |els| ==> cs[i] == Extract(env, els[i])
  {
    seq(|els|, i requires 0 <= i < |els| => Extract(env, els[i]))
  }

  /** An announcement as a page publishes it, with every attribute filled in. */
  datatype Announcement = Announcement(id: string, title: string, url: string, category: string, body: string)

  /** The markup of an announcement in the shape of the demo page: the data attributes,
      and the title and body repeated in the `.title` and `.body` children. */
  function Render(a: Announcement): Element {
    Element(Some(a.id), Some(a.title), Some(a.url), Some(a.category), None, None, None, a.title, a.body)
  }

  /** Reading back a rendered announcement gives the announcement: extraction inverts
      rendering for every announcement with non-empty fields and a trimmed body. */
  lemma ExtractRendered(env: Env, a: Announcement)
    requires a.id != "" && a.title != "" && a.url != "" && a.category != ""
    requires a.body != "" && Trim(a.body) == a.body
    ensures Extract(env, Render(a)) ==
      Candidate(Some(a.id), a.title, Some(a.url), a.category, None, None, Some(a.body))
  {
  }

  /** A candidate the crawler keeps: it has an external id and a title. */
  predicate Kept(c: Candidate) {
    Truthy(c.externalId) && c.title != ""
  }

  /** The pending record inserted for a candidate. */
  function NewRecord(org: Id, creator: Id, c: Candidate, category: Category, id: Id, now: Time): Notification {
    Notification(id, org, c.title, c.body, category, c.sourceUrl, c.startsAt, c.endsAt, c.externalId,
                 Pending, creator, None, None, None, None, now)
  }

  /** The collection and the two counters while the crawler runs. */
  datatype Ingest = Ingest(items: seq<Notification>, nextId: Id, created: nat, skipped: nat)

  /** A candidate a step leaves the collection unchanged for: discarded, already stored
      for the organisation, or with a category outside the schema's enum. */
  predicate Inert(items: seq<Notification>, org: Id, c: Candidate) {
    !Kept(c) || HasKey(items, org, c.externalId.value) || ParseCategory(c.category).None?
  }

  /** A candidate counted as skipped against `items`. */
  predicate Hit(items: seq<Notification>, org: Id, c: Candidate) {
    Kept(c) && HasKey(items, org, c.externalId.value)
  }

  /** One element: discarded without an id or a title; `skipped` when the organisation
      already has its external id; otherwise inserted and `created`, unless the category
      fails the schema's enum, in which case the insert throws and nothing is counted. */
  function IngestOne(st: Ingest, org: Id, creator: Id, c: Candidate, now: Time): (r: Ingest)
    ensures Extends(st, r, org, creator)
    ensures Inert(st.items, org, c) ==>
              r == st.(skipped := st.skipped + if Hit(st.items, org, c) then 1 else 0)
    ensures !Inert(st.items, org, c) ==> r.created == st.created + 1 && r.skipped == st.skipped
    ensures !Inert(st.items, org, c) ==>
              r.items == st.items + [NewRecord(org, creator, c, ParseCategory(c.category).value, st.nextId, now)] &&
              r.nextId == st.nextId + 1
    ensures Inert(r.items, org, c)
    ensures r.created + r.skipped > st.created + st.skipped ==> Hit(r.items, org, c)
  {
    if !Kept(c) then st
    else if HasKey(st.items, org, c.externalId.value) then st.(skipped := st.skipped + 1)
    else match ParseCategory(c.category)
      case None => st
      case Some(cat) =>
        var r := Ingest(st.items + [NewRecord(org, creator, c, cat, st.nextId, now)], st.nextId + 1, st.created + 1, st.skipped);
        assert r.items[|st.items|].externalId == c.externalId;
        assert r.items[..|st.items|] == st.items;
        r
  }

  /** `r` is `st` with records appended, each pending, of `org`, by `creator`, with an
      external id and the next fresh id; `created` counts exactly the appended records. */
  ghost predicate Extends(st: Ingest, r: Ingest, org: Id, creator: Id) {
    |st.items| <= |r.items| && r.items[..|st.items|] == st.items &&
    r.created == st.created + (|r.items| - |st.items|) &&
    r.nextId == st.nextId + (|r.items| - |st.items|) &&
    st.skipped <= r.skipped &&
    forall i :: |st.items| <= i < |r.items| ==>
      r.items[i].status == Pending && r.items[i].org == org && r.items[i].createdBy == creator &&
      r.items[i].externalId.Some? && r.items[i].id == st.nextId + (i - |st.items|)
  }

  lemma ExtendsTransitive(a: Ingest, b: Ingest, c: Ingest, org: Id, creator: Id)
    requires Extends(a, b, org, creator) && Extends(b, c, org, creator)
    ensures Extends(a, c, org, creator)
  {
    assert c.items[..|a.items|] == c.items[..|b.items|][..|a.items|];
    forall i | |a.items| <= i < |c.items|
      ensures c.items[i].status == Pending && c.items[i].org == org && c.items[i].createdBy == creator &&
              c.items[i].externalId.Some? && c.items[i].id == a.nextId + (i - |a.items|)
    {
      if i < |b.items| {
        assert c.items[i] == c.items[..|b.items|][i] == b.items[i];
      }
    }
  }

  /** The elements of one page, in page order. */
  function IngestAll(st: Ingest, org: Id, creator: Id, cs: seq<Candidate>, now: Time): (r: Ingest)
    ensures Extends(st, r, org, creator)
    ensures r.created + r.skipped <= st.created + st.skipped + |cs|
    decreases |cs|
  {
    if cs == [] then st
    else
      var prev := IngestAll(st, org, creator, cs[..|cs| - 1], now);
      var r := IngestOne(prev, org, creator, cs[|cs| - 1], now);
      ExtendsTransitive(st, prev, r, org, creator);
      r
  }

  /** The pages of one organisation, in list order; a page whose fetch or parse failed
      is passed over. */
  function CrawlUrls(st: Ingest, org: Id, creator: Id, urls: seq<string>,
                     fetch: string -> Option<seq<Element>>, env: Env, now: Time): (r: Ingest)
    ensures Extends(st, r, org, creator)
    decreases |urls|
  {
    if |urls| == 0 then st
    else
      var prev := CrawlUrls(st, org, creator, urls[..|urls| - 1], fetch, env, now);
      match fetch(urls[|urls| - 1])
      case None => prev
      case Some(els) =>
        var r := IngestAll(prev, org, creator, Candidates(env, els), now);
        ExtendsTransitive(st, prev, r, org, creator);
        r
  }

  /** The records the crawler may attribute a new announcement to. */
  predicate IsOrgAdmin(u: User, org: Id) {
    u.org == Some(org) && u.role == Admin
  }

  predicate IsOrgFaculty(u: User, org: Id) {
    u.org == Some(org) && u.role == Faculty
  }

  /** The creator: the first admin of the organisation, else its first faculty member. */
  function PickCreator(users: seq<User>, org: Id): (r: Option<Id>)
    ensures (exists u :: u in users && IsOrgAdmin(u, org)) ==>
              r.Some? && exists u :: u in users && IsOrgAdmin(u, org) && u.id == r.value
    ensures (!exists u :: u in users && IsOrgAdmin(u, org)) ==>
              (r.Some? <==> exists u :: u in users && IsOrgFaculty(u, org))
    ensures r.Some? ==> exists u :: u in users && (IsOrgAdmin(u, org) || IsOrgFaculty(u, org)) && u.id == r.value
  {
    match Query.First(users, (u: User) => IsOrgAdmin(u, org))
    case Some(i) => Some(users[i].id)
    case None =>
      match Query.First(users, (u: User) => IsOrgFaculty(u, org))
      case Some(i) => Some(users[i].id)
      case None => None
  }

  /** `scrapeAnnouncementsForOrg`, as a function of the collection before the run: nothing
      happens for a missing organisation, one without pages, or one with neither an admin
      nor a faculty member. */
  function Scrape(items: seq<Notification>, nextId: Id, org: Option<Organization>, users: seq<User>,
                  fetch: string -> Option<seq<Element>>, env: Env, now: Time): (r: Ingest)
    ensures org.None? || org.value.announcementUrls == [] || PickCreator(users, org.value.id).None?
            ==> r == Ingest(items, nextId, 0, 0)
    ensures org.Some? ==> Extends(Ingest(items, nextId, 0, 0), r, org.value.id, if PickCreator(users, org.value.id).Some? then PickCreator(users, org.value.id).value else 0)
  {
    if org.None? || |org.value.announcementUrls| == 0 then Ingest(items, nextId, 0, 0)
    else match PickCreator(users, org.value.id)
      case None => Ingest(items, nextId, 0, 0)
      case Some(creator) =>
        CrawlUrls(Ingest(items, nextId, 0, 0), org.value.id, creator, org.value.announcementUrls, fetch, env, now)
  }

  lemma IngestOnePreserves(st: Ingest, org: Id, creator: Id, c: Candidate, now: Time)
    requires Consistent(st.items, st.nextId)
    ensures Consistent(IngestOne(st, org, creator, c, now).items, IngestOne(st, org, creator, c, now).nextId)
  {
    if Kept(c) && !HasKey(st.items, org, c.externalId.value) && ParseCategory(c.category).Some? {
      InsertPreserves(st.items, st.nextId, NewRecord(org, creator, c, ParseCategory(c.category).value, st.nextId, now));
    }
  }

  /** One element of a page, on the stored collection and the two counters. */
  method IngestElement(store: Store, org: Id, creator: Id, c: Candidate, now: Time, created: nat, skipped: nat)
    returns (created': nat, skipped': nat)
    requires store.Valid()
    modifies store
    ensures store.Valid()
    ensures Ingest(store.items, store.nextId, created', skipped')
            == IngestOne(Ingest(old(store.items), old(store.nextId), created, skipped), org, creator, c, now)
  {
    IngestOnePreserves(Ingest(store.items, store.nextId, created, skipped), org, creator, c, now);
    created', skipped' := created, skipped;
    if Kept(c) {
      if HasKey(store.items, org, c.externalId.value) {
        skipped' := skipped + 1;
      } else {
        var cat := ParseCategory(c.category);
        if cat.Some? {
          store.items := store.items + [NewRecord(org, creator, c, cat.value, store.nextId, now)];
          store.nextId := store.nextId + 1;
          created' := created + 1;
        }
      }
    }
  }

  /** One more candidate of a page is one more step of the fold. */
  lemma IngestAllStep(st: Ingest, org: Id, creator: Id, cs: seq<Candidate>, j: nat, now: Time)
    requires j < |cs|
    ensures IngestAll(st, org, creator, cs[..j + 1], now) == IngestOne(IngestAll(st, org, creator, cs[..j], now), org, creator, cs[j], now)
  {
    assert cs[..j + 1][..j] == cs[..j];
  }

  /** The elements of one fetched page, in page order. */
  method IngestPage(store: Store, org: Id, creator: Id, els: seq<Element>, env: Env, now: Time,
                    created: nat, skipped: nat)
    returns (created': nat, skipped': nat)
    requires store.Valid()
    modifies store
    ensures store.Valid()
    ensures Ingest(store.items, store.nextId, created', skipped')
            == IngestAll(Ingest(old(store.items), old(store.nextId), created, skipped), org, creator, Candidates(env, els), now)
  {
    ghost var before := Ingest(store.items, store.nextId, created, skipped);
    ghost var cs := Candidates(env, els);
    created', skipped' := created, skipped;
    for j := 0 to |els|
      invariant store.Valid()
      invariant Ingest(store.items, store.nextId, created', skipped') == IngestAll(before, org, creator, cs[..j], now)
    {
      IngestAllStep(before, org, creator, cs, j, now);
      created', skipped' := IngestElement(store, org, creator, Extract(env, els[j]), now, created', skipped');
    }
    assert cs[..|els|] == cs;
  }

  /** `scrapeAnnouncementsForOrg`: the creator choice, then a loop over the pages and,
      within a page, over its elements, with the two counters. */
  method ScrapeAnnouncementsForOrg(store: Store, org: Option<Organization>, users: seq<User>,
                                   fetch: string -> Option<seq<Element>>, env: Env, now: Time)
    returns (created: nat, skipped: nat)
    requires store.Valid()
    modifies store
    ensures store.Valid()
    ensures Ingest(store.items, store.nextId, created, skipped)
            == Scrape(old(store.items), old(store.nextId), org, users, fetch, env, now)
  {
    if org.None? || |org.value.announcementUrls| == 0 {
      return 0, 0;
    }
    var creator := PickCreator(users, org.value.id);
    if creator.None? {
      return 0, 0;
    }
    var o := org.value;
    var urls := o.announcementUrls;
    ghost var start := Ingest(store.items, store.nextId, 0, 0);
    created, skipped := 0, 0;
    for i := 0 to |urls|
      invariant store.Valid()
      invariant Ingest(store.items, store.nextId, created, skipped)
                == CrawlUrls(start, o.id, creator.value, urls[..i], fetch, env, now)
    {
      assert urls[..i + 1][..i] == urls[..i];
      var page := fetch(urls[i]);
      if page.Some? {
        created, skipped := IngestPage(store, o.id, creator.value, page.value, env, now, created, skipped);
      }
    }
    assert urls[..|urls|] == urls;
  }

  /** A run's line in the summary of `runAll`. */
  datatype Summary = Summary(org: string, created: nat, skipped: nat)

  /** `Organization.find({ scrapeEnabled: true })`. */
  function Enabled(orgs: seq<Organization>): (r: seq<Organization>)
    ensures forall i :: 0 <= i < |r| ==> r[i].scrapeEnabled && r[i] in orgs
    ensures forall o :: o in orgs && o.scrapeEnabled ==> o in r
  {
    Query.Filter(orgs, (o: Organization) => o.scrapeEnabled)
  }

  /** The collection and the summary while `runAll` runs. */
  datatype Run = Run(items: seq<Notification>, nextId: Id, summary: seq<Summary>)

  /** A crawl of an organisation only appends, and only records of that organisation. */
  lemma ScrapeAppendsOwn(items: seq<Notification>, nextId: Id, o: Organization, users: seq<User>,
                         fetch: string -> Option<seq<Element>>, env: Env, now: Time)
    ensures var r := Scrape(items, nextId, Some(o), users, fetch, env, now);
            |items| <= |r.items| && r.items[..|items|] == items &&
            forall i :: |items| <= i < |r.items| ==> r.items[i].org == o.id
  {
  }

  /** The record belongs to one of the organisations. */
  predicate OfOneOf(n: Notification, orgs: seq<Organization>) {
    exists o :: o in orgs && n.org == o.id
  }

  /** The records the run of the last organisation appends, after those the earlier runs
      appended, all belong to one of the organisations. */
  lemma NewItemsBelong(items: seq<Notification>, mid: seq<Notification>, last: seq<Notification>, orgs: seq<Organization>)
    requires orgs != []
    requires |items| <= |mid| && mid[..|items|] == items
    requires |mid| <= |last| && last[..|mid|] == mid
    requires forall i :: |items| <= i < |mid| ==> OfOneOf(mid[i], orgs[..|orgs| - 1])
    requires forall i :: |mid| <= i < |last| ==> last[i].org == orgs[|orgs| - 1].id
    ensures |items| <= |last| && last[..|items|] == items
    ensures forall i :: |items| <= i < |last| ==> OfOneOf(last[i], orgs)
  {
    assert last[..|items|] == last[..|mid|][..|items|];
    forall i | |items| <= i < |last|
      ensures OfOneOf(last[i], orgs)
    {
      if i < |mid| {
        assert last[i] == last[..|mid|][i] == mid[i];
        var o :| o in orgs[..|orgs| - 1] && mid[i].org == o.id;
        assert o in orgs;
      } else {
        var o := orgs[|orgs| - 1];
        assert o in orgs && last[i].org == o.id;
      }
    }
  }

  /** `runAll` over the enabled organisations, as a function of the collection before it:
      one summary line per organisation in query order, and every record it adds belongs
      to one of those organisations. */
  function RunOrgs(items: seq<Notification>, nextId: Id, orgs: seq<Organization>, users: seq<User>,
                   fetch: string -> Option<seq<Element>>, env: Env, now: Time): (r: Run)
    ensures |r.summary| == |orgs|
    ensures forall i :: 0 <= i < |orgs| ==> r.summary[i].org == orgs[i].name
    ensures |items| <= |r.items| && r.items[..|items|] == items
    ensures forall i :: |items| <= i < |r.items| ==> OfOneOf(r.items[i], orgs)
    decreases |orgs|
  {
    if |orgs| == 0 then Run(items, nextId, [])
    else
      var init := orgs[..|orgs| - 1];
      var prev := RunOrgs(items, nextId, init, users, fetch, env, now);
      var r := RunOne(prev, orgs[|orgs| - 1], users, fetch, env, now);
      NewItemsBelong(items, prev.items, r.items, orgs);
      assert forall i :: 0 <= i < |orgs| ==> r.summary[i].org == orgs[i].name by {
        forall i | 0 <= i < |orgs| ensures r.summary[i].org == orgs[i].name {
          if i < |init| {
            assert r.summary[i] == prev.summary[i];
            assert prev.summary[i].org == init[i].name;
            assert init[i] == orgs[i];
          } else {
            assert i == |prev.summary|;
          }
        }
      }
      r
  }

  /** One organisation of `runAll`: its crawl, and its line appended to the summary. */
  function RunOne(prev: Run, o: Organization, users: seq<User>,
                  fetch: string -> Option<seq<Element>>, env: Env, now: Time): (r: Run)
    ensures |r.summary| == |prev.summary| + 1
    ensures forall i :: 0 <= i < |prev.summary| ==> r.summary[i] == prev.summary[i]
    ensures r.summary[|prev.summary|].org == o.name
    ensures var s := Scrape(prev.items, prev.nextId, Some(o), users, fetch, env, now);
            r.summary[|prev.summary|] == Summary(o.name, s.created, s.skipped) &&
            r.items == s.items && r.nextId == s.nextId
    ensures |prev.items| <= |r.items| && r.items[..|prev.items|] == prev.items
    ensures forall i :: |prev.items| <= i < |r.items| ==> r.items[i].org == o.id
  {
    var s := Scrape(prev.items, prev.nextId, Some(o), users, fetch, env, now);
    ScrapeAppendsOwn(prev.items, prev.nextId, o, users, fetch, env, now);
    Run(s.items, s.nextId, prev.summary + [Summary(o.name, s.created, s.skipped)])
  }

  /** One more organisation is one more step of `runAll`. */
  lemma RunOrgsStep(items: seq<Notification>, nextId: Id, orgs: seq<Organization>, k: nat, users: seq<User>,
                    fetch: string -> Option<seq<Element>>, env: Env, now: Time)
    requires k < |orgs|
    ensures RunOrgs(items, nextId, orgs[..k + 1], users, fetch, env, now)
            == RunOne(RunOrgs(items, nextId, orgs[..k], users, fetch, env, now), orgs[k], users, fetch, env, now)
  {
    assert orgs[..k + 1][..k] == orgs[..k];
  }

  /** The summary lines of the first `k` organisations do not depend on the later ones. */
  lemma {:induction false} RunOrgsPrefix(items: seq<Notification>, nextId: Id, orgs: seq<Organization>, k: nat, users: seq<User>,
                                         fetch: string -> Option<seq<Element>>, env: Env, now: Time)
    requires k <= |orgs|
    ensures RunOrgs(items, nextId, orgs, users, fetch, env, now).summary[..k]
            == RunOrgs(items, nextId, orgs[..k], users, fetch, env, now).summary
    decreases |orgs|
  {
    if k == |orgs| {
      assert orgs[..k] == orgs;
    } else {
      var init := orgs[..|orgs| - 1];
      var prev := RunOrgs(items, nextId, init, users, fetch, env, now);
      var r := RunOrgs(items, nextId, orgs, users, fetch, env, now);
      assert r == RunOne(prev, orgs[|orgs| - 1], users, fetch, env, now);
      assert r.summary[..k] == prev.summary[..k];
      RunOrgsPrefix(items, nextId, init, k, users, fetch, env, now);
      assert init[..k] == orgs[..k];
    }
  }

  /** The `k`-th summary line of `runAll` carries the `k`-th organisation's name and the
      two counts of its crawl, run on the collection the earlier organisations left. */
  lemma RunOrgsLine(items: seq<Notification>, nextId: Id, orgs: seq<Organization>, k: nat, users: seq<User>,
                    fetch: string -> Option<seq<Element>>, env: Env, now: Time)
    requires k < |orgs|
    ensures var before := RunOrgs(items, nextId, orgs[..k], users, fetch, env, now);
            var s := Scrape(before.items, before.nextId, Some(orgs[k]), users, fetch, env, now);
            RunOrgs(items, nextId, orgs, users, fetch, env, now).summary[k] == Summary(orgs[k].name, s.created, s.skipped)
  {
    var before := RunOrgs(items, nextId, orgs[..k], users, fetch, env, now);
    RunOrgsPrefix(items, nextId, orgs, k + 1, users, fetch, env, now);
    RunOrgsStep(items, nextId, orgs, k, users, fetch, env, now);
    var line := RunOrgs(items, nextId, orgs[..k + 1], users, fetch, env, now).summary;
    assert RunOrgs(items, nextId, orgs, users, fetch, env, now).summary[k] == line[k];
  }

  /** `runAll`: crawls the enabled organisations in query order and collects one summary
      line per organisation. */
  method RunAll(store: Store, orgs: seq<Organization>, users: seq<User>,
                fetch: string -> Option<seq<Element>>, env: Env, now: Time)
    returns (summary: seq<Summary>)
    requires store.Valid()
    modifies store
    ensures store.Valid()
    ensures Run(store.items, store.nextId, summary)
            == RunOrgs(old(store.items), old(store.nextId), Enabled(orgs), users, fetch, env, now)
  {
    var enabled := Enabled(orgs);
    summary := [];
    for k := 0 to |enabled|
      invariant store.Valid()
      invariant Run(store.items, store.nextId, summary)
                == RunOrgs(old(store.items), old(store.nextId), enabled[..k], users, fetch, env, now)
    {
      RunOrgsStep(old(store.items), old(store.nextId), enabled, k, users, fetch, env, now);
      var created, skipped := ScrapeAnnouncementsForOrg(store, Some(enabled[k]), users, fetch, env, now);
      summary := summary + [Summary(enabled[k].name, created, skipped)];
    }
    assert enabled[..|enabled|] == enabled;
  }

  /** The candidates of the pages that fetched, in URL order and then page order. */
  function Pages(urls: seq<string>, fetch: string -> Option<seq<Element>>, env: Env): seq<Candidate>
    decreases |urls|
  {
    if |urls| == 0 then []
    else Pages(urls[..|urls| - 1], fetch, env) + PageOf(urls[|urls| - 1], fetch, env)
  }

  /** The candidates of one page, none when its fetch or parse failed. */
  function PageOf(u: string, fetch: string -> Option<seq<Element>>, env: Env): seq<Candidate> {
    match fetch(u)
    case None => []
    case Some(els) => Candidates(env, els)
  }

  /** The number of candidates counted as skipped against `items`. */
  function Hits(items: seq<Notification>, org: Id, cs: seq<Candidate>): nat
    decreases |cs|
  {
    if cs == [] then 0
    else Hits(items, org, cs[..|cs| - 1]) + if Hit(items, org, cs[|cs| - 1]) then 1 else 0
  }

  lemma {:induction false} IngestAllAppend(st: Ingest, org: Id, creator: Id, a: seq<Candidate>, b: seq<Candidate>, now: Time)
    ensures IngestAll(st, org, creator, a + b, now) == IngestAll(IngestAll(st, org, creator, a, now), org, creator, b, now)
    decreases |b|
  {
    if b == [] {
      assert a + b == a;
    } else {
      assert (a + b)[..|a + b| - 1] == a + b[..|b| - 1];
      assert (a + b)[|a + b| - 1] == b[|b| - 1];
      IngestAllAppend(st, org, creator, a, b[..|b| - 1], now);
    }
  }

  /** Crawling a list of pages is ingesting, in order, every candidate of the pages that
      fetched. */
  lemma {:induction false} CrawlIsIngestAll(st: Ingest, org: Id, creator: Id, urls: seq<string>,
                                            fetch: string -> Option<seq<Element>>, env: Env, now: Time)
    ensures CrawlUrls(st, org, creator, urls, fetch, env, now) == IngestAll(st, org, creator, Pages(urls, fetch, env), now)
    decreases |urls|
  {
    if |urls| > 0 {
      var init := urls[..|urls| - 1];
      CrawlIsIngestAll(st, org, creator, init, fetch, env, now);
      match fetch(urls[|urls| - 1])
      case None =>
        assert Pages(init, fetch, env) + [] == Pages(init, fetch, env);
      case Some(els) =>
        IngestAllAppend(st, org, creator, Pages(init, fetch, env), Candidates(env, els), now);
    }
  }

  lemma {:induction false} PagesAppend(a: seq<string>, b: seq<string>, fetch: string -> Option<seq<Element>>, env: Env)
    ensures Pages(a + b, fetch, env) == Pages(a, fetch, env) + Pages(b, fetch, env)
    decreases |b|
  {
    if |b| == 0 {
      assert a + b == a;
    } else {
      var init := b[..|b| - 1];
      var u := b[|b| - 1];
      PagesAppend(a, init, fetch, env);
      AppendSnoc(a, b);
      PagesSnoc(a + init, u, fetch, env);
      PagesSnoc(init, u, fetch, env);
      AppendAssoc(Pages(a, fetch, env), Pages(init, fetch, env), PageOf(u, fetch, env));
    }
  }

  /** One more URL at the end adds its page at the end. */
  lemma PagesSnoc(urls: seq<string>, u: string, fetch: string -> Option<seq<Element>>, env: Env)
    ensures Pages(urls + [u], fetch, env) == Pages(urls, fetch, env) + PageOf(u, fetch, env)
  {
    var s := urls + [u];
    assert s[..|s| - 1] == urls;
  }

  /** A page whose fetch or parse fails abandons only that page: the run is the run
      without it, and the pages after it are still crawled. */
  lemma FetchFailureIsolated(st: Ingest, org: Id, creator: Id, before: seq<string>, u: string, after: seq<string>,
                             fetch: string -> Option<seq<Element>>, env: Env, now: Time)
    requires fetch(u).None?
    ensures CrawlUrls(st, org, creator, before + [u] + after, fetch, env, now)
            == CrawlUrls(st, org, creator, before + after, fetch, env, now)
  {
    var with := before + [u] + after;
    var without := before + after;
    PagesSkipFailed(before, u, after, fetch, env);
    CrawlIsIngestAll(st, org, creator, with, fetch, env, now);
    CrawlIsIngestAll(st, org, creator, without, fetch, env, now);
  }

  lemma PagesSkipFailed(before: seq<string>, u: string, after: seq<string>,
                        fetch: string -> Option<seq<Element>>, env: Env)
    requires fetch(u).None?
    ensures Pages(before + [u] + after, fetch, env) == Pages(before + after, fetch, env)
  {
    PagesAppend(before + [u], after, fetch, env);
    PagesAppend(before, [u], fetch, env);
    PagesAppend(before, after, fetch, env);
    assert Pages([u], fetch, env) == [] by {
      assert [u][..0] == [];
      assert Pages([u], fetch, env) == Pages([], fetch, env) + PageOf(u, fetch, env);
    }
    calc {
      Pages(before + [u] + after, fetch, env);
      Pages(before + [u], fetch, env) + Pages(after, fetch, env);
      Pages(before, fetch, env) + Pages([u], fetch, env) + Pages(after, fetch, env);
      { assert Pages(before, fetch, env) + [] == Pages(before, fetch, env); }
      Pages(before, fetch, env) + Pages(after, fetch, env);
    }
  }

  lemma HasKeyGrows(items: seq<Notification>, items': seq<Notification>, org: Id, k: string)
    requires |items| <= |items'| && items'[..|items|] == items
    requires HasKey(items, org, k)
    ensures HasKey(items', org, k)
  {
    var i :| 0 <= i < |items| && items[i].org == org && items[i].externalId == Some(k);
    assert items'[i] == items'[..|items|][i];
  }

  lemma {:induction false} HitsGrow(items: seq<Notification>, items': seq<Notification>, org: Id, cs: seq<Candidate>)
    requires |items| <= |items'| && items'[..|items|] == items
    ensures Hits(items, org, cs) <= Hits(items', org, cs)
    decreases |cs|
  {
    if cs != [] {
      HitsGrow(items, items', org, cs[..|cs| - 1]);
      var c := cs[|cs| - 1];
      if Hit(items, org, c) {
        HasKeyGrows(items, items', org, c.externalId.value);
      }
    }
  }

  /** After ingesting a list, every candidate in it is inert: stored, discarded, or with
      a category the schema refuses. */
  lemma {:induction false} IngestAllCovers(st: Ingest, org: Id, creator: Id, cs: seq<Candidate>, now: Time)
    ensures forall c :: c in cs ==> Inert(IngestAll(st, org, creator, cs, now).items, org, c)
    decreases |cs|
  {
    if cs != [] {
      var init := cs[..|cs| - 1];
      var prev := IngestAll(st, org, creator, init, now);
      var r := IngestAll(st, org, creator, cs, now);
      IngestAllCovers(st, org, creator, init, now);
      assert r == IngestOne(prev, org, creator, cs[|cs| - 1], now);
      forall c | c in cs ensures Inert(r.items, org, c) {
        if c in init {
          if Kept(c) && HasKey(prev.items, org, c.externalId.value) {
            HasKeyGrows(prev.items, r.items, org, c.externalId.value);
          }
        } else {
          assert cs == init + [cs[|cs| - 1]];
        }
      }
    }
  }

  /** Ingesting only inert candidates changes nothing but the skipped counter, which
      grows by the number of already stored keys. */
  lemma {:induction false} IngestAllInert(st: Ingest, org: Id, creator: Id, cs: seq<Candidate>, now: Time)
    requires forall c :: c in cs ==> Inert(st.items, org, c)
    ensures IngestAll(st, org, creator, cs, now) == st.(skipped := st.skipped + Hits(st.items, org, cs))
    decreases |cs|
  {
    if cs != [] {
      var init := cs[..|cs| - 1];
      assert forall c :: c in init ==> c in cs;
      IngestAllInert(st, org, creator, init, now);
    }
  }

  /** Every candidate a run counts, as created or as skipped, is stored once it is over. */
  lemma {:induction false} IngestAllCounted(st: Ingest, org: Id, creator: Id, cs: seq<Candidate>, now: Time)
    ensures var r := IngestAll(st, org, creator, cs, now);
            r.created + r.skipped <= st.created + st.skipped + Hits(r.items, org, cs)
    decreases |cs|
  {
    if cs != [] {
      var init := cs[..|cs| - 1];
      var prev := IngestAll(st, org, creator, init, now);
      var r := IngestAll(st, org, creator, cs, now);
      IngestAllCounted(st, org, creator, init, now);
      assert r == IngestOne(prev, org, creator, cs[|cs| - 1], now);
      HitsGrow(prev.items, r.items, org, init);
    }
  }

  /** Crawling an organisation twice over unchanged pages: the second run inserts nothing
      and leaves the collection as the first run left it, and it counts as skipped every
      candidate the first run counted, created or skipped. */
  lemma ScrapeTwiceIsIdempotent(items: seq<Notification>, nextId: Id, o: Organization, users: seq<User>,
                                fetch: string -> Option<seq<Element>>, env: Env, now: Time, now': Time)
    ensures var r1 := Scrape(items, nextId, Some(o), users, fetch, env, now);
            var r2 := Scrape(r1.items, r1.nextId, Some(o), users, fetch, env, now');
            r2.items == r1.items && r2.nextId == r1.nextId && r2.created == 0 &&
            r1.created + r1.skipped <= r2.skipped
  {
    var creator := PickCreator(users, o.id);
    if |o.announcementUrls| > 0 && creator.Some? {
      var cs := Pages(o.announcementUrls, fetch, env);
      var st := Ingest(items, nextId, 0, 0);
      CrawlIsIngestAll(st, o.id, creator.value, o.announcementUrls, fetch, env, now);
      var r1 := IngestAll(st, o.id, creator.value, cs, now);
      CrawlIsIngestAll(Ingest(r1.items, r1.nextId, 0, 0), o.id, creator.value, o.announcementUrls, fetch, env, now');
      IngestAllCovers(st, o.id, creator.value, cs, now);
      IngestAllInert(Ingest(r1.items, r1.nextId, 0, 0), o.id, creator.value, cs, now');
      IngestAllCounted(st, o.id, creator.value, cs, now);
    }
  }

  /** `runAll` only adds records of organisations whose crawling is enabled. */
  lemma RunAllOnlyEnabled(items: seq<Notification>, nextId: Id, orgs: seq<Organization>, users: seq<User>,
                          fetch: string -> Option<seq<Element>>, env: Env, now: Time)
    ensures var r := RunOrgs(items, nextId, Enabled(orgs), users, fetch, env, now);
            forall i :: |items| <= i < |r.items| ==>
              exists o :: o in orgs && o.scrapeEnabled && r.items[i].org == o.id
  {
    var r := RunOrgs(items, nextId, Enabled(orgs), users, fetch, env, now);
    forall i | |items| <= i < |r.items| ensures exists o :: o in orgs && o.scrapeEnabled && r.items[i].org == o.id {
      var o :| o in Enabled(orgs) && r.items[i].org == o.id;
      var k :| 0 <= k < |Enabled(orgs)| && Enabled(orgs)[k] == o;
    }
  }
}
