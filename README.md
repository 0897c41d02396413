# A verified model of the sih-prototype server core

The sih-prototype server is an Express and Mongo back end for a student-achievement
portal. Organisations (colleges) register faculty, administrators and students. Faculty
publish and review **notifications**, which are announcements of events. A **crawler**
reads each organisation's announcement pages and files every new event as a pending
notification. Students submit **activities**, which are achievement claims with an
optional proof file. Faculty of the same organisation approve or reject them. Approved
claims make up the student's **portfolio**. Access is guarded by a bearer-token
middleware, a role gate, per-organisation isolation, a source-URL allowlist per
organisation and a CORS origin policy.

This project models that core in Dafny.

- The Mongoose schemas become datatypes with their enumerations and required fields
  (`Models`).
- The collections become classes holding a sequence of records, each with the invariant
  every handler keeps (`NotificationStore.Store`, `Activities.ActivityStore`,
  `AuthRoutes.UserStore`).
- Each handler is a decision function of the loaded state: which error it answers or
  which record it produces. Each state-changing handler is also a method on its store,
  proved equal to its decision function.
- The crawler is modelled as the loops it is: pages, then elements, then the two counters.
  It is proved equal to a fold over the fetched candidates. The properties are proved
  about that fold: deduplication, idempotence, and isolation of failed pages.
- The Mongo queries the handlers run (`findOne`, `find`, `sort`, `limit`) are modelled in
  `Query`.
- Foreign calls are parameters:
  - `new URL(...).hostname` and `new Date(...)` (`Common.Env`);
  - bcrypt and JSON Web Token signing (`AuthRoutes.Crypto`);
  - token verification (`verify`);
  - the page fetch together with the cheerio parse (`fetch`, which gives the page's
    `.event` elements or nothing).
- `Scenario` runs the repository's demo data through the model. That data is the seeded
  organisation and users, and the two events of the mock announcements page.

Where the documented behaviour and the code differ, the model follows the code. The
documented behaviour lets an administrator delete a notification, but the delete route
sits behind `requireRole('faculty')`. So only the approver can delete, and
`Notifications.AdminCannotDelete` proves it.

## Model

| member | source | states |
|---|---|---|
| Common.EnvFlag | server/src/routes/notifications.js:26 | a `(X \|\| 'true').toLowerCase() === 'true'` flag is on when unset or empty, on for "true" and off for "false" |
| Common.ToLowerIsLower | server/src/routes/auth.js:19 | a lowercased string has no upper-case letter, and lowercasing it again changes nothing |
| Common.Trim | server/src/jobs/scraper.js:31 | `trim()` gives the infix of the string between its leading and trailing white space, and neither end of the result is white space; white space is ECMAScript's: tab, vertical tab, form feed, the byte-order mark, every Zs space separator and the four line terminators |
| Common.TrimAllSpace | server/src/jobs/scraper.js:31 | a string made only of white space trims to the empty string |
| Common.IdeographicSpaceTrimmed | server/src/jobs/scraper.js:31 | the ideographic space U+3000 alone trims to the empty string, so a `.title` of it counts as no title |
| Models.ParseCategory | server/src/models/Notification.js:8-13 | the enum validator accepts only spellings that read back as the category they name |
| Models.ParseActivityCategory | server/src/models/Activity.js:7-12 | the activity validator accepts only spellings of its categories, and never 'general' |
| Models.CategoryRoundTrip | server/src/models/Notification.js:10 | every category's spelling is accepted and reads back as that category, and only that spelling does |
| Models.ActivityCategoryIsNotificationCategoryButGeneral | server/src/models/Activity.js:9 | the activity enum is exactly the notification enum without 'general' |
| Query.FindOne | server/src/routes/auth.js:19 | `findOne` gives a stored record that matches, and nothing only when no record matches |
| Query.ReplaceWhere | server/src/routes/notifications.js:113 | `save()` puts the document in the place of every record it matches and leaves every other record where it was |
| Query.Filter | server/src/routes/activities.js:64 | `find` returns only stored matching records, never more often than the store holds them, and every match appears |
| Query.FilterCount | server/src/routes/activities.js:64 | `find` returns each matching record exactly as often as the store holds it, and every other record not at all |
| Query.FilterAppend | server/src/routes/activities.js:64 | `find` keeps store order: the matches of a concatenation are the matches of the first part followed by those of the second |
| Query.Sort | server/src/routes/notifications.js:64 | `sort` returns a permutation of its input, ordered by the date, with a missing date first in ascending order |
| Query.Take | server/src/routes/notifications.js:78 | `limit(n)` returns the first n records, or all of them when there are fewer |
| Middleware.BearerToken | server/src/middleware/auth.js:5-6 | a token exists exactly when the header starts with the exact text "Bearer ", and the header is that prefix followed by the token |
| Middleware.RequireAuth | server/src/middleware/auth.js:3-19 | 401 'Missing Authorization token' without a non-empty bearer token; 401 'Invalid or expired token' when verification fails; otherwise the caller projected from the payload |
| Middleware.RequireRole | server/src/middleware/auth.js:22-27 | 401 without a caller; 403 unless the role is exactly the required one; otherwise the caller unchanged |
| Middleware.BearerRoundTrip | server/src/middleware/auth.js:5-15 | a header "Bearer " + token yields exactly that token, and authenticates as the payload the token verifies to |
| Middleware.LowerCaseSchemeRefused | server/src/middleware/auth.js:6-7 | a header starting "bearer " is refused with 401, whatever the token |
| Middleware.AdminIsNotFaculty | server/src/middleware/auth.js:25 | an administrator fails the faculty gate, and a faculty member fails the admin gate: there is no role hierarchy |
| Workflow.OrgGuard | server/src/routes/notifications.js:159-161 | 404 for a missing record, then 403 unless the record and the caller name the same organisation; it passes exactly otherwise |
| Workflow.ReviewGuard | server/src/routes/notifications.js:89-94 | the review guards in their fixed order: role 403, then 404, then cross-org 403, then 400 unless pending; it passes exactly when all hold |
| Allowlist.FindOrg | server/src/routes/notifications.js:19-20 | `Organization.findById` finds the organisation with that id, and nothing for a null or unknown id |
| Allowlist.ExtractHost | server/src/routes/notifications.js:7-14 | a host exists exactly when the URL parses, and it is the parsed hostname in lowercase |
| Allowlist.IsAllowedHostForOrg | server/src/routes/notifications.js:16-34 | the set-building loop and the search loop return exactly the allowlist relation `IsAllowed` |
| Allowlist.FailsClosed | server/src/routes/notifications.js:16-20 | an unparsable URL, an empty host, or a missing or unknown organisation is never admitted |
| Allowlist.MatchesIff | server/src/routes/notifications.js:29-33 | a host matches a domain iff it equals the domain, or ends with the domain preceded by a dot |
| Allowlist.SubdomainMatches | server/src/routes/notifications.js:31 | `sub.demo.edu` matches `demo.edu` |
| Allowlist.BareSuffixDoesNotMatch | server/src/routes/notifications.js:29-33 | a host that only ends with the domain's text, like `evildemo.edu` for `demo.edu`, does not match |
| Allowlist.AllowedIff | server/src/routes/notifications.js:16-34 | admitted iff the host parses non-empty, the organisation exists, and one of these holds: the host is a loopback host while the flag is on; it matches a lowercased allowed domain; it matches the website's host |
| Allowlist.WebsiteHostAllowed | server/src/routes/notifications.js:22-24 | the website's host is allowed implicitly, with its subdomains |
| Allowlist.CaseInsensitive | server/src/routes/notifications.js:10 | two URLs whose hosts differ only in letter case get the same answer |
| Allowlist.LocalSourcesAdmitted | server/src/routes/notifications.js:26-27 | while ALLOW_LOCAL_SOURCES is on, `localhost` and `127.0.0.1` are admitted for any existing organisation |
| Allowlist.AddingDomainIsMonotone | server/src/routes/notifications.js:21-33 | adding a domain to the list never withdraws admission from a host |
| NotificationStore.FindById | server/src/routes/notifications.js:91 | `findById` finds a stored record with that id, and nothing only when none has it |
| NotificationStore.Save | server/src/routes/notifications.js:113 | `save()` replaces the record with that id and leaves every other record as it was |
| NotificationStore.Remove | server/src/routes/notifications.js:148 | `deleteOne()` leaves exactly the records with another id |
| NotificationStore.InsertPreserves | server/src/routes/notifications.js:44-52 | inserting an insertable record keeps the collection's invariant |
| NotificationStore.SavePreserves | server/src/routes/notifications.js:110-113 | saving a record under its own id, organisation and external id keeps the invariant |
| NotificationStore.RemovePreserves | server/src/routes/notifications.js:148 | deleting keeps the invariant |
| NotificationStore.Store.constructor | server/src/models/Notification.js:3-26 | the empty collection satisfies the invariant |
| Notifications.CreateDecision | server/src/routes/notifications.js:37-52 | role 403, then 400 'title required', then 400 for a given source URL the allowlist refuses, then 500 for a missing organisation or an unknown category; otherwise a pending record of the caller's organisation and by the caller, with the request's fields and category 'general' by default |
| Notifications.CreatedIsInsertable | server/src/routes/notifications.js:44-52 | a created record may be inserted under the next id without breaking the invariant |
| Notifications.Create | server/src/routes/notifications.js:37-53 | the handler answers the decision, appends the record on success, changes nothing on failure, and keeps the invariant |
| Notifications.ApproveDecision | server/src/routes/notifications.js:89-112 | review guards, then 400 for a refused link unless SKIP_SOURCE_VALIDATION lets it be dropped; on success approved by the caller at `now`, the link kept or dropped, `endsAt` replaced only by a date that parses, nothing else changed |
| Notifications.ApprovedLinkIsAllowed | server/src/routes/notifications.js:95-103 | an approved record never keeps a link the allowlist refuses, and a kept link is the original one |
| Notifications.Approve | server/src/routes/notifications.js:89-114 | the handler answers the decision, saves the approved record, changes nothing on failure, and keeps the invariant |
| Notifications.RejectDecision | server/src/routes/notifications.js:122-130 | review guards; on success rejected with the given reason, or 'Not approved', and nothing else changed |
| Notifications.Reject | server/src/routes/notifications.js:122-132 | the handler answers the decision, saves the rejected record, changes nothing on failure, and keeps the invariant |
| Notifications.ProcessedIsFinal | server/src/routes/notifications.js:89-130 | a processed record can be neither approved nor rejected again, with 400 for a faculty member of its organisation |
| Notifications.SecondApprovalFails | server/src/routes/notifications.js:94 | a second approval of an approved record fails with 400 'Already processed' |
| Notifications.DeleteDecision | server/src/routes/notifications.js:140-147 | deletion passes exactly for a faculty caller of the record's organisation who is its approver; otherwise it fails with the role, 404 or cross-org errors |
| Notifications.Delete | server/src/routes/notifications.js:140-149 | the handler removes the record exactly when the decision allows it, and keeps the invariant |
| Notifications.AdminCannotDelete | server/src/routes/notifications.js:146 | the administrator branch is dead: an administrator is always refused, by the faculty gate |
| Notifications.OnlyApprovedDeletable | server/src/routes/notifications.js:145-147 | in a consistent collection, only an approved record can be deleted |
| Notifications.PendingList | server/src/routes/notifications.js:61-65 | faculty only; exactly the pending records of the caller's organisation, each as often as it is stored and no other record, newest `createdAt` first |
| Notifications.ApprovedList | server/src/routes/notifications.js:74-80 | only approved records of the caller's organisation, none more often than it is stored, newest `approvedAt` first, and min(50, their number) of them |
| Notifications.ApprovedListKeepsNewest | server/src/routes/notifications.js:76-78 | a record left out of the approved list was approved no later than every listed one, and is left out only when the list holds 50 |
| Notifications.BenefitEntry | server/src/routes/notifications.js:163-173 | the table has no entry exactly for 'conference' and 'other', and the general text is the entry of 'general' alone |
| Notifications.Advice | server/src/routes/notifications.js:174 | a category's own entry, else the general one; the general text is given exactly for 'general', 'conference' and 'other' |
| Notifications.AdviceDistinguishes | server/src/routes/notifications.js:163-174 | two different categories that have entries get different advice |
| Notifications.Insights | server/src/routes/notifications.js:157-176 | 404, then cross-org 403; otherwise the advice text of the record's category |
| Notifications.TenantIsolation | server/src/routes/notifications.js:89-161 | a caller of another organisation can neither read insights nor approve, reject or delete, whatever the role |
| Notifications.ScrapeNow | server/src/routes/notifications.js:184-191 | 400 'No organization' exactly when the caller's organisation is not found; otherwise the crawl of that organisation |
| Notifications.ScrapeNowHandler | server/src/routes/notifications.js:184-191 | the handler answers the decision; on 400 'No organization' the records and the next id are unchanged, otherwise the store is as the crawl leaves it; the invariant is kept |
| Notifications.ScrapeNowIgnoresRoleAndFlag | server/src/routes/notifications.js:184-190 | a student with crawling switched off triggers the same crawl as a faculty member with it on |
| Crawler.ParseDateSafe | server/src/jobs/scraper.js:8-12 | no date for a missing or empty attribute; otherwise the date the platform parses, if any |
| Crawler.Extract | server/src/jobs/scraper.js:30-36 | each data attribute wins when non-empty, else the link href, the trimmed `.title` text or 'general'; the body is the trimmed `.body` text, and absent when empty |
| Crawler.Candidates | server/src/jobs/scraper.js:29-36 | one candidate per `.event` element, in page order |
| Crawler.ExtractRendered | server/src/jobs/scraper.js:30-36 | extraction reads back every announcement written in the demo page's markup |
| Crawler.IngestOne | server/src/jobs/scraper.js:37-54 | a candidate without an id or a title, or with a category the enum refuses, changes nothing; a stored key only adds one to `skipped`; otherwise exactly one pending record of the organisation is appended and `created` grows by one; the appended record is the candidate's: its title, body, link, dates and external id, the enum category, the organisation, the creator, the next id and `now`; afterwards the key is stored or the candidate is inert |
| Crawler.IngestAll | server/src/jobs/scraper.js:29-55 | a page only appends records that are pending, of the organisation, by the creator, with an external id and consecutive fresh ids; `created` counts them, and the counters grow by at most the number of candidates |
| Crawler.CrawlUrls | server/src/jobs/scraper.js:25-60 | the pages, in order, only append such records |
| Crawler.PickCreator | server/src/jobs/scraper.js:19-22 | an administrator of the organisation if there is one, else a faculty member, else none |
| Crawler.Scrape | server/src/jobs/scraper.js:14-62 | a missing organisation, one without pages, or one without an administrator or faculty member gives {0, 0} and no change; otherwise the run only appends the organisation's records |
| Crawler.IngestOnePreserves | server/src/jobs/scraper.js:39-54 | one element keeps the collection's invariant, including one record per (organisation, external id) |
| Crawler.IngestElement | server/src/jobs/scraper.js:29-54 | the element callback on the store is the step `IngestOne`, and it keeps the invariant |
| Crawler.IngestPage | server/src/jobs/scraper.js:28-55 | the element loop on the store is the fold `IngestAll` over the page's candidates |
| Crawler.ScrapeAnnouncementsForOrg | server/src/jobs/scraper.js:14-62 | the creator choice and the page loop on the store give exactly `Scrape`, and keep the invariant |
| Crawler.Enabled | server/src/jobs/scraper.js:65 | exactly the organisations with crawling enabled |
| Crawler.ScrapeAppendsOwn | server/src/jobs/scraper.js:42-53 | a crawl only appends, and only records of the organisation crawled |
| Crawler.RunOrgs | server/src/jobs/scraper.js:64-72 | one summary line per organisation, named after it, in query order; every record added belongs to one of those organisations |
| Crawler.RunOrgsPrefix | server/src/jobs/scraper.js:66-70 | the summary lines of the first k organisations are those of a run over the first k alone |
| Crawler.RunOrgsLine | server/src/jobs/scraper.js:67-70 | the k-th summary line carries the k-th organisation's name and the `created` and `skipped` of its crawl, run on the collection the earlier organisations left |
| Crawler.RunOne | server/src/jobs/scraper.js:67-70 | one organisation adds one summary line with its name and the two counts of its crawl; the collection and the next id become the crawl's, which appends only its own records |
| Crawler.RunAll | server/src/jobs/scraper.js:64-72 | the loop on the store gives exactly `RunOrgs` over the enabled organisations, and keeps the invariant |
| Crawler.CrawlIsIngestAll | server/src/jobs/scraper.js:25-60 | crawling the pages is ingesting, in order, every candidate of the pages that fetched |
| Crawler.FetchFailureIsolated | server/src/jobs/scraper.js:56-59 | a page whose fetch fails is passed over, and the pages after it are still crawled, as if it were not listed |
| Crawler.IngestAllCovers | server/src/jobs/scraper.js:37-54 | after a page, every candidate on it is stored, discarded or refused by the enum |
| Crawler.IngestAllInert | server/src/jobs/scraper.js:37-40 | a page of such candidates changes nothing but `skipped`, which grows by the stored keys among them |
| Crawler.IngestAllCounted | server/src/jobs/scraper.js:39-54 | every candidate counted, as created or as skipped, is stored when the page is done |
| Crawler.ScrapeTwiceIsIdempotent | server/src/jobs/scraper.js:39-54 | a second crawl over unchanged pages inserts nothing, leaves the collection as it is, and skips at least every candidate the first crawl counted |
| Crawler.RunAllOnlyEnabled | server/src/jobs/scraper.js:65 | `runAll` only adds records of organisations with crawling enabled |
| Activities.FindById | server/src/routes/activities.js:75 | `findById` finds a stored claim with that id, and nothing only when none has it |
| Activities.Save | server/src/routes/activities.js:82 | `save()` replaces the claim with that id and leaves the others as they were |
| Activities.InsertPreserves | server/src/routes/activities.js:33-42 | inserting a valid pending claim under the next id keeps the invariant |
| Activities.SavePreserves | server/src/routes/activities.js:79-82 | saving a claim under its own id keeps the invariant |
| Activities.ActivityStore.constructor | server/src/models/Activity.js:3-24 | the empty collection satisfies the invariant |
| Activities.CreateDecision | server/src/routes/activities.js:26-42 | 403 for a non-student, then 400 without an organisation, then 400 without a category, title or date, then 500 for an unknown category or an unparsable date; otherwise a pending claim of the caller's organisation, with the caller as its student, with the proof path exactly when a file was uploaded |
| Activities.Create | server/src/routes/activities.js:26-43 | the handler answers the decision, appends on success, changes nothing on failure, and keeps the invariant |
| Activities.Mine | server/src/routes/activities.js:53 | exactly the caller's own claims in the caller's organisation, each as often as it is stored, newest `createdAt` first |
| Activities.PendingList | server/src/routes/activities.js:62-64 | faculty only; exactly the pending claims of the caller's organisation, each as often as it is stored and no other claim |
| Activities.ApproveDecision | server/src/routes/activities.js:73-81 | review guards; on success approved by the caller at `now`, nothing else changed |
| Activities.RejectDecision | server/src/routes/activities.js:91-101 | review guards; on success rejected with the reason or 'Not approved', approver and approval time cleared, nothing else changed |
| Activities.Approve | server/src/routes/activities.js:73-83 | the handler answers the decision, saves on success, changes nothing on failure, and keeps the invariant |
| Activities.Reject | server/src/routes/activities.js:91-103 | the handler answers the decision, saves on success, changes nothing on failure, and keeps the invariant |
| Activities.ProcessedIsFinal | server/src/routes/activities.js:73-101 | a processed claim can be neither approved nor rejected again, with 400 for a faculty member of its organisation |
| Activities.OrphanClaimIsStuck | server/src/routes/activities.js:77 | a claim without an organisation can be reviewed by nobody |
| Activities.CreatedIsReviewable | server/src/routes/activities.js:29-34 | a claim created through the route can be approved by a faculty member of the student's organisation |
| Portfolio.FindUser | server/src/routes/portfolio.js:15-16 | `User.findById` finds the user with that id, and nothing only when none has it |
| Portfolio.ApprovedClaims | server/src/routes/portfolio.js:18 | exactly the student's approved claims in the caller's organisation, each as often as it is stored, oldest date first |
| Portfolio.PortfolioFor | server/src/routes/portfolio.js:9-19 | 403 when a student asks for another id, then 404 for an unknown user, then 403 across organisations; it succeeds exactly otherwise, with the user and their approved claims |
| Portfolio.StudentSeesOnlyOwn | server/src/routes/portfolio.js:12-18 | a student only ever sees their own approved claims of their organisation |
| Portfolio.StaffReadsAnyPortfolio | server/src/routes/portfolio.js:12-18 | faculty and administrators read the portfolio of any user of their organisation, whatever that user's role |
| Portfolio.ApprovedClaimAppears | server/src/routes/portfolio.js:18 | a claim approved by faculty appears in its student's portfolio |
| AuthRoutes.ActiveQueryCounts | server/src/routes/auth.js:9-10 | the active-organisation query returns as many organisations as are active |
| AuthRoutes.InactiveLeavesDefault | server/src/routes/auth.js:8-12 | adding an organisation that is not active leaves the count of active ones, and whether there is a default |
| AuthRoutes.ResolveDefaultOrgId | server/src/routes/auth.js:8-12 | an id exactly when one organisation is active, and it is that organisation's |
| AuthRoutes.FindByEmail | server/src/routes/auth.js:19 | finds a user with that email, and nothing only when none has it |
| AuthRoutes.UserStore.constructor | server/src/models/User.js:3-13 | the empty collection satisfies the invariant |
| AuthRoutes.RegisterDecision | server/src/routes/auth.js:15-30 | 400 without a name, email or password; 409 for an email already registered in any letter case; 400 without an organisation or a default one; otherwise a student with the lowercased email, the password's hash and the requested or default organisation |
| AuthRoutes.Register | server/src/routes/auth.js:15-30 | the handler answers the decision, appends the user on success, changes nothing on failure, and keeps emails unique |
| AuthRoutes.RegisterIsCaseInsensitive | server/src/routes/auth.js:19-20 | after registering, the same email in another letter case is refused with 409 |
| AuthRoutes.LoginDecision | server/src/routes/auth.js:37-47 | 400 without an email or password; succeeds exactly for a known email whose hash accepts the password, with a token signed over the user's claims; otherwise 401 |
| AuthRoutes.LoginErrorsIndistinguishable | server/src/routes/auth.js:41-44 | an unknown email and a wrong password get the same answer |
| AuthRoutes.RegisterThenLogin | server/src/routes/auth.js:29-47 | a registered user can log in with the same password in any letter case of the email |
| AuthRoutes.LoginThenAuthenticate | server/src/routes/auth.js:46-47 | the token login hands out authenticates as the user, with their role and organisation |
| Cors.Split | server/src/index.js:16 | `split(',')` gives at least one piece, and no piece contains a comma |
| Cors.SplitJoin | server/src/index.js:16 | joining the pieces with commas gives the string back |
| Cors.JoinSplit | server/src/index.js:16 | splitting a join of comma-free pieces gives the pieces back |
| Cors.TrimNonEmpty | server/src/index.js:16 | the trimmed pieces, with no empty entry |
| Cors.TrimNonEmptyMembers | server/src/index.js:16 | an entry is kept iff it is the non-empty trim of some piece |
| Cors.AllowedOrigins | server/src/index.js:15-16 | CLIENT_ORIGINS, else CLIENT_ORIGIN, else nothing: exactly the non-empty trimmed comma-free pieces |
| Cors.ListRoundTrip | server/src/index.js:15-16 | a comma-separated list of trimmed origins gives exactly those origins |
| Cors.LanAtHasShape | server/src/index.js:24 | the left-to-right reading of the LAN pattern finds a match of the regular expression's shape |
| Cors.ShapeIsLanAt | server/src/index.js:24 | every match of the pattern's shape is found by that reading |
| Cors.ContainsLan | server/src/index.js:24 | the unanchored test holds iff a match starts somewhere in the origin |
| Cors.OriginDecision | server/src/index.js:17-28 | allowed iff ALLOW_ALL_ORIGINS is on, or there is no origin, or the origin is listed, or it starts with `http://localhost:517`, or it contains a `http://10.x.x.x:517d` address; otherwise refused, naming the origin |
| Cors.LanAddressAllowed | server/src/index.js:24 | a Vite address on the 10.x network is admitted wherever it appears in the origin |
| Cors.ForeignOriginRefused | server/src/index.js:17-27 | with the switch off and no list, a non-empty origin outside the development prefix in which the LAN pattern starts nowhere is refused with its name in the error |
| Cors.NoLanWithoutOne | server/src/index.js:24 | the LAN pattern starts nowhere in an origin without the digit '1' |
| Cors.ForeignSiteRefused | server/src/index.js:17-27 | with the switch off and no list, the browser origin `https://evil.example` is refused with its name in the error |
| Scenario.DemoCreator | server/src/seed.js:30-49 | the seeded organisation's crawl is attributed to its administrator, ahead of the faculty |
| Scenario.DemoPages | server/src/routes/mock.js:11-18 | the demo events page gives its two articles as two candidates, in page order |
| Scenario.TwoNew | server/src/jobs/scraper.js:39-54 | two new keys on a page append two records with consecutive ids and count two created |
| Scenario.HackathonCandidate | server/src/routes/mock.js:11-13 | the hackathon article reads as a kept candidate with key 'hackathon-2025', category 'competition' and the scheme-less link |
| Scenario.WorkshopCandidate | server/src/routes/mock.js:15-17 | the workshop article reads as a kept candidate with key 'ai-workshop' and category 'workshop', distinct from the hackathon's key |
| Scenario.DemoScrape | server/src/seed.js:18 | crawling the seeded organisation ingests the candidates of its events page, attributed to the administrator |
| Scenario.FirstCrawl | server/src/routes/mock.js:11-18 | the first crawl of the demo page inserts both events in page order, pending, with ids 0 and 1, and counts two created and none skipped |
| Scenario.OnlyApprovedListed | server/src/routes/notifications.js:76 | beside a pending record, the approved list shows the approved record alone |
| Scenario.ApproveUnhosted | server/src/routes/notifications.js:95-112 | a faculty member's approval of a record whose link has no host goes through, with the link dropped, exactly while SKIP_SOURCE_VALIDATION is on; otherwise 400 |
| Scenario.ApproveFirstOfTwo | server/src/routes/notifications.js:91-112 | the first of two pending records, whose link has no host, is approved with the link dropped exactly while SKIP_SOURCE_VALIDATION is on, and the approved list then holds it alone |
| Scenario.ApproveCrawledHackathon | server/src/routes/mock.js:11 | the crawled hackathon, whose scheme-less link has no host, is approved with the link dropped under the default policy, or refused with 400 when validation is enforced |
| Scenario.TwoHits | server/src/jobs/scraper.js:40 | two stored keys count two skips |
| Scenario.TwoKnown | server/src/jobs/scraper.js:39-40 | two candidates already stored leave the collection as it is and count two skipped |
| Scenario.RecrawlIsInert | server/src/jobs/scraper.js:39-40 | a crawl of the demo page over a collection holding both events inserts nothing and counts two skipped |
| Scenario.RecrawlAfterApproval | server/src/jobs/scraper.js:39-40 | after the hackathon's approval, the next crawl inserts nothing and leaves the approved record as it is |
| Scenario.FreshOrganizationIsInert | server/src/models/Organization.js:7-10 | an organisation built from its name and website is pending with crawling enabled; a crawl of it does nothing; it does not change the default organisation; its allowlist is its website's host alone |

## Left out

- Crawler.ScrapeAnnouncementsForOrg: models the elements of a page as processed one after another. The source starts the element callbacks with `.each(async ...)` without awaiting them, so the returned counters may be read before the callbacks finish. Two elements with the same key on one page may then both pass the check-then-insert. The concurrency is not modelled.
- Crawler.IngestOne: a category outside the schema's enum is modelled as a skipped element that changes nothing. In the source, `Notification.create` (server/src/jobs/scraper.js:42) then rejects inside the unawaited `.each` callback. The `try` around the page does not catch it and no `unhandledRejection` handler is registered, so under Node's default the rejection ends the server process. Process termination is not modelled.
- Crawler.Scrape: `announcementUrls` is always a list here. The source's guard for a missing or non-array value is then the empty-list case.
- The crawler does not consult the allowlist when it inserts. The model reflects this, and the link is only checked at approval.
- HTTP plumbing is not modelled: Express routing, response objects, `populate` projections, `console.error` logging, and the morgan and JSON body middleware.
- URL parsing, date parsing, page fetching (axios), HTML parsing (cheerio), bcrypt, and JSON Web Token signing and verification are foreign calls. They are function parameters and are not re-implemented.
- The 15-minute cron schedule of the crawler (server/src/jobs/scraper.js:74-83) is left out. It only calls `runAll`.
- Multer's disk storage is left out, along with file names built from the clock and `Math.random()`. The route stores the upload before the role check, and that write is not modelled. An upload is a parameter.
- The PDF rendering of the portfolio (pdfkit) is left out. Only its guards and query are modelled, shared with the JSON route.
- `GET /me` (server/src/routes/auth.js:54-57) is left out. It is a read of the caller's own record with a populate.
- Ids are natural numbers. The 500 answers for a malformed ObjectId (a cast error in `findById` or in a query) are not modelled.
- Common.ToLower: lowercases the ASCII letters only. JavaScript's `toLowerCase` also folds non-ASCII letters.
- Query.Sort: records with equal dates come out in a fixed order. Mongo leaves that order unspecified, so the contracts state only sortedness and permutation.
- Timestamps (`createdAt`, `approvedAt`) come from a `now` parameter, not a clock.
- The unique index on `User.email` is modelled as the invariant the register handler keeps by its lookup. Two concurrent registrations racing past the lookup are not modelled.
- server/src/seed.js, server/src/routes/mock.js and the client pages are not part of this model. The demo organisation, users and events appear only as data in `Scenario`.
