/** The source-URL allowlist of server/src/routes/notifications.js: `extractHost` and
    `isAllowedHostForOrg`. URL parsing is the platform's (`Env.urlHostname`). */
module Allowlist {
  import opened Common
  import opened Models
  import Query

  /** `Organization.findById(orgId)`: null for a null id or an unknown one. */
  function FindOrg(orgs: seq<Organization>, orgId: Option<Id>): (r: Option<Organization>)
    ensures r.Some? ==> r.value in orgs && orgId == Some(r.value.id)
    ensures r.None? ==> orgId.None? || forall o :: o in orgs ==> o.id != orgId.value
  {
    if orgId.None? then None
    else match Query.First(orgs, (o: Organization) => o.id == orgId.value)
      case None => None
      case Some(i) => Some(orgs[i])
  }

  /** `extractHost`: the lowercased hostname of a URL, or None when `new URL` throws. */
  function ExtractHost(env: Env, url: string): (r: Option<string>)
    ensures r.Some? <==> env.urlHostname(url).Some?
    ensures r.Some? ==> r.value == ToLower(env.urlHostname(url).value) && IsLower(r.value)
  {
    ToLowerIsLower(if env.urlHostname(url).Some? then env.urlHostname(url).value else "");
    match env.urlHostname(url)
    case None => None
    case Some(h) => Some(ToLower(h))
  }

  predicate IsLocalHost(host: string) {
    host == "localhost" || host == "127.0.0.1"
  }

  /** The host is the domain itself or one of its subdomains. */
  predicate Matches(host: string, domain: string) {
    host == domain || EndsWith(host, "." + domain)
  }

  /** The set the handler builds: the lowercased allowed domains, plus the website's host
      when it parses to a non-empty host. */
  function AllowedSet(env: Env, org: Organization): set<string> {
    (set d | d in org.allowedDomains :: ToLower(d)) + WebsiteHostSet(env, org)
  }

  function WebsiteHostSet(env: Env, org: Organization): set<string> {
    match ExtractHost(env, org.website)
    case Some(h) => if h != "" then {h} else {}
    case None => {}
  }

  /** What `isAllowedHostForOrg` answers, as a predicate. */
  predicate IsAllowed(env: Env, orgs: seq<Organization>, orgId: Option<Id>, url: string) {
    match ExtractHost(env, url)
    case None => false
    case Some(host) =>
      host != "" &&
      match FindOrg(orgs, orgId)
      case None => false
      case Some(org) => AdmittedBy(env, org, host)
  }

  /** The decision once the host and the organisation are known. */
  predicate AdmittedBy(env: Env, org: Organization, host: string) {
    (EnvFlag(env.allowLocalSources) && IsLocalHost(host)) ||
    exists d :: d in AllowedSet(env, org) && Matches(host, d)
  }

  /** `isAllowedHostForOrg`: builds the set of allowed domains, admits the loopback hosts
      while ALLOW_LOCAL_SOURCES is on, then looks for a domain the host matches. */
  method IsAllowedHostForOrg(env: Env, orgs: seq<Organization>, orgId: Option<Id>, url: string)
    returns (ok: bool)
    ensures ok == IsAllowed(env, orgs, orgId, url)
  {
    var host := ExtractHost(env, url);
    if host.None? || host.value == "" {
      return false;
    }
    var h := host.value;
    var found := FindOrg(orgs, orgId);
    if found.None? {
      return false;
    }
    var org := found.value;
    var allowed: set<string> := {};
    for i := 0 to |org.allowedDomains|
      invariant allowed == set d | d in org.allowedDomains[..i] :: ToLower(d)
    {
      assert org.allowedDomains[..i + 1] == org.allowedDomains[..i] + [org.allowedDomains[i]];
      allowed := allowed + {ToLower(org.allowedDomains[i])};
    }
    assert org.allowedDomains[..|org.allowedDomains|] == org.allowedDomains;
    var websiteHost := ExtractHost(env, org.website);
    if websiteHost.Some? && websiteHost.value != "" {
      allowed := allowed + {websiteHost.value};
    }
    assert allowed == AllowedSet(env, org);
    if EnvFlag(env.allowLocalSources) && IsLocalHost(h) {
      return true;
    }
    var rest := allowed;
    while rest != {}
      invariant rest <= allowed
      invariant forall d :: d in allowed - rest ==> !Matches(h, d)
      decreases rest
    {
      var d :| d in rest;
      if h == d || EndsWith(h, "." + d) {
        return true;
      }
      rest := rest - {d};
    }
    return false;
  }

  /** The check fails closed: a URL `new URL` rejects, a URL with an empty host, and an
      unknown or missing organisation are never admitted. */
  lemma FailsClosed(env: Env, orgs: seq<Organization>, orgId: Option<Id>, url: string)
    requires env.urlHostname(url).None? || env.urlHostname(url) == Some("")
             || orgId.None? || forall o :: o in orgs ==> o.id != orgId.value
    ensures !IsAllowed(env, orgs, orgId, url)
  {
  }

  /** A host is matched by a domain exactly when it equals it, or ends with it preceded
      by a dot. */
  lemma {:induction false} MatchesIff(host: string, domain: string)
    ensures Matches(host, domain) <==>
      host == domain ||
      (|domain| < |host| && host[|host| - |domain| - 1] == '.' && host[|host| - |domain|..] == domain)
  {
    var dd := "." + domain;
    if EndsWith(host, dd) {
      assert host[|host| - |dd|..][0] == '.';
      assert host[|host| - |domain|..] == host[|host| - |dd|..][1..];
    }
    if |domain| < |host| && host[|host| - |domain| - 1] == '.' && host[|host| - |domain|..] == domain {
      assert host[|host| - |dd|..] == [host[|host| - |domain| - 1]] + host[|host| - |domain|..];
    }
  }

  /** Subdomains are matched: `sub.demo.edu` by `demo.edu`. */
  lemma {:induction false} SubdomainMatches(sub: string, domain: string)
    ensures Matches(sub + "." + domain, domain)
  {
    var h := sub + "." + domain;
    assert h[|h| - |domain| - 1..] == "." + domain;
  }

  /** A host that merely ends with the domain's text is not matched: `evildemo.edu` is
      not a subdomain of `demo.edu`. */
  lemma {:induction false} BareSuffixDoesNotMatch(prefix: string, domain: string)
    requires prefix != "" && prefix[|prefix| - 1] != '.'
    ensures !Matches(prefix + domain, domain)
  {
    var h := prefix + domain;
    MatchesIff(h, domain);
    assert h[|h| - |domain| - 1] == prefix[|prefix| - 1];
  }

  /** The relation as stated on the organisation's own lists: a host is admitted iff it
      parses non-empty, the organisation exists and the host is a loopback host (while
      the flag is on), or matches a lowercased allowed domain, or matches the website's
      non-empty host. */
  lemma AllowedIff(env: Env, orgs: seq<Organization>, orgId: Option<Id>, url: string)
    ensures IsAllowed(env, orgs, orgId, url) <==>
      var host := ExtractHost(env, url);
      var org := FindOrg(orgs, orgId);
      host.Some? && host.value != "" && org.Some? &&
      ((EnvFlag(env.allowLocalSources) && IsLocalHost(host.value)) ||
       (exists i :: 0 <= i < |org.value.allowedDomains| && Matches(host.value, ToLower(org.value.allowedDomains[i]))) ||
       (var w := ExtractHost(env, org.value.website); w.Some? && w.value != "" && Matches(host.value, w.value)))
  {
    var host := ExtractHost(env, url);
    var org := FindOrg(orgs, orgId);
    if host.Some? && host.value != "" && org.Some? {
      var h := host.value;
      var o := org.value;
      if exists d :: d in AllowedSet(env, o) && Matches(h, d) {
        var d :| d in AllowedSet(env, o) && Matches(h, d);
        if d in WebsiteHostSet(env, o) {
        } else {
          var i :| 0 <= i < |o.allowedDomains| && ToLower(o.allowedDomains[i]) == d;
        }
      }
      if exists i :: 0 <= i < |o.allowedDomains| && Matches(h, ToLower(o.allowedDomains[i])) {
        var i :| 0 <= i < |o.allowedDomains| && Matches(h, ToLower(o.allowedDomains[i]));
        assert ToLower(o.allowedDomains[i]) in AllowedSet(env, o);
      }
    }
  }

  /** The organisation's website host is allowed implicitly, with all its subdomains. */
  lemma WebsiteHostAllowed(env: Env, orgs: seq<Organization>, orgId: Option<Id>, url: string, sub: string)
    requires FindOrg(orgs, orgId).Some?
    requires var w := ExtractHost(env, FindOrg(orgs, orgId).value.website); w.Some? && w.value != ""
    requires env.urlHostname(url) == Some(sub + "." + ExtractHost(env, FindOrg(orgs, orgId).value.website).value)
    ensures IsAllowed(env, orgs, orgId, url)
  {
    var w := ExtractHost(env, FindOrg(orgs, orgId).value.website).value;
    SubdomainMatches(sub, w);
    ToLowerIsLower(w);
    assert ToLower(sub + "." + w) == ToLower(sub) + "." + w;
    assert Matches(ToLower(sub) + "." + w, w) by { SubdomainMatches(ToLower(sub), w); }
    AllowedIff(env, orgs, orgId, url);
  }

  /** Domains are compared in lowercase: an allowed domain written in any letter case
      admits the same hosts as its lowercase spelling, and so does the host. */
  lemma CaseInsensitive(env: Env, orgs: seq<Organization>, orgId: Option<Id>, url: string, url': string)
    requires env.urlHostname(url).Some? && env.urlHostname(url').Some?
    requires ToLower(env.urlHostname(url).value) == ToLower(env.urlHostname(url').value)
    ensures IsAllowed(env, orgs, orgId, url) == IsAllowed(env, orgs, orgId, url')
  {
  }

  /** While ALLOW_LOCAL_SOURCES is on, `localhost` and `127.0.0.1` are admitted for any
      existing organisation, whatever its lists say. */
  lemma LocalSourcesAdmitted(env: Env, orgs: seq<Organization>, orgId: Option<Id>, url: string)
    requires EnvFlag(env.allowLocalSources)
    requires env.urlHostname(url) == Some("localhost") || env.urlHostname(url) == Some("127.0.0.1")
    requires FindOrg(orgs, orgId).Some?
    ensures IsAllowed(env, orgs, orgId, url)
  {
  }

  /** Adding a domain to an organisation's list never withdraws admission from a host. */
  lemma AddingDomainIsMonotone(env: Env, org: Organization, domain: string, host: string)
    requires AdmittedBy(env, org, host)
    ensures AdmittedBy(env, org.(allowedDomains := org.allowedDomains + [domain]), host)
  {
    var org' := org.(allowedDomains := org.allowedDomains + [domain]);
    assert AllowedSet(env, org) <= AllowedSet(env, org') by {
      forall d | d in org.allowedDomains ensures d in org'.allowedDomains {
        var j :| 0 <= j < |org.allowedDomains| && org.allowedDomains[j] == d;
        assert org'.allowedDomains[j] == d;
      }
    }
  }
}
