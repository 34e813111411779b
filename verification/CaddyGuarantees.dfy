/** What the rendered routes guarantee, and the loops that render them. */
module CaddyGuarantees {
  import opened Runs
  import opened Decimal
  import opened CaddySites
  import opened CaddyLaw
  import opened CaddyBuilds
  import opened CaddyPayload
  import opened CaddyRoutes
  import opened CaddyRender
  import opened CaddyMeaning

  /** What happens to a request for one of the site's names; every route answers (`RenderingMeans`). */
  function Treated(sites: seq<Site>, s: Site, hostname: string, origins: seq<string>, q: Request): Outcome {
    match Run(SiteRoute(sites, s, hostname, origins), Start(q))
    case Stopped(outcome) => outcome
    case Going(c) => Refused(c.out)
  }

  /** The request as the service sees it. */
  function Shown(s: Site, q: Request): Request {
    var clean := Cleaned(q.headers);
    q.(headers := if s.tailnetIdentity && q.user.Some? then clean.Put(SkilletUser, q.user.value) else clean)
  }

  function OutFor(s: Site, hostname: string, origins: seq<string>, q: Request): Out {
    if s.tailnetIdentity then WithCors(s, hostname, origins, q) else STRICT
  }

  lemma Behind(sites: seq<Site>, s: Site, hostname: string, origins: seq<string>, q: Request)
    ensures var r := Treated(sites, s, hostname, origins, q);
      Passes(s, hostname, origins, q) || r.Forward? || r.Serve? ==>
        r == DecideService(sites, s, hostname, Shown(s, q), OutFor(s, hostname, origins, q))
  {
    RenderingMeans(sites, s, hostname, origins, q);
    ForeignIsCrossSite(s, hostname, origins, q);
    hide SiteRoute, DecideService, Foreign, CrossSiteRequest, WithCors, Run, Cleaned;
  }

  // The gates -----------------------------------------------------------------------------------

  /** This origin is one of the dashboard's, and this site is one that the dashboard calls. */
  predicate FromDashboard(s: Site, origins: seq<string>, q: Request) {
    s.name in {"pihole", "homeassistant"} && q.headers.Get(Origin) in origins
  }

  /** A link from elsewhere to the page that adds an integration to Home Assistant. */
  predicate FollowsLink(s: Site, q: Request) {
    && s.name == "homeassistant" && q.verb == "GET" && q.path == "/_my_redirect/config_flow_start"
    && q.headers.Get(Origin) == "" && q.headers.Get(SecFetchMode) == "navigate" && q.headers.Get(SecFetchDest) == "document"
  }

  /** Another web origin drives the request: its origin is named and neither this site nor the dashboard, or
      it says to come from another site and neither the dashboard's API nor that link accounts for it. */
  predicate CrossSiteRequest(s: Site, hostname: string, origins: seq<string>, q: Request) {
    var own := q.headers.Get(Origin) == "https://" + hostname;
    || (q.headers.Get(Origin) != "" && !own && !FromDashboard(s, origins, q))
    || (q.headers.Get(SecFetchSite) == "cross-site" && !FromDashboard(s, origins, q) && !FollowsLink(s, q)
        && !(own && s.name in {"pihole", "homeassistant"} && origins != []))
  }

  lemma ForeignIsCrossSite(s: Site, hostname: string, origins: seq<string>, q: Request)
    ensures Foreign(s, hostname, origins, q) <==> CrossSiteRequest(s, hostname, origins, q)
  {
  }

  predicate Preflight(s: Site, origins: seq<string>, q: Request) {
    s.name in {"pihole", "homeassistant"} && origins != [] && q.verb == "OPTIONS"
  }

  predicate TokenRefresh(s: Site, q: Request) {
    s.anonymousTokenRefresh && q.verb == "GET" && q.path == "/api/refresh"
  }

  /** The request comes to the service itself. */
  predicate Passes(s: Site, hostname: string, origins: seq<string>, q: Request) {
    && (s.access == Tailnet ==> q.onTailnet)
    && (s.tailnetIdentity ==> q.user.Some?)
    && (s.tailnetIdentity ==> !CrossSiteRequest(s, hostname, origins, q) && !Preflight(s, origins, q) && !TokenRefresh(s, q))
  }

  /** The placeholder token, never stored. */
  predicate IsToken(r: Outcome) {
    && r.Answer? && r.status == 200 && r.body == "{\"token\":\"skillet-tailnet-authenticated\"}"
    && r.out.Get(ContentType) == Some("application/json") && r.out.Get(CacheControl) == Some("no-store")
  }

  /** Nothing is served, forwarded or minted before the site's own gates, and this is what they answer:
      outside the tailnet a private site only denies; an identity-protected one denies what another web
      origin drives, answers the dashboard's preflights, refuses whoever is not vouched for, and mints
      the placeholder token only after that. */
  lemma GatesComeFirst(sites: seq<Site>, s: Site, hostname: string, origins: seq<string>, q: Request)
    ensures var r := Treated(sites, s, hostname, origins, q);
      && (r.Serve? || r.Forward? ==> Passes(s, hostname, origins, q))
      && (s.access == Tailnet && !q.onTailnet ==> r.Answer? && r.status == 403)
      && ((s.access == Tailnet ==> q.onTailnet) && s.tailnetIdentity ==>
           if CrossSiteRequest(s, hostname, origins, q) then r.Answer? && r.status == 403
           else if Preflight(s, origins, q) then r.Answer? && r.status == 204
           else if q.user.None? then r.Refused?
           else TokenRefresh(s, q) ==> IsToken(r))
  {
    RenderingMeans(sites, s, hostname, origins, q);
    ForeignIsCrossSite(s, hostname, origins, q);
    hide SiteRoute, DecideService, Foreign, CrossSiteRequest, WithCors, Run;
  }

  /** Behind the gates a site that is not set up says so, the dashboard gets its generated configuration,
      and everything else goes to an upstream. */
  lemma ServiceComesLast(sites: seq<Site>, s: Site, hostname: string, origins: seq<string>, q: Request)
    requires Passes(s, hostname, origins, q)
    ensures var r := Treated(sites, s, hostname, origins, q);
      if s.setupPending then r.Answer? && r.status == 503 && r.body == "Service setup is incomplete"
      else if s.publicRoutes.Some? then r.Answer? || r.Forward?
      else if s.name == "homer" && q.path == "/assets/config.yml" then
        r.Serve? && r.root == "/etc/skillet/homer" && r.out.Get(CacheControl) == Some("no-store")
      else r.Forward?
  {
    Behind(sites, s, hostname, origins, q);
    hide Treated, Passes, Changed, CacheWorthy, Upstream, Owner, FitsAny, Shown, OutFor;
    assert Shown(s, q).path == q.path by { ShownIsSame(s, q); }
  }

  lemma ShownIsSame(s: Site, q: Request)
    ensures var seen := Shown(s, q);
      && seen.verb == q.verb && seen.path == q.path && seen.query == q.query && seen.percentEncoded == q.percentEncoded
    ensures forall f: Field :: !Claims(f) && f != SkilletUser ==> Shown(s, q).headers.Get(f) == q.headers.Get(f)
  {
    forall f: Field | !Claims(f) && f != SkilletUser ensures Shown(s, q).headers.Get(f) == q.headers.Get(f) {
      CleanedKeeps(q.headers, f);
    }
  }

  /** Another origin may read an answer only if it is the dashboard's, calling a site that it calls, and past
      the origin checks; every answer insists on HTTPS. */
  lemma ReadableByDashboard(sites: seq<Site>, s: Site, hostname: string, origins: seq<string>, q: Request)
    ensures var r, origin := Treated(sites, s, hostname, origins, q), q.headers.Get(Origin);
      && r.out.Get(Hsts) == Some("max-age=31536000")
      && (if s.tailnetIdentity && (s.access == Tailnet ==> q.onTailnet) && !CrossSiteRequest(s, hostname, origins, q)
             && FromDashboard(s, origins, q) && origin != "https://" + hostname
          then Readable(r.out, s, origin)
          else r.out.Get(AllowOrigin).None?)
  {
    OutOfGates(sites, s, hostname, origins, q);
    CorsSpelled(s, hostname, origins, q);
    hide Treated, CrossSiteRequest, FromDashboard, WithCors;
  }

  /** Answers differ from what the gates put into them only in type and caching. */
  lemma OutOfGates(sites: seq<Site>, s: Site, hostname: string, origins: seq<string>, q: Request)
    ensures var trusted := s.tailnetIdentity && (s.access == Tailnet ==> q.onTailnet) && !CrossSiteRequest(s, hostname, origins, q);
      forall f: OutField :: f !in {ContentType, CacheControl} ==>
        Treated(sites, s, hostname, origins, q).out.Get(f) == (if trusted then WithCors(s, hostname, origins, q) else STRICT).Get(f)
  {
    RenderingMeans(sites, s, hostname, origins, q);
    ForeignIsCrossSite(s, hostname, origins, q);
    hide SiteRoute, DecideService, Foreign, CrossSiteRequest, FromDashboard, Run, Cleaned, WithCors;
    OutKept(sites, s, hostname, q.(headers := Cleaned(q.headers)), STRICT);
    if q.user.Some? {
      OutKept(sites, s, hostname, q.(headers := Cleaned(q.headers).Put(SkilletUser, q.user.value)), WithCors(s, hostname, origins, q));
    }
  }

  predicate Readable(out: Out, s: Site, origin: string) {
    && out.Get(AllowOrigin) == Some(origin) && out.Get(Vary) == Some("Origin")
    && out.Get(AllowMethods) == Some(if s.name == "pihole" then "GET, POST, OPTIONS" else "GET, OPTIONS")
    && out.Get(AllowHeaders) == Some("Authorization, Content-Type")
  }

  lemma CorsSpelled(s: Site, hostname: string, origins: seq<string>, q: Request)
    ensures var out, origin := WithCors(s, hostname, origins, q), q.headers.Get(Origin);
      && out.Get(Hsts) == Some("max-age=31536000")
      && (if FromDashboard(s, origins, q) && origin != "https://" + hostname then Readable(out, s, origin) else out.Get(AllowOrigin).None?)
  {
  }

  /** A service changes nothing of what the gates put into the answer but its type and its caching. */
  lemma OutKept(sites: seq<Site>, s: Site, hostname: string, q: Request, out: Out)
    ensures forall f: OutField :: f !in {ContentType, CacheControl} ==> DecideService(sites, s, hostname, q, out).out.Get(f) == out.Get(f)
  {
    hide CacheWorthy, Upstream, Owner, FitsAny, Changed;
  }

  // Behind the gates ----------------------------------------------------------------------------

  predicate Claims(f: Field) {
    f in {SkilletPeer, WebauthUser, RemoteUser, TailscaleUser}
  }

  /** No upstream is shown an identity that the client made up: the only identity it sees is the one the
      broker vouched for, and only behind the identity gate. */
  lemma NoForgedIdentity(sites: seq<Site>, s: Site, hostname: string, origins: seq<string>, q: Request, f: Field)
    requires Treated(sites, s, hostname, origins, q).Forward?
    ensures var r := Treated(sites, s, hostname, origins, q);
      && (Claims(f) ==> r.headers.Get(f) == "")
      && (if s.tailnetIdentity then q.user == Some(r.headers.Get(SkilletUser)) else r.headers.Get(SkilletUser) == "")
  {
    RenderingMeans(sites, s, hostname, origins, q);
    hide SiteRoute, Foreign, WithCors, HomepageApi, Run, DecideSharing, Changed, CacheWorthy, Upstream, Owner;
    var clean := Cleaned(q.headers);
    var seen := if s.tailnetIdentity && q.user.Some? then clean.Put(SkilletUser, q.user.value) else clean;
    var out := if s.tailnetIdentity then WithCors(s, hostname, origins, q) else STRICT;
    hide DecideService;
    if Claims(f) { ServiceShows(sites, s, hostname, q.(headers := seen), out, f); }
    ServiceShows(sites, s, hostname, q.(headers := seen), out, SkilletUser);
  }

  lemma ServiceShows(sites: seq<Site>, s: Site, hostname: string, q: Request, out: Out, f: Field)
    requires Claims(f) || f == SkilletUser
    ensures var r := DecideService(sites, s, hostname, q, out);
      r.Forward? ==> r.headers.Get(f) == q.headers.Get(f)
  {
    hide CacheWorthy, Upstream, Owner, FitsAny, Changed;
    ChangedKeeps(q.headers, PIHOLE_CHANGES, f);
    ChangedKeeps(q.headers, UpstreamChanges(s, hostname), f);
  }

  predicate Untouched(changes: seq<Change>, f: Field) {
    forall i :: 0 <= i < |changes| ==> changes[i].field != f
  }

  lemma {:induction false} ChangedKeeps(h: Headers, changes: seq<Change>, f: Field)
    requires Untouched(changes, f)
    ensures Changed(h, changes).Get(f) == h.Get(f)
    decreases |changes|
  {
    if changes != [] {
      assert changes[0].field != f;
      ChangedKeeps(match changes[0] case SetUp(g, v) => h.Put(g, v) case DropUp(g) => h.Remove(g), changes[1..], f);
    }
  }

  /** Where a site's upstream listens. */
  predicate Listens(target: string, s: Site) {
    if s.transport == Bridge then target == s.upstream + ":" + Print(s.port as nat)
    else target == "unix//run/skillet-ui-host/" + s.name + ".sock"
  }

  predicate PiholeCall(sites: seq<Site>, s: Site, q: Request) {
    && s.name == "homer" && q.verb == "GET"
    && q.path in {"/pihole-api/api/stats/summary", "/pihole-api/api/dns/blocking"} && Named(sites, "pihole")
  }

  lemma {:induction false} OwnerIsFirst(sites: seq<Site>, name: string)
    ensures Owner(sites, name).Some? <==> Named(sites, name)
    ensures Owner(sites, name).Some? ==>
      exists i :: 0 <= i < |sites| && sites[i] == Owner(sites, name).value && sites[i].name == name
    decreases |sites|
  {
    if sites != [] && sites[0].name != name {
      OwnerIsFirst(sites[1..], name);
      if Owner(sites, name).Some? {
        var i :| 0 <= i < |sites[1..]| && sites[1..][i] == Owner(sites, name).value && sites[1..][i].name == name;
        assert sites[i + 1] == sites[1..][i];
      }
      if Named(sites, name) {
        var i :| 0 <= i < |sites| && sites[i].name == name;
        assert sites[1..][i - 1] == sites[i];
      }
    } else if sites != [] {
      assert sites[0].name == name;
    }
  }

  /** Which of its three kinds of call a service forwards. */
  lemma ServiceForwards(sites: seq<Site>, s: Site, hostname: string, q: Request, out: Out)
    requires DecideService(sites, s, hostname, q, out).Forward?
    ensures var r := DecideService(sites, s, hostname, q, out);
      if s.publicRoutes.Some? then r == Forward(Upstream(s), q.path, q.headers.Remove(Authorization), false, false, out)
      else if PiholeCall(sites, s, q) then
        && Owner(sites, "pihole").Some? && q.path in PIHOLE_PATHS
        && r == Forward(Upstream(Owner(sites, "pihole").value), q.path[|PIHOLE_PREFIX|..], Changed(q.headers, PIHOLE_CHANGES), true, false, out)
      else
        r == Forward(Upstream(s), q.path, Changed(q.headers, UpstreamChanges(s, hostname)), s.name in {"pihole", "homeassistant"},
                     s.cache.Some? && CacheWorthy(q), out)
  {
    OwnerIsFirst(sites, "pihole");
    PiholePaths();
    hide Changed, CacheWorthy, Upstream, Owner, FitsAny, Named;
  }

  /** A site forwards to its own upstream only, the path unchanged; the dashboard also makes two read-only
      calls of Pi-hole, and those exactly, under Pi-hole's own paths. */
  lemma ForwardsToItsOwn(sites: seq<Site>, s: Site, hostname: string, origins: seq<string>, q: Request)
    requires Treated(sites, s, hostname, origins, q).Forward?
    ensures var r := Treated(sites, s, hostname, origins, q);
      if s.publicRoutes.None? && PiholeCall(sites, s, q) then
        && r.path == (if q.path == "/pihole-api/api/dns/blocking" then "/api/dns/blocking" else "/api/stats/summary")
        && r.hideAllowOrigin
        && (exists i :: 0 <= i < |sites| && sites[i].name == "pihole" && Listens(r.target, sites[i]))
      else
        && r.path == q.path && Listens(r.target, s)
        && (r.hideAllowOrigin <==> s.publicRoutes.None? && s.name in {"pihole", "homeassistant"})
  {
    Behind(sites, s, hostname, origins, q);
    ShownIsSame(s, q);
    ServiceForwards(sites, s, hostname, Shown(s, q), OutFor(s, hostname, origins, q));
    OwnerIsFirst(sites, "pihole");
    UpstreamListens(s);
    if Owner(sites, "pihole").Some? { UpstreamListens(Owner(sites, "pihole").value); }
    PiholePaths();
    hide Treated, Passes, Changed, CacheWorthy, Upstream, Owner, FitsAny, Listens, Shown, OutFor, Named, DecideService;
  }

  lemma UpstreamListens(s: Site)
    ensures Listens(Upstream(s), s)
  {
  }

  lemma PiholePaths()
    ensures PIHOLE_PATHS == ["/pihole-api/api/stats/summary", "/pihole-api/api/dns/blocking"]
    ensures PIHOLE_PATHS[0][|PIHOLE_PREFIX|..] == "/api/stats/summary" && PIHOLE_PATHS[1][|PIHOLE_PREFIX|..] == "/api/dns/blocking"
  {
    assert |PIHOLE_PREFIX| == 11;
  }

  /** Besides the identity an upstream sees the client's headers, except where it must be shown its own name. */
  lemma UpstreamSees(sites: seq<Site>, s: Site, hostname: string, origins: seq<string>, q: Request, f: Field)
    requires Treated(sites, s, hostname, origins, q).Forward? && s.publicRoutes.None? && !Claims(f) && f != SkilletUser
    ensures var pihole := s.name == "pihole" || PiholeCall(sites, s, q);
      Treated(sites, s, hostname, origins, q).headers.Get(f) ==
        if f == HostHeader && pihole then "pi.hole"
        else if f == Origin && pihole then "http://pi.hole"
        else if f == Origin && s.name == "homeassistant" then "https://" + hostname
        else q.headers.Get(f)
  {
    Behind(sites, s, hostname, origins, q);
    ShownIsSame(s, q);
    ServiceForwards(sites, s, hostname, Shown(s, q), OutFor(s, hostname, origins, q));
    OwnerIsFirst(sites, "pihole");
    PiholePaths();
    var h := Shown(s, q).headers;
    PiholeShown(h, f);
    OwnShown(h, OriginOf(hostname), f);
    assert Changed(h, []) == h;
    hide Treated, Passes, Changed, CacheWorthy, Upstream, Owner, FitsAny, Shown, OutFor, Named, DecideService;
  }

  lemma OwnShown(h: Headers, own: string, f: Field)
    ensures Changed(h, [SetUp(Origin, own)]).Get(f) == if f == Origin then own else h.Get(f)
  {
    assert [SetUp(Origin, own)][1..] == [];
    assert Changed(h, [SetUp(Origin, own)]) == Changed(h.Put(Origin, own), []);
  }

  lemma PiholeShown(h: Headers, f: Field)
    ensures Changed(h, PIHOLE_CHANGES).Get(f) ==
      if f == HostHeader then "pi.hole" else if f == Origin then "http://pi.hole" else h.Get(f)
  {
    var h1 := h.Put(HostHeader, "pi.hole");
    var h2 := h1.Put(Origin, "http://pi.hole");
    assert PIHOLE_CHANGES[1..] == [SetUp(Origin, "http://pi.hole")] && PIHOLE_CHANGES[1..][1..] == [];
    assert Changed(h2, []) == h2;
    assert Changed(h1, PIHOLE_CHANGES[1..]) == Changed(h2, []);
    assert Changed(h, PIHOLE_CHANGES) == Changed(h1, PIHOLE_CHANGES[1..]);
  }

  predicate Starts(path: string, prefixes: seq<string>) {
    exists i :: 0 <= i < |prefixes| && prefixes[i] <= path
  }

  /** Pages and downloads behind a complete link, and the files that show them. */
  predicate SharedRead(path: string) {
    || path in ["/d", "/downloadFile", "/publicUpload", "/error", "/favicon.ico", "/site.webmanifest", "/main.wasm", "/e2e.wasm"]
    || Starts(path, ["/d/", "/dh/", "/h/", "/hotlink/", "/assets/", "/css/", "/js/", "/static/"])
  }

  /** Downloads and the four calls of a guest upload. */
  predicate SharedPost(path: string) {
    path in ["/d", "/downloadFile", "/api/uploadrequest/chunk/add", "/api/uploadrequest/chunk/complete",
             "/api/uploadrequest/chunk/reserve", "/api/uploadrequest/chunk/unreserve"]
  }

  predicate SharedCall(q: Request) {
    (q.verb in {"GET", "HEAD"} && SharedRead(q.path)) || (q.verb == "POST" && SharedPost(q.path))
  }

  /** A sharing surface forwards its own table of routes and nothing else, never under an encoded path and
      never with an API key; its front page only says what it is. */
  lemma SharingIsClosed(sites: seq<Site>, s: Site, hostname: string, origins: seq<string>, q: Request)
    requires s.publicRoutes.Some? && !s.setupPending && Passes(s, hostname, origins, q)
    ensures var r := Treated(sites, s, hostname, origins, q);
      && (r.Forward? <==> !q.percentEncoded && SharedCall(q))
      && (r.Forward? ==> r.headers.Get(Authorization) == "" && !r.cached && !r.hideAllowOrigin)
      && (r.Answer? && r.status == 200 ==> r.out.Get(CacheControl) == Some("no-store"))
      && (!r.Forward? ==> r.Answer? && r.status == if !q.percentEncoded && q.verb in {"GET", "HEAD"} && q.path == "/" then 200 else 403)
  {
    Behind(sites, s, hostname, origins, q);
    ShownIsSame(s, q);
    ReadsSpelled(q.path);
    PostsSpelled(q.path);
    HomeIsNotShared();
    hide Treated, Passes, Upstream, FitsAny, Shown, OutFor, SharedRead, SharedPost;
  }

  lemma HomeIsNotShared()
    ensures !SharedRead("/") && !SharedPost("/")
  {
    var prefixes := ["/d/", "/dh/", "/h/", "/hotlink/", "/assets/", "/css/", "/js/", "/static/"];
    forall i | 0 <= i < |prefixes| ensures !(prefixes[i] <= "/") {
      assert |prefixes[i]| > 1;
    }
  }

  lemma FitsSome(patterns: seq<Pattern>, path: string, i: nat)
    requires i < |patterns| && Fits(patterns[i], path)
    ensures FitsAny(patterns, path)
  {
  }

  const SHARED_PREFIXES: seq<string> := ["/d/", "/dh/", "/h/", "/hotlink/", "/assets/", "/css/", "/js/", "/static/"]

  lemma ReadsSpelled(path: string)
    ensures FitsAny(READ_PATHS, path) <==> SharedRead(path)
  {
    assert SharedRead(path) <==> path in SHARED_FILES || Starts(path, SHARED_PREFIXES);
    hide SharedRead;
    if FitsAny(READ_PATHS, path) {
      var i :| 0 <= i < |READ_PATHS| && Fits(READ_PATHS[i], path);
      FitRead(path, i);
    }
    if Starts(path, SHARED_PREFIXES) {
      var j :| 0 <= j < |SHARED_PREFIXES| && SHARED_PREFIXES[j] <= path;
      PrefixFits(path, j);
    }
    if path in SHARED_FILES {
      var j :| 0 <= j < |SHARED_FILES| && SHARED_FILES[j] == path;
      FileFits(path, j);
    }
  }

  const SHARED_FILES: seq<string> :=
    ["/d", "/downloadFile", "/publicUpload", "/error", "/favicon.ico", "/site.webmanifest", "/main.wasm", "/e2e.wasm"]

  lemma FitRead(path: string, i: nat)
    requires i < |READ_PATHS| && Fits(READ_PATHS[i], path)
    ensures path in SHARED_FILES || Starts(path, SHARED_PREFIXES)
  {
    var p := READ_PATHS[i];
    if p.Exact? {
      assert p.path in SHARED_FILES;
    } else {
      assert p.prefix in SHARED_PREFIXES;
      var j :| 0 <= j < |SHARED_PREFIXES| && SHARED_PREFIXES[j] == p.prefix;
      assert SHARED_PREFIXES[j] <= path;
    }
  }

  lemma PrefixFits(path: string, j: nat)
    requires j < |SHARED_PREFIXES| && SHARED_PREFIXES[j] <= path
    ensures FitsAny(READ_PATHS, path)
  {
    var i := [1, 2, 5, 6, 12, 13, 14, 15][j];
    assert READ_PATHS[i] == Below(SHARED_PREFIXES[j]);
    FitsSome(READ_PATHS, path, i);
  }

  lemma FileFits(path: string, j: nat)
    requires j < |SHARED_FILES| && SHARED_FILES[j] == path
    ensures FitsAny(READ_PATHS, path)
  {
    var i := [0, 3, 4, 7, 8, 9, 10, 11][j];
    assert READ_PATHS[i] == Exact(SHARED_FILES[j]);
    FitsSome(READ_PATHS, path, i);
  }

  lemma PostsSpelled(path: string)
    ensures FitsAny(POST_PATHS, path) <==> SharedPost(path)
  {
    var exact := ["/d", "/downloadFile", "/api/uploadrequest/chunk/add", "/api/uploadrequest/chunk/complete",
                  "/api/uploadrequest/chunk/reserve", "/api/uploadrequest/chunk/unreserve"];
    assert forall i :: 0 <= i < |exact| ==> POST_PATHS[i] == Exact(exact[i]);
    if path in exact {
      var j :| 0 <= j < |exact| && exact[j] == path;
      FitsSome(POST_PATHS, path, j);
    }
  }

  // Caching -------------------------------------------------------------------------------------

  predicate Ends(path: string, suffixes: seq<string>) {
    exists i :: 0 <= i < |suffixes| && |suffixes[i]| + 5 <= |path| && path[|path| - |suffixes[i]|..] == suffixes[i]
  }

  /** A file of the web client, asked for as a whole and without any credential. */
  predicate PublicAsset(q: Request) {
    && q.verb == "GET" && q.query == "" && "/web/" <= q.path
    && Ends(q.path, [".js", ".css", ".woff", ".woff2", ".ttf", ".svg", ".png", ".jpg", ".ico"])
    && q.headers.Get(Authorization) == "" && q.headers.Get(Cookie) == "" && q.headers.Get(EmbyAuthorization) == ""
    && q.headers.Get(EmbyToken) == "" && q.headers.Get(MediaBrowserToken) == "" && q.headers.Get(Range) == ""
  }

  lemma WorthyIsPublicAsset(q: Request)
    ensures CacheWorthy(q) <==> PublicAsset(q)
  {
    assert IsStaticAsset(q.path) <==>
      "/web/" <= q.path && Ends(q.path, [".js", ".css", ".woff", ".woff2", ".ttf", ".svg", ".png", ".jpg", ".ico"]);
    hide IsStaticAsset, Ends;
    assert Authorization in {Authorization, Cookie, EmbyAuthorization, EmbyToken, MediaBrowserToken, Range};
  }

  lemma ShownIsAsset(s: Site, q: Request)
    ensures PublicAsset(Shown(s, q)) <==> PublicAsset(q)
  {
    ShownIsSame(s, q);
    hide Shown, Ends;
  }

  /** An answer goes through the cache exactly for a public asset of a site that caches. */
  lemma CachedIff(sites: seq<Site>, s: Site, hostname: string, origins: seq<string>, q: Request)
    requires Treated(sites, s, hostname, origins, q).Forward?
    ensures Treated(sites, s, hostname, origins, q).cached <==>
      s.publicRoutes.None? && !PiholeCall(sites, s, q) && s.cache.Some? && PublicAsset(q)
  {
    Behind(sites, s, hostname, origins, q);
    ShownIsSame(s, q);
    ServiceForwards(sites, s, hostname, Shown(s, q), OutFor(s, hostname, origins, q));
    OwnerIsFirst(sites, "pihole");
    PiholePaths();
    WorthyIsPublicAsset(Shown(s, q));
    ShownIsAsset(s, q);
    hide Treated, Passes, Changed, CacheWorthy, Upstream, Owner, FitsAny, PublicAsset, Shown, OutFor, Named, DecideService;
  }

  /** What a host builds is cached only for the public, without credentials and without an identity. */
  lemma CacheIsPublic(place: Place, services: seq<Service>, i: nat, hostname: string, origins: seq<string>, q: Request)
    requires BuildSites(place, services).Some? && i < |BuildSites(place, services).value|
    requires var sites := BuildSites(place, services).value;
      Treated(sites, sites[i], hostname, origins, q).Forward? && Treated(sites, sites[i], hostname, origins, q).cached
    ensures var s := BuildSites(place, services).value[i];
      s.access == Public && !s.tailnetIdentity && s.transport == Bridge && s.publicRoutes.None?
    ensures PublicAsset(q)
  {
    hide BuildSites, Treated, PublicAsset, PiholeCall, Lawful, CalledAs;
    var sites := BuildSites(place, services).value;
    BuiltIffLawful(place, services, sites);
    LawfulShow(sites, services, place);
    CachedIff(sites, sites[i], hostname, origins, q);
    assert !Surface(sites[i]);
    assert SiteFor(sites[i], services[i], place) && Allowed(services[i]);
  }
}
