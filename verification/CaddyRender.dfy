/** Rendering a site as an ordered route, and the policy that the route must carry out. */
module CaddyRender {
  import opened Decimal
  import opened CaddySites
  import opened CaddyRoutes

  const REDIRECT_PATH := "/_my_redirect/config_flow_start"
  const HOMER_CONFIG := "/assets/config.yml"
  const HOMER_ROOT := "/etc/skillet/homer"
  const PIHOLE_PREFIX := "/pihole-api"
  const PIHOLE_PATHS: seq<string> := ["/pihole-api/api/stats/summary", "/pihole-api/api/dns/blocking"]
  const TOKEN_BODY := "{\"token\":\"skillet-tailnet-authenticated\"}"
  const PIHOLE_CHANGES: seq<Change> := [SetUp(HostHeader, "pi.hole"), SetUp(Origin, "http://pi.hole")]

  function OriginOf(hostname: string): string {
    "https://" + hostname
  }

  function Upstream(s: Site): string {
    match s.transport
    case Bridge => s.upstream + ":" + Print(s.port as nat)
    case HostLoopback => "unix//run/skillet-ui-host/" + s.name + ".sock"
  }

  /** The dashboard may call the API of these two. */
  predicate HomepageApi(s: Site, origins: seq<string>) {
    s.name in {"pihole", "homeassistant"} && origins != []
  }

  function Others(origins: seq<string>, own: string): seq<string> {
    if origins == [] then []
    else Others(origins[..|origins| - 1], own) + if origins[|origins| - 1] == own then [] else [origins[|origins| - 1]]
  }

  function Verbs(s: Site): string {
    if s.name == "pihole" then "GET, POST, OPTIONS" else "GET, OPTIONS"
  }

  // The route -----------------------------------------------------------------------------------

  function One(d: Directive): Route {
    Then(d, End)
  }

  function Gate(s: Site): Route {
    Then(SetOut(Anything, Hsts, "max-age=31536000"),
      if s.access == Tailnet then One(Respond(OutsideTailnet, 403, "Access denied by Skillet tailnet policy")) else End)
  }

  const DROPS: Route :=
    Then(Drop(SkilletPeer), Then(Drop(SkilletUser), Then(Drop(WebauthUser), Then(Drop(RemoteUser), One(Drop(TailscaleUser))))))

  /** The header is none of these. */
  function NoneOf(f: Field, values: seq<string>): Matcher {
    if values == [] then Anything else Both(NoneOf(f, values[..|values| - 1]), Not(HeaderIs(f, values[|values| - 1])))
  }

  /** All but a top-level navigation to the integration landing page. */
  const NOT_NAVIGATION: Matcher :=
    Not(Both(MethodIn(["GET"]), Both(PathIn([Exact(REDIRECT_PATH)]), Both(HeaderIs(Origin, ""),
      Both(HeaderIs(SecFetchMode, "navigate"), HeaderIs(SecFetchDest, "document"))))))

  function NavigationGuard(s: Site): Matcher {
    if s.name == "homeassistant" then NOT_NAVIGATION else Anything
  }

  function CrossOrigin(known: seq<string>): Route {
    One(Respond(Both(Not(HeaderIs(Origin, "")), NoneOf(Origin, known)), 403, ""))
  }

  function CrossSite(s: Site, known: seq<string>): Route {
    One(Respond(Both(HeaderIs(SecFetchSite, "cross-site"), Both(NoneOf(Origin, known), NavigationGuard(s))), 403, ""))
  }

  function CorsFor(s: Site, origin: string): Route {
    var m := HeaderIs(Origin, origin);
    Then(SetOut(m, AllowOrigin, origin), Then(SetOut(m, AllowMethods, Verbs(s)),
      Then(SetOut(m, AllowHeaders, "Authorization, Content-Type"), One(SetOut(m, Vary, "Origin")))))
  }

  function Cors(s: Site, origins: seq<string>): Route {
    if origins == [] then End
    else Append(Cors(s, origins[..|origins| - 1]), CorsFor(s, origins[|origins| - 1]))
  }

  function OriginChecks(s: Site, hostname: string, origins: seq<string>): Route {
    var own := OriginOf(hostname);
    if HomepageApi(s, origins) then
      var others := Others(origins, own);
      Append(Append(Append(CrossOrigin([own] + others), CrossSite(s, [own] + others)), Cors(s, others)),
             One(Respond(MethodIn(["OPTIONS"]), 204, "")))
    else
      Append(CrossOrigin([own]), CrossSite(s, []))
  }

  function IdentityPolicy(s: Site, hostname: string, origins: seq<string>): Route {
    Append(OriginChecks(s, hostname, origins), One(ForwardAuth))
  }

  const REFRESH: Matcher := Both(MethodIn(["GET"]), PathIn([Exact("/api/refresh")]))

  const REFRESH_ROUTE: Route :=
    Then(SetOut(REFRESH, ContentType, "application/json"), Then(SetOut(REFRESH, CacheControl, "no-store"),
      One(Respond(REFRESH, 200, TOKEN_BODY))))

  const READ_PATHS: seq<Pattern> := [
    Exact("/d"), Below("/d/"), Below("/dh/"), Exact("/downloadFile"), Exact("/publicUpload"), Below("/h/"), Below("/hotlink/"),
    Exact("/error"), Exact("/favicon.ico"), Exact("/site.webmanifest"), Exact("/main.wasm"), Exact("/e2e.wasm"),
    Below("/assets/"), Below("/css/"), Below("/js/"), Below("/static/")]

  const POST_PATHS: seq<Pattern> := [
    Exact("/d"), Exact("/downloadFile"), Exact("/api/uploadrequest/chunk/add"), Exact("/api/uploadrequest/chunk/complete"),
    Exact("/api/uploadrequest/chunk/reserve"), Exact("/api/uploadrequest/chunk/unreserve")]

  const SHARING_HOME := "File sharing endpoint. Open a complete download or upload link provided by the sender."
  const SHARING_DENIED := "Public sharing route denied"

  function SharingRoute(target: string): Route {
    Then(Respond(PercentPath, 403, ""),
    Then(Handle(Both(MethodIn(["GET", "HEAD"]), PathIn([Exact("/")])),
           Then(SetOut(Anything, ContentType, "text/plain; charset=utf-8"), Then(SetOut(Anything, CacheControl, "no-store"),
             One(Respond(Anything, 200, SHARING_HOME))))),
    Then(Handle(Both(MethodIn(["GET", "HEAD"]), PathIn(READ_PATHS)), One(Proxy(target, [DropUp(Authorization)], false))),
    Then(Handle(Both(MethodIn(["POST"]), PathIn(POST_PATHS)), One(Proxy(target, [DropUp(Authorization)], false))),
    One(Respond(Anything, 403, SHARING_DENIED))))))
  }

  const CONFIG_MATCH: Matcher := PathIn([Exact(HOMER_CONFIG)])

  const HOMER_FILES: Route :=
    Then(Root(CONFIG_MATCH, HOMER_ROOT), Then(SetOut(CONFIG_MATCH, CacheControl, "no-store"), One(FileServer(CONFIG_MATCH))))

  function PiholeApi(pihole: Site): Route {
    One(Handle(Both(MethodIn(["GET"]), PathIn([Exact(PIHOLE_PATHS[0]), Exact(PIHOLE_PATHS[1])])),
               Then(StripPrefix(PIHOLE_PREFIX), One(Proxy(Upstream(pihole), PIHOLE_CHANGES, true)))))
  }

  function HomerRoutes(sites: seq<Site>): Route {
    Append(HOMER_FILES, if Owner(sites, "pihole").Some? then PiholeApi(Owner(sites, "pihole").value) else End)
  }

  function UpstreamChanges(s: Site, hostname: string): seq<Change> {
    if s.name == "pihole" then PIHOLE_CHANGES
    else if s.name == "homeassistant" then [SetUp(Origin, OriginOf(hostname))]
    else []
  }

  function ToUpstream(s: Site, hostname: string): Directive {
    Proxy(Upstream(s), UpstreamChanges(s, hostname), s.name in {"pihole", "homeassistant"})
  }

  const CACHEABLE: Matcher :=
    Both(MethodIn(["GET"]), Both(StaticAsset, Both(QueryIs(""), Both(HeaderIs(Authorization, ""), Both(HeaderIs(Cookie, ""),
      Both(HeaderIs(EmbyAuthorization, ""), Both(HeaderIs(EmbyToken, ""), Both(HeaderIs(MediaBrowserToken, ""), HeaderIs(Range, "")))))))))

  function CacheRoute(s: Site, hostname: string): Route {
    One(Handle(CACHEABLE, Then(UseCache, One(ToUpstream(s, hostname)))))
  }

  /** From the identity gate's end to the upstream. */
  function ServiceRoute(sites: seq<Site>, s: Site, hostname: string): Route {
    if s.setupPending then One(Respond(Anything, 503, "Service setup is incomplete"))
    else if s.publicRoutes.Some? then SharingRoute(Upstream(s))
    else
      Append(Append(if s.name == "homer" then HomerRoutes(sites) else End,
                    if s.cache.Some? then CacheRoute(s, hostname) else End),
             One(ToUpstream(s, hostname)))
  }

  function IdentityRoute(s: Site, hostname: string, origins: seq<string>): Route {
    if s.tailnetIdentity then
      Append(IdentityPolicy(s, hostname, origins), if s.anonymousTokenRefresh then REFRESH_ROUTE else End)
    else End
  }

  function SiteRoute(sites: seq<Site>, s: Site, hostname: string, origins: seq<string>): Route {
    Append(Append(Append(Gate(s), DROPS), IdentityRoute(s, hostname, origins)), ServiceRoute(sites, s, hostname))
  }

  // The policy ----------------------------------------------------------------------------------

  const STRICT: Out := NO_HEADERS.Put(Hsts, "max-age=31536000")

  /** What an upstream may see: nothing a client claims about who it is. */
  function Cleaned(h: Headers): Headers {
    h.Remove(SkilletPeer).Remove(SkilletUser).Remove(WebauthUser).Remove(RemoteUser).Remove(TailscaleUser)
  }

  /** Another origin of the dashboard, which may call this site's API. */
  predicate Dashboard(s: Site, hostname: string, origins: seq<string>, origin: string) {
    HomepageApi(s, origins) && origin in origins && origin != OriginOf(hostname)
  }

  predicate Known(s: Site, hostname: string, origins: seq<string>, origin: string) {
    origin == OriginOf(hostname) || Dashboard(s, hostname, origins, origin)
  }

  predicate Navigation(q: Request) {
    && q.verb == "GET" && q.path == REDIRECT_PATH && q.headers.Get(Origin) == ""
    && q.headers.Get(SecFetchMode) == "navigate" && q.headers.Get(SecFetchDest) == "document"
  }

  /** Another web origin drives this request. */
  predicate Foreign(s: Site, hostname: string, origins: seq<string>, q: Request) {
    var origin := q.headers.Get(Origin);
    || (origin != "" && !Known(s, hostname, origins, origin))
    || (q.headers.Get(SecFetchSite) == "cross-site"
        && !(HomepageApi(s, origins) && Known(s, hostname, origins, origin))
        && !(s.name == "homeassistant" && Navigation(q)))
  }

  function WithCors(s: Site, hostname: string, origins: seq<string>, q: Request): Out {
    var origin := q.headers.Get(Origin);
    if Dashboard(s, hostname, origins, origin) then
      STRICT.Put(AllowOrigin, origin).Put(AllowMethods, Verbs(s)).Put(AllowHeaders, "Authorization, Content-Type").Put(Vary, "Origin")
    else STRICT
  }

  predicate CacheWorthy(q: Request) {
    && q.verb == "GET" && IsStaticAsset(q.path) && q.query == ""
    && (forall f :: f in {Authorization, Cookie, EmbyAuthorization, EmbyToken, MediaBrowserToken, Range} ==> q.headers.Get(f) == "")
  }

  function DecideSharing(target: string, q: Request, out: Out): Outcome {
    if q.percentEncoded then Answer(403, "", out)
    else if q.verb in ["GET", "HEAD"] && q.path == "/" then
      Answer(200, SHARING_HOME, out.Put(ContentType, "text/plain; charset=utf-8").Put(CacheControl, "no-store"))
    else if (q.verb in ["GET", "HEAD"] && FitsAny(READ_PATHS, q.path)) || (q.verb == "POST" && FitsAny(POST_PATHS, q.path)) then
      Forward(target, q.path, q.headers.Remove(Authorization), false, false, out)
    else Answer(403, SHARING_DENIED, out)
  }

  /** What the service itself answers to a request that passed the gates. */
  function DecideService(sites: seq<Site>, s: Site, hostname: string, q: Request, out: Out): Outcome {
    if s.setupPending then Answer(503, "Service setup is incomplete", out)
    else if s.publicRoutes.Some? then DecideSharing(Upstream(s), q, out)
    else if s.name == "homer" && q.path == HOMER_CONFIG then Serve(HOMER_ROOT, out.Put(CacheControl, "no-store"))
    else if s.name == "homer" && Owner(sites, "pihole").Some? && q.verb == "GET" && q.path in PIHOLE_PATHS then
      Forward(Upstream(Owner(sites, "pihole").value), q.path[|PIHOLE_PREFIX|..], Changed(q.headers, PIHOLE_CHANGES), true, false, out)
    else
      Forward(Upstream(s), q.path, Changed(q.headers, UpstreamChanges(s, hostname)), s.name in {"pihole", "homeassistant"},
              s.cache.Some? && CacheWorthy(q), out)
  }

  /** The policy of one site, gate by gate. */
  function Decide(sites: seq<Site>, s: Site, hostname: string, origins: seq<string>, q: Request): Outcome {
    var clean := q.(headers := Cleaned(q.headers));
    if s.access == Tailnet && !q.onTailnet then Answer(403, "Access denied by Skillet tailnet policy", STRICT)
    else if !s.tailnetIdentity then DecideService(sites, s, hostname, clean, STRICT)
    else if Foreign(s, hostname, origins, q) then Answer(403, "", STRICT)
    else
      var out := WithCors(s, hostname, origins, q);
      if HomepageApi(s, origins) && q.verb == "OPTIONS" then Answer(204, "", out)
      else if q.user.None? then Refused(out)
      else if s.anonymousTokenRefresh && q.verb == "GET" && q.path == "/api/refresh" then
        Answer(200, TOKEN_BODY, out.Put(ContentType, "application/json").Put(CacheControl, "no-store"))
      else
        DecideService(sites, s, hostname, q.(headers := Cleaned(q.headers).Put(SkilletUser, q.user.value)), out)
  }
}
