/** Every rendered route carries out its policy, request by request. */
module CaddyMeaning {
  import opened CaddySites
  import opened CaddyRoutes
  import opened CaddyRender

  lemma {:induction false} NoneOfMeans(f: Field, values: seq<string>, q: Request)
    ensures Matches(NoneOf(f, values), q) <==> q.headers.Get(f) !in values
    decreases |values|
  {
    if values != [] {
      var n := |values| - 1;
      NoneOfMeans(f, values[..n], q);
      assert values == values[..n] + [values[n]];
      assert Matches(Not(HeaderIs(f, values[n])), q) <==> q.headers.Get(f) != values[n];
    }
  }

  lemma {:induction false} OthersMeans(origins: seq<string>, own: string, x: string)
    ensures x in Others(origins, own) <==> x in origins && x != own
    decreases |origins|
  {
    if origins != [] {
      var n := |origins| - 1;
      OthersMeans(origins[..n], own, x);
      assert origins == origins[..n] + [origins[n]];
    }
  }

  function CorsOut(s: Site, origin: string, out: Out): Out {
    out.Put(AllowOrigin, origin).Put(AllowMethods, Verbs(s)).Put(AllowHeaders, "Authorization, Content-Type").Put(Vary, "Origin")
  }

  lemma CorsForMeans(s: Site, origin: string, c: Context)
    ensures Run(CorsFor(s, origin), c) ==
      Going(if c.request.headers.Get(Origin) == origin then c.(out := CorsOut(s, origin, c.out)) else c)
  {
    var m := HeaderIs(Origin, origin);
    assert Matches(m, c.request) <==> c.request.headers.Get(Origin) == origin;
    var d1, d2 := SetOut(m, AllowOrigin, origin), SetOut(m, AllowMethods, Verbs(s));
    var d3, d4 := SetOut(m, AllowHeaders, "Authorization, Content-Type"), SetOut(m, Vary, "Origin");
    var c1 := Do(d1, c).context;
    var c2 := Do(d2, c1).context;
    var c3 := Do(d3, c2).context;
    assert Run(One(d4), c3) == Do(d4, c3);
    assert Run(Then(d3, One(d4)), c2) == Run(One(d4), c3);
    assert Run(Then(d2, Then(d3, One(d4))), c1) == Run(Then(d3, One(d4)), c2);
  }

  lemma CorsTwice(s: Site, origin: string, out: Out)
    ensures CorsOut(s, origin, CorsOut(s, origin, out)) == CorsOut(s, origin, out)
  {
  }

  lemma {:induction false} CorsMeans(s: Site, origins: seq<string>, c: Context)
    ensures var origin := c.request.headers.Get(Origin);
      Run(Cors(s, origins), c) == Going(if origin in origins then c.(out := CorsOut(s, origin, c.out)) else c)
    decreases |origins|
  {
    hide CorsOut, CorsFor;
    if origins != [] {
      var n := |origins| - 1;
      var init, last := origins[..n], origins[n];
      assert origins == init + [last];
      CorsMeans(s, init, c);
      RunAppend(Cors(s, init), CorsFor(s, last), c);
      CorsForMeans(s, last, Run(Cors(s, init), c).context);
      CorsTwice(s, last, c.out);
    }
  }

  lemma RunOne(d: Directive, c: Context)
    ensures Run(One(d), c) == Do(d, c)
  {
  }

  lemma GateMeans(s: Site, q: Request)
    ensures Run(Append(Gate(s), DROPS), Start(q)) ==
      if s.access == Tailnet && !q.onTailnet then Stopped(Answer(403, "Access denied by Skillet tailnet policy", STRICT))
      else Going(Context(q.(headers := Cleaned(q.headers)), STRICT, "", false))
  {
    RunAppend(Gate(s), DROPS, Start(q));
    var c := Context(q, STRICT, "", false);
    var gate := Respond(OutsideTailnet, 403, "Access denied by Skillet tailnet policy");
    RunOne(gate, c);
    DropsMean(c);
  }

  lemma DropsMean(c: Context)
    ensures Run(DROPS, c) == Going(c.(request := c.request.(headers := Cleaned(c.request.headers))))
  {
    var h := c.request.headers;
    var c1 := Do(Drop(SkilletPeer), c).context;
    var c2 := Do(Drop(SkilletUser), c1).context;
    var c3 := Do(Drop(WebauthUser), c2).context;
    var c4 := Do(Drop(RemoteUser), c3).context;
    var r5 := One(Drop(TailscaleUser));
    RunOne(Drop(TailscaleUser), c4);
    var r4 := Then(Drop(RemoteUser), r5);
    assert Run(r4, c3) == Run(r5, c4);
    var r3 := Then(Drop(WebauthUser), r4);
    assert Run(r3, c2) == Run(r4, c3);
    var r2 := Then(Drop(SkilletUser), r3);
    assert Run(r2, c1) == Run(r3, c2);
    assert DROPS == Then(Drop(SkilletPeer), r2);
  }

  lemma CleanedKeeps(h: Headers, f: Field)
    requires f !in {SkilletPeer, SkilletUser, WebauthUser, RemoteUser, TailscaleUser}
    ensures Cleaned(h).Get(f) == h.Get(f)
  {
  }

  lemma GuardMeans(s: Site, q: Request)
    ensures Matches(NavigationGuard(s), q) <==> !(s.name == "homeassistant" && Navigation(q))
  {
    var mode := Both(HeaderIs(SecFetchMode, "navigate"), HeaderIs(SecFetchDest, "document"));
    assert Matches(mode, q) <==> q.headers.Get(SecFetchMode) == "navigate" && q.headers.Get(SecFetchDest) == "document";
    var origin := Both(HeaderIs(Origin, ""), mode);
    assert Matches(origin, q) <==> q.headers.Get(Origin) == "" && Matches(mode, q);
    var patterns := [Exact(REDIRECT_PATH)];
    assert Fits(patterns[0], q.path) <==> q.path == REDIRECT_PATH;
    var path := Both(PathIn(patterns), origin);
    assert Matches(path, q) <==> q.path == REDIRECT_PATH && Matches(origin, q);
    var all := Both(MethodIn(["GET"]), path);
    assert Matches(all, q) <==> q.verb == "GET" && Matches(path, q);
  }

  lemma CrossOriginMeans(known: seq<string>, c: Context)
    ensures var origin := c.request.headers.Get(Origin);
      Run(CrossOrigin(known), c) == if origin != "" && origin !in known then Stopped(Answer(403, "", c.out)) else Going(c)
  {
    NoneOfMeans(Origin, known, c.request);
    var some := Not(HeaderIs(Origin, ""));
    assert Matches(some, c.request) <==> c.request.headers.Get(Origin) != "";
    RunOne(Respond(Both(some, NoneOf(Origin, known)), 403, ""), c);
  }

  lemma CrossSiteMeans(s: Site, known: seq<string>, c: Context)
    ensures var origin := c.request.headers.Get(Origin);
      Run(CrossSite(s, known), c) ==
        if c.request.headers.Get(SecFetchSite) == "cross-site" && origin !in known && !(s.name == "homeassistant" && Navigation(c.request))
        then Stopped(Answer(403, "", c.out)) else Going(c)
  {
    hide NavigationGuard, Navigation;
    NoneOfMeans(Origin, known, c.request);
    GuardMeans(s, c.request);
    var inner := Both(NoneOf(Origin, known), NavigationGuard(s));
    assert Matches(inner, c.request) <==> Matches(NoneOf(Origin, known), c.request) && Matches(NavigationGuard(s), c.request);
    var all := Both(HeaderIs(SecFetchSite, "cross-site"), inner);
    assert Matches(all, c.request) <==> c.request.headers.Get(SecFetchSite) == "cross-site" && Matches(inner, c.request);
    RunOne(Respond(all, 403, ""), c);
  }

  /** The origin checks, as the policy states them, for a context whose response is still untouched. */
  lemma OriginChecksMean(s: Site, hostname: string, origins: seq<string>, c: Context)
    requires c.out == STRICT
    ensures Run(OriginChecks(s, hostname, origins), c) ==
      if Foreign(s, hostname, origins, c.request) then Stopped(Answer(403, "", STRICT))
      else if HomepageApi(s, origins) && c.request.verb == "OPTIONS" then Stopped(Answer(204, "", WithCors(s, hostname, origins, c.request)))
      else Going(c.(out := WithCors(s, hostname, origins, c.request)))
  {
    hide Navigation, CrossOrigin, CrossSite, Cors;
    var own := OriginOf(hostname);
    if HomepageApi(s, origins) {
      var others := Others(origins, own);
      var known := [own] + others;
      OthersMeans(origins, own, c.request.headers.Get(Origin));
      var a, b, d := CrossOrigin(known), CrossSite(s, known), Cors(s, others);
      var last := Respond(MethodIn(["OPTIONS"]), 204, "");
      RunAppend(Append(Append(a, b), d), One(last), c);
      RunAppend(Append(a, b), d, c);
      RunAppend(a, b, c);
      CrossOriginMeans(known, c);
      CrossSiteMeans(s, known, c);
      CorsMeans(s, others, c);
      RunOne(last, c.(out := WithCors(s, hostname, origins, c.request)));
    } else {
      var a, b := CrossOrigin([own]), CrossSite(s, []);
      RunAppend(a, b, c);
      CrossOriginMeans([own], c);
      CrossSiteMeans(s, [], c);
    }
  }

  lemma IdentityMeans(s: Site, hostname: string, origins: seq<string>, c: Context)
    requires s.tailnetIdentity && c.out == STRICT
    ensures var q, out := c.request, WithCors(s, hostname, origins, c.request);
      Run(IdentityRoute(s, hostname, origins), c) ==
        if Foreign(s, hostname, origins, q) then Stopped(Answer(403, "", STRICT))
        else if HomepageApi(s, origins) && q.verb == "OPTIONS" then Stopped(Answer(204, "", out))
        else if q.user.None? then Stopped(Refused(out))
        else if s.anonymousTokenRefresh && q.verb == "GET" && q.path == "/api/refresh" then
          Stopped(Answer(200, TOKEN_BODY, out.Put(ContentType, "application/json").Put(CacheControl, "no-store")))
        else Going(c.(request := q.(headers := q.headers.Put(SkilletUser, q.user.value)), out := out))
  {
    hide OriginChecks, Foreign, WithCors, HomepageApi;
    var policy := IdentityPolicy(s, hostname, origins);
    var rest := if s.anonymousTokenRefresh then REFRESH_ROUTE else End;
    RunAppend(policy, rest, c);
    RunAppend(OriginChecks(s, hostname, origins), One(ForwardAuth), c);
    OriginChecksMean(s, hostname, origins, c);
    var c1 := c.(out := WithCors(s, hostname, origins, c.request));
    RunOne(ForwardAuth, c1);
    if c.request.user.Some? {
      RefreshMeans(Do(ForwardAuth, c1).context);
    }
  }

  lemma RefreshMeans(c: Context)
    ensures Run(REFRESH_ROUTE, c) ==
      if c.request.verb == "GET" && c.request.path == "/api/refresh" then
        Stopped(Answer(200, TOKEN_BODY, c.out.Put(ContentType, "application/json").Put(CacheControl, "no-store")))
      else Going(c)
  {
    var q := c.request;
    var patterns := [Exact("/api/refresh")];
    assert Fits(patterns[0], q.path) <==> q.path == "/api/refresh";
    assert Matches(PathIn(patterns), q) <==> q.path == "/api/refresh";
    assert Matches(REFRESH, q) <==> q.verb == "GET" && q.path == "/api/refresh";
    var d1, d2 := SetOut(REFRESH, ContentType, "application/json"), SetOut(REFRESH, CacheControl, "no-store");
    var d3 := Respond(REFRESH, 200, TOKEN_BODY);
    var c1 := Do(d1, c).context;
    var c2 := Do(d2, c1).context;
    RunOne(d3, c2);
    assert Run(Then(d2, One(d3)), c1) == Run(One(d3), c2);
    assert REFRESH_ROUTE == Then(d1, Then(d2, One(d3)));
  }

  // Behind the gates ----------------------------------------------------------------------------

  lemma HandleProxy(m: Matcher, target: string, rest: Route, c: Context)
    ensures var d := Handle(m, One(Proxy(target, [DropUp(Authorization)], false)));
      Run(Then(d, rest), c) ==
        if Matches(m, c.request) then Stopped(Forward(target, c.request.path, c.request.headers.Remove(Authorization), false, c.cached, c.out))
        else Run(rest, c)
  {
    var p := Proxy(target, [DropUp(Authorization)], false);
    RunOne(p, c);
    assert Changed(c.request.headers, [DropUp(Authorization)]) == Changed(c.request.headers.Remove(Authorization), []);
    assert [DropUp(Authorization)][1..] == [];
    assert Do(Handle(m, One(p)), c) == if Matches(m, c.request) then Run(One(p), c) else Going(c);
  }

  lemma SharingMeans(target: string, c: Context)
    requires !c.cached
    ensures Run(SharingRoute(target), c) == Stopped(DecideSharing(target, c.request, c.out))
  {
    var q := c.request;
    var homeMatch := Both(MethodIn(["GET", "HEAD"]), PathIn([Exact("/")]));
    var readMatch := Both(MethodIn(["GET", "HEAD"]), PathIn(READ_PATHS));
    var postMatch := Both(MethodIn(["POST"]), PathIn(POST_PATHS));
    HomeMatches(q);
    assert Matches(readMatch, q) <==> q.verb in ["GET", "HEAD"] && FitsAny(READ_PATHS, q.path);
    assert Matches(postMatch, q) <==> q.verb == "POST" && FitsAny(POST_PATHS, q.path);
    hide FitsAny, Matches;
    var last := One(Respond(Anything, 403, SHARING_DENIED));
    SharingEnds(c);
    var post := Then(Handle(postMatch, One(Proxy(target, [DropUp(Authorization)], false))), last);
    HandleProxy(postMatch, target, last, c);
    var read := Then(Handle(readMatch, One(Proxy(target, [DropUp(Authorization)], false))), post);
    HandleProxy(readMatch, target, post, c);
    HomeHandled(homeMatch, read, c);
    var home := Then(Handle(homeMatch, HOME_BODY), read);
    assert SharingRoute(target) == Then(Respond(PercentPath, 403, ""), home);
    PercentFirst(home, c);
  }

  const HOME_BODY: Route :=
    Then(SetOut(Anything, ContentType, "text/plain; charset=utf-8"), Then(SetOut(Anything, CacheControl, "no-store"),
      One(Respond(Anything, 200, SHARING_HOME))))

  lemma HomeMatches(q: Request)
    ensures Matches(Both(MethodIn(["GET", "HEAD"]), PathIn([Exact("/")])), q) <==> q.verb in ["GET", "HEAD"] && q.path == "/"
  {
    var patterns := [Exact("/")];
    assert Fits(patterns[0], q.path) <==> q.path == "/";
    assert Matches(PathIn(patterns), q) <==> q.path == "/";
    assert Matches(MethodIn(["GET", "HEAD"]), q) <==> q.verb in ["GET", "HEAD"];
  }

  lemma SharingEnds(c: Context)
    ensures Run(One(Respond(Anything, 403, SHARING_DENIED)), c) == Stopped(Answer(403, SHARING_DENIED, c.out))
  {
    RunOne(Respond(Anything, 403, SHARING_DENIED), c);
  }

  lemma PercentFirst(rest: Route, c: Context)
    ensures Run(Then(Respond(PercentPath, 403, ""), rest), c) ==
      if c.request.percentEncoded then Stopped(Answer(403, "", c.out)) else Run(rest, c)
  {
  }

  lemma HomeHandled(m: Matcher, rest: Route, c: Context)
    ensures Run(Then(Handle(m, HOME_BODY), rest), c) ==
      if Matches(m, c.request) then
        Stopped(Answer(200, SHARING_HOME, c.out.Put(ContentType, "text/plain; charset=utf-8").Put(CacheControl, "no-store")))
      else Run(rest, c)
  {
    var d1, d2 := SetOut(Anything, ContentType, "text/plain; charset=utf-8"), SetOut(Anything, CacheControl, "no-store");
    var d3 := Respond(Anything, 200, SHARING_HOME);
    var c1 := Do(d1, c).context;
    var c2 := Do(d2, c1).context;
    RunOne(d3, c2);
    assert Run(Then(d2, One(d3)), c1) == Run(One(d3), c2);
    assert Do(Handle(m, HOME_BODY), c) == if Matches(m, c.request) then Run(HOME_BODY, c) else Going(c);
  }

  lemma HomerFilesMean(c: Context)
    requires c.root == ""
    ensures if c.request.path == HOMER_CONFIG then Run(HOMER_FILES, c) == Stopped(Serve(HOMER_ROOT, c.out.Put(CacheControl, "no-store")))
            else Run(HOMER_FILES, c) == Going(c)
  {
    var q := c.request;
    var patterns := [Exact(HOMER_CONFIG)];
    assert Fits(patterns[0], q.path) <==> q.path == HOMER_CONFIG;
    assert Matches(CONFIG_MATCH, q) <==> q.path == HOMER_CONFIG;
    var d1, d2, d3 := Root(CONFIG_MATCH, HOMER_ROOT), SetOut(CONFIG_MATCH, CacheControl, "no-store"), FileServer(CONFIG_MATCH);
    var c1 := Do(d1, c).context;
    var c2 := Do(d2, c1).context;
    RunOne(d3, c2);
    assert Run(Then(d2, One(d3)), c1) == Run(One(d3), c2);
    assert HOMER_FILES == Then(d1, Then(d2, One(d3)));
  }

  const PIHOLE_MATCH: Matcher := Both(MethodIn(["GET"]), PathIn([Exact(PIHOLE_PATHS[0]), Exact(PIHOLE_PATHS[1])]))

  lemma PiholeMatches(q: Request)
    ensures Matches(PIHOLE_MATCH, q) <==> q.verb == "GET" && q.path in PIHOLE_PATHS
  {
    var patterns := [Exact(PIHOLE_PATHS[0]), Exact(PIHOLE_PATHS[1])];
    assert Fits(patterns[0], q.path) <==> q.path == PIHOLE_PATHS[0];
    assert Fits(patterns[1], q.path) <==> q.path == PIHOLE_PATHS[1];
    assert Matches(PathIn(patterns), q) <==> q.path in PIHOLE_PATHS;
  }

  lemma PiholeMeans(pihole: Site, c: Context)
    requires !c.cached
    ensures Run(PiholeApi(pihole), c) ==
      if c.request.verb == "GET" && c.request.path in PIHOLE_PATHS then
        Stopped(Forward(Upstream(pihole), c.request.path[|PIHOLE_PREFIX|..], Changed(c.request.headers, PIHOLE_CHANGES), true, false, c.out))
      else Going(c)
  {
    hide Upstream, Changed, Matches;
    PiholeMatches(c.request);
    assert PIHOLE_PREFIX <= PIHOLE_PATHS[0] && PIHOLE_PREFIX <= PIHOLE_PATHS[1];
    var p := Proxy(Upstream(pihole), PIHOLE_CHANGES, true);
    var body := Then(StripPrefix(PIHOLE_PREFIX), One(p));
    RunOne(p, Do(StripPrefix(PIHOLE_PREFIX), c).context);
    RunOne(Handle(PIHOLE_MATCH, body), c);
  }

  lemma CacheMeans(s: Site, hostname: string, c: Context)
    requires !c.cached
    ensures Run(CacheRoute(s, hostname), c) == if CacheWorthy(c.request) then Do(ToUpstream(s, hostname), c.(cached := true)) else Going(c)
  {
    hide ToUpstream, IsStaticAsset;
    CacheableMeans(c.request);
    var up := ToUpstream(s, hostname);
    RunOne(up, c.(cached := true));
    var body := Then(UseCache, One(up));
    assert Run(body, c) == Run(One(up), c.(cached := true));
    RunOne(Handle(CACHEABLE, body), c);
    assert Do(Handle(CACHEABLE, body), c) == if Matches(CACHEABLE, c.request) then Run(body, c) else Going(c);
  }

  lemma BothMeans(a: Matcher, b: Matcher, q: Request)
    ensures Matches(Both(a, b), q) <==> Matches(a, q) && Matches(b, q)
  {
  }

  lemma HeaderMeans(f: Field, value: string, q: Request)
    ensures Matches(HeaderIs(f, value), q) <==> q.headers.Get(f) == value
  {
  }

  lemma CacheableMeans(q: Request)
    ensures Matches(CACHEABLE, q) <==> CacheWorthy(q)
  {
    var m1 := Both(HeaderIs(MediaBrowserToken, ""), HeaderIs(Range, ""));
    var m2 := Both(HeaderIs(EmbyToken, ""), m1);
    var m3 := Both(HeaderIs(EmbyAuthorization, ""), m2);
    var m4 := Both(HeaderIs(Cookie, ""), m3);
    var m5 := Both(HeaderIs(Authorization, ""), m4);
    var m6 := Both(QueryIs(""), m5);
    var m7 := Both(StaticAsset, m6);
    assert Matches(MethodIn(["GET"]), q) <==> q.verb == "GET";
    assert Matches(StaticAsset, q) <==> IsStaticAsset(q.path);
    assert Matches(QueryIs(""), q) <==> q.query == "";
    hide Matches, IsStaticAsset;
    BothMeans(HeaderIs(MediaBrowserToken, ""), HeaderIs(Range, ""), q);
    BothMeans(HeaderIs(EmbyToken, ""), m1, q);
    BothMeans(HeaderIs(EmbyAuthorization, ""), m2, q);
    BothMeans(HeaderIs(Cookie, ""), m3, q);
    BothMeans(HeaderIs(Authorization, ""), m4, q);
    BothMeans(QueryIs(""), m5, q);
    BothMeans(StaticAsset, m6, q);
    BothMeans(MethodIn(["GET"]), m7, q);
    HeaderMeans(MediaBrowserToken, "", q);
    HeaderMeans(Range, "", q);
    HeaderMeans(EmbyToken, "", q);
    HeaderMeans(EmbyAuthorization, "", q);
    HeaderMeans(Cookie, "", q);
    HeaderMeans(Authorization, "", q);
  }

  /** The dashboard's generated configuration, then its two read-only calls of Pi-hole where there is one. */
  lemma HomerMeans(sites: seq<Site>, c: Context)
    requires !c.cached && c.root == ""
    ensures var q, pihole := c.request, Owner(sites, "pihole");
      Run(HomerRoutes(sites), c) ==
        if q.path == HOMER_CONFIG then Stopped(Serve(HOMER_ROOT, c.out.Put(CacheControl, "no-store")))
        else if pihole.Some? && q.verb == "GET" && q.path in PIHOLE_PATHS then
          Stopped(Forward(Upstream(pihole.value), q.path[|PIHOLE_PREFIX|..], Changed(q.headers, PIHOLE_CHANGES), true, false, c.out))
        else Going(c)
  {
    hide PiholeApi, Owner, Upstream, Changed;
    HomerFilesMean(c);
    var pihole := Owner(sites, "pihole");
    RunAppend(HOMER_FILES, if pihole.Some? then PiholeApi(pihole.value) else End, c);
    if pihole.Some? { PiholeMeans(pihole.value, c); }
  }

  lemma ServiceMeans(sites: seq<Site>, s: Site, hostname: string, c: Context)
    requires !c.cached && c.root == ""
    ensures Run(ServiceRoute(sites, s, hostname), c) == Stopped(DecideService(sites, s, hostname, c.request, c.out))
  {
    hide SharingRoute, DecideSharing, HomerRoutes, CacheRoute, CacheWorthy, Owner, PiholeApi, Upstream, UpstreamChanges, Changed;
    if s.setupPending {
      RunOne(Respond(Anything, 503, "Service setup is incomplete"), c);
    } else if s.publicRoutes.Some? {
      SharingMeans(Upstream(s), c);
    } else {
      var homer := if s.name == "homer" then HomerRoutes(sites) else End;
      var cache := if s.cache.Some? then CacheRoute(s, hostname) else End;
      RunAppend(Append(homer, cache), One(ToUpstream(s, hostname)), c);
      RunAppend(homer, cache, c);
      RunOne(ToUpstream(s, hostname), c);
      CacheMeans(s, hostname, c);
      HomerMeans(sites, c);
    }
  }

  /** On every request, the rendered route of every site does what the policy of that site says. */
  lemma RenderingMeans(sites: seq<Site>, s: Site, hostname: string, origins: seq<string>, q: Request)
    ensures Run(SiteRoute(sites, s, hostname, origins), Start(q)) == Stopped(Decide(sites, s, hostname, origins, q))
  {
    hide Gate, IdentityRoute, ServiceRoute, DecideService, Foreign, WithCors, HomepageApi;
    var gate, identity := Append(Gate(s), DROPS), IdentityRoute(s, hostname, origins);
    RunAppend(Append(gate, identity), ServiceRoute(sites, s, hostname), Start(q));
    RunAppend(gate, identity, Start(q));
    GateMeans(s, q);
    var clean := q.(headers := Cleaned(q.headers));
    var c := Context(clean, STRICT, "", false);
    CleanSeesSame(s, hostname, origins, q);
    if s.tailnetIdentity {
      IdentityMeans(s, hostname, origins, c);
      var out := WithCors(s, hostname, origins, q);
      if q.user.Some? {
        ServiceMeans(sites, s, hostname, c.(request := clean.(headers := clean.headers.Put(SkilletUser, q.user.value)), out := out));
      }
    } else {
      assert identity == End by { NoIdentity(s, hostname, origins); }
      ServiceMeans(sites, s, hostname, c);
    }
  }

  lemma NoIdentity(s: Site, hostname: string, origins: seq<string>)
    requires !s.tailnetIdentity
    ensures IdentityRoute(s, hostname, origins) == End
  {
  }

  /** Removing identity headers changes nothing that the origin checks look at. */
  lemma CleanSeesSame(s: Site, hostname: string, origins: seq<string>, q: Request)
    ensures var clean := q.(headers := Cleaned(q.headers));
      && Foreign(s, hostname, origins, clean) == Foreign(s, hostname, origins, q)
      && WithCors(s, hostname, origins, clean) == WithCors(s, hostname, origins, q)
  {
    hide Cleaned;
    CleanedKeeps(q.headers, Origin);
    CleanedKeeps(q.headers, SecFetchSite);
    CleanedKeeps(q.headers, SecFetchMode);
    CleanedKeeps(q.headers, SecFetchDest);
  }
}
