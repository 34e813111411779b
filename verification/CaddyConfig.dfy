/** The configuration as a whole: one block for every name of every site, and what each block does. */
module CaddyConfig {
  import opened Runs
  import opened CaddyNames
  import opened CaddySites
  import opened CaddyLaw
  import opened CaddyNamesUnique
  import opened CaddyPayload
  import opened CaddyRoutes
  import opened CaddyRender
  import opened CaddyMeaning

  datatype Block = Block(hostname: string, route: Route)

  function HomerOrigins(sites: seq<Site>): seq<string> {
    if sites == [] then []
    else HomerOrigins(sites[..|sites| - 1]) +
         if sites[|sites| - 1].name == "homer" then OriginsOf(NamesOf(sites[|sites| - 1])) else []
  }

  function OriginsOf(names: seq<string>): (r: seq<string>)
    ensures |r| == |names| && forall i :: 0 <= i < |names| ==> r[i] == OriginOf(names[i])
  {
    if names == [] then [] else OriginsOf(names[..|names| - 1]) + [OriginOf(names[|names| - 1])]
  }

  function SiteBlocks(sites: seq<Site>, s: Site, origins: seq<string>, names: seq<string>): seq<Block> {
    if names == [] then []
    else
      var last := names[|names| - 1];
      SiteBlocks(sites, s, origins, names[..|names| - 1]) + [Block(last, SiteRoute(sites, s, last, origins))]
  }

  function Blocks(sites: seq<Site>, some: seq<Site>, origins: seq<string>): seq<Block> {
    if some == [] then []
    else
      var last := some[|some| - 1];
      Blocks(sites, some[..|some| - 1], origins) + SiteBlocks(sites, last, origins, NamesOf(last))
  }

  // What a configuration answers ----------------------------------------------------------------

  predicate Bears(s: Site, n: string) {
    n == s.hostname || n in s.aliases
  }

  /** `o` is where the dashboard is served from. */
  ghost predicate OfDashboard(sites: seq<Site>, o: string) {
    exists i, n: string :: 0 <= i < |sites| && sites[i].name == "homer" && Bears(sites[i], n) && o == "https://" + n
  }

  ghost predicate DashboardOrigins(sites: seq<Site>, origins: seq<string>) {
    forall o: string :: o in origins <==> OfDashboard(sites, o)
  }

  /** On every request the block carries out the policy of this site. */
  ghost predicate Obeys(sites: seq<Site>, s: Site, b: Block) {
    forall origins: seq<string>, q: Request :: DashboardOrigins(sites, origins) ==>
      Run(b.route, Start(q)) == Stopped(Decide(sites, s, b.hostname, origins, q))
  }

  /** The block is for this name of this site. */
  ghost predicate BlockOf(sites: seq<Site>, s: Site, n: string, b: Block) {
    b.hostname == n && Obeys(sites, s, b)
  }

  ghost predicate BlockOfSome(sites: seq<Site>, some: seq<Site>, b: Block) {
    exists i :: 0 <= i < |some| && Bears(some[i], b.hostname) && Obeys(sites, some[i], b)
  }

  ghost predicate HasBlock(sites: seq<Site>, s: Site, n: string, blocks: seq<Block>) {
    exists k :: 0 <= k < |blocks| && BlockOf(sites, s, n, blocks[k])
  }

  /** Each block obeys a site that bears its hostname, and every site has a block for each of its names. */
  ghost predicate Covered(sites: seq<Site>, some: seq<Site>, blocks: seq<Block>) {
    && (forall k :: 0 <= k < |blocks| ==> BlockOfSome(sites, some, blocks[k]))
    && (forall i, n: string :: 0 <= i < |some| && Bears(some[i], n) ==> HasBlock(sites, some[i], n, blocks))
  }

  method Render(sites: seq<Site>) returns (blocks: seq<Block>)
    ensures blocks == Blocks(sites, sites, HomerOrigins(sites))
    ensures HostnamesOf(blocks) == AllNames(sites)
    ensures Covered(sites, sites, blocks)
  {
    hide SiteRoute, NamesOf;
    var origins := CollectOrigins(sites);
    blocks := [];
    for i := 0 to |sites|
      invariant blocks == Blocks(sites, sites[..i], origins)
    {
      assert sites[..i + 1][..i] == sites[..i];
      var names := NamesOf(sites[i]);
      ghost var before := blocks;
      for j := 0 to |names|
        invariant blocks == before + SiteBlocks(sites, sites[i], origins, names[..j])
      {
        assert names[..j + 1][..j] == names[..j];
        var route := RenderSite(sites, sites[i], names[j], origins);
        blocks := blocks + [Block(names[j], route)];
      }
      assert names[..|names|] == names;
    }
    assert sites[..|sites|] == sites;
    BlocksNames(sites, sites, origins);
    OriginsOfHomer(sites);
    BlocksCover(sites, sites, origins);
  }

  method CollectOrigins(sites: seq<Site>) returns (origins: seq<string>)
    ensures origins == HomerOrigins(sites)
  {
    origins := [];
    for i := 0 to |sites|
      invariant origins == HomerOrigins(sites[..i])
    {
      assert sites[..i + 1][..i] == sites[..i];
      if sites[i].name == "homer" {
        origins := origins + OriginsOf(NamesOf(sites[i]));
      }
    }
    assert sites[..|sites|] == sites;
  }

  method RenderSite(sites: seq<Site>, s: Site, hostname: string, origins: seq<string>) returns (config: Route)
    ensures config == SiteRoute(sites, s, hostname, origins)
  {
    hide Gate, SharingRoute, HomerRoutes, CacheRoute;
    config := Append(Gate(s), DROPS);
    var identity := End;
    if s.tailnetIdentity {
      identity := RenderIdentityPolicy(s, hostname, origins);
      identity := Append(identity, if s.anonymousTokenRefresh then REFRESH_ROUTE else End);
    }
    config := Append(config, identity);
    if s.setupPending {
      return Append(config, One(Respond(Anything, 503, "Service setup is incomplete")));
    }
    if s.publicRoutes.Some? {
      return Append(config, SharingRoute(Upstream(s)));
    }
    var service := if s.name == "homer" then HomerRoutes(sites) else End;
    service := Append(service, if s.cache.Some? then CacheRoute(s, hostname) else End);
    config := Append(config, Append(service, One(ToUpstream(s, hostname))));
  }

  method RenderIdentityPolicy(s: Site, hostname: string, origins: seq<string>) returns (config: Route)
    ensures config == IdentityPolicy(s, hostname, origins)
  {
    hide CrossOrigin, CrossSite, Cors;
    var own := OriginOf(hostname);
    if HomepageApi(s, origins) {
      var allowed: seq<string> := [];
      for i := 0 to |origins|
        invariant allowed == Others(origins[..i], own)
      {
        assert origins[..i + 1][..i] == origins[..i];
        if origins[i] != own { allowed := allowed + [origins[i]]; }
      }
      assert origins[..|origins|] == origins;
      config := Append(CrossOrigin([own] + allowed), CrossSite(s, [own] + allowed));
      var cors := RenderHomerCors(s, allowed);
      config := Append(config, cors);
      config := Append(config, One(Respond(MethodIn(["OPTIONS"]), 204, "")));
    } else {
      config := Append(CrossOrigin([own]), CrossSite(s, []));
    }
    config := Append(config, One(ForwardAuth));
  }

  method RenderHomerCors(s: Site, allowed: seq<string>) returns (config: Route)
    ensures config == Cors(s, allowed)
  {
    hide CorsFor;
    config := End;
    for i := 0 to |allowed|
      invariant config == Cors(s, allowed[..i])
    {
      assert allowed[..i + 1][..i] == allowed[..i];
      config := Append(config, CorsFor(s, allowed[i]));
    }
    assert allowed[..|allowed|] == allowed;
  }

  function HostnamesOf(blocks: seq<Block>): (r: seq<string>)
    ensures |r| == |blocks| && forall i :: 0 <= i < |blocks| ==> r[i] == blocks[i].hostname
  {
    seq(|blocks|, i requires 0 <= i < |blocks| => blocks[i].hostname)
  }

  lemma {:induction false} SiteBlocksNames(sites: seq<Site>, s: Site, origins: seq<string>, names: seq<string>)
    ensures HostnamesOf(SiteBlocks(sites, s, origins, names)) == names
    decreases |names|
  {
    hide SiteRoute;
    if names != [] { SiteBlocksNames(sites, s, origins, names[..|names| - 1]); }
  }

  lemma {:induction false} BlocksNames(sites: seq<Site>, some: seq<Site>, origins: seq<string>)
    ensures HostnamesOf(Blocks(sites, some, origins)) == AllNames(some)
    decreases |some|
  {
    hide SiteRoute, NamesOf;
    if some != [] {
      var last := some[|some| - 1];
      BlocksNames(sites, some[..|some| - 1], origins);
      SiteBlocksNames(sites, last, origins, NamesOf(last));
    }
  }

  // The blocks obey -----------------------------------------------------------------------------

  /** The policy asks of the origins only which there are. */
  lemma DecideAsksMembers(sites: seq<Site>, s: Site, hostname: string, a: seq<string>, b: seq<string>, q: Request)
    requires forall o: string :: o in a <==> o in b
    ensures Decide(sites, s, hostname, a, q) == Decide(sites, s, hostname, b, q)
  {
    hide DecideService, Cleaned, Navigation;
    assert a == [] <==> b == [] by {
      if a != [] { assert a[0] in b; }
      if b != [] { assert b[0] in a; }
    }
    assert HomepageApi(s, a) <==> HomepageApi(s, b);
    assert Dashboard(s, hostname, a, q.headers.Get(Origin)) <==> Dashboard(s, hostname, b, q.headers.Get(Origin));
    assert Foreign(s, hostname, a, q) <==> Foreign(s, hostname, b, q);
    assert WithCors(s, hostname, a, q) == WithCors(s, hostname, b, q);
    hide Foreign, WithCors, HomepageApi;
  }

  lemma {:induction false} OriginsOfHomer(sites: seq<Site>)
    ensures DashboardOrigins(sites, HomerOrigins(sites))
    decreases |sites|
  {
    if sites == [] {
    } else {
      var k := |sites| - 1;
      var init, last := sites[..k], sites[k];
      OriginsOfHomer(init);
      var more := if last.name == "homer" then OriginsOf(NamesOf(last)) else [];
      assert HomerOrigins(sites) == HomerOrigins(init) + more;
      forall o: string ensures o in HomerOrigins(sites) <==> OfDashboard(sites, o) {
        OriginsOfLast(sites, o);
      }
    }
  }

  lemma OriginsOfLast(sites: seq<Site>, o: string)
    requires sites != []
    ensures var k := |sites| - 1;
      OfDashboard(sites, o) <==> OfDashboard(sites[..k], o) || (sites[k].name == "homer" && o in OriginsOf(NamesOf(sites[k])))
  {
    var k := |sites| - 1;
    var names := NamesOf(sites[k]);
    if OfDashboard(sites, o) {
      var i, n: string :| 0 <= i < |sites| && sites[i].name == "homer" && Bears(sites[i], n) && o == "https://" + n;
      if i < k {
        assert Bears(sites[..k][i], n);
      } else {
        var j := NameAt(sites[k], n);
        assert OriginsOf(names)[j] == o;
      }
    }
    if OfDashboard(sites[..k], o) {
      var i, n: string :| 0 <= i < k && sites[..k][i].name == "homer" && Bears(sites[..k][i], n) && o == "https://" + n;
      assert Bears(sites[i], n);
    }
    if sites[k].name == "homer" && o in OriginsOf(names) {
      var j :| 0 <= j < |names| && OriginsOf(names)[j] == o;
      assert Bears(sites[k], names[j]);
    }
  }

  lemma RouteObeys(sites: seq<Site>, s: Site, n: string, origins: seq<string>)
    requires DashboardOrigins(sites, origins)
    ensures Obeys(sites, s, Block(n, SiteRoute(sites, s, n, origins)))
  {
    hide SiteRoute, Decide, OfDashboard;
    forall other: seq<string>, q: Request | DashboardOrigins(sites, other)
      ensures Run(SiteRoute(sites, s, n, origins), Start(q)) == Stopped(Decide(sites, s, n, other, q))
    {
      RenderingMeans(sites, s, n, origins, q);
      DecideAsksMembers(sites, s, n, origins, other, q);
    }
  }

  ghost predicate AllBlocksOf(sites: seq<Site>, s: Site, names: seq<string>, blocks: seq<Block>) {
    |blocks| == |names| && forall k :: 0 <= k < |names| ==> BlockOf(sites, s, names[k], blocks[k])
  }

  ghost predicate BlocksOf(sites: seq<Site>, s: Site, blocks: seq<Block>) {
    AllBlocksOf(sites, s, NamesOf(s), blocks)
  }

  lemma {:induction false} SiteBlocksObey(sites: seq<Site>, s: Site, origins: seq<string>, names: seq<string>)
    requires DashboardOrigins(sites, origins)
    ensures AllBlocksOf(sites, s, names, SiteBlocks(sites, s, origins, names))
    decreases |names|
  {
    hide SiteRoute, Obeys, DashboardOrigins;
    if names != [] {
      var last := |names| - 1;
      SiteBlocksObey(sites, s, origins, names[..last]);
      RouteObeys(sites, s, names[last], origins);
    }
  }

  lemma {:induction false} BlocksCover(sites: seq<Site>, some: seq<Site>, origins: seq<string>)
    requires DashboardOrigins(sites, origins)
    ensures Covered(sites, some, Blocks(sites, some, origins))
    decreases |some|
  {
    hide SiteRoute, Obeys, DashboardOrigins;
    if some != [] {
      var last := |some| - 1;
      BlocksCover(sites, some[..last], origins);
      SiteBlocksObey(sites, some[last], origins, NamesOf(some[last]));
      CoveredMore(sites, some, Blocks(sites, some[..last], origins), SiteBlocks(sites, some[last], origins, NamesOf(some[last])));
    }
  }

  lemma CoveredMore(sites: seq<Site>, some: seq<Site>, before: seq<Block>, more: seq<Block>)
    requires some != [] && Covered(sites, some[..|some| - 1], before)
    requires BlocksOf(sites, some[|some| - 1], more)
    ensures Covered(sites, some, before + more)
  {
    hide Obeys, Bears, BlocksOf, BlockOf;
    var blocks := before + more;
    forall k | 0 <= k < |blocks| ensures BlockOfSome(sites, some, blocks[k]) {
      if k < |before| { assert blocks[k] == before[k]; } else { assert blocks[k] == more[k - |before|]; }
      BlockIsOfSome(sites, some, before, more, blocks[k]);
    }
    forall i, n: string | 0 <= i < |some| && Bears(some[i], n) ensures HasBlock(sites, some[i], n, blocks) {
      SiteHasBlock(sites, some, before, more, i, n);
    }
  }

  lemma BlockIsOfSome(sites: seq<Site>, some: seq<Site>, before: seq<Block>, more: seq<Block>, b: Block)
    requires some != [] && Covered(sites, some[..|some| - 1], before)
    requires BlocksOf(sites, some[|some| - 1], more) && (b in before || b in more)
    ensures BlockOfSome(sites, some, b)
  {
    hide Obeys;
    var last := |some| - 1;
    if b in before {
      assert BlockOfSome(sites, some[..last], b);
      var i :| 0 <= i < last && Bears(some[..last][i], b.hostname) && Obeys(sites, some[..last][i], b);
      assert Bears(some[i], b.hostname);
    } else {
      var k :| 0 <= k < |more| && more[k] == b;
      assert BlockOf(sites, some[last], NamesOf(some[last])[k], b);
      assert Bears(some[last], b.hostname);
    }
  }

  lemma SiteHasBlock(sites: seq<Site>, some: seq<Site>, before: seq<Block>, more: seq<Block>, i: nat, n: string)
    requires some != [] && Covered(sites, some[..|some| - 1], before)
    requires BlocksOf(sites, some[|some| - 1], more) && i < |some| && Bears(some[i], n)
    ensures HasBlock(sites, some[i], n, before + more)
  {
    hide Obeys;
    var last, blocks := |some| - 1, before + more;
    if i < last {
      assert HasBlock(sites, some[..last][i], n, before);
      var k :| 0 <= k < |before| && BlockOf(sites, some[i], n, before[k]);
      assert blocks[k] == before[k];
    } else {
      var j := NameAt(some[last], n);
      assert BlockOf(sites, some[last], n, more[j]);
      assert blocks[|before| + j] == more[j];
    }
  }

  lemma NameAt(s: Site, n: string) returns (j: nat)
    requires Bears(s, n)
    ensures j < |NamesOf(s)| && NamesOf(s)[j] == n
  {
    if n == s.hostname {
      j := 0;
    } else {
      var k :| 0 <= k < |s.aliases| && s.aliases[k] == n;
      j := k + 1;
    }
  }

  /** Whatever a guest accepts renders to blocks with pairwise different hostnames, all below the zone of
      the payload, so that one block at most answers for a name. */
  lemma AcceptedHostsAreUnique(contents: Payload, host: string, services: seq<Service>, p: Payload)
    requires Parse(contents, host, services) == Some(p)
    ensures var names := HostnamesOf(Blocks(p.services, p.services, HomerOrigins(p.services)));
      && names == AllNames(p.services) && Distinct(names) && DistinctSites(p.services)
      && (forall n: string :: n in names ==> EndsWith(n, "." + if p.zoneDomain.Some? then p.zoneDomain.value else p.uiDomain))
  {
    AcceptedIsRebuilt(contents, host, services, p);
    var place := PlaceOf(host, p.uiDomain, p.zoneDomain);
    var declarations := Downgrade(services, p.version);
    hide Parse, Downgrade, BuildSites, SiteRoute, Lawful, EndsWith, ValidUsers, TokenAllowed;
    BlocksNames(p.services, p.services, HomerOrigins(p.services));
    HostnamesAreUnique(place, declarations);
  }
}
