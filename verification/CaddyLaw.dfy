/** Which sites a list of declarations asks for. */
module CaddyLaw {
  import opened Runs
  import opened CaddyNames
  import opened CaddySites

  // Names and sites -----------------------------------------------------------------------------

  function NamesOf(site: Site): seq<string> {
    [site.hostname] + site.aliases
  }

  function AllNames(sites: seq<Site>): seq<string> {
    if sites == [] then [] else AllNames(sites[..|sites| - 1]) + NamesOf(sites[|sites| - 1])
  }

  predicate Distinct(s: seq<string>) {
    forall i, j :: 0 <= i < j < |s| ==> s[i] != s[j]
  }

  predicate DistinctSites(sites: seq<Site>) {
    forall i, j :: 0 <= i < j < |sites| ==> sites[i].name != sites[j].name
  }

  /** The machine's name belongs to no one but an identity-protected dashboard, and there as an alias. */
  predicate MachineKept(site: Site, machine: string) {
    site.hostname != machine && (machine in site.aliases ==> site.name == "homer" && site.tailnetIdentity)
  }

  lemma DistinctAppend(a: seq<string>, b: seq<string>)
    requires Distinct(a) && Distinct(b) && forall n: string :: !(n in a && n in b)
    ensures Distinct(a + b)
  {
    forall i, j | 0 <= i < j < |a + b| ensures (a + b)[i] != (a + b)[j] {
      if i < |a| <= j { assert (a + b)[i] in a && (a + b)[j] in b; }
    }
  }

  lemma {:induction false} NameHasSite(sites: seq<Site>, n: string)
    requires n in AllNames(sites)
    ensures exists i :: 0 <= i < |sites| && n in NamesOf(sites[i])
  {
    var k := |sites| - 1;
    if n in NamesOf(sites[k]) {
    } else {
      NameHasSite(sites[..k], n);
      var i :| 0 <= i < k && n in NamesOf(sites[..k][i]);
      assert n in NamesOf(sites[i]);
    }
  }

  // The law -------------------------------------------------------------------------------------

  /** What a declaration must keep to by itself. */
  predicate Allowed(s: Service) {
    && ValidLabel(s.name) && ValidLabel(s.upstream) && s.port != 0
    && (s.transport == HostLoopback || s.anonymousTokenRefresh ==> s.tailnetIdentity)
    && (s.cache.Some? ==> s.publicNames != [])
    && (s.publicNames != [] ==> !s.tailnetIdentity && s.aliases == [] && s.transport == Bridge)
    && ValidLabels(s.publicNames)
  }

  /** What it must keep to besides when it shares. */
  predicate MayShare(s: Service, zone: Option<string>) {
    && s.tailnetIdentity && s.publicNames == [] && s.transport == Bridge && s.cache.None? && s.sharing.Some?
    && s.sharing.value.names != [] && ValidLabels(s.sharing.value.names) && zone.Some?
  }

  /** These names are these labels, each directly below the zone. */
  predicate DirectlyBelow(names: seq<string>, labels: seq<string>, zone: string) {
    |names| == |labels| && forall k :: 0 <= k < |labels| ==> names[k] == labels[k] + "." + zone
  }

  /** These names are these aliases, each resolved. */
  predicate Resolve(names: seq<string>, aliases: seq<string>, place: Place) {
    && |names| == |aliases|
    && (forall k :: 0 <= k < |aliases| ==> ResolveAlias(aliases[k], place.host, place.uiDomain, place.zone) == Some(names[k]))
  }

  /** A public service is called by its public names, a private one by its own name and its aliases. */
  predicate CalledAs(site: Site, s: Service, place: Place) {
    if s.publicNames == [] then
      site.hostname == s.name + "." + place.host + "." + place.uiDomain && Resolve(site.aliases, s.aliases, place)
    else
      place.zone.Some? && DirectlyBelow([site.hostname] + site.aliases, s.publicNames, place.zone.value)
  }

  /** The site of a declaration points where the declaration says. */
  predicate SiteFor(site: Site, s: Service, place: Place) {
    && site.name == s.name && site.upstream == s.upstream && site.transport == s.transport && site.port == s.port
    && site.cache == s.cache && site.tailnetIdentity == s.tailnetIdentity
    && site.anonymousTokenRefresh == s.anonymousTokenRefresh
    && site.publicRoutes.None? && !site.setupPending
    && (site.access == Public <==> s.publicNames != [])
    && CalledAs(site, s, place)
  }

  /** The public surface of a declaration that shares points where the declaration says, without an identity. */
  predicate SurfaceFor(site: Site, s: Service, zone: string) {
    && s.sharing.Some? && site.publicRoutes == Some(s.sharing.value.policy)
    && site.name == s.name + "-sharing" && site.upstream == s.upstream && site.transport == s.transport && site.port == s.port
    && site.cache == s.cache && !site.tailnetIdentity && !site.anonymousTokenRefresh && !site.setupPending
    && site.access == Public
    && DirectlyBelow([site.hostname] + site.aliases, s.sharing.value.names, zone)
  }

  /** One surface for each declaration that shares, in the order of the declarations. */
  predicate Surfaces(sites: seq<Site>, services: seq<Service>, zone: Option<string>)
    decreases |services|
  {
    if services == [] then sites == []
    else if services[0].sharing.None? then Surfaces(sites, services[1..], zone)
    else
      && MayShare(services[0], zone) && sites != [] && SurfaceFor(sites[0], services[0], zone.value)
      && Surfaces(sites[1..], services[1..], zone)
  }

  /** No name is given twice, and the machine's own only to the identity-protected dashboard, as an alias. */
  predicate Unique(sites: seq<Site>, machine: string) {
    && Distinct(AllNames(sites)) && DistinctSites(sites)
    && (forall i :: 0 <= i < |sites| ==> MachineKept(sites[i], machine))
  }

  predicate ValidNames(site: Site) {
    ValidDomain(site.hostname) && forall k :: 0 <= k < |site.aliases| ==> ValidDomain(site.aliases[k])
  }

  ghost predicate SitesFor(sites: seq<Site>, services: seq<Service>, place: Place) {
    && |sites| == |services|
    && (forall i :: 0 <= i < |services| ==> Allowed(services[i]) && SiteFor(sites[i], services[i], place) && ValidNames(sites[i]))
  }

  ghost predicate Lawful(sites: seq<Site>, services: seq<Service>, place: Place) {
    && |services| <= |sites|
    && SitesFor(sites[..|services|], services, place)
    && Surfaces(sites[|services|..], services, place.zone)
    && Unique(sites, place.machine)
  }
}
