/** For every list of declarations, a host builds the lawful sites and no others. */
module CaddyBuilds {
  import opened Runs
  import opened CaddyNames
  import opened CaddySites
  import opened CaddyLaw
  import opened CaddyClaims

  // All services --------------------------------------------------------------------------------

  lemma DistinctParts(a: seq<string>, b: seq<string>)
    requires Distinct(a + b)
    ensures Distinct(a) && Distinct(b) && forall n: string :: !(n in a && n in b)
  {
    forall i, j | 0 <= i < j < |a| ensures a[i] != a[j] { assert (a + b)[i] != (a + b)[j]; }
    forall i, j | 0 <= i < j < |b| ensures b[i] != b[j] { assert (a + b)[|a| + i] != (a + b)[|a| + j]; }
    forall i, j | 0 <= i < |a| && 0 <= j < |b| ensures a[i] != b[j] { assert (a + b)[i] != (a + b)[|a| + j]; }
  }

  lemma NamesOfMore(sites: seq<Site>, site: Site)
    ensures AllNames(sites + [site]) == AllNames(sites) + NamesOf(site)
  {
    assert (sites + [site])[..|sites|] == sites;
  }

  lemma {:induction false} UniquePrefix(sites: seq<Site>, more: seq<Site>, machine: string)
    requires Unique(sites + more, machine)
    ensures Unique(sites, machine)
    decreases |more|
  {
    if more == [] {
      assert sites + more == sites;
    } else {
      var k := |more| - 1;
      var before := sites + more[..k];
      assert sites + more == before + [more[k]];
      NamesOfMore(before, more[k]);
      DistinctParts(AllNames(before), NamesOf(more[k]));
      assert Unique(before, machine) by {
        assert forall i :: 0 <= i < |before| ==> before[i] == (sites + more)[i];
      }
      UniquePrefix(sites, more[..k], machine);
    }
  }

  lemma MachineAtDashboard(sites: seq<Site>, machine: string)
    requires Unique(sites, machine) && machine in AllNames(sites)
    ensures Named(sites, "homer")
  {
    NameHasSite(sites, machine);
    var i :| 0 <= i < |sites| && machine in NamesOf(sites[i]);
    assert MachineKept(sites[i], machine);
  }

  /** A site whose names fit keeps the names unique. */
  lemma UniqueMore(t: Table, site: Site, machine: string, s: Service)
    requires Exact(t, machine) && Unique(t.sites, machine) && !Named(t.sites, site.name)
    requires site.name == s.name && site.tailnetIdentity == s.tailnetIdentity
    requires Fit(t.names, site.hostname, site.aliases, machine, s)
    ensures Unique(t.sites + [site], machine)
  {
    hide ValidDomain;
    forall n: string | n in NamesOf(site) ensures n !in AllNames(t.sites) {
      if n in site.aliases {
        var k :| 0 <= k < |site.aliases| && site.aliases[k] == n;
        assert AliasFits(t.names, site.aliases[k], machine, s);
        if n == machine && n in AllNames(t.sites) { MachineAtDashboard(t.sites, machine); }
      }
    }
    NamesOfMore(t.sites, site);
    DistinctAppend(AllNames(t.sites), NamesOf(site));
    if machine in site.aliases {
      var k :| 0 <= k < |site.aliases| && site.aliases[k] == machine;
      assert AliasFits(t.names, site.aliases[k], machine, s);
    }
    assert MachineKept(site, machine);
  }

  /** And where the names stay unique, those of the last site fit. */
  lemma UniqueFits(t: Table, site: Site, machine: string, s: Service)
    requires Exact(t, machine) && Unique(t.sites + [site], machine) && ValidNames(site)
    requires site.name == s.name && site.tailnetIdentity == s.tailnetIdentity
    ensures !Named(t.sites, site.name) && Fit(t.names, site.hostname, site.aliases, machine, s)
  {
    hide ValidDomain;
    var sites := t.sites + [site];
    NamesOfMore(t.sites, site);
    DistinctParts(AllNames(t.sites), NamesOf(site));
    assert MachineKept(sites[|t.sites|], machine);
    forall i | 0 <= i < |t.sites| ensures t.sites[i].name != site.name {
      assert sites[i].name != sites[|t.sites|].name;
    }
    assert site.hostname in NamesOf(site);
    forall k | 0 <= k < |site.aliases| ensures AliasFits(t.names, site.aliases[k], machine, s) {
      assert site.aliases[k] in NamesOf(site) by { assert NamesOf(site)[k + 1] == site.aliases[k]; }
    }
  }

  lemma ExactMore(t: Table, t1: Table, site: Site, machine: string)
    requires Exact(t, machine) && t1.sites == t.sites + [site]
    requires forall n: string :: t1.names.Has(n) <==> t.names.Has(n) || n in NamesOf(site)
    ensures Exact(t1, machine)
  {
    NamesOfMore(t.sites, site);
  }

  lemma SitesForMore(site: Site, sites: seq<Site>, services: seq<Service>, place: Place)
    requires services != []
    ensures SitesFor([site] + sites, services, place) <==>
      Allowed(services[0]) && SiteFor(site, services[0], place) && ValidNames(site) && SitesFor(sites, services[1..], place)
  {
    hide Allowed, SiteFor, ValidNames;
    if SitesFor([site] + sites, services, place) {
      forall i | 0 <= i < |services[1..]|
        ensures Allowed(services[1..][i]) && SiteFor(sites[i], services[1..][i], place) && ValidNames(sites[i])
      {
        assert sites[i] == ([site] + sites)[i + 1] && services[1..][i] == services[i + 1];
      }
    }
  }

  lemma {:induction false} ServicesAdded(t: Table, place: Place, services: seq<Service>) returns (sites: seq<Site>)
    requires Exact(t, place.machine) && Unique(t.sites, place.machine) && AddServices(t, place, services).Some?
    ensures var t1 := AddServices(t, place, services).value;
      && t1.sites == t.sites + sites && SitesFor(sites, services, place)
      && Exact(t1, place.machine) && Unique(t1.sites, place.machine)
    decreases |services|
  {
    hide Exact, Unique, AddService, SitesFor, Allowed, SiteFor, ValidNames, Named, Fit;
    sites := [];
    if services == [] {
      assert SitesFor(sites, services, place) by { NoSites(place); }
      assert t.sites + sites == t.sites;
    } else {
      assert t.names.Has(place.machine) by { MachineTaken(t, place.machine); }
      ServiceAdded(t, place, services[0]);
      var t1 := AddService(t, place, services[0]).value;
      var site := t1.sites[|t.sites|];
      assert site.name == services[0].name && site.tailnetIdentity == services[0].tailnetIdentity by { SiteIsNamed(site, services[0], place); }
      UniqueMore(t, site, place.machine, services[0]);
      ExactMore(t, t1, site, place.machine);
      var rest := ServicesAdded(t1, place, services[1..]);
      sites := [site] + rest;
      SitesForMore(site, rest, services, place);
      assert t1.sites + rest == t.sites + sites;
    }
  }

  lemma NoSites(place: Place)
    ensures SitesFor([], [], place)
  {
  }

  lemma MachineTaken(t: Table, machine: string)
    requires Exact(t, machine)
    ensures t.names.Has(machine)
  {
  }

  lemma SiteIsNamed(site: Site, s: Service, place: Place)
    requires SiteFor(site, s, place)
    ensures site.name == s.name && site.tailnetIdentity == s.tailnetIdentity
  {
  }

  lemma {:induction false} ServicesAdd(t: Table, place: Place, services: seq<Service>, sites: seq<Site>)
    requires Exact(t, place.machine) && SitesFor(sites, services, place) && Unique(t.sites + sites, place.machine)
    ensures AddServices(t, place, services).Some?
    ensures var t1 := AddServices(t, place, services).value;
      t1.sites == t.sites + sites && Exact(t1, place.machine)
    decreases |services|
  {
    hide Exact, Unique, AddService, Allowed, SiteFor, ValidNames, Named, Fit, SitesFor;
    assert |sites| == |services| by { SitesCounted(sites, services, place); }
    if services == [] {
      assert t.sites + sites == t.sites;
    } else {
      var site := sites[0];
      assert sites == [site] + sites[1..];
      SitesForMore(site, sites[1..], services, place);
      assert t.sites + sites == (t.sites + [site]) + sites[1..];
      UniquePrefix(t.sites + [site], sites[1..], place.machine);
      SiteIsNamed(site, services[0], place);
      UniqueFits(t, site, place.machine, services[0]);
      MachineTaken(t, place.machine);
      ServiceAdds(t, place, services[0], site);
      ServiceAdded(t, place, services[0]);
      var t1 := AddService(t, place, services[0]).value;
      ExactMore(t, t1, site, place.machine);
      ServicesAdd(t1, place, services[1..], sites[1..]);
    }
  }

  lemma SitesCounted(sites: seq<Site>, services: seq<Service>, place: Place)
    requires SitesFor(sites, services, place)
    ensures |sites| == |services|
  {
  }

  // Sharing -------------------------------------------------------------------------------------

  predicate SharedFit(taken: Names, names: seq<string>) {
    Distinct(names) && forall k :: 0 <= k < |names| ==> !taken.Has(names[k])
  }

  ghost predicate HoldsShared(c: Claim, taken: Names) {
    forall n: string :: c.names.Has(n) <==> taken.Has(n) || n in c.aliases
  }

  lemma SharedFitMore(taken: Names, names: seq<string>, n: string)
    ensures SharedFit(taken, names + [n]) <==> SharedFit(taken, names) && !taken.Has(n) && n !in names
  {
    var after := names + [n];
    if SharedFit(taken, after) {
      DistinctParts(names, [n]);
      assert n in [n];
      assert after[|names|] == n;
      forall k | 0 <= k < |names| ensures !taken.Has(names[k]) { assert after[k] == names[k]; }
    }
  }

  lemma {:induction false} SharedFitPrefix(taken: Names, names: seq<string>, more: seq<string>)
    requires SharedFit(taken, names + more)
    ensures SharedFit(taken, names)
  {
    DistinctParts(names, more);
    forall k | 0 <= k < |names| ensures !taken.Has(names[k]) { assert (names + more)[k] == names[k]; }
  }

  /** The labels of a surface are claimed exactly when they are valid and the names below the zone are free. */
  lemma {:induction false} SharedClaimed(c: Claim, labels: seq<string>, zone: string, names: seq<string>, taken: Names)
    requires DirectlyBelow(names, labels, zone) && HoldsShared(c, taken) && SharedFit(taken, c.aliases)
    ensures var r := ClaimShared(c, labels, zone);
      && (r.Some? <==> ValidLabels(labels) && SharedFit(taken, c.aliases + names))
      && (r.Some? ==> r.value.aliases == c.aliases + names && HoldsShared(r.value, taken))
    decreases |labels|
  {
    hide ValidLabel, SharedFit;
    if labels == [] {
      assert c.aliases + names == c.aliases;
    } else {
      BelowSplit(names, labels, zone);
      var c1 := Claim(c.names.Add(names[0]), c.aliases + [names[0]]);
      SharedFitMore(taken, c.aliases, names[0]);
      assert c.aliases + names == c1.aliases + names[1..];
      LabelsSplit(labels);
      if c.names.Has(names[0]) {
        if SharedFit(taken, c.aliases + names) { SharedFitPrefix(taken, c1.aliases, names[1..]); }
      } else {
        SharedClaimed(c1, labels[1..], zone, names[1..], taken);
      }
    }
  }

  lemma {:induction false} OwnerIsOnly(sites: seq<Site>, i: nat)
    requires i < |sites| && DistinctSites(sites)
    ensures Owner(sites, sites[i].name) == Some(sites[i])
    decreases |sites|
  {
    if i > 0 {
      assert sites[0].name != sites[i].name;
      assert sites[1..][i - 1] == sites[i];
      assert DistinctSites(sites[1..]);
      OwnerIsOnly(sites[1..], i - 1);
    }
  }

  /** What sharing adds is the surface that the declaration asks for. */
  lemma SurfaceAdded(t: Table, place: Place, s: Service, i: nat)
    requires i < |t.sites| && SiteFor(t.sites[i], s, place) && DistinctSites(t.sites)
    requires s.sharing.Some? && ExtendOne(t, place.zone, s).Some?
    ensures var t1 := ExtendOne(t, place.zone, s).value;
      && |t1.sites| == |t.sites| + 1 && t1.sites == t.sites + [t1.sites[|t.sites|]]
      && MayShare(s, place.zone) && !Named(t.sites, s.name + "-sharing")
      && var site := t1.sites[|t.sites|];
        SurfaceFor(site, s, place.zone.value) && SharedFit(t.names, NamesOf(site))
        && (forall n: string :: t1.names.Has(n) <==> t.names.Has(n) || n in NamesOf(site))
  {
    hide ValidLabel, SharedFit, Named, CalledAs, ClaimShared, Owner, ValidLabels;
    OwnerIsOnly(t.sites, i);
    var labels, zone := s.sharing.value.names, place.zone.value;
    var names := BelowZone(labels, zone);
    EmptyFits(t.names);
    SharedClaimed(Claim(t.names, []), labels, zone, names, t.names);
    assert [] + names == names;
    hide DirectlyBelow;
    var site := SharedSite(t.sites[i], names, s.sharing.value.policy);
    assert NamesOf(site) == names;
  }

  lemma BelowZone(labels: seq<string>, zone: string) returns (names: seq<string>)
    ensures DirectlyBelow(names, labels, zone)
  {
    names := seq(|labels|, k requires 0 <= k < |labels| => labels[k] + "." + zone);
  }

  lemma EmptyFits(taken: Names)
    ensures SharedFit(taken, [])
  {
  }

  lemma SurfaceAdds(t: Table, place: Place, s: Service, i: nat, site: Site)
    requires i < |t.sites| && SiteFor(t.sites[i], s, place) && DistinctSites(t.sites)
    requires MayShare(s, place.zone) && !Named(t.sites, s.name + "-sharing")
    requires SurfaceFor(site, s, place.zone.value) && SharedFit(t.names, NamesOf(site))
    ensures ExtendOne(t, place.zone, s).Some? && ExtendOne(t, place.zone, s).value.sites == t.sites + [site]
  {
    hide ValidLabel, SharedFit, Named, CalledAs;
    OwnerIsOnly(t.sites, i);
    var labels, zone, names := s.sharing.value.names, place.zone.value, NamesOf(site);
    EmptyFits(t.names);
    SharedClaimed(Claim(t.names, []), labels, zone, names, t.names);
    assert [] + names == names && names[1..] == site.aliases;
  }

  lemma UniqueMoreShared(t: Table, site: Site, machine: string)
    requires Exact(t, machine) && Unique(t.sites, machine) && !Named(t.sites, site.name)
    requires SharedFit(t.names, NamesOf(site))
    ensures Unique(t.sites + [site], machine)
  {
    hide AllNames;
    var names := NamesOf(site);
    forall k | 0 <= k < |names| ensures names[k] !in AllNames(t.sites) && names[k] != machine {
      assert !t.names.Has(names[k]);
    }
    NamesOfMore(t.sites, site);
    DistinctAppend(AllNames(t.sites), names);
    KeptWithout(site, machine);
  }

  /** A site that does not bear the machine's name keeps it. */
  lemma KeptWithout(site: Site, machine: string)
    requires forall k :: 0 <= k < |NamesOf(site)| ==> NamesOf(site)[k] != machine
    ensures MachineKept(site, machine)
  {
    assert NamesOf(site)[0] == site.hostname;
    forall k | 0 <= k < |site.aliases| ensures site.aliases[k] != machine { assert site.aliases[k] == NamesOf(site)[k + 1]; }
  }

  lemma UniqueFitsShared(t: Table, site: Site, machine: string, owner: string)
    requires Exact(t, machine) && Unique(t.sites + [site], machine) && site.name == owner + "-sharing"
    ensures !Named(t.sites, site.name) && SharedFit(t.names, NamesOf(site))
  {
    var sites, names := t.sites + [site], NamesOf(site);
    NamesOfMore(t.sites, site);
    DistinctParts(AllNames(t.sites), names);
    assert MachineKept(sites[|t.sites|], machine);
    assert site.name != "homer" by { assert site.name[|owner| + 7] == 'g'; }
    forall i | 0 <= i < |t.sites| ensures t.sites[i].name != site.name {
      assert sites[i].name != sites[|t.sites|].name;
    }
    forall k | 0 <= k < |names| ensures !t.names.Has(names[k]) {
      assert names[k] in names;
      assert k > 0 ==> names[k] in site.aliases;
    }
  }

  /** The sites of all declarations come first. */
  ghost predicate Based(t: Table, place: Place, services: seq<Service>) {
    |services| <= |t.sites| && SitesFor(t.sites[..|services|], services, place)
  }

  lemma BasedAt(t: Table, place: Place, services: seq<Service>, i: nat)
    requires Based(t, place, services) && i < |services|
    ensures i < |t.sites| && SiteFor(t.sites[i], services[i], place)
  {
    assert t.sites[i] == t.sites[..|services|][i];
  }

  lemma BasedMore(t: Table, t1: Table, place: Place, services: seq<Service>, site: Site)
    requires Based(t, place, services) && t1.sites == t.sites + [site]
    ensures Based(t1, place, services)
  {
    assert t1.sites[..|services|] == t.sites[..|services|];
  }

  lemma UniqueSites(sites: seq<Site>, machine: string)
    requires Unique(sites, machine)
    ensures DistinctSites(sites)
  {
  }

  lemma SurfaceIsNamed(site: Site, s: Service, zone: string)
    requires SurfaceFor(site, s, zone)
    ensures site.name == s.name + "-sharing"
  {
  }

  lemma {:induction false} SurfacesAdded(t: Table, place: Place, services: seq<Service>, k: nat) returns (sites: seq<Site>)
    requires k <= |services| && Based(t, place, services) && Exact(t, place.machine) && Unique(t.sites, place.machine)
    requires Extend(t, place.zone, services[k..]).Some?
    ensures var t1 := Extend(t, place.zone, services[k..]).value;
      t1.sites == t.sites + sites && Surfaces(sites, services[k..], place.zone) && Unique(t1.sites, place.machine)
    decreases |services| - k
  {
    hide Exact, Unique, Based, Named, SurfaceFor, SiteFor, SharedFit, MayShare, ExtendOne;
    sites := [];
    if k == |services| {
      assert t.sites + sites == t.sites;
    } else {
      assert services[k..][1..] == services[k + 1..];
      var s := services[k];
      SkipsUnshared(t, place.zone, s);
      if s.sharing.None? {
        sites := SurfacesAdded(t, place, services, k + 1);
      } else {
        BasedAt(t, place, services, k);
        UniqueSites(t.sites, place.machine);
        SurfaceAdded(t, place, s, k);
        ShareHasZone(s, place.zone);
        var t1 := ExtendOne(t, place.zone, s).value;
        var site := t1.sites[|t.sites|];
        SurfaceIsNamed(site, s, place.zone.value);
        UniqueMoreShared(t, site, place.machine);
        ExactMore(t, t1, site, place.machine);
        BasedMore(t, t1, place, services, site);
        var rest := SurfacesAdded(t1, place, services, k + 1);
        sites := [site] + rest;
        assert t1.sites + rest == t.sites + sites && sites[1..] == rest;
      }
    }
  }

  lemma SkipsUnshared(t: Table, zone: Option<string>, s: Service)
    ensures s.sharing.None? ==> ExtendOne(t, zone, s) == Some(t)
  {
  }

  lemma {:induction false} SurfacesAdd(t: Table, place: Place, services: seq<Service>, k: nat, sites: seq<Site>)
    requires k <= |services| && Based(t, place, services) && Exact(t, place.machine)
    requires Surfaces(sites, services[k..], place.zone) && Unique(t.sites + sites, place.machine)
    ensures Extend(t, place.zone, services[k..]).Some? && Extend(t, place.zone, services[k..]).value.sites == t.sites + sites
    decreases |services| - k
  {
    hide Exact, Unique, Based, Named, SurfaceFor, SiteFor, SharedFit, MayShare, ExtendOne;
    if k == |services| {
      assert t.sites + sites == t.sites;
    } else {
      assert services[k..][1..] == services[k + 1..];
      var s := services[k];
      SkipsUnshared(t, place.zone, s);
      if s.sharing.None? {
        SurfacesAdd(t, place, services, k + 1, sites);
      } else {
        var site := sites[0];
        assert t.sites + sites == (t.sites + [site]) + sites[1..];
        UniquePrefix(t.sites + [site], sites[1..], place.machine);
        UniquePrefix(t.sites, [site], place.machine);
        UniqueSites(t.sites, place.machine);
        BasedAt(t, place, services, k);
        ShareHasZone(s, place.zone);
        SurfaceIsNamed(site, s, place.zone.value);
        UniqueFitsShared(t, site, place.machine, s.name);
        SurfaceAdds(t, place, s, k, site);
        SurfaceAdded(t, place, s, k);
        var t1 := ExtendOne(t, place.zone, s).value;
        ExactMore(t, t1, site, place.machine);
        BasedMore(t, t1, place, services, site);
        SurfacesAdd(t1, place, services, k + 1, sites[1..]);
      }
    }
  }

  lemma ShareHasZone(s: Service, zone: Option<string>)
    requires MayShare(s, zone)
    ensures zone.Some?
  {
  }

  lemma NothingTaken(machine: string)
    ensures Exact(Table([], Names({machine})), machine) && Unique([], machine)
  {
  }

  /** The sites that declarations build are the lawful ones, and there are some whenever any are lawful. */
  lemma BuiltIffLawful(place: Place, services: seq<Service>, sites: seq<Site>)
    ensures BuildSites(place, services) == Some(sites) <==> Lawful(sites, services, place)
  {
    hide Exact, Unique, SitesFor, Surfaces, AddServices, Extend;
    var t0 := Table([], Names({place.machine}));
    NothingTaken(place.machine);
    assert services[0..] == services;
    if BuildSites(place, services) == Some(sites) {
      var base := ServicesAdded(t0, place, services);
      assert t0.sites + base == base;
      var t := AddServices(t0, place, services).value;
      SitesCounted(base, services, place);
      assert t.sites[..|services|] == base;
      var more := SurfacesAdded(t, place, services, 0);
      assert sites[..|services|] == base && sites[|services|..] == more;
    }
    if Lawful(sites, services, place) {
      var base, more := sites[..|services|], sites[|services|..];
      assert t0.sites + base == base && base + more == sites;
      UniquePrefix(base, more, place.machine);
      ServicesAdd(t0, place, services, base);
      var t := AddServices(t0, place, services).value;
      SitesCounted(base, services, place);
      assert t.sites[..|services|] == base;
      SurfacesAdd(t, place, services, 0, more);
    }
  }

  method Build(place: Place, services: seq<Service>) returns (r: Option<seq<Site>>)
    ensures r == BuildSites(place, services)
    ensures r.Some? ==> Lawful(r.value, services, place)
    ensures r.None? ==> forall sites: seq<Site> :: !Lawful(sites, services, place)
  {
    hide ClaimNames, ResolvePublicNames, ValidService, ExtendOne, Lawful;
    forall built: seq<Site> ensures BuildSites(place, services) == Some(built) <==> Lawful(built, services, place) {
      BuiltIffLawful(place, services, built);
    }
    var sites: seq<Site>, names := [], Names({place.machine});
    ghost var t0 := Table([], names);
    for i := 0 to |services|
      invariant AddServices(t0, place, services) == AddServices(Table(sites, names), place, services[i..])
    {
      var s := services[i];
      assert services[i..][1..] == services[i + 1..];
      if !ValidService(s, sites) { return None; }
      var publicNames := ResolvePublicNames(s, place.zone);
      if publicNames.None? { return None; }
      var claimed := CollectNames(names, s, place, publicNames.value);
      if claimed.None? { return None; }
      sites := sites + [SiteOf(s, Hostname(s, place, publicNames.value), claimed.value.aliases)];
      names := claimed.value.names;
    }
    var extended := ExtendSites(Table(sites, names), place.zone, services);
    r := if extended.None? then None else Some(extended.value.sites);
  }
}
