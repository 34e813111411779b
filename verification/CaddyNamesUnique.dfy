/** When declarations build, every hostname has one owner and lies where it belongs. */
module CaddyNamesUnique {
  import opened Runs
  import opened Text
  import opened CaddyNames
  import opened CaddySites
  import opened CaddyLaw
  import opened CaddyBuilds

  /** The zone, or the UI domain where there is none. */
  function Domain(place: Place): string {
    if place.zone.Some? then place.zone.value else place.uiDomain
  }

  ghost predicate Placed(place: Place) {
    place.zone.Some? ==> InZone(place.uiDomain, place.zone.value)
  }

  predicate AllEndWith(names: seq<string>, suffix: string) {
    forall k :: 0 <= k < |names| ==> EndsWith(names[k], suffix)
  }

  lemma AliasInDomain(text: string, place: Place)
    requires Placed(place) && ResolveAlias(text, place.host, place.uiDomain, place.zone).Some?
    ensures EndsWith(ResolveAlias(text, place.host, place.uiDomain, place.zone).value, "." + Domain(place))
  {
    var name := ResolveAlias(text, place.host, place.uiDomain, place.zone).value;
    ResolvedEndsWith(text, place.host, place.uiDomain, place.zone);
    if place.zone.Some? && EndsWith(name, "." + place.uiDomain) { EndsInZone(name, place.uiDomain, place.zone.value); }
  }

  lemma BelowInZone(names: seq<string>, labels: seq<string>, zone: string)
    requires DirectlyBelow(names, labels, zone)
    ensures AllEndWith(names, "." + zone)
  {
    forall k | 0 <= k < |names| ensures EndsWith(names[k], "." + zone) { NameEndsWith(labels[k], zone); }
  }

  lemma SiteInDomain(site: Site, s: Service, place: Place)
    requires Placed(place) && SiteFor(site, s, place)
    ensures AllEndWith(NamesOf(site), "." + Domain(place))
  {
    hide EndsWith, ResolveAlias, InZone;
    if s.publicNames == [] {
      NameEndsWith(s.name + "." + place.host, place.uiDomain);
      if place.zone.Some? { EndsInZone(site.hostname, place.uiDomain, place.zone.value); }
      forall k | 0 <= k < |s.aliases| ensures EndsWith(site.aliases[k], "." + Domain(place)) {
        AliasInDomain(s.aliases[k], place);
      }
    } else {
      BelowInZone(NamesOf(site), s.publicNames, place.zone.value);
    }
  }

  lemma {:induction false} SurfacesInZone(sites: seq<Site>, services: seq<Service>, zone: Option<string>)
    requires Surfaces(sites, services, zone)
    ensures forall i :: 0 <= i < |sites| ==> zone.Some? && AllEndWith(NamesOf(sites[i]), "." + zone.value)
    decreases |services|
  {
    hide AllEndWith;
    if services != [] {
      if services[0].sharing.None? {
        SurfacesInZone(sites, services[1..], zone);
      } else {
        SurfacesInZone(sites[1..], services[1..], zone);
        BelowInZone(NamesOf(sites[0]), services[0].sharing.value.names, zone.value);
      }
    }
  }

  lemma LawfulInDomain(sites: seq<Site>, services: seq<Service>, place: Place, i: nat)
    requires Placed(place) && Lawful(sites, services, place) && i < |sites|
    ensures AllEndWith(NamesOf(sites[i]), "." + Domain(place))
  {
    hide AllEndWith, SiteFor, Allowed, ValidNames, Unique, Surfaces;
    if i < |services| {
      assert sites[..|services|][i] == sites[i];
      SiteInDomain(sites[i], services[i], place);
    } else {
      SurfacesInZone(sites[|services|..], services, place.zone);
      assert sites[|services|..][i - |services|] == sites[i];
    }
  }

  /** Over all sites, sharing sites included, no hostname or alias is given twice, no site name is given
      twice, every name lies below the zone (or the UI domain), and the machine's own name is at most an
      alias of the identity-protected dashboard. */
  lemma HostnamesAreUnique(place: Place, services: seq<Service>)
    requires Placed(place) && BuildSites(place, services).Some?
    ensures var sites := BuildSites(place, services).value;
      && Distinct(AllNames(sites))
      && DistinctSites(sites)
      && (forall n: string :: n in AllNames(sites) ==> EndsWith(n, "." + Domain(place)))
      && (forall i :: 0 <= i < |sites| ==> MachineKept(sites[i], place.machine))
  {
    hide EndsWith, SitesFor, Surfaces, BuildSites;
    var sites := BuildSites(place, services).value;
    BuiltIffLawful(place, services, sites);
    forall n: string | n in AllNames(sites) ensures EndsWith(n, "." + Domain(place)) {
      NameHasSite(sites, n);
      var i :| 0 <= i < |sites| && n in NamesOf(sites[i]);
      LawfulInDomain(sites, services, place, i);
    }
  }

  /** Letters, digits and hyphens, no hyphen at an end. */
  predicate DnsLabel(s: string) {
    && 1 <= |s| <= 63 && s[0] != '-' && s[|s| - 1] != '-'
    && (forall k :: 0 <= k < |s| ==> 'a' <= s[k] <= 'z' || 'A' <= s[k] <= 'Z' || '0' <= s[k] <= '9' || s[k] == '-')
  }

  /** Every name that a service is reached by is a DNS name of two labels or more. The whole length of the
      name of a sharing surface is not measured, its own label is. */
  lemma HostnamesAreDns(sites: seq<Site>, services: seq<Service>, place: Place, i: nat, n: string)
    requires Lawful(sites, services, place) && i < |services| && n in NamesOf(sites[i])
    ensures |n| <= 253 && |Split(n, '.')| >= 2
    ensures forall k :: 0 <= k < |Split(n, '.')| ==> DnsLabel(Split(n, '.')[k])
  {
    hide Split, SiteFor, Allowed, Surfaces, Unique;
    assert sites[..|services|][i] == sites[i];
    assert ValidNames(sites[i]) && ValidDomain(n);
    forall k | 0 <= k < |Split(n, '.')| ensures DnsLabel(Split(n, '.')[k]) { assert ValidLabel(Split(n, '.')[k]); }
  }
}
