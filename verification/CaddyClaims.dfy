/** One service is added exactly when its declaration may and its names are free. */
module CaddyClaims {
  import opened Runs
  import opened CaddyNames
  import opened CaddySites
  import opened CaddyLaw

  // Names, one service at a time ----------------------------------------------------------------

  /** Exactly the machine's name and the names of the sites are taken. */
  ghost predicate Exact(t: Table, machine: string) {
    forall n: string :: t.names.Has(n) <==> n == machine || n in AllNames(t.sites)
  }

  /** These names may be claimed next to the ones taken. */
  predicate Fit(taken: Names, hostname: string, aliases: seq<string>, machine: string, s: Service) {
    && Distinct([hostname] + aliases)
    && hostname != machine && !taken.Has(hostname)
    && (forall k :: 0 <= k < |aliases| ==> AliasFits(taken, aliases[k], machine, s))
  }

  predicate AliasFits(taken: Names, n: string, machine: string, s: Service) {
    ValidDomain(n) && if n == machine then s.name == "homer" && s.tailnetIdentity else !taken.Has(n)
  }

  /** What a claim holds once these names were claimed. */
  ghost predicate Holds(c: Claim, taken: Names, hostname: string, machine: string) {
    && taken.Has(machine)
    && (forall n: string :: c.names.Has(n) <==> taken.Has(n) || n == hostname || n in c.aliases)
  }

  lemma FitMore(taken: Names, hostname: string, aliases: seq<string>, n: string, machine: string, s: Service)
    ensures Fit(taken, hostname, aliases + [n], machine, s) <==>
      Fit(taken, hostname, aliases, machine, s) && AliasFits(taken, n, machine, s) && n !in aliases && n != hostname
  {
    hide AliasFits;
    var before, after := [hostname] + aliases, [hostname] + (aliases + [n]);
    assert after == before + [n];
    if Distinct(after) {
      assert Distinct(before) by {
        forall i, j | 0 <= i < j < |before| ensures before[i] != before[j] { assert after[i] != after[j]; }
      }
      assert n !in before by {
        forall i | 0 <= i < |before| ensures before[i] != n { assert after[i] != after[|before|]; }
      }
      assert forall i :: 0 <= i < |aliases| ==> before[i + 1] == aliases[i];
    }
    if Fit(taken, hostname, aliases + [n], machine, s) {
      assert (aliases + [n])[|aliases|] == n;
      forall k | 0 <= k < |aliases| ensures AliasFits(taken, aliases[k], machine, s) {
        assert (aliases + [n])[k] == aliases[k];
      }
    }
  }

  /** One alias is claimed exactly when it fits next to the names claimed before. */
  lemma AliasClaimed(c: Claim, n: string, taken: Names, hostname: string, machine: string, s: Service)
    requires Holds(c, taken, hostname, machine) && Fit(taken, hostname, c.aliases, machine, s)
    ensures var r := ClaimAlias(c, n, machine, s);
      && (r.Some? <==> Fit(taken, hostname, c.aliases + [n], machine, s))
      && (r.Some? ==> r.value.aliases == c.aliases + [n] && Holds(r.value, taken, hostname, machine))
  {
    hide Fit, ValidDomain;
    FitMore(taken, hostname, c.aliases, n, machine, s);
    FitMeans(taken, hostname, c.aliases, machine, s);
    assert c.names.Has(n) <==> taken.Has(n) || n == hostname || n in c.aliases;
    var r := ClaimAlias(c, n, machine, s);
    if r.Some? { HoldsMore(c, r.value, n, taken, hostname, machine); }
  }

  lemma HoldsMore(c: Claim, r: Claim, n: string, taken: Names, hostname: string, machine: string)
    requires Holds(c, taken, hostname, machine) && r.aliases == c.aliases + [n]
    requires r.names == c.names.Add(n) || (r.names == c.names && n == machine)
    ensures Holds(r, taken, hostname, machine)
  {
    forall m: string ensures r.names.Has(m) <==> taken.Has(m) || m == hostname || m in r.aliases {
      assert m in r.aliases <==> m in c.aliases || m == n;
      assert c.names.Has(m) <==> taken.Has(m) || m == hostname || m in c.aliases;
    }
  }

  lemma FitMeans(taken: Names, hostname: string, aliases: seq<string>, machine: string, s: Service)
    requires Fit(taken, hostname, aliases, machine, s)
    ensures hostname != machine
  {
  }

  lemma {:induction false} FitPrefix(taken: Names, hostname: string, aliases: seq<string>, more: seq<string>, machine: string, s: Service)
    requires Fit(taken, hostname, aliases + more, machine, s)
    ensures Fit(taken, hostname, aliases, machine, s)
    decreases |more|
  {
    hide Fit;
    if more == [] {
      assert aliases + more == aliases;
    } else {
      var k := |more| - 1;
      assert aliases + more == (aliases + more[..k]) + [more[k]];
      FitMore(taken, hostname, aliases + more[..k], more[k], machine, s);
      FitPrefix(taken, hostname, aliases, more[..k], machine, s);
    }
  }

  lemma {:induction false} AllClaimed(c: Claim, names: seq<string>, taken: Names, hostname: string, machine: string, s: Service)
    requires Holds(c, taken, hostname, machine) && Fit(taken, hostname, c.aliases, machine, s)
    ensures var r := ClaimAll(c, names, machine, s);
      && (r.Some? <==> Fit(taken, hostname, c.aliases + names, machine, s))
      && (r.Some? ==> r.value.aliases == c.aliases + names && Holds(r.value, taken, hostname, machine))
    decreases |names|
  {
    hide Fit, Holds, ClaimAlias;
    if names == [] {
      assert c.aliases + names == c.aliases;
    } else {
      var c1 := ClaimAlias(c, names[0], machine, s);
      AliasClaimed(c, names[0], taken, hostname, machine, s);
      assert c.aliases + names == (c.aliases + [names[0]]) + names[1..];
      if c1.Some? {
        AllClaimed(c1.value, names[1..], taken, hostname, machine, s);
      } else if Fit(taken, hostname, c.aliases + names, machine, s) {
        FitPrefix(taken, hostname, c.aliases + [names[0]], names[1..], machine, s);
      }
    }
  }

  /** Aliases are claimed as their resolved names are. */
  lemma {:induction false} DeclaredClaimed(c: Claim, aliases: seq<string>, place: Place, s: Service)
    ensures ClaimDeclared(c, aliases, place, s).Some? ==>
      exists names :: Resolve(names, aliases, place) && ClaimDeclared(c, aliases, place, s) == ClaimAll(c, names, place.machine, s)
    decreases |aliases|
  {
    hide ClaimAlias, ResolveAlias;
    if ClaimDeclared(c, aliases, place, s).Some? {
      if aliases == [] {
        assert Resolve([], aliases, place);
      } else {
        var name := ResolveAlias(aliases[0], place.host, place.uiDomain, place.zone).value;
        var c1 := ClaimAlias(c, name, place.machine, s).value;
        DeclaredClaimed(c1, aliases[1..], place, s);
        var rest :| Resolve(rest, aliases[1..], place) && ClaimDeclared(c1, aliases[1..], place, s) == ClaimAll(c1, rest, place.machine, s);
        var names := [name] + rest;
        assert names[1..] == rest;
        assert Resolve(names, aliases, place) by {
          forall k | 0 <= k < |aliases|
            ensures ResolveAlias(aliases[k], place.host, place.uiDomain, place.zone) == Some(names[k])
          {
            if k > 0 { assert aliases[k] == aliases[1..][k - 1] && names[k] == rest[k - 1]; }
          }
        }
        assert ClaimAll(c, names, place.machine, s) == ClaimAll(c1, rest, place.machine, s);
      }
    }
  }

  lemma {:induction false} ResolvedClaimed(c: Claim, aliases: seq<string>, names: seq<string>, place: Place, s: Service)
    requires Resolve(names, aliases, place)
    ensures ClaimDeclared(c, aliases, place, s) == ClaimAll(c, names, place.machine, s)
    decreases |aliases|
  {
    hide ClaimAlias, ResolveAlias;
    if aliases != [] {
      assert ResolveAlias(aliases[0], place.host, place.uiDomain, place.zone) == Some(names[0]);
      assert Resolve(names[1..], aliases[1..], place);
      var c1 := ClaimAlias(c, names[0], place.machine, s);
      if c1.Some? { ResolvedClaimed(c1.value, aliases[1..], names[1..], place, s); }
    }
  }

  lemma LabelsSplit(labels: seq<string>)
    requires labels != []
    ensures ValidLabels(labels) <==> ValidLabel(labels[0]) && ValidLabels(labels[1..])
  {
    hide ValidLabel;
    if ValidLabel(labels[0]) && ValidLabels(labels[1..]) {
      forall k | 0 <= k < |labels| ensures ValidLabel(labels[k]) {
        if k > 0 { assert labels[k] == labels[1..][k - 1]; }
      }
    }
    if ValidLabels(labels) {
      forall k | 0 <= k < |labels[1..]| ensures ValidLabel(labels[1..][k]) { assert labels[1..][k] == labels[k + 1]; }
    }
  }

  lemma {:induction false} LabelsResolve(labels: seq<string>, zone: Option<string>, names: seq<string>)
    ensures LabelsInZone(labels, zone) == Some(names) <==>
      if labels == [] then names == [] else ValidLabels(labels) && zone.Some? && DirectlyBelow(names, labels, zone.value)
    decreases |labels|
  {
    hide ValidLabel;
    if labels != [] && names != [] {
      LabelsResolve(labels[1..], zone, names[1..]);
      assert names == [names[0]] + names[1..];
      LabelsSplit(labels);
      if zone.Some? {
        assert DirectlyBelow(names, labels, zone.value) <==>
          names[0] == labels[0] + "." + zone.value && DirectlyBelow(names[1..], labels[1..], zone.value) by {
          BelowSplit(names, labels, zone.value);
        }
        assert LabelsInZone(labels, zone) == Some(names) ==> LabelsInZone(labels[1..], zone) == Some(names[1..]);
      }
    }
  }

  lemma BelowSplit(names: seq<string>, labels: seq<string>, zone: string)
    requires names != [] && labels != []
    ensures DirectlyBelow(names, labels, zone) <==>
      names[0] == labels[0] + "." + zone && DirectlyBelow(names[1..], labels[1..], zone)
  {
    if DirectlyBelow(names[1..], labels[1..], zone) && names[0] == labels[0] + "." + zone {
      forall k | 0 <= k < |labels| ensures names[k] == labels[k] + "." + zone {
        if k > 0 { assert names[1..][k - 1] == labels[1..][k - 1] + "." + zone; }
      }
    }
  }

  // One service ---------------------------------------------------------------------------------

  lemma RulesKept(s: Service, zone: Option<string>, sites: seq<Site>)
    ensures ValidService(s, sites) && ResolvePublicNames(s, zone).Some? <==>
      Allowed(s) && !Named(sites, s.name) && (s.publicNames != [] ==> zone.Some?)
    ensures ValidService(s, sites) && ResolvePublicNames(s, zone).Some? ==>
      var names := ResolvePublicNames(s, zone).value;
      |names| == |s.publicNames| && (names != [] ==> s.aliases == [] && DirectlyBelow(names, s.publicNames, zone.value))
  {
    hide ValidLabel, Named;
    if LabelsInZone(s.publicNames, zone).Some? {
      LabelsResolve(s.publicNames, zone, LabelsInZone(s.publicNames, zone).value);
    }
    if s.publicNames != [] && zone.Some? {
      var names := seq(|s.publicNames|, k requires 0 <= k < |s.publicNames| => s.publicNames[k] + "." + zone.value);
      LabelsResolve(s.publicNames, zone, names);
    }
  }

  /** What one service adds is the site that its declaration asks for, under names that were free. */
  lemma ServiceAdded(t: Table, place: Place, s: Service)
    requires t.names.Has(place.machine) && AddService(t, place, s).Some?
    ensures var t1 := AddService(t, place, s).value;
      && |t1.sites| == |t.sites| + 1 && t1.sites == t.sites + [t1.sites[|t.sites|]]
      && Allowed(s) && !Named(t.sites, s.name) && Admits(t, place, s, t1.sites[|t.sites|])
      && (forall n: string :: t1.names.Has(n) <==> t.names.Has(n) || n in NamesOf(t1.sites[|t.sites|]))
  {
    hide Allowed, Named, ValidDomain, Fit, Resolve, DirectlyBelow, ValidService, ResolvePublicNames, ClaimNames, Hostname, CalledAs;
    RulesKept(s, place.zone, t.sites);
    var publicNames := ResolvePublicNames(s, place.zone).value;
    var hostname, c := Hostname(s, place, publicNames), ClaimNames(t.names, s, place, publicNames).value;
    var names := NamesClaimedFor(t.names, s, place, publicNames);
    var site := SiteOf(s, hostname, c.aliases);
    CalledRight(site, s, place, publicNames, names);
    FitValid(t.names, hostname, c.aliases, place.machine, s);
  }

  function Rest(publicNames: seq<string>): seq<string> {
    if publicNames == [] then [] else publicNames[1..]
  }

  lemma NamesClaimedFor(taken: Names, s: Service, place: Place, publicNames: seq<string>) returns (names: seq<string>)
    requires taken.Has(place.machine) && ClaimNames(taken, s, place, publicNames).Some?
    ensures var hostname, c := Hostname(s, place, publicNames), ClaimNames(taken, s, place, publicNames).value;
      && Resolve(names, s.aliases, place) && c.aliases == Rest(publicNames) + names
      && ValidDomain(hostname) && Fit(taken, hostname, c.aliases, place.machine, s) && Holds(c, taken, hostname, place.machine)
  {
    hide ValidDomain, Fit, Resolve, Hostname;
    var hostname := Hostname(s, place, publicNames);
    var c0, rest := Claim(taken.Add(hostname), []), Rest(publicNames);
    FitOne(taken, hostname, place.machine, s);
    AllClaimed(c0, rest, taken, hostname, place.machine, s);
    assert [] + rest == rest;
    var c1 := ClaimAll(c0, rest, place.machine, s).value;
    DeclaredClaimed(c1, s.aliases, place, s);
    names :| Resolve(names, s.aliases, place) && ClaimDeclared(c1, s.aliases, place, s) == ClaimAll(c1, names, place.machine, s);
    AllClaimed(c1, names, taken, hostname, place.machine, s);
  }

  /** This site may be added for this service. */
  ghost predicate Admits(t: Table, place: Place, s: Service, site: Site) {
    SiteFor(site, s, place) && ValidNames(site) && Fit(t.names, site.hostname, site.aliases, place.machine, s)
  }

  lemma FitOne(taken: Names, hostname: string, machine: string, s: Service)
    ensures Fit(taken, hostname, [], machine, s) <==> hostname != machine && !taken.Has(hostname)
  {
  }

  lemma FitValid(taken: Names, hostname: string, aliases: seq<string>, machine: string, s: Service)
    requires Fit(taken, hostname, aliases, machine, s)
    ensures forall k :: 0 <= k < |aliases| ==> ValidDomain(aliases[k])
  {
    forall k | 0 <= k < |aliases| ensures ValidDomain(aliases[k]) { assert AliasFits(taken, aliases[k], machine, s); }
  }

  lemma CalledRight(site: Site, s: Service, place: Place, publicNames: seq<string>, names: seq<string>)
    requires |publicNames| == |s.publicNames| && (publicNames != [] ==> place.zone.Some? && s.aliases == [])
    requires publicNames != [] ==> DirectlyBelow(publicNames, s.publicNames, place.zone.value)
    requires Resolve(names, s.aliases, place) && site.hostname == Hostname(s, place, publicNames)
    requires site.aliases == Rest(publicNames) + names
    ensures CalledAs(site, s, place)
  {
    if publicNames == [] {
      assert site.aliases == names;
    } else {
      assert [site.hostname] + site.aliases == publicNames;
    }
  }

  /** And every site that a declaration asks for is added, when its names are free. */
  lemma ServiceAdds(t: Table, place: Place, s: Service, site: Site)
    requires t.names.Has(place.machine) && Allowed(s) && !Named(t.sites, s.name) && Admits(t, place, s, site)
    ensures AddService(t, place, s).Some? && AddService(t, place, s).value.sites == t.sites + [site]
  {
    hide Allowed, Named, ValidDomain, Fit, Resolve, DirectlyBelow, ValidService, ResolvePublicNames;
    RulesKept(s, place.zone, t.sites);
    var publicNames := ResolvePublicNames(s, place.zone).value;
    CalledWrong(site, s, place, publicNames);
    var c0, rest := Claim(t.names.Add(site.hostname), []), Rest(publicNames);
    var names := if publicNames == [] then site.aliases else [];
    assert [] + rest == rest && rest + names == site.aliases;
    FitPrefix(t.names, site.hostname, [], site.aliases, place.machine, s);
    FitOne(t.names, site.hostname, place.machine, s);
    FitPrefix(t.names, site.hostname, rest, names, place.machine, s);
    AllClaimed(c0, rest, t.names, site.hostname, place.machine, s);
    var c1 := ClaimAll(c0, rest, place.machine, s).value;
    ResolvedClaimed(c1, s.aliases, names, place, s);
    AllClaimed(c1, names, t.names, site.hostname, place.machine, s);
  }

  lemma CalledWrong(site: Site, s: Service, place: Place, publicNames: seq<string>)
    requires |publicNames| == |s.publicNames| && (publicNames != [] ==> place.zone.Some? && s.aliases == [])
    requires publicNames != [] ==> DirectlyBelow(publicNames, s.publicNames, place.zone.value)
    requires CalledAs(site, s, place)
    ensures site.hostname == Hostname(s, place, publicNames)
    ensures if publicNames == [] then Resolve(site.aliases, s.aliases, place)
            else site.aliases == publicNames[1..] && Resolve([], s.aliases, place)
  {
    if publicNames != [] {
      var names := [site.hostname] + site.aliases;
      assert names == publicNames by {
        forall k | 0 <= k < |names| ensures names[k] == publicNames[k] {
          assert names[k] == s.publicNames[k] + "." + place.zone.value;
        }
      }
      assert names[1..] == site.aliases;
    }
  }
}
