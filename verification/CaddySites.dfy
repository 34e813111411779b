/** Declarations become sites, through one table of all hostnames. */
module CaddySites {
  import opened Runs
  import opened CaddyNames

  datatype Transport = Bridge | HostLoopback

  datatype Access = Tailnet | Public

  datatype CachePolicy = JellyfinStatic

  datatype SharingPolicy = Gokapi224

  datatype Sharing = Sharing(names: seq<string>, policy: SharingPolicy)

  datatype Service = Service(
    sharing: Option<Sharing>,
    cache: Option<CachePolicy>,
    name: string,
    upstream: string,
    transport: Transport,
    port: bv16,
    aliases: seq<string>,
    publicNames: seq<string>,
    tailnetIdentity: bool,
    anonymousTokenRefresh: bool)

  datatype Site = Site(
    publicRoutes: Option<SharingPolicy>,
    setupPending: bool,
    cache: Option<CachePolicy>,
    name: string,
    hostname: string,
    aliases: seq<string>,
    access: Access,
    upstream: string,
    transport: Transport,
    port: bv16,
    tailnetIdentity: bool,
    anonymousTokenRefresh: bool)

  datatype Names = Names(members: set<string>) {
    predicate Has(s: string) { s in members }
    function Add(s: string): Names { Names(members + {s}) }
  }

  /** Where the names of a host live. */
  datatype Place = Place(host: string, uiDomain: string, zone: Option<string>, machine: string)

  /** The sites so far and every hostname taken so far. */
  datatype Table = Table(sites: seq<Site>, names: Names)

  datatype Claim = Claim(names: Names, aliases: seq<string>)

  function LabelsInZone(labels: seq<string>, zone: Option<string>): Option<seq<string>> {
    if labels == [] then Some([])
    else if !ValidLabel(labels[0]) || zone.None? then None
    else Prepend([labels[0] + "." + zone.value], LabelsInZone(labels[1..], zone))
  }

  function ResolvePublicNames(s: Service, zone: Option<string>): Option<seq<string>> {
    if s.cache.Some? && (s.publicNames == [] || s.tailnetIdentity || s.transport != Bridge) then None
    else if s.publicNames != [] && (s.tailnetIdentity || s.anonymousTokenRefresh || s.aliases != [] || s.transport != Bridge) then None
    else LabelsInZone(s.publicNames, zone)
  }

  /** The machine's own name is also the private dashboard's; every other name must be new. */
  function ClaimAlias(c: Claim, name: string, machine: string, s: Service): Option<Claim> {
    if !ValidDomain(name) then None
    else if name == machine then
      if s.name != "homer" || !s.tailnetIdentity || name in c.aliases then None
      else Some(Claim(c.names, c.aliases + [name]))
    else if c.names.Has(name) then None
    else Some(Claim(c.names.Add(name), c.aliases + [name]))
  }

  function ClaimAll(c: Claim, names: seq<string>, machine: string, s: Service): Option<Claim>
    decreases |names|
  {
    if names == [] then Some(c) else
    match ClaimAlias(c, names[0], machine, s)
    case None => None
    case Some(c1) => ClaimAll(c1, names[1..], machine, s)
  }

  function ClaimDeclared(c: Claim, aliases: seq<string>, place: Place, s: Service): Option<Claim>
    decreases |aliases|
  {
    if aliases == [] then Some(c) else
    match ResolveAlias(aliases[0], place.host, place.uiDomain, place.zone)
    case None => None
    case Some(name) => match ClaimAlias(c, name, place.machine, s)
      case None => None
      case Some(c1) => ClaimDeclared(c1, aliases[1..], place, s)
  }

  predicate Named(sites: seq<Site>, name: string) {
    exists i :: 0 <= i < |sites| && sites[i].name == name
  }

  predicate ValidService(s: Service, sites: seq<Site>) {
    && ValidLabel(s.name) && ValidLabel(s.upstream)
    && (s.transport == HostLoopback ==> s.tailnetIdentity)
    && (s.anonymousTokenRefresh ==> s.tailnetIdentity)
    && s.port != 0
    && !Named(sites, s.name)
  }

  function Hostname(s: Service, place: Place, publicNames: seq<string>): string {
    if publicNames != [] then publicNames[0] else s.name + "." + place.host + "." + place.uiDomain
  }

  function SiteOf(s: Service, hostname: string, aliases: seq<string>): Site {
    Site(None, false, s.cache, s.name, hostname, aliases, if s.publicNames == [] then Tailnet else Public,
         s.upstream, s.transport, s.port, s.tailnetIdentity, s.anonymousTokenRefresh)
  }

  function ClaimNames(names: Names, s: Service, place: Place, publicNames: seq<string>): Option<Claim> {
    var hostname := Hostname(s, place, publicNames);
    if !ValidDomain(hostname) || names.Has(hostname) then None else
    match ClaimAll(Claim(names.Add(hostname), []), if publicNames == [] then [] else publicNames[1..], place.machine, s)
    case None => None
    case Some(c) => ClaimDeclared(c, s.aliases, place, s)
  }

  function AddService(t: Table, place: Place, s: Service): Option<Table> {
    if !ValidService(s, t.sites) then None else
    match ResolvePublicNames(s, place.zone)
    case None => None
    case Some(publicNames) => match ClaimNames(t.names, s, place, publicNames)
      case None => None
      case Some(c) => Some(Table(t.sites + [SiteOf(s, Hostname(s, place, publicNames), c.aliases)], c.names))
  }

  function AddServices(t: Table, place: Place, services: seq<Service>): Option<Table>
    decreases |services|
  {
    if services == [] then Some(t) else
    match AddService(t, place, services[0])
    case None => None
    case Some(t1) => AddServices(t1, place, services[1..])
  }

  // Sharing -------------------------------------------------------------------------------------

  function SharingName(owner: string): string {
    owner + "-sharing"
  }

  predicate CanShare(s: Service) {
    s.tailnetIdentity && s.publicNames == [] && s.transport == Bridge && s.cache.None? && s.sharing.Some? && s.sharing.value.names != []
  }

  /** Sharing names need valid labels and must be new; the whole name is not measured. */
  function ClaimShared(c: Claim, labels: seq<string>, zone: string): (r: Option<Claim>)
    ensures r.Some? ==> |r.value.aliases| == |c.aliases| + |labels|
    decreases |labels|
  {
    if labels == [] then Some(c)
    else if !ValidLabel(labels[0]) || c.names.Has(labels[0] + "." + zone) then None
    else ClaimShared(Claim(c.names.Add(labels[0] + "." + zone), c.aliases + [labels[0] + "." + zone]), labels[1..], zone)
  }

  /** The first site of this name. */
  function Owner(sites: seq<Site>, name: string): Option<Site> {
    if sites == [] then None else if sites[0].name == name then Some(sites[0]) else Owner(sites[1..], name)
  }

  function SharedSite(owner: Site, resolved: seq<string>, policy: SharingPolicy): Site
    requires resolved != []
  {
    owner.(name := SharingName(owner.name), hostname := resolved[0], aliases := resolved[1..], tailnetIdentity := false,
           anonymousTokenRefresh := false, access := Public, publicRoutes := Some(policy))
  }

  function ExtendOne(t: Table, zone: Option<string>, s: Service): Option<Table> {
    if s.sharing.None? then Some(t)
    else if !CanShare(s) || zone.None? then None
    else match ClaimShared(Claim(t.names, []), s.sharing.value.names, zone.value)
      case None => None
      case Some(c) =>
        if Named(t.sites, SharingName(s.name)) || Owner(t.sites, s.name).None? then None
        else Some(Table(t.sites + [SharedSite(Owner(t.sites, s.name).value, c.aliases, s.sharing.value.policy)], c.names))
  }

  function Extend(t: Table, zone: Option<string>, services: seq<Service>): Option<Table>
    decreases |services|
  {
    if services == [] then Some(t) else
    match ExtendOne(t, zone, services[0])
    case None => None
    case Some(t1) => Extend(t1, zone, services[1..])
  }

  function BuildTable(place: Place, services: seq<Service>): Option<Table> {
    match AddServices(Table([], Names({place.machine})), place, services)
    case None => None
    case Some(t) => Extend(t, place.zone, services)
  }

  function BuildSites(place: Place, services: seq<Service>): Option<seq<Site>> {
    var t := BuildTable(place, services);
    if t.None? then None else Some(t.value.sites)
  }

  // The loops -----------------------------------------------------------------------------------

  /** The table after the name was looked at, and whether it was refused. */
  method AliasConflicts(names: Names, name: string, machine: string, s: Service, existing: seq<string>)
    returns (after: Names, refused: bool)
    ensures ClaimAlias(Claim(names, existing), name, machine, s) == if refused then None else Some(Claim(after, existing + [name]))
  {
    if !ValidDomain(name) { return names, true; }
    if name == machine {
      return names, s.name != "homer" || !s.tailnetIdentity || name in existing;
    }
    return names.Add(name), names.Has(name);
  }

  method CollectNames(start: Names, s: Service, place: Place, publicNames: seq<string>) returns (r: Option<Claim>)
    ensures r == ClaimNames(start, s, place, publicNames)
  {
    var hostname := Hostname(s, place, publicNames);
    if !ValidDomain(hostname) { return None; }
    if start.Has(hostname) { return None; }
    var names, aliases: seq<string> := start.Add(hostname), [];
    var rest := if publicNames == [] then [] else publicNames[1..];
    ghost var c0 := Claim(names, []);
    for i := 0 to |rest|
      invariant ClaimAll(c0, rest, place.machine, s) == ClaimAll(Claim(names, aliases), rest[i..], place.machine, s)
    {
      assert rest[i..][1..] == rest[i + 1..];
      var after, refused := AliasConflicts(names, rest[i], place.machine, s, aliases);
      if refused { return None; }
      names, aliases := after, aliases + [rest[i]];
    }
    ghost var c1 := Claim(names, aliases);
    for i := 0 to |s.aliases|
      invariant ClaimDeclared(c1, s.aliases, place, s) == ClaimDeclared(Claim(names, aliases), s.aliases[i..], place, s)
    {
      assert s.aliases[i..][1..] == s.aliases[i + 1..];
      var name := ResolveAlias(s.aliases[i], place.host, place.uiDomain, place.zone);
      if name.None? { return None; }
      var after, refused := AliasConflicts(names, name.value, place.machine, s, aliases);
      if refused { return None; }
      names, aliases := after, aliases + [name.value];
    }
    return Some(Claim(names, aliases));
  }

  method ExtendSites(t: Table, zone: Option<string>, services: seq<Service>) returns (r: Option<Table>)
    ensures r == Extend(t, zone, services)
  {
    var table := t;
    for i := 0 to |services|
      invariant Extend(t, zone, services) == Extend(table, zone, services[i..])
    {
      assert services[i..][1..] == services[i + 1..];
      var s := services[i];
      if s.sharing.None? { continue; }
      if !CanShare(s) { return None; }
      if zone.None? { return None; }
      var claimed := ShareNames(table.names, s.sharing.value.names, zone.value);
      if claimed.None? { return None; }
      if Named(table.sites, SharingName(s.name)) { return None; }
      var owner := Owner(table.sites, s.name);
      if owner.None? { return None; }
      table := Table(table.sites + [SharedSite(owner.value, claimed.value.aliases, s.sharing.value.policy)], claimed.value.names);
    }
    return Some(table);
  }

  method ShareNames(start: Names, labels: seq<string>, zone: string) returns (r: Option<Claim>)
    ensures r == ClaimShared(Claim(start, []), labels, zone)
  {
    var names, resolved: seq<string> := start, [];
    for i := 0 to |labels|
      invariant ClaimShared(Claim(start, []), labels, zone) == ClaimShared(Claim(names, resolved), labels[i..], zone)
    {
      assert labels[i..][1..] == labels[i + 1..];
      if !ValidLabel(labels[i]) { return None; }
      var hostname := labels[i] + "." + zone;
      if names.Has(hostname) { return None; }
      names, resolved := names.Add(hostname), resolved + [hostname];
    }
    return Some(Claim(names, resolved));
  }
}
