/** The versioned payload, and what a guest accepts of it. */
module CaddyPayload {
  import opened Runs
  import opened CaddyNames
  import opened CaddySites
  import opened CaddyLaw
  import opened CaddyBuilds

  datatype Payload = Payload(
    version: nat,
    host: string,
    uiDomain: string,
    zoneDomain: Option<string>,
    acmeStaging: bool,
    machineHostname: string,
    services: seq<Site>,
    tailnetUsers: seq<string>,
    homeassistantToken: Option<string>)

  predicate AnySharing(services: seq<Service>) {
    exists i :: 0 <= i < |services| && services[i].sharing.Some?
  }

  predicate AnyCache(services: seq<Service>) {
    exists i :: 0 <= i < |services| && services[i].cache.Some?
  }

  predicate AnyPublic(services: seq<Service>) {
    exists i :: 0 <= i < |services| && services[i].publicNames != []
  }

  predicate AnyLoopback(services: seq<Service>) {
    exists i :: 0 <= i < |services| && services[i].transport == HostLoopback
  }

  function VersionOf(services: seq<Service>, zone: Option<string>): nat {
    if AnySharing(services) then 8
    else if AnyCache(services) then 7
    else if AnyPublic(services) then 6
    else if zone.Some? then 5
    else if AnyLoopback(services) then 4
    else 3
  }

  function PlaceOf(host: string, uiDomain: string, zone: Option<string>): Place {
    Place(host, uiDomain, zone, host + "." + uiDomain)
  }

  predicate ValidPlace(host: string, uiDomain: string, zone: Option<string>) {
    && ValidLabel(host) && ValidDomain(uiDomain)
    && (zone.Some? ==> InZone(uiDomain, zone.value))
    && ValidDomain(host + "." + uiDomain)
  }

  function FromHost(host: string, uiDomain: string, acmeStaging: bool, services: seq<Service>, zone: Option<string>): Option<Payload> {
    if !ValidPlace(host, uiDomain, zone) || services == [] then None else
    match BuildSites(PlaceOf(host, uiDomain, zone), services)
    case None => None
    case Some(sites) =>
      Some(Payload(VersionOf(services, zone), host, uiDomain, zone, acmeStaging, host + "." + uiDomain, sites, [], None))
  }

  // Reading -------------------------------------------------------------------------------------

  /** Readiness is never part of the encoded payload. */
  function Decode(p: Payload): Payload {
    p.(services := seq(|p.services|, i requires 0 <= i < |p.services| => p.services[i].(setupPending := false)))
  }

  predicate ValidVersion(p: Payload) {
    && 2 <= p.version <= 8
    && (p.zoneDomain.Some? <==> p.version >= 5)
    && (p.version < 7 ==> forall i :: 0 <= i < |p.services| ==> p.services[i].cache.None?)
    && (p.version < 8 ==> forall i :: 0 <= i < |p.services| ==> p.services[i].publicRoutes.None?)
  }

  function WithoutSharing(s: Service): Service {
    s.(sharing := None)
  }

  function WithoutCache(s: Service): Service {
    s.(cache := None)
  }

  /** A public service falls back to a private, identity-protected one. */
  function MadePrivate(s: Service): Service {
    if s.publicNames == [] then s else s.(publicNames := [], tailnetIdentity := true)
  }

  /** A declaration as a payload of an older version could carry it. */
  function DowngradeOne(s: Service, version: nat): Service {
    var s1 := if version < 8 then WithoutSharing(s) else s;
    var s2 := if version < 7 then WithoutCache(s1) else s1;
    if version < 6 then MadePrivate(s2) else s2
  }

  function Downgrade(services: seq<Service>, version: nat): seq<Service> {
    if services == [] then [] else [DowngradeOne(services[0], version)] + Downgrade(services[1..], version)
  }

  predicate Graphic(c: char) {
    '!' <= c <= '~'
  }

  predicate ValidIdentity(user: string) {
    0 < |user| <= 254 && forall i :: 0 <= i < |user| ==> Graphic(user[i]) && user[i] != ','
  }

  predicate ValidUsers(users: seq<string>) {
    && (forall i :: 0 <= i < |users| ==> ValidIdentity(users[i]))
    && (forall i, j :: 0 <= i < j < |users| ==> users[i] != users[j])
  }

  predicate ValidToken(token: string) {
    32 <= |token| <= 16384 && forall i :: 0 <= i < |token| ==> Graphic(token[i])
  }

  predicate TokenAllowed(token: Option<string>, services: seq<Service>) {
    token.Some? ==> (exists i :: 0 <= i < |services| && services[i].name == "homeassistant") && ValidToken(token.value)
  }

  /** What old versions must not carry. */
  predicate FitsVersion(p: Payload) {
    && (p.version < 6 ==> forall i :: 0 <= i < |p.services| ==> p.services[i].access != Public)
    && (p.version == 2 ==> forall i :: 0 <= i < |p.services| ==> !p.services[i].tailnetIdentity)
    && (p.version < 4 ==> forall i :: 0 <= i < |p.services| ==> p.services[i].transport == Bridge)
  }

  function Parse(contents: Payload, host: string, services: seq<Service>): Option<Payload> {
    var sites := Decode(contents);
    if !ValidVersion(sites) then None else
    match FromHost(host, sites.uiDomain, sites.acmeStaging, Downgrade(services, sites.version), sites.zoneDomain)
    case None => None
    case Some(built) =>
      if !FitsVersion(sites) || !ValidUsers(sites.tailnetUsers) then None else
      var expected := built.(version := sites.version, tailnetUsers := sites.tailnetUsers, homeassistantToken := sites.homeassistantToken);
      if sites != expected || !TokenAllowed(sites.homeassistantToken, services) then None else Some(expected)
  }

  method Downgraded(services: seq<Service>, version: nat) returns (declarations: seq<Service>)
    ensures declarations == Downgrade(services, version)
  {
    hide WithoutSharing, WithoutCache, MadePrivate;
    DowngradeAt(services, version);
    declarations := services;
    if version < 8 {
      for i := 0 to |services|
        invariant |declarations| == |services|
        invariant forall k :: 0 <= k < |services| ==> declarations[k] == if k < i then WithoutSharing(services[k]) else services[k]
      {
        declarations := declarations[i := WithoutSharing(declarations[i])];
      }
    }
    ghost var first := declarations;
    if version < 7 {
      for i := 0 to |services|
        invariant |declarations| == |services|
        invariant forall k :: 0 <= k < |services| ==> declarations[k] == if k < i then WithoutCache(first[k]) else first[k]
      {
        declarations := declarations[i := WithoutCache(declarations[i])];
      }
    }
    ghost var second := declarations;
    if version < 6 {
      for i := 0 to |services|
        invariant |declarations| == |services|
        invariant forall k :: 0 <= k < |services| ==> declarations[k] == if k < i then MadePrivate(second[k]) else second[k]
      {
        declarations := declarations[i := MadePrivate(declarations[i])];
      }
    }
  }

  lemma {:induction false} DowngradeAt(services: seq<Service>, version: nat)
    ensures |Downgrade(services, version)| == |services|
    ensures forall i :: 0 <= i < |services| ==> Downgrade(services, version)[i] == DowngradeOne(services[i], version)
  {
    if services != [] { DowngradeAt(services[1..], version); }
  }

  // What a version can carry ---------------------------------------------------------------------

  /** Everything these declarations build can be told in a payload of this version. */
  predicate Carries(version: nat, services: seq<Service>, zone: Option<string>) {
    && 3 <= version <= 8
    && (zone.Some? ==> 5 <= version)
    && (forall i :: 0 <= i < |services| ==>
      && (services[i].transport == HostLoopback ==> 4 <= version) && (services[i].publicNames != [] ==> 6 <= version)
      && (services[i].cache.Some? ==> 7 <= version) && (services[i].sharing.Some? ==> 8 <= version))
  }

  /** A host writes the oldest version that can carry what it declares. */
  lemma VersionIsLeast(services: seq<Service>, zone: Option<string>, version: nat)
    ensures Carries(VersionOf(services, zone), services, zone)
    ensures Carries(version, services, zone) ==> VersionOf(services, zone) <= version
  {
  }

  /** A host builds a payload exactly for a valid place and lawful sites, and nothing else goes into it. */
  lemma HostBuildsIff(host: string, uiDomain: string, acmeStaging: bool, services: seq<Service>, zone: Option<string>, p: Payload)
    ensures FromHost(host, uiDomain, acmeStaging, services, zone) == Some(p) <==>
      && ValidLabel(host) && ValidDomain(uiDomain) && ValidDomain(host + "." + uiDomain)
      && (zone.Some? ==> ValidDomain(zone.value) && (uiDomain == zone.value || EndsWith(uiDomain, "." + zone.value)))
      && services != [] && Lawful(p.services, services, Place(host, uiDomain, zone, host + "." + uiDomain))
      && p == Payload(VersionOf(services, zone), host, uiDomain, zone, acmeStaging, host + "." + uiDomain, p.services, [], None)
  {
    hide ValidDomain, ValidLabel, EndsWith, BuildSites, Lawful, VersionOf;
    var place := PlaceOf(host, uiDomain, zone);
    BuiltIffLawful(place, services, p.services);
    if BuildSites(place, services).Some? { BuiltIffLawful(place, services, BuildSites(place, services).value); }
  }

  // Lawful sites and what they show --------------------------------------------------------------

  predicate Surface(site: Site) {
    site.publicRoutes.Some? && site.access == Public && !site.tailnetIdentity && !site.setupPending
  }

  lemma {:induction false} SurfacesShow(sites: seq<Site>, services: seq<Service>, zone: Option<string>)
    requires Surfaces(sites, services, zone)
    ensures forall i :: 0 <= i < |sites| ==> Surface(sites[i])
    ensures (sites != [] <==> AnySharing(services)) && (AnySharing(services) ==> zone.Some?)
    decreases |services|
  {
    hide DirectlyBelow, ValidLabel;
    if services != [] {
      assert AnySharing(services) <==> services[0].sharing.Some? || AnySharing(services[1..]) by {
        if i :| 0 <= i < |services| && services[i].sharing.Some? {
          if i > 0 { assert services[1..][i - 1] == services[i]; }
        }
      }
      SurfacesShow(if services[0].sharing.None? then sites else sites[1..], services[1..], zone);
    }
  }

  lemma LawfulShow(sites: seq<Site>, services: seq<Service>, place: Place)
    requires Lawful(sites, services, place)
    ensures |services| <= |sites|
    ensures forall i :: 0 <= i < |services| ==> SiteFor(sites[i], services[i], place) && Allowed(services[i])
    ensures forall i :: |services| <= i < |sites| ==> Surface(sites[i])
    ensures |sites| > |services| <==> AnySharing(services)
    ensures AnySharing(services) || AnyCache(services) || AnyPublic(services) ==> place.zone.Some?
  {
    hide Surface, Unique, Surfaces, ValidNames, ValidLabel, Resolve, DirectlyBelow;
    var base, more := sites[..|services|], sites[|services|..];
    SurfacesShow(more, services, place.zone);
    forall i | 0 <= i < |services| ensures SiteFor(sites[i], services[i], place) && Allowed(services[i]) {
      assert base[i] == sites[i];
    }
    forall i | |services| <= i < |sites| ensures Surface(sites[i]) { assert more[i - |services|] == sites[i]; }
  }

  // Round trip and retained versions -------------------------------------------------------------

  lemma {:induction false} NothingToDowngrade(services: seq<Service>, version: nat)
    requires version < 8 ==> !AnySharing(services)
    requires version < 7 ==> !AnyCache(services)
    requires version < 6 ==> !AnyPublic(services)
    ensures Downgrade(services, version) == services
  {
    DowngradeAt(services, version);
  }

  lemma LawfulMeans(sites: seq<Site>, services: seq<Service>, place: Place)
    requires Lawful(sites, services, place)
    ensures forall i :: 0 <= i < |sites| ==> !sites[i].setupPending
    ensures !AnySharing(services) ==> forall i :: 0 <= i < |sites| ==> sites[i].publicRoutes.None?
    ensures !AnySharing(services) && !AnyCache(services) ==> forall i :: 0 <= i < |sites| ==> sites[i].cache.None?
    ensures !AnySharing(services) && !AnyPublic(services) ==> forall i :: 0 <= i < |sites| ==> sites[i].access == Tailnet
    ensures !AnySharing(services) && !AnyLoopback(services) ==> forall i :: 0 <= i < |sites| ==> sites[i].transport == Bridge
  {
    hide CalledAs, Allowed;
    LawfulShow(sites, services, place);
    hide Lawful;
    forall i | 0 <= i < |services|
      ensures !sites[i].setupPending && sites[i].publicRoutes.None? && sites[i].cache == services[i].cache
      ensures (sites[i].access == Public <==> services[i].publicNames != []) && sites[i].transport == services[i].transport
    {
      assert SiteFor(sites[i], services[i], place);
    }
    forall i | |services| <= i < |sites| ensures !sites[i].setupPending {
      assert Surface(sites[i]);
    }
  }

  /** What a host builds for itself fits its own version and needs no downgrade. */
  lemma BuiltFits(host: string, uiDomain: string, acmeStaging: bool, services: seq<Service>, zone: Option<string>, p: Payload)
    requires FromHost(host, uiDomain, acmeStaging, services, zone) == Some(p)
    ensures ValidVersion(p) && FitsVersion(p) && p.version != 2
    ensures Decode(p).services == p.services
    ensures Downgrade(services, p.version) == services
  {
    hide BuildSites, Lawful, ValidPlace, AnySharing, AnyCache, AnyPublic, AnyLoopback;
    var place := PlaceOf(host, uiDomain, zone);
    BuiltIffLawful(place, services, p.services);
    LawfulShow(p.services, services, place);
    LawfulMeans(p.services, services, place);
    NothingToDowngrade(services, p.version);
  }

  /** Every payload a host can build, delivered with any users and any token, is read back unchanged by a
      guest with the same declarations, or refused for the users or the token alone. */
  lemma DeliveredIsRead(host: string, uiDomain: string, acmeStaging: bool, services: seq<Service>, zone: Option<string>,
                        p: Payload, users: seq<string>, token: Option<string>)
    requires FromHost(host, uiDomain, acmeStaging, services, zone) == Some(p)
    ensures var sent := p.(tailnetUsers := users, homeassistantToken := token);
      Parse(sent, host, services) == if ValidUsers(users) && TokenAllowed(token, services) then Some(sent) else None
  {
    BuiltFits(host, uiDomain, acmeStaging, services, zone, p);
    hide BuildSites, ValidPlace, ValidUsers, TokenAllowed, VersionOf, Downgrade;
    var sent := p.(tailnetUsers := users, homeassistantToken := token);
    assert Decode(sent).services == Decode(p).services;
    assert Decode(sent) == sent;
    assert ValidVersion(sent) && FitsVersion(sent);
  }

  // What a guest accepts -------------------------------------------------------------------------

  /** A declaration as a payload of an older version could carry it. */
  predicate PastOne(past: Service, s: Service, version: nat) {
    && past.name == s.name && past.upstream == s.upstream && past.transport == s.transport && past.port == s.port
    && past.aliases == s.aliases && past.anonymousTokenRefresh == s.anonymousTokenRefresh
    && past.sharing == (if version < 8 then None else s.sharing)
    && past.cache == (if version < 7 then None else s.cache)
    && past.publicNames == (if version < 6 then [] else s.publicNames)
    && past.tailnetIdentity == (s.tailnetIdentity || (version < 6 && s.publicNames != []))
  }

  ghost predicate Past(past: seq<Service>, services: seq<Service>, version: nat) {
    |past| == |services| && forall i :: 0 <= i < |services| ==> PastOne(past[i], services[i], version)
  }

  lemma DowngradeIsPast(services: seq<Service>, version: nat, past: seq<Service>)
    ensures Past(past, services, version) <==> past == Downgrade(services, version)
  {
    DowngradeAt(services, version);
    if Past(past, services, version) {
      forall i | 0 <= i < |services| ensures past[i] == Downgrade(services, version)[i] {
        assert PastOne(past[i], services[i], version);
      }
    }
  }

  predicate GraphicText(s: string) {
    forall i :: 0 <= i < |s| ==> '!' <= s[i] <= '~'
  }

  /** What a guest demands of a payload, besides the sites. */
  predicate Demands(p: Payload, host: string, services: seq<Service>) {
    && 2 <= p.version <= 8 && (p.zoneDomain.Some? <==> 5 <= p.version)
    && p.host == host && p.machineHostname == host + "." + p.uiDomain && services != []
    && ValidLabel(host) && ValidDomain(p.uiDomain) && ValidDomain(host + "." + p.uiDomain)
    && (p.zoneDomain.Some? ==> InZone(p.uiDomain, p.zoneDomain.value))
    && (forall i :: 0 <= i < |p.tailnetUsers| ==>
         0 < |p.tailnetUsers[i]| <= 254 && GraphicText(p.tailnetUsers[i]) && ',' !in p.tailnetUsers[i])
    && (forall i, j :: 0 <= i < j < |p.tailnetUsers| ==> p.tailnetUsers[i] != p.tailnetUsers[j])
    && (p.homeassistantToken.Some? ==>
         && (exists i :: 0 <= i < |services| && services[i].name == "homeassistant")
         && 32 <= |p.homeassistantToken.value| <= 16384 && GraphicText(p.homeassistantToken.value))
  }

  /** No site is told that its version cannot tell. */
  predicate SiteFits(s: Site, version: nat) {
    && !s.setupPending
    && (version < 8 ==> s.publicRoutes.None?)
    && (version < 7 ==> s.cache.None?)
    && (version < 6 ==> s.access == Tailnet)
    && (version < 4 ==> s.transport == Bridge)
    && (version < 3 ==> !s.tailnetIdentity)
  }

  ghost predicate Acceptable(p: Payload, host: string, services: seq<Service>) {
    && Demands(p, host, services)
    && (forall i :: 0 <= i < |p.services| ==> SiteFits(p.services[i], p.version))
    && (exists past: seq<Service> :: Past(past, services, p.version)
         && Lawful(p.services, past, Place(host, p.uiDomain, p.zoneDomain, host + "." + p.uiDomain)))
  }

  lemma UsersAreGraphic(users: seq<string>)
    ensures ValidUsers(users) <==>
      && (forall i :: 0 <= i < |users| ==> 0 < |users[i]| <= 254 && GraphicText(users[i]) && ',' !in users[i])
      && (forall i, j :: 0 <= i < j < |users| ==> users[i] != users[j])
  {
    forall i | 0 <= i < |users|
      ensures ValidIdentity(users[i]) <==> 0 < |users[i]| <= 254 && GraphicText(users[i]) && ',' !in users[i]
    {
    }
  }

  lemma TokenIsGraphic(token: Option<string>, services: seq<Service>)
    ensures TokenAllowed(token, services) <==> (token.Some? ==>
      && (exists i :: 0 <= i < |services| && services[i].name == "homeassistant")
      && 32 <= |token.value| <= 16384 && GraphicText(token.value))
  {
    if token.Some? { assert ValidToken(token.value) <==> 32 <= |token.value| <= 16384 && GraphicText(token.value); }
  }

  lemma VersionsFit(p: Payload)
    requires forall i :: 0 <= i < |p.services| ==> !p.services[i].setupPending
    ensures ValidVersion(p) && FitsVersion(p) <==>
      && 2 <= p.version <= 8 && (p.zoneDomain.Some? <==> 5 <= p.version)
      && (forall i :: 0 <= i < |p.services| ==> SiteFits(p.services[i], p.version))
  {
  }

  /** What the host would have sent before users and token were added. */
  function Unsent(p: Payload, version: nat): Payload {
    p.(version := version, tailnetUsers := [], homeassistantToken := None)
  }

  lemma ParsedFrom(contents: Payload, host: string, services: seq<Service>, p: Payload)
    ensures var past := Downgrade(services, p.version);
      Parse(contents, host, services) == Some(p) <==>
        && p == Decode(contents) && ValidVersion(p) && FitsVersion(p) && ValidUsers(p.tailnetUsers)
        && TokenAllowed(p.homeassistantToken, services)
        && FromHost(host, p.uiDomain, p.acmeStaging, past, p.zoneDomain) == Some(Unsent(p, VersionOf(past, p.zoneDomain)))
  {
    hide ValidVersion, FitsVersion, ValidUsers, TokenAllowed, VersionOf, Downgrade, BuildSites, ValidPlace;
    assert Decode(Decode(contents)) == Decode(contents);
  }

  /** A payload is accepted exactly when it meets the demands, its sites fit its version and are the lawful
      ones of the declarations as that version could carry them; then it is taken as it was sent. */
  lemma ParsedIff(contents: Payload, host: string, services: seq<Service>, p: Payload)
    ensures Parse(contents, host, services) == Some(p) <==> p == Decode(contents) && Acceptable(p, host, services)
  {
    hide Lawful, ValidDomain, ValidLabel, EndsWith, FromHost, VersionOf, Downgrade, ValidUsers, Parse, ValidVersion, FitsVersion, SiteFits, PastOne;
    var past := Downgrade(services, p.version);
    ParsedFrom(contents, host, services, p);
    UsersAreGraphic(p.tailnetUsers);
    HostBuildsIff(host, p.uiDomain, p.acmeStaging, past, p.zoneDomain, Unsent(p, VersionOf(past, p.zoneDomain)));
    DowngradeAt(services, p.version);
    forall other: seq<Service> ensures Past(other, services, p.version) <==> other == past {
      DowngradeIsPast(services, p.version, other);
    }
    if p == Decode(contents) {
      VersionsFit(p);
      TokenIsGraphic(p.homeassistantToken, services);
      var place := Place(host, p.uiDomain, p.zoneDomain, host + "." + p.uiDomain);
      assert (exists other: seq<Service> :: Past(other, services, p.version) && Lawful(p.services, other, place)) <==> Lawful(p.services, past, place);
      assert past == [] <==> services == [];
    }
  }

  /** Whatever a guest accepts is what it was sent, and is what its own declarations, downgraded to the
      payload's version, build for that place. */
  lemma AcceptedIsRebuilt(contents: Payload, host: string, services: seq<Service>, p: Payload)
    requires Parse(contents, host, services) == Some(p)
    ensures p == Decode(contents) && p.host == host && 2 <= p.version <= 8
    ensures var declarations := Downgrade(services, p.version);
      && FromHost(host, p.uiDomain, p.acmeStaging, declarations, p.zoneDomain)
           == Some(p.(version := VersionOf(declarations, p.zoneDomain), tailnetUsers := [], homeassistantToken := None))
      && Lawful(p.services, declarations, PlaceOf(host, p.uiDomain, p.zoneDomain))
    ensures ValidUsers(p.tailnetUsers) && TokenAllowed(p.homeassistantToken, services)
  {
    hide BuildSites, Lawful, ValidPlace, ValidUsers, TokenAllowed, VersionOf, Downgrade;
    BuiltIffLawful(PlaceOf(host, p.uiDomain, p.zoneDomain), Downgrade(services, p.version), p.services);
  }

  /** A payload from before public ingress never exposes anything: every site it brings is private, and
      every service that is public by now is behind the identity gate. */
  lemma OldPayloadsStayPrivate(contents: Payload, host: string, services: seq<Service>, p: Payload)
    requires Parse(contents, host, services) == Some(p) && p.version < 6
    ensures |p.services| == |services|
    ensures forall i :: 0 <= i < |services| ==>
      && p.services[i].name == services[i].name && p.services[i].access == Tailnet && p.services[i].cache.None?
      && p.services[i].publicRoutes.None?
      && p.services[i].tailnetIdentity == (services[i].tailnetIdentity || services[i].publicNames != [])
  {
    hide Parse, Decode, Demands, Lawful, CalledAs, Allowed;
    ParsedIff(contents, host, services, p);
    var place := Place(host, p.uiDomain, p.zoneDomain, host + "." + p.uiDomain);
    var past: seq<Service> :| Past(past, services, p.version) && Lawful(p.services, past, place);
    LawfulShow(p.services, past, place);
    forall i | 0 <= i < |services|
      ensures p.services[i].name == services[i].name
      ensures p.services[i].tailnetIdentity == (services[i].tailnetIdentity || services[i].publicNames != [])
    {
      assert SiteFor(p.services[i], past[i], place) && PastOne(past[i], services[i], p.version);
    }
    assert !AnySharing(past) by {
      forall i | 0 <= i < |past| ensures past[i].sharing.None? { assert PastOne(past[i], services[i], p.version); }
    }
  }

  method ParsePayload(contents: Payload, host: string, services: seq<Service>) returns (r: Option<Payload>)
    ensures r == Parse(contents, host, services)
    ensures r.Some? <==> Acceptable(Decode(contents), host, services)
    ensures r.Some? ==> r.value == Decode(contents)
  {
    hide BuildSites, ValidPlace, Acceptable;
    forall p: Payload ensures Parse(contents, host, services) == Some(p) <==> p == Decode(contents) && Acceptable(p, host, services) {
      ParsedIff(contents, host, services, p);
    }
    var sites := Decode(contents);
    if !ValidVersion(sites) { return None; }
    var declarations := Downgraded(services, sites.version);
    var built := FromHost(host, sites.uiDomain, sites.acmeStaging, declarations, sites.zoneDomain);
    if built.None? { return None; }
    if !FitsVersion(sites) { return None; }
    if !ValidUsers(sites.tailnetUsers) { return None; }
    var expected := built.value;
    expected := expected.(version := sites.version);
    expected := expected.(tailnetUsers := sites.tailnetUsers);
    expected := expected.(homeassistantToken := sites.homeassistantToken);
    if sites != expected { return None; }
    if !TokenAllowed(sites.homeassistantToken, services) { return None; }
    return Some(expected);
  }
}
