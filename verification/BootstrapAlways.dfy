/** What an attempt does to any host at all, whether or not earlier attempts made it. */
module BootstrapAlways {
  import opened Runs
  import opened Bootstrap
  import opened BootstrapRuns

  /** The application's own configuration is there. */
  predicate Configured(w: State) {
    w.config.Dir? && w.config.native.Some?
  }

  /** And names the owner of these settings. */
  predicate ConfiguredFor(w: State, s: Settings) {
    w.config.Dir? && w.config.native == Some(Native(s.url, s.admin))
  }

  predicate WithDatabase(w: State) {
    w.config.Dir? && w.config.database
  }

  // Refusals ------------------------------------------------------------------------------------

  /** A marker whose database is gone ends every attempt, for any settings, before any effect: the
      application would start over an empty database. */
  lemma MarkerNeedsDatabase(w: State, s: Settings, chance: Chance)
    requires w.Live() && w.marker.Some? && !WithDatabase(w)
    ensures Initialize(w, s, chance) == w.(halt := Binding)
  {
  }

  /** So does any other sign that the state is not of these settings: a marker or a database without the
      application's configuration, a configuration of another owner, an open binding for other settings, or
      an application that is being served under another marker. */
  predicate NotOfThese(w: State, s: Settings) {
    || (w.marker.Some? && !WithDatabase(w))
    || ((w.marker.Some? || WithDatabase(w)) && !Configured(w))
    || (Configured(w) && !ConfiguredFor(w, s))
    || (w.pending.Some? && w.pending != Some(s))
    || (w.serving && w.marker != Some(s))
  }

  lemma NotOfTheseIsRefused(w: State, s: Settings, chance: Chance)
    requires w.Live() && NotOfThese(w, s)
    ensures Initialize(w, s, chance) == w.(halt := Binding)
  {
  }

  // Completion ----------------------------------------------------------------------------------

  predicate Vacant(l: Leaf) {
    l.Missing? || (l.native.None? && !l.database && !l.other)
  }

  /** The leaf on the stage can be published, or what it was is at the root already. */
  predicate Movable(staged: Leaf, at: Leaf) {
    if staged.Dir? then Vacant(at) else at.Dir?
  }

  /** What the two leaves and the stage must look like for the attempt to get through. */
  predicate Room(w: State) {
    if Configured(w) then
      w.pending.Some? ==> (w.staged.Stage? ==> w.staged.config.Missing?) && Movable(DataAt(w.staged), w.data)
    else if w.pending.Some? then Vacant(w.config) && Vacant(w.data)
    else w.config.Dir? && Vacant(w.config) && w.data.Dir? && Vacant(w.data) && w.staged.NoStage?
  }

  /** The application belongs to these settings, is set up, marked and unbound. */
  predicate SetUpFor(r: State, s: Settings) {
    ConfiguredFor(r, s) && r.marker == Some(s) && r.pending.None?
  }

  ghost predicate Served(l: Leaf, s: Settings) {
    l.Dir? && forall i :: 0 <= i < |s.users| && s.users[i] != s.admin ==> l.accounts.Has(s.users[i])
  }

  /** Everything an attempt that was let through leaves when it has effects to spare. */
  ghost predicate Through(w: State, s: Settings, r: State) {
    && r.Live() && SetUpFor(r, s)
    && (w.pending.None? || w.marker.Some? || !Configured(w) ==> WithDatabase(r))
    && (w.pending.Some? || !Configured(w) ==> r.data.Dir? && r.staged.NoStage?)
    && ((w.marker != Some(s) && w.pending.None?) || !Configured(w) ==> Served(r.config, s))
    && (!Configured(w) ==> r.config.accounts.Has(s.admin) && r.config.origin.Built? && r.data.origin == r.config.origin)
  }

  /** The leaf that is at the root once the one on the stage was published. */
  function Published(staged: Leaf, at: Leaf): Leaf {
    if staged.Dir? then staged else at
  }

  function DataAt(staged: Staged): Leaf {
    if staged.Stage? then staged.data else Missing
  }

  lemma ConfigMoves(w: State)
    requires w.Live()
    ensures var r := PublishConfig(w);
      && r == w.(config := r.config, staged := r.staged, fuel := r.fuel, halt := r.halt)
      && (r.Live() ==> Movable(ConfigAt(w, AtStage), w.config) && r.config == Published(ConfigAt(w, AtStage), w.config))
      && (r.Live() ==> r.config.Dir? && r.staged == if w.staged.Stage? then w.staged.(config := Missing) else NoStage)
      && (w.fuel >= 2 && Movable(ConfigAt(w, AtStage), w.config) ==> r.Live() && r.fuel + 2 >= w.fuel)
  {
  }

  lemma DataMoves(w: State)
    requires w.Live()
    ensures var r := PublishData(w);
      && r == w.(data := r.data, staged := r.staged, fuel := r.fuel, halt := r.halt)
      && (r.Live() ==> Movable(DataAt(w.staged), w.data) && r.data == Published(DataAt(w.staged), w.data))
      && (r.Live() ==> r.data.Dir? && r.staged == if w.staged.Stage? then w.staged.(data := Missing) else NoStage)
      && (w.fuel >= 2 && Movable(DataAt(w.staged), w.data) ==> r.Live() && r.fuel + 2 >= w.fuel)
  {
  }

  predicate Publishes(w: State, s: Settings) {
    && Movable(ConfigAt(w, AtStage), w.config) && Movable(DataAt(w.staged), w.data)
    && ConfiguredFor(w.(config := Published(ConfigAt(w, AtStage), w.config)), s)
  }

  /** Publication from any stage. */
  lemma PublishEnds(w: State, s: Settings)
    requires w.Live()
    ensures var r := PublishInitial(w, s);
      && (r.Live() ==> Publishes(w, s) && SetUpFor(r, s) && r.data.Dir? && r.staged.NoStage?)
      && (r.Live() ==> r.config == Published(ConfigAt(w, AtStage), w.config) && r.data == Published(DataAt(w.staged), w.data))
      && (w.fuel >= 7 && Publishes(w, s) ==> r.Live())
  {
    hide PublishConfig, PublishData;
    ConfigMoves(w);
    var w1 := PublishConfig(w);
    if w1.Live() { DataMoves(w1); }
  }

  lemma WipeAny(w: State, chance: Chance)
    ensures var r := WipeStage(w, chance);
      && r == w.(staged := r.staged, fuel := r.fuel, halt := r.halt)
      && (!w.Live() ==> r == w)
      && (r.Live() ==> r.staged.NoStage?)
      && (w.Live() && w.fuel >= 2 ==> r.Live() && r.fuel + 2 >= w.fuel)
  {
  }

  /** A build from any state whose binding is these settings' own. */
  lemma RebuildEnds(w: State, s: Settings, chance: Chance)
    requires w.Live() && w.pending == Some(s) && !Configured(w)
    ensures var r := BootstrapNew(w, s, chance);
      && (r.Live() ==> Through(w, s, r))
      && (w.fuel >= |s.users| + 14 ==> (r.Live() <==> Vacant(w.config) && Vacant(w.data)))
  {
    hide PublishInitial, BuildStage, WipeStage;
    WipeAny(w, chance);
    var w2 := WipeStage(w, chance);
    if w2.Live() {
      BuildHasShape(w2, s, chance);
      var w3 := BuildStage(w2, s, chance);
      if w3.Live() { PublishEnds(w3, s); }
    } else {
      assert !BuildStage(w2, s, chance).Live() by { BuildHalts(w2, s, chance); }
    }
  }

  lemma BuildHalts(w: State, s: Settings, chance: Chance)
    requires !w.Live()
    ensures BuildStage(w, s, chance) == w
  {
    UsersHaveShape(w, AtStage, s.users, s.admin);
  }

  lemma BootstrapEnds(w: State, s: Settings, chance: Chance)
    requires w.Live() && w.pending in {None, Some(s)} && !Configured(w)
    ensures var r := BootstrapNew(w, s, chance);
      && (r.Live() ==> Through(w, s, r))
      && (w.fuel >= |s.users| + 15 ==> (r.Live() <==> Room(w)))
  {
    var w1 := OpenBinding(w, s);
    if w1.Live() {
      RebuildEnds(w1, s, chance);
      assert BootstrapNew(w, s, chance) == BootstrapNew(w1, s, chance);
    }
  }

  lemma AdoptionEnds(w: State, s: Settings, chance: Chance)
    requires w.Live() && ConfiguredFor(w, s) && w.pending.None?
    ensures var r := SetMarker(CreateUsers(StartContainer(w, AtRoot, chance), AtRoot, s.users, s.admin), s);
      && (r.Live() ==> SetUpFor(r, s) && WithDatabase(r) && Served(r.config, s))
      && (w.fuel >= |s.users| + 2 ==> r.Live())
  {
    UsersHaveShape(StartContainer(w, AtRoot, chance), AtRoot, s.users, s.admin);
  }

  /** From any host at all, an attempt with effects to spare finishes exactly when nothing says that the state
      is not of these settings and there is room for what it publishes; and whenever an attempt finishes,
      however few effects it had, the application belongs to these settings, is marked for them and unbound,
      with its database, its data and its accounts. */
  lemma CompletesIff(w: State, s: Settings, chance: Chance)
    requires w.Live()
    ensures var r := Initialize(w, s, chance);
      && (r.Live() ==> Through(w, s, r))
      && (w.fuel >= |s.users| + 15 ==> (r.Live() <==> !NotOfThese(w, s) && Room(w)))
  {
    hide PublishInitial, BootstrapNew, CreateUsers, StartContainer;
    if NotOfThese(w, s) {
      NotOfTheseIsRefused(w, s, chance);
    } else if !Configured(w) {
      BootstrapEnds(w, s, chance);
    } else if w.pending.Some? {
      PublishEnds(w, s);
    } else if w.marker != Some(s) {
      AdoptionEnds(w, s, chance);
    }
  }

  /** In particular: without an open binding a finished attempt leaves the application's own configuration of
      these settings, its database, and their marker. */
  lemma FinishedWithoutBinding(w: State, s: Settings, chance: Chance)
    requires w.Live() && w.pending.None? && Initialize(w, s, chance).Live()
    ensures var r := Initialize(w, s, chance);
      r.config.Dir? && r.config.native == Some(Native(s.url, s.admin)) && r.config.database && r.marker == Some(s)
  {
    CompletesIff(w, s, chance);
  }

  ghost function Without(users: seq<string>, admin: string): set<string> {
    set u | u in users && u != admin
  }

  /** Exactly the listed users apart from the administrator are added. */
  lemma {:induction false} AccountsAdded(w: State, site: Site, users: seq<string>, admin: string)
    requires CreateUsers(w, site, users, admin).Live() && ConfigAt(w, site).Dir?
    ensures var r := CreateUsers(w, site, users, admin);
      ConfigAt(r, site) == ConfigAt(w, site).(accounts := Names(ConfigAt(w, site).accounts.members + Without(users, admin)))
    decreases |users|
  {
    if users == [] {
      assert ConfigAt(w, site).accounts.members + Without(users, admin) == ConfigAt(w, site).accounts.members;
    } else {
      var w1 := if users[0] == admin then w else CreateUser(w, site, users[0]);
      UsersHaveShape(w1, site, users[1..], admin);
      AccountsAdded(w1, site, users[1..], admin);
      assert Without(users, admin) == (if users[0] == admin then {} else {users[0]}) + Without(users[1..], admin) by {
        assert users == [users[0]] + users[1..];
      }
      assert ConfigAt(w, site).accounts.members + Without(users, admin)
        == ConfigAt(w1, site).accounts.members + Without(users[1..], admin);
    }
  }

  /** An adopted installation gets these accounts and no others. */
  lemma AdoptedAccounts(w: State, s: Settings, chance: Chance)
    requires w.Live() && ConfiguredFor(w, s) && w.pending.None? && w.marker != Some(s) && Initialize(w, s, chance).Live()
    ensures Initialize(w, s, chance).config ==
      w.config.(database := true, accounts := Names(w.config.accounts.members + Without(s.users, s.admin)))
  {
    hide CreateUsers;
    CompletesIff(w, s, chance);
    AccountsAdded(StartContainer(w, AtRoot, chance), AtRoot, s.users, s.admin);
  }

  // Nothing filled is removed -------------------------------------------------------------------

  /** Whatever is in the two directories stays, apart from the accounts and the database that the application
      itself adds; without a binding a stage stays as well. */
  ghost predicate FilledKept(w: State, r: State) {
    && (!Vacant(w.config) ==> Kept(w.config, r.config))
    && (!Vacant(w.data) ==> r.data == w.data)
    && (w.pending.None? && w.staged.Stage? ==> r.staged == w.staged)
  }

  lemma ConfigStays(w: State)
    requires w.Live()
    ensures PublishConfig(w).data == w.data && (!Vacant(w.config) ==> PublishConfig(w).config == w.config)
  {
  }

  lemma DataStays(w: State)
    requires w.Live()
    ensures PublishData(w).config == w.config && (!Vacant(w.data) ==> PublishData(w).data == w.data)
  {
  }

  lemma PublishKeepsFilled(w: State, s: Settings)
    requires w.Live()
    ensures var r := PublishInitial(w, s);
      (!Vacant(w.config) ==> r.config == w.config) && (!Vacant(w.data) ==> r.data == w.data)
  {
    hide PublishConfig, PublishData;
    ConfigStays(w);
    var w1 := PublishConfig(w);
    if w1.Live() { DataStays(w1); }
  }

  lemma FilledStays(w: State, s: Settings, chance: Chance)
    requires w.Live()
    ensures FilledKept(w, Initialize(w, s, chance))
  {
    hide PublishInitial, BootstrapNew, CreateUsers;
    if NotOfThese(w, s) {
      NotOfTheseIsRefused(w, s, chance);
    } else if !Configured(w) {
      BootstrapKeepsFilled(w, s, chance);
    } else if w.pending.Some? {
      PublishKeepsFilled(w, s);
    } else if w.marker != Some(s) {
      UsersHaveShape(StartContainer(w, AtRoot, chance), AtRoot, s.users, s.admin);
    }
  }

  lemma BootstrapKeepsFilled(w: State, s: Settings, chance: Chance)
    requires w.Live() && w.pending in {None, Some(s)} && !Configured(w)
    ensures FilledKept(w, BootstrapNew(w, s, chance))
  {
    hide PublishInitial, BuildStage, WipeStage;
    var w1 := OpenBinding(w, s);
    if w1.Live() {
      WipeAny(w1, chance);
      var w2 := WipeStage(w1, chance);
      if w2.Live() {
        BuildHasShape(w2, s, chance);
        var w3 := BuildStage(w2, s, chance);
        if w3.Live() { PublishKeepsFilled(w3, s); }
      } else {
        BuildHalts(w2, s, chance);
      }
    }
  }
}
