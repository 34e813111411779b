/** What every history of bootstrap attempts keeps: one generation, one binding, nobody else's files. */
module BootstrapRuns {
  import opened Runs
  import opened Bootstrap

  // Stages --------------------------------------------------------------------------------------

  /** Leaves equal except for accounts, of which there are at least as many. */
  ghost predicate MoreAccounts(a: Leaf, b: Leaf) {
    if a.Missing? then b == a else
    b == (if b.Dir? then a.(accounts := b.accounts) else a) && b.Dir? && a.accounts.members <= b.accounts.members
  }

  ghost predicate UsersShape(w: State, site: Site, users: seq<string>, admin: string, r: State) {
    && r == WithConfig(w, site, ConfigAt(r, site)).(fuel := r.fuel, halt := r.halt)
    && MoreAccounts(ConfigAt(w, site), ConfigAt(r, site))
    && (r.Live() || r.halt == (if w.Live() then Died else w.halt))
    && (!w.Live() ==> r == w)
    && (r.Live() && ConfigAt(w, site).Dir? ==>
          forall i :: 0 <= i < |users| && users[i] != admin ==> ConfigAt(r, site).accounts.Has(users[i]))
    && (w.Live() && w.fuel >= |users| ==> r.Live() && r.fuel + |users| >= w.fuel)
  }

  lemma {:induction false} UsersHaveShape(w: State, site: Site, users: seq<string>, admin: string)
    ensures UsersShape(w, site, users, admin, CreateUsers(w, site, users, admin))
    decreases |users|
  {
    if users != [] {
      var w1 := if users[0] == admin then w else CreateUser(w, site, users[0]);
      UsersHaveShape(w1, site, users[1..], admin);
      assert forall i :: 0 < i < |users| ==> users[i] == users[1..][i - 1];
    }
  }

  /** Only the stage and the process itself differ. */
  ghost predicate StageOnly(w: State, r: State) {
    r == w.(staged := r.staged, generation := r.generation, fuel := r.fuel, halt := r.halt)
  }

  predicate OwnLeaf(l: Leaf) {
    l.Missing? || l.origin.Built?
  }

  predicate OwnStage(staged: Staged) {
    staged.NoStage? || (OwnLeaf(staged.config) && OwnLeaf(staged.data))
  }

  /** A configuration that a finished bootstrap for these settings leaves. */
  ghost predicate Complete(l: Leaf, s: Settings) {
    && l.Dir? && l.origin.Built?
    && l.native == Some(Native(s.url, s.admin))
    && l.database
    && l.accounts.Has(s.admin)
    && forall i :: 0 <= i < |s.users| ==> l.accounts.Has(s.users[i])
  }

  /** Two directories of one build. */
  ghost predicate Paired(config: Leaf, data: Leaf) {
    config.Dir? && data.Dir? && data.origin == config.origin
  }

  ghost predicate BuildShape(w: State, s: Settings, r: State) {
    && StageOnly(w, r)
    && OwnStage(r.staged)
    && (w.Live() ==> r.Live() || r.halt == Died)
    && (!w.Live() ==> r == w)
    && (r.Live() ==> r.staged.Stage? && Complete(r.staged.config, s) && Paired(r.staged.config, r.staged.data))
    && (w.Live() && w.fuel >= |s.users| + 5 ==> r.Live() && r.fuel + |s.users| + 5 >= w.fuel)
  }

  lemma BuildHasShape(w: State, s: Settings, chance: Chance)
    requires OwnStage(w.staged) && (w.Live() ==> w.staged.NoStage?)
    ensures BuildShape(w, s, BuildStage(w, s, chance))
  {
    var w3 := LayStage(w);
    var w4 := RunSetup(StartContainer(w3, AtStage, chance), s);
    UsersHaveShape(w4, AtStage, s.users, s.admin);
    SetUpShape(w3, s, chance);
  }

  lemma SetUpShape(w: State, s: Settings, chance: Chance)
    ensures var r := RunSetup(StartContainer(w, AtStage, chance), s);
      && StageOnly(w, r)
      && (!w.Live() ==> r == w)
      && (w.Live() ==> r.Live() || r.halt == Died)
      && (w.Live() && w.fuel >= 2 ==> r.Live() && r.fuel == w.fuel - 2)
      && (OwnStage(w.staged) ==> OwnStage(r.staged))
      && (r.Live() && w.staged.Stage? && w.staged.config.Dir? && w.staged.data.Dir? ==>
            && r.staged.Stage? && r.staged.config.Dir? && r.staged.data.Dir?
            && r.staged.config.origin == w.staged.config.origin && r.staged.data.origin == w.staged.data.origin
            && r.staged.config.native == Some(Native(s.url, s.admin)) && r.staged.config.database
            && r.staged.config.accounts.Has(s.admin))
  {
  }

  lemma WipeShape(w: State, chance: Chance)
    requires OwnStage(w.staged)
    ensures var r := WipeStage(w, chance);
      && r == w.(staged := r.staged, fuel := r.fuel, halt := r.halt)
      && OwnStage(r.staged)
      && (!w.Live() ==> r == w)
      && (w.Live() ==> r.Live() || r.halt == Died)
      && (r.Live() ==> r.staged.NoStage?)
      && (w.Live() && w.fuel >= 2 ==> r.Live() && r.fuel + 2 >= w.fuel)
  {
  }

  // The invariant -------------------------------------------------------------------------------

  /** Nothing of this build is published yet; whatever the stage holds was built under the binding. */
  ghost predicate Early(w: State) {
    Blank(w.config) && Blank(w.data) && OwnStage(w.staged)
  }

  /** The configuration is published, its data directory still waits on the stage. */
  ghost predicate Half(w: State, s: Settings) {
    Complete(w.config, s) && Blank(w.data) && w.staged.Stage? && w.staged.config.Missing? && Paired(w.config, w.staged.data)
  }

  ghost predicate Whole(w: State, s: Settings) {
    Complete(w.config, s) && Paired(w.config, w.data) && (w.staged.NoStage? || w.staged == Stage(Missing, Missing))
  }

  /** What holds between attempts on a host whose application directories began empty. */
  ghost predicate OneBuild(w: State) {
    match (w.pending, w.marker)
    case (None, None) => Blank(w.config) && Blank(w.data) && w.staged.NoStage?
    case (Some(s), None) => Early(w) || Half(w, s) || Whole(w, s)
    case (Some(s), Some(m)) => s == m && Whole(w, s)
    case (None, Some(m)) => Whole(w, m)
  }

  /** Both halves may be published: the stage is complete, or what is missing from it is at the root. */
  ghost predicate Publishable(w: State, s: Settings) {
    || (Blank(w.config) && Blank(w.data) && w.staged.Stage? && Complete(w.staged.config, s) && Paired(w.staged.config, w.staged.data))
    || Half(w, s)
    || Whole(w, s)
  }

  lemma PublishConfigShape(w: State, s: Settings)
    requires w.Live() && Publishable(w, s)
    ensures var r := PublishConfig(w);
      && r == w.(config := r.config, staged := r.staged, fuel := r.fuel, halt := r.halt)
      && (r.Live() || r.halt == Died)
      && (if r.Live() then Half(r, s) || Whole(r, s) else Early(r) || r.config == w.config)
      && (!r.Live() ==> Early(r) || Half(r, s) || Whole(r, s))
      && (w.fuel >= 2 ==> r.Live() && r.fuel + 2 >= w.fuel)
  {
  }

  lemma PublishDataShape(w: State, s: Settings)
    requires w.Live() && (Half(w, s) || Whole(w, s))
    ensures var r := PublishData(w);
      && r == w.(data := r.data, staged := r.staged, fuel := r.fuel, halt := r.halt)
      && (r.Live() || r.halt == Died)
      && (if r.Live() then Whole(r, s) else Half(r, s) || Whole(r, s))
      && (w.fuel >= 2 ==> r.Live() && r.fuel + 2 >= w.fuel)
  {
  }

  lemma CloseSound(w: State, s: Settings)
    requires w.Live() && Whole(w, s) && w.pending == Some(s) && w.marker in {None, Some(s)}
    ensures var r := CloseBinding(w, s);
      && OneBuild(r)
      && (r.Live() || r.halt == Died)
      && r.generation == w.generation && r.serving == w.serving
      && (r.Live() ==> r.marker == Some(s) && r.pending == None && r.staged.NoStage? && Whole(r, s))
      && (w.fuel >= 3 ==> r.Live())
  {
  }

  lemma WholeIsPublished(w: State, s: Settings)
    ensures Whole(w, s) ==> PublishConfig(w) == w && PublishData(w) == w
  {
  }

  lemma CutIsOneBuild(w: State, s: Settings)
    requires w.pending == Some(s) && (w.marker == None || (w.marker == Some(s) && Whole(w, s)))
    requires Early(w) || Half(w, s) || Whole(w, s)
    ensures OneBuild(w)
  {
  }

  /** Publication, cut anywhere, leaves one build; finished, it leaves the marker and no binding. */
  lemma PublishSound(w: State, s: Settings)
    requires w.Live() && Publishable(w, s) && w.pending == Some(s)
    requires w.marker == None || (w.marker == Some(s) && Whole(w, s))
    ensures var r := PublishInitial(w, s);
      && OneBuild(r)
      && (r.Live() || r.halt == Died)
      && r.generation == w.generation && r.serving == w.serving
      && (r.Live() ==> r.marker == Some(s) && r.pending == None && r.staged.NoStage? && Whole(r, s))
      && (w.fuel >= 7 ==> r.Live())
  {
    hide PublishConfig, PublishData, CloseBinding, Half, Whole, Early;
    PublishConfigShape(w, s);
    WholeIsPublished(w, s);
    var w1 := PublishConfig(w);
    if w1.Live() {
      PublishDataShape(w1, s);
      var w2 := PublishData(w1);
      if w2.Live() { CloseSound(w2, s); } else { CutIsOneBuild(w2, s); }
    } else {
      CutIsOneBuild(w1, s);
    }
  }

  /** No attempt, for any settings and cut anywhere, leaves halves of two builds behind a marker. */
  lemma InitializeSound(w: State, s: Settings, chance: Chance)
    requires w.Live() && OneBuild(w)
    ensures OneBuild(Initialize(w, s, chance))
  {
    if w.pending.Some? || w.marker.None? {
      if !w.HasNative() {
        BootstrapSound(w, s, chance);
      } else if w.pending == Some(s) {
        PublishSound(w, s);
      }
    } else {
      RebindSound(w, s, chance);
    }
  }

  lemma BootstrapSound(w: State, s: Settings, chance: Chance)
    requires w.Live() && OneBuild(w) && w.marker == None && !w.HasNative()
    ensures var r := BootstrapNew(w, s, chance);
      && OneBuild(r)
      && (w.pending in {None, Some(s)} && w.config.Dir? && w.data.Dir? && w.fuel >= |s.users| + 20 ==> r.Live())
      && (w.pending == Some(s) && w.fuel >= |s.users| + 20 ==> r.Live())
      && (r.Live() ==> r.marker == Some(s) && r.pending == None && r.staged.NoStage? && Whole(r, s))
  {
    var w1 := OpenBinding(w, s);
    if w1.Live() {
      assert Early(w1) && w1.pending == Some(s);
      WipeShape(w1, chance);
      var w2 := WipeStage(w1, chance);
      BuildHasShape(w2, s, chance);
      var w3 := BuildStage(w2, s, chance);
      if w3.Live() {
        PublishSound(w3, s);
      }
    }
  }

  /** Accounts and a new marker on an installation that is already published. */
  lemma RebindSound(w: State, s: Settings, chance: Chance)
    requires w.Live() && OneBuild(w) && w.marker.Some? && w.pending == None
    ensures OneBuild(Initialize(w, s, chance))
  {
    if NativeMatches(w.config, s) {
      var w1 := StartContainer(w, AtRoot, chance);
      UsersHaveShape(w1, AtRoot, s.users, s.admin);
      var w2 := CreateUsers(w1, AtRoot, s.users, s.admin);
      AccountsKept(w.config, w2.config, w.marker.value);
    }
  }

  lemma AccountsKept(a: Leaf, b: Leaf, s: Settings)
    requires Complete(a, s) && b.Dir? && b == a.(accounts := b.accounts) && a.accounts.members <= b.accounts.members
    ensures Complete(b, s)
  {
    forall i | 0 <= i < |s.users| ensures b.accounts.Has(s.users[i]) { assert a.accounts.Has(s.users[i]); }
  }

  // Histories -----------------------------------------------------------------------------------

  /** Attempts for any settings cut anywhere; the application's apply step re-creating a missing leaf;
      the application being started or stopped. */
  datatype Event =
    | Attempt(settings: Settings, chance: Chance, fuel: nat)
    | Recreate(id: nat)
    | Serve(on: bool)

  function Fresh(w: State, fuel: nat): State {
    w.(fuel := fuel, halt := Running)
  }

  function After(w: State, e: Event): State {
    match e
    case Attempt(s, chance, n) => Initialize(Fresh(w, n), s, chance)
    case Recreate(id) =>
      w.(config := if w.config.Missing? then NewDir(Given(id)) else w.config,
         data := if w.data.Missing? then NewDir(Given(id)) else w.data)
    case Serve(on) => w.(serving := on)
  }

  function Replay(w: State, history: seq<Event>): State
    decreases |history|
  {
    if history == [] then w else Replay(After(w, history[0]), history[1..])
  }

  lemma OneBuildAfter(w: State, e: Event)
    requires OneBuild(w)
    ensures OneBuild(After(w, e))
  {
    match e {
      case Attempt(s, chance, n) => InitializeSound(Fresh(w, n), s, chance);
      case _ =>
    }
  }

  /** In every state reachable from empty directories, a marker stands only over a configuration and a
      data directory of one and the same build, complete for the marker's settings. */
  lemma {:induction false} GenerationsNeverMix(w: State, history: seq<Event>)
    requires OneBuild(w)
    ensures var r := Replay(w, history);
      && OneBuild(r)
      && (r.marker.Some? ==>
            && r.config.Dir? && r.data.Dir? && r.config.origin.Built? && r.data.origin == r.config.origin
            && Complete(r.config, r.marker.value))
    decreases |history|
  {
    if history != [] {
      OneBuildAfter(w, history[0]);
      GenerationsNeverMix(After(w, history[0]), history[1..]);
    }
  }

  /** What an attempt for these settings needs of the state it finds. */
  predicate Admits(w: State, s: Settings) {
    && w.pending in {None, Some(s)}
    && (w.HasNative() ==> NativeMatches(w.config, s))
    && (w.serving ==> w.marker == Some(s))
    && (w.pending.None? && w.marker.None? ==> w.config.Dir? && w.data.Dir?)
  }

  ghost predicate Finished(r: State, s: Settings) {
    r.Live() && r.marker == Some(s) && r.pending == None && Complete(r.config, s) && Paired(r.config, r.data)
  }

  /** Whatever was cut before, and whether or not a leaf is missing, an attempt with effects to spare
      finishes exactly when the state admits its settings. Finished, it leaves their marker over one
      complete build and no binding, and the attempt after it is a no-op; otherwise it has no effect. */
  lemma AttemptCompletes(w: State, history: seq<Event>, s: Settings, chance: Chance, n: nat, chance': Chance, n': nat)
    requires OneBuild(w) && n >= |s.users| + 20
    ensures var mid := Fresh(Replay(w, history), n);
      var r := Initialize(mid, s, chance);
      && (r.Live() <==> Admits(mid, s))
      && (r.Live() ==> Finished(r, s) && Initialize(Fresh(r, n'), s, chance') == Fresh(r, n'))
      && (!r.Live() ==> r == mid.(halt := r.halt))
  {
    GenerationsNeverMix(w, history);
    var mid := Fresh(Replay(w, history), n);
    if Admits(mid, s) {
      AdmittedFinishes(mid, s, chance);
    } else {
      NotAdmittedIsRefused(mid, s, chance);
    }
  }

  lemma AdmittedFinishes(w: State, s: Settings, chance: Chance)
    requires w.Live() && OneBuild(w) && Admits(w, s) && w.fuel >= |s.users| + 20
    ensures Finished(Initialize(w, s, chance), s)
  {
    if w.pending.Some? || w.marker.None? {
      if !w.HasNative() {
        BootstrapSound(w, s, chance);
      } else {
        PublishSound(w, s);
      }
    } else if w.marker != Some(s) {
      RebindFinishes(w, s, chance);
    }
  }

  /** Another list of users on an installation of the same owner. */
  lemma RebindFinishes(w: State, s: Settings, chance: Chance)
    requires w.Live() && w.pending.None? && w.marker.Some? && Whole(w, w.marker.value) && !w.serving
    requires NativeMatches(w.config, s) && w.marker != Some(s) && w.fuel >= |s.users| + 20
    ensures Finished(Initialize(w, s, chance), s)
  {
    var w1 := StartContainer(w, AtRoot, chance);
    UsersHaveShape(w1, AtRoot, s.users, s.admin);
    var w2 := CreateUsers(w1, AtRoot, s.users, s.admin);
    assert w2.config.accounts.Has(s.admin);
  }

  lemma NotAdmittedIsRefused(w: State, s: Settings, chance: Chance)
    requires w.Live() && OneBuild(w) && !Admits(w, s)
    ensures var r := Initialize(w, s, chance); !r.Live() && r == w.(halt := r.halt)
  {
  }

  /** An open binding for other settings refuses every attempt, from any state, before any effect. */
  lemma OtherSettingsRefused(w: State, s: Settings, chance: Chance)
    requires w.Live() && w.pending.Some? && w.pending != Some(s)
    ensures Initialize(w, s, chance) == w.(halt := Binding)
  {
  }

  // Files the bootstrap did not make ------------------------------------------------------------

  /** A binding is open only over leaves that are blank or built. */
  ghost predicate Owned(w: State) {
    w.pending.Some? ==>
      && (Blank(w.config) || w.config.origin.Built?)
      && (Blank(w.data) || w.data.origin.Built?)
      && OwnStage(w.staged)
  }

  /** Application files of another origin. */
  predicate Theirs(l: Leaf) {
    l.Dir? && l.origin.Given? && !Empty(l)
  }

  predicate TheirStage(staged: Staged) {
    staged.Stage? && !OwnStage(staged)
  }

  /** At most the application's own database work: accounts are added, nothing is removed or replaced. */
  ghost predicate Kept(a: Leaf, b: Leaf) {
    && a.Dir? && b.Dir? && a.origin == b.origin && a.native == b.native && a.other == b.other
    && (a.database ==> b.database) && a.accounts.members <= b.accounts.members
  }

  ghost predicate TheirsKept(w: State, r: State) {
    && (Theirs(w.config) ==> Kept(w.config, r.config))
    && (Theirs(w.data) ==> r.data == w.data)
    && (TheirStage(w.staged) ==> r.staged == w.staged)
  }

  lemma PublishConfigOwned(w: State)
    requires w.Live() && Owned(w) && w.pending.Some?
    ensures var r := PublishConfig(w);
      && r == w.(config := r.config, staged := r.staged, fuel := r.fuel, halt := r.halt)
      && Owned(r) && (Theirs(w.config) ==> r.config == w.config)
  {
  }

  lemma PublishDataOwned(w: State)
    requires w.Live() && Owned(w) && w.pending.Some?
    ensures var r := PublishData(w);
      && r == w.(data := r.data, staged := r.staged, fuel := r.fuel, halt := r.halt)
      && Owned(r) && (Theirs(w.data) ==> r.data == w.data)
  {
  }

  lemma PublishOwned(w: State, s: Settings)
    requires w.Live() && Owned(w) && w.pending.Some?
    ensures var r := PublishInitial(w, s);
      Owned(r) && r.pending in {w.pending, None} && TheirsKept(w, r)
  {
    hide PublishConfig, PublishData;
    PublishConfigOwned(w);
    var w1 := PublishConfig(w);
    if w1.Live() { PublishDataOwned(w1); }
  }

  lemma AttemptOwned(w: State, s: Settings, chance: Chance)
    requires w.Live() && Owned(w)
    ensures Owned(Initialize(w, s, chance)) && TheirsKept(w, Initialize(w, s, chance))
  {
    if w.pending.Some? {
      if w.pending != Some(s) {
        OtherSettingsRefused(w, s, chance);
      } else if w.HasNative() {
        PublishOwned(w, s);
      } else {
        BootstrapOwned(w, s, chance);
      }
    } else if !w.HasNative() {
      BootstrapOwned(w, s, chance);
    } else {
      var w1 := StartContainer(w, AtRoot, chance);
      UsersHaveShape(w1, AtRoot, s.users, s.admin);
    }
  }

  lemma BootstrapOwned(w: State, s: Settings, chance: Chance)
    requires w.Live() && Owned(w) && !w.HasNative() && w.pending in {None, Some(s)}
    ensures var r := BootstrapNew(w, s, chance);
      Owned(r) && TheirsKept(w, r)
  {
    var w1 := OpenBinding(w, s);
    if w1.Live() {
      WipeShape(w1, chance);
      var w2 := WipeStage(w1, chance);
      BuildHasShape(w2, s, chance);
      var w3 := BuildStage(w2, s, chance);
      if w3.Live() { PublishOwned(w3, s); }
    }
  }

  /** From any host without an open binding, over every history: files of another origin stay where
      they are, a stage of another origin is never wiped, and no binding ever covers either. What may
      happen to a native installation of another origin is stated by `AdoptedIff`. */
  lemma {:induction false} NothingForeignIsTouched(w: State, history: seq<Event>)
    requires Owned(w)
    ensures Owned(Replay(w, history)) && TheirsKept(w, Replay(w, history))
    decreases |history|
  {
    if history != [] {
      match history[0] {
        case Attempt(s, chance, n) => AttemptOwned(Fresh(w, n), s, chance);
        case _ =>
      }
      NothingForeignIsTouched(After(w, history[0]), history[1..]);
    }
  }

  ghost predicate HasAccounts(l: Leaf, s: Settings) {
    l.Dir? && forall i :: 0 <= i < |s.users| && s.users[i] != s.admin ==> l.accounts.Has(s.users[i])
  }

  /** A native installation of another origin is adopted, with accounts and a marker and without any
      binding, exactly when it belongs to the same owner and is not being served. */
  lemma AdoptedIff(w: State, s: Settings, chance: Chance, n: nat)
    requires w.pending.None? && w.marker.None? && Theirs(w.config)
    ensures var r := Initialize(Fresh(w, n), s, chance);
      && (r.marker.Some? ==> r.marker == Some(s) && NativeMatches(w.config, s) && !w.serving && HasAccounts(r.config, s))
      && (n >= |s.users| + 2 && NativeMatches(w.config, s) && !w.serving ==> r.marker == Some(s))
      && r.pending.None? && Kept(w.config, r.config) && r.data == w.data
  {
    var w1 := StartContainer(Fresh(w, n), AtRoot, chance);
    UsersHaveShape(w1, AtRoot, s.users, s.admin);
  }
}
