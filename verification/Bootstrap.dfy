/** First initialization of the file-sharing application: a journalled build of two directories beside
    the state root, published one rename at a time. */
module Bootstrap {
  import opened Runs

  datatype Settings = Settings(url: string, admin: string, users: seq<string>)

  /** What the application's own configuration says about its owner. */
  datatype Native = Native(url: string, admin: string)

  datatype Names = Names(members: set<string>) {
    predicate Has(n: string) { n in members }
    function Add(n: string): Names { Names(members + {n}) }
  }

  /** Directories the host was given, and directories built by one numbered bootstrap. */
  datatype Origin = Given(id: nat) | Built(generation: nat)

  datatype Leaf =
    | Missing
    | Dir(origin: Origin, native: Option<Native>, database: bool, accounts: Names, other: bool)

  predicate Empty(l: Leaf) {
    l.Dir? && l.native.None? && !l.database && !l.other
  }

  predicate Blank(l: Leaf) {
    l.Missing? || Empty(l)
  }

  function NewDir(origin: Origin): Leaf {
    Dir(origin, None, false, Names({}), false)
  }

  datatype Staged = NoStage | Stage(config: Leaf, data: Leaf)

  datatype Halt = Running | Died | Binding | Io

  datatype State = State(
    config: Leaf,
    data: Leaf,
    staged: Staged,
    marker: Option<Settings>,
    pending: Option<Settings>,
    serving: bool,
    generation: nat,
    fuel: nat,
    halt: Halt)
  {
    predicate Live() { halt == Running }

    predicate HasNative() { config.Dir? && config.native.Some? }

    predicate HasDatabase() { config.Dir? && config.database }
  }

  /** What the isolated application does with its data directory, and the order in which a tree is removed. */
  datatype Chance = Chance(writesData: bool, configFirst: bool)

  function Spend(w: State): State {
    if w.halt != Running then w
    else if w.fuel == 0 then w.(halt := Died)
    else w.(fuel := w.fuel - 1)
  }

  function Refuse(w: State, why: Halt): State {
    if w.Live() then w.(halt := why) else w
  }

  // Single effects ------------------------------------------------------------------------------

  function SetPending(w: State, s: Option<Settings>): State {
    var w1 := Spend(w);
    if w1.Live() then w1.(pending := s) else w1
  }

  function SetMarker(w: State, s: Settings): State {
    var w1 := Spend(w);
    if w1.Live() then w1.(marker := Some(s)) else w1
  }

  function SetStaged(w: State, staged: Staged): State {
    var w1 := Spend(w);
    if w1.Live() then w1.(staged := staged) else w1
  }

  /** A stage can be made only where there is none. */
  function NewGeneration(w: State): State {
    if w.staged.Stage? then Refuse(w, Io) else
    var w1 := Spend(w);
    if w1.Live() then w1.(staged := Stage(Missing, Missing), generation := w1.generation + 1) else w1
  }

  // Accounts ------------------------------------------------------------------------------------

  datatype Site = AtRoot | AtStage

  function ConfigAt(w: State, site: Site): Leaf {
    match site
    case AtRoot => w.config
    case AtStage => if w.staged.Stage? then w.staged.config else Missing
  }

  function WithConfig(w: State, site: Site, l: Leaf): State {
    match site
    case AtRoot => w.(config := l)
    case AtStage => if w.staged.Stage? then w.(staged := w.staged.(config := l)) else w
  }

  /** Creating a user that exists is not an error and changes nothing. */
  function CreateUser(w: State, site: Site, user: string): State {
    var w1 := Spend(w);
    var l := ConfigAt(w1, site);
    if w1.Live() && l.Dir? then WithConfig(w1, site, l.(accounts := l.accounts.Add(user))) else w1
  }

  function CreateUsers(w: State, site: Site, users: seq<string>, admin: string): State
    decreases |users|
  {
    if users == [] then w else
    CreateUsers(if users[0] == admin then w else CreateUser(w, site, users[0]), site, users[1..], admin)
  }

  /** The application starts in the directories of a site and opens its database. */
  function StartContainer(w: State, site: Site, chance: Chance): State {
    var w1 := Spend(w);
    if !w1.Live() then w1 else
    match site
    case AtRoot => if w1.config.Dir? then w1.(config := w1.config.(database := true)) else w1
    case AtStage =>
      if w1.staged.Stage? && w1.staged.config.Dir? && w1.staged.data.Dir? then
        w1.(staged := Stage(w1.staged.config.(database := true),
                            w1.staged.data.(other := w1.staged.data.other || chance.writesData)))
      else w1
  }

  /** The application's own setup writes its configuration and its administrator. */
  function RunSetup(w: State, s: Settings): State {
    var w1 := Spend(w);
    var l := ConfigAt(w1, AtStage);
    if w1.Live() && l.Dir? then
      WithConfig(w1, AtStage, l.(native := Some(Native(s.url, s.admin)), accounts := l.accounts.Add(s.admin)))
    else w1
  }

  // Publication ---------------------------------------------------------------------------------

  predicate NativeMatches(l: Leaf, s: Settings) {
    l.Dir? && l.native == Some(Native(s.url, s.admin))
  }

  /** One leaf moves from the stage to the root; an empty target directory gives way. */
  function PublishConfig(w: State): State {
    if w.staged.Stage? && w.staged.config.Dir? then
      if w.config.Dir? && !Empty(w.config) then Refuse(w, Binding) else
      var w1 := if w.config.Dir? then (var v := Spend(w); if v.Live() then v.(config := Missing) else v) else w;
      var w2 := Spend(w1);
      if w2.Live() then w2.(config := w2.staged.config, staged := w2.staged.(config := Missing)) else w2
    else if w.config.Missing? then Refuse(w, Binding)
    else w
  }

  function PublishData(w: State): State {
    if w.staged.Stage? && w.staged.data.Dir? then
      if w.data.Dir? && !Empty(w.data) then Refuse(w, Binding) else
      var w1 := if w.data.Dir? then (var v := Spend(w); if v.Live() then v.(data := Missing) else v) else w;
      var w2 := Spend(w1);
      if w2.Live() then w2.(data := w2.staged.data, staged := w2.staged.(data := Missing)) else w2
    else if w.data.Missing? then Refuse(w, Binding)
    else w
  }

  /** The stage goes once it is empty. */
  function RemoveStage(w: State): State {
    if !w.Live() || w.staged.NoStage? then w
    else if w.staged == Stage(Missing, Missing) then SetStaged(w, NoStage)
    else Refuse(w, Io)
  }

  /** The marker first, then the binding goes, then the empty stage. */
  function CloseBinding(w: State, s: Settings): State {
    if !w.HasNative() then Refuse(w, Io)
    else if !NativeMatches(w.config, s) then Refuse(w, Binding)
    else RemoveStage(SetPending(SetMarker(w, s), None))
  }

  function PublishInitial(w: State, s: Settings): State {
    var w1 := PublishConfig(w);
    if !w1.Live() then w1 else
    var w2 := PublishData(w1);
    if !w2.Live() then w2 else
    CloseBinding(w2, s)
  }

  // Bootstrap -----------------------------------------------------------------------------------

  /** A tree removal can be cut between its two leaves. */
  function WipeStage(w: State, chance: Chance): State {
    if !w.Live() || w.staged.NoStage? then w else
    var left := if chance.configFirst then Stage(Missing, w.staged.data) else Stage(w.staged.config, Missing);
    SetStaged(SetStaged(w, left), NoStage)
  }

  /** A new stage with two empty directories. */
  function LayStage(w: State): State {
    var w1 := NewGeneration(w);
    var w2 := SetStaged(w1, Stage(NewDir(Built(w1.generation)), Missing));
    SetStaged(w2, Stage(NewDir(Built(w1.generation)), NewDir(Built(w1.generation))))
  }

  function BuildStage(w: State, s: Settings, chance: Chance): State {
    CreateUsers(RunSetup(StartContainer(LayStage(w), AtStage, chance), s), AtStage, s.users, s.admin)
  }

  /** The binding is opened only over empty leaves and an absent stage. */
  function OpenBinding(w: State, s: Settings): State {
    if w.pending.Some? then
      if w.pending == Some(s) then w else Refuse(w, Binding)
    else if w.config.Missing? then Refuse(w, Io)
    else if !Empty(w.config) then Refuse(w, Binding)
    else if w.data.Missing? then Refuse(w, Io)
    else if !Empty(w.data) || w.staged.Stage? then Refuse(w, Binding)
    else SetPending(w, Some(s))
  }

  function BootstrapNew(w: State, s: Settings, chance: Chance): State {
    var w1 := OpenBinding(w, s);
    if !w1.Live() then w1 else
    var w2 := BuildStage(WipeStage(w1, chance), s, chance);
    if !w2.Live() then w2 else
    if !NativeMatches(ConfigAt(w2, AtStage), s) then Refuse(w2, Binding) else
    PublishInitial(w2, s)
  }

  function Initialize(w: State, s: Settings, chance: Chance): State {
    if !w.HasNative() && (w.marker.Some? || w.HasDatabase()) then Refuse(w, Binding)
    else if w.HasNative() && !NativeMatches(w.config, s) then Refuse(w, Binding)
    else if w.marker.Some? && !w.HasDatabase() then Refuse(w, Binding)
    else if w.marker == Some(s) then
      if w.pending.None? then w
      else if w.pending != Some(s) then Refuse(w, Binding)
      else PublishInitial(w, s)
    else if w.serving then Refuse(w, Binding)
    else if !w.HasNative() then BootstrapNew(w, s, chance)
    else if w.pending.Some? then
      if w.pending == Some(s) then PublishInitial(w, s) else Refuse(w, Binding)
    else
      SetMarker(CreateUsers(StartContainer(w, AtRoot, chance), AtRoot, s.users, s.admin), s)
  }
}
