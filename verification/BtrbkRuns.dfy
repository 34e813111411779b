/** What every run of the snapshot service keeps, over crashes, retries, boots and outside edits. */
module BtrbkRuns {
  import opened Runs
  import opened Machine
  import opened Activation
  import opened Btrbk

  // One stage at a time -------------------------------------------------------------------------

  lemma {:induction false} PrepareDirsShape(w: Machine, sources: seq<Bytes>)
    ensures var r := PrepareDirs(w, sources);
      && r == w.(dirs := r.dirs, fuel := r.fuel, halt := r.halt)
      && (w.Live() ==> r.Live() || r.halt == Died)
      && (!w.Live() ==> r.dirs == w.dirs && r.fuel == w.fuel && r.halt == w.halt)
      && (w.Live() && w.fuel >= |sources| ==> r.Live() && r.fuel >= w.fuel - |sources|)
    decreases |sources|
  {
    if sources != [] { PrepareDirsShape(EnsureDir(w, Snapshots(sources[0])), sources[1..]); }
  }

  /** A run that goes on has a snapshot directory for every subvolume. */
  lemma {:induction false} PreparedDirs(w: Machine, sources: seq<Bytes>)
    ensures forall d :: w.dirs.Has(d) ==> PrepareDirs(w, sources).dirs.Has(d)
    ensures PrepareDirs(w, sources).Live() ==> forall source :: source in sources ==> PrepareDirs(w, sources).dirs.Has(Snapshots(source))
    decreases |sources|
  {
    if sources != [] {
      PrepareDirsShape(EnsureDir(w, Snapshots(sources[0])), sources[1..]);
      PreparedDirs(EnsureDir(w, Snapshots(sources[0])), sources[1..]);
    }
  }

  /** A definition and its archive are both as they were, or the definition has moved to the archive. */
  ghost predicate KindStep(f: Files, g: Files, p: Plan, k: Kind) {
    || (g.Get(Definition(k)) == f.Get(Definition(k)) && g.Get(Archive(k)) == f.Get(Archive(k)))
    || (f.Has(Definition(k)) && !g.Has(Definition(k)) && g.Get(Archive(k)) == Some(Legacy(p, k)))
  }

  ghost predicate SameElsewhere(f: Files, g: Files) {
    forall q: Path :: !q.Definition? && !q.Archive? ==> g.Get(q) == f.Get(q)
  }

  /** Files away from one kind's two paths stay. */
  ghost predicate OnlyKind(f: Files, g: Files, k: Kind) {
    forall q: Path :: q != Definition(k) && q != Archive(k) ==> g.Get(q) == f.Get(q)
  }

  ghost predicate RetireShape(w: Machine, p: Plan, k: Kind, r: Machine) {
    && r == w.(files := r.files, quarantine := r.quarantine, fuel := r.fuel, halt := r.halt)
    && OnlyKind(w.files, r.files, k)
    && KindStep(w.files, r.files, p, k)
    && (w.Live() ==> (r.Live() || r.halt == Died) && (r.Live() ==> !r.files.Has(Definition(k)) && r.fuel + 1 >= w.fuel))
    && (w.Live() && w.fuel >= 1 ==> r.Live())
    && (!w.Live() || !w.files.Has(Definition(k)) ==> r == w)
  }

  lemma RetireHasShape(w: Machine, p: Plan, k: Kind)
    requires Clean(w.files, p, k)
    ensures RetireShape(w, p, k, Retire(w, k, Legacy(p, k)))
  {
  }

  lemma RetireAllUnrolled(w: Machine, p: Plan)
    ensures RetireAll(w, p, KINDS) == Retire(Retire(Retire(w, Config, p.config), Service, p.service), Timer, p.timer)
  {
    assert KINDS[1..] == [Service, Timer] && KINDS[1..][1..] == [Timer];
    var w1 := Retire(w, Config, p.config);
    var w2 := Retire(w1, Service, p.service);
    assert RetireAll(w2, p, [Timer]) == RetireAll(Retire(w2, Timer, p.timer), p, []) by { assert [Timer][1..] == []; }
    assert RetireAll(w1, p, [Service, Timer]) == RetireAll(w2, p, [Timer]) by { assert [Service, Timer][1..] == [Timer]; }
  }

  ghost predicate RetireAllShape(w: Machine, p: Plan, r: Machine) {
    && r == w.(files := r.files, quarantine := r.quarantine, fuel := r.fuel, halt := r.halt)
    && SameElsewhere(w.files, r.files)
    && (forall k :: KindStep(w.files, r.files, p, k))
    && (w.Live() ==> (r.Live() || r.halt == Died) && (r.Live() ==> !AnyOld(r.files) && r.fuel + 3 >= w.fuel))
    && (w.Live() && w.fuel >= 3 ==> r.Live())
    && (!w.Live() || !AnyOld(w.files) ==> r == w)
  }

  lemma FilesChain(f: Files, f1: Files, f2: Files, g: Files, p: Plan, k: Kind)
    requires OnlyKind(f, f1, Config) && OnlyKind(f1, f2, Service) && OnlyKind(f2, g, Timer)
    requires KindStep(f, f1, p, Config) && KindStep(f1, f2, p, Service) && KindStep(f2, g, p, Timer)
    ensures KindStep(f, g, p, k)
    ensures SameElsewhere(f, g)
    ensures (!f1.Has(Definition(Config)) ==> !g.Has(Definition(Config))) && (!f2.Has(Definition(Service)) ==> !g.Has(Definition(Service)))
    ensures f1.Has(Definition(Service)) == f.Has(Definition(Service)) && f2.Has(Definition(Timer)) == f.Has(Definition(Timer))
  {
    assert f1.Get(Definition(Service)) == f.Get(Definition(Service)) && f2.Get(Definition(Timer)) == f1.Get(Definition(Timer));
    assert f1.Get(Definition(Timer)) == f.Get(Definition(Timer)) && f2.Get(Definition(Config)) == f1.Get(Definition(Config));
    assert g.Get(Definition(Config)) == f2.Get(Definition(Config)) && g.Get(Definition(Service)) == f2.Get(Definition(Service));
  }

  lemma RetireChain(w: Machine, w1: Machine, w2: Machine, r: Machine, p: Plan)
    requires RetireShape(w, p, Config, w1) && RetireShape(w1, p, Service, w2) && RetireShape(w2, p, Timer, r)
    ensures RetireAllShape(w, p, r)
  {
    hide KindStep, SameElsewhere, OnlyKind;
    forall k ensures KindStep(w.files, r.files, p, k) {
      FilesChain(w.files, w1.files, w2.files, r.files, p, k);
    }
    FilesChain(w.files, w1.files, w2.files, r.files, p, Config);
  }

  lemma RetireAllHasShape(w: Machine, p: Plan)
    requires AllClean(w.files, p)
    ensures RetireAllShape(w, p, RetireAll(w, p, KINDS))
  {
    hide Retire, RetireAllShape, RetireAll;
    RetireAllUnrolled(w, p);
    var w1 := Retire(w, Config, p.config);
    var w2 := Retire(w1, Service, p.service);
    RetireHasShape(w, p, Config);
    assert Clean(w1.files, p, Service) && Clean(w1.files, p, Timer);
    RetireHasShape(w1, p, Service);
    assert Clean(w2.files, p, Timer);
    RetireHasShape(w2, p, Timer);
    RetireChain(w, w1, w2, Retire(w2, Timer, p.timer), p);
  }

  ghost predicate SeesImage(f: Files, p: Plan) {
    forall k :: !f.Has(Definition(k)) && f.Get(ImageDefinition(k)) == Some(Image(p, k))
  }

  /** The timer runs from, and is enabled through, the image's definitions alone. */
  ghost predicate OnImage(w: Machine, p: Plan) {
    && SeesImage(w.loaded, p)
    && w.started.Has(BtrbkTimer)
    && SeesImage(w.started.Of(BtrbkTimer).loaded, p)
    && w.links.Get(BtrbkTimer) == Some(ImageDefinition(Timer))
  }

  /** Retired by this run. */
  ghost predicate Moved(w: Machine, r: Machine, k: Kind) {
    w.files.Has(Definition(k)) && !r.files.Has(Definition(k))
  }

  /** Only the snapshot directories and the process itself differ. */
  ghost predicate SameButDirs(w: Machine, r: Machine) {
    r == w.(dirs := r.dirs, fuel := r.fuel, halt := r.halt)
  }

  /** Everything an admitted image-mode run can leave behind. */
  ghost predicate MigrateShape(w: Machine, p: Plan, env: Observed, r: Machine) {
    && (forall k :: KindStep(w.files, r.files, p, k))
    && (forall q: Path :: !q.Definition? && !q.Archive? && q != TimerReceipt ==> r.files.Get(q) == w.files.Get(q))
    && r.files.Get(TimerReceipt) == (if r.Live() then Some(ImageRevision(p)) else w.files.Get(TimerReceipt))
    && (r.Live() ==> !AnyOld(r.files) && r.active.Has(BtrbkTimer))
    && (r.Live() && Acting(w, p) ==> OnImage(r, p))
    && (!Acting(w, p) ==> IdleShape(w, r))
    && RefusalShape(w, env, r)
    && (r.halt == SnapshotRunning || r.halt == SnapshotStartedFirst ==> Acting(w, p))
    && (Idle(env) && w.fuel >= Enough(p) ==> r.Live())
    && ((exists k :: Moved(w, r, k)) ==> !env.busyBefore && !env.busyAfter)
    && (AnyOld(r.files) && (exists k :: Moved(w, r, k)) ==> !r.active.Has(BtrbkTimer))
  }

  predicate Idle(env: Observed) {
    env.storage && !env.busyBefore && !env.busyAfter
  }

  function Enough(p: Plan): nat {
    |p.sources| + 20
  }

  /** There is something to retire or a receipt to bring up to date. */
  predicate Acting(w: Machine, p: Plan) {
    AnyOld(w.files) || w.files.Get(TimerReceipt) != Some(ImageRevision(p))
  }

  ghost predicate IdleShape(w: Machine, r: Machine) {
    && r.loaded == w.loaded
    && r.links == w.links
    && (r.started == w.started || r.started == w.started.Put(BtrbkTimer, Launch(w.loaded, w.files, w.starts)))
    && (w.active.Has(BtrbkTimer) ==> SameButDirs(w, r))
  }

  ghost predicate RefusalShape(w: Machine, env: Observed, r: Machine) {
    && r.halt in {Running, Died, SnapshotRunning, SnapshotStartedFirst}
    && (r.halt == SnapshotRunning ==> env.busyBefore && SameButDirs(w, r))
    && (r.halt == SnapshotStartedFirst ==> env.busyAfter && SameButDirs(w.(active := w.active.Remove(BtrbkTimer)), r))
  }

  ghost predicate Admitted(w: Machine, p: Plan) {
    && VendorIntact(w.files, p)
    && AllClean(w.files, p)
    && (AnyOld(w.files) ==> w.files.Get(TimerReceipt) == Some(LegacyRevision(p)))
  }

  /** Stopping the timer and looking twice at the snapshot service. */
  ghost predicate QuiesceShape(w: Machine, p: Plan, env: Observed, r: Machine) {
    && r == w.(dirs := r.dirs, active := r.active, fuel := r.fuel, halt := r.halt)
    && RefusalShape(w, env, r)
    && (r.Live() ==> !env.busyBefore && !env.busyAfter && !r.active.Has(BtrbkTimer))
    && (Idle(env) && w.fuel >= Enough(p) ==> r.Live() && r.fuel >= 15)
  }

  lemma QuiesceHasShape(w: Machine, p: Plan, env: Observed)
    requires w.Live() && env.storage
    ensures QuiesceShape(w, p, env, Quiesce(Prepare(w, p, env), env))
  {
    PrepareDirsShape(w, p.sources);
  }

  /** Reload, re-enable, and the state directory. */
  ghost predicate ReloadShape(w: Machine, r: Machine) {
    && r == w.(loaded := r.loaded, links := r.links, dirs := r.dirs, fuel := r.fuel, halt := r.halt)
    && (w.Live() ==> r.Live() || r.halt == Died)
    && (!w.Live() ==> r.halt == w.halt && SameButDirs(w, r))
    && (w.Live() && w.fuel >= 3 ==> r.Live() && r.fuel >= w.fuel - 3)
    && (r.Live() ==> r.loaded == w.files && r.links.Get(BtrbkTimer) == Some(TimerFile(w.files)))
  }

  lemma ReloadHasShape(w: Machine)
    ensures ReloadShape(w, EnsureDir(Reenable(DaemonReload(w)), BtrbkState))
  {
  }

  /** The stages of an acting run, and the state each one left. */
  ghost predicate Stages(w: Machine, p: Plan, env: Observed, w1: Machine, w2: Machine, w3: Machine, r: Machine) {
    && w.Live() && Admitted(w, p) && Acting(w, p)
    && QuiesceShape(w, p, env, w1) && RetireAllShape(w1, p, w2) && ReloadShape(w2, w3)
    && if w3.Live() then ActivateShape(w3, ImageRequest(p, AnyOld(w.files)), r) else r == w3
  }

  lemma StagesFiles(w: Machine, p: Plan, env: Observed, w1: Machine, w2: Machine, w3: Machine, r: Machine)
    requires Stages(w, p, env, w1, w2, w3, r)
    ensures r.files == if r.Live() then w2.files.Put(TimerReceipt, ImageRevision(p)) else w2.files
    ensures forall k :: KindStep(w.files, r.files, p, k)
    ensures r.Live() ==> w2.Live() && w3.Live() && !AnyOld(w2.files)
  {
    assert Needed(w3, ImageRequest(p, AnyOld(w.files))) by {
      assert w3.files.Get(TimerReceipt) == w.files.Get(TimerReceipt);
    }
    forall k ensures KindStep(w.files, r.files, p, k) {
      assert KindStep(w1.files, w2.files, p, k);
    }
  }

  lemma StagesOnImage(w: Machine, p: Plan, env: Observed, w1: Machine, w2: Machine, w3: Machine, r: Machine)
    requires Stages(w, p, env, w1, w2, w3, r) && r.Live()
    ensures OnImage(r, p) && r.active.Has(BtrbkTimer)
  {
    StagesFiles(w, p, env, w1, w2, w3, r);
    forall k ensures !w2.files.Has(Definition(k)) && w2.files.Get(ImageDefinition(k)) == Some(Image(p, k)) {
      match k { case Config => case Service => case Timer => }
    }
    assert w3.loaded == w2.files && SeesImage(w2.files, p);
    assert Needed(w3, ImageRequest(p, AnyOld(w.files))) by {
      assert w3.files.Get(TimerReceipt) == w.files.Get(TimerReceipt);
    }
  }

  lemma StagesQuiet(w: Machine, p: Plan, env: Observed, w1: Machine, w2: Machine, w3: Machine, r: Machine)
    requires Stages(w, p, env, w1, w2, w3, r)
    ensures RefusalShape(w, env, r)
    ensures Idle(env) && w.fuel >= Enough(p) ==> r.Live()
    ensures (exists k :: Moved(w, r, k)) ==> w1.Live()
    ensures AnyOld(r.files) && w1.Live() ==> !r.active.Has(BtrbkTimer)
  {
    StagesFiles(w, p, env, w1, w2, w3, r);
    if w1.Live() {
      if AnyOld(r.files) { assert !w2.Live() && r.active == w1.active; }
    } else {
      assert r.files == w.files;
    }
  }

  lemma ActingShape(w: Machine, p: Plan, env: Observed, w1: Machine, w2: Machine, w3: Machine, r: Machine)
    requires Stages(w, p, env, w1, w2, w3, r)
    ensures MigrateShape(w, p, env, r)
  {
    hide KindStep, OnImage, RefusalShape, RetireShape, IdleShape, Admitted;
    StagesFiles(w, p, env, w1, w2, w3, r);
    StagesQuiet(w, p, env, w1, w2, w3, r);
    if r.Live() { StagesOnImage(w, p, env, w1, w2, w3, r); }
  }

  lemma IdleMigration(w: Machine, p: Plan, env: Observed, w1: Machine, r: Machine)
    requires w.Live() && Admitted(w, p) && !Acting(w, p)
    requires SameButDirs(w, w1) && (w1.Live() || w1.halt == Died) && (w.fuel >= Enough(p) ==> w1.Live() && w1.fuel >= 4)
    requires if w1.Live() then ActivateShape(w1, ImageRequest(p, false), r) else r == w1
    ensures MigrateShape(w, p, env, r)
  {
  }

  lemma MigrateHasShape(w: Machine, p: Plan, env: Observed)
    requires w.Live() && Admitted(w, p) && env.storage
    ensures MigrateShape(w, p, env, MigrationApply(w, p, env))
  {
    var w0 := Prepare(w, p, env);
    PrepareDirsShape(w, p.sources);
    if Acting(w, p) {
      QuiesceHasShape(w, p, env);
      var w1 := Quiesce(w0, env);
      RetireAllHasShape(w1, p);
      var w2 := RetireAll(w1, p, KINDS);
      ReloadHasShape(w2);
      var w3 := EnsureDir(Reenable(DaemonReload(w2)), BtrbkState);
      if w3.Live() { ActivateHasShape(w3, ImageRequest(p, AnyOld(w.files))); }
      ActingShape(w, p, env, w1, w2, w3, MigrationApply(w, p, env));
    } else {
      RetireAllHasShape(w0, p);
      var w1 := EnsureDir(w0, BtrbkState);
      if w1.Live() { ActivateHasShape(w1, ImageRequest(p, false)); }
      IdleMigration(w, p, env, w1, MigrationApply(w, p, env));
    }
  }

  // Image mode: crash, retry, settle ------------------------------------------------------------

  /** What holds between image-mode runs that started from a completed legacy install or a fresh image. */
  ghost predicate ImagePhase(w: Machine, p: Plan) {
    && Admitted(w, p)
    && (w.files.Get(TimerReceipt) == Some(ImageRevision(p)) ==> !AnyOld(w.files) && OnImage(w, p))
  }

  /** The definition is at its path or in its archive. */
  predicate Held(files: Files, p: Plan, k: Kind) {
    files.Get(Definition(k)) == Some(Legacy(p, k)) || files.Get(Archive(k)) == Some(Legacy(p, k))
  }

  ghost predicate Settled(w: Machine, p: Plan) {
    && !AnyOld(w.files)
    && w.files.Get(TimerReceipt) == Some(ImageRevision(p))
    && OnImage(w, p)
    && w.active.Has(BtrbkTimer)
  }

  lemma PhaseFromShape(w: Machine, p: Plan, env: Observed, r: Machine)
    requires ValidPlan(p) && ImagePhase(w, p) && MigrateShape(w, p, env, r)
    ensures ImagePhase(r, p)
    ensures forall k :: Held(w.files, p, k) ==> Held(r.files, p, k)
    ensures r.Live() ==> Settled(r, p)
  {
    assert KindStep(w.files, r.files, p, Config) && KindStep(w.files, r.files, p, Service) && KindStep(w.files, r.files, p, Timer);
    forall k | Held(w.files, p, k) ensures Held(r.files, p, k) {
      assert KindStep(w.files, r.files, p, k);
    }
  }

  lemma ImagePhaseKept(w: Machine, p: Plan, env: Observed)
    requires w.Live() && ValidPlan(p) && ImagePhase(w, p)
    ensures var r := ApplyForHost(w, p, env);
      && ImagePhase(r, p)
      && (forall k :: Held(w.files, p, k) ==> Held(r.files, p, k))
      && (r.Live() ==> Settled(r, p))
      && (Idle(env) && w.fuel >= Enough(p) ==> r.Live())
  {
    if env.storage {
      MigrateHasShape(w, p, env);
      PhaseFromShape(w, p, env, MigrationApply(w, p, env));
    } else {
      RefusedByStorage(w, p, env);
    }
  }

  /** Without the data mount an admitted run does nothing. */
  lemma RefusedByStorage(w: Machine, p: Plan, env: Observed)
    requires w.Live() && !env.storage && Admitted(w, p)
    ensures MigrationApply(w, p, env) == w.(halt := Storage)
  {
    var w0 := Prepare(w, p, env);
    assert w0 == w.(halt := Storage);
    RetireAllHasShape(w0, p);
    RetireAllHasShape(Quiesce(w0, env), p);
  }

  /** A settled host is left alone by every further image-mode run, even one that is refused. */
  lemma SettledIsLeftAlone(w: Machine, p: Plan, env: Observed)
    requires w.Live() && ValidPlan(p) && ImagePhase(w, p) && Settled(w, p)
    ensures SameButDirs(w, ApplyForHost(w, p, env))
  {
    if env.storage { MigrateHasShape(w, p, env); } else { RefusedByStorage(w, p, env); }
  }

  // Histories -----------------------------------------------------------------------------------

  /** Runs cut anywhere, boots of either image generation, exits, and edits between runs. Archives may
      be edited, never deleted. Each run and each image has a plan of its own. */
  datatype Event =
    | Attempt(plan: Plan, env: Observed, fuel: nat)
    | Boot(plan: Plan, image: bool, timerUp: bool)
    | Exits
    | Edit(kind: Kind, content: Option<Bytes>)
    | EditArchive(kind: Kind, bytes: Bytes)
    | EditReceipt(receipt: Option<Bytes>)

  function Vendor(files: Files, p: Plan, image: bool): Files {
    if image then
      files.Put(ImageMarker, MARKER).Put(ImageDefinition(Config), Image(p, Config))
        .Put(ImageDefinition(Service), Image(p, Service)).Put(ImageDefinition(Timer), Image(p, Timer))
    else
      files.Remove(ImageMarker).Remove(ImageDefinition(Config))
        .Remove(ImageDefinition(Service)).Remove(ImageDefinition(Timer))
  }

  /** A boot selects the vendor tree; the manager reads the files anew and may start the timer. */
  function BootInto(w: Machine, p: Plan, image: bool, timerUp: bool): Machine {
    var files := Vendor(w.files, p, image);
    w.(files := files,
       loaded := files,
       active := Units(if timerUp then {BtrbkTimer} else {}),
       started := if timerUp then w.started.Put(BtrbkTimer, Launch(files, files, w.starts)) else w.started,
       starts := w.starts + 1)
  }

  function Edited(files: Files, at: Path, content: Option<Bytes>): Files {
    match content case Some(bytes) => files.Put(at, bytes) case None => files.Remove(at)
  }

  function After(w: Machine, e: Event): Machine {
    match e
    case Attempt(p, env, n) => ApplyForHost(Fresh(w, n), p, env)
    case Boot(p, image, up) => BootInto(w, p, image, up)
    case Exits => w.(active := w.active.Remove(BtrbkTimer))
    case Edit(k, content) => w.(files := Edited(w.files, Definition(k), content))
    case EditArchive(k, bytes) => w.(files := w.files.Put(Archive(k), bytes))
    case EditReceipt(content) => w.(files := Edited(w.files, TimerReceipt, content))
  }

  function Replay(w: Machine, history: seq<Event>): Machine
    decreases |history|
  {
    if history == [] then w else Replay(After(w, history[0]), history[1..])
  }

  /** Runs and boots of one plan in image mode, and exits. */
  predicate ImageEvent(e: Event, p: Plan) {
    e.Exits? || (e.Attempt? && e.plan == p) || (e.Boot? && e.plan == p && e.image)
  }

  lemma ImagePhaseAfter(w: Machine, p: Plan, e: Event)
    requires ValidPlan(p) && ImagePhase(w, p) && ImageEvent(e, p)
    ensures ImagePhase(After(w, e), p)
    ensures forall k :: Held(w.files, p, k) ==> Held(After(w, e).files, p, k)
  {
    match e {
      case Attempt(_, env, n) => ImagePhaseKept(Fresh(w, n), p, env);
      case Boot(_, _, up) =>
        forall q: Path ensures Vendor(w.files, p, true).Get(q) == w.files.Get(q) {}
        var files := Vendor(w.files, p, true);
        if !AnyOld(w.files) {
          forall k ensures !files.Has(Definition(k)) && files.Get(ImageDefinition(k)) == Some(Image(p, k)) {
            match k { case Config => case Service => case Timer => }
          }
        }
      case Exits =>
    }
  }

  lemma {:induction false} ImagePhaseAlways(w: Machine, p: Plan, history: seq<Event>)
    requires ValidPlan(p) && ImagePhase(w, p)
    requires forall e :: e in history ==> ImageEvent(e, p)
    ensures ImagePhase(Replay(w, history), p)
    ensures forall k :: Held(w.files, p, k) ==> Held(Replay(w, history).files, p, k)
    decreases |history|
  {
    if history != [] {
      ImagePhaseAfter(w, p, history[0]);
      ImagePhaseAlways(After(w, history[0]), p, history[1..]);
    }
  }

  /** The migration theorem. From a completed legacy install or a fresh image, after any history of
      killed or refused image-mode runs, boots and exits: nothing held has been lost, one run that is
      allowed to finish settles the host with every held definition in its archive, and whatever runs
      next leaves the host alone. */
  lemma MigrationConverges(w: Machine, p: Plan, history: seq<Event>, env: Observed, n: nat, env': Observed, n': nat)
    requires ValidPlan(p) && ImagePhase(w, p)
    requires forall e :: e in history ==> ImageEvent(e, p)
    requires Idle(env) && n >= Enough(p)
    ensures var mid := Replay(w, history);
      var r := ApplyForHost(Fresh(mid, n), p, env);
      && (forall k :: Held(w.files, p, k) ==> Held(mid.files, p, k))
      && r.Live() && Settled(r, p)
      && (forall k :: Held(w.files, p, k) ==> r.files.Get(Archive(k)) == Some(Legacy(p, k)))
      && SameButDirs(r, ApplyForHost(Fresh(r, n'), p, env'))
  {
    ImagePhaseAlways(w, p, history);
    var mid := Fresh(Replay(w, history), n);
    ImagePhaseKept(mid, p, env);
    var r := ApplyForHost(mid, p, env);
    forall k | Held(w.files, p, k) ensures r.files.Get(Archive(k)) == Some(Legacy(p, k)) {
      match k { case Config => case Service => case Timer => }
    }
    SettledIsLeftAlone(Fresh(r, n'), p, env');
  }

  /** A host that was never anything but an image, booted with a plan that it has no receipt for. */
  lemma FreshImageStartsThePhase(w: Machine, p: Plan, timerUp: bool)
    requires forall k :: !w.files.Has(Definition(k)) && w.files.Get(Archive(k)) in {None, Some(Legacy(p, k))}
    requires w.files.Get(TimerReceipt) != Some(ImageRevision(p))
    ensures ImagePhase(BootInto(w, p, true, timerUp), p)
  {
  }

  /** A legacy install that completed, booted into the image for the first time. */
  lemma LegacyInstallStartsThePhase(w: Machine, p: Plan, timerUp: bool)
    requires ValidPlan(p)
    requires forall k :: w.files.Get(Definition(k)) == Some(Legacy(p, k)) && !w.files.Has(Archive(k))
    requires w.files.Get(TimerReceipt) == Some(LegacyRevision(p))
    ensures ImagePhase(BootInto(w, p, true, timerUp), p)
    ensures forall k :: Held(BootInto(w, p, true, timerUp).files, p, k)
  {
  }
}
