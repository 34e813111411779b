/** Refusals, foreign bytes, conservation of definitions, and recovery through rollback. */
module BtrbkSafety {
  import opened Runs
  import opened Machine
  import opened Activation
  import opened Btrbk
  import opened BtrbkRuns

  // Rollback runs -------------------------------------------------------------------------------

  /** A rollback run has a definition to restore or a receipt to bring up to date. */
  ghost predicate Restoring(w: Machine, p: Plan) {
    || (exists k :: w.files.Get(Definition(k)) != Some(Legacy(p, k)))
    || w.files.Get(TimerReceipt) != Some(LegacyRevision(p))
  }

  /** Everything an admitted rollback run can leave behind. */
  ghost predicate LegacyShape(w: Machine, p: Plan, env: Observed, r: Machine) {
    && (forall k :: r.files.Get(Definition(k)) in {w.files.Get(Definition(k)), Some(Legacy(p, k))})
    && (forall q: Path :: !q.Definition? && q != TimerReceipt ==> r.files.Get(q) == w.files.Get(q))
    && r.files.Get(TimerReceipt) == (if r.Live() then Some(LegacyRevision(p)) else w.files.Get(TimerReceipt))
    && r.quarantine == w.quarantine
    && r.halt in {Running, Died, Storage}
    && (r.halt == Storage ==> r == w.(halt := Storage))
    && (r.Live() ==> (forall k :: r.files.Get(Definition(k)) == Some(Legacy(p, k))) && r.active.Has(BtrbkTimer))
    && (r.Live() ==> LegacyRuns(w, p, r) && LegacyDirs(p, r))
    && (r.halt == Storage <==> !env.storage)
    && (env.storage && w.fuel >= Enough(p) ==> r.Live())
  }

  /** What the manager and the timer run from after a finished rollback run: the restored definitions
      whenever any was written or the receipt was not at its target, and the link names the restored timer. */
  ghost predicate LegacyRuns(w: Machine, p: Plan, r: Machine) {
    if Restoring(w, p) then
      && LoadedCurrent(r.loaded, LegacyDefs(p)) && Consumed(r.started, BtrbkTimer, LegacyDefs(p))
      && r.links.Get(BtrbkTimer) == Some(Definition(Timer))
    else
      && r.loaded == w.loaded
      && r.started == (if w.active.Has(BtrbkTimer) then w.started else w.started.Put(BtrbkTimer, Launch(w.loaded, w.files, w.starts)))
      && r.links.Get(BtrbkTimer) == (if w.links.Get(BtrbkTimer) == None then Some(Definition(Timer)) else w.links.Get(BtrbkTimer))
  }

  ghost predicate LegacyDirs(p: Plan, r: Machine) {
    r.dirs.Has(EtcBtrbk) && r.dirs.Has(BtrbkState) && forall source :: source in p.sources ==> r.dirs.Has(Snapshots(source))
  }

  lemma DefsOf(p: Plan)
    ensures Distinct(LegacyDefs(p)) && |LegacyDefs(p)| == 3
    ensures forall q: Path :: !q.Definition? ==> Elsewhere(q, LegacyDefs(p))
    ensures forall k :: exists i :: 0 <= i < 3 && LegacyDefs(p)[i] == (Definition(k), Legacy(p, k))
  {
    forall k ensures exists i :: 0 <= i < 3 && LegacyDefs(p)[i] == (Definition(k), Legacy(p, k)) {
      match k {
        case Config => assert LegacyDefs(p)[0] == (Definition(k), Legacy(p, k));
        case Service => assert LegacyDefs(p)[1] == (Definition(k), Legacy(p, k));
        case Timer => assert LegacyDefs(p)[2] == (Definition(k), Legacy(p, k));
      }
    }
  }

  /** The three definitions written, as far as the process got. */
  ghost predicate WrittenShape(w: Machine, p: Plan, r: Machine) {
    && r == w.(files := r.files, fuel := r.fuel, halt := r.halt)
    && (r.Live() || r.halt == Died)
    && (forall k :: r.files.Get(Definition(k)) in {w.files.Get(Definition(k)), Some(Legacy(p, k))})
    && (forall q: Path :: !q.Definition? ==> r.files.Get(q) == w.files.Get(q))
    && (r.Live() ==> forall k :: r.files.Get(Definition(k)) == Some(Legacy(p, k)))
    && (w.fuel >= 3 ==> r.Live() && r.fuel + 3 >= w.fuel)
  }

  lemma WrittenHasShape(w: Machine, p: Plan)
    requires w.Live()
    ensures WrittenShape(w, p, WriteAll(w, LegacyDefs(p)))
  {
    DefsOf(p);
    WriteAllSound(w, LegacyDefs(p));
    NothingMissing(w.files, LegacyDefs(p));
  }

  /** Enablement and the state directory, before activation. */
  ghost predicate EnabledShape(w: Machine, p: Plan, restoring: bool, r: Machine) {
    var link := if restoring || w.links.Get(BtrbkTimer) == None then Some(TimerFile(w.files)) else w.links.Get(BtrbkTimer);
    && r == w.(links := r.links, dirs := r.dirs, fuel := r.fuel, halt := r.halt)
    && (r.Live() || r.halt == Died)
    && (w.fuel >= 2 ==> r.Live() && r.fuel >= w.fuel - 2)
    && (forall d :: w.dirs.Has(d) ==> r.dirs.Has(d))
    && (r.Live() ==> r.dirs.Has(BtrbkState))
    && (r.Live() ==> r.links.Get(BtrbkTimer) == link)
  }

  lemma EnabledHasShape(w: Machine, p: Plan, restoring: bool)
    requires w.Live()
    ensures EnabledShape(w, p, restoring, EnsureDir(if restoring then Reenable(w) else Enable(w), BtrbkState))
  {
  }

  /** The stages of a rollback run, and the state each one left. */
  ghost predicate LegacyStages(w: Machine, p: Plan, changed: bool, w1: Machine, w2: Machine, w3: Machine, r: Machine) {
    && w.Live()
    && w1 == w.(dirs := w1.dirs, fuel := w1.fuel, halt := w1.halt) && w1.Live()
    && w1.dirs.Has(EtcBtrbk) && (forall source :: source in p.sources ==> w1.dirs.Has(Snapshots(source)))
    && WrittenShape(w1, p, w2) && w2.Live()
    && (changed <==> exists k :: w.files.Get(Definition(k)) != Some(Legacy(p, k)))
    && EnabledShape(w2, p, changed || w2.files.Get(TimerReceipt) != Some(LegacyRevision(p)), w3) && w3.Live()
    && ActivateShape(w3, LegacyRequest(p, changed), r)
  }

  lemma LegacyStagesRun(w: Machine, p: Plan, changed: bool, w1: Machine, w2: Machine, w3: Machine, r: Machine)
    requires LegacyStages(w, p, changed, w1, w2, w3, r) && r.Live()
    ensures LegacyRuns(w, p, r)
  {
    assert w2.files.Get(TimerReceipt) == w.files.Get(TimerReceipt);
    assert w2.files.Get(Definition(Timer)) == Some(Legacy(p, Timer));
    if !Restoring(w, p) {
      assert forall q :: w2.files.Get(q) == w.files.Get(q) by {
        forall q: Path ensures w2.files.Get(q) == w.files.Get(q) {
          if q.Definition? { assert w2.files.Get(Definition(q.kind)) == Some(Legacy(p, q.kind)); }
        }
      }
      SameFiles(w2.files, w.files);
    } else {
      LegacySeen(w2.files, p);
    }
  }

  lemma SameFiles(f: Files, g: Files)
    requires forall q :: f.Get(q) == g.Get(q)
    ensures f == g
  {
    assert forall q :: q in f.at <==> q in g.at by {
      forall q: Path ensures q in f.at <==> q in g.at { assert f.Get(q) == g.Get(q); }
    }
    forall q | q in f.at ensures f.at[q] == g.at[q] { assert f.Get(q) == g.Get(q); }
    assert f.at == g.at;
  }

  lemma LegacySeen(files: Files, p: Plan)
    requires forall k :: files.Get(Definition(k)) == Some(Legacy(p, k))
    ensures LoadedCurrent(files, LegacyDefs(p))
    ensures forall i :: 0 <= i < |LegacyDefs(p)| ==> files.Get(LegacyDefs(p)[i].0) == Some(LegacyDefs(p)[i].1)
  {
    assert files.Get(Definition(Config)) == Some(p.config) && files.Get(Definition(Service)) == Some(p.service)
      && files.Get(Definition(Timer)) == Some(p.timer);
  }

  lemma LegacyStagesShape(w: Machine, p: Plan, env: Observed, changed: bool, w1: Machine, w2: Machine, w3: Machine, r: Machine)
    requires LegacyStages(w, p, changed, w1, w2, w3, r) && env.storage
    requires w.fuel >= Enough(p) ==> w3.fuel >= 4
    ensures LegacyShape(w, p, env, r)
  {
    hide LegacyRuns;
    assert w3.files.Get(TimerReceipt) == w.files.Get(TimerReceipt);
    if r.Live() { LegacyStagesRun(w, p, changed, w1, w2, w3, r); }
  }

  /** A run cut before activation has written definitions at most. */
  lemma LegacyCutShape(w: Machine, p: Plan, env: Observed, r: Machine)
    requires w.Live() && env.storage && w.fuel < Enough(p) && r.halt == Died && r.quarantine == w.quarantine
    requires forall k :: r.files.Get(Definition(k)) in {w.files.Get(Definition(k)), Some(Legacy(p, k))}
    requires forall q: Path :: !q.Definition? ==> r.files.Get(q) == w.files.Get(q)
    ensures LegacyShape(w, p, env, r)
  {
  }

  lemma LegacyHasShape(w: Machine, p: Plan, env: Observed)
    requires w.Live()
    ensures LegacyShape(w, p, env, LegacyApply(w, p, env))
  {
    hide LegacyShape, WrittenShape, EnabledShape, ActivateShape, LegacyRequest, Missing;
    PrepareDirsShape(w, p.sources);
    var w1 := EnsureDir(Prepare(w, p, env), EtcBtrbk);
    if !env.storage {
      WriteAllHalted(w1, LegacyDefs(p));
      StorageShape(w, p, env);
    } else if !w1.Live() {
      WriteAllHalted(w1, LegacyDefs(p));
      LegacyCutShape(w, p, env, w1);
    } else {
      PreparedDirs(w, p.sources);
      WrittenHasShape(w1, p);
      var w2 := WriteAll(w1, LegacyDefs(p));
      WrittenMeans(w1, p, w2);
      if !w2.Live() {
        LegacyCutShape(w, p, env, w2);
      } else {
        var changed := Missing(w1.files, LegacyDefs(p)) > 0;
        ChangedMeans(w1.files, p);
        var restoring := changed || w2.files.Get(TimerReceipt) != Some(LegacyRevision(p));
        EnabledHasShape(w2, p, restoring);
        var w3 := EnsureDir(if restoring then Reenable(w2) else Enable(w2), BtrbkState);
        EnabledMeans(w2, p, restoring, w3);
        if !w3.Live() {
          LegacyCutShape(w, p, env, w3);
        } else {
          ActivateHasShape(w3, LegacyRequest(p, changed));
          LegacyStagesShape(w, p, env, changed, w1, w2, w3, Activate(w3, LegacyRequest(p, changed)));
        }
      }
    }
  }

  lemma StorageShape(w: Machine, p: Plan, env: Observed)
    requires w.Live() && !env.storage
    ensures LegacyShape(w, p, env, w.(halt := Storage))
  {
  }

  lemma WrittenMeans(w: Machine, p: Plan, r: Machine)
    requires WrittenShape(w, p, r)
    ensures r == w.(files := r.files, fuel := r.fuel, halt := r.halt) && (r.Live() || r.halt == Died)
    ensures forall k :: r.files.Get(Definition(k)) in {w.files.Get(Definition(k)), Some(Legacy(p, k))}
    ensures forall q: Path :: !q.Definition? ==> r.files.Get(q) == w.files.Get(q)
    ensures w.fuel >= 3 ==> r.Live() && r.fuel + 3 >= w.fuel
  {
  }

  lemma EnabledMeans(w: Machine, p: Plan, restoring: bool, r: Machine)
    requires EnabledShape(w, p, restoring, r)
    ensures r == w.(links := r.links, dirs := r.dirs, fuel := r.fuel, halt := r.halt) && (r.Live() || r.halt == Died)
    ensures w.fuel >= 2 ==> r.Live() && r.fuel >= w.fuel - 2
  {
  }

  lemma ChangedMeans(files: Files, p: Plan)
    ensures Missing(files, LegacyDefs(p)) > 0 <==> exists k :: files.Get(Definition(k)) != Some(Legacy(p, k))
  {
    DefsOf(p);
    NothingMissing(files, LegacyDefs(p));
    if Placed(files, LegacyDefs(p)) {
      forall k ensures files.Get(Definition(k)) == Some(Legacy(p, k)) {
        var i :| 0 <= i < 3 && LegacyDefs(p)[i] == (Definition(k), Legacy(p, k));
        assert files.Get(LegacyDefs(p)[i].0) == Some(LegacyDefs(p)[i].1);
      }
    } else {
      var i :| 0 <= i < 3 && files.Get(LegacyDefs(p)[i].0) != Some(LegacyDefs(p)[i].1);
      assert files.Get(Definition([Config, Service, Timer][i])) != Some(Legacy(p, [Config, Service, Timer][i]));
    }
  }

  // Refusals ------------------------------------------------------------------------------------

  /** A refusal for foreign bytes, a wrong receipt, a foreign vendor tree or a missing mount changes
      nothing at all; a running snapshot costs at most the timer. Archived content is never the reason. */
  lemma RefusalsChangeNothing(w: Machine, p: Plan, env: Observed)
    requires w.Live()
    ensures var r := ApplyForHost(w, p, env);
      && (r.halt in {VendorMismatch, PartialImage, CustomDefinition, CustomRollback, WrongReceipt, Storage}
          ==> r == w.(halt := r.halt))
      && (r.halt == SnapshotRunning ==> SameButDirs(w, r))
      && (r.halt == SnapshotStartedFirst ==> SameButDirs(w.(active := w.active.Remove(BtrbkTimer)), r))
      && r.halt != UnknownContent
  {
    if p.sources != [] {
      if w.files.Has(ImageMarker) {
        if Admitted(w, p) {
          if env.storage { MigrateHasShape(w, p, env); } else { RefusedByStorage(w, p, env); }
        }
      } else {
        LegacyHasShape(w, p, env);
      }
    }
  }

  // Foreign bytes -------------------------------------------------------------------------------

  ghost predicate Foreign(files: Files, p: Plan, k: Kind) {
    files.Get(Definition(k)) !in {None, Some(Legacy(p, k))}
  }

  /** Once an archive exists, and always in image mode, no run changes foreign bytes. */
  lemma ForeignBytesKept(w: Machine, p: Plan, env: Observed, k: Kind)
    requires w.Live() && Foreign(w.files, p, k)
    requires AnyArchive(w.files) || w.files.Has(ImageMarker)
    ensures ApplyForHost(w, p, env).files == w.files
  {
    match k { case Config => case Service => case Timer => }
  }

  /** The exact condition under which some run loses foreign bytes: a rollback run that finds no
      archive, no part of an image and its data mount. */
  lemma ForeignBytesLostIff(w: Machine, p: Plan, env: Observed, k: Kind)
    requires p.sources != [] && Foreign(w.files, p, k)
    ensures (exists n: nat :: ApplyForHost(Fresh(w, n), p, env).files.Get(Definition(k)) != w.files.Get(Definition(k)))
      <==> !w.files.Has(ImageMarker) && !AnyImage(w.files) && !AnyArchive(w.files) && env.storage
  {
    var open := !w.files.Has(ImageMarker) && !AnyImage(w.files) && !AnyArchive(w.files) && env.storage;
    if open {
      var n := Enough(p);
      LegacyHasShape(Fresh(w, n), p, env);
      assert ApplyForHost(Fresh(w, n), p, env).files.Get(Definition(k)) == Some(Legacy(p, k));
    } else {
      forall n: nat ensures ApplyForHost(Fresh(w, n), p, env).files == w.files {
        if AnyArchive(w.files) || w.files.Has(ImageMarker) {
          ForeignBytesKept(Fresh(w, n), p, env, k);
        } else if !AnyImage(w.files) {
          LegacyHasShape(Fresh(w, n), p, env);
        }
      }
    }
  }

  /** No run removes an archive. */
  lemma ArchivesStay(w: Machine, p: Plan, env: Observed, k: Kind)
    requires w.Live() && w.files.Has(Archive(k))
    ensures ApplyForHost(w, p, env).files.Get(Archive(k)) == w.files.Get(Archive(k))
  {
    if p.sources != [] {
      if w.files.Has(ImageMarker) {
        if Admitted(w, p) {
          if env.storage {
            MigrateHasShape(w, p, env);
            var r := MigrationApply(w, p, env);
            assert KindStep(w.files, r.files, p, k);
            assert Clean(w.files, p, k) by { match k { case Config => case Service => case Timer => } }
          } else { RefusedByStorage(w, p, env); }
        }
      } else {
        LegacyHasShape(w, p, env);
      }
    }
  }

  /** Whatever happened before, as long as nobody deleted it, the archive is still there. */
  lemma {:induction false} ArchiveOutlivesHistory(w: Machine, history: seq<Event>, k: Kind)
    requires w.files.Has(Archive(k))
    ensures Replay(w, history).files.Has(Archive(k))
    decreases |history|
  {
    if history != [] {
      match history[0] {
        case Attempt(p, env, n) => ArchivesStay(Fresh(w, n), p, env, k);
        case _ =>
      }
      ArchiveOutlivesHistory(After(w, history[0]), history[1..], k);
    }
  }

  /** Over every history of runs and boots for any plans, exits and outside edits that begins with an
      archive: a run for any plan started at its end changes no file while a definition is foreign to it. */
  lemma ForeignBytesSafeOverHistories(w: Machine, history: seq<Event>, a: Kind, p: Plan, env: Observed, n: nat, k: Kind)
    requires w.files.Has(Archive(a))
    requires Foreign(Replay(w, history).files, p, k)
    ensures var mid := Replay(w, history);
      ApplyForHost(Fresh(mid, n), p, env).files == mid.files
  {
    ArchiveOutlivesHistory(w, history, a);
    assert AnyArchive(Replay(w, history).files) by { match a { case Config => case Service => case Timer => } }
    ForeignBytesKept(Fresh(Replay(w, history), n), p, env, k);
  }

  // Conservation --------------------------------------------------------------------------------

  function Here(files: Files, at: Path, content: Bytes): nat {
    if files.Get(at) == Some(content) then 1 else 0
  }

  /** How many copies of these bytes are kept for the definition of one kind. */
  function Kept(w: Machine, k: Kind, content: Bytes): nat {
    Here(w.files, Definition(k), content) + Here(w.files, Archive(k), content) + w.quarantine.of[(k, content)]
  }

  lemma MoveKeepsCount(files: Files, k: Kind, expected: Bytes, j: Kind, content: Bytes)
    requires files.Get(Definition(k)) == Some(expected)
    ensures var dropped := files.Remove(Definition(k));
      Here(dropped, Definition(j), content) + (if (j, content) == (k, expected) then 1 else 0)
        == Here(files, Definition(j), content)
    ensures Here(files.Remove(Definition(k)), Archive(j), content) == Here(files, Archive(j), content)
    ensures !files.Has(Archive(k)) ==>
      var moved := files.Remove(Definition(k)).Put(Archive(k), expected);
      Here(moved, Definition(j), content) + Here(moved, Archive(j), content)
        == Here(files, Definition(j), content) + Here(files, Archive(j), content)
  {
  }

  lemma RetireConserves(w: Machine, k: Kind, expected: Bytes, j: Kind, content: Bytes)
    ensures Kept(Retire(w, k, expected), j, content) == Kept(w, j, content)
  {
    hide Here;
    var added := w.quarantine.Add(k, expected);
    assert added.of[(j, content)] == w.quarantine.of[(j, content)] + if (j, content) == (k, expected) then 1 else 0;
    if w.files.Get(Definition(k)) == Some(expected) { MoveKeepsCount(w.files, k, expected, j, content); }
  }

  lemma RetireAllConserves(w: Machine, p: Plan, k: Kind, content: Bytes)
    ensures Kept(RetireAll(w, p, KINDS), k, content) == Kept(w, k, content)
  {
    RetireAllUnrolled(w, p);
    var w1 := Retire(w, Config, p.config);
    var w2 := Retire(w1, Service, p.service);
    RetireConserves(w, Config, p.config, k, content);
    RetireConserves(w1, Service, p.service, k, content);
    RetireConserves(w2, Timer, p.timer, k, content);
  }

  /** Finishing touches at most the receipt. */
  lemma FinishFiles(w: Machine, p: Plan, retiring: bool, pending: bool)
    ensures var r := Finish(w, p, retiring, pending);
      && r.quarantine == w.quarantine
      && (r.files == w.files || r.files == w.files.Put(TimerReceipt, ImageRevision(p)))
  {
    var w1 := if retiring || pending then Reenable(DaemonReload(w)) else w;
    var w2 := EnsureDir(w1, BtrbkState);
    assert w2.files == w.files && w2.quarantine == w.quarantine;
    if w2.Live() {
      ActivateHasShape(w2, ImageRequest(p, retiring));
    }
  }

  lemma ReceiptConserves(w: Machine, r: Machine, revision: Bytes, k: Kind, content: Bytes)
    requires r.quarantine == w.quarantine
    requires r.files == w.files || r.files == w.files.Put(TimerReceipt, revision)
    ensures Kept(r, k, content) == Kept(w, k, content)
  {
  }

  lemma QuiesceFiles(w: Machine, env: Observed)
    ensures Quiesce(w, env).files == w.files && Quiesce(w, env).quarantine == w.quarantine
  {
  }

  lemma MigrateConserves(w: Machine, p: Plan, env: Observed, retiring: bool, pending: bool, k: Kind, content: Bytes)
    ensures Kept(Migrate(w, p, env, retiring, pending), k, content) == Kept(w, k, content)
  {
    QuiesceFiles(w, env);
    var w1 := if retiring || pending then Quiesce(w, env) else w;
    assert Kept(w1, k, content) == Kept(w, k, content);
    RetireAllConserves(w1, p, k, content);
    var w2 := RetireAll(w1, p, KINDS);
    FinishFiles(w2, p, retiring, pending);
    ReceiptConserves(w2, Finish(w2, p, retiring, pending), ImageRevision(p), k, content);
  }

  lemma PrepareKeeps(w: Machine, p: Plan, env: Observed, k: Kind, content: Bytes)
    ensures Kept(Prepare(w, p, env), k, content) == Kept(w, k, content)
  {
    PrepareDirsShape(w, p.sources);
  }

  /** An image-mode run, however it ends, neither destroys nor duplicates any definition: paths,
      archives and quarantine together keep exactly the copies they kept before. */
  lemma ImageRunsConserveDefinitions(w: Machine, p: Plan, env: Observed, k: Kind, content: Bytes)
    requires w.Live() && w.files.Has(ImageMarker)
    ensures Kept(ApplyForHost(w, p, env), k, content) == Kept(w, k, content)
  {
    hide Migrate, Prepare;
    if p.sources != [] {
      PrepareKeeps(w, p, env, k, content);
      MigrateConserves(Prepare(w, p, env), p, env, AnyOld(w.files), w.files.Get(TimerReceipt) != Some(ImageRevision(p)), k, content);
    }
  }

  // Untouched hosts, mode switches and recovery -------------------------------------------------

  /** What every history without outside edits keeps. */
  ghost predicate Reachable(w: Machine, p: Plan) {
    && AllClean(w.files, p)
    && w.files.Get(TimerReceipt) in {None, Some(LegacyRevision(p)), Some(ImageRevision(p))}
    && (w.files.Has(ImageMarker) ==> VendorIntact(w.files, p))
    && (!w.files.Has(ImageMarker) ==> !AnyImage(w.files))
  }

  /** Runs and boots of one plan, and exits. */
  predicate Untouched(e: Event, p: Plan) {
    e.Exits? || (e.Attempt? && e.plan == p) || (e.Boot? && e.plan == p)
  }

  lemma ReachableFromMigrate(w: Machine, p: Plan, env: Observed, r: Machine)
    requires Reachable(w, p) && Admitted(w, p) && MigrateShape(w, p, env, r)
    ensures Reachable(r, p)
  {
    assert KindStep(w.files, r.files, p, Config) && KindStep(w.files, r.files, p, Service) && KindStep(w.files, r.files, p, Timer);
  }

  lemma ReachableFromLegacy(w: Machine, p: Plan, env: Observed, r: Machine)
    requires Reachable(w, p) && !w.files.Has(ImageMarker) && LegacyShape(w, p, env, r)
    ensures Reachable(r, p)
  {
    assert r.files.Get(Definition(Config)) in {w.files.Get(Definition(Config)), Some(Legacy(p, Config))};
    assert r.files.Get(Definition(Service)) in {w.files.Get(Definition(Service)), Some(Legacy(p, Service))};
    assert r.files.Get(Definition(Timer)) in {w.files.Get(Definition(Timer)), Some(Legacy(p, Timer))};
    assert r.files.Get(ImageMarker) == w.files.Get(ImageMarker);
    assert r.files.Get(ImageDefinition(Config)) == None && r.files.Get(ImageDefinition(Service)) == None
      && r.files.Get(ImageDefinition(Timer)) == None;
  }

  lemma ReachableAfter(w: Machine, p: Plan, e: Event)
    requires Reachable(w, p) && Untouched(e, p)
    ensures Reachable(After(w, e), p)
  {
    match e {
      case Attempt(_, env, n) =>
        var w0 := Fresh(w, n);
        if p.sources != [] {
          if w0.files.Has(ImageMarker) {
            if Admitted(w0, p) {
              if env.storage {
                MigrateHasShape(w0, p, env);
                ReachableFromMigrate(w0, p, env, MigrationApply(w0, p, env));
              } else { RefusedByStorage(w0, p, env); }
            }
          } else {
            LegacyHasShape(w0, p, env);
            ReachableFromLegacy(w0, p, env, LegacyApply(w0, p, env));
          }
        }
      case Boot(_, image, up) => ReachableBoot(w, p, image, up);
      case Exits =>
    }
  }

  lemma VendorFrame(files: Files, p: Plan, image: bool)
    ensures var f := Vendor(files, p, image);
      && (forall q: Path :: !q.ImageMarker? && !q.ImageDefinition? ==> f.Get(q) == files.Get(q))
      && f.Has(ImageMarker) == image
      && (if image then VendorIntact(f, p) else !AnyImage(f))
  {
  }

  lemma ReachableBoot(w: Machine, p: Plan, image: bool, up: bool)
    requires Reachable(w, p)
    ensures Reachable(BootInto(w, p, image, up), p) && BootInto(w, p, image, up).files.Has(ImageMarker) == image
    ensures forall q: Path :: !q.ImageMarker? && !q.ImageDefinition? ==> BootInto(w, p, image, up).files.Get(q) == w.files.Get(q)
  {
    VendorFrame(w.files, p, image);
    assert AllClean(BootInto(w, p, image, up).files, p) == AllClean(w.files, p);
  }

  lemma {:induction false} ReachableAlways(w: Machine, p: Plan, history: seq<Event>)
    requires Reachable(w, p) && forall e :: e in history ==> Untouched(e, p)
    ensures Reachable(Replay(w, history), p)
    decreases |history|
  {
    if history != [] {
      ReachableAfter(w, p, history[0]);
      ReachableAlways(After(w, history[0]), p, history[1..]);
    }
  }

  lemma HeldAfter(w: Machine, p: Plan, e: Event, k: Kind)
    requires Reachable(w, p) && Untouched(e, p) && Held(w.files, p, k)
    ensures Held(After(w, e).files, p, k)
  {
    hide LegacyRuns, LegacyDirs, OnImage, IdleShape, RefusalShape, Migrate;
    match e {
      case Attempt(_, env, n) =>
        var w0 := Fresh(w, n);
        if p.sources != [] {
          if w0.files.Has(ImageMarker) {
            if Admitted(w0, p) {
              if env.storage {
                MigrateHasShape(w0, p, env);
                assert KindStep(w0.files, MigrationApply(w0, p, env).files, p, k);
              } else { RefusedByStorage(w0, p, env); }
            }
          } else {
            LegacyHasShape(w0, p, env);
            var r := LegacyApply(w0, p, env);
            assert r.files.Get(Definition(k)) in {w0.files.Get(Definition(k)), Some(Legacy(p, k))};
            assert r.files.Get(Archive(k)) == w0.files.Get(Archive(k));
          }
        }
      case Boot(_, image, up) =>
        ReachableBoot(w, p, image, up);
        assert BootInto(w, p, image, up).files.Get(Archive(k)) == w.files.Get(Archive(k));
      case Exits =>
    }
  }

  /** Over every history of image runs, rollback runs and boots of both, cut anywhere: a definition that
      was at its path or in its archive still is. */
  lemma {:induction false} HeldAlways(w: Machine, p: Plan, history: seq<Event>, k: Kind)
    requires Reachable(w, p) && Held(w.files, p, k) && forall e :: e in history ==> Untouched(e, p)
    ensures Held(Replay(w, history).files, p, k)
    decreases |history|
  {
    if history != [] {
      HeldAfter(w, p, history[0], k);
      ReachableAfter(w, p, history[0]);
      HeldAlways(After(w, history[0]), p, history[1..], k);
    }
  }

  /** In every reachable state, an image-mode run with an idle snapshot service is refused exactly when
      a legacy definition is present without the legacy receipt. */
  lemma ImageRefusalIff(w: Machine, p: Plan, history: seq<Event>, env: Observed, n: nat)
    requires ValidPlan(p) && Reachable(w, p) && forall e :: e in history ==> Untouched(e, p)
    requires Replay(w, history).files.Has(ImageMarker) && Idle(env)
    ensures var mid := Replay(w, history);
      var r := ApplyForHost(Fresh(mid, n), p, env);
      && (r.halt !in {Running, Died}
          <==> AnyOld(mid.files) && mid.files.Get(TimerReceipt) != Some(LegacyRevision(p)))
      && (r.halt !in {Running, Died} ==> r.halt == WrongReceipt && r.files == mid.files)
  {
    ReachableAlways(w, p, history);
    var mid := Fresh(Replay(w, history), n);
    if Admitted(mid, p) { MigrateHasShape(mid, p, env); }
  }

  /** From every reachable state, whatever was killed or refused before, one finished run on the
      previous image followed by one finished run on the new image settles the host. */
  lemma RollbackThenImageSucceeds(w: Machine, p: Plan, history: seq<Event>, env: Observed, n: nat, up: bool, up': bool)
    requires ValidPlan(p) && Reachable(w, p) && forall e :: e in history ==> Untouched(e, p)
    requires Idle(env) && n >= Enough(p)
    ensures var previous := BootInto(Replay(w, history), p, false, up);
      var restored := ApplyForHost(Fresh(previous, n), p, env);
      var r := ApplyForHost(Fresh(BootInto(restored, p, true, up'), n), p, env);
      && restored.Live()
      && (forall k :: restored.files.Get(Definition(k)) == Some(Legacy(p, k)))
      && restored.files.Get(TimerReceipt) == Some(LegacyRevision(p))
      && restored.active.Has(BtrbkTimer)
      && LoadedCurrent(restored.loaded, LegacyDefs(p)) && Consumed(restored.started, BtrbkTimer, LegacyDefs(p))
      && r.Live() && Settled(r, p)
      && (forall k :: r.files.Get(Archive(k)) == Some(Legacy(p, k)))
  {
    ReachableAlways(w, p, history);
    var mid := Replay(w, history);
    ReachableBoot(mid, p, false, up);
    var previous := Fresh(BootInto(mid, p, false, up), n);
    RollbackRestores(previous, p, env);
    var restored := ApplyForHost(previous, p, env);
    RestoredRuns(mid, p, up, n, restored);
    RestoredMigrates(restored, p, env, n, up');
  }

  /** Booted into the previous image, the timer runs from the restored definitions whether or not the run
      had anything to restore: what was not written by it the boot has read already. */
  lemma RestoredRuns(w: Machine, p: Plan, up: bool, n: nat, r: Machine)
    requires var previous := Fresh(BootInto(w, p, false, up), n);
      LegacyRuns(previous, p, r) && forall k :: r.files.Get(Definition(k)) == Some(Legacy(p, k))
    ensures LoadedCurrent(r.loaded, LegacyDefs(p)) && Consumed(r.started, BtrbkTimer, LegacyDefs(p))
  {
    var previous := Fresh(BootInto(w, p, false, up), n);
    if !Restoring(previous, p) {
      forall k ensures previous.files.Get(Definition(k)) == Some(Legacy(p, k)) {}
      LegacySeen(previous.files, p);
    }
  }

  lemma RollbackRestores(w: Machine, p: Plan, env: Observed)
    requires w.Live() && ValidPlan(p) && Reachable(w, p) && !w.files.Has(ImageMarker)
    requires Idle(env) && w.fuel >= Enough(p)
    ensures var r := ApplyForHost(w, p, env);
      && r.Live() && Reachable(r, p) && r.active.Has(BtrbkTimer)
      && (forall k :: r.files.Get(Definition(k)) == Some(Legacy(p, k)))
      && r.files.Get(TimerReceipt) == Some(LegacyRevision(p))
      && LegacyRuns(w, p, r) && LegacyDirs(p, r)
  {
    LegacyHasShape(w, p, env);
    ReachableFromLegacy(w, p, env, LegacyApply(w, p, env));
  }

  lemma HeldSettles(w: Machine, p: Plan, env: Observed)
    requires w.Live() && ValidPlan(p) && ImagePhase(w, p) && Idle(env) && w.fuel >= Enough(p)
    requires forall k :: w.files.Get(Definition(k)) == Some(Legacy(p, k))
    ensures var r := ApplyForHost(w, p, env);
      r.Live() && Settled(r, p) && forall k :: r.files.Get(Archive(k)) == Some(Legacy(p, k))
  {
    ImagePhaseKept(w, p, env);
    var r := ApplyForHost(w, p, env);
    forall k ensures r.files.Get(Archive(k)) == Some(Legacy(p, k)) {
      assert Held(w.files, p, k);
      match k { case Config => case Service => case Timer => }
    }
  }

  lemma RestoredMigrates(w: Machine, p: Plan, env: Observed, n: nat, up: bool)
    requires ValidPlan(p) && Reachable(w, p)
    requires forall k :: w.files.Get(Definition(k)) == Some(Legacy(p, k))
    requires w.files.Get(TimerReceipt) == Some(LegacyRevision(p))
    requires Idle(env) && n >= Enough(p)
    ensures var r := ApplyForHost(Fresh(BootInto(w, p, true, up), n), p, env);
      r.Live() && Settled(r, p) && forall k :: r.files.Get(Archive(k)) == Some(Legacy(p, k))
  {
    ReachableBoot(w, p, true, up);
    var w1 := Fresh(BootInto(w, p, true, up), n);
    assert forall k :: w1.files.Get(Definition(k)) == w.files.Get(Definition(k));
    assert w1.files.Get(TimerReceipt) == w.files.Get(TimerReceipt);
    HeldSettles(w1, p, env);
  }

  // Another selection after the migration --------------------------------------------------------

  predicate SameLegacy(p: Plan, q: Plan) {
    p.config == q.config && p.service == q.service && p.timer == q.timer
  }

  ghost predicate Archived(files: Files, p: Plan) {
    forall k :: files.Get(Archive(k)) == Some(Legacy(p, k))
  }

  predicate Accepted(r: Machine) {
    r.halt in {Running, Died}
  }

  /** Image runs compare archives as well as definitions. */
  lemma ImageAdmissionIff(w: Machine, q: Plan, env: Observed)
    requires w.Live() && q.sources != [] && w.files.Has(ImageMarker) && VendorIntact(w.files, q) && Idle(env)
    ensures var r := ApplyForHost(w, q, env);
      (Accepted(r) <==> Admitted(w, q)) && (!Accepted(r) ==> r == w.(halt := r.halt))
  {
    if Admitted(w, q) { MigrateHasShape(w, q, env); }
  }

  /** Rollback runs compare definitions only, and only where there is an archive. */
  lemma RollbackAdmissionIff(w: Machine, q: Plan, env: Observed)
    requires w.Live() && q.sources != [] && !w.files.Has(ImageMarker) && !AnyImage(w.files) && Idle(env)
    ensures var r := ApplyForHost(w, q, env);
      (Accepted(r) <==> !AnyArchive(w.files) || AllRestorable(w.files, q)) && (!Accepted(r) ==> r == w.(halt := CustomRollback))
  {
    LegacyHasShape(w, q, env);
  }

  /** A host that has been migrated with one plan and is then given another: the image refuses it exactly
      when a legacy text differs, since the archives keep the old texts. The previous image takes it, as
      long as the old definitions have not been restored there; once they have, it refuses as well. */
  lemma SelectionChangeIff(w: Machine, p: Plan, q: Plan, env: Observed, n: nat, up: bool)
    requires p.sources != [] && q.sources != [] && Idle(env)
    requires Archived(w.files, p) && !AnyOld(w.files)
    ensures Accepted(ApplyForHost(Fresh(BootInto(w, q, true, up), n), q, env)) <==> SameLegacy(p, q)
    ensures Accepted(ApplyForHost(Fresh(BootInto(w, q, false, up), n), q, env))
    ensures var restored := ApplyForHost(Fresh(BootInto(w, p, false, up), Enough(p)), p, env);
      restored.Live() && (Accepted(ApplyForHost(Fresh(restored, n), q, env)) <==> SameLegacy(p, q))
  {
    hide ApplyForHost;
    VendorFrame(w.files, q, true);
    VendorFrame(w.files, q, false);
    VendorFrame(w.files, p, false);
    var image := Fresh(BootInto(w, q, true, up), n);
    ImageAdmissionIff(image, q, env);
    AdmittedWhenArchived(image, p, q);
    RollbackAdmissionIff(Fresh(BootInto(w, q, false, up), n), q, env);
    var previous := Fresh(BootInto(w, p, false, up), Enough(p));
    RestoredOver(previous, p, env);
    var restored := ApplyForHost(previous, p, env);
    RollbackAdmissionIff(Fresh(restored, n), q, env);
  }

  lemma AdmittedWhenArchived(w: Machine, p: Plan, q: Plan)
    requires VendorIntact(w.files, q) && Archived(w.files, p) && !AnyOld(w.files)
    ensures Admitted(w, q) <==> SameLegacy(p, q)
  {
    assert w.files.Get(Archive(Config)) == Some(p.config) && w.files.Get(Archive(Service)) == Some(p.service)
      && w.files.Get(Archive(Timer)) == Some(p.timer);
  }

  lemma RestoredOver(w: Machine, p: Plan, env: Observed)
    requires w.Live() && p.sources != [] && !w.files.Has(ImageMarker) && !AnyImage(w.files) && Idle(env) && w.fuel >= Enough(p)
    requires Archived(w.files, p) && !AnyOld(w.files)
    ensures var r := ApplyForHost(w, p, env);
      && r.Live() && !r.files.Has(ImageMarker) && !AnyImage(r.files) && AnyArchive(r.files)
      && (forall q: Plan :: AllRestorable(r.files, q) <==> SameLegacy(p, q))
  {
    hide LegacyApply;
    LegacyHasShape(w, p, env);
    assert !AnyOld(w.files) ==> AllRestorable(w.files, p);
    var r := ApplyForHost(w, p, env);
    assert r == LegacyApply(w, p, env);
    assert w.files.Has(Archive(Config)) && r.files.Get(Archive(Config)) == w.files.Get(Archive(Config));
    assert r.files.Get(ImageMarker) == None && r.files.Get(ImageDefinition(Config)) == None
      && r.files.Get(ImageDefinition(Service)) == None && r.files.Get(ImageDefinition(Timer)) == None;
    assert r.files.Get(Definition(Config)) == Some(p.config) && r.files.Get(Definition(Service)) == Some(p.service)
      && r.files.Get(Definition(Timer)) == Some(p.timer);
  }
}
