/** How a run on a given host ends, told from what a caller can look at before it. */
module BtrbkOutcome {
  import opened Runs
  import opened Machine
  import opened Activation
  import opened Btrbk
  import opened BtrbkRuns
  import opened BtrbkSafety
  import opened BtrbkHost

  /** The vendor tree is not the one of this plan. */
  predicate VendorDiffers(files: Files, p: Plan) {
    || files.Get(ImageMarker) != Some("1\n")
    || files.Get(ImageDefinition(Config)) != Some(p.config)
    || files.Get(ImageDefinition(Service)) != Some(p.imageService)
    || files.Get(ImageDefinition(Timer)) != Some(p.timer)
  }

  /** There is a file, and it is not this text. */
  predicate Differs(files: Files, at: Path, text: Bytes) {
    files.Has(at) && files.Get(at) != Some(text)
  }

  predicate DefinitionDiffers(files: Files, p: Plan) {
    || Differs(files, Definition(Config), p.config)
    || Differs(files, Definition(Service), p.service)
    || Differs(files, Definition(Timer), p.timer)
  }

  predicate ArchiveDiffers(files: Files, p: Plan) {
    || Differs(files, Archive(Config), p.config)
    || Differs(files, Archive(Service), p.service)
    || Differs(files, Archive(Timer), p.timer)
  }

  predicate AnyDefinition(files: Files) {
    exists k :: files.Has(Definition(k))
  }

  /** The first refusal that an image run gives without looking at the snapshot service, or that it goes on. */
  function ImageAdmission(w: Machine, p: Plan, env: Observed): Halt {
    if VendorDiffers(w.files, p) then VendorMismatch
    else if DefinitionDiffers(w.files, p) || ArchiveDiffers(w.files, p) then CustomDefinition
    else if AnyDefinition(w.files) && w.files.Get(TimerReceipt) != Some(p.config + p.service + p.timer) then WrongReceipt
    else if !env.storage then Storage
    else Running
  }

  function RollbackAdmission(w: Machine, p: Plan, env: Observed): Halt {
    if exists k :: w.files.Has(ImageDefinition(k)) then PartialImage
    else if (exists k :: w.files.Has(Archive(k))) && DefinitionDiffers(w.files, p) then CustomRollback
    else if !env.storage then Storage
    else Running
  }

  /** What the snapshot service makes of an admitted image run that has to retire or restart something. */
  function Snapshotting(w: Machine, p: Plan, env: Observed): Halt {
    if !AnyDefinition(w.files) && w.files.Get(TimerReceipt) == Some("1\n" + p.config + p.imageService + p.timer) then Running
    else if env.busyBefore then SnapshotRunning
    else if env.busyAfter then SnapshotStartedFirst
    else Running
  }

  lemma KindsAre(files: Files)
    ensures AnyDefinition(files) <==> AnyOld(files)
    ensures (exists k :: files.Has(Archive(k))) <==> AnyArchive(files)
    ensures (exists k :: files.Has(ImageDefinition(k))) <==> AnyImage(files)
  {
    if k :| files.Has(Definition(k)) { match k { case Config => case Service => case Timer => } }
    if k :| files.Has(Archive(k)) { match k { case Config => case Service => case Timer => } }
    if k :| files.Has(ImageDefinition(k)) { match k { case Config => case Service => case Timer => } }
  }

  lemma ConditionsAre(w: Machine, p: Plan)
    ensures VendorIntact(w.files, p) <==> !VendorDiffers(w.files, p)
    ensures AllClean(w.files, p) <==> !DefinitionDiffers(w.files, p) && !ArchiveDiffers(w.files, p)
    ensures AllRestorable(w.files, p) <==> !DefinitionDiffers(w.files, p)
    ensures LegacyRevision(p) == p.config + p.service + p.timer
    ensures ImageRevision(p) == "1\n" + p.config + p.imageService + p.timer
  {
  }

  /** An admitted image run ends as the snapshot service has it, or is killed before. */
  lemma MigrationEnds(w: Machine, p: Plan, env: Observed)
    requires w.Live() && Admitted(w, p) && env.storage
    ensures var r := MigrationApply(w, p, env);
      r.halt in {Snapshotting(w, p, env), Died} && (w.fuel >= Enough(p) ==> r.halt != Died)
  {
    hide VendorIntact, AllClean, AnyOld, RetireAll, Finish;
    KindsAre(w.files);
    ConditionsAre(w, p);
    PrepareDirsShape(w, p.sources);
    var w0 := Prepare(w, p, env);
    if Acting(w, p) {
      var w1 := Quiesce(w0, env);
      if !w1.Live() {
        RetireAllHalted(w1, p, KINDS);
        FinishHalted(w1, p, AnyOld(w.files), w.files.Get(TimerReceipt) != Some(ImageRevision(p)));
      } else {
        MigrateHasShape(w, p, env);
      }
    } else {
      var idle := Observed(true, false, false);
      MigrateHasShape(w, p, idle);
      assert MigrationApply(w, p, env) == MigrationApply(w, p, idle);
    }
  }

  /** For every host and every observation: nothing selected is nothing done, each refusal has its own
      exact ground and changes nothing, and an admitted run ends as the snapshot service has it or is
      killed before, which takes a budget below a bound that depends on the selection alone. */
  lemma HostOutcome(w: Machine, p: Plan, env: Observed)
    requires w.Live()
    ensures var r := ApplyForHost(w, p, env);
      var admission := if w.files.Has(ImageMarker) then ImageAdmission(w, p, env) else RollbackAdmission(w, p, env);
      if p.sources == [] then r == w
      else if admission != Running then r == w.(halt := admission)
      else
        && r.halt in {if w.files.Has(ImageMarker) then Snapshotting(w, p, env) else Running, Died}
        && (w.fuel >= |p.sources| + 20 ==> r.halt != Died)
  {
    KindsAre(w.files);
    ConditionsAre(w, p);
    hide VendorIntact, AllClean, AllRestorable, AnyOld, AnyArchive, AnyImage, VendorDiffers, DefinitionDiffers, ArchiveDiffers, AnyDefinition;
    hide LegacyApply, Snapshotting, Migrate, Prepare, LegacyRuns, LegacyDirs;
    if p.sources != [] {
      if w.files.Has(ImageMarker) {
        if Admitted(w, p) {
          if env.storage { MigrationEnds(w, p, env); } else { RefusedByStorage(w, p, env); }
        }
      } else {
        LegacyHasShape(w, p, env);
      }
    }
  }

  // Directories ---------------------------------------------------------------------------------

  ghost predicate Keeps(w: Machine, r: Machine) {
    forall d :: w.dirs.Has(d) ==> r.dirs.Has(d)
  }

  lemma FinishDirs(w: Machine, p: Plan, retiring: bool, pending: bool)
    ensures var r := Finish(w, p, retiring, pending);
      Keeps(w, r) && (r.Live() ==> w.Live() && r.dirs.Has(BtrbkState))
  {
    var w1 := if retiring || pending then Reenable(DaemonReload(w)) else w;
    var w2 := EnsureDir(w1, BtrbkState);
    if w2.Live() { ActivateHasShape(w2, ImageRequest(p, retiring)); }
  }

  lemma RetireDirs(w: Machine, p: Plan)
    ensures var r := RetireAll(w, p, KINDS); r.dirs == w.dirs && (r.Live() ==> w.Live())
  {
    RetireAllUnrolled(w, p);
  }

  /** A run that finishes has a snapshot directory for every subvolume, the directory of its receipt and,
      on the previous image, the directory of its configuration. */
  lemma DirectoriesExist(w: Machine, p: Plan, env: Observed)
    requires w.Live() && p.sources != [] && ApplyForHost(w, p, env).Live()
    ensures var r := ApplyForHost(w, p, env);
      && r.dirs.Has(BtrbkState) && (forall source :: source in p.sources ==> r.dirs.Has(Snapshots(source)))
      && (!w.files.Has(ImageMarker) ==> r.dirs.Has(EtcBtrbk))
  {
    hide LegacyApply, LegacyRuns, Finish, RetireAll, VendorIntact, AllClean;
    if w.files.Has(ImageMarker) {
      var retiring, pending := AnyOld(w.files), w.files.Get(TimerReceipt) != Some(ImageRevision(p));
      var w0 := Prepare(w, p, env);
      PreparedDirs(w, p.sources);
      var w1 := if retiring || pending then Quiesce(w0, env) else w0;
      RetireDirs(w1, p);
      FinishDirs(RetireAll(w1, p, KINDS), p, retiring, pending);
    } else {
      LegacyHasShape(w, p, env);
    }
  }
}
