/** The snapshot service's operations in their own order of effects, each tied to its function. */
module BtrbkHost {
  import opened Runs
  import opened Machine
  import opened Activation
  import opened Btrbk
  import opened BtrbkRuns

  method PrepareStorage(host: Host, p: Plan, env: Observed) returns (r: Status<(), Halt>)
    requires host.halt == Running
    modifies host
    ensures host.Snapshot() == Prepare(old(host.Snapshot()), p, env) && host.Reports(r)
  {
    if !env.storage {
      r := host.Fail(Storage);
      return;
    }
    for i := 0 to |p.sources|
      invariant host.halt == Running
      invariant PrepareDirs(host.Snapshot(), p.sources[i..]) == PrepareDirs(old(host.Snapshot()), p.sources)
    {
      assert p.sources[i..][1..] == p.sources[i + 1..];
      PrepareDirsShape(EnsureDir(host.Snapshot(), Snapshots(p.sources[i])), p.sources[i + 1..]);
      var _ :- host.MakeDir(Snapshots(p.sources[i]));
    }
    return Ok(());
  }

  method ReenableTimer(host: Host) returns (r: Status<(), Halt>)
    requires host.halt == Running
    modifies host
    ensures host.Snapshot() == Reenable(old(host.Snapshot())) && host.Reports(r)
  {
    r := host.Link(BtrbkTimer, if host.files.Has(Definition(Timer)) then Definition(Timer) else ImageDefinition(Timer));
  }

  method EnableTimer(host: Host) returns (r: Status<(), Halt>)
    requires host.halt == Running
    modifies host
    ensures host.Snapshot() == Enable(old(host.Snapshot())) && host.Reports(r)
  {
    ghost var linked := host.links.Get(BtrbkTimer);
    var _ :- host.Pay();
    if linked == None {
      host.links := host.links.Put(BtrbkTimer, TimerFile(host.files));
    }
    return Ok(());
  }

  method Apply(host: Host, p: Plan, env: Observed) returns (r: Status<(), Halt>)
    requires host.halt == Running && p.sources != []
    modifies host
    ensures host.Snapshot() == LegacyApply(old(host.Snapshot()), p, env) && host.Reports(r)
  {
    ghost var w := host.Snapshot();
    ghost var w1 := EnsureDir(Prepare(w, p, env), EtcBtrbk);
    WrittenUnrolled(w1, p);
    MissingUnrolled(w1, p);
    var _ :- PrepareStorage(host, p, env);
    var _ :- host.MakeDir(EtcBtrbk);
    var configChanged :- host.Ensure(Definition(Config), p.config);
    var serviceChanged :- host.Ensure(Definition(Service), p.service);
    var timerChanged :- host.Ensure(Definition(Timer), p.timer);
    var changed := configChanged || serviceChanged || timerChanged;
    assert changed == (Missing(w1.files, LegacyDefs(p)) > 0);
    if changed || host.files.Get(TimerReceipt) != Some(LegacyRevision(p)) {
      var _ :- ReenableTimer(host);
    } else {
      var _ :- EnableTimer(host);
    }
    var _ :- host.MakeDir(BtrbkState);
    var _ :- ActivateConsumer(host, LegacyRequest(p, changed));
    return Ok(());
  }

  lemma WrittenUnrolled(w: Machine, p: Plan)
    ensures WriteAll(w, LegacyDefs(p)) ==
      EnsureFile(EnsureFile(EnsureFile(w, Definition(Config), p.config), Definition(Service), p.service), Definition(Timer), p.timer)
  {
    var defs := LegacyDefs(p);
    var w1 := EnsureFile(w, Definition(Config), p.config);
    var w2 := EnsureFile(w1, Definition(Service), p.service);
    assert defs[1..][1..][1..] == [];
    assert WriteAll(w, defs) == WriteAll(w1, defs[1..]) == WriteAll(w2, defs[1..][1..]);
  }

  lemma MissingUnrolled(w: Machine, p: Plan)
    ensures (Missing(w.files, LegacyDefs(p)) > 0)
      == (w.files.Get(Definition(Config)) != Some(p.config)
          || w.files.Get(Definition(Service)) != Some(p.service)
          || w.files.Get(Definition(Timer)) != Some(p.timer))
  {
    NothingMissing(w.files, LegacyDefs(p));
    assert LegacyDefs(p)[0].0 == Definition(Config) && LegacyDefs(p)[1].0 == Definition(Service) && LegacyDefs(p)[2].0 == Definition(Timer);
  }

  method RetireFile(host: Host, k: Kind, expected: Bytes) returns (r: Status<bool, Halt>)
    requires host.halt == Running
    modifies host
    ensures host.Snapshot() == Retire(old(host.Snapshot()), k, expected) && host.Reports(r)
    ensures r.Ok? ==> (r.value <==> old(host.files).Has(Definition(k)))
  {
    var backup := host.files.Get(Archive(k));
    if backup.Some? && backup.value != expected {
      r := host.Fail(UnknownContent);
      return;
    }
    var current := host.files.Get(Definition(k));
    if current.None? { return Ok(false); }
    if current.value != expected {
      r := host.Fail(UnknownContent);
      return;
    }
    var _ :- host.Pay();
    if backup.Some? {
      host.files := host.files.Remove(Definition(k));
      host.quarantine := host.quarantine.Add(k, expected);
    } else {
      host.files := host.files.Remove(Definition(k)).Put(Archive(k), expected);
    }
    return Ok(true);
  }

  predicate CleanBefore(files: Files, p: Plan, n: nat)
    requires n <= |KINDS|
  {
    forall j :: 0 <= j < n ==> Clean(files, p, KINDS[j])
  }

  lemma CleanNext(files: Files, p: Plan, n: nat)
    requires n < |KINDS|
    ensures CleanBefore(files, p, n + 1) <==> CleanBefore(files, p, n) && Clean(files, p, KINDS[n])
  {
  }

  lemma CleanKinds(files: Files, p: Plan)
    ensures CleanBefore(files, p, |KINDS|) <==> AllClean(files, p)
  {
    hide Clean;
    assert KINDS[0] == Config && KINDS[1] == Service && KINDS[2] == Timer;
  }

  /** The admission loop: which definitions are to be retired, or a conflict. */
  method Inspect(host: Host, p: Plan) returns (r: Status<seq<Kind>, Halt>)
    requires host.halt == Running
    modifies host
    ensures host.Snapshot() == if AllClean(old(host.files), p) then old(host.Snapshot()) else Refuse(old(host.Snapshot()), CustomDefinition)
    ensures host.Reports(r)
    ensures r.Ok? ==> r.value == Old(host.files, KINDS)
  {
    hide AllClean, CleanBefore, Clean, Old;
    ghost var start := host.files;
    CleanKinds(start, p);
    NothingBefore(start, p);
    OldOfNothing(start);
    var found: seq<Kind> := [];
    for i := 0 to |KINDS|
      invariant host.Snapshot() == old(host.Snapshot())
      invariant CleanBefore(start, p, i)
      invariant found + Old(start, KINDS[i..]) == Old(start, KINDS)
    {
      var k := KINDS[i];
      var current := host.files.Get(Definition(k));
      var backup := host.files.Get(Archive(k));
      CleanNext(start, p, i);
      UncleanIff(start, p, k);
      OldNext(start, i);
      if (current.Some? && current.value != Legacy(p, k)) || (backup.Some? && backup.value != Legacy(p, k)) {
        SomeUnclean(start, p, i);
        r := host.Fail(CustomDefinition);
        return;
      }
      if current.Some? {
        found := found + [k];
      }
    }
    return Ok(found);
  }

  lemma UncleanIff(files: Files, p: Plan, k: Kind)
    ensures var current, backup := files.Get(Definition(k)), files.Get(Archive(k));
      !Clean(files, p, k) <==> (current.Some? && current.value != Legacy(p, k)) || (backup.Some? && backup.value != Legacy(p, k))
  {
  }

  lemma OldNext(files: Files, i: nat)
    requires i < |KINDS|
    ensures Old(files, KINDS[i..]) == (if files.Get(Definition(KINDS[i])).Some? then [KINDS[i]] else []) + Old(files, KINDS[i + 1..])
  {
    assert KINDS[i..][1..] == KINDS[i + 1..];
  }

  lemma OldOfNothing(files: Files)
    ensures KINDS[0..] == KINDS && Old(files, KINDS[|KINDS|..]) == []
  {
  }

  lemma NothingBefore(files: Files, p: Plan)
    ensures CleanBefore(files, p, 0)
  {
  }

  lemma SomeUnclean(files: Files, p: Plan, i: nat)
    requires i < |KINDS| && !CleanBefore(files, p, i + 1)
    ensures !CleanBefore(files, p, |KINDS|)
  {
  }

  method RetireEach(host: Host, p: Plan, found: seq<Kind>) returns (r: Status<bool, Halt>)
    requires host.halt == Running
    requires forall j :: 0 <= j < |found| ==> host.files.Has(Definition(found[j]))
    requires forall a, b :: 0 <= a < b < |found| ==> found[a] != found[b]
    modifies host
    ensures host.Snapshot() == RetireAll(old(host.Snapshot()), p, found) && host.Reports(r)
    ensures r.Ok? ==> (r.value <==> found != [])
  {
    ghost var start := host.Snapshot();
    var changed := false;
    for i := 0 to |found|
      invariant host.halt == Running
      invariant RetireAll(host.Snapshot(), p, found[i..]) == RetireAll(start, p, found)
      invariant forall j :: i <= j < |found| ==> host.files.Has(Definition(found[j]))
      invariant changed <==> i > 0
    {
      assert found[i..][1..] == found[i + 1..];
      RetireAllHalted(Retire(host.Snapshot(), found[i], Legacy(p, found[i])), p, found[i + 1..]);
      var retired :- RetireFile(host, found[i], Legacy(p, found[i]));
      changed := changed || retired;
    }
    return Ok(changed);
  }

  lemma OldKinds(files: Files)
    ensures Old(files, KINDS) == (if files.Has(Definition(Config)) then [Config] else [])
      + (if files.Has(Definition(Service)) then [Service] else []) + (if files.Has(Definition(Timer)) then [Timer] else [])
    ensures Old(files, KINDS) == [] <==> !AnyOld(files)
  {
    assert KINDS[1..] == [Service, Timer] && KINDS[1..][1..] == [Timer];
    assert Old(files, [Timer]) == if files.Has(Definition(Timer)) then [Timer] else [] by {
      assert [Timer][1..] == [];
    }
    assert Old(files, [Service, Timer]) == (if files.Has(Definition(Service)) then [Service] else []) + Old(files, [Timer]) by {
      assert [Service, Timer][1..] == [Timer];
    }
  }

  lemma {:induction false} RetireAllHalted(w: Machine, p: Plan, kinds: seq<Kind>)
    ensures !w.Live() ==> RetireAll(w, p, kinds) == w
    decreases |kinds|
  {
    if !w.Live() && kinds != [] { RetireAllHalted(w, p, kinds[1..]); }
  }

  lemma RetireStep(w: Machine, p: Plan, k: Kind, rest: seq<Kind>)
    requires Clean(w.files, p, k)
    ensures RetireAll(w, p, (if w.files.Has(Definition(k)) then [k] else []) + rest) == RetireAll(Retire(w, k, Legacy(p, k)), p, rest)
  {
    RetireHasShape(w, p, k);
    if w.files.Has(Definition(k)) {
      assert ([k] + rest)[1..] == rest;
    } else {
      assert [] + rest == rest;
    }
  }

  /** Retiring one kind leaves the two others as they are. */
  lemma RetireLeaves(w: Machine, p: Plan, k: Kind)
    requires Clean(w.files, p, k)
    ensures var r := Retire(w, k, Legacy(p, k));
      forall j :: j != k ==>
        Clean(r.files, p, j) == Clean(w.files, p, j) && r.files.Has(Definition(j)) == w.files.Has(Definition(j))
  {
    RetireHasShape(w, p, k);
    var r := Retire(w, k, Legacy(p, k));
    forall j | j != k
      ensures Clean(r.files, p, j) == Clean(w.files, p, j) && r.files.Has(Definition(j)) == w.files.Has(Definition(j))
    {
      assert r.files.Get(Definition(j)) == w.files.Get(Definition(j)) && r.files.Get(Archive(j)) == w.files.Get(Archive(j));
    }
  }

  lemma RetireFoundIsAll(w: Machine, p: Plan)
    requires AllClean(w.files, p)
    ensures RetireAll(w, p, Old(w.files, KINDS)) == RetireAll(w, p, KINDS)
  {
    hide Retire, RetireAll, Old, Clean;
    OldKinds(w.files);
    RetireAllUnrolled(w, p);
    var w1 := Retire(w, Config, p.config);
    var w2 := Retire(w1, Service, p.service);
    RetireLeaves(w, p, Config);
    RetireLeaves(w1, p, Service);
    var config := if w.files.Has(Definition(Config)) then [Config] else [];
    var service := if w.files.Has(Definition(Service)) then [Service] else [];
    var timer := if w.files.Has(Definition(Timer)) then [Timer] else [];
    RetireStep(w, p, Config, service + timer);
    RetireStep(w1, p, Service, timer);
    RetireStep(w2, p, Timer, []);
    RetireNothing(Retire(w2, Timer, p.timer), p);
    assert timer + [] == timer && Old(w.files, KINDS) == config + (service + timer);
  }

  lemma RetireNothing(w: Machine, p: Plan)
    ensures RetireAll(w, p, []) == w
  {
  }

  method QuiesceTimer(host: Host, env: Observed) returns (r: Status<(), Halt>)
    requires host.halt == Running
    modifies host
    ensures host.Snapshot() == Quiesce(old(host.Snapshot()), env) && host.Reports(r)
  {
    if env.busyBefore {
      r := host.Fail(SnapshotRunning);
      return;
    }
    var _ :- host.Stop(BtrbkTimer);
    if env.busyAfter {
      r := host.Fail(SnapshotStartedFirst);
      return;
    }
    return Ok(());
  }

  /** Retiring what was found is retiring all three kinds. */
  method RetireFound(host: Host, p: Plan, found: seq<Kind>) returns (r: Status<bool, Halt>)
    requires host.halt == Running && AllClean(host.files, p) && found == Old(host.files, KINDS)
    modifies host
    ensures host.Snapshot() == RetireAll(old(host.Snapshot()), p, KINDS) && host.Reports(r)
    ensures r.Ok? ==> (r.value <==> found != [])
  {
    OldKinds(host.files);
    RetireFoundIsAll(host.Snapshot(), p);
    r := RetireEach(host, p, found);
  }

  /** Retirement, reload and activation of an admitted run. */
  method MigrateFound(host: Host, p: Plan, env: Observed, found: seq<Kind>, pending: bool) returns (r: Status<(), Halt>)
    requires host.halt == Running && AllClean(host.files, p) && found == Old(host.files, KINDS)
    modifies host
    ensures host.Snapshot() == Migrate(old(host.Snapshot()), p, env, AnyOld(old(host.files)), pending) && host.Reports(r)
  {
    OldKinds(host.files);
    ghost var w := host.Snapshot();
    ghost var w1 := if found != [] || pending then Quiesce(w, env) else w;
    RetireAllHalted(w1, p, KINDS);
    FinishHalted(w1, p, found != [], pending);
    FinishHalted(RetireAll(w1, p, KINDS), p, found != [], pending);
    if found != [] || pending {
      var _ :- QuiesceTimer(host, env);
    }
    var changed :- RetireFound(host, p, found);
    r := FinishMigration(host, p, changed, pending);
  }

  method FinishMigration(host: Host, p: Plan, changed: bool, pending: bool) returns (r: Status<(), Halt>)
    requires host.halt == Running
    modifies host
    ensures host.Snapshot() == Finish(old(host.Snapshot()), p, changed, pending) && host.Reports(r)
  {
    if changed || pending {
      var _ :- host.Reload();
      var _ :- ReenableTimer(host);
    }
    var _ :- host.MakeDir(BtrbkState);
    var _ :- ActivateConsumer(host, ImageRequest(p, changed));
    return Ok(());
  }

  method RunMigration(host: Host, p: Plan, env: Observed) returns (r: Status<(), Halt>)
    requires host.halt == Running
    modifies host
    ensures host.Snapshot() == MigrationApply(old(host.Snapshot()), p, env) && host.Reports(r)
  {
    if !VendorIntact(host.files, p) {
      r := host.Fail(VendorMismatch);
      return;
    }
    var applied := host.files.Get(TimerReceipt);
    var found :- Inspect(host, p);
    OldKinds(host.files);
    if found != [] && applied != Some(LegacyRevision(p)) {
      r := host.Fail(WrongReceipt);
      return;
    }
    PrepareDirsShape(host.Snapshot(), p.sources);
    MigrateHalted(Prepare(host.Snapshot(), p, env), p, env, AnyOld(host.files), applied != Some(ImageRevision(p)));
    var _ :- PrepareStorage(host, p, env);
    r := MigrateFound(host, p, env, found, applied != Some(ImageRevision(p)));
  }

  lemma FinishHalted(w: Machine, p: Plan, retiring: bool, pending: bool)
    ensures !w.Live() ==> Finish(w, p, retiring, pending) == w
  {
  }

  lemma MigrateHalted(w: Machine, p: Plan, env: Observed, retiring: bool, pending: bool)
    ensures !w.Live() ==> Migrate(w, p, env, retiring, pending) == w
  {
    RetireAllHalted(w, p, KINDS);
  }

  method ApplyHost(host: Host, p: Plan, env: Observed) returns (r: Status<(), Halt>)
    requires host.halt == Running
    modifies host
    ensures host.Snapshot() == ApplyForHost(old(host.Snapshot()), p, env) && host.Reports(r)
  {
    if p.sources == [] { return Ok(()); }
    if host.files.Has(ImageMarker) {
      r := RunMigration(host, p, env);
      return;
    }
    for i := 0 to |KINDS|
      invariant host.Snapshot() == old(host.Snapshot())
      invariant forall j :: 0 <= j < i ==> !host.files.Has(ImageDefinition(KINDS[j]))
    {
      if host.files.Has(ImageDefinition(KINDS[i])) {
        assert AnyImage(host.files);
        r := host.Fail(PartialImage);
        return;
      }
    }
    assert !AnyImage(host.files) by {
      assert !host.files.Has(ImageDefinition(KINDS[0])) && !host.files.Has(ImageDefinition(KINDS[1])) && !host.files.Has(ImageDefinition(KINDS[2]));
    }
    var restoring := false;
    for i := 0 to |KINDS|
      invariant host.Snapshot() == old(host.Snapshot())
      invariant restoring <==> exists j :: 0 <= j < i && host.files.Has(Archive(KINDS[j]))
    {
      restoring := restoring || host.files.Has(Archive(KINDS[i]));
    }
    assert restoring <==> AnyArchive(host.files) by {
      assert KINDS[0] == Config && KINDS[1] == Service && KINDS[2] == Timer;
    }
    if restoring {
      for i := 0 to |KINDS|
        invariant host.Snapshot() == old(host.Snapshot())
        invariant forall j :: 0 <= j < i ==> Known(host.files, Definition(KINDS[j]), Legacy(p, KINDS[j]))
      {
        var current := host.files.Get(Definition(KINDS[i]));
        if current.Some? && current.value != Legacy(p, KINDS[i]) {
          assert !AllRestorable(host.files, p);
          r := host.Fail(CustomRollback);
          return;
        }
      }
      assert Known(host.files, Definition(KINDS[0]), Legacy(p, KINDS[0])) && Known(host.files, Definition(KINDS[1]), Legacy(p, KINDS[1]))
        && Known(host.files, Definition(KINDS[2]), Legacy(p, KINDS[2]));
    }
    r := Apply(host, p, env);
  }
}
