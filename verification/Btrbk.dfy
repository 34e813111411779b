/** The snapshot service: legacy convergence, migration to image-owned definitions, rollback. */
module Btrbk {
  import opened Runs
  import opened Machine
  import opened Activation

  /** The texts one host configuration renders, and its selected subvolumes. */
  datatype Plan = Plan(
    config: Bytes,
    service: Bytes,
    timer: Bytes,
    imageService: Bytes,
    sources: seq<Bytes>)

  const KINDS: seq<Kind> := [Config, Service, Timer]

  const MARKER: Bytes := "1\n"

  function Legacy(p: Plan, k: Kind): Bytes {
    match k
    case Config => p.config
    case Service => p.service
    case Timer => p.timer
  }

  function Image(p: Plan, k: Kind): Bytes {
    match k
    case Config => p.config
    case Service => p.imageService
    case Timer => p.timer
  }

  /** Revisions are digests of concatenations; the digest is taken to be collision-free, so the
      concatenation itself stands for it. */
  function LegacyRevision(p: Plan): Bytes {
    p.config + p.service + p.timer
  }

  function ImageRevision(p: Plan): Bytes {
    MARKER + p.config + p.imageService + p.timer
  }

  ghost predicate ValidPlan(p: Plan) {
    p.sources != [] && LegacyRevision(p) != ImageRevision(p)
  }

  /** What one run observes outside the files: the data mount, and the snapshot service before and
      after its timer is stopped. */
  datatype Observed = Observed(storage: bool, busyBefore: bool, busyAfter: bool)

  // The operations as functions -----------------------------------------------------------------

  function PrepareDirs(w: Machine, sources: seq<Bytes>): Machine
    decreases |sources|
  {
    if sources == [] then w else PrepareDirs(EnsureDir(w, Snapshots(sources[0])), sources[1..])
  }

  function Prepare(w: Machine, p: Plan, env: Observed): Machine {
    if env.storage then PrepareDirs(w, p.sources) else Refuse(w, Storage)
  }

  /** The unit file `systemctl` finds for the timer. */
  function TimerFile(files: Files): Path {
    if files.Has(Definition(Timer)) then Definition(Timer) else ImageDefinition(Timer)
  }

  function Reenable(w: Machine): Machine {
    LinkUnit(w, BtrbkTimer, TimerFile(w.files))
  }

  function Enable(w: Machine): Machine {
    if w.links.Get(BtrbkTimer) == None then Reenable(w) else Spend(w)
  }

  function LegacyDefs(p: Plan): Definitions {
    [(Definition(Config), p.config), (Definition(Service), p.service), (Definition(Timer), p.timer)]
  }

  function LegacyRequest(p: Plan, changed: bool): Request {
    Request(BtrbkTimer, TimerReceipt, LegacyRevision(p), changed, true, Persistent)
  }

  function LegacyActivate(w: Machine, p: Plan, changed: bool): Machine {
    var w1 := if changed || w.files.Get(TimerReceipt) != Some(LegacyRevision(p)) then Reenable(w) else Enable(w);
    var w2 := EnsureDir(w1, BtrbkState);
    if w2.Live() then Activate(w2, LegacyRequest(p, changed)) else w2
  }

  function LegacyApply(w: Machine, p: Plan, env: Observed): Machine {
    var w1 := EnsureDir(Prepare(w, p, env), EtcBtrbk);
    var w2 := WriteAll(w1, LegacyDefs(p));
    if w2.Live() then LegacyActivate(w2, p, Missing(w1.files, LegacyDefs(p)) > 0) else w2
  }

  predicate VendorIntact(files: Files, p: Plan) {
    && files.Get(ImageMarker) == Some(MARKER)
    && files.Get(ImageDefinition(Config)) == Some(Image(p, Config))
    && files.Get(ImageDefinition(Service)) == Some(Image(p, Service))
    && files.Get(ImageDefinition(Timer)) == Some(Image(p, Timer))
  }

  predicate Known(files: Files, at: Path, content: Bytes) {
    files.Get(at) in {None, Some(content)}
  }

  predicate Clean(files: Files, p: Plan, k: Kind) {
    Known(files, Definition(k), Legacy(p, k)) && Known(files, Archive(k), Legacy(p, k))
  }

  predicate AllClean(files: Files, p: Plan) {
    Clean(files, p, Config) && Clean(files, p, Service) && Clean(files, p, Timer)
  }

  predicate AnyOld(files: Files) {
    files.Has(Definition(Config)) || files.Has(Definition(Service)) || files.Has(Definition(Timer))
  }

  predicate AnyArchive(files: Files) {
    files.Has(Archive(Config)) || files.Has(Archive(Service)) || files.Has(Archive(Timer))
  }

  predicate AnyImage(files: Files) {
    files.Has(ImageDefinition(Config)) || files.Has(ImageDefinition(Service)) || files.Has(ImageDefinition(Timer))
  }

  /** One rename: to the archive, or to quarantine when the archive already holds these bytes. */
  function Retire(w: Machine, k: Kind, expected: Bytes): Machine {
    if !Known(w.files, Archive(k), expected) then Refuse(w, UnknownContent)
    else if !w.files.Has(Definition(k)) then w
    else if w.files.Get(Definition(k)) != Some(expected) then Refuse(w, UnknownContent)
    else
      var w1 := Spend(w);
      if !w1.Live() then w1
      else if w1.files.Has(Archive(k)) then
        w1.(files := w1.files.Remove(Definition(k)), quarantine := w1.quarantine.Add(k, expected))
      else
        w1.(files := w1.files.Remove(Definition(k)).Put(Archive(k), expected))
  }

  function RetireAll(w: Machine, p: Plan, kinds: seq<Kind>): Machine
    decreases |kinds|
  {
    if kinds == [] then w else RetireAll(Retire(w, kinds[0], Legacy(p, kinds[0])), p, kinds[1..])
  }

  function Old(files: Files, kinds: seq<Kind>): seq<Kind>
    decreases |kinds|
  {
    if kinds == [] then [] else
    (if files.Has(Definition(kinds[0])) then [kinds[0]] else []) + Old(files, kinds[1..])
  }

  function Quiesce(w: Machine, env: Observed): Machine {
    if env.busyBefore then Refuse(w, SnapshotRunning) else
    var w1 := StopUnit(w, BtrbkTimer);
    if env.busyAfter then Refuse(w1, SnapshotStartedFirst) else w1
  }

  function ImageRequest(p: Plan, changed: bool): Request {
    Request(BtrbkTimer, TimerReceipt, ImageRevision(p), changed, false, Persistent)
  }

  /** Reload, re-enable and activate once the old definitions are out of the way. */
  function Finish(w: Machine, p: Plan, retiring: bool, pending: bool): Machine {
    var w1 := if retiring || pending then Reenable(DaemonReload(w)) else w;
    var w2 := EnsureDir(w1, BtrbkState);
    if w2.Live() then Activate(w2, ImageRequest(p, retiring)) else w2
  }

  /** Retirement and activation, once the run has been admitted and its directories exist. */
  function Migrate(w: Machine, p: Plan, env: Observed, retiring: bool, pending: bool): Machine {
    var w1 := if retiring || pending then Quiesce(w, env) else w;
    Finish(RetireAll(w1, p, KINDS), p, retiring, pending)
  }

  function MigrationApply(w: Machine, p: Plan, env: Observed): Machine {
    if !VendorIntact(w.files, p) then Refuse(w, VendorMismatch)
    else if !AllClean(w.files, p) then Refuse(w, CustomDefinition)
    else if AnyOld(w.files) && w.files.Get(TimerReceipt) != Some(LegacyRevision(p)) then Refuse(w, WrongReceipt)
    else
      Migrate(Prepare(w, p, env), p, env, AnyOld(w.files), w.files.Get(TimerReceipt) != Some(ImageRevision(p)))
  }

  predicate AllRestorable(files: Files, p: Plan) {
    && Known(files, Definition(Config), p.config)
    && Known(files, Definition(Service), p.service)
    && Known(files, Definition(Timer), p.timer)
  }

  function ApplyForHost(w: Machine, p: Plan, env: Observed): Machine {
    if p.sources == [] then w
    else if w.files.Has(ImageMarker) then MigrationApply(w, p, env)
    else if AnyImage(w.files) then Refuse(w, PartialImage)
    else if AnyArchive(w.files) && !AllRestorable(w.files, p) then Refuse(w, CustomRollback)
    else LegacyApply(w, p, env)
  }
}
