/** The host as file and service effects see it: files, the service manager's view of them, services,
    and a budget of effects after which the process is killed. */
module Machine {
  import opened Runs

  type Bytes = string

  /** The three definitions of the snapshot service. */
  datatype Kind = Config | Service | Timer

  datatype Path =
    | Definition(kind: Kind)
    | Archive(kind: Kind)
    | ImageMarker
    | ImageDefinition(kind: Kind)
    | TimerReceipt
    | BluetoothPolicy
    | BluetoothPolicyUnit
    | BluetoothReady
    | BluetoothBrokerUnit
    | PolicyReceipt
    | BrokerReceipt
    | OtherPath(name: string)

  datatype Dir = EtcBtrbk | BtrbkState | Snapshots(source: Bytes) | BluetoothEtc | BluetoothState

  datatype Unit = BtrbkTimer | BluetoothPolicyService | BluetoothBroker | OtherUnit(name: string)

  /** Unit files are seen through the manager's last reload, other files are read at start. */
  predicate IsUnitFile(p: Path) {
    match p
    case Definition(k) => k != Config
    case ImageDefinition(k) => k != Config
    case BluetoothPolicyUnit => true
    case BluetoothBrokerUnit => true
    case _ => false
  }

  datatype Files = Files(at: map<Path, Bytes>) {
    predicate Has(p: Path) { p in at }
    function Get(p: Path): Option<Bytes> { if p in at then Some(at[p]) else None }
    function Put(p: Path, content: Bytes): Files { Files(at[p := content]) }
    function Remove(p: Path): Files { Files(at - {p}) }
  }

  /** What a service found when it was last started, and the position of that start among all starts. */
  datatype Launch = Launch(loaded: Files, files: Files, at: nat) {
    function Seen(p: Path): Option<Bytes> {
      if IsUnitFile(p) then loaded.Get(p) else files.Get(p)
    }
  }

  datatype Launches = Launches(last: map<Unit, Launch>) {
    predicate Has(u: Unit) { u in last }
    function Of(u: Unit): Launch requires Has(u) { last[u] }
    function Put(u: Unit, launch: Launch): Launches { Launches(last[u := launch]) }
  }

  datatype Units = Units(members: set<Unit>) {
    predicate Has(u: Unit) { u in members }
    function Add(u: Unit): Units { Units(members + {u}) }
    function Remove(u: Unit): Units { Units(members - {u}) }
  }

  datatype Dirs = Dirs(members: set<Dir>) {
    predicate Has(d: Dir) { d in members }
    function Add(d: Dir): Dirs { Dirs(members + {d}) }
  }

  /** Which unit file each enablement link points at. */
  datatype Links = Links(to: map<Unit, Path>) {
    function Get(u: Unit): Option<Path> { if u in to then Some(to[u]) else None }
    function Put(u: Unit, file: Path): Links { Links(to[u := file]) }
  }

  /** Retired duplicates, kept beside the archives. */
  datatype Copies = Copies(of: multiset<(Kind, Bytes)>) {
    function Add(k: Kind, content: Bytes): Copies { Copies(of + multiset{(k, content)}) }
  }

  datatype Halt =
    | Running
    | Died
    | Storage
    | VendorMismatch
    | PartialImage
    | CustomDefinition
    | CustomRollback
    | WrongReceipt
    | SnapshotRunning
    | SnapshotStartedFirst
    | UnknownContent

  datatype Machine = Machine(
    files: Files,
    quarantine: Copies,
    dirs: Dirs,
    loaded: Files,
    links: Links,
    active: Units,
    started: Launches,
    starts: nat,
    fuel: nat,
    halt: Halt)
  {
    predicate Live() { halt == Running }
  }

  /** One effect's worth of life. A halted process has no further effects. */
  function Spend(w: Machine): Machine {
    if w.halt != Running then w
    else if w.fuel == 0 then w.(halt := Died)
    else w.(fuel := w.fuel - 1)
  }

  function Refuse(w: Machine, why: Halt): Machine {
    if w.Live() then w.(halt := why) else w
  }

  /** Atomic replacement; nothing happens when the content is already there. */
  function EnsureFile(w: Machine, p: Path, content: Bytes): Machine {
    if w.files.Get(p) == Some(content) then w else
    var w1 := Spend(w);
    if w1.Live() then w1.(files := w1.files.Put(p, content)) else w1
  }

  function EnsureDir(w: Machine, d: Dir): Machine {
    if w.dirs.Has(d) then w else
    var w1 := Spend(w);
    if w1.Live() then w1.(dirs := w1.dirs.Add(d)) else w1
  }

  function DaemonReload(w: Machine): Machine {
    var w1 := Spend(w);
    if w1.Live() then w1.(loaded := w1.files) else w1
  }

  /** Starting an active unit leaves it as it is. */
  function StartUnit(w: Machine, u: Unit): Machine {
    var w1 := Spend(w);
    if w1.Live() && !w1.active.Has(u) then
      w1.(active := w1.active.Add(u),
          started := w1.started.Put(u, Launch(w1.loaded, w1.files, w1.starts)),
          starts := w1.starts + 1)
    else w1
  }

  function StopUnit(w: Machine, u: Unit): Machine {
    var w1 := Spend(w);
    if w1.Live() then w1.(active := w1.active.Remove(u)) else w1
  }

  /** A restart cut half-way leaves the service stopped. */
  function RestartUnit(w: Machine, u: Unit): Machine {
    StartUnit(StopUnit(w, u), u)
  }

  /** Points the enablement link at the unit file given. */
  function LinkUnit(w: Machine, u: Unit, file: Path): Machine {
    var w1 := Spend(w);
    if w1.Live() then w1.(links := w1.links.Put(u, file)) else w1
  }

  /** The host as an object: each method is one effect and leaves the state its function describes. */
  class Host {
    var files: Files
    ghost var quarantine: Copies
    var dirs: Dirs
    ghost var loaded: Files
    ghost var links: Links
    var active: Units
    ghost var started: Launches
    ghost var starts: nat
    var fuel: nat
    var halt: Halt

    ghost function Snapshot(): Machine
      reads this
    {
      Machine(files, quarantine, dirs, loaded, links, active, started, starts, fuel, halt)
    }

    /** The method ends with an error exactly when the process halted, and for that reason. */
    ghost predicate Reports<T>(r: Status<T, Halt>)
      reads this
    {
      if r.Ok? then halt == Running else halt == r.error && halt != Running
    }

    method Pay() returns (r: Status<(), Halt>)
      requires halt == Running
      modifies this`fuel, this`halt
      ensures Snapshot() == Spend(old(Snapshot())) && Reports(r)
    {
      if fuel == 0 {
        halt := Died;
        return Err(Died);
      }
      fuel := fuel - 1;
      return Ok(());
    }

    method Fail<T>(why: Halt) returns (r: Status<T, Halt>)
      requires halt == Running && why != Running
      modifies this`halt
      ensures Snapshot() == Refuse(old(Snapshot()), why) && Reports(r) && r.Err?
    {
      halt := why;
      return Err(why);
    }

    method Ensure(p: Path, content: Bytes) returns (r: Status<bool, Halt>)
      requires halt == Running
      modifies this
      ensures Snapshot() == EnsureFile(old(Snapshot()), p, content) && Reports(r)
      ensures r.Ok? ==> (r.value <==> old(files).Get(p) != Some(content))
    {
      if files.Get(p) == Some(content) { return Ok(false); }
      var _ :- Pay();
      files := files.Put(p, content);
      return Ok(true);
    }

    method MakeDir(d: Dir) returns (r: Status<bool, Halt>)
      requires halt == Running
      modifies this
      ensures Snapshot() == EnsureDir(old(Snapshot()), d) && Reports(r)
    {
      if dirs.Has(d) { return Ok(false); }
      var _ :- Pay();
      dirs := dirs.Add(d);
      return Ok(true);
    }

    method Reload() returns (r: Status<(), Halt>)
      requires halt == Running
      modifies this
      ensures Snapshot() == DaemonReload(old(Snapshot())) && Reports(r)
    {
      var _ :- Pay();
      loaded := files;
      return Ok(());
    }

    method Start(u: Unit) returns (r: Status<(), Halt>)
      requires halt == Running
      modifies this
      ensures Snapshot() == StartUnit(old(Snapshot()), u) && Reports(r)
    {
      var _ :- Pay();
      if active.Has(u) { return Ok(()); }
      active := active.Add(u);
      started := started.Put(u, Launch(loaded, files, starts));
      starts := starts + 1;
      return Ok(());
    }

    method Stop(u: Unit) returns (r: Status<(), Halt>)
      requires halt == Running
      modifies this
      ensures Snapshot() == StopUnit(old(Snapshot()), u) && Reports(r)
    {
      var _ :- Pay();
      active := active.Remove(u);
      return Ok(());
    }

    method Restart(u: Unit) returns (r: Status<(), Halt>)
      requires halt == Running
      modifies this
      ensures Snapshot() == RestartUnit(old(Snapshot()), u) && Reports(r)
    {
      var _ :- Stop(u);
      var _ :- Start(u);
      return Ok(());
    }

    method Link(u: Unit, file: Path) returns (r: Status<(), Halt>)
      requires halt == Running
      modifies this
      ensures Snapshot() == LinkUnit(old(Snapshot()), u, file) && Reports(r)
    {
      var _ :- Pay();
      links := links.Put(u, file);
      return Ok(());
    }
  }
}
