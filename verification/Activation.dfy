/** Receipted activation: write the definitions, restart the consumer, then write the receipt. */
module Activation {
  import opened Runs
  import opened Machine

  datatype ConsumerKind = Persistent | OneShot

  datatype Action = NoAction | Started | Restarted

  datatype Outcome = Outcome(definitionChanged: bool, action: Action, recovered: bool)

  datatype Request = Request(
    unit: Unit,
    receipt: Path,
    revision: Bytes,
    definitionChanged: bool,
    reload: bool,
    kind: ConsumerKind)

  predicate Pending(w: Machine, q: Request) {
    w.files.Get(q.receipt) != Some(q.revision)
  }

  predicate Needed(w: Machine, q: Request) {
    q.definitionChanged || Pending(w, q)
  }

  function Choice(kind: ConsumerKind, needed: bool, active: bool): Action {
    match (kind, needed, active)
    case (Persistent, true, _) => Restarted
    case (OneShot, true, true) => Restarted
    case (Persistent, false, false) => Started
    case (OneShot, true, false) => Started
    case _ => NoAction
  }

  function Act(w: Machine, u: Unit, action: Action): Machine {
    match action
    case Restarted => RestartUnit(w, u)
    case Started => StartUnit(w, u)
    case NoAction => w
  }

  function Activate(w: Machine, q: Request): Machine {
    var needed := Needed(w, q);
    var w1 := if needed && q.reload then DaemonReload(w) else w;
    var w2 := Act(w1, q.unit, Choice(q.kind, needed, w1.active.Has(q.unit)));
    if needed then EnsureFile(w2, q.receipt, q.revision) else w2
  }

  /** The report says what was found and what was done about it. */
  method ActivateConsumer(host: Host, q: Request) returns (r: Status<Outcome, Halt>)
    requires host.halt == Running
    modifies host
    ensures host.Snapshot() == Activate(old(host.Snapshot()), q) && host.Reports(r)
    ensures r.Ok? ==> Reported(old(host.files).Get(q.receipt) != Some(q.revision), old(host.active).Has(q.unit), q, r.value)
  {
    var pending := host.files.Get(q.receipt) != Some(q.revision);
    var needed := q.definitionChanged || pending;
    if needed && q.reload {
      var _ :- host.Reload();
    }
    var active := host.active.Has(q.unit);
    var action := NoAction;
    match (q.kind, needed, active) {
      case (Persistent, true, _) =>
        var _ :- host.Restart(q.unit);
        action := Restarted;
      case (OneShot, true, true) =>
        var _ :- host.Restart(q.unit);
        action := Restarted;
      case (Persistent, false, false) =>
        var _ :- host.Start(q.unit);
        action := Started;
      case (OneShot, true, false) =>
        var _ :- host.Start(q.unit);
        action := Started;
      case _ =>
    }
    if needed {
      var _ :- host.Ensure(q.receipt, q.revision);
    }
    return Ok(Outcome(q.definitionChanged, action, pending && !q.definitionChanged));
  }

  predicate Reported(pending: bool, active: bool, q: Request, o: Outcome) {
    && o.definitionChanged == q.definitionChanged
    && (o.recovered <==> pending && !q.definitionChanged)
    && (o.action == Restarted <==> (pending || q.definitionChanged) && (q.kind == Persistent || active))
    && (o.action == Started <==> !active && ((pending || q.definitionChanged) == (q.kind == OneShot)))
  }

  /** Everything an activation can leave behind, however early it was cut. */
  ghost predicate ActivateShape(w: Machine, q: Request, r: Machine) {
    var needed := q.definitionChanged || w.files.Get(q.receipt) != Some(q.revision);
    var starting := q.kind == Persistent && !needed && !w.active.Has(q.unit);
    var manager := if needed && q.reload then w.files else w.loaded;
    var launched := w.started.Put(q.unit, Launch(manager, w.files, w.starts));
    && (r.Live() || r.halt == Died)
    && r.files == (if r.Live() && needed then w.files.Put(q.receipt, q.revision) else w.files)
    && (r.loaded == w.loaded || (needed && q.reload && r.loaded == w.files))
    && ((r.started == w.started && r.starts == w.starts) || (r.started == launched && r.loaded == manager && r.starts == w.starts + 1))
    && (r.Live() && (needed || starting) ==>
      r.started == launched && r.starts == w.starts + 1 && r.loaded == manager && r.active.Has(q.unit))
    && (r.Live() && q.kind == Persistent ==> r.active.Has(q.unit))
    && (forall u :: u != q.unit ==> r.active.Has(u) == w.active.Has(u))
    && (w.fuel >= 4 ==> r.Live())
    && (!needed && !starting ==> r == w)
    && r.dirs == w.dirs && r.links == w.links && r.quarantine == w.quarantine
  }

  lemma ActivateHasShape(w: Machine, q: Request)
    requires w.Live()
    ensures ActivateShape(w, q, Activate(w, q))
  {
    var needed := Needed(w, q);
    var w1 := if needed && q.reload then DaemonReload(w) else w;
    if w1.Live() {
      ActShape(w1, q.unit, Choice(q.kind, needed, w1.active.Has(q.unit)));
    }
    if !Pending(w, q) {
      assert w.files == w.files.Put(q.receipt, q.revision);
    }
  }

  lemma ActShape(w: Machine, u: Unit, action: Action)
    requires w.Live()
    ensures var r := Act(w, u, action);
      && (r.Live() || r.halt == Died)
      && r == w.(active := r.active, started := r.started, starts := r.starts, fuel := r.fuel, halt := r.halt)
      && ((r.started == w.started && r.starts == w.starts)
          || (r.started == w.started.Put(u, Launch(w.loaded, w.files, w.starts)) && r.starts == w.starts + 1))
      && (r.Live() && action != NoAction ==> r.active.Has(u))
      && (r.Live() && (action == Restarted || (action == Started && !w.active.Has(u))) ==>
            r.started == w.started.Put(u, Launch(w.loaded, w.files, w.starts)) && r.starts == w.starts + 1)
      && (forall v :: v != u ==> r.active.Has(v) == w.active.Has(v))
      && (action == NoAction ==> r == w)
      && (w.fuel >= 2 ==> r.Live() && r.fuel >= w.fuel - 2)
  {
  }

  // Callers of `activate` -----------------------------------------------------------------------

  type Definitions = seq<(Path, Bytes)>

  /** A consumer with its definitions, as the callers of `activate` converge it. */
  datatype Target = Target(
    defs: Definitions,
    unit: Unit,
    receipt: Path,
    revision: Bytes,
    kind: ConsumerKind,
    reload: bool)

  ghost predicate Distinct(defs: Definitions) {
    forall i, j :: 0 <= i < j < |defs| ==> defs[i].0 != defs[j].0
  }

  ghost predicate ValidTarget(t: Target) {
    && Distinct(t.defs)
    && (forall i :: 0 <= i < |t.defs| ==> t.defs[i].0 != t.receipt)
    && (t.reload || forall i :: 0 <= i < |t.defs| ==> !IsUnitFile(t.defs[i].0))
  }

  function WriteAll(w: Machine, defs: Definitions): Machine
    decreases |defs|
  {
    if defs == [] then w else WriteAll(EnsureFile(w, defs[0].0, defs[0].1), defs[1..])
  }

  /** How many definitions are not in place. */
  function Missing(files: Files, defs: Definitions): nat
    decreases |defs|
  {
    if defs == [] then 0 else
    (if files.Get(defs[0].0) == Some(defs[0].1) then 0 else 1) + Missing(files, defs[1..])
  }

  function RequestOf(t: Target, changed: bool): Request {
    Request(t.unit, t.receipt, t.revision, changed, t.reload, t.kind)
  }

  function Converge(w: Machine, t: Target): Machine {
    var w1 := WriteAll(w, t.defs);
    if w1.Live() then Activate(w1, RequestOf(t, Missing(w.files, t.defs) > 0)) else w1
  }

  ghost predicate Placed(files: Files, defs: Definitions) {
    forall i :: 0 <= i < |defs| ==> files.Get(defs[i].0) == Some(defs[i].1)
  }

  ghost predicate LoadedCurrent(loaded: Files, defs: Definitions) {
    forall i :: 0 <= i < |defs| && IsUnitFile(defs[i].0) ==> loaded.Get(defs[i].0) == Some(defs[i].1)
  }

  /** The consumer's last start found every definition at its target. */
  ghost predicate Consumed(started: Launches, u: Unit, defs: Definitions) {
    started.Has(u) && forall i :: 0 <= i < |defs| ==> started.Of(u).Seen(defs[i].0) == Some(defs[i].1)
  }

  ghost predicate Holds(w: Machine, t: Target) {
    LoadedCurrent(w.loaded, t.defs) && Consumed(w.started, t.unit, t.defs)
  }

  predicate Receipted(w: Machine, t: Target) {
    w.files.Get(t.receipt) == Some(t.revision)
  }

  /** A receipt at its target speaks the truth. */
  ghost predicate Faithful(w: Machine, t: Target) {
    Receipted(w, t) ==> Placed(w.files, t.defs) && Holds(w, t)
  }

  ghost predicate Elsewhere(p: Path, defs: Definitions) {
    forall i :: 0 <= i < |defs| ==> defs[i].0 != p
  }

  lemma {:induction false} MissingFrame(f: Files, g: Files, defs: Definitions)
    requires forall i :: 0 <= i < |defs| ==> f.Get(defs[i].0) == g.Get(defs[i].0)
    ensures Missing(f, defs) == Missing(g, defs)
    decreases |defs|
  {
    if defs != [] {
      assert forall i :: 0 <= i < |defs[1..]| ==> defs[1..][i] == defs[i + 1];
      MissingFrame(f, g, defs[1..]);
    }
  }

  lemma {:induction false} NothingMissing(files: Files, defs: Definitions)
    ensures Missing(files, defs) <= |defs|
    ensures Missing(files, defs) == 0 <==> Placed(files, defs)
    decreases |defs|
  {
    if defs != [] {
      var tail := defs[1..];
      assert forall i :: 0 <= i < |tail| ==> tail[i] == defs[i + 1];
      NothingMissing(files, tail);
      if Missing(files, defs) == 0 {
        forall i | 0 <= i < |defs| ensures files.Get(defs[i].0) == Some(defs[i].1) {
          if i > 0 { assert defs[i] == tail[i - 1]; }
        }
      }
    }
  }

  /** Writing the definitions touches only their paths, places all of them unless it is killed, and
      costs one effect for each definition that is not in place yet. */
  lemma {:induction false} WriteAllSound(w: Machine, defs: Definitions)
    requires w.Live() && Distinct(defs)
    ensures var r := WriteAll(w, defs);
      && r == w.(files := r.files, fuel := r.fuel, halt := r.halt)
      && (r.Live() <==> w.fuel >= Missing(w.files, defs))
      && (r.Live() || r.halt == Died)
      && (r.Live() ==> Placed(r.files, defs) && r.fuel == w.fuel - Missing(w.files, defs))
      && (forall p :: Elsewhere(p, defs) ==> r.files.Get(p) == w.files.Get(p))
      && (forall i :: 0 <= i < |defs| ==> r.files.Get(defs[i].0) in {w.files.Get(defs[i].0), Some(defs[i].1)})
      && (Missing(w.files, defs) == 0 ==> r == w)
    decreases |defs|
  {
    if defs != [] {
      var head, tail := defs[0], defs[1..];
      assert forall i :: 0 <= i < |tail| ==> tail[i] == defs[i + 1];
      var w1 := EnsureFile(w, head.0, head.1);
      MissingFrame(w.files, w1.files, tail);
      assert WriteAll(w, defs) == WriteAll(w1, tail);
      if w1.Live() {
        WriteAllSound(w1, tail);
        var r := WriteAll(w1, tail);
        assert Elsewhere(head.0, tail);
        forall p | Elsewhere(p, defs) ensures r.files.Get(p) == w.files.Get(p) {
          assert p != defs[0].0 && Elsewhere(p, tail);
        }
        forall i | 0 <= i < |defs|
          ensures r.files.Get(defs[i].0) in {w.files.Get(defs[i].0), Some(defs[i].1)}
          ensures r.Live() ==> r.files.Get(defs[i].0) == Some(defs[i].1)
        {
          if i > 0 { assert defs[i] == tail[i - 1]; }
        }
      } else {
        WriteAllHalted(w1, tail);
      }
    }
  }

  lemma {:induction false} WriteAllHalted(w: Machine, defs: Definitions)
    requires !w.Live()
    ensures WriteAll(w, defs) == w
    decreases |defs|
  {
    if defs != [] { WriteAllHalted(EnsureFile(w, defs[0].0, defs[0].1), defs[1..]); }
  }

  lemma ActivateSound(w: Machine, t: Target, changed: bool, r: Machine)
    requires ValidTarget(t) && Placed(w.files, t.defs)
    requires Faithful(w, t) && (changed ==> !Receipted(w, t))
    requires ActivateShape(w, RequestOf(t, changed), r)
    ensures Faithful(r, t)
    ensures r.Live() ==> Receipted(r, t) && Placed(r.files, t.defs)
  {
  }

  /** No crash of a run makes its receipt lie; a run that survives leaves the receipt at its target. */
  lemma ConvergeFaithful(w: Machine, t: Target)
    requires w.Live() && ValidTarget(t) && Faithful(w, t)
    ensures var r := Converge(w, t);
      && Faithful(r, t)
      && (w.fuel >= |t.defs| + 4 ==> r.Live())
      && (r.Live() ==> Receipted(r, t) && (t.kind == Persistent ==> r.active.Has(t.unit)))
  {
    WriteAllSound(w, t.defs);
    NothingMissing(w.files, t.defs);
    var w1, changed := WriteAll(w, t.defs), Missing(w.files, t.defs) > 0;
    assert Elsewhere(t.receipt, t.defs);
    if w1.Live() {
      ActivateHasShape(w1, RequestOf(t, changed));
      ActivateSound(w1, t, changed, Activate(w1, RequestOf(t, changed)));
    }
  }

  /** After a completed run the next one changes nothing. */
  lemma ConvergeIdle(w: Machine, t: Target)
    requires w.Live() && ValidTarget(t) && Faithful(w, t) && Receipted(w, t)
    requires t.kind == Persistent ==> w.active.Has(t.unit)
    ensures Converge(w, t) == w
  {
    NothingMissing(w.files, t.defs);
    WriteAllSound(w, t.defs);
    ActivateHasShape(w, RequestOf(t, false));
  }

  /** Between runs any service may exit on its own. */
  datatype Retry = Retry(fuel: nat) | Quits(unit: Unit)

  /** A new process with a budget of effects. */
  function Fresh(w: Machine, fuel: nat): Machine {
    w.(fuel := fuel, halt := Running)
  }

  function RetryAll(w: Machine, t: Target, history: seq<Retry>): Machine
    decreases |history|
  {
    if history == [] then w else
    var w1 := match history[0]
      case Retry(n) => Converge(Fresh(w, n), t)
      case Quits(u) => w.(active := w.active.Remove(u));
    RetryAll(w1, t, history[1..])
  }

  lemma {:induction false} ReceiptsAreFaithful(w: Machine, t: Target, history: seq<Retry>)
    requires ValidTarget(t) && Faithful(w, t)
    ensures Faithful(RetryAll(w, t, history), t)
    decreases |history|
  {
    if history != [] {
      match history[0] {
        case Retry(n) =>
          ConvergeFaithful(Fresh(w, n), t);
          ReceiptsAreFaithful(Converge(Fresh(w, n), t), t, history[1..]);
        case Quits(u) =>
          ReceiptsAreFaithful(w.(active := w.active.Remove(u)), t, history[1..]);
      }
    }
  }

  /** Whatever crashed before, one run that is allowed to finish settles the consumer, and the run
      after it has no effect at all, however early it is cut. */
  lemma AnyHistoryIsRepaired(w: Machine, t: Target, history: seq<Retry>, enough: nat, again: nat)
    requires ValidTarget(t) && Faithful(w, t)
    requires enough >= |t.defs| + 4
    ensures var r := Converge(Fresh(RetryAll(w, t, history), enough), t);
      && r.Live()
      && Receipted(r, t) && Placed(r.files, t.defs) && Consumed(r.started, t.unit, t.defs)
      && (t.kind == Persistent ==> r.active.Has(t.unit))
      && Converge(Fresh(r, again), t) == Fresh(r, again)
  {
    ReceiptsAreFaithful(w, t, history);
    var w1 := Fresh(RetryAll(w, t, history), enough);
    ConvergeFaithful(w1, t);
    ConvergeIdle(Fresh(Converge(w1, t), again), t);
  }

  // Changing the target -------------------------------------------------------------------------

  /** The receipt and the files say "settled", but the consumer or the manager holds something else:
      no later run of this target would notice. */
  ghost predicate Stale(w: Machine, t: Target) {
    Receipted(w, t) && Placed(w.files, t.defs) && !Holds(w, t)
  }

  /** Some crash of a run leaves a stale host exactly when the run starts from a receipt that already
      names its target while the consumer does not hold it. */
  lemma StaleReachableIff(w: Machine, t: Target)
    requires ValidTarget(t)
    ensures (exists n: nat :: Stale(Converge(Fresh(w, n), t), t)) <==> Receipted(w, t) && !Holds(w, t)
  {
    assert Elsewhere(t.receipt, t.defs);
    if Receipted(w, t) && !Holds(w, t) {
      var n := Missing(w.files, t.defs);
      CutAfterWriting(Fresh(w, n), t);
      assert Stale(Converge(Fresh(w, n), t), t);
    } else {
      forall n: nat ensures !Stale(Converge(Fresh(w, n), t), t) {
        NoNewStaleness(Fresh(w, n), t);
      }
    }
  }

  lemma CutAfterWriting(w: Machine, t: Target)
    requires w.Live() && ValidTarget(t) && Receipted(w, t) && w.fuel == Missing(w.files, t.defs)
    ensures var r := Converge(w, t);
      Receipted(r, t) && Placed(r.files, t.defs) && r.loaded == w.loaded && r.started == w.started
  {
    WriteAllSound(w, t.defs);
    assert Elsewhere(t.receipt, t.defs);
    var w1 := WriteAll(w, t.defs);
    assert Spend(w1) == w1.(halt := Died);
  }

  lemma NoNewStaleness(w: Machine, t: Target)
    requires w.Live() && ValidTarget(t)
    requires Receipted(w, t) ==> Holds(w, t)
    ensures !Stale(Converge(w, t), t)
  {
    WriteAllSound(w, t.defs);
    NothingMissing(w.files, t.defs);
    assert Elsewhere(t.receipt, t.defs);
    var w1, changed := WriteAll(w, t.defs), Missing(w.files, t.defs) > 0;
    if w1.Live() {
      ActivateHasShape(w1, RequestOf(t, changed));
      NotStaleAfter(w1, t, changed, Activate(w1, RequestOf(t, changed)));
    }
  }

  lemma NotStaleAfter(w: Machine, t: Target, changed: bool, r: Machine)
    requires ValidTarget(t) && Placed(w.files, t.defs)
    requires Receipted(w, t) ==> Holds(w, t)
    requires ActivateShape(w, RequestOf(t, changed), r)
    ensures !Stale(r, t)
  {
  }

  /** The rule that avoids it: once a run for the new target has finished, after any cut retries of it,
      the receipt is faithful for both targets, so either may be converged next. */
  lemma FinishedSwitchIsSafe(w: Machine, t: Target, u: Target, history: seq<Retry>, enough: nat)
    requires ValidTarget(t) && ValidTarget(u) && enough >= |u.defs| + 4
    requires t.receipt == u.receipt && t.revision != u.revision && Receipted(w, t)
    ensures var r := Converge(Fresh(RetryAll(w, u, history), enough), u);
      r.Live() && Receipted(r, u) && Faithful(r, u) && Faithful(r, t)
  {
    assert Faithful(w, u);
    ReceiptsAreFaithful(w, u, history);
    ConvergeFaithful(Fresh(RetryAll(w, u, history), enough), u);
  }

  function Single(p: Path, unit: Unit, receipt: Path, content: Bytes): Target {
    Target([(p, content)], unit, receipt, content, Persistent, true)
  }

  /** How a lying receipt arises: a unit settled at one definition, a run for a second definition cut
      after `n` effects, then a run for the first one cut after `m`. */
  lemma TargetSwitchWindow(w: Machine, p: Path, unit: Unit, receipt: Path, a: Bytes, b: Bytes, n: nat, m: nat)
    requires IsUnitFile(p) && p != receipt && a != b
    requires Faithful(w, Single(p, unit, receipt, a)) && Receipted(w, Single(p, unit, receipt, a))
    ensures var mid := Converge(Fresh(w, n), Single(p, unit, receipt, b));
      var end := Converge(Fresh(mid, m), Single(p, unit, receipt, a));
      Stale(end, Single(p, unit, receipt, a)) <==> (n in {2, 3, 4} && m == 1) || (n == 4 && m in {2, 3})
  {
    var first, second := Single(p, unit, receipt, a), Single(p, unit, receipt, b);
    assert first.defs[0] == (p, a);
    SingleRun(Fresh(w, n), p, unit, receipt, b);
    var mid := Converge(Fresh(w, n), second);
    SingleRun(Fresh(mid, m), p, unit, receipt, a);
    var end := Converge(Fresh(mid, m), first);
    assert Stale(end, first) == (Receipted(end, first) && end.files.Get(p) == Some(a)
      && !(end.loaded.Get(p) == Some(a) && end.started.Has(unit) && end.started.Of(unit).loaded.Get(p) == Some(a)));
  }

  /** A run that has to write its one definition, effect by effect; and one that has nothing to do. */
  lemma SingleRun(w: Machine, p: Path, unit: Unit, receipt: Path, content: Bytes)
    requires w.Live() && p != receipt
    requires w.files.Get(p) != Some(content) || w.files.Get(receipt) == Some(content)
    ensures var r := Converge(w, Single(p, unit, receipt, content));
      var written := w.files.Put(p, content);
      if w.files.Get(p) == Some(content) then
        r.files == w.files && r.loaded == w.loaded &&
        (r.started == w.started || r.started == w.started.Put(unit, Launch(w.loaded, w.files, w.starts)))
      else
        && (forall q :: r.files.Get(q) == if w.fuel >= 5 && q == receipt then Some(content)
                                         else if w.fuel >= 1 then written.Get(q) else w.files.Get(q))
        && r.loaded == (if w.fuel >= 2 then written else w.loaded)
        && r.started == (if w.fuel >= 4 then w.started.Put(unit, Launch(written, written, w.starts)) else w.started)
  {
    var defs := [(p, content)];
    assert defs[1..] == [];
    assert WriteAll(w, defs) == EnsureFile(w, p, content);
    assert Missing(w.files, defs) == if w.files.Get(p) == Some(content) then 0 else 1;
  }
}
