/** Two chained activations: the bluetooth broker is converged after the policy it runs under. */
module Bluetooth {
  import opened Runs
  import opened Machine
  import opened Activation

  datatype Texts = Texts(policy: Bytes, policyUnit: Bytes, ready: Bytes, broker: Bytes)

  function PolicyTarget(x: Texts): Target {
    Target([(BluetoothPolicy, x.policy), (BluetoothPolicyUnit, x.policyUnit)],
           BluetoothPolicyService, PolicyReceipt, x.policy + x.policyUnit, OneShot, true)
  }

  function BrokerDefs(x: Texts): Definitions {
    [(BluetoothReady, x.ready), (BluetoothBrokerUnit, x.broker)]
  }

  function BrokerRevision(x: Texts): Bytes {
    x.policy + x.policyUnit + x.broker + x.ready
  }

  function BrokerRequest(x: Texts, changed: bool): Request {
    Request(BluetoothBroker, BrokerReceipt, BrokerRevision(x), changed, true, Persistent)
  }

  function Directories(w: Machine): Machine {
    EnsureDir(EnsureDir(w, BluetoothEtc), BluetoothState)
  }

  /** The broker half, told whether the policy half rewrote anything. */
  function ConvergeBroker(w: Machine, x: Texts, policyChanged: bool): Machine {
    var w1 := WriteAll(w, BrokerDefs(x));
    var w2 := LinkUnit(w1, BluetoothBroker, BluetoothBrokerUnit);
    if w2.Live() then Activate(w2, BrokerRequest(x, policyChanged || Missing(w.files, BrokerDefs(x)) > 0)) else w2
  }

  function Apply(w: Machine, x: Texts): Machine {
    var w1 := Directories(w);
    if !w1.Live() then w1 else
    var w2 := Converge(w1, PolicyTarget(x));
    if !w2.Live() then w2 else
    ConvergeBroker(w2, x, Missing(w1.files, PolicyTarget(x).defs) > 0)
  }

  method ApplyPolicy(host: Host, x: Texts) returns (r: Status<bool, Halt>)
    requires host.halt == Running
    modifies host
    ensures host.Snapshot() == Converge(old(host.Snapshot()), PolicyTarget(x)) && host.Reports(r)
    ensures r.Ok? ==> (r.value <==> Missing(old(host.files), PolicyTarget(x).defs) > 0)
  {
    TwoWrites(host.Snapshot(), (BluetoothPolicy, x.policy), (BluetoothPolicyUnit, x.policyUnit));
    var policyChanged :- host.Ensure(BluetoothPolicy, x.policy);
    var unitChanged :- host.Ensure(BluetoothPolicyUnit, x.policyUnit);
    var _ :- ActivateConsumer(host, RequestOf(PolicyTarget(x), policyChanged || unitChanged));
    return Ok(policyChanged || unitChanged);
  }

  method ApplyBroker(host: Host, x: Texts, policyChanged: bool) returns (r: Status<(), Halt>)
    requires host.halt == Running
    modifies host
    ensures host.Snapshot() == ConvergeBroker(old(host.Snapshot()), x, policyChanged) && host.Reports(r)
  {
    TwoWrites(host.Snapshot(), (BluetoothReady, x.ready), (BluetoothBrokerUnit, x.broker));
    var readyChanged :- host.Ensure(BluetoothReady, x.ready);
    var brokerChanged :- host.Ensure(BluetoothBrokerUnit, x.broker);
    var _ :- host.Link(BluetoothBroker, BluetoothBrokerUnit);
    var _ :- ActivateConsumer(host, BrokerRequest(x, brokerChanged || readyChanged || policyChanged));
    return Ok(());
  }

  method ApplyHost(host: Host, x: Texts) returns (r: Status<(), Halt>)
    requires host.halt == Running
    modifies host
    ensures host.Snapshot() == Apply(old(host.Snapshot()), x) && host.Reports(r)
  {
    hide Converge, ConvergeBroker;
    var _ :- host.MakeDir(BluetoothEtc);
    var _ :- host.MakeDir(BluetoothState);
    var policyChanged :- ApplyPolicy(host, x);
    r := ApplyBroker(host, x, policyChanged);
  }

  lemma TwoWrites(w: Machine, a: (Path, Bytes), b: (Path, Bytes))
    requires a.0 != b.0
    ensures WriteAll(w, [a, b]) == EnsureFile(EnsureFile(w, a.0, a.1), b.0, b.1)
    ensures (Missing(w.files, [a, b]) > 0) == (w.files.Get(a.0) != Some(a.1) || w.files.Get(b.0) != Some(b.1))
  {
    assert [a, b][1..] == [b] && [b][1..] == [];
    assert WriteAll(w, [a, b]) == WriteAll(EnsureFile(w, a.0, a.1), [b]);
    assert Missing(w.files, [a, b]) == (if w.files.Get(a.0) == Some(a.1) then 0 else 1) + Missing(w.files, [b]);
  }

  // What receipts mean --------------------------------------------------------------------------

  /** A broker receipt at its target: both halves hold their targets, and the broker's last start came
      after a policy start that saw the policy at its target. */
  ghost predicate BrokerTruth(w: Machine, x: Texts) {
    && Receipted(w, PolicyTarget(x))
    && Placed(w.files, BrokerDefs(x))
    && LoadedCurrent(w.loaded, BrokerDefs(x))
    && Consumed(w.started, BluetoothBroker, BrokerDefs(x))
    && Consumed(w.started, BluetoothBroker, PolicyTarget(x).defs)
    && Consumed(w.started, BluetoothPolicyService, PolicyTarget(x).defs)
    && w.started.Of(BluetoothPolicyService).at < w.started.Of(BluetoothBroker).at
  }

  predicate BrokerReceipted(w: Machine, x: Texts) {
    w.files.Get(BrokerReceipt) == Some(BrokerRevision(x))
  }

  ghost predicate Chain(w: Machine, x: Texts) {
    && Faithful(w, PolicyTarget(x))
    && (BrokerReceipted(w, x) ==> BrokerTruth(w, x))
    && Ordered(w)
  }

  ghost predicate Ordered(w: Machine) {
    forall u :: w.started.Has(u) ==> w.started.Of(u).at < w.starts
  }

  lemma StartsOrdered(w: Machine, q: Request, r: Machine)
    requires Ordered(w) && ActivateShape(w, q, r)
    ensures Ordered(r)
  {
    forall u | r.started.Has(u) ensures r.started.Of(u).at < r.starts {
      if u != q.unit { assert w.started.Has(u); }
      assert w.started.Has(u) ==> w.started.Of(u).at < w.starts;
    }
  }

  /** Everything the policy half can leave behind. */
  ghost predicate PolicyShape(w: Machine, x: Texts, r: Machine) {
    var t := PolicyTarget(x);
    && Faithful(r, t)
    && Ordered(r)
    && (forall q :: q != BluetoothPolicy && q != BluetoothPolicyUnit && q != PolicyReceipt ==> r.files.Get(q) == w.files.Get(q))
    && (r.Live() ==> Receipted(r, t))
    && (w.fuel >= 6 ==> r.Live() && r.fuel + 6 >= w.fuel)
    && (Receipted(w, t) ==> r == w)
  }

  lemma PolicyHasShape(w: Machine, x: Texts)
    requires w.Live() && Faithful(w, PolicyTarget(x)) && Ordered(w)
    ensures PolicyShape(w, x, Converge(w, PolicyTarget(x)))
  {
    hide Activate, WriteAll, Missing;
    var t := PolicyTarget(x);
    WriteAllSound(w, t.defs);
    NothingMissing(w.files, t.defs);
    var w1, changed := WriteAll(w, t.defs), Missing(w.files, t.defs) > 0;
    assert Elsewhere(t.receipt, t.defs);
    if Receipted(w, t) {
      ConvergeIdle(w, t);
    } else if w1.Live() {
      var r := Activate(w1, RequestOf(t, changed));
      ActivateHasShape(w1, RequestOf(t, changed));
      ActivateSound(w1, t, changed, r);
      StartsOrdered(w1, RequestOf(t, changed), r);
      ActivateFuel(w1, RequestOf(t, changed));
      forall q | q != BluetoothPolicy && q != BluetoothPolicyUnit && q != PolicyReceipt ensures r.files.Get(q) == w.files.Get(q) {
        assert Elsewhere(q, t.defs);
      }
    } else {
      forall q | q != BluetoothPolicy && q != BluetoothPolicyUnit && q != PolicyReceipt ensures w1.files.Get(q) == w.files.Get(q) {
        assert Elsewhere(q, t.defs);
      }
    }
  }

  lemma ActivateFuel(w: Machine, q: Request)
    requires w.Live()
    ensures w.fuel >= 4 ==> Activate(w, q).fuel + 4 >= w.fuel
  {
  }

  /** The broker's files written as far as the process got, then linked. */
  ghost predicate BrokerWritten(w: Machine, x: Texts, r: Machine) {
    && r == w.(files := r.files, links := r.links, fuel := r.fuel, halt := r.halt)
    && (r.Live() ==> Placed(r.files, BrokerDefs(x)))
    && (forall q :: q != BluetoothReady && q != BluetoothBrokerUnit ==> r.files.Get(q) == w.files.Get(q))
    && (Placed(w.files, BrokerDefs(x)) ==> r.files == w.files)
    && (w.fuel >= 3 ==> r.Live() && r.fuel + 3 >= w.fuel)
  }

  lemma BrokerIsWritten(w: Machine, x: Texts)
    requires w.Live()
    ensures BrokerWritten(w, x, LinkUnit(WriteAll(w, BrokerDefs(x)), BluetoothBroker, BluetoothBrokerUnit))
  {
    WriteAllSound(w, BrokerDefs(x));
    NothingMissing(w.files, BrokerDefs(x));
    var w1 := WriteAll(w, BrokerDefs(x));
    forall q | q != BluetoothReady && q != BluetoothBrokerUnit ensures w1.files.Get(q) == w.files.Get(q) {
      assert Elsewhere(q, BrokerDefs(x));
    }
  }

  /** What an activation of the broker leaves of the policy half. */
  lemma PolicyStays(w: Machine, x: Texts, changed: bool, w1: Machine, r: Machine)
    requires Faithful(w, PolicyTarget(x)) && Receipted(w, PolicyTarget(x)) && BrokerWritten(w, x, w1)
    requires if w1.Live() then ActivateShape(w1, BrokerRequest(x, changed), r) else r == w1
    ensures Faithful(r, PolicyTarget(x)) && Receipted(r, PolicyTarget(x))
  {
    PolicyFilesFrame(w, w1, x);
    assert Placed(r.files, PolicyTarget(x).defs) && Receipted(r, PolicyTarget(x));
  }

  /** A live activation that leaves the receipt at its target started the broker on both halves, or
      found it so. */
  lemma ReceiptIsTrue(w: Machine, x: Texts, changed: bool, w1: Machine, r: Machine)
    requires Chain(w, x) && Receipted(w, PolicyTarget(x)) && BrokerWritten(w, x, w1) && w1.Live()
    requires changed ==> !BrokerReceipted(w, x)
    requires ActivateShape(w1, BrokerRequest(x, changed), r)
    requires Receipted(r, PolicyTarget(x))
    ensures BrokerReceipted(r, x) ==> BrokerTruth(r, x)
    ensures r.Live() ==> BrokerReceipted(r, x) && r.active.Has(BluetoothBroker)
  {
    PolicyFilesFrame(w, w1, x);
    assert Placed(w.files, PolicyTarget(x).defs) && Placed(w1.files, PolicyTarget(x).defs);
  }

  lemma BrokerSound(w: Machine, x: Texts, changed: bool, w1: Machine, r: Machine)
    requires Chain(w, x) && Receipted(w, PolicyTarget(x)) && BrokerWritten(w, x, w1)
    requires changed ==> !BrokerReceipted(w, x)
    requires if w1.Live() then ActivateShape(w1, BrokerRequest(x, changed), r) else r == w1
    ensures Chain(r, x)
    ensures r.Live() ==> BrokerReceipted(r, x) && r.active.Has(BluetoothBroker)
  {
    PolicyStays(w, x, changed, w1, r);
    if w1.Live() {
      hide BrokerTruth, Faithful, Placed, Consumed, LoadedCurrent;
      StartsOrdered(w1, BrokerRequest(x, changed), r);
      ReceiptIsTrue(w, x, changed, w1, r);
    } else {
      PolicyFilesFrame(w, w1, x);
    }
  }

  lemma PolicyFilesFrame(w: Machine, w1: Machine, x: Texts)
    requires forall q :: q != BluetoothReady && q != BluetoothBrokerUnit ==> w1.files.Get(q) == w.files.Get(q)
    ensures Placed(w.files, PolicyTarget(x).defs) ==> Placed(w1.files, PolicyTarget(x).defs)
    ensures Receipted(w1, PolicyTarget(x)) == Receipted(w, PolicyTarget(x)) && BrokerReceipted(w1, x) == BrokerReceipted(w, x)
  {
  }

  lemma ApplySound(w: Machine, x: Texts)
    requires w.Live() && Chain(w, x)
    ensures var r := Apply(w, x);
      && Chain(r, x)
      && (r.Live() ==> BrokerReceipted(r, x) && r.active.Has(BluetoothBroker))
      && (w.fuel >= 15 ==> r.Live())
  {
    hide Converge, ConvergeBroker, Faithful;
    var w1 := Directories(w);
    assert w1 == w.(dirs := w1.dirs, fuel := w1.fuel, halt := w1.halt);
    ChainFrame(w, w1, x);
    if w1.Live() {
      PolicyHalf(w1, x);
      var w2 := Converge(w1, PolicyTarget(x));
      if w2.Live() {
        var changed := Missing(w1.files, PolicyTarget(x).defs) > 0;
        BrokerHalf(w2, x, changed);
      }
    }
  }

  lemma ChainFrame(w: Machine, r: Machine, x: Texts)
    requires Chain(w, x) && r.files == w.files && r.loaded == w.loaded && r.started == w.started && r.starts == w.starts
    ensures Chain(r, x)
  {
  }

  lemma PolicyHalf(w: Machine, x: Texts)
    requires w.Live() && Chain(w, x)
    ensures var r := Converge(w, PolicyTarget(x));
      && Chain(r, x)
      && (r.Live() ==> Receipted(r, PolicyTarget(x)))
      && (Missing(w.files, PolicyTarget(x).defs) > 0 ==> !BrokerReceipted(r, x))
      && (w.fuel >= 6 ==> r.Live() && r.fuel + 6 >= w.fuel)
  {
    PolicyHasShape(w, x);
    NothingMissing(w.files, PolicyTarget(x).defs);
    PolicyChain(w, x, Converge(w, PolicyTarget(x)));
  }

  lemma PolicyChain(w: Machine, x: Texts, r: Machine)
    requires Chain(w, x) && PolicyShape(w, x, r)
    ensures Chain(r, x)
    ensures BrokerReceipted(r, x) ==> r == w && Placed(w.files, PolicyTarget(x).defs)
  {
    assert r.files.Get(BrokerReceipt) == w.files.Get(BrokerReceipt);
  }

  lemma BrokerHalf(w: Machine, x: Texts, changed: bool)
    requires w.Live() && Chain(w, x) && Receipted(w, PolicyTarget(x))
    requires changed ==> !BrokerReceipted(w, x)
    ensures var r := ConvergeBroker(w, x, changed);
      && Chain(r, x)
      && (r.Live() ==> BrokerReceipted(r, x) && r.active.Has(BluetoothBroker))
      && (w.fuel >= 7 ==> r.Live())
  {
    BrokerIsWritten(w, x);
    var w1 := LinkUnit(WriteAll(w, BrokerDefs(x)), BluetoothBroker, BluetoothBrokerUnit);
    var rewritten := changed || Missing(w.files, BrokerDefs(x)) > 0;
    NothingMissing(w.files, BrokerDefs(x));
    if w1.Live() { ActivateHasShape(w1, BrokerRequest(x, rewritten)); }
    BrokerSound(w, x, rewritten, w1, ConvergeBroker(w, x, changed));
  }

  function RetryAllBluetooth(w: Machine, x: Texts, history: seq<Retry>): Machine
    decreases |history|
  {
    if history == [] then w else
    var w1 := match history[0]
      case Retry(n) => Apply(Fresh(w, n), x)
      case Quits(u) => w.(active := w.active.Remove(u));
    RetryAllBluetooth(w1, x, history[1..])
  }

  /** Over every history of cut runs and exits, a broker receipt at its target means that the broker was
      last started after the policy it depends on reached its target; one finished run brings every
      receipt there. */
  lemma {:induction false} ChainHolds(w: Machine, x: Texts, history: seq<Retry>, enough: nat)
    requires Chain(w, x) && enough >= 15
    ensures var mid := RetryAllBluetooth(w, x, history);
      && Chain(mid, x)
      && var r := Apply(Fresh(mid, enough), x);
      r.Live() && BrokerReceipted(r, x) && BrokerTruth(r, x) && r.active.Has(BluetoothBroker)
    decreases |history|
  {
    hide Apply;
    if history == [] {
      ChainFrame(w, Fresh(w, enough), x);
      ApplySound(Fresh(w, enough), x);
    } else {
      match history[0] {
        case Retry(n) =>
          ChainFrame(w, Fresh(w, n), x);
          ApplySound(Fresh(w, n), x);
          ChainHolds(Apply(Fresh(w, n), x), x, history[1..], enough);
        case Quits(u) =>
          ChainFrame(w, w.(active := w.active.Remove(u)), x);
          ChainHolds(w.(active := w.active.Remove(u)), x, history[1..], enough);
      }
    }
  }

  lemma SettledBroker(w: Machine, x: Texts)
    requires w.Live() && Placed(w.files, BrokerDefs(x)) && BrokerReceipted(w, x) && w.active.Has(BluetoothBroker)
    ensures var r := ConvergeBroker(w, x, false);
      r.files == w.files && r.started == w.started && r.active == w.active && r.loaded == w.loaded
  {
    hide Activate;
    BrokerIsWritten(w, x);
    NothingMissing(w.files, BrokerDefs(x));
    var w2 := LinkUnit(WriteAll(w, BrokerDefs(x)), BluetoothBroker, BluetoothBrokerUnit);
    if w2.Live() { ActivateHasShape(w2, BrokerRequest(x, false)); }
  }

  /** A further run starts nothing and rewrites nothing. */
  lemma SettledChainIsIdle(w: Machine, x: Texts)
    requires w.Live() && Chain(w, x) && BrokerReceipted(w, x) && w.active.Has(BluetoothBroker)
    ensures var r := Apply(w, x);
      r.files == w.files && r.started == w.started && r.active == w.active && r.loaded == w.loaded
  {
    hide Converge, ConvergeBroker, Activate;
    var w1 := Directories(w);
    if w1.Live() {
      ChainFrame(w, w1, x);
      PolicyHasShape(w1, x);
      NothingMissing(w1.files, PolicyTarget(x).defs);
      SettledBroker(w1, x);
    }
  }

  // Whatever was there before ---------------------------------------------------------------------

  predicate PolicyOff(f: Files, x: Texts) {
    f.Get(BluetoothPolicy) != Some(x.policy) || f.Get(BluetoothPolicyUnit) != Some(x.policyUnit)
  }

  predicate BrokerOff(f: Files, x: Texts) {
    f.Get(BluetoothReady) != Some(x.ready) || f.Get(BluetoothBrokerUnit) != Some(x.broker)
  }

  /** A start since this many that found the policy at its target. */
  ghost predicate SawPolicy(w: Machine, u: Unit, x: Texts, since: nat) {
    && w.started.Has(u) && w.started.Of(u).at >= since
    && w.started.Of(u).Seen(BluetoothPolicy) == Some(x.policy) && w.started.Of(u).Seen(BluetoothPolicyUnit) == Some(x.policyUnit)
  }

  ghost predicate SawBroker(w: Machine, u: Unit, x: Texts) {
    && w.started.Has(u)
    && w.started.Of(u).Seen(BluetoothReady) == Some(x.ready) && w.started.Of(u).Seen(BluetoothBrokerUnit) == Some(x.broker)
  }

  /** What a finished policy half leaves, from any state. */
  ghost predicate PolicyDone(w: Machine, x: Texts, r: Machine) {
    && !PolicyOff(r.files, x) && r.files.Get(PolicyReceipt) == Some(x.policy + x.policyUnit)
    && (forall q :: q != BluetoothPolicy && q != BluetoothPolicyUnit && q != PolicyReceipt ==> r.files.Get(q) == w.files.Get(q))
    && r.dirs == w.dirs && r.starts >= w.starts
    && (PolicyOff(w.files, x) || w.files.Get(PolicyReceipt) != Some(x.policy + x.policyUnit) ==>
      SawPolicy(r, BluetoothPolicyService, x, w.starts) && r.started.Of(BluetoothPolicyService).at < r.starts)
  }

  lemma PolicyIsDone(w: Machine, x: Texts)
    requires w.Live() && Converge(w, PolicyTarget(x)).Live()
    ensures PolicyDone(w, x, Converge(w, PolicyTarget(x)))
  {
    hide Activate, WriteAll, Missing, PolicyDone, ActivateShape;
    var t := PolicyTarget(x);
    WriteAllSound(w, t.defs);
    NothingMissing(w.files, t.defs);
    var w1, changed := WriteAll(w, t.defs), Missing(w.files, t.defs) > 0;
    assert t.defs[0] == (BluetoothPolicy, x.policy) && t.defs[1] == (BluetoothPolicyUnit, x.policyUnit);
    assert changed <==> PolicyOff(w.files, x);
    ActivateHasShape(w1, RequestOf(t, changed));
    forall q | q != BluetoothPolicy && q != BluetoothPolicyUnit ensures w1.files.Get(q) == w.files.Get(q) {
      assert Elsewhere(q, t.defs);
    }
    assert !PolicyOff(w1.files, x) by {
      assert w1.files.Get(t.defs[0].0) == Some(t.defs[0].1) && w1.files.Get(t.defs[1].0) == Some(t.defs[1].1);
    }
    PolicyActivated(w, x, w1, changed, Activate(w1, RequestOf(t, changed)));
  }

  lemma PolicyActivated(w: Machine, x: Texts, w1: Machine, changed: bool, r: Machine)
    requires w1 == w.(files := w1.files, fuel := w1.fuel) && w1.Live() && r.Live() && !PolicyOff(w1.files, x)
    requires forall q :: q != BluetoothPolicy && q != BluetoothPolicyUnit ==> w1.files.Get(q) == w.files.Get(q)
    requires changed <==> PolicyOff(w.files, x)
    requires ActivateShape(w1, RequestOf(PolicyTarget(x), changed), r)
    ensures PolicyDone(w, x, r)
  {
  }

  ghost predicate BrokerDone(w: Machine, x: Texts, changed: bool, r: Machine) {
    && !BrokerOff(r.files, x) && r.files.Get(BrokerReceipt) == Some(x.policy + x.policyUnit + x.broker + x.ready)
    && (forall q :: q != BluetoothReady && q != BluetoothBrokerUnit && q != BrokerReceipt ==> r.files.Get(q) == w.files.Get(q))
    && r.dirs == w.dirs && r.active.Has(BluetoothBroker) && r.links.Get(BluetoothBroker) == Some(BluetoothBrokerUnit)
    && (w.started.Has(BluetoothPolicyService) ==>
      r.started.Has(BluetoothPolicyService) && r.started.Of(BluetoothPolicyService) == w.started.Of(BluetoothPolicyService))
    && (changed || BrokerOff(w.files, x) || w.files.Get(BrokerReceipt) != Some(x.policy + x.policyUnit + x.broker + x.ready) ==>
      SawPolicy(r, BluetoothBroker, x, w.starts) && SawBroker(r, BluetoothBroker, x))
  }

  lemma BrokerIsDone(w: Machine, x: Texts, changed: bool)
    requires w.Live() && !PolicyOff(w.files, x) && ConvergeBroker(w, x, changed).Live()
    ensures BrokerDone(w, x, changed, ConvergeBroker(w, x, changed))
  {
    hide Activate, WriteAll, Missing, BrokerDone, ActivateShape;
    var defs := BrokerDefs(x);
    WriteAllSound(w, defs);
    NothingMissing(w.files, defs);
    assert defs[0] == (BluetoothReady, x.ready) && defs[1] == (BluetoothBrokerUnit, x.broker);
    var missing := Missing(w.files, defs) > 0;
    assert missing <==> BrokerOff(w.files, x);
    var w1 := WriteAll(w, defs);
    forall q | q != BluetoothReady && q != BluetoothBrokerUnit ensures w1.files.Get(q) == w.files.Get(q) {
      assert Elsewhere(q, defs);
    }
    assert !BrokerOff(w1.files, x) by {
      assert w1.files.Get(defs[0].0) == Some(defs[0].1) && w1.files.Get(defs[1].0) == Some(defs[1].1);
    }
    var w2 := LinkUnit(w1, BluetoothBroker, BluetoothBrokerUnit);
    ActivateHasShape(w2, BrokerRequest(x, changed || missing));
    BrokerActivated(w, x, w2, changed, Activate(w2, BrokerRequest(x, changed || missing)));
  }

  lemma BrokerActivated(w: Machine, x: Texts, w1: Machine, changed: bool, r: Machine)
    requires w1 == w.(files := w1.files, links := w1.links, fuel := w1.fuel) && w1.Live() && r.Live()
    requires !BrokerOff(w1.files, x) && !PolicyOff(w1.files, x) && w1.links.Get(BluetoothBroker) == Some(BluetoothBrokerUnit)
    requires forall q :: q != BluetoothReady && q != BluetoothBrokerUnit ==> w1.files.Get(q) == w.files.Get(q)
    requires ActivateShape(w1, BrokerRequest(x, changed || BrokerOff(w.files, x)), r)
    ensures BrokerDone(w, x, changed, r)
  {
  }

  /** From any state at all: a run that finishes has both directories, all four texts and both receipts in
      place and the broker active and enabled. A policy that was off in any way has been restarted on its
      texts by this run; a broker that was off, or whose policy was rewritten, has been restarted after
      that and found all four texts. */
  lemma FinishedRunDelivers(w: Machine, x: Texts)
    requires w.Live() && Apply(w, x).Live()
    ensures var r := Apply(w, x);
      && !PolicyOff(r.files, x) && !BrokerOff(r.files, x)
      && r.files.Get(PolicyReceipt) == Some(x.policy + x.policyUnit)
      && r.files.Get(BrokerReceipt) == Some(x.policy + x.policyUnit + x.broker + x.ready)
      && r.active.Has(BluetoothBroker) && r.links.Get(BluetoothBroker) == Some(BluetoothBrokerUnit)
      && r.dirs.Has(BluetoothEtc) && r.dirs.Has(BluetoothState)
    ensures var r := Apply(w, x);
      var policyDue := PolicyOff(w.files, x) || w.files.Get(PolicyReceipt) != Some(x.policy + x.policyUnit);
      var brokerDue := PolicyOff(w.files, x) || BrokerOff(w.files, x)
        || w.files.Get(BrokerReceipt) != Some(x.policy + x.policyUnit + x.broker + x.ready);
      && (policyDue ==> SawPolicy(r, BluetoothPolicyService, x, w.starts))
      && (brokerDue ==> SawPolicy(r, BluetoothBroker, x, w.starts) && SawBroker(r, BluetoothBroker, x))
      && (policyDue && brokerDue ==> r.started.Of(BluetoothPolicyService).at < r.started.Of(BluetoothBroker).at)
  {
    hide Converge, ConvergeBroker, PolicyOff, BrokerOff;
    var w1 := Directories(w);
    PolicyIsDone(w1, x);
    var w2 := Converge(w1, PolicyTarget(x));
    var changed := Missing(w1.files, PolicyTarget(x).defs) > 0;
    RewrittenIsOff(w1.files, x);
    BrokerIsDone(w2, x, changed);
    BrokerUnaffected(w1, w2, x);
    PolicyUnaffected(w2, Apply(w, x), x);
  }

  lemma RewrittenIsOff(f: Files, x: Texts)
    ensures Missing(f, PolicyTarget(x).defs) > 0 <==> PolicyOff(f, x)
  {
    NothingMissing(f, PolicyTarget(x).defs);
    assert PolicyTarget(x).defs[0] == (BluetoothPolicy, x.policy) && PolicyTarget(x).defs[1] == (BluetoothPolicyUnit, x.policyUnit);
  }

  lemma BrokerUnaffected(w: Machine, r: Machine, x: Texts)
    requires PolicyDone(w, x, r)
    ensures BrokerOff(r.files, x) <==> BrokerOff(w.files, x)
    ensures r.files.Get(BrokerReceipt) == w.files.Get(BrokerReceipt)
  {
  }

  lemma PolicyUnaffected(w: Machine, r: Machine, x: Texts)
    requires forall q :: q != BluetoothReady && q != BluetoothBrokerUnit && q != BrokerReceipt ==> r.files.Get(q) == w.files.Get(q)
    ensures PolicyOff(r.files, x) <==> PolicyOff(w.files, x)
    ensures r.files.Get(PolicyReceipt) == w.files.Get(PolicyReceipt)
  {
  }
}
