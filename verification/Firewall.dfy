/** The subnet test that decides which networks may be opened, on 32-bit words as the source has it. */
module Subnets {
  import opened Runs

  type Word = bv32

  const ALL: Word := 0xFFFF_FFFF
  const TOP: Word := 0x8000_0000

  /** Section 3 of RFC 1918. */
  predicate Private(a: Word) {
    || a & 0xFF00_0000 == 0x0A00_0000
    || a & 0xFFF0_0000 == 0xAC10_0000
    || a & 0xFFFF_0000 == 0xC0A8_0000
  }

  /** As it is usually written: 10.x.x.x, 172.16.x.x to 172.31.x.x, 192.168.x.x. */
  lemma PrivateInOctets(a: Word)
    ensures Private(a) <==>
      var first, second := a >> 24, (a >> 16) & 0xFF;
      first == 10 || (first == 172 && 16 <= second <= 31) || (first == 192 && second == 168)
  {
  }

  predicate TopBit(mask: Word, i: Word)
    requires i <= 32
  {
    (mask << i) & TOP != 0
  }

  function LeadingOnesFrom(mask: Word, i: Word): Word
    requires i <= 32
    decreases 32 - i
  {
    if i == 32 || !TopBit(mask, i) then i else LeadingOnesFrom(mask, i + 1)
  }

  function LeadingOnes(mask: Word): Word {
    LeadingOnesFrom(mask, 0)
  }

  datatype Subnet = Subnet(network: Word, prefix: Word)

  function PrivateSubnet(address: Word, mask: Word): Option<Subnet> {
    if !Private(address) then None else
    var prefix := LeadingOnes(mask);
    if !(1 <= prefix <= 30) || ALL << (32 - prefix) != mask then None else
    var network := address & mask;
    if Private(network) && Private(network | !mask) then Some(Subnet(network, prefix)) else None
  }

  predicate Prefixed(mask: Word, q: Word) {
    1 <= q <= 30 && mask == ALL << (32 - q)
  }

  predicate InBlock(x: Word, address: Word, mask: Word) {
    x & mask == address & mask
  }

  lemma TopBitIff(mask: Word, q: Word, i: Word)
    requires Prefixed(mask, q) && i <= q
    ensures TopBit(mask, i) <==> i < q
  {
  }

  lemma {:induction false} CountsOnes(mask: Word, q: Word, i: Word)
    requires Prefixed(mask, q) && i <= q
    ensures LeadingOnesFrom(mask, i) == q
    decreases 32 - i
  {
    hide TopBit;
    TopBitIff(mask, q, i);
    if i < q {
      CountsOnes(mask, q, i + 1);
    }
  }

  /** The two ends of an aligned block decide for all of it. */
  lemma EndpointsSuffice(address: Word, mask: Word, q: Word, x: Word)
    requires Prefixed(mask, q) && InBlock(x, address, mask)
    requires Private(address & mask) && Private((address & mask) | !mask)
    ensures Private(x)
  {
    assert (!mask) & (!mask + 1) == 0;
    Aligned(address & mask, mask, x);
  }

  lemma Aligned(network: Word, mask: Word, x: Word)
    requires (!mask) & (!mask + 1) == 0 && x & mask == network
    requires Private(network) && Private(network | !mask)
    ensures Private(x)
  {
  }

  lemma EndsInBlock(address: Word, mask: Word)
    ensures InBlock(address & mask, address, mask) && InBlock((address & mask) | !mask, address, mask)
  {
  }

  lemma ReturnedIsPrivate(address: Word, mask: Word, x: Word)
    requires PrivateSubnet(address, mask).Some? && InBlock(x, address, mask)
    ensures Private(x) && Prefixed(mask, LeadingOnes(mask))
  {
    hide Private, InBlock, LeadingOnes;
    EndpointsSuffice(address, mask, LeadingOnes(mask), x);
  }

  lemma LeadingOnesIs(mask: Word, q: Word)
    requires Prefixed(mask, q)
    ensures LeadingOnes(mask) == q
  {
    CountsOnes(mask, q, 0);
  }

  lemma PrivateIsReturned(address: Word, mask: Word, q: Word)
    requires Prefixed(mask, q) && Private(address) && Private(address & mask) && Private((address & mask) | !mask)
    ensures PrivateSubnet(address, mask) == Some(Subnet(address & mask, q))
  {
    hide Private, LeadingOnes;
    LeadingOnesIs(mask, q);
  }

  /** A subnet is returned exactly for a contiguous mask of prefix 1 to 30 whose whole block is private,
      and it is that block. */
  lemma PrivateSubnetExact(address: Word, mask: Word)
    ensures PrivateSubnet(address, mask).Some? <==>
      && (exists q :: Prefixed(mask, q))
      && (forall x :: InBlock(x, address, mask) ==> Private(x))
    ensures PrivateSubnet(address, mask).Some? ==>
      var s := PrivateSubnet(address, mask).value; s.network == address & mask && Prefixed(mask, s.prefix)
  {
    ReturnedShape(address, mask);
    EndsInBlock(address, mask);
    assert InBlock(address, address, mask);
    hide Private, PrivateSubnet, InBlock, LeadingOnes, Prefixed;
    if PrivateSubnet(address, mask).Some? {
      forall x | InBlock(x, address, mask) ensures Private(x) {
        ReturnedIsPrivate(address, mask, x);
      }
    }
    if q :| Prefixed(mask, q) && (forall x :: InBlock(x, address, mask) ==> Private(x)) {
      PrivateIsReturned(address, mask, q);
    }
  }

  lemma ReturnedShape(address: Word, mask: Word)
    ensures PrivateSubnet(address, mask).Some? ==>
      PrivateSubnet(address, mask).value == Subnet(address & mask, LeadingOnes(mask)) && Prefixed(mask, LeadingOnes(mask))
  {
    hide Private, LeadingOnes;
  }
}

/** Additive convergence of source-scoped grants, the permanent store before the running one. */
module Firewall {
  import opened Runs
  import opened Subnets

  datatype Protocol = Tcp | Udp

  datatype Port = Port(port: bv16, protocol: Protocol)

  datatype MissingLan = Reject | Skip

  datatype Lan = Lan(interface: string, subnet: Subnet)

  datatype Rule = Rule(source: Subnet, port: Port)

  datatype Grant = Grant(zone: string, rule: Rule)

  datatype Grants = Grants(members: set<Grant>) {
    predicate Has(g: Grant) { g in members }
    function Add(g: Grant): Grants { Grants(members + {g}) }
  }

  /** What the manager answers for each interface; an interface it does not know is a failed call. */
  datatype Zones = Zones(of: map<string, string>) {
    function Get(interface: string): Option<string> {
      if interface in of then Some(of[interface]) else None
    }
  }

  datatype Error = PortZero | NoLan | NoZone | CallFailed

  predicate ValidPorts(ports: seq<Port>) {
    forall i :: 0 <= i < |ports| ==> ports[i].port != 0
  }

  /** The grants one LAN asks for. */
  ghost predicate Asks(lan: Lan, zones: Zones, ports: seq<Port>, g: Grant) {
    zones.Get(lan.interface) == Some(g.zone) && g.rule.source == lan.subnet && g.rule.port in ports
  }

  ghost predicate Wanted(lans: seq<Lan>, zones: Zones, ports: seq<Port>, g: Grant) {
    exists i :: 0 <= i < |lans| && Asks(lans[i], zones, ports, g)
  }

  ghost function Asked(lans: seq<Lan>, zones: Zones, ports: seq<Port>): (desired: Grants)
    ensures forall g: Grant :: desired.Has(g) <==> Wanted(lans, zones, ports, g)
  {
    var members := set i, j | 0 <= i < |lans| && 0 <= j < |ports| && zones.Get(lans[i].interface).Some? ::
      Grant(zones.Get(lans[i].interface).value, Rule(lans[i].subnet, ports[j]));
    assert forall g: Grant :: g in members ==> Wanted(lans, zones, ports, g) by {
      forall g: Grant | g in members ensures Wanted(lans, zones, ports, g) {
        var i, j :| 0 <= i < |lans| && 0 <= j < |ports| && zones.Get(lans[i].interface) == Some(g.zone)
          && g == Grant(g.zone, Rule(lans[i].subnet, ports[j]));
        assert Asks(lans[i], zones, ports, g);
      }
    }
    assert forall g: Grant :: Wanted(lans, zones, ports, g) ==> g in members by {
      forall g: Grant | Wanted(lans, zones, ports, g) ensures g in members {
        var i :| 0 <= i < |lans| && Asks(lans[i], zones, ports, g);
        var j :| 0 <= j < |ports| && ports[j] == g.rule.port;
        assert g == Grant(zones.Get(lans[i].interface).value, Rule(lans[i].subnet, ports[j]));
      }
    }
    Grants(members)
  }

  predicate Resolved(lans: seq<Lan>, zones: Zones) {
    forall i :: 0 <= i < |lans| ==> zones.Get(lans[i].interface).Some? && zones.Get(lans[i].interface) != Some("")
  }

  /** Both stores of the firewall. */
  datatype Stores = Stores(permanent: Grants, runtime: Grants) {
    predicate Has(g: Grant) { permanent.Has(g) && runtime.Has(g) }
  }

  /** What any cut of a run that wants `desired` may have done to the stores. */
  ghost predicate Advanced(before: Stores, desired: Grants, after: Stores) {
    && (forall g: Grant :: before.permanent.Has(g) ==> after.permanent.Has(g))
    && (forall g: Grant :: before.runtime.Has(g) ==> after.runtime.Has(g))
    && (forall g: Grant :: after.permanent.Has(g) && !before.permanent.Has(g) ==> desired.Has(g))
    && (forall g: Grant :: after.runtime.Has(g) && !before.runtime.Has(g) ==> desired.Has(g) && after.permanent.Has(g))
  }

  ghost predicate Settled(w: Stores, lans: seq<Lan>, zones: Zones, ports: seq<Port>) {
    forall g: Grant :: Wanted(lans, zones, ports, g) ==> w.Has(g)
  }

  /** The manager cannot name a zone for this LAN. */
  predicate Zoneless(lan: Lan, zones: Zones) {
    zones.Get(lan.interface) in {None, Some("")}
  }

  /** The first of the LANs without a zone. */
  predicate FirstZoneless(lans: seq<Lan>, zones: Zones, i: int) {
    0 <= i < |lans| && Zoneless(lans[i], zones) && forall k :: 0 <= k < i ==> !Zoneless(lans[k], zones)
  }

  /** An interface that the manager does not know is a failed call, one without a zone is its own error. */
  predicate BlamesZone(lan: Lan, zones: Zones, e: Error) {
    e == if zones.Get(lan.interface).None? then CallFailed else NoZone
  }

  class Firewalld {
    var permanent: Grants
    var runtime: Grants
    const zones: Zones
    var fuel: nat  // calls answered before the connection or the process fails

    constructor (permanent: Grants, runtime: Grants, zones: Zones, fuel: nat)
      ensures Snapshot() == Stores(permanent, runtime) && this.zones == zones && this.fuel == fuel
    {
      this.permanent, this.runtime, this.zones, this.fuel := permanent, runtime, zones, fuel;
    }

    ghost function Snapshot(): Stores
      reads this
    {
      Stores(permanent, runtime)
    }

    method Contains(g: Grant, persistent: bool) returns (r: Status<bool, Error>)
      modifies this`fuel
      ensures if old(fuel) == 0 then r == Err(CallFailed) && fuel == 0
              else r == Ok(if persistent then permanent.Has(g) else runtime.Has(g)) && fuel == old(fuel) - 1
    {
      if fuel == 0 { return Err(CallFailed); }
      fuel := fuel - 1;
      return Ok(if persistent then permanent.Has(g) else runtime.Has(g));
    }

    method Add(g: Grant, persistent: bool) returns (r: Status<(), Error>)
      modifies this
      ensures old(fuel) == 0 ==> r == Err(CallFailed) && Snapshot() == old(Snapshot()) && fuel == 0
      ensures old(fuel) > 0 ==> r == Ok(()) && fuel == old(fuel) - 1
      ensures old(fuel) > 0 ==> permanent == if persistent then old(permanent).Add(g) else old(permanent)
      ensures old(fuel) > 0 ==> runtime == if persistent then old(runtime) else old(runtime).Add(g)
    {
      if fuel == 0 { return Err(CallFailed); }
      fuel := fuel - 1;
      if persistent { permanent := permanent.Add(g); } else { runtime := runtime.Add(g); }
      return Ok(());
    }

    /** The grants of all LANs, or the reason they cannot be named; nothing is added here. */
    method Desired(lans: seq<Lan>, ports: seq<Port>) returns (r: Status<Grants, Error>)
      ensures r.Ok? <==> Resolved(lans, zones)
      ensures r.Ok? ==> r.value == Asked(lans, zones, ports)
      ensures r.Err? ==> exists i :: FirstZoneless(lans, zones, i) && BlamesZone(lans[i], zones, r.error)
    {
      var desired := Grants({});
      for i := 0 to |lans|
        invariant forall k :: 0 <= k < i ==> !Zoneless(lans[k], zones)
        invariant forall g: Grant :: desired.Has(g) <==> exists k :: 0 <= k < i && Asks(lans[k], zones, ports, g)
      {
        var zone := zones.Get(lans[i].interface);
        if zone.None? {
          assert FirstZoneless(lans, zones, i) && BlamesZone(lans[i], zones, CallFailed);
          return Err(CallFailed);
        }
        if zone.value == "" {
          assert FirstZoneless(lans, zones, i) && BlamesZone(lans[i], zones, NoZone);
          return Err(NoZone);
        }
        ghost var before := desired;
        for j := 0 to |ports|
          invariant forall g: Grant :: desired.Has(g) <==>
            before.Has(g) || (g.zone == zone.value && g.rule.source == lans[i].subnet && g.rule.port in ports[..j])
        {
          desired := desired.Add(Grant(zone.value, Rule(lans[i].subnet, ports[j])));
          assert ports[..j + 1] == ports[..j] + [ports[j]];
        }
        assert ports[..|ports|] == ports;
        assert lans[..i + 1] == lans[..i] + [lans[i]];
        forall g: Grant
          ensures desired.Has(g) <==> exists k :: 0 <= k < i + 1 && Asks(lans[k], zones, ports, g)
        {
          assert desired.Has(g) <==> before.Has(g) || Asks(lans[i], zones, ports, g);
        }
      }
      assert lans[..|lans|] == lans;
      assert desired.members == Asked(lans, zones, ports).members by {
        forall g: Grant ensures g in desired.members <==> g in Asked(lans, zones, ports).members {
          assert desired.Has(g) <==> Asked(lans, zones, ports).Has(g);
        }
      }
      return Ok(desired);
    }

    /** One grant, permanent store first. */
    method Open(g: Grant) returns (r: Status<bool, Error>)
      modifies this
      ensures Advanced(old(Snapshot()), Grants({g}), Snapshot())
      ensures old(fuel) >= 4 ==> r.Ok? && fuel + 4 >= old(fuel)
      ensures r.Ok? ==> Snapshot().Has(g) && (r.value <==> !old(Snapshot().Has(g)))
      ensures r.Err? ==> r.error == CallFailed
    {
      var changed := false;
      var kept :- Contains(g, true);
      if !kept {
        var _ :- Add(g, true);
        changed := true;
      }
      var live :- Contains(g, false);
      if !live {
        var _ :- Add(g, false);
        changed := true;
      }
      return Ok(changed);
    }

    /** Calls that finish a run whatever the stores already hold. */
    static ghost function Enough(desired: Grants): nat {
      4 * |desired.members|
    }

    /** The grants in the set's own order, which is left open. */
    method OpenAll(desired: Grants) returns (r: Status<bool, Error>)
      modifies this
      ensures Advanced(old(Snapshot()), desired, Snapshot())
      ensures old(fuel) >= Enough(desired) ==> r.Ok?
      ensures r.Ok? ==> forall g: Grant :: desired.Has(g) ==> Snapshot().Has(g)
      ensures r.Ok? ==> (r.value <==> exists g: Grant :: desired.Has(g) && !old(Snapshot()).Has(g))
      ensures r.Err? ==> r.error == CallFailed
    {
      var todo, changed := desired, false;
      while todo.members != {}
        invariant todo.members <= desired.members
        invariant Advanced(old(Snapshot()), desired, Snapshot())
        invariant forall g: Grant :: desired.Has(g) && !todo.Has(g) ==> Snapshot().Has(g)
        invariant forall g: Grant :: todo.Has(g) ==> (Snapshot().Has(g) <==> old(Snapshot()).Has(g))
        invariant changed <==> exists g: Grant :: desired.Has(g) && !todo.Has(g) && !old(Snapshot()).Has(g)
        invariant old(fuel) >= Enough(desired) ==> fuel >= Enough(todo)
        decreases |todo.members|
      {
        var g :| g in todo.members;
        var more :- Open(g);
        todo := Grants(todo.members - {g});
        changed := changed || more;
      }
      return Ok(changed);
    }

    /** What a run that could name every zone has done, however far it got. */
    static ghost predicate Opened(before: Stores, lans: seq<Lan>, zones: Zones, ports: seq<Port>, after: Stores, r: Status<bool, Error>) {
      && Advanced(before, Asked(lans, zones, ports), after)
      && (r.Ok? ==> Settled(after, lans, zones, ports) && (r.value <==> !Settled(before, lans, zones, ports)))
      && (r.Err? ==> r.error == CallFailed)
    }

    method Converge(lans: seq<Lan>, ports: seq<Port>, missing: MissingLan) returns (r: Status<bool, Error>)
      modifies this
      ensures !ValidPorts(ports) ==> r == Err(PortZero) && Snapshot() == old(Snapshot())
      ensures ports == [] ==> r == Ok(false) && Snapshot() == old(Snapshot())
      ensures ValidPorts(ports) && ports != [] && lans == [] ==>
        r == (if missing == Skip then Ok(false) else Err(NoLan)) && Snapshot() == old(Snapshot())
      ensures ValidPorts(ports) && ports != [] ==> forall i :: FirstZoneless(lans, zones, i) ==>
        r.Err? && BlamesZone(lans[i], zones, r.error) && Snapshot() == old(Snapshot())
      ensures ValidPorts(ports) && ports != [] && lans != [] && Resolved(lans, zones) ==>
        Opened(old(Snapshot()), lans, zones, ports, Snapshot(), r) && (old(fuel) >= Enough(Asked(lans, zones, ports)) ==> r.Ok?)
    {
      for i := 0 to |ports|
        invariant forall k :: 0 <= k < i ==> ports[k].port != 0
      {
        if ports[i].port == 0 { return Err(PortZero); }
      }
      if ports == [] { return Ok(false); }
      if lans == [] && missing == Skip { return Ok(false); }
      if lans == [] { return Err(NoLan); }
      var desired :- Desired(lans, ports);
      r := OpenAll(desired);
    }
  }

  // Over many runs ------------------------------------------------------------------------------

  /** A settled host is left as it is: with `Converge`, the run after a completed one adds nothing and
      reports no change. */
  lemma SettledStays(w: Stores, lans: seq<Lan>, zones: Zones, ports: seq<Port>, r: Stores)
    requires Settled(w, lans, zones, ports) && Advanced(w, Asked(lans, zones, ports), r)
    ensures r == w
  {
    forall g: Grant
      ensures g in r.permanent.members <==> g in w.permanent.members
      ensures g in r.runtime.members <==> g in w.runtime.members
    {
      assert r.permanent.Has(g) <==> w.permanent.Has(g);
      assert r.runtime.Has(g) <==> w.runtime.Has(g);
    }
    assert r.permanent.members == w.permanent.members && r.runtime.members == w.runtime.members;
  }

  /** Cuts of runs for any LANs and ports, and reloads or reboots that rebuild the running store. */
  ghost predicate Follows(w: Stores, r: Stores) {
    (exists desired: Grants :: Advanced(w, desired, r)) || r == Stores(w.permanent, w.permanent)
  }

  ghost predicate History(run: seq<Stores>) {
    |run| > 0 && forall i :: 0 < i < |run| ==> Follows(run[i - 1], run[i])
  }

  /** Open in the running firewall only, by someone else's hand. */
  predicate Volatile(w: Stores, g: Grant) {
    w.runtime.Has(g) && !w.permanent.Has(g)
  }

  lemma {:induction false} OpenMeansPermanent(run: seq<Stores>, i: nat, g: Grant)
    requires History(run) && i < |run| && !Volatile(run[0], g)
    ensures run[i].runtime.Has(g) ==> run[i].permanent.Has(g)
  {
    if i > 0 {
      OpenMeansPermanent(run, i - 1, g);
      assert Follows(run[i - 1], run[i]);
    }
  }

  /** No opening disappears again: through cut runs, retries and reboots, a grant that is open stays open,
      unless it was opened only at run time before the first run. */
  lemma {:induction false} OpeningsLast(run: seq<Stores>, i: nat, j: nat, g: Grant)
    requires History(run) && i <= j < |run| && !Volatile(run[0], g)
    ensures run[i].runtime.Has(g) ==> run[j].runtime.Has(g)
    ensures run[i].permanent.Has(g) ==> run[j].permanent.Has(g)
    decreases j
  {
    if i < j {
      OpeningsLast(run, i, j - 1, g);
      OpenMeansPermanent(run, j - 1, g);
      assert Follows(run[j - 1], run[j]);
    }
  }
}
