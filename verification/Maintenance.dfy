/** Cooperative exclusion between configuration writers and the activation of a new system. */
module Maintenance {
  import opened Runs

  type Pid = nat

  datatype Pids = Pids(members: set<Pid>) {
    predicate Has(p: Pid) { p in members }
    function Add(p: Pid): Pids { Pids(members + {p}) }
    function Remove(p: Pid): Pids { Pids(members - {p}) }
  }

  /** A process is idle, holds the shared lock without having looked at the flag yet, or holds a guard. */
  datatype Phase = Idle | Checking | Writing | Activating

  datatype Phases = Phases(of: map<Pid, Phase>) {
    function Get(p: Pid): Phase { if p in of then of[p] else Idle }
    function Put(p: Pid, phase: Phase): Phases { Phases(of[p := phase]) }
  }

  /** The lock file, the boot-local flag, the processes, and for each guarded configuration write so
      far whether the flag was up. */
  datatype State = State(
    shared: Pids,
    exclusive: Option<Pid>,
    finalized: bool,
    phases: Phases,
    writes: seq<bool>)

  const BOOT: State := State(Pids({}), None, false, Phases(map[]), [])

  /** A non-blocking shared lock. */
  function TryShared(w: State, p: Pid): State {
    if w.phases.Get(p) == Idle && w.exclusive.None? then
      w.(shared := w.shared.Add(p), phases := w.phases.Put(p, Checking))
    else w
  }

  /** The flag is looked at under the lock; a refused writer drops the lock. */
  function Check(w: State, p: Pid): State {
    if w.phases.Get(p) != Checking then w
    else if w.finalized then w.(shared := w.shared.Remove(p), phases := w.phases.Put(p, Idle))
    else w.(phases := w.phases.Put(p, Writing))
  }

  /** A non-blocking exclusive lock; activation does not look at the flag. */
  function TryExclusive(w: State, p: Pid): State {
    if w.phases.Get(p) == Idle && w.exclusive.None? && w.shared.members == {} then
      w.(exclusive := Some(p), phases := w.phases.Put(p, Activating))
    else w
  }

  /** Dropping a guard, or dying with it. */
  function Release(w: State, p: Pid): State {
    w.(shared := w.shared.Remove(p),
       exclusive := if w.exclusive == Some(p) then None else w.exclusive,
       phases := w.phases.Put(p, Idle))
  }

  function Write(w: State, p: Pid): State {
    if w.phases.Get(p) == Writing then w.(writes := w.writes + [w.finalized]) else w
  }

  /** Only the holder of the activation guard raises the flag. */
  function Finalize(w: State, p: Pid): State {
    if w.phases.Get(p) == Activating then w.(finalized := true) else w
  }

  datatype Event =
    | Shared(p: Pid)
    | Checks(p: Pid)
    | Exclusive(p: Pid)
    | Releases(p: Pid)
    | Writes(p: Pid)
    | Finalizes(p: Pid)
    | Reboot

  function After(w: State, e: Event): State {
    match e
    case Shared(p) => TryShared(w, p)
    case Checks(p) => Check(w, p)
    case Exclusive(p) => TryExclusive(w, p)
    case Releases(p) => Release(w, p)
    case Writes(p) => Write(w, p)
    case Finalizes(p) => Finalize(w, p)
    case Reboot => BOOT.(writes := w.writes)
  }

  function Replay(w: State, history: seq<Event>): State
    decreases |history|
  {
    if history == [] then w else Replay(After(w, history[0]), history[1..])
  }

  ghost predicate Excluded(w: State) {
    && (forall p: Pid :: w.shared.Has(p) <==> (w.phases.Get(p).Checking? || w.phases.Get(p).Writing?))
    && (forall p: Pid :: w.exclusive == Some(p) <==> w.phases.Get(p).Activating?)
    && (w.exclusive.Some? ==> w.shared.members == {})
    && (forall p: Pid :: w.phases.Get(p).Writing? ==> !w.finalized)
    && (forall i :: 0 <= i < |w.writes| ==> !w.writes[i])
  }

  lemma ExcludedAfter(w: State, e: Event)
    requires Excluded(w)
    ensures Excluded(After(w, e))
  {
    var r := After(w, e);
    forall q: Pid
      ensures r.shared.Has(q) <==> (r.phases.Get(q).Checking? || r.phases.Get(q).Writing?)
      ensures r.exclusive == Some(q) <==> r.phases.Get(q).Activating?
      ensures r.phases.Get(q).Writing? ==> !r.finalized
    {
      assert w.shared.Has(q) <==> (w.phases.Get(q).Checking? || w.phases.Get(q).Writing?);
    }
  }

  lemma {:induction false} ExcludedAlways(w: State, history: seq<Event>)
    requires Excluded(w)
    ensures Excluded(Replay(w, history))
    decreases |history|
  {
    if history != [] {
      ExcludedAfter(w, history[0]);
      ExcludedAlways(After(w, history[0]), history[1..]);
    }
  }

  /** Over every interleaving of any number of processes: a writer and the activation never hold their
      guards together, and no guarded write happens while the flag is up, not even by a writer that was
      caught between taking the lock and looking at the flag. */
  lemma WritersExcluded(history: seq<Event>, p: Pid, q: Pid)
    ensures var r := Replay(BOOT, history);
      && !(r.phases.Get(p).Writing? && r.phases.Get(q).Activating?)
      && !(r.phases.Get(p).Writing? && r.finalized)
      && true !in r.writes
  {
    ExcludedAlways(BOOT, history);
    assert Replay(BOOT, history).shared.Has(p) ==> Replay(BOOT, history).exclusive.None?;
  }

  /** Once the flag is up, nothing but a reboot lets configuration be written again. */
  lemma {:induction false} FinalUntilReboot(w: State, history: seq<Event>)
    requires Excluded(w) && w.finalized
    requires forall e :: e in history ==> !e.Reboot?
    ensures Replay(w, history).finalized && Replay(w, history).writes == w.writes
    decreases |history|
  {
    if history != [] {
      ExcludedAfter(w, history[0]);
      assert history[0] in history;
      FinalUntilReboot(After(w, history[0]), history[1..]);
    }
  }

  /** Why the flag needs the lock: raised by anyone else, it stops no writer that already holds a guard,
      and it stops every other one. */
  lemma RogueFlagIff(w: State, p: Pid)
    requires Excluded(w)
    ensures true in Write(Check(w.(finalized := true), p), p).writes <==> w.phases.Get(p) == Writing
  {
    var r := Write(Check(w.(finalized := true), p), p);
    if w.phases.Get(p) == Writing {
      assert r.writes[|r.writes| - 1];
    }
  }

  // The lock file -------------------------------------------------------------------------------

  datatype Error = Busy | Finalized

  class LockFile {
    var shared: Pids
    var exclusive: Option<Pid>
    var finalized: bool
    ghost var phases: Phases
    ghost var writes: seq<bool>

    ghost function Snapshot(): State
      reads this
    {
      State(shared, exclusive, finalized, phases, writes)
    }

    /** Taking a guard without interruption: the lock, then for a writer the flag. */
    method Lock(p: Pid, activation: bool) returns (r: Status<(), Error>)
      requires phases.Get(p) == Idle && Excluded(Snapshot())
      modifies this
      ensures Snapshot() == if activation then TryExclusive(old(Snapshot()), p) else Check(TryShared(old(Snapshot()), p), p)
      ensures activation ==> r == if old(exclusive).Some? || old(shared).members != {} then Err(Busy) else Ok(())
      ensures !activation ==> r == if old(exclusive).Some? then Err(Busy) else if old(finalized) then Err(Finalized) else Ok(())
      ensures exclusive == if activation && r.Ok? then Some(p) else old(exclusive)
      ensures shared == if !activation && r.Ok? then old(shared).Add(p) else old(shared)
      ensures finalized == old(finalized) && writes == old(writes)
      ensures phases.Get(p) == if r.Err? then Idle else if activation then Activating else Writing
      ensures forall q: Pid :: q != p ==> phases.Get(q) == old(phases).Get(q)
      ensures Excluded(Snapshot())
    {
      if activation {
        ExcludedAfter(Snapshot(), Exclusive(p));
        if exclusive.Some? || shared.members != {} { return Err(Busy); }
        exclusive := Some(p);
        phases := phases.Put(p, Activating);
        return Ok(());
      }
      ExcludedAfter(Snapshot(), Shared(p));
      ExcludedAfter(After(Snapshot(), Shared(p)), Checks(p));
      if exclusive.Some? { return Err(Busy); }
      shared := shared.Add(p);
      phases := phases.Put(p, Checking);
      if finalized {
        shared := shared.Remove(p);
        phases := phases.Put(p, Idle);
        return Err(Finalized);
      }
      phases := phases.Put(p, Writing);
      return Ok(());
    }
  }
}
