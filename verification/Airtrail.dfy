/** Backups and restores that keep a database and an upload tree together. */
module Airtrail {
  import opened Runs
  import opened Decimal
  import opened Archive
  import opened Retention

  const KEEP: nat := 7

  datatype Pair = Pair(database: Bytes, uploads: Node)

  /** What a name in the backup directory holds. */
  datatype Held = Complete(pair: Pair) | Incomplete | NoDirectory

  datatype Shelf = Shelf(sets: map<string, Held>) {
    function Get(name: string): Option<Held> { if name in sets then Some(sets[name]) else None }
    function Put(name: string, held: Held): Shelf { Shelf(sets[name := held]) }
    function Remove(name: string): Shelf { Shelf(sets - {name}) }
  }

  /** `Stranded`: the rename that should have brought the old uploads back failed. */
  datatype Error = Invalid | Failed | Stranded | RestoreAndRollback | OperationAndRestart | Killed

  // Retention -----------------------------------------------------------------------------------

  predicate Recognised(shelf: Shelf, name: string) {
    SetStamp(name).Some? && shelf.Get(name).Some? && !shelf.Get(name).value.NoDirectory?
  }

  function StampOf(name: string): nat {
    if SetStamp(name).Some? then SetStamp(name).value else 0
  }

  ghost function Newer(shelf: Shelf, name: string): set<string> {
    set y | y in shelf.sets && Recognised(shelf, y) && StampOf(y) > StampOf(name)
  }

  /** The sets that are at least as new. */
  ghost function Rivals(shelf: Shelf, name: string): set<string> {
    set y | y in shelf.sets && Recognised(shelf, y) && y != name && StampOf(y) >= StampOf(name)
  }

  /** Recognised, with seven or more rivals. */
  ghost predicate Expendable(shelf: Shelf, name: string) {
    Recognised(shelf, name) && |Rivals(shelf, name)| >= 7
  }

  /** A tree from which anything below its root may be missing. */
  predicate PartOf(a: Node, b: Node)
    decreases b
  {
    if b.Folder? then a.Folder? && PartOfAll(a.children, b.children) else a == b
  }

  predicate PartOfAll(a: Forest, b: Forest)
    decreases b
  {
    match b
    case Nil => a.Nil?
    case Cons(name, node, rest) =>
      PartOfAll(a, rest) || (a.Cons? && a.name == name && PartOf(a.node, node) && PartOfAll(a.rest, rest))
  }

  /** What the removal of a set can leave when it does not finish: no complete set any more, or one with
      its dump and whatever uploads were not reached. */
  predicate Remnant(held: Held, left: Held) {
    || left.Incomplete?
    || (held.Complete? && left.Complete? && left.pair.database == held.pair.database && PartOf(left.pair.uploads, held.pair.uploads))
  }

  predicate Shrunk(before: Option<Held>, after: Option<Held>) {
    before.Some? && after.Some? && Remnant(before.value, after.value)
  }

  predicate GoneOrTorn(before: Option<Held>, after: Option<Held>, torn: bool) {
    after.None? || (torn && Shrunk(before, after))
  }

  /** Wherever a prune stopped: only expendable sets are gone, and at most one of them is torn. */
  ghost predicate PrunedBut(before: Shelf, after: Shelf, torn: string) {
    forall name: string :: after.Get(name) == before.Get(name)
      || (Expendable(before, name) && GoneOrTorn(before.Get(name), after.Get(name), name == torn))
  }

  ghost predicate PrunedSoFar(before: Shelf, after: Shelf) {
    exists torn: string :: PrunedBut(before, after, torn)
  }

  /** A prune that finished tears nothing. */
  ghost predicate Pruned(before: Shelf, after: Shelf) {
    && (forall name: string :: after.Get(name) == before.Get(name) || (Expendable(before, name) && after.Get(name).None?))
    && (forall name: string :: Recognised(before, name) && |Newer(before, name)| >= 7 ==> after.Get(name).None?)
  }

  predicate Places(shelf: Shelf, s: seq<Mark>, i: nat)
    requires i < |s|
  {
    s[i].at == i && Recognised(shelf, s[i].name) && s[i].stamp == StampOf(s[i].name)
  }

  /** The recognised sets in the order of the directory, each with its place. */
  ghost predicate Listing(shelf: Shelf, s: seq<Mark>) {
    && (forall i :: 0 <= i < |s| ==> Places(shelf, s, i))
    && NamesDiffer(s)
    && (forall name: string :: Recognised(shelf, name) ==> exists i :: 0 <= i < |s| && s[i].name == name)
  }

  lemma ListingIsStrict(shelf: Shelf, s: seq<Mark>)
    requires Listing(shelf, s)
    ensures Strict(Ahead, s) && Distinct(s)
  {
    forall i | 0 <= i < |s| ensures s[i].at == i {
      assert Places(shelf, s, i);
    }
    AheadIsStrict(s);
  }

  lemma SkippedHasRivals(shelf: Shelf, s: seq<Mark>, x: Mark)
    requires Listing(shelf, s) && x in s && |Before(s, Ahead, x)| >= KEEP
    ensures |Rivals(shelf, x.name)| >= KEEP
  {
    hide StampOf, SetStamp;
    var j :| 0 <= j < |s| && s[j] == x;
    assert Places(shelf, s, j);
    var ahead := Before(s, Ahead, x);
    NamesCount(ahead);
    forall y | y in NamesOf(ahead) ensures y in Rivals(shelf, x.name) {
      var m :| m in ahead && m.name == y;
      var i :| 0 <= i < |s| && s[i] == m;
      assert Places(shelf, s, i);
    }
    CountGrows(NamesOf(ahead), Rivals(shelf, x.name));
  }

  lemma OutdatedIsSkipped(shelf: Shelf, s: seq<Mark>, x: Mark)
    requires Listing(shelf, s) && x in s && |Newer(shelf, x.name)| >= KEEP
    ensures |Before(s, Ahead, x)| >= KEEP
  {
    hide StampOf, SetStamp;
    var j :| 0 <= j < |s| && s[j] == x;
    assert Places(shelf, s, j);
    var ahead := Before(s, Ahead, x);
    NamesCount(ahead);
    forall y | y in Newer(shelf, x.name) ensures y in NamesOf(ahead) {
      var i :| 0 <= i < |s| && s[i].name == y;
      assert Places(shelf, s, i);
      assert s[i] in ahead;
    }
    CountGrows(Newer(shelf, x.name), NamesOf(ahead));
  }

  function Skipped(listing: seq<Mark>): seq<Mark> {
    var s := Sort(listing, Ahead);
    s[if |s| < KEEP then |s| else KEEP..]
  }

  lemma SkippedIsOutdated(shelf: Shelf, listing: seq<Mark>, x: Mark)
    requires Listing(shelf, listing) && x in Skipped(listing)
    ensures Recognised(shelf, x.name) && |Rivals(shelf, x.name)| >= KEEP
  {
    hide StampOf, SetStamp, Sort, Rivals;
    ListingIsStrict(shelf, listing);
    SortSound(listing, Ahead);
    assert x in Sort(listing, Ahead);
    var i :| 0 <= i < |listing| && listing[i] == x;
    assert Places(shelf, listing, i);
    SkippedIff(listing, KEEP, x);
    SkippedHasRivals(shelf, listing, x);
  }

  lemma OutdatedGoes(shelf: Shelf, listing: seq<Mark>, name: string)
    requires Listing(shelf, listing) && Recognised(shelf, name) && |Newer(shelf, name)| >= KEEP
    ensures exists x :: x in Skipped(listing) && x.name == name
  {
    hide StampOf, SetStamp, Sort, Newer;
    ListingIsStrict(shelf, listing);
    var i :| 0 <= i < |listing| && listing[i].name == name;
    var x := listing[i];
    assert x in listing && Places(shelf, listing, i);
    OutdatedIsSkipped(shelf, listing, x);
    SkippedIff(listing, KEEP, x);
  }

  /** What is skipped has enough rivals, and what enough are newer than is skipped. */
  lemma SkippedMeans(shelf: Shelf, listing: seq<Mark>, name: string)
    requires Listing(shelf, listing)
    ensures var s := Skipped(listing);
      && (Removing(s, |s|, name) ==> Recognised(shelf, name) && |Rivals(shelf, name)| >= KEEP)
      && (Recognised(shelf, name) && |Newer(shelf, name)| >= KEEP ==> Removing(s, |s|, name))
  {
    hide StampOf, SetStamp, Newer, Rivals, Skipped;
    var s := Skipped(listing);
    if Removing(s, |s|, name) {
      var k :| 0 <= k < |s| && s[k].name == name;
      SkippedIsOutdated(shelf, listing, s[k]);
    }
    if Recognised(shelf, name) && |Newer(shelf, name)| >= KEEP {
      OutdatedGoes(shelf, listing, name);
    }
  }

  lemma ListingFits(shelf: Shelf, s: seq<Mark>)
    requires Listing(shelf, s)
    ensures |s| <= |shelf.sets|
  {
    hide SetStamp;
    ListingIsStrict(shelf, s);
    MembersCount(s);
    NamesCount(Members(s));
    forall y | y in NamesOf(Members(s)) ensures y in shelf.sets.Keys {
      var m :| m in Members(s) && m.name == y;
      var i :| 0 <= i < |s| && s[i] == m;
      assert Places(shelf, s, i);
    }
    CountGrows(NamesOf(Members(s)), shelf.sets.Keys);
  }

  // Copies --------------------------------------------------------------------------------------

  function CopyCost(node: Node): nat {
    match node
    case File(_) => 1
    case Special => 0
    case Folder(children) => 1 + CopyCostAll(children)
  }

  function CopyCostAll(f: Forest): nat {
    if f.Nil? then 0 else (if f.node.Folder? then 1 else 0) + CopyCost(f.node) + CopyCostAll(f.rest)
  }

  function Join(a: Forest, b: Forest): Forest {
    match a
    case Nil => b
    case Cons(name, node, rest) => Cons(name, node, Join(rest, b))
  }

  lemma {:induction false} JoinOne(a: Forest, name: string, node: Node, rest: Forest)
    ensures Join(Join(a, Cons(name, node, Nil)), rest) == Join(a, Cons(name, node, rest))
  {
    if a.Cons? { JoinOne(a.rest, name, node, rest); }
  }

  lemma {:induction false} JoinNil(a: Forest)
    ensures Join(a, Nil) == a
  {
    if a.Cons? { JoinNil(a.rest); }
  }

  // What a run keeps ----------------------------------------------------------------------------

  predicate Copyable(uploads: Option<Node>) {
    uploads.Some? && uploads.value.Folder? && Plain(uploads.value)
  }

  function Added(shelf: Shelf, stamp: nat, database: Bytes, uploads: Option<Node>): Shelf {
    if uploads.Some? then shelf.Put(SetName(stamp), Complete(Pair(database, uploads.value))) else shelf
  }

  /** A backup published nothing, or all of it and then removed what it may. */
  ghost predicate BackedUp(before: Shelf, after: Shelf, stamp: nat, database: Bytes, uploads: Option<Node>) {
    after == before || (before.Get(SetName(stamp)).None? && PrunedSoFar(Added(before, stamp, database, uploads), after))
  }

  ghost predicate Newest(shelf: Shelf, stamp: nat) {
    stamp < LIMIT && forall name: string :: Recognised(shelf, name) ==> StampOf(name) < stamp
  }

  /** Digits only, which is narrower than what pruning recognises, and a complete set. */
  predicate ValidSet(shelf: Shelf, name: string) {
    && StripPrefix(name, SET_PREFIX).Some?
    && StripPrefix(name, SET_PREFIX).value != "" && AllDigits(StripPrefix(name, SET_PREFIX).value)
    && shelf.Get(name).Some? && shelf.Get(name).value.Complete? && shelf.Get(name).value.pair.uploads.Folder?
  }

  /** What may be restored is named with digits only and is whole. */
  lemma ValidSetIff(shelf: Shelf, name: string)
    ensures ValidSet(shelf, name) <==>
      && (exists digits: string :: digits != "" && AllDigits(digits) && name == "airtrail-" + digits)
      && shelf.Get(name).Some? && shelf.Get(name).value.Complete? && shelf.Get(name).value.pair.uploads.Folder?
  {
    if ValidSet(shelf, name) {
      var digits := StripPrefix(name, SET_PREFIX).value;
      assert digits != "" && AllDigits(digits) && name == "airtrail-" + digits;
    }
    if digits: string :| digits != "" && AllDigits(digits) && name == "airtrail-" + digits {
      assert |"airtrail-"| == 9 && name[9..] == digits && "airtrail-" <= name;
    }
  }

  predicate Holds(shelf: Shelf, name: string, database: Bytes, uploads: Option<Node>) {
    uploads.Some? && shelf.Get(name) == Some(Complete(Pair(database, uploads.value)))
  }

  /** The newest set survives the pruning that follows it. */
  lemma NewestIsKept(before: Shelf, stamp: nat, database: Bytes, uploads: Option<Node>, after: Shelf)
    requires Newest(before, stamp) && uploads.Some? && PrunedSoFar(Added(before, stamp, database, uploads), after)
    ensures Holds(after, SetName(stamp), database, uploads)
  {
    hide SetStamp;
    SetNameIsTold(stamp);
    var added, name := Added(before, stamp, database, uploads), SetName(stamp);
    forall y ensures y !in Rivals(added, name) {
      if y != name { assert Recognised(added, y) <==> Recognised(before, y); }
    }
    assert Rivals(added, name) == {};
    assert added.Get(name) == Some(Complete(Pair(database, uploads.value)));
  }

  /** A set with a stamp of its own is still there after a backup exactly when at most five of the sets
      that were there are newer. */
  lemma SelectedIsKeptIff(before: Shelf, stamp: nat, database: Bytes, uploads: Option<Node>, after: Shelf, name: string)
    requires Newest(before, stamp) && uploads.Some? && Pruned(Added(before, stamp, database, uploads), after)
    requires Recognised(before, name)
    requires forall y: string :: Recognised(before, y) && y != name ==> StampOf(y) != StampOf(name)
    ensures after.Get(name) == before.Get(name) || after.Get(name).None?
    ensures after.Get(name).Some? <==> |Newer(before, name)| <= 5
  {
    hide SetStamp;
    SetNameIsTold(stamp);
    var added, recovery := Added(before, stamp, database, uploads), SetName(stamp);
    assert Recognised(added, recovery) && StampOf(recovery) == stamp;
    assert !Recognised(before, recovery);
    forall y ensures y in Newer(added, name) <==> y in Newer(before, name) + {recovery} {
      if y != recovery { assert Recognised(added, y) <==> Recognised(before, y); }
    }
    assert Newer(added, name) == Newer(before, name) + {recovery};
    forall y ensures y in Rivals(added, name) <==> y in Newer(added, name) {
      if y != recovery { assert Recognised(added, y) <==> Recognised(before, y); }
    }
    assert Rivals(added, name) == Newer(added, name);
    assert added.Get(name) == before.Get(name);
    assert Recognised(added, name);
  }

  predicate CanBackUp(shelf: Shelf, stamp: nat, uploads: Option<Node>) {
    Copyable(uploads) && shelf.Get(SetName(stamp)).None?
  }

  /** Effects that finish a backup. */
  function BackupCost(shelf: Shelf, uploads: Option<Node>): nat {
    11 + (if uploads.Some? then CopyCost(uploads.value) else 0) + |shelf.sets|
  }

  predicate CanLoad(shelf: Shelf, selected: string) {
    ValidSet(shelf, selected) && Copyable(Some(shelf.Get(selected).value.pair.uploads))
  }

  function LoadCost(shelf: Shelf, selected: string): nat {
    5 + if ValidSet(shelf, selected) then CopyCost(shelf.Get(selected).value.pair.uploads) else 0
  }

  /** No other recognised set shares its stamp. */
  ghost predicate Alone(shelf: Shelf, name: string) {
    Recognised(shelf, name) && forall y: string :: Recognised(shelf, y) && y != name ==> StampOf(y) != StampOf(name)
  }

  /** A finished backup changes no other set, except that it may remove it. */
  lemma OthersKept(before: Shelf, stamp: nat, database: Bytes, uploads: Option<Node>, after: Shelf, name: string)
    requires before.Get(name).Some? && before.Get(SetName(stamp)).None?
    requires Pruned(Added(before, stamp, database, uploads), after)
    ensures after.Get(name) == before.Get(name) || after.Get(name).None?
  {
    assert Added(before, stamp, database, uploads).Get(name) == before.Get(name);
  }

  /** Whatever the clock says, the set that was just published is whole or gone. */
  lemma RecoveryIsWhole(before: Shelf, stamp: nat, database: Bytes, uploads: Option<Node>, after: Shelf)
    requires uploads.Some? && Pruned(Added(before, stamp, database, uploads), after)
    ensures after.Get(SetName(stamp)).None? || Holds(after, SetName(stamp), database, uploads)
  {
    assert Added(before, stamp, database, uploads).Get(SetName(stamp)) == Some(Complete(Pair(database, uploads.value)));
  }

  ghost predicate Prepared(shelf: Shelf, uploads: Option<Node>, selected: string, stamp: nat) {
    Newest(shelf, stamp) && Alone(shelf, selected) && CanBackUp(shelf, stamp, uploads) && CanLoad(shelf, selected)
  }

  lemma AloneIsKeptIff(before: Shelf, stamp: nat, database: Bytes, uploads: Option<Node>, after: Shelf, name: string)
    requires Newest(before, stamp) && uploads.Some? && Pruned(Added(before, stamp, database, uploads), after)
    requires Alone(before, name)
    ensures after.Get(name) == if |Newer(before, name)| <= 5 then before.Get(name) else None
  {
    SelectedIsKeptIff(before, stamp, database, uploads, after, name);
  }

  lemma PrunedIsSoFar(before: Shelf, after: Shelf)
    requires Pruned(before, after)
    ensures PrunedSoFar(before, after)
  {
    assert PrunedBut(before, after, "");
  }

  /** A complete set of what was there has been published, before anything was removed. */
  ghost predicate SavedFirst(before: Shelf, after: Shelf, stamp: nat, database: Bytes, uploads: Option<Node>) {
    before.Get(SetName(stamp)).None? && Copyable(uploads) && Pruned(Added(before, stamp, database, uploads), after)
  }

  lemma NothingBackedUp(shelf: Shelf, stamp: nat, database: Bytes, uploads: Option<Node>)
    ensures BackedUp(shelf, shelf, stamp, database, uploads)
  {
  }

  lemma NothingPruned(shelf: Shelf)
    ensures PrunedSoFar(shelf, shelf)
  {
    assert PrunedBut(shelf, shelf, "");
  }

  lemma PutCount(before: Shelf, after: Shelf, name: string, held: Held)
    requires after == before.Put(name, held) && before.Get(name).None?
    ensures |after.sets| == |before.sets| + 1
  {
    assert after.sets.Keys == before.sets.Keys + {name};
  }

  // Torn sets -----------------------------------------------------------------------------------

  lemma {:induction false} NothingIsPart(f: Forest)
    ensures PartOfAll(Nil, f)
  {
    if f.Cons? { NothingIsPart(f.rest); }
  }

  /** A prune can leave a set that a restore would still accept but that is not what it was, exactly when
      the set is expendable and has uploads to lose. */
  lemma TornIsSelectableIff(before: Shelf, name: string)
    requires ValidSet(before, name)
    ensures (exists after :: PrunedSoFar(before, after) && ValidSet(after, name) && after.Get(name) != before.Get(name))
      <==> Expendable(before, name) && before.Get(name).value.pair.uploads.children.Cons?
  {
    var pair := before.Get(name).value.pair;
    if Expendable(before, name) && pair.uploads.children.Cons? {
      NothingIsPart(pair.uploads.children);
      var left := Complete(Pair(pair.database, Folder(Nil)));
      var after := before.Put(name, left);
      assert Shrunk(before.Get(name), after.Get(name));
      assert PrunedBut(before, after, name);
      assert ValidSet(after, name) && after.Get(name) != before.Get(name);
    }
    if after :| PrunedSoFar(before, after) && ValidSet(after, name) && after.Get(name) != before.Get(name) {
      var torn :| PrunedBut(before, after, torn);
      assert Shrunk(before.Get(name), after.Get(name));
    }
  }

  ghost predicate Follows(w: Shelf, r: Shelf) {
    exists stamp: nat, database: Bytes, uploads: Option<Node> :: BackedUp(w, r, stamp, database, uploads)
  }

  /** The directory over any number of backups and restores, cut or not. */
  ghost predicate History(run: seq<Shelf>) {
    |run| > 0 && forall i :: 0 < i < |run| ==> Follows(run[i - 1], run[i])
  }

  ghost predicate TornBy(w: Shelf, r: Shelf, name: string, stamp: nat, database: Bytes, uploads: Option<Node>) {
    && BackedUp(w, r, stamp, database, uploads)
    && Expendable(Added(w, stamp, database, uploads), name)
    && Shrunk(w.Get(name), r.Get(name))
  }

  /** A prune between these two states stopped while it was removing this set. */
  ghost predicate Torn(w: Shelf, r: Shelf, name: string) {
    exists stamp: nat, database: Bytes, uploads: Option<Node> :: TornBy(w, r, name, stamp, database, uploads)
  }

  /** Over every history, as long as a set is there it is what it was at first, unless some prune stopped
      while it was removing it. */
  lemma {:induction false} OnlyPrunesTear(run: seq<Shelf>, i: nat, j: nat, name: string)
    requires History(run) && i <= j < |run|
    requires forall k :: i <= k <= j ==> run[k].Get(name).Some?
    ensures run[j].Get(name) == run[i].Get(name) || exists k :: i <= k < j && Torn(run[k], run[k + 1], name)
    decreases j
  {
    hide Torn, Follows;
    if i < j {
      OnlyPrunesTear(run, i, j - 1, name);
      StepTears(run[j - 1], run[j], name);
      if Torn(run[j - 1], run[j], name) { assert Torn(run[j - 1], run[j - 1 + 1], name); }
    }
  }

  lemma StepTears(w: Shelf, r: Shelf, name: string)
    requires Follows(w, r) && w.Get(name).Some? && r.Get(name).Some?
    ensures r.Get(name) == w.Get(name) || Torn(w, r, name)
  {
    var stamp, database, uploads :| BackedUp(w, r, stamp, database, uploads);
    if r != w {
      var added := Added(w, stamp, database, uploads);
      var torn :| PrunedBut(added, r, torn);
      assert added.Get(name) == w.Get(name);
      if r.Get(name) != w.Get(name) { assert TornBy(w, r, name, stamp, database, uploads); }
    }
  }

  predicate RemovedBut(before: Shelf, after: Shelf, sets: seq<Mark>, torn: string, name: string) {
    || after.Get(name) == before.Get(name)
    || (Removing(sets, |sets|, name) && GoneOrTorn(before.Get(name), after.Get(name), name == torn))
  }

  class AirTrail {
    var shelf: Shelf
    var database: Bytes
    var uploads: Option<Node>
    var staged: Option<Node>
    var previous: Option<Node>
    var displaced: Option<Node>
    var rollback: Option<Node>
    var running: bool
    var fates: seq<Fate>

    method Attempt() returns (r: Status<(), Error>)
      modifies this`fates
      ensures r.Ok? <==> Smooth(old(fates)) > 0
      ensures r.Ok? ==> Smooth(fates) == Smooth(old(fates)) - 1
      ensures r.Err? ==> r.error == if old(fates) == [] then Killed else Failed
      ensures old(fates) == [] ==> r.Err?
      ensures r == Err(Killed) ==> fates == []
    {
      if fates == [] { return Err(Killed); }
      var fate := fates[0];
      fates := fates[1..];
      return if fate.Works? then Ok(()) else Err(Failed);
    }

    method CopyTree(source: Node) returns (r: Status<Node, Error>)
      modifies this`fates
      ensures r.Ok? <==> source.Folder? && Plain(source) && Smooth(old(fates)) >= CopyCost(source)
      ensures r.Ok? ==> r.value == source && Smooth(fates) == Smooth(old(fates)) - CopyCost(source)
      ensures r.Err? ==> r.error in {Invalid, Failed, Killed}
      ensures r == Err(Killed) ==> fates == []
      decreases source
    {
      hide Smooth;
      if !source.Folder? { return Err(Invalid); }
      var listing, copied := source.children, Forest.Nil;
      while listing.Cons?
        invariant listing == source.children || listing < source.children
        invariant Join(copied, listing) == source.children
        invariant PlainAll(source.children) <==> PlainAll(listing)
        invariant Smooth(fates) - CopyCostAll(listing) == Smooth(old(fates)) - CopyCostAll(source.children)
        decreases listing
      {
        var copy: Node;
        match listing.node {
          case Folder(_) =>
            var _ :- Attempt();
            copy :- CopyTree(listing.node);
          case File(content) =>
            var _ :- Attempt();
            copy := File(content);
          case Special => return Err(Invalid);
        }
        JoinOne(copied, listing.name, copy, listing.rest);
        copied := Join(copied, Cons(listing.name, copy, Nil));
        listing := listing.rest;
      }
      JoinNil(copied);
      var _ :- Attempt();
      return Ok(Folder(copied));
    }

    method ListSets() returns (sets: seq<Mark>)
      ensures Listing(shelf, sets)
    {
      hide SetStamp;
      sets := [];
      var todo := shelf.sets.Keys;
      while todo != {}
        invariant todo <= shelf.sets.Keys
        invariant forall i :: 0 <= i < |sets| ==> Places(shelf, sets, i) && sets[i].name !in todo
        invariant NamesDiffer(sets)
        invariant forall name: string :: Recognised(shelf, name) && name !in todo ==> exists i :: 0 <= i < |sets| && sets[i].name == name
        decreases |todo|
      {
        var name :| name in todo;
        todo := todo - {name};
        if Recognised(shelf, name) {
          ghost var before := sets;
          sets := sets + [Mark(StampOf(name), name, |sets|)];
          assert forall i :: 0 <= i < |before| ==> sets[i] == before[i];
          assert sets[|before|].name == name;
        }
      }
    }

    /** A removal that does not finish leaves any part of the set. */
    method Tear(name: string)
      modifies this`shelf
      ensures forall other: string :: other != name ==> shelf.Get(other) == old(shelf).Get(other)
      ensures shelf.Get(name) == old(shelf).Get(name) || Shrunk(old(shelf).Get(name), shelf.Get(name))
    {
      var left: Held := *;
      if shelf.Get(name).Some? && Remnant(shelf.Get(name).value, left) { shelf := shelf.Put(name, left); }
    }

    method RemoveEach(sets: seq<Mark>) returns (r: Status<(), Error>, ghost torn: string)
      modifies this`shelf, this`fates
      ensures forall name: string :: RemovedBut(old(shelf), shelf, sets, torn, name)
      ensures r.Ok? ==> forall name: string :: shelf.Get(name) == if Removing(sets, |sets|, name) then None else old(shelf).Get(name)
      ensures r.Ok? <==> Smooth(old(fates)) >= |sets|
      ensures r.Err? ==> r.error in {Failed, Killed}
      ensures r.Ok? ==> Smooth(fates) == Smooth(old(fates)) - |sets|
      ensures r == Err(Killed) ==> fates == []
    {
      hide Smooth, Remnant;
      torn := "";
      for i := 0 to |sets|
        invariant Smooth(fates) == Smooth(old(fates)) - i
        invariant forall name: string :: shelf.Get(name) == if Removing(sets, i, name) then None else old(shelf).Get(name)
      {
        ghost var before := shelf;
        var name := sets[i].name;
        var removed := Attempt();
        if removed.Err? {
          Tear(name);
          assert Removing(sets, |sets|, name);
          forall other: string ensures Removing(sets, i, other) ==> Removing(sets, |sets|, other) {
          }
          assert before.Get(name) == old(shelf).Get(name) || before.Get(name).None?;
          return removed, name;
        }
        shelf := shelf.Remove(name);
        forall other: string ensures shelf.Get(other) == if Removing(sets, i + 1, other) then None else old(shelf).Get(other) {
          assert before.Get(other) == if Removing(sets, i, other) then None else old(shelf).Get(other);
          if other == name { assert Removing(sets, i + 1, other); }
        }
      }
      return Ok(()), torn;
    }

    method Prune() returns (r: Status<(), Error>)
      modifies this`shelf, this`fates
      ensures PrunedSoFar(old(shelf), shelf)
      ensures r.Ok? ==> Pruned(old(shelf), shelf)
      ensures r.Err? ==> r.error in {Failed, Killed}
      ensures Smooth(old(fates)) > |old(shelf).sets| ==> r.Ok? && Smooth(fates) >= Smooth(old(fates)) - |old(shelf).sets| - 1
      ensures r == Err(Killed) ==> fates == []
    {
      hide Smooth, Sort, SetStamp, Removing, Shrunk;
      NothingPruned(shelf);
      var _ :- Attempt();
      var listing := ListSets();
      ListingIsStrict(shelf, listing);
      SortSound(listing, Ahead);
      ListingFits(shelf, listing);
      var sets := Sort(listing, Ahead);
      forall name: string {
        SkippedMeans(shelf, listing, name);
      }
      ghost var torn;
      r, torn := RemoveEach(sets[if |sets| < KEEP then |sets| else KEEP..]);
      assert PrunedBut(old(shelf), shelf, torn) by {
        forall name: string
          ensures shelf.Get(name) == old(shelf).Get(name)
            || (Expendable(old(shelf), name) && GoneOrTorn(old(shelf).Get(name), shelf.Get(name), name == torn))
        {
          assert RemovedBut(old(shelf), shelf, Skipped(listing), torn, name);
        }
      }
    }

    method CreateStopped(stamp: nat) returns (r: Status<string, Error>)
      requires !running
      modifies this`shelf, this`fates
      ensures BackedUp(old(shelf), shelf, stamp, database, uploads)
      ensures r.Ok? ==> r.value == SetName(stamp) && Copyable(uploads) && old(shelf).Get(SetName(stamp)).None?
      ensures r.Ok? ==> Pruned(Added(old(shelf), stamp, database, uploads), shelf)
      ensures CanBackUp(old(shelf), stamp, uploads) && Smooth(old(fates)) >= BackupCost(old(shelf), uploads) ==>
        r.Ok? && Smooth(fates) + BackupCost(old(shelf), uploads) >= Smooth(old(fates))
      ensures r.Err? ==> r.error in {Invalid, Failed, Killed}
      ensures r == Err(Killed) ==> fates == []
    {
      hide Smooth, Plain, Print, Recognised, Pruned, PrunedSoFar;
      var _ :- Attempt();
      var _ :- Attempt();
      var _ :- Attempt();
      var _ :- Attempt();
      var _ :- Attempt();
      r := Fill(stamp);
      if r.Err? {
        var cleaned := Attempt();
      }
    }

    /** From the copy of the uploads to the pruning. */
    method Fill(stamp: nat) returns (r: Status<string, Error>)
      modifies this`shelf, this`fates
      ensures BackedUp(old(shelf), shelf, stamp, database, uploads)
      ensures r.Ok? ==> r.value == SetName(stamp) && Copyable(uploads) && old(shelf).Get(SetName(stamp)).None?
      ensures r.Ok? ==> Pruned(Added(old(shelf), stamp, database, uploads), shelf)
      ensures CanBackUp(old(shelf), stamp, uploads) && Smooth(old(fates)) + 5 >= BackupCost(old(shelf), uploads) ==>
        r.Ok? && Smooth(fates) + BackupCost(old(shelf), uploads) >= Smooth(old(fates)) + 5
      ensures r.Err? ==> r.error in {Invalid, Failed, Killed}
      ensures r == Err(Killed) ==> fates == []
    {
      hide Smooth, Plain, SetName, Recognised, Pruned, PrunedSoFar, CopyCost;
      if uploads.None? { return Err(Failed); }
      var copy :- CopyTree(uploads.value);
      var _ :- Attempt();
      var _ :- Attempt();
      var _ :- Attempt();
      if shelf.Get(SetName(stamp)).Some? { return Err(Failed); }
      shelf := shelf.Put(SetName(stamp), Complete(Pair(database, copy)));
      NothingPruned(shelf);
      ghost var added := shelf;
      PutCount(old(shelf), added, SetName(stamp), Complete(Pair(database, copy)));
      var _ :- Attempt();
      var _ :- Prune();
      return Ok(SetName(stamp));
    }

    /** A dump that does not load leaves the database as it may. */
    method RestoreDump(dump: Option<Bytes>) returns (r: Status<(), Error>)
      modifies this`database, this`fates
      ensures r.Ok? <==> dump.Some? && Smooth(old(fates)) > 0
      ensures r.Ok? ==> database == dump.value && Smooth(fates) == Smooth(old(fates)) - 1
      ensures r.Err? ==> r.error in {Failed, Killed}
      ensures r == Err(Killed) ==> fates == []
      ensures old(fates) == [] ==> r == Err(Killed)
    {
      r := Attempt();
      if r.Ok? && dump.Some? {
        database := dump.value;
      } else {
        var left: Bytes := *;
        database := left;
        if r.Ok? { r := Err(Failed); }
      }
    }

    /** The copied recovery uploads into place, the failed ones aside. */
    method Exchange() returns (r: Status<(), Error>)
      requires uploads.Some? && rollback.Some?
      modifies this`uploads, this`rollback, this`displaced, this`fates
      ensures r.Ok? ==> uploads == old(rollback)
      ensures uploads == old(uploads) || uploads == old(rollback) || (uploads.None? && displaced == old(uploads))
      ensures r == Err(Killed) ==> fates == []
    {
      hide Smooth;
      if displaced.Some? {
        var _ :- Attempt();
        displaced := None;
      }
      var _ :- Attempt();
      uploads, displaced := None, uploads;
      var renamed := Attempt();
      if renamed.Err? {
        var back := Attempt();
        if back.Ok? { uploads, displaced := displaced, None; }
        return renamed;
      }
      uploads, rollback := rollback, None;
      var _ :- Attempt();
      displaced := None;
      return Ok(());
    }

    method RestoreUploadsFrom(source: Option<Node>) returns (r: Status<(), Error>)
      modifies this`uploads, this`rollback, this`displaced, this`fates
      ensures r.Ok? ==> uploads == source && source.Some?
      ensures uploads == old(uploads) || uploads == source || (uploads.None? && displaced == old(uploads))
      ensures r == Err(Killed) ==> fates == []
      ensures old(fates) == [] ==> r == Err(Killed)
    {
      hide Smooth, Plain, CopyCost;
      if rollback.Some? {
        var _ :- Attempt();
        rollback := None;
      }
      var _ :- Attempt();
      rollback := Some(Folder(Nil));
      if uploads.None? || source.None? { return Err(Failed); }
      var copied := CopyTree(source.value);
      if copied.Err? {
        var cleaned := Attempt();
        if cleaned.Ok? { rollback := None; }
        return Err(copied.error);
      }
      rollback := Some(copied.value);
      r := Exchange();
    }

    /** The staged uploads into place, the old ones aside. */
    method SwapUploads() returns (r: Status<(), Error>)
      requires staged.Some?
      modifies this`uploads, this`previous, this`staged, this`fates
      ensures r.Ok? ==> uploads == old(staged) && (old(uploads).Some? ==> previous == old(uploads))
      ensures r.Ok? <==> Smooth(old(fates)) >= if old(uploads).Some? then 2 else 1
      ensures r.Ok? ==> Smooth(fates) == Smooth(old(fates)) - if old(uploads).Some? then 2 else 1
      ensures r.Err? && r.error !in {Stranded, Killed} ==> uploads == old(uploads)
      ensures r.Err? ==> uploads == old(uploads) || (uploads.None? && previous == old(uploads))
      ensures r == Err(Stranded) ==> uploads.None? && previous == old(uploads)
      ensures r.Err? ==> r.error in {Failed, Stranded, Killed}
      ensures r == Err(Killed) ==> fates == []
    {
      hide Smooth;
      var hadUploads := uploads.Some?;
      if hadUploads {
        var _ :- Attempt();
        uploads, previous := None, uploads;
      }
      var renamed := Attempt();
      if renamed.Err? {
        var stranded := false;
        if hadUploads {
          var back := Attempt();
          if back.Ok? { uploads, previous := previous, None; } else { stranded := true; }
        }
        var cleaned := Attempt();
        if cleaned.Ok? { staged := None; }
        return if renamed.error == Killed then renamed else if stranded then Err(Stranded) else renamed;
      }
      uploads, staged := staged, None;
      return Ok(());
    }

    ghost predicate Holding(database: Bytes, uploads: Option<Node>)
      reads this
    {
      this.database == database && this.uploads == uploads
    }

    ghost predicate HoldsSet(held: Option<Held>)
      reads this
    {
      held.Some? && held.value.Complete? && database == held.value.pair.database && uploads == Some(held.value.pair.uploads)
    }

    method RollBack(recovery: string, hadUploads: bool) returns (r: Status<(), Error>)
      modifies this`database, this`uploads, this`previous, this`displaced, this`rollback, this`fates
      ensures r.Ok? || r.error !in {RestoreAndRollback, Killed} ==> HoldsSet(shelf.Get(recovery))
      ensures r.Err? ==> r.error in {Failed, RestoreAndRollback, Killed}
      ensures r == Err(Killed) ==> fates == []
      ensures old(fates) == [] ==> r == Err(Killed)
    {
      var kept := if shelf.Get(recovery).Some? && shelf.Get(recovery).value.Complete? then Some(shelf.Get(recovery).value.pair) else None;
      var rollbackDatabase := RestoreDump(if kept.Some? then Some(kept.value.database) else None);
      var rollbackFiles := RestoreUploadsFrom(if kept.Some? then Some(kept.value.uploads) else None);
      if rollbackDatabase.Err? || rollbackFiles.Err? {
        return Err(if Err(Killed) in {rollbackDatabase, rollbackFiles} then Killed else RestoreAndRollback);
      }
      if hadUploads {
        var _ :- Attempt();
        previous := None;
      }
      return Ok(());
    }

    /** The database, once the uploads are in place; both stores go back together when it does not load. */
    method Load(dump: Bytes, recovery: string, hadUploads: bool) returns (r: Status<(), Error>)
      modifies this`database, this`uploads, this`previous, this`displaced, this`rollback, this`fates
      ensures r.Ok? ==> Holding(dump, old(uploads))
      ensures r.Err? && r.error !in {RestoreAndRollback, Killed} ==> HoldsSet(shelf.Get(recovery)) || Holding(dump, old(uploads))
      ensures r.Err? ==> r.error in {Failed, RestoreAndRollback, Killed}
      ensures Smooth(old(fates)) >= 2 ==> r.Ok? && Smooth(fates) >= Smooth(old(fates)) - 2
      ensures r == Err(Killed) ==> fates == []
    {
      hide Smooth;
      var loaded := RestoreDump(Some(dump));
      if loaded.Err? {
        r := RollBack(recovery, hadUploads);
        return if r.Ok? then loaded else r;
      }
      if hadUploads {
        var _ :- Attempt();
        previous := None;
      }
      return Ok(());
    }

    /** Both stores come from the selected set, or both are as they were, unless the rollback failed too. */
    method RestoreStopped(selected: string, recovery: string) returns (r: Status<(), Error>)
      requires !running && staged.None?
      modifies this`database, this`uploads, this`staged, this`previous, this`displaced, this`rollback, this`fates
      ensures !ValidSet(shelf, selected) ==> r == Err(Invalid) && Holding(old(database), old(uploads)) && fates == old(fates)
      ensures r.Ok? ==> HoldsSet(shelf.Get(selected))
      ensures r.Err? && r.error !in {RestoreAndRollback, Stranded, Killed} ==>
        Holding(old(database), old(uploads)) || HoldsSet(shelf.Get(recovery)) || HoldsSet(shelf.Get(selected))
      ensures r == Err(Stranded) ==> Holding(old(database), None) && previous == old(uploads)
      ensures CanLoad(shelf, selected) && Smooth(old(fates)) >= LoadCost(shelf, selected) ==>
        r.Ok? && Smooth(fates) + LoadCost(shelf, selected) >= Smooth(old(fates))
      ensures r == Err(Killed) ==> fates == []
    {
      hide Smooth, Plain, CopyCost;
      if !ValidSet(shelf, selected) { return Err(Invalid); }
      var pair := shelf.Get(selected).value.pair;
      var _ :- Attempt();
      staged := Some(Folder(Nil));
      var copied := CopyTree(pair.uploads);
      if copied.Err? {
        var cleaned := Attempt();
        if cleaned.Ok? { staged := None; }
        return Err(copied.error);
      }
      staged := Some(copied.value);
      var hadUploads := uploads.Some?;
      var _ :- SwapUploads();
      r := Load(pair.database, recovery, hadUploads);
    }

    method Stop() returns (r: Status<bool, Error>)
      modifies this`running, this`fates
      ensures r.Ok? <==> Smooth(old(fates)) >= if old(running) then 2 else 1
      ensures r.Ok? ==> r.value == old(running) && !running && Smooth(fates) == Smooth(old(fates)) - if old(running) then 2 else 1
      ensures r.Err? ==> running == old(running) && r.error in {Failed, Killed}
      ensures r == Err(Killed) ==> fates == []
    {
      hide Smooth;
      var _ :- Attempt();
      var active := running;
      if active {
        var _ :- Attempt();
        running := false;
      }
      return Ok(active);
    }

    /** The service is started again whatever the result; a failure to do so hides the result. */
    method FinishServiceTransition(result: Status<string, Error>, wasActive: bool) returns (r: Status<string, Error>)
      requires !running && (result == Err(Killed) ==> fates == [])
      modifies this`running, this`fates
      ensures (r.Err? && r.error in {OperationAndRestart, Killed}) || (running == wasActive && r == result)
      ensures !wasActive || Smooth(old(fates)) > 0 ==> running == wasActive && r == result
      ensures r.Ok? ==> result.Ok? && running == wasActive
    {
      hide Smooth;
      if !wasActive { return result; }
      var started := Attempt();
      if started.Err? { return Err(if started.error == Killed then Killed else OperationAndRestart); }
      running := true;
      return result;
    }

    method Create(stamp: nat) returns (r: Status<string, Error>)
      modifies this`shelf, this`running, this`fates
      ensures BackedUp(old(shelf), shelf, stamp, database, uploads)
      ensures running == old(running) || (r.Err? && r.error in {OperationAndRestart, Killed})
      ensures r.Ok? ==> CanBackUp(old(shelf), stamp, uploads)
      ensures Smooth(old(fates)) >= 3 + BackupCost(old(shelf), uploads) ==> (r.Ok? <==> CanBackUp(old(shelf), stamp, uploads))
      ensures r.Ok? ==> r.value == SetName(stamp) && Pruned(Added(old(shelf), stamp, database, uploads), shelf)
      ensures r.Ok? && Newest(old(shelf), stamp) ==> Holds(shelf, r.value, database, uploads)
    {
      hide Smooth, Plain, CopyCost, Recognised, PrunedSoFar, Print;
      var wasActive :- Stop();
      var result := CreateStopped(stamp);
      if result.Ok? { PrunedIsSoFar(Added(old(shelf), stamp, database, uploads), shelf); }
      if result.Ok? && Newest(old(shelf), stamp) { NewestIsKept(old(shelf), stamp, database, uploads, shelf); }
      r := FinishServiceTransition(result, wasActive);
    }

    /** A backup of what is there, then the selected set. */
    method RestoreBoth(selected: string, stamp: nat) returns (r: Status<string, Error>)
      requires !running && staged.None? && ValidSet(shelf, selected)
      modifies this
      ensures running == old(running)
      ensures BackedUp(old(shelf), shelf, stamp, old(database), old(uploads))
      ensures !Holding(old(database), old(uploads)) ==> SavedFirst(old(shelf), shelf, stamp, old(database), old(uploads))
      ensures r.Ok? ==> HoldsSet(old(shelf).Get(selected))
      ensures r.Ok? ==> r.value == SetName(stamp) && Pruned(Added(old(shelf), stamp, old(database), old(uploads)), shelf)
      ensures r.Ok? && Newest(old(shelf), stamp) ==> Holds(shelf, r.value, old(database), old(uploads))
      ensures r.Err? && r.error !in {RestoreAndRollback, Stranded, Killed} ==>
        Holding(old(database), old(uploads)) || HoldsSet(old(shelf).Get(selected))
      ensures r == Err(Stranded) ==> Holding(old(database), None) && previous == old(uploads)
      ensures Prepared(old(shelf), old(uploads), selected, stamp) && Smooth(old(fates)) >= BackupCost(old(shelf), old(uploads)) + LoadCost(old(shelf), selected) ==>
        if |Newer(old(shelf), selected)| <= 5
        then r.Ok? && Smooth(fates) + BackupCost(old(shelf), old(uploads)) + LoadCost(old(shelf), selected) >= Smooth(old(fates))
        else r == Err(Invalid) && Holding(old(database), old(uploads))
               && Smooth(fates) + BackupCost(old(shelf), old(uploads)) >= Smooth(old(fates))
      ensures r == Err(Killed) ==> fates == []
    {
      hide Smooth, Plain, CopyCost, Recognised, PrunedSoFar, Pruned, SetName, Newest, Newer, BackupCost, Alone;
      var recovery :- CreateStopped(stamp);
      PrunedIsSoFar(Added(old(shelf), stamp, database, uploads), shelf);
      RecoveryIsWhole(old(shelf), stamp, database, uploads, shelf);
      OthersKept(old(shelf), stamp, database, uploads, shelf, selected);
      if Newest(old(shelf), stamp) {
        NewestIsKept(old(shelf), stamp, database, uploads, shelf);
        if Alone(old(shelf), selected) {
          AloneIsKeptIff(old(shelf), stamp, database, uploads, shelf, selected);
        }
      }
      var _ :- RestoreStopped(selected, recovery);
      return Ok(recovery);
    }

    /** Nothing is torn apart and the service ends as it was found, or the error says so. Since a backup
        prunes before the restore looks for its selection, an undisturbed restore of a set with a stamp of
        its own succeeds exactly when at most five of the sets present are newer. */
    method Restore(selected: string, stamp: nat) returns (r: Status<string, Error>)
      requires staged.None?
      modifies this
      ensures running == old(running) || (r.Err? && r.error in {OperationAndRestart, Killed})
      ensures BackedUp(old(shelf), shelf, stamp, old(database), old(uploads))
      ensures !Holding(old(database), old(uploads)) ==> SavedFirst(old(shelf), shelf, stamp, old(database), old(uploads))
      ensures !ValidSet(old(shelf), selected) ==> r == Err(Invalid) && shelf == old(shelf) && Holding(old(database), old(uploads))
      ensures r.Ok? ==> HoldsSet(old(shelf).Get(selected))
      ensures r.Ok? ==> r.value == SetName(stamp) && Pruned(Added(old(shelf), stamp, old(database), old(uploads)), shelf)
      ensures r.Ok? && Newest(old(shelf), stamp) ==> Holds(shelf, r.value, old(database), old(uploads))
      ensures r.Err? && r.error !in {RestoreAndRollback, Stranded, OperationAndRestart, Killed} ==>
        Holding(old(database), old(uploads)) || HoldsSet(old(shelf).Get(selected))
      ensures Prepared(old(shelf), old(uploads), selected, stamp)
              && Smooth(old(fates)) >= 3 + BackupCost(old(shelf), old(uploads)) + LoadCost(old(shelf), selected) ==>
                if |Newer(old(shelf), selected)| <= 5 then r.Ok? else r == Err(Invalid) && Holding(old(database), old(uploads))
    {
      hide Smooth, Plain, CopyCost, Recognised, PrunedSoFar, Pruned, SetName, Newest, Newer, BackupCost, Alone, Holds, BackedUp;
      NothingBackedUp(shelf, stamp, database, uploads);
      if !ValidSet(shelf, selected) { return Err(Invalid); }
      var wasActive :- Stop();
      var result := RestoreBoth(selected, stamp);
      r := FinishServiceTransition(result, wasActive);
    }
  }
}
