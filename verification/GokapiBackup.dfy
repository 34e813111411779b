/** Creating and restoring paired archives of the stopped service. */
module GokapiBackup {
  import opened Runs
  import opened Decimal
  import opened Archive
  import opened Retention

  const KEEP: nat := 7

  /** What a name in the backup directory holds; `Foreign` is anything that is no archive. */
  datatype Held = Tar(entries: seq<Entry>) | Foreign

  datatype Shelf = Shelf(files: map<string, Held>) {
    function Get(name: string): Option<Held> { if name in files then Some(files[name]) else None }
    function Put(name: string, held: Held): Shelf { Shelf(files[name := held]) }
    function Remove(name: string): Shelf { Shelf(files - {name}) }
  }

  /** The pairs of marker and native configuration that the settings checks accept. */
  datatype Policy = Policy(accepted: set<(Bytes, Bytes)>) {
    predicate Has(marker: Bytes, native: Bytes) { (marker, native) in accepted }
  }

  /** `Stranded`: the rename that should have brought the old state back failed. `NotRestarted`: the
      service was stopped and could not be started again. */
  datatype Error = Invalid | Binding | Failed | Stranded | NotRestarted | Killed

  function ManifestOf(entries: seq<Entry>): Option<Bytes> {
    if entries != [] && entries[0].name == [MANIFEST] && entries[0].kind.Regular? && |entries[0].content| <= 4096
    then Some(entries[0].content) else None
  }

  predicate IsBackup(held: Held) {
    held.Tar? && ManifestOf(held.entries).Some? && ManifestText("") <= ManifestOf(held.entries).value
  }

  predicate Recognised(shelf: Shelf, name: string) {
    TarStamp(name).Some? && shelf.Get(name).Some? && IsBackup(shelf.Get(name).value)
  }

  function MarkOf(name: string): Mark
    requires TarStamp(name).Some?
  {
    Mark(TarStamp(name).value, name, 0)
  }

  ghost function Marks(shelf: Shelf): set<Mark> {
    set name | name in shelf.files && Recognised(shelf, name) :: MarkOf(name)
  }

  ghost function Newer(shelf: Shelf, name: string): set<Mark>
    requires TarStamp(name).Some?
  {
    set y | y in Marks(shelf) && Older(MarkOf(name), y)
  }

  /** Recognised, with seven or more recognised archives ahead of it. */
  ghost predicate Expendable(shelf: Shelf, name: string) {
    Recognised(shelf, name) && |Newer(shelf, name)| >= 7
  }

  ghost predicate PrunedSoFar(before: Shelf, after: Shelf) {
    forall name: string :: after.Get(name) == before.Get(name) || (after.Get(name).None? && Expendable(before, name))
  }

  ghost predicate Pruned(before: Shelf, after: Shelf) {
    forall name: string :: after.Get(name) == if Expendable(before, name) then None else before.Get(name)
  }

  // State directories ---------------------------------------------------------------------------

  /** The names of a state directory start at its own root, as in an archive. */
  predicate Healthy(policy: Policy, d: Disk) {
    && d.Get(MARKER_NAME).Some? && d.Get(MARKER_NAME).value.FileItem?
    && d.Get(CONFIG_ROOT + [Normal("config.json")]).Some? && d.Get(CONFIG_ROOT + [Normal("config.json")]).value.FileItem?
    && policy.Has(d.Get(MARKER_NAME).value.content, d.Get(CONFIG_ROOT + [Normal("config.json")]).value.content)
    && d.Get(CONFIG_ROOT + [Normal("gokapi.sqlite")]).Some? && d.Get(CONFIG_ROOT + [Normal("gokapi.sqlite")]).value.FileItem?
    && d.Get(DATA_ROOT) == Some(FolderItem)
  }

  /** Reading the directory lists the tree in some order. */
  ghost predicate Lists(state: Node, d: Disk) {
    && WellNamed(state)
    && (forall p: Name :: d.Get(p) == if p != [] && p[0] == STATE then Look(state, p, 1) else None)
  }

  /** The subdirectory `state` of what was extracted. */
  function StateOf(d: Disk): Disk {
    Disk(map p | p in d.at && p != [] && p[0] == STATE :: d.at[p])
  }

  function Restored(entries: seq<Entry>): Disk {
    StateOf(Unpack(entries, EMPTY).disk)
  }

  /** A backup read back is the state it was taken of, up to what is not archived, and it is healthy
      whenever that state was. */
  lemma BackupReadsBack(state: Node, d: Disk, image: string, policy: Policy)
    requires Archivable(state) && Lists(state, d)
    ensures Unpack(Written(state, image), EMPTY).ok
    ensures forall p: Name :: Restored(Written(state, image)).Get(p) == if Kept(p) then d.Get(p) else None
    ensures Healthy(policy, Restored(Written(state, image))) <==> Healthy(policy, d)
  {
    RoundTrip(state, image);
    var r := Restored(Written(state, image));
    forall p: Name ensures r.Get(p) == if Kept(p) then d.Get(p) else None {
      assert Unpack(Written(state, image), EMPTY).disk.Get(p) == Saved(state, image, p);
    }
  }

  predicate HasFile(d: Disk, p: Name) {
    d.Get(p).Some? && d.Get(p).value.FileItem?
  }

  /** A state is healthy exactly when its marker, native configuration and database are files, its data is a
      directory, and the settings checks accept marker and configuration together. */
  lemma HealthyIff(policy: Policy, d: Disk)
    ensures var marker, native := [Normal("state"), Normal(".skillet-initial.json")], [Normal("state"), Normal("config"), Normal("config.json")];
      Healthy(policy, d) <==>
        && HasFile(d, marker) && HasFile(d, native) && HasFile(d, [Normal("state"), Normal("config"), Normal("gokapi.sqlite")])
        && d.Get([Normal("state"), Normal("data")]) == Some(FolderItem)
        && policy.Has(d.Get(marker).value.content, d.Get(native).value.content)
  {
    assert CONFIG_ROOT + [Normal("config.json")] == [Normal("state"), Normal("config"), Normal("config.json")];
    assert CONFIG_ROOT + [Normal("gokapi.sqlite")] == [Normal("state"), Normal("config"), Normal("gokapi.sqlite")];
  }

  /** The first entry is a manifest that starts, or is, as given. */
  predicate OpensWith(entries: seq<Entry>, manifest: Bytes) {
    && entries != [] && entries[0].name == [Normal("manifest.json")] && entries[0].kind == Regular
    && |entries[0].content| <= 4096 && entries[0].content == manifest
  }

  /** What may be restored is named like an archive and opens with exactly this image's manifest; what a prune
      recognises is named so and opens with the manifest of any image. */
  lemma SelectableIff(shelf: Shelf, name: string, image: string)
    ensures Selectable(shelf, name, image) <==>
      && (exists n: nat :: TarStamp(name) == Some(n))
      && shelf.Get(name).Some? && shelf.Get(name).value.Tar?
      && OpensWith(shelf.Get(name).value.entries, "skillet-gokapi 1 " + image)
    ensures Recognised(shelf, name) <==>
      && (exists n: nat :: TarStamp(name) == Some(n))
      && shelf.Get(name).Some? && shelf.Get(name).value.Tar?
      && exists other: string :: OpensWith(shelf.Get(name).value.entries, "skillet-gokapi 1 " + other)
  {
    assert TarStamp(name).Some? <==> exists n: nat :: TarStamp(name) == Some(n);
    hide TarStamp;
    assert ManifestText("") == "skillet-gokapi 1 ";
    if Recognised(shelf, name) {
      var text := shelf.Get(name).value.entries[0].content;
      assert text == "skillet-gokapi 1 " + text[|ManifestText("")|..];
      assert OpensWith(shelf.Get(name).value.entries, "skillet-gokapi 1 " + text[|ManifestText("")|..]);
    }
  }

  /** What is put in place is exactly what the archive's entries at and under `state` say. */
  lemma RestoredHolds(entries: seq<Entry>, p: Name, item: Item)
    requires Unpack(entries, EMPTY).ok
    ensures Restored(entries).Get(p) == Some(item) <==> p != [] && p[0] == Normal("state") && HeldBy(entries, p, item)
  {
    AcceptedIff(entries);
  }

  // The run -------------------------------------------------------------------------------------

  /** The rename away works, the rename into place does not, and neither does the rename back. */
  predicate CutBetween(fates: seq<Fate>) {
    |fates| > 0 && fates[0].Works? && (|fates| > 1 ==> fates[1].Fails? && (|fates| > 2 ==> fates[2].Fails?))
  }

  function Drafted(shelf: Shelf, name: string): seq<Entry> {
    if shelf.Get(name).Some? && shelf.Get(name).value.Tar? then shelf.Get(name).value.entries else []
  }

  /** Only the pending archive changed. */
  predicate Apart(before: Shelf, after: Shelf, pending: string) {
    Shelf(after.files - {pending}) == Shelf(before.files - {pending})
  }

  /** The pending archive grew by exactly these entries. */
  predicate Grew(before: Shelf, after: Shelf, pending: string, more: seq<Entry>) {
    Apart(before, after, pending) && Drafted(after, pending) == Drafted(before, pending) + more
  }

  lemma GrewTwice(a: Shelf, b: Shelf, c: Shelf, pending: string, first: seq<Entry>, second: seq<Entry>)
    requires Grew(a, b, pending, first) && Grew(b, c, pending, second)
    ensures Grew(a, c, pending, first + second)
  {
  }

  lemma GrewIsApart(a: Shelf, b: Shelf, pending: string, more: seq<Entry>)
    requires Grew(a, b, pending, more)
    ensures Apart(a, b, pending)
  {
  }

  lemma ApartAfterGrowth(a: Shelf, b: Shelf, c: Shelf, pending: string, first: seq<Entry>)
    requires Grew(a, b, pending, first) && Apart(b, c, pending)
    ensures Apart(a, c, pending)
  {
  }

  lemma ApartTwice(a: Shelf, b: Shelf, c: Shelf, pending: string)
    requires Apart(a, b, pending) && Apart(b, c, pending)
    ensures Apart(a, c, pending)
  {
  }

  predicate SameBut(before: Shelf, after: Shelf, a: string, b: string) {
    Shelf(after.files - {a, b}) == Shelf(before.files - {a, b})
  }

  /** What a backup may have done to the directory wherever it stopped: its own archive is there complete
      or not at all, and no other name is touched but its pending one. */
  predicate PublishedWhole(before: Shelf, after: Shelf, stamp: nat, state: Node, image: string) {
    && SameBut(before, after, PendingName(stamp), TarName(stamp))
    && (after.Get(TarName(stamp)) == before.Get(TarName(stamp))
        || (before.Get(TarName(stamp)).None? && Archivable(state) && after.Get(TarName(stamp)) == Some(Tar(Written(state, image)))))
  }

  /** The names a backup wants to create. */
  predicate NamesFree(shelf: Shelf, stamp: nat) {
    shelf.Get(PendingName(stamp)).None? && shelf.Get(TarName(stamp)).None?
  }

  /** A healthy state has both trees and the marker; only special files below can still refuse it. */
  lemma HealthyShape(policy: Policy, state: Node, d: Disk)
    requires Lists(state, d) && Healthy(policy, d)
    ensures Child(state, CONFIG).Some? && Child(state, CONFIG).value.Folder?
    ensures Child(state, DATA).Some? && Child(state, DATA).value.Folder?
    ensures Child(state, MARKER).Some? && Child(state, MARKER).value.File?
  {
    var native: Name := CONFIG_ROOT + [Normal("config.json")];
    assert d.Get(MARKER_NAME) == Look(state, MARKER_NAME, 1);
    assert Look(Child(state, MARKER).value, MARKER_NAME, 2) == ItemOf(Child(state, MARKER).value);
    assert d.Get(DATA_ROOT) == Look(state, DATA_ROOT, 1);
    assert Look(Child(state, DATA).value, DATA_ROOT, 2) == ItemOf(Child(state, DATA).value);
    assert native[0] == STATE && native[1] == Normal(CONFIG) && |native| == 3;
    assert d.Get(native) == Look(state, native, 1);
    assert Look(state, native, 1) == Look(Child(state, CONFIG).value, native, 2);
  }

  lemma ApartIsSameBut(before: Shelf, after: Shelf, pending: string, other: string)
    requires Apart(before, after, pending)
    ensures SameBut(before, after, pending, other)
    ensures pending != other ==> after.Get(other) == before.Get(other)
  {
    assert after.files - {pending, other} == (after.files - {pending}) - {other};
    assert before.files - {pending, other} == (before.files - {pending}) - {other};
    if pending != other {
      assert Shelf(after.files - {pending}).Get(other) == Shelf(before.files - {pending}).Get(other);
    }
  }

  lemma TwoNames(stamp: nat)
    ensures PendingName(stamp) != TarName(stamp)
  {
    assert PendingName(stamp)[0] == '.' && TarName(stamp)[0] == 'g';
  }

  lemma LinkPublishes(before: Shelf, drafted: Shelf, stamp: nat, state: Node, image: string)
    requires Apart(before, drafted, PendingName(stamp)) && drafted.Get(TarName(stamp)).None?
    requires Archivable(state)
    ensures var linked := drafted.Put(TarName(stamp), Tar(Written(state, image)));
      && PublishedWhole(before, linked, stamp, state, image)
      && PublishedWhole(before, linked.Remove(PendingName(stamp)), stamp, state, image)
  {
    var pending, archive := PendingName(stamp), TarName(stamp);
    TwoNames(stamp);
    ApartIsSameBut(before, drafted, pending, archive);
    var linked := drafted.Put(archive, Tar(Written(state, image)));
    assert linked.files - {pending, archive} == drafted.files - {pending, archive};
    assert linked.Remove(pending).files - {pending, archive} == drafted.files - {pending, archive};
  }

  lemma CleaningKeeps(before: Shelf, after: Shelf, stamp: nat, state: Node, image: string)
    requires PublishedWhole(before, after, stamp, state, image)
    ensures PublishedWhole(before, after.Remove(PendingName(stamp)), stamp, state, image)
  {
    var pending, archive := PendingName(stamp), TarName(stamp);
    TwoNames(stamp);
    assert after.Remove(pending).files - {pending, archive} == after.files - {pending, archive};
  }

  /** The directory with the new archive and nothing else new. */
  function Added(before: Shelf, stamp: nat, state: Node, image: string): Shelf
    requires Archivable(state)
  {
    before.Put(TarName(stamp), Tar(Written(state, image)))
  }

  lemma WholeIsAdded(before: Shelf, after: Shelf, stamp: nat, state: Node, image: string)
    requires PublishedWhole(before, after, stamp, state, image) && NamesFree(before, stamp) && Archivable(state)
    requires after.Get(PendingName(stamp)).None? && after.Get(TarName(stamp)) == Some(Tar(Written(state, image)))
    ensures after == Added(before, stamp, state, image)
  {
    hide Written, TarName, PendingName;
    var pending, archive := PendingName(stamp), TarName(stamp);
    var added := Added(before, stamp, state, image);
    forall name: string ensures after.Get(name) == added.Get(name) {
      if name != pending && name != archive { OthersKept(before, after, stamp, state, image, name); }
    }
    SameGets(after, added);
  }

  lemma SameGets(a: Shelf, b: Shelf)
    requires forall name: string :: a.Get(name) == b.Get(name)
    ensures a == b
  {
    forall name: string ensures name in a.files <==> name in b.files {
      assert a.Get(name) == b.Get(name);
    }
    forall name: string | name in a.files ensures a.files[name] == b.files[name] {
      assert a.Get(name) == b.Get(name);
    }
    assert a.files == b.files;
  }

  lemma UntouchedIsWhole(shelf: Shelf, stamp: nat, state: Node, image: string)
    ensures PublishedWhole(shelf, shelf, stamp, state, image)
  {
  }

  /** What `validate_archive` demands of a name. */
  predicate Selectable(shelf: Shelf, name: string, image: string) {
    TarStamp(name).Some? && shelf.Get(name).Some? && shelf.Get(name).value.Tar?
    && ManifestOf(shelf.Get(name).value.entries) == Some(ManifestText(image))
  }

  /** The old state, the restored one, or, between the two renames, the old one beside its place. */
  predicate NothingLost(before: Option<Disk>, live: Option<Disk>, previous: Option<Disk>, restored: Disk) {
    live == before || live == Some(restored) || (live.None? && previous == before)
  }

  function Chosen(shelf: Shelf, name: string): Disk {
    Restored(Drafted(shelf, name))
  }

  function RestoreCost(shelf: Shelf, name: string): nat {
    |Drafted(shelf, name)| + 8
  }

  predicate CanRestore(policy: Policy, shelf: Shelf, name: string, image: string) {
    Selectable(shelf, name, image) && Restorable(policy, Drafted(shelf, name))
  }

  lemma ExpendableIff(shelf: Shelf, listing: seq<Mark>, name: string)
    requires Members(listing) == Marks(shelf) && Distinct(listing) && NamesDiffer(listing)
    ensures var s := Sort(listing, Older);
      Expendable(shelf, name) <==> Removing(s, if |s| > KEEP then |s| - KEEP else 0, name)
  {
    OlderIsStrict(listing);
    SortSound(listing, Older);
    var s := Sort(listing, Older);
    var n := if |s| > KEEP then |s| - KEEP else 0;
    assert forall y :: y in listing <==> y in Marks(shelf) by {
      assert forall y :: y in listing <==> y in Members(listing);
    }
    forall k | 0 <= k < |s| ensures Recognised(shelf, s[k].name) && s[k] == MarkOf(s[k].name) {
      assert s[k] in s;
    }
    if Recognised(shelf, name) {
      var x := MarkOf(name);
      assert x in Marks(shelf);
      TakenIff(listing, KEEP, x);
      assert After(listing, Older, x) == Newer(shelf, name);
      TakenByName(s, n, x);
    }
  }

  lemma TakenByName(s: seq<Mark>, n: nat, x: Mark)
    requires n <= |s| && forall k :: 0 <= k < |s| && s[k].name == x.name ==> s[k] == x
    ensures x in s[..n] <==> Removing(s, n, x.name)
  {
    if Removing(s, n, x.name) {
      var k :| 0 <= k < n && s[k].name == x.name;
      assert s[..n][k] == x;
    }
  }

  lemma NothingRemoved(archives: seq<Mark>, name: string)
    ensures !Removing(archives, 0, name)
  {
  }

  lemma RemovingNext(archives: seq<Mark>, i: nat, name: string)
    requires i < |archives|
    ensures Removing(archives, i + 1, name) <==> Removing(archives, i, name) || name == archives[i].name
  {
    if name == archives[i].name { assert Removing(archives, i + 1, name); }
    if Removing(archives, i, name) {
      var k :| 0 <= k < i && archives[k].name == name;
      assert Removing(archives, i + 1, name);
    }
  }

  lemma {:induction false} RemovingMore(archives: seq<Mark>, i: nat, n: nat, name: string)
    requires i <= n <= |archives| && Removing(archives, i, name)
    ensures Removing(archives, n, name)
  {
    var k :| 0 <= k < i && archives[k].name == name;
  }

  predicate Restorable(policy: Policy, entries: seq<Entry>) {
    Unpack(entries, EMPTY).ok && Healthy(policy, Unpack(entries, EMPTY).disk)
  }

  // Whole operations ----------------------------------------------------------------------------

  /** The clock is ahead of every recognised archive. */
  ghost predicate Newest(shelf: Shelf, stamp: nat) {
    stamp < LIMIT && forall name: string :: Recognised(shelf, name) ==> TarStamp(name).value < stamp
  }

  lemma OthersKept(before: Shelf, mid: Shelf, stamp: nat, state: Node, image: string, name: string)
    requires PublishedWhole(before, mid, stamp, state, image)
    requires name != PendingName(stamp) && name != TarName(stamp)
    ensures mid.Get(name) == before.Get(name)
  {
    var pending, archive := PendingName(stamp), TarName(stamp);
    assert Shelf(mid.files - {pending, archive}).Get(name) == Shelf(before.files - {pending, archive}).Get(name);
  }

  /** The newest archive is never pruned. */
  lemma NewestIsKept(before: Shelf, mid: Shelf, stamp: nat, state: Node, image: string, after: Shelf)
    requires PublishedWhole(before, mid, stamp, state, image) && Newest(before, stamp) && PrunedSoFar(mid, after)
    ensures after.Get(TarName(stamp)) == mid.Get(TarName(stamp))
  {
    hide PublishedWhole, Older, TarStamp;
    NamesAreTold(stamp);
    var archive := TarName(stamp);
    if Recognised(mid, archive) {
      forall y | y in Marks(mid) ensures !Older(MarkOf(archive), y) {
        if y.name != archive && y.name != PendingName(stamp) {
          OthersKept(before, mid, stamp, state, image, y.name);
          assert Recognised(before, y.name);
        }
        OlderMeans(MarkOf(archive), y);
      }
      assert Newer(mid, archive) == {};
    }
  }

  lemma OlderMeans(a: Mark, b: Mark)
    ensures Older(a, b) ==> a.stamp <= b.stamp
    ensures a.name == b.name && a.stamp == b.stamp ==> !Older(a, b)
  {
    LessIsStrict(a.name, b.name);
  }

  /** Publication, then removal of what that publication made expendable. */
  ghost predicate BackedUp(before: Shelf, after: Shelf, stamp: nat, state: Node, image: string) {
    exists mid: Shelf :: PublishedWhole(before, mid, stamp, state, image) && PrunedSoFar(mid, after)
  }

  lemma NotPrunedYet(before: Shelf, mid: Shelf, stamp: nat, state: Node, image: string)
    requires PublishedWhole(before, mid, stamp, state, image)
    ensures BackedUp(before, mid, stamp, state, image)
  {
    assert PrunedSoFar(mid, mid);
  }

  /** Publishing a backup leaves the selected archive as it was. */
  lemma SelectionIsKept(before: Shelf, mid: Shelf, stamp: nat, state: Node, image: string, name: string, policy: Policy)
    requires PublishedWhole(before, mid, stamp, state, image)
    requires Selectable(before, name, image) && NamesFree(before, stamp)
    ensures Chosen(mid, name) == Chosen(before, name) && RestoreCost(mid, name) == RestoreCost(before, name)
    ensures CanRestore(policy, mid, name, image) <==> CanRestore(policy, before, name, image)
  {
    OthersKept(before, mid, stamp, state, image, name);
  }

  lemma PendingIsNoArchive(stamp: nat)
    ensures TarStamp(PendingName(stamp)).None?
  {
    assert PendingName(stamp)[0] == '.' && TAR_PREFIX[0] == 'g';
  }

  lemma MarksAfter(before: Shelf, mid: Shelf, stamp: nat, state: Node, image: string)
    requires PublishedWhole(before, mid, stamp, state, image)
    ensures |Marks(mid)| <= |Marks(before)| + 1
  {
    hide PublishedWhole, TarStamp;
    PendingIsNoArchive(stamp);
    var archive := TarName(stamp);
    var one := if TarStamp(archive).Some? then {MarkOf(archive)} else {};
    forall y | y in Marks(mid) ensures y in Marks(before) + one {
      if y.name != archive {
        OthersKept(before, mid, stamp, state, image, y.name);
        assert Recognised(before, y.name);
      }
    }
    assert Marks(mid) <= Marks(before) + one;
    CountGrows(Marks(mid), Marks(before) + one);
  }

  /** A recovery archive of what was there has been published, before anything was removed. */
  ghost predicate SavedFirst(before: Shelf, after: Shelf, stamp: nat, state: Node, image: string) {
    Archivable(state) && NamesFree(before, stamp) && PrunedSoFar(Added(before, stamp, state, image), after)
  }

  lemma NothingPruned(shelf: Shelf)
    ensures PrunedSoFar(shelf, shelf)
  {
  }

  lemma ThenPruned(before: Shelf, mid: Shelf, after: Shelf, stamp: nat, state: Node, image: string)
    requires PublishedWhole(before, mid, stamp, state, image) && PrunedSoFar(mid, after)
    ensures BackedUp(before, after, stamp, state, image)
  {
  }

  class Gokapi {
    var shelf: Shelf
    var live: Option<Disk>
    var staged: Option<Disk>
    var previous: Option<Disk>
    var running: bool
    var fates: seq<Fate>
    const policy: Policy
    const image: string

    constructor (shelf: Shelf, live: Option<Disk>, running: bool, fates: seq<Fate>, policy: Policy, image: string)
      ensures this.shelf == shelf && this.live == live && this.running == running && this.fates == fates
      ensures staged.None? && previous.None? && this.policy == policy && this.image == image
    {
      this.shelf, this.live, this.running, this.fates := shelf, live, running, fates;
      this.staged, this.previous, this.policy, this.image := None, None, policy, image;
    }

    method Attempt() returns (r: Status<(), Error>)
      modifies this`fates
      ensures r.Ok? <==> Smooth(old(fates)) > 0
      ensures r.Ok? ==> Smooth(fates) == Smooth(old(fates)) - 1
      ensures r.Err? ==> r.error == if old(fates) == [] then Killed else Failed
      ensures old(fates) == [] ==> r.Err?
      ensures old(fates) != [] ==> fates == old(fates)[1..] && (r.Ok? <==> old(fates)[0].Works?)
      ensures r == Err(Killed) ==> fates == []
    {
      if fates == [] { return Err(Killed); }
      var fate := fates[0];
      fates := fates[1..];
      return if fate.Works? then Ok(()) else Err(Failed);
    }

    method Append(pending: string, e: Entry) returns (r: Status<(), Error>)
      modifies this`shelf, this`fates
      ensures Apart(old(shelf), shelf, pending)
      ensures r.Ok? <==> Smooth(old(fates)) > 0
      ensures r.Ok? ==> Smooth(fates) == Smooth(old(fates)) - 1 && Grew(old(shelf), shelf, pending, [e])
      ensures r.Err? ==> r.error in {Failed, Killed}
      ensures r == Err(Killed) ==> fates == []
    {
      var _ :- Attempt();
      shelf := shelf.Put(pending, Tar(Drafted(shelf, pending) + [e]));
      assert Shelf(shelf.files - {pending}) == Shelf(old(shelf).files - {pending});
      return Ok(());
    }

    method AppendTree(pending: string, name: Name, node: Node) returns (r: Status<(), Error>)
      modifies this`shelf, this`fates
      ensures Apart(old(shelf), shelf, pending)
      ensures r.Ok? <==> node.Folder? && Plain(node) && Smooth(old(fates)) >= |Flatten(name, node)|
      ensures r.Ok? ==> Smooth(fates) == Smooth(old(fates)) - |Flatten(name, node)| && Grew(old(shelf), shelf, pending, Flatten(name, node))
      ensures r.Err? ==> r.error in {Invalid, Failed, Killed}
      ensures r == Err(Killed) ==> fates == []
      decreases node
    {
      if !node.Folder? { return Err(Invalid); }
      hide Apart, Grew, Smooth, Drafted;
      ghost var written := [Entry(name, Directory, "")];
      var _ :- Append(pending, Entry(name, Directory, ""));
      var listing := node.children;
      while listing.Cons?
        invariant listing == node.children || listing < node.children
        invariant PlainAll(node.children) <==> PlainAll(listing)
        invariant Grew(old(shelf), shelf, pending, written)
        invariant written + FlattenAll(name, listing) == Flatten(name, node)
        invariant Smooth(fates) + |written| == Smooth(old(fates))
        decreases listing
      {
        var target := name + [Normal(listing.name)];
        ghost var before := shelf;
        ghost var more := Flatten(target, listing.node);
        assert written + more + FlattenAll(name, listing.rest) == Flatten(name, node);
        match listing.node {
          case Folder(_) => r := AppendTree(pending, target, listing.node);
          case File(content) => r := Append(pending, Entry(target, Regular, content));
          case Special =>
            GrewIsApart(old(shelf), shelf, pending, written);
            return Err(Invalid);
        }
        if r.Err? {
          ApartAfterGrowth(old(shelf), before, shelf, pending, written);
          return r;
        }
        GrewTwice(old(shelf), before, shelf, pending, written, more);
        written := written + more;
        listing := listing.rest;
      }
      assert written == Flatten(name, node);
      GrewIsApart(old(shelf), shelf, pending, written);
      return Ok(());
    }

    /** The pending archive, entry by entry. */
    method Draft(pending: string, state: Node) returns (r: Status<(), Error>)
      requires Child(state, CONFIG).Some? && Child(state, DATA).Some?
      requires Child(state, MARKER).Some? && Child(state, MARKER).value.File?
      modifies this`shelf, this`fates
      ensures Apart(old(shelf), shelf, pending)
      ensures r.Ok? <==> Archivable(state) && Smooth(old(fates)) >= |Written(state, image)|
      ensures r.Ok? ==> Smooth(fates) == Smooth(old(fates)) - |Written(state, image)| && Grew(old(shelf), shelf, pending, Written(state, image))
      ensures r.Err? ==> r.error in {Invalid, Failed, Killed}
      ensures r == Err(Killed) ==> fates == []
    {
      hide Apart, Grew, Smooth, Drafted, Plain, Flatten;
      ghost var s0 := shelf;
      var _ :- Append(pending, Entry([MANIFEST], Regular, ManifestText(image)));
      ghost var s1 := shelf;
      r := Append(pending, Entry([STATE], Directory, ""));
      if r.Err? { ApartAfterGrowth(s0, s1, shelf, pending, [Entry([MANIFEST], Regular, ManifestText(image))]); return r; }
      GrewTwice(s0, s1, shelf, pending, [Entry([MANIFEST], Regular, ManifestText(image))], [Entry([STATE], Directory, "")]);
      ghost var s2, head := shelf, Head(image);
      r := AppendTree(pending, CONFIG_ROOT, Child(state, CONFIG).value);
      if r.Err? { ApartAfterGrowth(s0, s2, shelf, pending, head); return r; }
      GrewTwice(s0, s2, shelf, pending, head, Flatten(CONFIG_ROOT, Child(state, CONFIG).value));
      ghost var s3, config := shelf, head + Flatten(CONFIG_ROOT, Child(state, CONFIG).value);
      r := AppendTree(pending, DATA_ROOT, Child(state, DATA).value);
      if r.Err? { ApartAfterGrowth(s0, s3, shelf, pending, config); return r; }
      GrewTwice(s0, s3, shelf, pending, config, Flatten(DATA_ROOT, Child(state, DATA).value));
      ghost var s4, data := shelf, config + Flatten(DATA_ROOT, Child(state, DATA).value);
      r := Append(pending, Entry(MARKER_NAME, Regular, Child(state, MARKER).value.content));
      if r.Err? { ApartAfterGrowth(s0, s4, shelf, pending, data); return r; }
      GrewTwice(s0, s4, shelf, pending, data, [Entry(MARKER_NAME, Regular, Child(state, MARKER).value.content)]);
      GrewIsApart(s0, shelf, pending, Written(state, image));
      return Ok(());
    }

    method Publish(state: Node, stamp: nat) returns (r: Status<string, Error>)
      requires Child(state, CONFIG).Some? && Child(state, DATA).Some?
      requires Child(state, MARKER).Some? && Child(state, MARKER).value.File?
      modifies this`shelf, this`fates
      ensures PublishedWhole(old(shelf), shelf, stamp, state, image)
      ensures r.Ok? <==> Archivable(state) && NamesFree(old(shelf), stamp) && Smooth(old(fates)) >= |Written(state, image)| + 6
      ensures r.Ok? ==> Smooth(fates) == Smooth(old(fates)) - |Written(state, image)| - 6
      ensures r.Ok? ==> r.value == TarName(stamp) && shelf.Get(PendingName(stamp)).None?
      ensures r.Ok? ==> shelf.Get(TarName(stamp)) == Some(Tar(Written(state, image)))
      ensures r == Err(Killed) ==> fates == []
    {
      hide Smooth, Plain, Flatten, Written, Print;
      ghost var s0 := shelf;
      TwoNames(stamp);
      var pending, archive := PendingName(stamp), TarName(stamp);
      var _ :- Attempt();
      if shelf.Get(pending).Some? { return Err(Failed); }
      shelf := shelf.Put(pending, Tar([]));
      ghost var s1 := shelf;
      assert Apart(s0, s1, pending) by { assert s1.files - {pending} == s0.files - {pending}; }
      ApartIsSameBut(s0, shelf, pending, archive);
      var _ :- Attempt();
      var drafted := Draft(pending, state);
      ApartTwice(s0, s1, shelf, pending);
      ApartIsSameBut(s0, shelf, pending, archive);
      if drafted.Err? { return Err(drafted.error); }
      ghost var s2 := shelf;
      assert Drafted(s2, pending) == Written(state, image);
      var _ :- Attempt();
      var _ :- Attempt();
      if shelf.Get(archive).Some? { return Err(Failed); }
      LinkPublishes(s0, s2, stamp, state, image);
      shelf := shelf.Put(archive, Tar(Drafted(shelf, pending)));
      var _ :- Attempt();
      shelf := shelf.Remove(pending);
      var _ :- Attempt();
      return Ok(archive);
    }

    /** A backup of the stopped service. It succeeds exactly for a healthy state of plain files under
        free names when every effect works, and wherever it stops it has published all or nothing. */
    method CreateStopped(state: Node, stamp: nat) returns (r: Status<string, Error>)
      requires !running && (live.Some? ==> Lists(state, live.value))
      modifies this`shelf, this`fates
      ensures PublishedWhole(old(shelf), shelf, stamp, state, image)
      ensures r.Ok? <==> live.Some? && Healthy(policy, live.value) && Archivable(state)
                         && NamesFree(old(shelf), stamp) && Smooth(old(fates)) >= |Written(state, image)| + 7
      ensures r.Ok? ==> Smooth(fates) == Smooth(old(fates)) - |Written(state, image)| - 7
      ensures r.Ok? ==> r.value == TarName(stamp) && shelf == Added(old(shelf), stamp, state, image)
      ensures r == Err(Killed) ==> fates == []
    {
      hide Smooth, Plain, Flatten, Written, Print, Healthy, Lists, PublishedWhole, Added;
      UntouchedIsWhole(shelf, stamp, state, image);
      if live.None? || !Healthy(policy, live.value) { return Err(Binding); }
      HealthyShape(policy, state, live.value);
      var _ :- Attempt();
      r := Publish(state, stamp);
      if r.Err? {
        CleaningKeeps(old(shelf), shelf, stamp, state, image);
        var cleaned := Attempt();
        if cleaned.Ok? { shelf := shelf.Remove(PendingName(stamp)); }
      } else {
        WholeIsAdded(old(shelf), shelf, stamp, state, image);
      }
    }

    /** Into the staging directory, entry by entry. */
    method Extract(entries: seq<Entry>) returns (r: Status<(), Error>)
      requires staged == Some(Disk(map[]))
      modifies this`staged, this`fates
      ensures staged.Some?
      ensures r.Ok? <==> Restorable(policy, entries) && Smooth(old(fates)) > |entries|
      ensures r.Ok? ==> staged == Some(Unpack(entries, EMPTY).disk) && Smooth(fates) == Smooth(old(fates)) - |entries| - 1
      ensures r == Err(Killed) ==> fates == []
    {
      hide Healthy, Smooth, Confined, Creatable;
      var seen, disk := Names({}), Disk(map[]);
      for i := 0 to |entries|
        invariant staged == Some(disk)
        invariant Unpack(entries[..i], EMPTY) == Stage(seen, disk, true)
        invariant Smooth(fates) == Smooth(old(fates)) - i
      {
        var e := entries[i];
        assert entries[..i + 1][..i] == entries[..i];
        if seen.Has(e.name) || !Confined(e.name) || e.kind.OtherKind? {
          StaysBroken(entries, i + 1, EMPTY);
          return Err(Invalid);
        }
        seen := seen.Add(e.name);
        if !Creatable(disk, e.name) {
          StaysBroken(entries, i + 1, EMPTY);
          return Err(Failed);
        }
        var _ :- Attempt();
        disk := disk.Put(e.name, Stored(e));
        staged := Some(disk);
      }
      assert entries[..|entries|] == entries;
      if !Healthy(policy, disk) { return Err(Binding); }
      r := Attempt();
    }

    /** The two renames and the removal of what they leave beside. */
    method Swap() returns (r: Status<(), Error>)
      requires staged.Some? && previous.None?
      modifies this`live, this`staged, this`previous, this`fates
      ensures NothingLost(old(live), live, previous, StateOf(old(staged).value))
      ensures old(live).Some? && live.None? ==> r.Err? && r.error in {Stranded, Killed}
      ensures old(live).Some? ==> (live.None? <==> CutBetween(old(fates)))
      ensures r.Ok? <==> old(live).Some? && Smooth(old(fates)) >= 5
      ensures r.Ok? ==> live == Some(StateOf(old(staged).value)) && staged.None? && previous.None?
      ensures r.Ok? ==> Smooth(fates) == Smooth(old(fates)) - 5
      ensures r == Err(Killed) ==> fates == []
    {
      hide Smooth, StateOf;
      var _ :- Attempt();
      if live.None? { return Err(Failed); }
      live, previous := None, live;
      var swapped := Attempt();
      if swapped.Err? {
        var back := Attempt();
        if back.Err? { return Err(if back.error == Killed then Killed else Stranded); }
        live, previous := previous, None;
        return Err(Failed);
      }
      live, staged := Some(StateOf(staged.value)), Some(Disk(map[]));
      var _ :- Attempt();
      var _ :- Attempt();
      previous := None;
      var _ :- Attempt();
      staged := None;
      return Ok(());
    }

    /** Swapping in an archive. However it ends, nothing is lost; and if it returns at all, the state is
        in place unless the rename that should bring the old one back failed as well. */
    method ReplaceState(name: string) returns (r: Status<(), Error>)
      requires !running && staged.None? && previous.None?
      modifies this`live, this`staged, this`previous, this`fates
      ensures NothingLost(old(live), live, previous, Chosen(shelf, name))
      ensures !Selectable(shelf, name, image) ==> live == old(live)
      ensures old(live).Some? && live.None? ==> r.Err? && r.error in {Stranded, Killed}
      ensures r.Ok? <==> old(live).Some? && CanRestore(policy, shelf, name, image) && Smooth(old(fates)) >= RestoreCost(shelf, name)
      ensures r.Ok? ==> live == Some(Chosen(shelf, name)) && staged.None? && previous.None?
      ensures r.Ok? ==> Smooth(fates) == Smooth(old(fates)) - RestoreCost(shelf, name)
      ensures r == Err(Killed) ==> fates == []
    {
      hide Healthy, Smooth, Unpack, StateOf;
      if !Selectable(shelf, name, image) { return Err(Binding); }
      var entries := shelf.Get(name).value.entries;
      var _ :- Attempt();
      staged := Some(Disk(map[]));
      var _ :- Attempt();
      r := Extract(entries);
      if r.Err? {
        var cleaned := Attempt();
        if cleaned.Ok? { staged := None; }
        return r;
      }
      r := Swap();
    }

    /** The first archives of the list, one by one. */
    method RemoveFirst(archives: seq<Mark>, n: nat) returns (r: Status<(), Error>)
      requires n <= |archives|
      modifies this`shelf, this`fates
      ensures forall name: string :: shelf.Get(name) == old(shelf).Get(name) || (shelf.Get(name).None? && Removing(archives, n, name))
      ensures r.Ok? ==> forall name: string :: shelf.Get(name) == if Removing(archives, n, name) then None else old(shelf).Get(name)
      ensures r.Ok? <==> Smooth(old(fates)) >= n
      ensures r.Ok? ==> Smooth(fates) == Smooth(old(fates)) - n
      ensures r == Err(Killed) ==> fates == []
    {
      hide Smooth, Removing;
      var i := 0;
      forall name: string ensures !Removing(archives, 0, name) { NothingRemoved(archives, name); }
      while i < n
        invariant 0 <= i <= n
        invariant Smooth(fates) == Smooth(old(fates)) - i
        invariant forall name: string :: shelf.Get(name) == if Removing(archives, i, name) then None else old(shelf).Get(name)
      {
        forall name: string ensures Removing(archives, i, name) ==> Removing(archives, n, name) {
          if Removing(archives, i, name) { RemovingMore(archives, i, n, name); }
        }
        var _ :- Attempt();
        ghost var before := shelf;
        shelf := shelf.Remove(archives[i].name);
        forall name: string ensures shelf.Get(name) == if Removing(archives, i + 1, name) then None else old(shelf).Get(name) {
          RemovingNext(archives, i, name);
          assert before.Get(name) == if Removing(archives, i, name) then None else old(shelf).Get(name);
        }
        i := i + 1;
      }
      return Ok(());
    }

    method Prune() returns (r: Status<(), Error>)
      modifies this`shelf, this`fates
      ensures PrunedSoFar(old(shelf), shelf)
      ensures r.Ok? ==> Pruned(old(shelf), shelf)
      ensures Smooth(old(fates)) > |Marks(old(shelf))| ==> r.Ok? && Smooth(fates) >= Smooth(old(fates)) - |Marks(old(shelf))| - 1
      ensures r == Err(Killed) ==> fates == []
    {
      hide Smooth, Sort, Older, TarStamp, IsBackup, Expendable, Removing;
      var _ :- Attempt();
      var listing := ListArchives();
      OlderIsStrict(listing);
      SortSound(listing, Older);
      var archives := Sort(listing, Older);
      MembersCount(listing);
      var remove := if |archives| > KEEP then |archives| - KEEP else 0;
      forall name: string ensures Expendable(shelf, name) <==> Removing(archives, remove, name) {
        ExpendableIff(shelf, listing, name);
      }
      r := RemoveFirst(archives, remove);
    }

    /** The recognised archives, in whatever order the directory lists them. */
    method ListArchives() returns (archives: seq<Mark>)
      ensures Members(archives) == Marks(shelf)
      ensures Distinct(archives) && NamesDiffer(archives)
    {
      archives := [];
      var todo := shelf.files.Keys;
      while todo != {}
        invariant todo <= shelf.files.Keys
        invariant forall x :: x in archives <==> x.name in shelf.files && x.name !in todo && Recognised(shelf, x.name) && x == MarkOf(x.name)
        invariant Distinct(archives)
        decreases |todo|
      {
        var name :| name in todo;
        todo := todo - {name};
        if Recognised(shelf, name) {
          archives := archives + [MarkOf(name)];
        }
      }
      forall x ensures x in Members(archives) <==> x in Marks(shelf) {
      }
    }

    /** A healthy state of plain files, and names that are free. */
    ghost predicate CanBackUp(before: Option<Disk>, shelf: Shelf, state: Node, stamp: nat) {
      before.Some? && Healthy(policy, before.value) && Archivable(state) && NamesFree(shelf, stamp)
    }

    /** Effects that finish a backup. */
    ghost function BackupCost(shelf: Shelf, state: Node): nat {
      14 + (if Archivable(state) then |Written(state, image)| else 0) + |Marks(shelf)|
    }

    /** A backup that can be taken, and a healthy selected archive. */
    ghost predicate Ready(before: Option<Disk>, shelf: Shelf, name: string, state: Node, stamp: nat) {
      CanBackUp(before, shelf, state, stamp) && CanRestore(policy, shelf, name, image)
    }

    /** Effects that finish a restore. */
    ghost function Enough(shelf: Shelf, name: string, state: Node): nat {
      15 + (if Archivable(state) then |Written(state, image)| else 0) + RestoreCost(shelf, name) + |Marks(shelf)|
    }

    method Stop() returns (r: Status<bool, Error>)
      modifies this`running, this`fates
      ensures r.Ok? <==> Smooth(old(fates)) >= if old(running) then 2 else 1
      ensures r.Ok? ==> r.value == old(running) && !running && Smooth(fates) == Smooth(old(fates)) - if old(running) then 2 else 1
      ensures r.Err? ==> running == old(running) && r.error in {Failed, Killed}
      ensures r == Err(Killed) ==> fates == []
    {
      hide Smooth;
      var _ :- Attempt();
      var active := running;
      if active {
        var _ :- Attempt();
        running := false;
      }
      return Ok(active);
    }

    /** Whatever the result, a service that was stopped is started again. */
    method Finish(result: Status<string, Error>, active: bool) returns (r: Status<string, Error>)
      requires !running && (result == Err(Killed) ==> fates == [])
      modifies this`running, this`fates
      ensures (r.Err? && r.error in {NotRestarted, Killed}) || (running == active && r == result)
      ensures !active || Smooth(old(fates)) > 0 ==> r == result
      ensures r.Ok? ==> result.Ok? && running == active
      ensures r == Err(Killed) ==> fates == []
    {
      hide Smooth;
      if active {
        var started := Attempt();
        if started.Err? { return Err(if started.error == Killed then Killed else NotRestarted); }
        running := true;
      }
      return result;
    }

    method Create(state: Node, stamp: nat) returns (r: Status<string, Error>)
      requires live.Some? ==> Lists(state, live.value)
      modifies this`shelf, this`fates, this`running
      ensures BackedUp(old(shelf), shelf, stamp, state, image)
      ensures running == old(running) || (r.Err? && r.error in {NotRestarted, Killed})
      ensures r.Ok? ==> CanBackUp(live, old(shelf), state, stamp)
      ensures Smooth(old(fates)) >= BackupCost(old(shelf), state) ==> (r.Ok? <==> CanBackUp(live, old(shelf), state, stamp))
      ensures r.Ok? ==> r.value == TarName(stamp) && Archivable(state) && Pruned(Added(old(shelf), stamp, state, image), shelf)
      ensures r.Ok? && Newest(old(shelf), stamp) ==> shelf.Get(r.value) == Some(Tar(Written(state, image)))
    {
      hide Smooth, PublishedWhole, PrunedSoFar, Pruned, Print, Written, Healthy, Lists, Plain, Newest;
      UntouchedIsWhole(shelf, stamp, state, image);
      NotPrunedYet(old(shelf), shelf, stamp, state, image);
      var _ :- Attempt();
      var active :- Stop();
      var result := CreateAndPrune(state, stamp);
      r := Finish(result, active);
    }

    method CreateAndPrune(state: Node, stamp: nat) returns (r: Status<string, Error>)
      requires !running && (live.Some? ==> Lists(state, live.value))
      modifies this`shelf, this`fates
      ensures BackedUp(old(shelf), shelf, stamp, state, image)
      ensures r.Ok? ==> CanBackUp(live, old(shelf), state, stamp)
      ensures CanBackUp(live, old(shelf), state, stamp) && Smooth(old(fates)) + 3 >= BackupCost(old(shelf), state) ==>
        r.Ok? && Smooth(fates) + BackupCost(old(shelf), state) >= Smooth(old(fates)) + 4
      ensures r.Ok? ==> r.value == TarName(stamp) && Archivable(state) && Pruned(Added(old(shelf), stamp, state, image), shelf)
      ensures r.Ok? && Newest(old(shelf), stamp) ==> shelf.Get(r.value) == Some(Tar(Written(state, image)))
      ensures r == Err(Killed) ==> fates == []
    {
      hide Smooth, PublishedWhole, PrunedSoFar, Pruned, Print, Written, Healthy, Lists, Plain, Newest, Marks;
      UntouchedIsWhole(shelf, stamp, state, image);
      NotPrunedYet(old(shelf), shelf, stamp, state, image);
      var _ :- Attempt();
      r := CreateStopped(state, stamp);
      NotPrunedYet(old(shelf), shelf, stamp, state, image);
      if r.Err? { return r; }
      ghost var mid := shelf;
      MarksAfter(old(shelf), mid, stamp, state, image);
      var pruned := Prune();
      if Newest(old(shelf), stamp) { NewestIsKept(old(shelf), mid, stamp, state, image, shelf); }
      if pruned.Err? { return Err(pruned.error); }
    }

    method RestoreStopped(name: string, state: Node, stamp: nat) returns (r: Status<string, Error>)
      requires !running && (live.Some? ==> Lists(state, live.value))
      requires staged.None? && previous.None? && Selectable(shelf, name, image)
      modifies this`shelf, this`live, this`staged, this`previous, this`fates
      ensures NothingLost(old(live), live, previous, Chosen(old(shelf), name))
      ensures old(live).Some? && live.None? ==> r.Err? && r.error in {Stranded, Killed}
      ensures BackedUp(old(shelf), shelf, stamp, state, image)
      ensures live != old(live) ==> SavedFirst(old(shelf), shelf, stamp, state, image)
      ensures r.Ok? ==> Ready(old(live), old(shelf), name, state, stamp) && live == Some(Chosen(old(shelf), name))
      ensures r.Ok? ==> r.value == TarName(stamp) && Pruned(Added(old(shelf), stamp, state, image), shelf)
      ensures r.Ok? && Newest(old(shelf), stamp) ==> shelf.Get(r.value) == Some(Tar(Written(state, image)))
      ensures Ready(old(live), old(shelf), name, state, stamp) && Smooth(old(fates)) + 4 >= Enough(old(shelf), name, state) ==>
        r.Ok? && Smooth(fates) + Enough(old(shelf), name, state) >= Smooth(old(fates)) + 5
      ensures r == Err(Killed) ==> fates == []
    {
      hide Smooth, PublishedWhole, PrunedSoFar, Pruned, Print, Healthy, Lists, Plain, Newest, Written, Marks, Chosen, RestoreCost, CanRestore, BackedUp;
      hide TarStamp, PendingName, TarName;
      UntouchedIsWhole(shelf, stamp, state, image);
      NotPrunedYet(old(shelf), shelf, stamp, state, image);
      var _ :- Attempt();
      r := CreateStopped(state, stamp);
      NotPrunedYet(old(shelf), shelf, stamp, state, image);
      if r.Err? { return r; }
      ghost var mid := shelf;
      NothingPruned(mid);
      SelectionIsKept(old(shelf), mid, stamp, state, image, name, policy);
      var replaced := ReplaceState(name);
      if replaced.Err? { return Err(replaced.error); }
      MarksAfter(old(shelf), mid, stamp, state, image);
      var pruned := Prune();
      ThenPruned(old(shelf), mid, shelf, stamp, state, image);
      if Newest(old(shelf), stamp) { NewestIsKept(old(shelf), mid, stamp, state, image, shelf); }
      if pruned.Err? { return Err(pruned.error); }
    }

    /** Whatever fails, nothing is lost and the service ends as it was found, or the error says otherwise.
        On success the selected state is in place and a recovery archive of the one before it is kept;
        a healthy selection succeeds however many archives are ahead of it, because pruning comes last. */
    method Restore(name: string, state: Node, stamp: nat) returns (r: Status<string, Error>)
      requires live.Some? ==> Lists(state, live.value)
      requires staged.None? && previous.None?
      modifies this
      ensures NothingLost(old(live), live, previous, Chosen(old(shelf), name))
      ensures old(live).Some? && live.None? ==> r.Err? && r.error in {Stranded, NotRestarted, Killed}
      ensures running == old(running) || (r.Err? && r.error in {NotRestarted, Killed})
      ensures !Selectable(old(shelf), name, image) ==> r == Err(Binding) && shelf == old(shelf) && live == old(live) && fates == old(fates)
      ensures BackedUp(old(shelf), shelf, stamp, state, image)
      ensures live != old(live) ==> SavedFirst(old(shelf), shelf, stamp, state, image)
      ensures r.Ok? ==> Ready(old(live), old(shelf), name, state, stamp) && live == Some(Chosen(old(shelf), name))
      ensures r.Ok? ==> r.value == TarName(stamp) && Pruned(Added(old(shelf), stamp, state, image), shelf)
      ensures r.Ok? && Newest(old(shelf), stamp) ==> shelf.Get(r.value) == Some(Tar(Written(state, image)))
      ensures Ready(old(live), old(shelf), name, state, stamp) && Smooth(old(fates)) >= Enough(old(shelf), name, state) ==> r.Ok?
    {
      hide Smooth, PublishedWhole, PrunedSoFar, Print, Healthy, Lists, Plain, Newest, Restorable, Written, Marks, Restored, Drafted;
      UntouchedIsWhole(shelf, stamp, state, image);
      NotPrunedYet(old(shelf), shelf, stamp, state, image);
      if !Selectable(shelf, name, image) { return Err(Binding); }
      var _ :- Attempt();
      var active :- Stop();
      var result := RestoreStopped(name, state, stamp);
      r := Finish(result, active);
    }
  }
}
