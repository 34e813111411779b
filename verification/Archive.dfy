/** Paired archives as entry lists: what is written for a state directory, what is accepted back, and
    what is then on the disk. */
module Archive {
  import opened Runs

  type Bytes = string

  /** A path is compared component by component. */
  datatype Component = Root | Current | Parent | Normal(name: string)

  type Name = seq<Component>

  const STATE := Normal("state")
  const MANIFEST := Normal("manifest.json")
  const CONFIG := "config"
  const DATA := "data"
  const MARKER := ".skillet-initial.json"

  datatype Kind = Regular | Directory | OtherKind

  datatype Entry = Entry(name: Name, kind: Kind, content: Bytes)

  // Trees ---------------------------------------------------------------------------------------

  /** A directory's children in the order in which it lists them; `Special` is neither a regular file nor
      a directory. */
  datatype Node = File(content: Bytes) | Folder(children: Forest) | Special

  datatype Forest = Nil | Cons(name: string, node: Node, rest: Forest)

  datatype Item = FileItem(content: Bytes) | FolderItem

  function Find(f: Forest, name: string): Option<Node> {
    match f
    case Nil => None
    case Cons(n, node, rest) => if n == name then Some(node) else Find(rest, name)
  }

  function Child(node: Node, name: string): Option<Node> {
    if node.Folder? then Find(node.children, name) else None
  }

  function ItemOf(node: Node): Option<Item> {
    match node
    case File(content) => Some(FileItem(content))
    case Folder(_) => Some(FolderItem)
    case Special => None
  }

  /** What lies below `node` at the components of `p` from `i` on. */
  function Look(node: Node, p: Name, i: nat): Option<Item>
    requires i <= |p|
    decreases |p| - i
  {
    if i == |p| then ItemOf(node)
    else if !p[i].Normal? then None
    else match Child(node, p[i].name)
      case None => None
      case Some(c) => Look(c, p, i + 1)
  }

  /** A directory lists no name twice. */
  predicate WellNamed(node: Node) {
    node.Folder? ==> WellNamedAll(node.children)
  }

  predicate WellNamedAll(f: Forest) {
    f.Cons? ==> Find(f.rest, f.name).None? && WellNamed(f.node) && WellNamedAll(f.rest)
  }

  predicate Plain(node: Node) {
    !node.Special? && (node.Folder? ==> PlainAll(node.children))
  }

  predicate PlainAll(f: Forest) {
    f.Cons? ==> Plain(f.node) && PlainAll(f.rest)
  }

  // Writing -------------------------------------------------------------------------------------

  function Flatten(prefix: Name, node: Node): seq<Entry>
    decreases node
  {
    match node
    case File(content) => [Entry(prefix, Regular, content)]
    case Folder(children) => [Entry(prefix, Directory, "")] + FlattenAll(prefix, children)
    case Special => []
  }

  function FlattenAll(prefix: Name, f: Forest): seq<Entry>
    decreases f
  {
    if f.Nil? then [] else Flatten(prefix + [Normal(f.name)], f.node) + FlattenAll(prefix, f.rest)
  }

  // Extracting ----------------------------------------------------------------------------------

  datatype Disk = Disk(at: map<Name, Item>) {
    function Get(p: Name): Option<Item> { if p in at then Some(at[p]) else None }
    function Put(p: Name, item: Item): Disk { Disk(at[p := item]) }
  }

  datatype Names = Names(members: set<Name>) {
    predicate Has(p: Name) { p in members }
    function Add(p: Name): Names { Names(members + {p}) }
  }

  /** The directory being filled, below its own root. */
  datatype Stage = Stage(seen: Names, disk: Disk, ok: bool)

  const EMPTY := Stage(Names({}), Disk(map[]), true)

  predicate Confined(p: Name) {
    && (forall i :: 0 <= i < |p| ==> p[i].Normal?)
    && (p == [MANIFEST] || [STATE] <= p)
  }

  predicate Acceptable(e: Entry) {
    Confined(e.name) && !e.kind.OtherKind?
  }

  function Stored(e: Entry): Item {
    if e.kind.Directory? then FolderItem else FileItem(e.content)
  }

  /** Both `create_dir` and `create_new` want a parent directory and a name that is free. */
  predicate Creatable(d: Disk, p: Name) {
    d.Get(p).None? && (|p| > 1 ==> d.Get(p[..|p| - 1]) == Some(FolderItem))
  }

  function Step(w: Stage, e: Entry): Stage {
    if !w.ok then w
    else if w.seen.Has(e.name) || !Acceptable(e) then w.(ok := false)
    else if !Creatable(w.disk, e.name) then Stage(w.seen.Add(e.name), w.disk, false)
    else Stage(w.seen.Add(e.name), w.disk.Put(e.name, Stored(e)), true)
  }

  function Unpack(entries: seq<Entry>, w: Stage): Stage
    decreases |entries|
  {
    if entries == [] then w else Step(Unpack(entries[..|entries| - 1], w), entries[|entries| - 1])
  }

  lemma {:induction false} StaysBroken(entries: seq<Entry>, i: nat, w: Stage)
    requires i <= |entries| && !Unpack(entries[..i], w).ok
    ensures !Unpack(entries, w).ok
    decreases |entries|
  {
    if i == |entries| {
      assert entries[..i] == entries;
    } else {
      assert entries[..|entries| - 1][..i] == entries[..i];
      StaysBroken(entries[..|entries| - 1], i, w);
    }
  }

  lemma {:induction false} UnpackSplit(a: seq<Entry>, b: seq<Entry>, w: Stage)
    ensures Unpack(a + b, w) == Unpack(b, Unpack(a, w))
    decreases |b|
  {
    if b == [] {
      assert a + b == a;
    } else {
      assert (a + b)[..|a + b| - 1] == a + b[..|b| - 1];
      UnpackSplit(a, b[..|b| - 1], w);
    }
  }

  // What is accepted ----------------------------------------------------------------------------

  predicate Supported(entries: seq<Entry>, i: nat)
    requires i < |entries|
  {
    var p := entries[i].name;
    |p| > 1 ==> exists j :: 0 <= j < i && entries[j].kind.Directory? && entries[j].name == p[..|p| - 1]
  }

  predicate Unused(entries: seq<Entry>, i: nat)
    requires i < |entries|
  {
    forall j :: 0 <= j < i ==> entries[j].name != entries[i].name
  }

  /** A regular file or a directory, of ordinary components, that is the manifest or at or under `state`. */
  predicate Permitted(e: Entry) {
    && e.kind in {Regular, Directory}
    && (forall i :: 0 <= i < |e.name| ==> e.name[i].Normal?)
    && (e.name == [Normal("manifest.json")] || (e.name != [] && e.name[0] == Normal("state")))
  }

  predicate Fits(entries: seq<Entry>, i: nat)
    requires i < |entries|
  {
    Permitted(entries[i]) && Supported(entries, i) && Unused(entries, i)
  }

  lemma PermittedIff(e: Entry)
    ensures Permitted(e) <==> Acceptable(e)
  {
  }

  /** Every name unique, relative, under `state` or the manifest, plain, and after the directory that
      holds it. */
  predicate Orderly(entries: seq<Entry>) {
    forall i :: 0 <= i < |entries| ==> Fits(entries, i)
  }

  ghost predicate HeldBy(entries: seq<Entry>, p: Name, item: Item) {
    exists i :: 0 <= i < |entries| && entries[i].name == p && Makes(entries[i], item)
  }

  predicate Makes(e: Entry, item: Item) {
    if e.kind == Directory then item == FolderItem else item == FileItem(e.content)
  }

  /** The disk holds what the entries say and nothing else. */
  ghost predicate Mirrors(entries: seq<Entry>, w: Stage) {
    && (forall p: Name :: w.seen.Has(p) <==> w.disk.Get(p).Some?)
    && (forall p: Name, item: Item :: w.disk.Get(p) == Some(item) <==> HeldBy(entries, p, item))
  }

  /** An archive is accepted exactly when its entries are orderly; what is then on disk is what the
      entries say and nothing else. */
  lemma {:induction false} AcceptedIff(entries: seq<Entry>)
    ensures Unpack(entries, EMPTY).ok <==> Orderly(entries)
    ensures Orderly(entries) ==> Mirrors(entries, Unpack(entries, EMPTY))
    decreases |entries|
  {
    hide Fits, Mirrors;
    if entries == [] {
      NothingHeld();
    } else {
      var n := |entries| - 1;
      AcceptedIff(entries[..n]);
      OrderlyInit(entries);
      if Orderly(entries[..n]) {
        LastIff(entries, Unpack(entries[..n], EMPTY));
      }
    }
  }

  lemma NothingHeld()
    ensures Mirrors([], EMPTY)
  {
    forall p: Name, item: Item ensures !HeldBy([], p, item) {
    }
  }

  lemma OrderlyInit(entries: seq<Entry>)
    requires entries != []
    ensures Orderly(entries) <==> Orderly(entries[..|entries| - 1]) && Fits(entries, |entries| - 1)
  {
    var n := |entries| - 1;
    forall i | 0 <= i < n ensures Fits(entries, i) <==> Fits(entries[..n], i) {
    }
  }

  lemma HeldInit(entries: seq<Entry>, p: Name, item: Item)
    requires entries != []
    ensures HeldBy(entries, p, item) <==>
      HeldBy(entries[..|entries| - 1], p, item) || (entries[|entries| - 1].name == p && Makes(entries[|entries| - 1], item))
  {
    var n := |entries| - 1;
    if i :| 0 <= i < |entries| && entries[i].name == p && Makes(entries[i], item) {
      if i < n { assert entries[..n][i] == entries[i]; }
    }
  }

  lemma LastIff(entries: seq<Entry>, w: Stage)
    requires entries != [] && w.ok && Mirrors(entries[..|entries| - 1], w)
    ensures Step(w, entries[|entries| - 1]).ok <==> Fits(entries, |entries| - 1)
    ensures Fits(entries, |entries| - 1) ==> Mirrors(entries, Step(w, entries[|entries| - 1]))
  {
    var n := |entries| - 1;
    PermittedIff(entries[n]);
    UnusedIff(entries, w);
    SupportedIff(entries, w);
    var r := Step(w, entries[n]);
    if r.ok {
      forall p: Name, item: Item ensures r.disk.Get(p) == Some(item) <==> HeldBy(entries, p, item) {
        HeldInit(entries, p, item);
        assert w.disk.Get(p) == Some(item) <==> HeldBy(entries[..n], p, item);
      }
      forall p: Name ensures r.seen.Has(p) <==> r.disk.Get(p).Some? {
        assert w.seen.Has(p) <==> w.disk.Get(p).Some?;
      }
    }
  }

  lemma UnusedIff(entries: seq<Entry>, w: Stage)
    requires entries != [] && Mirrors(entries[..|entries| - 1], w)
    ensures w.seen.Has(entries[|entries| - 1].name) <==> !Unused(entries, |entries| - 1)
  {
    var n := |entries| - 1;
    var init, e := entries[..n], entries[n];
    if w.seen.Has(e.name) {
      assert HeldBy(init, e.name, w.disk.Get(e.name).value);
    }
    if j :| 0 <= j < n && entries[j].name == e.name {
      assert init[j] == entries[j];
      assert HeldBy(init, e.name, Stored(init[j]));
    }
  }

  lemma SupportedIff(entries: seq<Entry>, w: Stage)
    requires entries != [] && Mirrors(entries[..|entries| - 1], w)
    ensures var p := entries[|entries| - 1].name;
      (|p| > 1 ==> w.disk.Get(p[..|p| - 1]) == Some(FolderItem)) <==> Supported(entries, |entries| - 1)
  {
    var n := |entries| - 1;
    var init, e := entries[..n], entries[n];
    if |e.name| > 1 {
      var above := e.name[..|e.name| - 1];
      assert w.disk.Get(above) == Some(FolderItem) <==> HeldBy(init, above, FolderItem);
      if j :| 0 <= j < n && entries[j].kind.Directory? && entries[j].name == above {
        assert init[j] == entries[j];
        assert HeldBy(init, above, FolderItem);
      }
    }
  }

  // The round trip ------------------------------------------------------------------------------

  predicate Below(prefix: Name, p: Name) {
    |prefix| <= |p| && p[..|prefix|] == prefix
  }

  predicate Free(w: Stage, p: Name) {
    !w.seen.Has(p) && w.disk.Get(p).None?
  }

  predicate Same(w: Stage, r: Stage, p: Name) {
    r.disk.Get(p) == w.disk.Get(p) && r.seen.Has(p) == w.seen.Has(p)
  }

  predicate Shows(r: Stage, p: Name, item: Option<Item>) {
    r.disk.Get(p) == item && r.seen.Has(p) == item.Some?
  }

  ghost predicate Vacant(prefix: Name, w: Stage) {
    && w.ok && |prefix| > 0 && Confined(prefix)
    && (|prefix| > 1 ==> w.disk.Get(prefix[..|prefix| - 1]) == Some(FolderItem))
    && (forall p: Name :: Below(prefix, p) ==> Free(w, p))
  }

  ghost predicate Grafted(prefix: Name, node: Node, w: Stage, r: Stage) {
    && r.ok
    && (forall p: Name :: Below(prefix, p) ==> Shows(r, p, Look(node, p, |prefix|)))
    && (forall p: Name :: !Below(prefix, p) ==> Same(w, r, p))
  }

  /** `p` goes through one of the listed children. */
  predicate Through(prefix: Name, f: Forest, p: Name) {
    Below(prefix, p) && |p| > |prefix| && p[|prefix|].Normal? && Find(f, p[|prefix|].name).Some?
  }

  ghost predicate VacantAll(prefix: Name, f: Forest, w: Stage) {
    && w.ok && [STATE] <= prefix && Confined(prefix)
    && w.disk.Get(prefix) == Some(FolderItem)
    && (forall p: Name :: Through(prefix, f, p) ==> Free(w, p))
  }

  ghost predicate GraftedAll(prefix: Name, f: Forest, w: Stage, r: Stage) {
    && r.ok
    && (forall p: Name :: Through(prefix, f, p) ==> Shows(r, p, Look(Find(f, p[|prefix|].name).value, p, |prefix| + 1)))
    && (forall p: Name :: !Through(prefix, f, p) ==> Same(w, r, p))
  }

  /** Extracting what was written for a tree puts that tree on the disk, below its prefix, and changes
      nothing else, whatever order its directories were listed in. */
  lemma {:induction false} TreeIsGrafted(prefix: Name, node: Node, w: Stage)
    requires Plain(node) && WellNamed(node) && Vacant(prefix, w)
    requires node.Folder? ==> [STATE] <= prefix
    ensures Grafted(prefix, node, w, Unpack(Flatten(prefix, node), w))
    decreases node
  {
    assert Below(prefix, prefix) by { assert prefix[..|prefix|] == prefix; }
    assert Free(w, prefix);
    match node {
      case File(content) =>
        var e := Entry(prefix, Regular, content);
        assert Unpack([e], w) == Step(Unpack([], w), e);
        FileIsGrafted(prefix, content, w, Step(w, e));
      case Folder(children) =>
        var e := Entry(prefix, Directory, "");
        assert Unpack([e], w) == Step(Unpack([], w), e);
        var w1 := Step(w, e);
        UnpackSplit([e], FlattenAll(prefix, children), w);
        FolderIsVacant(prefix, children, w, w1);
        ForestIsGrafted(prefix, children, w1);
        FolderIsGrafted(prefix, children, w, w1, Unpack(FlattenAll(prefix, children), w1));
    }
  }

  lemma FileIsGrafted(prefix: Name, content: Bytes, w: Stage, r: Stage)
    requires Vacant(prefix, w) && r == Stage(w.seen.Add(prefix), w.disk.Put(prefix, FileItem(content)), true)
    ensures Grafted(prefix, File(content), w, r)
  {
    forall p: Name | Below(prefix, p) ensures Shows(r, p, Look(File(content), p, |prefix|)) {
      assert Free(w, p);
      if |p| == |prefix| { assert p == prefix; }
    }
    assert Below(prefix, prefix) by { assert prefix[..|prefix|] == prefix; }
  }

  lemma FolderIsVacant(prefix: Name, f: Forest, w: Stage, w1: Stage)
    requires Vacant(prefix, w) && [STATE] <= prefix
    requires w1 == Stage(w.seen.Add(prefix), w.disk.Put(prefix, FolderItem), true)
    ensures VacantAll(prefix, f, w1)
  {
    forall p: Name | Through(prefix, f, p) ensures Free(w1, p) {
      assert Free(w, p);
    }
  }

  lemma FolderIsGrafted(prefix: Name, f: Forest, w: Stage, w1: Stage, r: Stage)
    requires Vacant(prefix, w)
    requires w1 == Stage(w.seen.Add(prefix), w.disk.Put(prefix, FolderItem), true)
    requires GraftedAll(prefix, f, w1, r)
    ensures Grafted(prefix, Folder(f), w, r)
  {
    assert Below(prefix, prefix) by { assert prefix[..|prefix|] == prefix; }
    forall p: Name | Below(prefix, p) ensures Shows(r, p, Look(Folder(f), p, |prefix|)) {
      assert Free(w, p);
      if |p| == |prefix| { assert p == prefix; }
      if !Through(prefix, f, p) { assert Same(w1, r, p); }
    }
    forall p: Name | !Below(prefix, p) ensures Same(w, r, p) {
      assert Same(w1, r, p);
    }
  }

  lemma {:induction false} ForestIsGrafted(prefix: Name, f: Forest, w: Stage)
    requires PlainAll(f) && WellNamedAll(f) && VacantAll(prefix, f, w)
    ensures GraftedAll(prefix, f, w, Unpack(FlattenAll(prefix, f), w))
    decreases f
  {
    if f.Cons? {
      var q := prefix + [Normal(f.name)];
      UnpackSplit(Flatten(q, f.node), FlattenAll(prefix, f.rest), w);
      HeadIsVacant(prefix, f, w);
      TreeIsGrafted(q, f.node, w);
      var w1 := Unpack(Flatten(q, f.node), w);
      RestIsVacant(prefix, f, w, w1);
      ForestIsGrafted(prefix, f.rest, w1);
      ConsIsGrafted(prefix, f, w, w1, Unpack(FlattenAll(prefix, f.rest), w1));
    }
  }

  lemma BelowChild(prefix: Name, name: string, p: Name)
    ensures Below(prefix + [Normal(name)], p) <==> Below(prefix, p) && |p| > |prefix| && p[|prefix|] == Normal(name)
  {
    var q := prefix + [Normal(name)];
    if |p| > |prefix| {
      assert p[..|q|] == p[..|prefix|] + [p[|prefix|]];
      if p[..|q|] == q {
        assert p[..|q|][..|prefix|] == q[..|prefix|];
        assert p[..|q|][|prefix|] == q[|prefix|];
      }
    }
  }

  lemma HeadIsVacant(prefix: Name, f: Forest, w: Stage)
    requires f.Cons? && VacantAll(prefix, f, w)
    ensures Vacant(prefix + [Normal(f.name)], w) && [STATE] <= prefix + [Normal(f.name)]
  {
    var q := prefix + [Normal(f.name)];
    assert q[..|q| - 1] == prefix;
    forall p: Name | Below(q, p) ensures Free(w, p) {
      BelowChild(prefix, f.name, p);
      assert Through(prefix, f, p);
    }
  }

  lemma RestIsVacant(prefix: Name, f: Forest, w: Stage, w1: Stage)
    requires f.Cons? && WellNamedAll(f) && VacantAll(prefix, f, w)
    requires Grafted(prefix + [Normal(f.name)], f.node, w, w1)
    ensures VacantAll(prefix, f.rest, w1)
  {
    var q := prefix + [Normal(f.name)];
    assert Same(w, w1, prefix);
    forall p: Name | Through(prefix, f.rest, p) ensures Free(w1, p) {
      BelowChild(prefix, f.name, p);
      assert Through(prefix, f, p);
      assert Same(w, w1, p);
    }
  }

  lemma ConsIsGrafted(prefix: Name, f: Forest, w: Stage, w1: Stage, r: Stage)
    requires f.Cons? && WellNamedAll(f)
    requires Grafted(prefix + [Normal(f.name)], f.node, w, w1) && GraftedAll(prefix, f.rest, w1, r)
    ensures GraftedAll(prefix, f, w, r)
  {
    var q := prefix + [Normal(f.name)];
    forall p: Name
      ensures Through(prefix, f, p) ==> Shows(r, p, Look(Find(f, p[|prefix|].name).value, p, |prefix| + 1))
      ensures !Through(prefix, f, p) ==> Same(w, r, p)
    {
      BelowChild(prefix, f.name, p);
      if Below(q, p) {
        assert Same(w1, r, p) && Shows(w1, p, Look(f.node, p, |q|));
      } else {
        assert Same(w, w1, p);
        if !Through(prefix, f.rest, p) { assert Same(w1, r, p); }
      }
    }
  }

  // A whole state directory ---------------------------------------------------------------------

  function ManifestText(image: string): Bytes {
    "skillet-gokapi 1 " + image
  }

  /** The two trees and the marker; whatever else the state directory holds is not archived. */
  predicate Archivable(state: Node) {
    && Child(state, CONFIG).Some? && Child(state, CONFIG).value.Folder? && Plain(Child(state, CONFIG).value)
    && Child(state, DATA).Some? && Child(state, DATA).value.Folder? && Plain(Child(state, DATA).value)
    && Child(state, MARKER).Some? && Child(state, MARKER).value.File?
  }

  const CONFIG_ROOT: Name := [STATE, Normal(CONFIG)]
  const DATA_ROOT: Name := [STATE, Normal(DATA)]
  const MARKER_NAME: Name := [STATE, Normal(MARKER)]

  function Head(image: string): seq<Entry> {
    [Entry([MANIFEST], Regular, ManifestText(image)), Entry([STATE], Directory, "")]
  }

  function Written(state: Node, image: string): seq<Entry>
    requires Archivable(state)
  {
    Head(image)
    + Flatten(CONFIG_ROOT, Child(state, CONFIG).value)
    + Flatten(DATA_ROOT, Child(state, DATA).value)
    + [Entry(MARKER_NAME, Regular, Child(state, MARKER).value.content)]
  }

  predicate Kept(p: Name) {
    |p| > 0 && p[0] == STATE && (|p| > 1 ==> p[1] in {Normal(CONFIG), Normal(DATA), Normal(MARKER)})
  }

  /** What the archive of a state directory must bring back. */
  function Saved(state: Node, image: string, p: Name): Option<Item> {
    if p == [MANIFEST] then Some(FileItem(ManifestText(image)))
    else if Kept(p) then Look(state, p, 1)
    else None
  }

  /** For every tree of regular files and directories, and whatever the order of its listings, the
      archive is accepted and brings back exactly the two trees and the marker. */
  lemma RoundTrip(state: Node, image: string)
    requires Archivable(state) && WellNamed(state)
    ensures Unpack(Written(state, image), EMPTY).ok
    ensures forall p: Name :: Unpack(Written(state, image), EMPTY).disk.Get(p) == Saved(state, image, p)
  {
    var config, data, marker := Child(state, CONFIG).value, Child(state, DATA).value, Child(state, MARKER).value;
    ChildIsGood(state, CONFIG);
    ChildIsGood(state, DATA);
    var entry := Entry(MARKER_NAME, Regular, marker.content);
    var w0 := Unpack(Head(image), EMPTY);
    var w1 := Unpack(Flatten(CONFIG_ROOT, config), w0);
    var w2 := Unpack(Flatten(DATA_ROOT, data), w1);
    var w3 := Unpack([entry], w2);
    UnpackSplit(Head(image), Flatten(CONFIG_ROOT, config), EMPTY);
    UnpackSplit(Head(image) + Flatten(CONFIG_ROOT, config), Flatten(DATA_ROOT, data), EMPTY);
    UnpackSplit(Head(image) + Flatten(CONFIG_ROOT, config) + Flatten(DATA_ROOT, data), [entry], EMPTY);
    HeadIsUnpacked(image);
    LeafIsVacant(CONFIG, w0);
    TreeIsGrafted(CONFIG_ROOT, config, w0);
    assert Same(w0, w1, [STATE]);
    forall p: Name | Below(DATA_ROOT, p) || Below(MARKER_NAME, p) ensures Free(w1, p) {
      LeavesAreApart(p);
      assert Same(w0, w1, p);
    }
    LeafIsVacant(DATA, w1);
    TreeIsGrafted(DATA_ROOT, data, w1);
    assert Same(w1, w2, [STATE]);
    forall p: Name | Below(MARKER_NAME, p) ensures Free(w2, p) {
      LeavesAreApart(p);
      assert Same(w1, w2, p) && Free(w1, p);
    }
    LeafIsVacant(MARKER, w2);
    TreeIsGrafted(MARKER_NAME, marker, w2);
    forall p: Name ensures w3.disk.Get(p) == Saved(state, image, p) {
      SavedPointwise(state, image, p, w0, w1, w2, w3);
    }
  }

  lemma ChildIsGood(state: Node, name: string)
    requires WellNamed(state) && Child(state, name).Some?
    ensures WellNamed(Child(state, name).value)
  {
    FoundIsWellNamed(state.children, name);
  }

  lemma {:induction false} FoundIsWellNamed(f: Forest, name: string)
    requires WellNamedAll(f) && Find(f, name).Some?
    ensures WellNamed(Find(f, name).value)
  {
    if f.name != name { FoundIsWellNamed(f.rest, name); }
  }

  lemma HeadIsUnpacked(image: string)
    ensures var w := Unpack(Head(image), EMPTY);
      && w.ok
      && (forall p: Name :: w.seen.Has(p) == w.disk.Get(p).Some?)
      && (forall p: Name :: w.disk.Get(p) ==
            if p == [MANIFEST] then Some(FileItem(ManifestText(image))) else if p == [STATE] then Some(FolderItem) else None)
  {
    var first, second := Head(image)[0], Head(image)[1];
    assert [first][..0] == [] && Unpack([first], EMPTY) == Step(Unpack([], EMPTY), first);
    assert Head(image)[..1] == [first];
    assert Unpack(Head(image), EMPTY) == Step(Step(EMPTY, first), second);
  }

  lemma LeafIsVacant(leaf: string, w: Stage)
    requires w.ok && w.disk.Get([STATE]) == Some(FolderItem)
    requires forall p: Name :: Below([STATE, Normal(leaf)], p) ==> Free(w, p)
    ensures Vacant([STATE, Normal(leaf)], w)
  {
    var q: Name := [STATE, Normal(leaf)];
    assert q[..1] == [STATE];
  }

  /** The three leaves do not overlap. */
  lemma LeavesAreApart(p: Name)
    ensures Below(CONFIG_ROOT, p) <==> |p| > 1 && p[0] == STATE && p[1] == Normal(CONFIG)
    ensures Below(DATA_ROOT, p) <==> |p| > 1 && p[0] == STATE && p[1] == Normal(DATA)
    ensures Below(MARKER_NAME, p) <==> |p| > 1 && p[0] == STATE && p[1] == Normal(MARKER)
  {
    if |p| > 1 { assert p[..2] == [p[0], p[1]]; }
  }

  lemma SavedPointwise(state: Node, image: string, p: Name, w0: Stage, w1: Stage, w2: Stage, w3: Stage)
    requires Archivable(state)
    requires w0.disk.Get(p) ==
      if p == [MANIFEST] then Some(FileItem(ManifestText(image))) else if p == [STATE] then Some(FolderItem) else None
    requires Grafted(CONFIG_ROOT, Child(state, CONFIG).value, w0, w1)
    requires Grafted(DATA_ROOT, Child(state, DATA).value, w1, w2)
    requires Grafted(MARKER_NAME, Child(state, MARKER).value, w2, w3)
    ensures w3.disk.Get(p) == Saved(state, image, p)
  {
    LeavesAreApart(p);
    if |p| == 1 && p[0] == STATE { assert p == [STATE]; }
    assert !Below(CONFIG_ROOT, p) ==> Same(w0, w1, p);
    assert !Below(DATA_ROOT, p) ==> Same(w1, w2, p);
    assert !Below(MARKER_NAME, p) ==> Same(w2, w3, p);
    assert Below(CONFIG_ROOT, p) ==> Shows(w1, p, Look(state, p, 1));
    assert Below(DATA_ROOT, p) ==> Shows(w2, p, Look(state, p, 1));
    assert Below(MARKER_NAME, p) ==> Shows(w3, p, Look(state, p, 1));
  }
}
