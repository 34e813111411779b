/** What writing, creating and deleting one path does, metadata included, when effects can fail. */
module FileEffects {
  import opened Runs

  type Bytes = string

  type Mode = bv16

  const PERMISSIONS: Mode := 0x0FFF
  const SET_USER: Mode := 0x0800
  const SET_GROUP: Mode := 0x0400
  const GROUP_EXECUTE: Mode := 0x0008

  /** The bits a file system keeps. */
  function Masked(mode: Mode): Mode {
    mode & PERMISSIONS
  }

  datatype Meta = Meta(mode: Mode, uid: nat, gid: nat)

  datatype Node = Absent | Regular(content: Bytes, meta: Meta) | Link(dangling: bool) | Directory

  /** Account names have been looked up already. */
  datatype Request = Request(content: Bytes, mode: Option<Mode>, uid: Option<nat>, gid: Option<nat>)

  predicate Owned(q: Request) {
    q.uid.Some? || q.gid.Some?
  }

  /** A temporary file belongs to the process and is private. */
  const TEMPORARY := Meta(0x0180, 0, 0)

  function Or<T>(a: Option<T>, b: T): T {
    if a.Some? then a.value else b
  }

  function Chmod(m: Meta, mode: Option<Mode>): Meta {
    if mode.None? then m else m.(mode := Masked(mode.value))
  }

  /** Changing an owner drops the set-id bits, the group's only from executables. */
  function Cleared(mode: Mode): Mode {
    if mode & GROUP_EXECUTE != 0 then mode & !SET_USER & !SET_GROUP else mode & !SET_USER
  }

  function Chown(m: Meta, q: Request): Meta {
    if Owned(q) then Meta(Cleared(m.mode), Or(q.uid, m.uid), Or(q.gid, m.gid)) else m
  }

  /** On a file in place the mode goes first, on a temporary one last. */
  function InPlace(m: Meta, q: Request): Meta {
    Chown(Chmod(m, q.mode), q)
  }

  function OnTemporary(q: Request): Meta {
    Chmod(Chown(TEMPORARY, q), q.mode)
  }

  predicate Differs(m: Meta, q: Request) {
    || (q.mode.Some? && Masked(m.mode) != q.mode.value)
    || Or(q.uid, m.uid) != m.uid
    || Or(q.gid, m.gid) != m.gid
  }

  /** What is left open is taken from the regular file that is replaced. */
  function Filled(o: Node, q: Request): Request {
    if o.Regular? then
      q.(mode := Some(Or(q.mode, Masked(o.meta.mode))), uid := Some(Or(q.uid, o.meta.uid)), gid := Some(Or(q.gid, o.meta.gid)))
    else q
  }

  predicate SameContent(o: Node, q: Request) {
    o.Regular? && o.content == q.content
  }

  predicate Changes(o: Node, q: Request) {
    !SameContent(o, q) || Differs(o.meta, q)
  }

  function Ensured(o: Node, q: Request): Node {
    if !SameContent(o, q) then Regular(q.content, OnTemporary(Filled(o, q)))
    else if Differs(o.meta, q) then o.(meta := InPlace(o.meta, q))
    else o
  }

  // What it reaches -----------------------------------------------------------------------------

  lemma ModeBits(mode: Mode)
    ensures Masked(Masked(mode)) == Masked(mode)
    ensures Masked(Cleared(Masked(mode))) == Cleared(Masked(mode))
    ensures Cleared(Cleared(mode)) == Cleared(mode)
  {
  }

  /** The twelve bits of a mode. */
  function Twelve(mode: Mode): Mode {
    mode & 0x0FFF
  }

  /** Without the set-user bit, and for an executable without the set-group bit. */
  function Unprivileged(mode: Mode): Mode {
    if mode & 0x0008 != 0 then mode & 0xF3FF else mode & 0xF7FF
  }

  lemma BitsAre(mode: Mode)
    ensures Masked(mode) == Twelve(mode) && Cleared(mode) == Unprivileged(mode)
  {
  }

  /** Content is always as asked. A file that had to be replaced has exactly the mode and owners asked
      for, and keeps those it was not asked about. */
  lemma ReplacementIsExact(o: Node, q: Request)
    requires !SameContent(o, q)
    ensures var r := Ensured(o, q);
      && r.Regular? && r.content == q.content
      && (q.mode.Some? ==> r.meta.mode == Twelve(q.mode.value))
      && (q.uid.Some? ==> r.meta.uid == q.uid.value) && (q.gid.Some? ==> r.meta.gid == q.gid.value)
      && (o.Regular? && q.mode.None? ==> r.meta.mode == Twelve(o.meta.mode))
      && (!o.Regular? && q.mode.None? ==> r.meta.mode == 0x0180)
      && (o.Regular? && q.uid.None? ==> r.meta.uid == o.meta.uid) && (o.Regular? && q.gid.None? ==> r.meta.gid == o.meta.gid)
  {
    hide Masked, Cleared, Twelve;
    TemporaryBits(if o.Regular? then o.meta.mode else 0);
    if q.mode.Some? { BitsAre(q.mode.value); }
    if o.Regular? { BitsAre(o.meta.mode); }
  }

  lemma TemporaryBits(mode: Mode)
    ensures Masked(Masked(mode)) == Masked(mode) && Cleared(0x0180) == 0x0180
  {
  }

  /** A regular file that has the content already is not replaced: it gets the mode and the owners asked for,
      and a change of owner then takes the set-user bit, and from an executable the set-group bit as well. */
  lemma AdjustmentIsExact(o: Node, q: Request)
    requires SameContent(o, q)
    ensures var r := Ensured(o, q);
      var asked := if q.mode.Some? then Twelve(q.mode.value) else o.meta.mode;
      var differs := (q.mode.Some? && Twelve(o.meta.mode) != q.mode.value)
        || (q.uid.Some? && q.uid.value != o.meta.uid) || (q.gid.Some? && q.gid.value != o.meta.gid);
      && (Changes(o, q) <==> differs)
      && (!differs ==> r == o)
      && (differs ==> r == Regular(o.content, Meta(
            if q.uid.None? && q.gid.None? then asked else Unprivileged(asked),
            if q.uid.Some? then q.uid.value else o.meta.uid,
            if q.gid.Some? then q.gid.value else o.meta.gid)))
  {
    hide Masked, Cleared, Twelve, Unprivileged;
    BitsAre(o.meta.mode);
    if q.mode.Some? {
      BitsAre(q.mode.value);
      BitsAre(Twelve(q.mode.value));
    }
  }

  predicate InPlaceOnly(o: Node, q: Request) {
    SameContent(o, q) && Differs(o.meta, q)
  }

  /** A mode the file system can hold, which no change of owner after it takes away again. */
  predicate Settles(o: Node, q: Request) {
    q.mode.Some? ==>
      && Masked(q.mode.value) == q.mode.value
      && (InPlaceOnly(o, q) && Owned(q) ==> Cleared(q.mode.value) == q.mode.value)
  }

  /** A second run finds nothing to do exactly when the mode asked for is one that the first could leave. */
  lemma SecondRunIsIdleIff(o: Node, q: Request)
    ensures !Changes(Ensured(o, q), q) <==> Settles(o, q)
  {
    hide Masked, Cleared;
    if q.mode.Some? { ModeBits(q.mode.value); }
    if o.Regular? { ModeBits(o.meta.mode); }
  }

  function Repeated(o: Node, q: Request, n: nat): Node {
    if n == 0 then o else Ensured(Repeated(o, q, n - 1), q)
  }

  /** Otherwise no run ever is the last: each one reports a change, and its consumer is restarted. */
  lemma {:induction false} NeverSettles(o: Node, q: Request, n: nat)
    requires !Settles(o, q)
    ensures Changes(Repeated(o, q, n), q) && !Settles(Repeated(o, q, n), q)
  {
    if n > 0 {
      NeverSettles(o, q, n - 1);
      SecondRunIsIdleIff(Repeated(o, q, n - 1), q);
    } else {
      assert Repeated(o, q, 0) == o;
      UnsettledChanges(o, q);
    }
  }

  lemma UnsettledChanges(o: Node, q: Request)
    requires !Settles(o, q)
    ensures Changes(o, q)
  {
    hide Masked, Cleared;
    if o.Regular? { ModeBits(o.meta.mode); }
  }

  // The effects ---------------------------------------------------------------------------------

  datatype Error = ParentMissing | NotAFile | Failed | Killed

  /** Where an interrupted write can leave the path. */
  ghost predicate Between(o: Node, q: Request, r: Node) {
    || r == o || r == Ensured(o, q)
    || (r.Absent? && (o.Directory? || (o.Link? && !o.dangling)))
    || (InPlaceOnly(o, q) && r == o.(meta := Chmod(o.meta, q.mode)))
  }

  class File {
    var node: Node
    var fates: seq<Fate>
    const parent: bool

    constructor (node: Node, fates: seq<Fate>, parent: bool)
      ensures this.node == node && this.fates == fates && this.parent == parent
    {
      this.node, this.fates, this.parent := node, fates, parent;
    }

    method Attempt() returns (r: Status<(), Error>)
      modifies this`fates
      ensures r.Ok? <==> Smooth(old(fates)) > 0
      ensures r.Ok? ==> Smooth(fates) == Smooth(old(fates)) - 1
      ensures r.Err? ==> r.error == if old(fates) == [] then Killed else Failed
    {
      if fates == [] { return Err(Killed); }
      var fate := fates[0];
      fates := fates[1..];
      return if fate.Works? then Ok(()) else Err(Failed);
    }

    /** Readers of a regular file see the old content or the new, whatever fails; only something that is
        no regular file can be found missing. */
    method EnsureFile(q: Request) returns (r: Status<bool, Error>)
      modifies this
      ensures Between(old(node), q, node)
      ensures old(node).Regular? ==> node.Regular? && node.content in {old(node).content, q.content}
      ensures r.Ok? ==> parent && node == Ensured(old(node), q) && (r.value <==> Changes(old(node), q))
      ensures !parent ==> r == Err(ParentMissing) && node == old(node)
      ensures parent && Smooth(old(fates)) >= 4 ==> r.Ok?
    {
      if !parent { return Err(ParentMissing); }
      var same := false;
      match node {
        case Absent =>
        case Link(dangling) =>
          if !dangling {
            var _ :- Attempt();
            node := Absent;
          }
        case Directory =>
          var _ :- Attempt();
          node := Absent;
        case Regular(content, _) => same := content == q.content;
      }
      if !same {
        var filled := Filled(node, q);
        var _ :- Attempt();
        var _ :- Attempt();
        var _ :- Attempt();
        node := Regular(q.content, OnTemporary(filled));
        return Ok(true);
      }
      if !Differs(node.meta, q) { return Ok(false); }
      if q.mode.Some? {
        var _ :- Attempt();
        node := node.(meta := Chmod(node.meta, q.mode));
      }
      if Owned(q) {
        var _ :- Attempt();
        node := node.(meta := Chown(node.meta, q));
      }
      return Ok(true);
    }

    /** What exists is never touched; what is created appears complete. */
    method CreateFileIfAbsent(q: Request) returns (r: Status<bool, Error>)
      modifies this
      ensures node == old(node) || (old(node).Absent? && node == Regular(q.content, OnTemporary(q)))
      ensures r == Err(NotAFile) <==> old(node).Link? || old(node).Directory?
      ensures r.Ok? ==> node.Regular? && (r.value <==> old(node).Absent?)
      ensures parent && (old(node).Regular? || (old(node).Absent? && Smooth(old(fates)) >= 4)) ==> r.Ok?
    {
      match node {
        case Regular(_, _) => return Ok(false);
        case Link(_) => return Err(NotAFile);
        case Directory => return Err(NotAFile);
        case Absent =>
      }
      if !parent { return Err(Failed); }
      var _ :- Attempt();
      var _ :- Attempt();
      var _ :- Attempt();
      node := Regular(q.content, OnTemporary(q));
      var _ :- Attempt();
      return Ok(true);
    }

    /** A dangling link counts as absent and stays. */
    method DeleteFile() returns (r: Status<bool, Error>)
      modifies this
      ensures node == old(node) || node.Absent?
      ensures r.Ok? ==> (r.value <==> !(old(node).Absent? || old(node) == Link(true)))
      ensures r.Ok? ==> if r.value then node.Absent? else node == old(node)
    {
      if node.Absent? || node == Link(true) { return Ok(false); }
      var _ :- Attempt();
      node := Absent;
      return Ok(true);
    }
  }
}
