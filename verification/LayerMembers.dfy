/**
 Where the members of a layer land, said of the names in the archive: what a member `app/...` puts
 into the staging directory, what a whiteout takes out of it, and which names change nothing.
 */
module LayerMembers {
  import opened Strings
  import opened Wrappers
  import opened LayerModel
  import opened LayerOverlay
  import opened LayerPaths

  /** The name that an entry of the application directory has in the archive. */
  function AppName(p: Path): string {
    Join('/', ["app"] + p)
  }

  /** The path of an entry that is no whiteout. */
  predicate PlainPath(p: Path) {
    p != [] && CleanPath(p) && !(".wh." <= p[|p| - 1])
  }

  /** What a directory, a regular file or an accepted symbolic link puts at its path. */
  function NodeOf(kind: Kind): Option<Node> {
    match kind
    case DirEntry => Some(Dir)
    case FileEntry(data) => Some(File(data))
    case SymlinkEntry(Some(target)) => Some(Link(target))
    case _ => None
  }

  lemma AppNameReads(p: Path)
    requires CleanPath(p)
    ensures NormalizeLayerPath(AppName(p)) == Some(["app"] + p)
  {
    assert Clean("app");
    NormalizeReadsPath(["app"] + p);
  }

  /** The node is at its path, below directories; else only what lies below it may change. */
  predicate PutAt(t: Tree, p: Path, node: Node, t': Tree) {
    && p in t' && t'[p] == node
    && (forall q :: q in t' && Below(q, p) ==> t'[q].Dir?)
    && (forall q :: q in t && !In(p, q) && !Below(q, p) ==> q in t' && t'[q] == t[q])
    && (forall q :: q in t' && !In(p, q) && !Below(q, p) ==> q in t)
  }

  lemma AddPuts(t: Tree, p: Path, node: Node)
    requires WellFormed(t) && Apply(t, Add(p, node)).Ok?
    ensures PutAt(t, p, node, Apply(t, Add(p, node)).value)
  {
    var t' := Apply(t, Add(p, node)).value;
    forall q: Path ensures At(t', q) == if Touches(Add(p, node), q) then Leaves(Add(p, node), q) else At(t, q) {
      AddedAt(t, p, node, q);
    }
    forall q | q in t' && Below(q, p) ensures t'[q].Dir? {
      assert At(t', q) == Leaves(Add(p, node), q);
    }
    forall q | q in t && !In(p, q) && !Below(q, p) ensures q in t' && t'[q] == t[q] {
      assert At(t', q) == At(t, q);
    }
    forall q | q in t' && !In(p, q) && !Below(q, p) ensures q in t {
      assert At(t', q) == At(t, q);
    }
    assert At(t', p) == Some(node);
  }

  /** A member `app/...` that is no whiteout is put at its path in the staging directory. */
  lemma EntryLands(p: Path, kind: Kind)
    requires PlainPath(p) && NodeOf(kind).Some?
    ensures Decode(Member(AppName(p), kind)) == Add(p, NodeOf(kind).value)
  {
    AppNameReads(p);
    PlainAt(p);
  }

  /** The path in the archive has the last part of `p`, which is no whiteout, and is mapped to `p`. */
  lemma PlainAt(p: Path)
    requires PlainPath(p)
    ensures var path := ["app"] + p;
      && path[|path| - 1] == p[|p| - 1] && Mapped(path) == Some(p)
      && path[|path| - 1] != OPAQUE_WHITEOUT && !(WHITEOUT <= path[|path| - 1])
  {
    AppMaps(p);
    assert OPAQUE_WHITEOUT[..4] == ".wh.";
  }

  lemma HardlinkNames(target: Path)
    requires CleanPath(target)
    ensures MappedHardlinkTarget(AppName(target)) == Some(target)
  {
    AppNameReads(target);
    AppNameIsPlain(target);
    AppMaps(target);
  }

  lemma AppMaps(p: Path)
    ensures Mapped(["app"] + p) == Some(p)
  {
    var path := ["app"] + p;
    assert path[0] == "app" && path[1..] == p;
    if |path| == 4 {
      assert path[..3][0] == "app";
    }
  }

  /** A hard link waits at its path for the staging path of the entry that it names. */
  lemma HardlinkLands(p: Path, target: Path)
    requires PlainPath(p) && CleanPath(target)
    ensures Decode(Member(AppName(p), HardlinkEntry(AppName(target)))) == Pend(p, target)
  {
    AppNameReads(p);
    HardlinkNames(target);
    PlainDecodes(p, HardlinkEntry(AppName(target)));
  }

  /** The branch of an entry that is no whiteout. */
  lemma PlainDecodes(p: Path, kind: Kind)
    requires PlainPath(p) && kind.HardlinkEntry? && MappedHardlinkTarget(kind.linkname).Some?
    ensures DecodeAt(["app"] + p, kind) == Pend(p, MappedHardlinkTarget(kind.linkname).value)
  {
    PlainAt(p);
  }

  lemma AppNameIsPlain(p: Path)
    requires CleanPath(p)
    ensures Slashes(AppName(p)) == AppName(p) && StripSlashes(AppName(p)) == AppName(p)
  {
    assert Clean("app") && (["app"] + p)[0] == "app";
    JoinClean(["app"] + p);
    var s := AppName(p);
    assert forall i :: 0 <= i < |s| ==> s[i] in s;
    assert s[0] == 'a';
  }

  lemma OpaqueLands(d: Path, kind: Kind)
    requires CleanPath(d)
    ensures Decode(Member(AppName(d + [".wh..wh..opq"]), kind)) == Opaque(d)
  {
    assert Clean(".wh..wh..opq");
    AppNameReads(d + [".wh..wh..opq"]);
    var path := ["app"] + (d + [".wh..wh..opq"]);
    assert path[|path| - 1] == ".wh..wh..opq" && path[..|path| - 1] == ["app"] + d;
    assert (["app"] + d)[1..] == d;
  }

  lemma WhiteoutLands(d: Path, hidden: string, kind: Kind)
    requires CleanPath(d) && Clean(hidden) && hidden != ".wh..opq"
    ensures Decode(Member(AppName(d + [".wh." + hidden]), kind)) == Hide(d + [hidden])
  {
    assert Clean(".wh." + hidden);
    AppNameReads(d + [".wh." + hidden]);
    WhiteoutHidesMappedPath(["app"] + d, hidden, kind);
    assert ["app"] + (d + [".wh." + hidden]) == ["app"] + d + [".wh." + hidden];
    assert (["app"] + d + [hidden])[1..] == d + [hidden];
  }

  /** The allocator library lands beside the application's own libraries. */
  lemma AllocatorLands(file: string, kind: Kind)
    requires "libmimalloc.so.2" <= file && DotNumbers(file[16..]) && Clean(file) && NodeOf(kind).Some?
    ensures Decode(Member(Join('/', ["usr", "local", "lib", file]), kind)) == Add(["lib", file], NodeOf(kind).value)
  {
    var path := ["usr", "local", "lib", file];
    assert Clean("usr") && Clean("local") && Clean("lib");
    NormalizeReadsPath(path);
    assert path[|path| - 1] == file && path[..3] == ["usr", "local", "lib"];
    assert file[0] == 'l';
  }

  /** A path whose entries land nowhere. */
  predicate Elsewhere(path: Path) {
    path != [] && path[0] != "app"
    && !(|path| == 4 && path[..3] == ["usr", "local", "lib"]
         && "libmimalloc.so.2" <= path[3] && DotNumbers(path[3][16..]))
  }

  /** No other name outside the application directory changes anything. */
  lemma ElsewhereIsSkipped(path: Path, kind: Kind)
    requires CleanPath(path) && Elsewhere(path) && !(".wh." <= path[|path| - 1])
    ensures Decode(Member(Join('/', path), kind)) == Skip
  {
    NormalizeReadsPath(path);
    SkippedElsewhere(path, kind);
  }

  lemma SkippedElsewhere(path: Path, kind: Kind)
    requires Elsewhere(path) && !(".wh." <= path[|path| - 1])
    ensures DecodeAt(path, kind) == Skip
  {
    assert OPAQUE_WHITEOUT[..4] == ".wh.";
    assert Mapped(path) == None;
  }

  /** Nor does a whiteout there. */
  lemma WhiteoutElsewhereIsSkipped(d: Path, hidden: string, kind: Kind)
    requires CleanPath(d) && Clean(hidden) && hidden != ".wh..opq" && Elsewhere(d + [hidden])
    ensures Decode(Member(Join('/', d + [".wh." + hidden]), kind)) == Skip
  {
    assert Clean(".wh." + hidden);
    NormalizeReadsPath(d + [".wh." + hidden]);
    WhiteoutHidesMappedPath(d, hidden, kind);
    assert Mapped(d + [hidden]) == None;
  }

  // ---- a layer of one member ----

  /** What the tree holds after a layer of one member, for each shape of its name. */
  ghost predicate Lands(t: Tree, m: Member, t': Tree) {
    && EntryEffect(t, m, t') && LinkEffect(t, m, t') && OpaqueEffect(t, m, t')
    && WhiteoutEffect(t, m, t') && DotWhiteoutEffect(t, m, t') && AllocatorEffect(t, m, t') && NoEffect(t, m, t')
    && !IsRefused(m)
  }

  /** A member that makes the layer fail: an unsafe name, a kind that is not supported, a symbolic link with a
      target that is not accepted, a hard link to somewhere else, or an application directory that is no directory. */
  ghost predicate IsRefused(m: Member) {
    || NormalizeLayerPath(m.name).None?
    || (exists p :: PlainPath(p) && m.name == AppName(p) && (m.kind.OtherEntry? || m.kind == SymlinkEntry(None)))
    || (exists p, path :: PlainPath(p) && CleanPath(path) && Elsewhere(path)
          && m == Member(AppName(p), HardlinkEntry(Join('/', path))))
    || (m.name == "app" && !m.kind.DirEntry?)
  }

  /** `app/...` puts its data, a directory or its link target there. */
  ghost predicate EntryEffect(t: Tree, m: Member, t': Tree) {
    forall p :: PlainPath(p) && m.name == AppName(p) && NodeOf(m.kind).Some? ==> PutAt(t, p, NodeOf(m.kind).value, t')
  }

  /** A hard link puts the file it names at a free place. */
  ghost predicate LinkEffect(t: Tree, m: Member, t': Tree) {
    forall p, target :: IsLink(m, p, target) && Linkable(t, p, target) ==>
      p in t' && t'[p] == t[target] && forall q :: q in t ==> q in t' && t'[q] == t[q]
  }

  predicate IsLink(m: Member, p: Path, target: Path) {
    PlainPath(p) && CleanPath(target) && m == Member(AppName(p), HardlinkEntry(AppName(target)))
  }

  predicate Linkable(t: Tree, p: Path, target: Path) {
    p !in t && !Blocked(t, p) && target in t && t[target].File?
  }

  /** An opaque directory loses what it had. */
  ghost predicate OpaqueEffect(t: Tree, m: Member, t': Tree) {
    forall d :: CleanPath(d) && m.name == AppName(d + [".wh..wh..opq"]) ==>
      forall q: Path :: At(t', q) == if Below(d, q) then None else At(t, q)
  }

  /** A whiteout takes away what it names, with all below. */
  ghost predicate WhiteoutEffect(t: Tree, m: Member, t': Tree) {
    forall d, hidden :: IsWhiteout(m, d, hidden) ==>
      forall q: Path :: At(t', q) == if In(d + [hidden], q) then None else At(t, q)
  }

  /** A whiteout of nothing, or of a dot, takes its directory away. */
  ghost predicate DotWhiteoutEffect(t: Tree, m: Member, t': Tree) {
    forall d :: IsDotWhiteout(m, d) ==> forall q: Path :: At(t', q) == if In(d, q) then None else At(t, q)
  }

  predicate IsDotWhiteout(m: Member, d: Path) {
    CleanPath(d) && (m.name == AppName(d + [".wh."]) || m.name == AppName(d + [".wh.."]))
  }

  predicate IsWhiteout(m: Member, d: Path, hidden: string) {
    CleanPath(d) && Clean(hidden) && hidden != ".wh..opq" && m.name == AppName(d + [".wh." + hidden])
  }

  /** The allocator library is put into `lib`. */
  ghost predicate AllocatorEffect(t: Tree, m: Member, t': Tree) {
    forall file :: IsAllocator(m, file) && NodeOf(m.kind).Some? ==> PutAt(t, ["lib", file], NodeOf(m.kind).value, t')
  }

  predicate IsAllocator(m: Member, file: string) {
    "libmimalloc.so.2" <= file && DotNumbers(file[16..]) && Clean(file)
    && m.name == Join('/', ["usr", "local", "lib", file])
  }

  /** Other names change nothing. */
  ghost predicate NoEffect(t: Tree, m: Member, t': Tree) {
    forall path :: CleanPath(path) && Elsewhere(path) && !(".wh." <= path[|path| - 1]) && m.name == Join('/', path) ==>
      t' == t
  }

  lemma AllEffects(t: Tree, m: Member, t': Tree)
    requires EntryEffect(t, m, t') && LinkEffect(t, m, t') && OpaqueEffect(t, m, t')
    requires WhiteoutEffect(t, m, t') && DotWhiteoutEffect(t, m, t')
    requires AllocatorEffect(t, m, t') && NoEffect(t, m, t') && !IsRefused(m)
    ensures Lands(t, m, t')
  {
  }

  /** All but hard links take effect at once. */
  lemma AppliedLands(t: Tree, m: Member)
    requires WellFormed(t) && Apply(t, Decode(m)).Ok?
    ensures var t' := Apply(t, Decode(m)).value;
      && EntryEffect(t, m, t') && OpaqueEffect(t, m, t') && WhiteoutEffect(t, m, t') && DotWhiteoutEffect(t, m, t')
      && AllocatorEffect(t, m, t') && NoEffect(t, m, t')
  {
    DotWhiteoutApplied(t, m);
    EntryApplied(t, m);
    OpaqueApplied(t, m);
    WhiteoutApplied(t, m);
    AllocatorApplied(t, m);
    NothingApplied(t, m);
  }

  lemma EntryApplied(t: Tree, m: Member)
    requires WellFormed(t) && Apply(t, Decode(m)).Ok?
    ensures EntryEffect(t, m, Apply(t, Decode(m)).value)
  {
    forall p | PlainPath(p) && m.name == AppName(p) && NodeOf(m.kind).Some?
      ensures PutAt(t, p, NodeOf(m.kind).value, Apply(t, Decode(m)).value)
    {
      EntryLands(p, m.kind);
      AddPuts(t, p, NodeOf(m.kind).value);
    }
  }

  lemma OpaqueApplied(t: Tree, m: Member)
    requires WellFormed(t) && Apply(t, Decode(m)).Ok?
    ensures OpaqueEffect(t, m, Apply(t, Decode(m)).value)
  {
    forall d | CleanPath(d) && m.name == AppName(d + [".wh..wh..opq"])
      ensures forall q: Path :: At(Apply(t, Decode(m)).value, q) == if Below(d, q) then None else At(t, q)
    {
      OpaqueLands(d, m.kind);
      OpaqueClears(t, d);
    }
  }

  lemma WhiteoutApplied(t: Tree, m: Member)
    requires WellFormed(t) && Apply(t, Decode(m)).Ok?
    ensures WhiteoutEffect(t, m, Apply(t, Decode(m)).value)
  {
    forall d, hidden | IsWhiteout(m, d, hidden)
      ensures forall q: Path :: At(Apply(t, Decode(m)).value, q) == if In(d + [hidden], q) then None else At(t, q)
    {
      WhiteoutLands(d, hidden, m.kind);
      HideRemoves(t, d + [hidden]);
    }
  }

  lemma DotWhiteoutLands(d: Path, dot: string, kind: Kind)
    requires CleanPath(d) && (dot == "" || dot == ".")
    ensures Decode(Member(AppName(d + [".wh." + dot]), kind)) == Hide(d)
  {
    var name := ".wh." + dot;
    assert Clean(name);
    AppNameReads(d + [name]);
    var path := ["app"] + (d + [name]);
    assert path[|path| - 1] == name && path[..|path| - 1] == ["app"] + d && name[4..] == dot;
    assert OPAQUE_WHITEOUT[4..] == ".wh..opq";
    AppMaps(d);
    assert d != [] ==> Clean(d[|d| - 1]);
  }

  lemma DotWhiteoutApplied(t: Tree, m: Member)
    requires WellFormed(t) && Apply(t, Decode(m)).Ok?
    ensures DotWhiteoutEffect(t, m, Apply(t, Decode(m)).value)
  {
    forall d | IsDotWhiteout(m, d)
      ensures forall q: Path :: At(Apply(t, Decode(m)).value, q) == if In(d, q) then None else At(t, q)
    {
      assert ".wh." + "" == ".wh." && ".wh." + "." == ".wh..";
      DotWhiteoutLands(d, if m.name == AppName(d + [".wh."]) then "" else ".", m.kind);
      HideRemoves(t, d);
    }
  }

  lemma HideRemoves(t: Tree, p: Path)
    requires Apply(t, Hide(p)).Ok?
    ensures forall q: Path :: At(Apply(t, Hide(p)).value, q) == if In(p, q) then None else At(t, q)
  {
  }

  lemma AllocatorApplied(t: Tree, m: Member)
    requires WellFormed(t) && Apply(t, Decode(m)).Ok?
    ensures AllocatorEffect(t, m, Apply(t, Decode(m)).value)
  {
    forall file | IsAllocator(m, file) && NodeOf(m.kind).Some?
      ensures PutAt(t, ["lib", file], NodeOf(m.kind).value, Apply(t, Decode(m)).value)
    {
      AllocatorLands(file, m.kind);
      AddPuts(t, ["lib", file], NodeOf(m.kind).value);
    }
  }

  lemma NothingApplied(t: Tree, m: Member)
    requires Apply(t, Decode(m)).Ok?
    ensures NoEffect(t, m, Apply(t, Decode(m)).value)
  {
    forall path | CleanPath(path) && Elsewhere(path) && !(".wh." <= path[|path| - 1]) && m.name == Join('/', path)
      ensures Apply(t, Decode(m)).value == t
    {
      ElsewhereIsSkipped(path, m.kind);
    }
  }

  lemma PendingIsHardlink(m: Member)
    requires Decode(m).Pend?
    ensures m.kind.HardlinkEntry?
  {
  }

  lemma PendingIsNotOpaque(m: Member, d: Path)
    requires Decode(m).Pend? && CleanPath(d)
    ensures m.name != AppName(d + [".wh..wh..opq"])
  {
    OpaqueLands(d, m.kind);
  }

  lemma PendingIsNoWhiteout(m: Member, d: Path, hidden: string)
    requires Decode(m).Pend?
    ensures !IsWhiteout(m, d, hidden)
  {
    if IsWhiteout(m, d, hidden) {
      WhiteoutLands(d, hidden, m.kind);
    }
  }

  lemma PendingIsNotElsewhere(m: Member, path: Path)
    requires Decode(m).Pend? && CleanPath(path) && Elsewhere(path) && !(".wh." <= path[|path| - 1])
    ensures m.name != Join('/', path)
  {
    ElsewhereIsSkipped(path, m.kind);
  }

  /** A hard link has no other effect than that of a link. */
  lemma PendingLands(t: Tree, m: Member, t': Tree)
    requires Decode(m).Pend?
    ensures EntryEffect(t, m, t') && OpaqueEffect(t, m, t') && WhiteoutEffect(t, m, t') && DotWhiteoutEffect(t, m, t')
    ensures AllocatorEffect(t, m, t') && NoEffect(t, m, t')
  {
    PendingIsHardlink(m);
    HardlinkPutsNothing(t, m, t');
    PendingClearsNothing(t, m, t');
    PendingHidesNothing(t, m, t');
    PendingHidesNoDirectory(t, m, t');
    PendingIsInside(t, m, t');
  }

  lemma HardlinkPutsNothing(t: Tree, m: Member, t': Tree)
    requires m.kind.HardlinkEntry?
    ensures EntryEffect(t, m, t') && AllocatorEffect(t, m, t')
  {
  }

  lemma PendingClearsNothing(t: Tree, m: Member, t': Tree)
    requires Decode(m).Pend?
    ensures OpaqueEffect(t, m, t')
  {
    forall d | CleanPath(d) ensures m.name != AppName(d + [".wh..wh..opq"]) {
      PendingIsNotOpaque(m, d);
    }
  }

  lemma PendingHidesNothing(t: Tree, m: Member, t': Tree)
    requires Decode(m).Pend?
    ensures WhiteoutEffect(t, m, t')
  {
    forall d, hidden ensures !IsWhiteout(m, d, hidden) {
      PendingIsNoWhiteout(m, d, hidden);
    }
  }

  lemma PendingIsNoDotWhiteout(m: Member, d: Path)
    requires Decode(m).Pend?
    ensures !IsDotWhiteout(m, d)
  {
    if IsDotWhiteout(m, d) {
      assert ".wh." + "" == ".wh." && ".wh." + "." == ".wh..";
      DotWhiteoutLands(d, if m.name == AppName(d + [".wh."]) then "" else ".", m.kind);
    }
  }

  lemma PendingHidesNoDirectory(t: Tree, m: Member, t': Tree)
    requires Decode(m).Pend?
    ensures DotWhiteoutEffect(t, m, t')
  {
    forall d ensures !IsDotWhiteout(m, d) {
      PendingIsNoDotWhiteout(m, d);
    }
  }

  lemma PlainRefused(p: Path, kind: Kind)
    requires PlainPath(p) && (kind.OtherEntry? || kind == SymlinkEntry(None))
    ensures Decode(Member(AppName(p), kind)).Reject?
  {
    AppNameReads(p);
    PlainAt(p);
  }

  lemma HardlinkRefused(p: Path, path: Path)
    requires PlainPath(p) && CleanPath(path) && Elsewhere(path)
    ensures Decode(Member(AppName(p), HardlinkEntry(Join('/', path)))).Reject?
  {
    AppNameReads(p);
    ElsewhereIsNoTarget(path);
    PlainAt(p);
  }

  lemma ElsewhereIsNoTarget(path: Path)
    requires CleanPath(path) && Elsewhere(path)
    ensures MappedHardlinkTarget(Join('/', path)) == None
  {
    NormalizeReadsPath(path);
    JoinClean(path);
    var s := Join('/', path);
    assert forall i :: 0 <= i < |s| ==> s[i] in s;
    assert Clean(path[0]) && path[0][0] in path[0];
    assert Slashes(s) == s && StripSlashes(s) == s;
    assert Mapped(path) == None;
  }

  lemma RootRefused(kind: Kind)
    requires !kind.DirEntry?
    ensures Decode(Member("app", kind)).Reject?
  {
    assert Clean("app") && Join('/', ["app"]) == "app";
    NormalizeReadsPath(["app"]);
    assert OPAQUE_WHITEOUT[..4] == ".wh.";
    AppMaps([]);
    assert ["app"] + [] == ["app"];
  }

  /** A layer that succeeds has no refused member. */
  lemma AppliedIsNotRefused(m: Member)
    requires !Decode(m).Reject?
    ensures !IsRefused(m)
  {
    forall p | PlainPath(p) && m.name == AppName(p) ensures !m.kind.OtherEntry? && m.kind != SymlinkEntry(None) {
      if m.kind.OtherEntry? || m.kind == SymlinkEntry(None) {
        PlainRefused(p, m.kind);
      }
    }
    forall p, path | PlainPath(p) && CleanPath(path) && Elsewhere(path)
      ensures m != Member(AppName(p), HardlinkEntry(Join('/', path)))
    {
      HardlinkRefused(p, path);
    }
    if !m.kind.DirEntry? {
      RootRefused(m.kind);
    }
  }

  lemma PendingIsInside(t: Tree, m: Member, t': Tree)
    requires Decode(m).Pend?
    ensures NoEffect(t, m, t')
  {
    forall path | CleanPath(path) && Elsewhere(path) && !(".wh." <= path[|path| - 1])
      ensures m.name != Join('/', path)
    {
      PendingIsNotElsewhere(m, path);
    }
  }

  lemma OpaqueClears(t: Tree, d: Path)
    requires WellFormed(t) && Apply(t, Opaque(d)).Ok?
    ensures forall q: Path :: At(Apply(t, Opaque(d)).value, q) == if Below(d, q) then None else At(t, q)
  {
    forall q: Path | Below(d, q) && q in t ensures d in t && t[d].Dir? {
      AboveIsDir(t, q, d);
    }
  }
}
