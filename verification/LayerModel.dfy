/**
 How the AIOStreams installer applies one OCI image layer to its staging directory,
 and the declarative overlay that the layer describes.

 A directory tree is a map from paths to nodes; the root is the empty path.
 */
module LayerModel {
  import opened Strings
  import opened Wrappers

  type Path = seq<string>

  /** `p` is `d` or lies below it. */
  predicate In(d: Path, p: Path) { d <= p }

  predicate Below(d: Path, p: Path) { d < p }

  datatype Node = Dir | File(data: string) | Link(target: string)

  type Tree = map<Path, Node>

  /** `ThroughLink` marks the entries on which the code would follow a symbolic link,
      which this model does not do.  `Escaped` is the exception with which the removal of a
      parent directory ends: by then its contents are gone. */
  datatype Error = UnsafePath | UnsupportedEntry | InvalidRoot | TooLarge | NotADirectory | LinkUnavailable
                 | ThroughLink | Escaped

  const MAX_EXTRACTED_BYTES: nat := 4 * 1024 * 1024 * 1024

  // ---- source paths ----

  function Slashes(s: string): string {
    seq(|s|, i requires 0 <= i < |s| => if s[i] == '\\' then '/' else s[i])
  }

  function StripDotSlash(s: string): string {
    if |s| >= 2 && s[0] == '.' && s[1] == '/' then StripDotSlash(s[2..]) else s
  }

  /** The parts of a path: empty parts and single dots say nothing. */
  function Parts(components: seq<string>): Path {
    if components == [] then []
    else (if components[0] == "" || components[0] == "." then [] else [components[0]]) + Parts(components[1..])
  }

  /** `_normalize_layer_path`: the parts of a relative path that does not go up. */
  function NormalizeLayerPath(value: string): Option<Path> {
    var normalized := StripDotSlash(Slashes(value));
    if normalized == "" || normalized[0] == '/' then None
    else
      var parts := Parts(Split('/', normalized));
      if ".." in parts then None else Some(parts)
  }

  function StripSlashes(s: string): string {
    if s != "" && s[0] == '/' then StripSlashes(s[1..]) else s
  }

  predicate Digit(c: char) { '0' <= c <= '9' }

  /** `(?:\.\d+)*` */
  predicate DotNumbers(s: string)
    decreases |s|, 0
  {
    s == "" || (|s| > 1 && s[0] == '.' && Digit(s[1]) && MoreDigits(s[2..]))
  }

  predicate MoreDigits(s: string)
    decreases |s|, 1
  {
    DotNumbers(s) || (s != "" && Digit(s[0]) && MoreDigits(s[1..]))
  }

  const MIMALLOC := "libmimalloc.so.2"

  predicate Mimalloc(source: Path) {
    |source| == 4 && source[..3] == ["usr", "local", "lib"]
    && MIMALLOC <= source[3] && DotNumbers(source[3][|MIMALLOC|..])
  }

  /** `_mapped_path`: where an image path lands in the staging directory. */
  function Mapped(source: Path): Option<Path> {
    if Mimalloc(source) then Some(["lib", source[3]])
    else if source != [] && source[0] == "app" then Some(source[1..])
    else None
  }

  // ---- layer members and what they do ----

  /** A symbolic link carries its rewritten target, or nothing if the link checks
      reject it; a hard link carries the name it was listed with. */
  datatype Kind =
    | DirEntry
    | FileEntry(data: string)
    | SymlinkEntry(target: Option<string>)
    | HardlinkEntry(linkname: string)
    | OtherEntry

  datatype Member = Member(name: string, kind: Kind)

  /** `Escape` is a whiteout of the parent of a directory, written as that directory and `..`. */
  datatype Op =
    | Skip
    | Hide(path: Path)
    | Opaque(path: Path)
    | Escape(dir: Path)
    | Add(path: Path, node: Node)
    | Pend(path: Path, target: Path)
    | Reject(error: Error)

  const WHITEOUT := ".wh."
  const OPAQUE_WHITEOUT := ".wh..wh..opq"

  /** The path a whiteout hides; an empty or dot name hides the directory itself. */
  function HiddenPath(parent: Path, name: string): Path {
    if name == "" || name == "." then parent else parent + [name]
  }

  /** `_apply_whiteout` on the name of a whiteout: `pathlib` keeps a part `..` as it is. */
  function Whiteout(parent: Path, name: string): Op {
    match Mapped(HiddenPath(parent, name))
    case None => Skip
    case Some(p) => if p != [] && p[|p| - 1] == ".." then Escape(p[..|p| - 1]) else Hide(p)
  }

  /** The root of the staging directory is only ever added as a directory, and a member is refused
      for what it is, not for what it meets. */
  predicate Proper(op: Op) {
    && (op.Add? && op.path == [] ==> op.node.Dir?)
    && (op.Reject? ==> op.error.UnsafePath? || op.error.UnsupportedEntry? || op.error.InvalidRoot?)
  }

  /** `_mapped_hardlink_target` */
  function MappedHardlinkTarget(linkname: string): Option<Path> {
    match NormalizeLayerPath(StripSlashes(Slashes(linkname)))
    case Some(source) => Mapped(source)
    case None => None
  }

  /** The branch of `apply_aiostreams_layer` that a member with a safe path takes. */
  function DecodeAt(path: Path, kind: Kind): (op: Op)
    ensures Proper(op) && (op.Pend? ==> op.path != [])
  {
    var name := if path == [] then "" else path[|path| - 1];
    var parent := if path == [] then [] else path[..|path| - 1];
    if name == OPAQUE_WHITEOUT then
      match Mapped(parent) { case Some(p) => Opaque(p) case None => Skip }
    else if WHITEOUT <= name then Whiteout(parent, name[|WHITEOUT|..])
    else
      match Mapped(path)
      case None => Skip
      case Some(p) =>
        if p == [] && !kind.DirEntry? then Reject(InvalidRoot)
        else match kind
          case DirEntry => Add(p, Dir)
          case FileEntry(data) => Add(p, File(data))
          case SymlinkEntry(target) =>
            if target.Some? then Add(p, Link(target.value)) else Reject(UnsupportedEntry)
          case HardlinkEntry(linkname) =>
            (match MappedHardlinkTarget(linkname) case Some(t) => Pend(p, t) case None => Reject(UnsafePath))
          case OtherEntry => Reject(UnsupportedEntry)
  }

  function Decode(m: Member): (op: Op)
    ensures Proper(op) && (op.Pend? ==> op.path != [])
  {
    match NormalizeLayerPath(m.name)
    case Some(path) => DecodeAt(path, m.kind)
    case None => Reject(UnsafePath)
  }

  // ---- the directory tree, changed in place ----

  predicate WellFormed(t: Tree) {
    && ([] in t ==> t[[]].Dir?)
    && (forall p :: p in t && p != [] ==> p[..|p| - 1] in t && t[p[..|p| - 1]].Dir?)
  }

  /** `_remove_existing`: the node and, for a directory, everything below it. */
  function Remove(t: Tree, p: Path): Tree {
    map q | q in t && !In(p, q) :: t[q]
  }

  function RemoveChildren(t: Tree, p: Path): Tree {
    map q | q in t && !Below(p, q) :: t[q]
  }

  function Ancestors(p: Path): set<Path> {
    set i | 0 <= i < |p| :: p[..i]
  }

  /** Something other than a directory stands where a parent directory is needed. */
  predicate Blocked(t: Tree, p: Path) {
    exists q :: q in t && Below(q, p) && !t[q].Dir?
  }

  predicate BehindLink(t: Tree, p: Path) {
    exists q :: q in t && Below(q, p) && t[q].Link?
  }

  /** `mkdir(parents=True, exist_ok=True)` on the parent of `p`. */
  function WithParents(t: Tree, p: Path): Tree {
    t + map q | q in Ancestors(p) :: Dir
  }

  /** One member applied to the tree. */
  function Apply(t: Tree, op: Op): Result<Tree, Error> {
    match op
    case Skip => Ok(t)
    case Pend(_, _) => Ok(t)
    case Reject(e) => Err(e)
    case Hide(p) => if BehindLink(t, p) then Err(ThroughLink) else Ok(Remove(t, p))
    case Opaque(p) =>
      if BehindLink(t, p) || (p in t && t[p].Link?) then Err(ThroughLink)
      else if p in t && t[p].Dir? then Ok(RemoveChildren(t, p))
      else Ok(t)
    case Escape(d) =>
      if BehindLink(t, d) || (d in t && t[d].Link?) then Err(ThroughLink)
      else if d in t && t[d].Dir? then Err(Escaped)
      else Ok(t)
    case Add(p, node) =>
      if BehindLink(t, p) || (node.Dir? && p in t && t[p].Link?) then Err(ThroughLink)
      else if Blocked(t, p) then Err(NotADirectory)
      else
        var cleared := if p in t && !(node.Dir? && t[p].Dir?) then Remove(t, p) else t;
        Ok(WithParents(cleared, p)[p := node])
  }

  /** What an escape from directory `d` leaves: the contents of its parent are gone, and for the
      root of the staging directory the root itself. */
  function Wreck(t: Tree, d: Path): Tree {
    if d == [] then map[] else RemoveChildren(t, d[..|d| - 1])
  }

  /** All members, in archive order. */
  function ApplyAll(t: Tree, ops: seq<Op>): Result<Tree, Error>
    decreases |ops|
  {
    if ops == [] then Ok(t)
    else match ApplyAll(t, ops[..|ops| - 1])
      case Err(e) => Err(e)
      case Ok(t') => Apply(t', ops[|ops| - 1])
  }

  // ---- the overlay ----

  /** Entry `op` puts something at `p`, makes a directory there on the way to its own path, or puts a
      file or link in place of a directory above it. */
  predicate Touches(op: Op, p: Path) {
    op.Add? && (In(p, op.path) || (!op.node.Dir? && Below(op.path, p)))
  }

  /** What an entry leaves where it touches. */
  function Leaves(op: Op, p: Path): Option<Node>
    requires Touches(op, p)
  {
    if op.path == p then Some(op.node) else if Below(p, op.path) then Some(Dir) else None
  }

  /** The last entry of the layer that touches `p`. */
  function LastTouch(ops: seq<Op>, p: Path): (last: Option<nat>)
    ensures last.Some? ==> last.value < |ops| && Touches(ops[last.value], p)
                           && forall i :: last.value < i < |ops| ==> !Touches(ops[i], p)
    ensures last.None? ==> forall i :: 0 <= i < |ops| ==> !Touches(ops[i], p)
  {
    if ops == [] then None
    else if Touches(ops[|ops| - 1], p) then Some(|ops| - 1)
    else LastTouch(ops[..|ops| - 1], p)
  }

  /** A whiteout of `p` or of a directory above it, or an opaque directory above it. */
  predicate Whites(op: Op, p: Path) {
    (op.Hide? && In(op.path, p)) || (op.Opaque? && Below(op.path, p))
  }

  ghost predicate WhitedOut(ops: seq<Op>, p: Path) {
    exists i :: 0 <= i < |ops| && Whites(ops[i], p)
  }

  /** What the overlay of layer `ops` over tree `t` has at `p`: what the last entry of the layer
      leaves there, or else what the lower tree has, unless a whiteout hides it. */
  ghost function OverlayAt(t: Tree, ops: seq<Op>, p: Path): Option<Node> {
    match LastTouch(ops, p)
    case Some(i) => Leaves(ops[i], p)
    case None => if WhitedOut(ops, p) then None else At(t, p)
  }

  function At(t: Tree, p: Path): Option<Node> {
    if p in t then Some(t[p]) else None
  }

  ghost predicate IsOverlay(t: Tree, ops: seq<Op>, result: Tree) {
    forall p: Path :: At(result, p) == OverlayAt(t, ops, p)
  }

  /** Whiteouts come before the entries they could affect. */
  ghost predicate WhiteoutsFirst(ops: seq<Op>) {
    && (forall i, j :: 0 <= i < j < |ops| && ops[i].Add? && ops[j].Hide? ==> !In(ops[j].path, ops[i].path))
    && (forall i, j :: 0 <= i < j < |ops| && ops[i].Add? && ops[j].Opaque? ==> !Below(ops[j].path, ops[i].path))
  }
}
