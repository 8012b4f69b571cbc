/** Applying a layer entry by entry, in place, yields its overlay. */
module LayerOverlay {
  import opened Wrappers
  import opened LayerModel

  lemma InTransitive(p: Path, q: Path, r: Path)
    requires In(p, q) && In(q, r)
    ensures In(p, r) && (p != q || q != r ==> Below(p, r))
  {
    assert r[..|p|] == q[..|p|];
  }

  lemma ParentIs(p: Path)
    requires p != []
    ensures Below(p[..|p| - 1], p)
    ensures forall q: Path :: Below(q, p) ==> In(q, p[..|p| - 1])
  {
    forall q: Path | Below(q, p) ensures In(q, p[..|p| - 1]) {
      assert p[..|p| - 1][..|q|] == p[..|q|];
    }
  }

  lemma AncestorsAre(p: Path)
    ensures forall q: Path :: q in Ancestors(p) <==> Below(q, p)
  {
    forall q: Path | Below(q, p) ensures q in Ancestors(p) {
      assert q == p[..|q|];
    }
  }

  /** In a well-formed tree everything above a node is a directory. */
  lemma {:induction false} AboveIsDir(t: Tree, p: Path, q: Path)
    requires WellFormed(t) && p in t && Below(q, p)
    ensures q in t && t[q].Dir?
    decreases |p|
  {
    var parent := p[..|p| - 1];
    ParentIs(p);
    if q == parent {
    } else {
      assert In(q, parent);
      AboveIsDir(t, parent, q);
    }
  }

  // ---- the tree stays well formed ----

  lemma AddWellFormed(t: Tree, a: Path, node: Node)
    requires WellFormed(t) && Proper(Add(a, node)) && Apply(t, Add(a, node)).Ok?
    ensures WellFormed(Apply(t, Add(a, node)).value)
  {
    var t' := Apply(t, Add(a, node)).value;
    AncestorsAre(a);
    forall p | p in t' && p != [] ensures p[..|p| - 1] in t' && t'[p[..|p| - 1]].Dir? {
      var parent := p[..|p| - 1];
      ParentIs(p);
      if In(p, a) {
        InTransitive(parent, p, a);
      } else if In(a, parent) {
        InTransitive(a, parent, p);
      }
    }
  }

  /** Every entry keeps the tree well formed: each node's parent is a directory. */
  lemma ApplyWellFormed(t: Tree, op: Op)
    requires WellFormed(t) && Proper(op) && Apply(t, op).Ok?
    ensures WellFormed(Apply(t, op).value)
  {
    var t' := Apply(t, op).value;
    if op.Add? {
      AddWellFormed(t, op.path, op.node);
    } else {
      forall p | p in t' && p != [] ensures p[..|p| - 1] in t' && t'[p[..|p| - 1]].Dir? {
        var parent := p[..|p| - 1];
        ParentIs(p);
        if (op.Hide? || op.Opaque?) && In(op.path, parent) {
          InTransitive(op.path, parent, p);
        }
      }
    }
  }

  // ---- the tree stays the overlay of the entries applied so far ----

  /** The overlay after one more entry, in terms of the entries before it. */
  lemma OverlayGrows(t: Tree, ops: seq<Op>, op: Op, p: Path)
    requires WhiteoutsFirst(ops + [op])
    ensures OverlayAt(t, ops + [op], p) ==
      if Touches(op, p) then Leaves(op, p) else if Whites(op, p) then None else OverlayAt(t, ops, p)
  {
    var all := ops + [op];
    var n := |ops|;
    assert all[..n] == ops && all[n] == op;
    if !Touches(op, p) {
      assert LastTouch(all, p) == LastTouch(ops, p);
      assert WhitedOut(all, p) <==> WhitedOut(ops, p) || Whites(op, p) by {
        if Whites(op, p) {
          assert Whites(all[n], p);
        }
        forall i | 0 <= i < n ensures all[i] == ops[i] {
        }
      }
      if Whites(op, p) && LastTouch(ops, p).Some? {
        WhiteoutTooLate(ops, op, p, LastTouch(ops, p).value);
      }
    }
  }

  /** A whiteout that comes first finds nothing of the layer that it could hide. */
  lemma WhiteoutTooLate(ops: seq<Op>, op: Op, p: Path, i: nat)
    requires WhiteoutsFirst(ops + [op]) && i < |ops| && Touches(ops[i], p) && Whites(op, p)
    ensures Leaves(ops[i], p).None?
  {
    var all := ops + [op];
    assert all[i] == ops[i] && all[|ops|] == op;
    if In(p, ops[i].path) {
      InTransitive(op.path, p, ops[i].path);
    }
  }

  lemma AddedAt(t: Tree, a: Path, node: Node, p: Path)
    requires WellFormed(t) && Apply(t, Add(a, node)).Ok?
    ensures At(Apply(t, Add(a, node)).value, p) ==
      if Touches(Add(a, node), p) then Leaves(Add(a, node), p) else At(t, p)
  {
    AncestorsAre(a);
    if Below(a, p) && p in t {
      AboveIsDir(t, p, a);
    }
  }

  lemma AppliedAt(t: Tree, op: Op, p: Path)
    requires WellFormed(t) && Apply(t, op).Ok?
    ensures At(Apply(t, op).value, p) ==
      if Touches(op, p) then Leaves(op, p) else if Whites(op, p) then None else At(t, p)
  {
    if op.Add? {
      AddedAt(t, op.path, op.node, p);
    } else if op.Opaque? && Below(op.path, p) && p in t {
      AboveIsDir(t, p, op.path);
    }
  }

  /** One entry takes the overlay of the entries before it to the overlay with it. */
  lemma ApplyKeepsOverlay(lower: Tree, ops: seq<Op>, op: Op, t: Tree)
    requires WhiteoutsFirst(ops + [op]) && WellFormed(t) && IsOverlay(lower, ops, t)
    requires Apply(t, op).Ok?
    ensures IsOverlay(lower, ops + [op], Apply(t, op).value)
  {
    var t' := Apply(t, op).value;
    forall p: Path ensures At(t', p) == OverlayAt(lower, ops + [op], p) {
      AppliedAt(t, op, p);
      OverlayGrows(lower, ops, op, p);
    }
  }

  /** What would stop entry `op` on tree `t`. */
  predicate Stops(t: Tree, op: Op) {
    match op
    case Skip => false
    case Pend(_, _) => false
    case Reject(_) => true
    case Hide(p) => BehindLink(t, p)
    case Opaque(p) => BehindLink(t, p) || (p in t && t[p].Link?)
    case Escape(d) => BehindLink(t, d) || (d in t && !t[d].File?)
    case Add(p, node) => Blocked(t, p) || (node.Dir? && p in t && t[p].Link?)
  }

  lemma PrefixWhiteoutsFirst(ops: seq<Op>, n: nat)
    requires WhiteoutsFirst(ops) && n <= |ops|
    ensures WhiteoutsFirst(ops[..n])
  {
    assert forall i :: 0 <= i < n ==> ops[..n][i] == ops[i];
  }

  /** A layer that is applied to the end leaves its overlay, well formed. */
  lemma {:induction false} ApplyAllIsOverlay(lower: Tree, ops: seq<Op>)
    requires WellFormed(lower) && WhiteoutsFirst(ops) && forall i :: 0 <= i < |ops| ==> Proper(ops[i])
    requires ApplyAll(lower, ops).Ok?
    ensures WellFormed(ApplyAll(lower, ops).value) && IsOverlay(lower, ops, ApplyAll(lower, ops).value)
    decreases |ops|
  {
    if ops == [] {
    } else {
      var n := |ops| - 1;
      var before := ops[..n];
      PrefixWhiteoutsFirst(ops, n);
      ApplyAllIsOverlay(lower, before);
      assert before + [ops[n]] == ops;
      ApplyKeepsOverlay(lower, before, ops[n], ApplyAll(lower, before).value);
      ApplyWellFormed(ApplyAll(lower, before).value, ops[n]);
    }
  }

  /** Applying a layer succeeds exactly when no entry is refused, none meets a file or a link where
      the overlay of the entries before it must have a directory, and none escapes. */
  lemma {:induction false} ApplyAllSucceedsIff(lower: Tree, ops: seq<Op>)
    requires WellFormed(lower) && WhiteoutsFirst(ops) && forall i :: 0 <= i < |ops| ==> Proper(ops[i])
    ensures ApplyAll(lower, ops).Ok? <==>
      forall k, t :: 0 <= k < |ops| && IsOverlay(lower, ops[..k], t) ==> !Stops(t, ops[k])
    decreases |ops|
  {
    if ops == [] {
    } else {
      var n := |ops| - 1;
      var before := ops[..n];
      PrefixWhiteoutsFirst(ops, n);
      ApplyAllSucceedsIff(lower, before);
      var r := ApplyAll(lower, before);
      if r.Ok? {
        ApplyAllIsOverlay(lower, before);
        StopsExactly(r.value, ops[n]);
        forall k, t | 0 <= k < |ops| && IsOverlay(lower, ops[..k], t)
          ensures Stops(t, ops[k]) ==> k == n && t == r.value
        {
          if k == n {
            OverlayUnique(lower, before, t, r.value);
          } else {
            assert ops[..k] == before[..k] && ops[k] == before[k];
          }
        }
      } else {
        var k, t :| 0 <= k < n && IsOverlay(lower, before[..k], t) && Stops(t, before[k]);
        assert ops[..k] == before[..k] && ops[k] == before[k];
      }
    }
  }

  lemma StopsExactly(t: Tree, op: Op)
    ensures Apply(t, op).Ok? <==> !Stops(t, op)
  {
  }

  /** A layer has only one overlay. */
  lemma OverlayUnique(lower: Tree, ops: seq<Op>, t1: Tree, t2: Tree)
    requires IsOverlay(lower, ops, t1) && IsOverlay(lower, ops, t2)
    ensures t1 == t2
  {
    forall p: Path ensures At(t1, p) == At(t2, p) {
      assert At(t1, p) == OverlayAt(lower, ops, p) && At(t2, p) == OverlayAt(lower, ops, p);
    }
    assert forall p: Path :: p in t1 <==> At(t1, p).Some?;
    assert forall p: Path :: p in t2 <==> At(t2, p).Some?;
  }
}

/** The path rules that decide what a member of a layer touches. */
module LayerPaths {
  import opened Strings
  import opened Wrappers
  import opened LayerModel

  /** Two image paths share a staging path only if one of them is the allocator
      library, which is moved next to the application's own libraries. */
  lemma MappedIsInjective(a: Path, b: Path)
    requires Mapped(a).Some? && Mapped(a) == Mapped(b) && a != b
    ensures (Mimalloc(a) || Mimalloc(b)) && Mapped(a).value[0] == "lib"
  {
    assert a == [a[0]] + a[1..] && b == [b[0]] + b[1..];
    assert |a| == 4 ==> a == a[..3] + [a[3]];
    assert |b| == 4 ==> b == b[..3] + [b[3]];
  }

  /** The whiteout of an image path hides exactly the staging path that image path is
      mapped to, and is skipped when it is mapped nowhere. */
  lemma WhiteoutHidesMappedPath(parent: Path, name: string, kind: Kind)
    requires name != "" && name != "." && name != ".." && name != ".wh..opq"
    ensures var op := DecodeAt(parent + [WHITEOUT + name], kind);
      match Mapped(parent + [name])
      case Some(p) => op == Hide(p)
      case None => op == Skip
  {
    var path := parent + [WHITEOUT + name];
    assert path[..|path| - 1] == parent;
    assert (WHITEOUT + name)[|WHITEOUT|..] == name;
    assert OPAQUE_WHITEOUT[|WHITEOUT|..] == ".wh..opq";
    MappedLast(parent + [name]);
  }

  /** The last part of a staging path is that of its image path. */
  lemma MappedLast(source: Path)
    ensures Mapped(source).Some? && Mapped(source).value != [] ==>
      source != [] && Mapped(source).value[|Mapped(source).value| - 1] == source[|source| - 1]
  {
  }

  // ---- whiteouts of the parent directory ----

  /** A safe member path escapes exactly if it is a whiteout of `..` in the application directory. */
  lemma EscapesIffDotDot(path: Path, kind: Kind)
    requires ".." !in path
    ensures DecodeAt(path, kind).Escape? <==> |path| > 1 && path[0] == "app" && path[|path| - 1] == WHITEOUT + ".."
    ensures DecodeAt(path, kind).Escape? ==> DecodeAt(path, kind).dir == path[1..|path| - 1]
  {
    if path != [] {
      var name, parent := path[|path| - 1], path[..|path| - 1];
      if WHITEOUT <= name && name != OPAQUE_WHITEOUT {
        var hidden := name[|WHITEOUT|..];
        assert name == WHITEOUT + hidden;
        assert OPAQUE_WHITEOUT[|WHITEOUT|..] == ".wh..opq";
        MappedLast(HiddenPath(parent, hidden));
        if hidden == ".." {
          assert |path| > 1 && parent[0] == "app" ==> (parent + [".."])[1..][..|parent| - 1] == path[1..|path| - 1];
        } else if hidden == "" || hidden == "." {
          assert parent != [] ==> parent[|parent| - 1] in path;
        }
      }
    }
  }

  /** The member `app/x/.wh...` empties the staging directory before it fails. */
  lemma EscapingWhiteout()
    ensures var t: Tree := map[[] := Dir, ["x"] := Dir, ["y"] := File("data")];
      var op := DecodeAt(["app", "x", ".wh..."], FileEntry(""));
      op == Escape(["x"]) && Apply(t, op) == Err(Escaped) && Wreck(t, op.dir) == map[[] := Dir]
  {
    var t: Tree := map[[] := Dir, ["x"] := Dir, ["y"] := File("data")];
    var path: Path := ["app", "x", ".wh..."];
    assert path[|path| - 1] == WHITEOUT + ".." && path[..2] == ["app", "x"];
    EscapesIffDotDot(path, FileEntry(""));
    assert path[1..2] == ["x"];
    assert forall q :: q in t && Below(q, ["x"]) ==> q == [] by {
      assert forall q: Path :: Below(q, ["x"]) ==> |q| == 0;
    }
    assert ["x"][..0] == [];
    assert RemoveChildren(t, []) == map[[] := Dir] by {
      assert Below([], ["x"]) && Below([], ["y"]);
    }
  }

  // ---- safe paths ----

  predicate Clean(part: string) {
    part != "" && part != "." && part != ".." && Without('/', part) && Without('\\', part)
  }

  lemma {:induction false} PartsAreComponents(components: seq<string>)
    ensures forall p :: p in Parts(components) ==> p in components && p != "" && p != "."
  {
    if components == [] {
    } else {
      PartsAreComponents(components[1..]);
    }
  }

  lemma {:induction false} StripKeeps(s: string)
    ensures forall c :: c in StripDotSlash(s) ==> c in s
  {
    if |s| < 2 || s[0] != '.' || s[1] != '/' {
    } else {
      StripKeeps(s[2..]);
    }
  }

  lemma {:induction false} ComponentsOf(s: string)
    ensures forall i, c :: 0 <= i < |Split('/', s)| && c in Split('/', s)[i] ==> c in s
  {
    if s == "" {
    } else {
      ComponentsOf(s[1..]);
      var parts, rest := Split('/', s), Split('/', s[1..]);
      forall i, c | 0 <= i < |parts| && c in parts[i] ensures c in s {
        if s[0] == '/' {
          assert parts == [""] + rest;
          assert c in rest[i - 1] && c in s[1..];
        } else {
          assert parts == [[s[0]] + rest[0]] + rest[1..];
          assert c == s[0] || c in s[1..];
        }
      }
    }
  }

  predicate CleanPath(path: Path) {
    forall i :: 0 <= i < |path| ==> Clean(path[i])
  }

  /** Every part of a normalised path is a plain name. */
  lemma NormalizedIsClean(value: string)
    ensures NormalizeLayerPath(value).Some? ==> CleanPath(NormalizeLayerPath(value).value)
  {
    if NormalizeLayerPath(value).Some? {
      var path := NormalizeLayerPath(value).value;
      var normalized := StripDotSlash(Slashes(value));
      var components := Split('/', normalized);
      PartsAreComponents(components);
      JoinSplit('/', normalized);
      ComponentsOf(normalized);
      StripKeeps(Slashes(value));
      forall i | 0 <= i < |path| ensures Clean(path[i]) {
        assert path[i] in path && path[i] in components;
        var k :| 0 <= k < |components| && components[k] == path[i];
        forall c | c in components[k] ensures c != '\\' {
          assert c in normalized && c in Slashes(value);
          var m :| 0 <= m < |value| && Slashes(value)[m] == c;
        }
      }
    }
  }

  lemma {:induction false} PartsOfClean(path: Path)
    requires CleanPath(path)
    ensures Parts(path) == path
  {
    if path == [] {
    } else {
      PartsOfClean(path[1..]);
      assert Clean(path[0]) && path == [path[0]] + path[1..];
    }
  }

  /** The text of a path of plain names begins with its first name and has no backslash. */
  lemma {:induction false} JoinClean(path: Path)
    requires path != [] && CleanPath(path)
    ensures path[0] <= Join('/', path) && path[0] != "" && Without('\\', Join('/', path))
  {
    assert Clean(path[0]);
    if |path| == 1 {
    } else {
      JoinClean(path[1..]);
    }
  }

  lemma NoDotSlash(s: string, name: string)
    requires Clean(name) && name <= s && (|name| < |s| ==> s[|name|] == '/')
    ensures s[0] == name[0] && StripDotSlash(s) == s
  {
    assert name[0] in name;
    if |name| > 1 {
      assert name[1] in name && s[1] == name[1];
    } else {
      assert name == [name[0]];
    }
  }

  /** A path of plain names, written with slashes, is read as itself. */
  lemma NormalizeReadsPath(path: Path)
    requires path != [] && CleanPath(path)
    ensures NormalizeLayerPath(Join('/', path)) == Some(path)
  {
    var s := Join('/', path);
    JoinClean(path);
    assert Clean(path[0]) && path[0][0] in path[0];
    assert Slashes(s) == s by {
      assert forall i :: 0 <= i < |s| ==> s[i] in s;
    }
    NoDotSlash(s, path[0]);
    SplitJoin('/', path);
    PartsOfClean(path);
  }

  // ---- which names are accepted ----

  /** A backslash is a slash. */
  lemma BackslashIsSlash(s: string, r: string)
    requires |s| == |r| && forall i :: 0 <= i < |s| ==> r[i] == if s[i] == '\\' then '/' else s[i]
    ensures NormalizeLayerPath(s) == NormalizeLayerPath(r)
  {
    assert Slashes(s) == r && Slashes(r) == r;
  }

  /** A leading `./` says nothing. */
  lemma DotSlashIsNothing(s: string)
    ensures NormalizeLayerPath("./" + s) == NormalizeLayerPath(s)
  {
    assert Slashes("./" + s) == "./" + Slashes(s);
    assert ("./" + Slashes(s))[2..] == Slashes(s);
  }

  /** Apart from that, a name is refused exactly if it is empty, absolute, or has a part `..`. */
  lemma RefusedNames(s: string)
    requires Without('\\', s) && !(|s| >= 2 && s[0] == '.' && s[1] == '/')
    ensures NormalizeLayerPath(s).None? <==> s == "" || s[0] == '/' || ".." in Split('/', s)
  {
    assert Slashes(s) == s by {
      assert forall i :: 0 <= i < |s| ==> s[i] in s;
    }
    assert StripDotSlash(s) == s;
    DotDotStays(Split('/', s));
  }

  lemma {:induction false} DotDotStays(components: seq<string>)
    ensures ".." in Parts(components) <==> ".." in components
  {
    if components == [] {
    } else {
      DotDotStays(components[1..]);
      assert components == [components[0]] + components[1..];
    }
  }

  /** The name in a hard link may be absolute. */
  lemma HardlinkMayBeAbsolute(s: string)
    ensures MappedHardlinkTarget("/" + s) == MappedHardlinkTarget(s)
  {
    assert Slashes("/" + s) == "/" + Slashes(s);
    assert ("/" + Slashes(s))[1..] == Slashes(s);
  }

  predicate Digits(s: string) {
    forall i :: 0 <= i < |s| ==> Digit(s[i])
  }

  predicate Numbers(groups: seq<string>) {
    forall i :: 0 <= i < |groups| ==> groups[i] != "" && Digits(groups[i])
  }

  /** A version suffix is any number of groups, each a dot and digits. */
  lemma DotNumbersAre(s: string)
    ensures DotNumbers(s) <==> Split('.', s)[0] == "" && Numbers(Split('.', s)[1..])
  {
    if s != "" {
      MoreDigitsAre(s[1..]);
      FirstGroup(s[1..]);
      assert s[0] == '.' ==> Split('.', s)[1..] == Split('.', s[1..]);
      assert |s| > 1 ==> s[1..][1..] == s[2..];
    }
  }

  lemma {:induction false} MoreDigitsAre(s: string)
    ensures MoreDigits(s) <==> Digits(Split('.', s)[0]) && Numbers(Split('.', s)[1..])
    decreases |s|
  {
    if s == "" {
    } else {
      var groups, rest := Split('.', s), Split('.', s[1..]);
      MoreDigitsAre(s[1..]);
      FirstGroup(s[1..]);
      if s[0] == '.' {
        assert groups[0] == "" && groups[1..] == rest;
        assert rest == [rest[0]] + rest[1..];
        assert |s| > 1 ==> s[1..][1..] == s[2..];
      } else {
        assert groups[0] == [s[0]] + rest[0] && groups[1..] == rest[1..];
        assert Digits(groups[0]) <==> Digit(s[0]) && Digits(rest[0]) by {
          assert groups[0][0] == s[0] && forall i :: 0 <= i < |rest[0]| ==> groups[0][i + 1] == rest[0][i];
        }
      }
    }
  }

  /** The first group begins with the first character, unless that is a dot. */
  lemma FirstGroup(s: string)
    ensures var first := Split('.', s)[0];
      if s == "" || s[0] == '.' then first == "" else first != "" && first[0] == s[0]
  {
  }
}
