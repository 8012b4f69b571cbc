/**
 Which strings of a configuration the renaming of the service reaches, and what becomes of them, said
 of paths and comma-separated parts.
 */
module ConfigTokens {
  import opened Wrappers
  import opened Strings
  import opened ConfigNormalization
  import opened ConfigIdentity

  datatype PathStep = Key(key: string) | Index(index: nat)

  type JsonPath = seq<PathStep>

  function ValueAt(j: Json, path: JsonPath): Option<Json> {
    if path == [] then Some(j)
    else
      match path[0]
      case Key(k) => if j.Obj? && k in j.fields then ValueAt(j.fields[k], path[1..]) else None
      case Index(i) => if j.Arr? && i < |j.items| then ValueAt(j.items[i], path[1..]) else None
  }

  /** The path leads to a string that names services: a `core_service` or `key_type`, or an item of a
      `core_services` list, but nothing in the top-level `zurg` block and nothing deeper in such a list. */
  predicate TokenAt(t: Text, j: Json, path: JsonPath, topLevel: bool) {
    path != [] &&
    match path[0]
    case Key(k) =>
      && j.Obj? && k in j.fields && !(topLevel && t.lower(k) == "zurg")
      && var child := j.fields[k];
         if |path| == 1 then (k == "core_service" || k == "key_type") && child.Str?
         else if k == "core_services" && child.Arr? then
           |path| == 2 && path[1].Index? && path[1].index < |child.items| && child.items[path[1].index].Str?
         else TokenAt(t, child, path[1..], false)
    case Index(i) => j.Arr? && i < |j.items| && TokenAt(t, j.items[i], path[1..], false)
  }

  /** The parts of `after` are those of `before`, in their places, but every name of the service is
      `target`. */
  predicate Renamed(t: Text, target: string, before: string, after: string) {
    var a, b := Split(',', before), Split(',', after);
    && |b| == |a|
    && forall i :: 0 <= i < |a| ==>
         b[i] == if t.fold(a[i]) == "infinidysk" || t.fold(a[i]) == "nzbdav" then target else a[i]
  }

  lemma MapListRenames(t: Text, target: string, s: string)
    requires IsName(target)
    ensures Renamed(t, target, s, MapList(t, target, s))
  {
    var parts := Split(',', s);
    JoinSplit(',', s);
    assert Without(',', CANONICAL) && Without(',', LEGACY);
    SplitJoin(',', MapParts(t, target, parts));
  }

  /** Values of the same kind, with the same keys or length; other values are the same. */
  predicate SameFrame(a: Json, b: Json) {
    if a.Obj? then b.Obj? && b.fields.Keys == a.fields.Keys
    else if a.Arr? then b.Arr? && |b.items| == |a.items|
    else b == a
  }

  /** What the mapping does at each path. */
  lemma {:induction false} MapTokensAt(t: Text, target: string, j: Json, path: JsonPath, topLevel: bool)
    requires IsName(target)
    ensures var mapped := MapTokens(t, target, j, topLevel);
      && (TokenAt(t, mapped, path, topLevel) <==> TokenAt(t, j, path, topLevel))
      && (ValueAt(mapped, path).Some? <==> ValueAt(j, path).Some?)
      && (TokenAt(t, j, path, topLevel) ==>
            && ValueAt(j, path).Some? && ValueAt(j, path).value.Str? && ValueAt(mapped, path).value.Str?
            && Renamed(t, target, ValueAt(j, path).value.text, ValueAt(mapped, path).value.text))
      && (!TokenAt(t, j, path, topLevel) && ValueAt(j, path).Some? ==>
            SameFrame(ValueAt(j, path).value, ValueAt(mapped, path).value))
    decreases |path|
  {
    var mapped := MapTokens(t, target, j, topLevel);
    if path == [] {
    } else {
      match path[0]
      case Key(k) =>
        if j.Obj? && k in j.fields {
          assert mapped.fields[k] == MapEntry(t, target, k, j.fields[k], topLevel);
          MapEntryAt(t, target, j, k, path, topLevel);
        }
      case Index(i) =>
        if j.Arr? && i < |j.items| {
          assert mapped.items[i] == MapTokens(t, target, j.items[i], false);
          MapTokensAt(t, target, j.items[i], path[1..], false);
        }
    }
  }

  lemma {:induction false} MapEntryAt(t: Text, target: string, j: Json, k: string, path: JsonPath, topLevel: bool)
    requires IsName(target) && j.Obj? && k in j.fields && path != [] && path[0] == Key(k)
    ensures var child, mapped := j.fields[k], MapEntry(t, target, k, j.fields[k], topLevel);
      var token := TokenAt(t, j, path, topLevel);
      && (TokenAt(t, MapTokens(t, target, j, topLevel), path, topLevel) <==> token)
      && (ValueAt(mapped, path[1..]).Some? <==> ValueAt(child, path[1..]).Some?)
      && (token ==>
            && ValueAt(child, path[1..]).Some? && ValueAt(child, path[1..]).value.Str?
            && ValueAt(mapped, path[1..]).value.Str?
            && Renamed(t, target, ValueAt(child, path[1..]).value.text, ValueAt(mapped, path[1..]).value.text))
      && (!token && ValueAt(child, path[1..]).Some? ==>
            SameFrame(ValueAt(child, path[1..]).value, ValueAt(mapped, path[1..]).value))
    decreases |path|, 0
  {
    var child := j.fields[k];
    var mapped := MapEntry(t, target, k, child, topLevel);
    assert MapTokens(t, target, j, topLevel).fields[k] == mapped;
    if topLevel && t.lower(k) == "zurg" {
      SelfFrame(child, path[1..]);
    } else if TokenKey(k) && child.Str? {
      MapListRenames(t, target, child.text);
    } else if k == "core_services" && child.Arr? {
      ItemsAt(t, target, child.items, path[1..]);
    } else {
      MapTokensAt(t, target, child, path[1..], false);
    }
  }

  lemma SelfFrame(j: Json, path: JsonPath)
    ensures ValueAt(j, path).Some? ==> SameFrame(ValueAt(j, path).value, ValueAt(j, path).value)
  {
  }

  /** The strings of a `core_services` list are renamed, its other items stay. */
  lemma ItemsAt(t: Text, target: string, items: seq<Json>, path: JsonPath)
    requires IsName(target)
    ensures var before, after := ValueAt(Arr(items), path), ValueAt(Arr(MapItems(t, target, items)), path);
      var token := |path| == 1 && path[0].Index? && path[0].index < |items| && items[path[0].index].Str?;
      && (after.Some? <==> before.Some?)
      && (token ==>
            && before.Some? && before.value.Str? && after.value.Str?
            && Renamed(t, target, before.value.text, after.value.text))
      && (!token && before.Some? ==> SameFrame(before.value, after.value))
  {
    if path == [] {
    } else if path[0].Index? && path[0].index < |items| {
      ItemAt(t, target, items[path[0].index], path[1..]);
      assert ValueAt(Arr(items), path) == ValueAt(items[path[0].index], path[1..]);
      assert ValueAt(Arr(MapItems(t, target, items)), path)
          == ValueAt(MapItem(t, target, items[path[0].index]), path[1..]);
    }
  }

  function MapItem(t: Text, target: string, item: Json): Json {
    if item.Str? then Str(MapList(t, target, item.text)) else item
  }

  lemma ItemAt(t: Text, target: string, item: Json, path: JsonPath)
    requires IsName(target)
    ensures var before, after := ValueAt(item, path), ValueAt(MapItem(t, target, item), path);
      && (after.Some? <==> before.Some?)
      && (item.Str? && path == [] ==>
            before == Some(item) && after.value.Str? && Renamed(t, target, item.text, after.value.text))
      && (!(item.Str? && path == []) && before.Some? ==> SameFrame(before.value, after.value))
  {
    if item.Str? {
      MapListRenames(t, target, item.text);
    } else {
      SelfFrame(item, path);
    }
  }

  // ---- whole configurations ----

  ghost predicate Plain(t: Text) {
    FoldsNames(t) && t.lower(CANONICAL) == CANONICAL && t.lower(LEGACY) == LEGACY
  }

  /** No part of a string that names services folds to `name`. */
  ghost predicate NamesNone(t: Text, j: Json, name: string) {
    forall path :: TokenAt(t, j, path, true) ==> NoPart(t, ValueAt(j, path), name)
  }

  predicate NoPart(t: Text, v: Option<Json>, name: string) {
    && v.Some? && v.value.Str?
    && var parts := Split(',', v.value.text);
       forall i :: 0 <= i < |parts| ==> t.fold(parts[i]) != name
  }

  lemma MappedNamesNone(t: Text, target: string, other: string, j: Json)
    requires FoldsNames(t) && IsName(target) && IsName(other) && target != other
    ensures NamesNone(t, MapTokens(t, target, j, true), other)
  {
    var mapped := MapTokens(t, target, j, true);
    forall path | TokenAt(t, mapped, path, true) ensures NoPart(t, ValueAt(mapped, path), other) {
      MapTokensAt(t, target, j, path, true);
    }
  }

  /** Where a value under one name of the service is found under the other. */
  function Moved(path: JsonPath, source: string, target: string): JsonPath {
    if path != [] && path[0] == Key(source) then [Key(target)] + path[1..] else path
  }

  /** Renaming the service moves what it has, and nothing else. */
  lemma IdentityAt(t: Text, j: Json, source: string, target: string, path: JsonPath)
    requires Plain(t) && j.Obj? && IsName(source) && IsName(target) && source != target && path != []
    requires MapIdentity(j, target).Ok? && ValueAt(j, path).Some?
    ensures var renamed := MapIdentity(j, target).value;
      && ValueAt(renamed, Moved(path, source, target)) == ValueAt(j, path)
      && (TokenAt(t, renamed, Moved(path, source, target), true) <==> TokenAt(t, j, path, true))
  {
    var renamed := MapIdentity(j, target).value;
    var moved := Moved(path, source, target);
    assert moved[1..] == path[1..] && |moved| == |path|;
    if path[0].Key? && path[0].key in j.fields {
      assert moved[0].Key? && moved[0].key in renamed.fields;
      assert renamed.fields[moved[0].key] == j.fields[path[0].key];
    }
  }

  /** Every value of a renamed configuration comes from one of the configuration before. */
  lemma IdentityFrom(j: Json, source: string, target: string, path: JsonPath)
    requires j.Obj? && IsName(source) && IsName(target) && source != target && path != []
    requires MapIdentity(j, target).Ok? && ValueAt(MapIdentity(j, target).value, path).Some?
    ensures
      || (ValueAt(j, path).Some? && Moved(path, source, target) == path)
      || (ValueAt(j, Moved(path, target, source)).Some? && Moved(Moved(path, target, source), source, target) == path)
  {
    var back := Moved(path, target, source);
    assert back[1..] == path[1..];
    assert Moved(back, source, target)[1..] == path[1..];
    assert path == [path[0]] + path[1..];
  }

  lemma TokenHasValue(t: Text, j: Json, path: JsonPath, topLevel: bool)
    requires TokenAt(t, j, path, topLevel)
    ensures ValueAt(j, path).Some? && path != []
    decreases |path|
  {
    match path[0]
    case Key(k) =>
      if |path| == 1 {
      } else if k == "core_services" && j.fields[k].Arr? {
        var rest := path[1..];
        assert rest[0] == path[1] && rest[1..] == [];
        assert ValueAt(j.fields[k].items[path[1].index], rest[1..]).Some?;
        assert ValueAt(j.fields[k], rest).Some?;
      } else {
        TokenHasValue(t, j.fields[k], path[1..], false);
      }
    case Index(i) => TokenHasValue(t, j.items[i], path[1..], false);
  }

  lemma RenamedNamesNone(t: Text, j: Json, source: string, target: string, name: string)
    requires Plain(t) && j.Obj? && IsName(source) && IsName(target) && source != target
    requires MapIdentity(j, target).Ok? && NamesNone(t, j, name)
    ensures NamesNone(t, MapIdentity(j, target).value, name)
  {
    var renamed := MapIdentity(j, target).value;
    forall path | TokenAt(t, renamed, path, true) ensures NoPart(t, ValueAt(renamed, path), name) {
      TokenHasValue(t, renamed, path, true);
      IdentityFrom(j, source, target, path);
      if ValueAt(j, path).Some? && Moved(path, source, target) == path {
        IdentityAt(t, j, source, target, path);
      } else {
        IdentityAt(t, j, source, target, Moved(path, target, source));
      }
    }
  }

  /** A configuration at run time names the service nowhere by its legacy name. */
  lemma RuntimeNamesNoLegacy(t: Text, file: Json)
    requires Plain(t) && Canonicalize(t, file).Ok?
    ensures NamesNone(t, Canonicalize(t, file).value, "nzbdav")
  {
    MappedNamesNone(t, CANONICAL, LEGACY, MapIdentity(file, CANONICAL).value);
  }

  /** A file in legacy form names it nowhere by its canonical name. */
  lemma LegacyFileNamesNoCanonical(t: Text, j: Json)
    requires Plain(t) && j.Obj? && Serialize(t, j, true).Ok?
    ensures NamesNone(t, Serialize(t, j, true).value, "infinidysk")
  {
    var mapped := MapTokens(t, LEGACY, j, true);
    MappedNamesNone(t, LEGACY, CANONICAL, j);
    RenamedNamesNone(t, mapped, CANONICAL, LEGACY, CANONICAL);
  }

  /** What is read from a file is what the file has, with the names of the service renamed: each string that
      names services keeps its other parts, and every other value stays as it is. */
  lemma ReadFromFile(t: Text, file: Json, path: JsonPath)
    requires Plain(t) && file.Obj? && Canonicalize(t, file).Ok? && path != [] && ValueAt(file, path).Some?
    ensures var read := ValueAt(Canonicalize(t, file).value, Moved(path, "nzbdav", "infinidysk"));
      && read.Some?
      && if TokenAt(t, file, path, true) then
           ValueAt(file, path).value.Str? && read.value.Str?
           && Renamed(t, "infinidysk", ValueAt(file, path).value.text, read.value.text)
         else SameFrame(ValueAt(file, path).value, read.value)
  {
    IdentityAt(t, file, LEGACY, CANONICAL, path);
    MapTokensAt(t, CANONICAL, MapIdentity(file, CANONICAL).value, Moved(path, LEGACY, CANONICAL), true);
  }

  /** What is written in legacy form is what the configuration has, renamed the other way. */
  lemma WrittenToLegacyFile(t: Text, j: Json, path: JsonPath)
    requires Plain(t) && j.Obj? && Serialize(t, j, true).Ok? && path != [] && ValueAt(j, path).Some?
    ensures var written := ValueAt(Serialize(t, j, true).value, Moved(path, "infinidysk", "nzbdav"));
      && written.Some?
      && if TokenAt(t, j, path, true) then
           ValueAt(j, path).value.Str? && written.value.Str?
           && Renamed(t, "nzbdav", ValueAt(j, path).value.text, written.value.text)
         else SameFrame(ValueAt(j, path).value, written.value)
  {
    MapTokensAt(t, LEGACY, j, path, true);
    IdentityAt(t, MapTokens(t, LEGACY, j, true), CANONICAL, LEGACY, path);
  }
}
