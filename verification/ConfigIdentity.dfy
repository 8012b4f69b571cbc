/**
 The renaming of the InfiniDysk service between its canonical name, used at run time,
 and its legacy name, which a configuration file may still use.
 */
module ConfigIdentity {
  import opened Wrappers
  import opened ConfigNormalization
  import opened Strings

  const CANONICAL := "infinidysk"
  const LEGACY := "nzbdav"

  datatype IdentityError = BothIdentities

  /** Python's string functions: `lower` lower-cases, `fold` strips and lower-cases. */
  datatype Text = Text(lower: string -> string, fold: string -> string)

  ghost predicate FoldsNames(t: Text) {
    t.fold(CANONICAL) == CANONICAL && t.fold(LEGACY) == LEGACY
  }

  predicate IsName(s: string) { s == CANONICAL || s == LEGACY }

  // ---- comma-separated tokens ----

  function MapPart(t: Text, target: string, part: string): string {
    if IsName(t.fold(part)) then target else part
  }

  function MapList(t: Text, target: string, s: string): string {
    Join(',', MapParts(t, target, Split(',', s)))
  }

  function MapParts(t: Text, target: string, parts: seq<string>): seq<string> {
    seq(|parts|, i requires 0 <= i < |parts| => MapPart(t, target, parts[i]))
  }

  /** The last target wins. */
  lemma MapListTwice(t: Text, first: string, second: string, s: string)
    requires FoldsNames(t) && IsName(first) && IsName(second)
    ensures MapList(t, second, MapList(t, first, s)) == MapList(t, second, s)
  {
    var parts := Split(',', s);
    var mapped := MapParts(t, first, parts);
    JoinSplit(',', s);
    assert Without(',', CANONICAL) && Without(',', LEGACY);
    SplitJoin(',', mapped);
    assert MapParts(t, second, mapped) == MapParts(t, second, parts);
  }

  // ---- tokens ----

  predicate TokenKey(k: string) { k == "core_service" || k == "key_type" }

  /** `_map_infinidysk_tokens` */
  function MapTokens(t: Text, target: string, j: Json, topLevel: bool): Json
    decreases j, 0
  {
    match j
    case Obj(fields) =>
      Obj(map k | k in fields :: MapEntry(t, target, k, fields[k], topLevel))
    case Arr(items) => Arr(seq(|items|, i requires 0 <= i < |items| => MapTokens(t, target, items[i], false)))
    case _ => j
  }

  function MapEntry(t: Text, target: string, k: string, child: Json, topLevel: bool): Json
    decreases child, 1
  {
    if topLevel && t.lower(k) == "zurg" then child
    else if TokenKey(k) && child.Str? then Str(MapList(t, target, child.text))
    else if k == "core_services" && child.Arr? then Arr(MapItems(t, target, child.items))
    else MapTokens(t, target, child, false)
  }

  function MapItems(t: Text, target: string, items: seq<Json>): seq<Json> {
    seq(|items|, i requires 0 <= i < |items| =>
      if items[i].Str? then Str(MapList(t, target, items[i].text)) else items[i])
  }

  lemma MapItemsTwice(t: Text, first: string, second: string, items: seq<Json>)
    requires FoldsNames(t) && IsName(first) && IsName(second)
    ensures MapItems(t, second, MapItems(t, first, items)) == MapItems(t, second, items)
  {
    forall i | 0 <= i < |items| && items[i].Str?
      ensures MapList(t, second, MapList(t, first, items[i].text)) == MapList(t, second, items[i].text)
    {
      MapListTwice(t, first, second, items[i].text);
    }
  }

  lemma {:induction false} MapTokensTwice(t: Text, first: string, second: string, j: Json, topLevel: bool)
    requires FoldsNames(t) && IsName(first) && IsName(second)
    ensures MapTokens(t, second, MapTokens(t, first, j, topLevel), topLevel) == MapTokens(t, second, j, topLevel)
    decreases j, 0
  {
    match j
    case Obj(fields) =>
      forall k | k in fields
        ensures MapEntry(t, second, k, MapEntry(t, first, k, fields[k], topLevel), topLevel)
             == MapEntry(t, second, k, fields[k], topLevel)
      {
        MapEntryTwice(t, first, second, j, k, topLevel);
      }
    case Arr(items) =>
      forall i | 0 <= i < |items|
        ensures MapTokens(t, second, MapTokens(t, first, items[i], false), false) ==
          MapTokens(t, second, items[i], false)
      {
        MapTokensTwice(t, first, second, items[i], false);
      }
    case _ =>
  }

  lemma {:induction false} MapEntryTwice(t: Text, first: string, second: string, j: Json, k: string, topLevel: bool)
    requires FoldsNames(t) && IsName(first) && IsName(second) && j.Obj? && k in j.fields
    ensures MapEntry(t, second, k, MapEntry(t, first, k, j.fields[k], topLevel), topLevel)
         == MapEntry(t, second, k, j.fields[k], topLevel)
    decreases j.fields[k], 1
  {
    var child := j.fields[k];
    if topLevel && t.lower(k) == "zurg" {
    } else if TokenKey(k) && child.Str? {
      MapListTwice(t, first, second, child.text);
    } else if k == "core_services" && child.Arr? {
      MapItemsTwice(t, first, second, child.items);
    } else {
      MapTokensTwice(t, first, second, child, false);
      SameShape(t, first, child, false);
    }
  }

  lemma SameShape(t: Text, target: string, j: Json, topLevel: bool)
    ensures MapTokens(t, target, j, topLevel).Str? == j.Str? && MapTokens(t, target, j, topLevel).Arr? == j.Arr?
  {
  }

  // ---- the service key ----

  /** `_map_infinidysk_identity` */
  function MapIdentity(j: Json, target: string): Result<Json, IdentityError>
    requires IsName(target)
  {
    if !j.Obj? then Ok(j)
    else if CANONICAL in j.fields && LEGACY in j.fields then Err(BothIdentities)
    else
      var source := if target == CANONICAL then LEGACY else CANONICAL;
      if source !in j.fields || target in j.fields then Ok(j)
      else Ok(Obj((j.fields - {source})[target := j.fields[source]]))
  }

  /** `_canonicalize_runtime_config`, without the release selectors. */
  function Canonicalize(t: Text, j: Json): Result<Json, IdentityError> {
    match MapIdentity(j, CANONICAL)
    case Ok(mapped) => Ok(MapTokens(t, CANONICAL, mapped, true))
    case Err(e) => Err(e)
  }

  /** `_serialize_config_for_disk`, without the release selectors; `legacy` tells that the file on
      disk uses the legacy name. */
  function Serialize(t: Text, j: Json, legacy: bool): Result<Json, IdentityError> {
    if legacy then MapIdentity(MapTokens(t, LEGACY, j, true), LEGACY) else Ok(j)
  }

  /** A configuration as it is held at run time. */
  ghost predicate Canonical(t: Text, j: Json) {
    && MapTokens(t, CANONICAL, j, true) == j
    && (j.Obj? ==> LEGACY !in j.fields)
  }

  lemma CanonicalizedIsCanonical(t: Text, j: Json)
    requires FoldsNames(t) && Canonicalize(t, j).Ok?
    ensures Canonical(t, Canonicalize(t, j).value)
    ensures Canonicalize(t, Canonicalize(t, j).value) == Canonicalize(t, j)
  {
    MapTokensTwice(t, CANONICAL, CANONICAL, MapIdentity(j, CANONICAL).value, true);
  }

  /** A configuration with both names is refused, and only such a one. */
  lemma RefusedIffBothNames(t: Text, j: Json)
    ensures Canonicalize(t, j).Err? <==> j.Obj? && CANONICAL in j.fields && LEGACY in j.fields
  {
  }

  /** Writing a run-time configuration to disk and reading it back gives the same configuration. */
  lemma WriteThenRead(t: Text, j: Json, legacy: bool)
    requires FoldsNames(t) && t.lower(CANONICAL) == CANONICAL && t.lower(LEGACY) == LEGACY && Canonical(t, j)
    ensures Serialize(t, j, legacy).Ok? && Canonicalize(t, Serialize(t, j, legacy).value) == Ok(j)
  {
    if legacy {
      MapTokensTwice(t, LEGACY, CANONICAL, j, true);
      var mapped := MapTokens(t, LEGACY, j, true);
      if j.Obj? && CANONICAL in j.fields {
        var written := Serialize(t, j, legacy).value;
        assert written == Obj((mapped.fields - {CANONICAL})[LEGACY := mapped.fields[CANONICAL]]);
        assert MapIdentity(written, CANONICAL) ==
          Ok(Obj((written.fields - {LEGACY})[CANONICAL := written.fields[LEGACY]]));
        assert (written.fields - {LEGACY})[CANONICAL := written.fields[LEGACY]] == mapped.fields;
      }
    }
  }

  /** Neither mapping touches the top-level `zurg` block. */
  lemma ZurgUntouched(t: Text, j: Json, legacy: bool, k: string)
    requires j.Obj? && k in j.fields && t.lower(k) == "zurg" && !IsName(k)
    ensures Canonicalize(t, j).Ok? ==>
      var read := Canonicalize(t, j).value;
      read.Obj? && k in read.fields && read.fields[k] == j.fields[k]
    ensures Serialize(t, j, legacy).Ok? ==>
      var written := Serialize(t, j, legacy).value;
      written.Obj? && k in written.fields && written.fields[k] == j.fields[k]
  {
    forall target, fields: Fields | k in fields
      ensures MapTokens(t, target, Obj(fields), true).fields[k] == fields[k]
    {
      assert MapEntry(t, target, k, fields[k], true) == fields[k];
    }
    if Canonicalize(t, j).Ok? {
      var renamed := MapIdentity(j, CANONICAL).value.fields;
      assert renamed[k] == j.fields[k];
      assert MapTokens(t, CANONICAL, Obj(renamed), true).fields[k] == renamed[k];
    }
  }
}
