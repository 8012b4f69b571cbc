/**
 A whole start: the file is read under its own service name, completed, pruned and written back
 under that name if anything has changed.
 */
module ConfigStart {
  import opened Wrappers
  import opened ConfigNormalization
  import opened ConfigIdentity
  import opened ConfigTokens

  /** The configuration at run time, the file after the start, and whether it was written. */
  datatype Started = Started(runtime: Json, file: Json, wrote: bool)

  /** `update_config_with_defaults`, without the one-off migrations; `None` is its exception. */
  function Start(t: Text, first: Order, d: Json, file: Json): Option<Started> {
    if !file.Obj? || Canonicalize(t, file).Err? then None
    else
      var loaded := Normalize(first, Canonicalize(t, file).value, d);
      if loaded.Err? then None
      else
        var written := Serialize(t, loaded.value, LEGACY in file.fields);
        if written.Err? then None else Some(Started(loaded.value, written.value, written.value != file))
  }

  /** The next start leaves the file as it is, and runs with the same configuration. */
  ghost predicate Repeats(t: Text, first: Order, d: Json, started: Started) {
    Start(t, first, d, started.file) == Some(Started(started.runtime, started.file, false))
  }

  // ---- values whose tokens are canonical ----

  predicate Fixed(t: Text, j: Json, topLevel: bool) {
    MapTokens(t, CANONICAL, j, topLevel) == j
  }

  predicate FixedEntry(t: Text, k: string, child: Json, topLevel: bool) {
    MapEntry(t, CANONICAL, k, child, topLevel) == child
  }

  lemma FixedFields(t: Text, fields: Fields, topLevel: bool)
    ensures Fixed(t, Obj(fields), topLevel) <==> forall k :: k in fields ==> FixedEntry(t, k, fields[k], topLevel)
  {
    var mapped := MapTokens(t, CANONICAL, Obj(fields), topLevel).fields;
    assert forall k :: k in fields ==> mapped[k] == MapEntry(t, CANONICAL, k, fields[k], topLevel);
    if forall k :: k in fields ==> FixedEntry(t, k, fields[k], topLevel) {
      assert mapped == fields;
    }
  }

  /** The tokens of the `zurg` block do not matter; an object elsewhere is an entry like any other. */
  lemma FixedObject(t: Text, k: string, child: Json, topLevel: bool)
    requires child.Obj?
    ensures FixedEntry(t, k, child, topLevel) <==> (topLevel && t.lower(k) == "zurg") || Fixed(t, child, false)
  {
  }

  /** Merging fixed values into fixed values. */
  lemma {:induction false} MergeFixed(t: Text, first: Order, e: Json, d: Json, topLevel: bool)
    requires Fixed(t, e, topLevel) && Fixed(t, d, topLevel)
    ensures Fixed(t, Merge(first, e, d), topLevel)
    decreases d, 1
  {
    if !e.Obj? || !d.Obj? {
    } else {
      FixedFields(t, e.fields, topLevel);
      FixedFields(t, d.fields, topLevel);
      var merged := Merge(first, e, d).fields;
      forall k | k in merged ensures FixedEntry(t, k, merged[k], topLevel) {
        MergeKeyFixed(t, first, e.fields, d, k, topLevel);
      }
      FixedFields(t, merged, topLevel);
    }
  }

  lemma {:induction false} MergeKeyFixed(t: Text, first: Order, e: Fields, d: Json, k: string, topLevel: bool)
    requires d.Obj? && k in e.Keys + d.fields.Keys
    requires k in e ==> FixedEntry(t, k, e[k], topLevel)
    requires k in d.fields ==> FixedEntry(t, k, d.fields[k], topLevel)
    ensures FixedEntry(t, k, MergeKey(first, e, d, k), topLevel)
    decreases d, 0
  {
    if k in e && k in d.fields && e[k].Obj? && d.fields[k].Obj? {
      FixedObject(t, k, e[k], topLevel);
      FixedObject(t, k, d.fields[k], topLevel);
      if topLevel && t.lower(k) == "zurg" {
      } else if !Instances(d.fields, k) {
        MergeFixed(t, first, e[k], d.fields[k], false);
        FixedObject(t, k, Merge(first, e[k], d.fields[k]), topLevel);
      } else if e[k].fields != map[] && HasTemplate(first, d.fields[k].fields) {
        InstancesFixed(t, first, e[k].fields, d.fields[k], first(d.fields[k].fields));
      }
    }
  }

  lemma {:induction false} InstancesFixed(t: Text, first: Order, e: Fields, d: Json, template: string)
    requires d.Obj? && template in d.fields && Fixed(t, Obj(e), false) && Fixed(t, d, false)
    ensures Fixed(t, Obj(map n | n in e :: Merge(first, e[n], d.fields[template])), false)
    decreases d.fields[template], 2
  {
    var instances := map n | n in e :: Merge(first, e[n], d.fields[template]);
    FixedFields(t, e, false);
    FixedFields(t, d.fields, false);
    forall n | n in instances ensures FixedEntry(t, n, instances[n], false) {
      if e[n].Obj? && d.fields[template].Obj? {
        FixedObject(t, template, d.fields[template], false);
        FixedObject(t, n, e[n], false);
        MergeFixed(t, first, e[n], d.fields[template], false);
        FixedObject(t, n, instances[n], false);
      }
    }
    FixedFields(t, instances, false);
  }

  /** Pruning takes values away only. */
  lemma {:induction false} PruneFixed(t: Text, first: Order, c: Json, r: Json, topLevel: bool)
    requires Fixed(t, c, topLevel)
    ensures Fixed(t, Prune(first, c, r), topLevel)
    decreases r, 1
  {
    if !c.Obj? || !r.Obj? || r.fields == map[] {
    } else {
      FixedFields(t, c.fields, topLevel);
      var pruned := Prune(first, c, r).fields;
      forall k | k in pruned ensures FixedEntry(t, k, pruned[k], topLevel) {
        PruneKeyFixed(t, first, c.fields, r, k, topLevel);
      }
      FixedFields(t, pruned, topLevel);
    }
  }

  lemma {:induction false} PruneKeyFixed(t: Text, first: Order, c: Fields, r: Json, k: string, topLevel: bool)
    requires r.Obj? && k in r.fields && (k in c || Instances(r.fields, k))
    requires k in c ==> FixedEntry(t, k, c[k], topLevel)
    ensures FixedEntry(t, k, PruneKey(first, c, r, k), topLevel)
    decreases r, 0
  {
    var pruned := PruneKey(first, c, r, k);
    if k !in c {
      FixedFields(t, map[], false);
      FixedObject(t, k, pruned, topLevel);
    } else if c[k].Obj? && !(topLevel && t.lower(k) == "zurg") {
      FixedObject(t, k, c[k], topLevel);
      if Instances(r.fields, k) {
        if HasTemplate(first, r.fields[k].fields) {
          PrunedInstancesFixed(t, first, c[k].fields, r.fields[k].fields[first(r.fields[k].fields)]);
        }
      } else if k != "env" {
        PruneFixed(t, first, c[k], r.fields[k], false);
      }
      FixedObject(t, k, pruned, topLevel);
    }
  }

  lemma {:induction false} PrunedInstancesFixed(t: Text, first: Order, c: Fields, template: Json)
    requires Fixed(t, Obj(c), false)
    ensures Fixed(t, Obj(map n | n in c :: Prune(first, c[n], template)), false)
    decreases template, 2
  {
    var instances := map n | n in c :: Prune(first, c[n], template);
    FixedFields(t, c, false);
    forall n | n in instances ensures FixedEntry(t, n, instances[n], false) {
      if c[n].Obj? {
        FixedObject(t, n, c[n], false);
        PruneFixed(t, first, c[n], template, false);
        FixedObject(t, n, instances[n], false);
      }
    }
    FixedFields(t, instances, false);
  }

  /** What a start makes of canonical values is canonical, if what it makes of the defaults alone is. */
  lemma {:induction false} NormalizedFixed(t: Text, first: Order, e: Json, d: Json, topLevel: bool)
    requires Covers(first, d, d) && Fixed(t, e, topLevel) && Fixed(t, Prune(first, d, d), topLevel)
    ensures Fixed(t, Prune(first, Merge(first, e, d), d), topLevel)
    decreases d, 1
  {
    if !e.Obj? || !d.Obj? {
    } else if d.fields == map[] {
      assert Merge(first, e, d) == e;
    } else {
      var merged, alone := Merge(first, e, d).fields, Prune(first, d, d).fields;
      var loaded := Prune(first, Obj(merged), d).fields;
      FixedFields(t, e.fields, topLevel);
      FixedFields(t, alone, topLevel);
      forall k | k in loaded ensures FixedEntry(t, k, loaded[k], topLevel) {
        assert CoversKey(first, d.fields, d, k);
        assert alone[k] == PruneKey(first, d.fields, d, k) && loaded[k] == PruneKey(first, merged, d, k);
        if k in e.fields {
          NormalizedKeyFixed(t, first, e.fields, d, k, topLevel);
        } else {
          assert merged[k] == MergeKey(first, e.fields, d, k);
          SamePruned(first, merged, d.fields, d, k);
        }
      }
      FixedFields(t, loaded, topLevel);
    }
  }

  lemma SamePruned(first: Order, a: Fields, b: Fields, r: Json, k: string)
    requires r.Obj? && k in r.fields && k in a && k in b && a[k] == b[k]
    ensures PruneKey(first, a, r, k) == PruneKey(first, b, r, k)
  {
  }

  lemma {:induction false} NormalizedKeyFixed(t: Text, first: Order, e: Fields, d: Json, k: string, topLevel: bool)
    requires d.Obj? && k in d.fields && k in e && Covers(first, d, d) && CoversKey(first, d.fields, d, k)
    requires FixedEntry(t, k, e[k], topLevel) && FixedEntry(t, k, PruneKey(first, d.fields, d, k), topLevel)
    ensures FixedEntry(t, k, PruneKey(first, Merge(first, Obj(e), d).fields, d, k), topLevel)
    decreases d, 0
  {
    var merged := Merge(first, Obj(e), d).fields;
    assert merged[k] == MergeKey(first, e, d, k);
    if topLevel && t.lower(k) == "zurg" {
    } else if Instances(d.fields, k) {
      NormalizedInstancesFixed(t, first, e, d, k, topLevel);
    } else if e[k].Obj? && d.fields[k].Obj? {
      FixedObject(t, k, e[k], topLevel);
      if k == "env" {
        FixedObject(t, k, d.fields[k], topLevel);
        MergeFixed(t, first, e[k], d.fields[k], false);
        FixedObject(t, k, merged[k], topLevel);
      } else {
        FixedObject(t, k, Prune(first, d.fields[k], d.fields[k]), topLevel);
        NormalizedFixed(t, first, e[k], d.fields[k], false);
        FixedObject(t, k, Prune(first, merged[k], d.fields[k]), topLevel);
      }
    } else {
      assert merged[k] == Merge(first, e[k], d.fields[k]) == e[k];
      assert Prune(first, e[k], d.fields[k]) == e[k];
    }
  }

  lemma {:induction false} NormalizedInstancesFixed(t: Text, first: Order, e: Fields, d: Json, k: string,
                                                         topLevel: bool)
    requires d.Obj? && Instances(d.fields, k) && k in e && CoversKey(first, d.fields, d, k)
    requires !(topLevel && t.lower(k) == "zurg")
    requires FixedEntry(t, k, e[k], topLevel) && FixedEntry(t, k, PruneKey(first, d.fields, d, k), topLevel)
    ensures FixedEntry(t, k, PruneKey(first, Merge(first, Obj(e), d).fields, d, k), topLevel)
    decreases d.fields[k], 2
  {
    var merged := Merge(first, Obj(e), d).fields;
    assert merged[k] == MergeKey(first, e, d, k);
    var name := first(d.fields[k].fields);
    var template := d.fields[k].fields[name];
    if Truthy(e[k]) && e[k].Obj? {
      var alone := PruneKey(first, d.fields, d, k).fields;
      var loaded := PruneKey(first, merged, d, k);
      FixedObject(t, k, e[k], topLevel);
      FixedObject(t, k, Obj(alone), topLevel);
      FixedFields(t, e[k].fields, false);
      FixedFields(t, alone, false);
      forall n | n in loaded.fields ensures FixedEntry(t, n, loaded.fields[n], false) {
        assert loaded.fields[n] == Prune(first, Merge(first, e[k].fields[n], template), template);
        if e[k].fields[n].Obj? && template.Obj? {
          FixedObject(t, n, e[k].fields[n], false);
          assert alone[name] == Prune(first, template, template);
          FixedObject(t, name, alone[name], false);
          NormalizedFixed(t, first, e[k].fields[n], template, false);
          FixedObject(t, n, loaded.fields[n], false);
        }
      }
      FixedFields(t, loaded.fields, false);
      FixedObject(t, k, loaded, topLevel);
    }
  }

  // ---- a second start ----

  /** Mapping the tokens removes no value. */
  lemma {:induction false} TokensCover(t: Text, first: Order, v: Json, d: Json, topLevel: bool)
    requires Covers(first, v, d)
    ensures Covers(first, MapTokens(t, CANONICAL, v, topLevel), d)
    decreases d, 1
  {
    if !v.Obj? || !d.Obj? {
    } else {
      var mapped := MapTokens(t, CANONICAL, v, topLevel).fields;
      forall k | k in d.fields ensures CoversKey(first, mapped, d, k) {
        assert CoversKey(first, v.fields, d, k);
        assert mapped[k] == MapEntry(t, CANONICAL, k, v.fields[k], topLevel);
        if !(topLevel && t.lower(k) == "zurg") && v.fields[k].Obj? {
          if Instances(d.fields, k) {
            InstanceTokensCover(t, first, v.fields[k].fields, d.fields[k].fields[first(d.fields[k].fields)]);
            SameKeys(mapped[k].fields, v.fields[k].fields);
          } else {
            TokensCover(t, first, v.fields[k], d.fields[k], false);
          }
        }
      }
    }
  }

  lemma {:induction false} InstanceTokensCover(t: Text, first: Order, v: Fields, template: Json)
    requires forall n :: n in v ==> Covers(first, v[n], template)
    ensures var mapped := MapTokens(t, CANONICAL, Obj(v), false).fields;
      mapped.Keys == v.Keys && forall n :: n in mapped ==> Covers(first, mapped[n], template)
    decreases template, 2
  {
    var mapped := MapTokens(t, CANONICAL, Obj(v), false).fields;
    forall n | n in mapped ensures Covers(first, mapped[n], template) {
      assert mapped[n] == MapEntry(t, CANONICAL, n, v[n], false);
      if v[n].Obj? {
        TokensCover(t, first, v[n], template, false);
      }
    }
  }

  /** The defaults cover themselves and name the service by its canonical name. */
  ghost predicate GoodDefaults(first: Order, d: Json) {
    d.Obj? && Covers(first, d, d) && CANONICAL in d.fields && LEGACY !in d.fields
  }

  /** What a start runs with: canonical, normalised, and with the service if the file names it. */
  lemma LoadedIsCanonical(t: Text, first: Order, d: Json, file: Json)
    requires Plain(t) && GoodDefaults(first, d) && Fixed(t, Prune(first, d, d), true)
    requires Start(t, first, d, file).Some?
    ensures var y := Start(t, first, d, file).value.runtime;
      && y.Obj? && Canonical(t, y) && Normalize(first, y, d) == Ok(y)
      && (LEGACY in file.fields ==> CANONICAL in y.fields)
    ensures NamesNone(t, Start(t, first, d, file).value.runtime, "nzbdav")
    ensures LEGACY in file.fields ==> NamesNone(t, Start(t, first, d, file).value.file, "infinidysk")
  {
    var x := Canonicalize(t, file).value;
    CanonicalizedIsCanonical(t, file);
    NormalizedFixed(t, first, x, d, true);
    CoveringSettles(first, x, d);
    assert CANONICAL in Merge(first, x, d).fields;
    var y := Start(t, first, d, file).value.runtime;
    assert MapTokens(t, CANONICAL, y, true) == y;
    MappedNamesNone(t, CANONICAL, LEGACY, y);
    if LEGACY in file.fields {
      LegacyFileNamesNoCanonical(t, y);
    }
  }

  lemma StartRepeats(t: Text, first: Order, d: Json, file: Json)
    requires Plain(t) && GoodDefaults(first, d) && Fixed(t, Prune(first, d, d), true)
    requires Start(t, first, d, file).Some?
    ensures Repeats(t, first, d, Start(t, first, d, file).value)
  {
    var started := Start(t, first, d, file).value;
    var legacy := LEGACY in file.fields;
    LoadedIsCanonical(t, first, d, file);
    WriteThenRead(t, started.runtime, legacy);
    WrittenName(t, started.runtime, legacy);
  }

  /** The file that is written uses the legacy name exactly if it is to. */
  lemma WrittenName(t: Text, y: Json, legacy: bool)
    requires y.Obj? && LEGACY !in y.fields && (legacy ==> CANONICAL in y.fields)
    ensures var file := Serialize(t, y, legacy);
      file.Ok? && file.value.Obj? && (LEGACY in file.value.fields <==> legacy)
  {
  }

  /** If the first start of all is repeated, what it made of the defaults is canonical. */
  lemma FirstStartIsCanonical(t: Text, first: Order, d: Json)
    requires Plain(t) && GoodDefaults(first, d)
    requires forall file :: Start(t, first, d, file).Some? ==> Repeats(t, first, d, Start(t, first, d, file).value)
    ensures Fixed(t, Prune(first, d, d), true)
  {
    var empty, y := Obj(map[]), Prune(first, d, d);
    CoversKeysMerge(first, d);
    EmptyMergesToDefaults(first, d);
    CoversPrunes(first, d, d);
    assert MapTokens(t, CANONICAL, empty, true) == empty;
    assert Start(t, first, d, empty) == Some(Started(y, y, y != empty));
    assert Repeats(t, first, d, Start(t, first, d, empty).value);
    var x := MapTokens(t, CANONICAL, y, true);
    PruneCovers(first, d, d);
    TokensCover(t, first, y, d, true);
    CoversIsFixed(first, x, d);
    MapTokensTwice(t, CANONICAL, CANONICAL, y, true);
    PruneFixed(t, first, x, d, true);
  }

  /**
   Every start is repeated by the next one, under either name of the service, if and only if the
   tokens of the defaults are canonical as a first start writes them.
   */
  lemma StartsRepeatIffDefaultsCanonical(t: Text, first: Order, d: Json)
    requires Plain(t) && GoodDefaults(first, d)
    ensures (forall file :: Start(t, first, d, file).Some? ==> Repeats(t, first, d, Start(t, first, d, file).value))
       <==> Fixed(t, Prune(first, d, d), true)
  {
    if Fixed(t, Prune(first, d, d), true) {
      forall file | Start(t, first, d, file).Some? ensures Repeats(t, first, d, Start(t, first, d, file).value) {
        StartRepeats(t, first, d, file);
      }
    } else if forall file :: Start(t, first, d, file).Some? ==> Repeats(t, first, d, Start(t, first, d, file).value) {
      FirstStartIsCanonical(t, first, d);
    }
  }
}
