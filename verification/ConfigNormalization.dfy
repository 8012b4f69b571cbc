/**
 What the configuration loader does to the configuration at every start: it merges the
 defaults in, and prunes what the defaults do not know.
 */
module ConfigNormalization {
  import opened Wrappers

  datatype Json = Null | Bool(flag: bool) | Num(number: int) | Str(text: string) | Arr(items: seq<Json>)
                | Obj(fields: map<string, Json>)

  type Fields = map<string, Json>

  /** The defaults hold an empty instance map, or the configuration holds something else than an
      object where its instances belong: both raise an exception. */
  datatype Error = BadInstances

  /** Python's truth value. */
  predicate Truthy(j: Json) {
    match j
    case Null => false
    case Bool(b) => b
    case Num(n) => n != 0
    case Str(s) => s != ""
    case Arr(items) => items != []
    case Obj(fields) => fields != map[]
  }

  /** The first key of an object, in the order of the file; only the defaults are asked for it. */
  type Order = Fields -> string

  /** The object is not empty: then its first key is one of its keys. */
  predicate HasTemplate(first: Order, instances: Fields) {
    first(instances) in instances
  }

  predicate Instances(d: Fields, k: string) {
    k == "instances" && k in d && d[k].Obj?
  }

  // ---- merge ----

  /** `_merge_configs`: the values of `e`, completed by those of `d`. */
  function Merge(first: Order, e: Json, d: Json): Json
    decreases d, 1
  {
    if !e.Obj? || !d.Obj? then e
    else Obj(map k | k in e.fields.Keys + d.fields.Keys :: MergeKey(first, e.fields, d, k))
  }

  function MergeKey(first: Order, e: Fields, d: Json, k: string): Json
    requires d.Obj? && k in e.Keys + d.fields.Keys
    decreases d, 0
  {
    if Instances(d.fields, k) then
      if k !in e || !Truthy(e[k]) then d.fields[k]
      else if e[k].Obj? && HasTemplate(first, d.fields[k].fields) then
        var t := d.fields[k].fields[first(d.fields[k].fields)];
        Obj(map n | n in e[k].fields :: Merge(first, e[k].fields[n], t))
      else e[k]
    else if k !in e then d.fields[k]
    else if k !in d.fields then e[k]
    else Merge(first, e[k], d.fields[k])
  }

  /** The merge raises no exception. */
  predicate Merges(first: Order, e: Json, d: Json)
    decreases d, 1
  {
    e.Obj? && d.Obj? ==> forall k :: k in d.fields ==> MergesKey(first, e.fields, d, k)
  }

  predicate MergesKey(first: Order, e: Fields, d: Json, k: string)
    requires d.Obj? && k in d.fields
    decreases d, 0
  {
    if Instances(d.fields, k) then
      && HasTemplate(first, d.fields[k].fields)
      && (k in e && Truthy(e[k]) ==>
            e[k].Obj? && forall n :: n in e[k].fields ==>
              Merges(first, e[k].fields[n], d.fields[k].fields[first(d.fields[k].fields)]))
    else k in e ==> Merges(first, e[k], d.fields[k])
  }

  // ---- prune ----

  /** `_prune_extraneous_keys`: the values of `c` that `r` knows. */
  function Prune(first: Order, c: Json, r: Json): Json
    decreases r, 1
  {
    if !c.Obj? || !r.Obj? || r.fields == map[] then c
    else Obj(map k | k in r.fields && (k in c.fields || Instances(r.fields, k)) :: PruneKey(first, c.fields, r, k))
  }

  function PruneKey(first: Order, c: Fields, r: Json, k: string): Json
    requires r.Obj? && k in r.fields && (k in c || Instances(r.fields, k))
    decreases r, 0
  {
    if Instances(r.fields, k) then
      if k !in c then Obj(map[])
      else if c[k].Obj? && HasTemplate(first, r.fields[k].fields) then
        var t := r.fields[k].fields[first(r.fields[k].fields)];
        Obj(map n | n in c[k].fields :: Prune(first, c[k].fields[n], t))
      else c[k]
    else if k == "env" && c[k].Obj? then c[k]
    else Prune(first, c[k], r.fields[k])
  }

  /** The pruning raises no exception. */
  predicate Prunes(first: Order, c: Json, r: Json)
    decreases r, 1
  {
    c.Obj? && r.Obj? ==> forall k :: k in r.fields ==> PrunesKey(first, c.fields, r, k)
  }

  predicate PrunesKey(first: Order, c: Fields, r: Json, k: string)
    requires r.Obj? && k in r.fields
    decreases r, 0
  {
    if Instances(r.fields, k) then
      && HasTemplate(first, r.fields[k].fields)
      && (k in c ==> c[k].Obj? && forall n :: n in c[k].fields ==>
            Prunes(first, c[k].fields[n], r.fields[k].fields[first(r.fields[k].fields)]))
    else k in c && !(k == "env" && c[k].Obj?) ==> Prunes(first, c[k], r.fields[k])
  }

  /** The normalisation of a start. */
  function Normalize(first: Order, x: Json, d: Json): Result<Json, Error> {
    if !Merges(first, x, d) then Err(BadInstances)
    else
      var merged := Merge(first, x, d);
      if !Prunes(first, merged, d) then Err(BadInstances) else Ok(Prune(first, merged, d))
  }

  // ---- coverage ----

  /** `v` has a value for everything that `d` has one for; an instance is measured by the template. */
  predicate Covers(first: Order, v: Json, d: Json)
    decreases d, 1
  {
    v.Obj? && d.Obj? ==> forall k :: k in d.fields ==> CoversKey(first, v.fields, d, k)
  }

  predicate CoversKey(first: Order, v: Fields, d: Json, k: string)
    requires d.Obj? && k in d.fields
    decreases d, 0
  {
    k in v &&
    if Instances(d.fields, k) then
      && HasTemplate(first, d.fields[k].fields)
      && v[k].Obj? && v[k].fields != map[] && forall n :: n in v[k].fields ==>
           Covers(first, v[k].fields[n], d.fields[k].fields[first(d.fields[k].fields)])
    else Covers(first, v[k], d.fields[k])
  }

  lemma {:induction false} CoversIsFixed(first: Order, v: Json, d: Json)
    requires Covers(first, v, d)
    ensures Merges(first, v, d) && Merge(first, v, d) == v
    decreases d
  {
    if !v.Obj? || !d.Obj? {
    } else {
      forall k | k in d.fields
        ensures MergesKey(first, v.fields, d, k) && MergeKey(first, v.fields, d, k) == v.fields[k]
      {
        assert CoversKey(first, v.fields, d, k);
        if Instances(d.fields, k) {
          var t := d.fields[k].fields[first(d.fields[k].fields)];
          forall n | n in v.fields[k].fields
            ensures Merges(first, v.fields[k].fields[n], t) &&
              Merge(first, v.fields[k].fields[n], t) == v.fields[k].fields[n]
          {
            CoversIsFixed(first, v.fields[k].fields[n], t);
          }
        } else {
          CoversIsFixed(first, v.fields[k], d.fields[k]);
        }
      }
    }
  }

  /** Completing with defaults that cover themselves gives something that covers them. */
  lemma {:induction false} MergeCovers(first: Order, e: Json, d: Json)
    requires Covers(first, d, d) && Merges(first, e, d)
    ensures Covers(first, Merge(first, e, d), d)
    decreases d
  {
    if !e.Obj? || !d.Obj? {
    } else {
      forall k | k in d.fields ensures CoversKey(first, Merge(first, e, d).fields, d, k) {
        assert CoversKey(first, d.fields, d, k) && MergesKey(first, e.fields, d, k);
        if Instances(d.fields, k) {
          MergeCoversInstances(first, e.fields, d, k);
        } else if k in e.fields {
          MergeCovers(first, e.fields[k], d.fields[k]);
        }
      }
    }
  }

  lemma {:induction false} MergeCoversInstances(first: Order, e: Fields, d: Json, k: string)
    requires d.Obj? && Instances(d.fields, k) && CoversKey(first, d.fields, d, k) && MergesKey(first, e, d, k)
    ensures CoversKey(first, Merge(first, Obj(e), d).fields, d, k)
    decreases d, 0
  {
    if k in e && Truthy(e[k]) {
      var t := d.fields[k].fields[first(d.fields[k].fields)];
      forall n | n in e[k].fields ensures Covers(first, Merge(first, e[k].fields[n], t), t) {
        MergeCovers(first, e[k].fields[n], t);
      }
    }
  }

  /** What covers the defaults is pruned without an exception. */
  lemma {:induction false} CoversPrunes(first: Order, v: Json, d: Json)
    requires Covers(first, v, d)
    ensures Prunes(first, v, d)
    decreases d
  {
    if !v.Obj? || !d.Obj? {
    } else {
      forall k | k in d.fields ensures PrunesKey(first, v.fields, d, k) {
        assert CoversKey(first, v.fields, d, k);
        if Instances(d.fields, k) {
          var t := d.fields[k].fields[first(d.fields[k].fields)];
          forall n | n in v.fields[k].fields ensures Prunes(first, v.fields[k].fields[n], t) {
            CoversPrunes(first, v.fields[k].fields[n], t);
          }
        } else {
          CoversPrunes(first, v.fields[k], d.fields[k]);
        }
      }
    }
  }

  lemma SameKeys(a: Fields, b: Fields)
    requires a.Keys == b.Keys
    ensures a == map[] <==> b == map[]
  {
    if a == map[] || b == map[] {
      assert a.Keys == {} && b.Keys == {};
    }
  }

  /** Pruning removes nothing that the coverage needs, and adds nothing to it. */
  lemma {:induction false} PruneCovers(first: Order, v: Json, d: Json)
    requires Prunes(first, v, d)
    ensures Covers(first, Prune(first, v, d), d) <==> Covers(first, v, d)
    decreases d, 1
  {
    if v.Obj? && d.Obj? && d.fields != map[] {
      var pruned := Prune(first, v, d).fields;
      forall k | k in d.fields ensures CoversKey(first, pruned, d, k) <==> CoversKey(first, v.fields, d, k) {
        assert PrunesKey(first, v.fields, d, k);
        if k in v.fields || Instances(d.fields, k) {
          PruneKeyCovers(first, v.fields, d, k, pruned);
        }
      }
    }
  }

  lemma {:induction false} PruneKeyCovers(first: Order, v: Fields, d: Json, k: string, pruned: Fields)
    requires d.Obj? && k in d.fields && (k in v || Instances(d.fields, k)) && PrunesKey(first, v, d, k)
    requires k in pruned && pruned[k] == PruneKey(first, v, d, k)
    ensures CoversKey(first, pruned, d, k) <==> CoversKey(first, v, d, k)
    decreases d, 0
  {
    if Instances(d.fields, k) {
      if k in v {
        var t := d.fields[k].fields[first(d.fields[k].fields)];
        forall n | n in v[k].fields
          ensures Covers(first, Prune(first, v[k].fields[n], t), t) <==> Covers(first, v[k].fields[n], t)
        {
          PruneCovers(first, v[k].fields[n], t);
        }
        assert pruned[k].fields.Keys == v[k].fields.Keys;
        SameKeys(pruned[k].fields, v[k].fields);
      }
    } else if !(k == "env" && v[k].Obj?) {
      PruneCovers(first, v[k], d.fields[k]);
    }
  }

  lemma {:induction false} PruneTwice(first: Order, v: Json, d: Json)
    requires Prunes(first, v, d)
    ensures Prune(first, Prune(first, v, d), d) == Prune(first, v, d)
    decreases d, 1
  {
    if v.Obj? && d.Obj? && d.fields != map[] {
      var pruned := Prune(first, v, d).fields;
      forall k | k in pruned ensures PruneKey(first, pruned, d, k) == pruned[k] {
        assert PrunesKey(first, v.fields, d, k);
        PruneKeyTwice(first, v.fields, d, k, pruned);
      }
    }
  }

  lemma {:induction false} PruneKeyTwice(first: Order, v: Fields, d: Json, k: string, pruned: Fields)
    requires d.Obj? && k in d.fields && (k in v || Instances(d.fields, k)) && PrunesKey(first, v, d, k)
    requires k in pruned && pruned[k] == PruneKey(first, v, d, k)
    ensures PruneKey(first, pruned, d, k) == pruned[k]
    decreases d, 0
  {
    if Instances(d.fields, k) {
      var t := d.fields[k].fields[first(d.fields[k].fields)];
      if k in v {
        forall n | n in v[k].fields ensures Prune(first, pruned[k].fields[n], t) == pruned[k].fields[n] {
          PruneTwice(first, v[k].fields[n], t);
        }
      }
      assert (map n | n in pruned[k].fields :: Prune(first, pruned[k].fields[n], t)) == pruned[k].fields;
    } else if !(k == "env" && v[k].Obj?) {
      PruneTwice(first, v[k], d.fields[k]);
    }
  }

  /** What a merge leaves as it is covers the defaults. */
  lemma {:induction false} MergeFixedCovers(first: Order, v: Json, d: Json)
    requires Merges(first, v, d) && Merge(first, v, d) == v
    ensures Covers(first, v, d)
    decreases d
  {
    if !v.Obj? || !d.Obj? {
    } else {
      forall k | k in d.fields ensures CoversKey(first, v.fields, d, k) {
        assert MergesKey(first, v.fields, d, k);
        assert k in Merge(first, v, d).fields && MergeKey(first, v.fields, d, k) == v.fields[k];
        if Instances(d.fields, k) {
          FixedInstances(first, v.fields, d, k);
          var t := d.fields[k].fields[first(d.fields[k].fields)];
          forall n | n in v.fields[k].fields ensures Covers(first, v.fields[k].fields[n], t) {
            MergeFixedCovers(first, v.fields[k].fields[n], t);
          }
        } else {
          MergeFixedCovers(first, v.fields[k], d.fields[k]);
        }
      }
    }
  }

  /** Instances that a merge leaves as they are exist, and each is left as it is. */
  lemma FixedInstances(first: Order, v: Fields, d: Json, k: string)
    requires d.Obj? && Instances(d.fields, k) && k in v
    requires MergesKey(first, v, d, k) && MergeKey(first, v, d, k) == v[k]
    ensures HasTemplate(first, d.fields[k].fields) && v[k].Obj? && v[k].fields != map[]
    ensures var t := d.fields[k].fields[first(d.fields[k].fields)];
      forall n :: n in v[k].fields ==>
        Merges(first, v[k].fields[n], t) && Merge(first, v[k].fields[n], t) == v[k].fields[n]
  {
    if k in v && Truthy(v[k]) {
      var t := d.fields[k].fields[first(d.fields[k].fields)];
      forall n | n in v[k].fields ensures Merge(first, v[k].fields[n], t) == v[k].fields[n] {
        assert MergeKey(first, v, d, k).fields[n] == Merge(first, v[k].fields[n], t);
      }
    }
  }

  /** What a start leaves as it is covers the defaults. */
  lemma {:induction false} FixedCovers(first: Order, v: Json, d: Json)
    requires Merges(first, v, d) && Prunes(first, Merge(first, v, d), d) && Prune(first, Merge(first, v, d), d) == v
    ensures Covers(first, v, d)
    decreases d
  {
    if !v.Obj? || !d.Obj? || d.fields == map[] {
    } else {
      var merged := Merge(first, v, d).fields;
      forall k | k in d.fields ensures CoversKey(first, v.fields, d, k) {
        assert MergesKey(first, v.fields, d, k) && PrunesKey(first, merged, d, k);
        assert k in merged && k in v.fields && PruneKey(first, merged, d, k) == v.fields[k];
        if Instances(d.fields, k) {
          FixedPrunedInstances(first, v.fields, d, k);
          var t := d.fields[k].fields[first(d.fields[k].fields)];
          forall n | n in v.fields[k].fields ensures Covers(first, v.fields[k].fields[n], t) {
            FixedCovers(first, v.fields[k].fields[n], t);
          }
        } else if k == "env" && merged[k].Obj? {
          MergeFixedCovers(first, v.fields[k], d.fields[k]);
        } else {
          FixedCovers(first, v.fields[k], d.fields[k]);
        }
      }
    }
  }

  lemma FixedPrunedInstances(first: Order, v: Fields, d: Json, k: string)
    requires d.Obj? && Instances(d.fields, k) && k in v && MergesKey(first, v, d, k)
    requires var merged := Merge(first, Obj(v), d).fields;
      PrunesKey(first, merged, d, k) && PruneKey(first, merged, d, k) == v[k]
    ensures HasTemplate(first, d.fields[k].fields) && v[k].Obj? && v[k].fields != map[]
    ensures var t := d.fields[k].fields[first(d.fields[k].fields)];
      forall n :: n in v[k].fields ==>
        var merged := Merge(first, v[k].fields[n], t);
        Merges(first, v[k].fields[n], t) && Prunes(first, merged, t) && Prune(first, merged, t) == v[k].fields[n]
  {
    var merged := Merge(first, Obj(v), d).fields;
    var t := d.fields[k].fields[first(d.fields[k].fields)];
    assert merged[k] == MergeKey(first, v, d, k);
    assert merged[k].Obj? && v[k] == Obj(map n | n in merged[k].fields :: Prune(first, merged[k].fields[n], t));
    assert v[k].fields.Keys == merged[k].fields.Keys;
    SameKeys(v[k].fields, merged[k].fields);
    forall n | n in v[k].fields
      ensures merged[k].fields[n] == Merge(first, v[k].fields[n], t)
      ensures Prune(first, merged[k].fields[n], t) == v[k].fields[n]
    {
    }
  }

  // ---- a second start ----

  /** The configuration loads, and the next start finds nothing to change in the result. */
  ghost predicate Settles(first: Order, x: Json, d: Json) {
    && Normalize(first, x, d).Ok?
    && Normalize(first, Normalize(first, x, d).value, d) == Normalize(first, x, d)
  }

  lemma CoveringSettles(first: Order, x: Json, d: Json)
    requires Covers(first, d, d) && Merges(first, x, d)
    ensures Settles(first, x, d)
  {
    var merged := Merge(first, x, d);
    MergeCovers(first, x, d);
    CoversPrunes(first, merged, d);
    var y := Prune(first, merged, d);
    PruneCovers(first, merged, d);
    CoversPrunes(first, y, d);
    CoversIsFixed(first, y, d);
    PruneTwice(first, merged, d);
  }

  lemma EmptyMergesToDefaults(first: Order, d: Json)
    requires d.Obj?
    ensures Merge(first, Obj(map[]), d) == d
  {
  }

  /**
   Every configuration that loads is normalised once and for all, if and only if every
   default instance has a value for everything in its template, the first instance of its map.
   */
  lemma SettlesIffDefaultsCoverTheirTemplates(first: Order, d: Json)
    requires d.Obj?
    ensures Covers(first, d, d) <==>
      Merges(first, Obj(map[]), d) && forall x :: Merges(first, x, d) ==> Settles(first, x, d)
  {
    EmptyMergesToDefaults(first, d);
    if Covers(first, d, d) {
      CoversKeysMerge(first, d);
      forall x | Merges(first, x, d) ensures Settles(first, x, d) {
        CoveringSettles(first, x, d);
      }
    }
    if Merges(first, Obj(map[]), d) && Settles(first, Obj(map[]), d) {
      FixedCovers(first, Prune(first, d, d), d);
      PruneCovers(first, d, d);
    }
  }

  lemma CoversKeysMerge(first: Order, d: Json)
    requires d.Obj? && Covers(first, d, d)
    ensures Merges(first, Obj(map[]), d)
  {
    forall k | k in d.fields ensures MergesKey(first, map[], d, k) {
      assert CoversKey(first, d.fields, d, k);
    }
  }

  // ---- what a start keeps ----

  type Path = seq<string>

  function At(j: Json, path: Path): Option<Json> {
    if path == [] then Some(j)
    else if j.Obj? && path[0] in j.fields then At(j.fields[path[0]], path[1..])
    else None
  }

  /** A value that is not an object. */
  predicate Leaf(j: Json) { !j.Obj? }

  predicate LeafAt(j: Json, path: Path) { At(j, path).Some? && Leaf(At(j, path).value) }

  /** The defaults know the path: its keys are keys of the defaults, an instance being looked up in
      the template, up to an empty object, a value that is no object or an `env` block. */
  predicate Known(first: Order, d: Json, path: Path)
    decreases |path|
  {
    path == [] || !d.Obj? || d.fields == map[] ||
    (path[0] in d.fields &&
     (|path| > 1 ==>
        if Instances(d.fields, path[0]) then
          HasTemplate(first, d.fields[path[0]].fields) && Known(first, Template(first, d, path[0]), path[2..])
        else path[0] == "env" || Known(first, d.fields[path[0]], path[1..])))
  }

  function Template(first: Order, d: Json, k: string): Json
    requires d.Obj? && Instances(d.fields, k) && HasTemplate(first, d.fields[k].fields)
  {
    d.fields[k].fields[first(d.fields[k].fields)]
  }

  /** The path leads to the instance map of a service, not to anything in it. */
  predicate ToInstances(first: Order, d: Json, path: Path)
    decreases |path|
  {
    path != [] && d.Obj? && path[0] in d.fields &&
    if Instances(d.fields, path[0]) then
      |path| == 1
      || (HasTemplate(first, d.fields[path[0]].fields) && ToInstances(first, Template(first, d, path[0]), path[2..]))
    else ToInstances(first, d.fields[path[0]], path[1..])
  }

  /** Merging keeps every value of the configuration. */
  lemma {:induction false} MergeKeeps(first: Order, e: Json, d: Json, path: Path)
    requires Merges(first, e, d) && At(e, path).Some? && !ToInstances(first, d, path)
    ensures At(Merge(first, e, d), path).Some?
    ensures LeafAt(e, path) ==> At(Merge(first, e, d), path) == At(e, path)
    decreases |path|
  {
    if path == [] || !e.Obj? || !d.Obj? || path[0] !in d.fields {
    } else {
      var k := path[0];
      var merged := Merge(first, e, d);
      assert MergesKey(first, e.fields, d, k);
      assert merged.fields[k] == MergeKey(first, e.fields, d, k);
      if Instances(d.fields, k) {
        var n := path[1];
        assert path[1..][1..] == path[2..];
        assert e.fields[k].Obj? && n in e.fields[k].fields;
        assert merged.fields[k].fields[n] == Merge(first, e.fields[k].fields[n], Template(first, d, k));
        MergeKeeps(first, e.fields[k].fields[n], Template(first, d, k), path[2..]);
      } else {
        MergeKeeps(first, e.fields[k], d.fields[k], path[1..]);
      }
    }
  }

  /** Looking below the instance map is looking into an instance pruned against the template. */
  lemma PruneInstancesKeep(first: Order, c: Fields, r: Json, k: string, path: Path)
    requires r.Obj? && Instances(r.fields, k) && PrunesKey(first, c, r, k)
    requires path != [] && path[0] == k
    ensures var pruned := Prune(first, Obj(c), r);
      && At(pruned, path).Some? == (|path| == 1 || (k in c && path[1] in c[k].fields
           && At(Prune(first, c[k].fields[path[1]], Template(first, r, k)), path[2..]).Some?))
      && (|path| == 1 ==> At(pruned, path).value.Obj?)
      && (|path| > 1 && At(pruned, path).Some? ==>
            At(pruned, path) == At(Prune(first, c[k].fields[path[1]], Template(first, r, k)), path[2..]))
    ensures |path| > 1 ==>
      (At(Obj(c), path) == if k in c && path[1] in c[k].fields then At(c[k].fields[path[1]], path[2..]) else None)
  {
    var pruned := Prune(first, Obj(c), r);
    assert pruned.fields[k] == PruneKey(first, c, r, k);
    if |path| > 1 {
      assert path[1..][0] == path[1] && path[1..][1..] == path[2..];
    }
  }

  /** Pruning keeps the known paths, and only those. */
  lemma {:induction false} PruneKeeps(first: Order, c: Json, r: Json, path: Path)
    requires Prunes(first, c, r)
    ensures At(c, path).Some? && Known(first, r, path) ==> At(Prune(first, c, r), path).Some?
    ensures LeafAt(c, path) && Known(first, r, path) ==> At(Prune(first, c, r), path) == At(c, path)
    ensures LeafAt(Prune(first, c, r), path) ==> Known(first, r, path) && At(Prune(first, c, r), path) == At(c, path)
    decreases |path|
  {
    if path == [] || !c.Obj? || !r.Obj? || r.fields == map[] || path[0] !in r.fields {
    } else {
      var k := path[0];
      var pruned := Prune(first, c, r);
      assert PrunesKey(first, c.fields, r, k);
      if Instances(r.fields, k) {
        PruneInstancesKeep(first, c.fields, r, k, path);
        if |path| > 1 && k in c.fields && path[1] in c.fields[k].fields {
          PruneKeeps(first, c.fields[k].fields[path[1]], Template(first, r, k), path[2..]);
        }
      } else if k in c.fields && !(k == "env" && c.fields[k].Obj?) {
        PruneKeeps(first, c.fields[k], r.fields[k], path[1..]);
      }
    }
  }

  /** A start keeps every instance and every value at a path that the defaults know. */
  lemma StartKeepsUserValues(first: Order, x: Json, d: Json, path: Path)
    requires Normalize(first, x, d).Ok?
    requires At(x, path).Some? && Known(first, d, path) && !ToInstances(first, d, path)
    ensures At(Normalize(first, x, d).value, path).Some?
    ensures LeafAt(x, path) ==> At(Normalize(first, x, d).value, path) == At(x, path)
  {
    MergeKeeps(first, x, d, path);
    PruneKeeps(first, Merge(first, x, d), d, path);
  }

  /** A start leaves no value at a path that the defaults do not know. */
  lemma StartDropsUnknownValues(first: Order, x: Json, d: Json, path: Path)
    requires Normalize(first, x, d).Ok? && !Known(first, d, path)
    ensures !LeafAt(Normalize(first, x, d).value, path)
  {
    PruneKeeps(first, Merge(first, x, d), d, path);
  }

  // ---- what a start fills in ----

  /** The default for a path that the configuration lacks.  Below an instance that is there, it is looked up
      in the template. */
  function DefaultFor(first: Order, e: Json, d: Json, path: Path): Option<Json>
    decreases |path|
  {
    if path == [] || !e.Obj? || !d.Obj? then None
    else if path[0] !in e.fields then At(d, path)
    else if path[0] !in d.fields then None
    else if Instances(d.fields, path[0]) then
      if |path| > 1 && HasTemplate(first, d.fields[path[0]].fields)
         && e.fields[path[0]].Obj? && path[1] in e.fields[path[0]].fields then
        DefaultFor(first, e.fields[path[0]].fields[path[1]], Template(first, d, path[0]), path[2..])
      else None
    else DefaultFor(first, e.fields[path[0]], d.fields[path[0]], path[1..])
  }

  lemma {:induction false} MergeFills(first: Order, e: Json, d: Json, path: Path)
    requires Merges(first, e, d) && DefaultFor(first, e, d, path).Some?
    ensures At(Merge(first, e, d), path) == DefaultFor(first, e, d, path)
    decreases |path|
  {
    var k := path[0];
    var merged := Merge(first, e, d);
    assert merged.fields[k] == MergeKey(first, e.fields, d, k);
    if k !in e.fields {
    } else if Instances(d.fields, k) {
      var n := path[1];
      assert MergesKey(first, e.fields, d, k);
      assert path[1..][1..] == path[2..] && path[1..][0] == n;
      assert merged.fields[k].fields[n] == Merge(first, e.fields[k].fields[n], Template(first, d, k));
      MergeFills(first, e.fields[k].fields[n], Template(first, d, k), path[2..]);
    } else {
      assert MergesKey(first, e.fields, d, k);
      MergeFills(first, e.fields[k], d.fields[k], path[1..]);
    }
  }

  /** A start gives a known path that the configuration lacks the value that it has in the defaults. */
  lemma StartFillsDefaults(first: Order, x: Json, d: Json, path: Path)
    requires Normalize(first, x, d).Ok? && Known(first, d, path)
    requires DefaultFor(first, x, d, path).Some? && Leaf(DefaultFor(first, x, d, path).value)
    ensures At(Normalize(first, x, d).value, path) == DefaultFor(first, x, d, path)
  {
    MergeFills(first, x, d, path);
    PruneKeeps(first, Merge(first, x, d), d, path);
  }
}
