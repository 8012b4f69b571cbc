/**
 The import as a whole: truncate, insert batch by batch with a commit after each, and
 validate.  An attempt may die before any commit, leaving what it has committed behind.
 */
module ImportTarget {
  import opened Wrappers
  import opened ImportModel
  import opened ImportMeaning
  import opened ImportBatches

  datatype Table = Table(name: string, types: seq<DataType>, rows: seq<Row>)

  predicate Wide(rows: seq<Row>, n: nat) {
    forall i :: 0 <= i < |rows| ==> |rows[i]| == n
  }

  ghost predicate WellShaped(t: Table) {
    Wide(t.rows, |t.types|)
  }

  ghost predicate WellFormed(source: seq<Table>) {
    && (forall k :: 0 <= k < |source| ==> WellShaped(source[k]))
    && (forall j, k :: 0 <= j < k < |source| ==> source[j].name != source[k].name)
  }

  predicate IsSource(source: seq<Table>, name: string) {
    exists k :: 0 <= k < |source| && source[k].name == name
  }

  /** The rows of a table as PostgreSQL holds them after the insert. */
  function StoredRows(stored: (Value, DataType) -> Value, types: seq<DataType>, rows: seq<Row>): seq<Row>
    requires Wide(rows, |types|)
  {
    seq(|rows|, i requires 0 <= i < |rows| => StoredRow(stored, rows[i], types))
  }

  /** What the import must leave in the target table. */
  ghost predicate Imported(c: Codec, stored: (Value, DataType) -> Value, t: Table, contents: multiset<Row>)
    requires WellShaped(t)
  {
    Convertible(c, t.types, t.rows) && contents == multiset(Kept(c, stored, t))
  }

  ghost function Kept(c: Codec, stored: (Value, DataType) -> Value, t: Table): (kept: seq<Row>)
    requires WellShaped(t) && Convertible(c, t.types, t.rows)
    ensures |kept| == |t.rows|
  {
    StoredRows(stored, t.types, Converted(c, t.types, t.rows))
  }

  /** The table holds, for each source row, one row with what PostgreSQL makes of the meanings of its values. */
  ghost predicate HoldsMeaning(c: Codec, stored: (Value, DataType) -> Value, t: Table, contents: multiset<Row>) {
    exists rows: seq<Row> ::
      && multiset(rows) == contents && |rows| == |t.rows|
      && forall i :: 0 <= i < |rows| ==> IsMeaning(c, stored, t, i, rows[i])
  }

  ghost predicate IsMeaning(c: Codec, stored: (Value, DataType) -> Value, t: Table, i: nat, row: Row) {
    && i < |t.rows| && |row| == |t.rows[i]| == |t.types|
    && forall k :: 0 <= k < |row| ==> ValueMeans(c, stored, t.rows[i][k], t.types[k], row[k])
  }

  /** PostgreSQL makes `held` of what `v` means. */
  ghost predicate ValueMeans(c: Codec, stored: (Value, DataType) -> Value, v: Value, t: DataType, held: Value) {
    exists w :: Means(c, v, t, w) && held == stored(w, t)
  }

  lemma ImportedMeans(c: Codec, stored: (Value, DataType) -> Value, t: Table, contents: multiset<Row>)
    requires WellShaped(t) && Imported(c, stored, t, contents)
    ensures HoldsMeaning(c, stored, t, contents)
  {
    var kept := Kept(c, stored, t);
    forall i | 0 <= i < |kept| ensures IsMeaning(c, stored, t, i, kept[i]) {
      var converted := ConvertRow(c, t.rows[i], t.types).value;
      ConvertRowMeans(c, t.rows[i], t.types);
      assert RowMeans(c, t.rows[i], t.types, converted) && |t.rows[i]| == |t.types|;
      var row := StoredRow(stored, converted, t.types);
      assert kept[i] == row;
      forall k | 0 <= k < |row|
        ensures ValueMeans(c, stored, t.rows[i][k], t.types[k], row[k])
      {
        assert Means(c, t.rows[i][k], t.types[k], converted[k]);
      }
      assert IsMeaning(c, stored, t, i, row);
    }
  }

  predicate Hashed(c: Codec, types: seq<DataType>, sourceValues: bool, rows: seq<Row>) {
    forall i :: 0 <= i < |rows| ==> RowHash(c, types, sourceValues, rows[i]).Ok?
  }

  /** The content check accepts what the import left: every row has a hash, and the digests agree. */
  ghost predicate Accepts(c: Codec, stored: (Value, DataType) -> Value, t: Table)
    requires WellShaped(t) && Convertible(c, t.types, t.rows)
  {
    && Hashed(c, t.types, true, t.rows) && Hashed(c, t.types, false, Kept(c, stored, t))
    && Fold(HashOf(c, t.types, true), t.rows) == Fold(HashOf(c, t.types, false), Kept(c, stored, t))
  }

  /** A digest does not depend on the order in which the rows are returned, nor does it matter
      for it whether each row has a hash. */
  lemma ReturnedLikeKept(c: Codec, types: seq<DataType>, kept: seq<Row>, returned: seq<Row>)
    requires multiset(kept) == multiset(returned)
    ensures Hashed(c, types, false, returned) <==> Hashed(c, types, false, kept)
    ensures Fold(HashOf(c, types, false), returned) == Fold(HashOf(c, types, false), kept)
  {
    SameElements(kept, returned);
    SameElements(returned, kept);
    FoldPermutation(HashOf(c, types, false), kept, returned);
  }

  /** PostgreSQL agrees with the check on every value that the import gives it. */
  ghost predicate Agrees(c: Codec, stored: (Value, DataType) -> Value, t: Table)
    requires WellShaped(t) && Convertible(c, t.types, t.rows)
  {
    forall i :: 0 <= i < |t.rows| ==> AgreesOn(c, stored, t.types, t.rows[i])
  }

  /** If PostgreSQL agrees on the values of the table, the check accepts it unless a source row
      has no hash. */
  lemma AgreeingIsAccepted(c: Codec, stored: (Value, DataType) -> Value, t: Table)
    requires WellShaped(t) && Convertible(c, t.types, t.rows) && Agrees(c, stored, t)
    ensures Accepts(c, stored, t) <==> Hashed(c, t.types, true, t.rows)
  {
    var kept := Kept(c, stored, t);
    forall i | 0 <= i < |kept| ensures RowHash(c, t.types, false, kept[i]) == RowHash(c, t.types, true, t.rows[i]) {
      assert AgreesOn(c, stored, t.types, t.rows[i]);
      StoredHash(c, stored, t.types, t.rows[i]);
    }
    FoldSame(HashOf(c, t.types, true), t.rows, HashOf(c, t.types, false), kept);
  }

  /** The check refuses a table of which exactly one row has changed its hash. */
  lemma OneChangedRowIsRefused(c: Codec, stored: (Value, DataType) -> Value, t: Table, changed: nat)
    requires WellShaped(t) && Convertible(c, t.types, t.rows) && changed < |t.rows|
    requires forall i :: 0 <= i < |t.rows| && i != changed ==>
      RowHash(c, t.types, false, Kept(c, stored, t)[i]) == RowHash(c, t.types, true, t.rows[i])
    requires RowHash(c, t.types, false, Kept(c, stored, t)[changed]) != RowHash(c, t.types, true, t.rows[changed])
    ensures !Accepts(c, stored, t)
  {
    if Hashed(c, t.types, true, t.rows) && Hashed(c, t.types, false, Kept(c, stored, t)) {
      FoldNoticesOne(HashOf(c, t.types, true), t.rows, HashOf(c, t.types, false), Kept(c, stored, t), changed);
    }
  }

  /** So it refuses a table in which PostgreSQL holds another value than it was given in one row, and agrees
      on the others, unless hashes collide. */
  lemma ChangedValueIsRefused(c: Codec, stored: (Value, DataType) -> Value, t: Table, i: nat, k: nat, w: Value)
    requires CollisionFree(c) && WellShaped(t) && Convertible(c, t.types, t.rows)
    requires i < |t.rows| && k < |t.types| && Means(c, t.rows[i][k], t.types[k], w)
    requires !Same(c, stored(w, t.types[k]), w, t.types[k])
    requires forall j :: 0 <= j < |t.rows| && j != i ==> AgreesOn(c, stored, t.types, t.rows[j])
    ensures !Accepts(c, stored, t)
  {
    if Accepts(c, stored, t) {
      var kept := Kept(c, stored, t);
      var row, converted := t.rows[i], ConvertRow(c, t.rows[i], t.types).value;
      ConvertRowMeans(c, row, t.types);
      ConvertMeans(c, row[k], t.types[k]);
      SourceHash(c, t.types, row, converted);
      assert RowHash(c, t.types, true, t.rows[i]).Ok? && RowHash(c, t.types, false, kept[i]).Ok?;
      HashTellsApart(c, t.types, kept[i], converted);
      forall j | 0 <= j < |t.rows| && j != i
        ensures RowHash(c, t.types, false, kept[j]) == RowHash(c, t.types, true, t.rows[j])
      {
        assert AgreesOn(c, stored, t.types, t.rows[j]);
        StoredHash(c, stored, t.types, t.rows[j]);
      }
      assert kept[i][k] == stored(w, t.types[k]) && converted[k] == w;
      OneChangedRowIsRefused(c, stored, t, i);
    }
  }

  /** A `SELECT` without an order: any order is possible. */
  method Select(contents: multiset<Row>) returns (rows: seq<Row>)
    ensures multiset(rows) == contents
  {
    var rest := contents;
    rows := [];
    while rest != multiset{}
      invariant multiset(rows) + rest == contents
      decreases |rest|
    {
      var row :| row in rest;
      rest := rest - multiset{row};
      rows := rows + [row];
    }
  }

  lemma NothingStored(stored: (Value, DataType) -> Value, types: seq<DataType>)
    ensures multiset(StoredRows(stored, types, [])) == multiset{}
  {
    assert StoredRows(stored, types, []) == [];
  }

  lemma StoredSplit(stored: (Value, DataType) -> Value, types: seq<DataType>, a: seq<Row>, b: seq<Row>)
    requires Wide(a, |types|) && Wide(b, |types|)
    ensures Wide(a + b, |types|)
    ensures StoredRows(stored, types, a + b) == StoredRows(stored, types, a) + StoredRows(stored, types, b)
  {
  }

  /** Rows that the generator yields have the width of the table. */
  lemma YieldedWidth(c: Codec, t: Table, bounds: Bounds, batches: seq<Batch>, error: Option<Error>, k: nat)
    requires WellShaped(t) && Yields(c, t.types, bounds, t.rows, batches, error) && k <= |batches|
    ensures Wide(Flatten(batches[..k]), |t.types|)
  {
    FlattenPrefix(batches, k);
    if error.Some? {
      var at: nat :| StoppedAt(c, t.types, t.rows, batches, error.value, at);
      assert Flatten(batches[..k]) == Flatten(batches)[..Reach(batches, k)];
      var whole := Converted(c, t.types, t.rows[..at]);
      assert forall i :: 0 <= i < |Flatten(batches)| ==> Flatten(batches)[i] == whole[i];
    }
  }

  /** What one batch adds to the rows inserted before it. */
  lemma InsertStep(c: Codec, t: Table, bounds: Bounds, batches: seq<Batch>, error: Option<Error>, k: nat)
    requires WellShaped(t) && Yields(c, t.types, bounds, t.rows, batches, error) && k < |batches|
    requires Wide(Flatten(batches[..k]), |t.types|)
    ensures Flatten(batches[..k + 1]) == Flatten(batches[..k]) + batches[k]
    ensures Wide(batches[k], |t.types|)
    ensures Wide(Flatten(batches[..k + 1]), |t.types|)
  {
    var inserted, batch := Flatten(batches[..k]), batches[k];
    YieldedWidth(c, t, bounds, batches, error, k + 1);
    assert batches[..k + 1][..k] == batches[..k];
    assert Flatten(batches[..k + 1]) == inserted + batch;
    forall i | 0 <= i < |batch| ensures |batch[i]| == |t.types| {
      assert batch[i] == (inserted + batch)[|inserted| + i];
    }
  }

  /** Only this table may have changed. */
  ghost predicate OthersKept(before: map<string, multiset<Row>>, after: map<string, multiset<Row>>, changed: string) {
    && changed in after && after.Keys == before.Keys
    && forall name :: name in after && name != changed ==> after[name] == before[name]
  }

  /** What has been inserted when the generator has ended. */
  lemma AllYielded(c: Codec, stored: (Value, DataType) -> Value, t: Table, bounds: Bounds,
                   batches: seq<Batch>, error: Option<Error>)
    requires WellShaped(t) && Yields(c, t.types, bounds, t.rows, batches, error)
    requires Wide(Flatten(batches), |t.types|)
    ensures match error
            case None =>
              var contents := multiset(StoredRows(stored, t.types, Flatten(batches)));
              |Flatten(batches)| == |t.rows| && Imported(c, stored, t, contents) && HoldsMeaning(c, stored, t, contents)
            case Some(e) => exists i :: 0 <= i < |t.rows| && ConvertRow(c, t.rows[i], t.types) == Err(e)
  {
    if error.None? {
      ImportedMeans(c, stored, t, multiset(StoredRows(stored, t.types, Flatten(batches))));
    }
  }

  /** The target database; every change of `tables` is a commit. */
  class Target {
    var tables: map<string, multiset<Row>>

    constructor (tables: map<string, multiset<Row>>)
      ensures this.tables == tables
    {
      this.tables := tables;
    }

    /** Empties every table of the source, in one statement. */
    method Prepare(source: seq<Table>) returns (r: Result<(), Error>)
      modifies this
      ensures r.Ok? ==> Emptied(old(tables), tables, source)
      ensures Missing(source, old(tables)) <==> r == Err(MissingTable)
      ensures r.Err? ==>
        || (tables == old(tables) && r.error in {MissingTable, Died})
        || (Emptied(old(tables), tables, source) && r.error.Died?)
    {
      if Missing(source, tables) {
        return Err(MissingTable);
      }
      if * {
        return Err(Died);
      }
      tables := map name | name in tables :: if IsSource(source, name) then multiset{} else tables[name];
      if * {
        return Err(Died);   // the commit is durable, but not known to be
      }
      return Ok(());
    }

    /** Inserts one batch and commits it. */
    method InsertBatch(stored: (Value, DataType) -> Value, t: Table, batch: Batch, ghost inserted: seq<Row>)
      requires Wide(batch, |t.types|) && Wide(inserted, |t.types|) && t.name in tables
      requires tables[t.name] == multiset(StoredRows(stored, t.types, inserted))
      modifies this
      ensures OthersKept(old(tables), tables, t.name)
      ensures Wide(inserted + batch, |t.types|)
      ensures tables[t.name] == multiset(StoredRows(stored, t.types, inserted + batch))
    {
      StoredSplit(stored, t.types, inserted, batch);
      tables := tables[t.name := tables[t.name] + multiset(StoredRows(stored, t.types, batch))];
    }

    /** Inserts the rows of one table into its emptied target. */
    method ImportTable(c: Codec, stored: (Value, DataType) -> Value, bounds: Bounds, t: Table)
      returns (r: Result<nat, Error>)
      requires WellShaped(t) && t.name in tables && tables[t.name] == multiset{}
      modifies this
      ensures OthersKept(old(tables), tables, t.name)
      ensures r.Ok? ==> r.value == |t.rows| && Imported(c, stored, t, tables[t.name])
      ensures r.Ok? ==> HoldsMeaning(c, stored, t, tables[t.name])
      ensures r.Err? ==>
        r.error.Died? || exists i :: 0 <= i < |t.rows| && ConvertRow(c, t.rows[i], t.types) == Err(r.error)
    {
      var count := 0;
      var batches, error := ConvertedImportBatches(c, t.types, bounds, t.rows);
      ghost var inserted: seq<Row> := [];
      NothingStored(stored, t.types);
      for k := 0 to |batches|
        invariant inserted == Flatten(batches[..k]) && count == |inserted|
        invariant Wide(inserted, |t.types|)
        invariant OthersKept(old(tables), tables, t.name)
        invariant tables[t.name] == multiset(StoredRows(stored, t.types, inserted))
      {
        if * {
          return Err(Died);
        }
        var batch := batches[k];
        InsertStep(c, t, bounds, batches, error, k);
        InsertBatch(stored, t, batch, inserted);
        inserted := inserted + batch;
        count := count + |batch|;
        if * {
          return Err(Died);
        }
      }
      assert batches[..|batches|] == batches;
      AllYielded(c, stored, t, bounds, batches, error);
      if error.Some? {
        return Err(error.value);
      }
      return Ok(count);
    }

    /** `_validate_full_row_digests` for one table that holds what the import left in it. */
    method ValidateDigest(c: Codec, ghost stored: (Value, DataType) -> Value, t: Table) returns (r: Result<(), Error>)
      requires t.name in tables && WellShaped(t) && Imported(c, stored, t, tables[t.name])
      ensures r.Ok? <==> Accepted(c, stored, t)
      ensures r.Err? ==> Refused(c, stored, t, r.error)
    {
      var expected := DigestRows(c, t.rows, t.types, true);
      if expected.Err? {
        return Err(expected.error);
      }
      var returned := Select(tables[t.name]);
      var actual := DigestRows(c, returned, t.types, false);
      ReturnedLikeKept(c, t.types, Kept(c, stored, t), returned);
      SameElements(returned, Kept(c, stored, t));
      if actual.Err? {
        return Err(actual.error);
      }
      if actual.value != expected.value {
        return Err(ContentMismatch);
      }
      return Ok(());
    }

    /** Copies the next table. */
    method ImportNext(c: Codec, stored: (Value, DataType) -> Value, bounds: Bounds, source: seq<Table>, k: nat,
                      ghost original: map<string, multiset<Row>>)
      returns (r: Result<nat, Error>)
      requires WellFormed(source) && k < |source| && Filled(c, stored, source, tables, k)
      requires Framed(original, tables, source)
      modifies this
      ensures Framed(original, tables, source)
      ensures r.Ok? ==> r.value == |source[k].rows| && Filled(c, stored, source, tables, k + 1)
      ensures r.Err? ==> CopyCause(c, source, r.error)
    {
      ghost var before := tables;
      r := ImportTable(c, stored, bounds, source[k]);
      if r.Err? {
        ConversionCause(c, source, k, r.error);
      } else {
        FilledStep(c, stored, source, before, tables, k);
      }
      FramedStep(original, before, tables, source, k);
    }

    /** Copies the tables one after the other. */
    method ImportTables(c: Codec, stored: (Value, DataType) -> Value, bounds: Bounds, source: seq<Table>)
      returns (r: Result<nat, Error>)
      requires WellFormed(source) && Filled(c, stored, source, tables, 0)
      modifies this
      ensures Framed(old(tables), tables, source)
      ensures r.Ok? ==> r.value == TotalRows(source) && Filled(c, stored, source, tables, |source|)
      ensures r.Err? ==> CopyCause(c, source, r.error)
    {
      var total := 0;
      for k := 0 to |source|
        invariant Framed(old(tables), tables, source) && Filled(c, stored, source, tables, k)
        invariant total == TotalRows(source[..k])
      {
        var imported := ImportNext(c, stored, bounds, source, k, old(tables));
        if imported.Err? {
          return Err(imported.error);
        }
        assert source[..k + 1][..k] == source[..k];
        total := total + imported.value;
      }
      assert source[..|source|] == source;
      return Ok(total);
    }

    /** `SELECT COUNT(*)` of every table against the source. */
    method ValidateCounts(source: seq<Table>) returns (matching: bool)
      requires !Missing(source, tables)
      ensures matching <==> forall k :: 0 <= k < |source| ==> |tables[source[k].name]| == |source[k].rows|
    {
      for k := 0 to |source|
        invariant forall i :: 0 <= i < k ==> |tables[source[i].name]| == |source[i].rows|
      {
        if |tables[source[k].name]| != |source[k].rows| {
          return false;
        }
      }
      return true;
    }

    /** The content check of every table. */
    method ValidateContents(c: Codec, ghost stored: (Value, DataType) -> Value, source: seq<Table>)
      returns (r: Result<(), Error>)
      requires WellFormed(source) && Filled(c, stored, source, tables, |source|)
      ensures r.Ok? ==> AllAccepted(c, stored, source, |source|)
      ensures r.Err? ==> SomeRefused(c, stored, source, r.error)
    {
      for k := 0 to |source|
        invariant AllAccepted(c, stored, source, k)
      {
        FilledAt(c, stored, source, tables, k);
        r := ValidateDigest(c, stored, source[k]);
        if r.Err? {
          return;
        }
        AcceptedStep(c, stored, source, k);
      }
      return Ok(());
    }

    /** The count and content validation of all tables. */
    method Validate(c: Codec, ghost stored: (Value, DataType) -> Value, source: seq<Table>)
        returns (r: Result<(), Error>)
      requires WellFormed(source) && Filled(c, stored, source, tables, |source|)
      ensures r.Ok? ==> AllAccepted(c, stored, source, |source|)
      ensures r.Err? ==> SomeRefused(c, stored, source, r.error)
    {
      FilledCounts(c, stored, source, tables);
      var matching := ValidateCounts(source);
      if !matching {
        return Err(CountMismatch);
      }
      r := ValidateContents(c, stored, source);
    }

    /** `import_sqlite_to_postgres`: whatever earlier attempts left in the target tables. */
    method Import(c: Codec, stored: (Value, DataType) -> Value, bounds: Bounds, source: seq<Table>)
      returns (r: Result<nat, Error>)
      requires WellFormed(source)
      modifies this
      ensures Framed(old(tables), tables, source)
      ensures r.Ok? ==> r.value == TotalRows(source) && Filled(c, stored, source, tables, |source|)
      ensures r.Ok? ==> forall k :: 0 <= k < |source| ==> HoldsMeaning(c, stored, source[k], tables[source[k].name])
      ensures r.Ok? ==> AllAccepted(c, stored, source, |source|)
      ensures Missing(source, old(tables)) ==> r == Err(MissingTable) && tables == old(tables)
      ensures r.Err? ==> Cause(c, stored, source, r.error) || (r.error.MissingTable? && Missing(source, old(tables)))
    {
      var prepared := Prepare(source);
      if prepared.Err? {
        return Err(prepared.error);
      }
      assert forall k :: 0 <= k < |source| ==> IsSource(source, source[k].name);
      var copied := ImportTables(c, stored, bounds, source);
      if copied.Err? {
        return Err(copied.error);
      }
      var validated := Validate(c, stored, source);
      if validated.Err? {
        return Err(validated.error);
      }
      FilledMeans(c, stored, source, tables);
      return Ok(copied.value);
    }
  }

  /** The target lacks a table of the source. */
  predicate Missing(source: seq<Table>, tables: map<string, multiset<Row>>) {
    exists k :: 0 <= k < |source| && source[k].name !in tables
  }

  /** Every table of the source is there and empty, and the others are as before. */
  ghost predicate Emptied(before: map<string, multiset<Row>>, after: map<string, multiset<Row>>, source: seq<Table>) {
    && after.Keys == before.Keys
    && (forall name :: name in after ==> after[name] == if IsSource(source, name) then multiset{} else before[name])
    && (forall k :: 0 <= k < |source| ==> source[k].name in after)
  }

  /** Only the tables of the source may have changed. */
  ghost predicate Framed(before: map<string, multiset<Row>>, after: map<string, multiset<Row>>, source: seq<Table>) {
    && after.Keys == before.Keys
    && forall name :: name in after && !IsSource(source, name) ==> after[name] == before[name]
  }

  /** The first `n` tables hold exactly their converted rows, the others are empty. */
  ghost predicate Filled(c: Codec, stored: (Value, DataType) -> Value, source: seq<Table>,
                         tables: map<string, multiset<Row>>, n: nat)
    requires WellFormed(source)
  {
    forall k :: 0 <= k < |source| ==>
      && source[k].name in tables
      && if k < n then Imported(c, stored, source[k], tables[source[k].name]) else tables[source[k].name] == multiset{}
  }

  lemma FilledAt(c: Codec, stored: (Value, DataType) -> Value, source: seq<Table>,
                 tables: map<string, multiset<Row>>, k: nat)
    requires WellFormed(source) && Filled(c, stored, source, tables, |source|) && k < |source|
    ensures source[k].name in tables && WellShaped(source[k])
    ensures Imported(c, stored, source[k], tables[source[k].name])
  {
  }

  lemma FilledCounts(c: Codec, stored: (Value, DataType) -> Value, source: seq<Table>,
                     tables: map<string, multiset<Row>>)
    requires WellFormed(source) && Filled(c, stored, source, tables, |source|)
    ensures !Missing(source, tables)
    ensures forall k :: 0 <= k < |source| ==> |tables[source[k].name]| == |source[k].rows|
  {
    forall k | 0 <= k < |source| ensures source[k].name in tables && |tables[source[k].name]| == |source[k].rows| {
      FilledAt(c, stored, source, tables, k);
    }
  }

  lemma FilledMeans(c: Codec, stored: (Value, DataType) -> Value, source: seq<Table>,
                    tables: map<string, multiset<Row>>)
    requires WellFormed(source) && Filled(c, stored, source, tables, |source|)
    ensures forall k :: 0 <= k < |source| ==>
      source[k].name in tables && HoldsMeaning(c, stored, source[k], tables[source[k].name])
  {
    forall k | 0 <= k < |source|
      ensures source[k].name in tables && HoldsMeaning(c, stored, source[k], tables[source[k].name])
    {
      FilledAt(c, stored, source, tables, k);
      ImportedMeans(c, stored, source[k], tables[source[k].name]);
    }
  }

  lemma FramedStep(original: map<string, multiset<Row>>, before: map<string, multiset<Row>>,
                   after: map<string, multiset<Row>>, source: seq<Table>, n: nat)
    requires Framed(original, before, source) && n < |source| && after.Keys == before.Keys
    requires forall name :: name in after && name != source[n].name ==> after[name] == before[name]
    ensures Framed(original, after, source)
  {
    assert IsSource(source, source[n].name);
  }

  lemma FilledStep(c: Codec, stored: (Value, DataType) -> Value, source: seq<Table>,
                   before: map<string, multiset<Row>>, after: map<string, multiset<Row>>, n: nat)
    requires WellFormed(source) && n < |source| && Filled(c, stored, source, before, n)
    requires after.Keys == before.Keys && forall name :: name in after && name != source[n].name ==>
      after[name] == before[name]
    requires Imported(c, stored, source[n], after[source[n].name])
    ensures Filled(c, stored, source, after, n + 1) && Framed(before, after, source)
  {
    forall k | 0 <= k < |source| && k != n ensures source[k].name != source[n].name {
    }
    assert IsSource(source, source[n].name);
  }

  lemma ConversionCause(c: Codec, source: seq<Table>, k: nat, error: Error)
    requires k < |source| && WellShaped(source[k])
    requires error.Died? ||
      exists i :: 0 <= i < |source[k].rows| && ConvertRow(c, source[k].rows[i], source[k].types) == Err(error)
    ensures CopyCause(c, source, error)
  {
    if !error.Died? {
      var i :| 0 <= i < |source[k].rows| && ConvertRow(c, source[k].rows[i], source[k].types) == Err(error);
      assert Unconvertible(c, source[k], source[k].rows[i], error);
    }
  }

  function TotalRows(source: seq<Table>): nat {
    if source == [] then 0 else TotalRows(source[..|source| - 1]) + |source[|source| - 1].rows|
  }

  lemma TotalRowsGrows(source: seq<Table>, t: Table)
    ensures TotalRows([]) == 0 && TotalRows(source + [t]) == TotalRows(source) + |t.rows|
  {
    assert (source + [t])[..|source|] == source;
  }

  // ---- why an import may fail ----

  predicate Unconvertible(c: Codec, t: Table, row: Row, error: Error) {
    |row| == |t.types| && ConvertRow(c, row, t.types) == Err(error)
  }

  /** The copying stops because it died or a source row cannot be converted. */
  ghost predicate CopyCause(c: Codec, source: seq<Table>, error: Error) {
    || error.Died?
    || exists k, i ::
      0 <= k < |source| && 0 <= i < |source[k].rows| && Unconvertible(c, source[k], source[k].rows[i], error)
  }

  /** The content check refuses the table with this error: a row of the source or of the target has no
      hash, or the digests differ. */
  ghost predicate Refuses(c: Codec, stored: (Value, DataType) -> Value, t: Table, error: Error)
    requires WellShaped(t) && Convertible(c, t.types, t.rows)
  {
    || (exists i :: 0 <= i < |t.rows| && RowHash(c, t.types, true, t.rows[i]) == Err(error))
    || (exists i :: 0 <= i < |t.rows| && RowHash(c, t.types, false, Kept(c, stored, t)[i]) == Err(error))
    || (error.ContentMismatch? && Hashed(c, t.types, true, t.rows) && Hashed(c, t.types, false, Kept(c, stored, t))
        && Fold(HashOf(c, t.types, true), t.rows) != Fold(HashOf(c, t.types, false), Kept(c, stored, t)))
  }

  ghost predicate Accepted(c: Codec, stored: (Value, DataType) -> Value, t: Table) {
    WellShaped(t) && Convertible(c, t.types, t.rows) && Accepts(c, stored, t)
  }

  ghost predicate Refused(c: Codec, stored: (Value, DataType) -> Value, t: Table, error: Error) {
    WellShaped(t) && Convertible(c, t.types, t.rows) && !Accepts(c, stored, t) && Refuses(c, stored, t, error)
  }

  ghost predicate Cause(c: Codec, stored: (Value, DataType) -> Value, source: seq<Table>, error: Error) {
    CopyCause(c, source, error) || SomeRefused(c, stored, source, error)
  }

  ghost predicate AllAccepted(c: Codec, stored: (Value, DataType) -> Value, source: seq<Table>, n: nat) {
    n <= |source| && forall k :: 0 <= k < n ==> Accepted(c, stored, source[k])
  }

  lemma AcceptedStep(c: Codec, stored: (Value, DataType) -> Value, source: seq<Table>, k: nat)
    requires k < |source| && AllAccepted(c, stored, source, k) && Accepted(c, stored, source[k])
    ensures AllAccepted(c, stored, source, k + 1)
  {
  }

  ghost predicate SomeRefused(c: Codec, stored: (Value, DataType) -> Value, source: seq<Table>, error: Error) {
    exists k :: 0 <= k < |source| && Refused(c, stored, source[k], error)
  }

  /** Where PostgreSQL agrees on all values, validation refuses an import only for a source row
      without a hash: never because of what the import itself has copied. */
  lemma AgreeingNeverRefused(c: Codec, stored: (Value, DataType) -> Value, t: Table, error: Error)
    requires Refused(c, stored, t, error) && Agrees(c, stored, t)
    ensures !Hashed(c, t.types, true, t.rows) && !error.ContentMismatch? && !error.CountMismatch?
  {
    AgreeingIsAccepted(c, stored, t);
    forall i | 0 <= i < |t.rows|
      ensures RowHash(c, t.types, true, t.rows[i]) == Err(error) ||
        RowHash(c, t.types, false, Kept(c, stored, t)[i]) == Err(error)
        ==> ValueError(error)
    {
      RowErrors(c, t.types, true, t.rows[i]);
      RowErrors(c, t.types, false, Kept(c, stored, t)[i]);
    }
  }
}
