/**
 How the import cuts the converted rows of a table into batches, each of which is
 inserted and committed on its own.
 */
module ImportBatches {
  import opened Wrappers
  import opened ImportModel

  type Batch = seq<Row>

  /** `_estimated_import_value_bytes` */
  function ValueBytes(c: Codec, v: Value): nat {
    match v
    case Null => 1
    case View(b) => |b|
    case Bin(b) => |b|
    case Str(s) => c.utf8(s)
    case Stamp(t) => |c.iso(t)|
    case _ => c.utf8(c.str(v))
  }

  /** Nothing counts one byte, bytes and texts their own length, and other values that of their text. */
  lemma BytesOfValues(c: Codec)
    ensures ValueBytes(c, Null) == 1
    ensures forall bytes :: ValueBytes(c, Bin(bytes)) == ValueBytes(c, View(bytes)) == |bytes|
    ensures forall text :: ValueBytes(c, Str(text)) == c.utf8(text)
    ensures forall time :: ValueBytes(c, Stamp(time)) == |c.iso(time)|
    ensures forall v: Value :: v.Int? || v.Real? || v.Bool? ==> ValueBytes(c, v) == c.utf8(c.str(v))
  {
  }

  function ValuesBytes(c: Codec, row: Row): nat {
    if row == [] then 0 else ValueBytes(c, row[0]) + ValuesBytes(c, row[1..])
  }

  function RowBytes(c: Codec, row: Row): nat {
    16 * |row| + ValuesBytes(c, row)
  }

  /** A row counts 16 bytes for each value, and the values. */
  lemma BytesOfRow(c: Codec, v: Value, row: Row)
    ensures RowBytes(c, []) == 0 && RowBytes(c, [v] + row) == 16 + ValueBytes(c, v) + RowBytes(c, row)
  {
  }

  function BatchBytes(c: Codec, rows: seq<Row>): nat {
    if rows == [] then 0 else BatchBytes(c, rows[..|rows| - 1]) + RowBytes(c, rows[|rows| - 1])
  }

  /** The bounds of a batch; without a byte limit only the number of rows counts. */
  datatype Bounds = Bounds(size: int, bytes: Option<int>)

  function AtLeastOne(n: int): nat { if n < 1 then 1 else n }

  predicate Fits(c: Codec, bounds: Bounds, batch: Batch) {
    && |batch| <= AtLeastOne(bounds.size)
    && (bounds.bytes.Some? ==> |batch| <= 1 || BatchBytes(c, batch) <= AtLeastOne(bounds.bytes.value))
  }

  /** A batch of one row always fits; a larger one must keep both bounds. */
  lemma FitsMeans(c: Codec, bounds: Bounds, batch: Batch)
    ensures |batch| == 1 ==> Fits(c, bounds, batch)
    ensures |batch| > 1 ==>
      (Fits(c, bounds, batch) <==>
        && |batch| <= bounds.size
        && (bounds.bytes.Some? ==>
              BatchBytes(c, batch) <= if bounds.bytes.value < 1 then 1 else bounds.bytes.value))
  {
  }

  function Flatten(batches: seq<Batch>): seq<Row> {
    if batches == [] then [] else Flatten(batches[..|batches| - 1]) + batches[|batches| - 1]
  }

  ghost predicate AllFit(c: Codec, bounds: Bounds, batches: seq<Batch>) {
    forall i :: 0 <= i < |batches| ==> batches[i] != [] && Fits(c, bounds, batches[i])
  }

  /** A split of `rows`, in order and without an empty batch, that obeys the bounds. */
  ghost predicate Split(c: Codec, bounds: Bounds, batches: seq<Batch>, rows: seq<Row>) {
    Flatten(batches) == rows && AllFit(c, bounds, batches)
  }

  /** No batch but the last had room for the row that follows it. */
  ghost predicate Tight(c: Codec, bounds: Bounds, batches: seq<Batch>) {
    forall k :: 0 <= k < |batches| - 1 && batches[k + 1] != [] ==> !Fits(c, bounds, batches[k] + [batches[k + 1][0]])
  }

  // ---- fewest batches ----

  lemma {:induction false} BytesAppend(c: Codec, a: seq<Row>, b: seq<Row>)
    ensures BatchBytes(c, a + b) == BatchBytes(c, a) + BatchBytes(c, b)
  {
    if b == [] {
      assert a + b == a;
    } else {
      assert (a + b)[..|a + b| - 1] == a + b[..|b| - 1];
      BytesAppend(c, a, b[..|b| - 1]);
    }
  }

  /** A stretch of a batch that obeys the bounds obeys them. */
  lemma StretchFits(c: Codec, bounds: Bounds, batch: Batch, i: nat, j: nat)
    requires i <= j <= |batch| && Fits(c, bounds, batch)
    ensures Fits(c, bounds, batch[i..j])
  {
    assert batch == batch[..i] + batch[i..j] + batch[j..];
    BytesAppend(c, batch[..i] + batch[i..j], batch[j..]);
    BytesAppend(c, batch[..i], batch[i..j]);
  }

  /** The number of rows in the first `k` batches. */
  function Reach(batches: seq<Batch>, k: nat): nat
    requires k <= |batches|
  {
    |Flatten(batches[..k])|
  }

  lemma {:induction false} FlattenPrefix(batches: seq<Batch>, k: nat)
    requires k <= |batches|
    ensures Reach(batches, k) <= |Flatten(batches)| && Flatten(batches)[..Reach(batches, k)] == Flatten(batches[..k])
    decreases |batches|
  {
    if k == |batches| {
      assert batches[..k] == batches;
    } else {
      var init := batches[..|batches| - 1];
      FlattenPrefix(init, k);
      assert init[..k] == batches[..k];
    }
  }

  /** Where batch `k` lies in the rows. */
  lemma BatchAt(batches: seq<Batch>, k: nat)
    requires k < |batches|
    ensures Reach(batches, k + 1) == Reach(batches, k) + |batches[k]| <= |Flatten(batches)|
    ensures Flatten(batches)[Reach(batches, k)..Reach(batches, k + 1)] == batches[k]
  {
    FlattenPrefix(batches, k + 1);
    assert batches[..k + 1][..k] == batches[..k];
    assert Flatten(batches[..k + 1]) == Flatten(batches[..k]) + batches[k];
  }

  /** A tight split is never behind any other split. */
  lemma {:induction false} StaysAhead(c: Codec, bounds: Bounds,
      tight: seq<Batch>, other: seq<Batch>, rows: seq<Row>, k: nat)
    requires Split(c, bounds, tight, rows) && Tight(c, bounds, tight) && Split(c, bounds, other, rows)
    requires k <= |tight| && k <= |other|
    ensures k == |tight| || Reach(tight, k) >= Reach(other, k)
  {
    if k == 0 {
    } else {
      StaysAhead(c, bounds, tight, other, rows, k - 1);
      if k < |tight| {
        KeepsAhead(c, bounds, tight, other, rows, k - 1);
      }
    }
  }

  lemma KeepsAhead(c: Codec, bounds: Bounds, tight: seq<Batch>, other: seq<Batch>, rows: seq<Row>, k: nat)
    requires Split(c, bounds, tight, rows) && Tight(c, bounds, tight) && Split(c, bounds, other, rows)
    requires k + 1 < |tight| && k < |other| && Reach(tight, k) >= Reach(other, k)
    ensures Reach(tight, k + 1) >= Reach(other, k + 1)
  {
    BatchAt(tight, k);
    BatchAt(tight, k + 1);
    BatchAt(other, k);
    assert !Fits(c, bounds, tight[k] + [tight[k + 1][0]]);
    CannotOvertake(c, bounds, rows, tight[k], tight[k + 1], other[k], Reach(tight, k), Reach(other, k));
  }

  /** A batch `z` that obeys the bounds and starts no later than the full batch `x` ends no later. */
  lemma CannotOvertake(c: Codec, bounds: Bounds, rows: seq<Row>, x: Batch, y: Batch, z: Batch, a: nat, from: nat)
    requires y != [] && from <= a && a + |x| + |y| <= |rows| && from + |z| <= |rows|
    requires rows[a..a + |x|] == x && rows[a + |x|..a + |x| + |y|] == y && rows[from..from + |z|] == z
    requires Fits(c, bounds, z) && !Fits(c, bounds, x + [y[0]])
    ensures from + |z| <= a + |x|
  {
    if a + |x| < from + |z| {
      OverlapIsStretch(rows, x, y, z, a, a + |x|, from, from + |z|);
      StretchFits(c, bounds, z, a - from, a + |x| + 1 - from);
    }
  }

  /** If `z` starts before batch `x` and ends after it, it covers `x` and the row that follows `x`. */
  lemma OverlapIsStretch(rows: seq<Row>, x: Batch, y: Batch, z: Batch, a: nat, b: nat, from: nat, to: nat)
    requires from <= a <= b < to <= |rows| && b + |y| <= |rows| && y != []
    requires rows[a..b] == x && rows[b..b + |y|] == y && rows[from..to] == z
    ensures x + [y[0]] == z[a - from..b + 1 - from]
  {
    assert y[0] == rows[b];
    assert rows[a..b + 1] == rows[a..b] + [rows[b]];
    var stretch := z[a - from..b + 1 - from];
    assert forall i :: 0 <= i < b + 1 - a ==> stretch[i] == rows[a + i];
  }

  /** A tight split has the fewest batches of all. */
  lemma TightIsFewest(c: Codec, bounds: Bounds, tight: seq<Batch>, other: seq<Batch>, rows: seq<Row>)
    requires Split(c, bounds, tight, rows) && Tight(c, bounds, tight) && Split(c, bounds, other, rows)
    ensures |tight| <= |other|
  {
    var n := |other|;
    if n < |tight| {
      StaysAhead(c, bounds, tight, other, rows, n);
      BatchAt(tight, n);
      assert other[..n] == other;
    }
  }

  // ---- the generator ----

  ghost predicate Convertible(c: Codec, types: seq<DataType>, rows: seq<Row>)
    requires forall i :: 0 <= i < |rows| ==> |rows[i]| == |types|
  {
    forall i :: 0 <= i < |rows| ==> ConvertRow(c, rows[i], types).Ok?
  }

  /** The converted rows, in order. */
  ghost function Converted(c: Codec, types: seq<DataType>, rows: seq<Row>): seq<Row>
    requires forall i :: 0 <= i < |rows| ==> |rows[i]| == |types|
    requires Convertible(c, types, rows)
  {
    seq(|rows|, i requires 0 <= i < |rows| => ConvertRow(c, rows[i], types).value)
  }

  /** `batches` were yielded before the conversion of row `at` raised an error. */
  ghost predicate StoppedAt(c: Codec, types: seq<DataType>, rows: seq<Row>, batches: seq<Batch>, error: Error, at: nat)
    requires forall i :: 0 <= i < |rows| ==> |rows[i]| == |types|
  {
    && at < |rows| && Convertible(c, types, rows[..at]) && ConvertRow(c, rows[at], types) == Err(error)
    && Flatten(batches) <= Converted(c, types, rows[..at])
  }

  /** What the generator yields for a table, in full or up to an error. */
  ghost predicate Yields(c: Codec, types: seq<DataType>, bounds: Bounds, rows: seq<Row>,
                         batches: seq<Batch>, error: Option<Error>)
    requires forall i :: 0 <= i < |rows| ==> |rows[i]| == |types|
  {
    match error
    case None =>
      && Convertible(c, types, rows)
      && Split(c, bounds, batches, Converted(c, types, rows)) && Tight(c, bounds, batches)
    case Some(e) => exists at :: StoppedAt(c, types, rows, batches, e, at)
  }

  lemma ConvertedGrows(c: Codec, types: seq<DataType>, rows: seq<Row>, k: nat)
    requires forall i :: 0 <= i < |rows| ==> |rows[i]| == |types|
    requires k < |rows| && Convertible(c, types, rows[..k]) && ConvertRow(c, rows[k], types).Ok?
    ensures Convertible(c, types, rows[..k + 1])
    ensures Converted(c, types, rows[..k + 1]) == Converted(c, types, rows[..k]) + [ConvertRow(c, rows[k], types).value]
  {
    assert rows[..k + 1] == rows[..k] + [rows[k]];
  }

  lemma FlattenAppend(batches: seq<Batch>, batch: Batch)
    ensures Flatten(batches + [batch]) == Flatten(batches) + batch
  {
    assert (batches + [batch])[..|batches|] == batches;
  }

  /** `[convert(row) for row in rows]` for the rows from `from` to `to`. */
  method ConvertChunk(c: Codec, types: seq<DataType>, rows: seq<Row>, from: nat, to: nat)
    returns (chunk: Batch, error: Option<Error>)
    requires forall i :: 0 <= i < |rows| ==> |rows[i]| == |types|
    requires from <= to <= |rows| && Convertible(c, types, rows[..from])
    ensures error.None? ==> |chunk| == to - from && Convertible(c, types, rows[..to])
                            && Converted(c, types, rows[..to]) == Converted(c, types, rows[..from]) + chunk
    ensures error.Some? ==> exists at :: from <= at < to && Convertible(c, types, rows[..at])
                                         && ConvertRow(c, rows[at], types) == Err(error.value)
                                         && Converted(c, types, rows[..from]) <= Converted(c, types, rows[..at])
  {
    chunk := [];
    for k := from to to
      invariant |chunk| == k - from && Convertible(c, types, rows[..k])
      invariant Converted(c, types, rows[..k]) == Converted(c, types, rows[..from]) + chunk
    {
      var converted := ConvertRow(c, rows[k], types);
      if converted.Err? {
        return chunk, Some(converted.error);
      }
      ConvertedGrows(c, types, rows, k);
      chunk := chunk + [converted.value];
    }
    return chunk, None;
  }

  /** No byte limit: `fetchmany` chunks, each converted as a whole. */
  method ChunkBatches(c: Codec, types: seq<DataType>, size: int, rows: seq<Row>)
    returns (batches: seq<Batch>, error: Option<Error>)
    requires forall i :: 0 <= i < |rows| ==> |rows[i]| == |types|
    ensures Yields(c, types, Bounds(size, None), rows, batches, error)
  {
    var batchSize := AtLeastOne(size);
    var fetched := 0;
    batches := [];
    while fetched < |rows|
      invariant fetched <= |rows| && Convertible(c, types, rows[..fetched])
      invariant Split(c, Bounds(size, None), batches, Converted(c, types, rows[..fetched]))
      invariant fetched < |rows| ==> forall k :: 0 <= k < |batches| ==> |batches[k]| == batchSize
      invariant forall k :: 0 <= k < |batches| - 1 ==> |batches[k]| == batchSize
    {
      var next := if fetched + batchSize <= |rows| then fetched + batchSize else |rows|;
      var chunk, failed := ConvertChunk(c, types, rows, fetched, next);
      if failed.Some? {
        ghost var at :| fetched <= at < next && Convertible(c, types, rows[..at])
          && ConvertRow(c, rows[at], types) == Err(failed.value)
          && Converted(c, types, rows[..fetched]) <= Converted(c, types, rows[..at]);
        assert StoppedAt(c, types, rows, batches, failed.value, at);
        return batches, failed;
      }
      FlattenAppend(batches, chunk);
      batches, fetched := batches + [chunk], next;
    }
    assert rows[..|rows|] == rows;
    return batches, None;
  }

  // ---- a byte limit ----

  /** The batch has reached the byte limit. */
  ghost predicate Full(c: Codec, bounds: Bounds, width: nat, batch: Batch) {
    && bounds.bytes.Some? && batch != [] && BatchBytes(c, batch) >= AtLeastOne(bounds.bytes.value)
    && forall i :: 0 <= i < |batch| ==> |batch[i]| == width
  }

  /** Nothing can join the last batch: not the first row of `batch`, and no row at all if
      `batch` is empty. */
  ghost predicate Closed(c: Codec, bounds: Bounds, width: nat, batches: seq<Batch>, batch: Batch) {
    && Tight(c, bounds, batches)
    && (batches != [] && batch != [] ==> !Fits(c, bounds, batches[|batches| - 1] + [batch[0]]))
    && (batches != [] && batch == [] ==> Full(c, bounds, width, batches[|batches| - 1]))
  }

  /** A batch that is yielded closes the batches before it and is closed by what follows. */
  lemma CloseBatch(c: Codec, bounds: Bounds, width: nat, batches: seq<Batch>, batch: Batch, next: Batch)
    requires Closed(c, bounds, width, batches, batch) && batch != []
    requires if next == [] then Full(c, bounds, width, batch) else !Fits(c, bounds, batch + [next[0]])
    ensures Closed(c, bounds, width, batches + [batch], next)
  {
  }

  /** No row has room in a batch that has reached the byte limit, since every row counts at
      least its columns. */
  lemma FullBatch(c: Codec, bounds: Bounds, width: nat, batch: Batch, row: Row)
    requires Full(c, bounds, width, batch) && |row| == width
    ensures !Fits(c, bounds, batch + [row])
  {
    if width == 0 {
      NoColumnsNoBytes(c, batch);
    }
    BytesAppend(c, batch, [row]);
    assert [row][..0] == [];
  }

  lemma {:induction false} NoColumnsNoBytes(c: Codec, batch: Batch)
    requires forall i :: 0 <= i < |batch| ==> batch[i] == []
    ensures BatchBytes(c, batch) == 0
  {
    if batch == [] {
    } else {
      NoColumnsNoBytes(c, batch[..|batch| - 1]);
    }
  }

  lemma OneMoreRow(c: Codec, batch: Batch, row: Row)
    ensures BatchBytes(c, batch + [row]) == BatchBytes(c, batch) + RowBytes(c, row)
  {
    assert (batch + [row])[..|batch|] == batch;
  }

  /** The batches and the open batch hold the first `k` rows, converted. */
  ghost predicate Holds(c: Codec, types: seq<DataType>, rows: seq<Row>, k: nat, batches: seq<Batch>, batch: Batch)
    requires forall i :: 0 <= i < |rows| ==> |rows[i]| == |types|
  {
    && k <= |rows| && Convertible(c, types, rows[..k])
    && Flatten(batches) + batch == Converted(c, types, rows[..k])
    && (forall i :: 0 <= i < |batch| ==> |batch[i]| == |types|)
  }

  /** What the loop knows between two rows. */
  ghost predicate Filling(c: Codec, types: seq<DataType>, bounds: Bounds, rows: seq<Row>, k: nat,
                          batches: seq<Batch>, batch: Batch)
    requires forall i :: 0 <= i < |rows| ==> |rows[i]| == |types|
    requires bounds.bytes.Some?
  {
    && Holds(c, types, rows, k, batches, batch) && AllFit(c, bounds, batches)
    && |batch| <= AtLeastOne(bounds.size) && (batch != [] ==> BatchBytes(c, batch) < AtLeastOne(bounds.bytes.value))
    && Closed(c, bounds, |types|, batches, batch)
  }

  /** The open batch has room for the converted row `k`. */
  ghost predicate Room(c: Codec, types: seq<DataType>, bounds: Bounds, rows: seq<Row>, k: nat,
                       batches: seq<Batch>, batch: Batch, row: Row)
    requires forall i :: 0 <= i < |rows| ==> |rows[i]| == |types|
    requires bounds.bytes.Some?
  {
    && k < |rows| && ConvertRow(c, rows[k], types) == Ok(row)
    && Holds(c, types, rows, k, batches, batch) && AllFit(c, bounds, batches)
    && Closed(c, bounds, |types|, batches, batch + [row])
    && Fits(c, bounds, batch + [row])
  }

  /** The batch has no room for the next row: it is yielded, and the row starts the next one. */
  lemma YieldBefore(c: Codec, types: seq<DataType>, bounds: Bounds, rows: seq<Row>, k: nat,
                    batches: seq<Batch>, batch: Batch, row: Row)
    requires forall i :: 0 <= i < |rows| ==> |rows[i]| == |types|
    requires bounds.bytes.Some? && Filling(c, types, bounds, rows, k, batches, batch) && batch != []
    requires k < |rows| && ConvertRow(c, rows[k], types) == Ok(row)
    requires |batch| >= AtLeastOne(bounds.size)
             || BatchBytes(c, batch) + RowBytes(c, row) > AtLeastOne(bounds.bytes.value)
    ensures Room(c, types, bounds, rows, k, batches + [batch], [], row)
  {
    OneMoreRow(c, batch, row);
    assert [] + [row] == [row];
    CloseBatch(c, bounds, |types|, batches, batch, [row]);
    FlattenAppend(batches, batch);
  }

  /** The batch takes the next row without a yield. */
  lemma HasRoom(c: Codec, types: seq<DataType>, bounds: Bounds, rows: seq<Row>, k: nat,
                batches: seq<Batch>, batch: Batch, row: Row)
    requires forall i :: 0 <= i < |rows| ==> |rows[i]| == |types|
    requires bounds.bytes.Some? && Filling(c, types, bounds, rows, k, batches, batch)
    requires k < |rows| && ConvertRow(c, rows[k], types) == Ok(row)
    requires batch != [] ==> |batch| < AtLeastOne(bounds.size)
                             && BatchBytes(c, batch) + RowBytes(c, row) <= AtLeastOne(bounds.bytes.value)
    ensures Room(c, types, bounds, rows, k, batches, batch, row)
  {
    if batches != [] && batch == [] {
      FullBatch(c, bounds, |types|, batches[|batches| - 1], row);
    }
    OneMoreRow(c, batch, row);
  }

  lemma RowHeld(c: Codec, types: seq<DataType>, bounds: Bounds, rows: seq<Row>, k: nat,
                batches: seq<Batch>, batch: Batch, row: Row)
    requires forall i :: 0 <= i < |rows| ==> |rows[i]| == |types|
    requires bounds.bytes.Some? && Room(c, types, bounds, rows, k, batches, batch, row)
    ensures Holds(c, types, rows, k + 1, batches, batch + [row])
  {
    ConvertedGrows(c, types, rows, k);
    assert Flatten(batches) + (batch + [row]) == Converted(c, types, rows[..k + 1]);
  }

  /** The batch takes the row; if that takes it to the limit, the batch is yielded at once. */
  lemma KeepOrYield(c: Codec, types: seq<DataType>, bounds: Bounds, rows: seq<Row>, k: nat,
                    batches: seq<Batch>, batch: Batch, row: Row)
    requires forall i :: 0 <= i < |rows| ==> |rows[i]| == |types|
    requires bounds.bytes.Some? && Room(c, types, bounds, rows, k, batches, batch, row)
    ensures if BatchBytes(c, batch + [row]) >= AtLeastOne(bounds.bytes.value)
            then Filling(c, types, bounds, rows, k + 1, batches + [batch + [row]], [])
            else Filling(c, types, bounds, rows, k + 1, batches, batch + [row])
  {
    var longer := batch + [row];
    RowHeld(c, types, bounds, rows, k, batches, batch, row);
    if BatchBytes(c, longer) >= AtLeastOne(bounds.bytes.value) {
      CloseBatch(c, bounds, |types|, batches, longer, []);
      FlattenAppend(batches, longer);
    }
  }

  lemma TightEnd(c: Codec, bounds: Bounds, width: nat, batches: seq<Batch>, batch: Batch)
    requires Closed(c, bounds, width, batches, batch) && batch != []
    ensures Tight(c, bounds, batches + [batch])
  {
  }

  /** After the last row, what is left in the batch is yielded. */
  lemma LastBatch(c: Codec, types: seq<DataType>, bounds: Bounds, rows: seq<Row>, batches: seq<Batch>, batch: Batch)
    requires forall i :: 0 <= i < |rows| ==> |rows[i]| == |types|
    requires bounds.bytes.Some? && Filling(c, types, bounds, rows, |rows|, batches, batch)
    ensures Yields(c, types, bounds, rows, if batch == [] then batches else batches + [batch], None)
  {
    assert rows[..|rows|] == rows;
    if batch == [] {
      assert Flatten(batches) + batch == Flatten(batches);
    } else {
      FlattenAppend(batches, batch);
      TightEnd(c, bounds, |types|, batches, batch);
      assert AllFit(c, bounds, batches + [batch]);
    }
  }

  lemma Stopped(c: Codec, types: seq<DataType>, bounds: Bounds,
      rows: seq<Row>, k: nat, batches: seq<Batch>, batch: Batch)
    requires forall i :: 0 <= i < |rows| ==> |rows[i]| == |types|
    requires bounds.bytes.Some? && Filling(c, types, bounds, rows, k, batches, batch)
    requires k < |rows| && ConvertRow(c, rows[k], types).Err?
    ensures Yields(c, types, bounds, rows, batches, Some(ConvertRow(c, rows[k], types).error))
  {
    assert StoppedAt(c, types, rows, batches, ConvertRow(c, rows[k], types).error, k);
  }

  /** Yields the open batch if it has no room for the converted row `k`. */
  method MakeRoom(c: Codec, types: seq<DataType>, bounds: Bounds, ghost rows: seq<Row>, ghost k: nat,
                  batches: seq<Batch>, batch: Batch, batchBytes: nat, row: Row)
    returns (batches': seq<Batch>, batch': Batch, batchBytes': nat)
    requires forall i :: 0 <= i < |rows| ==> |rows[i]| == |types|
    requires bounds.bytes.Some? && Filling(c, types, bounds, rows, k, batches, batch) &&
      batchBytes == BatchBytes(c, batch)
    requires k < |rows| && ConvertRow(c, rows[k], types) == Ok(row)
    ensures Room(c, types, bounds, rows, k, batches', batch', row) && batchBytes' == BatchBytes(c, batch')
  {
    if batch != [] &&
      (|batch| >= AtLeastOne(bounds.size) || batchBytes + RowBytes(c, row) > AtLeastOne(bounds.bytes.value)) {
      YieldBefore(c, types, bounds, rows, k, batches, batch, row);
      return batches + [batch], [], 0;
    }
    HasRoom(c, types, bounds, rows, k, batches, batch, row);
    return batches, batch, batchBytes;
  }

  /** Takes the converted row `k`, and yields the batch if that takes it to the limit. */
  method TakeRow(c: Codec, types: seq<DataType>, bounds: Bounds, ghost rows: seq<Row>, ghost k: nat,
                 batches: seq<Batch>, batch: Batch, batchBytes: nat, row: Row)
    returns (batches': seq<Batch>, batch': Batch, batchBytes': nat)
    requires forall i :: 0 <= i < |rows| ==> |rows[i]| == |types|
    requires bounds.bytes.Some? && Room(c, types, bounds, rows, k, batches, batch, row) &&
      batchBytes == BatchBytes(c, batch)
    ensures Filling(c, types, bounds, rows, k + 1, batches', batch') && batchBytes' == BatchBytes(c, batch')
  {
    OneMoreRow(c, batch, row);
    KeepOrYield(c, types, bounds, rows, k, batches, batch, row);
    batches', batch', batchBytes' := batches, batch + [row], batchBytes + RowBytes(c, row);
    if batchBytes' >= AtLeastOne(bounds.bytes.value) {
      return batches' + [batch'], [], 0;
    }
  }

  /** A byte limit: rows are taken one by one. */
  method BoundedBatches(c: Codec, types: seq<DataType>, bounds: Bounds, rows: seq<Row>)
    returns (batches: seq<Batch>, error: Option<Error>)
    requires forall i :: 0 <= i < |rows| ==> |rows[i]| == |types|
    requires bounds.bytes.Some?
    ensures Yields(c, types, bounds, rows, batches, error)
  {
    var batch: Batch, batchBytes := [], 0;
    batches := [];
    for k := 0 to |rows|
      invariant Filling(c, types, bounds, rows, k, batches, batch) && batchBytes == BatchBytes(c, batch)
    {
      var converted := ConvertRow(c, rows[k], types);
      if converted.Err? {
        Stopped(c, types, bounds, rows, k, batches, batch);
        return batches, Some(converted.error);
      }
      batches, batch, batchBytes := MakeRoom(c, types, bounds, rows, k, batches, batch, batchBytes, converted.value);
      batches, batch, batchBytes := TakeRow(c, types, bounds, rows, k, batches, batch, batchBytes, converted.value);
    }
    LastBatch(c, types, bounds, rows, batches, batch);
    if batch != [] {
      batches := batches + [batch];
    }
    return batches, None;
  }

  /** `_converted_import_batches` */
  method ConvertedImportBatches(c: Codec, types: seq<DataType>, bounds: Bounds, rows: seq<Row>)
    returns (batches: seq<Batch>, error: Option<Error>)
    requires forall i :: 0 <= i < |rows| ==> |rows[i]| == |types|
    ensures Yields(c, types, bounds, rows, batches, error)
    ensures error.None? ==>
      forall other :: Split(c, bounds, other, Converted(c, types, rows)) ==> |batches| <= |other|
  {
    if bounds.bytes.None? {
      batches, error := ChunkBatches(c, types, bounds.size, rows);
    } else {
      batches, error := BoundedBatches(c, types, bounds, rows);
    }
    if error.None? {
      forall other | Split(c, bounds, other, Converted(c, types, rows)) ensures |batches| <= |other| {
        TightIsFewest(c, bounds, batches, other, Converted(c, types, rows));
      }
    }
  }
}
