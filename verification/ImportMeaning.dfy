/**
 What a SQLite value means in a column of PostgreSQL, said without the conversion: the conversion
 finds this meaning, and the content check tells different meanings apart.
 */
module ImportMeaning {
  import opened Wrappers
  import opened ImportModel

  // ---- the meaning of a value ----

  /** SQLite has no booleans: numbers and texts stand for them. */
  predicate MeansTruth(c: Codec, v: Value, truth: bool) {
    || v == Bool(truth)
    || (v.Int? && v.number == (if truth then 1 else 0))
    || (v.Real? && v.amount == (if truth then 1.0 else 0.0))
    || (v.Str? && c.fold(v.text) == (if truth then "1" else "0"))
    || (v.Str? && c.fold(v.text) == (if truth then "true" else "false"))
  }

  /** A number, a truth value or a text that reads as a number stands for that many seconds, or
      milliseconds if there are more than a hundred thousand million of them. */
  predicate MeansNumber(c: Codec, v: Value, n: real) {
    || (v.Int? && n == v.number as real)
    || (v.Real? && n == v.amount)
    || (v == Bool(true) && n == 1.0) || (v == Bool(false) && n == 0.0)
    || (v.Str? && c.float(v.text) == Some(n))
  }

  predicate MeansMoment(c: Codec, n: real, time: Time) {
    if -100000000000.0 <= n <= 100000000000.0 then c.fromTimestamp(n) == Some(time)
    else c.fromTimestamp(n / 1000.0) == Some(time)
  }

  /** In a column of type `t`, value `v` means `w`. */
  ghost predicate Means(c: Codec, v: Value, t: DataType, w: Value) {
    match v
    case Null => w == Null
    case _ =>
      match t
      case Boolean => w.Bool? && MeansTruth(c, v, w.flag)
      case Smallint => MeansInteger(v, w)
      case Integer => MeansInteger(v, w)
      case Bigint => MeansInteger(v, w)
      case Bytea => if v.View? then w == Bin(v.bytes) else w == v
      case Timestamp(_) =>
        if exists n :: MeansNumber(c, v, n) then
          w.Stamp? && exists n :: MeansNumber(c, v, n) && MeansMoment(c, n, w.time)
        else w == v
      case Uuid => w == v
      case Other(_) => w == v
  }

  predicate MeansInteger(v: Value, w: Value) {
    if v == Bool(true) then w == Int(1) else if v == Bool(false) then w == Int(0) else w == v
  }

  /** What the conversion finds in a timestamp column. */
  lemma NumericMeans(c: Codec, v: Value)
    ensures Numeric(c, v).Some? <==> exists n :: MeansNumber(c, v, n)
    ensures forall n :: MeansNumber(c, v, n) <==> Numeric(c, v) == Some(n)
  {
    if Numeric(c, v).Some? {
      assert MeansNumber(c, v, Numeric(c, v).value);
    }
  }

  /** The conversion finds the meaning of a value; it fails exactly for a value without one, with the error
      of its column. */
  lemma ConvertMeans(c: Codec, v: Value, t: DataType)
    ensures forall w :: Convert(c, v, t) == Ok(w) <==> Means(c, v, t, w)
    ensures Convert(c, v, t).Err? ==>
      (t.Boolean? && Convert(c, v, t).error == BadBoolean) || (t.Timestamp? && Convert(c, v, t).error == BadTime)
  {
    NumericMeans(c, v);
  }

  /** Every value of the row means the value in its place. */
  ghost predicate RowMeans(c: Codec, row: Row, types: seq<DataType>, converted: Row)
    requires |row| == |types|
  {
    |converted| == |row| && forall k :: 0 <= k < |row| ==> Means(c, row[k], types[k], converted[k])
  }

  lemma ConvertRowMeans(c: Codec, row: Row, types: seq<DataType>)
    requires |row| == |types|
    ensures forall converted :: ConvertRow(c, row, types) == Ok(converted) <==> RowMeans(c, row, types, converted)
  {
    forall k | 0 <= k < |row|
      ensures forall w :: Convert(c, row[k], types[k]) == Ok(w) <==> Means(c, row[k], types[k], w)
    {
      ConvertMeans(c, row[k], types[k]);
    }
    forall converted | RowMeans(c, row, types, converted) ensures ConvertRow(c, row, types) == Ok(converted) {
      forall k | 0 <= k < |row| ensures Convert(c, row[k], types[k]) == Ok(converted[k]) {
        assert Means(c, row[k], types[k], converted[k]);
      }
      assert ConvertRow(c, row, types).Ok?;
      assert ConvertRow(c, row, types).value == converted;
    }
  }

  // ---- what the content check tells apart ----

  predicate ReadsInteger(c: Codec, v: Value, n: int) {
    match v
    case Int(m) => n == m
    case Bool(b) => n == if b then 1 else 0
    case _ => c.toInt(v) == Some(n)
  }

  ghost predicate ReadsTime(c: Codec, v: Value, time: Time) {
    || v == Stamp(time)
    || (v.Str? && c.float(v.text).None? && c.fromIso(v.text) == Some(time))
    || (exists n :: MeansNumber(c, v, n) && MeansMoment(c, n, time))
  }

  /** The text of a time, with the zone of the column. */
  function TimeText(c: Codec, time: Time, zoned: bool): string {
    c.iso(Time(time.microseconds, zoned))
  }

  /** The check can read the value in a column of type `t`. */
  ghost predicate Readable(c: Codec, v: Value, t: DataType) {
    match v
    case Null => true
    case _ =>
      match t
      case Boolean => exists truth :: MeansTruth(c, v, truth)
      case Smallint => exists n :: ReadsInteger(c, v, n)
      case Integer => exists n :: ReadsInteger(c, v, n)
      case Bigint => exists n :: ReadsInteger(c, v, n)
      case Uuid => c.uuid(v).Some?
      case Bytea => v.View? || v.Bin?
      case Timestamp(_) => exists time :: ReadsTime(c, v, time)
      case Other(_) => true
  }

  /** Two values are one and the same to PostgreSQL. */
  ghost predicate Same(c: Codec, v: Value, w: Value, t: DataType) {
    if v.Null? || w.Null? then v == w
    else match t
      case Boolean => forall truth :: MeansTruth(c, v, truth) <==> MeansTruth(c, w, truth)
      case Smallint => forall n :: ReadsInteger(c, v, n) <==> ReadsInteger(c, w, n)
      case Integer => forall n :: ReadsInteger(c, v, n) <==> ReadsInteger(c, w, n)
      case Bigint => forall n :: ReadsInteger(c, v, n) <==> ReadsInteger(c, w, n)
      case Uuid => c.uuid(v) == c.uuid(w)
      case Bytea => (v.View? || v.Bin?) && (w.View? || w.Bin?) && v.bytes == w.bytes
      case Timestamp(zoned) =>
        exists time1, time2 ::
          && ReadsTime(c, v, time1) && ReadsTime(c, w, time2)
          && TimeText(c, time1, zoned) == TimeText(c, time2, zoned)
      case Other(_) => c.str(v) == c.str(w)
  }

  lemma ReadsTruth(c: Codec, v: Value)
    requires !v.Null?
    ensures forall normal :: Normalize(c, v, Boolean) == Ok(normal) <==> normal.NBool? && MeansTruth(c, v, normal.flag)
  {
    ConvertMeans(c, v, Boolean);
    if Convert(c, v, Boolean).Ok? {
      assert Means(c, v, Boolean, Convert(c, v, Boolean).value);
    }
    forall truth | MeansTruth(c, v, truth) ensures Convert(c, v, Boolean) == Ok(Bool(truth)) {
      assert Means(c, v, Boolean, Bool(truth));
    }
  }

  lemma ReadsNumber(c: Codec, v: Value, t: DataType)
    requires !v.Null? && IntegerType(t)
    ensures forall normal :: Normalize(c, v, t) == Ok(normal) <==> normal.NInt? && ReadsInteger(c, v, normal.number)
  {
  }

  lemma ReadsMoment(c: Codec, v: Value, zoned: bool)
    requires !v.Null?
    ensures forall time1, time2 :: ReadsTime(c, v, time1) && ReadsTime(c, v, time2) ==> time1 == time2
    ensures Normalize(c, v, Timestamp(zoned)).Ok? <==> exists time :: ReadsTime(c, v, time)
    ensures forall time :: ReadsTime(c, v, time) ==>
      Normalize(c, v, Timestamp(zoned)) == Ok(NTime(TimeText(c, time, zoned)))
  {
    NumericMeans(c, v);
    if Numeric(c, v).Some? {
      assert MeansNumber(c, v, Numeric(c, v).value);
      if c.fromTimestamp(Seconds(Numeric(c, v).value)).Some? {
        assert MeansMoment(c, Numeric(c, v).value, c.fromTimestamp(Seconds(Numeric(c, v).value)).value);
        assert ReadsTime(c, v, c.fromTimestamp(Seconds(Numeric(c, v).value)).value);
      }
    } else if v.Stamp? {
      assert ReadsTime(c, v, v.time);
    } else if v.Str? && c.fromIso(v.text).Some? {
      assert ReadsTime(c, v, c.fromIso(v.text).value);
    }
  }

  /** The check reads exactly the readable values. */
  lemma NormalizeReads(c: Codec, v: Value, t: DataType)
    ensures Normalize(c, v, t).Ok? <==> Readable(c, v, t)
  {
    if !v.Null? {
      if t.Boolean? {
        ReadsTruth(c, v);
        forall truth | MeansTruth(c, v, truth) ensures Normalize(c, v, t) == Ok(NBool(truth)) {
          assert NBool(truth).NBool?;
        }
      } else if IntegerType(t) {
        ReadsNumber(c, v, t);
        forall n | ReadsInteger(c, v, n) ensures Normalize(c, v, t) == Ok(NInt(n)) {
          assert NInt(n).NInt?;
        }
      } else if t.Timestamp? {
        ReadsMoment(c, v, t.zoned);
      }
    }
  }

  /** It takes two readable values for equal exactly if they are the same. */
  lemma NormalizeTellsApart(c: Codec, v: Value, w: Value, t: DataType)
    requires Readable(c, v, t) && Readable(c, w, t)
    ensures Normalize(c, v, t) == Normalize(c, w, t) <==> Same(c, v, w, t)
  {
    NormalizeReads(c, v, t);
    NormalizeReads(c, w, t);
    if !v.Null? && !w.Null? {
      if t.Boolean? {
        ReadsTruth(c, v);
        ReadsTruth(c, w);
      } else if IntegerType(t) {
        ReadsNumber(c, v, t);
        ReadsNumber(c, w, t);
      } else if t.Timestamp? {
        ReadsMoment(c, v, t.zoned);
        ReadsMoment(c, w, t.zoned);
      }
    }
  }

  /** In particular it tells two numbers, two truth values and two byte strings apart. */
  lemma DifferentIsNoticed(c: Codec, t: DataType)
    ensures IntegerType(t) ==> forall m, n :: Normalize(c, Int(m), t) == Normalize(c, Int(n), t) ==> m == n
    ensures t.Boolean? ==> Normalize(c, Bool(true), t) != Normalize(c, Bool(false), t)
    ensures t.Bytea? ==> forall a, b :: Normalize(c, Bin(a), t) == Normalize(c, Bin(b), t) ==> a == b
  {
  }

  // ---- rows ----

  /** No two rows have the same hash. */
  ghost predicate CollisionFree(c: Codec) {
    forall a, b :: c.hash(a).Some? && c.hash(a) == c.hash(b) ==> a == b
  }

  ghost predicate SameRow(c: Codec, a: Row, b: Row, types: seq<DataType>)
    requires |a| == |b| == |types|
  {
    forall k :: 0 <= k < |types| ==> Same(c, a[k], b[k], types[k])
  }

  /** A row has a hash only if each of its values can be read. */
  lemma HashReads(c: Codec, types: seq<DataType>, row: Row)
    requires RowHash(c, types, false, row).Ok?
    ensures |row| == |types| && forall k :: 0 <= k < |row| ==> Readable(c, row[k], types[k])
    ensures NormalizeRow(c, row, types).Ok?
    ensures c.hash(NormalizeRow(c, row, types).value) == Some(RowHash(c, types, false, row).value)
  {
    forall k | 0 <= k < |row| ensures Readable(c, row[k], types[k]) {
      NormalizeReads(c, row[k], types[k]);
    }
  }

  /** Up to collisions, rows have the same hash exactly if they hold the same values. */
  lemma HashTellsApart(c: Codec, types: seq<DataType>, a: Row, b: Row)
    requires CollisionFree(c) && RowHash(c, types, false, a).Ok? && RowHash(c, types, false, b).Ok?
    ensures |a| == |b| == |types|
    ensures RowHash(c, types, false, a) == RowHash(c, types, false, b) <==> SameRow(c, a, b, types)
  {
    HashReads(c, types, a);
    HashReads(c, types, b);
    forall k | 0 <= k < |types|
      ensures Same(c, a[k], b[k], types[k]) <==> Normalize(c, a[k], types[k]) == Normalize(c, b[k], types[k])
    {
      NormalizeTellsApart(c, a[k], b[k], types[k]);
    }
    if SameRow(c, a, b, types) {
      SameNormalRow(c, a, b, types);
    }
  }

  /** A source row has the hash of what it means. */
  lemma SourceHash(c: Codec, types: seq<DataType>, row: Row, converted: Row)
    requires |row| == |types| && RowMeans(c, row, types, converted)
    ensures RowHash(c, types, true, row) == RowHash(c, types, false, converted)
  {
    ConvertRowMeans(c, row, types);
  }
}
