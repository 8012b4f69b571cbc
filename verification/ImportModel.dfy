/**
 The values that the SQLite-to-PostgreSQL import carries: how they are converted, how
 the content check normalises them, and the order-independent digest of a table.
 */
module ImportModel {
  import opened Wrappers

  type Bytes = seq<bv8>

  /** A point in time, with or without a zone; its inside belongs to the `Codec`. */
  datatype Time = Time(microseconds: int, zoned: bool)

  datatype Value =
    | Null
    | Bool(flag: bool)
    | Int(number: int)
    | Real(amount: real)
    | Str(text: string)
    | Bin(bytes: Bytes)
    | View(bytes: Bytes)
    | Stamp(time: Time)

  type Row = seq<Value>

  datatype DataType = Boolean | Smallint | Integer | Bigint | Bytea |
    Timestamp(zoned: bool) | Uuid | Other(name: string)

  predicate IntegerType(t: DataType) { t.Smallint? || t.Integer? || t.Bigint? }

  datatype Error = BadBoolean | BadTime | BadInteger | BadUuid | BadBinary | BadRow | BadText
                 | MissingTable | Died | CountMismatch | ContentMismatch

  const MODULUS: nat := 0x1_0000000000000000_0000000000000000_0000000000000000_0000000000000000

  /** What the conversions take from Python's library: each may fail. */
  datatype Codec = Codec(
    fold: string -> string,                 // strip and lower-case
    float: string -> Option<real>,
    fromTimestamp: real -> Option<Time>,
    fromIso: string -> Option<Time>,
    toInt: Value -> Option<int>,
    uuid: Value -> Option<string>,
    str: Value -> string,
    utf8: string -> nat,                    // encoded length
    iso: Time -> string,
    hash: seq<Normal> -> Option<Word>)      // SHA-256 of the serialised row, if it can be encoded

  const MILLISECONDS: real := 100000000000.0

  function Seconds(n: real): real {
    if n > MILLISECONDS || n < -MILLISECONDS then n / 1000.0 else n
  }

  /** The number that a value of a timestamp column stands for, if it stands for one. */
  function Numeric(c: Codec, v: Value): Option<real> {
    match v
    case Str(s) => c.float(s)
    case Int(n) => Some(n as real)
    case Bool(b) => Some(if b then 1.0 else 0.0)
    case Real(r) => Some(r)
    case _ => None
  }

  /** `_convert_value` */
  function Convert(c: Codec, v: Value, t: DataType): Result<Value, Error> {
    if v.Null? then Ok(Null)
    else if t.Boolean? then
      match v
      case Bool(_) => Ok(v)
      case Int(n) => if n == 0 || n == 1 then Ok(Bool(n == 1)) else Err(BadBoolean)
      case Real(r) => if r == 0.0 || r == 1.0 then Ok(Bool(r == 1.0)) else Err(BadBoolean)
      case Str(s) =>
        if c.fold(s) == "0" || c.fold(s) == "false" then Ok(Bool(false))
        else if c.fold(s) == "1" || c.fold(s) == "true" then Ok(Bool(true))
        else Err(BadBoolean)
      case _ => Err(BadBoolean)
    else if IntegerType(t) && v.Bool? then Ok(Int(if v.flag then 1 else 0))
    else if t.Bytea? && v.View? then Ok(Bin(v.bytes))
    else if t.Timestamp? && Numeric(c, v).Some? then
      match c.fromTimestamp(Seconds(Numeric(c, v).value))
      case Some(time) => Ok(Stamp(time))
      case None => Err(BadTime)
    else Ok(v)
  }

  /** Converting what has been converted changes nothing, so the content check may convert
      a value again. */
  lemma ConvertIdempotent(c: Codec, v: Value, t: DataType)
    ensures Convert(c, v, t).Ok? ==> Convert(c, Convert(c, v, t).value, t) == Convert(c, v, t)
  {
  }

  // ---- the content check ----

  /** A value as PostgreSQL stores it. */
  datatype Normal = NNull | NBool(flag: bool) | NInt(number: int) | NUuid(text: string)
                  | NBytes(bytes: Bytes) | NTime(text: string) | NText(text: string)

  /** `_normalize_digest_value` */
  function Normalize(c: Codec, v: Value, t: DataType): Result<Normal, Error> {
    if v.Null? then Ok(NNull)
    else match t
      case Boolean =>
        (match Convert(c, v, t)
         case Ok(w) => if w.Bool? then Ok(NBool(w.flag)) else Err(BadBoolean)
         case Err(e) => Err(e))
      case Smallint => NormalInt(c, v)
      case Integer => NormalInt(c, v)
      case Bigint => NormalInt(c, v)
      case Uuid =>
        (match c.uuid(v) case Some(s) => Ok(NUuid(s)) case None => Err(BadUuid))
      case Bytea =>
        if v.View? || v.Bin? then Ok(NBytes(v.bytes)) else Err(BadBinary)
      case Timestamp(zoned) =>
        (match Convert(c, v, t)
         case Ok(w) => NormalTime(c, w, zoned)
         case Err(e) => Err(e))
      case Other(_) => Ok(NText(c.str(v)))
  }

  function NormalInt(c: Codec, v: Value): Result<Normal, Error> {
    match v
    case Int(n) => Ok(NInt(n))
    case Bool(b) => Ok(NInt(if b then 1 else 0))
    case _ => match c.toInt(v) case Some(n) => Ok(NInt(n)) case None => Err(BadInteger)
  }

  function NormalTime(c: Codec, w: Value, zoned: bool): Result<Normal, Error> {
    var time := if w.Stamp? then Some(w.time) else if w.Str? then c.fromIso(w.text) else None;
    match time
    case Some(t) => Ok(NTime(c.iso(Time(t.microseconds, zoned))))
    case None => Err(BadTime)
  }

  /** Conversion does not change what the check makes of a value. */
  lemma NormalizeConverted(c: Codec, v: Value, t: DataType)
    requires Convert(c, v, t).Ok?
    ensures Normalize(c, Convert(c, v, t).value, t) == Normalize(c, v, t)
  {
    ConvertIdempotent(c, v, t);
  }

  // ---- whole rows ----

  /** A row converted value by value, stopping at the first value that cannot be. */
  function ConvertRow(c: Codec, row: Row, types: seq<DataType>): (r: Result<Row, Error>)
    requires |row| == |types|
    ensures r.Ok? ==> |r.value| == |row| && forall k :: 0 <= k < |row| ==>
      Convert(c, row[k], types[k]) == Ok(r.value[k])
    ensures r.Err? ==> exists k :: 0 <= k < |row| && Convert(c, row[k], types[k]) == Err(r.error)
  {
    if row == [] then Ok([])
    else
      match Convert(c, row[0], types[0])
      case Err(e) => Err(e)
      case Ok(v) =>
        match ConvertRow(c, row[1..], types[1..])
        case Ok(rest) => Ok([v] + rest)
        case Err(e) => Err(e)
  }

  function NormalizeRow(c: Codec, row: Row, types: seq<DataType>): (r: Result<seq<Normal>, Error>)
    requires |row| == |types|
    ensures r.Ok? ==> |r.value| == |row| && forall k :: 0 <= k < |row| ==>
      Normalize(c, row[k], types[k]) == Ok(r.value[k])
    ensures r.Err? ==> exists k :: 0 <= k < |row| && Normalize(c, row[k], types[k]) == Err(r.error)
  {
    if row == [] then Ok([])
    else
      match Normalize(c, row[0], types[0])
      case Err(e) => Err(e)
      case Ok(v) =>
        match NormalizeRow(c, row[1..], types[1..])
        case Ok(rest) => Ok([v] + rest)
        case Err(e) => Err(e)
  }

  /** Rows that normalise alike, value by value, normalise alike. */
  lemma {:induction false} SameNormalRow(c: Codec, a: Row, b: Row, types: seq<DataType>)
    requires |a| == |b| == |types|
    requires forall k :: 0 <= k < |a| ==> Normalize(c, a[k], types[k]) == Normalize(c, b[k], types[k])
    ensures NormalizeRow(c, a, types) == NormalizeRow(c, b, types)
  {
    if a == [] {
    } else {
      assert Normalize(c, a[0], types[0]) == Normalize(c, b[0], types[0]);
      SameNormalRow(c, a[1..], b[1..], types[1..]);
    }
  }

  // ---- digests ----

  type Word = n: nat | n < MODULUS

  datatype Digest = Digest(count: nat, xor: nat, sum: Word)

  const EMPTY := Digest(0, 0, 0)

  /** Bitwise exclusive or. */
  function Xor(a: nat, b: nat): nat {
    if a == 0 && b == 0 then 0 else 2 * Xor(a / 2, b / 2) + (a + b) % 2
  }

  /** Addition modulo `MODULUS`. */
  function Plus(a: Word, b: Word): (r: Word) {
    if a + b < MODULUS then a + b else a + b - MODULUS
  }

  function Add(d: Digest, h: Word): Digest {
    Digest(d.count + 1, Xor(d.xor, h), Plus(d.sum, h))
  }

  lemma {:induction false} XorSwaps(x: nat, g: nat, h: nat)
    ensures Xor(Xor(x, g), h) == Xor(Xor(x, h), g)
    decreases x + g + h
  {
    XorBits(x, g);
    XorStep(Xor(x, g), h, Xor(x / 2, g / 2), x + g);
    XorBits(x, h);
    XorStep(Xor(x, h), g, Xor(x / 2, h / 2), x + h);
    if x + g + h == 0 {
    } else {
      XorSwaps(x / 2, g / 2, h / 2);
    }
  }

  lemma XorStep(y: nat, h: nat, half: nat, p: nat)
    requires y / 2 == half && y % 2 == p % 2
    ensures Xor(y, h) == 2 * Xor(half, h / 2) + (p + h) % 2
  {
    XorBits(y, h);
    SameParity(y, p, h);
  }

  lemma XorBits(a: nat, b: nat)
    ensures Xor(a, b) == 2 * Xor(a / 2, b / 2) + (a + b) % 2
    ensures Xor(a, b) / 2 == Xor(a / 2, b / 2) && Xor(a, b) % 2 == (a + b) % 2
  {
    if a == 0 && b == 0 {
      assert Xor(0, 0) == 0;
    }
  }

  lemma SameParity(a: nat, b: nat, c: nat)
    requires a % 2 == b % 2
    ensures (a + c) % 2 == (b + c) % 2
  {
  }

  lemma AddSwaps(d: Digest, g: Word, h: Word)
    ensures Add(Add(d, g), h) == Add(Add(d, h), g)
  {
    XorSwaps(d.xor, g, h);
  }

  /** The digest of rows whose hashes are given by `hash`. */
  function Fold<T>(hash: T -> Word, rows: seq<T>): Digest {
    if rows == [] then EMPTY else Add(Fold(hash, rows[..|rows| - 1]), hash(rows[|rows| - 1]))
  }

  /** The count is the number of rows, and the sum that of their hashes, modulo `MODULUS`. */
  lemma {:induction false} FoldCounts<T>(hash: T -> Word, rows: seq<T>)
    ensures Fold(hash, rows).count == |rows|
    ensures Fold(hash, rows).sum == Total(hash, rows) % MODULUS
  {
    if rows == [] {
    } else {
      var n := |rows| - 1;
      FoldCounts(hash, rows[..n]);
      PlusIsModular(Total(hash, rows[..n]), hash(rows[n]));
    }
  }

  lemma PlusIsModular(total: nat, h: Word)
    ensures Plus(total % MODULUS, h) == (total + h) % MODULUS
  {
    var q, r := total / MODULUS, total % MODULUS;
    assert total + h == q * MODULUS + (r + h);
    if r + h < MODULUS {
      ModUnique(total + h, q, r + h);
    } else {
      ModUnique(total + h, q + 1, r + h - MODULUS);
    }
  }

  lemma ModUnique(x: nat, q: nat, r: nat)
    requires x == q * MODULUS + r && r < MODULUS
    ensures x % MODULUS == r
  {
    assert (x / MODULUS - q) * MODULUS == r - x % MODULUS;
  }

  function Total<T>(hash: T -> Word, rows: seq<T>): nat {
    if rows == [] then 0 else Total(hash, rows[..|rows| - 1]) + hash(rows[|rows| - 1])
  }

  /** Any row of the sequence may be added last. */
  lemma {:induction false} FoldLast<T>(hash: T -> Word, rows: seq<T>, i: nat)
    requires i < |rows|
    ensures Fold(hash, rows) == Add(Fold(hash, rows[..i] + rows[i + 1..]), hash(rows[i]))
  {
    var n := |rows| - 1;
    if i == n {
      assert rows[..i] + rows[i + 1..] == rows[..n];
    } else {
      var rest := rows[..n];
      FoldLast(hash, rest, i);
      assert rest[..i] + rest[i + 1..] == (rows[..i] + rows[i + 1..])[..n - 1];
      AddSwaps(Fold(hash, rest[..i] + rest[i + 1..]), hash(rows[i]), hash(rows[n]));
    }
  }

  /** The digest depends on which rows there are and how often, not on their order. */
  lemma {:induction false} FoldPermutation<T>(hash: T -> Word, a: seq<T>, b: seq<T>)
    requires multiset(a) == multiset(b)
    ensures Fold(hash, a) == Fold(hash, b)
    decreases |a|
  {
    if a == [] {
      assert |multiset(b)| == 0;
    } else {
      var n := |a| - 1;
      assert a[n] in multiset(a);
      var i :| 0 <= i < |b| && b[i] == a[n];
      RemoveKeeps(a, b, i);
      FoldLast(hash, b, i);
      FoldPermutation(hash, a[..n], b[..i] + b[i + 1..]);
    }
  }

  lemma RemoveKeeps<T>(a: seq<T>, b: seq<T>, i: nat)
    requires a != [] && i < |b| && b[i] == a[|a| - 1] && multiset(a) == multiset(b)
    ensures multiset(a[..|a| - 1]) == multiset(b[..i] + b[i + 1..])
  {
    var rest := b[..i] + b[i + 1..];
    assert a == a[..|a| - 1] + [b[i]];
    assert b == b[..i] + [b[i]] + b[i + 1..];
    assert multiset(b) == multiset(rest) + multiset{b[i]};
    assert multiset(a) == multiset(a[..|a| - 1]) + multiset{b[i]};
    assert multiset(rest) == multiset(b) - multiset{b[i]};
  }

  lemma {:induction false} FoldSame<T>(f: T -> Word, a: seq<T>, g: T -> Word, b: seq<T>)
    requires |a| == |b| && forall i :: 0 <= i < |a| ==> f(a[i]) == g(b[i])
    ensures Fold(f, a) == Fold(g, b)
  {
    if a == [] {
    } else {
      FoldSame(f, a[..|a| - 1], g, b[..|b| - 1]);
    }
  }

  /** The digest tells two hashes apart that are added to the same rows. */
  lemma AddInjective(d: Digest, g: Word, h: Word)
    requires Add(d, g) == Add(d, h)
    ensures g == h
  {
  }

  /** The digest notices a change of one hash. */
  lemma FoldNoticesOne<T>(f: T -> Word, a: seq<T>, g: T -> Word, b: seq<T>, changed: nat)
    requires changed < |a| == |b| && f(a[changed]) != g(b[changed])
    requires forall i :: 0 <= i < |a| && i != changed ==> f(a[i]) == g(b[i])
    ensures Fold(f, a) != Fold(g, b)
  {
    FoldLast(f, a, changed);
    FoldLast(g, b, changed);
    RestSame(f, a, g, b, changed);
    if Fold(f, a) == Fold(g, b) {
      AddInjective(Fold(f, a[..changed] + a[changed + 1..]), f(a[changed]), g(b[changed]));
    }
  }

  lemma RestSame<T>(f: T -> Word, a: seq<T>, g: T -> Word, b: seq<T>, changed: nat)
    requires changed < |a| == |b|
    requires forall i :: 0 <= i < |a| && i != changed ==> f(a[i]) == g(b[i])
    ensures Fold(f, a[..changed] + a[changed + 1..]) == Fold(g, b[..changed] + b[changed + 1..])
  {
    var rest, others := a[..changed] + a[changed + 1..], b[..changed] + b[changed + 1..];
    forall i | 0 <= i < |rest| ensures f(rest[i]) == g(others[i]) {
      var k := if i < changed then i else i + 1;
      assert rest[i] == a[k] && others[i] == b[k];
    }
    FoldSame(f, rest, g, others);
  }

  // ---- the digest of a table ----

  /** An error of a single value. */
  predicate ValueError(e: Error) {
    e.BadBoolean? || e.BadTime? || e.BadInteger? || e.BadUuid? || e.BadBinary? || e.BadRow? || e.BadText?
  }

  /** The hash of one row; values that come from SQLite are converted first. */
  function RowHash(c: Codec, types: seq<DataType>, sourceValues: bool, row: Row): Result<Word, Error> {
    if |row| != |types| then Err(BadRow)
    else
      match (if sourceValues then ConvertRow(c, row, types) else Ok(row))
      case Err(e) => Err(e)
      case Ok(converted) =>
        match NormalizeRow(c, converted, types)
        case Ok(normal) => (match c.hash(normal) case Some(h) => Ok(h) case None => Err(BadText))
        case Err(e) => Err(e)
  }

  lemma RowErrors(c: Codec, types: seq<DataType>, sourceValues: bool, row: Row)
    ensures RowHash(c, types, sourceValues, row).Err? ==> ValueError(RowHash(c, types, sourceValues, row).error)
  {
  }

  function HashOf(c: Codec, types: seq<DataType>, sourceValues: bool): Row -> Word {
    row => match RowHash(c, types, sourceValues, row) case Ok(h) => h case Err(_) => 0
  }

  /** The digest of all rows, unless one of them has no hash. */
  method DigestRows(c: Codec, rows: seq<Row>, types: seq<DataType>, sourceValues: bool)
      returns (r: Result<Digest, Error>)
    ensures r.Ok? <==> forall i :: 0 <= i < |rows| ==> RowHash(c, types, sourceValues, rows[i]).Ok?
    ensures r.Ok? ==> r.value == Fold(HashOf(c, types, sourceValues), rows)
    ensures r.Err? ==> exists i :: 0 <= i < |rows| && RowHash(c, types, sourceValues, rows[i]) == Err(r.error)
  {
    var count, xor, sum := 0, 0, 0;
    for k := 0 to |rows|
      invariant forall i :: 0 <= i < k ==> RowHash(c, types, sourceValues, rows[i]).Ok?
      invariant Digest(count, xor, sum) == Fold(HashOf(c, types, sourceValues), rows[..k])
    {
      var hash := RowHash(c, types, sourceValues, rows[k]);
      if hash.Err? {
        return Err(hash.error);
      }
      assert rows[..k + 1][..k] == rows[..k];
      xor, sum, count := Xor(xor, hash.value), Plus(sum, hash.value), count + 1;
    }
    assert rows[..|rows|] == rows;
    return Ok(Digest(count, xor, sum));
  }

  // ---- what PostgreSQL stores ----

  /** `stored` gives the value that PostgreSQL returns for a value it was given. */
  function StoredRow(stored: (Value, DataType) -> Value, row: Row, types: seq<DataType>): Row
    requires |row| == |types|
  {
    seq(|row|, k requires 0 <= k < |row| => stored(row[k], types[k]))
  }

  /** PostgreSQL returns the converted values of the row in a form that the check normalises like them. */
  predicate AgreesOn(c: Codec, stored: (Value, DataType) -> Value, types: seq<DataType>, row: Row)
    requires |row| == |types| && ConvertRow(c, row, types).Ok?
  {
    var converted := ConvertRow(c, row, types).value;
    forall k :: 0 <= k < |row| ==>
      Normalize(c, stored(converted[k], types[k]), types[k]) == Normalize(c, converted[k], types[k])
  }

  /** A source row and what the import made of it have the same hash if PostgreSQL agrees on its values. */
  lemma StoredHash(c: Codec, stored: (Value, DataType) -> Value, types: seq<DataType>, row: Row)
    requires |row| == |types| && ConvertRow(c, row, types).Ok? && AgreesOn(c, stored, types, row)
    ensures RowHash(c, types, false, StoredRow(stored, ConvertRow(c, row, types).value, types))
            == RowHash(c, types, true, row)
  {
    var converted := ConvertRow(c, row, types).value;
    SameNormalRow(c, StoredRow(stored, converted, types), converted, types);
  }
}
