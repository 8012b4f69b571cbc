/**
 The parser of ADO.NET connection strings, and the printer that it undoes: values are
 quoted, with quotes inside doubled, and fields are joined with semicolons.
 */
module ConnectionString {
  import opened Wrappers

  predicate QuoteMark(c: char) { c == '"' || c == '\'' }

  // ---- segments ----

  /** The segments of the rest of a string, when `current` has been read of the first one and
      `quote` is the quote character that is open. */
  function Segments(s: string, quote: Option<char>, current: string): seq<string>
    decreases |s|
  {
    if s == "" then [current]
    else if quote.Some? then
      if s[0] == quote.value then
        if |s| > 1 && s[1] == quote.value then Segments(s[2..], quote, current + [s[0]])
        else Segments(s[1..], None, current)
      else Segments(s[1..], quote, current + [s[0]])
    else if QuoteMark(s[0]) then Segments(s[1..], Some(s[0]), current)
    else if s[0] == ';' then [current] + Segments(s[1..], None, "")
    else Segments(s[1..], None, current + [s[0]])
  }

  /** The index loop of the parser. */
  method ReadSegments(value: string) returns (segments: seq<string>)
    ensures segments == Segments(value, None, "")
  {
    var current := "";
    var quote: Option<char> := None;
    var index := 0;
    segments := [];
    while index < |value|
      invariant index <= |value|
      invariant segments + Segments(value[index..], quote, current) == Segments(value, None, "")
    {
      var character := value[index];
      assert value[index..][1..] == value[index + 1..];
      assert index + 1 < |value| ==> value[index..][1] == value[index + 1] && value[index..][2..] == value[index + 2..];
      if quote.Some? {
        if character == quote.value {
          if index + 1 < |value| && value[index + 1] == quote.value {
            current := current + [character];
            index := index + 2;
            continue;
          }
          quote := None;
        } else {
          current := current + [character];
        }
      } else if QuoteMark(character) {
        quote := Some(character);
      } else if character == ';' {
        var rest := Segments(value[index + 1..], None, "");
        assert segments + ([current] + rest) == (segments + [current]) + rest;
        segments := segments + [current];
        current := "";
      } else {
        current := current + [character];
      }
      index := index + 1;
    }
    assert value[index..] == "";
    segments := segments + [current];
  }

  // ---- fields ----

  /** Python's white space and lower case. */
  datatype Text = Text(space: char -> bool, lower: string -> string)

  function StripLeft(t: Text, s: string): string {
    if s != "" && t.space(s[0]) then StripLeft(t, s[1..]) else s
  }

  function StripRight(t: Text, s: string): string {
    if s != "" && t.space(s[|s| - 1]) then StripRight(t, s[..|s| - 1]) else s
  }

  function Strip(t: Text, s: string): string {
    StripRight(t, StripLeft(t, s))
  }

  /** The field that a name stands for. */
  function Alias(name: string): Option<string> {
    if name == "host" || name == "server" || name == "data source" then Some("host")
    else if name == "port" then Some("port")
    else if name == "database" || name == "initial catalog" then Some("database")
    else if name == "username" || name == "user id" || name == "userid" || name == "user" then Some("user")
    else if name == "password" || name == "pwd" then Some("password")
    else None
  }

  /** The position of the first equals sign. */
  function FirstEquals(s: string): Option<nat> {
    if s == "" then None
    else if s[0] == '=' then Some(0)
    else match FirstEquals(s[1..]) case Some(i) => Some(i + 1) case None => None
  }

  lemma FirstEqualsInside(s: string)
    ensures FirstEquals(s).Some? ==> FirstEquals(s).value < |s|
  {
  }

  /** A segment adds its field to those parsed before it, if it has a known name. */
  function AddSegment(t: Text, parsed: map<string, string>, segment: string): map<string, string> {
    FirstEqualsInside(segment);
    match FirstEquals(segment)
    case None => parsed
    case Some(i) =>
      match Alias(t.lower(Strip(t, segment[..i])))
      case None => parsed
      case Some(canonical) => parsed[canonical := Strip(t, segment[i + 1..])]
  }

  function AddSegments(t: Text, segments: seq<string>): map<string, string> {
    if segments == [] then map[] else
      AddSegment(t, AddSegments(t, segments[..|segments| - 1]), segments[|segments| - 1])
  }

  /** `_parse_ado_net_connection_string` */
  method Parse(t: Text, value: string) returns (parsed: map<string, string>)
    ensures parsed == AddSegments(t, Segments(value, None, ""))
  {
    var segments := ReadSegments(value);
    parsed := map[];
    for k := 0 to |segments|
      invariant parsed == AddSegments(t, segments[..k])
    {
      assert segments[..k + 1][..k] == segments[..k];
      parsed := AddSegment(t, parsed, segments[k]);
    }
    assert segments[..|segments|] == segments;
  }

  // ---- the printer ----

  datatype Field = Field(name: string, value: string)

  function Escape(q: char, s: string): string {
    if s == "" then "" else (if s[0] == q then [q, q] else [s[0]]) + Escape(q, s[1..])
  }

  function PrintField(q: char, f: Field): string {
    f.name + "=" + [q] + Escape(q, f.value) + [q]
  }

  function Print(q: char, fields: seq<Field>): string {
    if fields == [] then ""
    else if |fields| == 1 then PrintField(q, fields[0])
    else PrintField(q, fields[0]) + ";" + Print(q, fields[1..])
  }

  /** A name that may be printed without quotes. */
  predicate Plain(s: string) {
    forall i :: 0 <= i < |s| ==> !QuoteMark(s[i]) && s[i] != ';' && s[i] != '='
  }

  lemma {:induction false} ReadPlain(s: string, rest: string, current: string)
    requires forall i :: 0 <= i < |s| ==> !QuoteMark(s[i]) && s[i] != ';'
    ensures Segments(s + rest, None, current) == Segments(rest, None, current + s)
  {
    if s == "" {
      assert s + rest == rest && current + s == current;
    } else {
      assert (s + rest)[1..] == s[1..] + rest;
      ReadPlain(s[1..], rest, current + [s[0]]);
      assert (current + [s[0]]) + s[1..] == current + s;
    }
  }

  /** Reading undoes quoting. */
  lemma {:induction false} ReadQuoted(q: char, s: string, rest: string, current: string)
    requires QuoteMark(q) && (rest != "" ==> rest[0] != q)
    ensures Segments(Escape(q, s) + [q] + rest, Some(q), current) == Segments(rest, None, current + s)
  {
    var text := Escape(q, s) + [q] + rest;
    if s == "" {
      assert text == [q] + rest && text[1..] == rest && current + s == current;
    } else {
      var tail := Escape(q, s[1..]) + [q] + rest;
      ReadQuoted(q, s[1..], rest, current + [s[0]]);
      assert (current + [s[0]]) + s[1..] == current + s;
      if s[0] == q {
        assert text == [q, q] + tail && text[2..] == tail;
      } else {
        assert text == [s[0]] + tail && text[1..] == tail;
      }
    }
  }

  /** A field as the segment that is read from it. */
  function SegmentOf(f: Field): string {
    f.name + "=" + f.value
  }

  lemma ReadField(q: char, f: Field, rest: string)
    requires QuoteMark(q) && Plain(f.name) && (rest != "" ==> rest[0] != q)
    ensures Segments(PrintField(q, f) + rest, None, "") == Segments(rest, None, SegmentOf(f))
  {
    var head := f.name + "=";
    var quoted := Escape(q, f.value) + [q] + rest;
    PrintedFieldIs(head, q, Escape(q, f.value), rest);
    ReadHead(f.name, [q] + quoted);
    OpensQuote(q, quoted, head);
    ReadQuoted(q, f.value, rest, head);
  }

  lemma PrintedFieldIs(head: string, q: char, escaped: string, rest: string)
    ensures head + [q] + escaped + [q] + rest == head + ([q] + (escaped + [q] + rest))
  {
  }

  lemma ReadHead(name: string, tail: string)
    requires Plain(name)
    ensures Segments(name + "=" + tail, None, "") == Segments(tail, None, name + "=")
  {
    ReadPlain(name + "=", tail, "");
    assert "" + (name + "=") == name + "=";
  }

  lemma OpensQuote(q: char, quoted: string, current: string)
    requires QuoteMark(q)
    ensures Segments([q] + quoted, None, current) == Segments(quoted, Some(q), current)
  {
    assert ([q] + quoted)[1..] == quoted;
  }

  function SegmentsOf(fields: seq<Field>): seq<string> {
    seq(|fields|, i requires 0 <= i < |fields| => SegmentOf(fields[i]))
  }

  lemma ReadSemicolon(rest: string, current: string)
    ensures Segments(";" + rest, None, current) == [current] + Segments(rest, None, "")
  {
    assert (";" + rest)[1..] == rest;
  }

  lemma PrintFirst(q: char, fields: seq<Field>)
    requires |fields| > 1
    ensures Print(q, fields) == PrintField(q, fields[0]) + (";" + Print(q, fields[1..]))
    ensures SegmentsOf(fields) == [SegmentOf(fields[0])] + SegmentsOf(fields[1..])
  {
  }

  lemma {:induction false} ReadPrinted(q: char, fields: seq<Field>)
    requires QuoteMark(q) && fields != [] && forall i :: 0 <= i < |fields| ==> Plain(fields[i].name)
    ensures Segments(Print(q, fields), None, "") == SegmentsOf(fields)
  {
    if |fields| == 1 {
      ReadField(q, fields[0], "");
      assert PrintField(q, fields[0]) + "" == PrintField(q, fields[0]);
    } else {
      PrintFirst(q, fields);
      ReadField(q, fields[0], ";" + Print(q, fields[1..]));
      ReadSemicolon(Print(q, fields[1..]), SegmentOf(fields[0]));
      ReadPrinted(q, fields[1..]);
    }
  }

  // ---- parsing undoes printing ----

  lemma {:induction false} EqualsAfterName(name: string, value: string)
    requires Plain(name)
    ensures FirstEquals(name + "=" + value) == Some(|name|)
  {
    var s := name + "=" + value;
    if name == "" {
    } else {
      assert s[1..] == name[1..] + "=" + value;
      EqualsAfterName(name[1..], value);
    }
  }

  /** The names that the program itself uses. */
  predicate Canonical(name: string) {
    name == "host" || name == "port" || name == "database" || name == "user" || name == "password"
  }

  lemma CanonicalStandsForItself(name: string)
    requires Canonical(name)
    ensures Alias(name) == Some(name) && Plain(name)
  {
  }

  ghost predicate Understands(t: Text) {
    forall name :: Canonical(name) ==> Strip(t, name) == name && t.lower(name) == name
  }

  /** The name of a field is printed, read and understood as itself. */
  predicate NameOk(t: Text, name: string) {
    Plain(name) && Strip(t, name) == name && t.lower(name) == name && Alias(name) == Some(name)
  }

  lemma CanonicalOk(t: Text, name: string)
    requires Understands(t) && Canonical(name)
    ensures NameOk(t, name)
  {
    CanonicalStandsForItself(name);
  }

  lemma AddField(t: Text, parsed: map<string, string>, f: Field)
    requires NameOk(t, f.name)
    ensures AddSegment(t, parsed, SegmentOf(f)) == parsed[f.name := Strip(t, f.value)]
  {
    EqualsAfterName(f.name, f.value);
    assert SegmentOf(f)[..|f.name|] == f.name && SegmentOf(f)[|f.name| + 1..] == f.value;
  }

  /** Fields for the entries of a map, in some order. */
  ghost predicate Lists(fields: seq<Field>, m: map<string, string>) {
    && (forall i :: 0 <= i < |fields| ==> fields[i].name in m && fields[i].value == m[fields[i].name])
    && (forall name :: name in m ==> exists i :: 0 <= i < |fields| && fields[i].name == name)
  }

  function Stripped(t: Text, m: map<string, string>): map<string, string> {
    map name | name in m :: Strip(t, m[name])
  }

  /** `parsed` has an entry for each of the fields, and only entries of the map, stripped. */
  ghost predicate Collects(t: Text, parsed: map<string, string>, fields: seq<Field>, m: map<string, string>) {
    && (forall name :: name in parsed ==> name in m && parsed[name] == Strip(t, m[name]))
    && (forall i :: 0 <= i < |fields| ==> fields[i].name in parsed)
  }

  lemma CollectsOneMore(t: Text, parsed: map<string, string>, fields: seq<Field>, f: Field, m: map<string, string>)
    requires Collects(t, parsed, fields, m) && f.name in m && f.value == m[f.name]
    ensures Collects(t, parsed[f.name := Strip(t, f.value)], fields + [f], m)
  {
  }

  predicate IsEntry(t: Text, f: Field, m: map<string, string>) {
    NameOk(t, f.name) && f.name in m && f.value == m[f.name]
  }

  /** The last field is added to what the fields before it give. */
  lemma SegmentsGrow(t: Text, fields: seq<Field>)
    requires fields != []
    ensures var n := |fields| - 1;
      AddSegments(t, SegmentsOf(fields)) == AddSegment(t, AddSegments(t, SegmentsOf(fields[..n])), SegmentOf(fields[n]))
  {
    var n := |fields| - 1;
    assert SegmentsOf(fields)[..n] == SegmentsOf(fields[..n]);
    assert SegmentsOf(fields)[n] == SegmentOf(fields[n]);
  }

  lemma {:induction false} AddPrinted(t: Text, fields: seq<Field>, m: map<string, string>)
    requires forall i :: 0 <= i < |fields| ==> IsEntry(t, fields[i], m)
    ensures Collects(t, AddSegments(t, SegmentsOf(fields)), fields, m)
  {
    if fields == [] {
    } else {
      var n := |fields| - 1;
      var before := fields[..n];
      var parsed := AddSegments(t, SegmentsOf(before));
      AddPrinted(t, before, m);
      SegmentsGrow(t, fields);
      AddField(t, parsed, fields[n]);
      CollectsOneMore(t, parsed, before, fields[n], m);
      assert fields == before + [fields[n]];
    }
  }

  lemma CollectsAll(t: Text, parsed: map<string, string>, fields: seq<Field>, m: map<string, string>)
    requires Collects(t, parsed, fields, m) && Lists(fields, m)
    ensures parsed == Stripped(t, m)
  {
    forall name | name in m ensures name in parsed {
      var i :| 0 <= i < |fields| && fields[i].name == name;
    }
  }

  lemma ParseNothing(t: Text)
    ensures AddSegments(t, Segments("", None, "")) == map[]
  {
    assert [""][..0] == [];
  }

  /** Printing a map of fields, whatever quotes, semicolons and equals signs its values contain, and
      parsing the result gives the map with its values stripped. */
  lemma ParsePrinted(t: Text, q: char, fields: seq<Field>, m: map<string, string>)
    requires Understands(t) && QuoteMark(q) && (forall name :: name in m ==> Canonical(name)) && Lists(fields, m)
    ensures AddSegments(t, Segments(Print(q, fields), None, "")) == Stripped(t, m)
  {
    if fields == [] {
      ParseNothing(t);
    } else {
      forall i | 0 <= i < |fields| ensures IsEntry(t, fields[i], m) {
        CanonicalOk(t, fields[i].name);
      }
      ReadPrinted(q, fields);
      AddPrinted(t, fields, m);
      CollectsAll(t, AddSegments(t, SegmentsOf(fields)), fields, m);
    }
  }

  /** Parsing undoes printing exactly for the maps whose values have no outer white space. */
  lemma ParseUndoesPrintIffStripped(t: Text, q: char, fields: seq<Field>, m: map<string, string>)
    requires Understands(t) && QuoteMark(q) && (forall name :: name in m ==> Canonical(name)) && Lists(fields, m)
    ensures AddSegments(t, Segments(Print(q, fields), None, "")) == m
       <==> forall name :: name in m ==> Strip(t, m[name]) == m[name]
  {
    ParsePrinted(t, q, fields, m);
  }

  // ---- names and white space ----

  /** The names under which a field may be given. */
  predicate StandsFor(name: string, key: string) {
    || (key == "host" && name in {"host", "server", "data source"})
    || (key == "port" && name == "port")
    || (key == "database" && name in {"database", "initial catalog"})
    || (key == "user" && name in {"username", "user id", "userid", "user"})
    || (key == "password" && name in {"password", "pwd"})
  }

  lemma AliasStandsFor(name: string, key: string)
    ensures Alias(name) == Some(key) <==> StandsFor(name, key)
  {
  }

  /** The field gives `key`, under any of its names, in any case and with any white space around it. */
  predicate Gives(t: Text, f: Field, key: string) {
    StandsFor(t.lower(Strip(t, f.name)), key)
  }

  /** Field `i` is the last one that gives `key`. */
  predicate LastGives(t: Text, fields: seq<Field>, key: string, i: int) {
    0 <= i < |fields| && Gives(t, fields[i], key) && forall j :: i < j < |fields| ==> !Gives(t, fields[j], key)
  }

  lemma AddNamed(t: Text, parsed: map<string, string>, f: Field, key: string)
    requires Plain(f.name)
    ensures var after := AddSegment(t, parsed, SegmentOf(f));
      if Gives(t, f, key) then key in after && after[key] == Strip(t, f.value)
      else (key in after <==> key in parsed) && (key in parsed ==> after[key] == parsed[key])
  {
    EqualsAfterName(f.name, f.value);
    assert SegmentOf(f)[..|f.name|] == f.name && SegmentOf(f)[|f.name| + 1..] == f.value;
    AliasStandsFor(t.lower(Strip(t, f.name)), key);
  }

  /** What the fields so far say about `key`. */
  ghost predicate SaysLast(t: Text, fields: seq<Field>, key: string, parsed: map<string, string>) {
    && (key in parsed <==> exists i :: LastGives(t, fields, key, i))
    && forall i :: LastGives(t, fields, key, i) ==> key in parsed && parsed[key] == Strip(t, fields[i].value)
  }

  lemma OneMoreSays(t: Text, before: seq<Field>, f: Field, key: string,
                    parsed: map<string, string>, after: map<string, string>)
    requires SaysLast(t, before, key, parsed)
    requires if Gives(t, f, key) then key in after && after[key] == Strip(t, f.value)
             else (key in after <==> key in parsed) && (key in parsed ==> after[key] == parsed[key])
    ensures SaysLast(t, before + [f], key, after)
  {
    var fields, n := before + [f], |before|;
    if Gives(t, f, key) {
      assert LastGives(t, fields, key, n);
    } else {
      forall i ensures LastGives(t, fields, key, i) <==> LastGives(t, before, key, i) {
        assert forall j :: 0 <= j < n ==> fields[j] == before[j];
        if LastGives(t, fields, key, i) {
          assert i != n;
        }
      }
    }
  }

  lemma {:induction false} AddAllNamed(t: Text, fields: seq<Field>, key: string)
    requires forall i :: 0 <= i < |fields| ==> Plain(fields[i].name)
    ensures SaysLast(t, fields, key, AddSegments(t, SegmentsOf(fields)))
  {
    if fields == [] {
    } else {
      var n := |fields| - 1;
      var before := fields[..n];
      AddAllNamed(t, before, key);
      var parsed := AddSegments(t, SegmentsOf(before));
      SegmentsGrow(t, fields);
      AddNamed(t, parsed, fields[n], key);
      OneMoreSays(t, before, fields[n], key, parsed, AddSegment(t, parsed, SegmentOf(fields[n])));
      assert fields == before + [fields[n]];
    }
  }

  /** Of printed fields with any names, each known one is parsed, under each of its names, and the last of them
      counts; the others are ignored. */
  lemma ParseReadsNames(t: Text, q: char, fields: seq<Field>, key: string)
    requires QuoteMark(q) && fields != [] && forall i :: 0 <= i < |fields| ==> Plain(fields[i].name)
    ensures var parsed := AddSegments(t, Segments(Print(q, fields), None, ""));
      && (key in parsed <==> exists i :: LastGives(t, fields, key, i))
      && forall i :: LastGives(t, fields, key, i) ==> key in parsed && parsed[key] == Strip(t, fields[i].value)
  {
    ReadPrinted(q, fields);
    AddAllNamed(t, fields, key);
  }

  /** The first equals sign has none before it; without one there is no position. */
  lemma {:induction false} FirstEqualsIs(s: string)
    ensures match FirstEquals(s)
            case Some(i) => i < |s| && s[i] == '=' && '=' !in s[..i]
            case None => '=' !in s
  {
    if s == "" {
    } else {
      FirstEqualsIs(s[1..]);
      if s[0] != '=' && FirstEquals(s[1..]).Some? {
        assert s[..FirstEquals(s).value] == [s[0]] + s[1..][..FirstEquals(s[1..]).value];
      }
    }
  }

  /** A segment without an equals sign says nothing. */
  lemma NoEqualsNoField(t: Text, parsed: map<string, string>, segment: string)
    requires '=' !in segment
    ensures AddSegment(t, parsed, segment) == parsed
  {
    FirstEqualsIs(segment);
  }

  /** Stripping takes the white space at both ends away, and nothing else. */
  lemma StripTakesSpace(t: Text, s: string) returns (left: string, right: string)
    ensures s == left + Strip(t, s) + right
    ensures (forall c :: c in left ==> t.space(c)) && (forall c :: c in right ==> t.space(c))
    ensures var kept := Strip(t, s); kept != "" ==> !t.space(kept[0]) && !t.space(kept[|kept| - 1])
  {
    left := StripLeftTakes(t, s);
    right := StripRightTakes(t, StripLeft(t, s));
  }

  lemma {:induction false} StripLeftTakes(t: Text, s: string) returns (left: string)
    ensures s == left + StripLeft(t, s) && forall c :: c in left ==> t.space(c)
    ensures StripLeft(t, s) != "" ==> !t.space(StripLeft(t, s)[0])
  {
    if s != "" && t.space(s[0]) {
      var rest := StripLeftTakes(t, s[1..]);
      left := [s[0]] + rest;
    } else {
      left := "";
    }
  }

  lemma {:induction false} StripRightTakes(t: Text, s: string) returns (right: string)
    ensures s == StripRight(t, s) + right && forall c :: c in right ==> t.space(c)
    ensures StripRight(t, s) != "" ==>
      !t.space(StripRight(t, s)[|StripRight(t, s)| - 1]) && StripRight(t, s)[0] == s[0]
  {
    if s != "" && t.space(s[|s| - 1]) {
      var rest := StripRightTakes(t, s[..|s| - 1]);
      right := rest + [s[|s| - 1]];
    } else {
      right := "";
    }
  }
}
