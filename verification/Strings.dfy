/** Python's `split` and `join` with a one-character separator. */
module Strings {

  /** `s.split(sep)` */
  function Split(sep: char, s: string): (parts: seq<string>)
    ensures parts != []
  {
    if s == "" then [""]
    else if s[0] == sep then [""] + Split(sep, s[1..])
    else
      var rest := Split(sep, s[1..]);
      [[s[0]] + rest[0]] + rest[1..]
  }

  /** `sep.join(parts)` */
  function Join(sep: char, parts: seq<string>): string
    requires parts != []
  {
    if |parts| == 1 then parts[0] else parts[0] + [sep] + Join(sep, parts[1..])
  }

  predicate Without(sep: char, s: string) { sep !in s }

  lemma {:induction false} JoinSplit(sep: char, s: string)
    ensures Join(sep, Split(sep, s)) == s && forall i :: 0 <= i < |Split(sep, s)| ==> Without(sep, Split(sep, s)[i])
  {
    if s == "" {
    } else {
      JoinSplit(sep, s[1..]);
      var rest := Split(sep, s[1..]);
      if s[0] == sep {
        assert Split(sep, s)[1..] == rest;
        assert s == "" + [sep] + s[1..];
      } else {
        assert Split(sep, s)[1..] == rest[1..];
        assert s == [s[0]] + s[1..];
        if |rest| > 1 {
          assert [s[0]] + (rest[0] + [sep] + Join(sep, rest[1..])) == ([s[0]] + rest[0]) + [sep] + Join(sep, rest[1..]);
        }
      }
    }
  }

  lemma {:induction false} SplitOne(sep: char, s: string)
    requires Without(sep, s)
    ensures Split(sep, s) == [s]
  {
    if s == "" {
    } else {
      SplitOne(sep, s[1..]);
      assert s == [s[0]] + s[1..];
    }
  }

  lemma {:induction false} SplitPrefix(sep: char, a: string, b: string)
    requires Without(sep, a)
    ensures Split(sep, a + [sep] + b) == [a] + Split(sep, b)
  {
    if a == "" {
      assert (a + [sep] + b)[1..] == b;
    } else {
      assert (a + [sep] + b)[1..] == a[1..] + [sep] + b;
      SplitPrefix(sep, a[1..], b);
      assert [a[0]] + a[1..] == a;
    }
  }

  lemma {:induction false} SplitJoin(sep: char, parts: seq<string>)
    requires parts != [] && forall i :: 0 <= i < |parts| ==> Without(sep, parts[i])
    ensures Split(sep, Join(sep, parts)) == parts
  {
    if |parts| == 1 {
      SplitOne(sep, parts[0]);
    } else {
      SplitPrefix(sep, parts[0], Join(sep, parts[1..]));
      SplitJoin(sep, parts[1..]);
      assert parts == [parts[0]] + parts[1..];
    }
  }
}
