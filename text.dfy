/** Searching and splitting strings on a separator character. */
module Text {
  import opened Wrappers

  /** Position of the first `c` in `s`. */
  function IndexOf(s: string, c: char): (r: Option<nat>)
    ensures r.Some? ==> r.value < |s| && s[r.value] == c && c !in s[..r.value]
    ensures r.None? ==> c !in s
  {
    if s == [] then None
    else if s[0] == c then Some(0)
    else match IndexOf(s[1..], c)
      case None => None
      case Some(i) => assert s[..i + 1] == [s[0]] + s[1..][..i]; Some(i + 1)
  }

  /** A `c` placed after text free of `c` is the first one. */
  lemma {:induction false} IndexOfAfter(field: string, rest: string, c: char)
    requires c !in field && |rest| > 0 && rest[0] == c
    ensures IndexOf(field + rest, c) == Some(|field|)
  {
    if field != [] {
      assert (field + rest)[1..] == field[1..] + rest;
      IndexOfAfter(field[1..], rest, c);
    }
  }

  /** Python's str.split(sep) for a one-character separator. */
  function Split(s: string, sep: char): (parts: seq<string>)
    ensures |parts| >= 1
    ensures forall i :: 0 <= i < |parts| ==> sep !in parts[i]
    decreases |s|
  {
    match IndexOf(s, sep)
    case None => [s]
    case Some(i) => [s[..i]] + Split(s[i + 1..], sep)
  }

  /** Splitting `field + sep + rest` peels off `field` when it holds no separator. */
  lemma SplitCons(field: string, sep: char, rest: string)
    requires sep !in field
    ensures Split(field + [sep] + rest, sep) == [field] + Split(rest, sep)
  {
    var s := field + [sep] + rest;
    assert s == field + ([sep] + rest);
    IndexOfAfter(field, [sep] + rest, sep);
    assert s[..|field|] == field;
    assert s[|field| + 1..] == rest;
  }

  /** `fields[0] + sep + fields[1] + ... + sep + fields[n-1]`, Python's str.join. */
  function Join(fields: seq<string>, sep: char): string
    requires |fields| >= 1
  {
    if |fields| == 1 then fields[0] else fields[0] + [sep] + Join(fields[1..], sep)
  }

  /** Splitting a join recovers the fields, as long as none of them holds the separator. */
  lemma {:induction false} SplitJoin(fields: seq<string>, sep: char)
    requires |fields| >= 1
    requires forall i :: 0 <= i < |fields| ==> sep !in fields[i]
    ensures Split(Join(fields, sep), sep) == fields
  {
    if |fields| == 1 {
      assert IndexOf(fields[0], sep).None?;
    } else {
      SplitCons(fields[0], sep, Join(fields[1..], sep));
      SplitJoin(fields[1..], sep);
    }
  }
}
