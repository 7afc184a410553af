/**
 The string operations two sides of a wire must agree on: strings.Join, strings.Split, the byte order of
 sort.Strings, and the "+" trimming of kernel versions.
 */
module Text {

  /** strings.Join with a one-character separator. */
  function Join(parts: seq<string>, sep: char): string {
    if parts == [] then ""
    else if |parts| == 1 then parts[0]
    else parts[0] + [sep] + Join(parts[1..], sep)
  }

  /** strings.Split with a one-character separator; the empty string splits into one empty part. */
  function Split(s: string, sep: char): (parts: seq<string>)
    ensures parts != []
    ensures forall p :: p in parts ==> sep !in p
  {
    if s == "" then [""]
    else
      var rest := Split(s[1..], sep);
      if s[0] == sep then [""] + rest else [[s[0]] + rest[0]] + rest[1..]
  }

  /** strings.TrimSuffix(s, "+"). */
  function TrimPlus(s: string): string {
    if s != "" && s[|s| - 1] == '+' then s[..|s| - 1] else s
  }

  /** A trailing plus goes, one only, and nothing else. */
  lemma TrimPlusMeans(s: string)
    ensures TrimPlus(s + "+") == s
    ensures s == "" || s[|s| - 1] != '+' ==> TrimPlus(s) == s
  {
  }

  /** Joining puts the separator between the parts, in their order. */
  lemma {:induction false} JoinAppends(parts: seq<string>, last: string, sep: char)
    ensures Join(parts + [last], sep) == if parts == [] then last else Join(parts, sep) + [sep] + last
  {
    if parts == [] {
      assert parts + [last] == [last];
    } else {
      JoinAppends(parts[1..], last, sep);
      assert (parts + [last])[1..] == parts[1..] + [last];
      if |parts| > 1 {
        assert parts[0] + [sep] + (Join(parts[1..], sep) + [sep] + last)
            == parts[0] + [sep] + Join(parts[1..], sep) + [sep] + last;
      }
    }
  }

  lemma {:induction false} SplitPrefix(head: string, tail: string, sep: char)
    requires sep !in head
    ensures Split(head + tail, sep) == [head + Split(tail, sep)[0]] + Split(tail, sep)[1..]
  {
    var parts := Split(tail, sep);
    if head == "" {
      assert head + tail == tail;
      assert head + parts[0] == parts[0];
      assert parts == [parts[0]] + parts[1..];
    } else {
      assert (head + tail)[1..] == head[1..] + tail;
      SplitPrefix(head[1..], tail, sep);
      assert head[0] != sep;
      assert [head[0]] + (head[1..] + parts[0]) == head + parts[0];
      assert ([head[1..] + parts[0]] + parts[1..])[1..] == parts[1..];
    }
  }

  lemma {:induction false} SplitOfJoin(parts: seq<string>, sep: char)
    requires parts != []
    requires forall p :: p in parts ==> sep !in p
    ensures Split(Join(parts, sep), sep) == parts
  {
    if |parts| == 1 {
      SplitPrefix(parts[0], "", sep);
      assert parts[0] + "" == parts[0];
    } else {
      var tail := [sep] + Join(parts[1..], sep);
      assert tail[1..] == Join(parts[1..], sep);
      SplitOfJoin(parts[1..], sep);
      SplitPrefix(parts[0], tail, sep);
      assert parts[0] + [sep] + Join(parts[1..], sep) == parts[0] + tail;
      assert Split(tail, sep) == [""] + parts[1..];
      assert parts[0] + "" == parts[0];
      assert [parts[0]] + ([""] + parts[1..])[1..] == parts;
    }
  }

  lemma JoinPrefix(first: string, rest: seq<string>, c: char, sep: char)
    ensures Join([[c] + first] + rest, sep) == [c] + Join([first] + rest, sep)
  {
    var (parts, longer) := ([first] + rest, [[c] + first] + rest);
    assert parts[1..] == rest == longer[1..];
    assert [c] + first + [sep] + Join(rest, sep) == [c] + (first + [sep] + Join(rest, sep));
  }

  /** Joining what was split gives any string back. */
  lemma {:induction false} JoinOfSplit(s: string, sep: char)
    ensures Join(Split(s, sep), sep) == s
  {
    if s != "" {
      JoinOfSplit(s[1..], sep);
      var rest := Split(s[1..], sep);
      if s[0] == sep {
        assert ([""] + rest)[1..] == rest;
        assert "" + [sep] + s[1..] == s;
      } else {
        JoinPrefix(rest[0], rest[1..], s[0], sep);
        assert [rest[0]] + rest[1..] == rest;
      }
    }
  }

  /** The wire round trip holds exactly for the non-empty lists whose parts do not contain the separator. */
  lemma RoundTrip(parts: seq<string>, sep: char)
    ensures Split(Join(parts, sep), sep) == parts <==> parts != [] && forall p :: p in parts ==> sep !in p
  {
    if parts != [] && forall p :: p in parts ==> sep !in p {
      SplitOfJoin(parts, sep);
    }
  }

  // ---- The order of sort.Strings -------------------------------------------------------------------

  /** Lexicographic order; for UTF-8 the order of code points is the byte order Go compares by. */
  predicate AtMost(a: string, b: string) {
    a == "" || (b != "" && (a[0] < b[0] || (a[0] == b[0] && AtMost(a[1..], b[1..]))))
  }

  /** a comes before b where they first differ, or has run out there. */
  ghost predicate Precedes(a: string, b: string, i: nat) {
    i <= |a| && i <= |b| && a[..i] == b[..i] && (i == |a| || (i < |b| && a[i] < b[i]))
  }

  lemma {:induction false} AtMostMeans(a: string, b: string)
    ensures AtMost(a, b) <==> exists i :: Precedes(a, b, i)
  {
    if a == "" {
      assert Precedes(a, b, 0);
    } else if b != "" && a[0] == b[0] {
      AtMostMeans(a[1..], b[1..]);
      assert a == [a[0]] + a[1..] && b == [b[0]] + b[1..];
      if i: nat :| Precedes(a[1..], b[1..], i) {
        assert a[..i + 1] == [a[0]] + a[1..][..i] && b[..i + 1] == [b[0]] + b[1..][..i];
        assert Precedes(a, b, i + 1);
      }
      if i: nat :| Precedes(a, b, i) {
        assert !Precedes(a, b, 0);
        var k: nat := i - 1;
        assert a[1..][..k] == a[..i][1..] && b[1..][..k] == b[..i][1..];
        assert Precedes(a[1..], b[1..], k);
      }
    } else if b != "" {
      if a[0] < b[0] { assert Precedes(a, b, 0); }
      forall i: nat | 0 < i <= |a| && i <= |b| ensures a[..i] != b[..i] {
        assert a[..i][0] != b[..i][0];
      }
    }
  }

  lemma {:induction false} AtMostTotal(a: string, b: string)
    ensures AtMost(a, b) || AtMost(b, a)
  {
    if a != "" && b != "" && a[0] == b[0] {
      AtMostTotal(a[1..], b[1..]);
    }
  }

  lemma {:induction false} AtMostAntisymmetric(a: string, b: string)
    requires AtMost(a, b) && AtMost(b, a)
    ensures a == b
  {
    if a != "" && b != "" {
      AtMostAntisymmetric(a[1..], b[1..]);
      assert a == [a[0]] + a[1..] && b == [b[0]] + b[1..];
    }
  }

  lemma {:induction false} AtMostTransitive(a: string, b: string, c: string)
    requires AtMost(a, b) && AtMost(b, c)
    ensures AtMost(a, c)
  {
    if a != "" && a[0] == b[0] == c[0] {
      AtMostTransitive(a[1..], b[1..], c[1..]);
    }
  }

  ghost predicate Sorted(xs: seq<string>) {
    forall i, j :: 0 <= i < j < |xs| ==> AtMost(xs[i], xs[j])
  }

  ghost predicate Distinct<T>(xs: seq<T>) {
    forall i, j :: 0 <= i < j < |xs| ==> xs[i] != xs[j]
  }

  /** xs is the sorted listing of the set s, every member once. */
  ghost predicate Lists(xs: seq<string>, s: set<string>) {
    Sorted(xs) && Distinct(xs) && forall x :: x in xs <==> x in s
  }

  lemma SomeMember(xs: seq<string>)
    ensures xs == [] || exists x :: x in xs
  {
    if xs != [] {
      assert xs[0] in xs;
    }
  }

  /** A set has only one sorted listing, which is why publishing the sorted kernels is canonical. */
  lemma {:induction false} ListsUnique(xs: seq<string>, ys: seq<string>, s: set<string>)
    requires Lists(xs, s) && Lists(ys, s)
    ensures xs == ys
    decreases |xs|
  {
    if xs == [] {
      SomeMember(ys);
      assert forall x :: x in ys ==> x in xs;
    } else {
      assert xs[0] in ys;
      assert ys != [];
      var i :| 0 <= i < |ys| && ys[i] == xs[0];
      assert ys[0] in xs;
      var j :| 0 <= j < |xs| && xs[j] == ys[0];
      if i != 0 {
        assert AtMost(ys[0], xs[0]);
        assert AtMost(xs[0], ys[0]);
        AtMostAntisymmetric(xs[0], ys[0]);
      }
      var rest := s - {xs[0]};
      assert Lists(xs[1..], rest) by { TailLists(xs, s); }
      assert Lists(ys[1..], rest) by { TailLists(ys, s); }
      ListsUnique(xs[1..], ys[1..], rest);
      assert xs == [xs[0]] + xs[1..] && ys == [ys[0]] + ys[1..];
    }
  }

  lemma TailLists(xs: seq<string>, s: set<string>)
    requires xs != [] && Lists(xs, s)
    ensures Lists(xs[1..], s - {xs[0]})
  {
    forall x ensures x in xs[1..] <==> x in s - {xs[0]} {
      if x in s - {xs[0]} {
        var i :| 0 <= i < |xs| && xs[i] == x;
        assert xs[1..][i - 1] == x;
      }
    }
  }

  /** Stands for sort.Strings on a slice of distinct strings. */
  method Sort(unsorted: seq<string>) returns (sorted: seq<string>)
    requires Distinct(unsorted)
    ensures Lists(sorted, set x | x in unsorted)
  {
    sorted := [];
    var i := 0;
    while i < |unsorted|
      invariant 0 <= i <= |unsorted|
      invariant Lists(sorted, set x | x in unsorted[..i])
    {
      var x := unsorted[i];
      assert x !in unsorted[..i];
      ghost var before := sorted;
      var at := 0;
      while at < |sorted| && AtMost(sorted[at], x)
        invariant 0 <= at <= |sorted|
        invariant forall j :: 0 <= j < at ==> AtMost(sorted[j], x)
      {
        at := at + 1;
      }
      InsertKeepsOrder(sorted, at, x);
      sorted := sorted[..at] + [x] + sorted[at..];
      assert unsorted[..i + 1] == unsorted[..i] + [x];
      i := i + 1;
      assert forall y :: y in sorted <==> y in before || y == x by {
        assert before == before[..at] + before[at..];
      }
    }
    assert unsorted[..i] == unsorted;
  }

  lemma InsertKeepsOrder(xs: seq<string>, at: nat, x: string)
    requires Sorted(xs) && Distinct(xs) && x !in xs && at <= |xs|
    requires forall j :: 0 <= j < at ==> AtMost(xs[j], x)
    requires at < |xs| ==> !AtMost(xs[at], x)
    ensures Sorted(xs[..at] + [x] + xs[at..]) && Distinct(xs[..at] + [x] + xs[at..])
  {
    forall j | at <= j < |xs| ensures AtMost(x, xs[j]) {
      AtMostTotal(xs[at], x);
      if at < j { AtMostTransitive(x, xs[at], xs[j]); }
    }
  }
}
