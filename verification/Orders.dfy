/** Python's order on strings, and sorting by a strict total order. */
module Orders {
  /** `a < b` for strings: by code point, a proper prefix first. */
  predicate StrLess(a: string, b: string) {
    b != [] && (a == [] || a[0] < b[0] || (a[0] == b[0] && StrLess(a[1..], b[1..])))
  }

  predicate FirstDifference(a: string, b: string, k: nat) {
    k <= |a| && k <= |b| && a[..k] == b[..k] && a != b && (k < |a| && k < |b| ==> a[k] != b[k])
  }

  lemma {:induction false} StrLessIrreflexive(a: string)
    ensures !StrLess(a, a)
    decreases |a|
  {
    if a != [] { StrLessIrreflexive(a[1..]); }
  }

  lemma {:induction false} StrLessTransitive(a: string, b: string, c: string)
    requires StrLess(a, b) && StrLess(b, c)
    ensures StrLess(a, c)
    decreases |b|
  {
    if a != [] && a[0] == b[0] && b[0] == c[0] { StrLessTransitive(a[1..], b[1..], c[1..]); }
  }

  lemma {:induction false} StrLessTotal(a: string, b: string)
    ensures a == b || StrLess(a, b) || StrLess(b, a)
    decreases |a|
  {
    if a != [] && b != [] && a[0] == b[0] {
      StrLessTotal(a[1..], b[1..]);
      assert a == [a[0]] + a[1..] && b == [b[0]] + b[1..];
    }
  }

  /** The first difference decides: there `a` ends, or has the smaller code point. */
  lemma {:induction false} StrLessExact(a: string, b: string)
    ensures StrLess(a, b) <==>
      exists k: nat :: FirstDifference(a, b, k) && (k == |a| || (k < |b| && (a[k] as int) < (b[k] as int)))
    decreases |a|
  {
    if a == [] || b == [] || a[0] != b[0] {
      assert a != b ==> FirstDifference(a, b, 0);
    } else {
      StrLessExact(a[1..], b[1..]);
      if k: nat :| FirstDifference(a[1..], b[1..], k) && (k == |a[1..]| || (k < |b[1..]| && a[1..][k] < b[1..][k])) {
        assert a[..k + 1] == [a[0]] + a[1..][..k] && b[..k + 1] == [b[0]] + b[1..][..k];
        assert FirstDifference(a, b, k + 1);
      }
      if k: nat :| FirstDifference(a, b, k) && (k == |a| || (k < |b| && a[k] < b[k])) {
        assert k > 0;
        assert a[1..][..k - 1] == a[..k][1..] && b[1..][..k - 1] == b[..k][1..];
        assert FirstDifference(a[1..], b[1..], k - 1);
      }
    }
  }

  // ----- sorting -----

  /** What Python needs of a key order for the result of sorting to be determined. */
  ghost predicate StrictTotal<T(!new)>(less: (T, T) -> bool) {
    && (forall x :: !less(x, x))
    && (forall x, y :: x == y || less(x, y) || less(y, x))
    && (forall x, y, z :: less(x, y) && less(y, z) ==> less(x, z))
  }

  predicate Ascending<T>(less: (T, T) -> bool, s: seq<T>) {
    forall i, j :: 0 <= i < j < |s| ==> less(s[i], s[j])
  }

  predicate Distinct<T(==)>(s: seq<T>) {
    forall i, j :: 0 <= i < j < |s| ==> s[i] != s[j]
  }

  function Insert<T>(less: (T, T) -> bool, x: T, s: seq<T>): seq<T> {
    if s == [] || less(x, s[0]) then [x] + s else [s[0]] + Insert(less, x, s[1..])
  }

  /** Stable sorting, one element after another. */
  function SortBy<T>(less: (T, T) -> bool, s: seq<T>): seq<T> {
    if s == [] then [] else Insert(less, s[|s| - 1], SortBy(less, s[..|s| - 1]))
  }

  lemma Compare<T(!new)>(less: (T, T) -> bool, x: T, y: T)
    requires StrictTotal(less)
    ensures x == y || less(x, y) || less(y, x)
    ensures !(less(x, y) && less(y, x))
  {
    assert !less(x, x);
  }

  lemma Chain<T(!new)>(less: (T, T) -> bool, x: T, y: T, z: T)
    requires StrictTotal(less) && less(x, y) && less(y, z)
    ensures less(x, z)
  {
  }

  /** Prepending something below the head keeps the order. */
  lemma BelowHead<T(!new)>(less: (T, T) -> bool, x: T, s: seq<T>)
    requires StrictTotal(less) && Ascending(less, s) && (s == [] || less(x, s[0]))
    ensures Ascending(less, [x] + s)
  {
    hide StrictTotal;
    forall j | 0 <= j < |s| ensures less(x, s[j]) {
      if j > 0 { Chain(less, x, s[0], s[j]); }
    }
  }

  lemma {:induction false} InsertKeeps<T(!new)>(less: (T, T) -> bool, x: T, s: seq<T>)
    requires StrictTotal(less) && Ascending(less, s) && x !in s
    ensures var r := Insert(less, x, s); Ascending(less, r) && multiset(r) == multiset(s) + multiset{x}
    ensures var r := Insert(less, x, s); r != [] && (r[0] == x || (s != [] && r[0] == s[0]))
    decreases |s|
  {
    hide StrictTotal;
    if s == [] || less(x, s[0]) {
      BelowHead(less, x, s);
    } else {
      InsertKeeps(less, x, s[1..]);
      assert s == [s[0]] + s[1..];
      Compare(less, x, s[0]);
      BelowHead(less, s[0], Insert(less, x, s[1..]));
    }
  }

  /** Sequences with the same elements contain the same elements. */
  lemma SameMembers<T>(a: seq<T>, b: seq<T>, x: T)
    requires multiset(a) == multiset(b)
    ensures |a| == |b| && (x in a <==> x in b)
  {
    assert |multiset(a)| == |multiset(b)|;
    assert x in a <==> x in multiset(a);
    assert x in b <==> x in multiset(b);
  }

  lemma {:induction false} SortByKeeps<T(!new)>(less: (T, T) -> bool, s: seq<T>)
    requires StrictTotal(less) && Distinct(s)
    ensures var r := SortBy(less, s); Ascending(less, r) && multiset(r) == multiset(s)
    decreases |s|
  {
    if s != [] {
      hide StrictTotal, Ascending, Insert;
      var k := |s| - 1;
      SortByKeeps(less, s[..k]);
      assert s == s[..k] + [s[k]];
      SameMembers(SortBy(less, s[..k]), s[..k], s[k]);
      InsertKeeps(less, s[k], SortBy(less, s[..k]));
    }
  }

  /** Nothing in an ascending sequence is below its head. */
  lemma HeadIsLeast<T(!new)>(less: (T, T) -> bool, a: seq<T>, x: T)
    requires Ascending(less, a)
    ensures x in a ==> x == a[0] || less(a[0], x)
  {
  }

  lemma TailMembers<T>(a: seq<T>)
    requires a != []
    ensures multiset(a[1..]) == multiset(a) - multiset{a[0]}
  {
    assert a == [a[0]] + a[1..];
  }

  lemma AscendingHead<T(!new)>(less: (T, T) -> bool, a: seq<T>, b: seq<T>)
    requires StrictTotal(less) && Ascending(less, a) && Ascending(less, b) && multiset(a) == multiset(b) && a != []
    ensures b != [] && a[0] == b[0] && multiset(a[1..]) == multiset(b[1..])
  {
    hide StrictTotal, Ascending;
    SameMembers(a, b, a[0]);
    SameMembers(a, b, b[0]);
    HeadIsLeast(less, b, a[0]);
    HeadIsLeast(less, a, b[0]);
    Compare(less, a[0], b[0]);
    TailMembers(a);
    TailMembers(b);
  }

  /** There is one way to put given elements in ascending order. */
  lemma {:induction false} AscendingIsUnique<T(!new)>(less: (T, T) -> bool, a: seq<T>, b: seq<T>)
    requires StrictTotal(less) && Ascending(less, a) && Ascending(less, b) && multiset(a) == multiset(b)
    ensures a == b
    decreases |a|
  {
    if a == [] {
      assert |multiset(a)| == |multiset(b)|;
    } else {
      AscendingHead(less, a, b);
      AscendingIsUnique(less, a[1..], b[1..]);
      assert a == [a[0]] + a[1..] && b == [b[0]] + b[1..];
    }
  }

  /** So sorting does not depend on the order of the input. */
  lemma {:induction false} SortIgnoresOrder<T(!new)>(less: (T, T) -> bool, s: seq<T>, t: seq<T>)
    requires StrictTotal(less) && Distinct(s) && Distinct(t) && multiset(s) == multiset(t)
    ensures SortBy(less, s) == SortBy(less, t)
  {
    SortByKeeps(less, s);
    SortByKeeps(less, t);
    AscendingIsUnique(less, SortBy(less, s), SortBy(less, t));
  }

  lemma AscendingNil<T(!new)>(less: (T, T) -> bool)
    ensures Ascending<T>(less, [])
  {
  }

  lemma {:induction false} InsertMembers<T(!new)>(less: (T, T) -> bool, x: T, s: seq<T>)
    ensures var r := Insert(less, x, s); |r| == |s| + 1 && forall y :: y in r <==> y == x || y in s
    decreases |s|
  {
    if s != [] && !less(x, s[0]) { InsertMembers(less, x, s[1..]); }
  }

  /** The elements of a set, sorted; `AscendingIsUnique` says that this determines the sequence. */
  ghost function SortedSet<T(!new)>(less: (T, T) -> bool, s: set<T>): (r: seq<T>)
    requires StrictTotal(less)
    ensures Ascending(less, r) && |r| == |s| && forall x :: x in r <==> x in s
  {
    hide StrictTotal, Ascending, Insert;
    if s == {} then
      AscendingNil(less);
      []
    else
      var x :| x in s;
      var rest := SortedSet(less, s - {x});
      InsertKeeps(less, x, rest);
      var r := Insert(less, x, rest);
      InsertMembers(less, x, rest);
      r
  }

  lemma {:induction false} DistinctCount<T>(s: seq<T>)
    requires Distinct(s)
    ensures |set x | x in s| == |s|
    decreases |s|
  {
    if s == [] {
      assert (set x | x in s) == {};
    } else {
      var k := |s| - 1;
      DistinctCount(s[..k]);
      assert s == s[..k] + [s[k]];
      assert (set x | x in s) == (set x | x in s[..k]) + {s[k]};
    }
  }

  /** The place of an element is the number of those below it. */
  lemma PlaceIsRank<T(!new)>(less: (T, T) -> bool, s: seq<T>, j: nat, below: set<T>)
    requires StrictTotal(less) && Ascending(less, s) && j < |s|
    requires forall x :: x in below <==> x in s && less(x, s[j])
    ensures |below| == j
  {
    forall i, k | 0 <= i < k < |s| ensures s[i] != s[k] { Compare(less, s[i], s[k]); }
    forall x ensures x in below <==> x in s[..j] {
      if x in s && less(x, s[j]) {
        var i :| 0 <= i < |s| && s[i] == x;
        Compare(less, s[i], s[j]);
        assert i < j;
        assert s[..j][i] == x;
      }
    }
    assert below == set x | x in s[..j];
    DistinctCount(s[..j]);
  }
}
