/**
 The duplicate-removing part of `se.uniqueSort` (Mypintool/doc/html/jquery.js, line 2), after `e.sort(D)`.
 Elements stand for nodes by their place in document order, so equal numbers are the same node.
 */
module UniqueSort {
  predicate Sorted(s: seq<int>) {
    forall i, j :: 0 <= i < j < |s| ==> s[i] <= s[j]
  }

  predicate Increasing(s: seq<int>) {
    forall i, j :: 0 <= i < j < |s| ==> s[i] < s[j]
  }

  ghost predicate SameElements(s: seq<int>, r: seq<int>) {
    forall x :: x in s <==> x in r
  }

  /** `s` without every element that equals its predecessor. */
  function Dedup(s: seq<int>): seq<int> {
    if |s| <= 1 then s
    else Dedup(s[..|s| - 1]) + if s[|s| - 2] == s[|s| - 1] then [] else [s[|s| - 1]]
  }

  lemma {:induction false} DedupLast(s: seq<int>, n: nat)
    requires 1 <= n && n + 1 == |s|
    ensures s[n - 1] == s[n] ==> Dedup(s) == Dedup(s[..n])
    ensures s[n - 1] != s[n] ==> Dedup(s) == Dedup(s[..n]) + [s[n]]
  {
    assert |s| - 1 == n;
  }

  lemma SortedPrefix(s: seq<int>, k: nat)
    requires Sorted(s) && k < |s|
    ensures Sorted(s[..k]) && forall x :: x in s[..k] ==> x <= s[k]
    ensures k > 0 ==> forall x :: x in s[..k] ==> x <= s[k - 1]
  {
  }

  lemma AppendKeeps(s: seq<int>, d: seq<int>, y: int)
    requires Increasing(d) && SameElements(s, d) && forall x :: x in s ==> x < y
    ensures Increasing(d + [y]) && SameElements(s + [y], d + [y])
  {
    forall i | 0 <= i < |d| ensures d[i] < y { assert d[i] in d; }
  }

  lemma RepeatKeeps(s: seq<int>, d: seq<int>, y: int)
    requires SameElements(s, d) && y in s
    ensures SameElements(s + [y], d)
  {
  }

  /** On a sorted array the result is strictly increasing and has the same elements. */
  lemma {:induction false} DedupSorted(s: seq<int>)
    requires Sorted(s)
    ensures Increasing(Dedup(s)) && SameElements(s, Dedup(s))
    decreases |s|
  {
    if |s| > 1 {
      hide Sorted, Increasing, SameElements;
      var k := |s| - 1;
      SortedPrefix(s, k);
      DedupSorted(s[..k]);
      assert s == s[..k] + [s[k]];
      DedupLast(s, k);
      assert s[..k][k - 1] == s[k - 1];
      hide Dedup;
      if s[k - 1] == s[k] {
        RepeatKeeps(s[..k], Dedup(s[..k]), s[k]);
      } else {
        assert s[k - 1] in s[..k];
        AppendKeeps(s[..k], Dedup(s[..k]), s[k]);
      }
    }
  }

  lemma HeadIsIn(b: seq<int>)
    ensures b != [] ==> b[0] in b
  {
  }

  lemma ButLast(a: seq<int>)
    requires a != [] && Increasing(a)
    ensures Increasing(a[..|a| - 1]) && forall x :: x in a[..|a| - 1] <==> x in a && x != a[|a| - 1]
  {
    assert a == a[..|a| - 1] + [a[|a| - 1]];
  }

  /** Those two properties leave only one result. */
  lemma {:induction false} IncreasingIsUnique(a: seq<int>, b: seq<int>)
    requires Increasing(a) && Increasing(b) && SameElements(a, b)
    ensures a == b
    decreases |a|
  {
    if a == [] {
      HeadIsIn(b);
    } else {
      assert a[0] in b && b != [];
      var i, j := |a| - 1, |b| - 1;
      assert a[i] in b && b[j] in a;
      var p :| 0 <= p < |b| && b[p] == a[i];
      var q :| 0 <= q < |a| && a[q] == b[j];
      assert a[i] == b[j];
      ButLast(a);
      ButLast(b);
      forall x ensures x in a[..i] <==> x in b[..j] { assert x in a <==> x in b; }
      IncreasingIsUnique(a[..i], b[..j]);
    }
  }

  /** Increasing indices below `n`. */
  predicate InRange(found: seq<nat>, n: nat) {
    && (forall k :: 0 <= k < |found| ==> found[k] < n)
    && (forall i, j :: 0 <= i < j < |found| ==> found[i] < found[j])
  }

  predicate Repeats(s: seq<int>, m: nat) { 1 <= m < |s| && s[m - 1] == s[m] }

  /** The indices the first loop has recorded after looking at positions below `n`. */
  predicate Recorded(s: seq<int>, found: seq<nat>, n: nat) {
    && InRange(found, |s|)
    && (forall k :: 0 <= k < |found| ==> 1 <= found[k] <= n && s[found[k] - 1] == s[found[k]])
    && (forall m :: 1 <= m <= n && Repeats(s, m) ==> m in found)
  }

  /** `s` without the positions in `found`, taken out from the last to the first. */
  function Spliced(s: seq<int>, found: seq<nat>): seq<int>
    requires InRange(found, |s|)
    decreases |found|
  {
    if found == [] then s
    else
      var m := found[|found| - 1];
      Spliced(s[..m] + s[m + 1..], found[..|found| - 1])
  }

  lemma MoveOver(s: seq<int>, n: nat, tail: seq<int>, d: seq<int>)
    requires n + 1 == |s|
    ensures s + tail == s[..n] + ([s[n]] + tail) && (d + [s[n]]) + tail == d + ([s[n]] + tail)
  {
  }

  lemma {:induction false} SplicedLast(s: seq<int>, found: seq<nat>, n: nat, tail: seq<int>)
    requires n + 1 == |s| && found != [] && found[|found| - 1] == n && InRange(found, |s|)
    ensures Spliced(s + tail, found) == Spliced(s[..n] + tail, found[..|found| - 1])
  {
    assert (s + tail)[..n] + (s + tail)[n + 1..] == s[..n] + tail;
  }

  lemma {:induction false} FewRecorded(found: seq<nat>, n: nat)
    requires InRange(found, n + 1) && forall k :: 0 <= k < |found| ==> 1 <= found[k]
    ensures |found| <= n
    decreases |found|
  {
    if found != [] {
      var k := |found| - 1;
      FewRecorded(found[..k], found[k] - 1);
    }
  }

  lemma LastIsGreatest(found: seq<nat>, n: nat, k: nat)
    requires InRange(found, n) && k < |found|
    ensures k < |found| - 1 ==> found[k] < found[|found| - 1]
  {
  }

  lemma RestPoints(s: seq<int>, found: seq<nat>, n: nat)
    requires 1 <= n && n + 1 == |s| && Recorded(s, found, n) && found != [] && found[|found| - 1] == n
    ensures var rest := found[..|found| - 1];
      InRange(rest, n) && forall k :: 0 <= k < |rest| ==> 1 <= rest[k] < n && s[..n][rest[k] - 1] == s[..n][rest[k]]
  {
    var rest := found[..|found| - 1];
    forall k | 0 <= k < |rest| ensures rest[k] == found[k] && found[k] < n { LastIsGreatest(found, |s|, k); }
  }

  lemma RestCovers(s: seq<int>, found: seq<nat>, n: nat, m: nat)
    requires 1 <= m < n && n + 1 == |s| && Recorded(s, found, n) && found != [] && found[|found| - 1] == n
    requires Repeats(s[..n], m)
    ensures m in found[..|found| - 1]
  {
    assert Repeats(s, m);
    assert found == found[..|found| - 1] + [n];
  }

  lemma LastRecorded(s: seq<int>, found: seq<nat>, n: nat)
    requires 1 <= n && n + 1 == |s| && Recorded(s, found, n) && s[n - 1] == s[n]
    ensures found != [] && found[|found| - 1] == n && Recorded(s[..n], found[..|found| - 1], n - 1)
  {
    assert Repeats(s, n);
    var k :| 0 <= k < |found| && found[k] == n;
    LastIsGreatest(found, |s|, k);
    RestPoints(s, found, n);
    forall m | 1 <= m <= n - 1 && Repeats(s[..n], m) ensures m in found[..|found| - 1] {
      RestCovers(s, found, n, m);
    }
  }

  lemma RecordedBelow(s: seq<int>, found: seq<nat>, n: nat)
    requires 1 <= n && n + 1 == |s| && Recorded(s, found, n)
    ensures s[n - 1] != s[n] ==> Recorded(s[..n], found, n - 1)
    ensures s[n - 1] == s[n] ==> found != [] && found[|found| - 1] == n && Recorded(s[..n], found[..|found| - 1], n - 1)
  {
    if s[n - 1] == s[n] {
      LastRecorded(s, found, n);
    } else {
      assert forall k :: 0 <= k < |found| ==> found[k] != n;
    }
  }

  /** Splicing out the recorded positions removes exactly the duplicates and leaves the rest of the array alone. */
  lemma {:induction false} SplicedIsDedup(s: seq<int>, found: seq<nat>, n: nat, tail: seq<int>)
    requires n + 1 == |s| && Recorded(s, found, n)
    ensures InRange(found, |s + tail|) && Spliced(s + tail, found) == Dedup(s) + tail
    decreases n
  {
    if n == 0 {
      FewRecorded(found, 0);
    } else {
      RecordedBelow(s, found, n);
      hide Recorded, InRange, Spliced, Dedup;
      DedupLast(s, n);
      if s[n - 1] == s[n] {
        SplicedIsDedup(s[..n], found[..|found| - 1], n - 1, tail);
        SplicedLast(s, found, n, tail);
      } else {
        SplicedIsDedup(s[..n], found, n - 1, [s[n]] + tail);
        MoveOver(s, n, tail, Dedup(s[..n]));
      }
    }
  }

  lemma RecordMore(s: seq<int>, found: seq<nat>, i: nat)
    requires 1 <= i < |s| && Recorded(s, found, i - 1) && s[i - 1] == s[i]
    ensures Recorded(s, found + [i], i)
  {
    assert forall m :: m in found ==> m in found + [i];
    assert (found + [i])[|found|] == i;
  }

  lemma {:induction false} WholeArray(s: seq<int>, found: seq<nat>)
    requires Recorded(s, found, |s|)
    ensures Spliced(s, found) == Dedup(s)
  {
    assert s + [] == s && Dedup(s) + [] == Dedup(s);
    if s == [] {
      FewRecorded(found, 0);
    } else {
      SplicedIsDedup(s, found, |s| - 1, []);
    }
  }

  class NodeList {
    var items: seq<int>

    /** `e.splice(i, 1)` */
    method Splice(i: nat)
      requires i < |items|
      modifies this
      ensures items == old(items)[..i] + old(items)[i + 1..]
    {
      items := items[..i] + items[i + 1..];
    }

    /** `while (t = e[i++]) t === e[i] && (r = n.push(i))` */
    method Collect() returns (found: seq<nat>)
      ensures Recorded(items, found, |items|)
    {
      found := [];
      var i := 0;
      while i < |items|
        invariant i <= |items| && Recorded(items, found, i)
      {
        i := i + 1;
        if i < |items| && items[i - 1] == items[i] {
          RecordMore(items, found, i);
          found := found + [i];
        }
      }
    }

    /** `while (r--) e.splice(n[r], 1)` */
    method SpliceAll(found: seq<nat>)
      requires InRange(found, |items|)
      modifies this
      ensures items == Spliced(old(items), found)
    {
      var r := |found|;
      assert found[..r] == found;
      while r > 0
        invariant 0 <= r <= |found| && InRange(found[..r], |items|)
        invariant Spliced(items, found[..r]) == Spliced(old(items), found)
      {
        r := r - 1;
        assert found[..r + 1][..r] == found[..r] && found[..r + 1][r] == found[r];
        Splice(found[r]);
      }
    }

    method RemoveDuplicates()
      modifies this
      ensures items == Dedup(old(items))
      ensures Sorted(old(items)) ==> Increasing(items) && SameElements(old(items), items)
    {
      var found := Collect();
      WholeArray(items, found);
      SpliceAll(found);
      if Sorted(old(items)) { DedupSorted(old(items)); }
    }
  }
}
