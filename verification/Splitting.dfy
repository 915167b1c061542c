/** Cutting a sequence at every occurrence of a separator, and putting it together again. */
module Splitting {

  /** The length of the part of `s` before its first `sep`, or of all of `s`. */
  function UpTo<T(==)>(s: seq<T>, sep: T): (k: nat)
    ensures k <= |s| && sep !in s[..k] && (k < |s| ==> s[k] == sep)
  {
    if s == [] || s[0] == sep then 0
    else
      assert s[..1 + UpTo(s[1..], sep)] == [s[0]] + s[1..][..UpTo(s[1..], sep)];
      1 + UpTo(s[1..], sep)
  }

  function Split<T(==)>(s: seq<T>, sep: T): seq<seq<T>>
    decreases |s|
  {
    var k := UpTo(s, sep);
    if k == |s| then [s] else [s[..k]] + Split(s[k + 1..], sep)
  }

  function Join<T>(parts: seq<seq<T>>, sep: T): seq<T> {
    if parts == [] then [] else if |parts| == 1 then parts[0] else parts[0] + [sep] + Join(parts[1..], sep)
  }

  lemma {:induction false} SplitAtFirst<T>(s: seq<T>, sep: T)
    requires UpTo(s, sep) < |s|
    ensures Split(s, sep) == [s[..UpTo(s, sep)]] + Split(s[UpTo(s, sep) + 1..], sep)
  {
  }

  lemma {:induction false} SplitWhole<T>(s: seq<T>, sep: T)
    requires UpTo(s, sep) == |s|
    ensures Split(s, sep) == [s]
  {
  }

  /** Joining the parts with the separator gives the sequence back. */
  lemma {:induction false} JoinSplit<T>(s: seq<T>, sep: T)
    ensures Split(s, sep) != [] && Join(Split(s, sep), sep) == s && forall c :: c in Split(s, sep) ==> sep !in c
    decreases |s|
  {
    var k := UpTo(s, sep);
    if k == |s| {
      assert s[..k] == s;
    } else {
      JoinSplit(s[k + 1..], sep);
      assert Split(s, sep)[1..] == Split(s[k + 1..], sep);
      assert s == s[..k] + [sep] + s[k + 1..];
    }
  }

  lemma {:induction false} UpToIs<T>(s: seq<T>, sep: T, k: nat)
    requires k <= |s| && sep !in s[..k] && (k < |s| ==> s[k] == sep)
    ensures UpTo(s, sep) == k
    decreases k
  {
    if k > 0 {
      assert s[0] in s[..k];
      assert s[..k] == [s[0]] + s[1..][..k - 1];
      UpToIs(s[1..], sep, k - 1);
    }
  }

  /** Parts without the separator come back when what was joined is split. */
  lemma {:induction false} SplitJoin<T>(parts: seq<seq<T>>, sep: T)
    requires parts != [] && forall p :: p in parts ==> sep !in p
    ensures Split(Join(parts, sep), sep) == parts
    decreases |parts|
  {
    var s, first := Join(parts, sep), parts[0];
    assert first in parts;
    if |parts| == 1 {
      assert s[..|s|] == first;
      UpToIs(s, sep, |s|);
    } else {
      SplitJoin(parts[1..], sep);
      assert s[..|first|] == first;
      UpToIs(s, sep, |first|);
      assert s[|first| + 1..] == Join(parts[1..], sep);
    }
  }

  /** `as_posix` of a relative path with the given parts */
  function Posix(parts: seq<string>): string { Join(parts, '/') }
}
