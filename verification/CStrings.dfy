/** C strings in buffers, `get_strlen` and `appendPath` (Mypintool/source/launcher/utils.c). */
module CStrings {
  type Byte = n: int | 0 <= n < 256 witness 0

  const PATH_MAX_SIZE: nat := 4096

  /** A `char*`: null, or a position in a buffer. */
  datatype Ptr = Null | At(buffer: array<Byte>, offset: nat)

  // ----- strings in memory -----

  /** The bytes from `off` to the first NUL. */
  function StringAt(memory: seq<Byte>, off: nat): (s: seq<Byte>)
    decreases |memory| - off
  {
    if off < |memory| && memory[off] != 0 then [memory[off]] + StringAt(memory, off + 1) else []
  }

  /** There is a NUL at or after `off`. */
  predicate Terminated(memory: seq<Byte>, off: nat) {
    off + |StringAt(memory, off)| < |memory|
  }

  lemma {:induction false} StringIs(memory: seq<Byte>, off: nat, end: nat)
    requires off <= end <= |memory| && (end < |memory| ==> memory[end] == 0)
    requires forall k :: off <= k < end ==> memory[k] != 0
    ensures StringAt(memory, off) == memory[off..end]
    decreases end - off
  {
    if off < end {
      StringIs(memory, off + 1, end);
    }
  }

  lemma {:induction false} StringEnds(memory: seq<Byte>, off: nat)
    requires Terminated(memory, off)
    ensures var end := off + |StringAt(memory, off)|;
      && end < |memory| && memory[end] == 0 && StringAt(memory, off) == memory[off..end]
      && forall k :: off <= k < end ==> memory[k] != 0
    decreases |memory| - off
  {
    if memory[off] != 0 {
      StringEnds(memory, off + 1);
    }
  }

  lemma {:induction false} TextThenNul(memory: seq<Byte>, text: seq<Byte>)
    requires memory == text + [0] && 0 !in text
    ensures Terminated(memory, 0) && StringAt(memory, 0) == text
  {
    assert forall k :: 0 <= k < |text| ==> memory[k] == text[k] && text[k] in text;
    StringIs(memory, 0, |text|);
  }

  ghost predicate Good(p: Ptr)
    reads if p.At? then {p.buffer} else {}
  {
    p.At? ==> Terminated(p.buffer[..], p.offset)
  }

  ghost function Chars(p: Ptr): seq<Byte>
    reads if p.At? then {p.buffer} else {}
  {
    if p.Null? then [] else StringAt(p.buffer[..], p.offset)
  }

  // ----- get_strlen -----

  /** `strnlen` up to `PATH_MAX_SIZE`; the source asserts that the result is positive. */
  method GetStrlen(p: Ptr) returns (len: nat)
    requires p.At? && Good(p) && Chars(p) != []
    ensures len > 0 && len == if |Chars(p)| <= 4096 then |Chars(p)| else 4096
  {
    StringEnds(p.buffer[..], p.offset);
    hide StringAt, Terminated;
    len := 0;
    while len < PATH_MAX_SIZE && p.buffer[p.offset + len] != 0
      invariant len <= PATH_MAX_SIZE && len <= |Chars(p)|
    {
      len := len + 1;
    }
  }

  // ----- appendPath -----

  /** What the assertion in `get_strlen` asks of an argument of `appendPath`: null, or not empty. */
  ghost predicate Asked(p: Ptr)
    reads if p.At? then {p.buffer} else {}
  {
    p.At? ==> Good(p) && Chars(p) != []
  }

  /** Such an argument that `get_strlen` does not cut. */
  ghost predicate Countable(p: Ptr)
    reads if p.At? then {p.buffer} else {}
  {
    Asked(p) && |Chars(p)| <= PATH_MAX_SIZE
  }

  /** `strcpy(dst + at, src)`, which also is `strcat` when the string in `dst` ends at `at`. */
  method CopyTo(dst: array<Byte>, at: nat, src: Ptr)
    requires src.At? && Good(src) && src.buffer != dst && at + |Chars(src)| < dst.Length
    modifies dst
    ensures dst[..] == old(dst[..])[..at] + Chars(src) + [0] + old(dst[..])[at + |Chars(src)| + 1..]
  {
    ghost var s := Chars(src);
    StringEnds(src.buffer[..], src.offset);
    var k := 0;
    while src.buffer[src.offset + k] != 0
      invariant k <= |s|
      invariant src.buffer[..] == old(src.buffer[..])
      invariant forall j :: 0 <= j < dst.Length && !(at <= j < at + k) ==> dst[j] == old(dst[j])
      invariant forall j :: at <= j < at + k ==> dst[j] == s[j - at]
      decreases |s| - k
    {
      dst[at + k] := src.buffer[src.offset + k];
      k := k + 1;
    }
    dst[at + k] := 0;
  }

  /** The end of the string in `dst`, which `strcat` looks for. */
  method EndOf(dst: array<Byte>) returns (end: nat)
    requires Terminated(dst[..], 0)
    ensures end == |StringAt(dst[..], 0)|
  {
    StringEnds(dst[..], 0);
    end := 0;
    while dst[end] != 0
      invariant end <= |StringAt(dst[..], 0)|
      decreases |StringAt(dst[..], 0)| - end
    {
      end := end + 1;
    }
  }

  function Zeros(n: nat): seq<Byte> {
    seq(n, _ => 0)
  }

  /** The block is `text` and then only NULs, at least one. */
  ghost predicate Holds(p: array<Byte>, text: seq<Byte>)
    reads p
  {
    0 !in text && |text| < p.Length && p[..] == text + Zeros(p.Length - |text|)
  }

  lemma HoldsNothing(p: array<Byte>)
    requires p.Length > 0 && forall k :: 0 <= k < p.Length ==> p[k] == 0
    ensures Holds(p, [])
  {
  }

  lemma {:induction false} HoldsString(p: array<Byte>, text: seq<Byte>)
    requires Holds(p, text)
    ensures Terminated(p[..], 0) && StringAt(p[..], 0) == text
    ensures p.Length == |text| + 1 ==> p[..] == text + [0]
  {
    assert forall k :: 0 <= k < |text| ==> p[..][k] == text[k] && text[k] in text;
    StringIs(p[..], 0, |text|);
  }

  /** Putting a string and a NUL where the first NUL of a block is. */
  lemma JoinZeros(before: seq<Byte>, s: seq<Byte>, n: nat)
    requires |before| + |s| < n
    ensures var block := before + Zeros(n - |before|);
      block[..|before|] + s + [0] + block[|before| + |s| + 1..] == before + s + Zeros(n - |before| - |s|)
  {
    var block := before + Zeros(n - |before|);
    assert block[..|before|] == before;
    assert [0] + block[|before| + |s| + 1..] == Zeros(n - |before| - |s|);
  }

  lemma GoodChars(s: Ptr)
    requires Countable(s)
    ensures s.At? ==> Good(s) && 0 !in Chars(s)
  {
    if s.At? { StringEnds(s.buffer[..], s.offset); }
  }

  /** `if (s) strcat(p, s)` */
  method Append(p: array<Byte>, s: Ptr, ghost before: seq<Byte>)
    requires Countable(s) && (s.At? ==> s.buffer != p)
    requires Holds(p, before) && |before| + |Chars(s)| < p.Length
    modifies p
    ensures Holds(p, before + Chars(s))
  {
    hide StringAt, Terminated, Countable, Good, Zeros;
    GoodChars(s);
    if s.At? {
      HoldsString(p, before);
      JoinZeros(before, Chars(s), p.Length);
      var end := EndOf(p);
      CopyTo(p, end, s);
    } else {
      assert before + Chars(s) == before;
    }
  }

  /** The block has room for the three strings and a terminator exactly when `get_strlen` cuts none of them. */
  method BlockSize(s1: Ptr, s2: Ptr, s3: Ptr) returns (n: nat)
    requires Asked(s1) && Asked(s2) && Asked(s3)
    ensures n <= 1 + |Chars(s1)| + |Chars(s2)| + |Chars(s3)|
    ensures n == 1 + |Chars(s1)| + |Chars(s2)| + |Chars(s3)| <==> Countable(s1) && Countable(s2) && Countable(s3)
  {
    n := 1;
    if s1.At? { var l := GetStrlen(s1); n := n + l; }
    if s2.At? { var l := GetStrlen(s2); n := n + l; }
    if s3.At? { var l := GetStrlen(s3); n := n + l; }
  }

  /**
   `appendPath`: a new block of exactly the needed size holding the three strings one after the other and
   their terminator.
   */
  method AppendPath(s1: Ptr, s2: Ptr, s3: Ptr) returns (p: array<Byte>)
    requires Countable(s1) && Countable(s2) && Countable(s3)
    ensures fresh(p) && p[..] == Chars(s1) + Chars(s2) + Chars(s3) + [0]
    ensures Terminated(p[..], 0) && StringAt(p[..], 0) == Chars(s1) + Chars(s2) + Chars(s3)
  {
    hide StringAt, Terminated, Good, Holds;
    ghost var a, b, c := Chars(s1), Chars(s2), Chars(s3);
    var n := BlockSize(s1, s2, s3);
    p := new Byte[n](_ => 0);
    HoldsNothing(p);
    Append(p, s1, []);
    assert [] + a == a;
    Append(p, s2, a);
    Append(p, s3, a + b);
    HoldsString(p, a + b + c);
  }
}
