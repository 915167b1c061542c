/** `convertToId` and `SearchResults.Search` (Mypintool/doc/html/search/search.js), over UTF-16 code units. */
module SearchCode {

  type Unit = n: int | 0 <= n < 0x10000

  const UNDERSCORE: Unit := 95
  const SPACE: Unit := 32

  // ----- the escape code -----

  /** `c.match(/[a-z0-9\u0080-\uFFFF]/)` */
  predicate Literal(c: Unit) { 97 <= c <= 122 || 48 <= c <= 57 || c >= 0x80 }

  function HexDigit(d: nat): Unit
    requires d < 16
  {
    if d < 10 then 48 + d else 87 + d
  }

  /** `cn.toString(16)` */
  function Hex(n: nat): seq<Unit> {
    if n < 16 then [HexDigit(n)] else Hex(n / 16) + [HexDigit(n % 16)]
  }

  function CodeUnit(c: Unit): seq<Unit> {
    if Literal(c) then [c]
    else if c < 16 then [UNDERSCORE, 48] + Hex(c)
    else [UNDERSCORE] + Hex(c)
  }

  function Code(s: seq<Unit>): seq<Unit> {
    if s == [] then [] else CodeUnit(s[0]) + Code(s[1..])
  }

  lemma {:induction false} CodeAppend(a: seq<Unit>, b: seq<Unit>)
    ensures Code(a + b) == Code(a) + Code(b)
    decreases |a|
  {
    if a == [] {
      assert a + b == b;
    } else {
      assert (a + b)[1..] == a[1..] + b;
      CodeAppend(a[1..], b);
    }
  }

  method ConvertToId(search: seq<Unit>) returns (result: seq<Unit>)
    ensures result == Code(search)
  {
    result := [];
    var i := 0;
    while i < |search|
      invariant i <= |search| && result == Code(search[..i])
    {
      var c := search[i];
      assert search[..i + 1] == search[..i] + [c];
      CodeAppend(search[..i], [c]);
      assert Code([c]) == CodeUnit(c) + Code([]) == CodeUnit(c);
      if Literal(c) {
        result := result + [c];
      } else if c < 16 {
        result := result + ([UNDERSCORE, 48] + Hex(c));
      } else {
        result := result + ([UNDERSCORE] + Hex(c));
      }
      i := i + 1;
    }
    assert search[..i] == search;
  }

  /** An escape is an underscore and exactly two digits. */
  lemma EscapeShape(c: Unit)
    requires !Literal(c)
    ensures CodeUnit(c) == [UNDERSCORE, HexDigit(c / 16), HexDigit(c % 16)]
  {
    if c >= 16 { assert Hex(c) == Hex(c / 16) + [HexDigit(c % 16)]; }
  }

  const HEX_DIGITS: seq<Unit> := [48, 49, 50, 51, 52, 53, 54, 55, 56, 57, 97, 98, 99, 100, 101, 102]

  /** Small letters, digits and everything from 128 on stand for themselves; the rest become "_" and two digits. */
  lemma CodeSpelledOut(c: Unit)
    ensures 97 <= c <= 122 || 48 <= c <= 57 || c >= 128 ==> Code([c]) == [c]
    ensures c < 48 || 57 < c < 97 || 122 < c < 128 ==> Code([c]) == [95, HEX_DIGITS[c / 16], HEX_DIGITS[c % 16]]
  {
    if !Literal(c) { EscapeShape(c); }
    assert Code([c]) == CodeUnit(c) + Code([]) == CodeUnit(c);
  }

  /** So words of such units are their own codes. */
  lemma {:induction false} PlainCode(s: seq<Unit>)
    requires forall k :: 0 <= k < |s| ==> 97 <= s[k] <= 122 || 48 <= s[k] <= 57 || s[k] >= 128
    ensures Code(s) == s
    decreases |s|
  {
    if s != [] {
      CodeSpelledOut(s[0]);
      assert Code([s[0]]) == CodeUnit(s[0]) + Code([]) == CodeUnit(s[0]);
      PlainCode(s[1..]);
      assert s == [s[0]] + s[1..];
    }
  }

  lemma CodeUnitIsPrefixFree(a: Unit, b: Unit, s: seq<Unit>, t: seq<Unit>)
    ensures CodeUnit(a) + s <= CodeUnit(b) + t <==> a == b && s <= t
  {
    var x, y := CodeUnit(a) + s, CodeUnit(b) + t;
    if !Literal(a) { EscapeShape(a); }
    if !Literal(b) { EscapeShape(b); }
    if x <= y {
      assert x[0] == y[0];
      if !Literal(a) {
        assert x[1] == y[1] && x[2] == y[2];
        assert a / 16 == b / 16 && a % 16 == b % 16;
      }
      assert s == x[|CodeUnit(a)|..] && t == y[|CodeUnit(b)|..];
    }
  }

  lemma PrefixByHead(q: seq<Unit>, n: seq<Unit>)
    requires q != [] && n != []
    ensures q <= n <==> q[0] == n[0] && q[1..] <= n[1..]
  {
    assert q == [q[0]] + q[1..] && n == [n[0]] + n[1..];
  }

  lemma {:induction false} CodeNotEmpty(q: seq<Unit>)
    requires q != []
    ensures Code(q) != []
  {
    if !Literal(q[0]) { EscapeShape(q[0]); }
  }

  /**
   The code of `q` begins the code of `name` followed by `suffix` exactly when `q` begins `name`, or goes on past it as
   `suffix` does.
   */
  lemma {:induction false} PrefixOfBoth(q: seq<Unit>, name: seq<Unit>, suffix: seq<Unit>)
    ensures Code(q) <= Code(name) + suffix <==> q <= name || (name <= q && Code(q[|name|..]) <= suffix)
    decreases |name|
  {
    hide CodeUnit;
    if name == [] {
      assert Code(name) + suffix == suffix && q[|name|..] == q;
    } else if q != [] {
      var rest := Code(name[1..]) + suffix;
      assert Code(name) + suffix == CodeUnit(name[0]) + rest;
      PrefixOfBoth(q[1..], name[1..], suffix);
      CodeUnitIsPrefixFree(q[0], name[0], Code(q[1..]), rest);
      PrefixByHead(q, name);
      PrefixByHead(name, q);
      assert name <= q ==> q[1..][|name[1..]|..] == q[|name|..];
    }
  }

  /** The code of `q` is a prefix of the code of `n` exactly when `q` is a prefix of `n`. */
  lemma {:induction false} CodeKeepsPrefixes(q: seq<Unit>, n: seq<Unit>)
    ensures Code(q) <= Code(n) <==> q <= n
  {
    PrefixOfBoth(q, n, []);
    assert Code(n) + [] == Code(n);
    if n <= q && Code(q[|n|..]) <= [] && q[|n|..] != [] { CodeNotEmpty(q[|n|..]); }
  }

  // ----- its inverse -----

  datatype Decoded = Fail | Text(s: seq<Unit>)

  function DigitValue(u: Unit): int {
    if 48 <= u <= 57 then u - 48 else if 97 <= u <= 102 then u - 87 else -1
  }

  function Decode(code: seq<Unit>): Decoded
    decreases |code|
  {
    if code == [] then Text([])
    else if code[0] == UNDERSCORE then
      if |code| < 3 || DigitValue(code[1]) < 0 || DigitValue(code[2]) < 0 then Fail
      else match Decode(code[3..])
        case Fail => Fail
        case Text(s) => Text([DigitValue(code[1]) * 16 + DigitValue(code[2])] + s)
    else match Decode(code[1..])
      case Fail => Fail
      case Text(s) => Text([code[0]] + s)
  }

  lemma {:induction false} DecodeInverts(s: seq<Unit>)
    ensures Decode(Code(s)) == Text(s)
    decreases |s|
  {
    if s != [] {
      DecodeInverts(s[1..]);
      if Literal(s[0]) {
        assert Code(s)[1..] == Code(s[1..]);
      } else {
        EscapeShape(s[0]);
        assert Code(s)[3..] == Code(s[1..]);
        assert DigitValue(HexDigit(s[0] / 16)) == s[0] / 16 && DigitValue(HexDigit(s[0] % 16)) == s[0] % 16;
      }
      assert s == [s[0]] + s[1..];
    }
  }

  // ----- the search -----

  function StripLeading(s: seq<Unit>): seq<Unit> {
    if s != [] && s[0] == SPACE then StripLeading(s[1..]) else s
  }

  function StripTrailing(s: seq<Unit>): seq<Unit> {
    if s != [] && s[|s| - 1] == SPACE then StripTrailing(s[..|s| - 1]) else s
  }

  /** The key a query is turned into; `lower` is the browser's `toLowerCase`. */
  function Key(query: seq<Unit>, lower: seq<Unit> -> seq<Unit>): seq<Unit> {
    Code(lower(StripTrailing(StripLeading(query))))
  }

  function Spaces(n: nat): seq<Unit> { seq(n, _ => 32) }

  lemma {:induction false} NoneLeading(m: nat, s: seq<Unit>)
    requires s == [] || s[0] != 32
    ensures StripLeading(Spaces(m) + s) == s
    decreases m
  {
    if m == 0 {
      assert Spaces(m) + s == s;
    } else {
      assert (Spaces(m) + s)[1..] == Spaces(m - 1) + s;
      NoneLeading(m - 1, s);
    }
  }

  lemma {:induction false} NoneTrailing(s: seq<Unit>, n: nat)
    requires s == [] || s[|s| - 1] != 32
    ensures StripTrailing(s + Spaces(n)) == s
    decreases n
  {
    if n == 0 {
      assert s + Spaces(n) == s;
    } else {
      assert (s + Spaces(n))[..|s| + n - 1] == s + Spaces(n - 1);
      NoneTrailing(s, n - 1);
    }
  }

  /** Spaces around the query do not matter, and nothing else is stripped. */
  lemma {:induction false} SpacesDoNotMatter(m: nat, word: seq<Unit>, n: nat, lower: seq<Unit> -> seq<Unit>)
    requires word == [] || (word[0] != 32 && word[|word| - 1] != 32)
    ensures StripTrailing(StripLeading(Spaces(m) + word + Spaces(n))) == word
    ensures Key(Spaces(m) + word + Spaces(n), lower) == Code(lower(word))
  {
    hide Code;
    if word == [] {
      assert Spaces(m) + word + Spaces(n) == Spaces(m + n) + word;
      NoneLeading(m + n, word);
    } else {
      assert Spaces(m) + word + Spaces(n) == Spaces(m) + (word + Spaces(n));
      NoneLeading(m, word + Spaces(n));
      NoneTrailing(word, n);
    }
  }

  function Digits(s: seq<Unit>): nat {
    if s != [] && 48 <= s[0] <= 57 then 1 + Digits(s[1..]) else 0
  }

  lemma {:induction false} DigitsBound(s: seq<Unit>)
    ensures Digits(s) <= |s|
    decreases |s|
  {
    if s != [] { DigitsBound(s[1..]); }
  }

  /** `replace(/^sr\d*_/, '')` */
  function StripSr(s: seq<Unit>): seq<Unit> {
    if |s| >= 2 && s[0] == 115 && s[1] == 114 then
      DigitsBound(s[2..]);
      var k := 2 + Digits(s[2..]);
      if k < |s| && s[k] == UNDERSCORE then s[k + 1..] else s
    else s
  }

  predicate AllDigits(s: seq<Unit>) { forall k :: 0 <= k < |s| ==> s[k] in {48, 49, 50, 51, 52, 53, 54, 55, 56, 57} }

  lemma {:induction false} DigitsThen(digits: seq<Unit>, rest: seq<Unit>)
    requires AllDigits(digits) && (rest == [] || !(48 <= rest[0] <= 57))
    ensures Digits(digits + rest) == |digits|
    decreases |digits|
  {
    if digits == [] {
      assert digits + rest == rest;
    } else {
      assert (digits + rest)[1..] == digits[1..] + rest;
      DigitsThen(digits[1..], rest);
    }
  }

  lemma {:induction false} DigitsAreDigits(s: seq<Unit>)
    ensures Digits(s) <= |s| && AllDigits(s[..Digits(s)])
    decreases |s|
  {
    if s != [] && 48 <= s[0] <= 57 {
      DigitsAreDigits(s[1..]);
      assert s[..Digits(s)] == [s[0]] + s[1..][..Digits(s[1..])];
    }
  }

  /** A leading "sr", digits and an underscore are taken away. */
  lemma {:induction false} StripSrTakes(digits: seq<Unit>, rest: seq<Unit>)
    requires AllDigits(digits)
    ensures StripSr([115, 114] + digits + [95] + rest) == rest
  {
    var s := [115, 114] + digits + [95] + rest;
    assert s[2..] == digits + ([95] + rest);
    DigitsThen(digits, [95] + rest);
    assert s[2 + |digits| + 1..] == rest;
  }

  /** And nothing else. */
  lemma {:induction false} StripSrTakesNoMore(s: seq<Unit>)
    ensures StripSr(s) == s || exists digits :: AllDigits(digits) && s == [115, 114] + digits + [95] + StripSr(s)
  {
    if StripSr(s) != s {
      DigitsAreDigits(s[2..]);
      var digits := s[2..][..Digits(s[2..])];
      assert s == [115, 114] + digits + [95] + StripSr(s);
    }
  }

  predicate Shows(id: seq<Unit>, query: seq<Unit>, lower: seq<Unit> -> seq<Unit>) {
    Key(query, lower) <= StripSr(lower(id))
  }

  datatype Display = Unset | Block | Hidden

  class Element {
    const id: seq<Unit>
    const className: string
    var display: Display
  }

  predicate RowShows(row: Element, key: seq<Unit>, lower: seq<Unit> -> seq<Unit>) {
    row.className == "SRResult" && key <= StripSr(lower(row.id))
  }

  /** How many of the rows a key shows. */
  function ShownCount(rows: seq<Element>, key: seq<Unit>, lower: seq<Unit> -> seq<Unit>): nat {
    if rows == [] then 0
    else
      var row := rows[|rows| - 1];
      ShownCount(rows[..|rows| - 1], key, lower) +
        if RowShows(row, key, lower) then 1 else 0
  }

  lemma {:induction false} NoneShown(rows: seq<Element>, key: seq<Unit>, lower: seq<Unit> -> seq<Unit>)
    ensures ShownCount(rows, key, lower) == 0 <==>
      forall r :: r in rows && r.className == "SRResult" ==> !(key <= StripSr(lower(r.id)))
    decreases |rows|
  {
    if rows != [] {
      var k := |rows| - 1;
      NoneShown(rows[..k], key, lower);
      assert rows == rows[..k] + [rows[k]];
    }
  }

  /** The places of the rows that are shown. */
  function ShownPlaces(rows: seq<Element>, key: seq<Unit>, lower: seq<Unit> -> seq<Unit>): set<int> {
    set i | 0 <= i < |rows| && RowShows(rows[i], key, lower)
  }

  lemma {:induction false} ShownCountIsNumber(rows: seq<Element>, key: seq<Unit>, lower: seq<Unit> -> seq<Unit>)
    ensures ShownCount(rows, key, lower) == |ShownPlaces(rows, key, lower)|
    decreases |rows|
  {
    hide RowShows;
    if rows == [] {
      assert ShownPlaces(rows, key, lower) == {};
    } else {
      var k := |rows| - 1;
      ShownCountIsNumber(rows[..k], key, lower);
      assert ShownPlaces(rows, key, lower)
        == ShownPlaces(rows[..k], key, lower) + if RowShows(rows[k], key, lower) then {k} else {};
    }
  }

  class SearchResults {
    var lastMatchCount: nat
    var searching: Display    // the element "Searching"
    var noMatches: Display    // the element "NoMatches"

    /** One turn of the loop over the rows. */
    method ShowRow(row: Element, key: seq<Unit>, lower: seq<Unit> -> seq<Unit>) returns (shown: bool)
      modifies row
      ensures shown == (row.className == "SRResult" && key <= StripSr(lower(row.id)))
      ensures row.display == if row.className != "SRResult" then old(row.display) else if shown then Block else Hidden
    {
      shown := false;
      if row.className == "SRResult" {
        var name := StripSr(lower(row.id));
        if |key| <= |name| && name[..|key|] == key {
          row.display := Block;
          shown := true;
        } else {
          row.display := Hidden;
        }
      }
    }

    /** `fromUrl` is the unescaped query of the page's address, used when there is no argument. */
    method Search(search: seq<Unit>, fromUrl: seq<Unit>, rows: seq<Element>, lower: seq<Unit> -> seq<Unit>)
      modifies this, rows
      ensures var query := if search == [] then fromUrl else search;
        && (forall r :: r in rows && r.className == "SRResult" ==>
          r.display == if Shows(r.id, query, lower) then Block else Hidden)
        && (forall r :: r in rows && r.className != "SRResult" ==> r.display == old(r.display))
      ensures searching == Hidden && noMatches == if lastMatchCount == 0 then Block else Hidden
      ensures lastMatchCount == ShownCount(rows, Key(if search == [] then fromUrl else search, lower), lower)
    {
      hide Code, StripSr, StripLeading, StripTrailing;
      var text := if search == [] then fromUrl else search;
      text := lower(StripTrailing(StripLeading(text)));
      var key := ConvertToId(text);
      var matches := 0;
      var i := 0;
      while i < |rows|
        invariant i <= |rows|
        invariant forall r :: r in rows[..i] && r.className == "SRResult" ==>
          r.display == if key <= StripSr(lower(r.id)) then Block else Hidden
        invariant forall r :: r in rows && r.className != "SRResult" ==> r.display == old(r.display)
        invariant matches == ShownCount(rows[..i], key, lower)
      {
        assert forall r :: r in rows[..i + 1] <==> r in rows[..i] || r == rows[i];
        assert rows[..i + 1][..i] == rows[..i];
        var shown := ShowRow(rows[i], key, lower);
        if shown { matches := matches + 1; }
        i := i + 1;
      }
      assert rows[..i] == rows;
      searching := Hidden;
      noMatches := if matches == 0 then Block else Hidden;
      lastMatchCount := matches;
    }
  }

  // ----- what the user sees -----

  /** `q`, the query as lowered and stripped, is the beginning of a row's name. */
  function Wanted(query: seq<Unit>, lower: seq<Unit> -> seq<Unit>): seq<Unit> {
    lower(StripTrailing(StripLeading(query)))
  }

  /**
   A row whose id is the code of `name` followed by `suffix` is shown exactly when its name begins with the
   query, or the query goes on past the name as the suffix does.
   */
  lemma {:induction false} ShownExactlyWhen(id: seq<Unit>, name: seq<Unit>, suffix: seq<Unit>, query: seq<Unit>,
      lower: seq<Unit> -> seq<Unit>)
    requires StripSr(lower(id)) == Code(name) + suffix
    ensures var q := Wanted(query, lower);
      Shows(id, query, lower) <==> q <= name || (name <= q && Code(q[|name|..]) <= suffix)
  {
    var q := Wanted(query, lower);
    PrefixOfBoth(q, name, suffix);
  }

  /** Rows whose names begin with the query are always shown. */
  lemma {:induction false} MatchingRowsAreShown(id: seq<Unit>, name: seq<Unit>, suffix: seq<Unit>, query: seq<Unit>,
      lower: seq<Unit> -> seq<Unit>)
    requires StripSr(lower(id)) == Code(name) + suffix && Wanted(query, lower) <= name
    ensures Shows(id, query, lower)
  {
    ShownExactlyWhen(id, name, suffix, query, lower);
  }

  /**
   Numbered ids end in an underscore and digits, so the row "SR_a_28" of "a" is shown for the query "a(": the id
   continues "_28" just as the code of the bracket does. Only what `lower` gives for these two strings matters.
   */
  lemma NumberedIdMisleads(lower: seq<Unit> -> seq<Unit>)
    requires lower([83, 82, UNDERSCORE, 97, UNDERSCORE, 50, 56]) == [115, 114, UNDERSCORE, 97, UNDERSCORE, 50, 56]
    requires lower([97, 40]) == [97, 40]
    ensures var id, name, query := [83, 82, UNDERSCORE, 97, UNDERSCORE, 50, 56], [97], [97, 40];
      StripSr(lower(id)) == Code(name) + [UNDERSCORE, 50, 56] && Shows(id, query, lower)
        && !(Wanted(query, lower) <= name)
  {
    var low: seq<Unit> := [115, 114, UNDERSCORE, 97, UNDERSCORE, 50, 56];
    var name: seq<Unit>, query: seq<Unit> := [97], [97, 40];
    assert low[2..] == [UNDERSCORE, 97, UNDERSCORE, 50, 56] && Digits(low[2..]) == 0;
    assert StripSr(low) == low[3..] == [97, UNDERSCORE, 50, 56];
    assert StripTrailing(StripLeading(query)) == query;
    EscapeShape(40);
    assert Code([40]) == CodeUnit(40) + Code([]) == [UNDERSCORE, 50, 56];
    assert query[1..] == [40] && Code(query) == [97] + [UNDERSCORE, 50, 56] == [97, UNDERSCORE, 50, 56];
    assert Code(name) == [97] + Code([]) == [97];
  }
}
