/**
 Python's `int(text, 0)` on ASCII text and its format `0x{n:x}`, as `compare_icall_pairs.py` uses them.
 The grammar is that of section 2.4.5 (Integer literals) of the Python Language Reference, with a sign and
 surrounding white space allowed.
 */
module Addresses {
  import opened Optional
  import opened Text

  // ----- reading -----

  predicate Space(c: char) { '\t' <= c <= '\r' || c == ' ' }

  /** The digits of every base, letters in either case. */
  function DigitValue(c: char): nat {
    if '0' <= c <= '9' then (c - '0') as nat
    else if 'a' <= c <= 'z' then 10 + (c - 'a') as nat
    else if 'A' <= c <= 'Z' then 10 + (c - 'A') as nat
    else 36
  }

  predicate Digit(c: char, base: nat) { DigitValue(c) < base }

  /** One more digit on the right of a value. */
  function Shift(value: nat, c: char, base: nat): nat { value * base + DigitValue(c) }

  /** `(["_"] digit)*` up to the end of the text, adding to a value read so far. */
  function ReadDigits(s: string, base: nat, value: nat): Option<nat> {
    if s == [] then Some(value)
    else if Digit(s[0], base) then ReadDigits(s[1..], base, Shift(value, s[0], base))
    else if s[0] == '_' && |s| > 1 && Digit(s[1], base) then
      ReadDigits(s[2..], base, Shift(value, s[1], base))
    else None
  }

  /** The base a prefix announces, or 10. */
  function PrefixBase(s: string): nat {
    if |s| < 2 || s[0] != '0' then 10
    else if s[1] in "xX" then 16
    else if s[1] in "oO" then 8
    else if s[1] in "bB" then 2
    else 10
  }

  /** A text without its underscores. */
  function Plain(s: string): string {
    if s == [] then [] else (if s[0] == '_' then [] else [s[0]]) + Plain(s[1..])
  }

  /** How many digits of a decimal number Python converts, leading zeros included. */
  const MAX_DECIMAL_DIGITS := 4300

  function ReadLiteral(s: string): Option<nat> {
    var base := PrefixBase(s);
    if base != 10 then
      (if |s| == 2 then None else ReadDigits(s[2..], base, 0))
    else if s == [] || !Digit(s[0], 10) || |Plain(s)| > MAX_DECIMAL_DIGITS then None
    else
      var value := ReadDigits(s[1..], 10, DigitValue(s[0]));
      if s[0] == '0' && value != Some(0) then None else value
  }

  function ReadSigned(s: string): Option<int> {
    if s != [] && s[0] in "+-" then
      match ReadLiteral(s[1..])
      case None => None
      case Some(n) => Some(if s[0] == '-' then 0 - n else n)
    else
      match ReadLiteral(s)
      case None => None
      case Some(n) => Some(n)
  }

  function StripLeft(s: string): (r: string)
    ensures r == [] || !Space(r[0])
  {
    if s != [] && Space(s[0]) then StripLeft(s[1..]) else s
  }

  function StripRight(s: string): (r: string)
    ensures r == [] || !Space(r[|r| - 1])
  {
    if s != [] && Space(s[|s| - 1]) then StripRight(s[..|s| - 1]) else s
  }

  /** `int(text, 0)` */
  function ParseInt(text: string): Option<int> {
    ReadSigned(StripRight(StripLeft(text)))
  }

  // ----- what the digits mean -----

  predicate AllDigits(s: string, base: nat) { forall c :: c in s ==> Digit(c, base) }

  /** Every underscore is followed by something else than an underscore. */
  predicate Separated(s: string) {
    forall j :: 0 <= j < |s| && s[j] == '_' ==> j + 1 < |s| && s[j + 1] != '_'
  }

  /** Positional value, from the least significant digit. */
  function Value(s: string, base: nat): nat {
    if s == [] then 0 else Shift(Value(s[..|s| - 1], base), s[|s| - 1], base)
  }

  lemma {:induction false} ValueSnoc(s: string, c: char, base: nat)
    ensures Value(s + [c], base) == Shift(Value(s, base), c, base)
  {
    assert (s + [c])[..|s|] == s;
  }

  lemma SeparatedHead(s: string)
    requires s != []
    ensures s[0] != '_' ==> Separated(s) == Separated(s[1..])
    ensures s[0] == '_' ==> Separated(s) == (|s| > 1 && s[1] != '_' && Separated(s[2..]))
  {
    if s[0] != '_' {
      if Separated(s) {
        forall j | 0 <= j < |s[1..]| && s[1..][j] == '_' ensures j + 1 < |s[1..]| && s[1..][j + 1] != '_' {
          assert s[j + 1] == '_';
        }
      }
      if Separated(s[1..]) {
        forall j | 0 <= j < |s| && s[j] == '_' ensures j + 1 < |s| && s[j + 1] != '_' {
          assert s[1..][j - 1] == '_';
        }
      }
    } else if |s| > 1 && s[1] != '_' {
      if Separated(s) {
        forall j | 0 <= j < |s[2..]| && s[2..][j] == '_' ensures j + 1 < |s[2..]| && s[2..][j + 1] != '_' {
          assert s[j + 2] == '_';
        }
      }
      if Separated(s[2..]) {
        forall j | 0 <= j < |s| && s[j] == '_' ensures j + 1 < |s| && s[j + 1] != '_' {
          assert j == 0 || s[2..][j - 2] == '_';
        }
      }
    }
  }

  lemma NoDigits(base: nat)
    ensures Separated([]) && AllDigits(Plain([]), base) && Plain([]) == []
  {
  }

  lemma Regroup(a: string, c: char, b: string)
    ensures a + ([c] + b) == a + [c] + b
  {
  }

  lemma {:induction false} PlainHead(s: string, base: nat)
    requires s != [] && base <= 36
    ensures s[0] != '_' ==> Plain(s) == [s[0]] + Plain(s[1..])
    ensures s[0] == '_' ==> Plain(s) == Plain(s[1..]) && !Digit(s[0], base)
    ensures s[0] != '_' ==> (AllDigits(Plain(s), base) <==> Digit(s[0], base) && AllDigits(Plain(s[1..]), base))
  {
  }

  /** The reader accepts exactly separated digits, and computes their positional value. */
  lemma {:induction false} ReadDigitsIsValue(s: string, base: nat, before: string)
    requires base <= 36
    ensures ReadDigits(s, base, Value(before, base))
         == if Separated(s) && AllDigits(Plain(s), base) then Some(Value(before + Plain(s), base)) else None
    decreases |s|
  {
    hide Separated, AllDigits, Plain, Value, Shift, Digit;
    if s == [] {
      NoDigits(base);
      assert before + [] == before;
    } else if s[0] != '_' {
      SeparatedHead(s);
      PlainHead(s, base);
      ValueSnoc(before, s[0], base);
      ReadDigitsIsValue(s[1..], base, before + [s[0]]);
      Regroup(before, s[0], Plain(s[1..]));
    } else {
      SeparatedHead(s);
      PlainHead(s, base);
      if |s| > 1 && s[1] != '_' {
        PlainHead(s[1..], base);
        assert s[1..][1..] == s[2..];
        ValueSnoc(before, s[1], base);
        ReadDigitsIsValue(s[2..], base, before + [s[1]]);
        Regroup(before, s[1], Plain(s[2..]));
      } else if |s| > 1 {
        PlainHead(s[1..], base);
      }
    }
  }

  // ----- what the parser accepts -----

  /** A zero, one of the letters, and separated digits of the base. */
  ghost predicate DenotesInBase(s: string, base: nat, letters: string, n: int) {
    && |s| > 2 && s[0] == '0' && s[1] in letters
    && Separated(s[2..]) && AllDigits(Plain(s[2..]), base) && n == Value(Plain(s[2..]), base)
  }

  /**
   `n` written as a literal: with a base prefix, or in decimal, where only zero may begin with a zero and the
   number of digits is limited.
   */
  ghost predicate Denotes(s: string, n: int) {
    || DenotesInBase(s, 16, "xX", n) || DenotesInBase(s, 8, "oO", n) || DenotesInBase(s, 2, "bB", n)
    || (&& s != [] && s[0] != '_' && Separated(s) && AllDigits(Plain(s), 10)
        && n == Value(Plain(s), 10) && (s[0] == '0' ==> n == 0) && |Plain(s)| <= 4300)
  }

  lemma {:induction false} PlainKeeps(s: string, c: char)
    requires c in s && c != '_'
    ensures c in Plain(s)
    decreases |s|
  {
    if s[0] != c { PlainKeeps(s[1..], c); }
  }

  lemma PrefixIsNoDigit(c: char)
    ensures Digit(c, 10) || c == '_' ==>
      c != 'x' && c != 'X' && c != 'o' && c != 'O' && c != 'b' && c != 'B'
  {
  }

  /** A decimal literal has no prefix. */
  lemma DecimalHasNoPrefix(s: string)
    requires AllDigits(Plain(s), 10)
    ensures PrefixBase(s) == 10
  {
    hide Digit;
    if |s| >= 2 {
      PrefixIsNoDigit(s[1]);
      if s[1] != '_' { PlainKeeps(s, s[1]); }
    }
  }

  lemma PrefixMeans(s: string)
    ensures PrefixBase(s) == 16 <==> |s| >= 2 && s[0] == '0' && s[1] in "xX"
    ensures PrefixBase(s) == 8 <==> |s| >= 2 && s[0] == '0' && s[1] in "oO"
    ensures PrefixBase(s) == 2 <==> |s| >= 2 && s[0] == '0' && s[1] in "bB"
    ensures PrefixBase(s) in {16, 8, 2, 10}
  {
  }

  lemma LiteralExact(s: string, n: nat)
    ensures ReadLiteral(s) == Some(n) <==> Denotes(s, n)
  {
    var base := PrefixBase(s);
    PrefixMeans(s);
    if AllDigits(Plain(s), 10) { DecimalHasNoPrefix(s); }
    if base != 10 {
      ReadDigitsIsValue(s[2..], base, []);
      assert [] + Plain(s[2..]) == Plain(s[2..]);
    } else if s != [] && s[0] != '_' {
      SeparatedHead(s);
      PlainHead(s, 10);
      ValueSnoc([], s[0], 10);
      assert [] + [s[0]] == [s[0]];
      ReadDigitsIsValue(s[1..], 10, [s[0]]);
    }
  }

  predicate Blank(s: string) { forall c :: c in s ==> Space(c) }

  /** Tab, line feed, vertical tab, form feed, carriage return and space. */
  lemma SpaceSpelledOut(c: char)
    ensures Space(c) <==> c as int in {9, 10, 11, 12, 13, 32}
  {
  }

  lemma {:induction false} StripLeftExact(s: string)
    ensures exists lead :: s == lead + StripLeft(s) && Blank(lead)
    decreases |s|
  {
    if s != [] && Space(s[0]) {
      StripLeftExact(s[1..]);
      var lead :| s[1..] == lead + StripLeft(s[1..]) && Blank(lead);
      assert s == ([s[0]] + lead) + StripLeft(s) && Blank([s[0]] + lead);
    } else {
      assert s == [] + StripLeft(s) && Blank([]);
    }
  }

  lemma {:induction false} StripRightExact(s: string)
    ensures exists trail :: s == StripRight(s) + trail && Blank(trail)
    decreases |s|
  {
    if s != [] && Space(s[|s| - 1]) {
      var k := |s| - 1;
      StripRightExact(s[..k]);
      var trail :| s[..k] == StripRight(s[..k]) + trail && Blank(trail);
      assert s == StripRight(s) + (trail + [s[k]]) && Blank(trail + [s[k]]);
    } else {
      assert s == StripRight(s) + [] && Blank([]);
    }
  }

  lemma {:induction false} StripLeftOf(lead: string, s: string)
    requires Blank(lead) && s != [] && !Space(s[0])
    ensures StripLeft(lead + s) == s
    decreases |lead|
  {
    if lead == [] {
      assert lead + s == s;
    } else {
      assert (lead + s)[1..] == lead[1..] + s;
      StripLeftOf(lead[1..], s);
    }
  }

  lemma {:induction false} StripRightOf(s: string, trail: string)
    requires Blank(trail) && s != [] && !Space(s[|s| - 1])
    ensures StripRight(s + trail) == s
    decreases |trail|
  {
    if trail == [] {
      assert s + trail == s;
    } else {
      var k := |trail| - 1;
      assert (s + trail)[..|s + trail| - 1] == s + trail[..k];
      StripRightOf(s, trail[..k]);
    }
  }

  lemma {:induction false} PlainOfDigits(s: string)
    requires '_' !in s
    ensures Plain(s) == s && Separated(s)
    decreases |s|
  {
    if s != [] { PlainOfDigits(s[1..]); }
  }

  /** A literal begins with a decimal digit and does not end in white space. */
  lemma LiteralEnds(s: string, n: int)
    requires Denotes(s, n)
    ensures n >= 0 && s != [] && Digit(s[0], 10) && !Space(s[|s| - 1])
  {
    var prefixed := DenotesInBase(s, 16, "xX", n) || DenotesInBase(s, 8, "oO", n) || DenotesInBase(s, 2, "bB", n);
    var digits := if prefixed then s[2..] else s;
    var last := digits[|digits| - 1];
    assert last != '_';
    PlainKeeps(digits, last);
    if !prefixed { PlainKeeps(s, s[0]); }
  }

  ghost predicate SignedAs(s: string, n: int, sign: string, literal: string) {
    s == sign + literal && sign in {"", "+", "-"} && Denotes(literal, if sign == "-" then 0 - n else n)
  }

  ghost predicate Surrounded(text: string, lead: string, middle: string, trail: string) {
    text == lead + middle + trail && Blank(lead) && Blank(trail)
  }

  /** `text` is `n` with white space around and at most one sign in front. */
  ghost predicate Spells(text: string, n: int) {
    exists lead, signed, trail, sign, literal ::
      Surrounded(text, lead, signed, trail) && SignedAs(signed, n, sign, literal)
  }

  lemma SignedMeans(s: string, n: int) returns (sign: string, literal: string)
    requires ReadSigned(s) == Some(n)
    ensures SignedAs(s, n, sign, literal)
  {
    hide ReadLiteral, Denotes;
    if s != [] && s[0] in "+-" {
      sign, literal := s[..1], s[1..];
      assert s == sign + literal && sign == [s[0]];
      LiteralExact(literal, if s[0] == '-' then 0 - n else n);
    } else {
      sign, literal := "", s;
      assert s == sign + literal;
      LiteralExact(literal, n);
    }
  }

  lemma SignedReads(s: string, n: int, sign: string, literal: string)
    requires SignedAs(s, n, sign, literal)
    ensures ReadSigned(s) == Some(n) && s != [] && !Space(s[0]) && !Space(s[|s| - 1])
  {
    hide ReadLiteral, Denotes;
    var m := if sign == "-" then 0 - n else n;
    LiteralEnds(literal, m);
    LiteralExact(literal, m);
    if sign == "" {
      assert s == literal;
    } else {
      assert s[1..] == literal;
    }
  }

  /** `int(text, 0)` is `n` exactly for the spellings of `n`; every other text is refused. */
  lemma ParseExact(text: string, n: int)
    ensures ParseInt(text) == Some(n) <==> Spells(text, n)
  {
    hide ReadSigned, SignedAs, StripLeft, StripRight, Blank;
    var rest := StripLeft(text);
    var body := StripRight(rest);
    if ParseInt(text) == Some(n) {
      StripLeftExact(text);
      StripRightExact(rest);
      var lead :| text == lead + rest && Blank(lead);
      var trail :| rest == body + trail && Blank(trail);
      assert text == lead + body + trail;
      assert Surrounded(text, lead, body, trail);
      var sign, literal := SignedMeans(body, n);
    }
    if Spells(text, n) {
      var lead, signed, trail, sign, literal :|
        Surrounded(text, lead, signed, trail) && SignedAs(signed, n, sign, literal);
      SignedReads(signed, n, sign, literal);
      assert text == lead + (signed + trail);
      StripLeftOf(lead, signed + trail);
      StripRightOf(signed, trail);
    }
  }

  // ----- writing -----

  function HexChar(d: nat): char
    requires d < 16
  {
    if d < 10 then '0' + d as char else 'a' + (d - 10) as char
  }

  function HexOf(n: nat): string {
    if n < 16 then [HexChar(n)] else HexOf(n / 16) + [HexChar(n % 16)]
  }

  /** The format `0x{n:x}`, which puts the sign of a negative number after the prefix. */
  function Show(n: int): string {
    if n >= 0 then "0x" + HexOf(n) else "0x-" + HexOf(0 - n)
  }

  lemma {:induction false} HexOfValue(n: nat)
    ensures HexOf(n) != [] && AllDigits(HexOf(n), 16) && '_' !in HexOf(n)
    ensures Value(HexOf(n), 16) == n
    decreases n
  {
    if n < 16 {
      ValueSnoc([], HexChar(n), 16);
      assert [] + [HexChar(n)] == HexOf(n);
    } else {
      HexOfValue(n / 16);
      ValueSnoc(HexOf(n / 16), HexChar(n % 16), 16);
    }
  }

  lemma ShowDenotes(n: nat)
    ensures SignedAs(Show(n), n, "", Show(n))
  {
    HexOfValue(n);
    PlainOfDigits(HexOf(n));
    var s := Show(n);
    assert s[2..] == HexOf(n);
    assert s == "" + s;
  }

  lemma NegativeRefused(s: string)
    requires s != [] && !Space(s[|s| - 1])
    ensures ParseInt("0x-" + s) == None
  {
    var text := "0x-" + s;
    assert StripLeft(text) == text && StripRight(text) == text;
    assert text[2..] == "-" + s;
    assert ReadDigits("-" + s, 16, 0) == None;
  }

  /** What is printed parses back to the number printed exactly when that was not negative. */
  lemma ShowParses(n: int)
    ensures ParseInt(Show(n)) == if n >= 0 then Some(n) else None
  {
    if n >= 0 {
      ShowDenotes(n);
      var s := Show(n);
      assert Surrounded(s, [], s, []) by { assert s == [] + s + []; }
      ParseExact(s, n);
    } else {
      HexOfValue(0 - n);
      var digits := HexOf(0 - n);
      assert digits[|digits| - 1] in digits;
      NegativeRefused(digits);
    }
  }

  lemma ShowInjective(a: int, b: int)
    ensures Show(a) == Show(b) ==> a == b
  {
    if Show(a) == Show(b) {
      if a >= 0 || b >= 0 {
        ShowParses(a);
        ShowParses(b);
      } else {
        HexOfValue(0 - a);
        HexOfValue(0 - b);
        assert Show(a)[3..] == HexOf(0 - a) && Show(b)[3..] == HexOf(0 - b);
      }
    }
  }

  // ----- letter case -----

  lemma LowerTail(s: string, k: nat)
    requires k <= |s|
    ensures Lower(s)[k..] == Lower(s[k..]) && Lower(s)[..k] == Lower(s[..k])
  {
  }

  lemma CharIgnoresCase(c: char, base: nat, value: nat)
    ensures Digit(LowerChar(c), base) == Digit(c, base) && (LowerChar(c) == '_' <==> c == '_')
    ensures Shift(value, LowerChar(c), base) == Shift(value, c, base)
  {
    assert DigitValue(LowerChar(c)) == DigitValue(c);
  }

  lemma {:induction false} ReadDigitsIgnoresCase(s: string, base: nat, value: nat)
    ensures ReadDigits(Lower(s), base, value) == ReadDigits(s, base, value)
    decreases |s|
  {
    hide Shift, Digit, LowerChar;
    if s != [] {
      CharIgnoresCase(s[0], base, value);
      LowerTail(s, 1);
      ReadDigitsIgnoresCase(s[1..], base, Shift(value, s[0], base));
      if |s| > 1 {
        CharIgnoresCase(s[1], base, value);
        LowerTail(s, 2);
        ReadDigitsIgnoresCase(s[2..], base, Shift(value, s[1], base));
      }
    }
  }

  lemma {:induction false} PlainIgnoresCase(s: string)
    ensures |Plain(Lower(s))| == |Plain(s)|
    decreases |s|
  {
    if s != [] {
      LowerTail(s, 1);
      PlainIgnoresCase(s[1..]);
    }
  }

  lemma LiteralIgnoresCase(s: string)
    ensures ReadLiteral(Lower(s)) == ReadLiteral(s)
  {
    PlainIgnoresCase(s);
    assert PrefixBase(Lower(s)) == PrefixBase(s);
    if PrefixBase(s) != 10 {
      LowerTail(s, 2);
      ReadDigitsIgnoresCase(s[2..], PrefixBase(s), 0);
    } else if s != [] {
      LowerTail(s, 1);
      ReadDigitsIgnoresCase(s[1..], 10, DigitValue(s[0]));
    }
  }

  lemma {:induction false} StripIgnoresCase(s: string)
    ensures StripLeft(Lower(s)) == Lower(StripLeft(s)) && StripRight(Lower(s)) == Lower(StripRight(s))
    decreases |s|
  {
    if s != [] {
      LowerTail(s, 1);
      LowerTail(s, |s| - 1);
      StripIgnoresCase(s[1..]);
      StripIgnoresCase(s[..|s| - 1]);
    }
  }

  /** Prefixes and digits may be in either case. */
  lemma ParseIgnoresCase(text: string)
    ensures ParseInt(Lower(text)) == ParseInt(text)
  {
    hide ReadLiteral, StripLeft, StripRight;
    StripIgnoresCase(text);
    StripIgnoresCase(StripLeft(text));
    var body := StripRight(StripLeft(text));
    LiteralIgnoresCase(body);
    if body != [] {
      LowerTail(body, 1);
      LiteralIgnoresCase(body[1..]);
    }
  }
}
