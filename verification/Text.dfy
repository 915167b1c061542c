/** Strings, as far as the models need them. */
module Text {

  function LowerChar(c: char): char {
    if 'A' <= c <= 'Z' then c + 32 as char else c
  }

  /** Lower case of the ASCII letters. */
  function Lower(s: string): (r: string)
    ensures |r| == |s| && forall j :: 0 <= j < |s| ==> r[j] == LowerChar(s[j])
  {
    seq(|s|, j requires 0 <= j < |s| => LowerChar(s[j]))
  }

  /** The 26 capitals, from 65 on, become the small letters, from 97 on; nothing else changes. */
  lemma LowerCharExact(c: char)
    ensures 65 <= c as int < 91 ==> LowerChar(c) as int == c as int - 65 + 97
    ensures !(65 <= c as int < 91) ==> LowerChar(c) == c
  {
    assert 'A' as int == 65 && 'Z' as int == 90;
  }
}
