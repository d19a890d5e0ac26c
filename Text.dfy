/** The string primitives the handlers lean on: JavaScript's `trim()`,
    `s.length` in UTF-16 code units, the decimal form of an integer as a
    template literal prints it, and JavaScript's `Number(...)` coercion
    restricted to integer text (anything else, "2.5" included, is NaN). */
module Text {
  import opened Common

  /** JavaScript's WhiteSpace and LineTerminator characters, which `trim()`
      and `Number(...)` strip from both ends. */
  predicate IsSpace(c: char) {
    || c == ' ' || c == '\t' || c == '\n' || c == '\r' || c == '\U{000B}' || c == '\U{000C}'
    || c == '\U{00A0}' || c == '\U{1680}' || ('\U{2000}' <= c <= '\U{200A}')
    || c == '\U{2028}' || c == '\U{2029}' || c == '\U{202F}' || c == '\U{205F}'
    || c == '\U{3000}' || c == '\U{FEFF}'
  }

  predicate AllSpaces(s: string) {
    forall i :: 0 <= i < |s| ==> IsSpace(s[i])
  }

  /** `s[lo..hi]` is all white space. */
  predicate SpacesBetween(s: string, lo: nat, hi: nat)
    requires hi <= |s|
  {
    forall i :: lo <= i < hi ==> IsSpace(s[i])
  }

  /** How many white-space characters `s` starts with. */
  function LeadingSpaces(s: string): (n: nat)
    ensures n <= |s| && SpacesBetween(s, 0, n)
    ensures n < |s| ==> !IsSpace(s[n])
  {
    if |s| > 0 && IsSpace(s[0]) then
      var n := 1 + LeadingSpaces(s[1..]);
      assert forall i :: 1 <= i < n ==> s[i] == s[1..][i - 1];
      n
    else 0
  }

  /** How many white-space characters `s` ends with. */
  function TrailingSpaces(s: string): (n: nat)
    ensures n <= |s| && SpacesBetween(s, |s| - n, |s|)
    ensures n < |s| ==> !IsSpace(s[|s| - n - 1])
  {
    if |s| > 0 && IsSpace(s[|s| - 1]) then
      var init := s[..|s| - 1];
      var n := 1 + TrailingSpaces(init);
      assert forall i :: |s| - n <= i < |s| - 1 ==> s[i] == init[i];
      n
    else 0
  }

  /** `s.trim()`: the characters between the leading and the trailing white
      space; a blank `s` has no characters left over for trailing space. */
  function Trim(s: string): (r: string)
    ensures |r| <= |s|
    ensures |r| == 0 <==> AllSpaces(s)
    ensures |r| > 0 ==> !IsSpace(r[0]) && !IsSpace(r[|r| - 1])
    ensures exists a :: 0 <= a <= |s| - |r| && r == s[a..a + |r|] &&
              SpacesBetween(s, 0, a) && SpacesBetween(s, a + |r|, |s|)
  {
    var a := LeadingSpaces(s);
    var b := if a == |s| then 0 else TrailingSpaces(s);
    assert a + b <= |s|;
    var r := s[a..|s| - b];
    assert r == s[a..a + |r|] && SpacesBetween(s, 0, a) && SpacesBetween(s, a + |r|, |s|);
    if |r| == 0 then
      assert AllSpaces(s) by {
        forall i | 0 <= i < |s| ensures IsSpace(s[i]) {
          assert i < a || a + |r| <= i;
        }
      }
      r
    else
      assert r[0] == s[a] && r[|r| - 1] == s[|s| - b - 1];
      r
  }

  /** `s.trim().length === 0`: nothing but white space (see BlankIsTrimmedEmpty). */
  predicate IsBlank(s: string) {
    AllSpaces(s)
  }

  lemma BlankIsTrimmedEmpty(s: string)
    ensures IsBlank(s) <==> |Trim(s)| == 0
  {
  }

  /** JavaScript's `s.length`: UTF-16 code units, two for each character
      outside the Basic Multilingual Plane. */
  function Utf16Length(s: string): (n: nat)
    ensures |s| <= n <= 2 * |s|
    ensures (forall i :: 0 <= i < |s| ==> s[i] as int < 0x1_0000) ==> n == |s|
    ensures |s| == 1 ==> n == (if s[0] as int < 0x1_0000 then 1 else 2)
  {
    if |s| == 0 then 0
    else
      var init := s[..|s| - 1];
      assert forall i :: 0 <= i < |init| ==> init[i] == s[i];
      Utf16Length(init) + (if s[|s| - 1] as int < 0x1_0000 then 1 else 2)
  }

  /** Code units add up over concatenation, so with the one-character case
      they fix the count: one per character, two above U+FFFF. */
  lemma {:induction false} Utf16LengthConcat(a: string, b: string)
    ensures Utf16Length(a + b) == Utf16Length(a) + Utf16Length(b)
    decreases |b|
  {
    if |b| == 0 {
      assert a + b == a;
    } else {
      assert (a + b)[..|a + b| - 1] == a + b[..|b| - 1];
      Utf16LengthConcat(a, b[..|b| - 1]);
    }
  }

  /** Four U+1F511 characters are eight code units long. */
  lemma AstralCharactersCountTwice()
    ensures |"\U{1F511}\U{1F511}\U{1F511}\U{1F511}"| == 4
    ensures Utf16Length("\U{1F511}\U{1F511}\U{1F511}\U{1F511}") == 8
  {
    var k := '\U{1F511}';
    assert "\U{1F511}\U{1F511}\U{1F511}\U{1F511}" == [k, k, k, k];
    assert [k][..0] == [] && [k, k][..1] == [k] && [k, k, k][..2] == [k, k] && [k, k, k, k][..3] == [k, k, k];
    assert Utf16Length([k]) == 2;
    assert Utf16Length([k, k]) == 4;
    assert Utf16Length([k, k, k]) == 6;
  }

  predicate IsDigit(c: char) {
    '0' <= c <= '9'
  }

  predicate AllDigits(s: string) {
    forall i :: 0 <= i < |s| ==> IsDigit(s[i])
  }

  function DigitChar(d: nat): (c: char)
    requires d < 10
    ensures IsDigit(c) && c as int - '0' as int == d
  {
    ('0' as int + d) as char
  }

  /** The value of a string of decimal digits, most significant first. */
  function DigitsValue(s: string): nat
    requires AllDigits(s)
  {
    if |s| == 0 then 0 else DigitsValue(s[..|s| - 1]) * 10 + (s[|s| - 1] as int - '0' as int)
  }

  /** A non-empty string of decimal digits and its value; None for anything else. */
  function ParseDigits(s: string): Option<nat> {
    if |s| > 0 && AllDigits(s) then Some(DigitsValue(s)) else None
  }

  /** `${n}` for a non-negative integer: its shortest decimal form. */
  function NatToString(n: nat): (r: string)
    ensures |r| > 0 && AllDigits(r)
    ensures (n < 10 ==> |r| == 1) && (10 <= n < 100 ==> |r| == 2)
    ensures n >= 10 ==> r[0] != '0'
    decreases n
  {
    if n < 10 then [DigitChar(n)] else NatToString(n / 10) + [DigitChar(n % 10)]
  }

  /** `${i}` for an integer. */
  function IntToString(i: int): (r: string)
    ensures |r| > 0 && (r[0] == '-' <==> i < 0)
    ensures if i < 0 then AllDigits(r[1..]) else AllDigits(r)
    ensures var d := if i < 0 then r[1..] else r; |d| > 1 ==> d[0] != '0'
  {
    assert i < 0 ==> ("-" + NatToString(-i))[1..] == NatToString(-i);
    if i < 0 then "-" + NatToString(-i) else NatToString(i)
  }

  lemma {:induction false} NatToStringRoundTrip(n: nat)
    ensures ParseDigits(NatToString(n)) == Some(n)
    decreases n
  {
    var s := NatToString(n);
    if n >= 10 {
      var front := NatToString(n / 10);
      assert s[..|s| - 1] == front;
      NatToStringRoundTrip(n / 10);
    } else {
      assert s[..|s| - 1] == [];
      assert DigitsValue(s[..|s| - 1]) == 0;
    }
  }

  /** A value of JavaScript's `Number(...)`: an integer or NaN. */
  datatype JsNumber = Num(value: int) | NaN

  /** `Number(s)` on a request string: surrounding white space is ignored,
      a blank string is 0, and an optionally signed run of decimal digits is
      its value; anything else is NaN. */
  function Number(s: string): (r: JsNumber)
    ensures IsBlank(s) ==> r == Num(0)
  {
    var t := Trim(s);
    if |t| == 0 then Num(0)
    else if t[0] == '-' || t[0] == '+' then
      match ParseDigits(t[1..])
      case Some(n) => var v: int := n; Num(if t[0] == '-' then -v else v)
      case None => NaN
    else
      match ParseDigits(t)
      case Some(n) => Num(n)
      case None => NaN
  }

  /** A number read from a string that is not blank ends in a digit, and a
      negative one starts with '-' once trimmed. */
  lemma NumberReadsDigits(s: string)
    requires Number(s).Num? && !IsBlank(s)
    ensures IsDigit(Trim(s)[|Trim(s)| - 1])
    ensures Number(s).value < 0 ==> Trim(s)[0] == '-'
  {
  }

  /** A string without white space at either end is left alone by `trim()`. */
  lemma TrimUnpadded(s: string)
    requires |s| > 0 && !IsSpace(s[0]) && !IsSpace(s[|s| - 1])
    ensures Trim(s) == s
  {
  }

  /** `Number(`${i}`) === i`: printing an integer and coercing it back is the identity. */
  lemma {:induction false} NumberRoundTrip(i: int)
    ensures Number(IntToString(i)) == Num(i)
  {
    var s := IntToString(i);
    var digits := NatToString(if i < 0 then -i else i);
    NatToStringRoundTrip(if i < 0 then -i else i);
    assert !IsSpace(digits[|digits| - 1]) by { assert IsDigit(digits[|digits| - 1]); }
    assert !IsSpace(digits[0]) by { assert IsDigit(digits[0]); }
    if i < 0 {
      assert s[1..] == digits;
      assert s[|s| - 1] == digits[|digits| - 1];
    }
    TrimUnpadded(s);
  }
}
