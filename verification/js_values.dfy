/** Values as the request handlers see them: optional request fields and their
    JavaScript truthiness, `Number.parseInt` as used for the paging parameters of
    the review listing, and the case-insensitive match used by its search term. */
module JsValues {

  datatype Option<+T> = None | Some(value: T)

  /** A string field of a request body or query is truthy when it is present and
      not the empty string. */
  predicate Truthy(field: Option<string>)
  {
    field.Some? && field.value != ""
  }

  /** A numeric field is truthy when it is present and not zero. */
  predicate TruthyNumber(field: Option<int>)
  {
    field.Some? && field.value != 0
  }

  // ---------------------------------------------------------------------------
  // Number.parseInt(text) with no radix argument. `None` stands for NaN.
  // ---------------------------------------------------------------------------

  predicate IsSpace(c: char)
  {
    c == ' ' || c == '\t' || c == '\n' || c == '\r'
  }

  /** Drops the leading white space that parseInt skips. */
  function TrimStart(s: string): (r: string)
    ensures |r| <= |s|
    ensures r == [] || !IsSpace(r[0])
    ensures s == [] || !IsSpace(s[0]) ==> r == s
  {
    if s != [] && IsSpace(s[0]) then TrimStart(s[1..]) else s
  }

  /** A digit in base 10, or in base 16 (either letter case). */
  predicate IsDigit(c: char, radix: nat)
  {
    ('0' <= c <= '9') || (radix == 16 && (('a' <= c <= 'f') || ('A' <= c <= 'F')))
  }

  function DigitOf(c: char, radix: nat): (d: nat)
    requires IsDigit(c, radix)
    ensures d < 16 && (radix == 10 ==> d < 10)
  {
    if '0' <= c <= '9' then c as int - '0' as int
    else if 'a' <= c <= 'f' then c as int - 'a' as int + 10
    else c as int - 'A' as int + 10
  }

  predicate AllDigits(s: string, radix: nat)
  {
    forall i :: 0 <= i < |s| ==> IsDigit(s[i], radix)
  }

  /** The length of the longest prefix of `s` made of digits. */
  function DigitRun(s: string, radix: nat): (n: nat)
    ensures n <= |s|
    ensures AllDigits(s[..n], radix)
    ensures n < |s| ==> !IsDigit(s[n], radix)
  {
    if s != [] && IsDigit(s[0], radix) then 1 + DigitRun(s[1..], radix) else 0
  }

  /** The value of a string of digits, most significant first. */
  function ValueOf(digits: string, radix: nat): nat
    requires AllDigits(digits, radix)
  {
    if digits == [] then 0
    else ValueOf(digits[..|digits| - 1], radix) * radix + DigitOf(digits[|digits| - 1], radix)
  }

  /** Whether a text could begin a number: a sign or a decimal digit. */
  predicate StartsNumber(s: string)
  {
    s != [] && (s[0] == '-' || s[0] == '+' || IsDigit(s[0], 10))
  }

  /** The digits after any sign: a "0x" or "0X" prefix selects base 16, and the
      longest run of digits that follows is the magnitude; no digit at all is NaN. */
  function ParseMagnitude(unsigned: string): Option<nat>
  {
    var hex := |unsigned| >= 2 && unsigned[0] == '0' && (unsigned[1] == 'x' || unsigned[1] == 'X');
    var radix := if hex then 16 else 10;
    var digits := if hex then unsigned[2..] else unsigned;
    var n := DigitRun(digits, radix);
    if n == 0 then None else Some(ValueOf(digits[..n], radix))
  }

  /** parseInt: skip white space, read an optional sign, then the magnitude. */
  function ParseInt(text: string): (r: Option<int>)
    ensures StartsNumber(TrimStart(text)) || r.None?
  {
    var s := TrimStart(text);
    var negative := s != [] && s[0] == '-';
    var unsigned := if s != [] && (s[0] == '-' || s[0] == '+') then s[1..] else s;
    match ParseMagnitude(unsigned)
    case None => None
    case Some(m) => Some(if negative then -(m as int) else m as int)
  }

  /** `Number.parseInt` applied to a query parameter; an absent parameter is
      `undefined`, which parses as NaN. */
  function ParseParam(param: Option<string>): Option<int>
  {
    match param
    case None => None
    case Some(text) => ParseInt(text)
  }

  function DigitChar(d: nat): (c: char)
    requires d < 10
    ensures IsDigit(c, 10) && DigitOf(c, 10) == d
  {
    ('0' as int + d) as char
  }

  /** The decimal numeral of a natural number, without leading zeros. */
  function DecimalDigits(n: nat): (s: string)
    ensures s != [] && AllDigits(s, 10)
  {
    if n < 10 then [DigitChar(n)] else DecimalDigits(n / 10) + [DigitChar(n % 10)]
  }

  /** The decimal numeral of an integer, with a '-' for a negative one. */
  function Decimal(n: int): string
  {
    if n < 0 then "-" + DecimalDigits(-n) else DecimalDigits(n)
  }

  lemma {:induction false} ValueOfDecimalDigits(n: nat)
    ensures ValueOf(DecimalDigits(n), 10) == n
  {
    var s := DecimalDigits(n);
    if n >= 10 {
      ValueOfDecimalDigits(n / 10);
      assert s[..|s| - 1] == DecimalDigits(n / 10);
    }
  }

  lemma {:induction false} DigitRunOfDigits(d: string, rest: string, radix: nat)
    requires AllDigits(d, radix)
    requires rest == [] || !IsDigit(rest[0], radix)
    ensures DigitRun(d + rest, radix) == |d|
  {
    if d != [] {
      assert (d + rest)[1..] == d[1..] + rest;
      DigitRunOfDigits(d[1..], rest, radix);
    }
  }

  /** Only the numeral "0" can begin a "0x" prefix. */
  lemma MagnitudeOfDecimalDigits(m: nat, rest: string)
    requires rest == [] || (!IsDigit(rest[0], 10) && (m != 0 || (rest[0] != 'x' && rest[0] != 'X')))
    ensures ParseMagnitude(DecimalDigits(m) + rest) == Some(m)
  {
    var d := DecimalDigits(m);
    var unsigned := d + rest;
    assert |d| == 1 && m != 0 ==> d[0] != '0';
    assert |d| >= 2 ==> unsigned[1] == d[1] && IsDigit(d[1], 10);
    assert |d| == 1 && rest != [] ==> unsigned[1] == rest[0];
    DigitRunOfDigits(d, rest, 10);
    assert unsigned[..|d|] == d;
    ValueOfDecimalDigits(m);
  }

  /** A text that starts with a digit is read as a positive magnitude, and with
      a '-' before it as a negative one. */
  lemma ParseIntOfSigned(unsigned: string, m: nat)
    requires unsigned != [] && IsDigit(unsigned[0], 10)
    requires ParseMagnitude(unsigned) == Some(m)
    ensures ParseInt(unsigned) == Some(m)
    ensures ParseInt("-" + unsigned) == Some(-(m as int))
  {
    assert TrimStart(unsigned) == unsigned;
    var text := "-" + unsigned;
    assert TrimStart(text) == text;
    assert text[1..] == unsigned;
  }

  /** parseInt reads back the decimal numeral of any integer, and ignores
      whatever follows it unless that continues the number: "12px" and "12x"
      are 12, while "0x1f" is read in base 16. */
  lemma ParseIntOfDecimal(n: int, rest: string)
    requires rest == [] || (!IsDigit(rest[0], 10) && (n != 0 || (rest[0] != 'x' && rest[0] != 'X')))
    ensures ParseInt(Decimal(n) + rest) == Some(n)
  {
    var m: nat := if n < 0 then -n else n;
    var d := DecimalDigits(m);
    var unsigned := d + rest;
    MagnitudeOfDecimalDigits(m, rest);
    assert unsigned[0] == d[0];
    ParseIntOfSigned(unsigned, m);
    if n < 0 {
      assert Decimal(n) + rest == "-" + unsigned;
    } else {
      assert Decimal(n) + rest == unsigned;
    }
  }

  // ---------------------------------------------------------------------------
  // Case-insensitive substring search.
  // ---------------------------------------------------------------------------

  function LowerChar(c: char): char
  {
    if 'A' <= c <= 'Z' then (c as int + 32) as char else c
  }

  function Lower(s: string): (r: string)
    ensures |r| == |s|
  {
    seq(|s|, i requires 0 <= i < |s| => LowerChar(s[i]))
  }

  predicate OccursAt(hay: string, needle: string, i: nat)
  {
    i + |needle| <= |hay| && hay[i..i + |needle|] == needle
  }

  predicate Contains(hay: string, needle: string)
  {
    exists i: nat :: i <= |hay| && OccursAt(hay, needle, i)
  }

  /** The literal reading of a search term with the "i" option: the term occurs
      in the text once both are put in lower case. */
  predicate ContainsIgnoringCase(hay: string, needle: string)
  {
    Contains(Lower(hay), Lower(needle))
  }

  /** A text matches a search term that differs from it in letter case only,
      and every text matches a term found in it verbatim. */
  lemma MatchIgnoringCase(hay: string, needle: string, i: nat)
    requires Lower(hay) == Lower(needle) || OccursAt(hay, needle, i)
    ensures ContainsIgnoringCase(hay, needle)
  {
    if Lower(hay) == Lower(needle) {
      assert OccursAt(Lower(hay), Lower(needle), 0);
    } else {
      assert Lower(hay)[i..i + |needle|] == Lower(needle);
      assert OccursAt(Lower(hay), Lower(needle), i);
    }
  }
}
