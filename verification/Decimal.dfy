/** Decimal text of integers as the C++ library prints and reads it:
    `std::to_string`, `std::stoi`, and the zero padding of `std::setw`/`std::setfill`. */
module Decimal {

  const INT32_MIN: int := -0x8000_0000
  const INT32_MAX: int := 0x7fff_ffff

  predicate IsInt32(v: int) {
    INT32_MIN <= v <= INT32_MAX
  }

  predicate IsDigit(c: char) {
    '0' <= c <= '9'
  }

  predicate AllDigits(s: string) {
    forall i :: 0 <= i < |s| ==> IsDigit(s[i])
  }

  function DigitChar(d: int): (c: char)
    requires 0 <= d < 10
    ensures IsDigit(c) && DigitValue(c) == d
  {
    ('0' as int + d) as char
  }

  function DigitValue(c: char): int
    requires IsDigit(c)
  {
    c as int - '0' as int
  }

  /** The digits of a natural number, most significant first, no leading zero. */
  function Digits(n: nat): (s: string)
    ensures |s| > 0 && AllDigits(s)
  {
    if n < 10 then [DigitChar(n)] else Digits(n / 10) + [DigitChar(n % 10)]
  }

  /** The number a digit string denotes, read from its last digit. */
  function Value(s: string): nat
    requires AllDigits(s)
  {
    if s == [] then 0 else Value(s[..|s| - 1]) * 10 + DigitValue(s[|s| - 1])
  }

  /** `std::to_string(int)`. */
  function ToString(v: int): string {
    if v < 0 then "-" + Digits(-v) else Digits(v)
  }

  /** What `std::stoi` does with a text: a value, or one of its two exceptions. */
  datatype Parsed = Parsed(value: int) | InvalidArgument | OutOfRange

  predicate IsSpace(c: char) {
    c == ' ' || c == '\t' || c == '\n' || c == '\r' || c as int == 11 || c as int == 12
  }

  function SkipSpaces(s: string): string {
    if s != [] && IsSpace(s[0]) then SkipSpaces(s[1..]) else s
  }

  /** The longest leading run of digits. */
  function DigitPrefix(s: string): (p: string)
    ensures AllDigits(p) && p <= s
    ensures |p| < |s| ==> !IsDigit(s[|p|])
  {
    if s != [] && IsDigit(s[0]) then [s[0]] + DigitPrefix(s[1..]) else []
  }

  /** `std::stoi(s)`, base 10: leading white space and text after the digits are ignored. */
  function Stoi(s: string): Parsed {
    var t := SkipSpaces(s);
    if t != [] && (t[0] == '-' || t[0] == '+') then ReadDigits(t[0] == '-', t[1..]) else ReadDigits(false, t)
  }

  function ReadDigits(negative: bool, t: string): Parsed {
    var digits := DigitPrefix(t);
    if digits == [] then InvalidArgument
    else
      var magnitude: int := Value(digits);
      var v := if negative then -magnitude else magnitude;
      if IsInt32(v) then Parsed(v) else OutOfRange
  }

  predicate AllSpaces(s: string) {
    forall i :: 0 <= i < |s| ==> IsSpace(s[i])
  }

  /** A text cut into white space, an optional sign, all the digits that follow, and the rest. */
  predicate IsNumeral(s: string, spaces: string, sign: string, digits: string, rest: string) {
    && s == spaces + (sign + (digits + rest))
    && AllSpaces(spaces)
    && (sign == "" || sign == "+" || sign == "-")
    && digits != [] && AllDigits(digits)
    && (rest != [] ==> !IsDigit(rest[0]))
  }

  function SignedValue(sign: string, digits: string): int
    requires AllDigits(digits)
  {
    var magnitude: int := Value(digits);
    if sign == "-" then -magnitude else magnitude
  }

  lemma {:induction false} SkipLeadingSpaces(spaces: string, text: string)
    requires AllSpaces(spaces) && (text != [] ==> !IsSpace(text[0]))
    ensures SkipSpaces(spaces + text) == text
  {
    if spaces == [] {
      assert spaces + text == text;
    } else {
      assert (spaces + text)[1..] == spaces[1..] + text;
      SkipLeadingSpaces(spaces[1..], text);
    }
  }

  /** `std::stoi` skips white space, takes an optional sign and all the digits that follow, and ignores
      the rest; the number must fit 32 bits. */
  lemma StoiReads(s: string, spaces: string, sign: string, digits: string, rest: string)
    requires IsNumeral(s, spaces, sign, digits, rest)
    ensures var v := SignedValue(sign, digits);
            Stoi(s) == if -0x8000_0000 <= v <= 0x7fff_ffff then Parsed(v) else OutOfRange
  {
    var number := digits + rest;
    assert number[0] == digits[0] && IsDigit(digits[0]);
    SkipLeadingSpaces(spaces, sign + number);
    DigitPrefixOf(digits, rest);
    StoiAfterSpaces(s, sign, number);
  }

  lemma StoiAfterSpaces(s: string, sign: string, number: string)
    requires SkipSpaces(s) == sign + number && number != [] && IsDigit(number[0])
    requires sign == "" || sign == "+" || sign == "-"
    ensures Stoi(s) == ReadDigits(sign == "-", number)
  {
    var t := SkipSpaces(s);
    if |sign| == 0 {
      assert t == number && !(number[0] == '-' || number[0] == '+');
    } else {
      assert |sign| == 1 && t[0] == sign[0];
      assert t[1..] == number;
      assert (sign == "-") == (t[0] == '-');
    }
  }

  lemma NumeralFrom(s: string, spaces: string, sign: string, number: string)
    requires s == spaces + (sign + number) && AllSpaces(spaces) && DigitPrefix(number) != []
    requires sign == "" || sign == "+" || sign == "-"
    ensures var digits := DigitPrefix(number); IsNumeral(s, spaces, sign, digits, number[|digits|..])
  {
    var digits := DigitPrefix(number);
    assert digits + number[|digits|..] == number;
  }

  lemma NumeralParts(s: string) returns (spaces: string, sign: string, digits: string, rest: string)
    requires !Stoi(s).InvalidArgument?
    ensures IsNumeral(s, spaces, sign, digits, rest)
  {
    spaces := SkippedSpaces(s);
    var t := SkipSpaces(s);
    var signed := t != [] && (t[0] == '-' || t[0] == '+');
    sign := if signed then [t[0]] else "";
    var number := if signed then t[1..] else t;
    assert t == sign + number;
    NumeralFrom(s, spaces, sign, number);
    digits := DigitPrefix(number);
    rest := number[|digits|..];
  }

  /** Every other text is an invalid argument. */
  lemma StoiRejects(s: string)
    ensures Stoi(s).InvalidArgument? <==>
              forall spaces, sign, digits, rest :: !IsNumeral(s, spaces, sign, digits, rest)
  {
    if !Stoi(s).InvalidArgument? {
      var spaces, sign, digits, rest := NumeralParts(s);
    } else {
      forall spaces, sign, digits, rest
        ensures !IsNumeral(s, spaces, sign, digits, rest)
      {
        if IsNumeral(s, spaces, sign, digits, rest) {
          StoiReads(s, spaces, sign, digits, rest);
        }
      }
    }
  }

  lemma {:induction false} SkippedSpaces(s: string) returns (spaces: string)
    ensures AllSpaces(spaces) && s == spaces + SkipSpaces(s)
  {
    if s != [] && IsSpace(s[0]) {
      var more := SkippedSpaces(s[1..]);
      spaces := [s[0]] + more;
    } else {
      spaces := "";
    }
  }

  lemma {:induction false} ValueOfDigits(n: nat)
    ensures Value(Digits(n)) == n
  {
    var s := Digits(n);
    if n < 10 {
      assert s[..|s| - 1] == [];
    } else {
      ValueOfDigits(n / 10);
      assert s[..|s| - 1] == Digits(n / 10);
    }
  }

  lemma {:induction false} DigitPrefixOf(d: string, rest: string)
    requires AllDigits(d)
    requires rest != [] ==> !IsDigit(rest[0])
    ensures DigitPrefix(d + rest) == d
  {
    if d == [] {
      assert d + rest == rest;
    } else {
      assert (d + rest)[1..] == d[1..] + rest;
      DigitPrefixOf(d[1..], rest);
    }
  }

  lemma DigitsStandAlone(n: nat)
    ensures DigitPrefix(Digits(n)) == Digits(n) && Value(Digits(n)) == n
  {
    DigitPrefixOf(Digits(n), []);
    assert Digits(n) + [] == Digits(n);
    ValueOfDigits(n);
  }

  /** Printing and reading back is the identity on every 32-bit integer, the minimum included. */
  lemma StoiOfToString(v: int)
    requires IsInt32(v)
    ensures Stoi(ToString(v)) == Parsed(v)
  {
    var t := ToString(v);
    var digits := Digits(if v < 0 then -v else v);
    DigitsStandAlone(if v < 0 then -v else v);
    assert IsDigit(digits[0]);
    assert t == (if v < 0 then "-" else "") + digits;
    assert t[0] == if v < 0 then '-' else digits[0];
    assert SkipSpaces(t) == t;
    StoiAfterSpaces(t, if v < 0 then "-" else "", digits);
  }

  /** Two integers with the same text are the same integer. */
  lemma ToStringInjective(a: int, b: int)
    requires ToString(a) == ToString(b)
    ensures a == b
  {
    var da, db := Digits(if a < 0 then -a else a), Digits(if b < 0 then -b else b);
    ValueOfDigits(if a < 0 then -a else a);
    ValueOfDigits(if b < 0 then -b else b);
    assert IsDigit(da[0]) && IsDigit(db[0]);
    if a < 0 {
      assert ToString(a)[1..] == da;
    }
    if b < 0 {
      assert ToString(b)[1..] == db;
    }
  }

  /** `std::setw(width) << std::setfill('0')` on a digit string: fill on the left. */
  function PadZeros(s: string, width: nat): (p: string)
    requires AllDigits(s)
    ensures AllDigits(p) && |p| == if |s| < width then width else |s|
    decreases width - |s|
  {
    if |s| < width then PadZeros("0" + s, width) else s
  }

  lemma {:induction false} LeadingZero(s: string)
    requires AllDigits(s)
    ensures AllDigits("0" + s) && Value("0" + s) == Value(s)
  {
    var z := "0" + s;
    if s == [] {
      assert z[..|z| - 1] == [];
    } else {
      LeadingZero(s[..|s| - 1]);
      assert z[..|z| - 1] == "0" + s[..|s| - 1];
    }
  }

  /** Padding never changes the number a digit string denotes. */
  lemma {:induction false} PaddingKeepsValue(s: string, width: nat)
    requires AllDigits(s)
    ensures Value(PadZeros(s, width)) == Value(s)
    decreases width - |s|
  {
    if |s| < width {
      LeadingZero(s);
      PaddingKeepsValue("0" + s, width);
    }
  }
}
