/** The character-level C and C++ library behaviour the source relies on:
    decimal digits, `atoi` (C11 7.22.1.2) and the decimal text that an
    output stream writes for an int. */
module CText {
  import opened CArith

  function Pow10(n: nat): (r: nat)
    ensures r >= 1
  {
    if n == 0 then 1 else 10 * Pow10(n - 1)
  }

  /** The number of passes of the digit-counting loop of `itoa`: the number
      of decimal digits of n, none for 0. */
  function NumDigits(n: nat): nat
  {
    if n == 0 then 0 else 1 + NumDigits(n / 10)
  }

  /** n has at most k digits exactly when it is below 10^k. */
  lemma {:induction false} NumDigitsBound(n: nat, k: nat)
    ensures NumDigits(n) <= k <==> n < Pow10(k)
  {
    if n != 0 && k != 0 {
      NumDigitsBound(n / 10, k - 1);
    }
  }

  predicate IsDigit(c: char)
  {
    '0' <= c <= '9'
  }

  function DigitChar(d: nat): (c: char)
    requires d < 10
    ensures IsDigit(c)
  {
    ('0' as int + d) as char
  }

  function DigitValue(c: char): int
  {
    c as int - '0' as int
  }

  /** The decimal digits of n, most significant first, without leading
      zeros; empty for 0. */
  function Digits(n: nat): string
  {
    if n == 0 then [] else Digits(n / 10) + [DigitChar(n % 10)]
  }

  /** `Digits(n)` has one character per digit, all of them digits, and no
      leading zero. */
  lemma {:induction false} DigitsWellFormed(n: nat)
    ensures |Digits(n)| == NumDigits(n)
    ensures forall i :: 0 <= i < |Digits(n)| ==> IsDigit(Digits(n)[i])
    ensures n > 0 ==> Digits(n)[0] != '0'
  {
    if n > 0 {
      DigitsWellFormed(n / 10);
    }
  }

  predicate IsSpace(c: char)
  {
    c == ' ' || c == '\t' || c == '\n' || c == '\r' || c == '\U{000B}' || c == '\U{000C}'
  }

  /** The text after the leading white space: it does not start with white
      space. */
  function SkipSpaces(s: string): (t: string)
    ensures |t| <= |s|
    ensures t == [] || !IsSpace(t[0])
  {
    if s != [] && IsSpace(s[0]) then SkipSpaces(s[1..]) else s
  }

  /** What is skipped is exactly a prefix of white space: the result is the
      suffix of s that follows it. */
  lemma {:induction false} SkipSpacesSuffix(s: string)
    ensures SkipSpaces(s) == s[|s| - |SkipSpaces(s)|..]
    ensures forall i :: 0 <= i < |s| - |SkipSpaces(s)| ==> IsSpace(s[i])
  {
    if s != [] && IsSpace(s[0]) {
      SkipSpacesSuffix(s[1..]);
      forall i | 0 <= i < |s| - |SkipSpaces(s)|
        ensures IsSpace(s[i])
      {
        if i > 0 {
          assert s[i] == s[1..][i - 1];
        }
      }
    }
  }

  /** The longest prefix of s made of digits. */
  function LeadingDigits(s: string): string
  {
    if s != [] && IsDigit(s[0]) then [s[0]] + LeadingDigits(s[1..]) else []
  }

  /** The number a digit string denotes. */
  function Value(ds: string): int
  {
    if ds == [] then 0 else 10 * Value(ds[..|ds| - 1]) + DigitValue(ds[|ds| - 1])
  }

  /** C's `atoi`: leading white space, an optional sign, then as many digits
      as follow. */
  function Atoi(s: string): (n: int)
    ensures var t := SkipSpaces(s);
      t == [] || (!IsDigit(t[0]) && t[0] != '-' && t[0] != '+') ==> n == 0
  {
    var t := SkipSpaces(s);
    if t != [] && t[0] == '-' then -Value(LeadingDigits(t[1..]))
    else if t != [] && t[0] == '+' then Value(LeadingDigits(t[1..]))
    else Value(LeadingDigits(t))
  }

  lemma {:induction false} ValueDigits(n: nat)
    ensures Value(Digits(n)) == n
  {
    if n > 0 {
      var s := Digits(n);
      assert s[..|s| - 1] == Digits(n / 10);
      ValueDigits(n / 10);
    }
  }

  lemma {:induction false} LeadingDigitsOfDigits(s: string)
    requires forall i :: 0 <= i < |s| ==> IsDigit(s[i])
    ensures LeadingDigits(s) == s
  {
    if s != [] {
      LeadingDigitsOfDigits(s[1..]);
    }
  }

  /** `atoi` reads a non-empty digit string, with or without a leading '-',
      as the number it denotes. */
  lemma AtoiDigits(ds: string)
    requires ds != [] && forall i :: 0 <= i < |ds| ==> IsDigit(ds[i])
    ensures Atoi(ds) == Value(ds)
    ensures Atoi("-" + ds) == -Value(ds)
  {
    LeadingDigitsOfDigits(ds);
    assert !IsSpace(ds[0]);
    assert SkipSpaces(ds) == ds;
    var t := "-" + ds;
    assert SkipSpaces(t) == t;
    assert t[1..] == ds;
  }


  /** The text `operator<<` writes for an int: "-" for a negative number,
      then the digits of its magnitude; "0" for zero. */
  function Text(n: int): string
  {
    if n == 0 then "0" else (if n < 0 then "-" else "") + Digits(Abs(n))
  }

  /** `atoi` reads back the text an output stream wrote for any int. */
  lemma AtoiText(n: int)
    ensures Atoi(Text(n)) == n
  {
    if n == 0 {
      AtoiDigits("0");
    } else {
      var ds := Digits(Abs(n));
      DigitsWellFormed(Abs(n));
      ValueDigits(Abs(n));
      AtoiDigits(ds);
      if n < 0 {
        assert Text(n) == "-" + ds;
      } else {
        assert Text(n) == "" + ds == ds;
      }
    }
  }
}
