/**
 * Models of the C and C++ standard-library routines the server leans on:
 * `std::to_string`, `std::stoi`, `isspace` in the "C" locale and ASCII
 * `toupper`/`tolower`.  A C++ exception that nobody catches is an
 * `Outcome.Threw`.
 */
module CLib {

  /** The result of a call that may throw. */
  datatype Outcome<+T> = Done(value: T) | Threw

  datatype Option<+T> = None | Some(value: T)

  /** Range of a 32-bit `int`; `std::stoi` throws `out_of_range` outside it. */
  const IntMin: int := -0x8000_0000
  const IntMax: int := 0x7fff_ffff

  predicate IsDigit(c: char) { '0' <= c <= '9' }

  /** `isspace` in the "C" locale. */
  predicate IsSpace(c: char) {
    c == ' ' || c == '\t' || c == '\n' || c == '\U{000B}' || c == '\U{000C}' || c == '\r'
  }

  predicate AllDigits(s: string) { forall i :: 0 <= i < |s| ==> IsDigit(s[i]) }

  function DigitChar(d: nat): (c: char)
    requires d < 10
    ensures IsDigit(c)
  {
    ('0' as int + d) as char
  }

  function DigitValue(c: char): nat
    requires IsDigit(c)
  {
    c as int - '0' as int
  }

  /** `std::to_string` of a non-negative number: its decimal digits, with no leading zero. */
  function NatToString(n: nat): (s: string)
    ensures |s| >= 1 && AllDigits(s)
    ensures (s[0] == '0') == (n == 0)
    decreases n
  {
    if n < 10 then [DigitChar(n)] else NatToString(n / 10) + [DigitChar(n % 10)]
  }

  /** `std::to_string` of an `int`. */
  function IntToString(i: int): string
  {
    if i < 0 then "-" + NatToString(-i) else NatToString(i)
  }

  /** The value of a run of decimal digits, accumulated most significant digit first. */
  function DigitsValue(s: string): nat
    requires AllDigits(s)
  {
    if s == [] then 0 else DigitsValue(s[..|s| - 1]) * 10 + DigitValue(s[|s| - 1])
  }

  /** The longest prefix of `s` made of decimal digits. */
  function LeadingDigits(s: string): (d: string)
    ensures AllDigits(d) && d <= s
    ensures |d| < |s| ==> !IsDigit(s[|d|])
  {
    if s != [] && IsDigit(s[0]) then [s[0]] + LeadingDigits(s[1..]) else []
  }

  /**
   * `std::stoi(s)` in base 10: leading white space is skipped, then the text
   * is read as by `SignedDecimal`.
   */
  function StoI(s: string): (r: Outcome<int>)
    ensures r.Done? ==> IntMin <= r.value <= IntMax
  {
    if s != [] && IsSpace(s[0]) then StoI(s[1..]) else SignedDecimal(s)
  }

  /**
   * One optional sign, then the longest run of digits; anything after it is
   * ignored.  No digit (`invalid_argument`) or a value outside `int`
   * (`out_of_range`) throws.
   */
  function SignedDecimal(t: string): (r: Outcome<int>)
    ensures r.Done? ==> IntMin <= r.value <= IntMax
  {
    var negative := t != [] && t[0] == '-';
    var unsigned := if t != [] && (t[0] == '+' || t[0] == '-') then t[1..] else t;
    var digits := LeadingDigits(unsigned);
    if digits == [] then Threw
    else
      var v: int := if negative then -(DigitsValue(digits) as int) else DigitsValue(digits);
      if IntMin <= v <= IntMax then Done(v) else Threw
  }

  function ToUpper(c: char): char
  {
    if 'a' <= c <= 'z' then (c as int - 32) as char else c
  }

  function ToLower(c: char): char
  {
    if 'A' <= c <= 'Z' then (c as int + 32) as char else c
  }

  /** `std::transform(..., ::toupper)` on a copy of `s`. */
  function Upper(s: string): string
  {
    seq(|s|, i requires 0 <= i < |s| => ToUpper(s[i]))
  }

  /** `std::transform(..., ::tolower)` on a copy of `s`. */
  function Lower(s: string): string
  {
    seq(|s|, i requires 0 <= i < |s| => ToLower(s[i]))
  }

  // ---------------------------------------------------------------------
  // Properties

  lemma {:induction false} DigitsValueOfNatToString(n: nat)
    ensures DigitsValue(NatToString(n)) == n
    decreases n
  {
    var s := NatToString(n);
    if n < 10 {
      assert s[..0] == [];
    } else {
      DigitsValueOfNatToString(n / 10);
      assert s[..|s| - 1] == NatToString(n / 10);
    }
  }

  lemma {:induction false} LeadingDigitsOfDigits(d: string, rest: string)
    requires AllDigits(d)
    requires rest == [] || !IsDigit(rest[0])
    ensures LeadingDigits(d + rest) == d
    decreases |d|
  {
    if d == [] {
      assert d + rest == rest;
    } else {
      assert (d + rest)[1..] == d[1..] + rest;
      LeadingDigitsOfDigits(d[1..], rest);
      assert [d[0]] + d[1..] == d;
    }
  }

  /**
   * `std::stoi` reads back what `std::to_string` wrote, whatever text
   * follows as long as it does not start with a digit: it parses a leading
   * signed decimal and does not validate the rest.
   */
  lemma {:induction false} StoIReadsLeadingDecimal(i: int, rest: string)
    requires IntMin <= i <= IntMax
    requires rest == [] || !IsDigit(rest[0])
    ensures StoI(IntToString(i) + rest) == Done(i)
  {
    if i < 0 {
      StoIOfNegative(-i, rest);
      assert IntToString(i) + rest == "-" + NatToString(-i) + rest;
    } else {
      StoIOfNonNegative(i, rest);
    }
  }

  /**
   * The three outcomes of `std::stoi` on any text, written as white space
   * `ws`, an optional sign, a run of digits and a `rest` that does not go
   * on with a digit: no digit throws (`invalid_argument`), a signed value
   * outside `int` throws (`out_of_range`), and otherwise the value is read.
   */
  lemma {:induction false} StoIOutcomes(ws: string, sign: string, digits: string, rest: string)
    requires forall i :: 0 <= i < |ws| ==> IsSpace(ws[i])
    requires sign == "" || sign == "+" || sign == "-"
    requires AllDigits(digits) && (rest == [] || !IsDigit(rest[0]))
    requires sign + digits + rest == [] || !IsSpace((sign + digits + rest)[0])
    requires sign == "" && digits == [] && rest != [] ==> rest[0] != '+' && rest[0] != '-'
    ensures var v := if sign == "-" then -(DigitsValue(digits) as int) else DigitsValue(digits);
      StoI(ws + sign + digits + rest) == if digits == [] || !(IntMin <= v <= IntMax) then Threw else Done(v)
  {
    var t := sign + digits + rest;
    assert ws + sign + digits + rest == ws + t;
    StoISkipsSpace(ws, t);
    SignedDecimalOutcomes(sign, digits, rest);
  }

  /** `SignedDecimal` on an optional sign, a run of digits and a rest that does not go on with a digit. */
  lemma {:induction false} SignedDecimalOutcomes(sign: string, digits: string, rest: string)
    requires sign == "" || sign == "+" || sign == "-"
    requires AllDigits(digits) && (rest == [] || !IsDigit(rest[0]))
    requires sign == "" && digits == [] && rest != [] ==> rest[0] != '+' && rest[0] != '-'
    ensures var v := if sign == "-" then -(DigitsValue(digits) as int) else DigitsValue(digits);
      SignedDecimal(sign + digits + rest) == if digits == [] || !(IntMin <= v <= IntMax) then Threw else Done(v)
  {
    var t := sign + digits + rest;
    var unsigned := if t != [] && (t[0] == '+' || t[0] == '-') then t[1..] else t;
    if sign != "" {
      assert t[0] == sign[0] && t[1..] == digits + rest;
    } else {
      assert t == digits + rest;
      if digits != [] {
        assert IsDigit(t[0]);
      }
    }
    assert (t != [] && t[0] == '-') == (sign == "-");
    assert unsigned == digits + rest;
    LeadingDigitsOfDigits(digits, rest);
    assert LeadingDigits(unsigned) == digits;
  }

  /** `std::stoi` skips leading white space. */
  lemma {:induction false} StoISkipsSpace(ws: string, t: string)
    requires forall i :: 0 <= i < |ws| ==> IsSpace(ws[i])
    requires t == [] || !IsSpace(t[0])
    ensures StoI(ws + t) == SignedDecimal(t)
    decreases |ws|
  {
    if ws == [] {
      assert ws + t == t;
    } else {
      assert (ws + t)[1..] == ws[1..] + t;
      StoISkipsSpace(ws[1..], t);
    }
  }

  lemma {:induction false} StoIOfNonNegative(n: nat, rest: string)
    requires n <= IntMax
    requires rest == [] || !IsDigit(rest[0])
    ensures StoI(NatToString(n) + rest) == Done(n)
  {
    var d := NatToString(n);
    DigitsValueOfNatToString(n);
    LeadingDigitsOfDigits(d, rest);
    var s := d + rest;
    assert IsDigit(s[0]);
  }

  lemma {:induction false} StoIOfNegative(n: nat, rest: string)
    requires 0 < n <= -IntMin
    requires rest == [] || !IsDigit(rest[0])
    ensures StoI("-" + NatToString(n) + rest) == Done(-(n as int))
  {
    var d := NatToString(n);
    var s := "-" + d + rest;
    assert s[0] == '-';
    assert s[1..] == d + rest;
    assert LeadingDigits(d + rest) == d && DigitsValue(d) == n by {
      DigitsValueOfNatToString(n);
      LeadingDigitsOfDigits(d, rest);
    }
  }

  lemma {:induction false} StoIOfNatToString(n: nat)
    requires n <= IntMax
    ensures StoI(NatToString(n)) == Done(n)
  {
    StoIReadsLeadingDecimal(n, []);
    assert IntToString(n) + [] == NatToString(n);
  }

  lemma {:induction false} StoIOfIntToString(i: int)
    requires IntMin <= i <= IntMax
    ensures StoI(IntToString(i)) == Done(i)
  {
    StoIReadsLeadingDecimal(i, []);
    assert IntToString(i) + [] == IntToString(i);
  }

  /** A decimal numeral is short: at most one digit more than a tenth of its value. */
  lemma {:induction false} NatToStringLength(n: nat)
    ensures |NatToString(n)| <= 1 + n / 10
    decreases n
  {
    if n >= 10 {
      NatToStringLength(n / 10);
    }
  }

  /** Case folding is insensitive to the case the input was written in. */
  lemma {:induction false} UpperOfLower(s: string)
    ensures Upper(Lower(s)) == Upper(s)
  {
  }

  lemma {:induction false} LowerOfUpper(s: string)
    ensures Lower(Upper(s)) == Lower(s)
  {
  }

  /** Upper-casing a string with no lower-case letter changes nothing. */
  lemma {:induction false} UpperOfUpperCase(s: string)
    requires forall i :: 0 <= i < |s| ==> !('a' <= s[i] <= 'z')
    ensures Upper(s) == s
  {
  }

  /** Lower-casing a string with no upper-case letter changes nothing. */
  lemma {:induction false} LowerOfLowerCase(s: string)
    requires forall i :: 0 <= i < |s| ==> !('A' <= s[i] <= 'Z')
    ensures Lower(s) == s
  {
  }
}
