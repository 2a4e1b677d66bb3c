/**
 * The C++ conventions the terminal's code relies on, stated once: what a
 * `const char*` designates, what `std::to_string` prints for an `int`, and
 * a call that either returns a string or throws `std::runtime_error`.
 */
module Cpp {

  datatype Option<T> = None | Some(value: T)

  /** A call that returns a string, or throws `std::runtime_error(message)`. */
  datatype Outcome = Returned(text: string) | Threw(message: string)

  /**
   * The text a `const char*` designates: everything before the first NUL.
   * Every place where the source goes through `.data()`, `.c_str()` or a
   * `const char*` sees a string through this function.
   */
  function CString(s: string): (r: string)
    ensures |r| <= |s| && r == s[..|r|]
    ensures '\0' !in r
    ensures |r| < |s| ==> s[|r|] == '\0'
  {
    if s == [] || s[0] == '\0' then [] else [s[0]] + CString(s[1..])
  }

  lemma ConcatAssociative(a: string, b: string, c: string)
    ensures a + (b + c) == (a + b) + c
  {
  }

  /** A string with no NUL goes through a `const char*` unharmed. */
  lemma CStringWithoutNul(s: string)
    requires '\0' !in s
    ensures CString(s) == s
  {
  }

  /** Passing text through a `const char*` twice is the same as once. */
  lemma CStringIdempotent(s: string)
    ensures CString(CString(s)) == CString(s)
  {
    CStringWithoutNul(CString(s));
  }

  predicate IsDigit(c: char) {
    '0' <= c <= '9'
  }

  predicate AllDigits(s: string) {
    forall i :: 0 <= i < |s| ==> IsDigit(s[i])
  }

  function DigitChar(d: nat): (c: char)
    requires d < 10
    ensures IsDigit(c) && c as int - '0' as int == d
  {
    ('0' as int + d) as char
  }

  /** The decimal digits of `n`, most significant first, without leading zeros. */
  function NatToDecimal(n: nat): (s: string)
    ensures |s| >= 1 && AllDigits(s)
    ensures |s| > 1 ==> s[0] != '0'
  {
    if n < 10 then [DigitChar(n)] else NatToDecimal(n / 10) + [DigitChar(n % 10)]
  }

  /** `std::to_string(int)`: a minus sign for negative values, then the digits. */
  function IntToString(n: int): (s: string)
  {
    if n < 0 then "-" + NatToDecimal(-n) else NatToDecimal(n)
  }

  /** The value of a string of decimal digits (the inverse of `NatToDecimal`). */
  function DecimalValue(s: string): nat
    requires AllDigits(s)
  {
    if s == [] then 0 else 10 * DecimalValue(s[..|s| - 1]) + (s[|s| - 1] as int - '0' as int)
  }

  /** Reads back what `IntToString` writes; `None` for anything else. */
  function ParseInt(s: string): Option<int>
  {
    if |s| > 1 && s[0] == '-' && AllDigits(s[1..]) then Some(-(DecimalValue(s[1..]) as int))
    else if |s| > 0 && AllDigits(s) then Some(DecimalValue(s))
    else None
  }

  lemma {:induction false} NatToDecimalValue(n: nat)
    ensures DecimalValue(NatToDecimal(n)) == n
  {
    if n >= 10 {
      var s := NatToDecimal(n);
      assert s[..|s| - 1] == NatToDecimal(n / 10);
      NatToDecimalValue(n / 10);
    }
  }

  /** The number `std::to_string` prints can be read back exactly. */
  lemma IntToStringRoundTrip(n: int)
    ensures ParseInt(IntToString(n)) == Some(n)
  {
    var s := IntToString(n);
    if n < 0 {
      var d := NatToDecimal(-n);
      assert s == "-" + d;
      assert s[1..] == d;
      NatToDecimalValue(-n);
    } else {
      var d := NatToDecimal(n);
      assert s == d && IsDigit(d[0]);
      NatToDecimalValue(n);
    }
  }
}
