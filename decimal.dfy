/**
 * Decimal text for unsigned integers, as the console and the protocol use it:
 * fmt's `%d` verb (Format) and strconv.ParseUint(s, 10, 16) (ParseUint16).
 */
module Decimal {
  import opened Wrappers

  const MaxUint16: nat := 65535

  predicate IsDigit(c: char) { '0' <= c <= '9' }

  function DigitValue(c: char): (d: nat)
    requires IsDigit(c)
    ensures d < 10
  {
    (c as int) - ('0' as int)
  }

  function DigitChar(d: nat): (c: char)
    requires d < 10
    ensures IsDigit(c) && DigitValue(c) == d
  {
    ('0' as int + d) as char
  }

  predicate AllDigits(s: string) { forall i | 0 <= i < |s| :: IsDigit(s[i]) }

  /** The number a string of decimal digits denotes, most significant digit first. */
  function ValueOf(s: string): nat
    requires AllDigits(s)
  {
    if s == [] then 0 else ValueOf(s[..|s| - 1]) * 10 + DigitValue(s[|s| - 1])
  }

  /** fmt's `%d` for an unsigned value: the shortest decimal numeral of n. */
  function Format(n: nat): (s: string)
    ensures |s| > 0 && AllDigits(s)
    ensures ValueOf(s) == n
    ensures s[0] == '0' ==> s == "0"
    decreases n
  {
    if n < 10 then [DigitChar(n)]
    else
      var s := Format(n / 10) + [DigitChar(n % 10)];
      assert s[..|s| - 1] == Format(n / 10);
      s
  }

  /** The two failures strconv.ParseUint reports: a character that is not a digit, or a value out of range. */
  datatype NumError = ErrSyntax | ErrRange

  /**
   * strconv.ParseUint(s, 10, 16): the empty string is a syntax error; digits are consumed
   * left to right, a non-digit is a syntax error and an accumulated value above 65535 is
   * a range error, whichever comes first.
   */
  function ParseUint16(s: string): Result<nat, NumError>
  {
    if s == [] then Failure(ErrSyntax) else Accumulate(s, 0, 0)
  }

  function Accumulate(s: string, i: nat, n: nat): Result<nat, NumError>
    requires i <= |s|
    decreases |s| - i
  {
    if i == |s| then Success(n)
    else if !IsDigit(s[i]) then Failure(ErrSyntax)
    else if n * 10 + DigitValue(s[i]) > MaxUint16 then Failure(ErrRange)
    else Accumulate(s, i + 1, n * 10 + DigitValue(s[i]))
  }

  lemma {:induction false} PrefixValueBounded(s: string, i: nat)
    requires AllDigits(s) && i <= |s|
    ensures AllDigits(s[..i]) && ValueOf(s[..i]) <= ValueOf(s)
    decreases |s| - i
  {
    if i < |s| {
      var t := s[..|s| - 1];
      assert t[..i] == s[..i];
      PrefixValueBounded(t, i);
    } else {
      assert s[..i] == s;
    }
  }

  lemma {:induction false} AccumulateMeaning(s: string, i: nat, n: nat)
    requires i <= |s| && AllDigits(s[..i]) && n == ValueOf(s[..i]) && n <= MaxUint16
    ensures Accumulate(s, i, n).Success? <==> AllDigits(s) && ValueOf(s) <= MaxUint16
    ensures Accumulate(s, i, n).Success? ==> Accumulate(s, i, n).value == ValueOf(s)
    decreases |s| - i
  {
    if i == |s| {
      assert s[..i] == s;
    } else if !IsDigit(s[i]) {
    } else {
      var p := s[..i + 1];
      assert p[..i] == s[..i];
      assert AllDigits(p);
      assert ValueOf(p) == n * 10 + DigitValue(s[i]);
      if n * 10 + DigitValue(s[i]) > MaxUint16 {
        if AllDigits(s) {
          PrefixValueBounded(s, i + 1);
        }
      } else {
        AccumulateMeaning(s, i + 1, n * 10 + DigitValue(s[i]));
      }
    }
  }

  /** A port value is accepted exactly when it is a non-empty run of digits whose value fits in 16 bits. */
  lemma ParseUint16Meaning(s: string)
    ensures ParseUint16(s).Success? <==> s != [] && AllDigits(s) && ValueOf(s) <= MaxUint16
    ensures ParseUint16(s).Success? ==> ParseUint16(s).value == ValueOf(s)
  {
    if s != [] {
      assert s[..0] == [];
      AccumulateMeaning(s, 0, 0);
    }
  }

  /** Every 16-bit value survives formatting and parsing back. */
  lemma ParseFormatted(n: nat)
    requires n <= MaxUint16
    ensures ParseUint16(Format(n)) == Success(n)
  {
    ParseUint16Meaning(Format(n));
  }
}
