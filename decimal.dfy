/** Rust's decimal `to_string` for integers and `str::parse::<i32>`. */
module Decimal {
  import opened Ints
  import opened Results

  predicate IsDigit(c: char) {
    '0' <= c <= '9'
  }

  predicate AllDigits(s: string) {
    forall i :: 0 <= i < |s| ==> IsDigit(s[i])
  }

  function DigitChar(d: nat): (c: char)
    requires d < 10
    ensures IsDigit(c)
  {
    "0123456789"[d]
  }

  function DigitValue(c: char): (d: nat)
    requires IsDigit(c)
    ensures d < 10
  {
    (c as int) - ('0' as int)
  }

  lemma DigitRoundTrip(d: nat)
    requires d < 10
    ensures DigitValue(DigitChar(d)) == d
  {
  }

  /** Decimal digits of a natural number, most significant first, no leading zero. */
  function NatDigits(n: nat): (s: string)
    ensures |s| > 0 && AllDigits(s)
    ensures |s| > 1 ==> s[0] != '0'
    decreases n
  {
    if n < 10 then [DigitChar(n)] else NatDigits(n / 10) + [DigitChar(n % 10)]
  }

  /** `x.to_string()` for a signed integer: a minus sign for negatives, then the digits. */
  function DecimalString(x: int): (s: string)
    ensures |s| > 0
    ensures s[0] == '-' <==> x < 0
    ensures x >= 0 ==> AllDigits(s)
  {
    if x < 0 then "-" + NatDigits(-x) else NatDigits(x)
  }

  /** The value of a string of decimal digits, read most significant first. */
  function DigitsValue(s: string): nat
    requires AllDigits(s)
  {
    if s == [] then 0 else DigitsValue(s[..|s| - 1]) * 10 + DigitValue(s[|s| - 1])
  }

  /** The sign prefix accepted by Rust's integer parser for signed types:
      a leading `+` or `-` is consumed, anything else is part of the digits. */
  function SplitSign(s: string): (bool, string)
  {
    if |s| > 0 && s[0] == '+' then (false, s[1..])
    else if |s| > 0 && s[0] == '-' then (true, s[1..])
    else (false, s)
  }

  /** Integer syntax of Rust's `from_str` in radix 10, before the range check:
      an optional sign and at least one ASCII digit, nothing else. */
  function ParseInteger(s: string): (r: Option<int>)
    ensures r.Some? ==> |s| > 0
    ensures r.Some? && s[0] != '-' ==> r.value >= 0
  {
    var (negative, digits) := SplitSign(s);
    if digits == [] || !AllDigits(digits) then None
    else
      var magnitude: int := DigitsValue(digits);
      Some(if negative then -magnitude else magnitude)
  }

  const EmptyMessage: string := "cannot parse integer from empty string"
  const InvalidDigitMessage: string := "invalid digit found in string"
  const TooLargeMessage: string := "number too large to fit in target type"
  const TooSmallMessage: string := "number too small to fit in target type"

  /** The largest magnitude an `i32` of that sign can hold. */
  function MagnitudeLimit(negative: bool): nat {
    if negative then TwoTo31 else TwoTo31 - 1
  }

  /** The digit loop of Rust's `from_str_radix`: digits are taken left to
      right into `acc`, and the first character that is not a digit, or the
      first digit that takes the magnitude past the limit, ends the loop with
      that error. */
  function ScanDigits(negative: bool, digits: string, k: nat, acc: nat): (r: Result<nat>)
    requires k <= |digits|
    ensures r.Err? ==> r.error in {InvalidDigitMessage, TooLargeMessage, TooSmallMessage}
    decreases |digits| - k
  {
    if k == |digits| then Ok(acc)
    else if !IsDigit(digits[k]) then Err(InvalidDigitMessage)
    else
      var next := acc * 10 + DigitValue(digits[k]);
      if next > MagnitudeLimit(negative) then Err(if negative then TooSmallMessage else TooLargeMessage)
      else ScanDigits(negative, digits, k + 1, next)
  }

  /** `s.parse::<i32>()` with the message of the `ParseIntError` it returns:
      an empty string, a lone sign, a non-digit and an out-of-range value are
      errors, whichever the scan meets first. */
  function ParseI32(s: string): (r: Result<I32>)
    ensures r.Ok? <==> ParseInteger(s).Some? && -TwoTo31 <= ParseInteger(s).value < TwoTo31
    ensures r.Ok? ==> r.value == ParseInteger(s).value
    ensures s == [] ==> r == Err(EmptyMessage)
    ensures ParseInteger(s).Some? && ParseInteger(s).value >= TwoTo31 ==> r == Err(TooLargeMessage)
    ensures ParseInteger(s).Some? && ParseInteger(s).value < -TwoTo31 ==> r == Err(TooSmallMessage)
    ensures r.Err? ==> r.error in {EmptyMessage, InvalidDigitMessage, TooLargeMessage, TooSmallMessage}
    ensures r == Err(InvalidDigitMessage) ==> ParseInteger(s).None?
    ensures |s| == 1 && !IsDigit(s[0]) ==> r == Err(InvalidDigitMessage)
  {
    if s == [] then Err(EmptyMessage)
    else if |s| == 1 && (s[0] == '+' || s[0] == '-') then Err(InvalidDigitMessage)
    else
      var (negative, digits) := SplitSign(s);
      ScanAgreesWithValue(negative, digits, 0, 0);
      match ScanDigits(negative, digits, 0, 0)
      case Err(e) => Err(e)
      case Ok(m) =>
        var v: int := m;
        Ok(if negative then -v else v)
  }

  /** A prefix of a digit string is worth no more than the whole string. */
  lemma {:induction false} DigitsValuePrefix(digits: string, k: nat)
    requires AllDigits(digits) && k <= |digits|
    ensures DigitsValue(digits[..k]) <= DigitsValue(digits)
    decreases |digits| - k
  {
    if k < |digits| {
      DigitsValuePrefix(digits, k + 1);
      assert digits[..k + 1][..k] == digits[..k];
    } else {
      assert digits[..k] == digits;
    }
  }

  /** The scan succeeds exactly when the rest are digits and the whole value
      fits; it then yields that value, and an all-digit string that does not
      fit ends in the overflow error of its sign. */
  lemma {:induction false} ScanAgreesWithValue(negative: bool, digits: string, k: nat, acc: nat)
    requires k <= |digits| && AllDigits(digits[..k]) && acc == DigitsValue(digits[..k])
    requires acc <= MagnitudeLimit(negative)
    ensures ScanDigits(negative, digits, k, acc).Ok? <==> AllDigits(digits) && DigitsValue(digits) <= MagnitudeLimit(negative)
    ensures ScanDigits(negative, digits, k, acc).Ok? ==> ScanDigits(negative, digits, k, acc).value == DigitsValue(digits)
    ensures AllDigits(digits) && DigitsValue(digits) > MagnitudeLimit(negative) ==>
      ScanDigits(negative, digits, k, acc) == Err(if negative then TooSmallMessage else TooLargeMessage)
    decreases |digits| - k
  {
    if k == |digits| {
      assert digits[..k] == digits;
    } else {
      assert digits[..k + 1][..k] == digits[..k];
      if IsDigit(digits[k]) {
        assert AllDigits(digits[..k + 1]);
        var next := acc * 10 + DigitValue(digits[k]);
        assert next == DigitsValue(digits[..k + 1]);
        if next > MagnitudeLimit(negative) {
          if AllDigits(digits) {
            DigitsValuePrefix(digits, k + 1);
          }
        } else {
          ScanAgreesWithValue(negative, digits, k + 1, next);
        }
      }
    }
  }

  lemma {:induction false} NatDigitsValue(n: nat)
    ensures DigitsValue(NatDigits(n)) == n
    decreases n
  {
    var s := NatDigits(n);
    if n < 10 {
      DigitRoundTrip(n);
    } else {
      NatDigitsValue(n / 10);
      DigitRoundTrip(n % 10);
      assert s[..|s| - 1] == NatDigits(n / 10);
    }
  }

  /** Parsing what `to_string` printed gives back the number, whatever its size. */
  lemma ParseDecimalString(x: int)
    ensures ParseInteger(DecimalString(x)) == Some(x)
  {
    if x < 0 {
      NatDigitsValue(-x);
      assert SplitSign(DecimalString(x)) == (true, NatDigits(-x));
    } else {
      NatDigitsValue(x);
      assert SplitSign(DecimalString(x)) == (false, NatDigits(x));
    }
  }

  /** The decimal form of an `i32` parses back as that `i32`. */
  lemma ParseI32RoundTrip(x: I32)
    ensures ParseI32(DecimalString(x)) == Ok(x)
  {
    ParseDecimalString(x);
  }

  /** Distinct numbers print differently, so decimal ids identify their numbers. */
  lemma DecimalStringInjective(x: int, y: int)
    requires DecimalString(x) == DecimalString(y)
    ensures x == y
  {
    ParseDecimalString(x);
    ParseDecimalString(y);
  }
}
