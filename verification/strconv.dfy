/**
 * Go's `strconv.Atoi` for a 64-bit `int`.  The sign is split off, then the
 * digit loop of `ParseUint` reads left to right and stops at the first
 * character that is not a digit (a syntax error) or at the first digit that
 * takes the value past 2^64 - 1 (a range error), whichever comes first; a
 * value that fits 64 unsigned bits but not the signed range is a range error
 * too.  `Itoa` is its inverse.
 */
module Strconv {
  import opened Wrappers

  const MaxInt: int := 0x7fff_ffff_ffff_ffff
  const MinInt: int := -0x8000_0000_0000_0000
  const MaxUint64: int := 0xffff_ffff_ffff_ffff

  datatype NumErrorKind = ErrSyntax | ErrRange

  /** Go's `*strconv.NumError`: the function, its input and what went wrong. */
  datatype NumError = NumError(func: string, num: string, err: NumErrorKind)

  predicate IsDigit(c: char)
  {
    '0' <= c <= '9'
  }

  predicate AllDigits(s: string)
  {
    forall i :: 0 <= i < |s| ==> IsDigit(s[i])
  }

  function DigitValue(c: char): nat
    requires IsDigit(c)
  {
    (c as int) - ('0' as int)
  }

  function DigitChar(d: nat): char
    requires d < 10
  {
    (d + '0' as int) as char
  }

  function Pow10(k: nat): nat
  {
    if k == 0 then 1 else 10 * Pow10(k - 1)
  }

  /** The value of a string of decimal digits, most significant first. */
  function DecimalValue(s: string): nat
    requires AllDigits(s)
  {
    if s == [] then 0 else DecimalValue(s[..|s| - 1]) * 10 + DigitValue(s[|s| - 1])
  }

  /** Whether `s` starts with a minus sign, and `s` without its leading sign if it has one. */
  function SplitSign(s: string): (bool, string)
  {
    if |s| > 0 && (s[0] == '-' || s[0] == '+') then (s[0] == '-', s[1..]) else (false, s)
  }

  /** An optional sign followed by at least one digit, and nothing else. */
  predicate IsDecimal(s: string)
  {
    var digits := SplitSign(s).1;
    digits != [] && AllDigits(digits)
  }

  /** The value a decimal string denotes. */
  function SignedValue(s: string): int
    requires IsDecimal(s)
  {
    var (negative, digits) := SplitSign(s);
    if negative then -(DecimalValue(digits) as int) else DecimalValue(digits)
  }

  /** The index of the first character of `s` that is not a digit, or `|s|`. */
  function FirstNonDigit(s: string): (k: nat)
    ensures k <= |s|
    ensures forall i :: 0 <= i < k ==> IsDigit(s[i])
    ensures k < |s| ==> !IsDigit(s[k])
  {
    if s == [] || !IsDigit(s[0]) then 0 else 1 + FirstNonDigit(s[1..])
  }

  /** The value of the run of digits `s` starts with. */
  function LeadingDigitsValue(s: string): nat
  {
    var k := FirstNonDigit(s);
    assert AllDigits(s[..k]);
    DecimalValue(s[..k])
  }

  /**
   * The digit loop of `ParseUint(s, 10, 64)` from accumulated value `n`:
   * a non-digit is a syntax error; a digit that takes the value past
   * 2^64 - 1 is a range error.
   */
  function ScanDigits(s: string, n: nat): Result<nat, NumErrorKind>
    requires n <= MaxUint64
    decreases |s|
  {
    if s == [] then Ok(n)
    else if !IsDigit(s[0]) then Err(ErrSyntax)
    else if n * 10 + DigitValue(s[0]) > MaxUint64 then Err(ErrRange)
    else ScanDigits(s[1..], n * 10 + DigitValue(s[0]))
  }

  /** The outcome of the digit loop, stated on the leading run of digits rather than step by step. */
  function ParseUintOutcome(s: string): Result<nat, NumErrorKind>
  {
    if LeadingDigitsValue(s) > MaxUint64 then Err(ErrRange)
    else if FirstNonDigit(s) < |s| then Err(ErrSyntax)
    else Ok(LeadingDigitsValue(s))
  }

  lemma {:induction false} DecimalValuePrefix(s: string, a: nat, b: nat)
    requires a <= b <= |s| && AllDigits(s[..b])
    ensures AllDigits(s[..a]) && DecimalValue(s[..a]) <= DecimalValue(s[..b])
    decreases b - a
  {
    if a < b {
      assert s[..b][..b - 1] == s[..b - 1];
      DecimalValuePrefix(s, a, b - 1);
    }
  }

  /** The digit loop, started after `j` digits, ends with `ParseUintOutcome`. */
  lemma {:induction false} ScanDigitsOutcome(s: string, j: nat)
    requires j <= FirstNonDigit(s)
    requires AllDigits(s[..j]) && DecimalValue(s[..j]) <= MaxUint64
    ensures ScanDigits(s[j..], DecimalValue(s[..j])) == ParseUintOutcome(s)
    decreases |s| - j
  {
    var k := FirstNonDigit(s);
    assert AllDigits(s[..k]);
    if j == |s| {
      assert s[..k] == s[..j];
    } else if !IsDigit(s[j]) {
      assert j == k;
    } else {
      assert s[..j + 1][..j] == s[..j];
      assert DecimalValue(s[..j + 1]) == DecimalValue(s[..j]) * 10 + DigitValue(s[j]);
      assert s[j..][1..] == s[j + 1..];
      DecimalValuePrefix(s[..k], j + 1, k);
      assert s[..k][..j + 1] == s[..j + 1];
      assert s[..k][..k] == s[..k];
      if DecimalValue(s[..j + 1]) <= MaxUint64 {
        ScanDigitsOutcome(s, j + 1);
      }
    }
  }

  /** Go's `ParseUint(digits, 10, 64)`: an empty string is a syntax error, otherwise the digit loop. */
  function ParseUint(digits: string): (r: Result<nat, NumErrorKind>)
    ensures r == if digits == [] then Err(ErrSyntax) else ParseUintOutcome(digits)
  {
    if digits == [] then Err(ErrSyntax)
    else
      assert digits[..0] == [] && digits[0..] == digits;
      ScanDigitsOutcome(digits, 0);
      ScanDigits(digits, 0)
  }

  function Atoi(s: string): (r: Result<int, NumError>)
    ensures r.Err? ==> r.error.func == "Atoi" && r.error.num == s
    ensures IsDecimal(s) ==> (r.Ok? <==> MinInt <= SignedValue(s) <= MaxInt)
    ensures IsDecimal(s) && r.Ok? ==> r.value == SignedValue(s)
    ensures IsDecimal(s) && r.Err? ==> r.error.err == ErrRange
    ensures !IsDecimal(s) ==>
              r.Err? && (r.error.err == ErrRange <==> LeadingDigitsValue(SplitSign(s).1) > MaxUint64)
  {
    var (negative, digits) := SplitSign(s);
    assert AllDigits(digits) ==> digits[..FirstNonDigit(digits)] == digits;
    match ParseUint(digits)
    case Err(kind) => Err(NumError("Atoi", s, kind))
    case Ok(u) =>
      if !negative && u > MaxInt then Err(NumError("Atoi", s, ErrRange))
      else if negative && u > -MinInt then Err(NumError("Atoi", s, ErrRange))
      else Ok(if negative then -(u as int) else u)
  }

  /** The decimal digits of `n`, without leading zeros. */
  function NatToDecimal(n: nat): string
  {
    if n < 10 then [DigitChar(n)] else NatToDecimal(n / 10) + [DigitChar(n % 10)]
  }

  /** Go's `strconv.Itoa`. */
  function Itoa(n: int): string
  {
    if n < 0 then "-" + NatToDecimal(-n) else NatToDecimal(n)
  }

  lemma {:induction false} NatToDecimalValue(n: nat)
    ensures NatToDecimal(n) != [] && AllDigits(NatToDecimal(n))
    ensures DecimalValue(NatToDecimal(n)) == n
  {
    if n >= 10 {
      NatToDecimalValue(n / 10);
      var s := NatToDecimal(n);
      assert s[..|s| - 1] == NatToDecimal(n / 10);
    }
  }

  /** Every value of a 64-bit `int` is read back from its decimal form. */
  lemma AtoiItoa(n: int)
    requires MinInt <= n <= MaxInt
    ensures Atoi(Itoa(n)) == Ok(n)
  {
    if n < 0 {
      NatToDecimalValue(-n);
      assert SplitSign(Itoa(n)) == (true, NatToDecimal(-n));
    } else {
      NatToDecimalValue(n);
      assert IsDigit(NatToDecimal(n)[0]);
      assert SplitSign(Itoa(n)) == (false, NatToDecimal(n));
    }
  }

  lemma {:induction false} DecimalValueBelow(s: string)
    requires AllDigits(s)
    ensures DecimalValue(s) < Pow10(|s|)
  {
    if s != [] {
      DecimalValueBelow(s[..|s| - 1]);
    }
  }

  lemma {:induction false} Pow10Monotone(a: nat, b: nat)
    requires a <= b
    ensures Pow10(a) <= Pow10(b)
    decreases b
  {
    if a < b {
      Pow10Monotone(a, b - 1);
    }
  }

  /**
   * A character other than a digit (a sign excepted in front) within the
   * first 20 characters makes `Atoi` fail with a syntax error: at most 19
   * digits precede it, too few to overflow first.
   */
  lemma AtoiRejectsNonDigit(s: string, i: nat)
    requires i < |s| && i <= 19 && !IsDigit(s[i])
    requires i == 0 ==> s[0] != '-' && s[0] != '+'
    ensures Atoi(s) == Err(NumError("Atoi", s, ErrSyntax))
  {
    var digits := SplitSign(s).1;
    var j := if |digits| < |s| then i - 1 else i;
    assert j < |digits| && digits[j] == s[i];
    var k := FirstNonDigit(digits);
    assert AllDigits(digits[..k]);
    DecimalValueBelow(digits[..k]);
    Pow10Monotone(k, 19);
    assert Pow10(5) == 100_000;
    assert Pow10(10) == 10_000_000_000;
    assert Pow10(15) == 1_000_000_000_000_000;
    assert Pow10(19) == 10_000_000_000_000_000_000;
  }

  /** A run of digits that overflows 64 bits is a range error even when a non-digit follows it. */
  lemma AtoiOverflowBeforeNonDigit(digits: string, rest: string)
    requires AllDigits(digits) && DecimalValue(digits) > MaxUint64
    requires rest != [] && !IsDigit(rest[0])
    ensures Atoi(digits + rest) == Err(NumError("Atoi", digits + rest, ErrRange))
  {
    var s := digits + rest;
    assert digits != [];
    assert SplitSign(s).1 == s;
    assert s[|digits|] == rest[0];
    assert forall i :: 0 <= i < |digits| ==> s[i] == digits[i];
    assert FirstNonDigit(s) == |digits|;
    assert s[..|digits|] == digits;
  }
}
