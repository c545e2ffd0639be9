/**
 * Go's `strconv.Atoi` on a 64-bit platform, and the base-10 rendering of an
 * `int` that `fmt.Sprint` produces.
 *
 * Atoi accepts an optional `+` or `-` followed by at least one decimal digit
 * (no underscores in base 10). Digits are read left to right into an unsigned
 * 64-bit accumulator; the first digit that would push it past 2^64-1 gives a
 * range error, a non-digit met before that gives a syntax error, and a value
 * outside the `int64` range at the end gives a range error. The error always
 * carries the whole input text.
 */
module GoStrconv {
  import opened Wrappers

  const MaxInt64: int := 0x7fff_ffff_ffff_ffff
  const MinInt64: int := -0x8000_0000_0000_0000
  const MaxUint64: int := 0xffff_ffff_ffff_ffff

  datatype NumErrorKind = ErrSyntax | ErrRange

  /** `*strconv.NumError` as Atoi returns it (its Func is always "Atoi"). */
  datatype NumError = NumError(num: string, kind: NumErrorKind)

  predicate IsDigit(c: char)
  {
    '0' <= c <= '9'
  }

  predicate AllDigits(s: string)
  {
    forall i | 0 <= i < |s| :: IsDigit(s[i])
  }

  function DigitValue(c: char): (d: nat)
    requires IsDigit(c)
    ensures d < 10
  {
    c as int - '0' as int
  }

  function DigitChar(d: nat): (c: char)
    requires d < 10
    ensures IsDigit(c) && DigitValue(c) == d
  {
    ('0' as int + d) as char
  }

  /** The number that the digits `s` denote when read after the digits worth `acc`. */
  function DecimalValue(acc: nat, s: string): (v: nat)
    requires AllDigits(s)
    ensures v >= acc
    ensures s != [] ==> v >= acc * 10 + DigitValue(s[0])
    decreases |s|
  {
    if s == [] then acc
    else DecimalValue(acc * 10 + DigitValue(s[0]), s[1..])
  }

  /** The digit loop of `strconv.ParseUint(s, 10, 64)`, continuing from `acc`. */
  function ScanDigits(s: string, acc: nat): (r: Result<nat, NumErrorKind>)
    requires acc <= MaxUint64
    ensures r.Success? <==> AllDigits(s) && DecimalValue(acc, s) <= MaxUint64
    ensures r.Success? ==> r.value == DecimalValue(acc, s)
    ensures r.Failure? && AllDigits(s) ==> r.error == ErrRange
    decreases |s|
  {
    if s == [] then Success(acc)
    else if !IsDigit(s[0]) then Failure(ErrSyntax)
    else if acc * 10 + DigitValue(s[0]) > MaxUint64 then Failure(ErrRange)
    else
      assert AllDigits(s) <==> AllDigits(s[1..]) by {
        if AllDigits(s[1..]) {
          forall i | 0 < i < |s| ensures IsDigit(s[i]) { assert s[i] == s[1..][i - 1]; }
        }
      }
      ScanDigits(s[1..], acc * 10 + DigitValue(s[0]))
  }

  predicate HasSign(s: string)
  {
    |s| > 0 && (s[0] == '+' || s[0] == '-')
  }

  /** The text after an optional leading sign. */
  function Magnitude(s: string): string
  {
    if HasSign(s) then s[1..] else s
  }

  /** Optional sign followed by at least one decimal digit. */
  predicate Signed(s: string)
  {
    Magnitude(s) != [] && AllDigits(Magnitude(s))
  }

  function SignedValue(s: string): int
    requires Signed(s)
  {
    var m: int := DecimalValue(0, Magnitude(s));
    if s[0] == '-' then -m else m
  }

  predicate InInt64(n: int)
  {
    MinInt64 <= n <= MaxInt64
  }

  /** `strconv.Atoi` for a 64-bit `int`. */
  function Atoi(s: string): (r: Result<int, NumError>)
    ensures r.Success? <==> Signed(s) && InInt64(SignedValue(s))
    ensures r.Success? ==> r.value == SignedValue(s)
    ensures Signed(s) && !InInt64(SignedValue(s)) ==> r == Failure(NumError(s, ErrRange))
    ensures r.Failure? ==> r.error.num == s
    ensures r.Failure? && r.error.kind == ErrSyntax ==> !Signed(s)
  {
    if s == [] then Failure(NumError(s, ErrSyntax))
    else
      var digits := Magnitude(s);
      if digits == [] then Failure(NumError(s, ErrSyntax))
      else match ScanDigits(digits, 0)
        case Failure(kind) => Failure(NumError(s, kind))
        case Success(u) =>
          if s[0] == '-' then
            if u > MaxInt64 + 1 then Failure(NumError(s, ErrRange)) else Success(0 - u)
          else
            if u > MaxInt64 then Failure(NumError(s, ErrRange)) else Success(u)
  }

  /** Base-10 digits of a natural number, without leading zeros. */
  function Decimal(n: nat): (s: string)
    ensures |s| >= 1 && AllDigits(s)
    ensures n == 0 ==> s == "0"
    ensures n > 0 ==> s[0] != '0'
    decreases n
  {
    if n < 10 then [DigitChar(n)]
    else
      var init := Decimal(n / 10);
      var s := init + [DigitChar(n % 10)];
      assert forall i | 0 <= i < |init| :: s[i] == init[i];
      s
  }

  /** `fmt.Sprint` of an `int`: a `-` for negative numbers, then the decimal digits. */
  function FormatInt(n: int): (s: string)
    ensures |s| >= 1
    ensures n >= 0 ==> AllDigits(s)
    ensures n < 0 ==> s[0] == '-' && AllDigits(s[1..])
    ensures n == 0 ==> s == "0"
    ensures n > 0 ==> s[0] != '0'
    ensures n < 0 ==> |s| >= 2 && s[1] != '0'
    ensures '_' !in s
  {
    if n < 0 then "-" + Decimal(-n) else Decimal(n)
  }

  lemma {:induction false} DecimalValueSnoc(acc: nat, s: string, c: char)
    requires AllDigits(s) && IsDigit(c)
    ensures AllDigits(s + [c])
    ensures DecimalValue(acc, s + [c]) == DecimalValue(acc, s) * 10 + DigitValue(c)
    decreases |s|
  {
    assert forall i | 0 <= i < |s| :: (s + [c])[i] == s[i];
    if s != [] {
      assert (s + [c])[1..] == s[1..] + [c];
      assert AllDigits(s[1..]) by {
        forall i | 0 <= i < |s| - 1 ensures IsDigit(s[1..][i]) { assert s[1..][i] == s[i + 1]; }
      }
      DecimalValueSnoc(acc * 10 + DigitValue(s[0]), s[1..], c);
    }
  }

  /** Reading back the digits of `n` gives `n`. */
  lemma {:induction false} DecimalValueOfDecimal(n: nat)
    ensures DecimalValue(0, Decimal(n)) == n
    decreases n
  {
    if n >= 10 {
      DecimalValueOfDecimal(n / 10);
      DecimalValueSnoc(0, Decimal(n / 10), DigitChar(n % 10));
    }
  }

  /** Atoi inverts the decimal rendering of every 64-bit integer. */
  lemma AtoiFormatInt(n: int)
    requires InInt64(n)
    ensures Atoi(FormatInt(n)) == Success(n)
  {
    var s := FormatInt(n);
    if n < 0 {
      DecimalValueOfDecimal(-n);
      assert Magnitude(s) == Decimal(-n);
    } else {
      DecimalValueOfDecimal(n);
      assert IsDigit(s[0]);
      assert Magnitude(s) == Decimal(n);
    }
  }
}
