/** The decimal conversions the bot relies on: rendering a chat or order id
    (`strconv.Itoa`, `strconv.FormatInt(x, 10)`, `fmt` "%d") and reading one back
    (`strconv.ParseInt(s, 10, 64)` and `strconv.Atoi`, which agree on 64-bit
    platforms). Parsing keeps Go's distinction between a syntax error (the
    value returned is 0) and a range error (the value returned is clamped). */
module Strconv {
  import opened Model

  const MaxUint64: int := 0xFFFF_FFFF_FFFF_FFFF

  predicate IsDigit(c: char) {
    '0' <= c <= '9'
  }

  predicate AllDigits(s: string) {
    forall i | 0 <= i < |s| :: IsDigit(s[i])
  }

  function DigitValue(c: char): nat
    requires IsDigit(c)
  {
    c as int - '0' as int
  }

  function DigitChar(d: nat): (c: char)
    requires d < 10
    ensures IsDigit(c) && DigitValue(c) == d
  {
    ('0' as int + d) as char
  }

  /** Decimal digits of `n`, most significant first, without leading zeros. */
  function FormatNat(n: nat): (s: string)
    ensures 0 < |s| && AllDigits(s)
    ensures s[0] == '0' <==> n == 0
  {
    if n < 10 then [DigitChar(n)] else FormatNat(n / 10) + [DigitChar(n % 10)]
  }

  /** `strconv.FormatInt(n, 10)`: an optional minus sign, then the digits. */
  function FormatInt(n: int): (s: string)
    ensures 0 < |s|
    ensures forall i | 0 <= i < |s| :: IsDigit(s[i]) || (i == 0 && s[i] == '-')
    ensures s[0] == '-' <==> n < 0
  {
    if n < 0 then "-" + FormatNat(-n) else FormatNat(n)
  }

  datatype UintResult = UintOk(n: nat) | UintSyntax | UintRange

  /** The digit loop of `strconv.ParseUint(s, 10, 64)`, continuing from the
      value `acc` of the digits already read: a non-digit is a syntax error and
      a value that leaves the unsigned 64-bit range is a range error, whichever
      comes first from the left. */
  function ScanDigits(s: string, acc: nat): (r: UintResult)
    requires acc <= MaxUint64
    ensures r.UintOk? ==> acc <= r.n <= MaxUint64 && AllDigits(s)
    ensures r.UintSyntax? ==> !AllDigits(s)
  {
    if s == [] then UintOk(acc)
    else if !IsDigit(s[0]) then UintSyntax
    else
      var next := acc * 10 + DigitValue(s[0]);
      if next > MaxUint64 then UintRange else ScanDigits(s[1..], next)
  }

  /** `strconv.ParseUint(s, 10, 64)`. */
  function ParseUint(s: string): UintResult {
    if s == [] then UintSyntax else ScanDigits(s, 0)
  }

  /** The outcome of `strconv.ParseInt(s, 10, 64)`. */
  datatype IntResult = Parsed(value: int) | SyntaxError | RangeError(clamped: int)
  {
    /** The number Go returns beside the error; what a caller that discards
        the error goes on with. */
    function Value(): int {
      match this
      case Parsed(v) => v
      case SyntaxError => 0
      case RangeError(v) => v
    }
  }

  /** `strconv.ParseInt(s, 10, 64)`: an optional sign, then one or more digits. */
  function ParseInt(s: string): (r: IntResult)
    ensures MinInt64 <= r.Value() <= MaxInt64
    ensures r.Parsed? ==> 0 < |s| && var body := if s[0] == '+' || s[0] == '-' then s[1..] else s;
                          0 < |body| && AllDigits(body)
    ensures r.Parsed? && 0 < |s| && IsDigit(s[0]) ==> 0 <= r.value
    ensures s == [] ==> r == SyntaxError
  {
    if s == [] then SyntaxError
    else
      var neg := s[0] == '-';
      var body := if s[0] == '+' || s[0] == '-' then s[1..] else s;
      match ParseUint(body)
      case UintSyntax => SyntaxError
      case UintRange => if neg then RangeError(MinInt64) else RangeError(MaxInt64)
      case UintOk(u) =>
        if !neg && u > MaxInt64 then RangeError(MaxInt64)
        else if neg && u > -MinInt64 then RangeError(MinInt64)
        else Parsed(if neg then -(u as int) else u)
  }

  /** The value of a digit string read left to right, starting from `acc`. */
  function Horner(acc: nat, s: string): nat
    requires AllDigits(s)
    decreases |s|
  {
    if s == [] then acc else Horner(acc * 10 + DigitValue(s[0]), s[1..])
  }

  lemma {:induction false} HornerAtLeast(acc: nat, s: string)
    requires AllDigits(s)
    ensures acc <= Horner(acc, s)
    decreases |s|
  {
    if s != [] {
      HornerAtLeast(acc * 10 + DigitValue(s[0]), s[1..]);
    }
  }

  lemma {:induction false} HornerSnoc(acc: nat, s: string, c: char)
    requires AllDigits(s) && IsDigit(c)
    ensures AllDigits(s + [c])
    ensures Horner(acc, s + [c]) == Horner(acc, s) * 10 + DigitValue(c)
    decreases |s|
  {
    if s != [] {
      assert (s + [c])[1..] == s[1..] + [c];
      HornerSnoc(acc * 10 + DigitValue(s[0]), s[1..], c);
    }
  }

  lemma {:induction false} HornerFormatNat(n: nat)
    ensures Horner(0, FormatNat(n)) == n
  {
    if n >= 10 {
      HornerFormatNat(n / 10);
      HornerSnoc(0, FormatNat(n / 10), DigitChar(n % 10));
    }
  }

  /** The scanning loop computes the digits' value whenever it fits. */
  lemma {:induction false} ScanDigitsComputes(s: string, acc: nat)
    requires AllDigits(s) && acc <= MaxUint64 && Horner(acc, s) <= MaxUint64
    ensures ScanDigits(s, acc) == UintOk(Horner(acc, s))
    decreases |s|
  {
    if s != [] {
      var next := acc * 10 + DigitValue(s[0]);
      HornerAtLeast(next, s[1..]);
      ScanDigitsComputes(s[1..], next);
    }
  }

  /** Reading back what FormatInt wrote gives the same 64-bit integer. */
  lemma FormatIntRoundTrip(n: int)
    requires MinInt64 <= n <= MaxInt64
    ensures ParseInt(FormatInt(n)) == Parsed(n)
  {
    var m: nat := if n < 0 then -n else n;
    HornerFormatNat(m);
    ScanDigitsComputes(FormatNat(m), 0);
    if n < 0 {
      assert ("-" + FormatNat(m))[1..] == FormatNat(m);
    }
  }

  /** Different 64-bit integers are rendered differently. */
  lemma FormatIntInjective(a: int, b: int)
    requires MinInt64 <= a <= MaxInt64 && MinInt64 <= b <= MaxInt64
    requires FormatInt(a) == FormatInt(b)
    ensures a == b
  {
    FormatIntRoundTrip(a);
    FormatIntRoundTrip(b);
  }
}
