/**
 * The pieces of Go's `strconv` and `strings` packages that the core uses: decimal
 * rendering of integers (`strconv.Itoa`, `%d`), `strconv.ParseInt(s, 10, 64)`,
 * `strings.Split` on a one-character separator and `strings.Join`.
 * Go strings are byte strings; here a string is a `seq<char>` and only ASCII text matters.
 */
module GoText {

  const Two63: int := 0x8000_0000_0000_0000
  const MaxInt64: int := Two63 - 1
  const MinInt64: int := -Two63
  const Two64: int := 0x1_0000_0000_0000_0000
  const MaxUint64: int := Two64 - 1

  type int64 = x: int | MinInt64 <= x <= MaxInt64
  type uint64 = x: int | 0 <= x <= MaxUint64

  /** Go's conversion `uint64(x)` of an `int64`: two's complement, so negatives wrap modulo 2^64 */
  function ToUint64(x: int64): (r: uint64)
    ensures r % Two64 == x % Two64
    ensures x >= 0 ==> r == x
  {
    if x < 0 then x + Two64 else x
  }

  // ---------------------------------------------------------------- digits

  predicate IsDigit(c: char) {
    '0' <= c <= '9'
  }

  predicate AllDigits(s: string) {
    forall i :: 0 <= i < |s| ==> IsDigit(s[i])
  }

  function DigitValue(c: char): nat
    requires IsDigit(c)
  {
    (c as int) - ('0' as int)
  }

  function DigitChar(d: nat): (c: char)
    requires d < 10
    ensures IsDigit(c) && DigitValue(c) == d
  {
    (('0' as int) + d) as char
  }

  /** The value of the digit string `s` read left to right, starting from the accumulator `acc` */
  function DigitsFrom(s: string, acc: nat): nat
    requires AllDigits(s)
    decreases |s|
  {
    if s == [] then acc else DigitsFrom(s[1..], acc * 10 + DigitValue(s[0]))
  }

  /** The number a string of decimal digits denotes */
  function DecimalValue(s: string): nat
    requires AllDigits(s)
  {
    DigitsFrom(s, 0)
  }

  // ---------------------------------------------------------------- rendering

  /** Decimal digits of `n`, most significant first, without leading zeros */
  function NatToString(n: nat): (s: string)
    ensures |s| >= 1 && AllDigits(s)
    ensures s[0] == '0' ==> n == 0 && s == "0"
    decreases n
  {
    if n < 10 then [DigitChar(n)] else NatToString(n / 10) + [DigitChar(n % 10)]
  }

  /** `strconv.Itoa` and the `%d` verb */
  function IntToString(i: int): (s: string)
    ensures |s| >= 1
    ensures i >= 0 ==> s == NatToString(i)
    ensures i < 0 ==> s[0] == '-' && s[1..] == NatToString(-i)
  {
    if i < 0 then "-" + NatToString(-i) else NatToString(i)
  }

  lemma {:induction false} DigitsFromSnoc(s: string, c: char, acc: nat)
    requires AllDigits(s) && IsDigit(c)
    ensures AllDigits(s + [c])
    ensures DigitsFrom(s + [c], acc) == DigitsFrom(s, acc) * 10 + DigitValue(c)
    decreases |s|
  {
    if s == [] {
      assert s + [c] == [c];
      assert [c][1..] == [];
    } else {
      assert (s + [c])[1..] == s[1..] + [c];
      DigitsFromSnoc(s[1..], c, acc * 10 + DigitValue(s[0]));
    }
  }

  /** Reading back the rendered digits gives the number: the decimal rendering is faithful */
  lemma {:induction false} NatToStringRoundTrip(n: nat)
    ensures DecimalValue(NatToString(n)) == n
    decreases n
  {
    if n < 10 {
      var s := NatToString(n);
      assert s == [DigitChar(n)] && s[1..] == [];
      assert DigitsFrom(s, 0) == DigitsFrom(s[1..], DigitValue(s[0]));
    } else {
      NatToStringRoundTrip(n / 10);
      DigitsFromSnoc(NatToString(n / 10), DigitChar(n % 10), 0);
    }
  }

  /** Two different naturals never render the same */
  lemma NatToStringInjective(m: nat, n: nat)
    requires NatToString(m) == NatToString(n)
    ensures m == n
  {
    NatToStringRoundTrip(m);
    NatToStringRoundTrip(n);
  }

  /** Every character of a rendered integer is a digit or the minus sign */
  lemma IntToStringChars(n: int)
    ensures forall c :: c in IntToString(n) ==> IsDigit(c) || c == '-'
  {
    var s := IntToString(n);
    if n < 0 {
      var d := NatToString(-n);
      assert s == "-" + d;
      assert forall i :: 1 <= i < |s| ==> s[i] == d[i - 1];
    }
  }

  // ---------------------------------------------------------------- parsing

  datatype NumError = ErrSyntax | ErrRange

  /** What Go's `strconv.ParseUint(s, 10, 64)` reports */
  datatype UintResult = UintOk(n: nat) | UintErr(err: NumError)

  /**
   * The loop of Go's `ParseUint` for base 10: each byte is first checked to be a digit
   * (a syntax error otherwise), then the accumulator is checked not to exceed 2^64-1
   * (a range error otherwise); the first problem met ends the scan.
   */
  function ScanUint(s: string, acc: nat): UintResult
    decreases |s|
  {
    if s == [] then UintOk(acc)
    else if !IsDigit(s[0]) then UintErr(ErrSyntax)
    else if acc * 10 + DigitValue(s[0]) > MaxUint64 then UintErr(ErrRange)
    else ScanUint(s[1..], acc * 10 + DigitValue(s[0]))
  }

  function ParseUint64(s: string): UintResult {
    if s == [] then UintErr(ErrSyntax) else ScanUint(s, 0)
  }

  /** Go's pair `(i int64, err error)`; `ok` stands for `err == nil` */
  datatype Parsed = Parsed(value: int64, ok: bool)

  /** The text `ParseInt` hands to `ParseUint`: `s` without one leading sign */
  function Unsigned(s: string): string {
    if s != [] && (s[0] == '+' || s[0] == '-') then s[1..] else s
  }

  /**
   * `strconv.ParseInt(s, 10, 64)`: an optional sign, then the unsigned scan.  A syntax
   * error gives 0; a value out of range gives the nearest bound (MaxInt64 or MinInt64),
   * always with an error.
   */
  function ParseInt64(s: string): (r: Parsed)
    ensures s == [] ==> r == Parsed(0, false)
  {
    if s == [] then Parsed(0, false)
    else
      var neg := s[0] == '-';
      match ParseUint64(Unsigned(s))
      case UintErr(ErrSyntax) => Parsed(0, false)
      case UintErr(ErrRange) => if neg then Parsed(MinInt64, false) else Parsed(MaxInt64, false)
      case UintOk(un) =>
        if !neg && un >= Two63 then Parsed(MaxInt64, false)
        else if neg && un > Two63 then Parsed(MinInt64, false)
        else Parsed(if neg then 0 - un else un, true)
  }

  lemma {:induction false} DigitsFromAtLeast(s: string, acc: nat)
    requires AllDigits(s)
    ensures DigitsFrom(s, acc) >= acc
    decreases |s|
  {
    if s != [] {
      DigitsFromAtLeast(s[1..], acc * 10 + DigitValue(s[0]));
    }
  }

  /** A digit string whose value fits in 64 bits scans to that value */
  lemma {:induction false} ScanDigits(s: string, acc: nat)
    requires AllDigits(s) && DigitsFrom(s, acc) <= MaxUint64
    ensures ScanUint(s, acc) == UintOk(DigitsFrom(s, acc))
    decreases |s|
  {
    if s != [] {
      DigitsFromAtLeast(s[1..], acc * 10 + DigitValue(s[0]));
      ScanDigits(s[1..], acc * 10 + DigitValue(s[0]));
    }
  }

  /** A digit string whose value does not fit in 64 bits is a range error */
  lemma {:induction false} ScanDigitsOverflow(s: string, acc: nat)
    requires AllDigits(s) && acc <= MaxUint64 && DigitsFrom(s, acc) > MaxUint64
    ensures ScanUint(s, acc) == UintErr(ErrRange)
    decreases |s|
  {
    if s != [] && acc * 10 + DigitValue(s[0]) <= MaxUint64 {
      ScanDigitsOverflow(s[1..], acc * 10 + DigitValue(s[0]));
    }
  }

  /** A non-digit reached before the accumulator overflows is a syntax error */
  lemma {:induction false} ScanNonDigit(s: string, k: nat, acc: nat)
    requires k < |s| && AllDigits(s[..k]) && !IsDigit(s[k])
    requires DigitsFrom(s[..k], acc) <= MaxUint64
    ensures ScanUint(s, acc) == UintErr(ErrSyntax)
    decreases k
  {
    if k > 0 {
      assert s[..k][1..] == s[1..][..k - 1];
      DigitsFromAtLeast(s[1..][..k - 1], acc * 10 + DigitValue(s[0]));
      ScanNonDigit(s[1..], k - 1, acc * 10 + DigitValue(s[0]));
    }
  }

  /** ParseInt reads back what Itoa writes, for every 64-bit integer */
  lemma ParseIntOfIntToString(n: int64)
    ensures ParseInt64(IntToString(n)) == Parsed(n, true)
  {
    var s := IntToString(n);
    if n >= 0 {
      NatToStringRoundTrip(n);
      assert Unsigned(s) == NatToString(n);
      ScanDigits(NatToString(n), 0);
    } else {
      var m: nat := 0 - n;
      NatToStringRoundTrip(m);
      assert Unsigned(s) == NatToString(m);
      ScanDigits(NatToString(m), 0);
    }
  }

  /** Two different 64-bit integers never render the same */
  lemma IntToStringInjective(m: int64, n: int64)
    requires IntToString(m) == IntToString(n)
    ensures m == n
  {
    ParseIntOfIntToString(m);
    ParseIntOfIntToString(n);
  }

  /** An unsigned run of digits above MaxInt64 is clamped to MaxInt64 and reported as an error */
  lemma ParseIntClampsHigh(s: string)
    requires s != [] && AllDigits(s) && DecimalValue(s) > MaxInt64
    ensures ParseInt64(s) == Parsed(MaxInt64, false)
  {
    assert Unsigned(s) == s;
    if DecimalValue(s) <= MaxUint64 {
      ScanDigits(s, 0);
    } else {
      ScanDigitsOverflow(s, 0);
    }
  }

  /** A negative run of digits below MinInt64 is clamped to MinInt64 and reported as an error */
  lemma ParseIntClampsLow(digits: string)
    requires digits != [] && AllDigits(digits) && DecimalValue(digits) > Two63
    ensures ParseInt64("-" + digits) == Parsed(MinInt64, false)
  {
    assert Unsigned("-" + digits) == digits;
    if DecimalValue(digits) <= MaxUint64 {
      ScanDigits(digits, 0);
    } else {
      ScanDigitsOverflow(digits, 0);
    }
  }

  /** A byte that is not a digit, met before the value overflows, makes the whole parse 0 with an error */
  lemma ParseIntSyntaxError(s: string, k: nat)
    requires k < |Unsigned(s)| && AllDigits(Unsigned(s)[..k]) && !IsDigit(Unsigned(s)[k])
    requires DecimalValue(Unsigned(s)[..k]) <= MaxUint64
    ensures ParseInt64(s) == Parsed(0, false)
  {
    ScanNonDigit(Unsigned(s), k, 0);
  }

  // ---------------------------------------------------------------- split and join

  /** Number of occurrences of `c` in `s` */
  function Count(s: string, c: char): (n: nat)
    ensures n == 0 <==> c !in s
    ensures n <= |s|
    decreases |s|
  {
    if s == [] then 0 else (if s[0] == c then 1 else 0) + Count(s[1..], c)
  }

  /** Go's `strings.Split(s, sep)` for a one-character `sep`: cut at every occurrence */
  function Split(s: string, sep: char): (parts: seq<string>)
    ensures |parts| == Count(s, sep) + 1
    ensures forall i :: 0 <= i < |parts| ==> sep !in parts[i]
    decreases |s|
  {
    if s == [] then [""]
    else
      var rest := Split(s[1..], sep);
      if s[0] == sep then [""] + rest
      else [[s[0]] + rest[0]] + rest[1..]
  }

  /** Go's `strings.Join(xs, sep)` */
  function Join(xs: seq<string>, sep: string): string
    decreases |xs|
  {
    if |xs| == 0 then ""
    else if |xs| == 1 then xs[0]
    else xs[0] + sep + Join(xs[1..], sep)
  }

  /** Joining the pieces back with the separator gives the original string */
  lemma {:induction false} JoinSplit(s: string, sep: char)
    ensures Join(Split(s, sep), [sep]) == s
    decreases |s|
  {
    if s != [] {
      var rest := Split(s[1..], sep);
      JoinSplit(s[1..], sep);
      if s[0] == sep {
        assert Split(s, sep) == [""] + rest;
        assert ([""] + rest)[1..] == rest;
      } else if |rest| == 1 {
        assert Split(s, sep) == [[s[0]] + rest[0]];
      } else {
        assert Split(s, sep) == [[s[0]] + rest[0]] + rest[1..];
        assert ([[s[0]] + rest[0]] + rest[1..])[1..] == rest[1..];
        assert s == [s[0]] + s[1..];
      }
    }
  }

  lemma {:induction false} SplitWithoutSeparator(x: string, sep: char)
    requires sep !in x
    ensures Split(x, sep) == [x]
    decreases |x|
  {
    if x != [] {
      SplitWithoutSeparator(x[1..], sep);
      assert [x[0]] + x[1..] == x;
    }
  }

  lemma {:induction false} SplitAfterPiece(x: string, rest: string, sep: char)
    requires sep !in x
    ensures Split(x + [sep] + rest, sep) == [x] + Split(rest, sep)
    decreases |x|
  {
    var s := x + [sep] + rest;
    if x == [] {
      assert s == [sep] + rest;
      assert s[1..] == rest;
    } else {
      assert s[1..] == x[1..] + [sep] + rest;
      SplitAfterPiece(x[1..], rest, sep);
      assert [x[0]] + x[1..] == x;
    }
  }

  /** Splitting a join recovers the pieces, provided no piece holds the separator */
  lemma {:induction false} SplitJoin(xs: seq<string>, sep: char)
    requires |xs| >= 1
    requires forall i :: 0 <= i < |xs| ==> sep !in xs[i]
    ensures Split(Join(xs, [sep]), sep) == xs
    decreases |xs|
  {
    if |xs| == 1 {
      SplitWithoutSeparator(xs[0], sep);
    } else {
      SplitJoin(xs[1..], sep);
      SplitAfterPiece(xs[0], Join(xs[1..], [sep]), sep);
      assert [xs[0]] + xs[1..] == xs;
    }
  }

  /** Every character of a joined list comes from a piece or from the separator */
  lemma {:induction false} NotInJoin(xs: seq<string>, sep: string, c: char)
    requires c !in sep
    requires forall i :: 0 <= i < |xs| ==> c !in xs[i]
    ensures c !in Join(xs, sep)
    decreases |xs|
  {
    if |xs| > 1 {
      NotInJoin(xs[1..], sep, c);
    }
  }
}
