/** Decimal formatting and parsing as Go's `fmt`, `strconv` and `time` packages do it. */
module Numbers {
  import opened Errors

  const MaxInt64: int := 0x7fff_ffff_ffff_ffff
  const MinInt64: int := -0x8000_0000_0000_0000
  const MaxUint64: int := 0xffff_ffff_ffff_ffff

  predicate IsDigit(ch: char) {
    '0' <= ch <= '9'
  }

  function DigitChar(d: nat): (ch: char)
    requires d < 10
    ensures IsDigit(ch) && ch as int == '0' as int + d
  {
    ('0' as int + d) as char
  }

  function DigitValue(ch: char): (d: nat)
    requires IsDigit(ch)
    ensures d < 10 && DigitChar(d) == ch
  {
    (ch as int - '0' as int) as nat
  }

  /** The base-10 digits of `n`, most significant first, without leading zeros. */
  function Digits(n: nat): (s: string)
    ensures |s| >= 1
    ensures forall k :: 0 <= k < |s| ==> IsDigit(s[k])
    ensures s[0] == '0' ==> n == 0
  {
    if n < 10 then [DigitChar(n)] else Digits(n / 10) + [DigitChar(n % 10)]
  }

  /** `fmt`'s `%d`. */
  function Decimal(n: int): (s: string)
    ensures |s| >= 1
  {
    if n < 0 then "-" + Digits(-n) else Digits(n)
  }

  /** How the digit loop of `strconv.ParseUint` ends. */
  datatype Scan = Value(n: nat) | SyntaxError | RangeError

  /** The digit loop of `strconv.ParseUint(s, 10, 64)` from accumulator `acc`:
      a non-digit is a syntax error, and growing past 2^64 - 1 is a range error
      the moment it happens, whatever follows. */
  function ScanFrom(s: string, acc: nat): (r: Scan)
    requires acc <= MaxUint64
    ensures r.Value? ==> r.n <= MaxUint64
    decreases |s|
  {
    if s == [] then Value(acc)
    else if !IsDigit(s[0]) then SyntaxError
    else
      var n := acc * 10 + DigitValue(s[0]);
      if n > MaxUint64 then RangeError else ScanFrom(s[1..], n)
  }

  /** One more digit after a scan that ended. */
  function ScanStep(r: Scan, ch: char): Scan {
    match r
    case Value(acc) =>
      if !IsDigit(ch) then SyntaxError
      else if acc * 10 + DigitValue(ch) > MaxUint64 then RangeError
      else Value(acc * 10 + DigitValue(ch))
    case _ => r
  }

  lemma {:induction false} ScanFromSnoc(s: string, ch: char, acc: nat)
    requires acc <= MaxUint64
    ensures ScanFrom(s + [ch], acc) == ScanStep(ScanFrom(s, acc), ch)
    decreases |s|
  {
    if s == [] {
      assert [ch][1..] == [];
    } else {
      assert (s + [ch])[0] == s[0];
      assert (s + [ch])[1..] == s[1..] + [ch];
      if IsDigit(s[0]) && acc * 10 + DigitValue(s[0]) <= MaxUint64 {
        ScanFromSnoc(s[1..], ch, acc * 10 + DigitValue(s[0]));
      }
    }
  }

  /** The digit loop reads back what `Digits` wrote. */
  lemma {:induction false} ScanDigits(n: nat)
    requires n <= MaxUint64
    ensures ScanFrom(Digits(n), 0) == Value(n)
  {
    if n >= 10 {
      var q, d := n / 10, n % 10;
      ScanDigits(q);
      ScanFromSnoc(Digits(q), DigitChar(d), 0);
      assert DigitValue(DigitChar(d)) == d;
      assert q * 10 + d == n;
    }
  }

  function NumError(s: string, reason: string): Err {
    Other("strconv.ParseInt: parsing " + Quote(s) + ": " + reason)
  }

  /** `strconv.ParseInt(s, 10, 64)`: an optional sign, one or more digits, no
      underscores, and a value that fits in an int64. */
  function ParseInt(s: string): (r: Result<int>)
    ensures r.Ok? ==> MinInt64 <= r.value <= MaxInt64
    ensures r.Ok? ==> s != [] && exists k :: 0 <= k < |s| && IsDigit(s[k])
  {
    if s == [] then Fail(NumError(s, "invalid syntax"))
    else
      var neg := s[0] == '-';
      var body := if s[0] == '+' || s[0] == '-' then s[1..] else s;
      var scan := if body == [] then SyntaxError else ScanFrom(body, 0);
      match scan
      case SyntaxError => Fail(NumError(s, "invalid syntax"))
      case RangeError => Fail(NumError(s, "value out of range"))
      case Value(un) =>
        if !neg && un > MaxInt64 then Fail(NumError(s, "value out of range"))
        else if neg && un > -MinInt64 then Fail(NumError(s, "value out of range"))
        else
          assert IsDigit(body[0]);
          assert body[0] == s[|s| - |body|];
          var v: int := if neg then -(un as int) else un;
          Ok(v)
  }

  /** Every int64 survives a trip through `%d` and `strconv.ParseInt`. */
  lemma ParseIntDecimal(n: int)
    requires MinInt64 <= n <= MaxInt64
    ensures ParseInt(Decimal(n)) == Ok(n)
  {
    var m := if n < 0 then -n else n;
    ScanDigits(m);
    var s := Decimal(n);
    if n < 0 {
      assert s[1..] == Digits(m);
    }
  }

  predicate AllDigits(d: string) {
    forall k :: 0 <= k < |d| ==> IsDigit(d[k])
  }

  /** The value of a run of decimal digits, leading zeros allowed. */
  function DigitsValue(d: string): nat
    requires AllDigits(d)
  {
    if d == [] then 0 else DigitsValue(d[..|d| - 1]) * 10 + DigitValue(d[|d| - 1])
  }

  /** The text after an optional leading sign. */
  function Unsigned(s: string): string {
    if s != [] && (s[0] == '+' || s[0] == '-') then s[1..] else s
  }

  /** What `strconv.ParseInt` reads as base 10: an optional sign, then one or
      more digits. */
  predicate IntSyntax(s: string) {
    Unsigned(s) != [] && AllDigits(Unsigned(s))
  }

  /** The number a well-formed decimal text denotes. */
  function IntValue(s: string): int
    requires IntSyntax(s)
  {
    var n: int := DigitsValue(Unsigned(s));
    if s[0] == '-' then -n else n
  }

  /** The length of the run of digits that `u` starts with. */
  function DigitRun(u: string): (i: nat)
    ensures i <= |u| && AllDigits(u[..i])
    ensures i < |u| ==> !IsDigit(u[i])
  {
    if u == [] || !IsDigit(u[0]) then 0
    else
      var i := 1 + DigitRun(u[1..]);
      assert forall k :: 1 <= k < i ==> u[..i][k] == u[1..][..i - 1][k - 1];
      i
  }

  /** Whether the digits before the first non-digit of a malformed text are
      already too many for 64 bits, which `strconv` reports before the syntax. */
  predicate RunOverflows(s: string) {
    var u := Unsigned(s);
    DigitsValue(u[..DigitRun(u)]) > MaxUint64
  }

  /** The digit loop computes `DigitsValue`, or stops on overflow. */
  lemma {:induction false} ScanDigitsValue(d: string)
    requires AllDigits(d)
    ensures ScanFrom(d, 0) == if DigitsValue(d) <= MaxUint64 then Value(DigitsValue(d)) else RangeError
    decreases |d|
  {
    if d != [] {
      var init, ch := d[..|d| - 1], d[|d| - 1];
      assert AllDigits(init);
      ScanDigitsValue(init);
      assert init + [ch] == d;
      ScanFromSnoc(init, ch, 0);
    }
  }

  /** The digit loop over `a + b` carries on over `b` from where `a` left it. */
  lemma {:induction false} ScanFromAppend(a: string, b: string, acc: nat)
    requires acc <= MaxUint64
    ensures ScanFrom(a, acc).Value? ==> ScanFrom(a + b, acc) == ScanFrom(b, ScanFrom(a, acc).n)
    ensures !ScanFrom(a, acc).Value? ==> ScanFrom(a + b, acc) == ScanFrom(a, acc)
    decreases |a|
  {
    if a != [] {
      assert (a + b)[0] == a[0];
      assert (a + b)[1..] == a[1..] + b;
      if IsDigit(a[0]) && acc * 10 + DigitValue(a[0]) <= MaxUint64 {
        ScanFromAppend(a[1..], b, acc * 10 + DigitValue(a[0]));
      }
    } else {
      assert a + b == b;
    }
  }

  /** `strconv.ParseInt(s, 10, 64)` succeeds exactly on a signed run of digits
      whose value fits in an int64, and returns that value; otherwise it fails
      with a range error for a well-formed text out of range, and for a
      malformed one with a syntax error unless its leading digits overflow
      first. Leading zeros, `+` and `-0` are accepted. */
  lemma ParseIntExactly(s: string)
    ensures ParseInt(s).Ok? <==> IntSyntax(s) && MinInt64 <= IntValue(s) <= MaxInt64
    ensures ParseInt(s).Ok? ==> ParseInt(s).value == IntValue(s)
    ensures IntSyntax(s) && !(MinInt64 <= IntValue(s) <= MaxInt64) ==>
              ParseInt(s) == Fail(NumError(s, "value out of range"))
    ensures !IntSyntax(s) ==>
              ParseInt(s) == Fail(NumError(s, if RunOverflows(s) then "value out of range" else "invalid syntax"))
  {
    var u := Unsigned(s);
    var i := DigitRun(u);
    if u != [] {
      if i == |u| {
        assert u[..i] == u;
        ScanDigitsValue(u);
      } else {
        ScanDigitsValue(u[..i]);
        ScanFromAppend(u[..i], u[i..], 0);
        assert u[..i] + u[i..] == u;
      }
    } else {
      assert u[..i] == [];
    }
  }

  const Nanosecond: int := 1
  const Microsecond: int := 1000 * Nanosecond
  const Millisecond: int := 1000 * Microsecond
  const Second: int := 1000 * Millisecond
  const Minute: int := 60 * Second
  const Hour: int := 60 * Minute

  /** The digits `fmtFrac` writes for the low `prec` digits of `v`, most
      significant first, leaving out the trailing zeros; `started` says whether a
      nonzero digit has been seen below these. */
  function FracDigits(v: nat, prec: nat, started: bool): string {
    if prec == 0 then ""
    else
      var d := v % 10;
      var p := started || d != 0;
      FracDigits(v / 10, prec - 1, p) + (if p then [DigitChar(d)] else "")
  }

  /** The fraction of `v / 10^prec` as `time.Duration` prints it: "" when it is zero. */
  function Fraction(v: nat, prec: nat): string {
    var body := FracDigits(v, prec, false);
    if body == "" then "" else "." + body
  }

  function Pow10(k: nat): (p: nat)
    ensures p >= 1
  {
    if k == 0 then 1 else 10 * Pow10(k - 1)
  }

  /** `time.Duration.String` for a number of nanoseconds. */
  function DurationString(d: int): string {
    var u := if d < 0 then -d else d;
    var body :=
      if u < Second then
        if u == 0 then "0s"
        else if u < Microsecond then Digits(u) + "ns"
        else if u < Millisecond then Digits(u / Pow10(3)) + Fraction(u, 3) + "\U{00B5}s"
        else Digits(u / Pow10(6)) + Fraction(u, 6) + "ms"
      else
        var secs := u / Pow10(9);
        var tail := Digits(secs % 60) + Fraction(u, 9) + "s";
        var mins := secs / 60;
        if mins == 0 then tail
        else if mins / 60 == 0 then Digits(mins % 60) + "m" + tail
        else Digits(mins / 60) + "h" + Digits(mins % 60) + "m" + tail;
    (if d < 0 then "-" else "") + body
  }

  /** A whole number of `10^prec` units has no fraction. */
  lemma {:induction false} NoFraction(m: nat, prec: nat)
    ensures FracDigits(m * Pow10(prec), prec, false) == ""
  {
    if prec > 0 {
      var v := m * Pow10(prec);
      assert v == (m * Pow10(prec - 1)) * 10;
      assert v % 10 == 0 && v / 10 == m * Pow10(prec - 1);
      NoFraction(m, prec - 1);
    }
  }

  /** The renderings that the timeout messages of the tests show: the default
      timeout, and the one and two millisecond timeouts. */
  lemma TenSecondsExample()
    ensures DurationString(10 * Second) == "10s"
  {
    var u := 10 * Second;
    assert Pow10(9) == Second;
    assert u / Pow10(9) == 10;
    NoFraction(10, 9);
    assert Digits(10 % 60) == "10";
    assert Digits(10 % 60) + Fraction(u, 9) + "s" == "10s";
  }

  lemma {:induction false} MillisecondExample(n: nat)
    requires 1 <= n <= 9
    ensures DurationString(n * Millisecond) == Digits(n) + "ms"
  {
    var u := n * Millisecond;
    assert Pow10(6) == Millisecond;
    assert Millisecond <= u < Second;
    assert u / Pow10(6) == n;
    NoFraction(n, 6);
  }
}
