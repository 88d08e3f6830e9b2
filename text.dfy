/**
 * The pieces of Go's standard library whose exact output the executor's results depend on:
 * `strings.TrimSpace` (with `unicode.IsSpace`), `fmt`'s `%d` on an integer, and
 * `time.Duration.String`. Strings are sequences of decoded code points.
 */
module Text {

  /** `unicode.IsSpace`: the Latin-1 spaces and the other code points with Unicode's White_Space property. */
  predicate IsSpace(c: char) {
    c == ' ' || ('\t' <= c <= '\r') || c == '\U{0085}' || c == '\U{00A0}' || c == '\U{1680}'
    || ('\U{2000}' <= c <= '\U{200A}') || c == '\U{2028}' || c == '\U{2029}' || c == '\U{202F}'
    || c == '\U{205F}' || c == '\U{3000}'
  }

  /** Every character of `s` from index `lo` up to (not including) `hi` is white space. */
  ghost predicate SpacesIn(s: string, lo: int, hi: int)
    requires 0 <= lo <= hi <= |s|
  {
    forall k :: lo <= k < hi ==> IsSpace(s[k])
  }

  ghost predicate AllSpace(s: string) {
    SpacesIn(s, 0, |s|)
  }

  /** Neither the first nor the last character of `s` is white space. */
  predicate Trimmed(s: string) {
    s == [] || (!IsSpace(s[0]) && !IsSpace(s[|s| - 1]))
  }

  /** The index where the leading white space of `s[from..]` ends: the first non-space, or `|s|`. */
  function FirstNonSpace(s: string, from: nat): (start: nat)
    requires from <= |s|
    ensures from <= start <= |s| && SpacesIn(s, from, start)
    ensures start < |s| ==> !IsSpace(s[start])
    decreases |s| - from
  {
    if from < |s| && IsSpace(s[from]) then FirstNonSpace(s, from + 1) else from
  }

  /** The index where the trailing white space of `s[start..end]` begins: just after the last non-space, or `start`. */
  function PastLastNonSpace(s: string, start: nat, end: nat): (stop: nat)
    requires start <= end <= |s|
    ensures start <= stop <= end && SpacesIn(s, stop, end)
    ensures stop > start ==> !IsSpace(s[stop - 1])
    decreases end
  {
    if end > start && IsSpace(s[end - 1]) then PastLastNonSpace(s, start, end - 1) else end
  }

  /**
   * `strings.TrimSpace`: the result is the part of `s` between its leading and its trailing
   * white space, and it neither starts nor ends with white space.
   */
  function TrimSpace(s: string): (r: string)
    ensures Trimmed(r)
    ensures exists i, j :: 0 <= i <= j <= |s| && r == s[i..j] && SpacesIn(s, 0, i) && SpacesIn(s, j, |s|)
  {
    var start := FirstNonSpace(s, 0);
    var stop := PastLastNonSpace(s, start, |s|);
    s[start..stop]
  }

  /** A string that is already trimmed is left as it is, so trimming twice is trimming once. */
  lemma {:induction false} TrimSpaceIdempotent(s: string)
    ensures TrimSpace(TrimSpace(s)) == TrimSpace(s)
  {
    TrimmedIsFixed(TrimSpace(s));
  }

  lemma {:induction false} TrimmedIsFixed(t: string)
    requires Trimmed(t)
    ensures TrimSpace(t) == t
  {
    assert FirstNonSpace(t, 0) == 0;
    assert PastLastNonSpace(t, 0, |t|) == |t|;
  }

  /** Output made only of white space trims to the empty string. */
  lemma {:induction false} TrimSpaceOfBlank(s: string)
    requires AllSpace(s)
    ensures TrimSpace(s) == ""
  {
  }

  // ---------------------------------------------------------------- decimal integers

  predicate IsDigit(c: char) {
    '0' <= c <= '9'
  }

  function DigitChar(d: nat): (c: char)
    requires d < 10
  {
    ('0' as int + d) as char
  }

  /** The decimal numeral of `n` as `fmt` prints it with `%d`: digits only, and no leading zero. */
  function Decimal(n: nat): (r: string)
    ensures |r| > 0
    ensures forall i :: 0 <= i < |r| ==> IsDigit(r[i])
    ensures r[0] == '0' ==> n == 0 && r == "0"
  {
    if n < 10 then [DigitChar(n)] else Decimal(n / 10) + [DigitChar(n % 10)]
  }

  /** `%d` of a signed integer: a minus sign exactly for negative values, then the decimal numeral. */
  function FormatInt(i: int): (r: string)
    ensures |r| > 0
    ensures (r[0] == '-') == (i < 0)
  {
    if i < 0 then "-" + Decimal(-i) else Decimal(i)
  }

  /** The reading of a decimal numeral; the inverse of `Decimal`. */
  ghost function ParseDecimal(s: string): nat {
    if s == [] then 0
    else
      var c := s[|s| - 1];
      10 * ParseDecimal(s[..|s| - 1]) + (if IsDigit(c) then c as int - '0' as int else 0)
  }

  /** The reading of an optionally signed decimal numeral; the inverse of `FormatInt`. */
  ghost function ParseInt(s: string): int {
    if s != [] && s[0] == '-' then -(ParseDecimal(s[1..]) as int) else ParseDecimal(s)
  }

  lemma {:induction false} DecimalRoundTrip(n: nat)
    ensures ParseDecimal(Decimal(n)) == n
  {
    if n >= 10 {
      DecimalRoundTrip(n / 10);
      var d := Decimal(n);
      assert d[..|d| - 1] == Decimal(n / 10);
    }
  }

  lemma {:induction false} FormatIntRoundTrip(i: int)
    ensures ParseInt(FormatInt(i)) == i
  {
    if i < 0 {
      DecimalRoundTrip(-i);
      assert FormatInt(i)[1..] == Decimal(-i);
    } else {
      DecimalRoundTrip(i);
    }
  }

  /** Distinct numbers print differently. */
  lemma {:induction false} FormatIntInjective(a: int, b: int)
    requires FormatInt(a) == FormatInt(b)
    ensures a == b
  {
    FormatIntRoundTrip(a);
    FormatIntRoundTrip(b);
  }

  lemma {:induction false} DecimalInjective(a: nat, b: nat)
    requires Decimal(a) == Decimal(b)
    ensures a == b
  {
    DecimalRoundTrip(a);
    DecimalRoundTrip(b);
  }

  // ---------------------------------------------------------------- time.Duration.String

  const Microsecond: nat := 1_000
  const Millisecond: nat := 1_000_000
  const Second: nat := 1_000_000_000

  function Pow10(k: nat): (p: nat)
    ensures p > 0
  {
    if k == 0 then 1 else 10 * Pow10(k - 1)
  }

  /**
   * The low `prec` decimal digits of `v`, most significant first, with the trailing zeros left out
   * (`printing` says whether a non-zero digit has been met among the lower ones already).
   */
  function FractionDigits(v: nat, prec: nat, printing: bool): string
    decreases prec
  {
    if prec == 0 then ""
    else
      var digit := v % 10;
      var p := printing || digit != 0;
      FractionDigits(v / 10, prec - 1, p) + (if p then [DigitChar(digit)] else "")
  }

  /** `fmtFrac`: the fraction `.ddd` of `v / 10^prec` without trailing zeros, or nothing when it is zero. */
  function Fraction(v: nat, prec: nat): string {
    var ds := FractionDigits(v, prec, false);
    if ds == "" then "" else "." + ds
  }

  /** `Duration.format` for a non-negative number of nanoseconds. */
  function UnsignedDuration(u: nat): string {
    if u < Second then
      if u == 0 then "0s"
      else if u < Microsecond then Decimal(u) + "ns"
      else if u < Millisecond then Decimal(u / Microsecond) + Fraction(u, 3) + "\U{00B5}s"
      else Decimal(u / Millisecond) + Fraction(u, 6) + "ms"
    else
      var secs := u / Second;
      var inSeconds := Decimal(secs % 60) + Fraction(u, 9) + "s";
      var mins := secs / 60;
      if mins == 0 then inSeconds
      else
        var inMinutes := Decimal(mins % 60) + "m" + inSeconds;
        var hours := mins / 60;
        if hours == 0 then inMinutes else Decimal(hours) + "h" + inMinutes
  }

  /** `time.Duration.String` of `d` nanoseconds, as `%s` prints a duration: always a unit ending in `s`. */
  function DurationString(d: int): (r: string)
    ensures |r| >= 2 && r[|r| - 1] == 's'
  {
    if d < 0 then "-" + UnsignedDuration(-d) else UnsignedDuration(d)
  }

  /** Trailing zero digits of `v` are never printed in its fraction. */
  lemma {:induction false} FractionDropsZeros(q: nat, k: nat, prec: nat)
    requires k <= prec
    ensures FractionDigits(q * Pow10(k), prec, false) == FractionDigits(q, prec - k, false)
  {
    if k > 0 {
      var m := q * Pow10(k - 1);
      assert q * Pow10(k) == 10 * m by {
        assert Pow10(k) == 10 * Pow10(k - 1);
        MulLeftCommutes(q, 10, Pow10(k - 1));
      }
      FractionDropsZero(m, prec);
      FractionDropsZeros(q, k - 1, prec - 1);
    }
  }

  lemma MulLeftCommutes(a: int, b: int, c: int)
    ensures a * (b * c) == b * (a * c)
  {
  }

  /** A trailing zero digit, not preceded by a printed one, is not printed. */
  lemma FractionDropsZero(m: nat, prec: nat)
    requires prec > 0
    ensures FractionDigits(10 * m, prec, false) == FractionDigits(m, prec - 1, false)
  {
    assert (10 * m) % 10 == 0 && (10 * m) / 10 == m;
  }

  lemma UnitPowers()
    ensures Pow10(6) == Millisecond && Pow10(9) == Second
  {
    assert Pow10(3) == 1000;
    assert Pow10(6) == 1000 * Pow10(3) by {
      assert Pow10(6) == 10 * (10 * (10 * Pow10(3)));
    }
    assert Pow10(9) == 1000 * Pow10(6) by {
      assert Pow10(9) == 10 * (10 * (10 * Pow10(6)));
    }
  }

  /** A whole number of seconds under a minute prints as its numeral and `s`, with no fraction. */
  lemma {:induction false} WholeSeconds(n: nat)
    requires 1 <= n < 60
    ensures DurationString(n * Second) == Decimal(n) + "s"
  {
    UnitPowers();
    FractionDropsZeros(n, 9, 9);
    var u := n * Second;
    assert u / Second == n && n % 60 == n && n / 60 == 0;
    assert Fraction(u, 9) == "";
  }

  /** A whole number of milliseconds under a second prints as its numeral and `ms`, with no fraction. */
  lemma {:induction false} WholeMilliseconds(n: nat)
    requires 1 <= n < 1000
    ensures DurationString(n * Millisecond) == Decimal(n) + "ms"
  {
    UnitPowers();
    FractionDropsZeros(n, 6, 6);
    var u := n * Millisecond;
    assert Millisecond <= u < Second && u / Millisecond == n;
    assert Fraction(u, 6) == "";
  }

  /** The two timeouts the service uses print as `5s` and `200ms`. */
  lemma DurationExamples()
    ensures DurationString(5 * Second) == "5s"
    ensures DurationString(200 * Millisecond) == "200ms"
  {
    WholeSeconds(5);
    WholeMilliseconds(200);
    TimeoutNumerals();
    assert "5" + "s" == "5s" && "200" + "ms" == "200ms";
  }

  lemma TimeoutNumerals()
    ensures Decimal(5) == "5" && Decimal(200) == "200"
  {
    assert Decimal(5) == [DigitChar(5)];
    var d2 := Decimal(2);
    assert d2 == ['2'];
    var d20 := Decimal(20);
    assert d20 == d2 + [DigitChar(0)];
    var d200 := Decimal(200);
    assert d200 == d20 + [DigitChar(0)];
  }
}
