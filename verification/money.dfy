/** Rendering of cent amounts as "$d.cc", with Java's integer arithmetic, and
    the parser that inverts it.
 */
module Money {
  import opened Outcome

  /** Java's `a / b` for a positive divisor: the quotient truncated toward
      zero, which with Java's `%` rebuilds the dividend. */
  function JavaDiv(a: int, b: int): (q: int)
    requires b > 0
    ensures q * b + JavaRem(a, b) == a
    ensures a >= 0 ==> q >= 0
    ensures a <= 0 ==> q <= 0
  {
    if a >= 0 then a / b else -((-a) / b)
  }

  /** Java's `a % b` for a positive divisor: the remainder takes the sign of `a`. */
  function JavaRem(a: int, b: int): (m: int)
    requires b > 0
    ensures a >= 0 ==> 0 <= m < b
    ensures a <= 0 ==> -b < m <= 0
  {
    if a >= 0 then a % b else -((-a) % b)
  }

  predicate IsDigit(ch: char) {
    '0' <= ch <= '9'
  }

  predicate AllDigits(s: string) {
    forall i :: 0 <= i < |s| ==> IsDigit(s[i])
  }

  function Digit(n: nat): (ch: char)
    requires n < 10
    ensures IsDigit(ch)
  {
    (48 + n) as char
  }

  function DigitValue(ch: char): (n: nat)
    requires IsDigit(ch)
    ensures n < 10 && Digit(n) == ch
  {
    (ch as int - 48) as nat
  }

  /** `Long.toString(n)` for `n >= 0`: decimal digits, no leading zeros. */
  function NatToDecimal(n: nat): (s: string)
    ensures |s| >= 1 && AllDigits(s)
    decreases n
  {
    if n < 10 then [Digit(n)] else NatToDecimal(n / 10) + [Digit(n % 10)]
  }

  /** `Long.toString(n)`: a minus sign before the digits of a negative number. */
  function LongToString(n: int): string {
    if n < 0 then "-" + NatToDecimal(-n) else NatToDecimal(n)
  }

  /** The number a string of decimal digits denotes. */
  function DigitsValue(s: string): nat
    requires AllDigits(s)
    decreases |s|
  {
    if |s| == 0 then 0 else DigitsValue(s[..|s| - 1]) * 10 + DigitValue(s[|s| - 1])
  }

  /** `formatDollars(cents)` exactly as written: Java's truncating `/` and `%`,
      `Long.toString` of each part, and a "0" before a remainder below 10. */
  function FormatDollars(cents: int): string {
    var dollars := JavaDiv(cents, 100);
    var remainder := JavaRem(cents, 100);
    var centsTwoDigits := if remainder < 10 then "0" + LongToString(remainder) else LongToString(remainder);
    "$" + LongToString(dollars) + "." + centsTwoDigits
  }

  /** Rendering that stays readable for a negative amount: a minus sign before
      the rendering of its magnitude, so that every amount reads back as itself. */
  function FormatSignedDollars(cents: int): (s: string)
    ensures ParseDollars(s) == Some(cents)
  {
    if cents < 0 then
      FormatNegativeRoundTrip(cents);
      "-" + FormatDollars(-cents)
    else
      FormatDollarsParses(cents);
      FormatDollars(cents)
  }

  /** Reads back "$d.cc" or "-$d.cc", with at least one dollar digit and exactly
      two cent digits; `None` for anything else. */
  function ParseDollars(s: string): Option<int> {
    if |s| > 0 && s[0] == '-' then
      match ParseUnsigned(s[1..])
      case Some(v) => Some(-v)
      case None => None
    else ParseUnsigned(s)
  }

  function ParseUnsigned(s: string): Option<int> {
    if |s| >= 5 && s[0] == '$' && s[|s| - 3] == '.' && AllDigits(s[1..|s| - 3])
       && IsDigit(s[|s| - 2]) && IsDigit(s[|s| - 1])
    then Some(DigitsValue(s[1..|s| - 3]) * 100 + DigitValue(s[|s| - 2]) * 10 + DigitValue(s[|s| - 1]))
    else None
  }

  // ---------------------------------------------------------------- properties

  /** Decimal rendering and reading are inverse. */
  lemma {:induction false} DecimalRoundTrip(n: nat)
    ensures DigitsValue(NatToDecimal(n)) == n
    decreases n
  {
    if n >= 10 {
      var s := NatToDecimal(n);
      assert s[..|s| - 1] == NatToDecimal(n / 10);
      DecimalRoundTrip(n / 10);
    }
  }

  /** The cents part: two digits, the first "0" below ten cents. */
  lemma TwoDigits(rem: nat)
    requires rem < 100
    ensures (if rem < 10 then "0" + LongToString(rem) else LongToString(rem)) ==
      [Digit(rem / 10), Digit(rem % 10)]
  {
    if rem >= 10 {
      assert NatToDecimal(rem) == NatToDecimal(rem / 10) + [Digit(rem % 10)];
      assert NatToDecimal(rem / 10) == [Digit(rem / 10)];
    } else {
      assert "0" == [Digit(0)];
    }
  }

  /** For a non-negative amount the rendering is "$", the whole dollars in
      decimal, ".", and the cents as exactly two digits. */
  lemma FormatDollarsShape(cents: int)
    requires cents >= 0
    ensures FormatDollars(cents) ==
      "$" + NatToDecimal(cents / 100) + "." + [Digit(cents % 100 / 10), Digit(cents % 100 % 10)]
  {
    TwoDigits(cents % 100);
  }

  /** Every non-negative amount renders to a string that reads back as itself. */
  lemma FormatDollarsRoundTrip(cents: int)
    requires cents >= 0
    ensures ParseUnsigned(FormatDollars(cents)) == Some(cents)
  {
    var ds, hi, lo := NatToDecimal(cents / 100), Digit(cents % 100 / 10), Digit(cents % 100 % 10);
    FormatDollarsShape(cents);
    ShapeIndices(ds, hi, lo);
    ParseShape(FormatDollars(cents), ds, hi, lo);
    DecimalRoundTrip(cents / 100);
    assert DigitValue(hi) == cents % 100 / 10 && DigitValue(lo) == cents % 100 % 10;
  }

  /** Where the parts of "$", digits, "." and two digits sit. */
  lemma ShapeIndices(ds: string, hi: char, lo: char)
    ensures var s := "$" + ds + "." + [hi, lo];
            |s| == |ds| + 4 && s[0] == '$' && s[1..|s| - 3] == ds
            && s[|s| - 3] == '.' && s[|s| - 2] == hi && s[|s| - 1] == lo
  {
    var s := "$" + ds + "." + [hi, lo];
    assert s[1..|s| - 3] == ds;
  }

  /** A string laid out as "$", digits, "." and two digits reads back as the
      number they spell. */
  lemma ParseShape(s: string, ds: string, hi: char, lo: char)
    requires |ds| >= 1 && AllDigits(ds) && IsDigit(hi) && IsDigit(lo)
    requires |s| == |ds| + 4 && s[0] == '$' && s[1..|s| - 3] == ds
    requires s[|s| - 3] == '.' && s[|s| - 2] == hi && s[|s| - 1] == lo
    ensures ParseUnsigned(s) == Some(DigitsValue(ds) * 100 + DigitValue(hi) * 10 + DigitValue(lo))
  {
  }

  /** The same through the signed reader, since a rendering opens with "$". */
  lemma FormatDollarsParses(cents: int)
    requires cents >= 0
    ensures ParseDollars(FormatDollars(cents)) == Some(cents)
  {
    FormatDollarsRoundTrip(cents);
    FormatDollarsOpens(cents);
  }

  /** Every rendering, even of a negative amount, opens with the dollar sign. */
  lemma FormatDollarsOpens(cents: int)
    ensures |FormatDollars(cents)| >= 4 && FormatDollars(cents)[0] == '$'
  {
  }

  /** A leading minus negates what the rest reads as. */
  lemma ParseNegated(u: string, v: int)
    requires ParseUnsigned(u) == Some(v)
    ensures ParseDollars("-" + u) == Some(-v)
  {
    assert ("-" + u)[1..] == u;
  }

  /** A minus sign before the rendering of a negative amount's magnitude
      reads back as the amount. */
  lemma FormatNegativeRoundTrip(cents: int)
    requires cents < 0
    ensures ParseDollars("-" + FormatDollars(-cents)) == Some(cents)
  {
    FormatDollarsRoundTrip(-cents);
    ParseNegated(FormatDollars(-cents), -cents);
  }

  /** The examples of the documentation: 1299 cents and 5 cents. */
  lemma FormatDollarsExamples()
    ensures FormatDollars(1299) == "$12.99"
    ensures FormatDollars(5) == "$0.05"
  {
    FormatDollarsShape(1299);
    FormatDollarsShape(5);
  }

  /** As written, a negative amount such as -50 cents (an overspent category's
      remaining budget) renders as "$0.0-50", which is not a dollar amount. */
  lemma FormatDollarsOfNegative()
    ensures FormatDollars(-50) == "$0.0-50"
    ensures ParseDollars(FormatDollars(-50)) == None
  {
    assert JavaDiv(-50, 100) == 0 && JavaRem(-50, 100) == -50;
    assert LongToString(0) == "0";
    assert LongToString(-50) == "-50" by {
      assert NatToDecimal(50) == NatToDecimal(5) + [Digit(0)];
    }
    var s := FormatDollars(-50);
    assert s == "$0.0-50";
    assert s[4] == '-';
  }
}
