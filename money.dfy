/**
 * Pricing utilities of the storefront: rounding to cents and the `"<amount> XCG"`
 * display form. Amounts are exact reals (rounding) or whole cents (formatting);
 * binary floating point is not modelled.
 */
module Money {

  import opened Wrappers
  import opened Decimal

  /** `x` is a whole number of cents. */
  predicate IsWholeCents(x: real) {
    (x * 100.0).Floor as real == x * 100.0
  }

  /** `Math.round(n * 100)`: the nearest whole number of cents, ties toward +infinity. */
  function Round2Cents(n: real): int {
    (n * 100.0 + 0.5).Floor
  }

  /**
   * `round2(n)`: a whole number of cents, within half a cent of `n`; the lower end is
   * excluded, so an amount exactly half-way between two cents goes up.
   */
  function Round2(n: real): (r: real)
    ensures IsWholeCents(r)
    ensures n - 0.005 < r <= n + 0.005
  {
    var c := Round2Cents(n);
    assert (c as real / 100.0) * 100.0 == c as real;
    c as real / 100.0
  }

  /** There is exactly one whole-cents amount in the half-open window `(n - 0.005, n + 0.005]`. */
  lemma Round2Characterized(n: real, r: real)
    requires IsWholeCents(r)
    requires n - 0.005 < r <= n + 0.005
    ensures r == Round2(n)
  {
    var k := (r * 100.0).Floor;
    var x := n * 100.0 + 0.5;
    assert k as real <= x < k as real + 1.0;
    assert k == x.Floor;
  }

  /** Rounding an already rounded amount changes nothing. */
  lemma Round2Idempotent(n: real)
    ensures Round2(Round2(n)) == Round2(n)
  {
    var r := Round2(n);
    Round2Characterized(r, r);
  }

  /** An amount exactly half-way between two cents rounds up to the next cent. */
  lemma Round2TieGoesUp(n: real, c: int)
    requires n * 100.0 == c as real + 0.5
    ensures Round2(n) == (c + 1) as real / 100.0
  {
    var r := (c + 1) as real / 100.0;
    assert r * 100.0 == (c + 1) as real;
    Round2Characterized(n, r);
  }

  /** Sums of whole-cent amounts are not moved by rounding: no drift accumulates. */
  lemma Round2OfCentsSum(a: real, b: real)
    requires IsWholeCents(a) && IsWholeCents(b)
    ensures Round2(a + b) == a + b
  {
    var ka, kb := (a * 100.0).Floor, (b * 100.0).Floor;
    assert (a + b) * 100.0 == (ka + kb) as real;
    Round2Characterized(a + b, a + b);
  }

  /**
   * The argument of `formatXCG` after `Number(amount)`: either a whole number of
   * cents or NaN (what `Number` makes of a non-numeric string).
   */
  datatype Amount = Cents(cents: int) | NaN

  /** `(c / 100).toFixed(2)` for whole cents `c`: sign, integer part, point, two digits. */
  function Fixed2(c: int): string {
    var a: nat := if c < 0 then -c else c;
    (if c < 0 then "-" else "") + NatToString(a / 100) + "." + [DigitChar(a % 100 / 10), DigitChar(a % 10)]
  }

  /**
   * `formatXCG`: the amount with exactly two fractional digits, then `" XCG"`;
   * NaN prints as zero.
   */
  function FormatXCG(x: Amount): (s: string)
    ensures x.NaN? ==> s == "0.00 XCG"
    ensures |s| >= 8 && s[|s| - 4..] == " XCG"
    ensures s[|s| - 7] == '.' && IsDigit(s[|s| - 6]) && IsDigit(s[|s| - 5])
  {
    match x
    case NaN => "0.00 XCG"
    case Cents(c) => Fixed2(c) + " XCG"
  }

  /** Reads a `toFixed(2)` figure back to whole cents. */
  function ParseFixed2(f: string): Option<int> {
    if |f| < 4 || f[|f| - 3] != '.' || !IsDigit(f[|f| - 2]) || !IsDigit(f[|f| - 1]) then None
    else
      var frac := DigitValue(f[|f| - 2]) * 10 + DigitValue(f[|f| - 1]);
      match ParseInt(f[..|f| - 3])
      case None => None
      case Some(w) =>
        if f[0] == '-' then Some(w * 100 - frac) else Some(w * 100 + frac)
  }

  /** Reads the figure of a `formatXCG` string back to whole cents. */
  function ParseXCG(s: string): Option<int> {
    if |s| >= 4 && s[|s| - 4..] == " XCG" then ParseFixed2(s[..|s| - 4]) else None
  }

  /** How `ParseFixed2` reads a figure made of a signed integer part, a point and two digits. */
  lemma ParseFixed2Parts(h: string, d1: char, d2: char, w: int)
    requires |h| >= 1 && IsDigit(d1) && IsDigit(d2) && ParseInt(h) == Some(w)
    ensures ParseFixed2(h + "." + [d1, d2])
         == Some(if h[0] == '-' then w * 100 - (DigitValue(d1) * 10 + DigitValue(d2))
                 else w * 100 + (DigitValue(d1) * 10 + DigitValue(d2)))
  {
    var f := h + "." + [d1, d2];
    assert f[..|f| - 3] == h;
    assert f[0] == h[0];
  }

  /** The two fractional digits of `Fixed2` denote the cents below a whole unit. */
  lemma TwoDigits(a: nat)
    ensures DigitValue(DigitChar(a % 100 / 10)) * 10 + DigitValue(DigitChar(a % 10)) == a % 100
  {
    var m := a % 100;
    assert a % 10 == m % 10;
    assert m == m / 10 * 10 + m % 10;
  }

  /** The integer part of a `Fixed2` figure reads back as the signed whole units. */
  lemma Fixed2Head(c: int)
    ensures var a: nat := if c < 0 then -c else c;
            ParseInt((if c < 0 then "-" else "") + NatToString(a / 100))
              == Some(if c < 0 then -(a / 100) else a / 100)
  {
    var a: nat := if c < 0 then -c else c;
    var w := NatToString(a / 100);
    NatToStringValue(a / 100);
    if c < 0 {
      assert ("-" + w)[1..] == w;
    } else {
      assert "" + w == w;
    }
  }

  /** Reading back the figure of `Fixed2` gives the cents it was printed from. */
  lemma Fixed2Denotes(c: int)
    ensures ParseFixed2(Fixed2(c)) == Some(c)
  {
    var a: nat := if c < 0 then -c else c;
    var h := (if c < 0 then "-" else "") + NatToString(a / 100);
    var d1, d2 := DigitChar(a % 100 / 10), DigitChar(a % 10);
    assert Fixed2(c) == h + "." + [d1, d2];
    TwoDigits(a);
    Fixed2Head(c);
    var w := if c < 0 then -(a / 100) else a / 100;
    ParseFixed2Parts(h, d1, d2, w);
    assert a == a / 100 * 100 + a % 100;
    assert h[0] == '-' <==> c < 0;
  }

  /** The figure `formatXCG` prints for whole cents denotes exactly that amount. */
  lemma FormatXCGDenotes(c: int)
    ensures ParseXCG(FormatXCG(Cents(c))) == Some(c)
  {
    var s := FormatXCG(Cents(c));
    assert s[..|s| - 4] == Fixed2(c);
    Fixed2Denotes(c);
  }
}
