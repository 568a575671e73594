/**
 * The numeric helpers shared by the amount rules (`core/parsing/rules/base_rule.py`)
 * and the two records every rule returns.
 *
 * Every amount that leaves `to_dec` or `quant2` is a decimal quantised to 0.01, so
 * amounts are modelled as whole numbers of cents. Rates and ratios are reals.
 */
module BaseRule {
  import opened Wrappers
  import opened Chars
  import opened Strings

  /** An amount quantised to 0.01, counted in cents. */
  type Money = int

  /** The decimal value of an amount. */
  function Real(m: Money): real { m as real / 100.0 }

  function Abs(x: real): real { if x < 0.0 then -x else x }

  function AbsInt(x: int): nat { if x < 0 then -x else x }

  // ---------------------------------------------------------------- rounding

  /** Rounding to a whole number, ties away from zero (`ROUND_HALF_UP`). */
  function RoundHalfUp(x: real): (n: int)
    ensures x >= 0.0 ==> x - 0.5 < n as real <= x + 0.5
    ensures x < 0.0 ==> x - 0.5 <= n as real < x + 0.5
  {
    if x >= 0.0 then (x + 0.5).Floor else -((-x + 0.5).Floor)
  }

  /** The bounds above determine `RoundHalfUp` completely. */
  lemma RoundHalfUpUnique(x: real, n: int)
    requires x >= 0.0 ==> x - 0.5 < n as real <= x + 0.5
    requires x < 0.0 ==> x - 0.5 <= n as real < x + 0.5
    ensures n == RoundHalfUp(x)
  {
  }

  /** `ROUND_HALF_UP` is symmetric around zero, unlike rounding ties upwards. */
  lemma RoundHalfUpOdd(x: real)
    ensures RoundHalfUp(-x) == -RoundHalfUp(x)
  {
    if x > 0.0 {
      RoundHalfUpUnique(-x, -RoundHalfUp(x));
    } else if x < 0.0 {
      RoundHalfUpUnique(-x, -RoundHalfUp(x));
    }
  }

  lemma RoundHalfUpWhole(n: int)
    ensures RoundHalfUp(n as real) == n
  {
    RoundHalfUpUnique(n as real, n);
  }

  /**
   * Rounding to a whole number, ties to the even neighbour (`ROUND_HALF_EVEN`,
   * the rounding `Decimal.quantize` applies when none is given).
   */
  function RoundHalfEven(x: real): (n: int)
    ensures x - 0.5 <= n as real <= x + 0.5
    ensures (n as real == x - 0.5 || n as real == x + 0.5) ==> n % 2 == 0
  {
    var f := x.Floor;
    var d := x - f as real;
    if d < 0.5 then f
    else if d > 0.5 then f + 1
    else if f % 2 == 0 then f
    else f + 1
  }

  /** `q2`: `x.quantize(Decimal("0.01"), rounding=ROUND_HALF_UP)`. */
  function Q2(x: real): (m: Money)
    ensures x >= 0.0 ==> x - 0.005 < Real(m) <= x + 0.005
    ensures x < 0.0 ==> x - 0.005 <= Real(m) < x + 0.005
  {
    RoundHalfUp(x * 100.0)
  }

  /** `quant2`: `q2` lifted to a missing value. */
  function Quant2(x: Option<real>): (r: Option<Money>)
    ensures r.None? <==> x.None?
    ensures x.Some? ==> r.value == Q2(x.value)
  {
    if x.None? then None else Some(Q2(x.value))
  }

  /** Quantising an amount that is already quantised changes nothing. */
  lemma Q2OfMoney(m: Money)
    ensures Q2(Real(m)) == m
  {
    assert Real(m) * 100.0 == m as real;
    RoundHalfUpWhole(m);
  }

  /** Half-up rounding of a rate to 0.1 (`quantize(Decimal("0.1"), ROUND_HALF_UP)`). */
  function Round1(x: real): (r: real)
    ensures Abs(r - x) <= 0.05
  {
    RoundHalfUp(x * 10.0) as real / 10.0
  }

  /** A value on the 0.1 grid is left unchanged by `Round1`. */
  lemma Round1OnGrid(n: int)
    ensures Round1(n as real / 10.0) == n as real / 10.0
  {
    assert (n as real / 10.0) * 10.0 == n as real;
    RoundHalfUpWhole(n);
  }

  // ---------------------------------------------------------- _to_decimal

  /** The characters `_to_decimal` keeps: `ch.isdigit() or ch in "-.,"`. */
  predicate KeptChar(c: char) {
    IsPyDigit(c) || c == '-' || c == '.' || c == ','
  }

  /** The `out` list of `_to_decimal`, as a function of the characters seen so far. */
  function Kept(s: string): (k: string)
    ensures |k| <= |s|
    ensures forall i :: 0 <= i < |k| ==> KeptChar(k[i])
  {
    if s == [] then []
    else Kept(s[..|s| - 1]) + (if KeptChar(s[|s| - 1]) then [s[|s| - 1]] else [])
  }

  lemma {:induction false} KeptAppend(a: string, b: string)
    ensures Kept(a + b) == Kept(a) + Kept(b)
    decreases |b|
  {
    if b == [] {
      assert a + b == a;
    } else {
      var b' := b[..|b| - 1];
      assert (a + b)[..|a + b| - 1] == a + b';
      KeptAppend(a, b');
    }
  }

  lemma {:induction false} KeptNone(s: string)
    requires forall i :: 0 <= i < |s| ==> !KeptChar(s[i])
    ensures Kept(s) == []
    decreases |s|
  {
    if s != [] {
      KeptNone(s[..|s| - 1]);
    }
  }

  lemma {:induction false} KeptAll(s: string)
    requires forall i :: 0 <= i < |s| ==> KeptChar(s[i])
    ensures Kept(s) == s
    decreases |s|
  {
    if s != [] {
      KeptAll(s[..|s| - 1]);
    }
  }

  /** Replacing one dropped character by another leaves the kept characters alone. */
  lemma {:induction false} KeptReplace(s: string, a: char, b: char)
    requires !KeptChar(a) && !KeptChar(b)
    ensures Kept(ReplaceChar(s, a, b)) == Kept(s)
    decreases |s|
  {
    if s != [] {
      var s' := s[..|s| - 1];
      assert ReplaceChar(s, a, b)[..|s| - 1] == ReplaceChar(s', a, b);
      KeptReplace(s', a, b);
    }
  }

  /** The prefix of `_to_decimal`: strip, then narrow NBSP and NBSP become spaces. */
  function Prepared(s: string): string {
    ReplaceChar(ReplaceChar(Strip(s), '\U{202F}', ' '), '\U{A0}', ' ')
  }

  lemma SpaceNotKept(c: char)
    requires IsSpace(c)
    ensures !KeptChar(c)
  {
  }

  lemma KeptStrip(s: string)
    ensures Kept(Strip(s)) == Kept(s)
  {
    var r := Strip(s);
    var off := LeadEnd(s, 0);
    var pre, post := s[..off], s[off + |r|..];
    assert s == pre + r + post;
    forall i | 0 <= i < |pre| ensures !KeptChar(pre[i]) {
      SpaceNotKept(s[i]);
    }
    forall i | 0 <= i < |post| ensures !KeptChar(post[i]) {
      SpaceNotKept(s[off + |r| + i]);
    }
    KeptNone(pre);
    KeptNone(post);
    KeptAppend(pre + r, post);
    KeptAppend(pre, r);
  }

  /** Stripping and replacing blanks never changes which characters are kept. */
  lemma KeptPrepared(s: string)
    ensures Kept(Prepared(s)) == Kept(s)
  {
    var r := Strip(s);
    KeptStrip(s);
    KeptReplace(r, '\U{202F}', ' ');
    KeptReplace(ReplaceChar(r, '\U{202F}', ' '), '\U{A0}', ' ');
  }

  predicate AllDigits(s: string) {
    forall i :: 0 <= i < |s| ==> IsDigit(s[i])
  }

  /** The value of a string of decimal digits. */
  function DigitsValue(s: string): nat
    requires AllDigits(s)
  {
    if s == [] then 0 else 10 * DigitsValue(s[..|s| - 1]) + DigitValue(s[|s| - 1])
  }

  /** The value of the digits `ip`, a point, and the digits `fp`. */
  function FixedPoint(ip: string, fp: string): real
    requires AllDigits(ip) && AllDigits(fp)
  {
    DigitsValue(ip) as real + FracValue(fp)
  }

  /** The value of the digits `fp` read after a point: `0.d1d2…` as `(d1 + 0.d2…) / 10`. */
  function FracValue(fp: string): (v: real)
    requires AllDigits(fp)
    ensures 0.0 <= v < 1.0
  {
    if fp == [] then 0.0 else (DigitValue(fp[0]) as real + FracValue(fp[1..])) / 10.0
  }

  /** A fraction of at most two digits, in cents. */
  function FracCents(fp: string): (c: nat)
    requires AllDigits(fp) && |fp| <= 2
    ensures c < 100
  {
    if |fp| == 0 then 0
    else if |fp| == 1 then 10 * DigitValue(fp[0])
    else 10 * DigitValue(fp[0]) + DigitValue(fp[1])
  }

  /** Up to two fraction digits are read as exactly that many cents: their value scaled to two places. */
  lemma FracValueCents(fp: string)
    requires AllDigits(fp) && |fp| <= 2
    ensures FracValue(fp) * 100.0 == FracCents(fp) as real
    ensures FracCents(fp) == if |fp| == 2 then DigitsValue(fp) else 10 * DigitsValue(fp)
  {
    if |fp| == 1 {
      assert fp[1..] == [] && fp[..0] == [];
    } else if |fp| == 2 {
      assert fp[1..][1..] == [] && fp[..1][..0] == [] && fp[1..][0] == fp[1];
    }
  }

  /** The position of the first `.` in `s`, or `|s|`. */
  function PointIndex(s: string): (k: nat)
    ensures k <= |s|
    ensures k < |s| ==> s[k] == '.'
    ensures forall i :: 0 <= i < k ==> s[i] != '.'
  {
    if s == [] || s[0] == '.' then 0 else 1 + PointIndex(s[1..])
  }

  /** `Decimal` of an unsigned string: digits with at most one point, and at least one digit. */
  function UnsignedDecimal(body: string): Result<real>
  {
    var dot := PointIndex(body);
    var ip := body[..dot];
    var fp := if dot < |body| then body[dot + 1..] else [];
    if AllDigits(ip) && AllDigits(fp) && |ip| + |fp| >= 1 then
      Success(FixedPoint(ip, fp))
    else
      Failure(NotANumber)
  }

  /**
   * `Decimal(t)` for a string built of digits, `-` and `.` only: an optional
   * leading minus before an unsigned decimal.
   */
  function ParseDecimal(t: string): (r: Result<real>)
    ensures Bare(t) ==> r.Failure?
  {
    if t != [] && t[0] == '-' then
      match UnsignedDecimal(t[1..])
      case Success(v) => Success(-v)
      case Failure(e) => Failure(e)
    else UnsignedDecimal(t)
  }

  /** The value `_to_decimal(s)` returns, or the error it raises. */
  function DecimalOf(s: string): Result<real>
  {
    var s2 := ReplaceChar(Kept(s), ',', '.');
    if Bare(s2) then Failure(NotANumber) else ParseDecimal(s2)
  }

  /** `s2 in ("", "-", ".", "-.")`: at most a sign and a point, which `_to_decimal` rejects. */
  predicate Bare(t: string) {
    |t| == 0 || (|t| == 1 && (t[0] == '-' || t[0] == '.')) || (|t| == 2 && t[0] == '-' && t[1] == '.')
  }

  lemma BareListed(t: string)
    ensures Bare(t) <==> t in ["", "-", ".", "-."]
  {
    if |t| == 1 {
      assert t == [t[0]];
    } else if |t| == 2 {
      assert t == [t[0], t[1]];
    }
  }

  /** The character loop of `_to_decimal` that builds `out`. */
  method KeepNumberChars(t: string) returns (out: string)
    ensures out == Kept(t)
  {
    out := [];
    var i := 0;
    while i < |t|
      invariant 0 <= i <= |t|
      invariant out == Kept(t[..i])
    {
      assert t[..i + 1][..i] == t[..i];
      if IsPyDigit(t[i]) || t[i] in "-.," {
        out := out + [t[i]];
      }
      i := i + 1;
    }
    assert t[..|t|] == t;
  }

  /** `_to_decimal` */
  method ToDecimal(s: string) returns (r: Result<real>)
    ensures r == DecimalOf(s)
  {
    var out := KeepNumberChars(Prepared(s));
    KeptPrepared(s);
    var s2 := ReplaceChar(out, ',', '.');
    BareListed(s2);
    if s2 in ["", "-", ".", "-."] {
      r := Failure(NotANumber);
    } else {
      r := ParseDecimal(s2);
    }
  }

  /** `to_dec`: `_to_decimal` followed by `quant2`. */
  function ToDec(s: string): (r: Result<Money>)
    ensures r.Success? <==> DecimalOf(s).Success?
    ensures r.Success? ==> Abs(Real(r.value) - DecimalOf(s).value) <= 0.005
  {
    match DecimalOf(s)
    case Success(v) => Success(Q2(v))
    case Failure(e) => Failure(e)
  }

  // --------------------------------------------------- a reference printer

  function NatToDigits(n: nat): (s: string)
    ensures |s| >= 1 && AllDigits(s)
  {
    if n < 10 then [DigitChar(n)] else NatToDigits(n / 10) + [DigitChar(n % 10)]
  }

  lemma {:induction false} NatToDigitsValue(n: nat)
    ensures DigitsValue(NatToDigits(n)) == n
  {
    if n >= 10 {
      var s := NatToDigits(n);
      assert s[..|s| - 1] == NatToDigits(n / 10);
      NatToDigitsValue(n / 10);
    }
  }

  /** An amount printed the way receipts print it, with a point: `-12.05`. */
  function FormatMoney(m: Money): (s: string)
    ensures |s| >= 4
  {
    (if m < 0 then "-" else "") + MoneyBody(AbsInt(m))
  }

  /** The digits of an amount without its sign: whole part, point, two fraction digits. */
  function MoneyBody(a: nat): (s: string)
    ensures |s| >= 4 && IsDigit(s[0])
  {
    NatToDigits(a / 100) + "." + [DigitChar(a % 100 / 10), DigitChar(a % 100 % 10)]
  }

  /** The first point of digits, a point and more text is the one after the digits. */
  lemma {:induction false} PointAfterDigits(ip: string, rest: string)
    requires AllDigits(ip)
    ensures PointIndex(ip + "." + rest) == |ip|
  {
    if ip != [] {
      assert (ip + "." + rest)[1..] == ip[1..] + "." + rest;
      assert PointIndex(ip[1..] + "." + rest) == |ip| - 1 by {
        PointAfterDigits(ip[1..], rest);
      }
    }
  }

  /** A whole part, a point and a fraction, read by `Decimal`. */
  lemma UnsignedDigitsPointDigits(ip: string, fp: string)
    requires AllDigits(ip) && AllDigits(fp) && |ip| >= 1
    ensures UnsignedDecimal(ip + "." + fp) == Success(FixedPoint(ip, fp))
  {
    var body := ip + "." + fp;
    PointAfterDigits(ip, fp);
    assert body[..|ip|] == ip;
    assert body[|ip| + 1..] == fp;
  }

  /** A string of digits, points and minus signs reaches `Decimal` unchanged. */
  lemma DecimalOfPlain(s: string)
    requires forall i :: 0 <= i < |s| ==> IsDigit(s[i]) || s[i] == '-' || s[i] == '.'
    requires |s| >= 3
    ensures DecimalOf(s) == ParseDecimal(s)
  {
    KeptAll(s);
    assert ReplaceChar(s, ',', '.') == s;
  }

  /** The two-digit fraction of an amount. */
  lemma FractionDigits(a: nat)
    ensures FixedPoint(NatToDigits(a / 100), [DigitChar(a % 100 / 10), DigitChar(a % 100 % 10)]) == Real(a)
  {
    var q, r := a / 100, a % 100;
    var r1, r0 := r / 10, r % 10;
    assert a == 100 * q + r && r == 10 * r1 + r0;
    var fp := [DigitChar(r1), DigitChar(r0)];
    NatToDigitsValue(q);
    assert fp[..1] == [DigitChar(r1)] && fp[..1][..0] == [];
    FracValueCents(fp);
    assert FracCents(fp) == r;
    assert FixedPoint(NatToDigits(q), fp) == q as real + r as real / 100.0;
  }

  lemma FormatMoneyPlain(m: Money)
    ensures forall i :: 0 <= i < |FormatMoney(m)| ==>
      IsDigit(FormatMoney(m)[i]) || FormatMoney(m)[i] == '-' || FormatMoney(m)[i] == '.'
  {
  }

  lemma DecimalOfFormatMoneyIsParse(m: Money)
    ensures DecimalOf(FormatMoney(m)) == ParseDecimal(FormatMoney(m))
  {
    FormatMoneyPlain(m);
    DecimalOfPlain(FormatMoney(m));
  }

  lemma ParseFormatMoney(m: Money)
    ensures ParseDecimal(FormatMoney(m)) == Success(Real(m))
  {
    var a := AbsInt(m);
    UnsignedMoneyBody(a);
    ParseSigned(m < 0, MoneyBody(a), Real(a));
  }

  lemma UnsignedMoneyBody(a: nat)
    ensures UnsignedDecimal(MoneyBody(a)) == Success(Real(a))
  {
    var ip := NatToDigits(a / 100);
    var fp := [DigitChar(a % 100 / 10), DigitChar(a % 100 % 10)];
    UnsignedDigitsPointDigits(ip, fp);
    FractionDigits(a);
  }

  /** `_to_decimal` reads back every printed amount exactly. */
  lemma DecimalOfFormatMoney(m: Money)
    ensures DecimalOf(FormatMoney(m)) == Success(Real(m))
  {
    DecimalOfFormatMoneyIsParse(m);
    ParseFormatMoney(m);
  }

  lemma ParseSigned(neg: bool, body: string, v: real)
    requires UnsignedDecimal(body) == Success(v) && body != [] && body[0] != '-'
    ensures ParseDecimal((if neg then "-" else "") + body) == Success(if neg then -v else v)
  {
    if neg {
      assert ("-" + body)[1..] == body;
    } else {
      assert "" + body == body;
    }
  }

  /** `to_dec` reads back every printed amount exactly. */
  lemma ToDecFormatMoney(m: Money)
    ensures ToDec(FormatMoney(m)) == Success(m)
  {
    DecimalOfFormatMoney(m);
    Q2OfMoney(m);
  }

  /** Any text that `_to_decimal` reduces to a printed amount reads as that amount. */
  lemma ToDecPrinted(s: string, m: Money)
    requires ReplaceChar(Kept(s), ',', '.') == FormatMoney(m)
    ensures ToDec(s) == Success(m)
  {
    DecimalOfFormatMoneyIsParse(m);
    ParseFormatMoney(m);
    Q2OfMoney(m);
  }

  /** Trailing whitespace (which the amount patterns capture) is dropped. */
  lemma KeptTrailingSpace(t: string)
    requires forall i :: 0 <= i < |t| ==> KeptChar(t[i])
    ensures Kept(t + " ") == t
  {
    KeptAppend(t, " ");
    KeptAll(t);
    assert !KeptChar(" "[0]);
    KeptNone(" ");
  }

  /**
   * A thousands separator is not understood: "1.234,56" becomes "1.234.56",
   * which `Decimal` rejects, so `to_dec` raises.
   */
  lemma ToDecThousandsSeparator()
    ensures ToDec("1.234,56").Failure?
  {
    var s := "1.234,56";
    KeptAll(s);
    var s2 := ReplaceChar(s, ',', '.');
    assert s2 == "1.234.56";
    assert PointIndex(s2) == 1 by {
      assert s2[1..] == ".234.56";
    }
    assert !AllDigits(s2[2..]) by {
      assert s2[2..][3] == '.';
    }
  }

  lemma KeptSpacedAmount()
    ensures Kept("1 234,56 \U{20AC}") == "1234,56"
  {
    var s := "1 234,56 \U{20AC}";
    assert s == "1 " + ("234,56" + " \U{20AC}");
    KeptAppend("1 ", "234,56" + " \U{20AC}");
    KeptAppend("234,56", " \U{20AC}");
    KeptAppend("1", " ");
    KeptAll("1");
    KeptAll("234,56");
    KeptNone(" ");
    KeptNone(" \U{20AC}");
  }

  lemma FormatSpacedAmount()
    ensures FormatMoney(123456) == "1234.56"
  {
    assert NatToDigits(1) == "1";
    assert NatToDigits(12) == "12";
    assert NatToDigits(123) == "123";
    assert NatToDigits(1234) == "1234";
  }

  /** Spaces, the currency sign and the decimal comma are handled: "1 234,56 €" is 1234.56. */
  lemma ToDecSpacedAmount()
    ensures ToDec("1 234,56 \U{20AC}") == Success(123456)
  {
    KeptSpacedAmount();
    assert ReplaceChar("1234,56", ',', '.') == "1234.56";
    FormatSpacedAmount();
    ParseFormatMoney(123456);
    Q2OfMoney(123456);
  }

  /**
   * A string of digits, points and commas that starts with a digit reaches
   * `Decimal` with its commas turned into points.
   */
  lemma DecimalOfUnsigned(s: string, t: string)
    requires forall i :: 0 <= i < |s| ==> IsDigit(s[i]) || s[i] == '.' || s[i] == ','
    requires |s| >= 1 && IsDigit(s[0]) && t == ReplaceChar(s, ',', '.')
    ensures DecimalOf(s) == UnsignedDecimal(t)
  {
    KeptAll(s);
    assert t[0] == s[0];
    assert t != [] && t[0] != '-' && t[0] != '.';
    assert !Bare(t);
    assert ParseDecimal(t) == UnsignedDecimal(t);
  }

  /** Digits, a `.` or `,`, then digits: `_to_decimal` reads them as a fixed-point number. */
  lemma DecimalOfDigitsPointDigits(ip: string, sep: char, fp: string)
    requires AllDigits(ip) && AllDigits(fp) && |ip| >= 1 && (sep == '.' || sep == ',')
    ensures DecimalOf(ip + [sep] + fp) == Success(FixedPoint(ip, fp))
  {
    var s := ip + [sep] + fp;
    var t := ReplaceChar(s, ',', '.');
    assert t == ip + "." + fp;
    DecimalOfUnsigned(s, t);
    UnsignedDigitsPointDigits(ip, fp);
  }

  /** A plain run of digits: `_to_decimal` reads it as a whole number. */
  lemma DecimalOfDigits(ip: string)
    requires AllDigits(ip) && |ip| >= 1
    ensures DecimalOf(ip) == Success(DigitsValue(ip) as real)
  {
    assert ReplaceChar(ip, ',', '.') == ip;
    DecimalOfUnsigned(ip, ip);
    UnsignedDigits(ip);
  }

  lemma UnsignedDigits(ip: string)
    requires AllDigits(ip) && |ip| >= 1
    ensures UnsignedDecimal(ip) == Success(DigitsValue(ip) as real)
  {
    assert PointIndex(ip) == |ip|;
    assert ip[..|ip|] == ip;
    var none: string := [];
    assert FixedPoint(ip, none) == DigitsValue(ip) as real + 0.0;
  }

  /** With at most two fraction digits a fixed-point number is a whole number of cents. */
  lemma FixedPointCents(ip: string, fp: string)
    requires AllDigits(ip) && AllDigits(fp) && |fp| <= 2
    ensures Q2(FixedPoint(ip, fp)) == 100 * DigitsValue(ip) + FracCents(fp)
    ensures Real(Q2(FixedPoint(ip, fp))) == FixedPoint(ip, fp)
  {
    FracValueCents(fp);
    RoundHalfUpWhole(100 * DigitsValue(ip) + FracCents(fp));
  }

  // ------------------------------------------------------------ rate helpers

  /** `compute_rate_from_amounts`: the rate, in percent, that `tva` is of `base_ht`. */
  function ComputeRateFromAmounts(baseHt: Option<Money>, tva: Option<Money>): (r: Option<real>)
    ensures r.Some? <==> baseHt.Some? && tva.Some? && baseHt.value > 0
    ensures r.Some? ==> Abs(r.value - 100.0 * tva.value as real / baseHt.value as real) <= 0.005
    // `float(q2(r))`: the rate is a whole number of hundredths
    ensures r.Some? ==> Real((r.value * 100.0).Floor) == r.value
  {
    if baseHt.None? || tva.None? || baseHt.value <= 0 then None
    else
      var q := Q2(100.0 * tva.value as real / baseHt.value as real);
      assert Real(q) * 100.0 == q as real;
      Some(Real(q))
  }

  /** The canonical French VAT rates, in the order `snap_rate` tries them. */
  const CanonRates: seq<real> := [5.5, 10.0, 20.0]

  /** `x` lies within 0.3 point of a canonical rate. */
  predicate NearCanon(x: real) {
    exists i :: 0 <= i < |CanonRates| && Abs(x - CanonRates[i]) <= 0.3
  }

  /** The value `snap_rate`'s loop returns once `rates` are left to try. */
  function SnapFrom(x: real, rates: seq<real>): real
  {
    if rates == [] then Round1(x)
    else if Abs(x - rates[0]) <= 0.3 then rates[0]
    else SnapFrom(x, rates[1..])
  }

  lemma SnapFromCanon(d: real)
    ensures SnapFrom(d, CanonRates) ==
      if Abs(d - 5.5) <= 0.3 then 5.5
      else if Abs(d - 10.0) <= 0.3 then 10.0
      else if Abs(d - 20.0) <= 0.3 then 20.0
      else Round1(d)
  {
    var r1, r2, r3 := CanonRates[1..], CanonRates[2..], CanonRates[3..];
    assert r1 == [10.0, 20.0] && r1[1..] == r2;
    assert r2 == [20.0] && r2[1..] == r3;
    assert r3 == [];
    assert SnapFrom(d, r3) == Round1(d);
    assert SnapFrom(d, r2) == if Abs(d - 20.0) <= 0.3 then 20.0 else SnapFrom(d, r3);
    assert SnapFrom(d, r1) == if Abs(d - 10.0) <= 0.3 then 10.0 else SnapFrom(d, r2);
  }

  /** `snap_rate` */
  function Snapped(x: Option<real>): (r: Option<real>)
    ensures r.None? <==> x.None?
    ensures x.Some? && NearCanon(x.value) ==> r.value in CanonRates && Abs(r.value - x.value) <= 0.3
    ensures x.Some? && !NearCanon(x.value) ==> r.value == Round1(x.value)
    ensures r.Some? ==> Round1(r.value) == r.value
  {
    if x.None? then None
    else
      var d := x.value;
      var r := SnapFrom(d, CanonRates);
      SnapFromCanon(d);
      assert Abs(d - 5.5) <= 0.3 ==> NearCanon(d) by {
        if Abs(d - 5.5) <= 0.3 { assert Abs(d - CanonRates[0]) <= 0.3; }
      }
      assert Abs(d - 10.0) <= 0.3 ==> NearCanon(d) by {
        if Abs(d - 10.0) <= 0.3 { assert Abs(d - CanonRates[1]) <= 0.3; }
      }
      assert Abs(d - 20.0) <= 0.3 ==> NearCanon(d) by {
        if Abs(d - 20.0) <= 0.3 { assert Abs(d - CanonRates[2]) <= 0.3; }
      }
      assert Round1(r) == r by {
        if Abs(d - 5.5) <= 0.3 {
          Round1OnGrid(55);
        } else if Abs(d - 10.0) <= 0.3 {
          Round1OnGrid(100);
        } else if Abs(d - 20.0) <= 0.3 {
          Round1OnGrid(200);
        } else {
          Round1OnGrid(RoundHalfUp(d * 10.0));
        }
      }
      Some(r)
  }

  /** `snap_rate`: the loop over `CANON_RATES` with its early return. */
  method SnapRate(x: Option<real>) returns (r: Option<real>)
    ensures r == Snapped(x)
  {
    if x.None? {
      return None;
    }
    var d := x.value;
    var i := 0;
    while i < |CanonRates|
      invariant 0 <= i <= |CanonRates|
      invariant SnapFrom(d, CanonRates[i..]) == SnapFrom(d, CanonRates)
    {
      if Abs(d - CanonRates[i]) <= 0.3 {
        return Some(CanonRates[i]);
      }
      assert CanonRates[i..][1..] == CanonRates[i + 1..];
      i := i + 1;
    }
    return Some(Round1(d));
  }

  /** A rate within 0.3 point of a canonical rate snaps to that rate. */
  lemma SnapToCanon(x: real, i: nat)
    requires i < |CanonRates| && Abs(x - CanonRates[i]) <= 0.3
    ensures Snapped(Some(x)) == Some(CanonRates[i])
  {
  }

  /** A rate in (0, 1.5] is taken for a fraction and scaled to percent. */
  function FractionToPercent(d: real): (p: real)
    ensures 0.0 < d <= 1.5 ==> p == d * 100.0
    ensures !(0.0 < d <= 1.5) ==> p == d
  {
    if 0.0 < d <= 1.5 then d * 100.0 else d
  }

  /** `normalize_rate`: a clean rate in percent. */
  function NormalizeRate(rate: Option<real>, baseHt: Option<Money>, tva: Option<Money>): (r: Option<real>)
    ensures r.None? ==> ComputeRateFromAmounts(baseHt, tva).None?
    ensures r.Some? ==> Round1(r.value) == r.value
  {
    var fallback := Snapped(ComputeRateFromAmounts(baseHt, tva));
    if rate.None? then fallback
    else
      var d := rate.value;
      if tva.Some? && Abs(d - Real(tva.value)) <= 0.05 then fallback
      else if baseHt.Some? && Abs(d - Real(baseHt.value)) <= 0.05 then fallback
      else
        var d' := FractionToPercent(d);
        if d' <= 0.0 || d' >= 60.0 then fallback
        else Snapped(Some(d'))
  }

  /** A missing rate is derived from the amounts. */
  lemma NormalizeMissingRate(baseHt: Option<Money>, tva: Option<Money>)
    ensures NormalizeRate(None, baseHt, tva) == Snapped(ComputeRateFromAmounts(baseHt, tva))
  {
  }

  /** A "rate" that is really one of the amounts read is replaced by the derived rate. */
  lemma NormalizeAmountLikeRate(rate: real, baseHt: Option<Money>, tva: Option<Money>)
    requires (tva.Some? && Abs(rate - Real(tva.value)) <= 0.05)
          || (baseHt.Some? && Abs(rate - Real(baseHt.value)) <= 0.05)
    ensures NormalizeRate(Some(rate), baseHt, tva) == Snapped(ComputeRateFromAmounts(baseHt, tva))
  {
  }

  /**
   * A fraction below 0.6 is read as a percentage. (A "fraction" in [0.6, 1.5]
   * scales to 60 % or more and is then rejected as aberrant.)
   */
  lemma NormalizeFraction(rate: real, baseHt: Option<Money>, tva: Option<Money>)
    requires 0.0 < rate < 0.6
    requires tva.None? || Abs(rate - Real(tva.value)) > 0.05
    requires baseHt.None? || Abs(rate - Real(baseHt.value)) > 0.05
    ensures NormalizeRate(Some(rate), baseHt, tva) == Snapped(Some(rate * 100.0))
  {
  }

  /** 0.1 written as a fraction becomes 10 %. */
  lemma NormalizeTenthIsTenPercent()
    ensures NormalizeRate(Some(0.1), None, None) == Some(10.0)
  {
    SnapToCanon(10.0, 1);
  }

  /** An aberrant rate (≤ 0 or ≥ 60 once fractions are scaled) falls back to the derived rate. */
  lemma NormalizeAberrantRate(rate: real, baseHt: Option<Money>, tva: Option<Money>)
    requires tva.None? || Abs(rate - Real(tva.value)) > 0.05
    requires baseHt.None? || Abs(rate - Real(baseHt.value)) > 0.05
    requires FractionToPercent(rate) <= 0.0 || FractionToPercent(rate) >= 60.0
    ensures NormalizeRate(Some(rate), baseHt, tva) == Snapped(ComputeRateFromAmounts(baseHt, tva))
  {
  }

  /**
   * A plausible percentage that is none of the amounts read is kept and only
   * snapped to the canonical rates, whatever the amounts give.
   */
  lemma NormalizePlainRate(rate: real, baseHt: Option<Money>, tva: Option<Money>)
    requires 1.5 < rate < 60.0
    requires tva.None? || Abs(rate - Real(tva.value)) > 0.05
    requires baseHt.None? || Abs(rate - Real(baseHt.value)) > 0.05
    ensures NormalizeRate(Some(rate), baseHt, tva) == Snapped(Some(rate))
  {
  }

  // ------------------------------------------------------------------ records

  /** `TaxRow`: one VAT line; the rate is in percent. */
  datatype TaxRow = TaxRow(rate: Option<real>, baseHt: Option<Money>, tva: Option<Money>, ttc: Option<Money>)

  /** `ParseResult`: what a rule found. `notes` is kept as a set. */
  datatype ParseResult = ParseResult(
    totalHt: Option<Money>,
    totalTtc: Option<Money>,
    tvaAmount: Option<Money>,
    tvaDetails: seq<TaxRow>,
    confidence: real,
    notes: set<string>)

  /**
   * The tuple `taxrow_signature` returns: the rate quantised to 0.01 with
   * half-even rounding (in hundredths of a point) and the three amounts
   * quantised to 0.01 (whose `str` is injective, so they are kept as amounts).
   */
  datatype RowSignature = RowSignature(rate: Option<int>, baseHt: Option<Money>, tva: Option<Money>, ttc: Option<Money>)

  /** `taxrow_signature` */
  function TaxrowSignature(rate: Option<real>, baseHt: Option<Money>, tva: Option<Money>, ttc: Option<Money>): (sig: RowSignature)
    ensures sig.rate.None? <==> rate.None?
    ensures rate.Some? ==> Abs(sig.rate.value as real / 100.0 - rate.value) <= 0.005
    ensures sig.baseHt == baseHt && sig.tva == tva && sig.ttc == ttc
  {
    RowSignature(if rate.None? then None else Some(RoundHalfEven(rate.value * 100.0)), baseHt, tva, ttc)
  }

  // ------------------------------------------------------------------ fix_ttc

  /** HT, TVA and TTC as a triple. */
  datatype Amounts = Amounts(ht: Option<Money>, tva: Option<Money>, ttc: Option<Money>)

  /** All three amounts are known and HT + TVA is within 0.02 of TTC. */
  predicate Balanced(a: Amounts) {
    a.ht.Some? && a.tva.Some? && a.ttc.Some? && AbsInt(a.ht.value + a.tva.value - a.ttc.value) <= 2
  }

  function Known(a: Amounts): nat {
    (if a.ht.Some? then 1 else 0) + (if a.tva.Some? then 1 else 0) + (if a.ttc.Some? then 1 else 0)
  }

  /** `fix_ttc`: when two amounts are known, the third is computed or corrected. */
  function FixTtc(a: Amounts): (r: Amounts)
    // HT and TVA known: both are kept, TTC is recomputed only when missing or off by more than 0.02
    ensures a.ht.Some? && a.tva.Some? ==>
      r.ht == a.ht && r.tva == a.tva
      && r.ttc == (if a.ttc.Some? && AbsInt(a.ht.value + a.tva.value - a.ttc.value) <= 2 then a.ttc
                   else Some(a.ht.value + a.tva.value))
    // HT and TTC known, TVA missing or off: TVA = TTC - HT
    ensures a.ht.Some? && a.tva.None? && a.ttc.Some? ==>
      r == Amounts(a.ht, Some(a.ttc.value - a.ht.value), a.ttc)
    // TVA and TTC known, HT missing: HT = TTC - TVA
    ensures a.ht.None? && a.tva.Some? && a.ttc.Some? ==>
      r == Amounts(Some(a.ttc.value - a.tva.value), a.tva, a.ttc)
    // with fewer than two amounts nothing changes
    ensures Known(a) < 2 ==> r == a
    ensures Known(a) >= 2 ==> Balanced(r)
  {
    if a.ht.Some? && a.tva.Some? then
      var derived := a.ht.value + a.tva.value;
      if a.ttc.None? || AbsInt(derived - a.ttc.value) > 2 then Amounts(a.ht, a.tva, Some(derived)) else a
    // In the two branches below the amount being derived is necessarily
    // missing (otherwise the first branch applies), so the source's
    // "missing or off by more than 0.02" test always passes.
    else if a.ht.Some? && a.ttc.Some? then
      Amounts(a.ht, Some(a.ttc.value - a.ht.value), a.ttc)
    else if a.tva.Some? && a.ttc.Some? then
      Amounts(Some(a.ttc.value - a.tva.value), a.tva, a.ttc)
    else a
  }

  /** `fix_ttc` leaves a balanced triple alone, so applying it twice changes nothing more. */
  lemma FixTtcIdempotent(a: Amounts)
    ensures Balanced(a) ==> FixTtc(a) == a
    ensures FixTtc(FixTtc(a)) == FixTtc(a)
  {
  }

  // ------------------------------------------------------------------ sums

  /** The sum of the known HT amounts of `rows` (`sum(b.base_ht for b in rows if b.base_ht is not None)`). */
  function SumHt(rows: seq<TaxRow>): Money {
    if rows == [] then 0 else SumHt(rows[..|rows| - 1]) + (if rows[|rows| - 1].baseHt.Some? then rows[|rows| - 1].baseHt.value else 0)
  }

  function SumTva(rows: seq<TaxRow>): Money {
    if rows == [] then 0 else SumTva(rows[..|rows| - 1]) + (if rows[|rows| - 1].tva.Some? then rows[|rows| - 1].tva.value else 0)
  }

  function SumTtc(rows: seq<TaxRow>): Money {
    if rows == [] then 0 else SumTtc(rows[..|rows| - 1]) + (if rows[|rows| - 1].ttc.Some? then rows[|rows| - 1].ttc.value else 0)
  }
}
