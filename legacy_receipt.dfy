/**
 * The receipt record of the legacy path (`models/receipt.py`): tax lines that
 * fill in their own total, the field validators that rewrite a date to ISO
 * order and map a payment description to a method, and the model validator
 * that lists what is missing or incoherent, backfills the totals from the tax
 * lines and scores the completeness of the receipt.
 */
module LegacyReceipt {
  import opened Wrappers
  import opened Chars
  import opened Strings
  import opened BaseRule
  import opened PyFloat
  import opened DateExtractor

  // ------------------------------------------------------------- tax lines

  /** `PaymentMethod` */
  datatype PaymentMethod = Cash | Card | Check | Mobile | Other

  /** The string value of each member. */
  function PaymentValue(m: PaymentMethod): (v: string)
    ensures v != []
  {
    match m
    case Cash => "cash"
    case Card => "card"
    case Check => "check"
    case Mobile => "mobile"
    case Other => "other"
  }

  /** `TaxLine` once validated: `validate_amounts` has always set the total. */
  datatype TaxLine = TaxLine(lineLabel: Option<string>, rate: real, baseAmount: real, taxAmount: real, totalAmount: real)

  /** The field constraints of `TaxLine`. */
  predicate FieldsInRange(rate: real, baseAmount: real, taxAmount: real, totalAmount: Option<real>) {
    0.0 <= rate <= 100.0 && baseAmount >= 0.0 && taxAmount >= 0.0 && (totalAmount.None? || totalAmount.value >= 0.0)
  }

  /** `TaxLine(...)`: the field constraints, then `validate_amounts`. */
  function NewTaxLine(lineLabel: Option<string>, rate: real, baseAmount: real, taxAmount: real, totalAmount: Option<real>): (r: Result<TaxLine>)
    ensures r.Success? <==> FieldsInRange(rate, baseAmount, taxAmount, totalAmount)
    ensures r.Failure? ==> r.error == ValidationFailed("TaxLine")
    ensures r.Success? ==>
      r.value.lineLabel == lineLabel && r.value.rate == rate && r.value.baseAmount == baseAmount && r.value.taxAmount == taxAmount
  {
    if FieldsInRange(rate, baseAmount, taxAmount, totalAmount) then
      Success(TaxLine(lineLabel, rate, baseAmount, taxAmount, ValidateAmounts(baseAmount, taxAmount, totalAmount)))
    else Failure(ValidationFailed("TaxLine"))
  }

  /** `validate_amounts`: the total, set to base plus tax rounded when missing. */
  function ValidateAmounts(baseAmount: real, taxAmount: real, totalAmount: Option<real>): real {
    if totalAmount.None? then Round2(baseAmount + taxAmount) else totalAmount.value
  }

  /** A given total is kept; a missing one becomes base plus tax to within half a cent, and is not negative. */
  lemma TotalFilled(lineLabel: Option<string>, rate: real, baseAmount: real, taxAmount: real, totalAmount: Option<real>)
    requires FieldsInRange(rate, baseAmount, taxAmount, totalAmount)
    ensures var l := NewTaxLine(lineLabel, rate, baseAmount, taxAmount, totalAmount).value;
      && (totalAmount.Some? ==> l.totalAmount == totalAmount.value)
      && (totalAmount.None? ==> Abs(l.totalAmount - (baseAmount + taxAmount)) <= 0.005)
      && l.totalAmount >= 0.0
  {
    if totalAmount.None? {
      RoundedSumNonNegative(baseAmount + taxAmount);
    }
  }

  lemma RoundedSumNonNegative(x: real)
    requires x >= 0.0
    ensures Round2(x) >= 0.0
  {
    var n := RoundHalfEven(x * 100.0);
    assert n as real >= x * 100.0 - 0.5 > -1.0;
  }

  /** Rate 20, base 50, tax 10 and no total give the total 60. */
  lemma TotalExample()
    ensures NewTaxLine(None, 20.0, 50.0, 10.0, None) == Success(TaxLine(None, 20.0, 50.0, 10.0, 60.0))
  {
    Round2Exact(6000);
    assert 6000 as real / 100.0 == 60.0;
  }

  /** `base * rate / 100` */
  function ExactTax(rate: real, baseAmount: real): real {
    baseAmount * rate / 100.0
  }

  /** `round(base * rate / 100, 2)` */
  function ExpectedTax(rate: real, baseAmount: real): (t: real)
    ensures ExactTax(rate, baseAmount) - 0.005 <= t <= ExactTax(rate, baseAmount) + 0.005
  {
    Round2(ExactTax(rate, baseAmount))
  }

  /** `is_coherent(tolerance)` */
  predicate IsCoherent(l: TaxLine, tolerance: real) {
    var expectedTax := ExpectedTax(l.rate, l.baseAmount);
    var expectedTotal := Round2(l.baseAmount + l.taxAmount);
    Abs(expectedTax - l.taxAmount) <= tolerance && Abs(expectedTotal - l.totalAmount) <= tolerance
  }

  /** A line built without a total, whose tax is the rate applied to the base and rounded, is coherent at every tolerance. */
  lemma ComputedLineCoherent(lineLabel: Option<string>, rate: real, baseAmount: real, tolerance: real)
    requires FieldsInRange(rate, baseAmount, ExpectedTax(rate, baseAmount), None) && tolerance >= 0.0
    ensures IsCoherent(NewTaxLine(lineLabel, rate, baseAmount, ExpectedTax(rate, baseAmount), None).value, tolerance)
  {
    var tax := ExpectedTax(rate, baseAmount);
    var l := NewTaxLine(lineLabel, rate, baseAmount, tax, None).value;
    assert l == TaxLine(lineLabel, rate, baseAmount, tax, Round2(baseAmount + tax));
  }

  /** A tax more than `tolerance + 0.005` away from the rate applied to the base makes a line incoherent. */
  lemma WrongTaxIncoherent(l: TaxLine, tolerance: real)
    requires Abs(ExactTax(l.rate, l.baseAmount) - l.taxAmount) > tolerance + 0.005
    ensures !IsCoherent(l, tolerance)
  {
  }

  // ------------------------------------------------------------------ dates

  /** `s.split(c)` for a single character: the pieces between the occurrences of `c`. */
  function Split(s: string, c: char): (parts: seq<string>)
    ensures |parts| >= 1
    ensures forall i :: 0 <= i < |parts| ==> Free(parts[i], c)
    decreases |s|
  {
    if s == [] then [[]]
    else
      var init := Split(s[..|s| - 1], c);
      if s[|s| - 1] == c then init + [[]]
      else init[..|init| - 1] + [init[|init| - 1] + [s[|s| - 1]]]
  }

  /** `c.join(parts)` */
  function Join(parts: seq<string>, c: char): string
    requires |parts| >= 1
  {
    if |parts| == 1 then parts[0] else Join(parts[..|parts| - 1], c) + [c] + parts[|parts| - 1]
  }

  /** Joining the pieces gives the string back. */
  lemma {:induction false} JoinSplit(s: string, c: char)
    ensures Join(Split(s, c), c) == s
    decreases |s|
  {
    if s != [] {
      var t := s[..|s| - 1];
      var init := Split(t, c);
      JoinSplit(t, c);
      assert s == t + [s[|s| - 1]];
      if s[|s| - 1] == c {
        assert (init + [[]])[..|init|] == init;
      } else {
        JoinLast(init, c, s[|s| - 1]);
      }
    }
  }

  /** Extending the last piece extends the joined string. */
  lemma JoinLast(parts: seq<string>, c: char, x: char)
    requires |parts| >= 1
    ensures Join(parts[..|parts| - 1] + [parts[|parts| - 1] + [x]], c) == Join(parts, c) + [x]
  {
    var ps := parts[..|parts| - 1] + [parts[|parts| - 1] + [x]];
    if |parts| > 1 {
      assert ps[..|ps| - 1] == parts[..|parts| - 1];
    }
  }

  /** A separator and a piece free of it add one piece. */
  lemma {:induction false} SplitAppend(x: string, c: char, t: string)
    requires Free(t, c)
    ensures Split(x + [c] + t, c) == Split(x, c) + [t]
    decreases |t|
  {
    if t == [] {
      assert (x + [c] + t)[..|x + [c] + t| - 1] == x;
    } else {
      var t' := t[..|t| - 1];
      SplitAppend(x, c, t');
      assert (x + [c] + t)[..|x + [c] + t| - 1] == x + [c] + t';
      assert t' + [t[|t| - 1]] == t;
    }
  }

  /** A string free of `c` is one piece. */
  lemma {:induction false} SplitFree(t: string, c: char)
    requires Free(t, c)
    ensures Split(t, c) == [t]
    decreases |t|
  {
    if t != [] {
      SplitFree(t[..|t| - 1], c);
      assert t[..|t| - 1] + [t[|t| - 1]] == t;
    }
  }

  /** `'0' * n` */
  function Zeros(n: nat): (z: string)
    ensures |z| == n && AllDigits(z)
  {
    seq(n, _ => '0')
  }

  /** `s.zfill(w)`: zeros inserted after an optional sign up to width `w`. */
  function ZFill(s: string, w: nat): (r: string)
    ensures |r| == if |s| >= w then |s| else w
  {
    if |s| >= w then s
    else if s != [] && (s[0] == '+' || s[0] == '-') then [s[0]] + Zeros(w - |s|) + s[1..]
    else Zeros(w - |s|) + s
  }

  /** Padding digits with zeros keeps them digits of the same value. */
  lemma ZFillDigits(s: string, w: nat)
    requires AllDigits(s)
    ensures AllDigits(ZFill(s, w)) && DigitsValue(ZFill(s, w)) == DigitsValue(s)
  {
    if |s| < w {
      assert !(s != [] && (s[0] == '+' || s[0] == '-'));
      ZerosPrefix(w - |s|, s);
    }
  }

  /** Leading zeros do not change the value of digits. */
  lemma {:induction false} ZerosPrefix(k: nat, s: string)
    requires AllDigits(s)
    ensures AllDigits(Zeros(k) + s) && DigitsValue(Zeros(k) + s) == DigitsValue(s)
  {
    if k > 0 {
      ZerosPrefix(k - 1, s);
      assert Zeros(k) + s == "0" + (Zeros(k - 1) + s);
      LeadingZero(Zeros(k - 1) + s);
    } else {
      assert Zeros(k) + s == s;
    }
  }

  /** One turn of the separator loop: `Some` when it returns. */
  function TryFormat(v: string, sep: char): Option<string> {
    if sep in v then
      var parts := Split(v, sep);
      if |parts| == 3 then
        if |parts[0]| == 4 then Some(v)
        else if |parts[2]| == 4 then Some(parts[2] + "-" + ZFill(parts[1], 2) + "-" + ZFill(parts[0], 2))
        else None
      else None
    else None
  }

  /** `normalize_date` on a string value. */
  function NormalizeDate(v: string): string {
    if v == [] then v
    else
      var slash := TryFormat(v, '/');
      if slash.Some? then slash.value
      else
        var dash := TryFormat(v, '-');
        if dash.Some? then dash.value else v
  }

  /** Neither separator occurs in `s`. */
  predicate NoSeparator(s: string) {
    Free(s, '/') && Free(s, '-')
  }

  lemma ThreeParts(d: string, m: string, y: string, sep: char)
    requires Free(d, sep) && Free(m, sep) && Free(y, sep)
    ensures Split(d + [sep] + m + [sep] + y, sep) == [d, m, y]
  {
    SplitFree(d, sep);
    SplitAppend(d, sep, m);
    SplitAppend(d + [sep] + m, sep, y);
  }

  /** A day, month and four-digit year, separated by `/` or `-`, become year-month-day with the day and month padded. */
  lemma NormalizeDayFirst(d: string, m: string, y: string, sep: char)
    requires sep == '/' || sep == '-'
    requires NoSeparator(d) && NoSeparator(m) && NoSeparator(y)
    requires |d| != 4 && |y| == 4
    ensures NormalizeDate(d + [sep] + m + [sep] + y) == y + "-" + ZFill(m, 2) + "-" + ZFill(d, 2)
  {
    var v := d + [sep] + m + [sep] + y;
    assert v[|d|] == sep;
    ThreeParts(d, m, y, sep);
    if sep == '-' {
      assert Free(v, '/') by {
        forall i | 0 <= i < |v| ensures v[i] != '/' {
          if i < |d| { assert v[i] == d[i]; }
          else if i == |d| { }
          else if i < |d| + 1 + |m| { assert v[i] == m[i - |d| - 1]; }
          else if i == |d| + 1 + |m| { }
          else { assert v[i] == y[i - |d| - 2 - |m|]; }
        }
      }
    }
  }

  /** A year-first date is left as it is. */
  lemma NormalizeYearFirst(y: string, m: string, d: string, sep: char)
    requires sep == '/' || sep == '-'
    requires NoSeparator(d) && NoSeparator(m) && NoSeparator(y)
    requires |y| == 4
    ensures NormalizeDate(y + [sep] + m + [sep] + d) == y + [sep] + m + [sep] + d
  {
    var v := y + [sep] + m + [sep] + d;
    assert v[|y|] == sep;
    ThreeParts(y, m, d, sep);
    if sep == '-' {
      assert Free(v, '/') by {
        forall i | 0 <= i < |v| ensures v[i] != '/' {
          if i < |y| { assert v[i] == y[i]; }
          else if i == |y| { }
          else if i < |y| + 1 + |m| { assert v[i] == m[i - |y| - 1]; }
          else if i == |y| + 1 + |m| { }
          else { assert v[i] == d[i - |y| - 2 - |m|]; }
        }
      }
    }
  }

  /** A value with neither separator is left as it is. */
  lemma NormalizeNoSeparator(v: string)
    requires NoSeparator(v)
    ensures NormalizeDate(v) == v
  {
  }

  // -------------------------------------------------------------- payment

  /** `payment_map`, in its order. */
  const PaymentKeys: seq<(string, PaymentMethod)> := [
    ("cb", Card), ("carte", Card), ("card", Card), ("credit", Card), ("debit", Card),
    ("especes", Cash), ("esp\U{E8}ces", Cash), ("cash", Cash),
    ("cheque", Check), ("ch\U{E8}que", Check), ("check", Check),
    ("mobile", Mobile), ("apple pay", Mobile), ("google pay", Mobile)]

  /** The method of the first key at or after `i` that occurs in `v`. */
  function FirstKey(v: string, i: nat): (r: Option<PaymentMethod>)
    requires i <= |PaymentKeys|
    decreases |PaymentKeys| - i
  {
    if i == |PaymentKeys| then None
    else if Contains(v, PaymentKeys[i].0) then Some(PaymentKeys[i].1)
    else FirstKey(v, i + 1)
  }

  /** `FirstKey` finds nothing exactly when no key occurs. */
  lemma {:induction false} FirstKeyMeaning(v: string, i: nat)
    requires i <= |PaymentKeys|
    ensures FirstKey(v, i).None? <==> forall k :: i <= k < |PaymentKeys| ==> !Contains(v, PaymentKeys[k].0)
    decreases |PaymentKeys| - i
  {
    if i < |PaymentKeys| && !Contains(v, PaymentKeys[i].0) {
      FirstKeyMeaning(v, i + 1);
    }
  }

  /**
   * What `normalize_payment` receives: a text, a member of `PaymentMethod`,
   * or a number or boolean (whose `str()` holds only digits, signs, points,
   * exponents, `inf`, `nan`, `True` or `False`, and so none of the keys),
   * with its truthiness: `0`, `0.0` and `False` are falsy.
   */
  datatype PaymentInput = PayText(text: string) | PayMember(member: PaymentMethod) | PayOther(truthy: bool)

  /** The member names, as `str()` of a member shows them. */
  function MemberName(m: PaymentMethod): string {
    match m
    case Cash => "CASH"
    case Card => "CARD"
    case Check => "CHECK"
    case Mobile => "MOBILE"
    case Other => "OTHER"
  }

  /** `str(v)` */
  function PaymentStr(v: PaymentInput): string
    requires !v.PayOther?
  {
    match v
    case PayText(s) => s
    case PayMember(m) => "PaymentMethod." + MemberName(m)
  }

  /** `normalize_payment` */
  function NormalizePayment(v: Option<PaymentInput>): Option<PaymentMethod> {
    if v.None? || v.value == PayText([]) || v.value == PayOther(false) then None
    else if v.value.PayOther? then Some(Other)
    else
      var s := Strip(LowerStr(PaymentStr(v.value)));
      var k := FirstKey(s, 0);
      if k.Some? then k else Some(Other)
  }

  /**
   * Nothing for a falsy value (missing, empty, zero or `False`); `Other` for
   * any other number or boolean; otherwise the method of the first key in
   * the lowered, stripped text, or `Other`.
   */
  lemma NormalizePaymentMeaning(v: Option<PaymentInput>)
    ensures NormalizePayment(v).None? <==> v.None? || v.value == PayText([]) || v.value == PayOther(false)
    ensures v == Some(PayOther(true)) ==> NormalizePayment(v) == Some(Other)
    ensures NormalizePayment(v).Some? && !v.value.PayOther? ==>
      var s := Strip(LowerStr(PaymentStr(v.value)));
      && (NormalizePayment(v) == Some(Other) <== forall k :: 0 <= k < |PaymentKeys| ==> !Contains(s, PaymentKeys[k].0))
      && (forall k :: 0 <= k < |PaymentKeys| && Contains(s, PaymentKeys[k].0) && (forall j :: 0 <= j < k ==> !Contains(s, PaymentKeys[j].0))
            ==> NormalizePayment(v) == Some(PaymentKeys[k].1))
  {
    if v.Some? && v.value != PayText([]) && !v.value.PayOther? {
      var s := Strip(LowerStr(PaymentStr(v.value)));
      FirstKeyMeaning(s, 0);
      forall k | 0 <= k < |PaymentKeys| && Contains(s, PaymentKeys[k].0) && (forall j :: 0 <= j < k ==> !Contains(s, PaymentKeys[j].0))
        ensures NormalizePayment(v) == Some(PaymentKeys[k].1)
      {
        FirstKeyAt(s, 0, k);
      }
    }
  }

  /** Scanning from `i` stops at the first key `k` that occurs. */
  lemma {:induction false} FirstKeyAt(v: string, i: nat, k: nat)
    requires i <= k < |PaymentKeys| && Contains(v, PaymentKeys[k].0)
    requires forall j :: i <= j < k ==> !Contains(v, PaymentKeys[j].0)
    ensures FirstKey(v, i) == Some(PaymentKeys[k].1)
    decreases k - i
  {
    if i < k {
      FirstKeyAt(v, i + 1, k);
    }
  }

  // ---------------------------------------------------------------- receipt

  /** The messages `validate_receipt` records, with the values they show. */
  datatype ValidationError =
    | MissingVendorName
    | MissingTotalAmount
    | AmountMismatch(subtotal: real, taxAmount: real, calculated: real, totalAmount: real)
    | BaseSumMismatch(sumBase: real, subtotal: real)
    | TaxSumMismatch(sumTax: real, taxAmount: real)

  /** The fields of a `Receipt` (the extraction time and the raw data are not modelled). */
  datatype Fields = Fields(
    vendorName: Option<string>,
    vendorAddress: Option<string>,
    vendorSiret: Option<string>,
    receiptNumber: Option<string>,
    date: Option<string>,
    time: Option<string>,
    subtotal: Option<real>,
    taxAmount: Option<real>,
    totalAmount: Option<real>,
    taxLines: seq<TaxLine>,
    paymentMethod: Option<PaymentMethod>,
    confidenceScore: real,
    validationErrors: seq<ValidationError>)

  /** `bool(s)` for an optional string. */
  predicate Present(s: Option<string>) {
    s.Some? && s.value != []
  }

  /** `sum(line.base_amount for line in lines)` */
  function SumBase(lines: seq<TaxLine>): real {
    if lines == [] then 0.0 else SumBase(lines[..|lines| - 1]) + lines[|lines| - 1].baseAmount
  }

  /** `sum(line.tax_amount for line in lines)` */
  function SumTax(lines: seq<TaxLine>): real {
    if lines == [] then 0.0 else SumTax(lines[..|lines| - 1]) + lines[|lines| - 1].taxAmount
  }

  /** `sum(line.total_amount for line in lines)` */
  function SumTotal(lines: seq<TaxLine>): real {
    if lines == [] then 0.0 else SumTotal(lines[..|lines| - 1]) + lines[|lines| - 1].totalAmount
  }

  /** The three totals are all non-zero. */
  predicate AllTotals(f: Fields) {
    Truthy(f.subtotal) && Truthy(f.taxAmount) && Truthy(f.totalAmount)
  }

  /** The first check of `validate_receipt`: the missing vendor and total, and the amount mismatch. */
  function BasicErrors(f: Fields): seq<ValidationError> {
    (if Present(f.vendorName) then [] else [MissingVendorName])
    + (if Truthy(f.totalAmount) then [] else [MissingTotalAmount])
    + (if AllTotals(f) && Abs(Round2(f.subtotal.value + f.taxAmount.value) - f.totalAmount.value) > 0.10
       then [AmountMismatch(f.subtotal.value, f.taxAmount.value, Round2(f.subtotal.value + f.taxAmount.value), f.totalAmount.value)]
       else [])
  }

  /** The checks of the totals against the sums of the tax lines. */
  function LineErrors(f: Fields): seq<ValidationError> {
    if f.taxLines == [] then []
    else
      var sumBase, sumTax := SumBase(f.taxLines), SumTax(f.taxLines);
      (if Truthy(f.subtotal) && Abs(sumBase - f.subtotal.value) > 0.50 then [BaseSumMismatch(sumBase, f.subtotal.value)] else [])
      + (if Truthy(f.taxAmount) && Abs(sumTax - f.taxAmount.value) > 0.50 then [TaxSumMismatch(sumTax, f.taxAmount.value)] else [])
  }

  /** The errors `validate_receipt` stores. */
  function Errors(f: Fields): seq<ValidationError> {
    BasicErrors(f) + LineErrors(f)
  }

  /** The totals after the backfill from the tax lines. */
  function Backfilled(f: Fields): Fields {
    if f.taxLines == [] then f
    else
      var sub := if Truthy(f.subtotal) then f.subtotal else Some(SumBase(f.taxLines));
      var tax := if Truthy(f.taxAmount) then f.taxAmount else Some(SumTax(f.taxLines));
      var total := if Truthy(f.totalAmount) then f.totalAmount else Some(Round2(sub.value + tax.value));
      f.(subtotal := sub, taxAmount := tax, totalAmount := total)
  }

  /** The score of `_calculate_confidence` before rounding. */
  function RawScore(f: Fields): real {
    (if Present(f.vendorName) then 0.20 else 0.0)
    + (if Present(f.date) then 0.15 else 0.0)
    + (if AllTotals(f) then 0.30 else 0.0)
    + (if f.taxLines != [] then 0.25 else 0.0)
    + (if f.validationErrors == [] then 0.10 else 0.0)
  }

  /** `_calculate_confidence` */
  function Confidence(f: Fields): real {
    Round2(RawScore(f))
  }

  /** What `validate_receipt` leaves: the backfilled totals, the score they give with the errors stored before, and the new errors. */
  function Validated(f: Fields): Fields {
    var b := Backfilled(f);
    b.(confidenceScore := Confidence(b), validationErrors := Errors(f))
  }

  /** The score is the sum of the weights of what is present, exactly; it lies in [0, 1] and is 1 only with everything present. */
  lemma ConfidenceBounds(f: Fields)
    ensures Confidence(f) == RawScore(f)
    ensures 0.0 <= Confidence(f) <= 1.0
    ensures Confidence(f) == 1.0 <==>
      Present(f.vendorName) && Present(f.date) && AllTotals(f) && f.taxLines != [] && f.validationErrors == []
  {
    var n := (if Present(f.vendorName) then 20 else 0) + (if Present(f.date) then 15 else 0)
      + (if AllTotals(f) then 30 else 0) + (if f.taxLines != [] then 25 else 0) + (if f.validationErrors == [] then 10 else 0);
    assert RawScore(f) == n as real / 100.0;
    Round2Exact(n);
  }

  /** The vendor and total checks. */
  lemma MissingErrors(f: Fields)
    ensures MissingVendorName in Errors(f) <==> !Present(f.vendorName)
    ensures MissingTotalAmount in Errors(f) <==> !Truthy(f.totalAmount)
  {
  }

  /** The amount mismatch is recorded exactly when all three totals are non-zero and HT plus tax, rounded, is more than 0.10 off the total. */
  lemma MismatchError(f: Fields)
    ensures (exists e :: e in Errors(f) && e.AmountMismatch?) <==>
      AllTotals(f) && Abs(Round2(f.subtotal.value + f.taxAmount.value) - f.totalAmount.value) > 0.10
  {
    if AllTotals(f) {
      var calculated := Round2(f.subtotal.value + f.taxAmount.value);
      if Abs(calculated - f.totalAmount.value) > 0.10 {
        assert AmountMismatch(f.subtotal.value, f.taxAmount.value, calculated, f.totalAmount.value) in Errors(f);
      }
    }
  }

  /** The sums of the tax lines are checked only against totals that are present, and only with at least one line. */
  lemma SumErrors(f: Fields)
    ensures (exists e :: e in Errors(f) && e.BaseSumMismatch?) <==>
      f.taxLines != [] && Truthy(f.subtotal) && Abs(SumBase(f.taxLines) - f.subtotal.value) > 0.50
    ensures (exists e :: e in Errors(f) && e.TaxSumMismatch?) <==>
      f.taxLines != [] && Truthy(f.taxAmount) && Abs(SumTax(f.taxLines) - f.taxAmount.value) > 0.50
  {
    assert forall e :: e in BasicErrors(f) ==> !e.BaseSumMismatch? && !e.TaxSumMismatch?;
    assert forall e :: e in LineErrors(f) && e.BaseSumMismatch? ==>
      f.taxLines != [] && Truthy(f.subtotal) && Abs(SumBase(f.taxLines) - f.subtotal.value) > 0.50;
    assert forall e :: e in LineErrors(f) && e.TaxSumMismatch? ==>
      f.taxLines != [] && Truthy(f.taxAmount) && Abs(SumTax(f.taxLines) - f.taxAmount.value) > 0.50;
    if f.taxLines != [] && Truthy(f.subtotal) && Abs(SumBase(f.taxLines) - f.subtotal.value) > 0.50 {
      assert BaseSumMismatch(SumBase(f.taxLines), f.subtotal.value) in LineErrors(f);
      assert BaseSumMismatch(SumBase(f.taxLines), f.subtotal.value) in Errors(f);
    }
    if f.taxLines != [] && Truthy(f.taxAmount) && Abs(SumTax(f.taxLines) - f.taxAmount.value) > 0.50 {
      assert TaxSumMismatch(SumTax(f.taxLines), f.taxAmount.value) in LineErrors(f);
      assert TaxSumMismatch(SumTax(f.taxLines), f.taxAmount.value) in Errors(f);
    }
  }

  /** Without tax lines nothing is backfilled; with them every total that is missing or zero is filled, the total from the other two. */
  lemma BackfillMeaning(f: Fields)
    ensures var b := Backfilled(f);
      && b.taxLines == f.taxLines && b.vendorName == f.vendorName && b.date == f.date
      && (f.taxLines == [] ==> b == f)
      && (f.taxLines != [] ==>
            && b.subtotal == (if Truthy(f.subtotal) then f.subtotal else Some(SumBase(f.taxLines)))
            && b.taxAmount == (if Truthy(f.taxAmount) then f.taxAmount else Some(SumTax(f.taxLines)))
            && b.totalAmount.Some? && b.subtotal.Some? && b.taxAmount.Some?
            && (!Truthy(f.totalAmount) ==> Abs(b.totalAmount.value - (b.subtotal.value + b.taxAmount.value)) <= 0.005))
  {
  }

  /** A total backfilled from the tax lines agrees with HT plus tax: validating again finds no mismatch. */
  lemma BackfilledTotalAgrees(f: Fields)
    requires f.taxLines != [] && !Truthy(f.totalAmount)
    ensures forall e :: e in Errors(Validated(f)) ==> !e.AmountMismatch?
  {
    var v := Validated(f);
    assert v.totalAmount.value == Round2(v.subtotal.value + v.taxAmount.value);
  }

  /**
   * The score is computed before the new errors are stored: a fresh receipt
   * with only a total of 100 records the missing vendor, yet its score
   * counts the coherence weight.
   */
  lemma ScoreSeesEarlierErrors()
    ensures var f := Fields(None, None, None, None, None, None, None, None, Some(100.0), [], None, 0.0, []);
      Validated(f).validationErrors == [MissingVendorName] && Validated(f).confidenceScore == 0.10
  {
    var f := Fields(None, None, None, None, None, None, None, None, Some(100.0), [], None, 0.0, []);
    ConfidenceBounds(Backfilled(f));
  }

  /** `to_summary` */
  datatype Summary = Summary(
    vendor: Option<string>,
    date: Option<string>,
    totalHt: Option<real>,
    totalTva: Option<real>,
    totalTtc: Option<real>,
    taxRates: set<real>,
    payment: Option<string>,
    isValid: bool)

  function SummaryOf(f: Fields): Summary {
    Summary(f.vendorName, f.date, f.subtotal, f.taxAmount, f.totalAmount,
            set i | 0 <= i < |f.taxLines| :: f.taxLines[i].rate,
            if f.paymentMethod.Some? then Some(PaymentValue(f.paymentMethod.value)) else None,
            |f.validationErrors| == 0)
  }

  /** The rates of the summary are those of the tax lines; it is valid exactly without errors. */
  lemma SummaryMeaning(f: Fields, x: real)
    ensures x in SummaryOf(f).taxRates <==> exists i :: 0 <= i < |f.taxLines| && f.taxLines[i].rate == x
    ensures SummaryOf(f).isValid <==> f.validationErrors == []
    ensures f.taxLines == [] ==> SummaryOf(f).taxRates == {}
    ensures SummaryOf(f).payment.Some? <==> f.paymentMethod.Some?
  {
  }

  /** What a caller passes to `Receipt(...)`. */
  datatype ReceiptInput = ReceiptInput(
    vendorName: Option<string>,
    vendorAddress: Option<string>,
    vendorSiret: Option<string>,
    receiptNumber: Option<string>,
    date: Option<string>,
    time: Option<string>,
    subtotal: Option<real>,
    taxAmount: Option<real>,
    totalAmount: Option<real>,
    taxLines: seq<TaxLine>,
    paymentMethod: Option<PaymentInput>)

  /** The field constraints of `Receipt`: no negative total. */
  predicate TotalsInRange(input: ReceiptInput) {
    (input.subtotal.None? || input.subtotal.value >= 0.0)
    && (input.taxAmount.None? || input.taxAmount.value >= 0.0)
    && (input.totalAmount.None? || input.totalAmount.value >= 0.0)
  }

  /** The fields once the field validators have run: the date and the payment method normalised, the score and errors at their defaults. */
  function Initial(input: ReceiptInput): (r: Result<Fields>)
    ensures r.Success? <==> TotalsInRange(input)
    ensures r.Failure? ==> r.error == ValidationFailed("Receipt")
  {
    if !TotalsInRange(input) then Failure(ValidationFailed("Receipt"))
    else
      var date := if input.date.Some? then Some(NormalizeDate(input.date.value)) else None;
      Success(Fields(input.vendorName, input.vendorAddress, input.vendorSiret, input.receiptNumber, date, input.time,
                     input.subtotal, input.taxAmount, input.totalAmount, input.taxLines,
                     NormalizePayment(input.paymentMethod), 0.0, []))
  }

  /** `Receipt` */
  class Receipt {
    var vendorName: Option<string>
    var vendorAddress: Option<string>
    var vendorSiret: Option<string>
    var receiptNumber: Option<string>
    var date: Option<string>
    var time: Option<string>
    var subtotal: Option<real>
    var taxAmount: Option<real>
    var totalAmount: Option<real>
    var taxLines: seq<TaxLine>
    var paymentMethod: Option<PaymentMethod>
    var confidenceScore: real
    var validationErrors: seq<ValidationError>

    function State(): Fields
      reads this
    {
      Fields(vendorName, vendorAddress, vendorSiret, receiptNumber, date, time, subtotal, taxAmount, totalAmount,
             taxLines, paymentMethod, confidenceScore, validationErrors)
    }

    /** A receipt holding `f`, before the model validator. */
    constructor(f: Fields)
      ensures State() == f
    {
      vendorName, vendorAddress, vendorSiret, receiptNumber := f.vendorName, f.vendorAddress, f.vendorSiret, f.receiptNumber;
      date, time := f.date, f.time;
      subtotal, taxAmount, totalAmount := f.subtotal, f.taxAmount, f.totalAmount;
      taxLines, paymentMethod := f.taxLines, f.paymentMethod;
      confidenceScore, validationErrors := f.confidenceScore, f.validationErrors;
    }

    /** `Receipt(...)`: the field validators and constraints, then `validate_receipt`. */
    static method Create(input: ReceiptInput) returns (r: Result<Receipt>)
      ensures r.Success? <==> TotalsInRange(input)
      ensures r.Failure? ==> r.error == ValidationFailed("Receipt")
      ensures r.Success? ==> fresh(r.value) && r.value.State() == Validated(Initial(input).value)
    {
      var init := Initial(input);
      if init.Failure? {
        return Failure(init.error);
      }
      var receipt := new Receipt(init.value);
      receipt.ValidateReceipt();
      return Success(receipt);
    }

    /** `_calculate_confidence` */
    method CalculateConfidence() returns (score: real)
      ensures score == Confidence(State())
    {
      score := 0.0;
      if vendorName.Some? && vendorName.value != [] {
        score := score + 0.20;
      }
      if date.Some? && date.value != [] {
        score := score + 0.15;
      }
      if Truthy(subtotal) && Truthy(taxAmount) && Truthy(totalAmount) {
        score := score + 0.30;
      }
      if taxLines != [] {
        score := score + 0.25;
      }
      if validationErrors == [] {
        score := score + 0.10;
      }
      score := Round2(score);
    }

    /** `validate_receipt` */
    method ValidateReceipt()
      modifies this
      ensures State() == Validated(old(State()))
    {
      var errors := CheckTotals();
      var lineErrors := CheckLines();
      errors := errors + lineErrors;
      BackfillTotals();
      confidenceScore := CalculateConfidence();
      validationErrors := errors;
    }

    /** The first checks of `validate_receipt`. */
    method CheckTotals() returns (errors: seq<ValidationError>)
      ensures errors == BasicErrors(State())
    {
      errors := [];
      if !(vendorName.Some? && vendorName.value != []) {
        errors := errors + [MissingVendorName];
      }
      if !Truthy(totalAmount) {
        errors := errors + [MissingTotalAmount];
      }
      if Truthy(subtotal) && Truthy(taxAmount) && Truthy(totalAmount) {
        var calculated := Round2(subtotal.value + taxAmount.value);
        if Abs(calculated - totalAmount.value) > 0.10 {
          errors := errors + [AmountMismatch(subtotal.value, taxAmount.value, calculated, totalAmount.value)];
        }
      }
    }

    /** The checks of the totals against the tax lines. */
    method CheckLines() returns (errors: seq<ValidationError>)
      ensures errors == LineErrors(State())
    {
      errors := [];
      if taxLines != [] {
        var sumBase := SumBase(taxLines);
        var sumTax := SumTax(taxLines);
        if Truthy(subtotal) && Abs(sumBase - subtotal.value) > 0.50 {
          errors := errors + [BaseSumMismatch(sumBase, subtotal.value)];
        }
        if Truthy(taxAmount) && Abs(sumTax - taxAmount.value) > 0.50 {
          errors := errors + [TaxSumMismatch(sumTax, taxAmount.value)];
        }
      }
    }

    /** The backfill of the totals from the tax lines. */
    method BackfillTotals()
      modifies this
      ensures State() == Backfilled(old(State()))
    {
      if taxLines != [] {
        var sumBase := SumBase(taxLines);
        var sumTax := SumTax(taxLines);
        if !Truthy(subtotal) {
          subtotal := Some(sumBase);
        }
        if !Truthy(taxAmount) {
          taxAmount := Some(sumTax);
        }
        if !Truthy(totalAmount) {
          totalAmount := Some(Round2(subtotal.value + taxAmount.value));
        }
      }
    }

    /** `to_summary` */
    function ToSummary(): Summary
      reads this
    {
      SummaryOf(State())
    }
  }
}
