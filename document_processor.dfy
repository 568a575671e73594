/**
 * The dictionary parsing helpers of the legacy path
 * (`services/document_processor.py`): the OCR service's JSON answer becomes
 * a list of tax lines, read from exactly one of three layouts, and a
 * validated `Receipt` whose missing totals are filled in from those lines.
 * Every string read as a number goes through `_safe_float`, which accepts a
 * comma as the decimal point.
 */
module DocumentProcessor {
  import opened Wrappers
  import opened Chars
  import opened Strings
  import opened BaseRule
  import opened Patterns
  import opened DateExtractor
  import opened PyFloat
  import opened LegacyReceipt

  /** A JSON value as `json.loads` returns it; numbers are read as reals. */
  datatype Json =
    | JNull
    | JBool(b: bool)
    | JNum(x: real)
    | JStr(s: string)
    | JArr(items: seq<Json>)
    | JObj(fields: map<string, Json>)

  /** `bool(v)` */
  predicate JsonTruthy(v: Json) {
    match v
    case JNull => false
    case JBool(b) => b
    case JNum(x) => x != 0.0
    case JStr(s) => s != []
    case JArr(items) => items != []
    case JObj(fields) => fields != map[]
  }

  /** `d.get(k)`: the value at `k`, or `None` when it is missing. */
  function Get(d: map<string, Json>, k: string): (v: Json)
    ensures k in d ==> v == d[k]
    ensures k !in d ==> v == JNull
  {
    if k in d then d[k] else JNull
  }

  /** `a or b` */
  function Or(a: Json, b: Json): (v: Json)
    ensures JsonTruthy(a) ==> v == a
    ensures !JsonTruthy(a) ==> v == b
  {
    if JsonTruthy(a) then a else b
  }

  // ----------------------------------------------------------- _safe_float

  /** The end of an optional sign at `p`. */
  function SignEnd(u: string, p: nat): (q: nat)
    requires p <= |u|
    ensures p <= q <= |u| && q <= p + 1
  {
    if p < |u| && (u[p] == '+' || u[p] == '-') then p + 1 else p
  }

  /** The run of digits starting at `p`. */
  function RunDigits(u: string, p: nat): (t: string)
    requires p <= |u|
    ensures AllDigits(t) && p + |t| <= |u| && t == u[p..p + |t|]
    ensures p + |t| == |u| || !IsDigit(u[p + |t|])
  {
    u[p..DigitRunEnd(u, p)]
  }

  /** The exponent `[eE][+-]?digits` that must end the text from `c` on: 0 when nothing follows. */
  function ExponentOf(u: string, c: nat): (e: Option<int>)
    requires c <= |u|
    ensures c == |u| ==> e == Some(0)
  {
    if c == |u| then Some(0)
    else if u[c] != 'e' && u[c] != 'E' then None
    else
      var d := SignEnd(u, c + 1);
      var digits := RunDigits(u, d);
      if digits == [] || d + |digits| != |u| then None
      else
        var n := DigitsValue(digits) as int;
        Some(if u[c + 1] == '-' then -n else n)
  }

  /** `m * 10^e` */
  function Scaled(m: real, e: int): real {
    if e >= 0 then m * Pow10(e) as real else m / Pow10(-e) as real
  }

  /**
   * `float(t)` for a decimal text: surrounding whitespace, an optional sign,
   * digits with an optional point (at least one digit on either side) and an
   * optional exponent; anything else is refused.
   */
  function ParseFloat(t: string): Option<real> {
    var u := Strip(t);
    var a := SignEnd(u, 0);
    var m := Unsigned(u, a);
    if m.None? then None
    else Some(if a > 0 && u[0] == '-' then -m.value else m.value)
  }

  /** The unsigned number that must make up the text from `a` on. */
  function Unsigned(u: string, a: nat): Option<real>
    requires a <= |u|
  {
    var ip := RunDigits(u, a);
    var b := a + |ip|;
    if b < |u| && u[b] == '.' then Fraction(u, ip, b + 1)
    else Finish(u, ip, [], b)
  }

  /** The fraction digits after the point at `p - 1`, then the rest. */
  function Fraction(u: string, ip: string, p: nat): Option<real>
    requires AllDigits(ip) && p <= |u|
  {
    var fp := RunDigits(u, p);
    Finish(u, ip, fp, p + |fp|)
  }

  /** The mantissa `ip.fp`, which needs a digit, scaled by the exponent that must end the text from `c` on. */
  function Finish(u: string, ip: string, fp: string, c: nat): (r: Option<real>)
    requires AllDigits(ip) && AllDigits(fp) && c <= |u|
    ensures c == |u| && |ip| + |fp| > 0 ==> r == Some(FixedPoint(ip, fp))
  {
    if |ip| + |fp| == 0 then None
    else
      var e := ExponentOf(u, c);
      if e.None? then None else Some(Scaled(FixedPoint(ip, fp), e.value))
  }

  /** `_safe_float` */
  function SafeFloat(v: Json): (r: Option<real>)
    ensures v.JNull? || v == JStr("null") || v == JStr("NULL") ==> r.None?
    ensures v.JNum? ==> r == Some(v.x)
    ensures v.JBool? ==> r == Some(if v.b then 1.0 else 0.0)
    ensures v.JArr? || v.JObj? ==> r.None?
  {
    match v
    case JNull => None
    case JBool(b) => Some(if b then 1.0 else 0.0)
    case JNum(x) => Some(x)
    case JStr(s) => if s == "null" || s == "NULL" then None else ParseFloat(ReplaceChar(s, ',', '.'))
    case JArr(_) => None
    case JObj(_) => None
  }

  /** A text with no whitespace at either end is its own strip. */
  lemma StripClean(u: string)
    requires u != [] && !IsSpace(u[0]) && !IsSpace(u[|u| - 1])
    ensures Strip(u) == u
  {
    assert LeadEnd(u, 0) == 0;
  }

  /** Digits, a point and more digits form a number read as its fixed-point value. */
  lemma ParsePoint(a: string, b: string)
    requires AllDigits(a) && AllDigits(b) && a != []
    ensures ParseFloat(a + ['.'] + b) == Some(FixedPoint(a, b))
  {
    var u := a + ['.'] + b;
    assert u[0] == a[0];
    assert u[|u| - 1] == if b == [] then '.' else b[|b| - 1];
    StripClean(u);
    assert SignEnd(u, 0) == 0;
    DigitRunFrom(u, 0, |a|);
    assert RunDigits(u, 0) == a;
    assert u[|a|] == '.';
    DigitRunFrom(u, |a| + 1, |u|);
    assert RunDigits(u, |a| + 1) == b;
    assert Fraction(u, a, |a| + 1) == Some(FixedPoint(a, b));
    assert Unsigned(u, 0) == Some(FixedPoint(a, b));
  }

  /** Digits alone form a number read as their value. */
  lemma ParseWhole(a: string)
    requires AllDigits(a) && a != []
    ensures ParseFloat(a) == Some(FixedPoint(a, []))
  {
    StripClean(a);
    assert SignEnd(a, 0) == 0;
    DigitRunFrom(a, 0, |a|);
    assert RunDigits(a, 0) == a;
    assert Unsigned(a, 0) == Finish(a, a, [], |a|);
  }

  /** The comma of a decimal written the French way becomes a point. */
  lemma CommaReplaced(a: string, b: string, sep: char)
    requires AllDigits(a) && AllDigits(b) && (sep == ',' || sep == '.')
    ensures ReplaceChar(a + [sep] + b, ',', '.') == a + ['.'] + b
  {
    var s := a + [sep] + b;
    var u := a + ['.'] + b;
    forall i | 0 <= i < |s|
      ensures ReplaceChar(s, ',', '.')[i] == u[i]
    {
      if i < |a| {
        assert s[i] == a[i] && u[i] == a[i];
      } else if i > |a| {
        assert s[i] == b[i - |a| - 1] && u[i] == b[i - |a| - 1];
      }
    }
  }

  /** The digits `a`, a separator and the digits `b` are read alike whether the separator is a point or a comma. */
  lemma SafeFloatDecimal(a: string, b: string, sep: char)
    requires AllDigits(a) && AllDigits(b) && a != [] && (sep == ',' || sep == '.')
    ensures SafeFloat(JStr(a + [sep] + b)) == Some(FixedPoint(a, b))
  {
    var s := a + [sep] + b;
    assert s[0] == a[0];
    CommaReplaced(a, b, sep);
    ParsePoint(a, b);
  }

  /** A string of digits is read as its value. */
  lemma SafeFloatInteger(a: string)
    requires AllDigits(a) && a != []
    ensures SafeFloat(JStr(a)) == Some(DigitsValue(a) as real)
  {
    assert a[0] != 'n' && a[0] != 'N';
    assert ReplaceChar(a, ',', '.') == a;
    ParseWhole(a);
  }

  /** A text without a single digit is not a number. */
  lemma SafeFloatNoDigit(s: string)
    requires forall i :: 0 <= i < |s| ==> !IsDigit(s[i])
    ensures SafeFloat(JStr(s)) == None
  {
    var t := ReplaceChar(s, ',', '.');
    assert forall j :: 0 <= j < |t| ==> !IsDigit(t[j]);
    var u := Strip(t);
    assert forall j :: 0 <= j < |u| ==> u[j] == t[LeadEnd(t, 0) + j];
    NoDigitUnsigned(u, SignEnd(u, 0));
  }

  lemma NoDigitUnsigned(u: string, a: nat)
    requires a <= |u| && forall j :: 0 <= j < |u| ==> !IsDigit(u[j])
    ensures Unsigned(u, a) == None
  {
    assert RunDigits(u, a) == [];
    if a < |u| && u[a] == '.' {
      assert RunDigits(u, a + 1) == [];
    }
  }

  /** Ten, as a number or as a text, is read as 10.0; the nulls are not numbers. */
  lemma SafeFloatTen()
    ensures SafeFloat(JNum(10.0)) == Some(10.0)
    ensures SafeFloat(JStr("10")) == Some(10.0)
    ensures SafeFloat(JNull) == None && SafeFloat(JStr("null")) == None
  {
    TenValue();
    SafeFloatInteger("10");
  }

  lemma TenValue()
    ensures AllDigits("10") && DigitsValue("10") == 10
  {
    assert "10"[..1] == "1" && "1"[..0] == [];
  }

  /** A word is not a number. */
  lemma SafeFloatWord()
    ensures SafeFloat(JStr("invalid")) == None
  {
    SafeFloatNoDigit("invalid");
  }

  // ----------------------------------------------------- _is_valid_tax_line

  /** The six keys `_is_valid_tax_line` looks at. */
  predicate NoAmountKeys(m: map<string, Json>) {
    "rate" !in m && "base_ht" !in m && "base" !in m && "tva" !in m && "amount" !in m
  }

  /** `_is_valid_tax_line`; calling `.get` on a value that is not a dictionary raises. */
  function IsValidTaxLine(line: Json): (r: Result<bool>)
    ensures !JsonTruthy(line) ==> r == Success(false)
    ensures JsonTruthy(line) && !line.JObj? ==> r == Failure(NotAMapping("rate"))
    ensures line.JObj? ==> r.Success?
  {
    if !JsonTruthy(line) then Success(false)
    else if !line.JObj? then Failure(NotAMapping("rate"))
    else
      var m := line.fields;
      var hasRate := SafeFloat(Get(m, "rate")).Some?;
      var hasBase := SafeFloat(Or(Get(m, "base_ht"), Get(m, "base"))).Some?;
      var hasTax := SafeFloat(Or(Get(m, "tva"), Get(m, "amount"))).Some?;
      Success(hasRate || hasBase || hasTax)
  }

  /**
   * A dictionary is a valid line when it holds a number as its rate, a
   * non-zero number as its `base_ht` or `tva`, or a number under `base` or
   * `amount` when the new-format key is missing; it is not one when it holds
   * none of the keys. A zero `base_ht` alone does not count: the `or` moves
   * on to the missing `base`.
   */
  lemma IsValidTaxLineKeys(m: map<string, Json>)
    requires m != map[]
    ensures NoAmountKeys(m) ==> IsValidTaxLine(JObj(m)) == Success(false)
    ensures "rate" in m && m["rate"].JNum? ==> IsValidTaxLine(JObj(m)) == Success(true)
    ensures "base_ht" in m && m["base_ht"].JNum? && m["base_ht"].x != 0.0 ==> IsValidTaxLine(JObj(m)) == Success(true)
    ensures "tva" in m && m["tva"].JNum? && m["tva"].x != 0.0 ==> IsValidTaxLine(JObj(m)) == Success(true)
    ensures "base_ht" !in m && "base" in m && m["base"].JNum? ==> IsValidTaxLine(JObj(m)) == Success(true)
    ensures "tva" !in m && "amount" in m && m["amount"].JNum? ==> IsValidTaxLine(JObj(m)) == Success(true)
    ensures m == map["base_ht" := JNum(0.0)] ==> IsValidTaxLine(JObj(m)) == Success(false)
  {
  }

  // ------------------------------------------------------- _parse_tax_lines

  /** The keys of the base, the tax and the total in one layout. */
  datatype Names = Names(base: string, tax: string, total: string)

  /** `tax_lines` entries: `base_ht`, `tva`, `ttc`. */
  const NewNames := Names("base_ht", "tva", "ttc")

  /** `tax_breakdown` entries: `base`, `amount`, `total`. */
  const LegacyNames := Names("base", "amount", "total")

  /**
   * What `for line in v` walks over: the items of a list, the characters of
   * a string, the keys of a dictionary. A key is a string, and a non-empty
   * string reaching `_is_valid_tax_line` raises there, so a dictionary with a
   * non-empty key raises and one whose keys are all empty gives nothing.
   */
  function Items(v: Json): (r: Result<seq<Json>>)
    ensures v.JArr? ==> r == Success(v.items)
    ensures v.JNull? || v.JBool? || v.JNum? ==> r == Failure(NotIterable)
  {
    match v
    case JArr(items) => Success(items)
    case JStr(s) => Success(seq(|s|, i requires 0 <= i < |s| => JStr([s[i]])))
    case JObj(m) => if exists k :: k in m && k != [] then Failure(NotAMapping("rate")) else Success([])
    case _ => Failure(NotIterable)
  }

  /**
   * An `Optional[str]` field of the pydantic record `model`: a text or
   * nothing; anything else is refused by that record's validation.
   */
  function OptionalText(v: Json, model: string): (r: Result<Option<string>>)
    ensures r.Success? <==> v.JNull? || v.JStr?
    ensures r.Success? ==> (r.value.None? <==> v.JNull?) && (v.JStr? ==> r.value == Some(v.s))
    ensures r.Failure? ==> r.error == ValidationFailed(model)
  {
    match v
    case JNull => Success(None)
    case JStr(s) => Success(Some(s))
    case _ => Failure(ValidationFailed(model))
  }

  /** One pass of the loop over entries: skipped, a new line, or the exception raised. */
  function EntryLine(line: Json, names: Names): (r: Result<Option<TaxLine>>)
  {
    var valid := IsValidTaxLine(line);
    if valid.Failure? then Failure(valid.error)
    else if !valid.value then Success(None)
    else
      var m := line.fields;
      var lineLabel := OptionalText(Get(m, "label"), "TaxLine");
      if lineLabel.Failure? then Failure(lineLabel.error)
      else
        var t := NewTaxLine(lineLabel.value, OrElse(SafeFloat(Get(m, "rate")), 0.0),
                            OrElse(SafeFloat(Get(m, names.base)), 0.0), OrElse(SafeFloat(Get(m, names.tax)), 0.0),
                            SafeFloat(Get(m, names.total)));
        if t.Failure? then Failure(t.error) else Success(Some(t.value))
  }

  /** What one pass of the loop over entries does. */
  type Outcome = Result<Option<TaxLine>>

  /** The outcome of each entry. */
  function Outcomes(items: seq<Json>, names: Names): (outs: seq<Outcome>)
    ensures |outs| == |items| && forall i :: 0 <= i < |items| ==> outs[i] == EntryLine(items[i], names)
  {
    seq(|items|, i requires 0 <= i < |items| => EntryLine(items[i], names))
  }

  /** The lines kept by a run of passes, or the first exception raised. */
  function Kept(outs: seq<Outcome>): Result<seq<TaxLine>> {
    if outs == [] then Success([])
    else
      var init := Kept(outs[..|outs| - 1]);
      var e := outs[|outs| - 1];
      if init.Failure? then init
      else if e.Failure? then Failure(e.error)
      else if e.value.Some? then Success(init.value + [e.value.value])
      else init
  }

  /** The lines the loop over `items` appends, or the first exception raised. */
  function Entries(items: seq<Json>, names: Names): Result<seq<TaxLine>> {
    Kept(Outcomes(items, names))
  }

  /** `tax_information`: one line when the rate is non-zero and a base or an amount is, none otherwise. */
  function Information(info: Json): (r: Result<seq<TaxLine>>)
    ensures r.Success? ==> |r.value| <= 1
    ensures !info.JObj? ==> r == Failure(NotAMapping("rate"))
  {
    if !info.JObj? then Failure(NotAMapping("rate"))
    else
      var m := info.fields;
      var rate := SafeFloat(Get(m, "rate"));
      var base := SafeFloat(Get(m, "base_ht"));
      var amount := SafeFloat(Get(m, "tax_amount"));
      if Truthy(rate) && (Truthy(base) || Truthy(amount)) then
        var t := NewTaxLine(None, rate.value, OrElse(base, 0.0), OrElse(amount, 0.0), SafeFloat(Get(m, "total_ttc")));
        if t.Failure? then Failure(t.error) else Success([t.value])
      else Success([])
  }

  /** The entries of one layout. */
  function Layout(v: Json, names: Names): Result<seq<TaxLine>> {
    var items := Items(v);
    if items.Failure? then Failure(items.error) else Entries(items.value, names)
  }

  /** The key is present and its value is truthy. */
  predicate HasTruthy(data: map<string, Json>, k: string) {
    k in data && JsonTruthy(data[k])
  }

  /** `_parse_tax_lines`: the first layout present (and, for the lists, non-empty) is the only one read. */
  function TaxLinesOf(data: map<string, Json>): Result<seq<TaxLine>> {
    if HasTruthy(data, "tax_lines") then Layout(data["tax_lines"], NewNames)
    else if HasTruthy(data, "tax_breakdown") then Layout(data["tax_breakdown"], LegacyNames)
    else if "tax_information" in data then Information(data["tax_information"])
    else Success([])
  }

  /** `_parse_tax_lines` */
  method ParseTaxLines(data: map<string, Json>) returns (r: Result<seq<TaxLine>>)
    ensures r == TaxLinesOf(data)
  {
    if "tax_lines" in data && JsonTruthy(data["tax_lines"]) {
      r := ParseLayout(data["tax_lines"], NewNames);
    } else if "tax_breakdown" in data && JsonTruthy(data["tax_breakdown"]) {
      r := ParseLayout(data["tax_breakdown"], LegacyNames);
    } else if "tax_information" in data {
      r := Information(data["tax_information"]);
    } else {
      r := Success([]);
    }
  }

  /** The loop `for line in v: if line and self._is_valid_tax_line(line): tax_lines.append(...)`. */
  method ParseLayout(v: Json, names: Names) returns (r: Result<seq<TaxLine>>)
    ensures r == Layout(v, names)
  {
    var items := Items(v);
    if items.Failure? {
      return Failure(items.error);
    }
    var lines: seq<TaxLine> := [];
    ghost var outs := Outcomes(items.value, names);
    for i := 0 to |items.value|
      invariant Kept(outs[..i]) == Success(lines)
    {
      var entry := EntryLine(items.value[i], names);
      assert entry == outs[i];
      KeptStep(outs, i);
      if entry.Failure? {
        KeptFailure(outs, i + 1);
        return Failure(entry.error);
      }
      if entry.value.Some? {
        lines := lines + [entry.value.value];
      }
    }
    assert outs[..|outs|] == outs;
    r := Success(lines);
  }

  /** One more pass of the loop. */
  lemma KeptStep(outs: seq<Outcome>, i: nat)
    requires i < |outs|
    ensures Kept(outs[..i + 1]) ==
      var init := Kept(outs[..i]);
      var e := outs[i];
      if init.Failure? then init
      else if e.Failure? then Failure(e.error)
      else if e.value.Some? then Success(init.value + [e.value.value])
      else init
  {
    assert outs[..i + 1][..i] == outs[..i];
  }

  /** Once the loop raises, the rest of the entries do not matter. */
  lemma {:induction false} KeptFailure(outs: seq<Outcome>, i: nat)
    requires i <= |outs| && Kept(outs[..i]).Failure?
    ensures Kept(outs) == Kept(outs[..i])
    decreases |outs| - i
  {
    if i < |outs| {
      assert outs[..i + 1][..i] == outs[..i];
      KeptFailure(outs, i + 1);
    } else {
      assert outs[..i] == outs;
    }
  }

  // ------------------------------------------------------------ properties

  /** A run of passes succeeds exactly when none of them raises. */
  lemma {:induction false} KeptSucceed(outs: seq<Outcome>)
    ensures Kept(outs).Success? <==> forall i :: 0 <= i < |outs| ==> outs[i].Success?
  {
    if outs != [] {
      var init := outs[..|outs| - 1];
      KeptSucceed(init);
      assert forall i :: 0 <= i < |init| ==> init[i] == outs[i];
    }
  }

  /** A run of passes keeps at most one line per pass. */
  lemma {:induction false} KeptLength(outs: seq<Outcome>)
    requires Kept(outs).Success?
    ensures |Kept(outs).value| <= |outs|
  {
    if outs != [] {
      KeptLength(outs[..|outs| - 1]);
    }
  }

  /** Every line kept was given by one of the passes. */
  lemma {:induction false} KeptFrom(outs: seq<Outcome>, l: TaxLine)
    requires Kept(outs).Success? && l in Kept(outs).value
    ensures exists i :: 0 <= i < |outs| && outs[i] == Success(Some(l))
  {
    var init := outs[..|outs| - 1];
    if l in Kept(init).value {
      KeptFrom(init, l);
      var i :| 0 <= i < |init| && init[i] == Success(Some(l));
      assert outs[i] == init[i];
    }
  }

  /** Every line a pass gives is kept. */
  lemma {:induction false} KeptKeep(outs: seq<Outcome>, i: nat, l: TaxLine)
    requires Kept(outs).Success? && i < |outs| && outs[i] == Success(Some(l))
    ensures l in Kept(outs).value
  {
    var init := outs[..|outs| - 1];
    if i < |init| {
      assert init[i] == outs[i];
      KeptKeep(init, i, l);
    }
  }

  /**
   * The loop over entries succeeds exactly when no entry raises; it then
   * keeps at most one line per entry, and a line is kept exactly when some
   * entry gives it.
   */
  lemma EntriesMeaning(items: seq<Json>, names: Names, l: TaxLine)
    ensures Entries(items, names).Success? <==> forall i :: 0 <= i < |items| ==> EntryLine(items[i], names).Success?
    ensures Entries(items, names).Success? ==> |Entries(items, names).value| <= |items|
    ensures Entries(items, names).Success? ==>
      (l in Entries(items, names).value <==> exists i :: 0 <= i < |items| && EntryLine(items[i], names) == Success(Some(l)))
  {
    var outs := Outcomes(items, names);
    KeptSucceed(outs);
    if Kept(outs).Success? {
      KeptLength(outs);
      if l in Kept(outs).value {
        KeptFrom(outs, l);
      }
      if exists i :: 0 <= i < |items| && EntryLine(items[i], names) == Success(Some(l)) {
        var i :| 0 <= i < |items| && EntryLine(items[i], names) == Success(Some(l));
        KeptKeep(outs, i, l);
      }
    }
  }

  /**
   * A kept entry's rate, base and tax are the numbers it holds, each missing
   * (or zero) one being 0; its label is kept.
   */
  lemma EntryDefaults(m: map<string, Json>, names: Names)
    requires EntryLine(JObj(m), names).Success? && EntryLine(JObj(m), names).value.Some?
    ensures var l := EntryLine(JObj(m), names).value.value;
      && l.rate == OrElse(SafeFloat(Get(m, "rate")), 0.0)
      && l.baseAmount == OrElse(SafeFloat(Get(m, names.base)), 0.0)
      && l.taxAmount == OrElse(SafeFloat(Get(m, names.tax)), 0.0)
      && ("rate" !in m ==> l.rate == 0.0)
      && (names.base !in m ==> l.baseAmount == 0.0)
      && (names.tax !in m ==> l.taxAmount == 0.0)
      && (l.lineLabel.Some? <==> "label" in m && m["label"].JStr?)
  {
  }

  /** Falsy entries and dictionaries without any of the amount keys are skipped; other values raise. */
  lemma EntrySkipped(line: Json, names: Names)
    ensures !JsonTruthy(line) ==> EntryLine(line, names) == Success(None)
    ensures line.JObj? && NoAmountKeys(line.fields) ==> EntryLine(line, names) == Success(None)
    ensures JsonTruthy(line) && !line.JObj? ==> EntryLine(line, names) == Failure(NotAMapping("rate"))
  {
    if line.JObj? && NoAmountKeys(line.fields) && line.fields != map[] {
      IsValidTaxLineKeys(line.fields);
    }
  }

  /** Exactly one layout is read: the others, whatever they hold, do not change the result. */
  lemma TaxLinesPriority(data: map<string, Json>, other: Json)
    ensures HasTruthy(data, "tax_lines") ==>
      TaxLinesOf(data) == Layout(data["tax_lines"], NewNames)
      && TaxLinesOf(data["tax_breakdown" := other]) == TaxLinesOf(data)
      && TaxLinesOf(data["tax_information" := other]) == TaxLinesOf(data)
    ensures !HasTruthy(data, "tax_lines") && HasTruthy(data, "tax_breakdown") ==>
      TaxLinesOf(data) == Layout(data["tax_breakdown"], LegacyNames)
      && TaxLinesOf(data["tax_information" := other]) == TaxLinesOf(data)
    ensures !HasTruthy(data, "tax_lines") && !HasTruthy(data, "tax_breakdown") && "tax_information" in data ==>
      TaxLinesOf(data) == Information(data["tax_information"])
    ensures !HasTruthy(data, "tax_lines") && !HasTruthy(data, "tax_breakdown") && "tax_information" !in data ==>
      TaxLinesOf(data) == Success([])
  {
    // The updated maps keep the other keys.
    assert "tax_lines" in data ==> data["tax_breakdown" := other]["tax_lines"] == data["tax_lines"];
    assert "tax_lines" in data ==> data["tax_information" := other]["tax_lines"] == data["tax_lines"];
    assert "tax_breakdown" in data ==> data["tax_information" := other]["tax_breakdown"] == data["tax_breakdown"];
  }

  /**
   * `tax_information` gives its one line exactly when the rate is non-zero,
   * the base or the amount is, and the amounts are in range; the line has no
   * label and a missing base or amount is 0.
   */
  lemma InformationMeaning(m: map<string, Json>)
    ensures var rate, base, amount := SafeFloat(Get(m, "rate")), SafeFloat(Get(m, "base_ht")), SafeFloat(Get(m, "tax_amount"));
      && (Information(JObj(m)) == Success([]) <==> !(Truthy(rate) && (Truthy(base) || Truthy(amount))))
      && (Information(JObj(m)).Success? && |Information(JObj(m)).value| == 1 <==>
           Truthy(rate) && (Truthy(base) || Truthy(amount))
           && FieldsInRange(rate.value, OrElse(base, 0.0), OrElse(amount, 0.0), SafeFloat(Get(m, "total_ttc"))))
      && (Information(JObj(m)).Success? && |Information(JObj(m)).value| == 1 ==>
           var l := Information(JObj(m)).value[0];
           l.lineLabel.None? && l.rate == rate.value && l.baseAmount == OrElse(base, 0.0) && l.taxAmount == OrElse(amount, 0.0))
  {
  }

  // ---------------------------------------------------- _parse_receipt_data

  /** `d.get(k, {})` */
  function GetOrEmpty(d: map<string, Json>, k: string): (v: Json)
    ensures k in d ==> v == d[k]
    ensures k !in d ==> v == JObj(map[])
  {
    if k in d then d[k] else JObj(map[])
  }

  /** `v.get(k)`, which raises when `v` is not a dictionary. */
  function Field(v: Json, k: string): (r: Result<Json>)
    ensures r.Success? <==> v.JObj?
    ensures v.JObj? ==> r.value == Get(v.fields, k)
    ensures !v.JObj? ==> r.error == NotAMapping(k)
  {
    if v.JObj? then Success(Get(v.fields, k)) else Failure(NotAMapping(k))
  }

  /** `_safe_float(totals.get(k1) or amounts.get(k2))`: the second is read only when the first is falsy. */
  function Preferred(totals: Json, k1: string, amounts: Json, k2: string): Result<Option<real>> {
    var a := Field(totals, k1);
    if a.Failure? then Failure(a.error)
    else if JsonTruthy(a.value) then Success(SafeFloat(a.value))
    else
      var b := Field(amounts, k2);
      if b.Failure? then Failure(b.error) else Success(SafeFloat(b.value))
  }

  /** The three totals of the data. */
  datatype Totals = Totals(subtotal: Option<real>, taxAmount: Option<real>, totalAmount: Option<real>)

  /** The totals as read from `totals`, falling back on `amounts`. */
  function TotalsOf(raw: map<string, Json>): Result<Totals> {
    var totals := GetOrEmpty(raw, "totals");
    var amounts := GetOrEmpty(raw, "amounts");
    var sub := Preferred(totals, "total_ht", amounts, "subtotal");
    if sub.Failure? then Failure(sub.error)
    else
      var tax := Preferred(totals, "total_tva", amounts, "tax_amount");
      if tax.Failure? then Failure(tax.error)
      else
        var total := Preferred(totals, "total_ttc", amounts, "total");
        if total.Failure? then Failure(total.error)
        else Success(Totals(sub.value, tax.value, total.value))
  }

  /** Each missing or zero total is replaced by the sum over the lines, when one of them is and there are lines. */
  function FromLines(t: Totals, lines: seq<TaxLine>): Totals {
    if !(Truthy(t.subtotal) && Truthy(t.taxAmount) && Truthy(t.totalAmount)) && lines != [] then
      Totals(if Truthy(t.subtotal) then t.subtotal else Some(SumBase(lines)),
             if Truthy(t.taxAmount) then t.taxAmount else Some(SumTax(lines)),
             if Truthy(t.totalAmount) then t.totalAmount else Some(SumTotal(lines)))
    else t
  }

  /** What `normalize_payment` is handed. */
  function PaymentOf(v: Json): Option<PaymentInput> {
    if !JsonTruthy(v) then None
    else if v.JStr? then Some(PayText(v.s))
    else Some(PayOther(true))
  }

  /** The six text fields, in the order they are read. */
  function Texts(vendor: map<string, Json>, transaction: map<string, Json>): Result<seq<Option<string>>> {
    var name := OptionalText(Get(vendor, "name"), "Receipt");
    var address := OptionalText(Get(vendor, "address"), "Receipt");
    var siret := OptionalText(Get(vendor, "siret"), "Receipt");
    var number := OptionalText(Get(transaction, "receipt_number"), "Receipt");
    var date := OptionalText(Get(transaction, "date"), "Receipt");
    var time := OptionalText(Get(transaction, "time"), "Receipt");
    if name.Success? && address.Success? && siret.Success? && number.Success? && date.Success? && time.Success? then
      Success([name.value, address.value, siret.value, number.value, date.value, time.value])
    else Failure(ValidationFailed("Receipt"))
  }

  /** The arguments given to `Receipt(...)`, or the exception raised while reading them. */
  function InputOf(raw: map<string, Json>, lines: seq<TaxLine>, t: Totals): Result<ReceiptInput> {
    var vendor := GetOrEmpty(raw, "vendor");
    var transaction := GetOrEmpty(raw, "transaction");
    var payment := GetOrEmpty(raw, "payment");
    if !vendor.JObj? then Failure(NotAMapping("name"))
    else if !transaction.JObj? then Failure(NotAMapping("receipt_number"))
    else if !payment.JObj? then Failure(NotAMapping("method"))
    else
      var texts := Texts(vendor.fields, transaction.fields);
      if texts.Failure? then Failure(texts.error)
      else
        var x := texts.value;
        Success(ReceiptInput(x[0], x[1], x[2], x[3], x[4], x[5], t.subtotal, t.taxAmount, t.totalAmount, lines,
                             PaymentOf(Get(payment.fields, "method"))))
  }

  /** `_parse_receipt_data`: the fields of the receipt built, or the exception raised. */
  function ReceiptData(raw: map<string, Json>): Result<Fields> {
    var lines := TaxLinesOf(raw);
    if lines.Failure? then Failure(lines.error)
    else
      var t := TotalsOf(raw);
      if t.Failure? then Failure(t.error)
      else
        var input := InputOf(raw, lines.value, FromLines(t.value, lines.value));
        if input.Failure? then Failure(input.error)
        else
          var init := Initial(input.value);
          if init.Failure? then Failure(init.error) else Success(Validated(init.value))
  }

  /** `_parse_receipt_data` */
  method ParseReceiptData(raw: map<string, Json>) returns (r: Result<Receipt>)
    ensures r.Success? <==> ReceiptData(raw).Success?
    ensures r.Failure? ==> r.error == ReceiptData(raw).error
    ensures r.Success? ==> fresh(r.value) && r.value.State() == ReceiptData(raw).value
  {
    var taxLines := ParseTaxLines(raw);
    if taxLines.Failure? {
      return Failure(taxLines.error);
    }
    var lines := taxLines.value;
    var totals := GetOrEmpty(raw, "totals");
    var amounts := GetOrEmpty(raw, "amounts");
    var sub := Preferred(totals, "total_ht", amounts, "subtotal");
    if sub.Failure? {
      return Failure(sub.error);
    }
    var tax := Preferred(totals, "total_tva", amounts, "tax_amount");
    if tax.Failure? {
      return Failure(tax.error);
    }
    var total := Preferred(totals, "total_ttc", amounts, "total");
    if total.Failure? {
      return Failure(total.error);
    }
    var subtotal, taxAmount, totalAmount := sub.value, tax.value, total.value;
    if !(Truthy(subtotal) && Truthy(taxAmount) && Truthy(totalAmount)) && lines != [] {
      if !Truthy(subtotal) {
        subtotal := Some(SumBase(lines));
      }
      if !Truthy(taxAmount) {
        taxAmount := Some(SumTax(lines));
      }
      if !Truthy(totalAmount) {
        totalAmount := Some(SumTotal(lines));
      }
    }
    assert Totals(subtotal, taxAmount, totalAmount) == FromLines(TotalsOf(raw).value, lines);
    var input := InputOf(raw, lines, Totals(subtotal, taxAmount, totalAmount));
    if input.Failure? {
      return Failure(input.error);
    }
    r := Receipt.Create(input.value);
  }

  /** A non-zero value under `totals` is used, whatever `amounts` holds. */
  lemma TotalsPreferred(totals: Json, k1: string, amounts: Json, k2: string, other: Json)
    requires totals.JObj? && k1 in totals.fields && JsonTruthy(totals.fields[k1])
    ensures Preferred(totals, k1, amounts, k2) == Success(SafeFloat(totals.fields[k1]))
    ensures Preferred(totals, k1, other, k2) == Preferred(totals, k1, amounts, k2)
  {
  }

  /** A missing or falsy value under `totals` falls back on `amounts`, which must then be a dictionary. */
  lemma TotalsFallback(totals: Json, k1: string, amounts: Json, k2: string)
    requires totals.JObj? && !(k1 in totals.fields && JsonTruthy(totals.fields[k1]))
    ensures amounts.JObj? ==> Preferred(totals, k1, amounts, k2) == Success(SafeFloat(Get(amounts.fields, k2)))
    ensures !amounts.JObj? ==> Preferred(totals, k1, amounts, k2) == Failure(NotAMapping(k2))
  {
  }

  /**
   * Without lines the totals are kept; with lines every non-zero total is
   * kept and every missing or zero one becomes the sum over the lines, so
   * all three are present.
   */
  lemma FromLinesMeaning(t: Totals, lines: seq<TaxLine>)
    ensures lines == [] ==> FromLines(t, lines) == t
    ensures Truthy(t.subtotal) && Truthy(t.taxAmount) && Truthy(t.totalAmount) ==> FromLines(t, lines) == t
    ensures lines != [] ==>
      var b := FromLines(t, lines);
      && b.subtotal == (if Truthy(t.subtotal) then t.subtotal else Some(SumBase(lines)))
      && b.taxAmount == (if Truthy(t.taxAmount) then t.taxAmount else Some(SumTax(lines)))
      && b.totalAmount == (if Truthy(t.totalAmount) then t.totalAmount else Some(SumTotal(lines)))
  {
  }

  /**
   * A receipt read from data with tax lines has all three totals and keeps
   * those lines; when the data gives no totals at all, they are the sums
   * over the lines (the grand total when that sum is not zero).
   */
  lemma ReceiptDataFilled(raw: map<string, Json>)
    requires ReceiptData(raw).Success? && TaxLinesOf(raw).value != []
    ensures var f, lines := ReceiptData(raw).value, TaxLinesOf(raw).value;
      && f.taxLines == lines
      && f.subtotal.Some? && f.taxAmount.Some? && f.totalAmount.Some?
      && (TotalsOf(raw).value == Totals(None, None, None) ==>
            f.subtotal == Some(SumBase(lines)) && f.taxAmount == Some(SumTax(lines))
            && (SumTotal(lines) != 0.0 ==> f.totalAmount == Some(SumTotal(lines))))
  {
    var lines := TaxLinesOf(raw).value;
    var input := InputOf(raw, lines, FromLines(TotalsOf(raw).value, lines)).value;
    BackfillMeaning(Initial(input).value);
  }

  /** The vendor's name and the date are copied from the data, the date normalised. */
  lemma ReceiptDataTexts(raw: map<string, Json>, vendor: map<string, Json>, transaction: map<string, Json>)
    requires ReceiptData(raw).Success?
    requires "vendor" in raw && raw["vendor"] == JObj(vendor) && "transaction" in raw && raw["transaction"] == JObj(transaction)
    ensures var f := ReceiptData(raw).value;
      && ("name" in vendor && vendor["name"].JStr? ==> f.vendorName == Some(vendor["name"].s))
      && ("name" !in vendor ==> f.vendorName.None?)
      && ("date" in transaction && transaction["date"].JStr? ==> f.date == Some(NormalizeDate(transaction["date"].s)))
  {
  }

  /**
   * Once the tax lines and totals are read, a vendor, transaction or payment
   * entry that is not a dictionary raises, and so does a text field holding
   * anything but a text or null.
   */
  lemma ReceiptDataRaises(raw: map<string, Json>)
    requires TaxLinesOf(raw).Success? && TotalsOf(raw).Success?
    ensures "vendor" in raw && !raw["vendor"].JObj? ==> ReceiptData(raw) == Failure(NotAMapping("name"))
    ensures "vendor" !in raw && "transaction" in raw && !raw["transaction"].JObj? ==>
      ReceiptData(raw) == Failure(NotAMapping("receipt_number"))
    ensures
      && "vendor" in raw && raw["vendor"].JObj? && "name" in raw["vendor"].fields && raw["vendor"].fields["name"].JNum?
      && GetOrEmpty(raw, "transaction").JObj? && GetOrEmpty(raw, "payment").JObj?
      ==> ReceiptData(raw) == Failure(ValidationFailed("Receipt"))
  {
  }

  /** A `tax_breakdown` of one entry gives its one line, read under the legacy keys. */
  lemma BreakdownExample()
    ensures
      var line := JObj(map["label" := JStr("TVA 10%"), "rate" := JNum(10.0), "base" := JNum(100.0), "amount" := JNum(10.0), "total" := JNum(110.0)]);
      TaxLinesOf(map["tax_breakdown" := JArr([line])]) == Success([TaxLine(Some("TVA 10%"), 10.0, 100.0, 10.0, 110.0)])
  {
    var line := JObj(map["label" := JStr("TVA 10%"), "rate" := JNum(10.0), "base" := JNum(100.0), "amount" := JNum(10.0), "total" := JNum(110.0)]);
    var l := TaxLine(Some("TVA 10%"), 10.0, 100.0, 10.0, 110.0);
    var m := line.fields;
    assert Get(m, "rate") == JNum(10.0) && Get(m, "label") == JStr("TVA 10%");
    assert Get(m, "base") == JNum(100.0) && Get(m, "amount") == JNum(10.0) && Get(m, "total") == JNum(110.0);
    assert IsValidTaxLine(line) == Success(true);
    assert NewTaxLine(Some("TVA 10%"), 10.0, 100.0, 10.0, Some(110.0)) == Success(l);
    assert EntryLine(line, LegacyNames) == Success(Some(l));
    var outs: seq<Outcome> := [Success(Some(l))];
    assert outs[..|outs| - 1] == [];
    assert Kept(outs) == Success([] + [l]);
    assert [] + [l] == [l];
    assert Outcomes([line], LegacyNames) == outs;
  }
}
