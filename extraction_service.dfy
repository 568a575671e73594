/**
 * `ExtractionService.extract` (`core/extraction_service.py`): the raw OCR
 * text is normalised; the vendor and the date are read from it; every amount
 * rule runs on it and the merger combines their results. Without any result
 * there is no document; otherwise the merged amounts become a `Receipt` of
 * floats (modelled as reals), marked coherent, with the confidence capped at
 * 1.0, the normalised text and the merged notes.
 */
module ExtractionService {
  import opened Wrappers
  import opened BaseRule
  import opened Normalizer
  import opened VendorExtractor
  import opened DateExtractor
  import opened AmountsExtractor
  import opened RuleRegistry
  import opened Merger

  /** `core.models.tax.TaxLine`: four floats. */
  datatype TaxLine = TaxLine(rate: real, baseHt: real, tva: real, ttc: real)

  /** `core.models.receipt.Receipt`; the notes are kept as a set. */
  datatype Receipt = Receipt(
    vendor: Option<string>,
    date: Option<string>,
    totalTtc: Option<real>,
    totalHt: Option<real>,
    tvaAmount: Option<real>,
    tvaDetails: seq<TaxLine>,
    paymentMethod: Option<string>,
    tableNumber: Option<string>,
    covers: Option<int>,
    coherent: Option<bool>,
    confidence: Option<real>,
    rawText: string,
    notes: set<string>)

  /** `_f`: an amount as a float, `None` kept. */
  function AsFloat(x: Option<Money>): Option<real> {
    if x.Some? then Some(Real(x.value)) else None
  }

  /** `_f(x) or 0.0`: a missing amount, like a zero one, becomes `0.0`. */
  function AmountOrZero(x: Option<Money>): real {
    if x.Some? then Real(x.value) else 0.0
  }

  /** One entry of `details`. */
  function ToTaxLine(d: TaxRow): TaxLine {
    TaxLine(if d.rate.Some? then d.rate.value else 0.0, AmountOrZero(d.baseHt), AmountOrZero(d.tva), AmountOrZero(d.ttc))
  }

  /** `details` as a value: one line per merged row, in order. */
  function Details(rows: seq<TaxRow>): (lines: seq<TaxLine>)
    ensures |lines| == |rows|
  {
    seq(|rows|, i requires 0 <= i < |rows| => ToTaxLine(rows[i]))
  }

  /** The loop that fills `details`. */
  method ConvertDetails(rows: seq<TaxRow>) returns (details: seq<TaxLine>)
    ensures details == Details(rows)
  {
    details := [];
    for i := 0 to |rows|
      invariant |details| == i
      invariant forall k :: 0 <= k < i ==> details[k] == ToTaxLine(rows[k])
    {
      var d := rows[i];
      var rate := if d.rate.Some? then d.rate.value else 0.0;
      details := details + [TaxLine(rate, AmountOrZero(d.baseHt), AmountOrZero(d.tva), AmountOrZero(d.ttc))];
    }
  }

  /** The document built from the merged result. */
  function Build(vendor: Option<string>, date: Option<string>, norm: string, merged: ParseResult): Receipt {
    Receipt(vendor, date, AsFloat(merged.totalTtc), AsFloat(merged.totalHt), AsFloat(merged.tvaAmount),
            Details(merged.tvaDetails), None, None, None, Some(true), Some(MinReal(1.0, merged.confidence)),
            norm, merged.notes)
  }

  /** The rule results on the normalised text, or the exception a rule raised. */
  function RuleResults(norm: string): Result<seq<ParseResult>> {
    Collect(Outcomes(GetAmountRules(), norm))
  }

  /** What `extract` returns: the document, `None` without one, or the exception a rule raised. */
  function Extracted(raw: string): Result<Option<Receipt>> {
    Assemble(Normalize(raw), RuleResults(Normalize(raw)))
  }

  /** The document `extract` builds from the normalised text and the rule results on it. */
  function Assemble(norm: string, results: Result<seq<ParseResult>>): Result<Option<Receipt>> {
    if results.Failure? then Failure(results.error)
    else
      var merged := Merged(results.value);
      if merged.None? then Success(None)
      else Success(Some(Build(Vendor(norm), ExtractDate(norm), norm, merged.value)))
  }

  /** `ExtractionService.extract` */
  method Extract(raw: string) returns (res: Result<Option<Receipt>>)
    ensures res == Extracted(raw)
  {
    var norm := Normalize(raw);
    var vendor := ExtractVendor(norm);
    var date := ExtractDate(norm);
    var parseResults := AmountsExtractor.Extract(norm);
    if parseResults.Failure? {
      return Failure(parseResults.error);
    }
    var merged := Merge(parseResults.value);
    if merged.None? {
      return Success(None);
    }
    var m := merged.value;
    var details := ConvertDetails(m.tvaDetails);
    res := Success(Some(Receipt(vendor, date, AsFloat(m.totalTtc), AsFloat(m.totalHt), AsFloat(m.tvaAmount),
                                details, None, None, None, Some(true), Some(MinReal(1.0, m.confidence)),
                                norm, m.notes)));
  }

  // ------------------------------------------------------------ properties

  /** A rule that raises makes `extract` raise; otherwise there is a document exactly when some rule found something. */
  lemma DocumentPresence(norm: string, results: Result<seq<ParseResult>>)
    ensures Assemble(norm, results).Failure? <==> results.Failure?
    ensures results.Success? ==> (Assemble(norm, results) == Success(None) <==> results.value == [])
  {
  }

  /** The fixed fields of a document, and the text, vendor and date it is read from. */
  lemma DocumentFields(norm: string, results: Result<seq<ParseResult>>)
    requires Assemble(norm, results).Success? && Assemble(norm, results).value.Some?
    ensures var doc := Assemble(norm, results).value.value;
      && doc.coherent == Some(true)
      && doc.paymentMethod.None? && doc.tableNumber.None? && doc.covers.None?
      && doc.rawText == norm
      && doc.vendor == Vendor(norm) && doc.date == ExtractDate(norm)
  {
  }

  /** The confidence of a document is at most 1.0 and is the best confidence of the rules, capped at 1.0. */
  lemma DocumentConfidence(norm: string, results: Result<seq<ParseResult>>)
    requires Assemble(norm, results).Success? && Assemble(norm, results).value.Some?
    ensures var rs, c := results.value, Assemble(norm, results).value.value.confidence;
      && c.Some? && c.value <= 1.0
      && (forall i :: 0 <= i < |rs| ==> MinReal(1.0, rs[i].confidence) <= c.value)
      && (c.value == 1.0 || exists i :: 0 <= i < |rs| && rs[i].confidence == c.value)
  {
    MergedConfidence(results.value);
  }

  /** The notes of a document are those of all rule results. */
  lemma DocumentNotes(norm: string, results: Result<seq<ParseResult>>, n: string)
    requires Assemble(norm, results).Success? && Assemble(norm, results).value.Some?
    ensures var rs := results.value;
      n in Assemble(norm, results).value.value.notes <==> exists i :: 0 <= i < |rs| && n in rs[i].notes
  {
    MergedNotes(results.value, n);
  }

  /** The totals of a document are the merged totals in units, each missing one kept missing. */
  lemma DocumentTotals(norm: string, results: Result<seq<ParseResult>>)
    requires Assemble(norm, results).Success? && Assemble(norm, results).value.Some?
    ensures var doc, m := Assemble(norm, results).value.value, Merged(results.value).value;
      && (doc.totalTtc.Some? <==> m.totalTtc.Some?) && (doc.totalTtc.Some? ==> doc.totalTtc.value * 100.0 == m.totalTtc.value as real)
      && (doc.totalHt.Some? <==> m.totalHt.Some?) && (doc.totalHt.Some? ==> doc.totalHt.value * 100.0 == m.totalHt.value as real)
      && (doc.tvaAmount.Some? <==> m.tvaAmount.Some?) && (doc.tvaAmount.Some? ==> doc.tvaAmount.value * 100.0 == m.tvaAmount.value as real)
  {
  }

  /** Every merged row gives one line of the document, in order, and converts back when none of its parts is missing. */
  lemma DocumentDetails(norm: string, results: Result<seq<ParseResult>>)
    requires Assemble(norm, results).Success? && Assemble(norm, results).value.Some?
    ensures var lines, rows := Assemble(norm, results).value.value.tvaDetails, Merged(results.value).value.tvaDetails;
      && |lines| == |rows|
      && forall i :: 0 <= i < |rows| && FullRow(rows[i]) ==> Recovered(lines[i]) == rows[i]
  {
    var rows := Merged(results.value).value.tvaDetails;
    assert Assemble(norm, results).value.value.tvaDetails == Details(rows);
    DetailsRoundTrip(rows);
  }

  /** Every complete row of `details` reads back as the row it came from. */
  lemma DetailsRoundTrip(rows: seq<TaxRow>)
    ensures forall i :: 0 <= i < |rows| && FullRow(rows[i]) ==> Recovered(Details(rows)[i]) == rows[i]
  {
    forall i | 0 <= i < |rows| && FullRow(rows[i])
      ensures Recovered(Details(rows)[i]) == rows[i]
    {
      LineRoundTrip(rows[i]);
    }
  }

  /** A row with a rate and all three amounts. */
  predicate FullRow(d: TaxRow) {
    d.rate.Some? && d.baseHt.Some? && d.tva.Some? && d.ttc.Some?
  }

  /** The cents of a float amount that is a whole number of cents. */
  function CentsOf(x: real): Money {
    (x * 100.0).Floor
  }

  /** The row a line of the document reads back as. */
  function Recovered(l: TaxLine): TaxRow {
    TaxRow(Some(l.rate), Some(CentsOf(l.baseHt)), Some(CentsOf(l.tva)), Some(CentsOf(l.ttc)))
  }

  lemma CentsRoundTrip(m: Money)
    ensures CentsOf(Real(m)) == m
  {
    assert Real(m) * 100.0 == m as real;
  }

  /** A complete row converts to a line that reads back as the same row. */
  lemma LineRoundTrip(d: TaxRow)
    requires FullRow(d)
    ensures Recovered(ToTaxLine(d)) == d
  {
    CentsRoundTrip(d.baseHt.value);
    CentsRoundTrip(d.tva.value);
    CentsRoundTrip(d.ttc.value);
  }

  /** A missing amount and a zero amount give the same line. */
  lemma MissingIsZero(d: TaxRow)
    ensures ToTaxLine(d.(baseHt := None, tva := None, ttc := None)) == ToTaxLine(d.(baseHt := Some(0), tva := Some(0), ttc := Some(0)))
  {
  }
}
