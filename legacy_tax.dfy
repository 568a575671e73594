/**
 * The tax records of the legacy path (`models/tax.py`): a tax line knows its
 * total (printed, or base plus tax rounded to cents), the class of its rate
 * and whether its printed total agrees with its amounts; a summary adds its
 * lines up and checks that its totals agree with each other.
 */
module LegacyTax {
  import opened Wrappers
  import opened BaseRule
  import opened PyFloat

  /** `TaxRateType` */
  datatype TaxRateType = SuperReduced | Reduced | Intermediate | Standard | Custom

  /** The string value of each member. */
  function RateTypeValue(t: TaxRateType): (v: string)
    ensures v != []
  {
    match t
    case SuperReduced => "super_reduced"
    case Reduced => "reduced"
    case Intermediate => "intermediate"
    case Standard => "standard"
    case Custom => "custom"
  }

  /** `TaxLine`; the rate is in percent. */
  datatype TaxLine = TaxLine(lineLabel: Option<string>, rate: real, baseAmount: real, taxAmount: real, totalWithTax: Option<real>)

  /** The field constraint of `TaxLine`: `0 <= rate <= 100`. */
  predicate WellFormed(l: TaxLine) {
    0.0 <= l.rate <= 100.0
  }

  /** Building a `TaxLine`: refused when the rate is out of range. */
  function NewTaxLine(lineLabel: Option<string>, rate: real, baseAmount: real, taxAmount: real, totalWithTax: Option<real>): (r: Result<TaxLine>)
    ensures r.Success? <==> 0.0 <= rate <= 100.0
    ensures r.Success? ==> WellFormed(r.value) && r.value == TaxLine(lineLabel, rate, baseAmount, taxAmount, totalWithTax)
    ensures r.Failure? ==> r.error == ValidationFailed("rate")
  {
    if 0.0 <= rate <= 100.0 then Success(TaxLine(lineLabel, rate, baseAmount, taxAmount, totalWithTax))
    else Failure(ValidationFailed("rate"))
  }

  /** `calculated_total` */
  function CalculatedTotal(l: TaxLine): real {
    if l.totalWithTax.Some? then l.totalWithTax.value else Round2(l.baseAmount + l.taxAmount)
  }

  /** The printed total is used as given; without one the total is base plus tax to within half a cent. */
  lemma CalculatedTotalProperties(l: TaxLine)
    ensures l.totalWithTax.Some? ==> CalculatedTotal(l) == l.totalWithTax.value
    ensures l.totalWithTax.None? ==> Abs(CalculatedTotal(l) - (l.baseAmount + l.taxAmount)) <= 0.005
  {
  }

  /** `rate_type` */
  function RateType(l: TaxLine): TaxRateType {
    if 2.0 <= l.rate <= 2.5 then SuperReduced
    else if 5.0 <= l.rate <= 6.0 then Reduced
    else if 9.0 <= l.rate <= 11.0 then Intermediate
    else if 19.0 <= l.rate <= 21.0 then Standard
    else Custom
  }

  /** Each class is exactly its band of rates; every other rate is custom. */
  lemma RateTypeBands(l: TaxLine)
    ensures RateType(l) == SuperReduced <==> 2.0 <= l.rate <= 2.5
    ensures RateType(l) == Reduced <==> 5.0 <= l.rate <= 6.0
    ensures RateType(l) == Intermediate <==> 9.0 <= l.rate <= 11.0
    ensures RateType(l) == Standard <==> 19.0 <= l.rate <= 21.0
    ensures RateType(l) == Custom <==>
      !(2.0 <= l.rate <= 2.5 || 5.0 <= l.rate <= 6.0 || 9.0 <= l.rate <= 11.0 || 19.0 <= l.rate <= 21.0)
  {
  }

  /** The French rates 2.1, 5.5, 10 and 20 percent fall in the classes named after them. */
  lemma FrenchRates(l: TaxLine)
    ensures l.rate == 2.1 ==> RateType(l) == SuperReduced
    ensures l.rate == 5.5 ==> RateType(l) == Reduced
    ensures l.rate == 10.0 ==> RateType(l) == Intermediate
    ensures l.rate == 20.0 ==> RateType(l) == Standard
  {
  }

  /** `is_valid` */
  predicate IsValid(l: TaxLine) {
    var calculated := Round2(l.baseAmount + l.taxAmount);
    if Truthy(l.totalWithTax) then Abs(calculated - l.totalWithTax.value) <= 0.02 else true
  }

  /** A line is valid exactly when it has no total, a zero one, or one within 0.02 of base plus tax rounded. */
  lemma IsValidMeaning(l: TaxLine)
    ensures IsValid(l) <==>
      l.totalWithTax.None? || l.totalWithTax.value == 0.0
      || Abs(Round2(l.baseAmount + l.taxAmount) - l.totalWithTax.value) <= 0.02
  {
  }

  /** A line whose printed total is base plus tax rounded is valid, and one whose printed total is farther than 0.025 from base plus tax is not. */
  lemma ValidWithCalculatedTotal(l: TaxLine)
    ensures IsValid(l.(totalWithTax := Some(Round2(l.baseAmount + l.taxAmount))))
    ensures Truthy(l.totalWithTax) && Abs(l.baseAmount + l.taxAmount - l.totalWithTax.value) > 0.025 ==> !IsValid(l)
  {
  }

  // ------------------------------------------------------------- summary

  /** `sum(line.base_amount for line in lines)` */
  function SumBase(lines: seq<TaxLine>): real {
    if lines == [] then 0.0 else SumBase(lines[..|lines| - 1]) + lines[|lines| - 1].baseAmount
  }

  /** `sum(line.tax_amount for line in lines)` */
  function SumTax(lines: seq<TaxLine>): real {
    if lines == [] then 0.0 else SumTax(lines[..|lines| - 1]) + lines[|lines| - 1].taxAmount
  }

  /** `sum(line.calculated_total for line in lines)` */
  function SumTotal(lines: seq<TaxLine>): real {
    if lines == [] then 0.0 else SumTotal(lines[..|lines| - 1]) + CalculatedTotal(lines[|lines| - 1])
  }

  /** Lines without printed totals add up to within half a cent per line of their bases plus taxes. */
  lemma {:induction false} SumTotalNear(lines: seq<TaxLine>)
    requires forall i :: 0 <= i < |lines| ==> lines[i].totalWithTax.None?
    ensures Abs(SumTotal(lines) - (SumBase(lines) + SumTax(lines))) <= 0.005 * |lines| as real
  {
    if lines != [] {
      var init := lines[..|lines| - 1];
      SumTotalNear(init);
    }
  }

  /** `TaxSummary` */
  class TaxSummary {
    var lines: seq<TaxLine>
    var totalHt: Option<real>
    var totalTax: Option<real>
    var totalTtc: Option<real>

    /** A summary of `lines` whose totals are not set. */
    constructor(lines: seq<TaxLine>)
      ensures this.lines == lines && totalHt.None? && totalTax.None? && totalTtc.None?
    {
      this.lines := lines;
      totalHt, totalTax, totalTtc := None, None, None;
    }

    /** `calculate_totals`: the sums of the lines, or nothing changed without lines. */
    method CalculateTotals()
      modifies this
      ensures lines == old(lines)
      ensures old(lines) == [] ==> totalHt == old(totalHt) && totalTax == old(totalTax) && totalTtc == old(totalTtc)
      ensures old(lines) != [] ==>
        totalHt == Some(SumBase(lines)) && totalTax == Some(SumTax(lines)) && totalTtc == Some(SumTotal(lines))
    {
      if lines != [] {
        totalHt := Some(SumBase(lines));
        totalTax := Some(SumTax(lines));
        totalTtc := Some(SumTotal(lines));
      }
    }

    /** `validate_coherence` */
    predicate ValidateCoherence()
      reads this
    {
      Coherent(totalHt, totalTax, totalTtc)
    }
  }

  /** The test of `validate_coherence` on three totals. */
  predicate Coherent(ht: Option<real>, tax: Option<real>, ttc: Option<real>) {
    if Truthy(ht) && Truthy(tax) && Truthy(ttc) then Abs(Round2(ht.value + tax.value) - ttc.value) <= 0.02
    else true
  }

  /** Totals are incoherent only when all three are non-zero and HT plus tax, rounded, is more than 0.02 off the TTC. */
  lemma CoherentMeaning(ht: Option<real>, tax: Option<real>, ttc: Option<real>)
    ensures !Coherent(ht, tax, ttc) <==>
      Truthy(ht) && Truthy(tax) && Truthy(ttc) && Abs(Round2(ht.value + tax.value) - ttc.value) > 0.02
  {
  }

  /**
   * Up to three lines without printed totals: the totals `calculate_totals`
   * sets are coherent.
   */
  lemma SmallSummaryCoherent(lines: seq<TaxLine>)
    requires 1 <= |lines| <= 3 && forall i :: 0 <= i < |lines| ==> lines[i].totalWithTax.None?
    ensures Coherent(Some(SumBase(lines)), Some(SumTax(lines)), Some(SumTotal(lines)))
  {
    SumTotalNear(lines);
  }
}
